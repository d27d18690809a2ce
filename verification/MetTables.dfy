/** What the tables that messages met at the super broker say of the clusters' queues. */
module MetTables {
  import opened Logs
  import opened Messages
  import opened ClusterTable
  import opened Handlers
  import opened TwoTier
  import opened Invariant
  import opened Guarantees
  import opened Staleness

  /** The table the super broker has after pulling the first m of these reports. */
  predicate TableAfter(pulled: seq<Report>, m: nat, table: seq<Entry>) {
    m <= |pulled| && table == PullAll(Entries(pulled[..m]))
  }

  /** Every table on the way was the super broker's after as many reports as it had pulled at that moment. */
  ghost predicate RealTables(pulled: seq<Report>, hops: seq<Hop>) {
    forall h :: h in hops && h.AtSuper? ==> TableAfter(pulled, h.pulls, h.table)
  }

  ghost predicate TablesInv(s: State) {
    && (forall p :: p in s.net ==> RealTables(s.pulled, p.hops))
    && (forall e, p :: e in s.clients && p in s.clients[e].answers ==> RealTables(s.pulled, p.hops))
  }

  lemma LaterReports(pulled: seq<Report>, more: seq<Report>, hops: seq<Hop>)
    requires RealTables(pulled, hops) && pulled <= more
    ensures RealTables(more, hops)
  {
    forall h | h in hops && h.AtSuper? ensures TableAfter(more, h.pulls, h.table) {
      assert TableAfter(pulled, h.pulls, h.table);
      assert more[..h.pulls] == pulled[..h.pulls];
    }
  }

  lemma OneMoreHop(pulled: seq<Report>, hops: seq<Hop>, h: Hop)
    requires RealTables(pulled, hops)
    requires h.AtSuper? ==> h.table == PullAll(Entries(pulled)) && h.pulls == |pulled|
    ensures RealTables(pulled, hops + [h])
  {
    assert pulled[..|pulled|] == pulled;
  }

  /** What a delivery puts into the net has the hops of what it takes, and one more. */
  lemma DeliveryAddsHop(add: Adder, s: State, n: nat) returns (h: Hop)
    requires Receivable(s, n)
    ensures h.AtSuper? ==> h.table == s.table && h.pulls == |s.pulled|
    ensures forall q :: q in DeliverPacket(add, s, n).net ==> q in s.net || q.hops == s.net[n].hops + [h]
    ensures forall e, p :: e in s.clients && p in DeliverPacket(add, s, n).clients[e].answers ==>
              p == s.net[n] || p in s.clients[e].answers
  {
    hide LocalRequest, LocalReply, RouteCloud, TaskRouter, Handlers.Process;
    match s.net[n].link
    case ClientUp(k, _) => h := AtFrontend(k, s.brokers[k].ready);
    case WorkerDown(k, w) => h := AtWorker(k, w);
    case WorkerUp(k, _) => h := AtBackend(k);
    case CloudUp(_) => h := AtSuper(s.table, |s.pulled|);
    case CloudDown(k) => h := AtCloud(k, s.brokers[k].ready);
    case ClientDown(k, _) => h := AtBackend(k);
  }

  lemma DeliveryKeepsTables(add: Adder, s: State, n: nat)
    requires TablesInv(s) && s.table == PullAll(Entries(s.pulled)) && Enabled(s, Deliver(n))
    ensures TablesInv(DeliverPacket(add, s, n))
  {
    var h := DeliveryAddsHop(add, s, n);
    OneMoreHop(s.pulled, s.net[n].hops, h);
    var t := DeliverPacket(add, s, n);
    assert t.pulled == s.pulled && t.clients.Keys == s.clients.Keys;
    hide DeliverPacket, RealTables;
  }

  lemma OthersKeepTables(add: Adder, s: State, a: Action)
    requires TablesInv(s) && Enabled(s, a) && !a.Deliver?
    ensures TablesInv(Apply(add, s, a))
  {
    var t := Apply(add, s, a);
    assert s.pulled <= t.pulled;
    forall p | p in t.net ensures RealTables(t.pulled, p.hops) {
      if p in s.net {
        LaterReports(s.pulled, t.pulled, p.hops);
      }
    }
    forall e, p | e in t.clients && p in t.clients[e].answers ensures RealTables(t.pulled, p.hops) {
      assert p in s.clients[e].answers;
      LaterReports(s.pulled, t.pulled, p.hops);
    }
  }

  lemma StepKeepsTables(add: Adder, s: State, a: Action)
    requires TablesInv(s) && s.table == PullAll(Entries(s.pulled)) && Enabled(s, a)
    ensures TablesInv(Apply(add, s, a))
  {
    hide TablesInv, DeliverPacket;
    if a.Deliver? {
      DeliveryKeepsTables(add, s, a.n);
    } else {
      OthersKeepTables(add, s, a);
    }
  }

  lemma {:induction false} RunKeepsTables(add: Adder, s: State, run: seq<Action>)
    requires Inv(add, s) && ReportInv(s) && TablesInv(s) && Runs(add, s, run)
    ensures TablesInv(After(add, s, run))
    decreases |run|
  {
    hide TablesInv, Enabled, Apply;
    if run != [] {
      StepKeepsTables(add, s, run[0]);
      StepKeepsReports(add, s, run[0]);
      StepKeepsInv(add, s, run[0]);
      RunKeepsTables(add, Apply(add, s, run[0]), run[1..]);
    }
  }

  /**
   * Each table that a message in flight or an answer met at the super broker was made of exactly the
   * reports pulled until then.
   */
  lemma ReachableTables(add: Adder, s: State)
    requires Reachable(add, s)
    ensures TablesInv(s)
  {
    hide Runs;
    var run :| Reaches(add, s.site, run, s);
    InitialInv(add, s.site);
    RunKeepsTables(add, InitialState(s.site), run);
  }

  // What such a table tells

  /** The last of these reports that cluster k sent. */
  function LastReport(reports: seq<Report>, k: string): Option<Report> {
    if reports == [] then None
    else if reports[|reports| - 1].name == k then Some(reports[|reports| - 1])
    else LastReport(reports[..|reports| - 1], k)
  }

  lemma {:induction false} LastReportIsLatest(reports: seq<Report>, k: string)
    ensures Latest(Entries(reports), k) ==
            match LastReport(reports, k) case None => None case Some(r) => Some(r.count)
    ensures var last := LastReport(reports, k);
            last.Some? ==> last.value in reports && last.value.name == k
  {
    if reports != [] {
      var front, r := reports[..|reports| - 1], reports[|reports| - 1];
      LastReportIsLatest(front, k);
      assert Front(Entries(reports)) == Entries(front);
    }
  }

  /** The length that the queue really had when the report was taken. */
  function LengthAt(s: State, r: Report): nat
    requires Sampled(s, r)
  {
    s.brokers[r.name].lengths[r.at - 1]
  }

  predicate Sampled(s: State, r: Report) {
    r.name in s.brokers && 1 <= r.at <= |s.brokers[r.name].lengths|
  }

  /** A report that was pulled comes from a cluster there is, and from a time its queue really had. */
  lemma PulledSampled(add: Adder, s: State, r: Report)
    requires Reachable(add, s) && r in s.pulled
    ensures Sampled(s, r) && r.count == LengthAt(s, r)
  {
    ReachableReports(add, s);
    SelectSubset(s.pulled, OfCluster(r.name));
    TimelineIsTrue(s, r.name);
    ReachableInv(add, s);
    hide Reachable, ReportInv, Truncate32;
    ReportsAreStaleButTrue(add, s, r.name);
  }

  /** The table lists exactly the clusters in these reports, each with the length its queue had at its last one. */
  ghost predicate Tells(s: State, reports: seq<Report>, table: seq<Entry>) {
    forall k :: var last := LastReport(reports, k);
      && (k in View(table) <==> last.Some?)
      && (last.Some? ==> last.value.name == k && Sampled(s, last.value) && View(table)[k] == LengthAt(s, last.value))
  }

  lemma TableTells(add: Adder, s: State, m: nat, table: seq<Entry>)
    requires Reachable(add, s) && TableAfter(s.pulled, m, table)
    ensures Tells(s, s.pulled[..m], table)
  {
    var reports := s.pulled[..m];
    PullAllHoldsLatest(Entries(reports));
    hide Reachable, View, PullAll, Entries, Latest, LengthAt, Sampled;
    forall k
      ensures var last := LastReport(reports, k);
              && (k in View(table) <==> last.Some?)
              && (last.Some? ==>
                    last.value.name == k && Sampled(s, last.value) && View(table)[k] == LengthAt(s, last.value))
    {
      LastReportIsLatest(reports, k);
      if LastReport(reports, k).Some? {
        PulledSampled(add, s, LastReport(reports, k).value);
      }
    }
  }

  /** What the reports pulled first say of cluster k, as far as it had reported at all. */
  predicate Showed(s: State, m: nat, k: string, length: nat)
    requires m <= |s.pulled|
  {
    var last := LastReport(s.pulled[..m], k);
    last.Some? && Sampled(s, last.value) && LengthAt(s, last.value) == length
  }

  /**
   * Going by the first m reports: either each cluster in them had last reported an empty queue; or cluster c
   * had last reported a queue that was not empty, and no cluster a longer one, nor one of a lesser name the
   * same, yet c had no ready worker when the request got there.
   */
  ghost predicate Excusable(s: State, m: nat, c: string, hops: seq<Hop>) {
    && m <= |s.pulled|
    && if c == "" then
         forall k, length: nat :: Showed(s, m, k, length) ==> length == 0
       else
         && (exists best: nat :: best > 0 && Showed(s, m, c, best) &&
               forall k, length: nat :: Showed(s, m, k, length) ==>
                 length < best || (length == best && (k == c || ByteBefore(c, k))))
         && |hops| == 5 && hops[2] == AtCloud(c, [])
  }

  /**
   * Every rejection a client receives goes back to true reports: the table its request met is what the
   * reports pulled until that moment had made of it, and those show lengths that the queues really had.
   */
  lemma RejectionsAreExcusable(add: Adder, s: State, e: Endpoint, j: nat)
    requires Reachable(add, s) && e in s.site.clients && e in s.clients && j < |s.clients[e].answers|
    requires s.clients[e].answers[j].msg.meta.direction.ReplyRejected?
    ensures var p := s.clients[e].answers[j];
            && |p.hops| >= 3 && p.hops[0] == AtFrontend(e.cluster, []) && p.hops[1].AtSuper?
            && TableAfter(s.pulled, p.hops[1].pulls, p.hops[1].table)
            && Excusable(s, p.hops[1].pulls, p.msg.meta.addr.fromCluster, p.hops)
  {
    AnswersFitRequests(add, s, e, j);
    ReachableTables(add, s);
    var p, c := s.clients[e].answers[j], s.clients[e].answers[j].msg.meta.addr.fromCluster;
    assert p in s.clients[e].answers && JustlyRejected(e.cluster, c, p.hops);
    hide Reachable, RightAnswer;
    assert p.hops[1] in p.hops && p.hops[1].AtSuper?;
    var m, table := p.hops[1].pulls, p.hops[1].table;
    assert RealTables(s.pulled, p.hops);
    TableTells(add, s, m, table);
    TableExcuses(s, m, table, e.cluster, c, p.hops);
  }

  lemma TableExcuses(s: State, m: nat, table: seq<Entry>, k: string, c: string, hops: seq<Hop>)
    requires TableAfter(s.pulled, m, table) && JustlyRejected(k, c, hops) && hops[1].table == table
    requires Tells(s, s.pulled[..m], table)
    ensures Excusable(s, m, c, hops)
  {
    hide View, Entries, PullAll, LengthAt, Sampled, Choose, LastReport;
    forall k, length: nat | Showed(s, m, k, length) ensures k in View(table) && View(table)[k] == length {}
    if c != "" {
      assert Showed(s, m, c, View(table)[c]);
    }
  }
}
