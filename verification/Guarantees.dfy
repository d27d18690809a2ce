/** What the data center promises in every reachable state. */
module Guarantees {
  import opened Logs
  import opened Messages
  import opened ClusterTable
  import opened TwoTier
  import opened Routes
  import opened Invariant
  import opened Delivery

  ghost predicate OnlyPacketOf(net: seq<Packet>, e: Endpoint, n: nat) {
    n < |net| && Owner(net[n]) == Some(e) && forall m :: 0 <= m < |net| && Owner(net[m]) == Some(e) ==> m == n
  }

  lemma CountIsUnique(net: seq<Packet>, e: Endpoint)
    requires Sum(net, OwnedBy(e)) == 1
    ensures exists n :: OnlyPacketOf(net, e, n)
  {
    var n := SumOneUnique(net, OwnedBy(e));
    forall m | 0 <= m < |net| && Owner(net[m]) == Some(e) ensures m == n {
      assert OwnedBy(e)(net[m]) == 1;
    }
    assert OnlyPacketOf(net, e, n);
  }

  lemma CountIsNone(net: seq<Packet>, e: Endpoint)
    requires Sum(net, OwnedBy(e)) == 0
    ensures forall n :: 0 <= n < |net| ==> Owner(net[n]) != Some(e)
  {
    forall n | 0 <= n < |net| ensures Owner(net[n]) != Some(e) {
      SumBounds(net, OwnedBy(e), n);
    }
  }

  /** What the invariant says of one client. */
  lemma ClientFacts(add: Adder, s: State, e: Endpoint)
    requires Reachable(add, s) && e in s.site.clients
    ensures e in s.clients && Answered(add, s.site, e, s.clients[e]) && Configured(s.site)
    ensures Sum(s.net, OwnedBy(e)) == if Waiting(s.clients[e]) then 1 else 0
  {
    ReachableInv(add, s);
    hide NetLegal, OneTokenPerWorker, AllBrokersSound, ReportsNamed, Answered, Reachable, Configured;
  }

  /**
   * A client that waits owns exactly one message anywhere, a client that does not wait owns none,
   * and answers have come back one for each request, in the order of the requests.
   */
  lemma ExactlyOneMessage(add: Adder, s: State, e: Endpoint)
    requires Reachable(add, s) && e in s.site.clients
    ensures e in s.clients
    ensures Waiting(s.clients[e]) <==> exists n :: OnlyPacketOf(s.net, e, n)
    ensures !Waiting(s.clients[e]) <==> forall n :: 0 <= n < |s.net| ==> Owner(s.net[n]) != Some(e)
    ensures |s.clients[e].requests| == |s.clients[e].answers| + if Waiting(s.clients[e]) then 1 else 0
    ensures forall j :: 0 <= j < |s.clients[e].answers| ==> s.clients[e].answers[j].serial == j
  {
    ClientFacts(add, s, e);
    hide Reachable, Configured, Answers, RealHops;
    if Waiting(s.clients[e]) {
      CountIsUnique(s.net, e);
    } else {
      CountIsNone(s.net, e);
    }
  }

  function Executions(): Hop -> int {
    (h: Hop) => if h.AtWorker? then 1 else 0
  }

  function SuperVisits(): Hop -> int {
    (h: Hop) => if h.AtSuper? then 1 else 0
  }

  lemma SumOfThree(a: Hop, b: Hop, c: Hop, f: Hop -> int)
    ensures Sum([a, b, c], f) == f(a) + f(b) + f(c)
  {
    assert [a, b, c] == [a, b] + [c] && [a, b] == [a] + [b];
    SumAppend([a, b], c, f);
    SumAppend([a], b, f);
  }

  lemma SumOfTwo(a: Hop, b: Hop, f: Hop -> int)
    ensures Sum([a, b], f) == f(a) + f(b)
  {
    assert [a, b] == [a] + [b];
    SumAppend([a], b, f);
  }

  lemma SumOfHops(hops: seq<Hop>, f: Hop -> int)
    ensures |hops| == 3 ==> Sum(hops, f) == f(hops[0]) + f(hops[1]) + f(hops[2])
    ensures |hops| == 5 ==> Sum(hops, f) == f(hops[0]) + f(hops[1]) + f(hops[2]) + f(hops[3]) + f(hops[4])
    ensures |hops| == 7 ==>
              Sum(hops, f) == f(hops[0]) + f(hops[1]) + f(hops[2]) + f(hops[3]) + f(hops[4]) + f(hops[5]) + f(hops[6])
  {
    if |hops| >= 3 {
      var rest := hops[3..];
      SumOfThree(hops[0], hops[1], hops[2], f);
      assert hops == [hops[0], hops[1], hops[2]] + rest;
      SumConcat([hops[0], hops[1], hops[2]], rest, f);
      if |hops| == 5 {
        SumOfTwo(hops[3], hops[4], f);
        assert rest == [hops[3], hops[4]];
      } else if |hops| == 7 {
        SumOfTwo(hops[3], hops[4], f);
        SumOfTwo(hops[5], hops[6], f);
        assert rest == [hops[3], hops[4]] + [hops[5], hops[6]];
        SumConcat([hops[3], hops[4]], [hops[5], hops[6]], f);
      }
    }
  }

  /** The worker at the head of cluster k's ready queue did the work, there. */
  predicate ServedAtHome(k: string, w: string, hops: seq<Hop>) {
    && |hops| == 3
    && hops[0].AtFrontend? && hops[0].cluster == k && hops[0].ready != [] && hops[0].ready[0] == w
    && hops[1] == AtWorker(k, w)
    && hops[2] == AtBackend(k)
  }

  /** No worker of cluster k was ready; the super broker chose c, whose first ready worker did the work. */
  predicate ServedElsewhere(k: string, c: string, w: string, hops: seq<Hop>) {
    && |hops| == (if c == k then 5 else 7)
    && hops[0] == AtFrontend(k, [])
    && hops[1].AtSuper? && Choose(hops[1].table) == Some(c)
    && hops[2].AtCloud? && hops[2].cluster == c && hops[2].ready != [] && hops[2].ready[0] == w
    && hops[3] == AtWorker(c, w)
    && hops[4] == AtBackend(c)
    && (c != k ==> hops[5].AtSuper? && hops[6].AtCloud? && hops[6].cluster == k)
  }

  lemma WorkedRouteCases(k: string, c: string, w: string, hops: seq<Hop>)
    requires WorkedRoute(k, c, w, hops)
    ensures (c == k && ServedAtHome(k, w, hops)) || ServedElsewhere(k, c, w, hops)
  {
    var done := if k == c then hops else hops[..|hops| - 2];
    assert Executed(k, c, w, done);
    var processed := done[..|done| - 1];
    var start := processed[..|processed| - 1];
    assert start == hops[..|start|];
    assert Assigned(k, c, w, start);
    if |start| == 3 {
      assert start[..2][1] == hops[1];
    }
  }

  /** No worker of cluster k was ready, and the super broker's table named no cluster to try. */
  predicate RejectedBySuper(k: string, hops: seq<Hop>) {
    && |hops| == 3
    && hops[0] == AtFrontend(k, [])
    && hops[1].AtSuper? && Choose(hops[1].table) == None
    && hops[2].AtCloud? && hops[2].cluster == k
  }

  /** No worker of cluster k was ready, and none in cluster c, which the super broker chose. */
  predicate RejectedByCluster(k: string, c: string, hops: seq<Hop>) {
    && |hops| == 5
    && hops[0] == AtFrontend(k, [])
    && hops[1].AtSuper? && Choose(hops[1].table) == Some(c)
    && hops[2] == AtCloud(c, [])
    && hops[3].AtSuper?
    && hops[4].AtCloud? && hops[4].cluster == k
  }

  lemma RejectedRouteCases(k: string, c: string, hops: seq<Hop>)
    requires RejectedRoute(k, c, hops)
    ensures if c == "" then RejectedBySuper(k, hops) else RejectedByCluster(k, c, hops)
  {
    if c == "" {
      assert hops[..2][1] == hops[1];
    } else {
      var tried := hops[..|hops| - 2];
      assert tried == hops[..3] && tried[..2][1] == hops[1];
    }
  }

  /**
   * What an answer p to request r of client e says: the same task id, addressed to that client in its
   * cluster, and either the sum of the very numbers it sent, computed once, by the worker of the
   * cluster that the `from` fields name, or a rejection of a request that no worker ever saw.
   */
  ghost predicate RightAnswer(add: Adder, site: Site, e: Endpoint, r: TaskRequest, p: Packet) {
    var m, a := p.msg, p.msg.meta.addr;
    && m.meta.taskID == r.taskID && a.toCluster == e.cluster && a.to == e.id
    && match m.meta.direction
       case Reply =>
         && m.body.Total? && SumsTo(add, r.arr, m.body.sum)
         && Endpoint(a.fromCluster, a.from) in site.workers
         && Sum(p.hops, Executions()) == 1
         && ((a.fromCluster == e.cluster && ServedAtHome(e.cluster, a.from, p.hops)) ||
             ServedElsewhere(e.cluster, a.fromCluster, a.from, p.hops))
       case ReplyRejected =>
         && m.body == Total(0.0)
         && Sum(p.hops, Executions()) == 0
         && JustlyRejected(e.cluster, a.fromCluster, p.hops)
       case _ => false
  }

  /**
   * The client's own cluster k had no ready worker, and either the super broker's table held no
   * positive count at all, or the cluster c with the best count, and the least name among those that
   * have it, had no ready worker when the request reached it.
   */
  ghost predicate JustlyRejected(k: string, c: string, hops: seq<Hop>) {
    if c == "" then RejectedBySuper(k, hops) && AllZero(View(hops[1].table))
    else RejectedByCluster(k, c, hops) && Best(View(hops[1].table), c)
  }

  lemma RejectionJustified(site: Site, k: string, c: string, hops: seq<Hop>)
    requires Configured(site) && RealHops(site, hops) && RejectedRoute(k, c, hops)
    ensures JustlyRejected(k, c, hops)
  {
    RejectedRouteCases(k, c, hops);
    var table := hops[1].table;
    assert RealHop(site, hops[1]);
    ChoiceIsBest(table);
    ViewKeys(table);
    assert !ValidName("") && "" !in site.clusters;
  }

  lemma AnswerIsRight(add: Adder, site: Site, e: Endpoint, r: TaskRequest, p: Packet)
    requires Configured(site) && RealHops(site, p.hops) && Answers(add, e, r, p.msg, p.hops)
    ensures RightAnswer(add, site, e, r, p)
  {
    hide Configured;
    var a := p.msg.meta.addr;
    SumOfHops(p.hops, Executions());
    FoldSums(add, r.arr, FoldLeft(add, r.arr));
    if p.msg.meta.direction == Reply {
      WorkedRouteCases(e.cluster, a.fromCluster, a.from, p.hops);
      assert AtWorker(a.fromCluster, a.from) in p.hops;
      assert RealHop(site, AtWorker(a.fromCluster, a.from));
    } else {
      RejectionJustified(site, e.cluster, a.fromCluster, p.hops);
    }
  }

  /** Answer j of every client is the right answer to its request j. */
  lemma AnswersFitRequests(add: Adder, s: State, e: Endpoint, j: nat)
    requires Reachable(add, s) && e in s.site.clients && e in s.clients && j < |s.clients[e].answers|
    ensures j < |s.clients[e].requests|
    ensures RightAnswer(add, s.site, e, s.clients[e].requests[j], s.clients[e].answers[j])
  {
    ClientFacts(add, s, e);
    hide Reachable, Configured, RightAnswer, Answers, RealHops;
    AnswerIsRight(add, s.site, e, s.clients[e].requests[j], s.clients[e].answers[j]);
  }

  /**
   * The way from a client and back takes at most eight deliveries, the receipt included, and passes
   * the super broker at most twice, even when a request is sent back to its own cluster.
   */
  lemma RouteBounded(add: Adder, s: State, e: Endpoint, j: nat)
    requires Reachable(add, s) && e in s.site.clients && e in s.clients && j < |s.clients[e].answers|
    ensures |s.clients[e].answers[j].hops| + 1 in {4, 6, 8}
    ensures Sum(s.clients[e].answers[j].hops, SuperVisits()) <= 2
  {
    AnswersFitRequests(add, s, e, j);
    hide Reachable, Best, AllZero;
    SumOfHops(s.clients[e].answers[j].hops, SuperVisits());
  }

  lemma VisitsBeforeLast(hops: seq<Hop>)
    requires hops != []
    ensures Sum(hops, SuperVisits()) == Sum(hops[..|hops| - 1], SuperVisits()) + SuperVisits()(hops[|hops| - 1])
  {
    assert hops == hops[..|hops| - 1] + [hops[|hops| - 1]];
    SumAppend(hops[..|hops| - 1], hops[|hops| - 1], SuperVisits());
  }

  /** A request that has overflowed has been to the super broker once. */
  lemma OverflowVisits(k: string, choice: Option<string>, hops: seq<Hop>)
    requires Overflowed(k, choice, hops)
    ensures Sum(hops, SuperVisits()) == 1
  {
    SumOfTwo(hops[0], hops[1], SuperVisits());
    assert hops == [hops[0], hops[1]];
  }

  lemma AssignedVisits(k: string, c: string, w: string, hops: seq<Hop>)
    requires Assigned(k, c, w, hops)
    ensures |hops| in {1, 3} && Sum(hops, SuperVisits()) <= 1
  {
    VisitsBeforeLast(hops);
    if RemoteRoute(k, c, w, hops) {
      OverflowVisits(k, Some(c), hops[..2]);
    }
  }

  lemma ProcessedVisits(k: string, c: string, w: string, hops: seq<Hop>)
    requires Processed(k, c, w, hops)
    ensures |hops| in {2, 4} && Sum(hops, SuperVisits()) <= 1
  {
    VisitsBeforeLast(hops);
    AssignedVisits(k, c, w, hops[..|hops| - 1]);
  }

  lemma ExecutedVisits(k: string, c: string, w: string, hops: seq<Hop>)
    requires Executed(k, c, w, hops)
    ensures |hops| in {3, 5} && Sum(hops, SuperVisits()) <= 1
  {
    VisitsBeforeLast(hops);
    ProcessedVisits(k, c, w, hops[..|hops| - 1]);
  }

  lemma RefusedVisits(k: string, c: string, hops: seq<Hop>)
    requires Refused(k, c, hops)
    ensures Sum(hops, SuperVisits()) == 1
  {
    VisitsBeforeLast(hops);
    OverflowVisits(k, Some(c), hops[..2]);
  }

  /** What came down from the super broker last had been there once less before. */
  lemma LandedVisits(k: string, hops: seq<Hop>)
    requires Landed(k, hops)
    ensures Sum(hops, SuperVisits()) == Sum(hops[..|hops| - 2], SuperVisits()) + 1
  {
    VisitsBeforeLast(hops);
    var before := hops[..|hops| - 1];
    VisitsBeforeLast(before);
    assert before[..|before| - 1] == hops[..|hops| - 2];
  }

  lemma AnswerVisits(add: Adder, e: Endpoint, r: TaskRequest, m: Message, hops: seq<Hop>)
    requires Answers(add, e, r, m, hops)
    ensures |hops| <= 7 && Sum(hops, SuperVisits()) <= 2
  {
    var a := m.meta.addr;
    if m.meta.direction.Reply? {
      if a.fromCluster == e.cluster {
        ExecutedVisits(e.cluster, a.fromCluster, a.from, hops);
      } else {
        LandedVisits(e.cluster, hops);
        ExecutedVisits(e.cluster, a.fromCluster, a.from, hops[..|hops| - 2]);
      }
    } else if a.fromCluster == "" {
      VisitsBeforeLast(hops);
      OverflowVisits(e.cluster, None, hops[..2]);
    } else {
      LandedVisits(e.cluster, hops);
      RefusedVisits(e.cluster, a.fromCluster, hops[..|hops| - 2]);
    }
  }

  /** What a message in the cloud has behind it. */
  lemma CloudVisits(add: Adder, e: Endpoint, r: TaskRequest, p: Packet)
    requires Fits(add, e, r, p) && (p.link.CloudUp? || p.link.CloudDown?)
    ensures |p.hops| + Rank(p) <= 8 && Sum(p.hops, SuperVisits()) <= 2
  {
    var a, before := p.msg.meta.addr, if p.hops == [] then [] else p.hops[..|p.hops| - 1];
    VisitsBeforeLast(p.hops);
    match p.msg.meta.direction
    case Submit =>
      if p.link.CloudDown? {
        OverflowVisits(e.cluster, Some(p.link.cluster), p.hops);
      }
    case Reply => ExecutedVisits(e.cluster, a.fromCluster, a.from, if p.link.CloudUp? then p.hops else before);
    case ReplyRejected =>
      if p.link.CloudUp? {
        RefusedVisits(e.cluster, p.link.cluster, p.hops);
      } else if a.fromCluster == "" {
        OverflowVisits(e.cluster, None, p.hops);
      } else {
        RefusedVisits(e.cluster, a.fromCluster, before);
      }
  }

  lemma FitsBounded(add: Adder, e: Endpoint, r: TaskRequest, p: Packet)
    requires Fits(add, e, r, p)
    ensures |p.hops| + Rank(p) <= 8 && Sum(p.hops, SuperVisits()) <= 2
  {
    match p.link
    case ClientUp(_, _) =>
    case WorkerDown(c, w) => AssignedVisits(e.cluster, c, w, p.hops);
    case WorkerUp(c, w) => ProcessedVisits(e.cluster, c, w, p.hops);
    case CloudUp(_) => CloudVisits(add, e, r, p);
    case CloudDown(_) => CloudVisits(add, e, r, p);
    case ClientDown(_, _) => AnswerVisits(add, e, r, p.msg, p.hops);
  }

  /**
   * Wherever a message of a client is, the deliveries behind it and those it may still need make at most
   * eight, and it has passed the super broker at most twice.
   */
  lemma InFlightBounded(add: Adder, s: State, n: nat)
    requires Reachable(add, s) && n < |s.net| && s.net[n].msg.meta.taskType.NormalTask?
    ensures |s.net[n].hops| + Rank(s.net[n]) <= 8
    ensures Sum(s.net[n].hops, SuperVisits()) <= 2
  {
    ReachableInv(add, s);
    hide AllAnswered, ReportsNamed, AllBrokersSound, OneMessagePerWait, OneTokenPerWorker, RealHops, Reachable;
    var p := s.net[n];
    assert Legal(add, s.clients, p);
    hide Fits, Rank;
    FitsBounded(add, Owner(p).value, s.clients[Owner(p).value].requests[p.serial], p);
  }

  predicate WaitsAt(s: State, e: Endpoint) {
    e in s.clients && Waiting(s.clients[e])
  }

  /** What the receiver of a packet may rely on. */
  predicate WellRouted(s: State, p: Packet) {
    var m, a := p.msg, p.msg.meta.addr;
    && (p.link.CloudDown? ==>
          && m.meta.taskType.NormalTask? && a.toCluster == p.link.cluster
          && (!m.meta.direction.Submit? ==> WaitsAt(s, Endpoint(p.link.cluster, a.to))))
    && (p.link.CloudUp? && m.meta.taskType.NormalTask? && m.meta.direction.Submit? ==>
          a.from != "" && a.fromCluster != "")
    && (p.link.ClientDown? ==> m.meta.taskType.NormalTask? && WaitsAt(s, Endpoint(p.link.cluster, p.link.id)))
  }

  lemma FitsWellRouted(add: Adder, s: State, e: Endpoint, r: TaskRequest, p: Packet)
    requires Fits(add, e, r, p) && WaitsAt(s, e) && e.cluster != "" && e.id != ""
    ensures WellRouted(s, p)
  {
  }

  /**
   * Every packet is on a link whose end exists. From the cloud a cluster gets only requests offered
   * to it and answers for its own waiting clients; and no request reaches the super broker without
   * both `from` fields, so the branch for null tasks is never taken.
   */
  lemma RoutingSound(add: Adder, s: State, n: nat)
    requires Reachable(add, s) && n < |s.net|
    ensures Manned(s) && Exists(s.site, s.net[n].link)
    ensures WellRouted(s, s.net[n])
  {
    ReachableInv(add, s);
    hide AllAnswered, ReportsNamed, AllBrokersSound, OneMessagePerWait, OneTokenPerWorker, RealHops, Reachable;
    var p := s.net[n];
    assert Legal(add, s.clients, p);
    if p.msg.meta.taskType.NormalTask? {
      assert ValidName(Owner(p).value.cluster) && ValidName(Owner(p).value.id);
      hide NetLegal, Legal, Configured, Choose;
      FitsWellRouted(add, s, Owner(p).value, s.clients[Owner(p).value].requests[p.serial], p);
    }
  }

  /** The packet that handling packet n sends on; it belongs to the same client. */
  lemma HandlerSends(add: Adder, s: State, n: nat) returns (q: Packet)
    requires Inv(add, s) && Enabled(s, Deliver(n))
    requires !s.net[n].link.ClientDown? && s.net[n].msg.meta.taskType.NormalTask?
    ensures DeliverPacket(add, s, n).net == Without(s.net, n) + [q] && Owner(q) == Owner(s.net[n])
  {
    hide Inv, Owner, DeliverPacket, Legal, Exists, RealHops, Oldest, Waiting;
    match s.net[n].link
    case ClientUp(_, _) => q := FrontendSends(add, s, n);
    case WorkerDown(_, _) => q := WorkerSends(add, s, n);
    case WorkerUp(_, _) => q := BackendSends(add, s, n);
    case CloudUp(_) => q := SuperSends(add, s, n);
    case CloudDown(_) => q := CloudSends(add, s, n);
  }

  /** No handler's message is ever dropped: each delivery but the last sends one packet on. */
  lemma NothingDropped(add: Adder, s: State, n: nat)
    requires Reachable(add, s) && Enabled(s, Deliver(n))
    requires !s.net[n].link.ClientDown? && s.net[n].msg.meta.taskType.NormalTask?
    ensures |DeliverPacket(add, s, n).net| == |s.net|
    ensures Owner(DeliverPacket(add, s, n).net[|s.net| - 1]) == Owner(s.net[n])
  {
    ReachableInv(add, s);
    assert |Without(s.net, n)| == |s.net| - 1;
    hide Inv, Reachable, DeliverPacket, Owner, Without, Configured, Exists, Oldest, Manned;
    var q := HandlerSends(add, s, n);
  }
}
