/** How old and how true the super broker's table is. */
module Staleness {
  import opened Logs
  import opened Messages
  import opened ClusterTable
  import opened Handlers
  import opened TwoTier
  import opened Invariant
  import opened ReadyQueues

  /** Reports of cluster k, in the order they arrived, wait to be pulled, and wait to be pushed. */
  function Timeline(s: State, k: string): seq<Report> {
    Select(s.pulled, OfCluster(k)) + Select(s.pushed, OfCluster(k)) + Select(s.inproc, OfCluster(k))
  }

  function Entries(reports: seq<Report>): seq<Entry> {
    if reports == [] then []
    else Entries(reports[..|reports| - 1]) + [Entry(reports[|reports| - 1].name, reports[|reports| - 1].count)]
  }

  /** A sample is the length the queue had when `at` lengths had been recorded. */
  predicate TrueSample(brokers: map<string, Broker>, r: Report) {
    && r.name in brokers
    && 1 <= r.at <= |brokers[r.name].lengths|
    && r.count == Truncate32(brokers[r.name].lengths[r.at - 1])
  }

  ghost predicate Monotone(reports: seq<Report>) {
    forall i, j :: 0 <= i < j < |reports| && reports[i].name == reports[j].name ==> reports[i].at <= reports[j].at
  }

  ghost predicate ReportInv(s: State) {
    && (forall k :: Timeline(s, k) == Select(s.sampled, OfCluster(k)))
    && (forall r :: r in s.sampled ==> TrueSample(s.brokers, r))
    && Monotone(s.sampled)
    && s.table == PullAll(Entries(s.pulled))
  }

  lemma {:induction false} EntriesAppend(reports: seq<Report>, r: Report)
    ensures Entries(reports + [r]) == Entries(reports) + [Entry(r.name, r.count)]
  {
    assert (reports + [r])[..|reports|] == reports;
  }

  lemma PullAllAppend(reports: seq<Entry>, r: Entry)
    ensures PullAll(reports + [r]) == Upsert(PullAll(reports), r.name, r.count)
  {
    assert Front(reports + [r]) == reports;
  }

  lemma SelectAppend(reports: seq<Report>, r: Report, k: string)
    ensures Select(reports + [r], OfCluster(k)) == Select(reports, OfCluster(k)) + if r.name == k then [r] else []
  {
    SelectConcat(reports, [r], OfCluster(k));
    assert Select([r], OfCluster(k)) == if r.name == k then [r] else [];
  }

  /** Moving the oldest report of a cluster from one stage to the next keeps every cluster's line. */
  lemma MoveKeepsLine(to: seq<Report>, from: seq<Report>, n: nat, k: string)
    requires n < |from| && Oldest(from, n, OfCluster(from[n].name))
    ensures Select(to + [from[n]], OfCluster(k)) + Select(Without(from, n), OfCluster(k))
            == Select(to, OfCluster(k)) + Select(from, OfCluster(k))
  {
    SelectAppend(to, from[n], k);
    if from[n].name == k {
      SelectWithoutOldest(from, n, OfCluster(k));
    } else {
      SelectWithoutOther(from, n, OfCluster(k));
    }
  }

  lemma SampleKeeps(s: State, k: string, t: State, r: Report)
    requires ReportInv(s) && k in s.brokers && BrokerSound(s.brokers[k])
    requires r == Report(k, s.brokers[k].readyCount, |s.brokers[k].lengths|)
    requires t == s.(inproc := s.inproc + [r], sampled := s.sampled + [r])
    ensures ReportInv(t)
  {
    forall j ensures Timeline(t, j) == Select(t.sampled, OfCluster(j)) {
      SelectAppend(s.inproc, r, j);
      SelectAppend(s.sampled, r, j);
      assert Timeline(s, j) == Select(s.sampled, OfCluster(j));
    }
    assert TrueSample(s.brokers, r);
    forall i, j | 0 <= i < j < |t.sampled| && t.sampled[i].name == t.sampled[j].name
      ensures t.sampled[i].at <= t.sampled[j].at
    {
      assert t.sampled[i] in s.sampled;
      assert TrueSample(s.brokers, t.sampled[i]);
    }
  }

  lemma LineForwarded(s: State, n: nat, t: State, j: string)
    requires n < |s.inproc| && Oldest(s.inproc, n, OfCluster(s.inproc[n].name))
    requires t == s.(inproc := Without(s.inproc, n), pushed := s.pushed + [s.inproc[n]])
    ensures Timeline(t, j) == Timeline(s, j)
  {
    MoveKeepsLine(s.pushed, s.inproc, n, j);
    hide Select, Without, Oldest;
    var a, b, c := Select(s.pulled, OfCluster(j)), Select(t.pushed, OfCluster(j)), Select(t.inproc, OfCluster(j));
    assert a + b + c == a + (b + c);
  }

  lemma ForwardKeeps(s: State, n: nat, t: State)
    requires ReportInv(s) && n < |s.inproc| && Oldest(s.inproc, n, OfCluster(s.inproc[n].name))
    requires t == s.(inproc := Without(s.inproc, n), pushed := s.pushed + [s.inproc[n]])
    ensures ReportInv(t)
  {
    hide Timeline, TrueSample, Monotone, Entries, PullAll;
    forall j ensures Timeline(t, j) == Timeline(s, j) {
      LineForwarded(s, n, t, j);
    }
  }

  lemma PullKeeps(s: State, n: nat, t: State)
    requires ReportInv(s) && n < |s.pushed| && Oldest(s.pushed, n, OfCluster(s.pushed[n].name))
    requires var r := s.pushed[n];
             t == s.(pushed := Without(s.pushed, n),
                     pulled := s.pulled + [r],
                     table := Upsert(s.table, r.name, r.count))
    ensures ReportInv(t)
  {
    forall j ensures Timeline(t, j) == Timeline(s, j) {
      MoveKeepsLine(s.pulled, s.pushed, n, j);
    }
    var r := s.pushed[n];
    EntriesAppend(s.pulled, r);
    PullAllAppend(Entries(s.pulled), Entry(r.name, r.count));
  }

  /** Steps that touch no report keep the samples true, because recorded lengths stay. */
  lemma OthersKeepReports(s: State, t: State)
    requires ReportInv(s)
    requires t.inproc == s.inproc && t.pushed == s.pushed && t.pulled == s.pulled
    requires t.sampled == s.sampled && t.table == s.table
    requires forall k :: k in s.brokers ==> k in t.brokers && s.brokers[k].lengths <= t.brokers[k].lengths
    ensures ReportInv(t)
  {
    forall k ensures Timeline(t, k) == Timeline(s, k) {}
  }

  lemma StepKeepsReports(add: Adder, s: State, a: Action)
    requires ReportInv(s) && AllBrokersSound(s.site, s.brokers) && Enabled(s, a)
    ensures ReportInv(Apply(add, s, a))
  {
    hide ReportInv;
    var t := Apply(add, s, a);
    match a
    case SampleState(k) => SampleKeeps(s, k, t, t.inproc[|s.inproc|]);
    case ForwardReport(n) => ForwardKeeps(s, n, t);
    case PullReport(n) => PullKeeps(s, n, t);
    case _ =>
      forall k | k in s.brokers ensures k in t.brokers && s.brokers[k].lengths <= t.brokers[k].lengths {
        StepExtends(add, s, a, k);
      }
      OthersKeepReports(s, t);
  }

  lemma {:induction false} RunKeepsReports(add: Adder, s: State, run: seq<Action>)
    requires Inv(add, s) && ReportInv(s) && Runs(add, s, run)
    ensures ReportInv(After(add, s, run))
    decreases |run|
  {
    hide ReportInv, Enabled, Apply;
    if run != [] {
      StepKeepsReports(add, s, run[0]);
      StepKeepsInv(add, s, run[0]);
      RunKeepsReports(add, Apply(add, s, run[0]), run[1..]);
    }
  }

  lemma ReachableReports(add: Adder, s: State)
    requires Reachable(add, s)
    ensures ReportInv(s)
  {
    hide Runs;
    var run :| Reaches(add, s.site, run, s);
    InitialInv(add, s.site);
    RunKeepsReports(add, InitialState(s.site), run);
  }

  lemma {:induction false} SelectKeepsTimes(reports: seq<Report>, k: string, at: nat)
    requires forall i :: 0 <= i < |reports| && reports[i].name == k ==> at <= reports[i].at
    ensures forall j :: 0 <= j < |Select(reports, OfCluster(k))| ==> at <= Select(reports, OfCluster(k))[j].at
  {
    if reports != [] {
      SelectKeepsTimes(reports[1..], k, at);
    }
  }

  /** The reports of one cluster, taken out of monotone ones, never go back. */
  lemma {:induction false} SelectMonotone(reports: seq<Report>, k: string)
    requires Monotone(reports)
    ensures Monotone(Select(reports, OfCluster(k)))
  {
    if reports != [] {
      SelectMonotone(reports[1..], k);
      if reports[0].name == k {
        SelectKeepsTimes(reports[1..], k, reports[0].at);
      }
    }
  }

  lemma TimelineIsTrue(s: State, k: string)
    requires ReportInv(s)
    ensures Select(s.pulled, OfCluster(k)) <= Select(s.sampled, OfCluster(k))
    ensures Monotone(Select(s.sampled, OfCluster(k)))
    ensures forall r :: r in Select(s.pulled, OfCluster(k)) ==> r.name == k && TrueSample(s.brokers, r)
  {
    hide TrueSample;
    assert Timeline(s, k) == Select(s.sampled, OfCluster(k));
    SelectMonotone(s.sampled, k);
    SelectSubset(s.sampled, OfCluster(k));
    forall r | r in Select(s.pulled, OfCluster(k)) ensures r.name == k && TrueSample(s.brokers, r) {
      assert r in Timeline(s, k);
    }
  }

  lemma CountersExact(add: Adder, s: State, k: string)
    requires Reachable(add, s) && k in s.site.clusters
    ensures k in s.brokers && s.brokers[k].readyCount == |s.brokers[k].ready|
    ensures forall l :: l in s.brokers[k].lengths ==> l <= |WorkerIds(s.site, k)| && Truncate32(l) == l
  {
    hide Reachable;
    ReachableInv(add, s);
    hide NetLegal, OneMessagePerWait, AllAnswered, ReportsNamed, OneTokenPerWorker, Truncate32;
    var b := s.brokers[k];
    assert BrokerSound(b) && |WorkerIds(s.site, k)| < TWO_TO_32;
    hide Configured, AllBrokersSound;
    assert b.lengths[|b.lengths| - 1] in b.lengths;
    forall l | l in b.lengths ensures Truncate32(l) == l {
      TruncateSmall(l);
    }
  }

  /**
   * The reports the super broker has of a cluster are the first ones that cluster took, in order.
   * Each holds a length its ready queue really had, no larger than the cluster has workers, and they
   * come from points of the queue's history that never go back. Nothing else is in its table.
   */
  lemma ReportsAreStaleButTrue(add: Adder, s: State, k: string)
    requires Reachable(add, s) && k in s.site.clusters
    ensures k in s.brokers && s.brokers[k].readyCount == |s.brokers[k].ready|
    ensures Select(s.pulled, OfCluster(k)) <= Select(s.sampled, OfCluster(k))
    ensures Monotone(Select(s.sampled, OfCluster(k)))
    ensures forall r :: r in Select(s.pulled, OfCluster(k)) ==>
              && 1 <= r.at <= |s.brokers[k].lengths|
              && r.count == s.brokers[k].lengths[r.at - 1]
              && r.count <= |WorkerIds(s.site, k)|
    ensures s.table == PullAll(Entries(s.pulled))
  {
    ReachableReports(add, s);
    CountersExact(add, s, k);
    TimelineIsTrue(s, k);
    hide Reachable, Monotone, Timeline, Truncate32;
    forall r | r in Select(s.pulled, OfCluster(k))
      ensures 1 <= r.at <= |s.brokers[k].lengths| && r.count == s.brokers[k].lengths[r.at - 1] <= |WorkerIds(s.site, k)|
    {
      assert TrueSample(s.brokers, r);
      assert s.brokers[k].lengths[r.at - 1] in s.brokers[k].lengths;
    }
  }
}
