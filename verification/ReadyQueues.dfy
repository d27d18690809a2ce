/** Where the workers of a cluster are, and in which order they are given work. */
module ReadyQueues {
  import opened Logs
  import opened Messages
  import opened Handlers
  import opened TwoTier
  import opened Invariant

  function TaskTo(k: string, w: string): Packet -> int {
    (p: Packet) => if p.link == WorkerDown(k, w) then 1 else 0
  }

  function AliveFrom(k: string, w: string): Packet -> int {
    (p: Packet) => if p.link == WorkerUp(k, w) && p.msg.meta.taskType.AliveSignal? then 1 else 0
  }

  function ReplyFrom(k: string, w: string): Packet -> int {
    (p: Packet) => if p.link == WorkerUp(k, w) && p.msg.meta.taskType.NormalTask? then 1 else 0
  }

  function FromWorker(k: string, w: string): Packet -> int {
    (p: Packet) => if p.link == WorkerUp(k, w) then 1 else 0
  }

  lemma FourPlaces(net: seq<Packet>, k: string, w: string)
    ensures Sum(net, BackendOf(k, w)) ==
            Sum(net, TaskTo(k, w)) + Sum(net, AliveFrom(k, w)) + Sum(net, ReplyFrom(k, w))
    ensures Sum(net, TaskTo(k, w)) >= 0 && Sum(net, AliveFrom(k, w)) >= 0 && Sum(net, ReplyFrom(k, w)) >= 0
  {
    SumAdds(net, BackendOf(k, w), TaskTo(k, w), FromWorker(k, w));
    SumAdds(net, FromWorker(k, w), AliveFrom(k, w), ReplyFrom(k, w));
    SumNonNegative(net, TaskTo(k, w));
    SumNonNegative(net, AliveFrom(k, w));
    SumNonNegative(net, ReplyFrom(k, w));
  }

  lemma TokenFacts(add: Adder, s: State, k: string)
    requires Reachable(add, s) && k in s.site.clusters
    ensures Manned(s) && BrokerSound(s.brokers[k]) && OneTokenPerWorker(s.brokers, s.started, s.net)
  {
    ReachableInv(add, s);
    hide NetLegal, OneTokenPerWorker, ReportsNamed, AllAnswered, OneMessagePerWait, Reachable, Configured, BrokerSound;
  }

  /**
   * A worker that has started is in exactly one of four places: once in the ready queue, with a task
   * on its way to it, with its alive signal on the way, or with a reply on the way. It never holds
   * two tasks. A worker that has not started is in none.
   */
  lemma WorkerInOnePlace(add: Adder, s: State, k: string, w: string)
    requires Reachable(add, s) && k in s.site.clusters
    ensures k in s.brokers
    ensures Sum(s.brokers[k].ready, Is(w)) + Sum(s.net, TaskTo(k, w))
            + Sum(s.net, AliveFrom(k, w)) + Sum(s.net, ReplyFrom(k, w))
            == if Endpoint(k, w) in s.started then 1 else 0
    ensures Sum(s.brokers[k].ready, Is(w)) >= 0 && Sum(s.net, TaskTo(k, w)) >= 0
    ensures Sum(s.net, AliveFrom(k, w)) >= 0 && Sum(s.net, ReplyFrom(k, w)) >= 0
  {
    TokenFacts(add, s, k);
    FourPlaces(s.net, k, w);
    CountMembers(s.brokers[k].ready, w);
    assert Tokens(s.brokers[k].ready, s.net, k, w) == if Endpoint(k, w) in s.started then 1 else 0;
  }

  function IsIn(ids: set<string>): string -> int {
    w => if w in ids then 1 else 0
  }

  function BackendIn(k: string, ids: set<string>): Packet -> int {
    (p: Packet) => if (p.link.WorkerUp? || p.link.WorkerDown?) && p.link.cluster == k && p.link.id in ids then 1 else 0
  }

  /** The packets on the backend links of cluster k. */
  function OnBackend(k: string): Packet -> int {
    (p: Packet) => if (p.link.WorkerUp? || p.link.WorkerDown?) && p.link.cluster == k then 1 else 0
  }

  lemma TokensOfNone(ready: seq<string>, net: seq<Packet>, k: string)
    ensures Sum(ready, IsIn({})) == 0 && Sum(net, BackendIn(k, {})) == 0
  {
    SumAdds(ready, IsIn({}), IsIn({}), IsIn({}));
    SumAdds(net, BackendIn(k, {}), BackendIn(k, {}), BackendIn(k, {}));
  }

  lemma TokensOfOneMore(ready: seq<string>, net: seq<Packet>, k: string, ids: set<string>, w: string)
    requires w in ids
    ensures Sum(ready, IsIn(ids)) == Sum(ready, Is(w)) + Sum(ready, IsIn(ids - {w}))
    ensures Sum(net, BackendIn(k, ids)) == Sum(net, BackendOf(k, w)) + Sum(net, BackendIn(k, ids - {w}))
  {
    SumAdds(ready, IsIn(ids), Is(w), IsIn(ids - {w}));
    SumAdds(net, BackendIn(k, ids), BackendOf(k, w), BackendIn(k, ids - {w}));
  }

  lemma {:induction false} TokensOfMany(ready: seq<string>, net: seq<Packet>, k: string, ids: set<string>)
    requires forall w :: w in ids ==> Tokens(ready, net, k, w) == 1
    ensures Sum(ready, IsIn(ids)) + Sum(net, BackendIn(k, ids)) == |ids|
    decreases ids
  {
    hide Sum, IsIn, BackendIn, BackendOf, Is;
    if ids == {} {
      TokensOfNone(ready, net, k);
    } else {
      var w :| w in ids;
      TokensOfMany(ready, net, k, ids - {w});
      TokensOfOneMore(ready, net, k, ids, w);
      assert Tokens(ready, net, k, w) == 1;
    }
  }

  ghost function StartedIds(s: State, k: string): set<string> {
    set e | e in s.started && e.cluster == k :: e.id
  }

  /** One token for each of `ids` and none for any other name. */
  ghost predicate TokensFor(ready: seq<string>, net: seq<Packet>, k: string, ids: set<string>) {
    forall w :: Tokens(ready, net, k, w) == if w in ids then 1 else 0
  }

  lemma ReadyAreAmong(ready: seq<string>, net: seq<Packet>, k: string, ids: set<string>)
    requires TokensFor(ready, net, k, ids)
    ensures forall w :: w in ready ==> w in ids
    ensures forall i, j :: 0 <= i < j < |ready| ==> ready[i] != ready[j]
  {
    forall w | w in ready ensures w in ids {
      CountMembers(ready, w);
      SumNonNegative(net, BackendOf(k, w));
      assert Tokens(ready, net, k, w) > 0;
    }
    forall i, j | 0 <= i < j < |ready| ensures ready[i] != ready[j] {
      assert Tokens(ready, net, k, ready[i]) <= 1;
      SumNonNegative(net, BackendOf(k, ready[i]));
      if ready[i] == ready[j] {
        CountOfPair(ready, i, j);
      }
    }
  }

  lemma BackendAmong(ready: seq<string>, net: seq<Packet>, k: string, ids: set<string>)
    requires TokensFor(ready, net, k, ids)
    ensures Sum(net, OnBackend(k)) == Sum(net, BackendIn(k, ids))
  {
    forall p | p in net ensures OnBackend(k)(p) == BackendIn(k, ids)(p) {
      if OnBackend(k)(p) == 1 {
        var n :| 0 <= n < |net| && net[n] == p;
        SumBounds(net, BackendOf(k, p.link.id), n);
        SumNonNegative(ready, Is(p.link.id));
        assert Tokens(ready, net, k, p.link.id) > 0;
      }
    }
    SumAgrees(net, OnBackend(k), BackendIn(k, ids));
  }

  /**
   * The ready queue never lists a worker twice, and its length and the messages on the cluster's
   * backend links add up to the number of workers that have started.
   */
  lemma WorkersAddUp(add: Adder, s: State, k: string)
    requires Reachable(add, s) && k in s.site.clusters
    ensures k in s.brokers
    ensures forall i, j :: 0 <= i < j < |s.brokers[k].ready| ==> s.brokers[k].ready[i] != s.brokers[k].ready[j]
    ensures |s.brokers[k].ready| + Sum(s.net, OnBackend(k)) == |StartedIds(s, k)|
  {
    TokenFacts(add, s, k);
    var ready, ids := s.brokers[k].ready, StartedIds(s, k);
    forall w ensures w in ids <==> Endpoint(k, w) in s.started {
      assert Endpoint(k, w) in s.started ==> Endpoint(k, w).id in ids;
    }
    assert TokensFor(ready, s.net, k, ids);
    hide Reachable, OneTokenPerWorker;
    ReadyAreAmong(ready, s.net, k, ids);
    BackendAmong(ready, s.net, k, ids);
    TokensOfMany(ready, s.net, k, ids);
    SumOnes(ready, IsIn(ids));
  }

  lemma {:induction false} SumAgrees<T>(s: seq<T>, f: T -> int, g: T -> int)
    requires forall x :: x in s ==> f(x) == g(x)
    ensures Sum(s, f) == Sum(s, g)
  {
    if s != [] {
      SumAgrees(s[1..], f, g);
    }
  }

  lemma CountOfPair(q: seq<string>, i: nat, j: nat)
    requires i < j < |q| && q[i] == q[j]
    ensures Sum(q, Is(q[i])) >= 2
  {
    SumWithout(q, j, Is(q[i]));
    assert Without(q, j)[i] == q[i];
    SumBounds(Without(q, j), Is(q[i]), i);
  }

  /** A broker's histories only grow, at their ends. */
  predicate Extends(a: Broker, b: Broker) {
    a.marked <= b.marked && a.dispatched <= b.dispatched && a.lengths <= b.lengths
  }

  lemma HandlersExtend(b: Broker, m: Message)
    ensures Extends(b, LocalRequest(b, m).0) && Extends(b, LocalReply(b, m).0) && Extends(b, RouteCloud(b, m).0)
  {
  }

  lemma StepExtends(add: Adder, s: State, a: Action, k: string)
    requires Enabled(s, a) && k in s.brokers
    ensures Apply(add, s, a).site == s.site
    ensures k in Apply(add, s, a).brokers && Extends(s.brokers[k], Apply(add, s, a).brokers[k])
  {
    if a.Deliver? {
      HandlersExtend(s.brokers[k], s.net[a.n].msg);
    }
    hide LocalRequest, LocalReply, RouteCloud, Exchange, TaskRouter, Handlers.Process;
  }

  lemma {:induction false} RunExtends(add: Adder, s: State, run: seq<Action>, k: string)
    requires Runs(add, s, run) && k in s.brokers
    ensures After(add, s, run).site == s.site
    ensures k in After(add, s, run).brokers && Extends(s.brokers[k], After(add, s, run).brokers[k])
    decreases |run|
  {
    hide Enabled, Apply;
    if run != [] {
      StepExtends(add, s, run[0], k);
      RunExtends(add, Apply(add, s, run[0]), run[1..], k);
    }
  }

  lemma {:induction false} RunsJoin(add: Adder, s: State, a: seq<Action>, b: seq<Action>)
    requires Runs(add, s, a) && Runs(add, After(add, s, a), b)
    ensures Runs(add, s, a + b) && After(add, s, a + b) == After(add, After(add, s, a), b)
    decreases |a|
  {
    hide Enabled, Apply;
    if a == [] {
      assert a + b == b;
    } else {
      assert (a + b)[1..] == a[1..] + b && (a + b)[0] == a[0];
      RunsJoin(add, Apply(add, s, a[0]), a[1..], b);
    }
  }

  lemma ReachableRuns(add: Adder, s: State, run: seq<Action>)
    requires Reachable(add, s) && Runs(add, s, run)
    ensures Reachable(add, After(add, s, run))
  {
    hide Enabled, Apply;
    var first :| Reaches(add, s.site, first, s);
    RunsJoin(add, InitialState(s.site), first, run);
    ReachableInv(add, s);
    RunKeepsInv(add, s, run);
    assert Reaches(add, s.site, first + run, After(add, s, run));
  }

  /**
   * Over any run, routeLocalRequest and routeCloud together dispatch workers in the order in which
   * routeLocalReply marked them ready: those dispatched are a prefix of those marked, and the ready
   * queue is the rest.
   */
  lemma LeastRecentlyReadyFirst(add: Adder, s: State, run: seq<Action>, k: string)
    requires Reachable(add, s) && Runs(add, s, run) && k in s.site.clusters
    ensures k in s.brokers && k in After(add, s, run).brokers
    ensures var (b, c) := (s.brokers[k], After(add, s, run).brokers[k]);
            && b.marked <= c.marked && b.dispatched <= c.dispatched
            && c.dispatched <= c.marked && c.ready == c.marked[|c.dispatched|..]
  {
    TokenFacts(add, s, k);
    RunExtends(add, s, run, k);
    ReachableRuns(add, s, run);
    TokenFacts(add, After(add, s, run), k);
  }

  lemma HandlersStaySound(b: Broker, m: Message)
    requires BrokerSound(b)
    ensures BrokerSound(LocalReply(b, m).0) && BrokerSound(LocalRequest(b, m).0) && BrokerSound(RouteCloud(b, m).0)
  {
    if b.ready != [] {
      DispatchSound(b);
    }
  }

  /** Any number of iterations of a broker's poll loop keep its counter exact and its dispatch in order. */
  lemma {:induction false} LoopStaysSound(b: Broker, polls: seq<Arrivals>)
    requires BrokerSound(b)
    ensures BrokerSound(Turns(b, polls).0)
  {
    if polls != [] {
      LoopStaysSound(b, polls[..|polls| - 1]);
      hide BrokerSound, LocalReply, LocalRequest, RouteCloud;
      var b0, a := Turns(b, polls[..|polls| - 1]).0, polls[|polls| - 1];
      assert b0.(readyCount := Truncate32(|b0.ready|)) == b0 by {
        CountIsExact(b0);
      }
      var b1 := if a.backend.Some? then LocalReply(b0, a.backend.value).0 else b0;
      var b2 := if a.frontend.Some? then LocalRequest(b1, a.frontend.value).0 else b1;
      if a.backend.Some? { HandlersStaySound(b0, a.backend.value); }
      if a.frontend.Some? { HandlersStaySound(b1, a.frontend.value); }
      if a.cloud.Some? { HandlersStaySound(b2, a.cloud.value); }
    }
  }

  lemma CountIsExact(b: Broker)
    requires BrokerSound(b)
    ensures b.readyCount == Truncate32(|b.ready|)
  {
  }
}
