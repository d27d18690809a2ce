/** What each handler of the data center does to its own state and to the one message it receives. */
module Handlers {
  import opened Messages
  import opened ClusterTable

  /**
   * A cluster broker. The last three fields are history: every worker marked ready so far,
   * every worker dispatched so far, and every length the ready queue has had.
   */
  datatype Broker = Broker(
    name: string,
    ready: seq<string>,
    readyCount: nat,
    marked: seq<string>,
    dispatched: seq<string>,
    lengths: seq<nat>)

  datatype Sent = Nothing | Sent(link: Link, msg: Message)

  function NewBroker(name: string): Broker {
    Broker(name, [], 0, [], [], [0])
  }

  /** workReadyQueue_.push and the counter update after it. */
  function MarkReady(b: Broker, worker: string): Broker {
    b.(ready := b.ready + [worker],
       readyCount := Truncate32(|b.ready| + 1),
       marked := b.marked + [worker],
       lengths := b.lengths + [|b.ready| + 1])
  }

  /** workReadyQueue_.pop and the counter update after it. */
  function Dispatch(b: Broker): Broker
    requires b.ready != []
  {
    b.(ready := b.ready[1..],
       readyCount := Truncate32(|b.ready| - 1),
       dispatched := b.dispatched + [b.ready[0]],
       lengths := b.lengths + [|b.ready| - 1])
  }

  /** Client::sendRequest up to its blocking receive. */
  function Request(id: string, taskID: nat, arr: seq<real>): Message {
    Message(Meta(Addr("", id, "", ""), taskID, NormalTask, Submit), Numbers(arr))
  }

  /** The alive signal of the Worker constructor. */
  function WorkerAlive(id: string): Message {
    Message(Meta(Addr("", id, "", ""), 0, AliveSignal, Reply), Blank)
  }

  /** The alive signal of the LocalBalanceBroker constructor. */
  function BrokerAlive(name: string): Message {
    Message(Meta(Addr(name, "", "", ""), 0, AliveSignal, Submit), Blank)
  }

  /** swapBuffer on both address pairs, as both rejecting branches do it. */
  function SwapEnds(a: Addr): Addr {
    Addr(a.toCluster, a.to, a.fromCluster, a.from)
  }

  function Rejection(m: Message): Message {
    Message(m.meta.(addr := SwapEnds(m.meta.addr), direction := ReplyRejected), Total(0.0))
  }

  /** LocalBalanceBroker::routeLocalRequest. */
  function LocalRequest(b: Broker, m: Message): (Broker, Sent) {
    var a := m.meta.addr.(fromCluster := b.name);
    if |b.ready| > 0 then
      var worker := b.ready[0];
      (Dispatch(b),
       Sent(WorkerDown(b.name, worker), m.(meta := m.meta.(addr := a.(toCluster := b.name, to := worker)))))
    else
      (b, Sent(CloudUp(b.name), m.(meta := m.meta.(addr := a))))
  }

  /** LocalBalanceBroker::routeLocalReply. */
  function LocalReply(b: Broker, m: Message): (Broker, Sent) {
    var marked := MarkReady(b, m.meta.addr.from);
    if m.meta.taskType.AliveSignal? then
      (marked, Nothing)
    else
      var a := m.meta.addr.(toCluster := m.meta.addr.fromCluster, fromCluster := b.name);
      var reply := m.(meta := m.meta.(addr := a));
      (marked, Sent(if b.name == a.toCluster then ClientDown(b.name, a.to) else CloudUp(b.name), reply))
  }

  /**
   * LocalBalanceBroker::routeCloud. A request goes to the worker as it came: the two address
   * updates made for it stay in the handler's local copy.
   */
  function RouteCloud(b: Broker, m: Message): (Broker, Sent) {
    if m.meta.direction.Submit? then
      var counted := b.(readyCount := Truncate32(|b.ready|));
      if counted.readyCount > 0 then
        (Dispatch(counted), Sent(WorkerDown(b.name, b.ready[0]), m))
      else
        (counted, Sent(CloudUp(b.name), Rejection(m)))
    else
      (b, Sent(ClientDown(b.name, m.meta.addr.to), m))
  }

  /** SuperBroker::taskRouter. */
  function TaskRouter(table: seq<Entry>, m: Message): Sent {
    var a := m.meta.addr;
    if m.meta.taskType.AliveSignal? then Nothing
    else if m.meta.direction.Submit? then
      if a.from == "" || a.fromCluster == "" then Nothing
      else
        match Choose(table)
        case None => Sent(CloudDown(a.fromCluster), Rejection(m))
        case Some(target) => Sent(CloudDown(target), m.(meta := m.meta.(addr := a.(toCluster := target))))
    else
      Sent(CloudDown(a.toCluster), m)
  }

  /** The numbers a worker finds in a task; any other frame leaves its zeroed TaskRequest as it was. */
  function NumbersOf(body: Body): seq<real> {
    if body.Numbers? then body.arr else []
  }

  /** Worker::process, on the message it receives and sends. */
  function Process(add: Adder, id: string, m: Message): Message {
    Message(
      m.meta.(addr := m.meta.addr.(to := m.meta.addr.from, from := id), direction := Reply),
      Total(FoldLeft(add, NumbersOf(m.body))))
  }

  /** What one poll of a cluster broker finds on its three sockets. */
  datatype Arrivals = Arrivals(backend: Option<Message>, frontend: Option<Message>, cloud: Option<Message>)

  /** One iteration of LocalBalanceBroker::runTask: recount, then replies, requests and cloud, in this order. */
  function Turn(b: Broker, a: Arrivals): (Broker, seq<Sent>) {
    var b0 := b.(readyCount := Truncate32(|b.ready|));
    var (b1, s1) := if a.backend.Some? then LocalReply(b0, a.backend.value) else (b0, Nothing);
    var (b2, s2) := if a.frontend.Some? then LocalRequest(b1, a.frontend.value) else (b1, Nothing);
    var (b3, s3) := if a.cloud.Some? then RouteCloud(b2, a.cloud.value) else (b2, Nothing);
    (b3, [s1, s2, s3])
  }

  function Turns(b: Broker, polls: seq<Arrivals>): (Broker, seq<Sent>) {
    if polls == [] then (b, [])
    else
      var (before, out) := Turns(b, polls[..|polls| - 1]);
      var (after, more) := Turn(before, polls[|polls| - 1]);
      (after, out + more)
  }

  /** One iteration of SuperBroker::runTask: a report is stored before a task is routed by the table. */
  datatype SuperArrivals = SuperArrivals(report: Option<Entry>, task: Option<Message>)

  function SuperTurn(table: seq<Entry>, a: SuperArrivals): (seq<Entry>, Sent) {
    var t := if a.report.Some? then Upsert(table, a.report.value.name, a.report.value.count) else table;
    (t, if a.task.Some? then TaskRouter(t, a.task.value) else Nothing)
  }

  function SuperTurns(table: seq<Entry>, polls: seq<SuperArrivals>): (seq<Entry>, seq<Sent>) {
    if polls == [] then (table, [])
    else
      var (before, out) := SuperTurns(table, polls[..|polls| - 1]);
      var (after, sent) := SuperTurn(before, polls[|polls| - 1]);
      (after, out + [sent])
  }

  /** Only alive signals, and at the super broker requests that lack a `from` field, are not sent on. */
  lemma WhatIsDropped(b: Broker, m: Message, table: seq<Entry>)
    ensures LocalRequest(b, m).1.Sent? && RouteCloud(b, m).1.Sent?
    ensures LocalReply(b, m).1 == Nothing <==> m.meta.taskType.AliveSignal?
    ensures TaskRouter(table, m) == Nothing <==>
            m.meta.taskType.AliveSignal? ||
            (m.meta.direction.Submit? && (m.meta.addr.from == "" || m.meta.addr.fromCluster == ""))
  {
  }

  /**
   * Whatever the counter was, handlers that look at the queue leave it at the queue's length as a uint32_t;
   * and routeCloud gives a request to a worker exactly when that is not zero.
   */
  lemma HandlersRecount(b: Broker, m: Message)
    ensures LocalReply(b, m).0.readyCount == Truncate32(|LocalReply(b, m).0.ready|)
    ensures b.ready != [] ==> LocalRequest(b, m).0.readyCount == Truncate32(|LocalRequest(b, m).0.ready|)
    ensures m.meta.direction.Submit? ==> RouteCloud(b, m).0.readyCount == Truncate32(|RouteCloud(b, m).0.ready|)
    ensures RouteCloud(b, m).1.link.WorkerDown? <==> m.meta.direction.Submit? && |b.ready| % TWO_TO_32 != 0
  {
  }

  /** An iteration leaves the counter exact, whatever it was before. */
  lemma TurnRecounts(b: Broker, a: Arrivals)
    ensures Turn(b, a).0.readyCount == Truncate32(|Turn(b, a).0.ready|)
  {
    var b0 := b.(readyCount := Truncate32(|b.ready|));
    var b1 := if a.backend.Some? then LocalReply(b0, a.backend.value).0 else b0;
    var b2 := if a.frontend.Some? then LocalRequest(b1, a.frontend.value).0 else b1;
    if a.backend.Some? { HandlersRecount(b0, a.backend.value); }
    if a.frontend.Some? { HandlersRecount(b1, a.frontend.value); }
    if a.cloud.Some? { HandlersRecount(b2, a.cloud.value); }
  }

  // The loops, iteration by iteration

  /** The broker before the first poll, and after each of them. */
  ghost predicate TurnByTurn(b: Broker, polls: seq<Arrivals>, bs: seq<Broker>) {
    |bs| == |polls| + 1 && bs[0] == b && forall i :: 0 <= i < |polls| ==> bs[i + 1] == Turn(bs[i], polls[i]).0
  }

  /** What each turn sends, in order. */
  ghost predicate SentByTurns(polls: seq<Arrivals>, bs: seq<Broker>, out: seq<Sent>) {
    && |bs| == |polls| + 1 && |out| == 3 * |polls|
    && forall i :: 0 <= i < |polls| ==> out[3 * i..3 * i + 3] == Turn(bs[i], polls[i]).1
  }

  /**
   * The loop handles every poll once, in order, each with the broker that the one before it left, and
   * sends what they send and nothing else.
   */
  lemma {:induction false} TurnsInOrder(b: Broker, polls: seq<Arrivals>) returns (bs: seq<Broker>)
    ensures TurnByTurn(b, polls, bs) && bs[|polls|] == Turns(b, polls).0
    ensures SentByTurns(polls, bs, Turns(b, polls).1)
  {
    if polls == [] {
      bs := [b];
    } else {
      var front, last := polls[..|polls| - 1], polls[|polls| - 1];
      var before := TurnsInOrder(b, front);
      var (after, more) := Turn(before[|front|], last);
      bs := before + [after];
      assert |more| == 3;
      hide Turn, Turns;
      SentByOneMore(front, before, Turns(b, front).1, last, after, more);
      assert polls == front + [last];
      assert Turns(b, polls) == (after, Turns(b, front).1 + more) by {
        TurnsLast(b, front, last);
      }
    }
  }

  lemma TurnsLast(b: Broker, polls: seq<Arrivals>, a: Arrivals)
    ensures var (before, out) := Turns(b, polls);
            Turns(b, polls + [a]) == (Turn(before, a).0, out + Turn(before, a).1)
  {
    assert (polls + [a])[..|polls|] == polls;
  }

  lemma SentByOneMore(
      polls: seq<Arrivals>, bs: seq<Broker>, out: seq<Sent>, a: Arrivals, after: Broker, more: seq<Sent>)
    requires SentByTurns(polls, bs, out) && |more| == 3 && more == Turn(bs[|polls|], a).1
    ensures SentByTurns(polls + [a], bs + [after], out + more)
  {
    hide Turn;
    var ps, cs, all := polls + [a], bs + [after], out + more;
    forall i | 0 <= i < |ps| ensures all[3 * i..3 * i + 3] == Turn(cs[i], ps[i]).1 {
      if i < |polls| {
        assert all[3 * i..3 * i + 3] == out[3 * i..3 * i + 3];
      } else {
        assert all[3 * i..3 * i + 3] == more;
      }
    }
  }

  ghost predicate TableByTable(table: seq<Entry>, polls: seq<SuperArrivals>, ts: seq<seq<Entry>>) {
    |ts| == |polls| + 1 && ts[0] == table && forall i :: 0 <= i < |polls| ==> ts[i + 1] == SuperTurn(ts[i], polls[i]).0
  }

  /** The super broker's loop, too, handles every poll once and in order. */
  lemma {:induction false} SuperTurnsInOrder(table: seq<Entry>, polls: seq<SuperArrivals>) returns (ts: seq<seq<Entry>>)
    ensures TableByTable(table, polls, ts) && ts[|polls|] == SuperTurns(table, polls).0
    ensures |SuperTurns(table, polls).1| == |polls|
    ensures forall i :: 0 <= i < |polls| ==> SuperTurns(table, polls).1[i] == SuperTurn(ts[i], polls[i]).1
  {
    if polls == [] {
      ts := [table];
    } else {
      var front := polls[..|polls| - 1];
      ts := SuperTurnsInOrder(table, front);
      hide SuperTurn;
      ts := ts + [SuperTurn(ts[|front|], polls[|polls| - 1]).0];
    }
  }

  /** To handle polls and then more of them is to handle all of them. */
  lemma {:induction false} TurnsConcat(b: Broker, first: seq<Arrivals>, later: seq<Arrivals>)
    ensures var (between, out) := Turns(b, first);
            var (after, more) := Turns(between, later);
            Turns(b, first + later) == (after, out + more)
  {
    if later == [] {
      assert first + later == first && Turns(b, first).1 + [] == Turns(b, first).1;
    } else {
      var all := first + later;
      assert all[..|all| - 1] == first + later[..|later| - 1];
      TurnsConcat(b, first, later[..|later| - 1]);
      var (between, out) := Turns(b, first);
      var (last, more) := Turns(between, later[..|later| - 1]);
      var end := Turn(last, later[|later| - 1]).1;
      assert out + more + end == out + (more + end);
    }
  }

  /**
   * The reply that leaves a cluster depends on a dispatched task's type, id, `from` fields and numbers
   * only; whatever its `to` fields and direction said, the broker is left the same and sends the same.
   */
  lemma ToFieldsIrrelevant(add: Adder, b: Broker, id: string, m: Message, n: Message)
    requires m.meta.taskType == n.meta.taskType && m.meta.taskID == n.meta.taskID
    requires m.meta.addr.from == n.meta.addr.from && m.meta.addr.fromCluster == n.meta.addr.fromCluster
    requires NumbersOf(m.body) == NumbersOf(n.body)
    ensures LocalReply(b, Process(add, id, m)) == LocalReply(b, Process(add, id, n))
  {
  }

  /** routeCloud as it would be if it copied its address updates back, as routeLocalRequest does. */
  function RouteCloudCopyingBack(b: Broker, m: Message): (Broker, Sent) {
    var (after, out) := RouteCloud(b, m);
    if out.Sent? && out.link.WorkerDown? then
      (after, out.(msg := m.(meta := m.meta.(addr := m.meta.addr.(toCluster := b.name, to := out.link.id)))))
    else (after, out)
  }

  /** Copying back would change neither the broker, nor the worker chosen, nor the reply that is sent. */
  lemma CopyingBackIrrelevant(add: Adder, b: Broker, m: Message, later: Broker)
    ensures var (x, y) := (RouteCloud(b, m), RouteCloudCopyingBack(b, m));
            && x.0 == y.0 && x.1.Sent? && y.1.Sent? && x.1.link == y.1.link
            && (x.1.link.WorkerDown? ==>
                  LocalReply(later, Process(add, x.1.link.id, x.1.msg)) ==
                  LocalReply(later, Process(add, x.1.link.id, y.1.msg)))
  {
    var (x, y) := (RouteCloud(b, m), RouteCloudCopyingBack(b, m));
    if x.1.link.WorkerDown? {
      ToFieldsIrrelevant(add, later, x.1.link.id, x.1.msg, y.1.msg);
    }
  }
}
