/** BalanceBroker::serve, the loop that polls, takes from its sockets and dispatches. */
module PollLoop {
  import opened Logs
  import opened Messages
  import opened NameBuffers
  import opened Framing
  import LB = LoadBalance

  /** A request in the frontend's two frames; the frame of a task stands for the structure that it copies. */
  datatype Request = Request(client: Bytes, task: LB.Task)

  /** What poll would find readable, at the moment of one iteration, on the backend and the frontend. */
  datatype Readable = Readable(backend: Option<BackendMsg>, frontend: Option<Request>)

  /** What the loop does, in order: workers it marks ready, replies it passes on, requests it takes. */
  datatype Event =
    | Marked(worker: string)
    | Replied(client: Bytes, result: Frame)
    | Dispatched(identity: Bytes, client: Bytes, task: LB.Task)

  predicate IsAlive(m: BackendMsg) {
    m.Ready? || m.client == WORKER_ALIVE
  }

  /** The branch for a readable backend. */
  function TakeBackend(ready: seq<string>, m: BackendMsg): (seq<string>, seq<Event>) {
    (ready + [m.worker],
     if IsAlive(m) then [Marked(m.worker)] else [Marked(m.worker), Replied(StringToFrame(m.client), m.result)])
  }

  /** The branch for a readable frontend. */
  function TakeFrontend(ready: seq<string>, r: Request): (seq<string>, seq<Event>)
    requires ready != []
  {
    (ready[1..], [Dispatched(StringToFrame(ready[0]), r.client, r.task)])
  }

  /** One iteration, from the queue it finds: an alive signal cuts it short, an empty queue leaves the frontend out. */
  function Iteration(ready: seq<string>, r: Readable): (seq<string>, seq<Event>) {
    var (q, before) := if r.backend.Some? then TakeBackend(ready, r.backend.value) else (ready, []);
    if ready == [] || r.frontend.None? || (r.backend.Some? && IsAlive(r.backend.value)) then (q, before)
    else
      var (after, events) := TakeFrontend(q, r.frontend.value);
      (after, before + events)
  }

  function Served(ready: seq<string>, rs: seq<Readable>): (seq<string>, seq<Event>) {
    if rs == [] then (ready, [])
    else
      var (q, before) := Served(ready, rs[..|rs| - 1]);
      var (after, events) := Iteration(q, rs[|rs| - 1]);
      (after, before + events)
  }

  /** A loop that reads nothing does nothing, and one iteration does what it does. */
  lemma ServedOnce(ready: seq<string>, r: Readable)
    ensures Served(ready, []) == (ready, []) && Served(ready, [r]) == Iteration(ready, r)
  {
    assert [r][..0] == [];
    assert [] + Iteration(ready, r).1 == Iteration(ready, r).1;
  }

  /** To run some iterations and then more of them is to run all of them: none is skipped, cut or repeated. */
  lemma {:induction false} ServedConcat(ready: seq<string>, first: seq<Readable>, later: seq<Readable>)
    ensures var (between, events) := Served(ready, first);
            var (after, more) := Served(between, later);
            Served(ready, first + later) == (after, events + more)
  {
    if later == [] {
      assert first + later == first && Served(ready, first).1 + [] == Served(ready, first).1;
    } else {
      var all := first + later;
      assert all[..|all| - 1] == first + later[..|later| - 1];
      ServedConcat(ready, first, later[..|later| - 1]);
      var (between, events) := Served(ready, first);
      var (last, more) := Served(between, later[..|later| - 1]);
      var end := Iteration(last, later[|later| - 1]).1;
      assert events + more + end == events + (more + end);
    }
  }

  /**
   * The queue after a list of events that keeps to the rules: a worker marked ready goes to the end,
   * and a request goes to the worker at the head, which there has to be. None when a rule is broken.
   */
  function Replay(q: seq<string>, es: seq<Event>): Option<seq<string>> {
    if es == [] then Some(q)
    else
      match Replay(q, es[..|es| - 1])
      case None => None
      case Some(r) =>
        match es[|es| - 1]
        case Marked(w) => Some(r + [w])
        case Replied(_, _) => Some(r)
        case Dispatched(w, _, _) => if r != [] && w == StringToFrame(r[0]) then Some(r[1..]) else None
  }

  lemma {:induction false} ReplayConcat(q: seq<string>, a: seq<Event>, b: seq<Event>)
    ensures Replay(q, a + b) == match Replay(q, a) case None => None case Some(r) => Replay(r, b)
  {
    if b == [] {
      assert a + b == a;
    } else {
      assert (a + b)[..|a + b| - 1] == a + b[..|b| - 1];
      ReplayConcat(q, a, b[..|b| - 1]);
    }
  }

  lemma ReplayOne(q: seq<string>, es: seq<Event>, e: Event, r: seq<string>)
    requires Replay(q, es) == Some(r)
    ensures e.Marked? ==> Replay(q, es + [e]) == Some(r + [e.worker])
    ensures e.Replied? ==> Replay(q, es + [e]) == Some(r)
    ensures e.Dispatched? && r != [] && e.identity == StringToFrame(r[0]) ==> Replay(q, es + [e]) == Some(r[1..])
  {
    assert (es + [e])[..|es|] == es;
  }

  lemma BackendKeepsRules(ready: seq<string>, m: BackendMsg)
    ensures Replay(ready, TakeBackend(ready, m).1) == Some(TakeBackend(ready, m).0)
  {
    var w := m.worker;
    ReplayOne(ready, [], Marked(w), ready);
    assert [] + [Marked(w)] == [Marked(w)];
    hide Replay;
    if !IsAlive(m) {
      var e := Replied(StringToFrame(m.client), m.result);
      ReplayOne(ready, [Marked(w)], e, ready + [w]);
      assert [Marked(w)] + [e] == [Marked(w), e];
    }
  }

  /** An iteration keeps to the rules, and takes no request when it finds the queue empty. */
  lemma IterationKeepsRules(ready: seq<string>, r: Readable)
    ensures Replay(ready, Iteration(ready, r).1) == Some(Iteration(ready, r).0)
    ensures ready == [] ==> forall e :: e in Iteration(ready, r).1 ==> !e.Dispatched?
  {
    assert Replay(ready, []) == Some(ready);
    hide Replay;
    var (q, before) := if r.backend.Some? then TakeBackend(ready, r.backend.value) else (ready, []);
    if r.backend.Some? {
      BackendKeepsRules(ready, r.backend.value);
    }
    if q != [] && r.frontend.Some? {
      var e := TakeFrontend(q, r.frontend.value).1[0];
      ReplayOne(ready, before, e, q);
    }
  }

  /**
   * Over any run of the loop, cut-short iterations and iterations that serve both sockets included,
   * every request that is taken finds a worker in the queue, and goes to the one longest ready.
   */
  lemma {:induction false} LoopKeepsRules(ready: seq<string>, rs: seq<Readable>)
    ensures Replay(ready, Served(ready, rs).1) == Some(Served(ready, rs).0)
  {
    if rs != [] {
      var (q, before) := Served(ready, rs[..|rs| - 1]);
      LoopKeepsRules(ready, rs[..|rs| - 1]);
      IterationKeepsRules(q, rs[|rs| - 1]);
      ReplayConcat(ready, before, Iteration(q, rs[|rs| - 1]).1);
    }
  }

  // The loop inside the balancer as a whole

  /** The packets in flight once the broker's sockets have sent what an event says, to the peers the frames address. */
  function Posted(s: LB.State, net: seq<LB.Packet>, e: Event): seq<LB.Packet> {
    match e
    case Marked(_) => net
    case Replied(c, r) => LB.Post(s, net, LB.Answered(FrameToString(c), r))
    case Dispatched(w, c, t) => LB.Post(s, net, LB.Given(FrameToString(w), FrameToString(c), t))
  }

  function PostedAll(s: LB.State, net: seq<LB.Packet>, es: seq<Event>): seq<LB.Packet> {
    if es == [] then net else Posted(s, PostedAll(s, net, es[..|es| - 1]), es[|es| - 1])
  }

  lemma {:induction false} PostedConcat(s: LB.State, net: seq<LB.Packet>, a: seq<Event>, b: seq<Event>)
    ensures PostedAll(s, net, a + b) == PostedAll(s, PostedAll(s, net, a), b)
  {
    if b == [] {
      assert a + b == a;
    } else {
      assert (a + b)[..|a + b| - 1] == a + b[..|b| - 1];
      PostedConcat(s, net, a, b[..|b| - 1]);
    }
  }

  /** Packet n is on its way to the broker. */
  predicate ToBroker(s: LB.State, n: nat) {
    n < |s.net| && (LB.ForBroker(s.net[n]) || s.net[n].Asked?)
  }

  function RequestOf(p: LB.Packet): Request
    requires p.Asked?
  {
    Request(StringToFrame(p.client), p.task)
  }

  function FromBackend(ms: seq<BackendMsg>): seq<Readable> {
    seq(|ms|, i requires 0 <= i < |ms| => Readable(Some(ms[i]), None))
  }

  /** The iterations in which the broker takes packet n: one for a request, one for each message that it hears. */
  function Polls(h: LB.Host, s: LB.State, n: nat): seq<Readable>
    requires ToBroker(s, n)
  {
    if s.net[n].Asked? then [Readable(None, Some(RequestOf(s.net[n])))] else FromBackend(LB.Heard(h, s, s.net[n]).0)
  }

  /** Whatever the frames, no message that is made of them is a result for WORKER_ALIVE. */
  lemma {:induction false} ReceivedUnambiguous(frames: seq<Frame>)
    ensures Unambiguous(Receive(frames).0)
    decreases |frames|
  {
    match Next(frames)
    case None =>
    case Some((m, rest)) => ReceivedUnambiguous(rest);
  }

  lemma PostedBackend(s: LB.State, net: seq<LB.Packet>, m: BackendMsg)
    ensures PostedAll(s, net, TakeBackend([], m).1) ==
            if IsAlive(m) then net else LB.Post(s, net, LB.Answered(m.client, m.result))
  {
    var w := Marked(m.worker);
    assert [w][..0] == [];
    assert PostedAll(s, net, [w]) == net;
    if !IsAlive(m) {
      FramesReadBack(m.client, [NUL]);
      var e := Replied(StringToFrame(m.client), m.result);
      assert [w, e][..1] == [w];
    }
  }

  /** A backend message handled by the broker, in a state with the peers of s. */
  lemma MessageTaken(s: LB.State, t: LB.State, m: BackendMsg)
    requires t.clients == s.clients && t.started == s.started && (m.Result? ==> m.client != WORKER_ALIVE)
    ensures var (ready, es) := Iteration(t.ready, Readable(Some(m), None));
            LB.Take(t, m) == t.(ready := ready, net := PostedAll(s, t.net, es))
  {
    PostedBackend(s, t.net, m);
  }

  lemma {:induction false} MessagesTaken(s: LB.State, ms: seq<BackendMsg>)
    requires Unambiguous(ms)
    ensures var (ready, es) := Served(s.ready, FromBackend(ms));
            LB.TakeAll(s, ms) == s.(ready := ready, net := PostedAll(s, s.net, es))
  {
    if ms != [] {
      var before, m := ms[..|ms| - 1], ms[|ms| - 1];
      assert ms == before + [m];
      MessagesTaken(s, before);
      var t, rs := LB.TakeAll(s, before), FromBackend(ms);
      assert rs[..|rs| - 1] == FromBackend(before);
      MessageTaken(s, t, m);
      PostedConcat(s, s.net, Served(s.ready, FromBackend(before)).1, Iteration(t.ready, Readable(Some(m), None)).1);
    }
  }

  lemma RequestTaken(h: LB.Host, s: LB.State, n: nat)
    requires ToBroker(s, n) && s.net[n].Asked? && s.ready != []
    ensures var (ready, es) := Iteration(s.ready, Readable(None, Some(RequestOf(s.net[n]))));
            var t := LB.DeliverPacket(h, s, n);
            t == s.(ready := ready, found := t.found, net := PostedAll(s, Without(s.net, n), es))
  {
    var e := Dispatched(StringToFrame(s.ready[0]), StringToFrame(s.net[n].client), s.net[n].task);
    assert [e][..0] == [] && [] + [e] == [e];
    FramesReadBack(s.ready[0], [NUL]);
    FramesReadBack(s.net[n].client, [NUL]);
  }

  /**
   * What the balancer as a whole does when the broker takes a packet, in queue and in messages sent, is
   * what the loop does in the iterations that read it; and those keep to the rules.
   */
  lemma DeliveryIsIterations(h: LB.Host, s: LB.State, n: nat)
    requires LB.Enabled(s, LB.Deliver(n)) && ToBroker(s, n)
    ensures var (ready, es) := Served(s.ready, Polls(h, s, n));
            var t := LB.DeliverPacket(h, s, n);
            && t == s.(ready := ready, left := t.left, found := t.found, net := PostedAll(s, Without(s.net, n), es))
            && Replay(s.ready, es) == Some(ready)
  {
    LoopKeepsRules(s.ready, Polls(h, s, n));
    hide Replay, Iteration;
    var p := s.net[n];
    if p.Asked? {
      RequestTaken(h, s, n);
      ServedOnce(s.ready, Polls(h, s, n)[0]);
    } else {
      var ms := LB.Heard(h, s, p).0;
      ReceivedUnambiguous(s.left + Encode(LB.ToldBroker(h, p)));
      var t := LB.Received(h, s, n);
      MessagesTaken(t, ms);
      PostedByPeers(s, t, t.net, Served(s.ready, FromBackend(ms)).1);
    }
  }

  lemma {:induction false} PostedByPeers(s: LB.State, t: LB.State, net: seq<LB.Packet>, es: seq<Event>)
    requires t.clients == s.clients && t.started == s.started
    ensures PostedAll(t, net, es) == PostedAll(s, net, es)
  {
    if es != [] {
      PostedByPeers(s, t, net, es[..|es| - 1]);
    }
  }

  /**
   * An iteration may find packet b of a worker, packet f of a client, or both to be read. With frames left
   * over it needs the worker's; and what it then has makes one message.
   */
  ghost predicate Pollable(h: LB.Host, s: LB.State, b: Option<nat>, f: Option<nat>) {
    && (b.None? ==> s.left == [])
    && (b.Some? ==>
          && LB.Enabled(s, LB.Deliver(b.value)) && LB.ForBroker(s.net[b.value])
          && |LB.Heard(h, s, s.net[b.value]).0| == 1)
    && (f.Some? ==>
          && f.value < |s.net| && s.net[f.value].Asked?
          && Oldest(s.net, f.value, LB.OnLink(LB.LinkOf(s.net[f.value]))))
  }

  ghost function Found(h: LB.Host, s: LB.State, b: Option<nat>, f: Option<nat>): Readable
    requires Pollable(h, s, b, f)
  {
    Readable(if b.Some? then Some(LB.Heard(h, s, s.net[b.value]).0[0]) else None,
             if f.Some? then Some(RequestOf(s.net[f.value])) else None)
  }

  /** Whether an iteration goes on to take the request it found. */
  predicate GoesOn(ready: seq<string>, r: Readable) {
    ready != [] && r.frontend.Some? && !(r.backend.Some? && IsAlive(r.backend.value))
  }

  ghost function AfterBackend(h: LB.Host, s: LB.State, b: Option<nat>): LB.State
    requires b.Some? ==> LB.Enabled(s, LB.Deliver(b.value))
  {
    if b.Some? then LB.DeliverPacket(h, s, b.value) else s
  }

  function NetAfterBackend(s: LB.State, b: Option<nat>): seq<LB.Packet>
    requires b.Some? ==> b.value < |s.net|
  {
    if b.Some? then Without(s.net, b.value) else s.net
  }

  /** Where packet f is once packet b has been taken. */
  function Shifted(b: Option<nat>, f: nat): nat
    requires b != Some(f)
  {
    if b.Some? && b.value < f then f - 1 else f
  }

  lemma BackendFirst(h: LB.Host, s: LB.State, b: Option<nat>, f: Option<nat>)
    requires Pollable(h, s, b, f)
    ensures var r := Found(h, s, b, f).(frontend := None);
            var (ready, es) := Iteration(s.ready, r);
            var t := AfterBackend(h, s, b);
            t == s.(ready := ready,
                    left := t.left,
                    found := t.found,
                    net := PostedAll(s, NetAfterBackend(s, b), es))
  {
    if b.Some? {
      var p, t := s.net[b.value], LB.Received(h, s, b.value);
      var ms := LB.Heard(h, s, p).0;
      assert ms == [ms[0]];
      ReceivedUnambiguous(s.left + Encode(LB.ToldBroker(h, p)));
      LB.TakeOne(t, ms[0]);
      MessageTaken(s, t, ms[0]);
    }
  }

  /** An iteration that found a request and read a result may go on to take the request. */
  lemma MayGoOn(h: LB.Host, s: LB.State, b: Option<nat>, f: Option<nat>)
    requires Pollable(h, s, b, f) && GoesOn(s.ready, Found(h, s, b, f))
    ensures AfterBackend(h, s, b).left == [] || AfterBackend(h, s, b).found > 0
  {
    if b.Some? {
      var ms := LB.Heard(h, s, s.net[b.value]).0;
      assert ms == [ms[0]] && Sum(ms, LB.Replies()) == 1;
      assert s.net[f.value] in s.net;
      LB.TakeOne(LB.Received(h, s, b.value), ms[0]);
    }
  }

  /** Taking out another packet leaves the oldest of its kind in its place, or moves it by one. */
  lemma OldestShifts(s: LB.State, b: Option<nat>, f: nat, keep: LB.Packet -> bool)
    requires Oldest(s.net, f, keep) && b != Some(f) && (b.Some? ==> b.value < |s.net|)
    ensures Oldest(NetAfterBackend(s, b), Shifted(b, f), keep) && NetAfterBackend(s, b)[Shifted(b, f)] == s.net[f]
  {
  }

  /** After a result the broker may take a request, has a ready worker, and has at most sent one packet. */
  lemma BackendSendsOne(h: LB.Host, s: LB.State, b: Option<nat>, f: Option<nat>)
    requires Pollable(h, s, b, f) && GoesOn(s.ready, Found(h, s, b, f))
    ensures var (t, net) := (AfterBackend(h, s, b), NetAfterBackend(s, b));
            (t.left == [] || t.found > 0) && t.ready != [] && (t.net == net || exists p :: t.net == net + [p])
  {
    BackendFirst(h, s, b, f);
    MayGoOn(h, s, b, f);
    if b.Some? {
      PostedBackend(s, NetAfterBackend(s, b), Found(h, s, b, f).backend.value);
    }
  }

  /** A request that was found is still there to be taken after the backend. */
  lemma StillFound(h: LB.Host, s: LB.State, b: Option<nat>, f: nat)
    requires Pollable(h, s, b, Some(f)) && GoesOn(s.ready, Found(h, s, b, Some(f)))
    ensures var (t, k) := (AfterBackend(h, s, b), Shifted(b, f));
            k < |NetAfterBackend(s, b)| && LB.Enabled(t, LB.Deliver(k)) && t.net[k] == s.net[f]
  {
    BackendSendsOne(h, s, b, Some(f));
    OldestShifts(s, b, f, LB.OnLink(LB.LinkOf(s.net[f])));
    hide Pollable, GoesOn, Found, AfterBackend, NetAfterBackend, Shifted, LB.OnLink;
  }

  lemma TakenOutLater(s: LB.State, net: seq<LB.Packet>, k: nat, m: BackendMsg)
    requires k < |net|
    ensures var es := TakeBackend([], m).1;
            k < |PostedAll(s, net, es)| && Without(PostedAll(s, net, es), k) == PostedAll(s, Without(net, k), es)
  {
    PostedBackend(s, net, m);
    PostedBackend(s, Without(net, k), m);
    hide PostedAll, TakeBackend;
    if !IsAlive(m) {
      WithoutBeforeLast(net, k, LB.Answered(m.client, m.result));
    }
    hide Without;
  }

  /**
   * An iteration that reads what has arrived does, in queue and in messages sent, what one delivery to
   * the broker does, or two when it goes on from a worker's result to a request. The second can be made
   * whenever the loop makes it.
   */
  lemma IterationIsDeliveries(h: LB.Host, s: LB.State, b: Option<nat>, f: Option<nat>)
    requires Pollable(h, s, b, f)
    ensures var (r, t) := (Found(h, s, b, f), AfterBackend(h, s, b));
            var (ready, es) := Iteration(s.ready, r);
            if !GoesOn(s.ready, r) then
              t == s.(ready := ready,
                      left := t.left,
                      found := t.found,
                      net := PostedAll(s, NetAfterBackend(s, b), es))
            else
              var k := Shifted(b, f.value);
              && LB.Enabled(t, LB.Deliver(k)) && k < |NetAfterBackend(s, b)|
              && var u := LB.DeliverPacket(h, t, k);
                 u == s.(ready := ready,
                         left := t.left,
                         found := u.found,
                         net := PostedAll(s, Without(NetAfterBackend(s, b), k), es))
  {
    BackendFirst(h, s, b, f);
    var r, t, net := Found(h, s, b, f), AfterBackend(h, s, b), NetAfterBackend(s, b);
    if GoesOn(s.ready, r) {
      StillFound(h, s, b, f.value);
      hide Pollable, LB.Enabled;
      var k := Shifted(b, f.value);
      var before := Iteration(s.ready, r.(frontend := None)).1;
      var after := Iteration(t.ready, r.(backend := None)).1;
      RequestTaken(h, t, k);
      PostedByPeers(s, t, Without(t.net, k), after);
      PostedConcat(s, Without(net, k), before, after);
      if b.Some? {
        TakenOutLater(s, net, k, r.backend.value);
      }
      hide PostedAll, LB.DeliverPacket;
      assert Without(t.net, k) == PostedAll(s, Without(net, k), before);
    }
  }

  class BalanceBroker {
    var workReadyQueue: seq<string>

    constructor ()
      ensures workReadyQueue == []
    {
      workReadyQueue := [];
    }

    /** The loop over as many iterations as `inputs` has entries; front() and pop() need a worker in the queue. */
    method Serve(inputs: seq<Readable>) returns (events: seq<Event>)
      modifies this
      ensures (workReadyQueue, events) == Served(old(workReadyQueue), inputs)
    {
      events := [];
      var revents := new bool[2];
      for n := 0 to |inputs|
        invariant (workReadyQueue, events) == Served(old(workReadyQueue), inputs[..n])
        invariant fresh(revents)
      {
        var input := inputs[n];
        assert inputs[..n + 1][..n] == inputs[..n];
        ghost var before := events;
        revents[0], revents[1] := false, false;
        if workReadyQueue == [] {
          revents[0] := input.backend.Some?;
        } else {
          revents[0] := input.backend.Some?;
          revents[1] := input.frontend.Some?;
        }

        if revents[0] {
          var msg := input.backend.value;
          workReadyQueue := workReadyQueue + [msg.worker];
          events := events + [Marked(msg.worker)];
          if msg.Ready? || msg.client == WORKER_ALIVE {
            continue;
          }
          events := events + [Replied(StringToFrame(msg.client), msg.result)];
          assert events == before + TakeBackend([], msg).1;
        }
        if revents[1] {
          var workerID := workReadyQueue[0];
          var request := input.frontend.value;
          events := events + [Dispatched(StringToFrame(workerID), request.client, request.task)];
          workReadyQueue := workReadyQueue[1..];
        }
        assert events == before + Iteration(Served(old(workReadyQueue), inputs[..n]).0, input).1;
      }
      assert inputs[..|inputs|] == inputs;
    }
  }
}
