/** Blocking remote calls on a topic store, from any number of clients. */
module TopicStore {
  import opened Logs
  import opened Messages
  import opened NameBuffers

  const GET := "getMessageByTopic_string_string"
  const SET := "setMessageByTopic_string_string"

  /** What a client asks for, and how it goes over the wire. */
  datatype Op = Get(topic: string) | Set(topic: string, payload: string)
  datatype Body = Topic(frame: Frame) | Pair(topic: string, payload: string)
  datatype Call = Call(funcName: string, body: Body)

  /** The call a client sends; none for an empty topic. The topic of a set passes through c_str(). */
  function Prepare(op: Op): Option<Call> {
    if op.topic == "" then None
    else
      match op
      case Get(t) => Some(Call(GET, Topic(StringToFrame(t))))
      case Set(t, p) => Some(Call(SET, Pair(CString(t), p)))
  }

  function Lookup(store: map<string, string>, topic: string): string {
    if topic in store then store[topic] else ""
  }

  /** ServiceImpBase::dispatch: the store after a call, and the reply frame, empty unless a get filled it. */
  function Dispatch(store: map<string, string>, call: Call): (map<string, string>, Frame) {
    if call.funcName == SET && call.body.Pair? then
      (store[call.body.topic := call.body.payload], [])
    else if call.funcName == GET && call.body.Topic? && call.body.frame != [] then
      (store, StringToFrame(Lookup(store, FrameToString(call.body.frame))))
    else
      (store, [])
  }

  /** What the caller makes of a reply frame: a get reads the payload, a set does not look. */
  function Result(op: Op, reply: Frame): string {
    if op.Get? && reply != [] then FrameToString(reply) else ""
  }

  /** The service object. */
  class ServiceImp_A {
    var msgMap: map<string, string>

    constructor ()
      ensures msgMap == map[]
    {
      msgMap := map[];
    }

    method GetMessageByTopic(topic: string) returns (payload: string)
      ensures payload == if topic in msgMap then msgMap[topic] else ""
    {
      payload := "";
      if topic in msgMap {
        payload := msgMap[topic];
      }
    }

    method SetMessageByTopic(topic: string, payload: string)
      modifies this
      ensures msgMap == old(msgMap)[topic := payload]
    {
      msgMap := msgMap[topic := payload];
    }

    method DispatchCall(call: Call) returns (reply: Frame)
      modifies this
      ensures (msgMap, reply) == Dispatch(old(msgMap), call)
    {
      reply := [];
      if call.funcName == SET && call.body.Pair? {
        SetMessageByTopic(call.body.topic, call.body.payload);
      } else if call.funcName == GET && call.body.Topic? && call.body.frame != [] {
        var payload := GetMessageByTopic(FrameToString(call.body.frame));
        reply := StringToFrame(payload);
      }
    }
  }

  datatype Incoming = Incoming(id: Frame, call: Call)

  /** A response: the caller's identity, its call info, a status state, and the reply. */
  datatype Outgoing = Outgoing(id: Frame, funcName: string, state: nat, reply: Frame)

  /** The calls of any clients, dispatched one after the other. */
  function ServedAll(store: map<string, string>, calls: seq<Incoming>): (map<string, string>, seq<Outgoing>) {
    if calls == [] then (store, [])
    else
      var (before, out) := ServedAll(store, calls[..|calls| - 1]);
      var last := calls[|calls| - 1];
      var (after, reply) := Dispatch(before, last.call);
      (after, out + [Outgoing(last.id, last.call.funcName, 0, reply)])
  }

  class Server {
    const service: ServiceImp_A

    constructor ()
      ensures fresh(service) && service.msgMap == map[]
    {
      service := new ServiceImp_A();
    }

    /** The serve loop, for as many calls as have come. */
    method Serve(calls: seq<Incoming>) returns (out: seq<Outgoing>)
      modifies service
      ensures (service.msgMap, out) == ServedAll(old(service.msgMap), calls)
    {
      out := [];
      for i := 0 to |calls|
        invariant (service.msgMap, out) == ServedAll(old(service.msgMap), calls[..i])
      {
        assert calls[..i + 1][..i] == calls[..i];
        var reply := service.DispatchCall(calls[i].call);
        out := out + [Outgoing(calls[i].id, calls[i].call.funcName, 0, reply)];
      }
      assert calls[..|calls|] == calls;
    }
  }

  // The system of clients and server

  /** A call in progress; times are history, read off a clock that no one can see. */
  datatype Pending = Pending(op: Op, invokedAt: nat)
  datatype Completed = Completed(op: Op, result: string, invokedAt: nat, index: nat, respondedAt: nat)
  datatype Client = Client(pending: Option<Pending>, done: seq<Completed>)

  /** `index` is history: the place of the call in the order of dispatch. */
  datatype Packet = Query(client: string, call: Call) | Response(client: string, reply: Frame, index: nat)

  /** One dispatch of the server. */
  datatype Served = Served(client: string, op: Op, reply: Frame, at: nat)

  datatype State = State(
    clients: map<string, Client>,
    store: map<string, string>,
    net: seq<Packet>,
    log: seq<Served>,
    clock: nat)

  datatype Action = Invoke(client: string, op: Op) | Serve(n: nat) | Receive(n: nat)

  predicate Calling(s: State, c: string) {
    c in s.clients && s.clients[c].pending.Some?
  }

  predicate Enabled(s: State, a: Action) {
    match a
    case Invoke(c, op) => c in s.clients && s.clients[c].pending.None? && Prepare(op).Some?
    case Serve(n) => n < |s.net| && s.net[n].Query? && Calling(s, s.net[n].client)
    case Receive(n) => n < |s.net| && s.net[n].Response? && Calling(s, s.net[n].client)
  }

  function Complete(call: Pending, p: Packet, now: nat): Completed
    requires p.Response?
  {
    Completed(call.op, Result(call.op, p.reply), call.invokedAt, p.index, now)
  }

  function Apply(s: State, a: Action): State
    requires Enabled(s, a)
  {
    match a
    case Invoke(c, op) =>
      var k := s.clients[c].(pending := Some(Pending(op, s.clock)));
      s.(clients := s.clients[c := k], net := s.net + [Query(c, Prepare(op).value)], clock := s.clock + 1)
    case Serve(n) =>
      var p := s.net[n];
      var (store, reply) := Dispatch(s.store, p.call);
      s.(store := store,
         net := Without(s.net, n) + [Response(p.client, reply, |s.log|)],
         log := s.log + [Served(p.client, s.clients[p.client].pending.value.op, reply, s.clock)],
         clock := s.clock + 1)
    case Receive(n) =>
      var p := s.net[n];
      var k := s.clients[p.client];
      var done := Complete(k.pending.value, p, s.clock);
      s.(clients := s.clients[p.client := Client(None, k.done + [done])],
         net := Without(s.net, n),
         clock := s.clock + 1)
  }

  /** The payload of the last set in the log whose topic the store keeps under this name. */
  function LastStored(log: seq<Served>, name: string): string {
    if log == [] then ""
    else
      var op := log[|log| - 1].op;
      if op.Set? && CString(op.topic) == name then op.payload else LastStored(log[..|log| - 1], name)
  }

  /** The payload of the last set on this very topic. */
  function LatestSet(log: seq<Served>, topic: string): string {
    if log == [] then ""
    else
      var op := log[|log| - 1].op;
      if op.Set? && op.topic == topic then op.payload else LatestSet(log[..|log| - 1], topic)
  }

  /** Entry j is the last set in the log whose topic is this one. */
  ghost predicate LastSetAt(log: seq<Served>, topic: string, j: nat) {
    && j < |log| && log[j].op.Set? && log[j].op.topic == topic
    && forall i :: j < i < |log| && log[i].op.Set? ==> log[i].op.topic != topic
  }

  /** The same, for a topic under the name that the store keeps it. */
  ghost predicate LastStoredAt(log: seq<Served>, name: string, j: nat) {
    && j < |log| && log[j].op.Set? && CString(log[j].op.topic) == name
    && forall i :: j < i < |log| && log[i].op.Set? ==> CString(log[i].op.topic) != name
  }

  lemma {:induction false} LatestSetIsLast(log: seq<Served>, topic: string, j: nat)
    requires LastSetAt(log, topic, j)
    ensures LatestSet(log, topic) == log[j].op.payload
  {
    if j < |log| - 1 {
      LatestSetIsLast(log[..|log| - 1], topic, j);
    }
  }

  lemma {:induction false} NeverSetIsEmpty(log: seq<Served>, topic: string)
    requires forall i :: 0 <= i < |log| && log[i].op.Set? ==> log[i].op.topic != topic
    ensures LatestSet(log, topic) == ""
  {
    if log != [] {
      NeverSetIsEmpty(log[..|log| - 1], topic);
    }
  }

  lemma {:induction false} LastStoredIsLast(log: seq<Served>, name: string, j: nat)
    requires LastStoredAt(log, name, j)
    ensures LastStored(log, name) == log[j].op.payload
  {
    hide CString;
    if j < |log| - 1 {
      LastStoredIsLast(log[..|log| - 1], name, j);
    }
  }

  lemma {:induction false} NeverStoredIsEmpty(log: seq<Served>, name: string)
    requires forall i :: 0 <= i < |log| && log[i].op.Set? ==> CString(log[i].op.topic) != name
    ensures LastStored(log, name) == ""
  {
    hide CString;
    if log != [] {
      NeverStoredIsEmpty(log[..|log| - 1], name);
    }
  }

  /** A call by a name the service does not know changes nothing and gets an empty frame. */
  lemma UnknownCallIgnored(store: map<string, string>, call: Call)
    requires call.funcName != GET && call.funcName != SET
    ensures Dispatch(store, call) == (store, [])
  {
  }

  function OwnedBy(c: string): Packet -> int {
    (p: Packet) => if p.client == c then 1 else 0
  }

  predicate CallTrue(e: Served, before: seq<Served>) {
    e.op.topic != "" && e.reply == if e.op.Get? then StringToFrame(LastStored(before, e.op.topic)) else []
  }

  predicate PacketTrue(clients: map<string, Client>, log: seq<Served>, p: Packet) {
    && p.client in clients && clients[p.client].pending.Some?
    && var call := clients[p.client].pending.value;
       match p
       case Query(_, c) => Prepare(call.op) == Some(c)
       case Response(c, reply, i) =>
         i < |log| && log[i].client == c && log[i].op == call.op && log[i].reply == reply && call.invokedAt < log[i].at
  }

  predicate DoneTrue(c: string, log: seq<Served>, d: Completed, clock: nat) {
    && d.index < |log|
    && log[d.index].client == c && log[d.index].op == d.op && d.result == Result(d.op, log[d.index].reply)
    && d.invokedAt < log[d.index].at < d.respondedAt < clock
  }

  ghost predicate ClientTrue(c: string, k: Client, log: seq<Served>, clock: nat) {
    && (forall j :: 0 <= j < |k.done| ==> DoneTrue(c, log, k.done[j], clock))
    && (forall i, j :: 0 <= i < j < |k.done| ==> k.done[i].respondedAt < k.done[j].invokedAt)
    && (k.pending.Some? ==> k.pending.value.invokedAt < clock &&
                            forall j :: 0 <= j < |k.done| ==> k.done[j].respondedAt < k.pending.value.invokedAt)
  }

  ghost predicate LogTrue(log: seq<Served>, clock: nat) {
    && (forall j :: 0 <= j < |log| ==> CallTrue(log[j], log[..j]) && log[j].at < clock)
    && (forall i, j :: 0 <= i < j < |log| ==> log[i].at < log[j].at)
  }

  ghost predicate Inv(s: State) {
    && (forall c :: c in s.clients ==> Sum(s.net, OwnedBy(c)) == if s.clients[c].pending.Some? then 1 else 0)
    && (forall p :: p in s.net ==> PacketTrue(s.clients, s.log, p))
    && (forall c :: c in s.clients ==> ClientTrue(c, s.clients[c], s.log, s.clock))
    && LogTrue(s.log, s.clock)
    && (forall t :: Lookup(s.store, t) == LastStored(s.log, t))
  }

  lemma NotOwned(net: seq<Packet>, c: string)
    requires Sum(net, OwnedBy(c)) == 0
    ensures forall p :: p in net ==> p.client != c
  {
    forall p | p in net ensures p.client != c {
      var j :| 0 <= j < |net| && net[j] == p;
      SumBounds(net, OwnedBy(c), j);
    }
  }

  lemma StoredAfter(log: seq<Served>, e: Served, name: string)
    ensures LastStored(log + [e], name) ==
            if e.op.Set? && CString(e.op.topic) == name then e.op.payload else LastStored(log, name)
  {
    assert (log + [e])[..|log|] == log;
  }

  /** What dispatch answers, in terms of the dispatches before it. */
  lemma DispatchTrue(store: map<string, string>, log: seq<Served>, op: Op, call: Call, e: Served)
    requires Prepare(op) == Some(call) && forall t :: Lookup(store, t) == LastStored(log, t)
    requires e.op == op && e.reply == Dispatch(store, call).1
    ensures CallTrue(e, log)
    ensures forall t :: Lookup(Dispatch(store, call).0, t) == LastStored(log + [e], t)
  {
    hide LastStored, CString, StringToFrame, FrameToString;
    FramesReadBack(op.topic, [NUL]);
    forall t ensures Lookup(Dispatch(store, call).0, t) == LastStored(log + [e], t) {
      StoredAfter(log, e, t);
    }
  }

  /** Later dispatches and a later clock leave what is true of a client true. */
  lemma ClientStaysTrue(c: string, k: Client, log: seq<Served>, more: seq<Served>, clock: nat)
    requires ClientTrue(c, k, log, clock)
    ensures ClientTrue(c, k, log + more, clock + 1)
  {
    forall j | 0 <= j < |k.done| ensures DoneTrue(c, log + more, k.done[j], clock + 1) {
      assert DoneTrue(c, log, k.done[j], clock);
    }
  }

  lemma LogStaysTrue(log: seq<Served>, e: Served, clock: nat)
    requires LogTrue(log, clock) && CallTrue(e, log) && e.at == clock
    ensures LogTrue(log + [e], clock + 1)
  {
    var after := log + [e];
    forall j | 0 <= j < |after| ensures CallTrue(after[j], after[..j]) {
      assert after[..j] == log[..j];
      if j < |log| {
        assert CallTrue(log[j], log[..j]);
      } else {
        assert log[..j] == log;
      }
    }
  }

  lemma LogLater(log: seq<Served>, clock: nat)
    requires LogTrue(log, clock)
    ensures LogTrue(log, clock + 1)
  {
  }

  lemma InvokeKeepsNet(s: State, c: string, op: Op)
    requires Inv(s) && Enabled(s, Invoke(c, op))
    ensures var t := Apply(s, Invoke(c, op));
            && (forall x :: x in t.clients ==> Sum(t.net, OwnedBy(x)) == if t.clients[x].pending.Some? then 1 else 0)
            && (forall q :: q in t.net ==> PacketTrue(t.clients, t.log, q))
  {
    hide ClientTrue, LogTrue, LastStored, Lookup;
    var t := Apply(s, Invoke(c, op));
    NotOwned(s.net, c);
    forall x | x in t.clients ensures Sum(t.net, OwnedBy(x)) == if t.clients[x].pending.Some? then 1 else 0 {
      SumAppend(s.net, Query(c, Prepare(op).value), OwnedBy(x));
    }
    forall p | p in t.net ensures PacketTrue(t.clients, t.log, p) {
      assert p in s.net ==> PacketTrue(s.clients, s.log, p);
    }
  }

  lemma CallBegins(c: string, k: Client, log: seq<Served>, clock: nat, op: Op)
    requires ClientTrue(c, k, log, clock) && k.pending.None?
    ensures ClientTrue(c, k.(pending := Some(Pending(op, clock))), log, clock + 1)
  {
    forall j | 0 <= j < |k.done| ensures DoneTrue(c, log, k.done[j], clock + 1) && k.done[j].respondedAt < clock {
      assert DoneTrue(c, log, k.done[j], clock);
    }
  }

  lemma InvokeKeepsInv(s: State, c: string, op: Op)
    requires Inv(s) && Enabled(s, Invoke(c, op))
    ensures Inv(Apply(s, Invoke(c, op)))
  {
    hide ClientTrue, LastStored, Lookup, LogTrue, CallTrue;
    var t, k := Apply(s, Invoke(c, op)), s.clients[c];
    InvokeKeepsNet(s, c, op);
    hide PacketTrue, OwnedBy, Prepare;
    LogLater(s.log, s.clock);
    CallBegins(c, k, s.log, s.clock, op);
    assert s.log + [] == s.log;
    forall x | x in t.clients ensures ClientTrue(x, t.clients[x], t.log, t.clock) {
      if x != c {
        ClientStaysTrue(x, s.clients[x], s.log, [], s.clock);
      }
    }
  }

  /** A served query becomes a response to the same client, for the place it took in the log. */
  lemma ServeAnswers(s: State, n: nat) returns (q: Packet)
    requires Inv(s) && Enabled(s, Serve(n))
    ensures var t := Apply(s, Serve(n));
            t.net == Without(s.net, n) + [q] && q.client == s.net[n].client && PacketTrue(t.clients, t.log, q)
  {
    hide LogTrue, LastStored, Dispatch, Lookup, DoneTrue, OwnedBy;
    var p := s.net[n];
    assert PacketTrue(s.clients, s.log, p) && ClientTrue(p.client, s.clients[p.client], s.log, s.clock);
    q := Apply(s, Serve(n)).net[|s.net| - 1];
  }

  lemma ServeKeepsNet(s: State, n: nat)
    requires Inv(s) && Enabled(s, Serve(n))
    ensures var t := Apply(s, Serve(n));
            && (forall x :: x in t.clients ==> Sum(t.net, OwnedBy(x)) == if t.clients[x].pending.Some? then 1 else 0)
            && (forall q :: q in t.net ==> PacketTrue(t.clients, t.log, q))
  {
    var r := ServeAnswers(s, n);
    hide LogTrue, LastStored, Dispatch, Lookup, ClientTrue, Prepare;
    var t := Apply(s, Serve(n));
    SumExchange(s.net, n, r);
    forall q | q in t.net ensures PacketTrue(t.clients, t.log, q) {
      assert q in s.net ==> PacketTrue(s.clients, s.log, q);
    }
  }

  /** What a dispatch adds to the log and does to the store. */
  lemma ServeLogs(s: State, n: nat) returns (e: Served)
    requires Inv(s) && Enabled(s, Serve(n))
    ensures var t := Apply(s, Serve(n));
            t.log == s.log + [e] && LogTrue(t.log, t.clock) && forall x :: Lookup(t.store, x) == LastStored(t.log, x)
  {
    hide ClientTrue, LogTrue, LastStored, Lookup, OwnedBy;
    var p, op := s.net[n], s.clients[s.net[n].client].pending.value.op;
    assert PacketTrue(s.clients, s.log, p);
    hide PacketTrue, Inv, CallTrue;
    e := Served(p.client, op, Dispatch(s.store, p.call).1, s.clock);
    DispatchTrue(s.store, s.log, op, p.call, e);
    LogStaysTrue(s.log, e, s.clock);
  }

  lemma ServeKeepsInv(s: State, n: nat)
    requires Inv(s) && Enabled(s, Serve(n))
    ensures Inv(Apply(s, Serve(n)))
  {
    hide PacketTrue, OwnedBy, ClientTrue, LogTrue, LastStored, Lookup;
    var t := Apply(s, Serve(n));
    ServeKeepsNet(s, n);
    var e := ServeLogs(s, n);
    hide Dispatch;
    forall x | x in t.clients ensures ClientTrue(x, t.clients[x], t.log, t.clock) {
      ClientStaysTrue(x, s.clients[x], s.log, [e], s.clock);
    }
  }

  /** A response settles its client's call, at the place where the call was dispatched. */
  lemma ResponseSettles(c: string, k: Client, log: seq<Served>, clock: nat, p: Packet, done: Completed)
    requires ClientTrue(c, k, log, clock) && LogTrue(log, clock) && k.pending.Some?
    requires p.Response? && p.client == c && PacketTrue(map[c := k], log, p)
    requires done == Complete(k.pending.value, p, clock)
    ensures ClientTrue(c, Client(None, k.done + [done]), log, clock + 1)
  {
    assert DoneTrue(c, log, done, clock + 1);
  }

  lemma ReceiveKeepsCounts(s: State, n: nat)
    requires Inv(s) && Enabled(s, Receive(n))
    ensures var (p, t) := (s.net[n], Apply(s, Receive(n)));
            && Sum(t.net, OwnedBy(p.client)) == 0
            && forall x :: x in t.clients ==> Sum(t.net, OwnedBy(x)) == if t.clients[x].pending.Some? then 1 else 0
  {
    hide ClientTrue, LogTrue, LastStored, PacketTrue, Lookup, Result;
    var p, t := s.net[n], Apply(s, Receive(n));
    SumExchange(s.net, n, p);
    forall x | x in t.clients ensures Sum(t.net, OwnedBy(x)) == if t.clients[x].pending.Some? then 1 else 0 {
      assert Sum(t.net, OwnedBy(x)) == Sum(s.net, OwnedBy(x)) - OwnedBy(x)(p);
    }
  }

  lemma ReceiveKeepsNet(s: State, n: nat)
    requires Inv(s) && Enabled(s, Receive(n))
    ensures var t := Apply(s, Receive(n));
            && (forall x :: x in t.clients ==> Sum(t.net, OwnedBy(x)) == if t.clients[x].pending.Some? then 1 else 0)
            && (forall q :: q in t.net ==> PacketTrue(t.clients, t.log, q))
  {
    ReceiveKeepsCounts(s, n);
    hide ClientTrue, LogTrue, LastStored, Lookup, Result, Prepare, OwnedBy;
    var p, t := s.net[n], Apply(s, Receive(n));
    NotOwned(t.net, p.client);
    forall q | q in t.net ensures PacketTrue(t.clients, t.log, q) {
      assert PacketTrue(s.clients, s.log, q);
    }
  }

  lemma SettledBy(s: State, n: nat) returns (done: Completed)
    requires Inv(s) && Enabled(s, Receive(n))
    ensures var (c, t) := (s.net[n].client, Apply(s, Receive(n)));
            && t.clients[c] == Client(None, s.clients[c].done + [done])
            && ClientTrue(c, t.clients[c], t.log, t.clock)
  {
    hide LastStored, CallTrue, OwnedBy;
    var p := s.net[n];
    var c, k := p.client, s.clients[p.client];
    done := Complete(k.pending.value, p, s.clock);
    assert PacketTrue(s.clients, s.log, p) && ClientTrue(c, k, s.log, s.clock);
    hide ClientTrue, LogTrue;
    ResponseSettles(c, k, s.log, s.clock, p, done);
  }

  lemma ReceiveKeepsInv(s: State, n: nat)
    requires Inv(s) && Enabled(s, Receive(n))
    ensures Inv(Apply(s, Receive(n)))
  {
    hide LastStored, CallTrue, OwnedBy, ClientTrue, LogTrue;
    var p, t := s.net[n], Apply(s, Receive(n));
    var c, k := p.client, s.clients[p.client];
    ReceiveKeepsNet(s, n);
    var done := SettledBy(s, n);
    hide PacketTrue;
    LogLater(s.log, s.clock);
    assert s.log + [] == s.log;
    forall x | x in t.clients ensures ClientTrue(x, t.clients[x], t.log, t.clock) {
      if x == c {
        assert t.clients[c] == Client(None, k.done + [done]);
      } else {
        ClientStaysTrue(x, s.clients[x], s.log, [], s.clock);
      }
    }
  }

  lemma StepKeepsInv(s: State, a: Action)
    requires Inv(s) && Enabled(s, a)
    ensures Inv(Apply(s, a))
  {
    hide Inv;
    match a
    case Invoke(c, op) => InvokeKeepsInv(s, c, op);
    case Serve(n) => ServeKeepsInv(s, n);
    case Receive(n) => ReceiveKeepsInv(s, n);
  }

  ghost predicate Runs(s: State, run: seq<Action>)
    decreases |run|
  {
    run == [] || (Enabled(s, run[0]) && Runs(Apply(s, run[0]), run[1..]))
  }

  ghost function After(s: State, run: seq<Action>): State
    requires Runs(s, run)
    decreases |run|
  {
    if run == [] then s else After(Apply(s, run[0]), run[1..])
  }

  function InitialState(clients: set<string>): State {
    State(map c | c in clients :: Client(None, []), map[], [], [], 0)
  }

  ghost predicate Reaches(clients: set<string>, run: seq<Action>, s: State) {
    Runs(InitialState(clients), run) && After(InitialState(clients), run) == s
  }

  ghost predicate Reachable(s: State) {
    exists clients, run :: Reaches(clients, run, s)
  }

  lemma {:induction false} RunKeepsInv(s: State, run: seq<Action>)
    requires Inv(s) && Runs(s, run)
    ensures Inv(After(s, run))
    decreases |run|
  {
    hide Inv;
    if run != [] {
      StepKeepsInv(s, run[0]);
      RunKeepsInv(Apply(s, run[0]), run[1..]);
    }
  }

  lemma ReachableInv(s: State)
    requires Reachable(s)
    ensures Inv(s)
  {
    hide Runs;
    var clients, run :| Reaches(clients, run, s);
    RunKeepsInv(InitialState(clients), run);
  }

  lemma DoneFacts(s: State, c: string, a: nat)
    requires Reachable(s) && c in s.clients && a < |s.clients[c].done|
    ensures DoneTrue(c, s.log, s.clients[c].done[a], s.clock) && LogTrue(s.log, s.clock)
  {
    ReachableInv(s);
    hide Reachable, LogTrue, DoneTrue, CallTrue, PacketTrue, Lookup;
    assert ClientTrue(c, s.clients[c], s.log, s.clock);
  }

  // The log as the server's run

  /** The calls of a log, as they reached the server. */
  function CallsOf(log: seq<Served>): seq<Incoming>
    requires forall e :: e in log ==> Prepare(e.op).Some?
  {
    seq(|log|, j requires 0 <= j < |log| => Incoming(StringToFrame(log[j].client), Prepare(log[j].op).value))
  }

  /** The responses of a log, each under its caller's identity. */
  function ResponsesOf(log: seq<Served>): seq<Outgoing>
    requires forall e :: e in log ==> Prepare(e.op).Some?
  {
    seq(|log|, j requires 0 <= j < |log| =>
      Outgoing(StringToFrame(log[j].client), Prepare(log[j].op).value.funcName, 0, log[j].reply))
  }

  ghost predicate LogServed(s: State) {
    && (forall e :: e in s.log ==> Prepare(e.op).Some?)
    && ServedAll(map[], CallsOf(s.log)) == (s.store, ResponsesOf(s.log))
  }

  lemma ServeKeepsServed(s: State, n: nat)
    requires Inv(s) && LogServed(s) && Enabled(s, Serve(n))
    ensures LogServed(Apply(s, Serve(n)))
  {
    hide Dispatch, LogTrue, ClientTrue, Lookup, LastStored, OwnedBy, Prepare;
    var t := Apply(s, Serve(n));
    assert PacketTrue(s.clients, s.log, s.net[n]);
    hide Inv, PacketTrue;
    var e := t.log[|s.log|];
    assert t.log == s.log + [e];
    var calls := CallsOf(t.log);
    assert calls[..|calls| - 1] == CallsOf(s.log);
    var response := Outgoing(StringToFrame(e.client), s.net[n].call.funcName, 0, e.reply);
    assert ResponsesOf(t.log) == ResponsesOf(s.log) + [response];
  }

  lemma {:induction false} RunKeepsServed(s: State, run: seq<Action>)
    requires Inv(s) && LogServed(s) && Runs(s, run)
    ensures LogServed(After(s, run))
    decreases |run|
  {
    hide Inv, Dispatch, Prepare;
    if run != [] {
      StepKeepsInv(s, run[0]);
      if run[0].Serve? {
        ServeKeepsServed(s, run[0].n);
      }
      RunKeepsServed(Apply(s, run[0]), run[1..]);
    }
  }

  lemma InitialServed(clients: set<string>)
    ensures Inv(InitialState(clients)) && LogServed(InitialState(clients))
  {
    assert CallsOf([]) == [] && ResponsesOf([]) == [];
  }

  /**
   * In every reachable state, store and replies are those of the server's loop run on the calls
   * dispatched so far, in the order of dispatch.
   */
  lemma ServerRunsLog(s: State)
    requires Reachable(s)
    ensures LogServed(s)
  {
    hide Runs, Inv, LogServed;
    var clients, run :| Reaches(clients, run, s);
    InitialServed(clients);
    RunKeepsServed(InitialState(clients), run);
  }

  // Calls complete

  function StepsLeft(): Packet -> int {
    (p: Packet) => if p.Query? then 2 else 1
  }

  function Steps(): Action -> int {
    (a: Action) => if a.Invoke? then 0 else 1
  }

  function Invocations(): Action -> int {
    (a: Action) => if a.Invoke? then 1 else 0
  }

  lemma StepUsesSteps(s: State, a: Action)
    requires Enabled(s, a)
    ensures Sum(Apply(s, a).net, StepsLeft()) + Steps()(a) == Sum(s.net, StepsLeft()) + 2 * Invocations()(a)
  {
    hide Dispatch;
    var t := Apply(s, a);
    match a
    case Invoke(c, op) => SumAppend(s.net, t.net[|s.net|], StepsLeft());
    case Serve(n) => SumExchange(s.net, n, t.net[|s.net| - 1]);
    case Receive(n) => SumWithout(s.net, n, StepsLeft());
  }

  /** Every call takes two steps, a dispatch and a receipt: over any run their numbers agree. */
  lemma {:induction false} TwoStepsPerCall(s: State, run: seq<Action>)
    requires Runs(s, run)
    ensures Sum(run, Steps()) + Sum(After(s, run).net, StepsLeft())
            == Sum(s.net, StepsLeft()) + 2 * Sum(run, Invocations())
    decreases |run|
  {
    hide Enabled, Apply, Steps, Invocations, StepsLeft;
    if run != [] {
      StepUsesSteps(s, run[0]);
      TwoStepsPerCall(Apply(s, run[0]), run[1..]);
    }
  }

  /** A client that blocks in a call can always hope: its call can be dispatched or its response received. */
  lemma CallsCanComplete(s: State, c: string)
    requires Reachable(s) && Calling(s, c)
    ensures exists n: nat :: n < |s.net| && s.net[n].client == c && (Enabled(s, Serve(n)) || Enabled(s, Receive(n)))
  {
    ReachableInv(s);
    hide Reachable, ClientTrue, LogTrue;
    var n := SumPositive(s.net, OwnedBy(c));
    assert PacketTrue(s.clients, s.log, s.net[n]);
  }

  /** Calls a and b of clients c and d have both completed. */
  predicate BothDone(s: State, c: string, a: nat, d: string, b: nat) {
    c in s.clients && a < |s.clients[c].done| && d in s.clients && b < |s.clients[d].done|
  }

  /**
   * Every completed call took effect at one dispatch of its own, between its invocation and its
   * response, and returned what the dispatches before that one left under its topic.
   */
  lemma CallsTakeEffectOnce(s: State, c: string, a: nat)
    requires Reachable(s) && c in s.clients && a < |s.clients[c].done|
    ensures var d := s.clients[c].done[a];
            && d.index < |s.log| && s.log[d.index].client == c && s.log[d.index].op == d.op
            && d.invokedAt < s.log[d.index].at < d.respondedAt
            && d.result == (if d.op.Get? then LastStored(s.log[..d.index], d.op.topic) else "")
    ensures forall x, b: nat ::
              BothDone(s, c, a, x, b) && s.clients[x].done[b].index == s.clients[c].done[a].index ==> x == c && b == a
  {
    ReachableInv(s);
    hide Reachable;
    var d := s.clients[c].done[a];
    assert ClientTrue(c, s.clients[c], s.log, s.clock) && DoneTrue(c, s.log, d, s.clock);
    assert CallTrue(s.log[d.index], s.log[..d.index]);
    FramesReadBack(LastStored(s.log[..d.index], d.op.topic), [NUL]);
    forall x, b: nat | BothDone(s, c, a, x, b) && s.clients[x].done[b].index == d.index ensures x == c && b == a {
      assert ClientTrue(x, s.clients[x], s.log, s.clock);
      assert DoneTrue(x, s.log, s.clients[x].done[b], s.clock);
    }
  }

  /** Dispatch order respects real time: a call that ended before another began comes before it. */
  lemma RealTimeOrder(s: State, c: string, a: nat, d: string, b: nat)
    requires Reachable(s) && BothDone(s, c, a, d, b)
    requires s.clients[c].done[a].respondedAt < s.clients[d].done[b].invokedAt
    ensures s.clients[c].done[a].index < s.clients[d].done[b].index
  {
    hide Reachable, CallTrue, Result;
    DoneFacts(s, c, a);
    DoneFacts(s, d, b);
    var x, y := s.clients[c].done[a], s.clients[d].done[b];
    assert s.log[x.index].at < s.log[y.index].at;
  }

  lemma {:induction false} StoredIsLatest(log: seq<Served>, topic: string)
    requires forall j :: 0 <= j < |log| && log[j].op.Set? ==> NulFree(log[j].op.topic)
    ensures LastStored(log, topic) == LatestSet(log, topic)
  {
    if log != [] {
      ReadsWhole(log[|log| - 1].op.topic);
      StoredIsLatest(log[..|log| - 1], topic);
    }
  }

  /** With topics free of NULs, every completed get returns the payload of the latest set on its topic. */
  lemma GetsLatestSet(s: State, c: string, a: nat)
    requires Reachable(s) && c in s.clients && a < |s.clients[c].done| && s.clients[c].done[a].op.Get?
    requires forall j :: 0 <= j < |s.log| && s.log[j].op.Set? ==> NulFree(s.log[j].op.topic)
    ensures var d := s.clients[c].done[a];
            d.index < |s.log| && d.result == LatestSet(s.log[..d.index], d.op.topic)
  {
    CallsTakeEffectOnce(s, c, a);
    hide Reachable;
    StoredIsLatest(s.log[..s.clients[c].done[a].index], s.clients[c].done[a].op.topic);
  }

  // For which topics gets return the latest set

  /** All sets in the log are on topics of one set, and all gets on topics of another. */
  ghost predicate Uses(log: seq<Served>, sets: iset<string>, gets: iset<string>) {
    forall e :: e in log ==> if e.op.Set? then e.op.topic in sets else e.op.topic in gets
  }

  /** Every completed get has returned the latest set on its topic. */
  ghost predicate GetsAreLatest(s: State) {
    forall c, a: nat :: c in s.clients && a < |s.clients[c].done| ==> GetIsLatest(s.log, s.clients[c].done[a])
  }

  predicate GetIsLatest(log: seq<Served>, d: Completed) {
    d.op.Get? ==> d.index < |log| && d.result == LatestSet(log[..d.index], d.op.topic)
  }

  /** What a set on t is stored under is the topic of a get on g exactly when t is g. */
  predicate Matches(t: string, g: string) {
    CString(t) == g <==> t == g
  }

  ghost predicate AllMatch(sets: iset<string>, gets: iset<string>) {
    forall t, g :: t in sets && g in gets && g != "" ==> Matches(t, g)
  }

  lemma {:induction false} MatchingIsLatest(log: seq<Served>, sets: iset<string>, gets: iset<string>, g: string)
    requires Uses(log, sets, gets) && AllMatch(sets, gets) && g in gets && g != ""
    ensures LastStored(log, g) == LatestSet(log, g)
  {
    if log != [] {
      assert log[|log| - 1] in log;
      assert log[|log| - 1].op.Set? ==> Matches(log[|log| - 1].op.topic, g);
      MatchingIsLatest(log[..|log| - 1], sets, gets, g);
    }
  }

  lemma {:induction false} RunExtends(s: State, run: seq<Action>, a: Action)
    requires Runs(s, run) && Enabled(After(s, run), a)
    ensures Runs(s, run + [a]) && After(s, run + [a]) == Apply(After(s, run), a)
    decreases |run|
  {
    hide Enabled, Apply;
    if run == [] {
      assert run + [a] == [a] && [a][1..] == [];
      assert Runs(Apply(s, a), []);
    } else {
      assert (run + [a])[1..] == run[1..] + [a];
      RunExtends(Apply(s, run[0]), run[1..], a);
    }
  }

  lemma ReachesOn(s: State, a: Action)
    requires Reachable(s) && Enabled(s, a)
    ensures Reachable(Apply(s, a))
  {
    hide Runs, After, Apply, Enabled;
    var clients, run :| Reaches(clients, run, s);
    RunExtends(InitialState(clients), run, a);
    assert Reaches(clients, run + [a], Apply(s, a));
  }

  /** Client c has made these calls one after the other, and nothing else has happened. */
  ghost predicate OneByOne(s: State, c: string, ops: seq<Op>) {
    && Reachable(s) && c in s.clients && s.clients[c].pending.None? && s.net == []
    && |s.log| == |s.clients[c].done| == |ops|
    && forall j :: 0 <= j < |ops| ==>
         s.log[j].op == ops[j] && s.clients[c].done[j].op == ops[j] && s.clients[c].done[j].index == j
  }

  lemma CallOnce(s: State, c: string, ops: seq<Op>, op: Op) returns (t: State)
    requires OneByOne(s, c, ops) && op.topic != ""
    ensures OneByOne(t, c, ops + [op])
  {
    hide Reachable, Dispatch;
    ReachesOn(s, Invoke(c, op));
    t := Apply(s, Invoke(c, op));
    assert t.net == [Query(c, Prepare(op).value)];
    ReachesOn(t, Serve(0));
    t := Apply(t, Serve(0));
    assert |t.net| == 1 && t.net[0].Response?;
    ReachesOn(t, Receive(0));
    t := Apply(t, Receive(0));
  }

  /** The run that shows it: a set on t, then a get on g. */
  lemma SetThenGet(t: string, g: string) returns (s: State)
    requires t != "" && g != "" && !Matches(t, g)
    ensures Reachable(s) && |s.log| == 2 && s.log[0].op == Set(t, "payload") && s.log[1].op == Get(g)
    ensures !GetsAreLatest(s)
  {
    var c, first, second := "client", Set(t, "payload"), Get(g);
    s := InitialState({c});
    assert Reaches({c}, [], s);
    s := CallOnce(s, c, [], first);
    assert [] + [first] == [first];
    s := CallOnce(s, c, [first], second);
    assert [first] + [second] == [first, second];
    hide Matches;
    CallsTakeEffectOnce(s, c, 1);
    hide Reachable;
    assert s.clients[c].done[1].op == second && s.log[0].op == first;
    var before := s.log[..1];
    assert before[..0] == [];
    assert LastStored(before, g) == if CString(t) == g then "payload" else "";
    assert LatestSet(before, g) == if t == g then "payload" else "";
    assert Matches(t, g) || !GetIsLatest(s.log, s.clients[c].done[1]);
  }

  /**
   * Over all histories whose sets and gets keep to given topics, gets return the latest sets if and only if
   * each set's topic, cut at its first NUL, is the topic of a get exactly when it was so before the cut.
   */
  lemma GetsLatestExactly(sets: iset<string>, gets: iset<string>)
    ensures (forall s :: Reachable(s) && Uses(s.log, sets, gets) ==> GetsAreLatest(s)) <==> AllMatch(sets, gets)
  {
    hide Reachable;
    if AllMatch(sets, gets) {
      forall s | Reachable(s) && Uses(s.log, sets, gets) ensures GetsAreLatest(s) {
        forall c, a: nat | c in s.clients && a < |s.clients[c].done| ensures GetIsLatest(s.log, s.clients[c].done[a]) {
          var d := s.clients[c].done[a];
          DoneFacts(s, c, a);
          CallsTakeEffectOnce(s, c, a);
          if d.op.Get? {
            assert CallTrue(s.log[d.index], s.log[..d.index]) && s.log[d.index] in s.log;
            MatchingIsLatest(s.log[..d.index], sets, gets, d.op.topic);
          }
        }
      }
    } else {
      var t, g :| t in sets && g in gets && g != "" && !Matches(t, g);
      var s := SetThenGet(t, g);
      assert Uses(s.log, sets, gets);
    }
  }

  /** When sets and gets use the same topics, that is: if and only if none of the topics has a NUL. */
  lemma GetsLatestWhenNulFree(topics: iset<string>)
    ensures (forall s :: Reachable(s) && Uses(s.log, topics, topics) ==> GetsAreLatest(s))
            <==> forall t :: t in topics ==> NulFree(t)
  {
    GetsLatestExactly(topics, topics);
    if forall t :: t in topics ==> NulFree(t) {
      forall t, g | t in topics && g in topics ensures Matches(t, g) {
        ReadsWhole(t);
      }
    } else {
      var t :| t in topics && !NulFree(t);
      ReadsWhole(t);
      assert t != "" && !Matches(t, t);
    }
  }

  /** What a get on a topic returns right after a set on it, through both wire forms. */
  function GetAfterSet(store: map<string, string>, topic: string, payload: string): string
    requires topic != ""
  {
    var stored := Dispatch(store, Prepare(Set(topic, payload)).value).0;
    Result(Get(topic), Dispatch(stored, Prepare(Get(topic)).value).1)
  }

  lemma GetAfterSetReads(store: map<string, string>, topic: string, payload: string)
    requires topic != ""
    ensures GetAfterSet(store, topic, payload) == if NulFree(topic) then payload else Lookup(store, topic)
  {
    hide CString, StringToFrame, FrameToString;
    FramesReadBack(topic, [NUL]);
    FramesReadBack(if NulFree(topic) then payload else Lookup(store, topic), [NUL]);
    ReadsWhole(topic);
  }

  /**
   * A set reads back, whatever the store held and whatever bytes the payload has, exactly when its
   * topic has no NUL: a set cuts its topic at the first NUL, a get does not.
   */
  lemma SetReadsBack(topic: string)
    requires topic != ""
    ensures (forall store, payload :: GetAfterSet(store, topic, payload) == payload) <==> NulFree(topic)
  {
    if NulFree(topic) {
      forall store, payload ensures GetAfterSet(store, topic, payload) == payload {
        GetAfterSetReads(store, topic, payload);
      }
    } else {
      GetAfterSetReads(map[], topic, "payload");
      assert GetAfterSet(map[], topic, "payload") != "payload";
    }
  }
}
