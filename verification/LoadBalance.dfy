/** The single-tier balancer: one broker that takes no request it has no worker for. */
module LoadBalance {
  import opened Logs
  import opened Messages
  import opened NameBuffers
  import opened Framing

  datatype Task = Task(taskID: nat, taskType: nat, arr: seq<real>)
  datatype TaskResult = TaskResult(taskID: nat, taskType: nat, sum: real)

  /** What the machine settles: how doubles add up, and the bytes of a TaskResult. */
  datatype Host = Host(add: Adder, bytes: TaskResult -> Bytes)

  /** A message in flight; each kind travels on links of its own. */
  datatype Packet =
    | Asked(client: string, task: Task)
    | Given(worker: string, client: string, task: Task)
    | Announced(worker: string)
    | Returned(worker: string, client: string, result: TaskResult)
    | Answered(client: string, reply: Frame)

  datatype Link = FromClient(id: string) | ToWorker(id: string) | FromWorker(id: string) | ToClient(id: string)

  function LinkOf(p: Packet): Link {
    match p
    case Asked(c, _) => FromClient(c)
    case Given(w, _, _) => ToWorker(w)
    case Announced(w) => FromWorker(w)
    case Returned(w, _, _) => FromWorker(w)
    case Answered(c, _) => ToClient(c)
  }

  /** A client blocks while it has more requests than answers. */
  datatype Client = Client(requests: seq<Task>, answers: seq<Frame>)

  /**
   * `left` holds the frames that the broker has received from the backend and made no message of yet.
   * `found` counts the requests that its last iterations found when they polled and may still take.
   */
  datatype State = State(
    clients: map<string, Client>,
    workers: set<string>,
    started: set<string>,
    ready: seq<string>,
    left: seq<Bytes>,
    found: nat,
    net: seq<Packet>)

  datatype Action = Start(worker: string) | Send(client: string, task: Task) | Deliver(n: nat)

  predicate Waiting(c: Client) {
    |c.requests| > |c.answers|
  }

  /** Worker::processImp on a task. */
  function Work(add: Adder, t: Task): TaskResult {
    TaskResult(t.taskID, t.taskType, FoldLeft(add, t.arr))
  }

  /** The frame that processImp sends back for a task. */
  function ResultFrame(h: Host, t: Task): Bytes {
    h.bytes(Work(h.add, t))
  }

  function OnLink(link: Link): Packet -> bool {
    p => LinkOf(p) == link
  }

  /** A ROUTER drops what is for a peer that has not connected. */
  function Post(s: State, net: seq<Packet>, p: Packet): seq<Packet> {
    if (p.Given? ==> p.worker in s.started) && (p.Answered? ==> p.client in s.clients) then net + [p] else net
  }

  predicate ForBroker(p: Packet) {
    p.Announced? || p.Returned?
  }

  function ToldBroker(h: Host, p: Packet): BackendMsg
    requires ForBroker(p)
  {
    match p
    case Announced(w) => Ready(w)
    case Returned(w, c, r) => Result(w, c, h.bytes(r))
  }

  /** What the broker makes of a message of worker w, in the frames it has received: the messages, and what is left. */
  function Heard(h: Host, s: State, p: Packet): (seq<BackendMsg>, seq<Frame>)
    requires ForBroker(p)
  {
    Receive(s.left + Encode(ToldBroker(h, p)))
  }

  /** The branch for a readable backend, on a message received: an alive signal, or a result to pass on. */
  function Take(s: State, m: BackendMsg): State {
    match m
    case Ready(w) => s.(ready := s.ready + [w])
    case Result(w, c, r) => s.(ready := s.ready + [w], net := Post(s, s.net, Answered(c, r)))
  }

  function TakeAll(s: State, ms: seq<BackendMsg>): State {
    if ms == [] then s else Take(TakeAll(s, ms[..|ms| - 1]), ms[|ms| - 1])
  }

  function Replies(): BackendMsg -> int {
    (m: BackendMsg) => if m.Result? then 1 else 0
  }

  /**
   * How many requests the iterations that make these messages may go on to take: one for each result, as
   * an alive signal cuts its iteration short, and none if their polls cannot have found a request.
   */
  ghost function MayFind(s: State, ms: seq<BackendMsg>): nat {
    SumNonNegative(ms, Replies());
    if s.ready != [] && (exists p :: p in s.net && p.Asked?) then Sum(ms, Replies()) else 0
  }

  /**
   * While frames are left over, the broker waits in a receive on the backend. It takes no request then,
   * unless the iteration that has just passed on a result had found one.
   */
  ghost predicate Enabled(s: State, a: Action) {
    match a
    case Start(w) => w in s.workers && w !in s.started
    case Send(c, _) => c in s.clients && !Waiting(s.clients[c])
    case Deliver(n) =>
      n < |s.net| && Oldest(s.net, n, OnLink(LinkOf(s.net[n]))) &&
      (s.net[n].Asked? ==> s.ready != [] && (s.left == [] || s.found > 0)) &&
      (s.net[n].Answered? ==> s.net[n].client in s.clients && Waiting(s.clients[s.net[n].client]))
  }

  /** The state once the broker has received the frames of packet n, before it makes anything of them. */
  ghost function Received(h: Host, s: State, n: nat): State
    requires n < |s.net| && ForBroker(s.net[n])
  {
    var (ms, left) := Heard(h, s, s.net[n]);
    s.(left := left, found := MayFind(s, ms), net := Without(s.net, n))
  }

  ghost function DeliverPacket(h: Host, s: State, n: nat): State
    requires n < |s.net| && (s.net[n].Asked? ==> s.ready != []) && (s.net[n].Answered? ==> s.net[n].client in s.clients)
  {
    var rest := Without(s.net, n);
    match s.net[n]
    case Asked(c, t) =>
      s.(ready := s.ready[1..],
         found := if s.found > 0 then s.found - 1 else 0,
         net := Post(s, rest, Given(s.ready[0], c, t)))
    case Given(w, c, t) => s.(net := rest + [Returned(w, c, Work(h.add, t))])
    case Announced(_) => TakeAll(Received(h, s, n), Heard(h, s, s.net[n]).0)
    case Returned(_, _, _) => TakeAll(Received(h, s, n), Heard(h, s, s.net[n]).0)
    case Answered(c, r) =>
      var k := s.clients[c];
      s.(clients := s.clients[c := k.(answers := k.answers + [r])], net := rest)
  }

  ghost function Apply(h: Host, s: State, a: Action): State
    requires Enabled(s, a)
  {
    match a
    case Start(w) => s.(started := s.started + {w}, net := s.net + [Announced(w)])
    case Send(c, t) =>
      var k := s.clients[c];
      s.(clients := s.clients[c := k.(requests := k.requests + [t])], net := s.net + [Asked(c, t)])
    case Deliver(n) => DeliverPacket(h, s, n)
  }

  function InitialState(clients: set<string>, workers: set<string>): State {
    State(map c | c in clients :: Client([], []), workers, {}, [], [], 0, [])
  }

  ghost predicate Runs(h: Host, s: State, run: seq<Action>)
    decreases |run|
  {
    run == [] || (Enabled(s, run[0]) && Runs(h, Apply(h, s, run[0]), run[1..]))
  }

  ghost function After(h: Host, s: State, run: seq<Action>): State
    requires Runs(h, s, run)
    decreases |run|
  {
    if run == [] then s else After(h, Apply(h, s, run[0]), run[1..])
  }

  // What holds in every state

  function Owner(p: Packet): Option<string> {
    if p.Announced? then None else Some(p.client)
  }

  function OwnedBy(c: string): Packet -> int {
    p => if Owner(p) == Some(c) then 1 else 0
  }

  function BackendOf(w: string): Packet -> int {
    p => if LinkOf(p) == ToWorker(w) || LinkOf(p) == FromWorker(w) then 1 else 0
  }

  function Tokens(ready: seq<string>, net: seq<Packet>, w: string): int {
    Sum(ready, Is(w)) + Sum(net, BackendOf(w))
  }

  /** A message carries its waiting client's last request, or the result of it. */
  predicate Legal(h: Host, clients: map<string, Client>, p: Packet) {
    p.Announced? ||
    (p.client in clients && Waiting(clients[p.client]) &&
     var t := clients[p.client].requests[|clients[p.client].requests| - 1];
     match p
     case Asked(_, task) => task == t
     case Given(_, _, task) => task == t
     case Returned(_, _, r) => r == Work(h.add, t)
     case Answered(_, reply) => reply == ResultFrame(h, t))
  }

  ghost predicate NetLegal(h: Host, clients: map<string, Client>, net: seq<Packet>) {
    forall p :: p in net ==> Legal(h, clients, p)
  }

  ghost predicate OneMessagePerWait(clients: map<string, Client>, net: seq<Packet>) {
    forall c :: c in clients ==> Sum(net, OwnedBy(c)) == if Waiting(clients[c]) then 1 else 0
  }

  ghost predicate OneTokenPerWorker(ready: seq<string>, started: set<string>, net: seq<Packet>) {
    forall w :: Tokens(ready, net, w) == if w in started then 1 else 0
  }

  /** The frame holds a result with the task's id and type, and where the running sums of its numbers end. */
  ghost predicate RightResult(h: Host, t: Task, frame: Frame) {
    exists r: TaskResult ::
      frame == h.bytes(r) && r.taskID == t.taskID && r.taskType == t.taskType && SumsTo(h.add, t.arr, r.sum)
  }

  lemma WorkIsRight(h: Host, t: Task)
    ensures var r := Work(h.add, t);
            r.taskID == t.taskID && r.taskType == t.taskType && SumsTo(h.add, t.arr, r.sum)
    ensures RightResult(h, t, ResultFrame(h, t))
  {
    FoldSums(h.add, t.arr, FoldLeft(h.add, t.arr));
  }

  /** Answers come one for each request, in the order of the requests, and each is right for its own. */
  ghost predicate AnsweredRight(h: Host, k: Client) {
    && |k.answers| <= |k.requests| <= |k.answers| + 1
    && forall j :: 0 <= j < |k.answers| ==> RightResult(h, k.requests[j], k.answers[j])
  }

  lemma SoFarIsRight(h: Host, k: Client)
    requires AnsweredSoFar(h, k)
    ensures AnsweredRight(h, k)
  {
    forall j | 0 <= j < |k.answers| ensures RightResult(h, k.requests[j], k.answers[j]) {
      WorkIsRight(h, k.requests[j]);
    }
  }

  predicate AnsweredSoFar(h: Host, k: Client) {
    && |k.answers| <= |k.requests| <= |k.answers| + 1
    && forall j :: 0 <= j < |k.answers| ==> k.answers[j] == ResultFrame(h, k.requests[j])
  }

  /** Answers are those of the requests, each client owns what it should, each started worker is in one place. */
  ghost predicate Conserved(h: Host, s: State) {
    && (forall c :: c in s.clients ==> AnsweredRight(h, s.clients[c]))
    && OneMessagePerWait(s.clients, s.net)
    && OneTokenPerWorker(s.ready, s.started, s.net)
  }

  ghost predicate Inv(h: Host, s: State) {
    && s.left == [] && s.started <= s.workers
    && NetLegal(h, s.clients, s.net)
    && OneMessagePerWait(s.clients, s.net)
    && OneTokenPerWorker(s.ready, s.started, s.net)
    && forall c :: c in s.clients ==> AnsweredSoFar(h, s.clients[c])
  }

  /** No result can be taken for an alive signal: no client has the name that stands for one, or nobody works. */
  predicate ToldApart(clients: set<string>, workers: set<string>) {
    WORKER_ALIVE !in clients || workers == {}
  }

  /** Between messages, the broker hears what the worker said, or takes a result for an alive signal and has it left. */
  lemma HeardBetweenMessages(h: Host, s: State, p: Packet)
    requires ForBroker(p) && s.left == []
    ensures Heard(h, s, p) ==
            if p.Returned? && p.client == WORKER_ALIVE then ([Ready(p.worker)], [h.bytes(p.result)])
            else ([ToldBroker(h, p)], [])
  {
    var m := ToldBroker(h, p);
    assert s.left + Encode(m) == Encode(m);
    if p.Returned? && p.client == WORKER_ALIVE {
      AmbiguousClientMisread(p.worker, h.bytes(p.result));
    } else {
      FramingRoundTrip([m]);
      assert EncodeAll([m]) == Encode(m) + EncodeAll([]) == Encode(m);
    }
  }

  lemma TakeOne(s: State, m: BackendMsg)
    ensures TakeAll(s, [m]) == Take(s, m)
  {
    assert [m][..0] == [];
  }

  /**
   * Between messages, a result marks its worker ready and goes to its client if that is not called
   * WORKER_ALIVE; otherwise it goes nowhere, and the broker is left with its frame.
   */
  lemma ResultPassedOn(h: Host, s: State, n: nat)
    requires Enabled(s, Deliver(n)) && s.net[n].Returned? && s.net[n].client in s.clients && s.left == []
    ensures var (p, t) := (s.net[n], DeliverPacket(h, s, n));
            && t == s.(ready := s.ready + [p.worker], left := t.left, found := t.found, net := t.net)
            && (t.left == [] && t.net == Without(s.net, n) + [Answered(p.client, h.bytes(p.result))]
                <==> p.client != WORKER_ALIVE)
            && (t.left == [h.bytes(p.result)] && t.net == Without(s.net, n) <==> p.client == WORKER_ALIVE)
  {
    var p, rest := s.net[n], Without(s.net, n);
    HeardBetweenMessages(h, s, p);
    TakeOne(Received(h, s, n), Heard(h, s, p).0[0]);
  }

  /** The worker at the head of the ready queue has started. */
  lemma HeadStarted(s: State)
    requires OneTokenPerWorker(s.ready, s.started, s.net) && s.ready != []
    ensures s.ready[0] in s.started
  {
    CountMembers(s.ready, s.ready[0]);
    SumNonNegative(s.net, BackendOf(s.ready[0]));
    assert Tokens(s.ready, s.net, s.ready[0]) > 0;
  }

  /** Handing packet n on as q, with the queue changing as the links do, keeps the three counts. */
  lemma HandOver(h: Host, s: State, n: nat, q: Packet, ready: seq<string>, found: nat)
    requires Inv(h, s) && n < |s.net| && Legal(h, s.clients, q) && Owner(q) == Owner(s.net[n])
    requires forall w :: Sum(ready, Is(w)) + BackendOf(w)(q) == Sum(s.ready, Is(w)) + BackendOf(w)(s.net[n])
    ensures Inv(h, s.(ready := ready, found := found, net := Without(s.net, n) + [q]))
  {
    hide Legal, AnsweredSoFar;
    var net := Without(s.net, n) + [q];
    SumExchange(s.net, n, q);
    forall c | c in s.clients ensures Sum(net, OwnedBy(c)) == Sum(s.net, OwnedBy(c)) {
      assert OwnedBy(c)(q) == OwnedBy(c)(s.net[n]);
    }
    forall w ensures Tokens(ready, net, w) == Tokens(s.ready, s.net, w) {}
  }

  /** An alive signal taken in. */
  lemma TakeIn(h: Host, s: State, n: nat, found: nat)
    requires Inv(h, s) && n < |s.net| && s.net[n].Announced?
    ensures Inv(h, s.(ready := s.ready + [s.net[n].worker], found := found, net := Without(s.net, n)))
  {
    hide Legal, AnsweredSoFar;
    var net, ready := Without(s.net, n), s.ready + [s.net[n].worker];
    forall c | c in s.clients ensures Sum(net, OwnedBy(c)) == Sum(s.net, OwnedBy(c)) {
      SumWithout(s.net, n, OwnedBy(c));
    }
    forall w ensures Tokens(ready, net, w) == Tokens(s.ready, s.net, w) {
      SumWithout(s.net, n, BackendOf(w));
      SumAppend(s.ready, s.net[n].worker, Is(w));
    }
  }

  /** A client without packets may change its record. */
  lemma OthersStayLegal(h: Host, clients: map<string, Client>, net: seq<Packet>, c: string, k: Client)
    requires NetLegal(h, clients, net) && Sum(net, OwnedBy(c)) == 0
    ensures NetLegal(h, clients[c := k], net)
  {
    forall p | p in net ensures Legal(h, clients[c := k], p) {
      assert Legal(h, clients, p);
      if Owner(p) == Some(c) {
        var j :| 0 <= j < |net| && net[j] == p;
        SumBounds(net, OwnedBy(c), j);
      }
    }
  }

  lemma ReceiptAnswers(h: Host, s: State, n: nat)
    requires Inv(h, s) && Enabled(s, Deliver(n)) && s.net[n].Answered?
    ensures forall c :: c in s.clients ==> AnsweredSoFar(h, DeliverPacket(h, s, n).clients[c])
  {
    assert Legal(h, s.clients, s.net[n]);
  }

  lemma ReceiptKeepsInv(h: Host, s: State, n: nat)
    requires Inv(h, s) && Enabled(s, Deliver(n)) && s.net[n].Answered?
    ensures Inv(h, DeliverPacket(h, s, n))
  {
    var p, net := s.net[n], Without(s.net, n);
    var t := DeliverPacket(h, s, n);
    ReceiptAnswers(h, s, n);
    assert AnsweredSoFar(h, s.clients[p.client]);
    hide Legal, AnsweredSoFar;
    SumExchange(s.net, n, p);
    forall c | c in t.clients ensures Sum(net, OwnedBy(c)) == if Waiting(t.clients[c]) then 1 else 0 {
      assert Sum(net, OwnedBy(c)) == Sum(s.net, OwnedBy(c)) - OwnedBy(c)(p);
    }
    OthersStayLegal(h, s.clients, net, p.client, t.clients[p.client]);
    forall w ensures Tokens(s.ready, net, w) == Tokens(s.ready, s.net, w) {
      assert BackendOf(w)(p) == 0;
    }
  }

  /** A worker with a message on one of its links has started. */
  lemma SenderStarted(s: State, n: nat, w: string)
    requires OneTokenPerWorker(s.ready, s.started, s.net) && n < |s.net| && BackendOf(w)(s.net[n]) == 1
    ensures w in s.started
  {
    CountMembers(s.ready, w);
    SumBounds(s.net, BackendOf(w), n);
    assert Tokens(s.ready, s.net, w) > 0;
  }

  lemma ReplyKeepsInv(h: Host, s: State, n: nat)
    requires Inv(h, s) && ToldApart(s.clients.Keys, s.workers) && Enabled(s, Deliver(n)) && s.net[n].Returned?
    ensures Inv(h, DeliverPacket(h, s, n))
  {
    var p := s.net[n];
    assert Legal(h, s.clients, p);
    SenderStarted(s, n, p.worker);
    ResultPassedOn(h, s, n);
    forall v ensures Sum(s.ready + [p.worker], Is(v)) == Sum(s.ready, Is(v)) + Is(v)(p.worker) {
      SumAppend(s.ready, p.worker, Is(v));
    }
    HandOver(h, s, n, Answered(p.client, h.bytes(p.result)), s.ready + [p.worker], DeliverPacket(h, s, n).found);
  }

  lemma DeliverKeepsInv(h: Host, s: State, n: nat)
    requires Inv(h, s) && ToldApart(s.clients.Keys, s.workers) && Enabled(s, Deliver(n))
    ensures Inv(h, DeliverPacket(h, s, n))
  {
    assert Legal(h, s.clients, s.net[n]);
    match s.net[n]
    case Asked(c, t) =>
      HeadStarted(s);
      HandOver(h, s, n, Given(s.ready[0], c, t), s.ready[1..], DeliverPacket(h, s, n).found);
    case Given(w, c, t) =>
      HandOver(h, s, n, Returned(w, c, Work(h.add, t)), s.ready, s.found);
    case Announced(w) =>
      HeardBetweenMessages(h, s, s.net[n]);
      TakeOne(Received(h, s, n), Ready(w));
      TakeIn(h, s, n, DeliverPacket(h, s, n).found);
    case Returned(_, _, _) =>
      ReplyKeepsInv(h, s, n);
    case Answered(_, _) =>
      ReceiptKeepsInv(h, s, n);
  }

  lemma StartKeepsInv(h: Host, s: State, w: string)
    requires Inv(h, s) && Enabled(s, Start(w))
    ensures Inv(h, Apply(h, s, Start(w)))
  {
    var t, p := Apply(h, s, Start(w)), Announced(w);
    forall c | c in s.clients ensures Sum(t.net, OwnedBy(c)) == Sum(s.net, OwnedBy(c)) {
      SumAppend(s.net, p, OwnedBy(c));
    }
    forall v ensures Tokens(s.ready, t.net, v) == if v in t.started then 1 else 0 {
      SumAppend(s.net, p, BackendOf(v));
      assert Tokens(s.ready, s.net, v) == if v in s.started then 1 else 0;
    }
  }

  lemma SendKeepsInv(h: Host, s: State, c: string, task: Task)
    requires Inv(h, s) && Enabled(s, Send(c, task))
    ensures Inv(h, Apply(h, s, Send(c, task)))
  {
    var t, p := Apply(h, s, Send(c, task)), Asked(c, task);
    assert AnsweredSoFar(h, s.clients[c]);
    OthersStayLegal(h, s.clients, s.net, c, t.clients[c]);
    forall x | x in t.clients ensures Sum(t.net, OwnedBy(x)) == if Waiting(t.clients[x]) then 1 else 0 {
      SumAppend(s.net, p, OwnedBy(x));
    }
    forall w ensures Tokens(s.ready, t.net, w) == Tokens(s.ready, s.net, w) {
      SumAppend(s.net, p, BackendOf(w));
    }
  }

  lemma StepKeepsInv(h: Host, s: State, a: Action)
    requires Inv(h, s) && ToldApart(s.clients.Keys, s.workers) && Enabled(s, a)
    ensures Inv(h, Apply(h, s, a))
  {
    hide Inv;
    match a
    case Start(w) => StartKeepsInv(h, s, w);
    case Send(c, t) => SendKeepsInv(h, s, c, t);
    case Deliver(n) => DeliverKeepsInv(h, s, n);
  }

  lemma {:induction false} TakeAllKeeps(s: State, ms: seq<BackendMsg>)
    ensures var t := TakeAll(s, ms); t.clients == s.clients && t.workers == s.workers
  {
    if ms != [] {
      TakeAllKeeps(s, ms[..|ms| - 1]);
    }
  }

  lemma StepKeepsPeers(h: Host, s: State, a: Action)
    requires Enabled(s, a)
    ensures Apply(h, s, a).clients.Keys == s.clients.Keys && Apply(h, s, a).workers == s.workers
  {
    if a.Deliver? && ForBroker(s.net[a.n]) {
      TakeAllKeeps(Received(h, s, a.n), Heard(h, s, s.net[a.n]).0);
    }
  }

  lemma {:induction false} RunKeepsInv(h: Host, s: State, run: seq<Action>)
    requires Inv(h, s) && ToldApart(s.clients.Keys, s.workers) && Runs(h, s, run)
    ensures Inv(h, After(h, s, run))
    decreases |run|
  {
    hide Inv;
    if run != [] {
      StepKeepsInv(h, s, run[0]);
      StepKeepsPeers(h, s, run[0]);
      RunKeepsInv(h, Apply(h, s, run[0]), run[1..]);
    }
  }

  ghost predicate Reaches(h: Host, clients: set<string>, workers: set<string>, run: seq<Action>, s: State) {
    && Runs(h, InitialState(clients, workers), run)
    && After(h, InitialState(clients, workers), run) == s
  }

  /** What a deployment of these clients and workers, of any names, can come to. */
  ghost predicate Reachable(h: Host, clients: set<string>, workers: set<string>, s: State) {
    exists run :: Reaches(h, clients, workers, run, s)
  }

  lemma ReachableInv(h: Host, clients: set<string>, workers: set<string>, s: State)
    requires Reachable(h, clients, workers, s) && ToldApart(clients, workers)
    ensures Inv(h, s)
  {
    hide Runs;
    var run :| Reaches(h, clients, workers, run, s);
    RunKeepsInv(h, InitialState(clients, workers), run);
  }

  // Messages for peers that are there

  /** The end of a packet's link: a client of the deployment, or a worker that has connected. */
  predicate HasEnd(s: State, p: Packet) {
    match LinkOf(p)
    case FromClient(c) => c in s.clients
    case ToClient(c) => c in s.clients
    case FromWorker(w) => w in s.started
    case ToWorker(w) => w in s.started
  }

  ghost predicate AllHaveEnds(s: State) {
    forall p :: p in s.net ==> HasEnd(s, p)
  }

  lemma {:induction false} TakeAllHasEnds(s: State, ms: seq<BackendMsg>)
    requires AllHaveEnds(s)
    ensures var t := TakeAll(s, ms); AllHaveEnds(t) && t.clients == s.clients && t.started == s.started
  {
    if ms != [] {
      TakeAllHasEnds(s, ms[..|ms| - 1]);
    }
  }

  lemma StepHasEnds(h: Host, s: State, a: Action)
    requires AllHaveEnds(s) && Enabled(s, a)
    ensures AllHaveEnds(Apply(h, s, a))
  {
    if a.Deliver? && ForBroker(s.net[a.n]) {
      var t := Received(h, s, a.n);
      forall p | p in t.net ensures HasEnd(t, p) {
        assert HasEnd(s, p);
      }
      TakeAllHasEnds(t, Heard(h, s, s.net[a.n]).0);
    } else {
      var t := Apply(h, s, a);
      assert a.Deliver? ==> HasEnd(s, s.net[a.n]);
      forall p | p in t.net ensures HasEnd(t, p) {
        assert p in s.net ==> HasEnd(s, p);
      }
    }
  }

  lemma {:induction false} RunHasEnds(h: Host, s: State, run: seq<Action>)
    requires AllHaveEnds(s) && Runs(h, s, run)
    ensures AllHaveEnds(After(h, s, run))
    decreases |run|
  {
    hide AllHaveEnds, Enabled, Apply;
    if run != [] {
      StepHasEnds(h, s, run[0]);
      RunHasEnds(h, Apply(h, s, run[0]), run[1..]);
    }
  }

  /**
   * Whatever names are in use, and whatever the broker makes of left-over frames: a message in flight is
   * for a client there is or a worker that has connected, as the sockets drop what is for anyone else.
   */
  lemma NobodyUnknown(h: Host, clients: set<string>, workers: set<string>, s: State)
    requires Reachable(h, clients, workers, s)
    ensures AllHaveEnds(s)
  {
    hide Runs;
    var run :| Reaches(h, clients, workers, run, s);
    RunHasEnds(h, InitialState(clients, workers), run);
  }

  // The run that fails

  lemma {:induction false} RunExtends(h: Host, s: State, run: seq<Action>, a: Action)
    requires Runs(h, s, run) && Enabled(After(h, s, run), a)
    ensures Runs(h, s, run + [a]) && After(h, s, run + [a]) == Apply(h, After(h, s, run), a)
    decreases |run|
  {
    hide Enabled, Apply;
    if run == [] {
      assert run + [a] == [a] && [a][1..] == [];
      assert Runs(h, Apply(h, s, a), []);
    } else {
      assert (run + [a])[1..] == run[1..] + [a];
      RunExtends(h, Apply(h, s, run[0]), run[1..], a);
    }
  }

  lemma ReachesOn(h: Host, clients: set<string>, workers: set<string>, s: State, a: Action, t: State)
    requires Reachable(h, clients, workers, s) && Enabled(s, a) && Apply(h, s, a) == t
    ensures Reachable(h, clients, workers, t)
  {
    hide Runs, After, Apply, Enabled;
    var run :| Reaches(h, clients, workers, run, s);
    RunExtends(h, InitialState(clients, workers), run, a);
    assert Reaches(h, clients, workers, run + [a], t);
  }

  /** The only packet in flight can be delivered. */
  lemma OnlyPacket(s: State, p: Packet)
    requires s.net == [p]
    ensures Without(s.net, 0) == [] && forall q: Packet :: Without(s.net, 0) + [q] == [q]
    ensures Enabled(s, Deliver(0)) <==>
            (p.Asked? ==> s.ready != [] && (s.left == [] || s.found > 0)) &&
            (p.Answered? ==> p.client in s.clients && Waiting(s.clients[p.client]))
  {
    assert OnLink(LinkOf(p))(p);
  }

  /** The state in which the request of WORKER_ALIVE has been lost, with everything else at rest. */
  function Lost(h: Host, clients: set<string>, workers: set<string>, w: string, t: Task): State {
    var all := InitialState(clients, workers).clients;
    State(all[WORKER_ALIVE := Client([t], [])], workers, {w}, [w], [ResultFrame(h, t)], 0, [])
  }

  /** A worker starts and becomes ready. */
  lemma OneIsReady(h: Host, clients: set<string>, workers: set<string>, w: string)
    requires w in workers
    ensures Reachable(h, clients, workers, InitialState(clients, workers).(started := {w}, ready := [w]))
  {
    var s0 := InitialState(clients, workers);
    assert Reaches(h, clients, workers, [], s0);
    hide Reachable;
    var p := Announced(w);
    var s1 := s0.(started := {w}, net := [p]);
    ReachesOn(h, clients, workers, s0, Start(w), s1);
    OnlyPacket(s1, p);
    HeardBetweenMessages(h, s1, p);
    TakeOne(s1.(net := []), Ready(w));
    ReachesOn(h, clients, workers, s1, Deliver(0), s1.(ready := [w], net := []));
  }

  /** Then WORKER_ALIVE asks, the worker works, and the broker misreads its result. */
  lemma AmbiguousClientLosesRequest(h: Host, clients: set<string>, workers: set<string>, w: string, t: Task)
    requires WORKER_ALIVE in clients && w in workers
    ensures Reachable(h, clients, workers, Lost(h, clients, workers, w, t))
  {
    OneIsReady(h, clients, workers, w);
    hide Reachable;
    var c := WORKER_ALIVE;
    var s2 := InitialState(clients, workers).(started := {w}, ready := [w]);
    var s3 := s2.(clients := s2.clients[c := Client([t], [])], net := [Asked(c, t)]);
    assert [] + [t] == [t] && [] + [Asked(c, t)] == [Asked(c, t)];
    ReachesOn(h, clients, workers, s2, Send(c, t), s3);
    var s4 := s3.(ready := [], net := [Given(w, c, t)]);
    OnlyPacket(s3, Asked(c, t));
    ReachesOn(h, clients, workers, s3, Deliver(0), s4);
    var s5 := s4.(net := [Returned(w, c, Work(h.add, t))]);
    OnlyPacket(s4, Given(w, c, t));
    ReachesOn(h, clients, workers, s4, Deliver(0), s5);
    OnlyPacket(s5, Returned(w, c, Work(h.add, t)));
    ResultPassedOn(h, s5, 0);
    HeardBetweenMessages(h, s5, s5.net[0]);
    TakeOne(Received(h, s5, 0), Ready(w));
    ReachesOn(h, clients, workers, s5, Deliver(0), Lost(h, clients, workers, w, t));
  }

  lemma LostIsStuck(h: Host, clients: set<string>, workers: set<string>, w: string, t: Task)
    requires WORKER_ALIVE in clients
    ensures var s := Lost(h, clients, workers, w, t);
            && WORKER_ALIVE in s.clients && Waiting(s.clients[WORKER_ALIVE]) && w in s.started && !Conserved(h, s)
            && forall n: nat :: !Enabled(s, Deliver(n))
  {
    assert Sum(Lost(h, clients, workers, w, t).net, OwnedBy(WORKER_ALIVE)) == 0;
  }

  // What every deployment is promised, and which deployments it holds for

  /**
   * In every reachable state each answer is the frame of its request's result, each waiting client owns
   * one message and any other none, and each started worker is in one place: if and only if results can
   * be told apart from alive signals.
   */
  lemma BalancerConserves(h: Host, clients: set<string>, workers: set<string>)
    ensures (forall s :: Reachable(h, clients, workers, s) ==> Conserved(h, s)) <==> ToldApart(clients, workers)
  {
    hide Reachable, AnsweredRight, AnsweredSoFar, Lost;
    if ToldApart(clients, workers) {
      forall s | Reachable(h, clients, workers, s) ensures Conserved(h, s) {
        ReachableInv(h, clients, workers, s);
        forall c | c in s.clients ensures AnsweredRight(h, s.clients[c]) {
          SoFarIsRight(h, s.clients[c]);
        }
      }
    } else {
      var w, t :| w in workers && t == Task(0, 1, []);
      AmbiguousClientLosesRequest(h, clients, workers, w, t);
      LostIsStuck(h, clients, workers, w, t);
    }
  }

  // Progress

  function Rank(p: Packet): int {
    match p
    case Asked(_, _) => 4
    case Given(_, _, _) => 3
    case Returned(_, _, _) => 2
    case Answered(_, _) => 1
    case Announced(_) => 1
  }

  function Ranks(): Packet -> int {
    p => Rank(p)
  }

  function Deliveries(): Action -> int {
    (a: Action) => if a.Deliver? then 1 else 0
  }

  function Sends(): Action -> int {
    (a: Action) => if a.Send? then 1 else 0
  }

  function Starts(): Action -> int {
    (a: Action) => if a.Start? then 1 else 0
  }

  /** What is in flight may still take, and frames left over may still send. */
  function Potential(s: State): int {
    Sum(s.net, Ranks()) + |s.left|
  }

  /** Each message that is received uses up two frames, and one more if it is passed on. */
  lemma {:induction false} ReceiveUses(frames: seq<Frame>)
    ensures var (ms, left) := Receive(frames); 2 * |ms| + Sum(ms, Replies()) + |left| <= |frames|
    ensures |frames| >= 3 && [] !in frames ==> Receive(frames).0 != []
    decreases |frames|
  {
    match Next(frames)
    case None =>
    case Some((m, rest)) =>
      ReceiveUses(rest);
      var ms := Receive(rest).0;
      assert ([m] + ms)[1..] == ms;
  }

  lemma {:induction false} TakeAllSends(s: State, ms: seq<BackendMsg>)
    ensures Sum(TakeAll(s, ms).net, Ranks()) <= Sum(s.net, Ranks()) + Sum(ms, Replies())
    ensures TakeAll(s, ms).left == s.left
  {
    if ms != [] {
      var before, m := TakeAll(s, ms[..|ms| - 1]), ms[|ms| - 1];
      TakeAllSends(s, ms[..|ms| - 1]);
      assert ms == ms[..|ms| - 1] + [m];
      SumAppend(ms[..|ms| - 1], m, Replies());
      if m.Result? {
        SumAppend(before.net, Answered(m.client, m.result), Ranks());
      }
    }
  }

  lemma HearingUsesFrames(h: Host, s: State, p: Packet)
    requires ForBroker(p)
    ensures var (ms, left) := Heard(h, s, p); Sum(ms, Replies()) + |left| < |s.left| + Rank(p)
  {
    ReceiveUses(s.left + Encode(ToldBroker(h, p)));
    if s.left == [] {
      HeardBetweenMessages(h, s, p);
    }
  }

  /** Whatever the broker is left with, hearing a worker costs more than it sends. */
  lemma HearingLowersPotential(h: Host, s: State, n: nat)
    requires n < |s.net| && ForBroker(s.net[n])
    ensures Potential(DeliverPacket(h, s, n)) < Potential(s)
  {
    var p, t := s.net[n], Received(h, s, n);
    SumWithout(s.net, n, Ranks());
    TakeAllSends(t, Heard(h, s, p).0);
    HearingUsesFrames(h, s, p);
    hide Heard, Sum;
  }

  lemma StepLowersPotential(h: Host, s: State, a: Action)
    requires Enabled(s, a)
    ensures Potential(Apply(h, s, a)) + Deliveries()(a) <= Potential(s) + 4 * Sends()(a) + Starts()(a)
  {
    if a.Deliver? && ForBroker(s.net[a.n]) {
      HearingLowersPotential(h, s, a.n);
    } else {
      var t := Apply(h, s, a);
      var kept := if a.Deliver? then Without(s.net, a.n) else s.net;
      if a.Deliver? {
        SumWithout(s.net, a.n, Ranks());
      }
      if t.net != kept {
        var q := t.net[|t.net| - 1];
        assert t.net == kept + [q];
        SumAppend(kept, q, Ranks());
      }
    }
  }

  /** Over any run, at most four messages are delivered for each request and one for each start. */
  lemma {:induction false} DeliveriesBounded(h: Host, s: State, run: seq<Action>)
    requires Runs(h, s, run)
    ensures Sum(run, Deliveries()) + Potential(After(h, s, run))
            <= Potential(s) + 4 * Sum(run, Sends()) + Sum(run, Starts())
    decreases |run|
  {
    hide Enabled, Apply, Potential, Deliveries, Sends, Starts;
    if run != [] {
      DeliveriesBounded(h, Apply(h, s, run[0]), run[1..]);
      StepLowersPotential(h, s, run[0]);
    }
  }

  lemma LinkMoves(h: Host, s: State, j: nat) returns (n: nat)
    requires Inv(h, s) && j < |s.net| && (s.net[j].Asked? ==> s.ready != [])
    ensures Enabled(s, Deliver(n))
  {
    n := OldestExists(s.net, OnLink(LinkOf(s.net[j])), j);
    assert Legal(h, s.clients, s.net[n]);
  }

  /**
   * With a started worker, while a client waits, some message can be taken. When the broker has no ready
   * worker and so leaves requests where they are, some worker has a message on one of its links.
   */
  lemma WaitingMoves(h: Host, s: State, c: string, w: string) returns (n: nat)
    requires Inv(h, s) && c in s.clients && Waiting(s.clients[c]) && w in s.started
    ensures Enabled(s, Deliver(n))
  {
    var j := SumPositive(s.net, OwnedBy(c));
    if s.net[j].Asked? && s.ready == [] {
      assert Tokens(s.ready, s.net, w) == 1;
      j := SumPositive(s.net, BackendOf(w));
    }
    n := LinkMoves(h, s, j);
  }

  ghost predicate Moves(s: State) {
    exists n: nat :: Enabled(s, Deliver(n))
  }

  /** With a started worker, a client that waits has some delivery to hope for. */
  ghost predicate NotLocked(s: State) {
    s.started != {} && (exists c :: c in s.clients && Waiting(s.clients[c])) ==> Moves(s)
  }

  /** No reachable state is locked, if and only if results can be told apart from alive signals. */
  lemma NoDeadlock(h: Host, clients: set<string>, workers: set<string>)
    ensures (forall s :: Reachable(h, clients, workers, s) ==> NotLocked(s)) <==> ToldApart(clients, workers)
  {
    hide Reachable, Inv, Lost;
    if ToldApart(clients, workers) {
      forall s | Reachable(h, clients, workers, s) ensures NotLocked(s) {
        ReachableInv(h, clients, workers, s);
        if c, w :| c in s.clients && Waiting(s.clients[c]) && w in s.started {
          var n := WaitingMoves(h, s, c, w);
        }
      }
    } else {
      var w, t :| w in workers && t == Task(0, 1, []);
      AmbiguousClientLosesRequest(h, clients, workers, w, t);
      LostIsStuck(h, clients, workers, w, t);
    }
  }

  /** With a started worker, nothing is left to deliver only when every request has its own answer. */
  ghost predicate RestAnswered(h: Host, s: State) {
    s.started != {} && !Moves(s) ==>
      forall c :: c in s.clients ==> AnsweredRight(h, s.clients[c]) && |s.clients[c].answers| == |s.clients[c].requests|
  }

  /** The balancer comes to rest only with every request answered, again exactly when the two can be told apart. */
  lemma RestMeansAnswered(h: Host, clients: set<string>, workers: set<string>)
    ensures (forall s :: Reachable(h, clients, workers, s) ==> RestAnswered(h, s)) <==> ToldApart(clients, workers)
  {
    NoDeadlock(h, clients, workers);
    BalancerConserves(h, clients, workers);
    hide Reachable, Moves, Lost;
    if ToldApart(clients, workers) {
      forall s | Reachable(h, clients, workers, s) ensures RestAnswered(h, s) {
        forall c | c in s.clients && s.started != {} && !Moves(s)
          ensures AnsweredRight(h, s.clients[c]) && |s.clients[c].answers| == |s.clients[c].requests|
        {
          assert NotLocked(s) && Conserved(h, s);
          assert AnsweredRight(h, s.clients[c]) && !Waiting(s.clients[c]);
        }
      }
    } else {
      var w, t :| w in workers && t == Task(0, 1, []);
      AmbiguousClientLosesRequest(h, clients, workers, w, t);
      LostIsStuck(h, clients, workers, w, t);
    }
  }

  class Worker {
    const id: string
    var workCounter: nat

    constructor (id: string)
      ensures this.id == id && workCounter == 0
    {
      this.id := id;
      workCounter := 0;
    }

    /** processImp on one task: the result it sends, and the counter, a uint32_t. */
    method ProcessImp(add: Adder, task: Task) returns (taskResult: TaskResult)
      modifies this
      ensures taskResult == Work(add, task)
      ensures taskResult.taskID == task.taskID && taskResult.taskType == task.taskType
      ensures SumsTo(add, task.arr, taskResult.sum)
      ensures workCounter == Truncate32(old(workCounter) + 1)
    {
      taskResult := TaskResult(task.taskID, task.taskType, 0.0);
      for i := 0 to |task.arr|
        invariant taskResult == TaskResult(task.taskID, task.taskType, FoldLeft(add, task.arr[..i]))
      {
        assert task.arr[..i + 1][..i] == task.arr[..i];
        taskResult := taskResult.(sum := add(taskResult.sum, task.arr[i]));
      }
      assert task.arr[..|task.arr|] == task.arr;
      FoldSums(add, task.arr, taskResult.sum);
      workCounter := Truncate32(workCounter + 1);
    }
  }
}
