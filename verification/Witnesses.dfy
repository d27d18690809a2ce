/** Two concrete runs: the bound of eight deliveries is met, and an idle worker does not prevent a rejection. */
module Witnesses {
  import opened Logs
  import opened Messages
  import opened ClusterTable
  import opened Handlers
  import opened TwoTier
  import opened Routes
  import opened Guarantees
  import opened ReadyQueues

  /** Two clusters, a client in one and a worker in the other. */
  function TwoClusters(home: string, away: string, client: string, worker: string): Site {
    Site({home, away}, {Endpoint(home, client)}, {Endpoint(away, worker)})
  }

  ghost predicate Names(home: string, away: string, client: string, worker: string) {
    ValidName(home) && ValidName(away) && home != away && ValidName(client) && ValidName(worker)
  }

  lemma TwoClustersConfigured(home: string, away: string, client: string, worker: string)
    requires Names(home, away, client, worker)
    ensures Configured(TwoClusters(home, away, client, worker))
  {
    var site := TwoClusters(home, away, client, worker);
    assert WorkerIds(site, home) == {} && WorkerIds(site, away) == {worker};
  }

  lemma InitialReachable(add: Adder, site: Site)
    requires Configured(site)
    ensures Reachable(add, InitialState(site))
  {
    assert Reaches(add, site, [], InitialState(site));
  }

  lemma StepReachable(add: Adder, s: State, a: Action)
    requires Reachable(add, s) && Enabled(s, a)
    ensures Reachable(add, Apply(add, s, a))
  {
    hide Enabled, Apply, Reachable;
    assert Runs(add, Apply(add, s, a), []) && [a][1..] == [];
    assert Runs(add, s, [a]) && After(add, s, [a]) == After(add, Apply(add, s, a), []);
    ReachableRuns(add, s, [a]);
  }

  /** The only packet in flight may always be taken. */
  lemma DeliverableNow(add: Adder, s: State, p: Packet)
    requires Reachable(add, s) && s.net == [p]
    ensures Enabled(s, Deliver(0)) && Receivable(s, 0)
  {
    RoutingSound(add, s, 0);
    hide Reachable;
  }

  lemma AppliedDelivery(add: Adder, s: State)
    requires Enabled(s, Deliver(0))
    ensures Apply(add, s, Deliver(0)) == DeliverPacket(add, s, 0)
  {
    hide DeliverPacket;
  }

  lemma OnlyPacketDelivered(add: Adder, s: State, p: Packet)
    requires Reachable(add, s) && s.net == [p]
    ensures Enabled(s, Deliver(0)) && Reachable(add, DeliverPacket(add, s, 0)) && Without(s.net, 0) == []
  {
    DeliverableNow(add, s, p);
    hide Reachable, Apply, Enabled;
    StepReachable(add, s, Deliver(0));
    assert Apply(add, s, Deliver(0)) == DeliverPacket(add, s, 0) by {
      AppliedDelivery(add, s);
    }
  }

  /** A state of the two clusters in which the worker is ready, the client idle and nothing in flight. */
  ghost predicate Prepared(s: State, home: string, away: string, client: string, worker: string) {
    && s.site == TwoClusters(home, away, client, worker) && Manned(s)
    && s.clients[Endpoint(home, client)] == Client([], [])
    && s.brokers[home] == NewBroker(home)
    && s.brokers[away] == MarkReady(NewBroker(away), worker)
    && s.net == [] && s.inproc == [] && s.pushed == []
  }

  lemma WorkerGetsReady(add: Adder, home: string, away: string, client: string, worker: string) returns (s: State)
    requires Names(home, away, client, worker)
    ensures Reachable(add, s) && Prepared(s, home, away, client, worker) && s.table == []
  {
    var site := TwoClusters(home, away, client, worker);
    TwoClustersConfigured(home, away, client, worker);
    var s0 := InitialState(site);
    InitialReachable(add, site);
    hide Reachable, Configured, ValidName;
    var start := StartWorker(Endpoint(away, worker));
    StepReachable(add, s0, start);
    var s1 := Apply(add, s0, start);
    OnlyPacketDelivered(add, s1, Packet(WorkerUp(away, worker), WorkerAlive(worker), 0, []));
    s := DeliverPacket(add, s1, 0);
  }

  function Overflow(home: string, client: string, r: TaskRequest): Message {
    Message(Meta(Addr(home, client, "", ""), r.taskID, NormalTask, Submit), Numbers(r.arr))
  }

  /** The client's request, refused by its own frontend, is on its way to the super broker. */
  lemma RequestOverflows(
      add: Adder, s: State, home: string, away: string, client: string, worker: string, r: TaskRequest)
    returns (t: State)
    requires Reachable(add, s) && Prepared(s, home, away, client, worker)
    ensures Reachable(add, t)
    ensures t == s.(clients := s.clients[Endpoint(home, client) := Client([r], [])],
                    net := [Packet(CloudUp(home), Overflow(home, client, r), 0, [AtFrontend(home, [])])])
  {
    hide Reachable;
    var send := SendRequest(Endpoint(home, client), r);
    StepReachable(add, s, send);
    var s1 := Apply(add, s, send);
    var p := Packet(ClientUp(home, client), Request(client, r.taskID, r.arr), 0, []);
    assert s1.net == [p];
    OnlyPacketDelivered(add, s1, p);
    t := DeliverPacket(add, s1, 0);
    assert t.brokers == s.brokers && [] + [r] == [r] && [] + [AtFrontend(home, [])] == [AtFrontend(home, [])];
    assert t.clients == s.clients[Endpoint(home, client) := Client([r], [])];
    assert t.net == [Packet(CloudUp(home), t.net[0].msg, 0, [AtFrontend(home, [])])];
  }

  /** The rejection goes down to the client's cluster and to the client. */
  lemma RejectionComesHome(
      add: Adder, s: State, home: string, away: string, client: string, worker: string, r: TaskRequest)
    returns (t: State, p: Packet)
    requires Reachable(add, s) && s.site == TwoClusters(home, away, client, worker) && Manned(s) && home != away
    requires s.brokers[home].name == home && s.brokers[away].ready == [worker]
    requires s.clients[Endpoint(home, client)] == Client([r], [])
    requires |s.net| == 1 && s.net[0].link == CloudDown(home)
    requires s.net[0].msg.meta.direction == ReplyRejected && s.net[0].msg.meta.addr.to == client
    ensures Reachable(add, t) && RejectedBeside(t, home, away, client, worker, r, p)
  {
    hide Reachable;
    OnlyPacketDelivered(add, s, s.net[0]);
    var s1 := DeliverPacket(add, s, 0);
    OnlyPacketDelivered(add, s1, s1.net[0]);
    t, p := DeliverPacket(add, s1, 0), s1.net[0];
  }

  /** The super broker takes the only packet and sends what its handler says. */
  lemma SuperDelivers(add: Adder, s: State, p: Packet)
    requires Receivable(s, 0) && s.net == [p] && p.link.CloudUp?
    requires TaskRouter(s.table, p.msg).Sent? && Exists(s.site, TaskRouter(s.table, p.msg).link)
    ensures var q := Forwarded(p, TaskRouter(s.table, p.msg), AtSuper(s.table, |s.pulled|));
            DeliverPacket(add, s, 0) == s.(net := [q])
  {
    hide TaskRouter, Exists;
    assert Without(s.net, 0) == [];
  }

  lemma RefusalOf(m: Message)
    requires m.meta.taskType.NormalTask? && m.meta.direction.Submit?
    requires m.meta.addr.from != "" && m.meta.addr.fromCluster != ""
    ensures TaskRouter([], m) == Sent(CloudDown(m.meta.addr.fromCluster), Rejection(m))
  {
  }

  lemma RefusalIsMade(add: Adder, s: State, p: Packet)
    requires Reachable(add, s) && s.net == [p] && s.table == []
    requires p.link.CloudUp? && p.msg.meta.taskType.NormalTask? && p.msg.meta.direction.Submit?
    requires p.msg.meta.addr.from != "" && p.msg.meta.addr.fromCluster != ""
    requires p.msg.meta.addr.fromCluster in s.site.clusters
    ensures Enabled(s, Deliver(0)) && Reachable(add, DeliverPacket(add, s, 0))
    ensures DeliverPacket(add, s, 0) ==
            s.(net := [Packet(CloudDown(p.msg.meta.addr.fromCluster), Rejection(p.msg), p.serial,
                              p.hops + [AtSuper(s.table, |s.pulled|)])])
  {
    RefusalOf(p.msg);
    OnlyPacketDelivered(add, s, p);
    SuperDelivers(add, s, p);
  }

  /**
   * The code does not promise that a request is served while some worker is idle: here the only
   * worker there is stands ready, unreported, and the request is rejected.
   */
  lemma RejectedWhileIdle(add: Adder, home: string, away: string, client: string, worker: string, r: TaskRequest)
    requires Names(home, away, client, worker)
    ensures exists s, p :: Reachable(add, s) && RejectedBeside(s, home, away, client, worker, r, p)
  {
    var s0 := WorkerGetsReady(add, home, away, client, worker);
    var s1 := RequestOverflows(add, s0, home, away, client, worker, r);
    hide Reachable;
    RefusalIsMade(add, s1, s1.net[0]);
    hide Enabled, Prepared;
    var s2 := DeliverPacket(add, s1, 0);
    var s4, p := RejectionComesHome(add, s2, home, away, client, worker, r);
  }

  predicate RejectedBeside(s: State, home: string, away: string, client: string, worker: string,
                           r: TaskRequest, p: Packet)
  {
    && Endpoint(home, client) in s.clients && s.clients[Endpoint(home, client)] == Client([r], [p])
    && p.msg.meta.direction == ReplyRejected
    && away in s.brokers && s.brokers[away].ready == [worker]
  }

  /** The worker's cluster reports, and the super broker has it in its table. */
  lemma ReportArrives(add: Adder, s: State, home: string, away: string, client: string, worker: string)
    returns (t: State)
    requires Reachable(add, s) && Prepared(s, home, away, client, worker) && s.table == []
    ensures Reachable(add, t) && Prepared(t, home, away, client, worker) && t.table == [Entry(away, 1)]
  {
    hide Reachable;
    StepReachable(add, s, SampleState(away));
    var s1 := Apply(add, s, SampleState(away));
    assert s1.inproc == [Report(away, 1, 2)];
    StepReachable(add, s1, ForwardReport(0));
    var s2 := Apply(add, s1, ForwardReport(0));
    assert s2.pushed == [Report(away, 1, 2)] && s2.inproc == [];
    StepReachable(add, s2, PullReport(0));
    t := Apply(add, s2, PullReport(0));
    assert t.pushed == [];
  }

  predicate ServedAway(s: State, home: string, client: string, r: TaskRequest, p: Packet) {
    && Endpoint(home, client) in s.clients && s.clients[Endpoint(home, client)] == Client([r], [p])
    && p.msg.meta.direction == Reply && |p.hops| + 1 == 8
  }

  lemma OnlyReported(name: string)
    requires name != ""
    ensures Choose([Entry(name, 1)]) == Some(name)
  {
    var t := [Entry(name, 1)];
    assert Front(t) == [];
    assert Scan(t) == (name, 1);
  }

  lemma OfferOf(table: seq<Entry>, away: string, m: Message)
    requires table == [Entry(away, 1)] && away != "" && m.meta.taskType.NormalTask? && m.meta.direction.Submit?
    requires m.meta.addr.from != "" && m.meta.addr.fromCluster != ""
    ensures TaskRouter(table, m) == Sent(CloudDown(away), m.(meta := m.meta.(addr := m.meta.addr.(toCluster := away))))
  {
    OnlyReported(away);
    hide Choose;
  }

  lemma OfferIsMade(add: Adder, s: State, away: string, p: Packet)
    requires Reachable(add, s) && s.net == [p] && s.table == [Entry(away, 1)] && away != ""
    requires p.link.CloudUp? && p.msg.meta.taskType.NormalTask? && p.msg.meta.direction.Submit?
    requires p.msg.meta.addr.from != "" && p.msg.meta.addr.fromCluster != "" && away in s.site.clusters
    ensures Enabled(s, Deliver(0)) && Reachable(add, DeliverPacket(add, s, 0))
    ensures DeliverPacket(add, s, 0) ==
            s.(net := [Packet(CloudDown(away), p.msg.(meta := p.msg.meta.(addr := p.msg.meta.addr.(toCluster := away))),
                              p.serial, p.hops + [AtSuper(s.table, |s.pulled|)])])
  {
    OfferOf(s.table, away, p.msg);
    OnlyPacketDelivered(add, s, p);
    SuperDelivers(add, s, p);
  }

  /** The bound of eight deliveries is met: a request served by the other cluster takes all of them. */
  lemma EightIsReached(add: Adder, home: string, away: string, client: string, worker: string, r: TaskRequest)
    requires Names(home, away, client, worker)
    ensures exists s, p :: Reachable(add, s) && ServedAway(s, home, client, r, p)
  {
    var s0 := WorkerGetsReady(add, home, away, client, worker);
    s0 := ReportArrives(add, s0, home, away, client, worker);
    var s1 := RequestOverflows(add, s0, home, away, client, worker, r);
    hide Reachable;
    OfferIsMade(add, s1, away, s1.net[0]);
    hide Enabled, Prepared;
    var s2 := DeliverPacket(add, s1, 0);
    var s3, p := OfferIsTaken(add, s2, home, away, client, worker, r);
  }

  /** The offered request goes to the ready worker, and its reply comes home. */
  lemma OfferIsTaken(add: Adder, s: State, home: string, away: string, client: string, worker: string, r: TaskRequest)
    returns (t: State, p: Packet)
    requires Reachable(add, s) && s.site == TwoClusters(home, away, client, worker) && Manned(s) && home != away
    requires s.brokers[home].name == home && s.brokers[away].name == away && s.brokers[away].ready == [worker]
    requires s.clients[Endpoint(home, client)] == Client([r], [])
    requires |s.net| == 1 && s.net[0].link == CloudDown(away) && |s.net[0].hops| == 2
    requires s.net[0].msg.meta.taskType.NormalTask? && s.net[0].msg.meta.direction.Submit?
    requires s.net[0].msg.meta.addr.fromCluster == home && s.net[0].msg.meta.addr.from == client
    ensures Reachable(add, t) && ServedAway(t, home, client, r, p)
  {
    hide Reachable;
    OnlyPacketDelivered(add, s, s.net[0]);
    var s1 := DeliverPacket(add, s, 0);
    t, p := AwayServes(add, s1, home, away, client, worker, r);
  }

  /** From the worker's link back to the client: five more deliveries. */
  lemma AwayServes(add: Adder, s: State, home: string, away: string, client: string, worker: string, r: TaskRequest)
    returns (t: State, p: Packet)
    requires Reachable(add, s) && s.site == TwoClusters(home, away, client, worker) && Manned(s) && home != away
    requires s.brokers[home].name == home && s.brokers[away].name == away
    requires s.clients[Endpoint(home, client)] == Client([r], [])
    requires |s.net| == 1 && s.net[0].link == WorkerDown(away, worker) && |s.net[0].hops| == 3
    requires s.net[0].msg.meta.taskType.NormalTask?
    requires s.net[0].msg.meta.addr.fromCluster == home && s.net[0].msg.meta.addr.from == client
    ensures Reachable(add, t) && ServedAway(t, home, client, r, p)
  {
    hide Reachable;
    OnlyPacketDelivered(add, s, s.net[0]);
    var s1 := DeliverPacket(add, s, 0);
    OnlyPacketDelivered(add, s1, s1.net[0]);
    var s2 := DeliverPacket(add, s1, 0);
    OnlyPacketDelivered(add, s2, s2.net[0]);
    var s3 := DeliverPacket(add, s2, 0);
    OnlyPacketDelivered(add, s3, s3.net[0]);
    var s4 := DeliverPacket(add, s3, 0);
    OnlyPacketDelivered(add, s4, s4.net[0]);
    t, p := DeliverPacket(add, s4, 0), s4.net[0];
  }
}
