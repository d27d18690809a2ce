/** The invariant of the data center, and the proof that every action keeps it. */
module Invariant {
  import opened Logs
  import opened Messages
  import opened ClusterTable
  import opened Handlers
  import opened TwoTier
  import opened Routes

  function OwnedBy(e: Endpoint): Packet -> int {
    (p: Packet) => if Owner(p) == Some(e) then 1 else 0
  }

  function BackendOf(k: string, w: string): Packet -> int {
    (p: Packet) => if p.link == WorkerUp(k, w) || p.link == WorkerDown(k, w) then 1 else 0
  }

  /** The places where worker w of cluster k is: in the ready queue, or on either of its links. */
  function Tokens(ready: seq<string>, net: seq<Packet>, k: string, w: string): int {
    Sum(ready, Is(w)) + Sum(net, BackendOf(k, w))
  }

  /** A packet is an alive signal, or belongs to the last request of a client that waits for it. */
  predicate Legal(add: Adder, clients: map<Endpoint, Client>, p: Packet) {
    if p.msg.meta.taskType.AliveSignal? then Alive(p)
    else
      var o := Owner(p);
      && o.Some? && o.value in clients && Waiting(clients[o.value])
      && p.serial == |clients[o.value].requests| - 1
      && Fits(add, o.value, clients[o.value].requests[p.serial], p)
  }

  /** Every handler a message has met is one the site has, and met a table of the site's clusters. */
  ghost predicate RealHops(site: Site, hops: seq<Hop>) {
    forall h :: h in hops ==> RealHop(site, h)
  }

  ghost predicate RealHop(site: Site, h: Hop) {
    match h
    case AtFrontend(k, _) => k in site.clusters
    case AtSuper(table, _) => SoundTable(site, table)
    case AtCloud(k, _) => k in site.clusters
    case AtWorker(k, w) => Endpoint(k, w) in site.workers
    case AtBackend(k) => k in site.clusters
  }

  ghost predicate SoundTable(site: Site, table: seq<Entry>) {
    Sorted(table) && forall i :: 0 <= i < |table| ==> table[i].name in site.clusters
  }

  ghost predicate NetLegal(add: Adder, site: Site, clients: map<Endpoint, Client>, net: seq<Packet>) {
    forall p :: p in net ==> Exists(site, p.link) && RealHops(site, p.hops) && Legal(add, clients, p)
  }

  ghost predicate OneMessagePerWait(clients: map<Endpoint, Client>, net: seq<Packet>) {
    forall e :: e in clients ==> Sum(net, OwnedBy(e)) == if Waiting(clients[e]) then 1 else 0
  }

  ghost predicate OneTokenPerWorker(brokers: map<string, Broker>, started: set<Endpoint>, net: seq<Packet>) {
    forall k, w :: k in brokers ==>
      Tokens(brokers[k].ready, net, k, w) == if Endpoint(k, w) in started then 1 else 0
  }

  /** Answer j of a client answers its request j, and at most one request is open. */
  ghost predicate Answered(add: Adder, site: Site, e: Endpoint, c: Client) {
    && |c.answers| <= |c.requests| <= |c.answers| + 1
    && forall j :: 0 <= j < |c.answers| ==>
         c.answers[j].serial == j && RealHops(site, c.answers[j].hops) &&
         Answers(add, e, c.requests[j], c.answers[j].msg, c.answers[j].hops)
  }

  ghost predicate AllAnswered(add: Adder, site: Site, clients: map<Endpoint, Client>) {
    forall e :: e in clients ==> Answered(add, site, e, clients[e])
  }

  /** Counter, dispatch order and recorded lengths agree with the ready queue. */
  predicate BrokerSound(b: Broker) {
    && b.readyCount == Truncate32(|b.ready|)
    && b.marked == b.dispatched + b.ready
    && b.lengths != [] && b.lengths[|b.lengths| - 1] == |b.ready|
  }

  ghost predicate AllBrokersSound(site: Site, brokers: map<string, Broker>) {
    forall k :: k in brokers ==>
      && brokers[k].name == k && BrokerSound(brokers[k])
      && forall l :: l in brokers[k].lengths ==> l <= |WorkerIds(site, k)|
  }

  ghost predicate ReportsNamed(site: Site, inproc: seq<Report>, pushed: seq<Report>, table: seq<Entry>) {
    && (forall r :: r in inproc + pushed ==> r.name in site.clusters)
    && SoundTable(site, table)
  }

  ghost predicate Inv(add: Adder, s: State) {
    && Configured(s.site) && Manned(s)
    && NetLegal(add, s.site, s.clients, s.net)
    && OneMessagePerWait(s.clients, s.net)
    && OneTokenPerWorker(s.brokers, s.started, s.net)
    && AllAnswered(add, s.site, s.clients)
    && AllBrokersSound(s.site, s.brokers)
    && ReportsNamed(s.site, s.inproc, s.pushed, s.table)
  }

  lemma InitialInv(add: Adder, site: Site)
    requires Configured(site)
    ensures Inv(add, InitialState(site))
  {
    hide Configured;
    var s := InitialState(site);
    assert NetLegal(add, site, s.clients, s.net) && OneMessagePerWait(s.clients, s.net);
    assert OneTokenPerWorker(s.brokers, s.started, s.net) && AllAnswered(add, site, s.clients);
    hide NetLegal, OneMessagePerWait, OneTokenPerWorker, AllAnswered;
  }

  /** Worker tokens bound the ready queue by the workers the cluster has. */
  lemma ReadyBounded(s: State, k: string)
    requires k in s.brokers && Manned(s) && OneTokenPerWorker(s.brokers, s.started, s.net)
    ensures |s.brokers[k].ready| <= |WorkerIds(s.site, k)|
  {
    var ready := s.brokers[k].ready;
    forall w ensures Sum(ready, Is(w)) <= 1 && (w in ready ==> w in WorkerIds(s.site, k)) {
      SumNonNegative(s.net, BackendOf(k, w));
      assert Tokens(ready, s.net, k, w) <= 1;
      CountMembers(ready, w);
      if w in ready {
        assert Endpoint(k, w) in s.started;
      }
    }
    DistinctFits(ready, WorkerIds(s.site, k));
  }

  /** The worker at the head of a ready queue exists. */
  lemma ReadyExists(s: State, k: string)
    requires k in s.brokers && Manned(s) && OneTokenPerWorker(s.brokers, s.started, s.net)
    requires s.brokers[k].ready != []
    ensures Exists(s.site, WorkerDown(k, s.brokers[k].ready[0]))
  {
    var ready := s.brokers[k].ready;
    CountMembers(ready, ready[0]);
    SumNonNegative(s.net, BackendOf(k, ready[0]));
    assert Tokens(ready, s.net, k, ready[0]) > 0;
  }

  /** Handing on packet n as q keeps every packet legal and every client's one message. */
  lemma HandOver(add: Adder, s: State, n: nat, q: Packet)
    requires NetLegal(add, s.site, s.clients, s.net) && OneMessagePerWait(s.clients, s.net) && n < |s.net|
    requires Exists(s.site, q.link) && RealHops(s.site, q.hops)
    requires Legal(add, s.clients, q) && Owner(q) == Owner(s.net[n])
    ensures var net := Without(s.net, n) + [q];
            NetLegal(add, s.site, s.clients, net) && OneMessagePerWait(s.clients, net)
  {
    hide Legal, Exists, RealHops;
    var net := Without(s.net, n) + [q];
    SumExchange(s.net, n, q);
    forall e | e in s.clients ensures Sum(net, OwnedBy(e)) == Sum(s.net, OwnedBy(e)) {
      assert OwnedBy(e)(q) == OwnedBy(e)(s.net[n]);
    }
  }

  /** Taking in an alive signal does as well. */
  lemma TakeIn(add: Adder, s: State, n: nat)
    requires NetLegal(add, s.site, s.clients, s.net) && OneMessagePerWait(s.clients, s.net) && n < |s.net|
    requires Owner(s.net[n]) == None
    ensures var net := Without(s.net, n);
            NetLegal(add, s.site, s.clients, net) && OneMessagePerWait(s.clients, net)
  {
    hide Legal, Exists, RealHops;
    forall e | e in s.clients ensures Sum(Without(s.net, n), OwnedBy(e)) == Sum(s.net, OwnedBy(e)) {
      SumWithout(s.net, n, OwnedBy(e));
    }
  }

  /** The token a packet stands for, or 0 when there is no packet. */
  function TokenIn(out: seq<Packet>, k: string, w: string): int {
    if out == [] then 0 else BackendOf(k, w)(out[0])
  }

  /** What a queue gains its links lose, and the other way round. */
  lemma TokensKept(s: State, k: string, b: Broker, n: nat, out: seq<Packet>)
    requires k in s.brokers && OneTokenPerWorker(s.brokers, s.started, s.net) && n < |s.net| && |out| <= 1
    requires forall w ::
               Sum(b.ready, Is(w)) + TokenIn(out, k, w) == Sum(s.brokers[k].ready, Is(w)) + BackendOf(k, w)(s.net[n])
    requires forall j, w :: j != k ==> TokenIn(out, j, w) == BackendOf(j, w)(s.net[n])
    ensures OneTokenPerWorker(s.brokers[k := b], s.started, Without(s.net, n) + out)
  {
    var brokers, net := s.brokers[k := b], Without(s.net, n) + out;
    forall j, w | j in brokers
      ensures Tokens(brokers[j].ready, net, j, w) == Tokens(s.brokers[j].ready, s.net, j, w)
    {
      SumWithout(s.net, n, BackendOf(j, w));
      if out == [] {
        assert net == Without(s.net, n);
      } else {
        assert out == [out[0]];
        SumAppend(Without(s.net, n), out[0], BackendOf(j, w));
      }
    }
  }

  lemma TokensKeptIdle(s: State, k: string, n: nat, out: seq<Packet>)
    requires k in s.brokers && OneTokenPerWorker(s.brokers, s.started, s.net) && n < |s.net| && |out| <= 1
    requires forall j, w :: TokenIn(out, j, w) == BackendOf(j, w)(s.net[n])
    ensures OneTokenPerWorker(s.brokers, s.started, Without(s.net, n) + out)
  {
    TokensKept(s, k, s.brokers[k], n, out);
    assert s.brokers[k := s.brokers[k]] == s.brokers;
  }

  lemma TokensKeptDispatch(s: State, k: string, b: Broker, n: nat, q: Packet)
    requires k in s.brokers && OneTokenPerWorker(s.brokers, s.started, s.net) && n < |s.net|
    requires !s.net[n].link.WorkerUp? && !s.net[n].link.WorkerDown?
    requires s.brokers[k].ready != [] && b.ready == s.brokers[k].ready[1..]
    requires q.link == WorkerDown(k, s.brokers[k].ready[0])
    ensures OneTokenPerWorker(s.brokers[k := b], s.started, Without(s.net, n) + [q])
  {
    TokensKept(s, k, b, n, [q]);
  }

  lemma TokensKeptReady(s: State, k: string, b: Broker, w: string, n: nat, out: seq<Packet>)
    requires k in s.brokers && OneTokenPerWorker(s.brokers, s.started, s.net) && n < |s.net| && |out| <= 1
    requires s.net[n].link == WorkerUp(k, w) && b.ready == s.brokers[k].ready + [w]
    requires out != [] ==> !out[0].link.WorkerUp? && !out[0].link.WorkerDown?
    ensures OneTokenPerWorker(s.brokers[k := b], s.started, Without(s.net, n) + out)
  {
    forall v ensures Sum(b.ready, Is(v)) == Sum(s.brokers[k].ready, Is(v)) + Is(v)(w) {
      SumAppend(s.brokers[k].ready, w, Is(v));
    }
    TokensKept(s, k, b, n, out);
  }

  /** A broker that ends a handler with a sound queue leaves all brokers sound. */
  lemma BrokersKept(s: State, k: string, b: Broker, net: seq<Packet>)
    requires k in s.brokers && Manned(s) && AllBrokersSound(s.site, s.brokers)
    requires OneTokenPerWorker(s.brokers[k := b], s.started, net)
    requires b.name == k && BrokerSound(b)
    requires b.lengths == s.brokers[k].lengths || b.lengths == s.brokers[k].lengths + [|b.ready|]
    ensures AllBrokersSound(s.site, s.brokers[k := b])
  {
    ReadyBounded(s.(brokers := s.brokers[k := b], net := net), k);
  }

  lemma DispatchSound(b: Broker)
    requires b.marked == b.dispatched + b.ready && b.ready != []
    ensures BrokerSound(Dispatch(b))
  {
    assert b.ready == [b.ready[0]] + b.ready[1..];
  }

  /** The packet a frontend sends on is legal, has the same owner, and reaches an endpoint. */
  lemma FrontendSends(add: Adder, s: State, n: nat) returns (q: Packet)
    requires Inv(add, s) && Enabled(s, Deliver(n)) && s.net[n].link.ClientUp?
    ensures Exists(s.site, q.link) && RealHops(s.site, q.hops)
    ensures Legal(add, s.clients, q) && Owner(q) == Owner(s.net[n])
    ensures DeliverPacket(add, s, n).net == Without(s.net, n) + [q]
    ensures var (k, ready) := (s.net[n].link.cluster, s.brokers[s.net[n].link.cluster].ready);
            q.link == if ready == [] then CloudUp(k) else WorkerDown(k, ready[0])
  {
    hide Fits, AllAnswered, ReportsNamed, BrokerSound, OneMessagePerWait;
    var p := s.net[n];
    var k := p.link.cluster;
    var b := s.brokers[k];
    var o := Owner(p).value;
    FrontendForwards(add, o, s.clients[o].requests[p.serial], p, b);
    q := Forwarded(p, LocalRequest(b, p.msg).1, AtFrontend(k, b.ready));
    if b.ready != [] {
      ReadyExists(s, k);
    }
    FitsOwner(add, o, s.clients[o].requests[p.serial], q);
  }

  lemma FrontendKeepsInv(add: Adder, s: State, n: nat)
    requires Inv(add, s) && Enabled(s, Deliver(n)) && s.net[n].link.ClientUp?
    ensures Inv(add, DeliverPacket(add, s, n))
  {
    hide Fits, Answers, Legal, NetLegal, AllAnswered, ReportsNamed, Configured, OneMessagePerWait;
    var p := s.net[n];
    var k := p.link.cluster;
    var b := s.brokers[k];
    var q := FrontendSends(add, s, n);
    HandOver(add, s, n, q);
    hide OneTokenPerWorker;
    var after := LocalRequest(b, p.msg).0;
    if b.ready == [] {
      TokensKeptIdle(s, k, n, [q]);
      assert s.brokers[k := b] == s.brokers;
    } else {
      TokensKeptDispatch(s, k, after, n, q);
      DispatchSound(b);
    }
    BrokersKept(s, k, after, Without(s.net, n) + [q]);
  }

  lemma WorkerSends(add: Adder, s: State, n: nat) returns (q: Packet)
    requires Inv(add, s) && Enabled(s, Deliver(n)) && s.net[n].link.WorkerDown?
    ensures Exists(s.site, q.link) && RealHops(s.site, q.hops)
    ensures Legal(add, s.clients, q) && Owner(q) == Owner(s.net[n])
    ensures DeliverPacket(add, s, n).net == Without(s.net, n) + [q]
    ensures q.link == WorkerUp(s.net[n].link.cluster, s.net[n].link.id)
  {
    hide Fits, AllAnswered, ReportsNamed, AllBrokersSound, OneMessagePerWait, OneTokenPerWorker;
    var p := s.net[n];
    var (k, w) := (p.link.cluster, p.link.id);
    var o := Owner(p).value;
    WorkerForwards(add, o, s.clients[o].requests[p.serial], p);
    q := Forwarded(p, Sent(WorkerUp(k, w), Process(add, w, p.msg)), AtWorker(k, w));
    FitsOwner(add, o, s.clients[o].requests[p.serial], q);
  }

  lemma WorkerKeepsInv(add: Adder, s: State, n: nat)
    requires Inv(add, s) && Enabled(s, Deliver(n)) && s.net[n].link.WorkerDown?
    ensures Inv(add, DeliverPacket(add, s, n))
  {
    hide Fits, Answers, Legal, NetLegal, AllAnswered, ReportsNamed, Configured, OneMessagePerWait;
    hide OneTokenPerWorker, AllBrokersSound;
    var q := WorkerSends(add, s, n);
    HandOver(add, s, n, q);
    TokensKeptIdle(s, s.net[n].link.cluster, n, [q]);
  }

  lemma BackendSends(add: Adder, s: State, n: nat) returns (q: Packet)
    requires Inv(add, s) && Enabled(s, Deliver(n)) && s.net[n].link.WorkerUp?
    requires !s.net[n].msg.meta.taskType.AliveSignal?
    ensures Exists(s.site, q.link) && RealHops(s.site, q.hops)
    ensures Legal(add, s.clients, q) && Owner(q) == Owner(s.net[n])
    ensures DeliverPacket(add, s, n).net == Without(s.net, n) + [q]
    ensures s.net[n].msg.meta.addr.from == s.net[n].link.id
    ensures !q.link.WorkerUp? && !q.link.WorkerDown?
  {
    hide AllAnswered, ReportsNamed, BrokerSound, OneMessagePerWait, OneTokenPerWorker;
    var p := s.net[n];
    var k := p.link.cluster;
    var b := s.brokers[k];
    var o := Owner(p).value;
    BackendForwards(add, o, s.clients[o].requests[p.serial], p, b);
    q := Forwarded(p, LocalReply(b, p.msg).1, AtBackend(k));
  }

  lemma BackendKeepsInv(add: Adder, s: State, n: nat)
    requires Inv(add, s) && Enabled(s, Deliver(n)) && s.net[n].link.WorkerUp?
    ensures Inv(add, DeliverPacket(add, s, n))
  {
    hide Fits, Answers, AllAnswered, ReportsNamed, Configured, OneMessagePerWait, OneTokenPerWorker;
    var p := s.net[n];
    var (k, w) := (p.link.cluster, p.link.id);
    var after := MarkReady(s.brokers[k], w);
    var out: seq<Packet> := [];
    if p.msg.meta.taskType.AliveSignal? {
      TakeIn(add, s, n);
      assert Legal(add, s.clients, p);
      assert Without(s.net, n) == Without(s.net, n) + out;
    } else {
      var q := BackendSends(add, s, n);
      HandOver(add, s, n, q);
      out := [q];
    }
    hide Legal, NetLegal;
    TokensKeptReady(s, k, after, w, n, out);
    BrokersKept(s, k, after, Without(s.net, n) + out);
  }

  lemma SuperSends(add: Adder, s: State, n: nat) returns (q: Packet)
    requires Inv(add, s) && Enabled(s, Deliver(n)) && s.net[n].link.CloudUp?
    requires !s.net[n].msg.meta.taskType.AliveSignal?
    ensures Exists(s.site, q.link) && RealHops(s.site, q.hops)
    ensures Legal(add, s.clients, q) && Owner(q) == Owner(s.net[n])
    ensures DeliverPacket(add, s, n).net == Without(s.net, n) + [q]
    ensures q.link.CloudDown?
  {
    hide Fits, AllAnswered, BrokerSound, OneMessagePerWait, OneTokenPerWorker;
    var p := s.net[n];
    var o := Owner(p).value;
    var r := s.clients[o].requests[p.serial];
    if p.msg.meta.direction.Submit? {
      SuperForwardsRequest(add, o, r, p, s.table, |s.pulled|);
      ChosenIsListed(s.table);
    } else {
      SuperForwardsReply(add, o, r, p, s.table, |s.pulled|);
    }
    q := Forwarded(p, TaskRouter(s.table, p.msg), AtSuper(s.table, |s.pulled|));
    FitsOwner(add, o, s.clients[o].requests[p.serial], q);
  }

  lemma SuperKeepsInv(add: Adder, s: State, n: nat)
    requires Inv(add, s) && Enabled(s, Deliver(n)) && s.net[n].link.CloudUp?
    ensures Inv(add, DeliverPacket(add, s, n))
  {
    hide Fits, Answers, AllAnswered, ReportsNamed, Configured, OneMessagePerWait, AllBrokersSound, OneTokenPerWorker;
    var out: seq<Packet> := [];
    if s.net[n].msg.meta.taskType.AliveSignal? {
      TakeIn(add, s, n);
      assert Without(s.net, n) == Without(s.net, n) + out;
    } else {
      var q := SuperSends(add, s, n);
      HandOver(add, s, n, q);
      out := [q];
    }
    hide Legal, NetLegal;
    TokensKeptIdle(s, s.net[n].link.cluster, n, out);
  }

  lemma CloudLinkExists(add: Adder, s: State, n: nat, e: Endpoint, r: TaskRequest, q: Packet)
    requires Manned(s) && OneTokenPerWorker(s.brokers, s.started, s.net)
    requires Receivable(s, n) && s.net[n].link.CloudDown?
    requires s.brokers[s.net[n].link.cluster].name == s.net[n].link.cluster
    requires e in s.clients && e.cluster in s.site.clusters && Fits(add, e, r, q)
    requires var out := RouteCloud(s.brokers[s.net[n].link.cluster], s.net[n].msg).1; out.Sent? && q.link == out.link
    ensures Exists(s.site, q.link)
  {
    var k := s.net[n].link.cluster;
    if s.brokers[k].ready != [] {
      ReadyExists(s, k);
    }
  }

  lemma CloudSends(add: Adder, s: State, n: nat) returns (q: Packet)
    requires Inv(add, s) && Enabled(s, Deliver(n)) && s.net[n].link.CloudDown?
    ensures Exists(s.site, q.link) && RealHops(s.site, q.hops)
    ensures Legal(add, s.clients, q) && Owner(q) == Owner(s.net[n])
    ensures DeliverPacket(add, s, n).net == Without(s.net, n) + [q]
    ensures var (k, ready) := (s.net[n].link.cluster, s.brokers[s.net[n].link.cluster].ready);
            |ready| < TWO_TO_32 &&
            if s.net[n].msg.meta.direction.Submit? && ready != [] then q.link == WorkerDown(k, ready[0])
            else !q.link.WorkerUp? && !q.link.WorkerDown?
  {
    hide Fits, AllAnswered, ReportsNamed, BrokerSound, OneMessagePerWait, Truncate32;
    var p := s.net[n];
    var k := p.link.cluster;
    var b := s.brokers[k];
    var o := Owner(p).value;
    var r := s.clients[o].requests[p.serial];
    ReadyBounded(s, k);
    CloudLink(b, p.msg);
    CloudForwards(add, o, r, p, b);
    q := Forwarded(p, RouteCloud(b, p.msg).1, AtCloud(k, b.ready));
    FitsOwner(add, o, r, q);
    CloudLinkExists(add, s, n, o, r, q);
  }

  lemma CloudKeepsInv(add: Adder, s: State, n: nat)
    requires Inv(add, s) && Enabled(s, Deliver(n)) && s.net[n].link.CloudDown?
    ensures Inv(add, DeliverPacket(add, s, n))
  {
    hide Fits, Answers, Legal, NetLegal, AllAnswered, ReportsNamed, Configured, OneMessagePerWait;
    var p := s.net[n];
    var k := p.link.cluster;
    var b := s.brokers[k];
    var q := CloudSends(add, s, n);
    HandOver(add, s, n, q);
    hide OneTokenPerWorker;
    var after := RouteCloud(b, p.msg).0;
    if p.msg.meta.direction.Submit? && b.ready != [] {
      TokensKeptDispatch(s, k, after, n, q);
      DispatchSound(b.(readyCount := Truncate32(|b.ready|)));
    } else {
      TokensKeptIdle(s, k, n, [q]);
      assert s.brokers[k := b] == s.brokers && after == b;
    }
    BrokersKept(s, k, after, Without(s.net, n) + [q]);
  }

  /** A packet of the one client whose record changed would count against it. */
  lemma OthersStayLegal(
      add: Adder, site: Site, clients: map<Endpoint, Client>, net: seq<Packet>, e: Endpoint, c: Client)
    requires NetLegal(add, site, clients, net) && Sum(net, OwnedBy(e)) == 0
    ensures NetLegal(add, site, clients[e := c], net)
  {
    hide Fits;
    forall x | x in net ensures Legal(add, clients[e := c], x) {
      assert Legal(add, clients, x);
      if Owner(x) == Some(e) {
        var j :| 0 <= j < |net| && net[j] == x;
        SumBounds(net, OwnedBy(e), j);
      }
    }
  }

  /** The client that takes its answer has no packet left, and its record may change. */
  lemma ReceiptSettles(add: Adder, s: State, n: nat, e: Endpoint, c: Client)
    requires NetLegal(add, s.site, s.clients, s.net) && OneMessagePerWait(s.clients, s.net) && n < |s.net|
    requires e in s.clients && Waiting(s.clients[e]) && Owner(s.net[n]) == Some(e) && !Waiting(c)
    ensures NetLegal(add, s.site, s.clients[e := c], Without(s.net, n))
    ensures OneMessagePerWait(s.clients[e := c], Without(s.net, n))
  {
    hide Legal, Exists, RealHops;
    var clients, net := s.clients[e := c], Without(s.net, n);
    forall x | x in clients ensures Sum(net, OwnedBy(x)) == if Waiting(clients[x]) then 1 else 0 {
      SumWithout(s.net, n, OwnedBy(x));
    }
    assert NetLegal(add, s.site, s.clients, net);
    OthersStayLegal(add, s.site, s.clients, net, e, c);
  }

  /** A packet on no backend link leaves every worker where it is. */
  lemma AppendKeepsTokens(s: State, p: Packet)
    requires OneTokenPerWorker(s.brokers, s.started, s.net) && !p.link.WorkerUp? && !p.link.WorkerDown?
    ensures OneTokenPerWorker(s.brokers, s.started, s.net + [p])
  {
    forall j, w | j in s.brokers
      ensures Tokens(s.brokers[j].ready, s.net + [p], j, w) == Tokens(s.brokers[j].ready, s.net, j, w)
    {
      SumAppend(s.net, p, BackendOf(j, w));
    }
  }

  /** A worker that starts puts its one token on its link. */
  lemma StartAddsToken(s: State, e: Endpoint, p: Packet)
    requires OneTokenPerWorker(s.brokers, s.started, s.net) && e !in s.started && p.link == WorkerUp(e.cluster, e.id)
    ensures OneTokenPerWorker(s.brokers, s.started + {e}, s.net + [p])
  {
    forall j, w | j in s.brokers
      ensures Tokens(s.brokers[j].ready, s.net + [p], j, w) == if Endpoint(j, w) in s.started + {e} then 1 else 0
    {
      SumAppend(s.net, p, BackendOf(j, w));
      assert Tokens(s.brokers[j].ready, s.net, j, w) == if Endpoint(j, w) in s.started then 1 else 0;
    }
  }

  /** A legal packet on a client's link is the answer to the request the client waits for. */
  lemma ReceiptAnswers(add: Adder, site: Site, clients: map<Endpoint, Client>, e: Endpoint, p: Packet)
    requires AllAnswered(add, site, clients) && e in clients && p.link == ClientDown(e.cluster, e.id)
    requires Legal(add, clients, p) && RealHops(site, p.hops)
    ensures Owner(p) == Some(e)
    ensures var c := clients[e].(answers := clients[e].answers + [p]);
            !Waiting(c) && AllAnswered(add, site, clients[e := c])
  {
    hide Answers, RealHops;
    assert Answered(add, site, e, clients[e]);
    assert Answered(add, site, e, clients[e].(answers := clients[e].answers + [p]));
  }

  lemma ReceiptKeepsInv(add: Adder, s: State, n: nat)
    requires Inv(add, s) && Enabled(s, Deliver(n)) && s.net[n].link.ClientDown?
    ensures Inv(add, DeliverPacket(add, s, n))
  {
    hide ReportsNamed, Configured, AllBrokersSound;
    var p := s.net[n];
    var e := Endpoint(p.link.cluster, p.link.id);
    var c := DeliverPacket(add, s, n).clients[e];
    var net := Without(s.net, n);
    assert Legal(add, s.clients, p) && RealHops(s.site, p.hops);
    ReceiptAnswers(add, s.site, s.clients, e, p);
    hide AllAnswered, Legal, Fits, Answers, RealHops, NetLegal;
    TokensKeptIdle(s, e.cluster, n, []);
    assert net == net + [];
    hide OneTokenPerWorker;
    ReceiptSettles(add, s, n, e, c);
  }

  function SentBy(s: State, e: Endpoint, r: TaskRequest): Packet
    requires e in s.clients
  {
    Packet(ClientUp(e.cluster, e.id), Request(e.id, r.taskID, r.arr), |s.clients[e].requests|, [])
  }

  lemma SendAnswered(add: Adder, s: State, e: Endpoint, r: TaskRequest)
    requires AllAnswered(add, s.site, s.clients) && e in s.clients && !Waiting(s.clients[e])
    ensures var c := s.clients[e];
            |c.requests| == |c.answers| && AllAnswered(add, s.site, s.clients[e := c.(requests := c.requests + [r])])
  {
    hide Answers;
    var c := s.clients[e];
    assert Answered(add, s.site, e, c);
    assert Answered(add, s.site, e, c.(requests := c.requests + [r]));
  }

  /** The client that sends had no packet, and now has the one it sends. */
  lemma SendSettles(add: Adder, s: State, e: Endpoint, r: TaskRequest)
    requires NetLegal(add, s.site, s.clients, s.net) && OneMessagePerWait(s.clients, s.net)
    requires Manned(s) && e in s.clients && e.cluster in s.site.clusters
    requires !Waiting(s.clients[e]) && |s.clients[e].requests| == |s.clients[e].answers|
    ensures var c := s.clients[e];
            var clients, net := s.clients[e := c.(requests := c.requests + [r])], s.net + [SentBy(s, e, r)];
            NetLegal(add, s.site, clients, net) && OneMessagePerWait(clients, net)
  {
    var c := s.clients[e].(requests := s.clients[e].requests + [r]);
    var p, clients := SentBy(s, e, r), s.clients[e := c];
    OthersStayLegal(add, s.site, s.clients, s.net, e, c);
    assert Legal(add, clients, p);
    hide Legal;
    forall x | x in clients ensures Sum(s.net + [p], OwnedBy(x)) == if Waiting(clients[x]) then 1 else 0 {
      SumAppend(s.net, p, OwnedBy(x));
    }
  }

  lemma SendKeepsInv(add: Adder, s: State, e: Endpoint, r: TaskRequest)
    requires Inv(add, s) && Enabled(s, SendRequest(e, r))
    ensures Inv(add, Apply(add, s, SendRequest(e, r)))
  {
    hide ReportsNamed, AllBrokersSound, OneMessagePerWait, OneTokenPerWorker, NetLegal, Legal, AllAnswered;
    SendAnswered(add, s, e, r);
    SendSettles(add, s, e, r);
    AppendKeepsTokens(s, SentBy(s, e, r));
  }

  /** An alive signal belongs to no client and is legal where it is sent. */
  lemma StartSettles(add: Adder, s: State, p: Packet)
    requires NetLegal(add, s.site, s.clients, s.net) && OneMessagePerWait(s.clients, s.net)
    requires Exists(s.site, p.link) && p.hops == [] && Alive(p)
    ensures NetLegal(add, s.site, s.clients, s.net + [p]) && OneMessagePerWait(s.clients, s.net + [p])
  {
    hide Fits, Exists;
    assert Legal(add, s.clients, p) && Owner(p) == None;
    hide Legal;
    forall x | x in s.clients ensures Sum(s.net + [p], OwnedBy(x)) == Sum(s.net, OwnedBy(x)) {
      SumAppend(s.net, p, OwnedBy(x));
    }
  }

  lemma StartKeepsInv(add: Adder, s: State, a: Action)
    requires Inv(add, s) && Enabled(s, a) && (a.StartWorker? || a.StartBroker?)
    ensures Inv(add, Apply(add, s, a))
  {
    hide AllAnswered, ReportsNamed, AllBrokersSound, NetLegal, OneMessagePerWait, OneTokenPerWorker;
    var p := if a.StartWorker? then Packet(WorkerUp(a.worker.cluster, a.worker.id), WorkerAlive(a.worker.id), 0, [])
             else Packet(CloudUp(a.name), BrokerAlive(a.name), 0, []);
    assert Exists(s.site, p.link);
    hide Configured;
    StartSettles(add, s, p);
    if a.StartWorker? {
      StartAddsToken(s, a.worker, p);
    } else {
      AppendKeepsTokens(s, p);
    }
  }

  lemma ReportKeepsInv(add: Adder, s: State, a: Action)
    requires Inv(add, s) && Enabled(s, a) && (a.SampleState? || a.ForwardReport? || a.PullReport?)
    ensures Inv(add, Apply(add, s, a))
  {
    hide NetLegal, OneMessagePerWait, OneTokenPerWorker, AllAnswered, AllBrokersSound, Configured;
    if a.PullReport? {
      UpsertNames(s.table, s.pushed[a.n].name, s.pushed[a.n].count);
      UpsertSorted(s.table, s.pushed[a.n].name, s.pushed[a.n].count);
    }
    var t := Apply(add, s, a);
    forall r | r in t.inproc + t.pushed ensures r.name in s.site.clusters {
      assert r in s.inproc + s.pushed || (a.SampleState? && r.name == a.name);
    }
  }

  lemma {:induction false} UpsertNames(t: seq<Entry>, name: string, count: nat)
    ensures forall i :: 0 <= i < |Upsert(t, name, count)| ==>
              Upsert(t, name, count)[i].name == name ||
              exists j :: 0 <= j < |t| && t[j].name == Upsert(t, name, count)[i].name
  {
    if t != [] && t[0].name != name && !Less(name, t[0].name) {
      UpsertNames(t[1..], name, count);
      var u := Upsert(t, name, count);
      forall i | 0 <= i < |u| ensures u[i].name == name || exists j :: 0 <= j < |t| && t[j].name == u[i].name {
        if i > 0 && u[i].name != name {
          assert u[i] == Upsert(t[1..], name, count)[i - 1];
          var j :| 0 <= j < |t[1..]| && t[1..][j].name == u[i].name;
          assert t[j + 1].name == u[i].name;
        }
      }
    }
  }

  lemma StepKeepsInv(add: Adder, s: State, a: Action)
    requires Inv(add, s) && Enabled(s, a)
    ensures Inv(add, Apply(add, s, a))
  {
    hide Inv;
    match a
    case StartWorker(_) => StartKeepsInv(add, s, a);
    case StartBroker(_) => StartKeepsInv(add, s, a);
    case SendRequest(e, r) => SendKeepsInv(add, s, e, r);
    case SampleState(_) => ReportKeepsInv(add, s, a);
    case ForwardReport(_) => ReportKeepsInv(add, s, a);
    case PullReport(_) => ReportKeepsInv(add, s, a);
    case Deliver(n) =>
      match s.net[n].link
      case ClientUp(_, _) => FrontendKeepsInv(add, s, n);
      case WorkerDown(_, _) => WorkerKeepsInv(add, s, n);
      case WorkerUp(_, _) => BackendKeepsInv(add, s, n);
      case CloudUp(_) => SuperKeepsInv(add, s, n);
      case CloudDown(_) => CloudKeepsInv(add, s, n);
      case ClientDown(_, _) => ReceiptKeepsInv(add, s, n);
  }

  lemma {:induction false} RunKeepsInv(add: Adder, s: State, run: seq<Action>)
    requires Inv(add, s) && Runs(add, s, run)
    ensures Inv(add, After(add, s, run)) && After(add, s, run).site == s.site
    decreases |run|
  {
    hide Inv;
    if run != [] {
      StepKeepsInv(add, s, run[0]);
      RunKeepsInv(add, Apply(add, s, run[0]), run[1..]);
    }
  }

  lemma ReachableInv(add: Adder, s: State)
    requires Reachable(add, s)
    ensures Inv(add, s)
  {
    var run :| Reaches(add, s.site, run, s);
    InitialInv(add, s.site);
    RunKeepsInv(add, InitialState(s.site), run);
  }
}
