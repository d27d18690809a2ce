/** The poll loops of the brokers, iteration by iteration, as steps of the data center. */
module Loops {
  import opened Logs
  import opened Messages
  import opened ClusterTable
  import opened Handlers
  import opened TwoTier
  import opened Invariant
  import opened ReadyQueues

  ghost predicate Holds(net: seq<Packet>, link: Link) {
    exists p :: p in net && p.link == link
  }

  /** Where the oldest packet of a link is. */
  ghost function First(net: seq<Packet>, link: Link): (n: nat)
    requires Holds(net, link)
    ensures Oldest(net, n, OnLink(link))
  {
    if net[0].link == link then 0
    else
      var p :| p in net && p.link == link;
      assert p in net[1..];
      1 + First(net[1..], link)
  }

  ghost function Head(net: seq<Packet>, link: Link): (p: Packet)
    requires Holds(net, link)
    ensures p in net && p.link == link
  {
    net[First(net, link)]
  }

  /** Some link whose oldest packet is to be read, or none. */
  ghost predicate Readable(net: seq<Packet>, at: Option<Link>) {
    at.Some? ==> Holds(net, at.value)
  }

  ghost function Rest(net: seq<Packet>, at: Option<Link>): seq<Packet>
    requires Readable(net, at)
  {
    if at.Some? then Without(net, First(net, at.value)) else net
  }

  ghost function Read(net: seq<Packet>, at: Option<Link>): Option<Message>
    requires Readable(net, at)
  {
    if at.Some? then Some(Head(net, at.value).msg) else None
  }

  lemma OldestIsFirst(net: seq<Packet>, n: nat, link: Link)
    requires Oldest(net, n, OnLink(link))
    ensures Holds(net, link) && First(net, link) == n
  {
    assert net[n] in net;
    var f := First(net, link);
    assert OnLink(link)(net[f]) && OnLink(link)(net[n]);
  }

  /** Packets sent later do not change what is read from a link that has one. */
  lemma FirstStays(net: seq<Packet>, more: seq<Packet>, link: Link)
    requires Holds(net, link)
    ensures Holds(net + more, link) && First(net + more, link) == First(net, link)
    ensures Head(net + more, link) == Head(net, link)
    ensures Without(net + more, First(net + more, link)) == Without(net, First(net, link)) + more
  {
    OldestIsFirst(net + more, First(net, link), link);
  }

  /** Reading one link does not change what is read from another. */
  lemma OtherHeadStays(net: seq<Packet>, at: Option<Link>, link: Link)
    requires Readable(net, at) && Holds(net, link) && at != Some(link)
    ensures Holds(Rest(net, at), link) && Head(Rest(net, at), link) == Head(net, link)
  {
    if at.Some? {
      var n, m := First(net, at.value), First(net, link);
      OldestIsFirst(Rest(net, at), if m < n then m else m - 1, link);
    }
  }

  // A cluster broker

  /** The links of one kind of socket of cluster k's broker. */
  predicate BackendLink(k: string, link: Link) {
    link.WorkerUp? && link.cluster == k
  }

  predicate FrontendLink(k: string, link: Link) {
    link.ClientUp? && link.cluster == k
  }

  predicate CloudLink(k: string, link: Link) {
    link == CloudDown(k)
  }

  predicate BrokerLink(k: string, link: Link) {
    BackendLink(k, link) || FrontendLink(k, link) || CloudLink(k, link)
  }

  /** The handler for what is read from a link. */
  function Handle(b: Broker, link: Link, m: Message): (Broker, Sent)
    requires BrokerLink(b.name, link)
  {
    match link
    case WorkerUp(_, _) => LocalReply(b, m)
    case ClientUp(_, _) => LocalRequest(b, m)
    case CloudDown(_) => RouteCloud(b, m)
  }

  /** What the packet that a broker sends on remembers of it. */
  function HopAt(b: Broker, link: Link): Hop {
    match link
    case WorkerUp(_, _) => AtBackend(b.name)
    case ClientUp(_, _) => AtFrontend(b.name, b.ready)
    case _ => AtCloud(b.name, b.ready)
  }

  /** The packet that carries `out` on, after what packet p has behind it. */
  function Carried(site: Site, p: Packet, out: Sent, h: Hop): seq<Packet> {
    if out.Sent? && Exists(site, out.link) then [Packet(out.link, out.msg, p.serial, p.hops + [h])] else []
  }

  ghost predicate Ready(s: State, k: string, at: Option<Link>) {
    && Manned(s) && k in s.site.clusters && s.brokers[k].name == k
    && (at.Some? ==> BrokerLink(k, at.value) && Exists(s.site, at.value) && Holds(s.net, at.value))
  }

  /** The delivery of what is oldest on a link, if one is to be read. */
  ghost function Taken(add: Adder, s: State, k: string, at: Option<Link>): State
    requires Ready(s, k, at)
  {
    if at.Some? then DeliverPacket(add, s, First(s.net, at.value)) else s
  }

  /** What reading a link does to the broker, and what it sends. */
  ghost function Handled(b: Broker, net: seq<Packet>, at: Option<Link>): (Broker, Sent)
    requires Readable(net, at) && (at.Some? ==> BrokerLink(b.name, at.value))
  {
    if at.Some? then Handle(b, at.value, Head(net, at.value).msg) else (b, Nothing)
  }

  /** The packets that carry `out` on when a broker has read a link. */
  ghost function Sends(site: Site, b: Broker, net: seq<Packet>, at: Option<Link>, out: Sent): seq<Packet>
    requires Readable(net, at)
  {
    if at.Some? then Carried(site, Head(net, at.value), out, HopAt(b, at.value)) else []
  }

  /** With packets sent meanwhile behind those that were there, reading a link does just that. */
  lemma SocketTaken(add: Adder, s: State, k: string, net: seq<Packet>, more: seq<Packet>, at: Option<Link>)
    requires s.net == net + more && Readable(net, at) && Ready(s, k, at)
    ensures at.Some? ==> Enabled(s, Deliver(First(s.net, at.value)))
    ensures var b := s.brokers[k];
            var (after, out) := Handled(b, net, at);
            Taken(add, s, k, at)
            == s.(brokers := s.brokers[k := after], net := Rest(net, at) + (more + Sends(s.site, b, net, at, out)))
  {
    hide LocalRequest, LocalReply, RouteCloud, First;
    if at.Some? {
      FirstStays(net, more, at.value);
    }
    assert s.brokers[k := s.brokers[k]] == s.brokers;
  }

  /** What poll finds readable: a worker's link, a client's, and the one from the cloud. */
  datatype Sockets = Sockets(backend: Option<Link>, frontend: Option<Link>, cloud: Option<Link>)

  ghost predicate Polled(s: State, k: string, x: Sockets) {
    && Ready(s, k, x.backend) && Ready(s, k, x.frontend) && Ready(s, k, x.cloud)
    && (x.backend.Some? ==> BackendLink(k, x.backend.value))
    && (x.frontend.Some? ==> FrontendLink(k, x.frontend.value))
    && (x.cloud.Some? ==> CloudLink(k, x.cloud.value))
  }

  ghost function Found(s: State, k: string, x: Sockets): Arrivals
    requires Polled(s, k, x)
  {
    Arrivals(Read(s.net, x.backend), Read(s.net, x.frontend), Read(s.net, x.cloud))
  }

  /** A reachable broker is what its loop expects it to be, and every packet is on a link with an end. */
  lemma BrokerFacts(add: Adder, s: State, k: string)
    requires Reachable(add, s) && k in s.site.clusters
    ensures Manned(s) && s.brokers[k].name == k && s.brokers[k].readyCount == Truncate32(|s.brokers[k].ready|)
  {
    ReachableInv(add, s);
    hide NetLegal, OneMessagePerWait, OneTokenPerWorker, AllAnswered, ReportsNamed, Reachable, Configured, Truncate32;
  }

  lemma HandledKeepsName(b: Broker, net: seq<Packet>, at: Option<Link>)
    requires Readable(net, at) && (at.Some? ==> BrokerLink(b.name, at.value))
    ensures Handled(b, net, at).0.name == b.name
  {
  }

  /** After a link has been read, another link of the broker still holds what it held. */
  lemma StillReady(
      s: State, t: State, k: string, net: seq<Packet>, more: seq<Packet>, at: Option<Link>, other: Option<Link>)
    requires Ready(s, k, other) && Readable(net, other) && Readable(net, at) && (other.Some? ==> at != other)
    requires k in t.brokers && t.brokers[k].name == k && t == s.(brokers := s.brokers[k := t.brokers[k]], net := t.net)
    requires t.net == Rest(net, at) + more
    ensures Ready(t, k, other) && Readable(Rest(net, at), other)
    ensures other.Some? ==> Head(Rest(net, at), other.value) == Head(net, other.value)
  {
    if other.Some? {
      OtherHeadStays(net, at, other.value);
      FirstStays(Rest(net, at), more, other.value);
    }
  }

  /** The packets of these links that no iteration has read. */
  ghost function Unread(s: State, k: string, x: Sockets): seq<Packet>
    requires Polled(s, k, x)
  {
    AllStayReadable(s, k, x);
    Rest(Rest(Rest(s.net, x.backend), x.frontend), x.cloud)
  }

  lemma AllStayReadable(s: State, k: string, x: Sockets)
    requires Polled(s, k, x)
    ensures Readable(s.net, x.backend)
    ensures Readable(Rest(s.net, x.backend), x.frontend) && Readable(Rest(s.net, x.backend), x.cloud)
    ensures Readable(Rest(Rest(s.net, x.backend), x.frontend), x.cloud)
  {
    if x.frontend.Some? {
      OtherHeadStays(s.net, x.backend, x.frontend.value);
    }
    if x.cloud.Some? {
      OtherHeadStays(s.net, x.backend, x.cloud.value);
      OtherHeadStays(Rest(s.net, x.backend), x.frontend, x.cloud.value);
    }
  }

  /** One link read, with packets sent meanwhile behind those that were there. */
  lemma ReadLink(
      add: Adder, s: State, k: string, net: seq<Packet>, more: seq<Packet>, at: Option<Link>)
    returns (t: State, sent: seq<Packet>)
    requires s.net == net + more && Readable(net, at) && Ready(s, k, at)
    ensures at.Some? ==> Enabled(s, Deliver(First(s.net, at.value)))
    ensures t == Taken(add, s, k, at)
    ensures var b := s.brokers[k];
            var (after, out) := Handled(b, net, at);
            && after.name == k && sent == Sends(s.site, b, net, at, out)
            && t == s.(brokers := s.brokers[k := after], net := Rest(net, at) + (more + sent))
  {
    SocketTaken(add, s, k, net, more, at);
    HandledKeepsName(s.brokers[k], net, at);
    t := Taken(add, s, k, at);
    sent := Sends(s.site, s.brokers[k], net, at, Handled(s.brokers[k], net, at).1);
  }

  lemma JoinThree<T>(a: seq<T>, b: seq<T>, c: seq<T>, d: seq<T>)
    ensures a + ([] + b + c + d) == a + b + c + d
  {
  }

  /** An iteration's handlers, one after the other, each on the oldest packet of its own link. */
  lemma TurnReads(s: State, k: string, x: Sockets)
    requires Polled(s, k, x) && s.brokers[k].readyCount == Truncate32(|s.brokers[k].ready|)
    requires Readable(Rest(s.net, x.backend), x.frontend)
    requires Readable(Rest(Rest(s.net, x.backend), x.frontend), x.cloud)
    ensures var (b, net) := (s.brokers[k], s.net);
            var (b1, out1) := Handled(b, net, x.backend);
            var net1 := Rest(net, x.backend);
            b1.name == k &&
            var (b2, out2) := Handled(b1, net1, x.frontend);
            var net2 := Rest(net1, x.frontend);
            b2.name == k &&
            var (b3, out3) := Handled(b2, net2, x.cloud);
            && Turn(b, Found(s, k, x)) == (b3, [out1, out2, out3])
            && Sends(s.site, b1, net1, x.frontend, out2) == Sends(s.site, b1, net, x.frontend, out2)
            && Sends(s.site, b2, net2, x.cloud, out3) == Sends(s.site, b2, net, x.cloud, out3)
  {
    hide Rest, First, Head, LocalRequest, LocalReply, RouteCloud;
    var b := s.brokers[k];
    assert b.(readyCount := Truncate32(|b.ready|)) == b;
    HandledKeepsName(b, s.net, x.backend);
    HandledKeepsName(Handled(b, s.net, x.backend).0, Rest(s.net, x.backend), x.frontend);
    if x.frontend.Some? {
      OtherHeadStays(s.net, x.backend, x.frontend.value);
    }
    if x.cloud.Some? {
      OtherHeadStays(s.net, x.backend, x.cloud.value);
      OtherHeadStays(Rest(s.net, x.backend), x.frontend, x.cloud.value);
    }
  }

  /** Changes of one broker and of the net, one after the other, are such a change. */
  lemma SameSince(s: State, t: State, u: State, k: string)
    requires k in s.brokers && k in t.brokers && k in u.brokers
    requires t == s.(brokers := s.brokers[k := t.brokers[k]], net := t.net)
    requires u == t.(brokers := t.brokers[k := u.brokers[k]], net := u.net)
    ensures u == s.(brokers := s.brokers[k := u.brokers[k]], net := u.net)
  {
  }

  /** The first two links of an iteration read one after the other. */
  lemma TwoLinksRead(add: Adder, s: State, k: string, x: Sockets) returns (t: State, u: State, sent: seq<Packet>)
    requires Polled(s, k, x) && Readable(Rest(s.net, x.backend), x.frontend)
    requires Readable(Rest(s.net, x.backend), x.cloud)
    ensures x.backend.Some? ==> Enabled(s, Deliver(First(s.net, x.backend.value)))
    ensures t == Taken(add, s, k, x.backend) && Ready(t, k, x.frontend)
    ensures x.frontend.Some? ==> Enabled(t, Deliver(First(t.net, x.frontend.value)))
    ensures u == Taken(add, t, k, x.frontend) && Ready(u, k, x.cloud)
    ensures var (b1, out1) := Handled(s.brokers[k], s.net, x.backend);
            var net1 := Rest(s.net, x.backend);
            b1.name == k &&
            var (b2, out2) := Handled(b1, net1, x.frontend);
            && b2.name == k
            && t.brokers == s.brokers[k := b1]
            && sent == [] + Sends(s.site, s.brokers[k], s.net, x.backend, out1)
                       + Sends(s.site, b1, net1, x.frontend, out2)
            && u == s.(brokers := s.brokers[k := b2], net := Rest(net1, x.frontend) + sent)
  {
    hide Handled, Sends, Rest, First, Handle, Read, DeliverPacket;
    var net, net1, out1, out2 := s.net, Rest(s.net, x.backend), [], [];
    assert net == net + [];
    t, out1 := ReadLink(add, s, k, net, [], x.backend);
    StillReady(s, t, k, net, [] + out1, x.backend, x.frontend);
    StillReady(s, t, k, net, [] + out1, x.backend, x.cloud);
    hide Enabled, Taken;
    u, out2 := ReadLink(add, t, k, net1, [] + out1, x.frontend);
    sent := [] + out1 + out2;
    SameSince(s, t, u, k);
    StillReady(t, u, k, net1, sent, x.frontend, x.cloud);
  }

  /** All three. */
  lemma LinksRead(add: Adder, s: State, k: string, x: Sockets) returns (t: State, u: State, v: State)
    requires Polled(s, k, x)
    ensures x.backend.Some? ==> Enabled(s, Deliver(First(s.net, x.backend.value)))
    ensures t == Taken(add, s, k, x.backend) && Ready(t, k, x.frontend)
    ensures x.frontend.Some? ==> Enabled(t, Deliver(First(t.net, x.frontend.value)))
    ensures u == Taken(add, t, k, x.frontend) && Ready(u, k, x.cloud)
    ensures x.cloud.Some? ==> Enabled(u, Deliver(First(u.net, x.cloud.value)))
    ensures v == Taken(add, u, k, x.cloud)
    ensures Readable(Rest(s.net, x.backend), x.frontend)
    ensures Readable(Rest(Rest(s.net, x.backend), x.frontend), x.cloud)
    ensures var (b1, out1) := Handled(s.brokers[k], s.net, x.backend);
            var net1 := Rest(s.net, x.backend);
            b1.name == k &&
            var (b2, out2) := Handled(b1, net1, x.frontend);
            var net2 := Rest(net1, x.frontend);
            b2.name == k &&
            var (b3, out3) := Handled(b2, net2, x.cloud);
            && t.brokers == s.brokers[k := b1] && u.brokers == s.brokers[k := b2]
            && v == s.(brokers := s.brokers[k := b3],
                       net := Rest(net2, x.cloud)
                       + ([] + Sends(s.site, s.brokers[k], s.net, x.backend, out1)
                          + Sends(s.site, b1, net1, x.frontend, out2)
                          + Sends(s.site, b2, net2, x.cloud, out3)))
  {
    AllStayReadable(s, k, x);
    var out2, out3;
    t, u, out2 := TwoLinksRead(add, s, k, x);
    hide *;
    v, out3 := ReadLink(add, u, k, Rest(Rest(s.net, x.backend), x.frontend), out2, x.cloud);
    SameSince(s, u, v, k);
  }

  /**
   * One iteration of a cluster broker's loop, on the oldest packets of the links its poll found, is at most
   * three deliveries of the data center, one after the other and all of them possible: the broker ends as
   * the iteration leaves it, and the packets sent carry what the iteration sends.
   */
  lemma TurnIsDeliveries(add: Adder, s: State, k: string, x: Sockets) returns (t: State, u: State, v: State)
    requires Reachable(add, s) && Polled(s, k, x)
    ensures x.backend.Some? ==> Enabled(s, Deliver(First(s.net, x.backend.value)))
    ensures t == Taken(add, s, k, x.backend) && Ready(t, k, x.frontend)
    ensures x.frontend.Some? ==> Enabled(t, Deliver(First(t.net, x.frontend.value)))
    ensures u == Taken(add, t, k, x.frontend) && Ready(u, k, x.cloud)
    ensures x.cloud.Some? ==> Enabled(u, Deliver(First(u.net, x.cloud.value)))
    ensures v == Taken(add, u, k, x.cloud)
    ensures var (after, out) := Turn(s.brokers[k], Found(s, k, x));
            v == s.(brokers := s.brokers[k := after],
                    net := Unread(s, k, x)
                    + Sends(s.site, s.brokers[k], s.net, x.backend, out[0])
                    + Sends(s.site, t.brokers[k], s.net, x.frontend, out[1])
                    + Sends(s.site, u.brokers[k], s.net, x.cloud, out[2]))
  {
    BrokerFacts(add, s, k);
    hide Reachable, Turn, Handled, Sends, First, Read, DeliverPacket, Taken, Enabled, Rest;
    t, u, v := LinksRead(add, s, k, x);
    TurnReads(s, k, x);
    var out := Turn(s.brokers[k], Found(s, k, x)).1;
    JoinThree(Unread(s, k, x),
              Sends(s.site, s.brokers[k], s.net, x.backend, out[0]),
              Sends(s.site, t.brokers[k], s.net, x.frontend, out[1]),
              Sends(s.site, u.brokers[k], s.net, x.cloud, out[2]));
  }

  // The whole loop

  /** What an iteration makes of a state: the deliveries of what it read, one after the other. */
  ghost function AfterTurn(add: Adder, s: State, k: string, x: Sockets): State
    requires Polled(s, k, x)
  {
    var t := Taken(add, s, k, x.backend);
    if !Ready(t, k, x.frontend) then t
    else
      var u := Taken(add, t, k, x.frontend);
      if !Ready(u, k, x.cloud) then u else Taken(add, u, k, x.cloud)
  }

  /** The packets in flight after an iteration carry these messages of the broker, besides what it left unread. */
  ghost predicate TurnSends(add: Adder, s: State, k: string, x: Sockets, out: seq<Sent>)
    requires Polled(s, k, x)
  {
    && |out| == 3
    && exists b1, b2 ::
         AfterTurn(add, s, k, x).net ==
         Unread(s, k, x)
         + Sends(s.site, s.brokers[k], s.net, x.backend, out[0])
         + Sends(s.site, b1, s.net, x.frontend, out[1])
         + Sends(s.site, b2, s.net, x.cloud, out[2])
  }

  /** Before an iteration, anything may happen that is not a delivery to this broker. */
  datatype Round = Round(others: seq<Action>, sockets: Sockets)

  ghost predicate Elsewhere(add: Adder, s: State, k: string, run: seq<Action>)
    decreases |run|
  {
    run == [] ||
    (Enabled(s, run[0]) && (run[0].Deliver? ==> !BrokerLink(k, s.net[run[0].n].link)) &&
     Elsewhere(add, Apply(add, s, run[0]), k, run[1..]))
  }

  lemma {:induction false} ElsewhereRuns(add: Adder, s: State, k: string, run: seq<Action>)
    requires Elsewhere(add, s, k, run) && k in s.brokers
    ensures Runs(add, s, run)
    ensures k in After(add, s, run).brokers && After(add, s, run).brokers[k] == s.brokers[k]
    ensures After(add, s, run).site == s.site
    decreases |run|
  {
    hide LocalRequest, LocalReply, RouteCloud, TaskRouter, Handlers.Process, Exchange, Oldest;
    if run != [] {
      ElsewhereRuns(add, Apply(add, s, run[0]), k, run[1..]);
    }
  }

  /** One link read is a run of at most one delivery. */
  lemma ReadIsRun(add: Adder, s: State, k: string, at: Option<Link>) returns (run: seq<Action>)
    requires Ready(s, k, at)
    requires at.Some? ==> Enabled(s, Deliver(First(s.net, at.value)))
    ensures Runs(add, s, run) && After(add, s, run) == Taken(add, s, k, at)
    ensures |run| <= 1 && forall a :: a in run ==> a.Deliver?
  {
    hide Enabled, DeliverPacket, First;
    if at.None? {
      run := [];
    } else {
      run := [Deliver(First(s.net, at.value))];
      assert run[1..] == [];
      assert Runs(add, Apply(add, s, run[0]), []);
    }
  }

  lemma TurnEffect(add: Adder, s: State, k: string, x: Sockets)
    requires Reachable(add, s) && Polled(s, k, x)
    ensures var t := AfterTurn(add, s, k, x);
            var (after, out) := Turn(s.brokers[k], Found(s, k, x));
            && t.site == s.site && k in t.brokers && t.brokers[k] == after
            && TurnSends(add, s, k, x, out)
  {
    var b := s.brokers[k];
    TurnSendsThree(b, Found(s, k, x));
    var t, u, v := TurnIsDeliveries(add, s, k, x);
    hide Turn, Sends, Taken, Reachable, Enabled, First, Exists, Manned;
    var out := Turn(b, Found(s, k, x)).1;
    assert k in t.brokers && k in u.brokers;
    assert v.net == Unread(s, k, x) + Sends(s.site, b, s.net, x.backend, out[0])
                    + Sends(s.site, t.brokers[k], s.net, x.frontend, out[1])
                    + Sends(s.site, u.brokers[k], s.net, x.cloud, out[2]);
  }

  /** An iteration is a run of at most three deliveries, which does to the broker and sends what a turn does. */
  lemma TurnIsRun(add: Adder, s: State, k: string, x: Sockets) returns (run: seq<Action>)
    requires Reachable(add, s) && Polled(s, k, x)
    ensures Runs(add, s, run) && After(add, s, run) == AfterTurn(add, s, k, x)
    ensures |run| <= 3 && forall a :: a in run ==> a.Deliver?
    ensures var t := AfterTurn(add, s, k, x);
            var (after, out) := Turn(s.brokers[k], Found(s, k, x));
            && t.site == s.site && k in t.brokers && t.brokers[k] == after
            && TurnSends(add, s, k, x, out)
  {
    TurnEffect(add, s, k, x);
    hide Turn, Sends, Ready, Taken, Reachable, Enabled, Apply, First;
    var t, u, v := TurnIsDeliveries(add, s, k, x);
    var a := ReadIsRun(add, s, k, x.backend);
    var b := ReadIsRun(add, t, k, x.frontend);
    var c := ReadIsRun(add, u, k, x.cloud);
    RunsJoin(add, s, a, b);
    RunsJoin(add, s, a + b, c);
    run := a + b + c;
  }

  lemma TurnSendsThree(b: Broker, a: Arrivals)
    ensures |Turn(b, a).1| == 3
  {
  }

  /** A loop that polls what it finds readable, iteration after iteration, in the midst of everything else. */
  ghost predicate Rounds(add: Adder, s: State, k: string, rounds: seq<Round>)
    decreases |rounds|
  {
    rounds == [] ||
    (Elsewhere(add, s, k, rounds[0].others) && Runs(add, s, rounds[0].others) &&
     var t := After(add, s, rounds[0].others);
     Polled(t, k, rounds[0].sockets) && Rounds(add, AfterTurn(add, t, k, rounds[0].sockets), k, rounds[1..]))
  }

  ghost function AfterRounds(add: Adder, s: State, k: string, rounds: seq<Round>): State
    requires Rounds(add, s, k, rounds)
    decreases |rounds|
  {
    if rounds == [] then s
    else
      var t := After(add, s, rounds[0].others);
      AfterRounds(add, AfterTurn(add, t, k, rounds[0].sockets), k, rounds[1..])
  }

  /** What the polls of the loop find. */
  ghost function PollsOf(add: Adder, s: State, k: string, rounds: seq<Round>): seq<Arrivals>
    requires Rounds(add, s, k, rounds)
    decreases |rounds|
  {
    if rounds == [] then []
    else
      var t := After(add, s, rounds[0].others);
      [Found(t, k, rounds[0].sockets)] +
      PollsOf(add, AfterTurn(add, t, k, rounds[0].sockets), k, rounds[1..])
  }

  /** Iteration by iteration, the packets sent carry these messages. */
  ghost predicate RoundsSend(add: Adder, s: State, k: string, rounds: seq<Round>, out: seq<Sent>)
    requires Rounds(add, s, k, rounds)
    decreases |rounds|
  {
    if rounds == [] then out == []
    else
      var t := After(add, s, rounds[0].others);
      && |out| >= 3 && TurnSends(add, t, k, rounds[0].sockets, out[..3])
      && RoundsSend(add, AfterTurn(add, t, k, rounds[0].sockets), k, rounds[1..], out[3..])
  }

  lemma TurnsFirst(b: Broker, a: Arrivals, polls: seq<Arrivals>)
    ensures var (after, out) := Turn(b, a);
            Turns(b, [a] + polls) == (Turns(after, polls).0, out + Turns(after, polls).1)
  {
    TurnsConcat(b, [a], polls);
    assert [a][..0] == [] && Turns(b, []) == (b, []) && [] + Turn(b, a).1 == Turn(b, a).1;
    hide Turn;
  }

  /**
   * runTask as a whole: however its iterations interleave with everything else, they make up a run of the
   * data center that leaves the broker as the loop leaves it on the polls it met, and the packets it sent
   * carry, iteration by iteration, the messages that the loop sends.
   */
  lemma {:induction false} LoopIsRun(add: Adder, s: State, k: string, rounds: seq<Round>) returns (run: seq<Action>)
    requires Reachable(add, s) && k in s.site.clusters && Rounds(add, s, k, rounds)
    ensures Runs(add, s, run) && After(add, s, run) == AfterRounds(add, s, k, rounds)
    ensures k in s.brokers && k in AfterRounds(add, s, k, rounds).brokers
    ensures var (after, out) := Turns(s.brokers[k], PollsOf(add, s, k, rounds));
            && AfterRounds(add, s, k, rounds).brokers[k] == after
            && RoundsSend(add, s, k, rounds, out)
    decreases |rounds|
  {
    BrokerFacts(add, s, k);
    hide Reachable, Turn, AfterTurn, TurnSends, Elsewhere, Polled, Found, Enabled, Apply;
    if rounds == [] {
      run := [];
    } else {
      var others, x := rounds[0].others, rounds[0].sockets;
      ElsewhereRuns(add, s, k, others);
      ReachableRuns(add, s, others);
      var t := After(add, s, others);
      var turn := TurnIsRun(add, t, k, x);
      ReachableRuns(add, t, turn);
      var next := AfterTurn(add, t, k, x);
      var rest := LoopIsRun(add, next, k, rounds[1..]);
      RunsJoin(add, s, others, turn);
      RunsJoin(add, s, others + turn, rest);
      run := others + turn + rest;
      TurnsFirst(s.brokers[k], Found(t, k, x), PollsOf(add, next, k, rounds[1..]));
      TurnSendsThree(s.brokers[k], Found(t, k, x));
    }
  }

  // The super broker

  ghost predicate SuperPolled(s: State, n: Option<nat>, at: Option<Link>) {
    && Manned(s)
    && (n.Some? ==> Enabled(s, PullReport(n.value)))
    && (at.Some? ==> at.value.CloudUp? && Exists(s.site, at.value) && Holds(s.net, at.value))
  }

  ghost function SuperFound(s: State, n: Option<nat>, at: Option<Link>): SuperArrivals
    requires SuperPolled(s, n, at)
  {
    var report := if n.Some? then Some(Entry(s.pushed[n.value].name, s.pushed[n.value].count)) else None;
    SuperArrivals(report, Read(s.net, at))
  }

  /**
   * One iteration of the super broker's loop, on the oldest report of some cluster and the oldest packet
   * of a cloud link, is at most one pull and one delivery: the table ends as the iteration leaves it, and
   * the packet sent carries what the iteration sends.
   */
  lemma SuperTurnIsSteps(add: Adder, s: State, n: Option<nat>, at: Option<Link>) returns (t: State, u: State)
    requires SuperPolled(s, n, at)
    ensures t == if n.Some? then Apply(add, s, PullReport(n.value)) else s
    ensures at.Some? ==> Holds(t.net, at.value) && Enabled(t, Deliver(First(t.net, at.value)))
    ensures u == if at.Some? then DeliverPacket(add, t, First(t.net, at.value)) else t
    ensures var (table, out) := SuperTurn(s.table, SuperFound(s, n, at));
            && u == t.(net := u.net) && u.table == table
            && u.net == Rest(s.net, at) +
                        if at.Some? then Carried(s.site, Head(s.net, at.value), out, AtSuper(table, |t.pulled|)) else []
  {
    hide First, TaskRouter;
    t := if n.Some? then Apply(add, s, PullReport(n.value)) else s;
    u := if at.Some? then DeliverPacket(add, t, First(t.net, at.value)) else t;
  }
}
