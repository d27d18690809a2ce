/** Every delivery brings some answer closer, and a client that waits always has one to come. */
module Delivery {
  import opened Logs
  import opened Messages
  import opened TwoTier
  import opened Invariant

  /** How many deliveries the message of a packet may still need, the client's receipt included. */
  function Rank(p: Packet): int {
    if p.msg.meta.taskType.AliveSignal? then 1
    else
      match p.link
      case ClientUp(_, _) => 8
      case CloudUp(_) => if p.msg.meta.direction.Submit? then 7 else 3
      case CloudDown(_) => if p.msg.meta.direction.Submit? then 6 else 2
      case WorkerDown(_, _) => 5
      case WorkerUp(_, _) => 4
      case ClientDown(_, _) => 1
  }

  function Ranks(): Packet -> int {
    (p: Packet) => Rank(p)
  }

  function Potential(s: State): int {
    Sum(s.net, Ranks())
  }

  /** The counts of deliveries, requests and starts in a run. */
  function Deliveries(): Action -> int {
    (a: Action) => if a.Deliver? then 1 else 0
  }

  function Requests(): Action -> int {
    (a: Action) => if a.SendRequest? then 1 else 0
  }

  function Starts(): Action -> int {
    (a: Action) => if a.StartWorker? || a.StartBroker? then 1 else 0
  }

  lemma RankPositive(net: seq<Packet>)
    ensures Sum(net, Ranks()) >= 0
  {
    SumNonNegative(net, Ranks());
  }

  /** What a handler sends on ranks below what it takes. */
  lemma HandlerLowersRank(add: Adder, s: State, n: nat, q: Packet)
    requires Receivable(s, n) && Legal(add, s.clients, s.net[n])
    requires s.net[n].link.CloudDown? ==> s.brokers[s.net[n].link.cluster].name == s.net[n].link.cluster
    requires DeliverPacket(add, s, n).net == Without(s.net, n) + [q]
    ensures Rank(q) < Rank(s.net[n])
  {
    assert q == DeliverPacket(add, s, n).net[|s.net| - 1];
  }

  lemma DeliveryLowersPotential(add: Adder, s: State, n: nat)
    requires Inv(add, s) && Enabled(s, Deliver(n))
    ensures Potential(DeliverPacket(add, s, n)) < Potential(s)
  {
    hide AllAnswered, ReportsNamed, OneMessagePerWait, OneTokenPerWorker, Configured, RealHops, Rank;
    var p := s.net[n];
    var t := DeliverPacket(add, s, n);
    assert Legal(add, s.clients, p);
    RankAboveZero(p);
    if t.net == Without(s.net, n) {
      SumExchange(s.net, n, p);
    } else {
      var q := t.net[|t.net| - 1];
      assert t.net == Without(s.net, n) + [q];
      hide Legal;
      HandlerLowersRank(add, s, n, q);
      SumExchange(s.net, n, q);
    }
  }

  lemma RankAboveZero(p: Packet)
    ensures Rank(p) > 0
  {
  }

  lemma OthersKeepRank(add: Adder, s: State, a: Action)
    requires Enabled(s, a) && !a.Deliver?
    ensures Potential(Apply(add, s, a)) <= Potential(s) + 8 * Requests()(a) + Starts()(a)
  {
    var t := Apply(add, s, a);
    if t.net != s.net {
      var p := t.net[|t.net| - 1];
      assert t.net == s.net + [p];
      SumAppend(s.net, p, Ranks());
    }
  }

  /**
   * Over any run, no more messages are delivered than eight for each request, one for each alive
   * signal, and what was in flight to begin with.
   */
  lemma {:induction false} DeliveriesBounded(add: Adder, s: State, run: seq<Action>)
    requires Inv(add, s) && Runs(add, s, run)
    ensures Sum(run, Deliveries()) + Potential(After(add, s, run))
            <= Potential(s) + 8 * Sum(run, Requests()) + Sum(run, Starts())
    decreases |run|
  {
    hide Inv, Potential;
    if run != [] {
      StepKeepsInv(add, s, run[0]);
      DeliveriesBounded(add, Apply(add, s, run[0]), run[1..]);
      if run[0].Deliver? {
        DeliveryLowersPotential(add, s, run[0].n);
      } else {
        OthersKeepRank(add, s, run[0]);
      }
    }
  }

  /** From the start of a site on, at most eight deliveries are made for each request sent. */
  lemma EightDeliveriesPerRequest(add: Adder, site: Site, run: seq<Action>)
    requires Configured(site) && Runs(add, InitialState(site), run)
    ensures Sum(run, Deliveries()) <= 8 * Sum(run, Requests()) + Sum(run, Starts())
  {
    InitialInv(add, site);
    DeliveriesBounded(add, InitialState(site), run);
    RankPositive(After(add, InitialState(site), run).net);
  }

  /** The oldest packet on any link can be delivered. */
  lemma OldestDeliverable(add: Adder, s: State, n: nat)
    requires Inv(add, s) && n < |s.net| && Oldest(s.net, n, OnLink(s.net[n].link))
    ensures Enabled(s, Deliver(n))
  {
    assert Legal(add, s.clients, s.net[n]);
  }

  /** While a client waits, some broker, worker, super broker or client can take its next message. */
  lemma WaitingHasDelivery(add: Adder, s: State, e: Endpoint) returns (n: nat)
    requires Inv(add, s) && e in s.clients && Waiting(s.clients[e])
    ensures Enabled(s, Deliver(n))
  {
    var j := SumPositive(s.net, OwnedBy(e));
    var link := s.net[j].link;
    n := OldestExists(s.net, OnLink(link), j);
    OldestDeliverable(add, s, n);
  }

  /** In every reachable state, a client that waits has some delivery to hope for. */
  lemma NeverStuck(add: Adder, s: State)
    requires Reachable(add, s) && exists e :: e in s.clients && Waiting(s.clients[e])
    ensures exists n :: Enabled(s, Deliver(n))
  {
    ReachableInv(add, s);
    hide Inv, Reachable;
    var e :| e in s.clients && Waiting(s.clients[e]);
    var n := WaitingHasDelivery(add, s, e);
  }

  /** Nobody sends a request; reports, starts and deliveries go on. */
  ghost predicate NobodySends(run: seq<Action>) {
    forall a :: a in run ==> !a.SendRequest?
  }

  lemma StepKeepsRequests(add: Adder, s: State, a: Action)
    requires Enabled(s, a) && !a.SendRequest?
    ensures var t := Apply(add, s, a);
            && t.clients.Keys == s.clients.Keys
            && forall e :: e in s.clients ==> t.clients[e].requests == s.clients[e].requests
  {
    hide Oldest;
  }

  lemma {:induction false} RequestsStay(add: Adder, s: State, run: seq<Action>)
    requires Inv(add, s) && Runs(add, s, run) && NobodySends(run)
    ensures var t := After(add, s, run);
            Inv(add, t) && t.clients.Keys == s.clients.Keys &&
            forall e :: e in s.clients ==> t.clients[e].requests == s.clients[e].requests
    ensures Sum(run, Requests()) == 0
    decreases |run|
  {
    hide Inv, Apply, Enabled;
    if run != [] {
      assert run[0] in run;
      StepKeepsInv(add, s, run[0]);
      StepKeepsRequests(add, s, run[0]);
      RequestsStay(add, Apply(add, s, run[0]), run[1..]);
    }
  }

  /**
   * Once nobody sends, deliveries come to an end whatever their order and whatever reports and starts come
   * between them: there are at most Potential(s), and one for each start. And whenever none is left to
   * make, every client has the answer to each request it ever sent.
   */
  lemma QuietMeansAnswered(add: Adder, s: State, run: seq<Action>)
    requires Reachable(add, s) && Runs(add, s, run) && NobodySends(run)
    ensures Sum(run, Deliveries()) <= Potential(s) + Sum(run, Starts())
    ensures After(add, s, run).clients.Keys == s.clients.Keys
    ensures var t := After(add, s, run);
            (forall n :: !Enabled(t, Deliver(n))) ==>
              forall e :: e in t.clients ==>
                t.clients[e].requests == s.clients[e].requests && |t.clients[e].answers| == |t.clients[e].requests|
  {
    ReachableInv(add, s);
    DeliveriesBounded(add, s, run);
    RequestsStay(add, s, run);
    var t := After(add, s, run);
    RankPositive(t.net);
    if forall n :: !Enabled(t, Deliver(n)) {
      forall e | e in t.clients ensures |t.clients[e].answers| == |t.clients[e].requests| {
        if Waiting(t.clients[e]) {
          var n := WaitingHasDelivery(add, t, e);
        }
        assert Answered(add, t.site, e, t.clients[e]);
      }
    }
  }

  /** The packets of one link, oldest first. */
  function Queue(s: State, link: Link): seq<Packet> {
    Select(s.net, OnLink(link))
  }

  /**
   * A delivery takes the head of one link's queue, and adds to the end of at most one other; no further
   * link changes.
   */
  lemma LinksAreFifo(add: Adder, s: State, n: nat) returns (out: seq<Packet>)
    requires Enabled(s, Deliver(n))
    ensures |out| <= 1 && (out != [] ==> out[0].link != s.net[n].link)
    ensures var (p, t) := (s.net[n], DeliverPacket(add, s, n));
            forall link ::
              (if link == p.link then [p] else []) + Queue(t, link) == Queue(s, link) + Select(out, OnLink(link))
  {
    var p, t, rest := s.net[n], DeliverPacket(add, s, n), Without(s.net, n);
    out := t.net[|rest|..];
    assert t.net == rest + out;
    if out != [] {
      assert out == [out[0]];
      NeverSentBack(add, s, n, out[0]);
    }
    hide DeliverPacket;
    forall link
      ensures (if link == p.link then [p] else []) + Queue(t, link) == Queue(s, link) + Select(out, OnLink(link))
    {
      SelectConcat(rest, out, OnLink(link));
      if link == p.link {
        SelectWithoutOldest(s.net, n, OnLink(link));
        assert Select(out, OnLink(link)) == [];
      } else {
        SelectWithoutOther(s.net, n, OnLink(link));
      }
    }
  }

  /** No handler sends a message back to where it took it. */
  lemma NeverSentBack(add: Adder, s: State, n: nat, q: Packet)
    requires Receivable(s, n) && DeliverPacket(add, s, n).net == Without(s.net, n) + [q]
    ensures q.link != s.net[n].link
  {
    assert q == DeliverPacket(add, s, n).net[|s.net| - 1];
  }
}
