/** Where a request may be, what it then carries, and the routes by which an answer may come home. */
module Routes {
  import opened Messages
  import opened ClusterTable
  import opened Handlers
  import opened TwoTier

  /** The frontend of cluster k gave the request to worker w, at the head of its ready queue. */
  predicate LocalRoute(k: string, w: string, hops: seq<Hop>) {
    |hops| == 1 && hops[0].AtFrontend? && hops[0].cluster == k && hops[0].ready != [] && hops[0].ready[0] == w
  }

  /** The frontend of cluster k had no ready worker and the super broker's table offered `choice`. */
  predicate Overflowed(k: string, choice: Option<string>, hops: seq<Hop>) {
    |hops| == 2 && hops[0] == AtFrontend(k, []) && hops[1].AtSuper? && Choose(hops[1].table) == choice
  }

  /** Cluster c, offered the request, gave it to worker w at the head of its ready queue. */
  predicate RemoteRoute(k: string, c: string, w: string, hops: seq<Hop>) {
    |hops| == 3 && Overflowed(k, Some(c), hops[..2]) &&
    hops[2].AtCloud? && hops[2].cluster == c && hops[2].ready != [] && hops[2].ready[0] == w
  }

  predicate Assigned(k: string, c: string, w: string, hops: seq<Hop>) {
    (k == c && LocalRoute(k, w, hops)) || RemoteRoute(k, c, w, hops)
  }

  predicate Processed(k: string, c: string, w: string, hops: seq<Hop>) {
    |hops| >= 1 && Assigned(k, c, w, hops[..|hops| - 1]) && hops[|hops| - 1] == AtWorker(c, w)
  }

  predicate Executed(k: string, c: string, w: string, hops: seq<Hop>) {
    |hops| >= 1 && Processed(k, c, w, hops[..|hops| - 1]) && hops[|hops| - 1] == AtBackend(c)
  }

  /** Cluster c was offered the request but had no ready worker. */
  predicate Refused(k: string, c: string, hops: seq<Hop>) {
    |hops| == 3 && Overflowed(k, Some(c), hops[..2]) && hops[2] == AtCloud(c, [])
  }

  /** The super broker was the last to handle the message. */
  predicate Relayed(hops: seq<Hop>) {
    |hops| >= 1 && hops[|hops| - 1].AtSuper?
  }

  /** The message came down from the super broker to cluster k last. */
  predicate Landed(k: string, hops: seq<Hop>) {
    |hops| >= 2 && hops[|hops| - 1].AtCloud? && hops[|hops| - 1].cluster == k && hops[|hops| - 2].AtSuper?
  }

  /** Worker w of cluster c did the work, and the reply took the way home that c calls for. */
  predicate WorkedRoute(k: string, c: string, w: string, hops: seq<Hop>) {
    if k == c then Executed(k, c, w, hops)
    else Landed(k, hops) && Executed(k, c, w, hops[..|hops| - 2])
  }

  /** No ready worker at home, and either no cluster to offer the request to or none ready in cluster c. */
  predicate RejectedRoute(k: string, c: string, hops: seq<Hop>) {
    if c == "" then |hops| == 3 && Landed(k, hops) && Overflowed(k, None, hops[..2])
    else Landed(k, hops) && Refused(k, c, hops[..|hops| - 2])
  }

  /** The message is a right answer to request r of client e, and came by a right route. */
  predicate Answers(add: Adder, e: Endpoint, r: TaskRequest, m: Message, hops: seq<Hop>) {
    var a := m.meta.addr;
    && m.meta.taskID == r.taskID && m.meta.taskType.NormalTask?
    && a.toCluster == e.cluster && a.to == e.id
    && match m.meta.direction
       case Reply => m.body == Total(FoldLeft(add, r.arr)) && WorkedRoute(e.cluster, a.fromCluster, a.from, hops)
       case ReplyRejected => m.body == Total(0.0) && a.from == "" && RejectedRoute(e.cluster, a.fromCluster, hops)
       case _ => false
  }

  /** What a packet that belongs to request r of client e looks like on each link. */
  predicate Fits(add: Adder, e: Endpoint, r: TaskRequest, p: Packet) {
    var m, a, d := p.msg, p.msg.meta.addr, p.msg.meta.direction;
    && m.meta.taskID == r.taskID && m.meta.taskType.NormalTask?
    && match p.link
       case ClientUp(k, i) =>
         k == e.cluster && i == e.id && m == Request(e.id, r.taskID, r.arr) && p.hops == []
       case WorkerDown(c, w) =>
         d.Submit? && m.body == Numbers(r.arr) && Assigned(e.cluster, c, w, p.hops) &&
         a == Addr(e.cluster, e.id, c, if |p.hops| == 1 then w else "")
       case WorkerUp(c, w) =>
         d.Reply? && m.body == Total(FoldLeft(add, r.arr)) && a == Addr(e.cluster, w, c, e.id) &&
         Processed(e.cluster, c, w, p.hops)
       case CloudUp(c) =>
         (match d
          case Submit =>
            c == e.cluster && a == Addr(e.cluster, e.id, "", "") && m.body == Numbers(r.arr) &&
            p.hops == [AtFrontend(c, [])]
          case Reply =>
            c != e.cluster && a.toCluster == e.cluster && a.to == e.id && a.fromCluster == c &&
            m.body == Total(FoldLeft(add, r.arr)) && Executed(e.cluster, c, a.from, p.hops)
          case ReplyRejected =>
            a == Addr(c, "", e.cluster, e.id) && m.body == Total(0.0) && Refused(e.cluster, c, p.hops)
          case _ => false)
       case CloudDown(c) =>
         (match d
          case Submit =>
            a == Addr(e.cluster, e.id, c, "") && m.body == Numbers(r.arr) && Overflowed(e.cluster, Some(c), p.hops)
          case Reply =>
            c == e.cluster && a.toCluster == e.cluster && a.to == e.id && a.fromCluster != c &&
            m.body == Total(FoldLeft(add, r.arr)) && Relayed(p.hops) &&
            Executed(e.cluster, a.fromCluster, a.from, p.hops[..|p.hops| - 1])
          case ReplyRejected =>
            c == e.cluster && a.toCluster == e.cluster && a.to == e.id && a.from == "" && m.body == Total(0.0) &&
            Relayed(p.hops) &&
            (if a.fromCluster == "" then Overflowed(e.cluster, None, p.hops)
             else Refused(e.cluster, a.fromCluster, p.hops[..|p.hops| - 1]))
          case _ => false)
       case ClientDown(k, i) =>
         k == e.cluster && i == e.id && Answers(add, e, r, m, p.hops)
  }

  function OwnerInCloud(m: Meta): Endpoint {
    if m.direction.Submit? then Endpoint(m.addr.fromCluster, m.addr.from) else Endpoint(m.addr.toCluster, m.addr.to)
  }

  /** The client a packet's link and addresses point back to. */
  function Owner(p: Packet): Option<Endpoint> {
    var a := p.msg.meta.addr;
    if p.msg.meta.taskType.AliveSignal? then None
    else
      match p.link
      case ClientUp(k, i) => Some(Endpoint(k, i))
      case ClientDown(k, i) => Some(Endpoint(k, i))
      case WorkerDown(_, _) => Some(Endpoint(a.fromCluster, a.from))
      case WorkerUp(_, _) => Some(Endpoint(a.fromCluster, a.to))
      case CloudUp(_) => Some(OwnerInCloud(p.msg.meta))
      case CloudDown(_) => Some(OwnerInCloud(p.msg.meta))
  }

  /** On every link, the addresses of a packet lead back to the client it belongs to. */
  lemma FitsOwner(add: Adder, e: Endpoint, r: TaskRequest, p: Packet)
    requires Fits(add, e, r, p)
    ensures Owner(p) == Some(e)
  {
  }

  /** An alive signal, from the one place that sends it. */
  predicate Alive(p: Packet) {
    (p.link.WorkerUp? && p.msg == WorkerAlive(p.link.id)) || (p.link.CloudUp? && p.msg == BrokerAlive(p.link.cluster))
  }

  /** The packet that handing p to its handler sends on. */
  function Forwarded(p: Packet, out: Sent, hop: Hop): Packet
    requires out.Sent?
  {
    Packet(out.link, out.msg, p.serial, p.hops + [hop])
  }

  lemma FrontendForwards(add: Adder, e: Endpoint, r: TaskRequest, p: Packet, b: Broker)
    requires Fits(add, e, r, p) && p.link.ClientUp? && b.name == p.link.cluster
    ensures var out := LocalRequest(b, p.msg).1;
            out.Sent? && Fits(add, e, r, Forwarded(p, out, AtFrontend(b.name, b.ready)))
  {
  }

  lemma WorkerForwards(add: Adder, e: Endpoint, r: TaskRequest, p: Packet)
    requires Fits(add, e, r, p) && p.link.WorkerDown?
    ensures var (c, w) := (p.link.cluster, p.link.id);
            Fits(add, e, r, Forwarded(p, Sent(WorkerUp(c, w), Process(add, w, p.msg)), AtWorker(c, w)))
  {
    var hop := AtWorker(p.link.cluster, p.link.id);
    assert (p.hops + [hop])[..|p.hops|] == p.hops;
  }

  lemma BackendForwards(add: Adder, e: Endpoint, r: TaskRequest, p: Packet, b: Broker)
    requires Fits(add, e, r, p) && p.link.WorkerUp? && b.name == p.link.cluster
    ensures var out := LocalReply(b, p.msg).1;
            out.Sent? && Fits(add, e, r, Forwarded(p, out, AtBackend(b.name)))
  {
    assert (p.hops + [AtBackend(b.name)])[..|p.hops|] == p.hops;
  }

  lemma SuperForwardsRequest(add: Adder, e: Endpoint, r: TaskRequest, p: Packet, table: seq<Entry>, pulls: nat)
    requires Fits(add, e, r, p) && p.link.CloudUp? && p.msg.meta.direction.Submit?
    requires e.cluster != "" && e.id != ""
    ensures var out := TaskRouter(table, p.msg);
            out.Sent? && Fits(add, e, r, Forwarded(p, out, AtSuper(table, pulls)))
  {
    var hops := p.hops + [AtSuper(table, pulls)];
    assert Overflowed(e.cluster, Choose(table), hops);
    assert Choose(table) == None ==> Relayed(hops);
  }

  lemma SuperForwardsReply(add: Adder, e: Endpoint, r: TaskRequest, p: Packet, table: seq<Entry>, pulls: nat)
    requires Fits(add, e, r, p) && p.link.CloudUp? && !p.msg.meta.direction.Submit?
    ensures var out := TaskRouter(table, p.msg);
            out.Sent? && Fits(add, e, r, Forwarded(p, out, AtSuper(table, pulls)))
  {
    var hops := p.hops + [AtSuper(table, pulls)];
    assert p.msg.meta.direction.ReplyRejected? ==> p.link.cluster != "" by {
      assert Choose(table) != Some("");
    }
    hide Executed, Refused, FoldLeft, Choose;
    assert hops[..|hops| - 1] == p.hops && Relayed(hops);
  }

  /** A cloud request goes to a worker exactly when the queue holds one. */
  lemma CloudLink(b: Broker, m: Message)
    requires |b.ready| < TWO_TO_32
    ensures var (after, out) := RouteCloud(b, m);
            && out.Sent?
            && (if m.meta.direction.Submit? && b.ready != []
                then out.link == WorkerDown(b.name, b.ready[0]) && after.ready == b.ready[1..]
                else !out.link.WorkerUp? && !out.link.WorkerDown? && after.ready == b.ready)
  {
  }

  lemma CloudForwards(add: Adder, e: Endpoint, r: TaskRequest, p: Packet, b: Broker)
    requires Fits(add, e, r, p) && p.link.CloudDown? && b.name == p.link.cluster && |b.ready| < TWO_TO_32
    ensures var out := RouteCloud(b, p.msg).1;
            out.Sent? && Fits(add, e, r, Forwarded(p, out, AtCloud(b.name, b.ready)))
  {
    var hop := AtCloud(b.name, b.ready);
    var hops := p.hops + [hop];
    assert hops[..|p.hops|] == p.hops;
    if !p.msg.meta.direction.Submit? {
      assert hops[..|hops| - 2] == p.hops[..|p.hops| - 1];
    }
  }
}
