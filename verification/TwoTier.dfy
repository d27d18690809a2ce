/**
 * The data center as a state machine: clients, workers and brokers of any number of clusters, one
 * super broker, and every message in flight. Each action is one handler, run to its end.
 */
module TwoTier {
  import opened Logs
  import opened Messages
  import opened ClusterTable
  import opened Handlers

  /** Client and worker ids are unique within their cluster only. */
  datatype Endpoint = Endpoint(cluster: string, id: string)

  datatype TaskRequest = TaskRequest(taskID: nat, arr: seq<real>)

  /**
   * What a message met on its way: the handler's place and the state that handler decided on; at the super
   * broker also how many reports it had pulled by then.
   */
  datatype Hop =
    | AtFrontend(cluster: string, ready: seq<string>)
    | AtSuper(table: seq<Entry>, pulls: nat)
    | AtCloud(cluster: string, ready: seq<string>)
    | AtWorker(cluster: string, worker: string)
    | AtBackend(cluster: string)

  /**
   * A message in flight on a link. `serial` and `hops` are history that no handler can read:
   * which of its client's requests it belongs to, and the handlers that have seen it.
   */
  datatype Packet = Packet(link: Link, msg: Message, serial: nat, hops: seq<Hop>)

  /** A client blocks in its receive while it has more requests than answers. */
  datatype Client = Client(requests: seq<TaskRequest>, answers: seq<Packet>)

  /** A state report; `at` is history: how many lengths the ready queue had had. */
  datatype Report = Report(name: string, count: nat, at: nat)

  /** The clusters a deployment has, with their clients and workers. */
  datatype Site = Site(clusters: set<string>, clients: set<Endpoint>, workers: set<Endpoint>)

  /**
   * `net` lists the packets in flight in the order they were sent; the packets of one link are
   * received oldest first. `inproc` and `pushed` are the two stages of the report path, `pulled` and
   * `sampled` the reports received and taken so far.
   */
  datatype State = State(
    site: Site,
    clients: map<Endpoint, Client>,
    started: set<Endpoint>,
    brokers: map<string, Broker>,
    announced: set<string>,
    net: seq<Packet>,
    table: seq<Entry>,
    inproc: seq<Report>,
    pushed: seq<Report>,
    pulled: seq<Report>,
    sampled: seq<Report>)

  datatype Action =
    | StartWorker(worker: Endpoint)
    | StartBroker(name: string)
    | SendRequest(client: Endpoint, request: TaskRequest)
    | Deliver(n: nat)
    | SampleState(name: string)
    | ForwardReport(n: nat)
    | PullReport(n: nat)

  predicate Waiting(c: Client) {
    |c.requests| > |c.answers|
  }

  /** A ROUTER silently drops what it cannot address, so a packet needs an endpoint to exist. */
  predicate Exists(site: Site, link: Link) {
    match link
    case ClientUp(k, i) => k in site.clusters && Endpoint(k, i) in site.clients
    case ClientDown(k, i) => k in site.clusters && Endpoint(k, i) in site.clients
    case WorkerUp(k, w) => k in site.clusters && Endpoint(k, w) in site.workers
    case WorkerDown(k, w) => k in site.clusters && Endpoint(k, w) in site.workers
    case CloudUp(k) => k in site.clusters
    case CloudDown(k) => k in site.clusters
  }

  /** Brokers and clients of a state are those of its site. */
  predicate Manned(s: State) {
    s.brokers.Keys == s.site.clusters && s.clients.Keys == s.site.clients && s.started <= s.site.workers
  }

  function OnLink(link: Link): Packet -> bool {
    (p: Packet) => p.link == link
  }

  function OfCluster(name: string): Report -> bool {
    (r: Report) => r.name == name
  }

  /** The net after a handler took packet n and sent `out`, which inherits the packet's history. */
  function Exchange(s: State, n: nat, out: Sent, hop: Hop): seq<Packet>
    requires n < |s.net|
  {
    var p, rest := s.net[n], Without(s.net, n);
    if out.Sent? && Exists(s.site, out.link)
    then rest + [Packet(out.link, out.msg, p.serial, p.hops + [hop])]
    else rest
  }

  predicate Receivable(s: State, n: nat) {
    Manned(s) && n < |s.net| && Exists(s.site, s.net[n].link)
  }

  ghost predicate Enabled(s: State, a: Action) {
    Manned(s) &&
    match a
    case StartWorker(e) => e in s.site.workers && e !in s.started
    case StartBroker(k) => k in s.site.clusters && k !in s.announced
    case SendRequest(e, _) => e in s.site.clients && !Waiting(s.clients[e])
    case Deliver(n) =>
      Receivable(s, n) && Oldest(s.net, n, OnLink(s.net[n].link)) &&
      (s.net[n].link.ClientDown? ==> Waiting(s.clients[Endpoint(s.net[n].link.cluster, s.net[n].link.id)]))
    case SampleState(k) => k in s.site.clusters
    case ForwardReport(n) => n < |s.inproc| && Oldest(s.inproc, n, OfCluster(s.inproc[n].name))
    case PullReport(n) => n < |s.pushed| && Oldest(s.pushed, n, OfCluster(s.pushed[n].name))
  }

  function DeliverPacket(add: Adder, s: State, n: nat): State
    requires Receivable(s, n)
  {
    var p := s.net[n];
    match p.link
    case ClientUp(k, _) =>
      var (b, out) := LocalRequest(s.brokers[k], p.msg);
      s.(brokers := s.brokers[k := b], net := Exchange(s, n, out, AtFrontend(k, s.brokers[k].ready)))
    case WorkerDown(k, w) =>
      var out := Sent(WorkerUp(k, w), Process(add, w, p.msg));
      s.(net := Exchange(s, n, out, AtWorker(k, w)))
    case WorkerUp(k, _) =>
      var (b, out) := LocalReply(s.brokers[k], p.msg);
      s.(brokers := s.brokers[k := b], net := Exchange(s, n, out, AtBackend(k)))
    case CloudUp(_) =>
      s.(net := Exchange(s, n, TaskRouter(s.table, p.msg), AtSuper(s.table, |s.pulled|)))
    case CloudDown(k) =>
      var (b, out) := RouteCloud(s.brokers[k], p.msg);
      s.(brokers := s.brokers[k := b], net := Exchange(s, n, out, AtCloud(k, s.brokers[k].ready)))
    case ClientDown(k, i) =>
      var e := Endpoint(k, i);
      var c := s.clients[e];
      s.(clients := s.clients[e := c.(answers := c.answers + [p])], net := Without(s.net, n))
  }

  /** The new packet of a handler that receives nothing. */
  function Post(s: State, p: Packet): seq<Packet> {
    if Exists(s.site, p.link) then s.net + [p] else s.net
  }

  function Apply(add: Adder, s: State, a: Action): State
    requires Enabled(s, a)
  {
    match a
    case StartWorker(e) =>
      s.(started := s.started + {e}, net := Post(s, Packet(WorkerUp(e.cluster, e.id), WorkerAlive(e.id), 0, [])))
    case StartBroker(k) =>
      s.(announced := s.announced + {k}, net := Post(s, Packet(CloudUp(k), BrokerAlive(k), 0, [])))
    case SendRequest(e, r) =>
      var c := s.clients[e];
      var p := Packet(ClientUp(e.cluster, e.id), Request(e.id, r.taskID, r.arr), |c.requests|, []);
      s.(clients := s.clients[e := c.(requests := c.requests + [r])], net := Post(s, p))
    case Deliver(n) => DeliverPacket(add, s, n)
    case SampleState(k) =>
      var b := s.brokers[k];
      var r := Report(k, b.readyCount, |b.lengths|);
      s.(inproc := s.inproc + [r], sampled := s.sampled + [r])
    case ForwardReport(n) =>
      s.(inproc := Without(s.inproc, n), pushed := s.pushed + [s.inproc[n]])
    case PullReport(n) =>
      var r := s.pushed[n];
      s.(pushed := Without(s.pushed, n), pulled := s.pulled + [r], table := Upsert(s.table, r.name, r.count))
  }

  ghost function WorkerIds(site: Site, k: string): set<string> {
    set e | e in site.workers && e.cluster == k :: e.id
  }

  /** The names and numbers a deployment may be started with. */
  ghost predicate Configured(site: Site) {
    && (forall k :: k in site.clusters ==> ValidName(k) && |WorkerIds(site, k)| < TWO_TO_32)
    && (forall e :: e in site.clients + site.workers ==> e.cluster in site.clusters && ValidName(e.id))
  }

  function InitialState(site: Site): State {
    var clients := map e | e in site.clients :: Client([], []);
    var brokers := map k | k in site.clusters :: NewBroker(k);
    State(site, clients, {}, brokers, {}, [], [], [], [], [], [])
  }

  /** Every action of a run is enabled where it happens. */
  ghost predicate Runs(add: Adder, s: State, run: seq<Action>)
    decreases |run|
  {
    run == [] || (Enabled(s, run[0]) && Runs(add, Apply(add, s, run[0]), run[1..]))
  }

  ghost function After(add: Adder, s: State, run: seq<Action>): State
    requires Runs(add, s, run)
    decreases |run|
  {
    if run == [] then s else After(add, Apply(add, s, run[0]), run[1..])
  }

  ghost predicate Reaches(add: Adder, site: Site, run: seq<Action>, s: State) {
    Configured(site) && Runs(add, InitialState(site), run) && After(add, InitialState(site), run) == s
  }

  ghost predicate Reachable(add: Adder, s: State) {
    exists run :: Reaches(add, s.site, run, s)
  }
}
