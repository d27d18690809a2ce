/** The objects of the data center, updating their own state and their local TaskMeta in place. */
module Brokers {
  import opened Messages
  import opened ClusterTable
  import opened Handlers
  import opened NameBuffers

  /** What a handler puts on its sockets: identity frame, where the socket is a ROUTER, and message. */
  datatype Outgoing =
    | Silence
    | ToFrontend(identity: Frame, msg: WireMessage)
    | ToBackend(identity: Frame, msg: WireMessage)
    | ToCloud(msg: WireMessage)
    | ToCluster(identity: Frame, msg: WireMessage)

  /** The bytes that `out` puts on the sockets of cluster k are the message and address of `sent`. */
  predicate Carries(k: string, out: Outgoing, sent: Sent) {
    match sent
    case Nothing => out.Silence?
    case Sent(link, m) =>
      && !out.Silence? && out.msg.WellFormed() && out.msg.Read() == m
      && match link
         case ClientDown(c, i) => c == k && out.ToFrontend? && out.identity == StringToFrame(i)
         case WorkerDown(c, w) => c == k && out.ToBackend? && out.identity == StringToFrame(w)
         case CloudUp(c) => c == k && out.ToCloud?
         case CloudDown(c) => out.ToCluster? && out.identity == StringToFrame(c)
         case _ => false
  }

  ghost predicate CarriesAll(k: string, outs: seq<Outgoing>, sents: seq<Sent>) {
    |outs| == |sents| && forall i :: 0 <= i < |outs| ==> Carries(k, outs[i], sents[i])
  }

  /** What a poll of a cluster broker finds: on its ROUTER sockets with the sender's identity in front. */
  datatype Polled = Polled(
    backend: Option<(Frame, WireMessage)>,
    frontend: Option<(Frame, WireMessage)>,
    cloud: Option<WireMessage>)
  {
    predicate WellFormed() {
      && (backend.Some? ==> backend.value.1.WellFormed())
      && (frontend.Some? ==> frontend.value.1.WellFormed())
      && (cloud.Some? ==> cloud.value.WellFormed())
    }

    function Read(): Arrivals {
      Arrivals(
        if backend.Some? then Some(backend.value.1.Read()) else None,
        if frontend.Some? then Some(frontend.value.1.Read()) else None,
        if cloud.Some? then Some(cloud.value.Read()) else None)
    }
  }

  function ReadAll(polls: seq<Polled>): seq<Arrivals> {
    seq(|polls|, i requires 0 <= i < |polls| => polls[i].Read())
  }

  class LocalBalanceBroker {
    const clusterName: string
    var workReadyQueue: seq<string>
    var readyWorkerCount: nat
    ghost var marked: seq<string>
    ghost var dispatched: seq<string>
    ghost var lengths: seq<nat>

    ghost predicate Valid()
      reads this
    {
      FitsBuffer(clusterName) && forall w :: w in workReadyQueue ==> FitsBuffer(w)
    }

    ghost function Model(): Broker
      reads this
    {
      Broker(clusterName, workReadyQueue, readyWorkerCount, marked, dispatched, lengths)
    }

    constructor (name: string)
      requires FitsBuffer(name)
      ensures Valid() && Model() == NewBroker(name)
    {
      clusterName := name;
      workReadyQueue, readyWorkerCount := [], 0;
      marked, dispatched, lengths := [], [], [0];
    }

    /** The alive signal to the super broker. */
    method AliveSignal() returns (out: Outgoing)
      requires Valid()
      ensures Carries(clusterName, out, Sent(CloudUp(clusterName), BrokerAlive(clusterName)))
      ensures var m := out.msg.Read().meta;
              m.addr == Addr(clusterName, "", "", "") && m.taskType.AliveSignal? && m.direction.Submit?
    {
      var meta := new TaskMeta.Zeroed();
      CopyStringToBuffer(meta.fromClusterID, clusterName);
      meta.taskType := TaskType.AliveSignal;
      ReadsWhole(clusterName);
      out := ToCloud(WireMessage(meta.Wire(), Blank));
    }

    method PopReady() returns (workerID: string)
      requires Valid() && workReadyQueue != []
      modifies this
      ensures Valid() && Model() == Dispatch(old(Model())) && workerID == old(workReadyQueue)[0]
      ensures FitsBuffer(workerID)
    {
      workerID := workReadyQueue[0];
      workReadyQueue := workReadyQueue[1..];
      readyWorkerCount := Truncate32(|workReadyQueue|);
      dispatched, lengths := dispatched + [workerID], lengths + [|workReadyQueue|];
    }

    method RouteLocalRequest(clientID: Frame, msg: WireMessage) returns (out: Outgoing)
      requires Valid() && msg.WellFormed()
      modifies this
      ensures Valid() && Model() == LocalRequest(old(Model()), msg.Read()).0
      ensures Carries(clusterName, out, LocalRequest(old(Model()), msg.Read()).1)
    {
      var taskMeta := new TaskMeta.FromWire(msg.meta);
      CopyStringToBuffer(taskMeta.fromClusterID, clusterName);
      ReadsWhole(clusterName);
      if |workReadyQueue| > 0 {
        var workerID := PopReady();
        CopyStringToBuffer(taskMeta.toClusterID, clusterName);
        CopyStringToBuffer(taskMeta.toID, workerID);
        ReadsWhole(workerID);
        out := ToBackend(StringToFrame(workerID), WireMessage(taskMeta.Wire(), msg.body));
      } else {
        out := ToCloud(WireMessage(taskMeta.Wire(), msg.body));
      }
    }

    method RouteLocalReply(workerID: Frame, msg: WireMessage) returns (out: Outgoing)
      requires Valid() && msg.WellFormed()
      modifies this
      ensures Valid() && Model() == LocalReply(old(Model()), msg.Read()).0
      ensures Carries(clusterName, out, LocalReply(old(Model()), msg.Read()).1)
    {
      var taskMeta := new TaskMeta.FromWire(msg.meta);
      var from := CString(taskMeta.fromID[..]);
      TerminatedFits(msg.meta.fromID);
      workReadyQueue := workReadyQueue + [from];
      readyWorkerCount := Truncate32(|workReadyQueue|);
      marked, lengths := marked + [from], lengths + [|workReadyQueue|];
      if taskMeta.taskType == TaskType.AliveSignal {
        return Silence;
      }
      var origin := CString(taskMeta.fromClusterID[..]);
      TerminatedFits(msg.meta.fromClusterID);
      CopyStringToBuffer(taskMeta.toClusterID, origin);
      CopyStringToBuffer(taskMeta.fromClusterID, clusterName);
      ReadsWhole(origin);
      ReadsWhole(clusterName);
      var reply := WireMessage(taskMeta.Wire(), msg.body);
      if clusterName == CString(taskMeta.toClusterID[..]) {
        out := ToFrontend(StringToFrame(CString(taskMeta.toID[..])), reply);
      } else {
        out := ToCloud(reply);
      }
    }

    method RouteCloud(msg: WireMessage) returns (out: Outgoing)
      requires Valid() && msg.WellFormed()
      modifies this
      ensures Valid() && Model() == Handlers.RouteCloud(old(Model()), msg.Read()).0
      ensures Carries(clusterName, out, Handlers.RouteCloud(old(Model()), msg.Read()).1)
    {
      var taskMeta := new TaskMeta.FromWire(msg.meta);
      if taskMeta.taskDirection == Submit {
        readyWorkerCount := Truncate32(|workReadyQueue|);
        if readyWorkerCount > 0 {
          var workerID := PopReady();
          CopyStringToBuffer(taskMeta.toClusterID, clusterName);
          CopyStringToBuffer(taskMeta.toID, workerID);
          // The local copy is not written back: the worker gets the message as it came.
          out := ToBackend(StringToFrame(workerID), msg);
        } else {
          SwapBuffer(taskMeta.fromID, taskMeta.toID);
          SwapBuffer(taskMeta.fromClusterID, taskMeta.toClusterID);
          taskMeta.taskDirection := ReplyRejected;
          out := ToCloud(WireMessage(taskMeta.Wire(), Total(0.0)));
        }
      } else {
        out := ToFrontend(StringToFrame(CString(taskMeta.toID[..])), msg);
      }
    }

    /** One iteration of the poll loop. */
    method RunOnce(poll: Polled) returns (out: seq<Outgoing>)
      requires Valid() && poll.WellFormed()
      modifies this
      ensures Valid() && Model() == Turn(old(Model()), poll.Read()).0
      ensures CarriesAll(clusterName, out, Turn(old(Model()), poll.Read()).1)
    {
      readyWorkerCount := Truncate32(|workReadyQueue|);
      var reply, request, cloud := Silence, Silence, Silence;
      if poll.backend.Some? {
        reply := RouteLocalReply(poll.backend.value.0, poll.backend.value.1);
      }
      if poll.frontend.Some? {
        request := RouteLocalRequest(poll.frontend.value.0, poll.frontend.value.1);
      }
      if poll.cloud.Some? {
        cloud := RouteCloud(poll.cloud.value);
      }
      out := [reply, request, cloud];
    }

    /** runTask, for as many iterations as there are polls. */
    method RunTask(polls: seq<Polled>) returns (out: seq<Outgoing>)
      requires Valid() && forall p :: p in polls ==> p.WellFormed()
      modifies this
      ensures Valid() && Model() == Turns(old(Model()), ReadAll(polls)).0
      ensures CarriesAll(clusterName, out, Turns(old(Model()), ReadAll(polls)).1)
    {
      out := [];
      for i := 0 to |polls|
        invariant Valid() && Model() == Turns(old(Model()), ReadAll(polls[..i])).0
        invariant CarriesAll(clusterName, out, Turns(old(Model()), ReadAll(polls[..i])).1)
      {
        assert polls[..i + 1][..i] == polls[..i];
        assert ReadAll(polls[..i + 1])[..i] == ReadAll(polls[..i]);
        var more := RunOnce(polls[i]);
        out := out + more;
      }
      assert polls[..|polls|] == polls;
    }
  }

  /** ClusterStateInfo as the bytes of a message. */
  datatype WireState = WireState(clusterName: seq<char>, readyWorkerCount: nat)

  class ClusterStateReporter {
    const clusterName: array<char>
    var readyWorkerCount: nat

    constructor (name: string)
      requires FitsBuffer(name)
      ensures fresh(clusterName) && Terminated(clusterName[..])
      ensures CString(clusterName[..]) == name && readyWorkerCount == 0
    {
      clusterName := new char[MAX_NAME](_ => NUL);
      readyWorkerCount := 0;
      new;
      CopyStringToBuffer(clusterName, name);
      ReadsWhole(name);
    }

    /** The report bears the reporter's own name, whatever name the argument bears. */
    method SetClusterState(stateInfo: WireState) returns (out: WireState)
      modifies this
      ensures out == WireState(clusterName[..], stateInfo.readyWorkerCount)
      ensures readyWorkerCount == stateInfo.readyWorkerCount
    {
      readyWorkerCount := stateInfo.readyWorkerCount;
      out := WireState(clusterName[..], readyWorkerCount);
    }
  }

  /** What a poll of the super broker finds: a report, and a task with its cluster's identity in front. */
  datatype SuperPolled = SuperPolled(report: Option<WireState>, task: Option<(Frame, WireMessage)>) {
    predicate WellFormed() {
      (report.Some? ==> Terminated(report.value.clusterName)) && (task.Some? ==> task.value.1.WellFormed())
    }

    function Read(): SuperArrivals {
      SuperArrivals(
        if report.Some? then Some(Entry(CString(report.value.clusterName), report.value.readyWorkerCount)) else None,
        if task.Some? then Some(task.value.1.Read()) else None)
    }
  }

  function ReadSuper(polls: seq<SuperPolled>): seq<SuperArrivals> {
    seq(|polls|, i requires 0 <= i < |polls| => polls[i].Read())
  }

  class SuperBroker {
    /** The std::map, as its entries in key order. */
    var clusterInfoMap: seq<Entry>

    ghost predicate Valid()
      reads this
    {
      Sorted(clusterInfoMap) && forall i :: 0 <= i < |clusterInfoMap| ==> FitsBuffer(clusterInfoMap[i].name)
    }

    constructor ()
      ensures Valid() && clusterInfoMap == []
    {
      clusterInfoMap := [];
    }

    method StatePuller(report: WireState)
      requires Valid() && Terminated(report.clusterName)
      modifies this
      ensures Valid()
      ensures clusterInfoMap == Upsert(old(clusterInfoMap), CString(report.clusterName), report.readyWorkerCount)
    {
      var name := CString(report.clusterName);
      TerminatedFits(report.clusterName);
      UpsertSorted(clusterInfoMap, name, report.readyWorkerCount);
      UpsertFits(clusterInfoMap, name, report.readyWorkerCount);
      clusterInfoMap := Upsert(clusterInfoMap, name, report.readyWorkerCount);
    }

    /** The scan over the map, entry by entry. */
    method FindCluster() returns (targetCluster: string, maxCount: nat)
      requires Valid()
      ensures (targetCluster, maxCount) == Scan(clusterInfoMap)
      ensures FitsBuffer(targetCluster)
    {
      targetCluster, maxCount := "", 0;
      var i := 0;
      while i < |clusterInfoMap|
        invariant 0 <= i <= |clusterInfoMap|
        invariant (targetCluster, maxCount) == Scan(clusterInfoMap[..i])
        invariant FitsBuffer(targetCluster)
      {
        var e := clusterInfoMap[i];
        assert Front(clusterInfoMap[..i + 1]) == clusterInfoMap[..i];
        targetCluster := if e.count > maxCount then e.name else targetCluster;
        maxCount := if maxCount < e.count then e.count else maxCount;
        i := i + 1;
      }
      assert clusterInfoMap[..i] == clusterInfoMap;
    }

    method TaskRouter(clusterID: Frame, msg: WireMessage) returns (out: Outgoing)
      requires Valid() && msg.WellFormed()
      ensures Carries("", out, Handlers.TaskRouter(clusterInfoMap, msg.Read()))
    {
      var taskMeta := new TaskMeta.FromWire(msg.meta);
      if taskMeta.taskType == TaskType.AliveSignal {
        return Silence;
      }
      var targetCluster := "";
      if taskMeta.taskDirection == Submit {
        if CString(taskMeta.fromID[..]) == "" || CString(taskMeta.fromClusterID[..]) == "" {
          return Silence;
        }
        var maxCount: nat;
        targetCluster, maxCount := FindCluster();
        if maxCount == 0 || targetCluster == "" {
          SwapBuffer(taskMeta.fromID, taskMeta.toID);
          SwapBuffer(taskMeta.fromClusterID, taskMeta.toClusterID);
          taskMeta.taskDirection := ReplyRejected;
          return ToCluster(StringToFrame(CString(taskMeta.toClusterID[..])), WireMessage(taskMeta.Wire(), Total(0.0)));
        }
      } else {
        targetCluster := CString(taskMeta.toClusterID[..]);
        TerminatedFits(msg.meta.toClusterID);
      }
      CopyStringToBuffer(taskMeta.toClusterID, targetCluster);
      ReadsWhole(targetCluster);
      out := ToCluster(StringToFrame(targetCluster), WireMessage(taskMeta.Wire(), msg.body));
    }

    /** One iteration of the poll loop: a report first, then a task, by the table with the report in it. */
    method RunOnce(poll: SuperPolled) returns (out: Outgoing)
      requires Valid() && poll.WellFormed()
      modifies this
      ensures Valid() && clusterInfoMap == SuperTurn(old(clusterInfoMap), poll.Read()).0
      ensures Carries("", out, SuperTurn(old(clusterInfoMap), poll.Read()).1)
    {
      out := Silence;
      if poll.report.Some? {
        StatePuller(poll.report.value);
      }
      if poll.task.Some? {
        out := TaskRouter(poll.task.value.0, poll.task.value.1);
      }
    }

    /** runTask, for as many iterations as there are polls. */
    method RunTask(polls: seq<SuperPolled>) returns (out: seq<Outgoing>)
      requires Valid() && forall p :: p in polls ==> p.WellFormed()
      modifies this
      ensures Valid() && clusterInfoMap == SuperTurns(old(clusterInfoMap), ReadSuper(polls)).0
      ensures CarriesAll("", out, SuperTurns(old(clusterInfoMap), ReadSuper(polls)).1)
    {
      out := [];
      for i := 0 to |polls|
        invariant Valid() && clusterInfoMap == SuperTurns(old(clusterInfoMap), ReadSuper(polls[..i])).0
        invariant CarriesAll("", out, SuperTurns(old(clusterInfoMap), ReadSuper(polls[..i])).1)
      {
        assert polls[..i + 1][..i] == polls[..i];
        assert ReadSuper(polls[..i + 1])[..i] == ReadSuper(polls[..i]);
        assert polls[i].WellFormed();
        var sent := RunOnce(polls[i]);
        out := out + [sent];
      }
      assert polls[..|polls|] == polls;
    }
  }

  lemma {:induction false} UpsertFits(t: seq<Entry>, name: string, count: nat)
    requires FitsBuffer(name) && forall i :: 0 <= i < |t| ==> FitsBuffer(t[i].name)
    ensures forall i :: 0 <= i < |Upsert(t, name, count)| ==> FitsBuffer(Upsert(t, name, count)[i].name)
  {
    if t != [] && t[0].name != name && !Less(name, t[0].name) {
      UpsertFits(t[1..], name, count);
    }
  }

  class Client {
    const id: string

    constructor (id: string)
      requires FitsBuffer(id)
      ensures this.id == id
    {
      this.id := id;
    }

    /** The message sendRequest sends for a generated task. */
    method BuildRequest(taskID: nat, arr: seq<real>) returns (msg: WireMessage)
      requires FitsBuffer(id)
      ensures msg.WellFormed() && msg.Read() == Request(id, taskID, arr)
      ensures msg.Read() == Message(Meta(Addr("", id, "", ""), taskID, NormalTask, Submit), Numbers(arr))
    {
      var taskMeta := new TaskMeta.Zeroed();
      taskMeta.taskID := taskID;
      CopyStringToBuffer(taskMeta.fromID, id);
      ReadsWhole(id);
      taskMeta.taskDirection := Submit;
      taskMeta.taskType := NormalTask;
      msg := WireMessage(taskMeta.Wire(), Numbers(arr));
    }
  }

  class Worker {
    const id: string
    var workCounter: nat

    constructor (id: string)
      requires FitsBuffer(id)
      ensures this.id == id && workCounter == 0
    {
      this.id := id;
      workCounter := 0;
    }

    method AliveSignal() returns (msg: WireMessage)
      requires FitsBuffer(id)
      ensures msg.WellFormed() && msg.Read() == WorkerAlive(id)
      ensures var m := msg.Read().meta;
              m.addr == Addr("", id, "", "") && m.taskType.AliveSignal? && m.direction.Reply?
    {
      var meta := new TaskMeta.Zeroed();
      CopyStringToBuffer(meta.fromID, id);
      ReadsWhole(id);
      meta.taskDirection := Reply;
      meta.taskType := TaskType.AliveSignal;
      msg := WireMessage(meta.Wire(), Blank);
    }

    /** The loop that does the work. */
    static method SumUp(add: Adder, arr: seq<real>) returns (sum: real)
      ensures SumsTo(add, arr, sum) && sum == FoldLeft(add, arr)
    {
      sum := 0.0;
      for i := 0 to |arr|
        invariant sum == FoldLeft(add, arr[..i])
      {
        assert arr[..i + 1][..i] == arr[..i];
        sum := add(sum, arr[i]);
      }
      assert arr[..|arr|] == arr;
      FoldSums(add, arr, sum);
    }

    method Process(add: Adder, msg: WireMessage) returns (reply: WireMessage)
      requires FitsBuffer(id) && msg.WellFormed()
      modifies this
      ensures reply.WellFormed() && reply.Read() == Handlers.Process(add, id, msg.Read())
      ensures reply.body.Total? && SumsTo(add, NumbersOf(msg.body), reply.body.sum)
      ensures workCounter == Truncate32(old(workCounter) + 1)
    {
      hide Copied, FoldLeft;
      var taskMeta := new TaskMeta.FromWire(msg.meta);
      var client := CString(taskMeta.fromID[..]);
      TerminatedFits(msg.meta.fromID);
      CopyStringToBuffer(taskMeta.toID, client);
      CopyStringToBuffer(taskMeta.fromID, id);
      ReadsWhole(client);
      ReadsWhole(id);
      taskMeta.taskDirection := Reply;

      var sum := SumUp(add, NumbersOf(msg.body));
      reply := WireMessage(taskMeta.Wire(), Total(sum));
      workCounter := Truncate32(workCounter + 1);
    }
  }
}
