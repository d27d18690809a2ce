# Verification of the SimTools messaging examples

Dafny models of the message-passing programs under `cppzmq_playground`, and proofs of what their runs keep.
`dafny verify dfyconfig.toml` checks everything.

## The two-tier data center

Clients and workers attach to the broker of their cluster. A broker that has no ready worker sends a request up
to the super broker, which offers it to the cluster whose last report was best. No broker remembers a request: only
the four address fields of `TaskMeta`, rewritten at each hop, bring the answer home.

* `Messages`, `ClusterTable`, `Handlers`: the messages as strings and numbers, the super broker's report table, and
  one function for each handler: its new state and the one message it sends.
* `TwoTier`: the state machine. A state holds every client, every broker, the super broker's table and every message
  in flight; an action is one handler run to its end, a request, a start, or one stage of the report path. `net` lists
  the messages in the order they were sent, and each link delivers oldest first. Any number of clusters, clients and
  workers take part, and actions interleave in any order. Fields called `serial`, `hops`, `at`, `marked`,
  `dispatched`, `lengths`, `sampled`, `pulled` and `pulls` are history that no handler reads. A hop records what its handler
  found (the ready queue, the table), before anything is decided.
* `Routes`: what a message carries on each link for each stage of a request. `Invariant`: the invariant and the proof
  that every action keeps it. `Delivery`, `Guarantees`, `ReadyQueues`, `Staleness`: what follows for reachable states
  and whole runs. `MetTables`: what the tables that requests met at the super broker say of the queues' histories.
* `Witnesses`: two concrete runs, one that meets the bound of eight deliveries, one that rejects a request while the
  only worker there is stands ready.
* `NameBuffers`, `Brokers`: the same handlers as methods of classes that push and pop their queue, update their
  counter and their table, and rewrite 32-byte buffers in place, and the poll loops that call them. Their contracts
  say that state and message, read as strings, are those of the handler functions that the state machine uses.
* `Loops`: an iteration of either broker's poll loop is a few actions of the state machine, each of them possible.

## The other programs

* `Framing`, `LoadBalance`, `PollLoop`: the single-tier balancer, which leaves requests unread while it has no worker:
  its frames, its runs, and its poll loop. The broker of `LoadBalance` makes its messages of the very frames that
  `Framing` receives, keeps those left over, and waits for the rest of a message; clients and workers may have
  any names, `WORKER_ALIVE` included. `PollLoop` shows that the loop's iterations are that broker's deliveries.
* `TopicStore`: blocking calls on a topic store. `ScatterGather`: tasks pushed to workers, results summed by a sink.
* `Logs`: sums and selections over sequences, used for all counting.

## Assumptions

Each connection is a reliable FIFO queue of whole multipart messages, no high-water mark is reached, a ROUTER puts
the sender's identity in front and drops what is for an unknown peer (sections "The DEALER Socket Type" and "The
ROUTER Socket Type" of ZeroMQ RFC 28). Cluster names are distinct, non-empty, free of NULs and at most 31 bytes, and
so are the ids of clients and workers within a cluster; a cluster has fewer than 2^32 workers, as `workerNum` is a
`uint32_t`. Protobuf encoding and decoding are inverse. Doubles are reals under an arbitrary addition function, so
every sum is the left-to-right fold that the loops compute, whatever rounding does.

Four conditions turn out to be exact:

* Frames of the single-tier balancer are read back if and only if no result is for a client called `WORKER_ALIVE`.
* The single-tier balancer conserves its messages, never locks up, and rests only with every request answered, if and
  only if no client is called `WORKER_ALIVE` (or there is no worker at all). The source accepts that name; a result
  for such a client is taken for an alive signal, and its last frame is left to be read as the next worker's identity.
* Gets return the latest set on their topic, over all histories, if and only if the topics in use have no NUL.
* The super broker refuses a request if and only if no count is positive or a cluster without a name would win.

## Model

| member | source | states |
|---|---|---|
| Guarantees.ExactlyOneMessage | cppzmq_playground/data_center/cluster_broker.cpp:37-86 | in every reachable state a client that waits owns exactly one message in flight and any other client none, and its answers came one for each request in order |
| Guarantees.AnswersFitRequests | cppzmq_playground/data_center/cluster_broker.cpp:59-82 | every answer a client has received fits its own request: same task id, addressed to it, the last of the running sums that start from zero and add its numbers once each in order, computed once by the worker and cluster that `from` names, or a rejection nobody executed; with the full route taken |
| Guarantees.RejectionJustified | cppzmq_playground/data_center/super_broker.cpp:83-118 | a rejected request found no ready worker at home, and either no positive count in the table or no ready worker in the cluster with the best count |
| MetTables.TableTells | cppzmq_playground/data_center/super_broker.cpp:39-53 | a table the super broker had after some number of reports lists exactly the clusters that had reported, each with the length its queue really had when the last of those reports was taken |
| MetTables.ReachableTables | cppzmq_playground/data_center/super_broker.cpp:73-92 | each table that a message in flight or an answer met at the super broker is what exactly the reports pulled until that moment make |
| MetTables.RejectionsAreExcusable | cppzmq_playground/data_center/super_broker.cpp:83-118 | the request of each rejection a client received met the table made of the reports pulled until then, and by these either all clusters had last reported an empty queue, or the best of them, by true lengths and least name, had no ready worker when the request came |
| Guarantees.RouteBounded | cppzmq_playground/data_center/cluster_broker.cpp:250-425 | an answer took 4, 6 or 8 deliveries including receipt, and passed the super broker at most twice |
| Guarantees.InFlightBounded | cppzmq_playground/data_center/cluster_broker.cpp:250-425 | wherever a message of a client is, the deliveries behind it and those it may still need are at most eight, and it passed the super broker at most twice |
| Guarantees.RoutingSound | cppzmq_playground/data_center/super_broker.cpp:73-82 | every message is on a link with an end; what comes down from the cloud names that cluster, and a waiting client of it if it is an answer; no null task reaches the super broker |
| Guarantees.NothingDropped | cppzmq_playground/data_center/super_broker.cpp:120-144 | every handler of a task message sends exactly one message on, which belongs to the same client |
| Invariant.StepKeepsInv | cppzmq_playground/data_center/cluster_broker.cpp:37-425 | every action keeps the invariant over all messages, clients, workers, brokers and reports |
| Invariant.ReachableInv | cppzmq_playground/data_center/cluster_broker.cpp:460-511 | the invariant holds in every state reachable from any configured site |
| Invariant.ReadyBounded | cppzmq_playground/data_center/cluster_broker.cpp:388-390 | a ready queue is never longer than the cluster has workers |
| Routes.FrontendForwards | cppzmq_playground/data_center/cluster_broker.cpp:328-376 | what routeLocalRequest sends fits the request it got, on the link of the head worker or of the cloud |
| Routes.WorkerForwards | cppzmq_playground/data_center/cluster_broker.cpp:127-163 | a worker's reply carries the fold of the numbers and names client and worker |
| Routes.BackendForwards | cppzmq_playground/data_center/cluster_broker.cpp:377-425 | routeLocalReply sends the reply to the client here, or up to the cloud when the request came from elsewhere |
| Routes.SuperForwardsRequest | cppzmq_playground/data_center/super_broker.cpp:73-144 | taskRouter sends a request to the chosen cluster, or a rejection to where it came from |
| Routes.SuperForwardsReply | cppzmq_playground/data_center/super_broker.cpp:120-144 | taskRouter sends a reply or rejection on to its client's cluster |
| Routes.CloudForwards | cppzmq_playground/data_center/cluster_broker.cpp:250-327 | routeCloud gives a request to the head worker, refuses it when there is none, and passes answers to the client |
| Delivery.DeliveryLowersPotential | cppzmq_playground/data_center/cluster_broker.cpp:250-425 | every delivery lowers the sum of what all messages in flight may still need |
| Delivery.EightDeliveriesPerRequest | cppzmq_playground/data_center/cluster_broker.cpp:37-425 | over any run from the start, deliveries number at most eight for each request and one for each alive signal |
| Delivery.NeverStuck | cppzmq_playground/data_center/cluster_broker.cpp:59-62 | while a client waits, some delivery can be made |
| Delivery.QuietMeansAnswered | cppzmq_playground/data_center/cluster_broker.cpp:37-86 | once nobody sends, whatever reports and starts go on, deliveries in any order end within a known bound plus one for each start, and when none is left every client has all its answers |
| Delivery.LinksAreFifo | cppzmq_playground/data_center/cluster_broker.cpp:361-371 | a delivery takes the head of one link's queue and appends at most one packet, to one other; no further link changes |
| Witnesses.EightIsReached | cppzmq_playground/data_center/cluster_broker.cpp:250-425 | the bound is met: with two clusters of any names, some run serves a request in the other cluster and takes all eight deliveries |
| Witnesses.RejectedWhileIdle | cppzmq_playground/data_center/super_broker.cpp:92-117 | a concrete run rejects a request while the only worker is ready and unreported |
| ReadyQueues.WorkerInOnePlace | cppzmq_playground/data_center/cluster_broker.cpp:100-163 | a started worker is in exactly one of four places: ready queue, task on the way, alive signal on the way, reply on the way |
| ReadyQueues.WorkersAddUp | cppzmq_playground/data_center/cluster_broker.cpp:388-396 | the ready queue has no repetition, and with the messages on the backend links it adds up to the workers started |
| ReadyQueues.LeastRecentlyReadyFirst | cppzmq_playground/data_center/cluster_broker.cpp:343-349 | over any run, workers dispatched are a prefix of workers marked ready, and the queue is the rest |
| ReadyQueues.LoopStaysSound | cppzmq_playground/data_center/cluster_broker.cpp:227-248 | any number of poll-loop iterations keep the counter exact and dispatch in order of readiness |
| Loops.TurnIsDeliveries | cppzmq_playground/data_center/cluster_broker.cpp:227-248 | one loop iteration on the oldest packets of the links it found readable is at most three deliveries of the state machine, each possible in turn, with the same broker and the same messages sent |
| Loops.LoopIsRun | cppzmq_playground/data_center/cluster_broker.cpp:217-249 | runTask as a whole, its iterations interleaved with anything else, is a run of the state machine that leaves the broker as the loop does on the polls it met, and sends its messages iteration by iteration |
| Handlers.TurnsInOrder | cppzmq_playground/data_center/cluster_broker.cpp:217-249 | the loop handles every poll once and in order, each with the broker the one before left, and sends what these turns send and nothing else |
| Handlers.TurnRecounts | cppzmq_playground/data_center/cluster_broker.cpp:229 | an iteration leaves the counter exact, whatever it was before |
| Handlers.HandlersRecount | cppzmq_playground/data_center/cluster_broker.cpp:262-269 | handlers leave the counter at the queue's length as a uint32_t; routeCloud dispatches exactly when that is not zero |
| Handlers.WhatIsDropped | cppzmq_playground/data_center/super_broker.cpp:73-82 | only alive signals are not sent on, and at the super broker requests that lack a `from` field |
| Loops.SuperTurnIsSteps | cppzmq_playground/data_center/super_broker.cpp:22-36 | one loop iteration of the super broker is at most one pull and one delivery, with the same table and the same message sent |
| Handlers.SuperTurnsInOrder | cppzmq_playground/data_center/super_broker.cpp:21-38 | the super broker's loop handles every poll once and in order, each with the table the one before left |
| Staleness.ReportsAreStaleButTrue | cppzmq_playground/data_center/cluster_state.cpp:33-56 | the reports the super broker has of a cluster are the first the cluster took, each a length its queue really had, at times that never go back, bounded by its workers; the counter equals the queue length |
| ClusterTable.ChoiceIsBest | cppzmq_playground/data_center/super_broker.cpp:83-92 | the choice is the name that comes first byte by byte among those with the largest positive count; refusal exactly when all counts are zero or the empty name would win |
| ClusterTable.LessIsByteOrder | cppzmq_playground/data_center/super_broker.cpp:84-90 | the order of the map's keys is that of their first differing byte, or of length when one begins the other |
| ClusterTable.ScanFindsBest | cppzmq_playground/data_center/super_broker.cpp:84-90 | the in-order scan ends with the largest count and the name that comes first, byte by byte, of those that have it |
| ClusterTable.OnlyLatestReportsMatter | cppzmq_playground/data_center/super_broker.cpp:48-49 | two histories of reports that end alike for each cluster give the same table and choice |
| ClusterTable.UpsertView | cppzmq_playground/data_center/super_broker.cpp:48-49 | storing a report changes the entry of its cluster and no other |
| Handlers.ToFieldsIrrelevant | cppzmq_playground/data_center/cluster_broker.cpp:146-149 | a cluster's reply does not depend on the `to` fields of the task its worker got |
| Handlers.CopyingBackIrrelevant | cppzmq_playground/data_center/cluster_broker.cpp:274-281 | that routeCloud forwards the message without its address updates changes no broker, worker or reply |
| NameBuffers.CopyStringToBuffer | cppzmq_playground/data_center/cluster_core.cpp:28-31 | the buffer's bytes afterwards; it is terminated and reads as the string up to its first NUL |
| NameBuffers.SwapBuffer | cppzmq_playground/data_center/cluster_core.cpp:22-27 | the two buffers exchange all their bytes |
| NameBuffers.CopiedReads | cppzmq_playground/data_center/cluster_core.cpp:28-31 | whatever stale bytes a buffer held, it reads as the copied string exactly when that has no NUL |
| NameBuffers.FramesAddressOnePeer | cppzmq_playground/data_center/cluster_core.cpp:5-31 | a name copied into a stale buffer, read back and made into a frame is a peer's registered identity exactly when the name is that peer's id; an id with a NUL cannot be addressed |
| NameBuffers.FramesReadBack | cppzmq_playground/data_center/cluster_core.cpp:5-20 | a string is read back from its frame, and a frame is rebuilt from its string exactly when it ends with a NUL |
| NameBuffers.TaskMeta.FromWire | cppzmq_playground/data_center/cluster_broker.cpp:256-258 | a received meta frame is copied into fresh buffers byte by byte |
| Brokers.LocalBalanceBroker.constructor | cppzmq_playground/data_center/cluster_broker.cpp:171-174 | a broker starts with an empty queue and a zero counter |
| Brokers.LocalBalanceBroker.AliveSignal | cppzmq_playground/data_center/cluster_broker.cpp:196-207 | the bytes of the broker's alive signal read as the signal of its cluster |
| Brokers.LocalBalanceBroker.PopReady | cppzmq_playground/data_center/cluster_broker.cpp:345-349 | the head worker leaves the queue, counter and histories follow |
| Brokers.LocalBalanceBroker.RouteLocalRequest | cppzmq_playground/data_center/cluster_broker.cpp:328-376 | the in-place method refines the handler: queue, counter, address frame and message |
| Brokers.LocalBalanceBroker.RouteLocalReply | cppzmq_playground/data_center/cluster_broker.cpp:377-425 | the in-place method refines the handler, alive signals included |
| Brokers.LocalBalanceBroker.RouteCloud | cppzmq_playground/data_center/cluster_broker.cpp:250-327 | the in-place method refines the handler: dispatch of the message as it came, rejection by swapping buffers, reply to a client |
| Brokers.LocalBalanceBroker.RunOnce | cppzmq_playground/data_center/cluster_broker.cpp:227-248 | one iteration recounts and runs the handlers whose sockets are readable: replies, then requests, then cloud |
| Brokers.LocalBalanceBroker.RunTask | cppzmq_playground/data_center/cluster_broker.cpp:217-249 | the loop, over the polls of any number of iterations, refines the run of the handlers: final state and every message sent, in order |
| Brokers.SuperBroker.StatePuller | cppzmq_playground/data_center/super_broker.cpp:39-53 | a report replaces the entry of the cluster its buffer names |
| Brokers.SuperBroker.FindCluster | cppzmq_playground/data_center/super_broker.cpp:83-90 | the loop over the map computes the scan |
| Brokers.SuperBroker.TaskRouter | cppzmq_playground/data_center/super_broker.cpp:54-145 | the in-place method refines the handler: alive signal, null task, rejection, routing |
| Brokers.SuperBroker.RunOnce | cppzmq_playground/data_center/super_broker.cpp:22-36 | a report that arrives with a task is stored before the task is routed |
| Brokers.SuperBroker.RunTask | cppzmq_playground/data_center/super_broker.cpp:21-38 | the loop, over the polls of any number of iterations, refines the run of the handlers |
| Brokers.ClusterStateReporter.constructor | cppzmq_playground/data_center/cluster_state.cpp:3-11 | the reporter's buffer reads as its cluster's name, with count zero |
| Brokers.ClusterStateReporter.SetClusterState | cppzmq_playground/data_center/cluster_state.cpp:51-56 | a report bears the reporter's own name and the count given |
| Brokers.Client.BuildRequest | cppzmq_playground/data_center/cluster_broker.cpp:37-55 | the bytes sent read as a request from this client with the generated id and numbers |
| Brokers.Worker.AliveSignal | cppzmq_playground/data_center/cluster_broker.cpp:100-111 | the bytes sent read as the alive signal of this worker |
| Brokers.Worker.SumUp | cppzmq_playground/data_center/cluster_broker.cpp:151-155 | the loop over the numbers ends where the running sums from zero end |
| Messages.FoldSums | cppzmq_playground/data_center/cluster_broker.cpp:151-155 | the fold is exactly where the running sums end: from zero, each number added once, in order |
| Brokers.Worker.Process | cppzmq_playground/data_center/cluster_broker.cpp:127-165 | the in-place method refines the handler: buffers, direction and sum; the counter wraps at 32 bits |
| Framing.FramingRoundTrip | cppzmq_playground/load_balance/load_balance.cpp:235-255 | frame-by-frame receiving recovers exactly the messages workers sent, with none left over, if and only if no result is for a client called WORKER_ALIVE |
| Framing.ReceivedAsWritten | cppzmq_playground/load_balance/load_balance.cpp:134-137 | the bytes of an alive signal and of a result, identity in front, are received as just that signal and that result |
| Framing.AmbiguousClientMisread | cppzmq_playground/load_balance/load_balance.cpp:248-251 | the concrete stream on which it fails |
| LoadBalance.AmbiguousClientLosesRequest | cppzmq_playground/load_balance/load_balance.cpp:243-251 | a run of any deployment with a worker and a client called WORKER_ALIVE that loses the client's request and leaves the broker with one frame |
| LoadBalance.LostIsStuck | cppzmq_playground/load_balance/load_balance.cpp:225-241 | in the state it ends in, the client waits, a worker has started, and nothing can be delivered |
| LoadBalance.BalancerConserves | cppzmq_playground/load_balance/load_balance.cpp:92-112 | in every reachable state each answer holds its own request's task id and type and the last of its numbers' running sums, a waiting client owns one message and any other none, and each started worker is in one place: if and only if no client is called WORKER_ALIVE or nobody works |
| LoadBalance.Worker.ProcessImp | cppzmq_playground/load_balance/load_balance.cpp:170-183 | the result has the task's id and type and the sum its loop computes; the counter wraps at 32 bits |
| LoadBalance.NobodyUnknown | cppzmq_playground/load_balance/load_balance.cpp:257-280 | in every reachable state, whatever names are in use, a message in flight is for a client there is or a worker that has connected |
| LoadBalance.NoDeadlock | cppzmq_playground/load_balance/load_balance.cpp:225-233 | in every reachable state with a started worker and a waiting client some message can be taken, although requests are left unread while no worker is ready: if and only if no client is called WORKER_ALIVE or nobody works |
| LoadBalance.RestMeansAnswered | cppzmq_playground/load_balance/load_balance.cpp:218-286 | in every reachable state with a started worker and nothing to deliver, every request has its own answer: if and only if no client is called WORKER_ALIVE or nobody works |
| LoadBalance.DeliveriesBounded | cppzmq_playground/load_balance/load_balance.cpp:235-283 | over any run, misread frames and iterations that go on from them to a request included, at most four deliveries for each request and one for each start, besides what was in flight or left over |
| LoadBalance.ResultPassedOn | cppzmq_playground/load_balance/load_balance.cpp:243-259 | a result marks its worker ready; exactly when its client is not called WORKER_ALIVE it goes to that client, and exactly when it is, nothing is sent and its frame is left to be read |
| PollLoop.BalanceBroker.Serve | cppzmq_playground/load_balance/load_balance.cpp:214-287 | the loop with its poll results and its early continue computes the run of iterations; front and pop never meet an empty queue |
| PollLoop.IterationKeepsRules | cppzmq_playground/load_balance/load_balance.cpp:225-283 | an iteration that finds no ready worker takes no request; any other serves the head of the queue |
| PollLoop.LoopKeepsRules | cppzmq_playground/load_balance/load_balance.cpp:218-286 | over any run of the loop, each request taken finds a worker and goes to the one longest ready |
| PollLoop.ServedConcat | cppzmq_playground/load_balance/load_balance.cpp:218-286 | to run some iterations and then more is to run all of them: none is skipped, cut short otherwise, or repeated |
| PollLoop.DeliveryIsIterations | cppzmq_playground/load_balance/load_balance.cpp:235-283 | a delivery to the broker, with any frames left over before it, changes queue and messages as the iterations that read it do |
| PollLoop.IterationIsDeliveries | cppzmq_playground/load_balance/load_balance.cpp:235-283 | an iteration that reads what has arrived, with any frames left over before it, is in queue and messages sent one delivery, or two that can both be made when it goes on from a result to a request |
| TopicStore.ServiceImp_A.GetMessageByTopic | cppzmq_playground/dummy_rpc_dealer_router/sync_rpc.cpp:256-262 | the payload stored under the topic, or empty |
| TopicStore.ServiceImp_A.SetMessageByTopic | cppzmq_playground/dummy_rpc_dealer_router/sync_rpc.cpp:263-269 | the payload is stored under the topic and nothing else changes |
| TopicStore.ServiceImp_A.DispatchCall | cppzmq_playground/dummy_rpc_dealer_router/sync_rpc.cpp:227-248 | store and reply frame after a call by function name |
| TopicStore.Server.Serve | cppzmq_playground/dummy_rpc_dealer_router/sync_rpc.cpp:194-225 | calls are dispatched one after the other, each response under its caller's identity |
| TopicStore.CallsTakeEffectOnce | cppzmq_playground/dummy_rpc_dealer_router/sync_rpc.cpp:86-168 | each completed call took effect at one dispatch of its own, between invocation and response, and returned what earlier dispatches left under its topic |
| TopicStore.RealTimeOrder | cppzmq_playground/dummy_rpc_dealer_router/sync_rpc.cpp:203-224 | a call that ended before another began was dispatched before it |
| TopicStore.ServerRunsLog | cppzmq_playground/dummy_rpc_dealer_router/sync_rpc.cpp:203-224 | in every reachable state the store and all replies are those of the server's loop run on the calls dispatched so far, in order |
| TopicStore.CallsCanComplete | cppzmq_playground/dummy_rpc_dealer_router/sync_rpc.cpp:110-118 | while a client blocks in a call, its call can be dispatched or its response received |
| TopicStore.TwoStepsPerCall | cppzmq_playground/dummy_rpc_dealer_router/sync_rpc.cpp:86-168 | over any run each call takes one dispatch and one receipt, so that completed and open steps balance |
| TopicStore.GetsLatestSet | cppzmq_playground/dummy_rpc_dealer_router/sync_rpc.cpp:256-269 | with set topics free of NULs, a completed get returns the payload of the latest set on its topic, or empty |
| TopicStore.LatestSetIsLast | cppzmq_playground/dummy_rpc_dealer_router/sync_rpc.cpp:263-269 | the latest set on a topic is the payload of the last set in the log with that topic |
| TopicStore.LastStoredIsLast | cppzmq_playground/dummy_rpc_dealer_router/sync_rpc.cpp:263-269 | what earlier dispatches left under a name is the payload of the last set whose topic, cut at its first NUL, is that name |
| TopicStore.GetsLatestExactly | cppzmq_playground/dummy_rpc_dealer_router/sync_rpc.cpp:86-168 | over all histories whose sets and gets keep to given topics, every get returns the latest set if and only if cutting a set's topic at its first NUL never makes or breaks a match with a get's topic |
| TopicStore.GetsLatestWhenNulFree | cppzmq_playground/dummy_rpc_dealer_router/sync_rpc.cpp:86-168 | with the same topics for both, that holds if and only if none of the topics has a NUL |
| TopicStore.SetReadsBack | cppzmq_playground/dummy_rpc_dealer_router/sync_rpc.cpp:141-144 | a set reads back for every store and payload if and only if its topic has no NUL |
| ScatterGather.MassConserved | cppzmq_playground/simple_push_pull/tasks_core.cpp:100-116 | collected, results, halves of tasks and halves unsent keep their total over any run |
| ScatterGather.SinkTotal | cppzmq_playground/simple_push_pull/tasks_core.cpp:55-70 | once all results are in, which is so after exactly three steps for each task, the sum is the quarter of (count - 1) squared, rounded down, in size_t arithmetic; until then some step is possible |
| ScatterGather.RunTakesSteps | cppzmq_playground/simple_push_pull/tasks_core.cpp:28-70 | every step of any run lowers by one what is left to do |
| ScatterGather.TotalOfHalves | cppzmq_playground/simple_push_pull/tasks_core.cpp:34-38 | the halves of all tasks sum to the quarter of (count - 1) squared, rounded down |
| ScatterGather.DistributeTasks | cppzmq_playground/simple_push_pull/tasks_core.cpp:28-42 | the loop pushes 0 up to count - 1 in order |
| ScatterGather.CollectResults | cppzmq_playground/simple_push_pull/tasks_core.cpp:55-70 | the loop's sum is that of the results pulled, in size_t arithmetic |

## Left out

- How often a request is rejected while some worker is idle (`Witnesses.RejectedWhileIdle` shows that it happens): it depends on timing.
- Sockets, ports, threads, sleeps, timeouts, start and stop, logging, and the generation of random tasks, which are arbitrary inputs here.
- NameBuffers.CopyStringToBuffer: requires a string that fits the 32-byte buffer, because the source's `memcpy` is undefined for a longer one.
- Message loss, peer crashes and restarts.
- The memory layout of `TaskMeta` and `TaskRequest`: `memcpy` of a whole structure is a copy of its fields, and only the name buffers are bytes.
- The order in which one poll-loop iteration runs its handlers is not a restriction in the state machine, which runs handlers one at a time in any order; whether a poll finds a socket readable is an input of the loop methods.
- The loops of `OneCluster::runTask` and `ClusterStateReporter::runTask`: each turn of them is one action of the state machine.
- Reading `readyWorkerCount_` in the middle of a handler: the value is the one before or after that handler.
- Connection set-up: a site's clients, workers and brokers are known to each other's sockets from the start.
- TopicStore.Dispatch: a call with a body that does not belong to its function name, which neither client function sends, leaves the store as it is; what Protobuf makes of such a body is not modelled.
- `dummy_proxy`, `dummy_async_server`, `inproc`, the weather and request/response examples, gRPC, Thrift, Django and SimRunner: library behaviour or plumbing.
