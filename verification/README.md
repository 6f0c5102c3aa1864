# Multi-Ops: a verified model of its protocol and stores

Multi-Ops has three tiers: a master, a gateway and many agents. The master sends a
script to many agents at once; the gateway routes each copy through a registry of live
agent connections; agents run the script concurrently and answer; the gateway stamps
the answer with the id of the connection it came in on; the master files it in a bounded
history. Around this the master keeps an inventory of machines, limits requests per IP,
and checks one-time codes and session tokens; agents guard the paths they write to.

This project models that behaviour in Dafny and proves properties of it.

## How it is organised

| file | subject |
|---|---|
| `Cluster.dfy`, `ClusterConservation.dfy`, `ClusterCorrelation.dfy` | batch execution end to end as one step machine, and its invariants over every run |
| `ClusterRuns.dfy`, `ClusterCompletion.dfy`, `ClusterLink.dfy` | runs that exist: a whole fan-out, the orders of a link routed, an order answered and filed; when "completed" can be trusted; when the master loses a link it still reads |
| `GatewayMachine.dfy`, `Registry.dfy` | the gateway's goroutines, step by step: registry, reader phases, master link |
| `GatewayManager.dfy`, `Master.dfy`, `Agent.dfy`, `Wire.dfy` | the mutable objects and loops of the three programs, each proved against functions |
| `EndToEnd.dfy` | what the messages of one program mean to the next: requests, answers, registers, metrics, heartbeats |
| `History.dfy` | the bounded execution history, its object and its laws |
| `MachineStore.dfy`, `StoreRuns.dfy` | the inventory of machines, its objects and its laws over any run |
| `RateLimiter.dfy` | the per-IP limiter, its object, its refinement and its bounds |
| `Totp.dfy`, `Jwt.dfy`, `BitGroups.dfy`, `Bits.dfy`, `Strings.dfy` | one-time codes, tokens, and the encodings below them |
| `PathGuard.dfy` | what the agent's path check lets through |

Code that changes state in place is a class with methods; each method's contract gives
the new state as a function of the old one, and the laws are lemmas about sequences of
those functions. Interleavings are covered by the two step machines, whose registry and
history steps are the same functions that the class methods are proved against:
`Registry.Registered`, `Unregistered` and `Displaced`, `History.Added` and `Updated`,
`StoreRuns.Changed`, `RateLimiter.Allowed` and `Swept`. Where a read loop handles a
sequence of messages, a lemma shows that it continues such a run
(`Master.InboxExtendsStoreRun`, `Master.InboxExtendsHistoryRun`). Three lemmas tie the
cluster's steps to the handlers' messages: `Master.SendStepsAreFanOut` for the fan-out,
with any choice of failing writes, `EndToEnd.RouteStepsAreLoop` for the gateway's routing
loop, and `Agent.AnswerReachesRecord` for the way back. `EndToEnd.EveryParcelIsAnswered`
joins them: whatever order is with an agent in a reachable state is a message of a fan-out,
and the agent answers it.

## What the code keeps, and what it does not

- **Correlation and conservation.** In every reachable state, under any interleaving,
  loss, reconnect, stale unregister and eviction, a result on file is the outcome of a
  listed agent's own run of the record's own script, and every listed occurrence of an
  agent is in exactly one place: to be sent, on its way, running, on its way back,
  handled, or lost.
- **"completed" means answered at least once**, not that every listed agent answered.
  `UpdateResult` looks at the results received so far (internal/master/store/history.go:69),
  so a record is completed from the first answer on (`CompletedMeansAnswered`).
  `CompletedMeansAllExactly` says for which requests the two are the same in every
  reachable state: exactly those whose list names no two different agents. For every other
  list `UnlikeIsNot` builds a run after which one listed agent has answered, another one's
  order was lost, and the record is completed. `MissingAnswersAreLosses` says which listed
  agents have no result once a request is quiet.
- **A stale reader can unregister a newer connection**, because `UnregisterAgent` deletes
  by id (internal/gateway/proxy/proxy.go:44-49). `StaleReaderUnregistersNewer` gives such a
  run. `LiveStayRegisteredExactly` says that every live connection is registered throughout
  a run exactly when no reader unregisters its id while the registry names another, live
  connection for it. The other direction, that the registry names only connections with a
  live reader, holds in every run.
- **A stale reader clears a newer link at the master**, because `ClearConn` clears whatever is
  current (internal/master/ws/ws.go:105-109). `StaleReaderMutes` gives a run after which the
  master serves the gateway's new link and drops everything it sends; `NeverMuteExactly` says
  that this happens exactly when a reader leaves while another link is served.
- **Rate 0 admits one request per window**, since the first request is never compared with
  the rate (internal/master/middleware/middleware.go:124-127). `BareBoundExactly` says that
  the sliding bound holds with the configured rate exactly when that is at least 1; with
  `Quota`, which is the rate or 1, all results hold for every rate. The bound proved for
  k windows is one below (k+1) quotas. `SlidingBoundIsTight` says for which k some traffic
  reaches it: exactly those up to the length of a window in nanoseconds, and one more when
  a window admits a single request.
- **One-time codes before second 30 of 1970.** The step before is a negative time, which
  wraps around to a huge counter; `NeighbourCounter` says exactly when.
- **A group with nobody online falls through to everybody online**
  (internal/master/api/api.go:212-217), so naming a group does not confine a batch to it.
  `GroupConfinesExactly` says when it does: when somebody of the group is online or nobody
  outside it is. `GroupFallsThrough` gives an inventory for which it does not.

## Assumptions

- HMAC, the JSON codec of the claims and the result of running a script are parameters:
  any function with the right result type. For tokens, decoding the encoded claims is
  assumed to give them back.
- Request ids are fresh, and each process reads a clock that does not go back.
- Agents follow cmd/agent/main.go. A write can fail at any time and anything in flight can
  be lost at any time; channels deliver in any order, which covers the order they have.
- A register counts as handed to a link once it is passed to the link that is current when
  it is sent.
- Strings of scripts, secrets, tokens and paths are sequences of one-byte characters.

## Model

| member | source | states |
|---|---|---|
| ClusterCorrelation.Correlation | internal/master/api/api.go:219-246 | in every reachable state each result on file belongs to a listed agent and is the outcome of that agent's run of the record's own script and timeout, asked for on a connection accepted under its id |
| ClusterCorrelation.MissingAnswersAreLosses | internal/master/api/api.go:501-513 | once nothing of a retained request is in flight for an agent, it has a result iff fewer of its occurrences were lost than are listed; without loss the agents with a result are exactly the listed ones |
| ClusterCorrelation.CompletedMeansAnswered | internal/master/store/history.go:67-79 | in every reachable state a record is completed iff its finish time is set iff at least one answer to it was handled |
| ClusterCompletion.CompletedMeansAllExactly | internal/master/store/history.go:67-79 | in every reachable state completed records of a request show a result of every listed agent iff the list names no two different agents |
| ClusterCompletion.UnlikeIsNot | internal/master/store/history.go:67-79 | for every list with two different agents there is a reachable state with its record completed and one of them without a result |
| ClusterCompletion.OneAnswerCompletes | internal/master/api/api.go:501-513 | for any listed agent, a run in which its answer alone arrives and completes the record |
| ClusterCompletion.AlikeIsEnough | internal/master/store/history.go:67-79 | a completed record whose list names one agent only shows that agent's result |
| EndToEnd.FanOutIsAnswered | internal/master/api/api.go:239-246 | there are as many messages as listed agents, the k-th names the k-th agent, and that agent answers it with exactly one exec response of this request id and the outcome of the script and timeout |
| EndToEnd.OnlyRequestsAreAnswered | cmd/agent/main.go:190-195 | an agent answers a message iff it is an exec request that decodes |
| EndToEnd.ParcelIsFanOut | internal/master/api/api.go:242-246 | in every reachable state an order that is with its agent is a message of the fan-out of an issued request |
| EndToEnd.EveryParcelIsAnswered | cmd/agent/main.go:274-288 | in every reachable state, with the way back open, the steps that bring the answer to such an order into the history exist, for the message its agent got from the fan-out |
| ClusterCorrelation.RunKeepsAllOk | internal/master/api/api.go:242-246 | orders, runs, answers, history and records stay consistent along every run of the cluster |
| ClusterCorrelation.StepKeepsOrdersOk | internal/master/api/api.go:239-246 | at every stage an order carries its own request's script and timeout to one of its listed agents |
| ClusterCorrelation.StepKeepsRunsOk | cmd/agent/main.go:274-288 | whatever runs on an agent is an issued request that lists it, received on a connection of its own |
| ClusterCorrelation.StepKeepsHeldOk | internal/gateway/proxy/proxy.go:158-168 | stamping an answer with the connection's id never turns it into an answer of another agent |
| ClusterCorrelation.StepKeepsCallsOk | internal/master/store/history.go:46-83 | the master's history is at any time the bounded log of the calls made on it, with distinct ids |
| ClusterCorrelation.FileShowsSettled | internal/master/store/history.go:61-83 | filing an answer keeps it true that a retained record shows results of exactly the agents whose answers were handled |
| ClusterConservation.Conservation | internal/master/api/api.go:242-246 | in every reachable state the occurrences of an agent in a request equal those not started (unsent, in flight, lost) plus those started (running, in flight back, handled, lost) |
| ClusterConservation.RunsAtMostOncePerListing | cmd/agent/main.go:190-195 | an agent starts a request at most as often as it is listed, and never when it is not listed |
| ClusterConservation.RunKeepsInv | cmd/gateway/main.go:145-161 | balance, routing to own connections and the gateway's invariants hold along every run |
| ClusterConservation.StepKeepsOwnConnections | internal/gateway/proxy/proxy.go:92-109 | no order or answer is ever on a connection of another agent than the one it is for or from |
| ClusterConservation.ProjectsToGateway | internal/gateway/proxy/proxy.go:138-170 | the gateway inside the cluster takes only steps of the gateway on its own, so every gateway result holds in the cluster |
| ClusterConservation.SendBalanced | internal/master/ws/ws.go:111-125 | one round of the fan-out moves exactly one occurrence, to the link or to the lost ones when there is no link |
| ClusterConservation.RouteBalanced | cmd/gateway/main.go:145-161 | routing an order moves exactly one occurrence, to a connection or to the lost ones when the id is empty or unknown |
| ClusterConservation.TakeBalanced | cmd/agent/main.go:140-153 | an agent that takes an order starts exactly the occurrence that was sent to it |
| ClusterConservation.HearBalanced | internal/gateway/proxy/proxy.go:158-158 | reading and stamping an answer moves exactly one occurrence |
| ClusterConservation.ForwardBalanced | internal/gateway/proxy/proxy.go:121-135 | forwarding an answer moves exactly one occurrence, to the link or to the lost ones |
| ClusterConservation.FileBalanced | internal/master/api/api.go:501-513 | filing an answer settles exactly one occurrence, whether or not the record is still there |
| ClusterRuns.FanOutRuns | internal/master/api/api.go:242-246 | whichever writes succeed, the sends of one handler put exactly those orders on the link, in order, and count the others as lost |
| ClusterRuns.AnswerRuns | internal/master/api/api.go:501-513 | from any state with an order in an agent's hands, its way back open, the steps to the filed answer exist and disturb nothing else in flight |
| ClusterRuns.RouteRuns | cmd/gateway/main.go:145-161 | undisturbed, routing brings all orders of the link, in order, to the connections registered for their agents, and counts those without an open connection as lost |
| EndToEnd.RouteStepsAreLoop | cmd/gateway/main.go:145-161 | what the cluster's routing and writing steps put on an agent's connection is what the loop of connectToMaster writes to it: the messages addressed to it, in order, iff it has an open connection |
| ClusterLink.StepMutesExactly | internal/master/ws/ws.go:105-109 | a step leaves the master reading a link with none to write to iff a reader leaves while another link is served |
| ClusterLink.NeverMuteExactly | internal/master/ws/ws.go:96-109 | a served master can write throughout a run iff no reader leaves while another link is served |
| ClusterLink.MuteSendsNothing | internal/master/ws/ws.go:115-117 | what such a master sends is lost |
| ClusterLink.StaleReaderMutes | internal/master/api/api.go:460-464 | a run in which the gateway reconnects, the old reader leaves, and the master has no link to write to while it serves the new one |
| GatewayMachine.RegistryIsSound | internal/gateway/proxy/proxy.go:34-49 | in every reachable interleaving the registry names, for an id, a connection accepted under it whose reader has not unregistered; with all readers of an id past that, the id is absent |
| GatewayMachine.ResyncMissesNobody | cmd/gateway/main.go:134-142 | after the snapshot every registered id was handed to the current link, is in the rest of the snapshot, has a register read and not yet forwarded, or has its opening register unread |
| GatewayMachine.DrainedMeansAllHanded | cmd/gateway/main.go:137-161 | once the snapshot is sent and no register is pending, every registered id was handed to the current link |
| GatewayMachine.HandedMeansTold | internal/gateway/proxy/proxy.go:121-135 | in every run the ids counted as handed over are exactly those of which a register was passed to the current link since it was set |
| GatewayMachine.ExitedAreClosed | internal/gateway/proxy/proxy.go:139-142 | in every reachable state a connection whose reader has exited is closed |
| GatewayMachine.LiveLosesRegistrationExactly | internal/gateway/proxy/proxy.go:138-142 | a live registered connection loses its registration in a step iff the reader of another connection of its id unregisters |
| GatewayMachine.LiveStayRegisteredExactly | internal/gateway/proxy/proxy.go:138-142 | every live connection is registered throughout a run iff no reader unregisters its id while the registry names another, live connection for it |
| GatewayMachine.StepKeepsLiveExactly | internal/gateway/proxy/proxy.go:34-49 | from a state in which all live connections are registered, a step leads to such a state iff it is not such an unregister |
| GatewayMachine.StaleReaderUnregistersNewer | internal/gateway/proxy/proxy.go:44-49 | a run after which an open connection with an idle reader is not in the registry |
| GatewayMachine.StepKeepsResync | internal/gateway/proxy/proxy.go:158-168 | every step of every goroutine keeps resync completeness |
| GatewayMachine.StepKeepsLinkSound | internal/gateway/proxy/proxy.go:74-89 | the manager's master connection is the one connectToMaster serves, and is absent otherwise |
| GatewayManager.Manager.constructor | internal/gateway/proxy/proxy.go:28-32 | a new manager has no agents and no master |
| GatewayManager.Manager.RegisterAgent | internal/gateway/proxy/proxy.go:34-42 | the id names the new connection, all other ids are as before, and of the registered connections exactly a different one under this id is closed |
| GatewayManager.Manager.UnregisterAgent | internal/gateway/proxy/proxy.go:44-49 | the id is gone, whatever connection it named, and nothing else changes |
| GatewayManager.Manager.GetAllAgentIDs | internal/gateway/proxy/proxy.go:58-66 | exactly the registered ids, each once |
| GatewayManager.Manager.SetMasterConn | internal/gateway/proxy/proxy.go:74-82 | the new link is current and the previous one is closed |
| GatewayManager.Manager.ClearMasterConn | internal/gateway/proxy/proxy.go:84-89 | no link is current, whichever was |
| GatewayManager.Manager.SendToAgent | internal/gateway/proxy/proxy.go:92-109 | exactly the connection registered under the id gets the message, if it is open; an unknown id is no error |
| GatewayManager.Manager.SendToMaster | internal/gateway/proxy/proxy.go:121-135 | the current link gets the message if it is open; without a link it is dropped without error |
| GatewayManager.Manager.Relay | internal/gateway/proxy/proxy.go:145-168 | a readable message goes to the master under the connection's id, a register also registers the connection, and an unreadable one changes nothing |
| GatewayManager.Manager.RelayAll | internal/gateway/proxy/proxy.go:144-169 | the master gets exactly the readable messages, stamped, in order; the registry changes iff one of them is a register |
| GatewayManager.Manager.ForwardAgentToMaster | internal/gateway/proxy/proxy.go:138-170 | over a whole connection: the master gets the stamped messages, the id ends up unregistered, the connection closed, and the displaced connection closed iff a register came |
| GatewayManager.Manager.Resync | cmd/gateway/main.go:137-142 | the link gets one bare register for each connected agent and nothing else |
| EndToEnd.ResyncListsEverybody | cmd/gateway/main.go:137-142 | one register per connected agent, and once the master has read them each is listed as online and heard from; of known machines nothing else changes, of other machines nothing at all |
| GatewayManager.Manager.RouteToAgents | cmd/gateway/main.go:145-161 | each agent's connection gets exactly the readable messages addressed to its id, in order |
| GatewayManager.Manager.ServeMaster | cmd/gateway/main.go:134-164 | one round of connectToMaster: resync, routing, and no link left at the end, with the registry unchanged |
| GatewayManager.StampedNamesSender | internal/gateway/proxy/proxy.go:158-158 | whatever sender messages claim, what is passed on names the id of their connection |
| GatewayManager.StampedInOrder | internal/gateway/proxy/proxy.go:144-168 | the master gets exactly the readable messages, registers included, each from its own position, in order, with only the sender rewritten |
| GatewayManager.AddressedInOrder | cmd/gateway/main.go:157-160 | an agent gets exactly the readable messages that name it, each from its own position, in order |
| GatewayManager.AddressedAsOften | cmd/gateway/main.go:157-160 | a message reaches its agent as often as it comes in, and no other agent |
| GatewayManager.RegistersExactly | internal/gateway/proxy/proxy.go:160-163 | a message registers its connection iff it is readable and of kind register |
| Master.GatewayConn.SetConn | internal/master/ws/ws.go:96-103 | the new connection is current and the previous one is closed |
| Master.GatewayConn.ClearConn | internal/master/ws/ws.go:105-109 | no connection is current, whichever was |
| Master.GatewayConn.Send | internal/master/ws/ws.go:111-125 | the current connection gets the message if it is open; with none it is dropped without error |
| Master.Server.ChooseTargets | internal/master/api/api.go:201-217 | the named agents; else the online members of the group; else, also when nobody of the group is online, all online agents, each once |
| Master.TargetsExactly | internal/master/api/api.go:201-217 | named agents are taken as they are; otherwise a is a target, once, iff it is online and no group is given, or it is of the group, or nobody of the group is online |
| Master.GroupConfinesExactly | internal/master/api/api.go:201-217 | a batch for a group stays within it iff somebody of it is online or nobody outside it is |
| Master.GroupFallsThrough | internal/master/api/api.go:212-217 | an inventory for which a batch for a group goes to an agent outside it |
| Master.Server.SendAll | internal/master/api/api.go:239-246 | the link gets one exec request per listed agent, in order, with the request's id and content |
| Master.Server.HandleBatchExec | internal/master/api/api.go:189-254 | an empty script is refused with nothing changed; otherwise the targets are chosen, exactly one running record listing them is added, and each gets one request |
| Master.BatchIsRecorded | internal/master/api/api.go:227-237 | the last record shows the id, script, timeout, agents, user and start time of the batch, running, with no results, and a brief iff the script is longer than 100 bytes |
| Master.Server.HandleDashboardExec | internal/master/api/api.go:418-441 | one running record is added and one request sent per agent named, with no check of the script and no choice of targets |
| Master.Server.HandleMessage | internal/master/api/api.go:477-562 | a message from the gateway changes the inventory or the history, or neither, as its kind says, under the stamped id and not the payload's |
| EndToEnd.RegisterIsListed | internal/master/api/api.go:478-484 | after the register of an agent it is online and heard from, shows every field the register gave, keeps the others and tags, group and metrics if known, and no other machine changes |
| EndToEnd.ConnectingIsListed | cmd/agent/main.go:105-111 | in particular after the message that an agent writes on connecting, which also registers it at the gateway |
| EndToEnd.MetricsAreStored | internal/master/api/api.go:533-538 | metrics of a known machine are stored, it is online and heard from, and nothing else changes; an unknown machine stays unknown |
| EndToEnd.HeartbeatIsHeard | internal/master/api/api.go:557-561 | after a heartbeat the machine is online and heard from, a known one otherwise unchanged, no other machine changes |
| EndToEnd.OthersAreNoNews | internal/master/api/api.go:477-562 | a message of any other kind leaves the inventory as it is |
| Master.Server.HandleMessages | internal/master/api/api.go:466-563 | over a whole inbox the inventory and the history are the folds of what each message does |
| Master.Server.HandleGatewayWS | internal/master/api/api.go:453-564 | over a whole gateway connection: the previous one closed, the inbox handled, no connection current at the end |
| Master.SendStepsAreFanOut | internal/master/api/api.go:242-246 | for any choice of failing writes, the send steps of the cluster put on the link, as orders, exactly the messages of the fan-out loop whose write succeeds, and count the others as lost |
| Master.SendStepsWithoutLink | internal/master/ws/ws.go:115-117 | without a link every listed occurrence is lost and nothing leaves the master |
| Master.SendAllIsWritten | internal/master/ws/ws.go:119-124 | what the fan-out loop writes on an open or a closed connection is the case in which all writes go alike |
| Master.InboxExtendsStoreRun | internal/master/api/api.go:477-562 | the inventory after an inbox is the run of store events so far continued by those of the inbox |
| Master.InboxExtendsHistoryRun | internal/master/api/api.go:501-513 | the history after an inbox is the run of history calls so far continued by those of the inbox |
| Master.InboxKeepsMasterOps | internal/master/api/api.go:507-513 | an inbox adds no record and files only results marked done |
| Master.StampedEventsAreOwn | internal/master/api/api.go:478-484 | messages relayed for one agent's connection touch no other agent's inventory record |
| Master.IdsOf | internal/master/api/api.go:214-216 | the ids of the listed machines, in order |
| Master.OnlineOf | internal/master/api/api.go:205-209 | exactly the ids of the group's online machines, each once |
| Agent.Agent.Send | cmd/agent/main.go:392-409 | the connection of the moment gets the message if it is open; before the first connection nothing happens |
| Agent.Agent.Connected | cmd/agent/main.go:105-111 | the new connection takes over and carries a register |
| Agent.Agent.HandleExecRequest | cmd/agent/main.go:274-288 | one response with the request's id and the outcome of its script and timeout |
| Agent.Agent.HandleMessage | cmd/agent/main.go:190-195 | an exec request that decodes is answered once, one that does not is ignored |
| Agent.AnswerReachesRecord | cmd/agent/main.go:274-288 | from any state of the cluster with an order in an agent's hands, its way back open, the steps that take, run, stamp, forward and file it exist and leave the history that the three programs' handlers produce for that message |
| Agent.AnswerIsFiled | internal/master/api/api.go:501-513 | stamped by the gateway and read by the master, the response is filed as the agent's own outcome of the requested script |
| History.ExecHistory.constructor | internal/master/store/history.go:36-44 | an empty history of the given size, or of 500 when that is not positive |
| History.ExecHistory.Add | internal/master/store/history.go:46-59 | the newest maxSize of the old records and the new one, with the brief cut after 100 bytes |
| History.AddKeepsNewest | internal/master/store/history.go:55-58 | for every position: the new record is last, and the newest old ones that fit are before it, in order |
| History.BriefIsPreview | internal/master/store/history.go:50-53 | only the brief changes, iff it is empty and the script longer than 100 bytes, to these 100 and three dots |
| History.ExecHistory.UpdateResult | internal/master/store/history.go:61-83 | the first record with the id has the result filed and, if all its results are done, is completed now; no record with the id: nothing changes |
| History.UpdateTouchesOne | internal/master/store/history.go:64-81 | with distinct ids only the record of the id changes, and in it only the agent's entry, status and finish time |
| History.ExecHistory.Get | internal/master/store/history.go:85-94 | the first record with the id, and none exactly when there is no such record |
| History.ExecHistory.List | internal/master/store/history.go:96-115 | the slice of the reversed records that offset and limit cut out |
| History.EveryDone | internal/master/store/history.go:67-74 | whether every result is done, in whatever order the map is visited |
| History.RetainsNewest | internal/master/store/history.go:46-83 | after any calls with distinct ids the records are, position by position, what a log that forgets nothing ends with: maxSize entries, or all if there are fewer |
| History.PagesCoverHistory | internal/master/store/history.go:96-115 | for every page size the pages together list every record exactly once, newest first |
| History.UpdateCommutesWithNewest | internal/master/store/history.go:61-83 | updating and then forgetting is forgetting and then updating |
| History.EntryIsItsAnswers | internal/master/store/history.go:61-83 | every log entry is its added record with exactly the answers to its id filed, in order |
| History.FiledIsLast | internal/master/store/history.go:66-66 | what is on file for an agent is the last answer that came from it, or what was there before when none came |
| History.StatusOfAnswers | internal/master/store/history.go:67-79 | when every answer is marked done, completed, non-empty results and a finish time coincide, and the finish time is that of the last answer |
| History.CompletedExactlyWhenDone | internal/master/store/history.go:67-79 | with any mix of done and pending results, a new record is completed iff after some answer every agent's last one was done |
| History.CompletedStays | internal/master/store/history.go:75-79 | a completed record stays completed whatever is filed |
| History.AnswersCommute | internal/master/store/history.go:61-83 | two arrival orders with the same last answer per agent give the same results and status |
| History.HistoryConfluence | internal/master/store/history.go:46-83 | two call sequences that add the same records and agree per request and agent on the last answer give histories with the same ids, results and status |
| History.StatusInEveryHistory | internal/master/store/history.go:67-79 | in every retained record of the master's histories completed, answered and finished coincide |
| MachineStore.Machine.MergeFrom | internal/master/store/store.go:28-72 | merging keeps each descriptive field that the report leaves at zero and takes the others |
| MachineStore.Machine.Measure | internal/master/store/store.go:215-219 | metrics, time and status are set and no other field changes |
| MachineStore.Machine.Sweep | internal/master/store/store.go:124-126 | an online machine last seen before the cutoff goes offline, any other keeps its status |
| MachineStore.Store.constructor | internal/master/store/store.go:15-19 | an empty inventory |
| MachineStore.Store.UpdateMachine | internal/master/store/store.go:21-76 | a known machine is merged, an unknown one taken whole, either stamped with the time and online; all others as before |
| MachineStore.Store.SetOffline | internal/master/store/store.go:78-84 | only the status of this machine changes, if it is known |
| MachineStore.Store.GetMachine | internal/master/store/store.go:86-95 | a copy of the record, or none exactly when the id is unknown |
| MachineStore.Store.GetOnlineMachines | internal/master/store/store.go:107-117 | exactly the records with status online, each once |
| MachineStore.Store.GetMachinesByGroup | internal/master/store/store.go:165-175 | exactly the records of the group, each once |
| MachineStore.Store.CleanupStale | internal/master/store/store.go:119-128 | exactly the online machines last seen before the cutoff go offline |
| MachineStore.Store.SetTags | internal/master/store/store.go:131-137 | only the tags of this machine change, if it is known |
| MachineStore.Store.SetGroup | internal/master/store/store.go:140-146 | only the group of this machine changes, if it is known |
| MachineStore.Store.UpdateMetrics | internal/master/store/store.go:212-220 | a known machine is measured; an unknown one stays unknown |
| StoreRuns.AgentsDoNotInterfere | internal/gateway/proxy/proxy.go:158-158 | after any run the record of a machine is the one that results when all other agents' messages are removed |
| StoreRuns.KeyedByOwnId | internal/master/api/api.go:483-484 | every record carries the id it is stored under, whatever the payloads said |
| StoreRuns.FieldsFromReports | internal/master/store/store.go:27-75 | a machine is known iff it reported, and each descriptive field shows the value of the last report that gives it, or of the first report when none does |
| StoreRuns.DecidesOnce | internal/master/store/store.go:27-75 | at most one report decides a field |
| StoreRuns.MergeAssociative | internal/master/store/store.go:28-72 | merging reports first or one after the other comes to the same |
| StoreRuns.MergeIdempotent | internal/master/store/store.go:28-72 | merging a record with itself, or the same report twice, changes nothing more |
| StoreRuns.BareReportOnlyRefreshes | internal/master/api/api.go:557-561 | a bare resync register or a heartbeat changes only time and status of a known machine |
| StoreRuns.SettersOwnTheirFields | internal/master/store/store.go:131-146 | tags, group and metrics of a known machine change over a run only if their own setter is called for it |
| StoreRuns.LastSetterWins | internal/master/store/store.go:131-146 | over any run, tags, group and metrics of a known machine are those of the last call that set them |
| StoreRuns.FirstReportIsWhole | internal/master/store/store.go:73-75 | the first report of a machine is taken whole, a first heartbeat gives a blank record, and nothing else creates one |
| StoreRuns.StatusIsExact | internal/master/store/store.go:119-128 | at any time a machine is online iff it was heard from at or after the cutoff of the last sweep, and its last-seen time is when it was last heard |
| StoreRuns.LivenessBounds | cmd/master/main.go:141-147 | a machine heard from in the last 90 s is online; with sweeps at most 60 s apart an online machine was heard from in the last 150 s |
| StoreRuns.SweepSettlesStatus | internal/master/store/store.go:119-128 | right after a sweep a machine is online iff heard from since the cutoff |
| RateLimiter.Limiter.constructor | internal/master/middleware/middleware.go:98-106 | an empty table with the given rate and window |
| RateLimiter.Limiter.Allow | internal/master/middleware/middleware.go:119-130 | the decision and the new table as functions of the old table, the ip and the time |
| RateLimiter.Limiter.Cleanup | internal/master/middleware/middleware.go:136-142 | exactly the entries whose window is over are removed |
| RateLimiter.SharedDecidesLikeOwn | internal/master/middleware/middleware.go:119-144 | with sweeps anywhere and any other traffic each request is decided as by a counter of this ip alone that is never swept |
| RateLimiter.OthersAndSweepsAreInvisible | internal/master/middleware/middleware.go:132-144 | two runs in which an ip asks at the same times decide alike, whatever other ips and sweeps do |
| RateLimiter.SharedSlidingBound | internal/master/middleware/middleware.go:119-130 | on the shared, swept table no closed interval of k windows holds more than (k+1) quotas less one of an ip's admissions, or one quota for k = 0 |
| RateLimiter.SharedSlidingBoundIsTight | internal/master/middleware/middleware.go:119-144 | on the shared, swept table some traffic reaches that bound for exactly the same k |
| RateLimiter.SharedRejectsOnlyAfterQuota | internal/master/middleware/middleware.go:119-144 | the shared, swept table rejects a request only if a full quota of the ip's requests was admitted in the window before it |
| RateLimiter.SharedAdmitsModestClient | internal/master/middleware/middleware.go:119-144 | the shared, swept table admits an ip that has kept within the quota in every closed window so far |
| RateLimiter.SharedLockoutEnds | internal/master/middleware/middleware.go:119-144 | after a rejection the ip's first request past the resetAt of the entry that rejected, at most one window away, is admitted, whatever other traffic and sweeps do |
| RateLimiter.SweepLeavesOpenWindows | internal/master/middleware/middleware.go:136-142 | after a sweep the table holds for each ip the window of its own counter if it is not over, and nothing else |
| RateLimiter.SweptTableIsRecent | internal/master/middleware/middleware.go:136-142 | an ip on file after a sweep was admitted within the last window |
| RateLimiter.SlidingBound | internal/master/middleware/middleware.go:119-130 | the same bound for one counter, for every rate, interval and number of windows, reached only if k is at most the window in nanoseconds, or one more when a window admits one request |
| RateLimiter.SlidingBoundIsTight | internal/master/middleware/middleware.go:124-129 | for every rate, window and k, some traffic on one counter reaches the bound iff k is at most the window in nanoseconds, or one more when a window admits one request |
| RateLimiter.BareBoundExactly | internal/master/middleware/middleware.go:124-129 | (k+1) times the configured rate bounds all runs iff that rate is at least 1 |
| RateLimiter.RejectedOnlyAfterQuota | internal/master/middleware/middleware.go:124-129 | on one counter, a rejected request has a full quota of admissions in the window before it |
| RateLimiter.ModestClientIsAdmitted | internal/master/middleware/middleware.go:119-130 | on one counter, a client within the quota in every closed window is never rejected |
| RateLimiter.LockoutEnds | internal/master/middleware/middleware.go:122-129 | on one counter, the end of the window that rejected is at most one window away, and the first request after it is admitted |
| RateLimiter.WindowTellsAdmitted | internal/master/middleware/middleware.go:124-129 | a window was opened by a request in the past, and its count up to the quota was admitted since |
| RateLimiter.WindowsInside | internal/master/middleware/middleware.go:124-129 | windows of a run that fall in an interval lie more than a window apart and admit at most a quota each |
| Totp.PutUint64 | internal/master/auth/totp.go:55-56 | the buffer holds the big-endian form of the value |
| Totp.GenerateCode | internal/master/auth/totp.go:53-66 | the byte and bit code yields the code of RFC 4226 section 5.3 for the counter |
| Totp.CodeInBytes | internal/master/auth/totp.go:58-65 | the six digits read as a number are the four bytes at the offset, top bit cleared, mod 10^6 |
| Totp.HotpExample | internal/master/auth/totp.go:62-65 | the example of RFC 4226 section 5.4 |
| Totp.MatchWindow | internal/master/auth/totp.go:44-50 | true iff some step of the window has this code |
| Totp.ValidateCode | internal/master/auth/totp.go:33-51 | accepted iff the secret decodes and some step of the window has this code |
| Totp.TruncationIsHotp | internal/master/auth/totp.go:62-65 | for every 20-byte hash the slice is in bounds and the masked word is the big-endian value mod 2^31, mod 10^6 |
| Totp.Uint32IsBigEndian | internal/master/auth/totp.go:63-63 | shifting and or-ing four bytes gives their big-endian value |
| Totp.CounterBytesInjective | internal/master/auth/totp.go:54-56 | the 8 bytes determine the counter |
| Totp.CounterBytes | internal/master/auth/totp.go:54-56 | the 8 bytes are the counter, most significant byte first |
| Totp.SixDigitsExactly | internal/master/auth/totp.go:65-65 | below a million the format has exactly six digits, from which the number can be read back |
| Totp.NeighbourCounter | internal/master/auth/totp.go:44-54 | the step d away has the counter plus d iff that moment is not before 1970; before, the time wraps around to 2^64 |
| Totp.SecretRoundTrip | internal/master/auth/totp.go:21-41 | a minted secret decodes to the bytes it was made from |
| Totp.LowerSecretRoundTrip | internal/master/auth/totp.go:38-38 | so does a minted secret in lower case |
| Totp.WindowIsExact | internal/master/auth/totp.go:33-51 | from second 30 on, a code is accepted under a minted secret iff it is the code of one of the three surrounding steps |
| Totp.CodeStaysGood | internal/master/auth/totp.go:43-51 | at any time from 1970 on, a code is accepted whenever the steps differ by at most one, so within 30 s either way |
| BitGroups.DecodeEncode | internal/master/auth/jwt.go:88-94 | decoding what was encoded gives the same bytes, for every byte string and both alphabets |
| BitGroups.EncodingIsNumeral | internal/master/auth/jwt.go:88-90 | the characters stand for the digits of the number whose base-256 digits are the bytes, shifted by the spare bits of the last one |
| BitGroups.Base64UrlAlphabet | internal/master/auth/jwt.go:88-94 | the alphabet of RFC 4648 section 5 |
| BitGroups.Base32Alphabet | internal/master/auth/totp.go:24-24 | the alphabet of RFC 4648 section 6 |
| BitGroups.DecodesExactly | internal/master/auth/jwt.go:92-94 | line breaks aside, text decodes iff it is of the alphabet and, in base64, no single character is left over |
| BitGroups.DecodedLength | internal/master/auth/totp.go:38-38 | the number of bytes that text of each length decodes to |
| BitGroups.LineBreaksAreIgnored | internal/master/auth/jwt.go:92-94 | a line break anywhere makes no difference |
| BitGroups.UnpackPack | internal/master/auth/jwt.go:88-94 | cutting bits into groups loses none and adds fewer zero bits than a group has |
| BitGroups.EncodedChars | internal/master/auth/jwt.go:88-90 | an encoding has only characters of its alphabet |
| Jwt.TokenRoundTrip | internal/master/auth/jwt.go:32-80 | a token made for a user and role gives back this user, this role, its second of issue and its expiry until the expiry second has passed, and is rejected as expired afterwards |
| Jwt.TokenSegments | internal/master/auth/jwt.go:41-51 | the three segments decode to the header, the claims and the signature of the first two |
| Jwt.AcceptedExactly | internal/master/auth/jwt.go:54-80 | accepted with certain claims iff unexpired, of the form header.payload.signature with the matching signature, and the payload says these claims |
| Jwt.RejectedExactly | internal/master/auth/jwt.go:54-73 | which error is reported: the format iff there are not two dots, the signature iff it does not match the first two segments, then payload and claims |
| Jwt.SignatureIsDetermined | internal/master/auth/jwt.go:60-63 | two accepted tokens with the same first two segments are equal |
| Strings.JoinSplit | internal/master/auth/jwt.go:55-58 | joining what was split gives the string back, and no part contains the separator |
| Strings.SplitJoin | internal/master/auth/jwt.go:48-55 | splitting what was joined from parts without the separator gives the parts back |
| PathGuard.AllowedExactly | cmd/agent/main.go:295-301 | a path gets past the guard iff it is absolute and its component walk from the root ends strictly below /tmp or /opt/multi-ops |
| PathGuard.CleanKeepsTarget | cmd/agent/main.go:339-344 | the clean form of a path leads where the path leads, from every directory |
| PathGuard.CleanIsIdempotent | cmd/agent/main.go:296-296 | cleaning twice is cleaning once |
| PathGuard.RulesEndInNormal | cmd/agent/main.go:296-296 | however the documented rewriting rules are applied until none applies, the outcome is the stack form |
| PathGuard.RulesReachNormal | cmd/agent/main.go:339-339 | some application of the rules ends in the stack form |
| PathGuard.RootedNormalIsWalk | cmd/agent/main.go:296-297 | for an absolute path the stack is the directory that the walk reaches |

## Left out

- HandleMessage: broadcasts to dashboards, terminal output and file responses are not modelled, because they change neither the inventory nor the history; a payload decodes exactly when it is of the kind the message announces, while JSON decoding would also let a mismatched object through with zero fields.
- HandleBatchExec: the audit entry, the HTTP body and the error for a body that does not decode are not modelled.
- Relay: a message is stamped and passed on whole; the size of the JSON and failures to marshal it are not modelled.
- List: negative limits and offsets, which would panic, are not modelled.
- Get: the original returns records that share the map of results with the history; the model's records are values, so a caller does not see later answers through one.
- GetMachine: tags and metrics of the copy share memory with the original; the model's copy is a value.
- ValidateToken: the header segment is not looked at, as in the original; strings that are not valid UTF-8 and failures to marshal claims are not modelled.
- ValidateCode: upper-casing is modelled for ASCII letters.
- Clean: the library function is modelled from its documented rules on Unix paths, not from its source.
- LivenessBounds: assumes that SetOffline is not called, as nothing in the repository calls it, that every sweep uses 90 s, and a non-decreasing clock in whole seconds.
- SlidingBound: assumes a non-negative window and a non-decreasing clock in whole nanoseconds.
- The `/master` route and `ForwardMasterToAgent`: another delivery shape (one message can be both unicast and broadcast), which nothing in the repository dials; the protocol results are for the connectToMaster link.
- Tokens and secrets checked on `/connect` and by the master before a connection is accepted.
- Symbolic links, file contents and modes: the path guard is lexical.
- The executor, terminals, metrics and system information: calls into the operating system.
- The audit ring, users, roles, IP whitelist, tag and group listings and the dashboard: they would add only easy members.
- Process restarts: the master's and the gateway's memory lives as long as the run.
