# GridLink, verified

GridLink is a control plane for models running on machines that come and go. A coordinator keeps
a registry of nodes, a job table and a deployment table; each agent keeps its own list of running
jobs and deployments; the two meet over one stream per agent, lossy updates and periodic
heartbeats. A gateway routes inference requests to whatever is serving and bills the tokens.

This project models that system in Dafny and proves what it promises over whole runs.

* **Code in its own form.** Objects that are updated in place are classes (`Registry`, `Manager`,
  `Scheduler`, `Server`, `Client`, `Router`, `Gateway`, `Reporter`, `JsonLines`, `LogCoalescer`);
  loops are loops; iteration over a map takes the keys in an arbitrary order; a send may fail.
  Methods that change state are proved equal to a function on values and, field by field, to do what
  the operation means (the predicates named `…Means`); methods that search are proved to find exactly
  what they look for. `Servers.Server` and `Billing.Gateway` show that the
  coordinator's and the gateway's entry points take exactly the steps of their state machines.
* **Runs.** `Coordinator`, `Races`, `JobProtocol`, `Convergence`, `Sessions`, `RoutingRuns` and
  `Billing` are state machines whose events carry the choices of the environment (clock, minted
  ids, map order, accepted sends, dropped updates). Theorems quantify over all their runs. In
  `Coordinator` each entry point of the deployment manager is one atomic step; in `Races` every
  hold of the table's lock and every command sent is a step of its own.
* **Clock.** Time is an integer number of nanoseconds, read once per step and never going back.

The main results:

| area | theorem |
|---|---|
| placement | `OneDeploymentPerNode`, `StartsGoWhereTheyFit`, `HistoryIsDisciplined`, `StartsAndUnplacingsAlternate`, `BanDeadlinesOnlyGrow` |
| placement, lock by lock | `DisciplinedIffClean`, `StaleOnlyByStarting`, `OverlapsAreExclusiveIff` |
| timeouts | `DeadNodeIsEvacuated` (40 s to OFFLINE, 115 s to empty), `OnlineMeansRecentlyHeard` |
| streams | `HandleIsLatestStream`, `HandlesOpenIff`, `OnlineHasHandleIff`, `OpenStreamHasHandleIff`, `EveryStreamBeginsWithRegister`, `WorkSurvivesReconnects`, `RedialIff` |
| agent and coordinator | `HeartbeatConverges`, `VerdictAgrees`, `VerdictIsFinal`, `VerdictStaysIff`, `VanishedJobTerminates`, `FailureHasACause`, `CoordinatorHoldsVerdict` |
| routing | `PickIsFresh` (2 s, 42 s), `RetryIsResolvedAfresh`, `RoundRobinIsBalanced` |
| generation | `Generate` (stop sequences, accounting), `BothAgree`, `PiecesReadWholeIff`, `MeteringAgreesIff`, `GenerationIsMetered` |
| billing | `HandledRight`, `GatewayBillsOnce`, `BillingConserves`, `SinksAgreeIff`, `GroupBy` |
| containers | `Run` (update grammar, log conservation, removal before the close) |

Some promises hold only under a condition. For each, the condition is proved exact and a run or an
input on which it fails is exhibited:

* **Handles point at open streams of their node** throughout a run if and only if every re-register
  names the acknowledged id (`HandlesOpenIff`; `StrayRegisterIsReachable`).
* **ONLINE nodes have a handle** throughout a run if and only if no heartbeat arrives from a node
  that is OFFLINE at the time (`OnlineHasHandleIff`; `ReapedNodeReturnsWithoutHandle`).
* **Open streams' nodes have a handle** throughout a run if and only if no stream ends while another
  of its node is open, and no node is reaped while a stream of its is open
  (`OpenStreamHasHandleIff`; `LateTeardownDropsNewHandle`).
* **The command history is disciplined**, lock by lock, if and only if every step is clean: no Start
  goes out for a deployment that was deleted or that a node holds, nor to a node that holds one, nor
  to one banned since the avoid list was copied; no Stop goes out to a node that by now holds the
  deployment; no clearing finds another replica than the one judged lost. A node holds a deployment
  when the table shows it there or its accepted Start is not recorded yet (`DisciplinedIffClean`). A
  node comes to hold a deployment only by accepting a Start, so that is all that can make a pending
  Stop stale (`StaleOnlyByStarting`). Each clause fails in some run: `EarlyUpdateIsReachable`,
  `StaleStopIsReachable`, `StaleClearingIsReachable`, `DoubleStartIsReachable`. Placements and
  errands that nothing interrupts are clean (`UninterruptedPlacementIsClean`,
  `UninterruptedErrandIsClean`).
* **Overlapping placements keep one deployment per node**, however any number of placers with lists of
  any length interleave, if and only if no node is eligible for deployments of two of them when they
  set out (`OverlapsAreExclusiveIff`; `TwoCreatesShareANode`).
* **An agent whose session has met an error can dial again** if and only if the session's context is
  done already, its writer has something to send, or it got as far as publishing its queue
  (`RedialIff`). An agent whose Register is sent and never acknowledged hangs for good (`AgentHangs`):
  the teardown waits for the writer before it cancels the context that would end it.
* **Streamed text reads like the blocking answer** if and only if no token ends inside a character,
  which for well-formed text means that every token's text is well-formed by itself (`BothAgree`,
  `WholeIsKeptIff`). The euro sign in two tokens is lost in a stream (`SplitCharacterIsLost`).
* **A recorded verdict stays** although earlier streams may still be read if and only if every unread
  old update about the job states no state or is the verdict itself (`VerdictStaysIff`;
  `LateReadUndoesVerdict`).
* **Metering a stream agrees with metering the blocking answer** if and only if generation had no
  error exactly when every event line fits the scanner (`MeteringAgreesIff`). A stream that fails
  midway is metered at zero where the blocking answer is not metered (`FailureIsMeteredTwoWays`).
* **The JSON-lines sink and the keyed table hold the same rows** if and only if the first write of
  every request id has counts below 2^63 (`SinksAgreeIff`; `HugeCountSplitsTheSinks`).

## Model

| member | source | states |
|---|---|---|
| `Registries.Registry.Upsert` | coordinator/internal/registry/registry.go:57-90 | a registering agent is ONLINE now, its handle is rebound, its known data-plane address survives, an empty id is replaced by the minted one |
| `Registries.Registry.Touch` | coordinator/internal/registry/registry.go:94-110 | a heartbeat makes a known node ONLINE now without giving it a handle; an empty address never replaces a known one; unknown nodes are ignored |
| `Registries.Registry.MarkDisconnected` | coordinator/internal/registry/registry.go:114-122 | the node is OFFLINE without a handle, everything else unchanged |
| `Registries.Registry.Get` | coordinator/internal/registry/registry.go:125-135 | finds a node exactly when it is in the table, and returns its current value |
| `Registries.Registry.Reap` | coordinator/internal/registry/registry.go:190-208 | exactly the ONLINE nodes silent for more than three intervals go OFFLINE and lose their handle, whatever the iteration order |
| `Managers.Manager.SelectNode` | coordinator/internal/deployments/deployments.go:185-244 | returns an ONLINE, reachable, unbanned, unoccupied node with measured memory of at least the minimum that advertises native Metal for a native engine and Docker for a container; refuses only when no node at all is such |
| `Deployments.EligibleMeans` | coordinator/internal/deployments/deployments.go:100-110 | eligibility in terms of the node's own fields and the engine of the spec |
| `Managers.Manager.OccupiedNodes` | coordinator/internal/deployments/deployments.go:186-193 | the nodes that host some other deployment, and no others |
| `Managers.Manager.Place` | coordinator/internal/deployments/deployments.go:151-181 | places on an eligible node exactly when the send is accepted; a refusal or a failed send changes nothing |
| `Managers.Manager.Create` | coordinator/internal/deployments/deployments.go:113-148 | refuses exactly the invalid requests; a valid one is kept even when it cannot be placed yet |
| `Managers.Manager.Delete` | coordinator/internal/deployments/deployments.go:256-278 | forgets a known deployment, then tries to stop its replica if there was one |
| `Managers.Manager.SendStop` | coordinator/internal/deployments/deployments.go:280-290 | a Stop goes out only to a node with a live handle |
| `Managers.Manager.OnUpdate` | coordinator/internal/deployments/deployments.go:293-333 | an update from the hosting node is taken over field by field and keeps a known port; any other update changes no deployment and leads to a Stop |
| `Deployments.ReadyPortIsRouted` | coordinator/internal/deployments/deployments.go:317-319 | after a READY update with a port every endpoint of the deployment has that port |
| `Managers.Manager.OnHeartbeat` | coordinator/internal/deployments/deployments.go:338-375 | stops every reported deployment that is not wanted, in report order, and clears the ones missing for longer than the grace period |
| `Meanings.HeartbeatenMeans` | coordinator/internal/deployments/deployments.go:338-375 | deployment by deployment: exactly the replicas lost for more than 60 s are cleared, and exactly the reported deployments not placed there are stopped |
| `Managers.Manager.Survey` | coordinator/internal/deployments/deployments.go:344-359 | exactly what the node should run, and exactly what it has silently lost |
| `Managers.Manager.Unplace` | coordinator/internal/deployments/deployments.go:378-382 | clears the replica and nothing else |
| `Managers.Manager.SweepOne` | coordinator/internal/deployments/deployments.go:518-549 | clears a replica on a node gone for the grace period; bans and clears one that failed and stayed quiet; leaves other deployments alone |
| `Managers.Manager.Reconcile` | coordinator/internal/deployments/deployments.go:513-561 | sweeps every deployment once and then makes one legal placement attempt for each unplaced one, each seeing the earlier ones |
| `Meanings.ReconciledMeans` | coordinator/internal/deployments/deployments.go:513-561 | deployment by deployment: stranded replicas go, broken ones go and their node is avoided for 600 s, the rest stays; what is then unplaced is placed on a node that suits it, or a send was refused, or no node suits it |
| `Managers.Manager.Resolve` | coordinator/internal/deployments/deployments.go:385-426 | returns, once each, exactly the READY replicas of the model on ONLINE nodes with a data-plane address |
| `Managers.Manager.ServableModels` | coordinator/internal/deployments/deployments.go:431-458 | a model is listed if and only if some replica of it is routable; once each and in alphabetical order |
| `Schedulers.Scheduler.RunJob` | coordinator/internal/scheduler/scheduler.go:65-100 | the job is recorded PENDING before sending and forgotten again when the send fails; unknown and offline nodes are refused |
| `Schedulers.Scheduler.OnJobUpdate` | coordinator/internal/scheduler/scheduler.go:106-137 | unknown jobs are adopted, the state is overwritten unless unspecified, error and exit code follow terminal updates |
| `Schedulers.Scheduler.Reconcile` | coordinator/internal/scheduler/scheduler.go:143-164 | exactly the jobs of the node that are not final, not named by the heartbeat and quiet for 30 s fail; every other job stays as it was |
| `Servers.Server.Receive` | coordinator/internal/server/server.go:164-225 | one turn of the stream loop is one step of the state machine: first-message rule, then touch, job reconcile and deployment heartbeat in that order; each message changes what it is about, field by field, and nothing else |
| `Coordinator.StepMeans` | coordinator/internal/server/server.go:164-290 | what every step of the state machine changes, in terms of single nodes, jobs and deployments |
| `Servers.Server.Hangup` | coordinator/internal/server/server.go:187 | the deferred disconnect is the state machine's disconnect step for the acknowledged node |
| `Servers.Server.ReconcileTick` | coordinator/internal/deployments/deployments.go:496-509 | a tick is a legal reconcile step |
| `Servers.Server.CreateDeployment` | coordinator/internal/server/server.go:270-279 | an admin create is a legal create step |
| `Servers.Server.DeleteDeployment` | coordinator/internal/server/server.go:281-290 | an admin delete is a delete step, and says whether the id was known |
| `Servers.Server.RunJob` | coordinator/internal/server/server.go:248-266 | an admin job is a dispatch step; each refusal has its own status, decided by the request and the registry, and leaves no trace |
| `Placement.PlacedKeeps` | coordinator/internal/deployments/deployments.go:166-175 | placing an unplaced deployment on an eligible node keeps the table's invariant |
| `Placement.DeletedKeeps` | coordinator/internal/deployments/deployments.go:256-278 | a delete keeps the invariant; in particular its Stop goes out when the deployment is no longer placed |
| `Placement.HeartbeatenKeeps` | coordinator/internal/deployments/deployments.go:338-375 | a heartbeat keeps the invariant; in particular none of its Stops hits a wanted replica |
| `Placement.ReconciledKeeps` | coordinator/internal/deployments/deployments.go:513-561 | a reconcile that places many deployments keeps the invariant |
| `Placement.StartsAlternate` | coordinator/internal/deployments/deployments.go:151-181 | between two Starts of one deployment its replica on the first node was cleared |
| `Coordinator.RunKeeps` | coordinator/internal/server/server.go:164-225 | the invariant holds in every state a fresh coordinator can reach |
| `PlacementRuns.OneDeploymentPerNode` | coordinator/internal/deployments/deployments.go:218-223 | in no run do two deployments have replicas on one node |
| `PlacementRuns.StartsGoWhereTheyFit` | coordinator/internal/deployments/deployments.go:206-238 | every Start of every run goes to a node that is ONLINE with a handle, has the runner, and has measured memory of at least the minimum |
| `PlacementRuns.HistoryIsDisciplined` | coordinator/internal/deployments/deployments.go:151-181 | in every run Starts only go out for unplaced deployments that were not deleted, to free nodes, after every recorded ban; Stops never go where the deployment is placed; replicas are cleared only more than 60 s after their Start; recorded ban deadlines never move earlier |
| `PlacementRuns.StartsAndUnplacingsAlternate` | coordinator/internal/deployments/deployments.go:378-382 | Starts and unplacings of a deployment alternate, and the history determines the table's placements |
| `PlacementRuns.BanDeadlinesOnlyGrow` | coordinator/internal/deployments/deployments.go:533-548 | between any two moments of a run at which a deployment exists, its ban deadlines only move later |
| `Evacuation.OnlineMeansRecentlyHeard` | coordinator/internal/registry/registry.go:170-208 | in every run, whenever the reaper is not overdue, every ONLINE node was heard from within four intervals |
| `Evacuation.ReconcileEvacuates` | coordinator/internal/deployments/deployments.go:523-532 | one reconcile past the grace period empties a dead node, and places nothing there |
| `Evacuation.DeadNodeIsEvacuated` | coordinator/internal/deployments/deployments.go:44-48 | a node silent from any moment of any run is OFFLINE and gets no Start after 40 s, and hosts nothing after 115 s |
| `StreamHandles.HandleIsLatestStream` | coordinator/internal/registry/registry.go:57-122 | in every run a handle is the stream that registered the node last, none of the node's streams has ended since, and the node is ONLINE |
| `StreamHandles.HandleIsOpen` | coordinator/internal/server/server.go:185-187 | when re-registers name the acknowledged id, every handle points at an open stream of its node |
| `StreamHandles.HandlesOpenIff` | coordinator/internal/server/server.go:185-220 | handles point at open streams of their node throughout a run if and only if every re-register names the acknowledged id |
| `StreamHandles.ReRegisterKeepsHandlesIff` | coordinator/internal/server/server.go:218-220 | a re-register keeps that property if and only if it names the acknowledged id |
| `StreamHandles.StrayRegisterIsReachable` | coordinator/internal/server/server.go:218-220 | a run in which a stream registers as a second node and ends, and the second node keeps the handle |
| `StreamHandles.OpenStreamHasHandleIff` | coordinator/internal/registry/registry.go:114-122 | every open stream's node has a handle throughout a run if and only if no stream ends while another of its node is open and no node is reaped with a stream open |
| `StreamHandles.LateTeardownDropsNewHandle` | coordinator/internal/server/server.go:187 | a run in which an old stream's teardown takes away the handle of the new one |
| `StreamHandles.OnlineHasHandleIff` | coordinator/internal/registry/registry.go:94-110 | every ONLINE node has a handle throughout a run if and only if no heartbeat arrives from an OFFLINE node |
| `StreamHandles.ReapedNodeReturnsWithoutHandle` | coordinator/internal/registry/registry.go:102-103 | a run in which a reaped node is ONLINE again without a handle |
| `Discipline.DisciplinedIffClean` | coordinator/internal/deployments/deployments.go:151-181 | over every run of lock holds and sends the history is disciplined if and only if every step is clean: no Start of a deleted or held deployment, to a holding node or past a ban; no Stop to a node that by now holds the deployment; no clearing that finds another replica |
| `Discipline.StaleOnlyByStarting` | coordinator/internal/deployments/deployments.go:338-369 | a Stop judged while its node did not hold the deployment goes stale only if that node accepts a Start of it before the Stop is sent |
| `Discipline.JudgedIsSound` | coordinator/internal/deployments/deployments.go:344-359 | what a heartbeat is judged to stop and to clear is right at the moment of judgement, when no Start is unrecorded |
| `Discipline.CleanIsExclusive` | coordinator/internal/deployments/deployments.go:186-223 | and then no node has two deployments, Starts not yet recorded included |
| `Discipline.UninterruptedPlacementIsClean` | coordinator/internal/deployments/deployments.go:151-242 | a placement that nothing interrupts stays up to date from one lock hold to the next, and its Start is clean |
| `Discipline.UninterruptedErrandIsClean` | coordinator/internal/deployments/deployments.go:361-374 | Stops and clearings carried out without interruption are clean |
| `Overlaps.OverlapsAreExclusiveIff` | coordinator/internal/deployments/deployments.go:151-175 | however any number of placers with lists of any length interleave, one deployment per node holds if and only if no node is eligible for deployments of two of them when they set out |
| `RaceRuns.TwoCreatesShareANode` | coordinator/internal/deployments/deployments.go:136-140 | a run of two creates over one eligible node that ends with both on it |
| `RaceRuns.EarlyUpdateCancels` | coordinator/internal/deployments/deployments.go:298-309 | an update between the send and the record makes the coordinator stop the replica it has just started and then record it as placed |
| `RaceRuns.EarlyUpdateIsReachable` | coordinator/internal/deployments/deployments.go:162-175 | a run in which that happens; the agent is left with the deployment cancelled |
| `RaceRuns.StaleStopIsReachable` | coordinator/internal/deployments/deployments.go:361-369 | a run in which a heartbeat is judged, the deployment is placed, sent and recorded, and then the heartbeat's Stop hits it |
| `RaceRuns.StaleClearingIsReachable` | coordinator/internal/deployments/deployments.go:370-382 | a run in which a replica judged lost is cleared by the sweep and placed elsewhere, and then the heartbeat's clearing takes the new replica away |
| `RaceRuns.DoubleStartIsReachable` | coordinator/internal/deployments/deployments.go:518-560 | a run in which a sweep between a create's two lock holds starts one deployment on two nodes |
| `Clients.Client.StartJob` | agent/internal/client/client.go:270-302 | a new job is entered, a duplicate ignored, and a node without a runtime enters nothing and reports FAILED |
| `Clients.Client.StartDeployment` | agent/internal/client/client.go:331-367 | a new deployment is entered, a duplicate ignored, and a node without an engine enters nothing and reports FAILED |
| `Clients.Client.StopDeployment` | agent/internal/client/client.go:394-404 | cancels a running deployment and keeps its entry until the engine is gone |
| `Clients.Client.ActiveDeploymentIds` | agent/internal/client/client.go:412-423 | lists the active deployments once each |
| `Clients.Client.ActiveJobIds` | agent/internal/client/client.go:460-471 | lists the active jobs once each |
| `Convergence.OrphanCommands` | coordinator/internal/deployments/deployments.go:361-369 | the Stops of a heartbeat are exactly the reported deployments that are not wanted |
| `Convergence.HeartbeatConverges` | coordinator/internal/deployments/deployments.go:335-375 | from any pair of states, once one sampled heartbeat is processed, its Stops delivered and the cancelled engines gone, the agent runs only what is placed on it; no wanted deployment is ever cancelled or unplaced on the way |
| `JobProtocol.VerdictAgrees` | agent/internal/client/client.go:304-327 | when a finished job lost no update and none is in flight, the table holds the agent's terminal state, error and exit code |
| `JobProtocol.VerdictIsFinal` | coordinator/internal/scheduler/scheduler.go:117-124 | and that entry never changes again, whatever follows, late reads from earlier streams included |
| `LateReads.VerdictStaysIff` | coordinator/internal/scheduler/scheduler.go:117-131 | a recorded verdict of a job that did leave updates on earlier streams stays in every continuation if and only if each of them states no state or is the verdict itself |
| `LateReads.LateReadUndoesVerdict` | coordinator/internal/scheduler/scheduler.go:117-124 | a run in which an update read late from a lost stream undoes a recorded verdict |
| `JobProtocol.FinishedJobIsNotFailedByItsAbsence` | agent/internal/client/client.go:251-263 | a heartbeat that omits a job because it finished is processed after the job's verdict and leaves it alone |
| `JobProtocol.HeartbeatSparesTheReported` | coordinator/internal/scheduler/scheduler.go:148-158 | a heartbeat leaves alone every job it reports and every job heard of less than 30 s ago |
| `JobProtocol.FailureHasACause` | coordinator/internal/scheduler/scheduler.go:148-163 | in every run a job is FAILED only because its agent said so or because a heartbeat omitted it after 30 s of silence |
| `JobCluster.RunProjects` | coordinator/internal/server/server.go:201-217 | every run of the whole coordinator with an agent is a run of the job protocol, whose table is the agent's part of the coordinator's |
| `JobCluster.CoordinatorHoldsVerdict` | coordinator/internal/server/server.go:214-215 | whatever other agents do, the coordinator's table holds the verdict of a finished job that lost no update |
| `JobCluster.CoordinatorKeepsVerdict` | coordinator/internal/scheduler/scheduler.go:117-124 | and never changes it again |
| `VanishedJobs.RemovalForgets` | agent/internal/client/client.go:304-306 | with its removal the agent knows nothing of a job any more |
| `VanishedJobs.VanishedOnceDrained` | agent/internal/client/client.go:251-263 | once what was in flight when the agent forgot a job has been read or discarded, nothing speaks of the job any more |
| `VanishedJobs.VanishedJobTerminates` | coordinator/internal/scheduler/scheduler.go:148-163 | from then on, even when updates are dropped or sessions lost, the job is terminal one heartbeat gap after its 30 s grace |
| `Sessions.EveryStreamBeginsWithRegister` | agent/internal/client/client.go:139-202 | for every interleaving of emitters, teardown and reconnects, each stream carries exactly one Register, first |
| `Sessions.QueueIsBounded` | agent/internal/client/client.go:139 | no outbound queue ever holds more than 32 frames |
| `Sessions.WorkSurvivesReconnects` | agent/internal/client/client.go:294-298 | losing a session cancels its context, and still a job or deployment goes only when its own work ends or the agent shuts down |
| `Sessions.OnlyTheLastSessionWrites` | agent/internal/client/client.go:146-158 | one session at a time: nothing goes out on a stream that is broken or whose session is cancelled, although a heartbeat may still be queued there |
| `Redials.RedialIff` | agent/internal/client/client.go:133-160 | after an error another session is reachable, short of a shutdown, if and only if the context is done, the writer has something to send, or the queue was published |
| `Redials.AgentHangs` | agent/internal/client/client.go:160-180 | a run in which the Register is sent, the stream fails before the acknowledgement, and the agent never dials again |
| `Decode.IndexAnyStop` | agent/internal/engine/engine.go:76-87 | the position of the earliest occurrence of any nonempty stop sequence, or -1 exactly when there is none |
| `Decode.Generate` | agent/internal/engine/llama_darwin.go:157-245 | one final token, last, with the prompt length and the number of pieces accepted, at most the requested limit, or 512 when none is requested, and exactly that when the reason is length; the text sent is a stop-free prefix that overruns the earliest stop by less than any stop matching there; each ending has its stated reason, and none comes after an unnoticed decode failure |
| `Decode.CutStopsShort` | agent/internal/engine/llama_darwin.go:219-232 | cutting at the earliest stop leaves stop-free text and overruns by less than the length of the stop |
| `Rendering.Blocking` | agent/internal/engine/server.go:137-172 | the blocking answer is the text, finish reason and usage of the tokens, or an error when any token failed |
| `Scrape.GenerationIsAnswered` | agent/internal/engine/server.go:137-172 | the answer to a generation states the reason it ended for, the prompt length and the pieces accepted |
| `Rendering.StreamText` | agent/internal/engine/server.go:174-226 | the chunks carry the text, finish reason and usage of the tokens before the first failure, the usage on the last chunk |
| `Rendering.StreamChat` | agent/internal/engine/server.go:271-338 | the same for chat, with a role chunk first |
| `Rendering.BothAgree` | agent/internal/engine/server.go:228-338 | for error-free tokens the stream carries the finish reason and usage of the blocking answer, for chat and for text; and the texts their readers end up with are the same if and only if no token ends inside a character |
| `Utf8.PiecesReadWholeIff` | agent/internal/engine/server.go:174-226 | pieces encoded one by one read like the whole encoded at once if and only if no piece ends inside a character |
| `Utf8.WholeIsKeptIff` | agent/internal/engine/server.go:174-226 | for a well-formed whole: if and only if every piece is well-formed by itself |
| `Utf8.CharLengthMeans` | agent/internal/engine/server.go:174-226 | well-formed characters are those of their code point: no overlong forms, no surrogates, nothing past U+10FFFF |
| `Rendering.SplitGenerationIsOne` | agent/internal/engine/llama_darwin.go:212-235 | the decode loop can produce a character in two tokens |
| `Rendering.SplitCharacterIsLost` | agent/internal/engine/server.go:174-226 | that character reaches the reader of the blocking answer and not the reader of the stream |
| `Scrape.ScanSSE` | gateway/internal/proxy/proxy.go:421-443 | the last usage block before the end marker or before a line that does not fit the scanner |
| `Scrape.ScanStream` | gateway/internal/proxy/proxy.go:419-443 | over the engine's event stream the scan captures the usage if and only if every line fits |
| `Scrape.OneEventIsScanned` | gateway/internal/proxy/proxy.go:421-443 | the wire format spelled out: prefix, end marker and the line limit of one mebibyte |
| `Scrape.MeteringAgreesIff` | gateway/internal/proxy/proxy.go:376-417 | streamed and blocking answers are metered alike if and only if generation had no error exactly when every line fits |
| `Scrape.GenerationIsMetered` | agent/internal/engine/server.go:174-226 | of a streamed generation that fits, the prompt length and the pieces accepted are metered, and zero after a failure midway |
| `Scrape.FailureIsMeteredTwoWays` | agent/internal/engine/server.go:137-226 | a generation that fails midway is metered at zero when streamed and not at all in one body |
| `Routers.Router.Replicas` | gateway/internal/router/router.go:126-163 | a fresh entry is used as it is; otherwise the coordinator is asked and its answer cached without losing the cursor; a missing connection, a failed call and an empty answer each have their error |
| `Routers.Router.Pick` | gateway/internal/router/router.go:88-108 | the replica at the cursor whenever an entry less than 2 s old, or else the coordinator's answer, lists one; otherwise the reason there is none |
| `Routers.PickedMeans` | gateway/internal/router/router.go:88-163 | the same for every cache, time and answer, with the entry and cursor left behind |
| `Routers.Router.PickExcluding` | gateway/internal/router/router.go:112-123 | a replica of another deployment whenever the list has one, never the excluded one |
| `Routers.Router.Invalidate` | gateway/internal/router/router.go:167-171 | drops the model's entry and no other |
| `Routers.RoundRobinIsBalanced` | gateway/internal/router/router.go:97-107 | over any window with an unchanged list, refreshes and failed refreshes included, any two replicas were picked equally often up to one, and as many successful picks as replicas pick each once |
| `RoutingRuns.PickIsFresh` | gateway/internal/router/router.go:25-29 | in every run with reap ticks on time, whatever Pick or PickExcluding returns was READY on an ONLINE node with an address less than 2 s ago, and its node was heard from less than 42 s ago |
| `RoutingRuns.RetryIsResolvedAfresh` | gateway/internal/router/router.go:165-171 | after an invalidation anywhere in a run, whatever is routed later was routable in a coordinator state no older than the invalidation, and is never the deployment to avoid |
| `Billing.Forward` | gateway/internal/proxy/proxy.go:251-327 | nothing written exactly when the address is bad or failing was the first thing the proxy reported; aborted exactly when a started response broke off; a report exactly when a response that ended had usage, with every field and each count in its place |
| `Billing.HandledRight` | gateway/internal/proxy/proxy.go:196-224 | at most one report per request, under its id and to the replica that answered; a second replica only when the first wrote nothing, of another deployment, and from an answer given to this retry |
| `Billing.Gateway.HandleInference` | gateway/internal/proxy/proxy.go:196-224 | handling a request through the router and the reporter is exactly that step |
| `Billing.GatewayBillsOnce` | gateway/internal/proxy/proxy.go:196-199 | in every run of the gateway no two reports carry one request id, and its pipe is in a state of a pipe run |
| `Billing.Reporter.Report` | gateway/internal/usage/usage.go:88-99 | queues, or drops and counts when the queue is full; does nothing without a connection |
| `Billing.Reporter.Flush` | gateway/internal/usage/usage.go:105-115 | everything queued is attempted in order, and the queue is empty afterwards |
| `Billing.BillingConserves` | gateway/internal/usage/usage.go:88-142 | over every interleaving and for every record, reports = attempts + queued + dropped, attempts in report order, at most 1024 queued; every reported prompt token and every completion token is stored, queued, dropped or refused; one row per request id |
| `Ledger.JsonLines.Insert` | coordinator/internal/store/jsonl.go:33-72 | appends a valid, unseen record whose write works and only then marks it seen; a duplicate succeeds without writing |
| `Ledger.SinkIsFirstWriteWins` | coordinator/internal/store/jsonl.go:19-24 | the file holds one line per request id, that id's first write |
| `Ledger.LinesAreFirstWrites` | coordinator/internal/store/jsonl.go:45-66 | each line keeps every field of its id's first write, and its time to the millisecond |
| `Ledger.KeyedInsertMeans` | coordinator/internal/store/store.go:174-196 | exactly which records the table takes, and that it keeps every field |
| `Ledger.SinksAgreeIff` | coordinator/internal/store/store.go:174-196 | file and keyed table hold the same rows if and only if every first write has counts below 2^63 |
| `Ledger.HugeCountSplitsTheSinks` | coordinator/internal/store/migrations/0001_usage.sql:11-20 | a count of 2^63 is written to the file and refused by the table |
| `Ledger.GroupBy` | coordinator/internal/store/store.go:226-255 | one entry per node, or per API key, of the rows in the window, with exactly its sums, heaviest first and by key among equals, adding up to the grand total |
| `Ledger.GroupingIsUnique` | coordinator/internal/store/store.go:238-241 | the order leaves no choice: there is only one such grouping |
| `Ledger.SummedSplits` | coordinator/internal/store/store.go:198-220 | sums over disjoint sets of keys add up |
| `Ledger.SummedMeans` | coordinator/internal/store/store.go:198-220 | a row counts one request and its own tokens when it is in the window, and sums of rows put together add up |
| `Containers.PullImage` | agent/internal/runner/docker.go:181-209 | forwards the distinct statuses before the first error, and succeeds exactly when the stream ends cleanly without an error message |
| `Containers.StatusesOnceEach` | agent/internal/runner/docker.go:205-208 | every nonempty status is announced exactly once, and nothing else |
| `Containers.StatusesInOrder` | agent/internal/runner/docker.go:205-208 | announcements follow the order of the messages |
| `Containers.LogCoalescer.Flush` | agent/internal/runner/docker.go:312-320 | hands on everything buffered, in one chunk or none, and empties the buffer |
| `Containers.StreamLogs` | agent/internal/runner/docker.go:297-327 | the chunks concatenate to exactly the bytes written, in order, however writes and flushes interleave |
| `Containers.Run` | agent/internal/runner/docker.go:78-161 | PENDING updates as the pull announced them, then RUNNING ones, then exactly one terminal update; logs complete before it; after it the container is removed if and only if it was created, and then the channel closes; success and cancellation exactly when due |

## Left out

- In the lock-granular model a Stop's look-up of its node and its sending are one step, and a sweep sees one state of the registry.
- gRPC, HTTP, reverse-proxy and TLS mechanics: a stream is FIFO, a send is accepted or not, a replica wrote something or nothing.
- In `JobCluster` agents report only on their own jobs; the coordinator does not check whose job an update names.
- Requests are served one at a time in `Billing`; their routing steps interleave freely in `RoutingRuns`.
- Authentication, key parsing, logging, refusal texts, summaries for listing: easy branches.
- llama.cpp, tokenisation, chat templates, weight download, engine process supervision and sandboxing: foreign code or file and process I/O; the decode loop sees them as an arbitrary sequence of draws.
- JSON syntax: an encoding is any one-line text that is not the end marker and whose usage block the decoder reads back; of its text it keeps what `Utf8.Kept` says.
- GPU and system detection, `doctor`, main packages, scripts, Postgres connection and migrations.
- The backoff schedule of reconnects: no property depends on it.
- Wrap-around of the routing cursor, of nanosecond clocks and of summed 64-bit totals.
- `Ledger.GroupBy`: does not model the database's collation (keys compare by code point), nor timestamps finer than a millisecond.
- `Routers.Router.Pick`: does not model time passing between its two lock holds; a cache entry dropped in between is covered by `Choose`.
