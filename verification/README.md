# LunaBlue, verified

LunaBlue is a single-process asyncio service: prompts pass through governance, a small graph of
language-model calls over one shared local model, and an audit trail in Postgres, while a live-state
store is replicated to browser tabs and background agents run beside it. Its difficult code is a set
of small concurrent protocols over mutable state. This project models them and proves what they
guarantee in every reachable state and over every run.

Each protocol comes in the same layers. Objects that the source updates in place are classes whose
methods are proved against specification functions on the object's value (`Gate.PriorityGate`,
`Generation.LlamaRuntime`, `StateStore.StateStore`, `EventBus.EventBus`, `AgentRunner.AgentRunner`,
`AuditQueue.AuditService`, `Pipeline.PromptPipeline`). A step system then interleaves those functions:
one step is the code between two real suspension points, with clock readings, timeouts, cancellations
and outcomes of the model or the database as free parameters. An invariant is kept by every step, and
the theorems follow for all reachable states or all runs. What a run leaves behind (health, exits, snapshots,
audit rows, texts, deleted rows) is also stated without the specification functions: from the steps alone, or
field by field from the arguments and the state before.

| modules | what they cover |
|---|---|
| `Gate`, `Generation`, `GenerationTheorems`, `GenerationOutcomes` | the priority gate, the generation protocol around it, health and what callers are told |
| `Store`, `StateStore`, `StoreInvariants`, `StoreHistory`, `StoreReports` | the live-state store, its retention windows, phase timing and what it publishes |
| `EventBus`, `Replica`, `Stamps`, `Registry`, `Replication` | events, bounded subscriptions, the websocket stream and its clients |
| `ChatClaims`, `ChatOrder` | the chat half of the frontend reducer: which prompt shows which run |
| `AgentTrail`, `AgentRunner`, `RunnerProtocol`, `RunnerTrails`, `RunnerTheorems`, `RunnerOutcomes`, `RunnerWitnesses` | background agents, what each of their transitions leaves behind, and the reconstruction of an agent from its audit trail |
| `AuditQueue`, `AuditProtocol` | the audit writer |
| `Pipeline`, `RunHistory`, `RunReports` | prompt requests, the graph, runs abandoned on timeout and what is reported of each |
| `NormalForm` | the whitespace normal form of prompts |
| `Retention` | deleting old audit rows under foreign keys |
| `Basics` | `Option` and `RemoveFirst` |

## Where the code does not do what it says

The code is modelled as it is. Where a promise of the repository fails, the model has the exact
condition under which it holds and a concrete run or input for which it does not.

- A waiter cancelled before its grant is meant to leave `acquire` with `CancelledError`. When a
  release passes over its cancelled future before its task runs again, `queue.remove` raises
  `ValueError` instead: `CancelledWaiterExit` (exactly when), `ValueErrorRun` (a run). Lock safety does
  not depend on it.
- `close` of the agent runner is meant to audit every agent as cancelled. An agent a worker has taken
  but whose task has not run yet stays pending unless it is cancelled by request after that:
  `ShutdownSettlesExactly` (exactly when), `OrphanRun` (runs).
- `_reconstruct_detail` says every live field is derivable. The error of a wall-clock cancellation and
  a last fraction reported outside the unit interval are not: `ReconstructionAgrees` (exactly when),
  `WallClockErrorLost` and `FractionUnclamped` (runs).
- The outcome of a graph abandoned on timeout is meant to be discarded. It never touches a run again,
  but when its review asks for background work it still registers and audits an agent for the failed
  request: `AbandonedGraphOnlySpawns` (exactly when), `AbandonedGraphSpawns` (a run).
- `retention.py` says each table's window is independent and its row counts honest. Responses that go
  with an expired request are neither counted nor judged by their own window: `HonestResponseCount`
  (exactly when), `DishonestCount` (a database).
- The frontend claims a run for the oldest unclaimed prompt. It is the right prompt exactly when runs
  are first heard of in submission order: `ChatOrder.ClaimsFollowOrder` (exactly when),
  `LostPromptMisclaims` (a run).
- The frontend compares agent stamps as text. Text order is not time order for two stamps of one
  second of which one has no fraction (`TextOrderExact`), so the registry can stay behind with the
  clock running forward: `RegistryTracksExactly` (exactly when it keeps up), `ForwardClockRun` and
  `LaggingRun` (runs). Delivery order matters exactly when snapshots of one agent tie at its last stamp:
  `ConvergesExactly` (exactly when), `EqualStampsDiverge` (a pair).
- When the audit drain times out, the error log gives the queue's size, sentinel included, as the
  number of lost events. It is right only when exactly one event of the batch is uncommitted and the
  sentinel still queued, or none and the sentinel taken: `LossReportExact`; it can report an event too
  many (`OverReport`) or too few (`UnderReport`). `flush` never returns afterwards:
  `FlushHangsAfterTimeout`.

## Model

| member | source | states |
|---|---|---|
| Gate.PriorityGate.BeginAcquire | backend/app/llm/runtime.py:58-64 | a free gate is taken at once, a taken one queues a fresh future at the end of the caller's class |
| Gate.PriorityGate.Release | backend/app/llm/runtime.py:77-84 | the loops over both deques hand the gate to `NextOwner` and drop what they passed over, or unlock |
| Gate.PriorityGate.ResumeCancelled | backend/app/llm/runtime.py:65-74 | a cancelled waiter passes a grant on, leaves its queue, or raises `ValueError` when it is no longer there |
| Gate.NextOwnerIsFirstInLine | backend/app/llm/runtime.py:77-84 | the waiter granted is the live one no other live waiter precedes (foreground first, then arrival), and nobody is granted only if nobody live waits |
| Gate.ReleaseDiscards | backend/app/llm/runtime.py:79-83 | a release removes a queued future exactly when no other live waiter precedes it |
| Gate.ReleasedKeepsGateOk | backend/app/llm/runtime.py:77-84 | release keeps every live waiter queued once in its class, arrival order, and both queues empty at a free gate |
| Gate.AcquireCancelledKeepsGateOk | backend/app/llm/runtime.py:65-74 | so does the cancellation handler, whichever way it exits |
| Generation.LlamaRuntime.FinishGeneration | backend/app/llm/runtime.py:303-332 | success and crash release the gate and set health; a timeout from the thread leaves the gate held |
| Generation.LlamaRuntime.ReleaseAfterAbandoned | backend/app/llm/runtime.py:263-270 | an abandoned thread releases the gate when it ends, and a crash marks the runtime unhealthy |
| GenerationOutcomes.HealthFollowsVerdicts | backend/app/llm/runtime.py:263-336 | over every run from startup, the last error is the verdict of the steps alone: an observed completion clears it, an observed or abandoned crash sets its text, nothing else touches it; healthy exactly when there is none |
| GenerationOutcomes.CallersAreTold | backend/app/llm/runtime.py:300-337 | over every run, each caller that stopped awaiting its thread got its result, the model's error, the timeout or the cancellation, as the steps say; one that never got to its thread was cancelled |
| GenerationOutcomes.GrantedThenCancelled | backend/app/llm/runtime.py:67-75 | a waiter cancelled after the gate was handed to it passes it on and leaves with `CancelledError` |
| GenerationOutcomes.WaitersKeepTheirClass | backend/app/llm/runtime.py:58-64 | over every run, a waiting call's future has the priority class the call entered with, and is not in the other queue |
| Generation.StepKeepsInv | backend/app/llm/runtime.py:279-332 | every step of any mix of foreground and background calls, cancellations, timeouts, crashes and abandoned threads keeps the protocol's invariant |
| GenerationTheorems.MutualExclusion | backend/app/llm/runtime.py:58-84 | at most one thread is in the model, abandoned ones included; the locked flag is set exactly when there is an owner, and there is at most one |
| GenerationTheorems.NoLostHandOff | backend/app/llm/runtime.py:307-332 | nobody waits at a free gate, live waiters always have an owner before them, the lock log alternates, and a finished call released exactly as often as it acquired, at most once |
| GenerationTheorems.GrantsInOrder | backend/app/llm/runtime.py:63-84 | only a release grants; a background waiter only when no live foreground waiter exists; grants within a class follow arrival |
| GenerationTheorems.WaitMeasure | backend/app/llm/runtime.py:63-84 | over every run, each release brings a live waiter one place nearer, and only foreground arrivals push a background waiter back |
| GenerationTheorems.ForegroundGrantedWithin | backend/app/llm/runtime.py:63-84 | a foreground waiter with k live foreground waiters ahead is granted within k+1 releases unless cancelled |
| GenerationTheorems.NextInLineCanBeGranted | backend/app/llm/runtime.py:263-332 | from every reachable state with a live waiter, steps of the owner alone lead to a release that grants the waiter first in line |
| GenerationTheorems.EveryWaiterCanBeGranted | backend/app/llm/runtime.py:58-84 | each live waiter can still be granted the gate, by nothing but successive owners doing their steps |
| GenerationTheorems.DepthCountsCalls | backend/app/llm/runtime.py:86-93 | `depth` is the number of calls that own the gate or still have a future queued, abandoned and cancelled ones included |
| GenerationTheorems.CancelledWaiterExit | backend/app/llm/runtime.py:68-75 | a cancelled waiter exits with `ValueError` if and only if a release overran its future before it resumed |
| GenerationTheorems.ValueErrorRun | backend/app/llm/runtime.py:73 | a run of seven steps in which it does |
| StateStore.StateStore.StartRun | backend/app/state/store.py:315-339 | new state and emitted events of starting a run, and the duplicate-id error |
| StateStore.StateStore.UpdateRunPhase | backend/app/state/store.py:341-362 | new state and events of a phase change; unknown and terminal runs are left alone |
| StateStore.StateStore.FinishRun | backend/app/state/store.py:466-487 | new state and events of a terminal transition, evictions included; the first terminal state wins |
| StateStore.StateStore.EvictFinished | backend/app/state/store.py:489-502 | the eviction loop rolls the window forward and edits the victims' sessions |
| StateStore.StateStore.UpdateAgent | backend/app/state/store.py:423-464 | new state and events of an agent update: clamped fraction, cleared task queue, evictions; settled agents are left alone |
| StateStore.StateStore.EvictFinishedAgents | backend/app/state/store.py:504-517 | the eviction loop of settled agents |
| StoreReports.MutationReports | backend/app/state/store.py:175-536 | a mutation that takes effect publishes, field by field, what its arguments, the clock and the old records call for: ids, stamps, phase and node, summary or error and not the other, the closed duration, the session's user, activity and runs newest first, the agent's clamped fraction and cleared queue, then the evicted ones in order; any other publishes and changes nothing |
| StoreInvariants.ApplyKeepsStoreOk | backend/app/state/store.py:315-536 | every mutation keeps the indexes coherent: sessions list exactly their retained runs in start order, the finished queues hold exactly the retained terminal entries, bounds hold, phase histories are well formed |
| StoreInvariants.DurationsAddUp | backend/app/state/store.py:175-205 | closed phase durations sum to the start of the last phase minus the start of the first |
| StoreInvariants.EvictRunsRestoresBound | backend/app/state/store.py:489-502 | eviction restores the bound, keeps the newest finishers and removes only finished runs |
| StoreHistory.RetentionWindows | backend/app/state/store.py:466-517 | over every history the finished queues are exactly the last finishers that fit, in order |
| StoreHistory.RetainedAfter | backend/app/state/store.py:315-536 | from startup: a terminal run or agent is retained exactly when it is among the newest finishers, without duplicates, and sessions and phases are coherent |
| StoreHistory.NoInFlightRunIsEvicted | backend/app/state/store.py:489-502 | no mutation evicts or changes an in-flight run other than its own |
| StoreHistory.NoLiveAgentIsEvicted | backend/app/state/store.py:504-517 | nor a live agent other than its own |
| EventBus.EventBus.Publish | backend/app/state/events.py:79-107 | the counter grows by one and each subscriber gets the event, losing its oldest and turning degraded when full |
| EventBus.Subscription.StreamNext | backend/app/api/websocket.py:118-132 | a turn of the stream skips what the snapshot covers and otherwise sends the oldest event with the degraded flag, then clear |
| EventBus.SentIsLater | backend/app/api/websocket.py:118-132 | a queue is sent as exactly its events after the snapshot, in order, the degraded flag on the first only |
| EventBus.Emit | backend/app/state/store.py:298-311 | emitting a mutation's events publishes them one after the other to every subscriber |
| Replica.FoldMutation | backend/app/state/store.py:315-536 | the events of every mutation, evictions included, fold the old view of runs, sessions and agents into the new one |
| Replication.ReplicaAgreement | backend/app/api/websocket.py:118-178 | a client that saw no degraded message holds exactly the store as of its last delivered number, and with an empty queue the store now |
| Replication.ReplicaShowsStore | backend/app/state/store.py:181-225 | in every reachable state a client in sync with nothing left to deliver shows the store's runs and sessions field by field, and its agents |
| Replication.ExactGapDetection | backend/app/state/events.py:87-107 | each delivery has a larger number, and is degraded exactly when events in between were dropped; queues are contiguous, end at the counter and keep their bound |
| Stamps.RenderedInTextOrder | frontend/src/state/AppState.tsx:258 | comparing two rendered stamps as strings is comparing their places in the model's text order, for any rendering of the seconds that has a fixed width and their order |
| Stamps.RenderedWithDigits | frontend/src/state/AppState.tsx:258 | such a rendering exists: with the seconds in twelve digits the comparison is the model's |
| Stamps.TextOrderExact | frontend/src/state/AppState.tsx:255-260 | text order differs from time order exactly for two stamps of one second, one of them on the whole second |
| Replication.RegistryTracksExactly | frontend/src/state/AppState.tsx:253-282 | a synced client's registry equals the store's agents after each of its events if and only if no event's stamp comes, as text, before the one published last for its agent |
| Replication.RegistryAgreement | frontend/src/state/AppState.tsx:253-282 | the registry equals the store's agents as long as no clock reading, rendered, came before an earlier one |
| Replication.RegistryStepExact | frontend/src/state/AppState.tsx:253-265 | otherwise a delivery keeps registry and view together exactly when the snapshot's stamp does not come before the one held |
| Replication.LaggingRun | frontend/src/state/AppState.tsx:258-260 | for any two readings out of text order, a run in which the registry stays behind |
| Replication.ForwardClockRun | frontend/src/state/AppState.tsx:258-260 | such a run with the clock running forward |
| Registry.FoldHoldsLatest | frontend/src/state/AppState.tsx:253-265 | folding snapshots leaves, per agent, one whose stamp comes last as text, and no other agents |
| Registry.NewestHeld | frontend/src/state/AppState.tsx:255-260 | an agent's newest snapshot is held if and only if no older one of the same second comes after it as text |
| Registry.ConvergesExactly | frontend/src/state/AppState.tsx:253-265 | all deliveries of a set of snapshots, in any order and with any duplication, leave one registry if and only if no agent has two different snapshots with its last stamp |
| Registry.RegistryConverges | frontend/src/state/AppState.tsx:253-265 | in particular distinct stamps make every two deliveries agree |
| Registry.EqualStampsDiverge | frontend/src/state/AppState.tsx:258-265 | two snapshots tied at the last stamp whose delivery order decides the registry |
| Registry.SyncRestores | frontend/src/state/AppState.tsx:274-282 | a sync from a list of the store's agents yields exactly the store's map |
| ChatClaims.HearIs | frontend/src/state/AppState.tsx:201-241 | a run update refreshes the first message holding the run, or claims the run for the oldest unclaimed prompt, or changes nothing |
| ChatClaims.ChatActions | frontend/src/state/AppState.tsx:147-200 | submitting appends a waiting prompt; an answer marks its prompt with its run, appends the reply and adopts the session; a failure marks its prompt |
| ChatClaims.StepKeepsTabOk | frontend/src/state/AppState.tsx:147-241 | message ids stay unique, answered prompts hold their run, and each reply follows its prompt with the same run |
| ChatClaims.ClaimExact | frontend/src/state/AppState.tsx:219-240 | a claim is right if and only if the run's prompt is the oldest unclaimed one |
| ChatOrder.ClaimsFollowOrder | frontend/src/state/AppState.tsx:201-241 | over every run of a fresh tab, each prompt holds no run but its own and shows that run's latest phase in every state, if and only if the steps alone hear of runs in submission order |
| ChatOrder.LedgerMeans | frontend/src/hooks/usePromptSubmit.ts:30-48 | the ledger of submissions says of each prompt whether it was answered, lost or heard of, as the steps do |
| ChatClaims.LostPromptMisclaims | frontend/src/state/AppState.tsx:183-240 | runs in which a lost prompt's run is shown for the next prompt |
| AgentTrail.ReconstructDetail | backend/app/api/routes/agents.py:73-129 | the loop over the rows computes the fold of the trail, which `LastRowDecides` characterises |
| AgentTrail.LastRowDecides | backend/app/api/routes/agents.py:83-114 | over every list of rows, each rebuilt field reads as the last row that speaks about it says, and has its default when none does |
| AgentTrail.AtMostOneTerminal | backend/app/orchestration/runner.py:311-341 | a legal trail has at most one terminal event, last, exactly when it is settled |
| AgentRunner.AgentRunner.Spawn | backend/app/orchestration/runner.py:85-112 | refusal after shutdown, of unknown kinds and of duplicate ids; otherwise registration, audit and queueing together |
| AgentRunner.AgentRunner.Cancel | backend/app/orchestration/runner.py:114-135 | what cancelling does to a settled, running, pending or just-picked-up agent |
| AgentRunner.AgentRunner.Settle | backend/app/orchestration/runner.py:311-341 | the store settles first, and only a settling that took effect is audited |
| AgentRunner.AgentRunner.EndExecute | backend/app/orchestration/runner.py:240-309 | each way `agent.run` ends settles once, as `EndingSettles` spells out |
| RunnerOutcomes.EndingSettles | backend/app/orchestration/runner.py:240-339 | from every reachable state: a return completes the agent with its text and fraction 1, an exception or a model timeout fails it with the error, the wall clock cancels it with the error and its reason, a cancellation without; one row says the same, no other agent moves |
| RunnerOutcomes.SpawnRegisters | backend/app/orchestration/runner.py:85-112 | an accepted spawn registers the agent as pending with its task queued, begins its trail with what was asked for and queues it last; a refused one leaves no trace |
| RunnerOutcomes.SpawnAnswers | backend/app/orchestration/runner.py:88-97 | shut down, unknown kind and duplicate id, in this order |
| RunnerOutcomes.PickupTakesOldest | backend/app/orchestration/runner.py:200-208 | a worker takes the agent that has waited longest, never one taken before |
| RunnerOutcomes.FirstStepStarts | backend/app/orchestration/runner.py:215-227 | a task starts its agent, off the queue and with a row, unless it was cancelled or the agent settled meanwhile |
| RunnerOutcomes.ProgressShows | backend/app/orchestration/runner.py:343-358 | progress shows clamped in the registry and as reported in the trail |
| RunnerOutcomes.AttemptsWithinLimit | backend/app/orchestration/agents/base.py:117-125 | an attempt reaches the model exactly if there is no limit or it is within it |
| RunnerOutcomes.CancelSettles | backend/app/orchestration/runner.py:114-135 | a cancel request settles a waiting agent on the spot with its reason, tells a running one's task, and leaves any other alone |
| RunnerOutcomes.CancelAnswers | backend/app/orchestration/runner.py:120-135 | the answer is whether the agent was still unsettled |
| RunnerOutcomes.CloseSettlesQueue | backend/app/orchestration/runner.py:158-184 | `close` settles as cancelled, each with its reason, just the agents still queued and unsettled, and cancels the running tasks |
| RunnerTrails.TrailsBeginWithSpawn | backend/app/orchestration/runner.py:98-110 | in every reachable state each trail begins with the row of its spawn, saying what was asked for |
| AgentRunner.AgentRunner.BeginClose | backend/app/orchestration/runner.py:158-184 | spawns are refused from now on and every queued agent is settled as cancelled |
| RunnerProtocol.StepKeepsInv | backend/app/orchestration/runner.py:85-358 | every interleaving of spawn, pickup, progress, model calls, endings, cancels and shutdown keeps store, trail, queue, tasks and running map consistent, agent by agent |
| RunnerTheorems.LifecycleLanguage | backend/app/orchestration/runner.py:114-339 | each trail is a legal lifecycle whose stage is the live state: one terminal event exactly when the store settled the agent; model calls stay within a positive limit |
| RunnerTheorems.ReconstructionAgrees | backend/app/api/routes/agents.py:73-129 | reconstruction has the task, kind, session and request the agent was spawned with, and equals the last live snapshot on kind, session, request, state, phase and result always, on error exactly unless the wall clock cancelled, on fraction exactly when completed or last reported within the unit interval |
| RunnerTheorems.ClosedState | backend/app/orchestration/runner.py:158-194 | after `close` queue and running map are empty, spawns are refused, and an unsettled agent is a pending one whose task never ran |
| RunnerTheorems.ShutdownSettlesExactly | backend/app/orchestration/runner.py:114-206 | over every shutdown that ends, cancel requests included, all agents end settled if and only if each one taken by a worker but not run when `close` was called gets a cancel request after its worker let go of it |
| RunnerTheorems.ShutdownSettlesQueued | backend/app/orchestration/runner.py:158-194 | so they all do if every pending agent is still queued at the call, and without cancel requests only then |
| RunnerTheorems.ShutdownCanFinish | backend/app/orchestration/runner.py:184-194 | from every reachable state of a shutdown, the running agents' own steps lead to the closed state |
| RunnerWitnesses.OrphanRun | backend/app/orchestration/runner.py:203-206 | for any agent, a reachable closed state in which it is pending |
| RunnerWitnesses.WallClockErrorLost | backend/app/orchestration/runner.py:260-277 | a reachable state with a cancelled agent whose error the reconstruction lacks |
| RunnerWitnesses.FractionUnclamped | backend/app/orchestration/runner.py:343-358 | a reachable state with a failed agent whose fraction is 1 in the registry and 2 in the reconstruction |
| AuditQueue.AuditService.Enqueue | backend/app/audit/service.py:271-288 | never blocks; a full queue loses its oldest event, noted; nothing after close |
| AuditQueue.AuditService.TakeBatch | backend/app/audit/service.py:362-379 | the drain takes the leading events up to the limit and consumes a sentinel it meets |
| AuditProtocol.RecordExact | backend/app/audit/service.py:271-311 | in every reachable state: nothing enters after `close`; otherwise the event is queued last and the oldest dropped only at capacity; a drop is reported with all unreported ones unless a report is younger than the interval |
| AuditProtocol.CloseExact | backend/app/audit/service.py:331-343 | the first `close` with a consumer puts the sentinel last, at capacity in place of the oldest event; a second does nothing |
| AuditProtocol.TakeExact | backend/app/audit/service.py:362-379 | a batch is everything queued, in order, up to a hundred events, and the sentinel when it gets that far |
| AuditQueue.WriteBatch | backend/app/audit/service.py:387-402 | a batch transaction with rollback and individual retry ends in the database of one event at a time, failing ones skipped |
| AuditQueue.BatchingTransparent | backend/app/audit/service.py:362-402 | any two splits of the same events into batches end in the same database |
| AuditProtocol.Conservation | backend/app/audit/service.py:271-385 | every accepted event is exactly one of queued, in hand, processed, dropped or sacrificed; the queue is the newest run of accepted events within capacity; processing is in acceptance order; at most one is sacrificed; drop counters agree |
| AuditProtocol.FlushIsExact | backend/app/audit/service.py:356-358 | the unfinished counter is never negative and is zero exactly when nothing is queued or in hand |
| AuditProtocol.DatabaseIsOneByOne | backend/app/audit/service.py:362-402 | over every run the database is the committed events applied one at a time in acceptance order |
| AuditProtocol.CleanExit | backend/app/audit/service.py:325-350 | a consumer that exits by itself leaves an empty queue and every accepted event processed, dropped or the one sacrificed |
| AuditProtocol.DrainProgress | backend/app/audit/service.py:325-385 | after the sentinel the consumer always has a step and each brings the exit nearer; producers cannot push it away |
| AuditProtocol.DrainExists | backend/app/audit/service.py:325-343 | a shutdown with an event still to write is reachable |
| AuditProtocol.DrainCompletes | backend/app/audit/service.py:325-385 | without a timeout the consumer alone reaches its exit, having processed its hand and the whole queue in order |
| AuditProtocol.TimeoutLosses | backend/app/audit/service.py:345-352 | after a drain timeout the events really lost are the queued ones and the uncommitted rest of the batch; every other accepted event was dropped, sacrificed or committed |
| AuditProtocol.LossReportExact | backend/app/audit/service.py:348-353 | the logged number is right if and only if the uncommitted events of the batch are as many as the sentinels queued, and too high exactly when the batch was committed and the sentinel is queued |
| AuditProtocol.OverReport | backend/app/audit/service.py:345-353 | a run that reports one event lost and loses none |
| AuditProtocol.UnderReport | backend/app/audit/service.py:345-353 | a run that reports none and loses one |
| AuditProtocol.FlushHangsAfterTimeout | backend/app/audit/service.py:345-358 | over every continuation the unfinished counter keeps a positive value |
| Pipeline.PromptPipeline.Begin | backend/app/orchestration/pipeline.py:160-215 | the busy guard leaves no trace; otherwise the run is registered, governed, reviewed and audited, and failed when refused |
| Pipeline.PromptPipeline.EnterNode | backend/app/orchestration/graph.py:78-94 | entering a node advances the run's phase, and `agent_spawn` then asks the runner for an agent |
| Pipeline.SpawnedIs | backend/app/orchestration/nodes/agent_spawn.py:28-61 | the spawn takes effect exactly when the runner accepts, with the runner's own store and events |
| Pipeline.PromptPipeline.Settle | backend/app/orchestration/pipeline.py:227-276 | the run is completed with the summary or failed with the error, then the response is audited |
| RunHistory.FinishAdvances | backend/app/state/store.py:466-502 | finishing a run appends one terminal phase to its reported history and touches no other in-flight run |
| RunHistory.PhaseHistory | backend/app/orchestration/pipeline.py:173-276 | every request reports received, governance, a prefix of the graph's path, then one terminal phase exactly when `run` exited; completed only after the full path |
| RunHistory.NextNodeKeepsPathOk | backend/app/orchestration/graph.py:97-145 | following the edges yields only prefixes of the plain path or, with agents, of the detour, and ends exactly at a full path; the detour is taken exactly when a runner is bound and the review asks for work |
| RunHistory.SpawnsExactly | backend/app/orchestration/nodes/agent_spawn.py:28-61 | in every reachable state a node's entry registers an agent exactly when it is `agent_spawn`, the runner is open, knows the kind and the id is free; the agent, its row and its event are written out |
| RunReports.ReportsFollowSteps | backend/app/orchestration/pipeline.py:160-276 | over every run, the last snapshot published of a request carries the summary of its output cut to 200 characters, or its error, as the steps alone say, and names its phase's node; a retained record shows the same |
| RunReports.BeginAnnounces | backend/app/orchestration/pipeline.py:173-182 | a request that begins publishes its run, then its session with the user it names or the one known before |
| RunHistory.AbandonedGraphOnlySpawns | backend/app/orchestration/graph.py:78-94 | a step of an abandoned graph changes anything if and only if it enters `agent_spawn` and the runner takes the agent; then exactly one pending agent is registered, reported and audited; runs, sessions, histories and request chains never change |
| RunHistory.AbandonedGraphSpawns | backend/app/orchestration/pipeline.py:284-300 | it happens: a request times out during its review and its graph registers an agent afterwards |
| RunHistory.SettledIsFinal | backend/app/orchestration/pipeline.py:227-300 | a settled request's history and audit chain never change again |
| RunHistory.AuditChain | backend/app/orchestration/pipeline.py:180-276 | a request is audited once, and answered once exactly when accepted and settled, in agreement with its terminal phase |
| RunHistory.AuditRespectsForeignKeys | backend/app/orchestration/pipeline.py:177-182 | session before request before response, and request before every row of an agent spawned for it, in the order the audit queue receives them |
| NormalForm.OutputInNormalForm | backend/app/governance/intake.py:33-41 | no control character, tab, double space, edge whitespace of a line, three newlines or edge newline in the output |
| NormalForm.FixedPoints | backend/app/governance/intake.py:33-41 | the texts left alone are exactly those in normal form |
| NormalForm.Idempotent | backend/app/governance/intake.py:33-41 | normalizing twice is normalizing once |
| NormalForm.NormalizedIsRewritten | backend/app/governance/intake.py:33-41 | normalizing is taking the text apart into words and gaps and writing them out: one newline for a gap that held one, two for more, otherwise the gap's blanks with each run of spaces and tabs as one space, nothing at the ends |
| NormalForm.KeepsPieces | backend/app/governance/intake.py:33-41 | the output has the input's words and gaps |
| NormalForm.KeepsInk | backend/app/governance/intake.py:33-41 | whatever counts as a control character, those that are neither whitespace nor control are kept, in order |
| Retention.SafeExactly | backend/app/audit/retention.py:45-72 | under resolved windows a row is safe in its own table at all times exactly when the override of that table, or else the default, is not positive |
| Retention.KeptForeverExactly | backend/app/audit/retention.py:33-72 | over every database, an event, request or session is kept at all times exactly when its table's window is off, a response exactly when its own and its request's are |
| Retention.KeptWhileYoung | backend/app/audit/retention.py:33-84 | over every database and clock reading, a row is kept exactly as long as it is no older than its table's days, resolved from override or default, and a response only with its request |
| Retention.ApplyRetention | backend/app/audit/retention.py:54-95 | a dry run changes nothing and reports the same counts as the real run, which are those of the database at the start |
| Retention.WhatSurvives | backend/app/audit/models.py:33-106 | a response stays exactly when inside its window and its request stays; events, requests and sessions exactly when inside their own; references to deleted parents are cleared and no others |
| Retention.KeepsForeignKeys | backend/app/audit/retention.py:33-42 | foreign keys hold after any prefix of the tables, so after an interrupted run |
| Retention.NextRunCompletes | backend/app/audit/retention.py:12-15 | an interrupted run followed by a run then or later ends as the uninterrupted one |
| Retention.SecondRunAffectsNothing | backend/app/audit/retention.py:54-95 | a second run at the same instant matches no row and changes nothing |
| Retention.HonestResponseCount | backend/app/audit/retention.py:33-42 | the response count misses exactly the cascaded rows, so it is honest if and only if every response of an expired request is itself expired |
| Retention.HonestOtherCounts | backend/app/audit/retention.py:73-84 | the other tables' counts are the rows removed |
| Retention.DishonestCount | backend/app/audit/retention.py:33-42 | a database in which a response is removed and none is reported |

## Left out

- HTTP routes, schemas, the error envelope, health probes, redaction, policy rules, prompt templates, settings: plumbing around the protocols.
- llama.cpp, LangGraph, SQLAlchemy and Postgres: a thread that returns or raises, a fixed edge list, and statements whose outcome is a function of the database, with rollback. A statement that fails once and succeeds on retry is not modelled.
- Records inside the store's dictionaries are values that the methods replace; two references to one record never exist in the model.
- Futures are numbered by creation; `asyncio`'s own cancellation of inference threads at loop teardown is not modelled, nor unloading the model while callers wait.
- One store mutation with the events it emits is one step, because the store's lock is never held across a suspension point and `_emit` follows without an await.
- Time is an integer clock of microseconds. Stamps are taken to be rendered with the six digits of the microsecond unless it is zero, then `Z`; dates and times to the second have a fixed width and their order. Audit timestamps are not compared.
- Floating point is modelled by real numbers in phase durations and progress fractions.
- RunnerProtocol.StepKeepsInv: the queued agents drained by `close` share one clock reading; agent kinds are constructed without raising; agents' own audit events do not use the runner's lifecycle names; the shielded settle of a cancelled agent is the next thing that happens to it.
- RunnerTheorems.ReconstructionAgrees: the trail is complete and read back in emission order. Rows dropped by the audit queue, a row limit, or a wall clock that steps back between two rows of one agent (rows are read by timestamp, then id) are not covered; task parameters and timestamps are not compared.
- RunHistory.PhaseHistory: agents are spawned by the graph alone, as in the service; how the runner moves them on is free here and exact in `RunnerProtocol`. The request handler itself is not cancelled, because a cancelled `run` skips its failure branch and leaves the run unsettled; request ids are fresh.
- Replication.ReplicaAgreement: a client disconnects on the first degraded message, as the frontend does; reconnecting is a new connection. Backoff, heartbeat and the polling fallback are not modelled.
- ChatOrder.ClaimsFollowOrder: message texts, connectivity and model status are left out; message ids hold no colon, as UUIDs do, and the backend answers with the session id it was sent.
- AuditProtocol.Conservation: the consumer is started once and dies only by exiting or by the drain timeout.
- NormalForm.OutputInNormalForm: the NFKC step before it stays abstract (Unicode Standard Annex #15), and which characters are control characters is a parameter that excludes the space.
- Retention.ApplyRetention: dates so far back that the subtraction overflows are not modelled.
- The busy guard as a bound on the number of queued generations: it checks and then acts, so it gives none.
- `PromptIntake._next_version` and the length checks of `review`: one-line members.
