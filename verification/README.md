# Verification of the workflow engine and the agent loop

A Dafny model of the stateful cores of the backend, and proofs about it:

- the database-backed job engine (claiming, executing, finalising, operator actions, dead-letter queue, event log),
- the graph checks (Kahn's algorithm for definitions and for task dependencies),
- the nested semaphores of bounded parallelism,
- the agent loop with its guards and its memory window,
- the multi-file patch tool, and the in-process broadcaster.

`dafny verify dfyconfig.toml` checks everything.

## How the model is laid out

| files | what they hold |
|---|---|
| `Lists.dfy` | list comprehensions with a condition |
| `Graph.dfy`, `Kahn.dfy` | walks, reachability and cycles in multigraphs; the sorting loop, with a real termination measure |
| `Dag.dfy`, `Definition.dfy` | the two validators of process definitions, and their agreement |
| `TaskDependencies.dfy` | the dependency table: insertion, removal, cascade, blocking |
| `StateMachine.dfy` | statuses, transition tables, the event log and its replay |
| `EngineSpec.dfy` | the engine as a transition system: `Apply` is one atomic step of some worker, executor or operator |
| `EngineSafety.dfy`, `EngineRetries.dfy`, `EngineWakeups.dfy`, `EngineCompletion.dfy`, `EngineEvents.dfy`, `EngineStepTable.dfy` | what every interleaving of these steps keeps |
| `EngineEffects.dfy` | what each action does to each row, process, executor and to the log, case by case |
| `EngineRevival.dfy`, `EngineQueued.dfy`, `EngineUpstreams.dfy`, `EngineProspects.dfy` | what can still happen after a run: which steps can be claimed, and which processes completed |
| `EngineRuns.dfy` | runs in parts, and the shortest runs in which something happens to a step |
| `Engine.dfy` | the handlers, workers and executors as methods of a class over mutable tables, each proved to be its step of `EngineSpec` |
| `Parallel.dfy` | semaphores and gather calls under any scheduler |
| `Safety.dfy`, `Memory.dfy`, `AgentLoop.dfy` | the guards, the window over the conversation, and the loop that uses both |
| `ApplyPatch.dfy` | validating, writing and rolling back a list of edits, with a fault at any write or rename |
| `Broadcaster.dfy` | channels of bounded queues, proved against the history of operations |

A mutable component is a class; its methods are proved against a function of its history or of its earlier state
(`View`, `Tracks`, `Valid`), and the promises are lemmas over that function, for every run.
The engine's main results quantify over every sequence of actions from an empty database. Adversaries (the model,
the tools, the scheduler, faults of the disk, the order of database rows) are parameters that the lemmas quantify over.

## Modelling assumptions

- One request handler, or one phase of an executor between two commits, is one atomic step on the current rows. The
  sessions keep objects across commits (backend/app/db.py:22), so fresh reads are an assumption. Claiming keeps the finer
  grain: scan, then lock and look again row by row, then commit.
- A handler or executor that would write a row locked by an open claim waits; its step then happens later.
- The step row handed to an executor is assumed to be attached to its session. The shipped caller does not do this: by
  reading backend/app/workflow/worker.py:52-61, the row comes from a claiming session that has been closed, and the executor
  gets another session, so that the statuses it writes to that row would not be saved.
- No code moves a process from queued to running; other code may move a process anywhere the table allows except to
  completed and failed (action `External`).
- Creating a process commits three times (process, rows, event); the model does it in one step.
- Text is written with plain line endings, as on POSIX systems.
- Candidates and rows come in any order the database may choose.

## Where the code does less than its documentation says

Each of these has a theorem that says exactly when the promise holds; where the failing input is not plain, a lemma shows one.

- Replay gives `created`, not the stored status, exactly while a process is in draft: `EngineEvents.ReplayGivesStoredStatus`,
  `EngineEvents.FreshProcessReplaysAsCreated`.
- Steps wait for their upstreams in every run exactly when the definition has no edges: `EngineUpstreams.UpstreamsRespectedIff`,
  `EngineUpstreams.AnyStepCanRunFirst`.
- A step is never claimed again exactly when no executor has it in flight and it is neither waiting nor failed:
  `EngineQueued.NeverClaimedAgainIff`. Steps that are queued downstream of a completed one are never in flight, so they stay
  where they are. Cancelling a process stops the claims of its steps exactly when none is in flight and none has failed:
  `EngineQueued.CancelStopsClaimsIff`.
- A process can still be completed exactly when it has not failed or been cancelled, none of its steps is stranded (not done,
  and never claimed or settled again), and there is work or an executor left: `EngineProspects.CanStillCompleteIff`,
  `EngineProspects.SomeRunCompletes`. One that is started before its root steps have been claimed never completes:
  `EngineProspects.StartedFirstNeverCompletes`.
- Step statuses follow the step transition table except for certain writes of five actions: `EngineStepTable.TableObeyedIff`,
  `EngineStepTable.ApprovalBypassesTheTable`.
- The `step.failed` event is saved exactly when all steps of the process are settled at the moment of finalising
  (backend/app/workflow/executor.py:153-161, 233-259), whether or not the process may still move; the model keeps it in the
  executor until then: `EngineEvents.FailureEventKeptIff`, `EngineEvents.FailureEventIsLost`.
- The circuit breaker forgets a failing tool when the tool of the latest trip succeeds: `Safety.BreakerIsWrongIff`,
  `Safety.LaterSuccessClearsTheTrip`.
- Asking for approval does not pause the agent loop: `AgentLoop.ApprovalEndsTheRunIff`, `AgentLoop.ApprovalIsIgnored`.
- A negative step limit makes a run that does nothing succeed: `AgentLoop.SuccessIff`.
- A global limit of 0 blocks every non-empty gather call: `Parallel.GatherNeverStuckIff`.
- Files are read and restored in text mode, which turns every line ending into a plain one. A patch is therefore all-or-nothing
  exactly when its temporary names are spare and no file that can be rolled back contains a carriage return:
  `ApplyPatch.AllOrNothingIff`, `ApplyPatch.RollbackLosesCarriageReturns`. A patch that succeeds has precisely its effects
  exactly when no existing file that it patches contains one: `ApplyPatch.TidyPatchesApplyPreciselyIff`. On success no edit is
  lost exactly when edits of one file agree on the result and no patched file is left as a temporary name:
  `ApplyPatch.NoEditLostIff`, `ApplyPatch.FirstOfTwoEditsIsLost`.

## Model

| member | source | states |
|---|---|---|
| `Kahn.TopologicalSort` | backend/app/workflow/dag.py:68-93 | the loop ends; the order lists, without repeats and sources first, exactly the steps that no cycle leads to, and the final in-degree is positive exactly on the others; duplicate edges allowed |
| `Kahn.BuildTables` | backend/app/workflow/dag.py:69-73 | in-degrees count the edges into a step with repeats; adjacency lists have the targets in edge order |
| `Kahn.Relax` | backend/app/workflow/dag.py:83-86 | after the pass every in-degree counts exactly the edges from steps not yet visited, and exactly the steps at zero are listed, once each |
| `Kahn.InitialQueue` | backend/app/workflow/dag.py:76-78 | the queue starts with exactly the steps that have no incoming edge |
| `Kahn.CountsDecideAcyclicity` | backend/app/workflow/dag.py:88 | comparing the two lengths decides whether the multigraph has a cycle |
| `Dag.ValidateDag` | backend/app/workflow/dag.py:22-100 | accepts exactly the definitions with non-empty unique names, existing endpoints, no self-loop and no cycle; the order is a permutation of the names with every edge pointing forwards; a cycle report names exactly the steps behind a cycle |
| `Dag.CheckNames` | backend/app/workflow/dag.py:40-50 | stripped names must be non-empty and unique; an error names a real offender |
| `Dag.StripTrims` | backend/app/workflow/dag.py:44 | stripping takes whitespace away at both ends, all of it, and nothing else |
| `Dag.SourceOf` | backend/app/workflow/dag.py:56 | the source of an edge is its `from`, or its `from_` when that is missing or empty |
| `Dag.CheckEdges` | backend/app/workflow/dag.py:52-66 | endpoints must be present, known and different; an error names a real offender |
| `Dag.JustifiedMeansInvalid` | backend/app/workflow/dag.py:45-93 | every kind of rejection is a proof that the definition is not well formed |
| `Dag.FindRootSteps` | backend/app/workflow/dag.py:103-115 | returns exactly the named steps that no edge points to |
| `Lists.FilterInOrder` | backend/app/workflow/dag.py:112-115 | root steps come in the order of the definition, repeats included; the same for the typed definition |
| `Definition.ValidateDefinition` | backend/app/workflow/definition.py:58-89 | accepts exactly the definitions whose fields pass, whose names are unique, whose endpoints exist and whose graph has no cycle, whatever order the name set is walked in; each error is justified |
| `Definition.SetSizeDecidesDistinct` | backend/app/workflow/definition.py:60-62 | comparing the set size with the list length decides uniqueness |
| `Definition.DumpKeepsNamesAndEdges` | backend/app/workflow/api/routes.py:62-64 | dumping a definition with `from_` keys loses nothing the second check reads |
| `Definition.ValidatorsAgree` | backend/app/workflow/definition.py:58-89 | both validators accept the same definitions |
| `Definition.CheckForCreation` | backend/app/workflow/api/routes.py:52-66 | the second check never rejects what the first accepted |
| `Definition.Upstream` | backend/app/workflow/definition.py:100-102 | exactly the sources of the edges into the step |
| `Definition.Downstream` | backend/app/workflow/definition.py:96-98 | exactly the targets of the edges out of the step |
| `Definition.QueriesFollowEdgeOrder` | backend/app/workflow/definition.py:96-102 | both queries go through the edges in order |
| `Definition.QueriesCountEdges` | backend/app/workflow/definition.py:96-102 | and repeat a name as often as the edge is repeated |
| `Definition.StepByName` | backend/app/workflow/definition.py:104-108 | the first step of that name if there is one |
| `Definition.RootSteps` | backend/app/workflow/definition.py:91-94 | exactly the names without incoming edge |
| `Definition.EveryStepIsBelowARoot` | backend/app/workflow/definition.py:91-94 | every step of a valid definition is reached from a root step |
| `TaskDependencies.ClosesCycleIffReachable` | backend/app/workflow/task_subdeps.py:149-182 | adding an edge to an acyclic graph keeps it acyclic exactly when its target does not already reach its source |
| `TaskDependencies.ApplyKeepsHealthy` | backend/app/workflow/task_subdeps.py:111-194 | each operation keeps the graph free of cycles, self-loops, duplicates and dangling edges |
| `TaskDependencies.AddedIff` | backend/app/workflow/task_subdeps.py:111-146 | a dependency is added, at the end, exactly when both tasks exist and differ, it is new, and the graph with it has no cycle; which refusal it gets otherwise |
| `TaskDependencies.RemovedIsTakenOut` | backend/app/workflow/task_subdeps.py:185-194 | removing takes out exactly that entry and leaves the others in order |
| `TaskDependencies.DeletedTakeTheirsAlong` | backend/app/models/task.py:110-118 | deleting tasks takes along exactly the dependencies that mention one of them |
| `TaskDependencies.EveryRunIsHealthy` | backend/app/workflow/task_subdeps.py:111-194 | so does every sequence of creating, deleting, adding and removing |
| `TaskDependencies.SomeTaskIsUnblocked` | backend/app/workflow/task_subdeps.py:221-224 | a non-empty group of tasks that holds its open blockers has an unblocked task |
| `TaskDependencies.GroupCanBeFinished` | backend/app/workflow/task_subdeps.py:221-224 | such a group can be finished one task at a time, each unblocked when its turn comes |
| `TaskDependencies.DependencyTable.WouldCreateCycle` | backend/app/workflow/task_subdeps.py:149-182 | true exactly when the graph with the new edge has a cycle, on an acyclic graph exactly when the blocked task reaches the blocker |
| `TaskDependencies.DependencyTable.AddDependency` | backend/app/workflow/task_subdeps.py:111-146 | adds the edge or refuses for the first reason that applies, and keeps the table healthy |
| `TaskDependencies.DependencyTable.RemoveDependency` | backend/app/workflow/task_subdeps.py:185-194 | removes exactly that edge and says whether it was there |
| `TaskDependencies.DependencyTable.GetBlockers` | backend/app/workflow/task_subdeps.py:197-206 | exactly the blockers, without repeats |
| `TaskDependencies.DependencyTable.IsTaskBlocked` | backend/app/workflow/task_subdeps.py:221-224 | true exactly when some blocker is neither done nor cancelled |
| `StateMachine.DeriveProcessStatusFromEvents` | backend/app/workflow/state.py:142-153 | computes what the last process event says |
| `StateMachine.LastProcessEventDecides` | backend/app/workflow/state.py:149-153 | step events after the last process event change nothing |
| `StateMachine.NoProcessEventMeansDraft` | backend/app/workflow/state.py:142-153 | without any process event the status is that of a draft |
| `StateMachine.StepEventsDoNotMatter` | backend/app/workflow/state.py:150-152 | replaying all events of a process is replaying its process events |
| `StateMachine.ExtendHistory` | backend/app/workflow/state.py:89-108 | an allowed transition extends a legal path from draft |
| `StateMachine.ReplayIsExactAfterATransition` | backend/app/workflow/state.py:142-153 | on a legal history replay gives the stored status exactly when the process is no longer in draft, that is, after a transition |
| `StateMachine.FinalEventIsLast` | backend/app/workflow/state.py:40-49 | a completed, failed or cancelled event is the last process event and gives the status |
| `StateMachine.TablesByTarget` | backend/app/workflow/state.py:40-72 | from which statuses each process status and each step status can be reached |
| `EngineSpec.NextRetryDelay` | backend/app/workflow/queue.py:32-39 | no delay before the first attempt, then the powers of 4 up to 256 seconds, which stays the delay from the fifth on |
| `EngineSpec.Queueable` | backend/app/workflow/executor.py:196-226 | exactly the pending downstream steps whose upstreams are all completed or skipped, once each |
| `EngineSafety.ClaimsAreExclusive` | backend/app/workflow/queue.py:70-104 | a row claimed by one worker is claimed by no other and is in flight nowhere |
| `EngineSafety.KeepsSafe` | backend/app/workflow/queue.py:42-106 | every action keeps rows fitting their definitions, claims locked and ready, and at most one executor per step, which is then running, queued or cancelled |
| `EngineSafety.EveryRunIsSafe` | backend/app/workflow/queue.py:42-106 | the same in every interleaving of workers, executors and operators |
| `EngineSafety.ClaimsAreExclusiveInEveryRun` | backend/app/workflow/queue.py:70-104 | in every run no step is claimed by two workers, or claimed while in flight |
| `EngineSafety.OneExecutorInEveryRun` | backend/app/workflow/executor.py:42-48 | in every run a step has at most one executor in flight, and its status is then running, queued or cancelled |
| `EngineSafety.LockNextEffect` | backend/app/workflow/queue.py:71-100 | looking at a candidate drops it, locks it, or locks and claims it, stops at the claim limit, and touches no other worker |
| `EngineSafety.SettleHasEffect` | backend/app/workflow/executor.py:126-180 | settling rewrites only the executor's own row and takes only that executor out of flight |
| `EngineRetries.EveryRunIsAccounted` | backend/app/workflow/queue.py:132-165 | attempts never exceed the maximum; waiting steps have one left; claims equal attempts plus maximum times replays; dead-letter rows record exhausted steps and at most one is open per step |
| `EngineRetries.FailedStepsAreInTheDlq` | backend/app/workflow/queue.py:144-156 | a failed step has exactly one open dead-letter row |
| `EngineRetries.ClaimsWithinAllowance` | backend/app/workflow/queue.py:92-97 | any steps together are claimed at most the sum of their maxima, times one plus the replays that revived them |
| `EngineRetries.WaitGrowsByDelay` | backend/app/workflow/queue.py:29-39 | the closed form of the minimal wait grows by the back-off of each attempt |
| `EngineRetries.BackoffBound` | backend/app/workflow/queue.py:29-39 | without replay the n-th claim comes at least (4^(n-1) - 1)/3 seconds after the first, for n above 6 at least 341 + 256(n - 6) |
| `EngineRetries.ClaimsKeepTheirDistance` | backend/app/workflow/queue.py:86-97 | the same for every step of every run |
| `EngineRetries.BoundIsAttained` | backend/app/workflow/queue.py:29-39 | and the bound is exact: for every step of every valid definition and every n that its attempts allow, a run has its n-th claim exactly that many seconds after the first |
| `EngineRetries.ReplayKeepsDlq` | backend/app/workflow/api/routes.py:320-336 | a replay closes one dead-letter row and leaves failed steps and open rows matched |
| `EngineWakeups.EnqueueQueues` | backend/app/workflow/executor.py:188-227 | enqueueing queues every untouched downstream step whose upstreams are all done |
| `EngineWakeups.CompletionKeepsWakeups` | backend/app/workflow/executor.py:173-183 | a completion leaves behind an executor that will look at whoever waits for it |
| `EngineWakeups.EveryRunKeepsWakeups` | backend/app/workflow/executor.py:173-227 | in every run, if a never-touched non-root step has all upstreams done, some upstream's executor is between its completion and its enqueueing |
| `EngineWakeups.NothingForgottenAtRest` | backend/app/workflow/executor.py:182-227 | when no executor is at work, no such step is left |
| `EngineCompletion.CompletedIsFrozen` | backend/app/workflow/executor.py:229-259 | no action of anyone changes a completed process or its steps |
| `EngineCompletion.FinalisingAgainChangesNothing` | backend/app/workflow/executor.py:246-258 | a second finaliser saves the same outputs and is refused the move |
| `EngineCompletion.EveryRunIsCompletedOk` | backend/app/workflow/executor.py:239-256 | a completed process has only completed or skipped steps, and its outputs are the map of their non-empty outputs |
| `EngineCompletion.CompletedForGood` | backend/app/workflow/executor.py:229-259 | both together, for every run and every continuation of it |
| `EngineEvents.EveryRunIsEventSourced` | backend/app/workflow/state.py:80-108 | in every run the process events of each process are its creation and a legal path from draft to its stored status; it was started exactly if that path went through running |
| `EngineEvents.ReplayGivesStoredStatus` | backend/app/workflow/state.py:142-153 | in every run replay equals the stored status exactly when the process is no longer in draft, and gives `created` before |
| `EngineEvents.FreshProcessReplaysAsCreated` | backend/app/workflow/state.py:142-153 | a process just created, for which replay and status differ |
| `EngineEvents.FailureEventKeptIff` | backend/app/workflow/executor.py:150-161 | finalising appends the failure event exactly when all steps are settled; otherwise the log stays as it is and the executor is gone |
| `EngineEvents.FailureEventKeptIffInEveryRun` | backend/app/workflow/executor.py:150-161 | the same in every run |
| `EngineEvents.FailureWithAttemptsLeft` | backend/app/workflow/executor.py:150-161 | an attempt that fails with attempts left leaves its process unsettled |
| `EngineEvents.FailureEventIsLost` | backend/app/workflow/executor.py:150-161 | a run with a failed attempt and no failure event |
| `EngineEvents.FinalEventEndsEveryHistory` | backend/app/workflow/state.py:40-49 | in every run a completed, failed or cancelled event occurs at most once, is the last process event, and gives the stored status |
| `EngineEvents.StartedOnce` | backend/app/workflow/state.py:95-97 | no action overwrites the time of the first start |
| `EngineEvents.StartedForGood` | backend/app/workflow/state.py:95-97 | that time stays the same in every continuation of every run |
| `EngineQueued.InertStepsNeverRun` | backend/app/workflow/queue.py:82-83 | a step that nobody executes and that is neither waiting nor failed is never claimed in any continuation: same claims, attempts and outputs, and it stays queued or cancelled, or not done, if it was |
| `EngineQueued.EnqueuedStepsAreInert` | backend/app/workflow/executor.py:218-220 | enqueueing downstream steps leaves them queued and in that state |
| `EngineQueued.StartedRootsAreInertIff` | backend/app/workflow/api/routes.py:158-168 | starting leaves a root step queued, and in that state exactly when no executor already works on it |
| `EngineQueued.FlightsCanBeClaimedAgain` | backend/app/workflow/queue.py:132-165 | in every run a step in flight has a continuation that claims it once more |
| `EngineQueued.ActiveStepsCanBeClaimedAgain` | backend/app/workflow/queue.py:82-97 | so has every step that is waiting or failed |
| `EngineQueued.NeverClaimedAgainIff` | backend/app/workflow/queue.py:82-83 | in every run a step is never claimed again in any continuation exactly when it is in that state |
| `EngineQueued.CancelStopsClaimsIff` | backend/app/workflow/api/routes.py:198-210 | after cancelling, no step of the process is ever claimed again exactly when none is in flight and none has failed |
| `EngineRevival.ReleaseLock` | backend/app/workflow/queue.py:71-103 | open claim transactions can always go on until a row is unlocked |
| `EngineRevival.MakeInFlight` | backend/app/workflow/queue.py:70-97 | any waiting, failed or executing step can be brought into flight without touching an execution |
| `EngineUpstreams.AnyStepCanRunFirst` | backend/app/workflow/queue.py:56-97 | in every run any step of a process just created can be claimed while all others are pending |
| `EngineUpstreams.UpstreamsRespectedIff` | backend/app/workflow/queue.py:56-97 | for every valid definition: in every run each claim of a step finds its upstreams done, if and only if there are no edges |
| `EngineProspects.DriveAll` | backend/app/workflow/executor.py:163-180 | if no step is stranded, some continuation makes all steps of the process succeed |
| `EngineProspects.FinishUp` | backend/app/workflow/executor.py:174-259 | then an executor that is left takes a running process to completed |
| `EngineProspects.StrandedNeverCompletes` | backend/app/workflow/executor.py:239-256 | a process with a stranded step is never completed |
| `EngineProspects.DeadEndsStay` | backend/app/workflow/executor.py:229-259 | a process that is failed or cancelled stays so; one with no work and no executor left stays uncompleted |
| `EngineProspects.CanStillCompleteIff` | backend/app/workflow/executor.py:229-259 | in every run a process has a continuation that completes it exactly when it has not failed or been cancelled, no step is stranded, and it is completed already or has work or an executor left |
| `EngineProspects.NewProcessCanComplete` | backend/app/workflow/api/routes.py:68-99 | every process just created can be completed |
| `EngineProspects.SomeRunCompletes` | backend/app/workflow/executor.py:163-259 | a concrete run that does |
| `EngineProspects.StartedTooEarlyNeverCompletes` | backend/app/workflow/api/routes.py:158-168 | a process started while one of its root steps is unclaimed is never completed |
| `EngineProspects.StartedFirstNeverCompletes` | backend/app/workflow/api/routes.py:158-168 | nor is one started before any root step is claimed |
| `EngineStepTable.TableObeyedIff` | backend/app/workflow/state.py:51-72 | a change of a step's status is one the table allows exactly when it was not made by: starting with a row that is not pending, resuming, replaying, claiming a retrying row, settling for approval, or settling a row that is not running |
| `EngineStepTable.TableObeyedIffInEveryRun` | backend/app/workflow/state.py:51-72 | the same for every action of every run |
| `EngineStepTable.ApprovalBypassesTheTable` | backend/app/workflow/executor.py:127-131 | a run that moves a step from running to paused |
| `EngineEffects.StartAcceptedIff` | backend/app/workflow/api/routes.py:137-177 | starting is accepted exactly for a draft with no root row locked, and the rows to queue are those of the steps without incoming edge |
| `EngineEffects.CancelAcceptedIff` | backend/app/workflow/api/routes.py:181-213 | cancelling is accepted exactly for a process that is not completed, failed or cancelled, and takes exactly its pending, queued, running and retrying rows |
| `EngineEffects.ScanAcceptedIff` | backend/app/workflow/queue.py:56-67 | a scan lists at most three times the limit of rows, each pending or retrying and due by now, and reads the clock once |
| `EngineEffects.EnqueueAcceptedIff` | backend/app/workflow/executor.py:188-227 | enqueueing waits exactly for the unlocked state of the pending rows downstream whose upstreams are all completed or skipped |
| `EngineEffects.ActionRewritesRow` | backend/app/workflow/queue.py:42-165 | what every action does to every row, field by field: nothing but the changes listed for starting, cancelling, resuming, replaying, claiming, settling and enqueueing |
| `EngineEffects.ActionRewritesRowInEveryRun` | backend/app/workflow/queue.py:42-165 | the same after every run |
| `EngineEffects.FailedAttemptInEveryRun` | backend/app/workflow/queue.py:132-165 | in every run a failed attempt a of at most maxAttempts fails the step with a new dead-letter row if it is the last, and otherwise has it retried exactly 4^(min(a, 5) - 1) seconds later |
| `EngineEffects.CreateMakesRows` | backend/app/workflow/api/routes.py:68-99 | creating makes exactly one pending, unused row per step, with the attempts it asks for or five, a draft process and the created event |
| `EngineEffects.FinaliseDecides` | backend/app/workflow/executor.py:229-259 | finalising leaves the process alone while some row is unsettled, fails it if it is running and some row is failed or cancelled, and otherwise saves the non-empty outputs by step name and completes it if it is running |
| `EngineEffects.ActionRewritesProcess` | backend/app/workflow/state.py:80-108 | what every action does to every process, with the times of its first start and of its end |
| `EngineEffects.BecomesFailedIff` | backend/app/workflow/executor.py:238-245 | an action makes a process failed exactly when it finalises it while it is running, all its rows are settled, and some row is failed or cancelled |
| `EngineEffects.BecomesCompletedIff` | backend/app/workflow/executor.py:238-258 | an action makes a process completed exactly when it finalises it while it is running and all its rows are completed or skipped |
| `EngineEffects.EndsIffInEveryRun` | backend/app/workflow/executor.py:229-259 | both, for every run and every action after it |
| `EngineEffects.ExecutorsMove` | backend/app/workflow/executor.py:118-186 | the phases of every executor: a crash and a request for approval end it, a failure leads to finalising with the failure event unsaved, a success to announcing, enqueueing and finalising |
| `EngineEffects.ActionsReport` | backend/app/workflow/executor.py:174-225 | the events that starting, cancelling, resuming, announcing and enqueueing append: one per process move and one per row written |
| `Engine.Store.TransitionProcess` | backend/app/workflow/state.py:80-108 | moves exactly when the table allows it, with timestamps and event, and otherwise changes nothing |
| `Engine.Store.CreateProcess` | backend/app/workflow/api/routes.py:46-101 | creates exactly the valid definitions, with one pending row per step |
| `Engine.Store.StartProcess` | backend/app/workflow/api/routes.py:137-177 | moves a draft to queued and queues exactly its root rows, one event each |
| `Engine.Store.CancelProcess` | backend/app/workflow/api/routes.py:181-213 | cancels the process if allowed and exactly its pending, queued, running and retrying rows |
| `Engine.Store.ResumeProcess` | backend/app/workflow/api/routes.py:217-250 | moves a paused or stuck process to running and requeues exactly its paused rows |
| `Engine.Store.ReplayDlq` | backend/app/workflow/api/routes.py:314-337 | resolves an open dead-letter row and revives its step only if it is failed |
| `Engine.Store.ClaimReadySteps` | backend/app/workflow/queue.py:42-106 | undisturbed, claims exactly the first unlocked candidates up to the limit |
| `Engine.FirstUnlockedAreTheFirst` | backend/app/workflow/queue.py:70-83 | these are all unlocked candidates in order, cut off at the limit |
| `Engine.Store.TryNext` | backend/app/workflow/queue.py:71-100 | one round of the claim loop is the step `LockNext` |
| `Engine.Store.CommitClaimed` | backend/app/workflow/queue.py:92-106 | committing marks exactly the claimed rows running with one more attempt and releases the locks |
| `Engine.Store.MarkStepFailed` | backend/app/workflow/queue.py:132-165 | fails the step with a dead-letter row when its attempts are used up, and otherwise has it retried 4^(min(a, 5) - 1) seconds later, a being the attempt that failed |
| `Engine.Store.MarkStepCompleted` | backend/app/workflow/queue.py:119-129 | stores status and outputs of exactly that row |
| `Engine.Store.SettleStep` | backend/app/workflow/executor.py:118-173 | the four ways in which execution of a step ends |
| `Engine.Store.AnnounceCompletion` | backend/app/workflow/executor.py:174-180 | appends the completion event |
| `Engine.Store.UpstreamsDone` | backend/app/workflow/executor.py:201-208 | true exactly when every existing upstream row is completed or skipped |
| `Engine.Store.EnqueueDownstream` | backend/app/workflow/executor.py:188-227 | the loop over edges queues exactly the ready pending steps, once each |
| `Engine.Store.MaybeCompleteOrFailProcess` | backend/app/workflow/executor.py:229-259 | finalises exactly when all rows are settled: a running process becomes failed if some row is failed or cancelled, and otherwise, with the outputs saved, completed |
| `Parallel.StepConserves` | backend/app/workflow/parallel.py:72-82 | acquiring, running and releasing keep holders plus free permits equal to each cap |
| `Parallel.ReachableInv` | backend/app/workflow/parallel.py:72-108 | the same, and that exactly the tasks whose body ended have a result, under every schedule |
| `Parallel.BodiesWithinCap` | backend/app/workflow/parallel.py:72-108 | running bodies never exceed any cap |
| `Parallel.ManyRunAtOnce` | backend/app/workflow/parallel.py:72-107 | if everything that m tasks take has m slots, some schedule has these m bodies running at once |
| `Parallel.ScheduleLengthIsWorkDone` | backend/app/workflow/parallel.py:102-107 | every schedule ends: its length plus the work left is constant |
| `Parallel.FindMover` | backend/app/workflow/parallel.py:72-107 | slots are taken in the order local, global, provider, so following who waits for whom finds a task that can move |
| `Parallel.NeverStuckIffSlotsForAll` | backend/app/workflow/parallel.py:72-107 | some task can always move until all are done exactly when every semaphore taken has a slot |
| `Parallel.AtTheEnd` | backend/app/workflow/parallel.py:107-108 | then result i belongs to coroutine i and every permit is free again |
| `Parallel.GatherNeverStuckIff` | backend/app/workflow/parallel.py:43-62 | a non-empty gather call cannot get stuck exactly when the global limit is at least one |
| `Parallel.RunningWithinCaps` | backend/app/workflow/parallel.py:99-107 | in a reachable state of a gather call no more bodies run than its limit, the global limit and the slots of a named provider allow |
| `Parallel.LeastCapIsReached` | backend/app/workflow/parallel.py:99-107 | and as many as the least of these and the number of coroutines do run at once under some schedule |
| `Parallel.RunToCompletion` | backend/app/workflow/parallel.py:102-107 | any scheduler brings all tasks to their end, through states that are reachable one step after the other |
| `Parallel.Pool.GetProviderSem` | backend/app/workflow/parallel.py:51-62 | a provider semaphore is made once, with at least one slot |
| `Parallel.Pool.GatherWithLimit` | backend/app/workflow/parallel.py:85-108 | in every state of the call at most `limit` bodies run (the global limit if it is unset or 0), at most the global limit, and at most the slots of a named provider; results come in the order of the coroutines; a negative limit is an error, and a global limit of 0 never returns |
| `Safety.TrippedIffLatestTripStands` | backend/app/agent/safety.py:56-74 | the breaker is tripped for a tool exactly when the latest call that reached the threshold was its and it has not succeeded since |
| `Safety.TrippedToolIsFailing` | backend/app/agent/safety.py:56-74 | the tool named has that many failures in a row |
| `Safety.StreakIsSinceSuccess` | backend/app/agent/safety.py:56-70 | these failures are the calls of the tool since its last success |
| `Safety.BreakerGoesWrongIff` | backend/app/agent/safety.py:66-70 | a right breaker becomes wrong exactly when the tool it names succeeds while another is failing |
| `Safety.BreakerIsWrongIff` | backend/app/agent/safety.py:56-74 | over all histories: wrong exactly when some tool is failing and the tool of the latest tripping call has succeeded since |
| `Safety.LaterSuccessClearsTheTrip` | backend/app/agent/safety.py:66-70 | a history in which that happens |
| `Safety.CircuitBreaker.RecordFailure` | backend/app/agent/safety.py:56-64 | the counters stay the failures since the last success |
| `Safety.CircuitBreaker.RecordSuccess` | backend/app/agent/safety.py:66-70 | likewise |
| `Safety.RepeatedIffTooOften` | backend/app/agent/safety.py:120-146 | the detector is tripped exactly when some read has more than 6 calls with the same arguments or some mutating tool more than 12 |
| `Safety.ReadsAreCounted` | backend/app/agent/safety.py:120-142 | a read count is the number of calls that do not mutate, with that tool and those arguments |
| `Safety.MutationsAreCounted` | backend/app/agent/safety.py:120-142 | a mutation count is the number of mutating calls of that tool |
| `Safety.RepetitionDetector.Record` | backend/app/agent/safety.py:120-142 | the counters stay the counts over the history |
| `Safety.EditFailureTracker.RecordFailure` | backend/app/agent/safety.py:182-194 | the total stays the failures of edit tools, tripped from the fifth on |
| `Safety.EditFailuresAreCounted` | backend/app/agent/safety.py:182-194 | which are the failed calls of `write_file`, `edit_file` and `apply_patch` |
| `Safety.TokenBudgetEnforcer.Check` | backend/app/agent/safety.py:267-296 | passes exactly when the run total is at most 500000 and the organisation's cap is not exceeded |
| `Memory.TrimKeeps` | backend/app/agent/memory.py:104-114 | trimming keeps every system message and of the others exactly the latest: as many as the maximum, or all if there are no more; a maximum of 0 keeps all |
| `Memory.SummaryKeeps` | backend/app/agent/memory.py:171-185 | summarising drops exactly the oldest half threshold of the others and adds one system message with the summary of just these |
| `Memory.PromptKeeps` | backend/app/agent/runtime.py:195-196 | preparing a prompt keeps every system message, in order, then exactly the last 30 others or all if fewer; if that makes more than 50 messages, the oldest 25 of these others give way to one system message with their summary |
| `Memory.PromptRemembers` | backend/app/agent/runtime.py:195-196 | the same for a memory that has lost some of the others: the prompt has every system message so far and a suffix of everything else said, of exactly that length |
| `AgentLoop.StopFrom` | backend/app/agent/runtime.py:250-295 | the first call that ends the step: a finish call, an unknown tool, or a successful command |
| `AgentLoop.RecordCall` | backend/app/agent/runtime.py:274-280 | the guards count the call; an unknown tool raises after counting as a failure |
| `AgentLoop.ExecuteCalls` | backend/app/agent/runtime.py:248-295 | messages, ending and guard counters are those of the calls up to the first one that ends the step |
| `AgentLoop.TripGuidance` | backend/app/agent/runtime.py:300-316 | guidance comes from the first tripped guard, and exactly when one is tripped |
| `AgentLoop.Turn` | backend/app/agent/runtime.py:216-326 | one step ends the run for exactly the stated reason, or leaves the next state |
| `AgentLoop.Run` | backend/app/agent/runtime.py:121-376 | calls, tokens, finish reason, success and stored conversation are those of the specified run; at every call the guards' counters equal the counts over the history |
| `AgentLoop.GuardsHoldAtEveryCall` | backend/app/agent/runtime.py:300-326 | at every call to the model no guard is tripped: edit failures under 5, reads at most 6, mutations at most 12, tokens at most 500000 |
| `AgentLoop.PromptAtEveryCall` | backend/app/agent/runtime.py:191-196 | at every call the prompt has every system message so far, in order, and otherwise a suffix of the stored conversation: exactly the last 30 of what the previous prompt held and all that was said since, less 25 if that makes more than 50 messages |
| `AgentLoop.PromptIsTheLatest` | backend/app/agent/runtime.py:191-196 | with at most 20 system messages these are exactly the last 30 of all other messages ever stored, or all if fewer |
| `AgentLoop.NothingIsLost` | backend/app/agent/runtime.py:191-295 | system messages, stored conversation, recorded calls and tokens only grow at their end from call to call |
| `AgentLoop.TokensAreTheSums` | backend/app/agent/runtime.py:231-236 | reported input tokens and output tokens are each the sum over the responses that were not errors |
| `AgentLoop.FinishesIffReached` | backend/app/agent/runtime.py:250-258 | a step ends by finishing exactly when a finish call comes before anything that stops the list |
| `AgentLoop.HandledCalls` | backend/app/agent/runtime.py:250-295 | a step handles its calls up to the first that is a finish call, of an unknown tool, or a successful command |
| `AgentLoop.LastCallEndsTheStep` | backend/app/agent/runtime.py:250-298 | and that last call decides how the step ends |
| `AgentLoop.EachCallIsAnswered` | backend/app/agent/runtime.py:250-295 | each of these calls is answered by one tool message, in order, and a request for approval adds its guidance |
| `AgentLoop.EachCallIsRecorded` | backend/app/agent/runtime.py:274-280 | the guards count exactly these calls, in order, except a finish call |
| `AgentLoop.ConversationIsWhatWasSaid` | backend/app/agent/runtime.py:144-310 | the stored conversation is the two prompts, then per step the reply and these messages, and at the end the guidance of a tripped guard |
| `AgentLoop.ReasonIsSpelledOut` | backend/app/agent/runtime.py:226-330 | every finish reason, exactly when it is given, over all runs that call the model |
| `AgentLoop.SuccessIff` | backend/app/agent/runtime.py:339-364 | success exactly when there was no call at all or the last response had no tool calls or reached a finish call; no call at all exactly for a step limit that is not positive |
| `AgentLoop.ApprovalEndsTheRunIff` | backend/app/agent/runtime.py:284-330 | asking for approval ends the run exactly when a guard, the budget or the step limit ends it in the same step |
| `AgentLoop.ApprovalIsIgnored` | backend/app/agent/runtime.py:284-295 | a run that asks for approval and calls the model again |
| `ApplyPatch.ReadText` | backend/app/agent/tools/apply_patch.py:115 | reading as text leaves no carriage return, and changes nothing exactly when there is none |
| `ApplyPatch.FirstReturnBecomesNewline` | backend/app/agent/tools/apply_patch.py:115 | the first carriage return becomes a newline, together with a newline right after it, and reading goes on from there |
| `ApplyPatch.FindFrom` | backend/app/agent/tools/apply_patch.py:26-28 | the first occurrence, or none if there is none |
| `ApplyPatch.ExactMatchReplacesTheFirst` | backend/app/agent/tools/apply_patch.py:116-122 | with an exact match the new content is the text read with precisely its first occurrence replaced |
| `ApplyPatch.ValidatesIff` | backend/app/agent/tools/apply_patch.py:97-121 | a patch passes exactly when its path resolves and, to create a file, nothing is there, or, to change it, the file exists and its text holds the old text or the tolerant search finds it; which error it gets otherwise |
| `ApplyPatch.ValidatedOp` | backend/app/agent/tools/apply_patch.py:103-124 | a valid patch writes the new file, or the text read with its first occurrence replaced, or with as many characters cut out where the tolerant search points |
| `ApplyPatch.PlanIsFaithful` | backend/app/agent/tools/apply_patch.py:95-124 | there is one edit per patch, made from the same unchanged files, and the originals are the texts read from them |
| `ApplyPatch.PlanDecides` | backend/app/agent/tools/apply_patch.py:95-124 | validation passes exactly when every patch does, and otherwise answers what is wrong with the first that does not |
| `ApplyPatch.FirstErrorIsFinal` | backend/app/agent/tools/apply_patch.py:97-121 | validation stops at the first error |
| `ApplyPatch.FaultIsRolledBack` | backend/app/agent/tools/apply_patch.py:128-145 | after a fault at any write or rename, every path patched before it holds the text that was read from it, repeated and created paths included, and every other path that is not a temporary name is as it was |
| `ApplyPatch.AllOrNothingIff` | backend/app/agent/tools/apply_patch.py:115-145 | whatever fails leaves all existing and patched files as they were exactly when no such file bears the temporary name of an operation before being patched, and no existing file patched before the last operation contains a carriage return |
| `ApplyPatch.CarriageReturnsAreLost` | backend/app/agent/tools/apply_patch.py:137-144 | a fault at the last operation writes the text that was read back to every file patched before it |
| `ApplyPatch.RollbackLosesCarriageReturns` | backend/app/agent/tools/apply_patch.py:115-145 | a two-file patch whose rollback loses a carriage return |
| `ApplyPatch.ClashIsNotRolledBack` | backend/app/agent/tools/apply_patch.py:131-145 | otherwise what the fault leaves in the temporary file survives the rollback: the half-written text, or all of it when the rename fails |
| `ApplyPatch.UnpatchedAfterWriting` | backend/app/agent/tools/apply_patch.py:130-134 | writing leaves unpatched paths alone, but removes those with temporary names |
| `ApplyPatch.LastTouchDecides` | backend/app/agent/tools/apply_patch.py:115-134 | the last operation that touches a path leaves its content there, or takes its temporary file away |
| `ApplyPatch.NoEditLostIff` | backend/app/agent/tools/apply_patch.py:130-134 | on success every edit is in the files exactly when edits of one path have equal contents and every patched path that a later operation uses as its temporary name is patched again |
| `ApplyPatch.FirstOfTwoEditsIsLost` | backend/app/agent/tools/apply_patch.py:115-134 | a list of two edits of one file that loses its first edit |
| `ApplyPatch.TidyPatchesApplyToTheText` | backend/app/agent/tools/apply_patch.py:90-151 | with exact matches, distinct paths and spare temporary names, every file is created or is its text with precisely the first occurrence replaced, and every other file is as it was |
| `ApplyPatch.ReplacedInBothIff` | backend/app/agent/tools/apply_patch.py:115-122 | a first occurrence replaced in the text is one replaced in the raw contents exactly when these have no carriage return |
| `ApplyPatch.TidyPatchesApplyPreciselyIff` | backend/app/agent/tools/apply_patch.py:90-151 | such a list changes precisely the first occurrences in what the files hold exactly when no existing file that it patches contains a carriage return |
| `ApplyPatch.SuccessIsExact` | backend/app/agent/tools/apply_patch.py:130-134 | with distinct paths and spare temporary names, every edit has its effect and nothing else changes |
| `ApplyPatch.Disk.Validate` | backend/app/agent/tools/apply_patch.py:95-124 | the loop computes the plan if every patch passes, and otherwise what is wrong with the first that does not |
| `ApplyPatch.Disk.WriteOne` | backend/app/agent/tools/apply_patch.py:131-133 | a file written by way of its temporary name, or the fault's traces |
| `ApplyPatch.Disk.RollBack` | backend/app/agent/tools/apply_patch.py:137-144 | restores the originals in order |
| `ApplyPatch.Disk.Run` | backend/app/agent/tools/apply_patch.py:90-151 | an error in validation changes no file; a fault while writing leaves the rolled-back files; success leaves all edits written, and for a tidy list those effects on the texts, precisely so exactly without carriage returns |
| `Broadcaster.NothingLostIff` | backend/app/notifications/websocket.py:60-66 | a subscriber accepts everything broadcast on its channel exactly when its queue had room each time |
| `Broadcaster.AcceptedInOrder` | backend/app/notifications/websocket.py:52-67 | what it accepts is what was broadcast since it subscribed, in order, with some events left out |
| `Broadcaster.PutAll` | backend/app/notifications/websocket.py:57-67 | every queue with room grows by the event, no other changes, and the count is the number that grew |
| `Broadcaster.Broadcaster.Subscribe` | backend/app/notifications/websocket.py:39-41 | a new subscriber joins its channel |
| `Broadcaster.Broadcaster.Get` | backend/app/notifications/websocket.py:43-45 | yielded events followed by the queue stay the accepted events |
| `Broadcaster.Broadcaster.Close` | backend/app/notifications/websocket.py:46-50 | the channel map's keys stay exactly the channels with a live subscriber |
| `Broadcaster.Broadcaster.Broadcast` | backend/app/notifications/websocket.py:52-67 | all of the above, and no queue exceeds 100 events |
| `Broadcaster.Broadcaster.ChannelSize` | backend/app/notifications/websocket.py:69-71 | the number of live subscribers |

## Left out

- Database sessions, isolation beyond row locks, and the identity map: rows are maps, steps are atomic (see the assumptions).
- Columns that no rule reads: prompts, inputs, error texts and finish times of steps, actors and payloads of events, and the `step.started` event.
- `enqueue_step`, which nothing calls, and deleting processes.
- `clone_template` (backend/app/workflow/templates.py:124-149): it makes draft processes without a created event, without step rows and without validation, so what is proved about logs and rows covers only processes made by `create_process`.
- Template resolution and the path lookup in definitions: text substitution without state.
- Resuming an agent run: the saved checkpoint lacks the step that the loop restores from.
- Checkpoints, activity log, tracing, durations and costs of a run, and the list of intentional files.
- Failures of the database inside the agent loop; a raising model, an unknown tool and a raising approval check are modelled.
- The wording of guidance and error messages, and the contents of summaries (a parameter).
- Sequence numbers of stored messages, which collide: the store is the order of appending.
- The organisation's daily token cap, whose sum comes from the database: an input to each check.
- Parsing tool calls out of text, the pattern of the approval gate, and token-aware trimming.
- The whitespace-tolerant search of the patch tool: any position, as a parameter. Directories, files that are not text, file modes and links, and failures of the rollback itself.
- Between a subscriber's closing and its removal from the channel its queue still fills; the model removes it at once.
- Cancelled coroutines, and bodies that take slots again.
- `get_blocked_by`, sub-task trees, listing and serialising endpoints, permissions, notifications other than the broadcaster.
- `Engine.Store.ClaimReadySteps`: states what claiming does when nobody comes between; the interleaved rounds are `TryNext` and `CommitClaimed`.
- `TaskDependencies.DependencyTable.GetBlockers`: the order by creation time, which the model does not have.
- `Safety.TokenBudgetEnforcer.Check`: the organisation's cap is a Boolean input.
