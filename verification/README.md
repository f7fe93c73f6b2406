# Workflow engine model

A Dafny model of a distributed job and workflow engine: workflow admission, the orchestration of workflow
tasks, the weighted Redis queue, the life of a job across PostgreSQL and Redis, and the level layout of the
dashboard. `dafny verify dfyconfig.toml` checks everything.

Each SQL statement and each Lua script is one atomic step. Components that make several calls are modelled
twice where it matters: once as imperative code (a class per store, queue or component, with the source's
loops), and once as a state machine in which the calls of any number of components interleave. Methods are
proved against functions on values, and the functions are what the lemmas speak about.

| file | what it models |
|---|---|
| `Dag.dfy` | dependency graphs, chains, cycles, topological orders, depth |
| `Admission.dfy` | `ValidateDAG`: the two scans and Kahn's algorithm |
| `Levels.dfy` | `computeDAGLevels` with its memoised recursion |
| `PriorityQueue.dfy`, `QueueRuns.dfy` | the queue scripts as a class, and runs of queue operations |
| `Workflow.dfy` | `Start`, `AdvanceWorkflow`, `Cancel` on one workflow, as a class and as one function per round |
| `WorkflowRuns.dfy`, `WorkflowProgress.dfy` | runs of whole rounds: invariants, termination, progress, exact round counts |
| `WorkflowInterleaving.dfy`, `MarkedJobs.dfy`, `LostWrites.dfy` | the same calls, one store or queue call at a time, any number of callers, any call may fail |
| `RoundRefinement.dfy` | an undisturbed call of the interleaved model is one round |
| `CreateRaces.dfy` | concurrent `Create` calls under one idempotency key |
| `JobStore.dfy` | job rows and the statements that change them |
| `JobLifecycle.dfy` | jobs, queue, workers, scheduler, supervisor and API interleaved |
| `AlwaysFailing.dfy`, `AttainedBounds.dfy`, `TerminalRows.dfy` | retries up to dead-lettering, runs that attain the bounds, when a terminal row is final |
| `NoLostJobs.dfy`, `Redelivery.dfy`, `TolerantRuns.dfy` | which failures lose a QUEUED job and which ones the in-progress set makes good |
| `Components.dfy` | worker, scheduler, supervisor and API as code, shown to make exactly the steps of `JobLifecycle` |
| `Backoff.dfy` | retry delays |
| `Calls.dfy`, `Collections.dfy`, `Options.dfy`, `Statuses.dfy` | shared types and facts |

A call has one of three fates: it takes effect and says so, it has no effect, or it takes effect while its
caller sees an error or is gone. In the state machines a step that is not enabled changes nothing, so every
list of actions is a run and "every run" means every list.

Where the code differs from its documentation, the model follows the code:

- `MarkSucceeded`, `MarkFailed` and `RecordFailure` do not look at the status, so a late result may change a
  terminal row: `TerminalRows.CancelledThenSucceeded` is such a run, and `TerminalRows.FinalUnlessExecuting` says
  that, manual retries aside, a terminal row is final exactly when no worker still executes the job. The columns
  agree with the status all the same (`JobLifecycle.RowsConsistent`).
- Recovery does not compare attempts with their maximum, so the bound in `JobLifecycle.AttemptAccounting`
  counts recoveries.
- A failed write of a task's success is ignored, so a workflow can be SUCCEEDED although a task was never
  marked: `LostWrites.SucceededWithoutMark` is such a run, and `WorkflowInterleaving.SucceededMeansMarked` says
  that lost writes are the only cause. Short of another `Start` the task is never marked afterwards:
  `LostWrites.NeverMarked`.
- A worker that dies between its Redis claim and `ClaimJob` is made good by the visibility timeout only while no
  earlier worker has yet to acknowledge the job. `Redelivery.LostIffUnbacked` says that a QUEUED job can be lost
  exactly when the queue no longer holds it or such an acknowledgement is outstanding;
  `NoLostJobs.DeathBeforeClaimLosesJob` is a run that loses one, and `NoLostJobs.LostForEver` says nothing brings
  it back.
- `Start` ignores the status. It preserves every terminal status but CANCELLED
  (`WorkflowProgress.StartKeepsTerminal`): a workflow cancelled between creation and start is RUNNING, with every
  task CANCELLED, until it is cancelled again (`WorkflowProgress.StartOverridesCancel`).
- The exponent of the backoff is clamped: `Backoff.ClampInvisible` says exactly when that shows.

## Model
| member | source | states |
|---|---|---|
| Dag.Pigeonhole | backend/internal/domain/workflow.go:137-161 | A list of tasks longer than the pool it draws from repeats one: why a long enough dependency chain is a cycle. |
| Dag.LongChainHasCycle | backend/internal/domain/workflow.go:137-161 | A dependency chain of more than n + 1 tasks among n implies a cycle. |
| Dag.TopologicalImpliesAcyclic | backend/internal/domain/workflow.go:159-161 | A graph with a topological order has no cycle, so `visitedCount == len(tasks)` is never a false acceptance. |
| Dag.StuckSetHasCycle | backend/internal/domain/workflow.go:159-161 | Tasks that all wait for one another contain a cycle, so `visitedCount != len(tasks)` is never a false rejection. |
| Dag.EdgeLowersDepth | frontend/src/components/WorkflowsTab.tsx:77-85 | The longest chain below a dependency is shorter than the one below its dependent. |
| Admission.AcceptedIffAdmissible | backend/internal/domain/workflow.go:98-163 | The verdict is acceptance exactly for non-empty lists of named, typed, uniquely named tasks whose dependencies are known other tasks without a cycle. |
| Admission.CheckNames | backend/internal/domain/workflow.go:103-115 | The first scan reports the first name or type error in list order, and otherwise collects all names, unique. |
| Admission.BuildMaps | backend/internal/domain/workflow.go:117-135 | The second scan reports the first bad dependency, and otherwise its two maps count every dependency entry, duplicates included. |
| Admission.StartQueue | backend/internal/domain/workflow.go:137-143 | The start queue holds each zero-degree task once, in any order of the map iteration. |
| Admission.RelaxDependents | backend/internal/domain/workflow.go:151-156 | The inner loop takes a popped task off every entry that names it, keeps degrees non-negative, and queues exactly those that reach zero. |
| Admission.Kahn | backend/internal/domain/workflow.go:137-161 | Every start order ends with all tasks popped iff there is no cycle, then in topological order; each task is popped at most once, and the inner loop runs at most once per dependency entry, exactly once when all are popped. |
| Admission.KahnDone | backend/internal/domain/workflow.go:159-161 | With an empty queue, all tasks have been popped iff the graph is acyclic. |
| Admission.ValidateDag | backend/internal/domain/workflow.go:98-164 | The imperative validation returns the specified verdict, a topological order on acceptance, and on the cycle error a concrete cycle exists; the inner loop runs at most as often as there are dependency entries in all, and exactly so on acceptance. |
| Admission.WhichError | backend/internal/domain/workflow.go:103-135 | Which error a refused list gets: that of the first task that is unnamed, untyped or a repetition or, when there is none, of the first dependency entry that names its own task or no task. |
| Levels.LevelMemo.GetLevel | frontend/src/components/WorkflowsTab.tsx:66-86 | On acyclic graphs the memoised recursion returns the longest-chain depth and the `visited` guard never fires; memo entries are never overwritten; on any graph it terminates. |
| Levels.ComputeDagLevels | frontend/src/components/WorkflowsTab.tsx:58-103 | The layers partition the task list in order, level by level, up to the highest occupied level; on acyclic input levels are longest-chain depths; in a valid workflow every dependency sits on a strictly lower level and no layer is empty. |
| Levels.MaxLevel | frontend/src/components/WorkflowsTab.tsx:91-94 | The maximum of all levels, attained. |
| Levels.LayersPartition | frontend/src/components/WorkflowsTab.tsx:96-100 | Put together, the layers are the task list with every multiplicity. |
| Levels.LayerInOrder | frontend/src/components/WorkflowsTab.tsx:96-100 | A layer lists exactly the tasks of its level, in the order of the task list. |
| Levels.DependenciesLower | frontend/src/components/WorkflowsTab.tsx:77-85 | In a valid workflow each dependency sits on a strictly lower level. |
| Levels.LevelOccupied | frontend/src/components/WorkflowsTab.tsx:96-100 | In an acyclic closed graph some task has each depth below an occupied one, which is why no layer of `ComputeDagLevels` is empty. |
| PriorityQueue.First | backend/internal/queue/redis.go:44-46 | The member with the least score, ties broken by id. |
| PriorityQueue.RedisQueue.Enqueue | backend/internal/queue/redis.go:82-109 | Refuses the nil id; otherwise adds or re-scores the id in the tier of its priority, 1 to 3 for the first to the third tier and the second tier for anything else; the other tiers, the in-progress set and the counter are untouched. |
| PriorityQueue.RedisQueue.Claim | backend/internal/queue/redis.go:21-54 | The claim script: the first busy tier in the slot's order loses its least member to the in-progress set; the counter grows even when all are empty. |
| PriorityQueue.RedisQueue.ClaimWithWeights | backend/internal/queue/redis.go:115-161 | Non-positive weights and timeouts fall back to 6:3:1 and 30 seconds, one by one, before the script runs. |
| PriorityQueue.RedisQueue.Ack | backend/internal/queue/redis.go:163-173 | Removes the id from the in-progress set only. |
| PriorityQueue.RedisQueue.RequeueStale | backend/internal/queue/redis.go:58-72 | Entries with deadline at most now leave the in-progress set and score now in the target tier, the others keep their deadline, no other tier changes, and the count is that of the former. |
| PriorityQueue.ClaimTakesLeast | backend/internal/queue/redis.go:43-53 | A claim is empty iff all three tiers are; otherwise it takes the member of a tier with the least (score, id), puts it in progress with the deadline, and changes nothing else but the counter. |
| PriorityQueue.ClaimPreference | backend/internal/queue/redis.go:30-51 | Which tier is served: the first w1 slots prefer tiers 1, 2, 3 in this order, the next w2 slots 2, 1, 3 and the rest 3, 1, 2, skipping empty ones. |
| QueueRuns.OneRotation | backend/internal/queue/redis.go:30-41 | Any w1+w2+w3 consecutive counter values favour each tier exactly as often as its weight, wherever they start. |
| QueueRuns.NoStarvation | backend/internal/queue/redis.go:21-54 | A tier that is not empty at any of m·(w1+w2+w3) claims has at least m times its weight taken from it. |
| QueueRuns.PriorityShare | backend/internal/queue/redis.go:21-109 | An enqueue with priority p lands in the tier whose share of the claims, while it is never empty, is the weight given for p. |
| QueueRuns.BoundedWait | backend/internal/queue/redis.go:21-54 | An id with r others ahead in its tier, never overtaken or re-scored, is claimed within W·ceil((r+1)/w) claims. |
| QueueRuns.KeyOrder | backend/internal/queue/redis.go:43-51 | Within a tier nothing with a larger key is claimed while a smaller one waits, over whole runs without re-scoring. |
| QueueRuns.DeliveriesPaid | backend/internal/queue/redis.go:43-51 | For every id and run, claims plus current tier memberships are at most enqueues plus stale requeues. |
| QueueRuns.DeliveriesExact | backend/internal/queue/redis.go:82-109 | When ids are enqueued only while absent, the four sets stay pairwise disjoint and that accounting is an equality. |
| QueueRuns.KeptUntilAck | backend/internal/queue/redis.go:163-173 | An id in the queue stays in a tier or in progress through any run without an acknowledgement of it. |
| Workflow.WorkflowEngine.UpdateStatus | backend/internal/store/workflows.go:207-222 | Sets the status unconditionally and keeps the old error when none is given. |
| Workflow.WorkflowEngine.UpdateTask | backend/internal/store/workflows.go:225-241 | Sets a task's status unconditionally and keeps job and error when none is given; other tasks are untouched. |
| Workflow.WorkflowEngine.SyncTasks | backend/internal/engine/workflow.go:63-95 | The loop brings every task up to date with its job and reports the last failed task and whether all succeeded; what that makes of each status is `WorkflowRuns.RoundOutcomes`. |
| Workflow.WorkflowEngine.CancelPendingTasks | backend/internal/engine/workflow.go:106-110 | Cancels exactly the PENDING tasks; RUNNING and finished ones stay as they are. |
| Workflow.WorkflowEngine.CreateJob | backend/internal/store/jobs.go:44-84 | A new job under a fresh key, or the existing one with nothing changed. |
| Workflow.WorkflowEngine.ScheduleReady | backend/internal/engine/workflow.go:120-157 | Each task that was ready when asked is bound to its job and RUNNING, and a new job is enqueued; that all task jobs are, exactly once, is `WorkflowRuns.AllDispatched`. |
| Workflow.WorkflowEngine.AdvanceWorkflow | backend/internal/engine/workflow.go:46-160 | The imperative round computes the function about which all round lemmas speak. |
| Workflow.WorkflowEngine.Start | backend/internal/engine/workflow.go:34-39 | RUNNING, then one round. |
| Workflow.WorkflowEngine.Cancel | backend/internal/store/workflows.go:314-342 | Cancels a PENDING or RUNNING workflow, and its PENDING and RUNNING tasks whatever the workflow's status; finished tasks, jobs and queue stay as they are. |
| Workflow.WorkflowEngine.constructor | backend/internal/store/workflows.go:25-80 | A PENDING workflow with PENDING tasks without jobs, in list order. |
| WorkflowRuns.RoundCases | backend/internal/engine/workflow.go:97-157 | A round fails, succeeds or schedules, told apart by the synchronised tasks alone. |
| WorkflowRuns.RoundOutcomes | backend/internal/engine/workflow.go:66-157 | In a round a task becomes SUCCEEDED exactly when its job is, FAILED exactly when its job is DEAD_LETTER or FAILED, with the job's error, CANCELLED exactly when its job is or when it was PENDING and anything fails, and a PENDING task runs exactly when every dependency has succeeded. |
| WorkflowRuns.RoundStatus | backend/internal/engine/workflow.go:97-118 | A round of a RUNNING workflow with tasks ends FAILED iff a task or its job has failed, SUCCEEDED iff every task or its job has succeeded, and RUNNING otherwise. |
| WorkflowRuns.FailureNamed | backend/internal/engine/workflow.go:98-104 | The error of a failed workflow names its last failed task and that task's own error, unless empty. |
| WorkflowRuns.Invariant | backend/internal/engine/workflow.go:59-118 | In every run: SUCCEEDED means all tasks SUCCEEDED, FAILED means some task FAILED and none PENDING, CANCELLED means none PENDING or RUNNING, and RUNNING tasks are bound to existing jobs. |
| WorkflowRuns.StatusMeans | backend/internal/engine/workflow.go:59-118 | The same, status by status and task by task. |
| WorkflowRuns.TerminalFrozen | backend/internal/engine/workflow.go:59-61 | A terminal workflow never changes status, gains no job and enqueues nothing, whatever follows. |
| WorkflowRuns.ScheduledRows | backend/internal/engine/workflow.go:126-157 | Scheduling changes exactly the ready tasks, and binds each to the job under its own key. |
| WorkflowRuns.AllDispatched | backend/internal/engine/workflow.go:126-155 | In every run the queue has been sent the job of each task that has one, exactly once, and nothing else. |
| WorkflowRuns.NewJobsAreQueued | backend/internal/engine/workflow.go:126-143 | Rounds create QUEUED jobs under fresh ids and leave existing jobs alone. |
| WorkflowRuns.RoundDescends | backend/internal/engine/workflow.go:63-157 | A round that changes any task strictly lowers 2·#PENDING + #RUNNING. |
| WorkflowRuns.ChangesBounded | backend/internal/engine/workflow.go:63-157 | Over any run, at most 2·n rounds change anything, for n tasks. |
| WorkflowProgress.NoStall | backend/internal/engine/workflow.go:114-157 | In every run of an admitted workflow, a round that leaves it RUNNING without CANCELLED tasks leaves a RUNNING task bound to an existing job. |
| WorkflowProgress.RunRows | backend/internal/engine/workflow.go:63-157 | Runs keep the names and dependencies a workflow was admitted with. |
| WorkflowProgress.SchedulingLeavesWork | backend/internal/store/workflows.go:146-158 | By acyclicity some unfinished task has only SUCCEEDED dependencies, so scheduling never comes up empty-handed while work remains. |
| WorkflowProgress.LockstepHolds | backend/internal/engine/workflow.go:63-157 | When jobs succeed between rounds, round k leaves exactly the depths below k-1 SUCCEEDED and depth k-1 RUNNING. |
| WorkflowProgress.ExactRounds | backend/internal/engine/workflow.go:34-39 | With D tasks on a longest chain the workflow is RUNNING in lockstep for D rounds and SUCCEEDED after D+1, at most n+1. |
| WorkflowProgress.LongestChainExists | backend/internal/domain/workflow.go:137-161 | Every admitted workflow has a longest chain of D tasks, with D between 1 and the number of tasks. |
| WorkflowProgress.CreateWorkflow | backend/internal/api/handler.go:308-342 | A request is refused iff it has no name or the task list is not admissible; otherwise, once stored and started, exactly the tasks without dependencies are RUNNING, each bound to a new QUEUED job that is on the queue, once, and the rest PENDING. |
| WorkflowProgress.StartOverridesCancel | backend/internal/engine/workflow.go:34-39 | A workflow cancelled between creation and `Start` is RUNNING with every task CANCELLED after any further rounds and job changes. |
| WorkflowProgress.StartOnTerminal | backend/internal/engine/workflow.go:34-39 | `Start` on a terminal workflow yields FAILED if a task has failed, SUCCEEDED if all have succeeded, and RUNNING otherwise, which happens only to cancelled ones. |
| WorkflowProgress.StartKeepsTerminal | backend/internal/engine/workflow.go:34-39 | `Start` preserves a terminal status iff it is not CANCELLED. |
| WorkflowInterleaving.RunInv | backend/internal/engine/workflow.go:34-160 | The invariant of every interleaving of concurrent `Start`, `AdvanceWorkflow` and `Cancel` calls, job changes and failing calls. |
| WorkflowInterleaving.AlwaysInRange | backend/internal/engine/workflow.go:66-157 | In every reachable state the task indices a caller carries exist in its snapshot and in the store, so no call of the code is ever disabled in the model. |
| WorkflowInterleaving.AncestorsFirst | backend/internal/engine/workflow.go:121-157 | In every interleaving a task's job is created only after every ancestor has been marked SUCCEEDED. |
| WorkflowInterleaving.AncestorsMarked | backend/internal/engine/workflow.go:121-157 | In every reachable state, a task that has a job has had every ancestor marked SUCCEEDED. |
| WorkflowInterleaving.ChainMarked | backend/internal/store/workflows.go:146-158 | By closure everything a chain of dependencies leads to has been marked. |
| WorkflowInterleaving.SucceededMeansMarked | backend/internal/engine/workflow.go:71-73 | A workflow marked SUCCEEDED has had each task marked SUCCEEDED, or that task's mark was a write that failed; without failed writes, each was marked. |
| WorkflowInterleaving.OneJobForEver | backend/internal/engine/workflow.go:127-155 | Once a task has a job, the key table names that job for ever, its row names no other, and a bound row stays bound. |
| WorkflowInterleaving.EnqueuedOnce | backend/internal/engine/workflow.go:150-154 | In every interleaving the engine enqueues no job twice, enqueues only task jobs, and no two tasks share one. |
| MarkedJobs.MarkedMeansSucceeded | backend/internal/engine/workflow.go:68-84 | In every interleaving a task is marked SUCCEEDED only after the row of its own job said so in some earlier state. |
| MarkedJobs.SucceededMeansJobsDid | backend/internal/engine/workflow.go:66-118 | A workflow is marked SUCCEEDED only after each task's job has succeeded, lost writes or not. |
| MarkedJobs.OutcomeMeans | backend/internal/engine/workflow.go:70-84 | A job's status leads to success, failure and cancellation of its task for exactly Succeeded, Failed or DeadLetter, and Cancelled. |
| MarkedJobs.EnqueuedUnlessFailed | backend/internal/engine/workflow.go:126-155 | Without failing calls, once all callers have returned, every task job has been enqueued. |
| RoundRefinement.RoundAlone | backend/internal/engine/workflow.go:46-160 | The interleaved calls of one undisturbed `AdvanceWorkflow` that all succeed make exactly one round: status, tasks, jobs, keys and queue. |
| RoundRefinement.StartAlone | backend/internal/engine/workflow.go:34-39 | Those of `Start` make the status change and that round. |
| RoundRefinement.AfterFailure | backend/internal/engine/workflow.go:66-157 | Where a failed call leads: on as usual for ignored updates, to the next task when scheduling or reading a job, and out otherwise. |
| RoundRefinement.UnseenEffect | backend/internal/engine/workflow.go:66-157 | A call whose caller sees an error may have had the same effect as a successful one. |
| RoundRefinement.UnseenGoesOn | backend/internal/engine/workflow.go:66-157 | Its caller goes on as after a call without effect. |
| LostWrites.SucceededWithoutMark | backend/internal/engine/workflow.go:71-118 | One failed write: the workflow is SUCCEEDED, no task was ever marked, and the task row still says RUNNING. |
| LostWrites.NoMoreMarks | backend/internal/engine/workflow.go:59-61 | Once a workflow is terminal and no caller is past its look at the status, nothing but another `Start` ever changes its status or marks a task. |
| LostWrites.NeverMarked | backend/internal/engine/workflow.go:59-73 | After that lost write the workflow stays SUCCEEDED and its task is never marked, whatever follows short of another `Start`. |
| CreateRaces.RunInv | backend/internal/store/jobs.go:44-84 | The invariant of every interleaving of lookup, insert-on-conflict and refetch, with failing statements. |
| CreateRaces.SameJob | backend/internal/store/jobs.go:44-84 | All successful callers with one key return one job, and at most one is told it created it. |
| CreateRaces.ExactlyOneCreates | backend/internal/store/jobs.go:44-84 | Without failing statements, as soon as one caller returns with a new key, exactly one caller has created the job. |
| JobStore.Store.Create | backend/internal/store/jobs.go:25-104 | A QUEUED row without attempts, with the requested priority, maximum and key, the defaults being 2 and 3, or the existing job of the key with nothing changed. |
| JobStore.Store.ClaimJob | backend/internal/store/jobs.go:212-240 | Succeeds iff the row is QUEUED or RETRYING, whatever its `run_at`, and then counts an attempt. |
| JobStore.Store.RecordFailure | backend/internal/store/jobs.go:253-281 | With attempts left RETRYING at the given time, otherwise DEAD_LETTER and completed, whatever the status was; the error is kept and the worker cleared. |
| JobStore.Store.MarkSucceeded | backend/internal/store/jobs.go:362-368 | SUCCEEDED, completed and without error, whatever the status was. |
| JobStore.Store.MarkFailed | backend/internal/store/jobs.go:370-376 | FAILED, completed and with the error, whatever the status was. |
| JobStore.Store.Cancel | backend/internal/store/jobs.go:378-390 | Succeeds iff the row is QUEUED or RUNNING; RETRYING is refused. |
| JobStore.Store.ManualRetry | backend/internal/store/jobs.go:328-358 | Succeeds iff the row is DEAD_LETTER or FAILED, and starts a new count of attempts. |
| JobStore.Store.RequeueDueRetries | backend/internal/store/jobs.go:285-325 | QUEUED for exactly the batch: due, unlocked, earliest first, up to the limit; returns each row once. |
| JobStore.Store.RecoverDeadWorkerJobs | backend/internal/store/workers.go:144-176 | QUEUED without a worker for exactly the worker's RUNNING rows, which are returned. |
| JobLifecycle.RunInv | backend/internal/store/jobs.go:212-390 | The invariant of every interleaving of API, workers, scheduler, supervisor and stale requeues, with failing calls and dying processes. |
| JobLifecycle.BoundedExecution | backend/internal/engine/worker.go:168-250 | At most 1 + recoveries workers are between a successful `ClaimJob` of a job and its resolving update. |
| JobLifecycle.AttemptAccounting | backend/internal/store/jobs.go:215-222 | `attempt` is the number of claims since creation or manual retry, at most `max_attempts` plus recoveries since then, and strictly less while QUEUED or RETRYING. |
| AttainedBounds.BoundsAttained | backend/internal/store/workers.go:146-151 | Both bounds are attained: for every maximum and every number of recoveries some reachable state has that many executors plus one and the maximum plus the recoveries as attempts. |
| JobLifecycle.RowsConsistent | backend/internal/domain/job.go:23-29 | In every state `completed_at` is set iff the status is terminal, a RUNNING row names a worker and a QUEUED, RETRYING or DEAD_LETTER row none, failed attempts leave an error and success clears it; late results included. |
| JobLifecycle.UnseenEffect | backend/internal/engine/worker.go:168-250 | The same for the calls around jobs: store and queue are as after a success. |
| JobLifecycle.ErrorEndsCaller | backend/internal/api/handler.go:73-78 | A component that sees its first call fail goes no further. |
| TerminalRows.FinalUnlessExecuting | backend/internal/store/jobs.go:362-376 | A terminal row never changes again, manual retries aside, iff no worker is between its claim and its resolving update; otherwise a late result changes the status. |
| TerminalRows.CancelledThenSucceeded | backend/internal/store/jobs.go:362-368 | A run in which a job is CANCELLED and then SUCCEEDED by the worker that still executed it. |
| NoLostJobs.NoQueuedJobLost | backend/internal/engine/worker.go:145-181 | In reliable runs every QUEUED job waits in a tier, or is held by a component about to enqueue it or a worker about to call `ClaimJob`. |
| NoLostJobs.AckKeeps | backend/internal/engine/worker.go:246-249 | A stale second acknowledgement cannot lose a QUEUED job. |
| NoLostJobs.DeathBeforeClaimLosesJob | backend/internal/engine/worker.go:145-170 | A run whose one unreliable step is a worker's death before `ClaimJob`, and which loses a QUEUED job. |
| NoLostJobs.LostForEver | backend/internal/engine/supervisor.go:93-110 | A QUEUED job that no set holds and no component mentions stays so through every run without a cancellation of it. |
| Redelivery.BackedStep | backend/internal/queue/redis.go:58-72 | While a QUEUED job is in the queue and no worker has yet to acknowledge it, no step takes it out: dying claimers, failing `ClaimJob` calls, unseen takes and failing enqueues included. |
| Redelivery.BackedRun | backend/internal/queue/redis.go:58-72 | So it is for whole runs during which the row stays QUEUED. |
| Redelivery.StaleReturns | backend/internal/queue/redis.go:63-69 | A stale requeue puts an entry whose deadline has passed back in a tier. |
| Redelivery.AckLoses | backend/internal/engine/worker.go:246-249 | When only the in-progress set holds a QUEUED job, the acknowledgement of an earlier worker loses it. |
| Redelivery.LostIffUnbacked | backend/internal/engine/worker.go:145-250 | A QUEUED job can be lost, by some run during which it stays QUEUED, iff the queue does not hold it or a worker that claimed it before has yet to acknowledge it. |
| TolerantRuns.QueuedJobsAccounted | backend/internal/engine/worker.go:145-181 | Holders may die and their calls fail, as long as the queue backs what they let go: then every QUEUED job waits in a tier, is held, or is kept for redelivery. |
| TolerantRuns.NothingLost | backend/internal/engine/worker.go:145-181 | In such runs no QUEUED job is ever lost. |
| TolerantRuns.ReliableDropsNothing | backend/internal/engine/worker.go:145-181 | The runs of `NoQueuedJobLost` are among them: a reliable step lets nothing go. |
| AlwaysFailing.DeadLetterAfterMaxAttempts | backend/internal/store/jobs.go:253-281 | A job that only ever fails, without recoveries, cancels or retries, is DEAD_LETTER iff it has failed exactly `max_attempts` times, and is never claimed more often. |
| Components.EnqueueAll | backend/internal/engine/scheduler.go:81-88 | Every listed job whose enqueue works waits in the tier of its priority afterwards, nothing else leaves a tier, the count is that of the enqueues that work, and the loop is the interleaved model's run of single enqueues. |
| Components.RetryScheduler.PollAndRequeue | backend/internal/engine/scheduler.go:71-91 | The due batch is QUEUED and back in its tiers; returns the number enqueued; equals its run in the interleaved model. |
| Components.WorkerSupervisor.ReapDeadWorkers | backend/internal/engine/supervisor.go:70-113 | Exactly the ACTIVE workers whose heartbeat is too old become OFFLINE, and their RUNNING jobs QUEUED and waiting again, up to failing calls; equals its run in the interleaved model. |
| Components.Worker.ProcessJob | backend/internal/engine/worker.go:168-250 | A delivery that is not eligible changes no row and is acknowledged. An eligible one counts an attempt and ends FAILED without a handler, SUCCEEDED when its handler returns no error, and otherwise RETRYING within the backoff bound or, at the maximum, DEAD_LETTER with the error; it is acknowledged even if the store refuses the result. Equals its run in the interleaved model. |
| Components.Worker.Resolve | backend/internal/engine/worker.go:184-244 | A missing handler fails the job, an error records a failure due within the backoff bound of its attempt, no error succeeds. |
| Components.Worker.ClaimNext | backend/internal/engine/worker.go:145-165 | One turn of the worker's loop: nothing when no id waits, otherwise a waiting id, now in progress; equals its run in the interleaved model. |
| Components.Worker.RecoverStale | backend/internal/engine/worker.go:287-307 | One tick of stale recovery: every expired entry is back in the second tier, and their number is returned; equals its run in the interleaved model. |
| Components.Handler.CreateJob | backend/internal/api/handler.go:38-96 | Bad requests, store errors and replays change nothing; a new job is stored, then enqueued in the tier of its priority. |
| Components.Handler.CancelJob | backend/internal/api/handler.go:151-182 | A cancellation that the store accepts is followed by an acknowledgement; otherwise nothing changes. |
| Components.Handler.RetryJob | backend/internal/api/handler.go:184-211 | A retry that the store accepts is followed by an enqueue in the tier of the job's priority; otherwise nothing changes. |
| Backoff.DelayRange | backend/internal/engine/backoff.go:21-52 | The delay lies in [0, min(maxDelay, base·2^min(attempt-1,30))). |
| Backoff.DelayReached | backend/internal/engine/backoff.go:47-52 | Every whole duration below the ceiling is the delay of some draw. |
| Backoff.CeilingMonotone | backend/internal/engine/backoff.go:32-45 | More attempts never lower the ceiling. |
| Backoff.ClampInvisible | backend/internal/engine/backoff.go:32-45 | The ceiling is the documented min(maxDelay, base·2^(attempt-1)) at every attempt iff base·2^30 is at least the maximum, defaults filled in. |
| Backoff.DefaultsUnclamped | backend/internal/engine/backoff.go:8-11 | With the default delays the ceiling is the documented one at every attempt. |
| Backoff.DefaultDelay | backend/internal/engine/backoff.go:21-52 | The delays the engine asks for are below an hour and below 2^(attempt-1) seconds. |

## Left out
- WorkflowInterleaving.SucceededMeansMarked: a task whose mark failed to be written is excepted, because the engine ignores that failure; `LostWrites.SucceededWithoutMark` shows it happens.
- NoLostJobs.NoQueuedJobLost: says that every QUEUED job is in line or in somebody's hands, and for that excludes failing enqueues and `ClaimJob` calls, changes whose caller never learns of them, and the death of whoever holds an id; `TolerantRuns.QueuedJobsAccounted` allows them where the queue backs the job, and `Redelivery.LostIffUnbacked` is the exact condition. A workflow engine that skips the enqueue after a failed bind counts as such a death.
- WorkflowRuns.Invariant: `Start` only meets PENDING workflows in runs of whole rounds; `WorkflowProgress.StartOverridesCancel` says what happens otherwise.
- WorkflowProgress.NoStall: says nothing about workflows with a CANCELLED task, which neither fail nor complete in the code.
- Components.WorkerSupervisor.ReapDeadWorkers: runs without other components in between; their interleavings are runs of `JobLifecycle`, where any worker may be recovered at any time, dead or not.
- Backoff.DelayRange: exact products instead of float64 rounding, and unbounded durations.
- HTTP decoding, routing, responses, JSON payloads, the SQL text and the Redis wire protocol: each statement or script is one atomic step.
- Queue names: one queue; acknowledgements and claims for another name than the job's are not modelled.
- `created_at`, `updated_at`, and the `started_at` and `completed_at` of workflows and tasks: no decision reads them, except the order of ready tasks, which is list order here.
- Worker registration, heartbeats, counters, the concurrency semaphore and draining: `Run` is reduced to claims that may happen at any time.
- The context that a shutdown cancels: its effect is that calls fail, which any call may.
- The poller's limit of 50 workflows: it advances any workflow at any time.
- `RevertToQueued` and `JobStore.Claim`: nothing in the engine calls them.
- Listing, paging, filters, status counts and statistics: they only read, and no component acts on what they return.
- Eventual recovery: the code does not guarantee it, since a failed recovery of an OFFLINE worker is not repeated.
