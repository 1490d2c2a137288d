# Durable execution, verified

A Dafny 4.11 model of the durable-execution engine of the repository, with proofs about it. Three
parts build on one another:

* **Durable jobs** (`Jobs`, `JobInvariant`, `JobLaws`, `JobRuns`, `Backoff`, `JobRepository`, `Worker`, `WorkerLaws`): jobs, lease
  tokens, attempts, results and the completion outbox. `Jobs` gives each repository method as one
  transaction on the tables; `SqliteJobRepository` is the class that performs it, field by field. A *run*
  is any sequence of calls at non-decreasing times, by any number of live, stale or crashed workers.
* **Goals** (`Graph`, `Planner`, `PlannerLaws`, `Substitution`, `Goals`, `GoalSafety`, `GoalReviews`, `GoalProgress`,
  `GoalRounds`, `GoalLimits`, `GoalPasses`, `GoalLaunches`, `GoalActions`, `Coordinator`): the plan check, and the scheduler that launches the tasks of a
  plan as jobs. An operation is the sequence of store writes it commits. A crash leaves a prefix of that
  sequence, so the theorems about runs of goals cut every operation off after any number of writes.
  `DurableGoalCoordinator` is the class with the loops of the source, proved to commit exactly those writes.
* **Publication** (`Artifacts`, `ArtifactLaws`, `Storage`, `ObjectBackends`, `Publication`, `PublishedRows`, `Delivery`,
  `Completion`): artifact versions, the object backends, and publishers that replay the outbox into the artifact store and the review queue, any
  number at once, each of which may stop between any two steps, with cleanups overlapping them.

`FirstJob`, `GoalScenarios` and `PublicationScenarios` hold concrete runs: the inputs for which the code falls
short of what it is for. Smaller parts stand beside these: `Routing`, `RouteLaws`, `Policy` and `PolicyLaws` (the
routing graph, policy rules, single-use grants), `Calibration`, `CalibrationLaws` and `Scorecards` (calibration error, Wilson
interval, percentile) and `Audit` (the hash chain). `Prelude` and `Contracts` hold the shared records.

Each operation of the source is a function on the stores' contents, which the class beside it is proved to follow. What the
operation is for is proved of that function twice over: as what it keeps over every run, and, in the modules named `...Laws`,
`GoalPasses`, `GoalLaunches`, `GoalActions` and `PublishedRows`, as what the rows before say about the rows after, in terms of
columns and constants and without the function's own parts.

## How to read the model

* Identifiers come from a counter (`Uuid`); only freshness and equality matter. Times are exact reals.
* A JSON string that has the form of a dependency reference is kept parsed (`Contracts.Json.Ref`).
* SHA-256 is an injective constructor in `Artifacts` and a function parameter in `Audit` and `Policy`. Nothing
  is assumed of that function: the theorems of `Audit` conclude that logs agree or that two of their events
  collide.
* Things read from outside are parameters: the clock, the number of running jobs that a pass counts, the
  length of an encoded payload, the names and contents an object backend takes (`ObjectBackends` gives both
  shipped ones), what the registry and the agents answer, the square root in the Wilson
  interval, and the place at which a store fails.
* Where the source compares random identifiers or leaves the order to SQLite, the model takes identifier
  order: two jobs, or two grants, created at the same instant.

## Main results

1. A lease that ended or ran out never acts again, a lease that lasts is safe from everybody else, a job has
   one winner, its result is final, its life is bounded, and so is the sum of the retry delays that a whole run
   gives it (`JobRuns`, `Backoff`). What enqueuing, claiming, renewing, completing, failing, cancelling and reclaiming
   decide is told from the rows (`JobLaws`). A worker makes exactly the calls its executor's outcome asks for, and they
   take effect while its lease lasts (`Worker`, `WorkerLaws`).
2. A plan is accepted exactly when its tasks are valid and its graph has no directed cycle, and an accepted
   plan has a topological order (`Planner.PlanTasks`, `PlannerLaws`).
3. Over every run with crashes, every launched task has its dependencies complete, each task has at most one
   job, starts, passes and cancellations update it at most twice, and the per-goal limit holds (`GoalSafety`,
   `GoalProgress`, `GoalLimits`). A complete task is earned or was accepted, and is final; every job carries the
   payload its task resolves to. A reference resolves to the value at the end of the chain of entries that its path
   names in a declared dependency's result (`Substitution`).
4. Blocking marks exactly the doomed tasks; on an accepted plan no pass with a free slot leaves a goal running
   and stuck (`GoalProgress`). What one whole pass makes of each running and each pending task, and when it pauses the
   goal, is told from the tasks and their jobs alone (`GoalPasses`, `GoalLaunches`), and so is what cancelling, rerunning,
   accepting and rejecting leave (`GoalActions`). More than 2n rounds of ended jobs and such passes bring a goal of n tasks to
   its end (`GoalRounds`).
5. Publication has an exactly-once effect; in an acknowledged event every artifact has a version, which holds
   its content exactly when that is the content of the first artifact of the same file (`Publication`), and its review
   has the right value in every column (`PublishedRows`); and an
   undisturbed publication acknowledges a pending event exactly when its review identity is not taken, its
   artifacts are well formed and, with a backend, no stored version it would share has lost its object and no
   object it needs is refused (`Delivery`).
6. Version numbers are never reused, replay changes nothing, and, while the store's operations come one at a
   time, a backend that keeps each object under its own name refines inline content under every failure modelled
   (`Artifacts`). The local backend is one exactly for names in normal form (`ObjectBackends`). What a recording answers
   and adds, what a failure leaves, and what retention and cleanup take away are told row by row (`ArtifactLaws`).
7. A route has at most 12 visits and at most 2 agent runs, ends complete exactly when its last run met the
   threshold, and runs no agent unless the policy passed (`Routing`). Where a route that passed goes, which agent it runs
   and how it ends follow from who is capable and what the agents answer (`RouteLaws`). Grants are conserved with the
   consumptions of any number of routes interleaved (`Policy`), and which ones a route uses up is decided by the rules
   and the grant table (`PolicyLaws`).
8. Refining calibration bins never lowers the error (`Calibration`), which is what the bins' confidences are apart from
   their successes (`CalibrationLaws`); the Wilson ends are exactly the roots of
   the score equation and need no clamping (`Scorecards`); two audit logs that verify and end in the same hash
   have the same events, or two different events of theirs have the same hash (`Audit`).

## Where the code falls short

Each of these has an exact condition, proved for all inputs, and a concrete run that meets it.

* A rerun breaks dependency safety exactly when a dependent of the task was launched or has a job
  (`GoalSafety.RerunIsSafeUnlessReliedOn`, `GoalScenarios.RerunBreaksDependencySafety`).
* An accepted task holds its job's result exactly when a pass had taken up the escalated outcome before the
  reviewer accepted it; otherwise it is complete without a result for ever
  (`GoalSafety.AcceptedHoldsResultIffTakenUp`, `GoalScenarios.EarlyAcceptanceLosesTheResult`). When the acceptance
  itself is cut off between resolving the review and updating the task, no second verdict is possible and the
  task never completes, short of a rerun (`GoalReviews.CutAcceptanceIsForEver`,
  `GoalScenarios.CutAcceptanceStrandsTask`).
* Outside goals the review identity is the task id. An event that finds it taken is never acknowledged, so of
  two escalated jobs of one task at most one is (`Delivery.PublicationSucceedsExactly`,
  `Publication.TakenIsNeverAcknowledged`, `PublicationScenarios.RoutedReviewBlocksPublication`).
* A cleanup reads the known rows, lists the objects and deletes without holding a lock in between. When a
  recording commits meanwhile, the cleanup deletes the object of its row, and while the backend is configured
  the event is never acknowledged (`Delivery.PublicationSucceedsExactly`,
  `Delivery.LostIsNeverAcknowledged`, `PublicationScenarios.SweptFileBlocksPublication`).
* Both backends refuse an object whose name begins with a slash, and an object's name begins with the workspace
  root. The roots of goals are normally absolute, so with a backend configured an event with files in such a root
  is never acknowledged (`PublicationScenarios.AbsoluteRootsAreNeverAcknowledged`,
  `PublicationScenarios.AbsoluteRootBlocksPublication`). An event with a malformed artifact never is either
  (`Delivery.MalformedIsNeverAcknowledged`, `PublicationScenarios.MalformedResultBlocksPublication`).
* When a result names one file twice with different contents, only the first is stored, and the event is
  acknowledged all the same (`Publication.ContentsAreDeliveredIff`, `PublicationScenarios.SecondContentIsLost`).
* The local backend lists objects under normalised names. A cleanup keeps the object of a committed row exactly when
  its listed name is known, so it deletes a live object whose name is not in normal form
  (`ObjectBackends.CleanupKeepsIffListedNameKnown`, `ObjectBackends.CleanupTakesRewrittenName`).

## Model

| member | source | states |
|---|---|---|
| JobRepository.SqliteJobRepository.Enqueue | core/jobs/repository.py:90-167 | adds the job, its key, its input and its first log entry, or returns the job already under the key, or raises without change; keeps the invariant |
| JobRepository.SqliteJobRepository.NextJob | core/jobs/repository.py:249-258 | the claim's query finds a job exactly when one is claimable, and then the first by priority, creation and identifier |
| JobRepository.SqliteJobRepository.Claim | core/jobs/repository.py:236-303 | opens the next attempt of that job with a fresh token and lease; no change when nothing is claimable or an argument is invalid |
| JobRepository.SqliteJobRepository.FindActiveAttempt | core/jobs/repository.py:721-734 | finds the attempt a token may act for, or none |
| JobRepository.SqliteJobRepository.Heartbeat | core/jobs/repository.py:305-337 | extends the lease of the live token only |
| JobRepository.SqliteJobRepository.FindDelivery | core/jobs/repository.py:644-651 | tells whether this completion was stored before |
| JobRepository.SqliteJobRepository.Complete | core/jobs/repository.py:622-719 | commits result, outbox row, attempt and status together for the live token, accepts a redelivery, else changes nothing |
| JobRepository.SqliteJobRepository.RecordFailure | core/jobs/repository.py:401-482 | closes the live attempt and requeues or fails the job |
| JobRepository.SqliteJobRepository.Cancel | core/jobs/repository.py:484-534 | cancels a queued or running job and withdraws its open attempt; a second cancel changes nothing |
| JobRepository.SqliteJobRepository.ReclaimExpired | core/jobs/repository.py:536-592 | reclaims exactly the running jobs whose lease ran out, whatever the order of the rows |
| JobRepository.SqliteJobRepository.PendingCompletions | core/jobs/repository.py:359-368 | the unpublished events, oldest first, none left out below the limit |
| JobRepository.SqliteJobRepository.AcknowledgeCompletion | core/jobs/repository.py:370-379 | marks an unpublished event published, once |
| JobInvariant.CallKeeps | core/jobs/repository.py:90-592 | every call keeps the table invariant: one open attempt exactly when running, numbered attempts, unique tokens and keys, results only of completed jobs, retry spacing, a log that is a path of the transition graph |
| JobRuns.RunKeeps | core/jobs/repository.py:90-592 | the invariant and the order of all dates hold after every run |
| JobRuns.RetiredTokenNeverActs | core/jobs/repository.py:319-321 | once a lease ended or ran out, every later call with its token changes nothing, whatever happens in between |
| JobRuns.RetiredStays | core/jobs/repository.py:721-734 | no call of anybody revives a lease |
| JobRuns.LeaseIsUsableOrReclaimable | core/jobs/repository.py:320-321 | at each instant a lease is usable by its holder or reclaimable, never both |
| JobRuns.LiveLeaseSurvives | core/jobs/repository.py:536-551 | while its lease lasts, and unless the job is cancelled, no interleaving of other calls takes the job from its holder |
| JobRuns.CommitIsFenced | core/jobs/repository.py:655-699 | a result appears only in a completion by the live token, and is never replaced |
| JobRuns.OneWinner | core/jobs/repository.py:663-699 | a job has at most one successful and at most one open attempt |
| JobRuns.ResultIsFinal | core/jobs/repository.py:677-691 | a stored result is the job's result after every later run |
| JobRuns.TerminalIsFinal | core/contracts/jobs.py:146-164 | a terminal job keeps row, result, log and attempts over every run |
| JobRuns.BoundedLife | core/contracts/jobs.py:146-164 | the log is a path of the allowed graph of at most 1 + 2 max_attempts entries; a queued job has attempts left; attempts are numbered 1 to the count |
| JobRuns.RetriesAreSpaced | core/jobs/repository.py:450-455 | an attempt starts no earlier than one retry delay after the previous one ended |
| JobRuns.FailureDecides | core/jobs/repository.py:427-455 | a reported failure requeues the job exactly when the error may be retried and an attempt is left, claimable exactly from one delay on; else it fails; the token is spent either way |
| JobRuns.EnqueueCanBeRepeated | core/jobs/repository.py:116-127 | enqueuing under a used key, after any run, returns the first job and changes nothing |
| JobRuns.CompletionCanBeRepeated | core/jobs/repository.py:643-654 | repeating an accepted completion, after any run, is accepted and changes nothing |
| JobLaws.EnqueueStores | core/jobs/repository.py:99-167 | a request under a new key stores one queued job with exactly its task, key, priority, policy and input, claimable from that moment on, and touches no other row |
| JobLaws.EnqueueRefuses | core/jobs/repository.py:99-115 | exactly a foreign task id, a priority outside -100..100 and an empty key are refused, without change |
| JobLaws.ClaimTakesFirst | core/jobs/repository.py:236-303 | a claim finds nothing exactly when no job waits; else no waiting job has a higher priority, or the same and an earlier creation, than the one it starts, with attempt number, worker, lease and a token no attempt had |
| JobLaws.TokenHolds | core/jobs/repository.py:721-734 | a token holds a job exactly as long as it belongs to an attempt of it that has not ended and whose lease has not run out |
| JobLaws.HeartbeatExtends | core/jobs/repository.py:305-337 | a heartbeat of the live token makes it live until one lease from now, and changes nothing but that lease and a date |
| JobLaws.CompletionStores | core/jobs/repository.py:663-719 | a completion by the live token stores the result, closes the attempt as succeeded, ends the lease, and leaves an event exactly when the result has artifacts or is escalated |
| JobLaws.CompletionRefuses | core/jobs/repository.py:636-676 | which error a completion of a job that is not complete meets, and that it changes nothing |
| JobLaws.RedeliveryDecides | core/jobs/repository.py:643-662 | a completion of a complete job is accepted exactly when the token's own attempt completed it with the same output reference and the result, if any, is the stored one; it changes nothing |
| JobLaws.FailureIsKept | core/jobs/repository.py:401-482 | a reported failure is kept with its attempt: error, code and kind |
| JobLaws.CancelDecides | core/jobs/repository.py:484-534 | a cancelled job ends as cancelled, its open attempt as withdrawn, and no token holds it at any later time; which jobs are refused |
| JobLaws.ReclaimDecides | core/jobs/repository.py:554-592 | a job whose lease ran out is queued again exactly when an attempt is left, claimable exactly from one retry delay on, and has failed otherwise; its attempt is closed and no token holds it |
| JobLaws.ReclaimLeavesOthers | core/jobs/repository.py:536-551 | every other job and its attempts stay as they are |
| JobLaws.DelayDoubles | core/jobs/repository.py:450-454 | the first delay is the back-off, and each further one twice the one before, up to the cap |
| Backoff.DelayInRange | core/jobs/repository.py:450-454 | each delay lies between the back-off and its cap |
| Backoff.DelayNeverDecreases | core/jobs/repository.py:450-454 | later delays are never shorter |
| Backoff.DelaysOfARun | core/jobs/repository.py:569-573 | over every run the waits given to a job are the retry delays of the attempts after which it was put back, at most max - 1 of them, and sum to at most min(b(2^(max-1) - 1), (max-1) cap) |
| Backoff.BackoffAccumulates | core/jobs/repository.py:253-253 | attempt n starts at least the first n - 1 delays after attempt 1 |
| Worker.DurableWorker.RunCycle | core/jobs/worker.py:108-136 | one cycle is a reclaim and, unless stopping or at capacity, one claim, which succeeds exactly when a job is claimable after the reclaim; a claimed job is held for one lease; capacity is never exceeded |
| Worker.DurableWorker.Execute | core/jobs/worker.py:147-203 | makes exactly the calls that the outcome asks for, with the attempt's own token, and changes nothing once the lease is lost |
| Worker.ReportsTakeEffect | core/jobs/worker.py:147-203 | while the lease lasts, a returned result completes the job with it, and an error sends the job back or fails it |
| WorkerLaws.ExecutionEnds | core/jobs/worker.py:147-224 | while the attempt holds its job, each way an execution ends leaves these rows: the committed result, or the failure with its text, code and kind and the job queued or failed, or nothing |
| Worker.DurableWorker.RecordFailure | core/jobs/worker.py:205-224 | reports exactly this failure; a late one is discarded without change |
| Worker.DurableWorker.Beat | core/jobs/worker.py:226-245 | asks for cancellation exactly when the job is gone, cancelled or the lease lost, else holds the job for one more lease |
| Graph.TopologicalMeansAcyclic | agents/andromeda/planner.py:48-62 | a graph with a topological order has no directed cycle |
| Planner.HasCycle | agents/andromeda/planner.py:48-62 | the three-colour search answers true exactly when the graph has a directed cycle, and else finishes in a topological order |
| Planner.Visit | agents/andromeda/planner.py:52-60 | one search from a white node keeps the colours, finds a cycle or blackens what it reached |
| Planner.CheckSpec | agents/andromeda/planner.py:150-169 | a task is accepted with its skill, payload keys and dependency indices checked, and each error is justified |
| Planner.PlanTasks | agents/andromeda/planner.py:144-186 | a plan is accepted exactly when its tasks are valid and acyclic; the result translates every task and is ranked; an error names the first invalid task |
| Planner.Translate | agents/andromeda/planner.py:174-186 | each task keeps its specification, with indices replaced by the identifiers of those tasks |
| Planner.TopologicalOrderRanks | agents/andromeda/planner.py:183-186 | a topological order of the indices ranks every dependency below its dependent |
| PlannerLaws.AcceptableMeans | agents/andromeda/planner.py:144-172 | a plan is acceptable exactly when it has tasks, each lists indices of other tasks and has the payload keys of the skill it resolves to, and no tasks depend on each other in a circle |
| PlannerLaws.ResolvesMeans | agents/andromeda/planner.py:151-157 | a known skill stands for itself; an unknown one for the only known skill that ends in its last segment, the last part of the text split at ".skill." |
| PlannerLaws.TaskIsItsSpec | agents/andromeda/planner.py:174-186 | every column of a task of an accepted plan, from its specification |
| Substitution.ResolveMeaning | core/goals/substitution.py:26-56 | substitution succeeds exactly when every reference resolves, and its result replaces exactly the reference leaves |
| Substitution.FollowMeaning | core/goals/substitution.py:50-55 | following a path gives a value exactly when a chain of objects leads there, each the entry of the one before under the next part; and there is only one such value |
| Substitution.RefMeaning | core/goals/substitution.py:40-56 | a reference gives a value exactly when it names a declared task with a result and its path leads from that result to the value |
| Substitution.RefErrors | core/goals/substitution.py:40-56 | which error a reference raises otherwise |
| Substitution.ReplacementIsUnique | core/goals/substitution.py:26-56 | there is only one such result |
| Substitution.NoReferencesNoChange | core/goals/substitution.py:31-35 | a value without references is returned unchanged |
| Substitution.OnlyDeclaredResultsMatter | core/goals/substitution.py:40-47 | the outcome depends only on the results of declared dependencies |
| Substitution.PayloadResolution | core/goals/substitution.py:58-63 | a payload resolves exactly when its references do and the output is an object within the size limit |
| Substitution.PayloadErrors | core/goals/substitution.py:58-63 | which error the whole operation raises: no object, too large, or that of one of the payload's references |
| GoalSafety.RunningHasItsJob | core/goals/coordinator.py:60-65 | in every reachable state the job found for a running task is the one under its key |
| Coordinator.GoalStore.SavePlan | core/goals/store.py:173-205 | stores exactly the plan; gated plans wait for a reviewer |
| Coordinator.GoalStore.GetTasks | core/goals/store.py:222-228 | the tasks in plan order |
| Coordinator.GoalStore.UpdateTask | core/goals/store.py:230-251 | changes the named fields of that task only |
| Coordinator.DurableGoalCoordinator.TakeOutcome | core/goals/coordinator.py:60-90 | takes up one job outcome exactly as specified for the task |
| Coordinator.DurableGoalCoordinator.TakeOutcomes | core/goals/coordinator.py:54-90 | the loop over a stale list of tasks commits the specified intake, and stops where it pauses |
| Coordinator.DurableGoalCoordinator.BlockDependents | core/goals/coordinator.py:91-105 | the loop over stale rows and a growing set of failed ids terminates and commits the specified blocking writes |
| Coordinator.DurableGoalCoordinator.LaunchReady | core/goals/coordinator.py:107-139 | launching from tasks read before the blocking loop commits what launching from current ones would |
| Coordinator.DurableGoalCoordinator.LaunchTask | core/goals/coordinator.py:123-138 | one enqueue under the task's key, then one task update with that job |
| Coordinator.DurableGoalCoordinator.Judge | core/goals/coordinator.py:141-147 | commits the verdict of the pass |
| Coordinator.DurableGoalCoordinator.Reconcile | core/goals/coordinator.py:50-147 | a pass commits exactly the writes of the specification, in order |
| Coordinator.DurableGoalCoordinator.Start | core/goals/coordinator.py:40-48 | resumes and passes exactly when the status allows it, else raises without a write |
| Coordinator.DurableGoalCoordinator.Pause | core/goals/coordinator.py:149-158 | pauses a running goal, ignores a paused one, else raises |
| Coordinator.DurableGoalCoordinator.CancelAll | core/goals/coordinator.py:168-180 | cancels every running or pending task and the live jobs of the running ones |
| Coordinator.DurableGoalCoordinator.Cancel | core/goals/coordinator.py:160-184 | cancels the goal, ignores a cancelled one, raises on a finished one |
| Coordinator.DurableGoalCoordinator.Rerun | core/goals/coordinator.py:186-227 | runs a finished task again under a fresh key exactly when its payload resolves, else raises without a write |
| GoalPasses.PassTakesUp | core/goals/coordinator.py:54-90 | what a whole pass makes of every running task it reaches, by its job: complete with the result when that meets the threshold, failed with its reason, failed with the job's status, escalated with its result, or as it was; a task after the one that paused the goal is not touched |
| GoalPasses.LostJobIsLetGo | core/goals/coordinator.py:60-67 | a running task whose job is gone, by its record or else by its key, is pending again without a job |
| GoalPasses.PassPausesIff | core/goals/coordinator.py:82-87 | a pass pauses the goal exactly when some running task's job completed with a result that is neither good enough nor failed, and then writes nothing more |
| GoalLaunches.PassMovesPending | core/goals/coordinator.py:91-139 | in a pass a pending task stays as it is, is blocked, fails on its payload, or is started, with all dependencies complete, under its own key, with the skill, payload, threshold and workspace it should have |
| GoalLaunches.PassFillsSlots | core/goals/coordinator.py:107-139 | a pass starts no more tasks than the goal's limit and the limit over all goals leave room for, and leaves a ready task pending only when they are used up |
| GoalLaunches.PassAddsJobs | core/goals/coordinator.py:131-135 | a pass leaves every job, attempt, result and event as it was; the jobs it adds are queued with priority 0 and the default retry policy |
| GoalActions.StartResumes | core/goals/coordinator.py:40-48 | a start of a ready, paused or running goal sets it running, records itself and makes one pass; else it does nothing |
| GoalActions.PauseHolds | core/goals/coordinator.py:149-158 | a pause sets a running goal paused and records itself, and changes nothing else |
| GoalActions.CancelEnds | core/goals/coordinator.py:160-184 | a cancellation leaves every pending and running task cancelled, every job of a running one cancelled unless it was over, every other task and every job that was over as they were, and records which tasks it reached |
| GoalActions.RerunStartsOver | core/goals/coordinator.py:186-227 | a rerun leaves the task running under a new job with its own contract, with nothing of its last outcome, keyed by the number of reruns recorded so far |
| GoalActions.RerunKeysDiffer | core/goals/coordinator.py:201-217 | a later rerun of the task never uses the same key |
| GoalSafety.LegalKeeps | core/goals/coordinator.py:50-147 | every write an operation may make keeps the goal invariant |
| GoalSafety.StepKeeps | core/goals/coordinator.py:40-184 | every operation keeps it wherever it is cut off |
| GoalSafety.RunsAreDependencySafe | core/goals/coordinator.py:57-139 | over every run with crashes and reviews, a running, complete, failed or escalated task has its dependencies complete, and a job is enqueued only for such a task |
| GoalSafety.CompleteTasksAreEarned | core/goals/coordinator.py:69-77 | over the same runs, a complete task's review was accepted, or its job committed a complete result that meets the goal's threshold and the task holds that result |
| GoalSafety.CompleteIsFinal | core/goals/coordinator.py:50-184 | a complete task never changes again, by no pass, crash, cancellation or review |
| GoalSafety.AcceptedHoldsResultIffTakenUp | services/andromeda_service.py:955-959 | after whatever run, a task whose acceptance reached the task update stays complete, and holds the result its job committed if and only if it was escalated when it was accepted; else it has none for ever |
| GoalReviews.CutAcceptanceIsForEver | services/andromeda_service.py:955-959 | after whatever run, an acceptance cut off between resolving the review and updating the task leaves the task incomplete over every later run, and a second verdict is refused |
| GoalScenarios.EarlyAcceptanceLosesTheResult | services/andromeda_service.py:955-959 | a run in which the goal is paused while the job escalates and its review is published; accepting then completes the task without its result for ever |
| GoalScenarios.CutAcceptanceStrandsTask | services/andromeda_service.py:955-959 | the same run, with the acceptance cut off after its first write; the task never completes |
| GoalSafety.JobInputsAreResolved | core/goals/coordinator.py:118-135 | the job of a task carries its contract, with the payload that resolving its references gives, then and at any later time |
| GoalSafety.OneJobPerTask | core/goals/coordinator.py:131-138 | over the same runs a task has at most one job, and a running task has recorded it |
| GoalSafety.JobIsTakenUpAgain | core/goals/coordinator.py:31-33 | a job enqueued before a crash is the one the next launch takes up and records |
| GoalSafety.ApproveLegal | services/andromeda_service.py:955-959 | every write of an approval, and of the start that follows it, keeps the goal invariant |
| GoalSafety.RejectLegal | services/andromeda_service.py:960-964 | every write of a rejection keeps the goal invariant |
| GoalActions.ApprovalCompletes | services/andromeda_service.py:955-959 | an acceptance completes the task with what it holds and starts the goal, exactly when a review of it is pending |
| GoalActions.RejectionFails | services/andromeda_service.py:960-964 | a rejection fails the task and the goal, exactly when a review of it is pending |
| GoalActions.ReviewIsPublishedOnce | core/jobs/completion.py:61-76 | a review appears for a task exactly when its job committed an escalated result, and once |
| GoalSafety.RerunIsSafeUnlessReliedOn | core/goals/coordinator.py:186-227 | a rerun keeps dependency safety exactly when no dependent was launched or has a job |
| GoalScenarios.RerunBreaksDependencySafety | core/goals/coordinator.py:186-227 | a run from a fresh plan after which the first task may be rerun while the second, which depends on it, is running; the rerun breaks dependency safety |
| GoalProgress.PassLowersMeasure | core/goals/coordinator.py:50-147 | each task update of a pass, cut off anywhere, lowers 2 pending + running |
| GoalProgress.AtMostTwoChangesPerTask | core/goals/coordinator.py:50-147 | over a whole run without reruns, starts, passes and cancellations update each task at most twice |
| GoalProgress.BlockMarksExactlyTheDoomed | core/goals/coordinator.py:91-105 | blocking marks exactly the pending tasks with a dependency path through pending tasks to a failed, blocked or cancelled one, and changes nothing else |
| GoalProgress.DoomedMeansDependsOnBlocking | core/goals/coordinator.py:91-105 | under dependency safety these are all pending transitive dependents of such a task |
| GoalProgress.LaunchOutcome | core/goals/coordinator.py:111-139 | launching changes pending tasks only; a ready task stays pending with a free slot only if a task runs; a task fails only on its payload |
| GoalProgress.VerdictEnds | core/goals/coordinator.py:141-147 | the goal stays running exactly while a task is pending or running, and is complete exactly when all tasks are |
| GoalProgress.NoStall | core/goals/coordinator.py:50-147 | a pass with a free slot and no escalation that leaves the goal running leaves a task running or just failed one on its payload |
| GoalProgress.AcceptedPlanIsFreshAndRanked | core/goals/store.py:173-205 | a goal whose accepted plan was just saved satisfies the premises of the run theorems |
| GoalProgress.RunsDoNotStall | core/goals/coordinator.py:50-147 | no pass stalls, after whatever run from an accepted plan |
| GoalRounds.PassLowersOrEnds | core/goals/coordinator.py:50-147 | a pass with a free slot and no escalation, after the jobs of the running tasks ended, ends the goal or lowers 2 pending + running |
| GoalRounds.RunningGoalsEnd | core/goals/coordinator.py:50-147 | from whatever state a run leads to, more than 2n such rounds complete or fail a running goal of n tasks |
| GoalLimits.LaunchTakesSlots | core/goals/coordinator.py:110-139 | launching, cut off anywhere, starts no more tasks than there are slots |
| GoalLimits.RunsStayWithinLimit | core/goals/coordinator.py:108-113 | over every run a goal never has more running tasks than the largest per-goal limit used |
| Storage.ArtifactStore.Record | core/artifacts/store.py:72-167 | a batch is committed as specified or, on a fault, rolled back with only objects left behind |
| Storage.ArtifactStore.RecordArtifact | core/artifacts/store.py:86-166 | one artifact is replayed, recognised as unchanged, or stored as the next version |
| Storage.ArtifactStore.LatestVersion | core/artifacts/store.py:107-112 | the largest version of a file, 0 when there is none |
| Storage.ArtifactStore.GetVersion | core/artifacts/store.py:198-214 | the row with its content read through the backend |
| Storage.ArtifactStore.CleanupOrphans | core/artifacts/store.py:225-237 | deletes only objects that no row names, and all of them unless interrupted |
| Storage.ArtifactStore.DeleteOlderThan | core/artifacts/store.py:239-255 | deletes exactly the old versions that are not current, and only their objects |
| ArtifactLaws.RecordDecides | core/artifacts/store.py:72-167 | what a whole call answers and stores: the first artifact of each file by the attempt's own version or by the newest version there was, further ones by the one before; every column of the rows it adds, their objects, the attempt's notes, and nothing else; a failed call leaves the tables as they were |
| ArtifactLaws.FailureLeaves | core/artifacts/store.py:124-160 | a call succeeds only if no artifact is malformed or refused and no fault strikes; a failed one was stopped after some artifacts, whose objects stay, and exactly which object the fault adds or takes |
| ArtifactLaws.RetentionDecides | core/artifacts/store.py:239-255 | retention deletes exactly the rows created before the cut-off that a newer version of their file supersedes, and of the objects it reaches those that deleted rows named |
| ArtifactLaws.CleanupDecides | core/artifacts/store.py:225-237 | a cleanup touches no row, and of the objects it reaches it deletes exactly those that no row names |
| Artifacts.VersionChain | core/artifacts/store.py:107-123 | without retention, and whatever fails, versions are 1..k, neighbours differ, and no attempt adds two versions of a file |
| Artifacts.ReplayChangesNothing | core/artifacts/store.py:93-105 | recording an attempt again, after anything else, is never refused, returns the same versions and changes nothing |
| Artifacts.FailsOnlyWhenRaised | core/artifacts/store.py:86-130 | without a fault a recording fails exactly when an artifact is malformed or needs an object that the backend refuses |
| Artifacts.VersionsAreNeverReused | core/artifacts/store.py:239-248 | over any run with retention a surviving version is unchanged, a deleted one never returns, and the latest number never falls |
| Artifacts.DeleteIsLater | core/artifacts/store.py:242-247 | retention keeps the latest version of every file |
| Artifacts.RecordOneStores | core/artifacts/store.py:123-166 | an artifact not recorded before ends up, with its content, in the version it is given |
| Artifacts.BackendRefinesInline | core/artifacts/store.py:123-160 | after any run of operations one at a time, with failed puts, failed inserts and crashes, reading through the backend gives the inline row |
| Artifacts.CleanupIsExact | core/artifacts/store.py:225-237 | a finished cleanup, with nothing at the same time, leaves exactly the objects that committed rows name |
| ObjectBackends.AbsoluteRootsAreRefused | core/artifacts/object_storage.py:54-59 | no shipped backend takes an object of a workspace with an absolute root, whatever its content and version |
| ObjectBackends.NormalNamesAreTaken | core/artifacts/object_storage.py:54-64 | both take every name in normal relative form with a content within the limit |
| ObjectBackends.ObjectNamesDiffer | core/artifacts/store.py:126-126 | different versions have different object names |
| ObjectBackends.ListedAsIsIffNormal | core/artifacts/object_storage.py:96-97 | the local listing gives an object back under its own name exactly when that is in normal form |
| ObjectBackends.NormalNamesAreDistinct | core/artifacts/object_storage.py:54-60 | names in normal form never share a file |
| ObjectBackends.PutShowsIffNormal | core/artifacts/object_storage.py:62-82 | a local put makes the listing show exactly the object of that name and leaves all others, exactly for names in normal form |
| ObjectBackends.CleanupKeepsIffListedNameKnown | core/artifacts/store.py:232-237 | over the local backend a cleanup keeps the object of a known name exactly when its listed name is known |
| ObjectBackends.CleanupTakesRewrittenName | core/artifacts/store.py:232-237 | a cleanup alone deletes the live object of the file "a//b" |
| Completion.ReviewQueue.Enqueue | agents/andromeda/review_queue.py:74-103 | insert-or-ignore: an existing row is never replaced |
| Completion.ReviewQueue.Resolve | agents/andromeda/review_queue.py:124-133 | resolves a pending row once, changing its status only |
| Completion.CompletionPublisher.Publish | core/jobs/completion.py:38-82 | publishes one event, leaving on failure what was stored so far |
| Completion.CompletionPublisher.PublishPending | core/jobs/completion.py:29-36 | publishes the pending events in turn; no failure stops the others |
| Completion.PublishAloneIsPublish | core/jobs/completion.py:38-82 | the method is a run of one publisher of the concurrent machine |
| Publication.StepKeeps | core/jobs/completion.py:38-82 | every step of every publisher, every cleanup and everybody else keeps the publication invariant |
| Publication.ExactlyOnceEffect | core/jobs/completion.py:44-72 | an attempt adds at most one version per file and at most one review row, however publishers interleave, retry and stop |
| Publication.AcknowledgedMeansDelivered | core/jobs/completion.py:51-82 | in an acknowledged event every artifact has a version row and a reference with the content and hash of the first artifact of its file and, if escalated, a review row with exactly its attempt and evidence |
| PublishedRows.AcknowledgedReview | core/jobs/completion.py:61-76 | over every run, the review of an acknowledged escalated event column by column: key, skill, payload, confidence, deadline, goal and planned task exactly for goal tasks, attempt, every entry of the result's object, and the references to the versions |
| PublishedRows.VersionsAreOfTheirEvents | core/jobs/completion.py:44-50 | over every run, a version row that carries an attempt holds an artifact of the completion of that attempt, under its file, with its task and skill |
| PublishedRows.UnansweredIsPending | agents/andromeda/review_queue.py:74-103 | a review that a publisher asked for is pending as long as nobody answers it |
| Publication.ContentsAreDeliveredIff | core/artifacts/store.py:93-105 | an artifact of an acknowledged event is in the version it was given exactly when its content is that of the first artifact of the file; all are exactly when no file comes twice with different contents |
| PublicationScenarios.SecondContentIsLost | core/artifacts/store.py:93-105 | a run whose event names one file twice; it is acknowledged, and the second content is in no version |
| Publication.ReferencesNeverChange | core/jobs/completion.py:51-60 | the references of an event never change once recorded |
| Publication.TakenIsNeverAcknowledged | core/jobs/completion.py:77-81 | an event whose review identity belongs to other evidence is never acknowledged |
| PublicationScenarios.RoutedReviewBlocksPublication | core/jobs/completion.py:64-81 | a run from empty stores that ends with an escalated event whose identity a review of direct routing has taken; it stays unpublished whatever follows |
| Publication.OneReviewPerTask | core/jobs/completion.py:64-65 | outside goals, of two escalated jobs of one task at most one is ever acknowledged |
| Delivery.PublicationSucceedsExactly | core/jobs/completion.py:38-82 | an undisturbed publication acknowledges a pending event exactly when its review identity is not taken, its artifacts are well formed and, with a backend, no stored version it would be given has lost its object and no object it needs is refused |
| Delivery.RecordingFailsIff | core/artifacts/store.py:86-130 | an undisturbed recording fails exactly when an artifact is malformed or, with a backend, the first artifact of some file needs a new version that the backend does not take |
| Delivery.RefusedIsNeverAcknowledged | core/artifacts/object_storage.py:54-59 | while a backend is configured, an event with a file whose name it refuses is never acknowledged, over every run |
| Delivery.MalformedIsNeverAcknowledged | core/artifacts/store.py:86-90 | an event with a malformed artifact is never acknowledged, over every run |
| PublicationScenarios.AbsoluteRootsAreNeverAcknowledged | core/artifacts/object_storage.py:115-118 | with either shipped backend configured, no event with files in a workspace with an absolute root is ever acknowledged |
| PublicationScenarios.AbsoluteRootBlocksPublication | core/artifacts/store.py:125-130 | a run from empty stores that ends with such an event: nothing is taken or lost, and it stays unpublished |
| PublicationScenarios.MalformedResultBlocksPublication | core/artifacts/store.py:86-90 | a run from empty stores that ends with such a malformed event; it stays unpublished whatever follows |
| Delivery.UnreadableMeansLost | core/artifacts/store.py:93-112 | what a recording returns cannot be read back exactly when a version noted for the attempt, or an unchanged latest version, had lost its object before |
| Delivery.LostIsNeverAcknowledged | core/artifacts/store.py:206-213 | while the backend is configured, an event whose recorded file lost its object is never acknowledged, over every run |
| Delivery.DeletionsCanWait | core/artifacts/store.py:232-237 | however cleanups delete in the course of a recording that succeeds, fails or crashes, its result is the same and the stores end as if some of the deletions had come right after it |
| Delivery.SweptRecordingIsARun | core/artifacts/store.py:232-237 | such a recording is a run of the machine: the recording in one step, and then deletions |
| PublicationScenarios.SweptFileBlocksPublication | core/artifacts/store.py:229-237 | a run from empty stores in which a cleanup overlaps a recording and deletes the object of its row; the event stays unpublished although its review identity is free |
| Policy.EvaluateSkill | core/policy/engine.py:53-58 | the first matching rule decides, and no earlier one matches |
| Policy.Evaluate | core/policy/engine.py:60-67 | the decision is at least as strict as every skill's, and is one of them |
| Policy.GrantStore.Issue | core/policy/grants.py:51-70 | adds one unused grant under a fresh identifier |
| Policy.GrantStore.Consume | core/policy/grants.py:72-85 | uses the oldest unexpired grant of exactly this key, or reports that there is none |
| Policy.PolicyNode | agents/andromeda/orchestrator.py:49-86 | commits exactly the specified consumptions and outcome |
| PolicyLaws.SkillDecides | core/policy/engine.py:53-58 | about a skill the first rule decides whose patterns match both the skill and the origin; without one it is allowed |
| PolicyLaws.StrictestPrevails | core/policy/engine.py:60-67 | a denied skill prevails over a held one and a held one over the rest; of several the first is reported |
| PolicyLaws.NodeDecides | agents/andromeda/orchestrator.py:49-86 | the node's whole effect: the first denied skill denies and uses no grant; else the held skills in order each use up the oldest fitting grant that none before took, and the route passes exactly when each finds one, else it is held for the first that does not |
| Policy.DeniedUsesNothing | agents/andromeda/orchestrator.py:55-63 | a route with a denied skill uses no grant |
| Policy.WithoutGrantsTheStrictestDecides | core/policy/engine.py:60-67 | with no usable grant the node decides as the strictest decision says |
| Policy.GrantsAreConserved | core/policy/grants.py:72-85 | over any run, with the consumptions of any number of routes interleaved, held routes that passed for a key never outnumber the grants issued for it |
| Policy.GrantsAreUsedOnce | core/policy/grants.py:78-82 | over any such run a grant is used at most once, before its expiry, and keeps its key |
| Policy.NodeIsAnUninterruptedRoute | agents/andromeda/orchestrator.py:64-81 | the policy node as one call does what a route does whose consumptions nobody interrupts |
| Routing.MatchSkills | agents/andromeda/orchestrator.py:159-210 | finds capable agents only, all of them without weights, the best-weighted first by name with them, and none exactly when nobody is capable |
| Routing.SelectAgent | agents/andromeda/nodes.py:38-61 | the first matched agent with the best mean confidence |
| Routing.Andromeda.Visit | agents/andromeda/orchestrator.py:140-152 | what each node does to the state, from what the registry and the agents answer, and that only the policy node touches grants |
| Routing.Andromeda.Route | agents/andromeda/orchestrator.py:252-310 | what it performs is a route of the graph from the policy node to an end, each visit with its effect and each step along an edge, and it uses exactly the grants the policy node uses |
| RouteLaws.RouteUnfolds | agents/andromeda/orchestrator.py:252-310 | where every finished route that passed policy goes and how it ends, from who is capable and what the agents answer: no agent, one run, or a second one after an answer from 0.60 and the failure threshold up to the limit; with its last confidence and failure |
| RouteLaws.RoundRunsTheFavoured | agents/andromeda/orchestrator.py:159-210 | the agent that is run has every skill for the origin; it has the largest sum of routing weights, or without weights the best mean, and the smallest name among equals |
| RouteLaws.ScoreIsTheMean | agents/andromeda/nodes.py:99-117 | an agent's score is the mean of its known averages over the required skills, 0 without any |
| Routing.RoutesAreShort | agents/andromeda/orchestrator.py:91-152 | no route has more than 12 visits or 2 agent runs, whatever the registry and the agents answer |
| Routing.RouteEndings | agents/andromeda/orchestrator.py:111-138 | a finished route ends complete, escalated or without an agent, and complete exactly when its last agent run succeeded and met the threshold |
| Routing.PolicyStopsRoutes | agents/andromeda/orchestrator.py:91-98 | a denied route goes straight to its end and a held one to escalation, without an agent run |
| Routing.SecondRunIsARetry | agents/andromeda/nodes.py:72-82 | an agent run that is not the first follows one that answered with a confidence from 0.60 up to the threshold, and the retry after it |
| Calibration.Calibrate | core/evaluation/calibration.py:19-36 | the loops compute the calibration error and one report per non-empty bin, or refuse |
| CalibrationLaws.ErrorMeasures | core/evaluation/calibration.py:22-36 | the error times the number of outcomes is, added up over the bins, how far the confidences in the bin are from its successes |
| CalibrationLaws.EveryBinIsReported | core/evaluation/calibration.py:28-36 | exactly the bins into which an outcome falls are reported, in order, each with its ends, its number of outcomes, their mean confidence and their rate of success |
| Calibration.RefinementRaisesError | core/evaluation/calibration.py:28-33 | m k bins give an error at least that of k bins |
| Calibration.ErrorBounds | core/evaluation/calibration.py:28-36 | the error is at least the overall bias and at most 1 |
| Calibration.EveryRecordInOneBin | core/evaluation/calibration.py:23-25 | every record falls in exactly one bin |
| Calibration.MeansLieInTheirBins | core/evaluation/calibration.py:31-34 | each reported mean lies in its bin's range, each accuracy in [0, 1] |
| Scorecards.EndsAreTheRoots | core/scorecards/metrics.py:14-21 | the unclamped ends are exactly the roots of (p - x)^2 = z^2 x (1 - x) / n |
| Scorecards.EndsEncloseTheRate | core/scorecards/metrics.py:14-21 | 0 <= low <= p <= high <= 1 before clamping |
| Scorecards.IntervalIsUnclamped | core/scorecards/metrics.py:14-21 | for any counts the clamps change nothing |
| Scorecards.PercentileIsNearestRank | core/scorecards/metrics.py:24-28 | at least q percent of the values are at most the percentile and fewer are below it |
| Audit.AuditLog.Append | core/security/audit.py:19-27 | extends the chain by one event whose hash is new; the unique index refuses only when a different event of the log has the same hash |
| Audit.AuditLog.Export | core/security/audit.py:29-30 | every export is chained with distinct hashes |
| Audit.Verify | core/security/audit.py:32-43 | accepts exactly the chained logs |
| Audit.ChainedHashesDiffer | core/security/audit.py:32-43 | the hashes of an accepted log are pairwise distinct, or two of its events collide |
| Audit.LastHashFixesTheLog | core/security/audit.py:32-43 | two accepted logs with the same last hash agree in length and in every event, or two different events of theirs have the same hash |
| Audit.AlterationShows | core/security/audit.py:32-43 | without such a collision, an altered log that is accepted has a different last hash |
| Audit.CutsAndDatesGoUnseen | core/security/audit.py:22-25 | dates and sequence numbers are outside the hash, and a cut-off log verifies as well |

## Left out

* PostgreSQL back ends of jobs and artifacts: they differ from SQLite (no terminal check in cancel, no outbox
  row, no failure recording) and no equivalence is claimed.
* Concurrent reconcilers of one goal: task updates are unconditional there; one reconciler at a time is assumed.
* The global job limit as an invariant: the code counts running jobs among the newest 500 only, so the count is
  a parameter of a pass and only the per-goal limit is proved.
* Reruns inside the run theorems: a rerun leaves their invariant, and `GoalSafety.RerunIsSafeUnlessReliedOn`
  says exactly when it loses dependency safety. Review approval of a task held by policy reruns it and is left
  out with it.
* Job progress in the middle of a pass: a pass reads each job once, and calls of workers are placed before or
  after it.
* Other goals in the same store: a goal store holds one goal here, and `reconcile_all` is not modelled. Calls
  from outside never use the task keys of the goal; a client key spelled like one is not modelled.
* The clock is read once per operation; the source reads it anew for each store write.
* Overlap of a cleanup or a retention with other operations in `Artifacts`, where operations come one at a time.
  `Publication` has the cleanup in steps that overlap recordings.
* A listing in the course of a recording: a recording is one step of `Publication`, so a cleanup lists before or after
  it; deletions in its course are covered by `Delivery.SweptRecordingIsARun`.
* Publication with retention: deleting old versions while their events are still pending is not part of
  `Publication`; without it the row-is-missing branch of the publisher is not reached.
* Retention of the job tables (core/storage/lifecycle.py), which deletes table by table.
* Texts of error messages, actors and reasons of events, and artifact metadata such as language, media type,
  project and organization with the access check on them.
- Artifacts.BackendRefinesInline: is about a backend that keeps each object under its own name; the S3 backend does,
  the local one for names in normal form (`ObjectBackends.PutShowsIffNormal`).
- Artifacts.CleanupIsExact: is about such a backend too, and about a listing of all objects; the S3 listing gives at
  most 1000 of them, and a cleanup there deletes among those only.
- Delivery.PublicationSucceedsExactly: is about such a backend too, and about results whose numbers are not NaN, which
  never equals itself when the stored evidence is compared.
- Delivery.LostIsNeverAcknowledged: is about such a backend too; two names that are not in normal form can share a file.
* Names that a file system itself refuses, files and directories of one name, symbolic links, and partial writes inside
  one `put`; a change from one object backend to another.
* White-space stripping of keys and worker ids; encoding of JSON text, patterns of `fnmatch` and the reference
  pattern; rounding of floating point.
* The job repository's `fail`, migrations, listing and read-only views; the goal store's projects, trees and
  roll-ups; `GoalRunner`, which the coordinator replaced.
* The thread pool and the heartbeat thread of a worker: they show up as calls at arbitrary times.
* HTTP services, agents, prompts, sandboxes, registries, signing, alerts and the user interface: I/O or plumbing.
