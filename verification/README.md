# Maintenance operations for Iceberg tables, verified

The service lets people request maintenance procedures on Iceberg tables, has somebody else approve
them, and lets workers run them through Spark. This project models the parts of it where several
processes share rows, and proves what they keep between them:

- **Operations** (`Operations`, `Requirements`, `OperationInvariant`, `DbInvariant`, `WorkerSteps`, `Protocol`,
  `History`, `Guarantees`, `Limits`, `Effects`, `WorkerEffects`, `OperationStore`). `Operations` gives the rows and, for
  each transaction of the API and of the worker, its effect as a function. `OperationStore` is the imperative form: one
  method per transaction, statement by statement on stored rows, each proved equal to its function. `Requirements`,
  `Effects` and `WorkerEffects` say apart from those functions, in words and fields, what each transaction asks of its
  input and what it leaves behind in every reachable state.
  `Protocol` runs the functions as a transition system with any number of operations, tables, clients,
  workers, crashes and restarts; `OperationInvariant`, `DbInvariant` and `WorkerSteps` show that every
  write keeps the invariant. `History` tells from the actions of a run alone what they did to an operation,
  `Guarantees` states what holds for every run, and `Limits` exactly how far the promises carry.
- **Bulk jobs** (`BulkAggregates`, `InspectionJobs`). The two pieces of code that summarize a job, and the
  worker's pass over the items of an inspection job, and its restart after a crash, while the API cancels,
  refreshes and retries it.
- **Idempotent creation** (`Idempotency`, `IdempotencyGuarantees`, `KeyedCreation`). Lookups, inserts, commits and
  conflict lookups of any number of clients, interleaved in any way; what is made, and when something can be.
- **The result channel** (`Base64`, `LivyChannel`, `Decimals`, `LivyWait`). A result is printed as a marked
  base64 line, fetched page by page from the batch log, found from the end and decoded; before that the
  worker polls the batch under a deadline.
- **Listings** (`Cursors`, `Keyset`). Cursors as unpadded base64url, and the walk over the pages of a listing
  that changes meanwhile.
- **Parameters and statements** (`SqlText`, `SqlGate`, `Compilers`, `SqlReading`, `SqlMeaning`, `SqlParameters`). The
  gate at the API against the two copies of the compiler behind it; and what the compiled statements ask for, found by
  a reader that knows nothing of the compilers.

An operation's executions, decisions and bulk item are part of its value, since each belongs to exactly one
operation. So is a trail of the events on it, which the repository does not keep: it stands for the events of the
run (`History.TrailIsHistory`), and the guarantees are stated with those. Operations and jobs are named by their
position in insertion order.

## Assumptions

- A transaction is one atomic step. `FOR UPDATE` provides that for claims, decisions, retries and single
  cancellations; for the worker's `mark_*` steps, and for the operations that a bulk cancellation or a bulk
  retry touches, it is assumed (backend/app/services.py:1114, backend/app/services.py:1166).
- A worker starts, and recovers, only while no other live worker is in the middle of a claim. README.md:113 of
  the repository asks for a single worker. `Limits.RecoverySafeExactly` shows that this is exactly what is
  needed.
- A bulk retry runs only while no FAILED item belongs to an operation that is executing again.
  `Limits.BulkRetrySafeExactly` shows that this is exactly what is needed.
- The two copies of `procedure_sql` read the same from the quoted table name on
  (spark-jobs/iceberg_maintenance.py:75-161, playground/spark/app/main.py:233-312). `Compilers` writes that part
  once; what is proved to agree is what they do before it.
- `casefold`, the fingerprint of a payload, JSON, ISO timestamps and ids are parameters; the codecs among them
  are assumed to read back what they wrote (`Cursors.Faithful`). Ids that a client draws are its own.
- Livy is an oracle: it serves a log and answers polls, or fails. A poll turn takes at least the poll interval.
- A snapshot precondition reads the same snapshot that the result reports as `before`.

## Findings

The code is modelled as it is. Where it differs from its documentation, or from what one would expect, the
difference is proved:

- **Bulk retry tests the wrong state.** It reads the item's state and not the operation's
  (backend/app/services.py:1157), and a single retry and a claim do not write the item
  (backend/app/services.py:942, backend/app/worker.py:210-236). After a single retry and a claim, a bulk retry
  requeues an operation under its live execution; a second claim gives two live executions on one table, and a
  cancellation leaves a live execution on an unlocked table (`Guarantees.UnguardedBulkRetry`, from a state that
  `Guarantees.FailedBulkItemReachable` shows reachable). The exclusion survives exactly if no FAILED item of the
  job belongs to an operation that is executing again (`Limits.BulkRetrySafeExactly`).
- **Recovery does not look at heartbeats** (backend/app/worker.py:96-104). A starting worker fails, or takes over,
  the execution a live one is busy with, and the other goes on (`Limits.BusyExecutionTaken`). From there two live
  executions on one table, or one without an executing operation, can follow, whatever the two are doing and in
  whichever mode they run; the exclusion survives exactly if no live worker is in the middle of a claim
  (`Limits.RecoverySafeExactly`). Such a worker can also turn the operation from FAILED to SUCCEEDED without a
  retry (`Guarantees.RecoveryOverBusyOwner`, from a state that `Limits.ConfirmedReachable` shows reachable).
- **A retry does not ask again.** DESIGN.md:61 wants a new approval when the target or the risk of a plan changes;
  a retry puts the table's current snapshot in place of the approved one under the old decision
  (`Guarantees.RetryReplacesApprovedPlan`). The approved plan stays the plan exactly if no retry meets a table that
  has moved on (`Guarantees.ApprovedPlanKeptExactly`). A retry while the table row has no snapshot plans none, unlike a
  creation, which is refused; the job's precondition is then void (`Guarantees.JobRunsOnPlanExactly`).
- **An accepted cancellation need not cancel** (`Guarantees.CancellationCanBeOvertaken`). GUIDE.md:117-118 draws
  CANCELED as the only way out of CANCEL_REQUESTED. A cancellation holds for good exactly if the operation is not
  executing when it is accepted; if it is, the operation can still end as FAILED (`Limits.CancellationKeptExactly`).
- **An operation for Trino or Flink is accepted and approved, and never run.** No worker claims it; its table stays
  locked until it is canceled (`Limits.OtherEnginesWait`).
- **Losers of a creation race fail.** GUIDE.md:122-123 and DESIGN.md:142 promise the same result for the same
  key and payload. The unique key is checked at the flush, and the flushes at backend/app/services.py:646 and
  backend/app/services.py:734 sit outside the `try`, as does the one in backend/app/routers/playground.py:495.
  A client whose lookup came too early therefore gets an error
  (`IdempotencyGuarantees.SameRequestTwiceFails`), and the handlers after the commit are never reached
  (`IdempotencyGuarantees.ConflictsNeverHandled`). Once a row holds the key, a client still at work can get an answer
  exactly if it has yet to look, with the payload that made the row (`IdempotencyGuarantees.HeldKeyAnsweredExactly`). With a deferred constraint they
  would be, and would do what is promised (`IdempotencyGuarantees.DeferredLoserAnswered`). A client that looks
  later is served in either case (`IdempotencyGuarantees.LateLookupAnswered`).
- **What was submitted and not recorded is lost in a crash** (`WorkerEffects.CrashSurvivedIfRecorded`): the batch runs
  on, and the operation is failed and its table unlocked. A recorded one is followed further.
- **The two job summaries differ** on lists that are empty, unfinished or hold a REJECTED item
  (`BulkAggregates.AggregatorsAgreeExactly`).
- **A crash can strand inspection items.** Recovery takes up RUNNING jobs only (backend/app/bulk_worker.py:28-29), and
  requeues RUNNING items only (backend/app/bulk_worker.py:34-38). What a restarted worker gets to end is exactly
  `EndsOnRestart` (`InspectionJobs.Job.Restart`). An item left at CANCEL_REQUESTED, as in
  `InspectionJobs.CrashAfterCancel`, never ends, whatever the API and restarted workers do
  (`InspectionJobs.Job.AnyHistory`). A RUNNING item is stranded too if a refresh between two
  items has called the job QUEUED (backend/app/services.py:1059), but only until the job is refreshed and the worker
  restarted once more: after those, everything has ended exactly if no item is at CANCEL_REQUESTED
  (`InspectionJobs.Job.RefreshAndRestart`).
- **A retry during a pass is overwritten.** The pass ends with the final verdict of its own
  (backend/app/bulk_worker.py:145-153), whatever was requeued meanwhile. Its items have all ended exactly if each was
  queued or ended when the pass read them and no retry came after that, unless a cancellation followed the retry;
  otherwise items stay QUEUED under the final verdict (`InspectionJobs.Job.ProcessJob`, with a run in
  `InspectionJobs.RetryDuringPass`). No restart takes the job up then (`InspectionJobs.Job.PassAndRestarts`), until a
  refresh, or a retry that finds another FAILED item, calls it QUEUED again.
- **The gate admits what the compilers refuse**: a rollback without `snapshotId`, and a NUL in a column name
  (`SqlGate.GateMatchesCompilers`).
- **A marker in front of the result line hides the result** (`LivyChannel.EarlierMarkerFatal`).

## Model

| member | source | states |
|---|---|---|
| `Guarantees.LockedExactlyWhenActive` | backend/app/models.py:216-229 | In every reachable state a lock row for table t names operation o exactly when o targets t and is QUEUED, RUNNING, VERIFYING or CANCEL_REQUESTED; so no table has two active operations. |
| `Guarantees.OneLiveExecutionPerTable` | backend/app/worker.py:93-237 | In every reachable state an operation is RUNNING, VERIFYING or CANCEL_REQUESTED exactly when it has a live execution, and all live executions on one table are the same execution. |
| `Guarantees.ExecutedOnlyIfApproved` | backend/app/services.py:846-874 | In every reachable state an operation that was ever queued or run has exactly one decision, an approval, by an approver whose folded name is not the requester's. |
| `Guarantees.ApprovalPrecedesExecution` | backend/app/worker.py:182-236 | Among all steps of all parties an execution appears exactly by a claim of its operation, which is approved already. |
| `Guarantees.DecisionsAreFinal` | backend/app/services.py:846-874 | No run leads back to WAITING_APPROVAL, and a decision row is never added to, changed or removed, by retry, bulk retry or recovery either. |
| `Guarantees.TerminalIsFinal` | backend/app/worker.py:354-479 | SUCCEEDED, REJECTED and CANCELED rows, and ended executions, keep their content over every run, although no mark step tests a state; an operation that was FAILED and is not any more was requeued by a step of the run. |
| `Guarantees.FailedLeftExactlyByRetry` | backend/app/services.py:927-942 | Of all steps of all parties exactly a retry takes an operation out of FAILED: the single one of that operation, or a bulk retry of a job that lists it. |
| `Guarantees.SucceededOnThePlannedSnapshot` | backend/app/worker.py:310-373 | A SUCCEEDED execution ran on the snapshot it was planned for and is the last one of an operation that succeeded; and the result recorded in it is `Verified`: records kept unless it is a rollback, a snapshot afterwards, no identity field that was there lost or changed, no negative metric, no more snapshots after an expiry (a missing count is 0, a null one no number), a rollback on its target. |
| `Guarantees.JobRunsOnPlanExactly` | spark-jobs/iceberg_maintenance.py:237-242 | In every reachable state a job that a worker waits for can get to its procedure exactly if the operation has no planned snapshot, or the table is at the one it is planned for now, across claim, submission, take-over and retry. (A retry of a table without a snapshot leaves the operation without a planned one.) |
| `Guarantees.SuccessIsRecorded` | backend/app/worker.py:354-398 | The step that succeeds makes the snapshot the job left the table's current one, raises the version by one and frees the table, which was locked until then. |
| `Guarantees.PlanChangesOnlyByRetry` | backend/app/services.py:943-945 | Over every run the planned snapshot is that of the last step in it that retried the operation, singly or in bulk: the table's current snapshot at that step; it changes only if there was one. |
| `Guarantees.RetryReplacesApprovedPlan` | DESIGN.md:61 | When the table has moved on, a retry queues the operation for the new snapshot under its old decision (the documentation wants a new one); when exactly is said by the next rows. |
| `Guarantees.RetryKeepsPlanExactly` | backend/app/services.py:943 | A retry keeps the plan exactly if the table is at the planned snapshot. |
| `Guarantees.BulkRetryKeepsPlanExactly` | backend/app/services.py:1178-1183 | So does a bulk retry for every operation it requeues, guarded or not, and it leaves the others as they are. |
| `Guarantees.ApprovedPlanKeptExactly` | DESIGN.md:61 | In all states of a run an operation stands under its plan at the beginning exactly if no retry in the run meets its table at another snapshot. |
| `Guarantees.ExecutionPlanExactly` | backend/app/worker.py:222-230 | An execution is for the plan its operation had before any run that leads to its claim exactly if the last retry in that run, if any, met the table there; no later run changes it. |
| `Guarantees.LockFreeExactly` | backend/app/services.py:853-865 | The test made against the lock rows holds exactly when no other operation is active on the table. |
| `Guarantees.DecisionAdmittedExactly` | backend/app/services.py:836-874 | A decision takes effect exactly when the operation is undecided and not canceled, the approver is somebody else, and the word is REJECTED, or APPROVED with no other operation active on the table, in letters of either case. |
| `Effects.DecisionEffect` | backend/app/services.py:836-888 | What a decision does, by its word, in letters of either case. APPROVED: QUEUED, one approving row, the table locked; with another operation active there, refused. REJECTED: REJECTED, one refusing row, no lock, also on a locked table. Any other word is refused. Either way the version goes up by one, the item follows, and no other row changes. An operation that is not there or does not wait, and the requester himself, are refused before that, in that order. |
| `Requirements.DecisionWords` | backend/app/services.py:850-852 | The words that approve and reject are exactly APPROVED and REJECTED, in letters of either case. |
| `Effects.RetryEffect` | backend/app/services.py:919-958 | A retry takes a FAILED operation on a table where nothing else is active: QUEUED for the table's current snapshot, version up by one, an earlier cancellation forgotten, the table locked, its bulk item left as it is. Anything else is refused, each for its reason, and changes nothing. |
| `Effects.CancellationEffect` | backend/app/services.py:960-1014 | A cancellation is refused under another version, and then if the operation ended otherwise; one that comes again changes nothing. A waiting or queued operation is CANCELED and its lock, if any, gone; an executing one is CANCEL_REQUESTED, with execution and lock left alone; the item follows. |
| `Effects.BulkCancellationEffect` | backend/app/services.py:1102-1133 | A bulk cancellation does the same to every operation of the job that has not ended, and touches no other. |
| `Effects.BulkRefreshEffect` | backend/app/services.py:1018-1036 | A refresh brings the item of every operation of the job to the state of that, and changes nothing else. |
| `Effects.BulkRetryEffect` | backend/app/services.py:1156-1187 | A bulk retry requeues, for the current snapshot of its table and with the table locked, exactly every operation of the job whose item is FAILED and whose table nobody else is active on or gets earlier in the same retry; the state of the operation plays no part. All others are left alone. |
| `Effects.BulkRetryRefusedExactly` | backend/app/services.py:1187-1188 | It is refused exactly if there is no such operation. |
| `Effects.CreationStands` | backend/app/services.py:605-656 | A request for one operation is refused exactly for an unknown table, a procedure that the engine cannot run (written out per engine) or a table without a snapshot, in that order. Otherwise one operation is appended, waiting, planned for the current snapshot; and after any further run it has the table, engine, command, target and requester that were given. |
| `Effects.BulkCreationRefused` | backend/app/services.py:710-738 | A bulk request is refused exactly for a procedure that the engine cannot run, an unknown table or a table without a snapshot, in that order. |
| `Effects.BulkCreationStands` | backend/app/services.py:721-784 | Otherwise one job is appended, with one operation per table in their order, each as requested and planned for its table's current snapshot, and so it stays over any further run. |
| `Guarantees.RetryAdmittedExactly` | backend/app/services.py:919-942 | A retry takes effect exactly when the last execution failed, nothing has happened since, and no other operation is active on the table. |
| `Guarantees.ClaimableExactly` | backend/app/worker.py:162-206 | A queued operation is never refused to a worker because of a lock; engine and catalog scope alone decide. |
| `Limits.OtherEnginesWait` | backend/app/worker.py:184 | Over every run an approved operation for an engine other than AUTO and SPARK is never claimed; it is queued and holds its table, or was canceled, which it can be at any time. |
| `Guarantees.AttemptLedger` | backend/app/worker.py:210-236 | Executions are numbered 1 to n without gaps, n is the number of claim steps of the run, and claims plus cancellations while queued plus being queued now equal the approvals plus retries of the run; there is at most one decision. |
| `Guarantees.VersionCounts` | backend/app/services.py:876 | The version is one more than the number of steps of the run that took effect on the operation as decision, retry, cancellation or ending. |
| `Guarantees.CancelSeesWhatWasRead` | backend/app/services.py:970-983 | A cancellation with the version read earlier takes effect exactly if no step of the run between took effect on the operation as decision, retry, cancellation or ending, and it is not SUCCEEDED, FAILED or REJECTED; then at most its execution has moved on. |
| `History.StepFollowsEvent` | backend/app/services.py:876 | Every step of every party has on every operation exactly the effect that its action and the state before it tell: at most one event, and a new plan exactly if that is a retry. |
| `History.TrailIsHistory` | backend/app/services.py:945 | The trail in a row is exactly the events of the run that led there. |
| `Limits.RecoverySafeExactly` | README.md:113 | After a worker has started, in any mode, no continuation gives a table two live executions or leaves one without an executing operation, exactly if no live worker was in the middle of a claim. |
| `Limits.BusyStartBreaksExclusion` | backend/app/worker.py:93-159 | If one was, whatever it was doing and in whichever mode, a continuation that breaks the exclusion exists. |
| `Limits.BusyExecutionTaken` | backend/app/worker.py:105-141 | Its execution is failed, or, if its batch is known to a worker in Livy mode, held by both workers; its own claim is untouched. |
| `WorkerEffects.RecoveryEffect` | backend/app/worker.py:93-159 | For every operation, when a worker starts: if its last execution is RUNNING or VERIFYING for another worker, the mode is Livy and an external id is recorded, the row is the same but for the worker, the lock stays, and the new worker has exactly one claim for it, waiting for that id, with the planned snapshot. If not in Livy mode, or without an id, execution, operation and item are FAILED, the lock is gone and there is no claim. All other rows, tables, jobs and memories are unchanged. |
| `WorkerEffects.CrashSurvivedIfRecorded` | backend/app/worker.py:115-141 | From every state with a worker on an execution: after a crash of all workers and the start of another one in Livy mode, that one waits for the batch if its id was recorded, and the operation is FAILED if nothing was, posted or not. |
| `WorkerEffects.RecordEffect` | backend/app/worker.py:259-277 | After the submission is recorded the execution carries the id of the batch that was posted for it, with the planned snapshot it was submitted with (in the runner's mode the operation's own id), and nothing else has changed. |
| `WorkerEffects.MemoryMatchesRow` | backend/app/worker.py:482-503 | Whatever a worker is on is the last execution of its operation, live and its own, for the planned snapshot it carries; the row has an external id exactly as far as the worker has recorded one. |
| `WorkerEffects.ClaimEffect` | backend/app/worker.py:210-256 | A claim adds one RUNNING execution with the next number, the planned snapshot and no external id, and the worker holds it; the lock, the version and all other rows stay. |
| `WorkerEffects.VerifyEffect` | backend/app/worker.py:280-307 | The result is recorded with the snapshots it reports; execution and operation are VERIFYING, and nothing else has changed. |
| `WorkerEffects.SucceedsExactly` | backend/app/worker.py:310-373 | A worker with a recorded result succeeds exactly if the result is `Verified`; otherwise the step is refused and changes nothing. |
| `Requirements.AcceptableExactly` | backend/app/worker.py:310-335 | The tests of `verify_result` let through exactly the `Verified` results. |
| `WorkerEffects.SuccessEffect` | backend/app/worker.py:354-398 | Execution, operation and item are SUCCEEDED, the version is up by one, the table unlocked; of its row only the current snapshot changes, to the one the job left. |
| `WorkerEffects.FailEffect` | backend/app/worker.py:401-439 | Execution, operation and item are FAILED, the version is up by one, the table unlocked, and nothing else has changed. |
| `WorkerEffects.StopEffect` | backend/app/worker.py:442-479 | The same, with CANCELED. |
| `WorkerEffects.CancellationReachesWorker` | backend/app/worker.py:85-90 | A worker that waits for its job, or is about to ask the runner, on an operation that is CANCEL_REQUESTED can notice and stop: a run from there ends with execution, operation and item CANCELED and the table free. |
| `Limits.BulkRetrySafeExactly` | backend/app/services.py:1156-1186 | After a bulk retry no continuation breaks the exclusion, exactly if no FAILED item of the job belongs to an operation that is RUNNING or VERIFYING. |
| `Limits.CancellationKeptExactly` | GUIDE.md:117-118 | After an accepted cancellation every continuation has the operation CANCELED exactly if it was not RUNNING, VERIFYING or CANCEL_REQUESTED; if it was, not even CANCEL_REQUESTED or CANCELED is sure. |
| `Limits.ConfirmedReachable` | backend/app/worker.py:482-513 | States with a worker about to mark its execution succeeded are reached by a bulk request, an approval, a start, a claim and a batch. |
| `Guarantees.RecoveryOverBusyOwner` | backend/app/worker.py:96-104 | One way it goes wrong otherwise: outside Livy mode the execution of an owner with a recorded result is failed, and the owner then makes the FAILED operation SUCCEEDED without a retry. |
| `Guarantees.UnguardedBulkRetry` | backend/app/services.py:1156-1186 | Without its guard a bulk retry leads to two live executions on one table, and to a live execution on an unlocked one. |
| `Guarantees.FailedBulkItemReachable` | backend/app/worker.py:401-439 | The state that counterexample starts from is reached by a bulk request, an approval, a claim and a failure. |
| `Guarantees.CancellationCanBeOvertaken` | backend/app/worker.py:362-373 | A cancellation accepted after the result was recorded is followed by SUCCEEDED; when exactly cancellations hold is `Limits.CancellationKeptExactly`. |
| `Protocol.EveryRunOk` | backend/app/worker.py:482-513 | The invariant holds after every run, and no operation changes in a way its history forbids. |
| `Protocol.StepOk` | backend/app/worker.py:482-513 | Every step of the API, of a worker, of a crash or of a restart keeps the invariant: locks, executions, decisions, ledgers, and what each worker believes about the execution it holds. |
| `Protocol.StartStepOk` | backend/app/worker.py:93-159 | A restarted worker resumes from claims that are true of the database: each holds a live last execution that is its own, with the planned snapshot it was submitted with. |
| `Protocol.ClaimStepOk` | backend/app/worker.py:162-256 | A claim keeps the invariant, for any number of claimers. |
| `Protocol.SucceedStepOk` | backend/app/worker.py:354-398 | Success keeps the invariant although it tests no state. |
| `Protocol.FailStepOk` | backend/app/worker.py:401-439 | Failure keeps the invariant although it tests no state. |
| `Protocol.StopStepOk` | backend/app/worker.py:442-479 | The worker's cancellation keeps the invariant although it tests no state. |
| `Protocol.VerifyStepOk` | backend/app/worker.py:280-307 | Recording a result keeps the invariant although it tests no state; the before-snapshot recorded is the planned one. |
| `WorkerSteps.ClaimRowOk` | backend/app/worker.py:210-237 | A claimed row is well formed: its new execution is the only live one and has the next attempt number. |
| `WorkerSteps.RecoverOpsOk` | backend/app/worker.py:93-159 | Recovery, run by run in order, does to every operation what it would do to its last live execution alone. |
| `WorkerSteps.ResumableOpsOk` | backend/app/worker.py:115-126 | The claims a recovery returns are for distinct operations, each of a live last execution it has just taken over. |
| `DbInvariant.BulkRetryExactly` | backend/app/services.py:1146-1186 | A bulk retry keeps the invariant exactly when no FAILED item of the job belongs to an operation that is RUNNING or VERIFYING (or when nothing is requeued). |
| `DbInvariant.RetryItemsOk` | backend/app/services.py:1156-1186 | Under that guard a bulk retry keeps the invariant, and every operation it changes has its item QUEUED. |
| `DbInvariant.CancelItemsOk` | backend/app/services.py:1112-1132 | A bulk cancellation keeps the invariant, leaves executions alone and never withdraws a cancellation request. |
| `DbInvariant.CreateBulkOk` | backend/app/services.py:678-834 | A bulk request keeps the invariant: the items of a job and the operations that name the job are the same. |
| `DbInvariant.RefreshItemsExactly` | backend/app/services.py:1016-1036 | A refresh sets the item of each listed operation to that operation's state and changes nothing else. |
| `DbInvariant.RefreshIsIdempotent` | backend/app/services.py:1016-1036 | Refreshing again, any of the items in any order, changes nothing. |
| `OperationInvariant.EvolvesTransitive` | backend/app/models.py:184-213 | What one step may do to a row, any number of steps may do. |
| `OperationInvariant.MaxAttemptIsLength` | backend/app/worker.py:210-221 | The largest attempt number is the number of executions, so the next number is free. |
| `OperationStore.Store.CreateOperation` | backend/app/services.py:627-656 | The new state and the error are those of `Create`: an unknown table, an engine without the command and a table without snapshot are refused in that order. |
| `OperationStore.Store.CreateOperations` | backend/app/services.py:711-784 | The new state and the error are those of `CreateBulk`: a job with one operation and one item per table, or nothing. |
| `OperationStore.Store.DecideOperation` | backend/app/services.py:836-902 | The new state and the error are those of `Decide`, error cases in the order of the code. An accepted word is APPROVED or REJECTED in letters of either case; the first queues, adds an approving row and takes the lock, the second rejects, adds a refusing row and leaves the locks. |
| `OperationStore.Store.RetryOperation` | backend/app/services.py:919-958 | The new state and the error are those of `Retry`. |
| `OperationStore.Store.CancelOperation` | backend/app/services.py:960-1014 | The new state and the error are those of `Cancel`; canceling a CANCELED operation changes nothing. |
| `OperationStore.Store.CancelBulkJob` | backend/app/services.py:1091-1144 | The new state is that of `CancelJob`, item by item. |
| `OperationStore.Store.RetryFailedBulkJob` | backend/app/services.py:1146-1205 | The new state and the error are those of `RetryJob`; it raises exactly when no item was requeued, and then nothing has changed. |
| `OperationStore.Store.RetryBulkItem` | backend/app/services.py:1156-1186 | One item is requeued exactly when its own state is FAILED and no other operation holds the table. |
| `OperationStore.Store.RefreshBulkJob` | backend/app/services.py:1016-1036 | The new state is that of `RefreshJob`. |
| `OperationStore.Store.AcquireLock` | backend/app/services.py:853-865 | The lock is inserted or kept unless another operation has it, and the caller is told. |
| `OperationStore.Store.NextAttempt` | backend/app/worker.py:210-221 | One more than the largest attempt number. |
| `OperationStore.Store.ClaimOperation` | backend/app/worker.py:162-256 | The new state is that of `ClaimRow` if the operation is claimable, else unchanged, and the claim carries the planned snapshot. |
| `OperationStore.Store.MarkSucceeded` | backend/app/worker.py:354-398 | The new state and the error are those of `MarkSucceeded`; it raises, and changes nothing, exactly if the execution is there and its result is not `Verified`. |
| `OperationStore.Store.RecoverStaleExecutions` | backend/app/worker.py:93-159 | The new state is that of `Recover`, and the claims returned are `Resumable` in the state found; what those are, row by row, is `WorkerEffects.RecoveryEffect`. |
| `OperationStore.Store.RecoverExecution` | backend/app/worker.py:105-141 | One row: another worker's live execution is taken over in Livy mode if it has an external id, giving a claim to wait for that, and failed otherwise; any other is left alone. |
| `BulkAggregates.CountersExactly` | backend/app/services.py:1037-1042 | The counters of both summaries are the numbers of items in the states they are named after; a refresh counts REJECTED as failed, the end of a pass does not count it. |
| `BulkAggregates.OpenVerdicts` | backend/app/services.py:1055-1062 | A refresh calls a job CANCEL_REQUESTED, RUNNING, QUEUED or WAITING_APPROVAL exactly under these conditions on its items' states, each written out. |
| `BulkAggregates.FinalVerdicts` | backend/app/services.py:1043-1054 | It calls it final exactly if all items have ended: SUCCEEDED if all did, CANCELED if all were, PARTIAL_SUCCESS if some did and others not, else FAILED, which is also the verdict on no items. |
| `BulkAggregates.FinishVerdicts` | backend/app/bulk_worker.py:145-152 | The end of a pass calls the job final whatever its items are: CANCELED if all are (or there are none), SUCCEEDED if all are, PARTIAL_SUCCESS if some are, else FAILED. |
| `BulkAggregates.RefreshIgnoresOrder` | backend/app/services.py:1037-1062 | The summary depends on the multiset of states only. |
| `BulkAggregates.AggregatorsAgreeExactly` | backend/app/bulk_worker.py:138-152 | The worker's summary equals the API's exactly on non-empty lists of ended items without REJECTED. |
| `InspectionJobs.Job.ProcessJob` | backend/app/bulk_worker.py:157-169 | With any API transactions between any two accesses, retries included, the pass ends with a final verdict, every queued item has ended or was requeued, and what succeeded was really inspected. All items have ended exactly if each was queued or ended when the pass read them, and no retry came after that or a cancellation followed it; else, without such a cancellation, an item is QUEUED. Without any retry every item queued at the start has ended as its inspection says or as canceled; at most one inspection starts after a cancellation, none if it came before the pass. |
| `InspectionJobs.Job.PassAndRestarts` | backend/app/bulk_worker.py:145-184 | After a pass any number of restarts, at any age of the job, recover and claim nothing, so what a retry during the pass left QUEUED stays so. |
| `InspectionJobs.RetryDuringPass` | backend/app/bulk_worker.py:157-169 | A run in which a retry during the pass leaves the only item QUEUED in a job called FAILED, which is neither recovered nor claimed. |
| `InspectionJobs.Job.ProcessItem` | backend/app/bulk_worker.py:62-126 | One item has ended, SUCCEEDED only if it was really inspected; without a retry meanwhile it ends as its inspection says, or CANCELED only under a cancellation. |
| `InspectionJobs.Job.StartItem` | backend/app/bulk_worker.py:62-88 | Without a retry meanwhile an inspection starts only if no cancellation was committed before; one that commits between the check and the start is missed. |
| `InspectionJobs.Job.StoreItem` | backend/app/bulk_worker.py:89-126 | The answer is stored unless a cancellation is seen first. |
| `InspectionJobs.Job.FinishJob` | backend/app/bulk_worker.py:129-154 | The verdict and counters are those of `FinishSummary`. |
| `InspectionJobs.Job.CancelBulkJob` | backend/app/services.py:1102-1111 | Queued items are CANCELED, running ones CANCEL_REQUESTED, no other changes. |
| `InspectionJobs.Job.RecoverJob` | backend/app/bulk_worker.py:20-42 | Of an old enough RUNNING job the RUNNING items are requeued and nothing else, ended ones never; the next pass can end every item exactly if none waits for a cancellation. |
| `InspectionJobs.Job.ClaimJob` | backend/app/bulk_worker.py:45-59 | A job is claimed exactly if it is QUEUED. |
| `InspectionJobs.Job.Restart` | backend/app/bulk_worker.py:172-184 | Recovery, claim and pass end all items exactly under `EndsOnRestart`, a condition on the age, verdict and items of the job found, if the API is quiet until the claim, and also if it is not but the job is an old RUNNING or a QUEUED one; what succeeded, was canceled or waits for a cancellation stays. |
| `InspectionJobs.Job.TakeUp` | backend/app/bulk_worker.py:172-180 | The part of a restart up to the claim: what the items need from then on, to end in the pass, is `EndsOnRestart`. |
| `InspectionJobs.Job.RefreshAndRestart` | backend/app/services.py:1037-1062 | A refresh, and a restart once the job is old enough, end all items exactly if none waits for a cancellation. |
| `InspectionJobs.Job.AnyHistory` | backend/app/bulk_worker.py:172-184 | Whatever the API and restarting workers do from then on, an item that waits for a cancellation while no worker is on it waits forever. |
| `InspectionJobs.CrashAfterCancel` | backend/app/services.py:1109-1110 | A run in which a cancellation and a crash leave the only item at CANCEL_REQUESTED in a job that is neither recovered nor claimed. |
| `InspectionJobs.Job.RetryFailedBulkJob` | backend/app/services.py:1156-1196 | FAILED items without an operation are QUEUED and so is the job, and its cancellation is forgotten; it raises, and nothing changes, exactly if there is none. |
| `InspectionJobs.RefreshedVerdict` | backend/app/services.py:1045-1062 | What each verdict of a refresh says about which items can still end; it is QUEUED exactly if an item is queued and none is running or waits for a cancellation. |
| `InspectionJobs.PassGoesOn` | backend/app/bulk_worker.py:157-169 | One more processed item keeps what holds of all items in the middle of a pass. |
| `InspectionJobs.PassSettled` | backend/app/bulk_worker.py:157-169 | After the last item every item that was queued at the start has ended, whatever was canceled before, during or after. |
| `IdempotencyGuarantees.OneRowPerKey` | backend/app/services.py:605-676 | In every run, under either checking, a key has at most one row, and all successful replies for a key name that row, with equal fingerprints. |
| `IdempotencyGuarantees.KeylessAlwaysCreates` | backend/app/services.py:605-676 | A request without a key is answered only with a row of its own. |
| `IdempotencyGuarantees.BulkJobsAreComplete` | backend/app/services.py:711-786 | At every moment of every run a visible bulk job has exactly its total of items, and for operations one operation with one audit row per item, with the fingerprint and the key made of the job's key and the table, and no other operations. |
| `IdempotencyGuarantees.JobComplete` | backend/app/routers/playground.py:483-519 | The same for one state, inspection jobs included: their items have no operations, and there is one audit row. |
| `IdempotencyGuarantees.EveryRunOk` | backend/app/services.py:605-834 | The invariant holds after every run, committed rows stay as they are, and answers are not revised. |
| `IdempotencyGuarantees.CommitOk` | backend/app/services.py:657-676 | A commit, or its rollback on a conflict, keeps the invariant. |
| `IdempotencyGuarantees.ConflictsNeverHandled` | backend/app/services.py:785-806 | With the constraint checked at the flush, no client of any run gets to the handlers after the commit. |
| `IdempotencyGuarantees.CommitSucceeds` | backend/app/services.py:657-658 | With the constraint checked at the flush, every commit succeeds. |
| `IdempotencyGuarantees.LoserNeverReplies` | backend/app/services.py:645-646 | A client whose lookup missed before the key was committed gets no reply in any continuation. |
| `IdempotencyGuarantees.HeldKeyAnsweredExactly` | GUIDE.md:122-123 | Once a committed row holds the key, some continuation answers a client still at work exactly if that has not looked yet and its payload made the row. |
| `KeyedCreation.CreatesExactly` | backend/app/services.py:732-784 | A client whose lookup found nothing, with any kind of request and any number of tables, can still be answered with a row of its own exactly if no committed row has its key, and for a bulk job of operations no committed operation has the key made of it and one of the tables, and no table is listed twice (which backend/app/schemas.py:149-152 sees to); without a key always. |
| `KeyedCreation.KeysTellTablesApart` | backend/app/services.py:753-755 | In every run the operations of a visible job under a key have different keys and different tables. |
| `KeyedCreation.CreatedAsRequested` | backend/app/services.py:721-784 | In every run a client that was answered with a row of its own finds what it asked for: its fingerprint, kind and table, or its tables in order, one item and operation each. |
| `IdempotencyGuarantees.SameRequestTwiceFails` | GUIDE.md:122-123 | Two clients with one request: a run in which the second fails (the documentation promises it the same result). |
| `IdempotencyGuarantees.DeferredLoserAnswered` | backend/app/services.py:658-672 | With a deferred constraint the loser gets the row if its payload made it, else a refusal. |
| `IdempotencyGuarantees.LateLookupAnswered` | backend/app/services.py:610-624 | A lookup after the commit gets the row if its payload made it, else a refusal. |
| `Base64.RoundTrip` | backend/app/executors.py:253-267 | Python's decoder, strict or lenient, undoes its encoder for every byte string in both alphabets. |
| `Base64.PaddingRestored` | backend/app/services.py:159-168 | Padding can be stripped and restored from the length alone. |
| `Base64.EncodedAlphabet` | spark-jobs/iceberg_maintenance.py:218-222 | An encoding holds characters of its alphabet only. |
| `Base64.GroupIsNumber` | spark-jobs/iceberg_maintenance.py:218-222 | Each group of four characters is, in base 64, the number that its three bytes are in base 256; a last group of one or two bytes is filled with zero bits and padding. |
| `Base64.ForeignCharacterFatal` | backend/app/executors.py:253-267 | In strict mode one foreign character anywhere makes decoding fail. |
| `Base64.ForeignCharacterSkipped` | backend/app/services.py:164-168 | In lenient mode a foreign character anywhere is as if it were not there. |
| `LivyChannel.Recover` | backend/app/executors.py:231-267 | If the result line is among the lines fetched and the last marked one, the worker recovers what was emitted if no marker precedes it in its line, and rejects the line otherwise. |
| `LivyChannel.ResultLineParses` | backend/app/executors.py:253-267 | The scan over lines whose last marked one is a result line gives what was emitted, or finds it invalid exactly if another marker precedes it. |
| `LivyChannel.Logs` | backend/app/executors.py:231-251 | The paging loop returns exactly the first max-lines lines, in at most one request more than there are full pages; it ends for any server. |
| `LivyChannel.ResultFromLogs` | backend/app/executors.py:253-267 | The last marked line decides, from its first marker on; no result exactly when no line is marked. |
| `LivyChannel.FirstMarkerExactly` | spark-jobs/iceberg_maintenance.py:218-222 | The marker that was emitted is the first one of its line exactly when the text before it contains none. |
| `LivyChannel.NoStraddling` | spark-jobs/iceberg_maintenance.py:218-222 | The marker never overlaps the end of a text without it. |
| `LivyChannel.StripBothEnds` | backend/app/executors.py:259 | White space, all 29 characters of it, is stripped from both ends of the payload, and nothing else. |
| `LivyChannel.EarlierMarkerFatal` | backend/app/executors.py:253-267 | A marker before the emitted one makes the line undecodable. |
| `LivyWait.PollUntilOver` | backend/app/executors.py:296-338 | For all answers: the loop ends as the world has it, by one of four reasons that really applied, after turns that all went through; a cancellation or timeout in it sends exactly one DELETE, nothing is polled after a final state, and there are at most ceil(timeout / interval) status requests. |
| `LivyWait.EndsByTheFirstFinalWord` | backend/app/executors.py:17-18 | The loop reaches a final state exactly by the first of the words success, dead, error and killed that Livy says, in letters of either case, and no other word ends it; which of them it was decides success. |
| `LivyWait.WaitForBatch` | backend/app/executors.py:296-338 | The way the loop ended decides the outcome. If all turns go through until Livy says success, the log is served and its last marked line is the emitted one behind a marker-free prefix, the emitted result is returned and no DELETE sent; without a marked line, or with a marker in the prefix, or after any other end of the loop, no result is. |
| `LivyWait.LoopEndsOneWay` | backend/app/executors.py:296-338 | The answers of the world allow one end of the loop only, with one number of requests. |
| `LivyWait.ResumesTheSameBatch` | backend/app/executors.py:340-356 | The recorded external id leads back to the batch it was written for. |
| `LivyWait.BatchOfExactly` | backend/app/executors.py:346-349 | An external id leads to a batch exactly if it is the prefix and digits, and then to that number. |
| `Decimals.ReadShow` | backend/app/executors.py:340-356 | Reading a number back from its decimal digits gives the number. |
| `Cursors.BytesRoundTrip` | backend/app/services.py:159-168 | Every byte string survives the unpadded base64url trip. |
| `Cursors.SplitExactly` | backend/app/services.py:164-168 | Splitting at the first bar recovers both fields exactly when the first has no bar. |
| `Cursors.CursorRoundTrip` | backend/app/services.py:159-170 | Decoding a cursor gives the timestamp and id it was made of. |
| `Cursors.EncodedIsUrlSafe` | backend/app/services.py:159-162 | A cursor holds letters, digits, "-" and "_" only. |
| `Cursors.CursorExactly` | backend/app/services.py:164-170 | A text is a cursor for a timestamp and an id exactly if it decodes to bytes whose part before the first bar reads as the one and whose part after it reads as the other. |
| `Keyset.PageProperties` | backend/app/services.py:501-526 | A page is strictly decreasing, skips no matching row after its cursor, and has a next cursor exactly when more rows follow. |
| `Keyset.EveryRowExactlyOnce` | backend/app/services.py:483-526 | Walked to the end while rows come and go, no row is shown twice, none is made up, and every row that was there all the time is shown exactly once, for every limit from 1. |
| `Keyset.StaticWalk` | backend/app/services.py:551-575 | A listing that does not change is shown exactly in its order, and the walk ends after as many pages as it needs. |
| `Keyset.ListedNewestFirst` | backend/app/services.py:501-526 | A listing has every row once, later ones first, and larger ids first among rows of the same time. |
| `Keyset.ServiceCursorsSound` | backend/app/services.py:159-170 | The service's cursors name rows faithfully. |
| `Keyset.PageRefusedExactly` | backend/app/services.py:501-510 | A page is refused exactly for a cursor that is not empty and does not read as a timestamp and an id. |
| `Keyset.ListingIsExact` | backend/app/services.py:528-575 | The exactly-once listing, with the service's own cursors. |
| `SqlText.ListReadsBack` | spark-jobs/iceberg_maintenance.py:111-125 | A rendered list of quoted names is read back, under the doubled-quote rule, to exactly those names. |
| `SqlText.LiteralReadsBack` | spark-jobs/iceberg_maintenance.py:39-40 | A quoted literal is read back to its text, whatever follows that is not a quote. |
| `SqlText.JoinSplit` | spark-jobs/iceberg_maintenance.py:35-36 | A namespace split at dots and joined again is unchanged. |
| `SqlText.PartsHaveNoDots` | spark-jobs/iceberg_maintenance.py:35-36 | And its parts have no dots left in them. |
| `SqlText.IdentifierExactly` | spark-jobs/iceberg_maintenance.py:29-32 | A name is accepted exactly if it is ASCII letters, digits and underscores, not empty, and does not begin with a digit. |
| `SqlGate.GateMatchesCompilers` | backend/app/services.py:121-151 | Among requests with known parameters a Spark command compiles exactly when the gate accepts it, but for rollbacks without a target and NUL in a column name. |
| `SqlGate.StatsColumnsReadBack` | spark-jobs/iceberg_maintenance.py:111-125 | The column list of a compiled statistics call reads back to exactly the columns of the request. |
| `SqlReading.CallReadsBack` | spark-jobs/iceberg_maintenance.py:62-161 | A reader for procedure calls, independent of the compilers, reads back every call that is written in their manner, whatever its texts contain. |
| `SqlMeaning.StatementRead` | spark-jobs/iceberg_maintenance.py:62-161 | Every compiled statement reads as a call of the command's own procedure, in the given catalog, on the given table. |
| `SqlMeaning.OrphansRead` | spark-jobs/iceberg_maintenance.py:138-147 | The compiled call says `dry_run => false` exactly if the request says so, else `true`; its timestamp is that of the age asked for, or 72 hours. |
| `SqlMeaning.ExpiryRead` | spark-jobs/iceberg_maintenance.py:127-136 | Its timestamp is that of the age asked for, or 168 hours; `retain_last` reads as the number asked for, or 1; both are in their ranges. |
| `SqlMeaning.RollbackRead` | spark-jobs/iceberg_maintenance.py:149-159 | `snapshot_id` reads as the snapshot that the request names. |
| `SqlMeaning.ManifestsRead` | spark-jobs/iceberg_maintenance.py:97-102 | `use_caching` is true exactly if the request says so. |
| `SqlMeaning.StatsRead` | spark-jobs/iceberg_maintenance.py:111-125 | The columns are those of the request, in order, or there are none if it names none. |
| `SqlMeaning.DataFilesRead` | spark-jobs/iceberg_maintenance.py:74-95 | The option map gives, under their option names, exactly the parameters of the request, each once, with text that reads as its value. |
| `SqlMeaning.DeletesRead` | spark-jobs/iceberg_maintenance.py:104-109 | The same for the one option of position deletes. |
| `SqlParameters.AcceptedExactly` | backend/app/services.py:121-151 | The gate accepts a request exactly if each parameter by itself belongs to the command and is in its range or of its type, all written out. |
| `SqlParameters.ForeignParametersIgnored` | spark-jobs/iceberg_maintenance.py:62-161 | The compilers do not look at parameters of other commands. |
| `Compilers.JobProcedureSql` | spark-jobs/iceberg_maintenance.py:62-161 | The job's compiler computes `Statement` for every request, refusals included; what it compiles calls the command's procedure in the given catalog on the given table, and asks for what the `SqlMeaning` rows say. |
| `Compilers.RunnerProcedureSql` | playground/spark/app/main.py:226-312 | The runner's copy computes the same `Statement`, although it puts the namespace together again, with the same meaning. |
| `Compilers.CollectOptions` | spark-jobs/iceberg_maintenance.py:70-88 | The option loop collects exactly the given options, or raises at the first bad one. |
| `Compilers.CollectColumns` | spark-jobs/iceberg_maintenance.py:111-125 | The column loop quotes every name, or raises at the first bad one. |

## Left out

- The frontend, router pass-throughs, event streams, dashboards, demo data, migrations and deployment files:
  user interface and plumbing.
- HTTP, TLS, authentication, SQLAlchemy, PostgreSQL, Spark and Livy internals: the database is rows with the
  unique constraints of backend/app/models.py, Livy an oracle.
- That a released lock means the batch has stopped: the code does not promise it (a failed DELETE is swallowed, a
  failed poll fails the operation, a crash before the id is recorded loses the batch). Exclusion is stated for
  execution rows.
- Texts of error messages, timestamps, audit payloads, execution events, engine instances, risk levels, plans'
  estimates and the table statistics recorded beside the current snapshot: they steer nothing that is modelled.
- Heartbeats, beyond the assumption on recovery.
- Redaction of metric payloads, plan estimates and table ratios: they would add easy members only.
- OperationStore: rows are values that the methods reassign in the fields of one object; identity and aliasing of
  row objects within a session are not captured.
- Protocol: the outcome a worker receives is any result that satisfies the job's precondition; that it is the one
  `LivyWait.WaitForBatch` finds in the log of that batch is not composed with it.
- Protocol: executions of the playground runner are submitted and answered in one request; its in-memory record of
  running requests is not modelled.
- InspectionJobs: an item without a table name, and a second bulk worker (which could claim a job that a refresh has
  called QUEUED meanwhile). Whether a job is old enough for recovery is a parameter. A database error that leaves a
  pass early is not a step of `ProcessJob`: it leaves the job as a crash does, but the worker lives on and recovers
  nothing, which is a `Restart` with `stale` false.
- Idempotency: requests that fail validation before the lookup are covered as clients that stop; the commands and
  plans of the rows created are in `Operations`, not here. An empty key, which the HTTP header does not allow,
  is not modelled.
- Compilers: which of the two exception types a refusal raises; the clock is the same for both.
- SqlText: Spark's own lexer; only the doubled-quote rule of section 5.3 of ISO/IEC 9075-2 is used.
- LivyWait: letters outside ASCII in Livy's state words (the Kelvin sign is a "k" in lower case).
- LivyWait: the text of the failure that a killed or dead batch is reported with.
- JSON text, ISO timestamps, UUIDs and SHA-256: functions that read back what they wrote, or injective ones.
