/** Operation requests, their executions and decisions, the table locks, and what each
    transaction of the API service and of the Spark worker does to them, as functions on
    values. A transaction that raises leaves the rows as they were (`Refused`). */
module Operations {
  import opened Common

  type TableId = int
  type WorkerId = string
  type Snapshot = int

  /** The states of operation_requests.state; executions and bulk items use subsets of them. */
  datatype State =
    | WaitingApproval | Queued | Running | Verifying | CancelRequested
    | Succeeded | Failed | Rejected | Canceled

  predicate Terminal(s: State) { s in {Succeeded, Failed, Rejected, Canceled} }

  /** An execution that recovery would pick up, and the operations that have one. */
  predicate Live(s: State) { s == Running || s == Verifying }

  predicate Executing(s: State) { s == Running || s == Verifying || s == CancelRequested }

  predicate Active(s: State) { s == Queued || Executing(s) }

  datatype Engine = Auto | Spark | Trino | Flink

  predicate Capable(engine: Engine, command: Command) {
    match engine
    case Auto | Spark => command != StorageMigration
    case Trino => command !in {StorageMigration, RewritePositionDeletes, Rollback}
    case Flink => command in {RewriteDataFiles, ExpireSnapshots, RemoveOrphanFiles}
  }

  // ---------------------------------------------------------------- results of a Spark job

  datatype IdentityKey = TableUuid | Location | SchemaId | SpecId | SortOrderId
  datatype MetricKey = TotalFiles | TotalBytes | DataFiles | DeleteFiles | PartitionCount

  /** A JSON field that is read with a default for a missing key, which a null is not. */
  datatype Field = Absent | Null | Number(n: int)

  /** The table state a job reports before and after the procedure. A key that is absent
      from a map, or an absent option, is a missing or null JSON field. */
  datatype TableDoc = TableDoc(
    snapshot: Option<Snapshot>, records: Option<int>, snapshotCount: Field,
    identity: map<IdentityKey, string>, metrics: map<MetricKey, int>)

  datatype Result = Result(before: TableDoc, after: TableDoc)

  function NumberOrZero(f: Field): int { if f.Number? then f.n else 0 }

  /** `a > b` raises when one of them is null. */
  predicate AtMost(a: Field, b: Field) { !a.Null? && !b.Null? && NumberOrZero(a) <= NumberOrZero(b) }

  /** What `verify_result` accepts; it raises on everything else. */
  predicate Acceptable(command: Command, target: Option<Snapshot>, r: Result) {
    && (command != Rollback ==> r.before.records == r.after.records)
    && r.after.snapshot.Some?
    && (forall k :: k in r.before.identity ==> k in r.after.identity && r.after.identity[k] == r.before.identity[k])
    && (forall k :: k in r.after.metrics ==> 0 <= r.after.metrics[k])
    && (command == ExpireSnapshots ==> AtMost(r.after.snapshotCount, r.before.snapshotCount))
    && (command == Rollback && target.Some? ==> r.after.snapshot == target)
  }

  /** The job itself, given the table as it finds it and as it leaves it: it stops before
      the procedure when the caller's expected snapshot is not the current one. */
  function RunJob(expected: Option<Snapshot>, before: TableDoc, after: TableDoc): (r: Option<Result>)
    ensures r.Some? ==> (expected.Some? ==> r.value.before.snapshot == expected)
  {
    if expected.Some? && before.snapshot != expected then None else Some(Result(before, after))
  }

  // ---------------------------------------------------------------- rows

  datatype ExternalId = LivyBatch(id: nat) | RunnerRequest(op: nat)

  /** A row of operation_executions. */
  datatype Execution = Execution(
    attempt: nat, state: State, worker: WorkerId, external: Option<ExternalId>,
    planned: Option<Snapshot>, before: Option<Snapshot>, after: Option<Snapshot>, result: Option<Result>)

  /** A row of approvals. */
  datatype Decision = Decision(approver: string, approved: bool)

  /** What the audit trail of one operation can record about it. `Dequeued` and `Withdrawn`
      are cancellations while queued and while waiting; `Replanned` is a bulk retry of an
      operation that was queued already; `Ended` is any terminal step of a worker. */
  datatype Event = Approved | Refusal | Requeued | Replanned | Withdrawn | Dequeued | CancelAsked | Ended

  /** A row of operation_requests, with the rows that hang off it: its decisions, its
      executions in order of insertion, the state of its bulk item, and its audit trail. */
  datatype Operation = Operation(
    table: TableId, engine: Engine, command: Command, target: Option<Snapshot>, requester: string,
    job: Option<nat>, state: State, version: int, planned: Option<Snapshot>, cancelRequested: bool,
    item: Option<State>, decisions: seq<Decision>, runs: seq<Execution>, trail: multiset<Event>)

  datatype Table = Table(current: Option<Snapshot>, hadoop: bool)

  /** The database: operations are named by their position in `ops`, bulk jobs by their
      position in `jobs`, which lists the operations of each job's items in order. */
  datatype Db = Db(
    tables: map<TableId, Table>, ops: seq<Operation>, locks: map<TableId, nat>, jobs: seq<seq<nat>>)

  datatype Error =
    | NotFound | Unsupported | NoSnapshot | NotWaiting | SelfApproval | BadDecision | LockHeld
    | NotFailed | VersionChanged | TerminalState | NothingRetried | ResultRejected

  datatype Outcome = Done(db: Db) | Refused(error: Error)

  function After(db: Db, r: Outcome): Db { if r.Done? then r.db else db }

  // ---------------------------------------------------------------- writing one operation

  /** Write the row and leave the locks alone. */
  function Put(db: Db, o: nat, op: Operation): Db
    requires o < |db.ops|
  {
    db.(ops := db.ops[o := op])
  }

  /** Write the row and insert its table lock. */
  function PutLocked(db: Db, o: nat, op: Operation): Db
    requires o < |db.ops|
  {
    db.(ops := db.ops[o := op], locks := db.locks[op.table := o])
  }

  function WithoutLocksOf(locks: map<TableId, nat>, o: nat): map<TableId, nat> {
    map t | t in locks && locks[t] != o :: locks[t]
  }

  /** Write the row and delete every lock that names it. */
  function PutReleased(db: Db, o: nat, op: Operation): Db
    requires o < |db.ops|
  {
    db.(ops := db.ops[o := op], locks := WithoutLocksOf(db.locks, o))
  }

  /** The test made before a lock is taken: no other operation holds the table. */
  predicate LockFree(db: Db, o: nat)
    requires o < |db.ops|
  {
    db.ops[o].table in db.locks ==> db.locks[db.ops[o].table] == o
  }

  function CurrentOf(db: Db, t: TableId): Option<Snapshot> {
    if t in db.tables then db.tables[t].current else None
  }

  /** The item of an operation, if it has one, takes the given state. */
  function SetItem(item: Option<State>, s: State): Option<State> {
    if item.Some? then Some(s) else None
  }

  // ---------------------------------------------------------------- creation

  function NewOperation(
    table: TableId, engine: Engine, command: Command, target: Option<Snapshot>, requester: string,
    job: Option<nat>, planned: Option<Snapshot>): Operation
  {
    Operation(table, engine, command, target, requester, job, WaitingApproval, 1, planned, false,
              if job.Some? then Some(WaitingApproval) else None, [], [], multiset{})
  }

  function Create(
    db: Db, table: TableId, engine: Engine, command: Command, target: Option<Snapshot>, requester: string): Outcome
  {
    if table !in db.tables then Refused(NotFound)
    else if !Capable(engine, command) then Refused(Unsupported)
    else if db.tables[table].current.None? then Refused(NoSnapshot)
    else
      var planned := db.tables[table].current;
      Done(db.(ops := db.ops + [NewOperation(table, engine, command, target, requester, None, planned)]))
  }

  /** The operations of a bulk request, one per table, in order. */
  function BulkOperations(
    db: Db, tables: seq<TableId>, engine: Engine, command: Command, target: Option<Snapshot>, requester: string,
    job: nat): (ops: seq<Operation>)
    requires forall t :: t in tables ==> t in db.tables
    ensures |ops| == |tables|
  {
    seq(|tables|, i requires 0 <= i < |tables| =>
      NewOperation(tables[i], engine, command, target, requester, Some(job), db.tables[tables[i]].current))
  }

  /** A bulk request: one job, and one operation and item per table, or nothing at all. */
  function CreateBulk(
    db: Db, tables: seq<TableId>, engine: Engine, command: Command, target: Option<Snapshot>,
    requester: string): Outcome
  {
    if !Capable(engine, command) then Refused(Unsupported)
    else if exists t :: t in tables && t !in db.tables then Refused(NotFound)
    else if exists t :: t in tables && db.tables[t].current.None? then Refused(NoSnapshot)
    else
      Done(db.(ops := db.ops + BulkOperations(db, tables, engine, command, target, requester, |db.jobs|),
               jobs := db.jobs + [seq(|tables|, i => |db.ops| + i)]))
  }

  // ---------------------------------------------------------------- decisions

  function UpperChar(c: char): char {
    if 'a' <= c <= 'z' then ((c as int) - 32) as char else c
  }

  /** `str.upper()`; only the ASCII letters matter for the two words it is compared with. */
  function Upper(s: string): string {
    seq(|s|, i requires 0 <= i < |s| => UpperChar(s[i]))
  }

  function ParseDecision(decision: string): Option<bool> {
    if Upper(decision) == "APPROVED" then Some(true)
    else if Upper(decision) == "REJECTED" then Some(false)
    else None
  }

  function Decided(op: Operation, approver: string, approved: bool): Operation {
    var s := if approved then Queued else Rejected;
    op.(decisions := op.decisions + [Decision(approver, approved)],
        state := s,
        version := op.version + 1,
        item := SetItem(op.item, s),
        trail := op.trail + multiset{if approved then Approved else Refusal})
  }

  function Decide(db: Db, fold: string -> string, o: nat, approver: string, decision: string): Outcome {
    if o >= |db.ops| then Refused(NotFound)
    else
      var op := db.ops[o];
      var approved := ParseDecision(decision);
      if op.state != WaitingApproval then Refused(NotWaiting)
      else if fold(op.requester) == fold(approver) then Refused(SelfApproval)
      else if approved.None? then Refused(BadDecision)
      else if !approved.value then Done(Put(db, o, Decided(op, approver, false)))
      else if !LockFree(db, o) then Refused(LockHeld)
      else Done(PutLocked(db, o, Decided(op, approver, true)))
  }

  // ---------------------------------------------------------------- retry and cancel

  function Retried(op: Operation, planned: Option<Snapshot>): Operation {
    op.(state := Queued, planned := planned, version := op.version + 1, cancelRequested := false,
        trail := op.trail + multiset{Requeued})
  }

  function Retry(db: Db, o: nat): Outcome {
    if o >= |db.ops| then Refused(NotFound)
    else
      var op := db.ops[o];
      if op.state != Failed then Refused(NotFailed)
      else if !LockFree(db, o) then Refused(LockHeld)
      else Done(PutLocked(db, o, Retried(op, CurrentOf(db, op.table))))
  }

  /** An operation nobody has claimed is canceled on the spot; a claimed one is asked to stop. */
  function CanceledRow(op: Operation): Operation {
    if op.state in {WaitingApproval, Queued} then
      op.(state := Canceled, cancelRequested := true, version := op.version + 1, item := SetItem(op.item, Canceled),
          trail := op.trail + multiset{if op.state == Queued then Dequeued else Withdrawn})
    else
      op.(state := CancelRequested, cancelRequested := true, version := op.version + 1,
          item := SetItem(op.item, CancelRequested), trail := op.trail + multiset{CancelAsked})
  }

  function CancelOpen(db: Db, o: nat): Db
    requires o < |db.ops|
  {
    var op := db.ops[o];
    if op.state in {WaitingApproval, Queued} then PutReleased(db, o, CanceledRow(op)) else Put(db, o, CanceledRow(op))
  }

  function Cancel(db: Db, o: nat, expectedVersion: Option<int>): Outcome {
    if o >= |db.ops| then Refused(NotFound)
    else
      var op := db.ops[o];
      if expectedVersion.Some? && op.version != expectedVersion.value then Refused(VersionChanged)
      else if op.state == Canceled then Done(db)
      else if Terminal(op.state) then Refused(TerminalState)
      else Done(CancelOpen(db, o))
  }

  // ---------------------------------------------------------------- bulk cancel, retry, refresh

  function CancelItem(db: Db, o: nat): Db {
    if o >= |db.ops| || Terminal(db.ops[o].state) then db else CancelOpen(db, o)
  }

  function CancelItems(db: Db, items: seq<nat>): Db
    decreases |items|
  {
    if items == [] then db else CancelItem(CancelItems(db, items[..|items| - 1]), items[|items| - 1])
  }

  function CancelJob(db: Db, j: nat): Outcome {
    if j >= |db.jobs| then Refused(NotFound) else Done(CancelItems(db, db.jobs[j]))
  }

  /** The guard of a bulk retry reads the item's state, and the lock of the operation's table. */
  predicate Retriable(db: Db, o: nat) {
    o < |db.ops| && db.ops[o].item == Some(Failed) && LockFree(db, o)
  }

  function BulkRetried(op: Operation, planned: Option<Snapshot>): Operation {
    op.(state := Queued, planned := planned, version := op.version + 1, cancelRequested := false,
        item := SetItem(op.item, Queued),
        trail := op.trail + multiset{if op.state == Queued then Replanned else Requeued})
  }

  function RetryItem(db: Db, o: nat): Db {
    if Retriable(db, o) then PutLocked(db, o, BulkRetried(db.ops[o], CurrentOf(db, db.ops[o].table))) else db
  }

  function RetryItems(db: Db, items: seq<nat>): Db
    decreases |items|
  {
    if items == [] then db else RetryItem(RetryItems(db, items[..|items| - 1]), items[|items| - 1])
  }

  function RetriedCount(db: Db, items: seq<nat>): nat
    decreases |items|
  {
    if items == [] then 0
    else
      var front := items[..|items| - 1];
      RetriedCount(db, front) + if Retriable(RetryItems(db, front), items[|items| - 1]) then 1 else 0
  }

  function RetryJob(db: Db, j: nat): Outcome {
    if j >= |db.jobs| then Refused(NotFound)
    else if RetriedCount(db, db.jobs[j]) == 0 then Refused(NothingRetried)
    else Done(RetryItems(db, db.jobs[j]))
  }

  /** A refresh copies the operation's state into its item. */
  function RefreshItem(db: Db, o: nat): Db {
    if o >= |db.ops| then db else Put(db, o, db.ops[o].(item := SetItem(db.ops[o].item, db.ops[o].state)))
  }

  function RefreshItems(db: Db, items: seq<nat>): Db
    decreases |items|
  {
    if items == [] then db else RefreshItem(RefreshItems(db, items[..|items| - 1]), items[|items| - 1])
  }

  function RefreshJob(db: Db, j: nat): Outcome {
    if j >= |db.jobs| then Refused(NotFound) else Done(RefreshItems(db, db.jobs[j]))
  }

  // ---------------------------------------------------------------- the worker's transactions

  /** The largest attempt number among the executions, 0 when there is none. */
  function MaxAttempt(runs: seq<Execution>): nat {
    if runs == [] then 0
    else
      var front := MaxAttempt(runs[..|runs| - 1]);
      if runs[|runs| - 1].attempt > front then runs[|runs| - 1].attempt else front
  }

  /** The rows a claim may take: queued, for Spark, in the worker's catalog scope, and not
      blocked by another operation's lock. */
  predicate Claimable(db: Db, hadoopScope: bool, o: nat) {
    && o < |db.ops|
    && db.ops[o].state == Queued
    && db.ops[o].engine in {Auto, Spark}
    && db.ops[o].table in db.tables
    && db.tables[db.ops[o].table].hadoop == hadoopScope
    && LockFree(db, o)
  }

  function ClaimedRow(op: Operation, w: WorkerId): Operation {
    op.(state := Running,
        runs := op.runs + [Execution(MaxAttempt(op.runs) + 1, Running, w, None, op.planned, None, None, None)])
  }

  function ClaimRow(db: Db, w: WorkerId, o: nat): Db
    requires o < |db.ops|
  {
    PutLocked(db, o, ClaimedRow(db.ops[o], w))
  }

  function SetRun(op: Operation, k: nat, run: Execution): Operation
    requires k < |op.runs|
  {
    op.(runs := op.runs[k := run])
  }

  predicate HasRun(db: Db, o: nat, k: nat) { o < |db.ops| && k < |db.ops[o].runs| }

  function MarkSubmitted(db: Db, o: nat, k: nat, ext: ExternalId): Db {
    if !HasRun(db, o, k) then db
    else Put(db, o, SetRun(db.ops[o], k, db.ops[o].runs[k].(external := Some(ext))))
  }

  function VerifyingRow(op: Operation, k: nat, r: Result): Operation
    requires k < |op.runs|
  {
    SetRun(op, k, op.runs[k].(state := Verifying, before := r.before.snapshot, after := r.after.snapshot,
                              result := Some(r)))
      .(state := Verifying)
  }

  function MarkVerifying(db: Db, o: nat, k: nat, r: Result): Db {
    if !HasRun(db, o, k) then db else Put(db, o, VerifyingRow(db.ops[o], k, r))
  }

  /** The operation takes a terminal state, and so does its item. */
  function EndedRow(op: Operation, s: State): Operation {
    op.(state := s, version := op.version + 1, item := SetItem(op.item, s), trail := op.trail + multiset{Ended})
  }

  function EndedRun(op: Operation, k: nat, s: State): Operation {
    EndedRow(if k < |op.runs| then SetRun(op, k, op.runs[k].(state := s)) else op, s)
  }

  /** The table row after a verified result: its current snapshot is the one the job left. */
  function Observed(db: Db, t: TableId, r: Result): Db {
    if t in db.tables then db.(tables := db.tables[t := db.tables[t].(current := r.after.snapshot)]) else db
  }

  function MarkSucceeded(db: Db, o: nat, k: nat, r: Result): Outcome {
    if !HasRun(db, o, k) then Done(db)
    else
      var op := db.ops[o];
      if !Acceptable(op.command, op.target, r) then Refused(ResultRejected)
      else Done(Observed(PutReleased(db, o, EndedRun(op, k, Succeeded)), op.table, r))
  }

  function MarkFailed(db: Db, o: nat, k: nat): Db {
    if o >= |db.ops| then db else PutReleased(db, o, EndedRun(db.ops[o], k, Failed))
  }

  function CanceledByWorker(op: Operation, k: nat): Operation { EndedRun(op, k, Canceled) }

  function MarkCanceled(db: Db, o: nat, k: nat): Db {
    if o >= |db.ops| then db else PutReleased(db, o, CanceledByWorker(db.ops[o], k))
  }

  // ---------------------------------------------------------------- claims in a worker's memory

  /** Where a worker is with an execution: nothing submitted, batch posted but its id not
      recorded, id recorded, result received, result recorded, or about to mark it canceled. */
  datatype Phase =
    | Fresh | Posted(batch: nat) | Awaiting(ext: ExternalId) | Returned(r: Result) | Confirmed(r: Result) | Stopping

  /** What `execute_claim` is called with: the operation, its execution, and the expected
      snapshot in the payload. */
  datatype Claim = Claim(op: nat, run: nat, expected: Option<Snapshot>, phase: Phase)

  // ---------------------------------------------------------------- recovery

  /** The executions a starting worker looks at. */
  predicate Stale(db: Db, w: WorkerId, o: nat, k: nat) {
    HasRun(db, o, k) && Live(db.ops[o].runs[k].state) && db.ops[o].runs[k].worker != w
  }

  /** In Livy mode an execution that was submitted is taken over; any other one has failed. */
  predicate Attachable(livy: bool, run: Execution) { livy && run.external.Some? }

  function RecoverRun(db: Db, w: WorkerId, livy: bool, o: nat, k: nat): Db {
    if !Stale(db, w, o, k) then db
    else if Attachable(livy, db.ops[o].runs[k]) then Put(db, o, SetRun(db.ops[o], k, db.ops[o].runs[k].(worker := w)))
    else MarkFailed(db, o, k)
  }

  /** The first `n` executions of operation `o`, in order. */
  function RecoverRuns(db: Db, w: WorkerId, livy: bool, o: nat, n: nat): Db {
    if n == 0 then db else RecoverRun(RecoverRuns(db, w, livy, o, n - 1), w, livy, o, n - 1)
  }

  function RunsOf(db: Db, o: nat): nat { if o < |db.ops| then |db.ops[o].runs| else 0 }

  /** All executions of the first `m` operations, in order. */
  function RecoverOps(db: Db, w: WorkerId, livy: bool, m: nat): Db {
    if m == 0 then db else RecoverRuns(RecoverOps(db, w, livy, m - 1), w, livy, m - 1, RunsOf(db, m - 1))
  }

  function Recover(db: Db, w: WorkerId, livy: bool): Db { RecoverOps(db, w, livy, |db.ops|) }

  /** The claims the recovering worker goes on with, in the order it found them. */
  function ResumableRun(db: Db, w: WorkerId, livy: bool, o: nat, k: nat): seq<Claim> {
    if Stale(db, w, o, k) && Attachable(livy, db.ops[o].runs[k]) then
      [Claim(o, k, db.ops[o].planned, Awaiting(db.ops[o].runs[k].external.value))]
    else []
  }

  function ResumableRuns(db: Db, w: WorkerId, livy: bool, o: nat, n: nat): seq<Claim> {
    if n == 0 then [] else ResumableRuns(db, w, livy, o, n - 1) + ResumableRun(db, w, livy, o, n - 1)
  }

  function ResumableOps(db: Db, w: WorkerId, livy: bool, m: nat): seq<Claim> {
    if m == 0 then [] else ResumableOps(db, w, livy, m - 1) + ResumableRuns(db, w, livy, m - 1, RunsOf(db, m - 1))
  }

  function Resumable(db: Db, w: WorkerId, livy: bool): seq<Claim> { ResumableOps(db, w, livy, |db.ops|) }
}
