/** The transactions as the service and the worker run them: one method per transaction on the
    stored rows, statement by statement. Each is proved against the corresponding function of
    `Operations`, whose properties the other modules prove. */
module OperationStore {
  import opened Common
  import opened Operations
  import opened Requirements

  /** What the caller sees: nothing, or the exception raised. */
  function Raised(r: Outcome): Option<Error> { if r.Done? then None else Some(r.error) }

  class Store {
    var tables: map<TableId, Table>
    var ops: seq<Operation>
    var locks: map<TableId, nat>
    var jobs: seq<seq<nat>>
    const casefold: string -> string

    constructor (tables: map<TableId, Table>, casefold: string -> string)
      ensures View() == Db(tables, [], map[], []) && this.casefold == casefold
    {
      this.tables, this.ops, this.locks, this.jobs := tables, [], map[], [];
      this.casefold := casefold;
    }

    function View(): Db
      reads this
    {
      Db(tables, ops, locks, jobs)
    }

    /** The lock row, if the operation may have it: the row is inserted if there is none. */
    method AcquireLock(o: nat) returns (ok: bool)
      requires o < |ops|
      modifies this`locks
      ensures ok == old(LockFree(View(), o))
      ensures locks == if ok then old(locks)[ops[o].table := o] else old(locks)
    {
      var t := ops[o].table;
      if t in locks && locks[t] != o {
        return false;
      }
      if t !in locks {
        locks := locks[t := o];
      }
      assert locks == old(locks)[t := o];
      return true;
    }

    method ReleaseLocks(o: nat)
      modifies this`locks
      ensures locks == WithoutLocksOf(old(locks), o)
    {
      locks := map t | t in locks && locks[t] != o :: locks[t];
    }

    method CreateOperation(
      table: TableId, engine: Engine, command: Command, target: Option<Snapshot>, requester: string)
      returns (id: nat, error: Option<Error>)
      modifies this
      ensures var r := Operations.Create(old(View()), table, engine, command, target, requester);
        View() == After(old(View()), r) && error == Raised(r) && (error.None? ==> id == |old(ops)|)
      ensures error == Some(Unsupported) <==> table in tables && command in Unsupporting(engine)
    {
      id := |ops|;
      if table !in tables {
        return id, Some(NotFound);
      }
      if !Capable(engine, command) {
        return id, Some(Unsupported);
      }
      if tables[table].current.None? {
        return id, Some(NoSnapshot);
      }
      ops := ops + [NewOperation(table, engine, command, target, requester, None, tables[table].current)];
      error := None;
    }

    /** Every check comes before the first row is kept: a session that raises is rolled back. */
    method CreateOperations(
      tableIds: seq<TableId>, engine: Engine, command: Command, target: Option<Snapshot>, requester: string)
      returns (job: nat, error: Option<Error>)
      modifies this
      ensures var r := Operations.CreateBulk(old(View()), tableIds, engine, command, target, requester);
        View() == After(old(View()), r) && error == Raised(r) && (error.None? ==> job == |old(jobs)|)
    {
      job := |jobs|;
      if !Capable(engine, command) {
        return job, Some(Unsupported);
      }
      for i := 0 to |tableIds|
        invariant View() == old(View())
        invariant forall k :: 0 <= k < i ==> tableIds[k] in tables
      {
        if tableIds[i] !in tables {
          assert tableIds[i] in tableIds && tableIds[i] !in tables;
          return job, Some(NotFound);
        }
      }
      var rows: seq<Operation> := [];
      var ids: seq<nat> := [];
      for i := 0 to |tableIds|
        invariant View() == old(View())
        invariant |rows| == |ids| == i
        invariant forall k :: 0 <= k < i ==> tables[tableIds[k]].current.Some? && ids[k] == |ops| + k
        invariant forall k :: 0 <= k < i ==>
          rows[k] == NewOperation(tableIds[k], engine, command, target, requester, Some(job),
            tables[tableIds[k]].current)
      {
        if tables[tableIds[i]].current.None? {
          assert tableIds[i] in tableIds;
          return job, Some(NoSnapshot);
        }
        var planned := tables[tableIds[i]].current;
        rows := rows + [NewOperation(tableIds[i], engine, command, target, requester, Some(job), planned)];
        ids := ids + [|ops| + i];
      }
      assert rows == BulkOperations(View(), tableIds, engine, command, target, requester, job);
      ghost var r := Operations.CreateBulk(View(), tableIds, engine, command, target, requester);
      assert r.Done? && r.db.jobs[job] == ids;
      ops := ops + rows;
      jobs := jobs + [ids];
      error := None;
    }

    method DecideOperation(o: nat, approver: string, decision: string) returns (error: Option<Error>)
      modifies this
      ensures var r := Operations.Decide(old(View()), casefold, o, approver, decision);
        View() == After(old(View()), r) && error == Raised(r)
      ensures error.None? ==>
        && o < |ops| && |ops| == |old(ops)|
        && (Spells(decision, "APPROVED", "approved") || Spells(decision, "REJECTED", "rejected"))
        && var approved := Spells(decision, "APPROVED", "approved");
           && ops[o].state == (if approved then Queued else Rejected)
           && ops[o].decisions == old(ops)[o].decisions + [Decision(approver, approved)]
           && locks == if approved then old(locks)[ops[o].table := o] else old(locks)
    {
      DecisionWords(decision);
      if o >= |ops| {
        return Some(NotFound);
      }
      var op := ops[o];
      if op.state != WaitingApproval {
        return Some(NotWaiting);
      }
      if casefold(op.requester) == casefold(approver) {
        return Some(SelfApproval);
      }
      var approved := ParseDecision(decision);
      if approved.None? {
        return Some(BadDecision);
      }
      if approved.value {
        var ok := AcquireLock(o);
        if !ok {
          return Some(LockHeld);
        }
      }
      op := op.(decisions := op.decisions + [Decision(approver, approved.value)]);
      op := op.(state := if approved.value then Queued else Rejected);
      op := op.(version := op.version + 1);
      if op.item.Some? {
        op := op.(item := Some(op.state));
      }
      op := op.(trail := op.trail + multiset{if approved.value then Approved else Refusal});
      ops := ops[o := op];
      error := None;
    }

    method RetryOperation(o: nat) returns (error: Option<Error>)
      modifies this
      ensures var r := Operations.Retry(old(View()), o);
        View() == After(old(View()), r) && error == Raised(r)
    {
      if o >= |ops| {
        return Some(NotFound);
      }
      var op := ops[o];
      if op.state != Failed {
        return Some(NotFailed);
      }
      var ok := AcquireLock(o);
      if !ok {
        return Some(LockHeld);
      }
      op := op.(state := Queued);
      op := op.(planned := CurrentOf(View(), op.table));
      op := op.(version := op.version + 1, cancelRequested := false, trail := op.trail + multiset{Requeued});
      ops := ops[o := op];
      error := None;
    }

    /** The part single and bulk cancellation share, on an operation that has not ended. */
    method CancelOpenOperation(o: nat)
      requires o < |ops|
      modifies this
      ensures View() == CancelOpen(old(View()), o)
    {
      var op := ops[o];
      op := op.(cancelRequested := true, version := op.version + 1);
      if op.state in {WaitingApproval, Queued} {
        op := op.(trail := op.trail + multiset{if op.state == Queued then Dequeued else Withdrawn});
        op := op.(state := Canceled);
        ReleaseLocks(o);
      } else {
        op := op.(state := CancelRequested, trail := op.trail + multiset{CancelAsked});
      }
      if op.item.Some? {
        op := op.(item := Some(op.state));
      }
      ops := ops[o := op];
    }

    method CancelOperation(o: nat, expectedVersion: Option<int>) returns (error: Option<Error>)
      modifies this
      ensures var r := Operations.Cancel(old(View()), o, expectedVersion);
        View() == After(old(View()), r) && error == Raised(r)
    {
      if o >= |ops| {
        return Some(NotFound);
      }
      if expectedVersion.Some? && ops[o].version != expectedVersion.value {
        return Some(VersionChanged);
      }
      if ops[o].state == Canceled {
        return None;
      }
      if Terminal(ops[o].state) {
        return Some(TerminalState);
      }
      CancelOpenOperation(o);
      error := None;
    }

    method CancelBulkJob(j: nat) returns (error: Option<Error>)
      modifies this
      ensures var r := Operations.CancelJob(old(View()), j);
        View() == After(old(View()), r) && error == Raised(r)
    {
      if j >= |jobs| {
        return Some(NotFound);
      }
      var items := jobs[j];
      for i := 0 to |items|
        invariant View() == CancelItems(old(View()), items[..i])
      {
        assert items[..i + 1][..i] == items[..i];
        if items[i] < |ops| && !Terminal(ops[items[i]].state) {
          CancelOpenOperation(items[i]);
        }
      }
      assert items[..|items|] == items;
      error := None;
    }

    /** One item of a bulk retry: only the item's own state and the table lock are tested. */
    method RetryBulkItem(o: nat) returns (retried: bool)
      modifies this
      ensures View() == RetryItem(old(View()), o)
      ensures retried == old(Retriable(View(), o))
    {
      if o >= |ops| || ops[o].item != Some(Failed) {
        return false;
      }
      var ok := AcquireLock(o);
      if !ok {
        return false;
      }
      var op := ops[o];
      op := op.(trail := op.trail + multiset{if op.state == Queued then Replanned else Requeued});
      op := op.(state := Queued);
      op := op.(planned := CurrentOf(View(), op.table), version := op.version + 1, cancelRequested := false);
      op := op.(item := Some(Queued));
      ops := ops[o := op];
      retried := true;
    }

    method RetryFailedBulkJob(j: nat) returns (error: Option<Error>)
      modifies this
      ensures var r := Operations.RetryJob(old(View()), j);
        View() == After(old(View()), r) && error == Raised(r)
    {
      if j >= |jobs| {
        return Some(NotFound);
      }
      var items := jobs[j];
      var retried := 0;
      for i := 0 to |items|
        invariant View() == RetryItems(old(View()), items[..i])
        invariant retried == RetriedCount(old(View()), items[..i])
        invariant retried == 0 ==> View() == old(View())
      {
        assert items[..i + 1][..i] == items[..i];
        var done := RetryBulkItem(items[i]);
        if done {
          retried := retried + 1;
        }
      }
      assert items[..|items|] == items;
      if retried == 0 {
        return Some(NothingRetried);
      }
      error := None;
    }

    method RefreshBulkJob(j: nat) returns (error: Option<Error>)
      modifies this
      ensures var r := Operations.RefreshJob(old(View()), j);
        View() == After(old(View()), r) && error == Raised(r)
    {
      if j >= |jobs| {
        return Some(NotFound);
      }
      var items := jobs[j];
      for i := 0 to |items|
        invariant View() == RefreshItems(old(View()), items[..i])
      {
        assert items[..i + 1][..i] == items[..i];
        var o := items[i];
        if o < |ops| {
          var op := ops[o];
          if op.item.Some? {
            op := op.(item := Some(op.state));
          }
          ops := ops[o := op];
        }
      }
      assert items[..|items|] == items;
      error := None;
    }

    /** The number of the next attempt: one more than the largest so far. */
    method NextAttempt(o: nat) returns (n: nat)
      requires o < |ops|
      ensures n == MaxAttempt(ops[o].runs) + 1
    {
      var runs := ops[o].runs;
      var largest := 0;
      for k := 0 to |runs|
        invariant largest == MaxAttempt(runs[..k])
      {
        assert runs[..k + 1][..k] == runs[..k];
        if runs[k].attempt > largest {
          largest := runs[k].attempt;
        }
      }
      assert runs[..|runs|] == runs;
      n := largest + 1;
    }

    /** The oldest claimable operation whose row no other session has locked is claimed. */
    method ClaimOperation(w: WorkerId, hadoopScope: bool, rowLocked: set<nat>) returns (claim: Option<Claim>)
      modifies this
      ensures claim.None? ==> View() == old(View())
      ensures claim.None? ==> forall o: nat :: Claimable(old(View()), hadoopScope, o) ==> o in rowLocked
      ensures claim.Some? ==>
        var o := claim.value.op;
        && Claimable(old(View()), hadoopScope, o) && o !in rowLocked
        && (forall p: nat :: p < o && Claimable(old(View()), hadoopScope, p) ==> p in rowLocked)
        && View() == ClaimRow(old(View()), w, o)
        && claim.value == Claim(o, |old(ops)[o].runs|, old(ops)[o].planned, Fresh)
    {
      for o := 0 to |ops|
        invariant View() == old(View())
        invariant forall p: nat :: p < o && Claimable(old(View()), hadoopScope, p) ==> p in rowLocked
      {
        if Claimable(View(), hadoopScope, o) && o !in rowLocked {
          var ok := AcquireLock(o);
          assert ok;
          var attempt := NextAttempt(o);
          var op := ops[o];
          claim := Some(Claim(o, |op.runs|, op.planned, Fresh));
          op := op.(runs := op.runs + [Execution(attempt, Running, w, None, op.planned, None, None, None)]);
          op := op.(state := Running);
          ops := ops[o := op];
          return;
        }
      }
      claim := None;
    }

    method MarkSubmitted(o: nat, k: nat, ext: ExternalId)
      modifies this
      ensures View() == Operations.MarkSubmitted(old(View()), o, k, ext)
    {
      if HasRun(View(), o, k) {
        var op := ops[o];
        ops := ops[o := op.(runs := op.runs[k := op.runs[k].(external := Some(ext))])];
      }
    }

    method MarkVerifying(o: nat, k: nat, r: Result)
      modifies this
      ensures View() == Operations.MarkVerifying(old(View()), o, k, r)
    {
      if !HasRun(View(), o, k) {
        return;
      }
      var op := ops[o];
      var run := op.runs[k];
      run := run.(state := Verifying);
      run := run.(before := r.before.snapshot);
      run := run.(after := r.after.snapshot);
      run := run.(result := Some(r));
      op := op.(runs := op.runs[k := run]);
      op := op.(state := Verifying);
      ops := ops[o := op];
    }

    /** What the three terminal steps share: the execution, the operation, its item, its lock. */
    method EndOperation(o: nat, k: nat, s: State)
      requires o < |ops|
      modifies this`ops, this`locks
      ensures View() == PutReleased(old(View()), o, EndedRun(old(ops)[o], k, s))
    {
      var op := ops[o];
      if k < |op.runs| {
        op := op.(runs := op.runs[k := op.runs[k].(state := s)]);
      }
      op := op.(state := s, version := op.version + 1, trail := op.trail + multiset{Ended});
      ReleaseLocks(o);
      if op.item.Some? {
        op := op.(item := Some(s));
      }
      ops := ops[o := op];
    }

    /** Raises, changing nothing, when the result does not verify. */
    method MarkSucceeded(o: nat, k: nat, r: Result) returns (error: Option<Error>)
      modifies this
      ensures var out := Operations.MarkSucceeded(old(View()), o, k, r);
        View() == After(old(View()), out) && error == Raised(out)
      ensures error.None? <==>
        !HasRun(old(View()), o, k) || Verified(old(ops)[o].command, old(ops)[o].target, r.before, r.after)
    {
      if !HasRun(View(), o, k) {
        return None;
      }
      AcceptableExactly(ops[o].command, ops[o].target, r);
      if !Acceptable(ops[o].command, ops[o].target, r) {
        return Some(ResultRejected);
      }
      EndOperation(o, k, Succeeded);
      var t := ops[o].table;
      if t in tables {
        tables := tables[t := tables[t].(current := r.after.snapshot)];
      }
      error := None;
    }

    method MarkFailed(o: nat, k: nat)
      modifies this
      ensures View() == Operations.MarkFailed(old(View()), o, k)
    {
      if o < |ops| {
        EndOperation(o, k, Failed);
      }
    }

    method MarkCanceled(o: nat, k: nat)
      modifies this
      ensures View() == Operations.MarkCanceled(old(View()), o, k)
    {
      if o < |ops| {
        EndOperation(o, k, Canceled);
      }
    }

    /** One row of recovery: taken over, giving a claim to go on with, or failed. */
    method RecoverExecution(w: WorkerId, livy: bool, o: nat, k: nat) returns (claims: seq<Claim>)
      requires HasRun(View(), o, k)
      modifies this`ops, this`locks
      ensures View() == RecoverRun(old(View()), w, livy, o, k)
      ensures claims == old(ResumableRun(View(), w, livy, o, k))
      ensures HasRun(View(), o, k)
      ensures var op, run := old(ops)[o], old(ops)[o].runs[k];
        if run.state !in {Running, Verifying} || run.worker == w then claims == [] && ops == old(ops)
        else if livy && run.external.Some? then
          && claims == [Claim(o, k, op.planned, Awaiting(run.external.value))]
          && ops[o].state == op.state && ops[o].runs[k] == run.(worker := w) && locks == old(locks)
        else claims == [] && ops[o].state == Failed && ops[o].runs[k] == run.(state := Failed)
    {
      claims := [];
      var run := ops[o].runs[k];
      if Live(run.state) && run.worker != w {
        if livy && run.external.Some? {
          claims := [Claim(o, k, ops[o].planned, Awaiting(run.external.value))];
          ops := ops[o := ops[o].(runs := ops[o].runs[k := run.(worker := w)])];
        } else {
          EndOperation(o, k, Failed);
        }
      }
    }

    method RecoverOperation(w: WorkerId, livy: bool, o: nat) returns (claims: seq<Claim>)
      requires o < |ops|
      modifies this`ops, this`locks
      ensures View() == RecoverRuns(old(View()), w, livy, o, |old(ops)[o].runs|)
      ensures claims == ResumableRuns(old(View()), w, livy, o, |old(ops)[o].runs|)
    {
      claims := [];
      var n := |ops[o].runs|;
      for k := 0 to n
        invariant View() == RecoverRuns(old(View()), w, livy, o, k)
        invariant OthersRecoverLater(old(View()), View(), o, k)
        invariant claims == ResumableRuns(old(View()), w, livy, o, k)
      {
        SameResumable(old(View()), View(), w, livy, o, k);
        ghost var before := View();
        var resumed := RecoverExecution(w, livy, o, k);
        RecoverRunLocal(before, w, livy, o, k);
        claims := claims + resumed;
      }
    }

    /** Recovery goes through the live executions of other workers: it takes over those that
        were submitted to Livy, returning the claims to go on with, and fails the others. */
    method RecoverStaleExecutions(w: WorkerId, livy: bool) returns (claims: seq<Claim>)
      modifies this
      ensures View() == Recover(old(View()), w, livy)
      ensures claims == Resumable(old(View()), w, livy)
    {
      claims := [];
      for o := 0 to |ops|
        invariant |ops| == |old(ops)|
        invariant View() == RecoverOps(old(View()), w, livy, o)
        invariant claims == ResumableOps(old(View()), w, livy, o)
        invariant forall p :: o <= p < |ops| ==> ops[p] == old(ops)[p]
      {
        ghost var before := View();
        var resumed := RecoverOperation(w, livy, o);
        RecoverRunsLocal(before, w, livy, o, |before.ops[o].runs|);
        SameResumableRuns(old(View()), before, w, livy, o, |before.ops[o].runs|);
        claims := claims + resumed;
      }
    }
  }

  // ------------------------------------------------- visiting one row leaves the others alone

  /** After the first `k` executions of `o` have been visited: the later ones, and the other
      operations, are as they were. */
  predicate OthersRecoverLater(db: Db, db': Db, o: nat, k: nat)
    requires o < |db.ops|
  {
    && |db'.ops| == |db.ops|
    && (forall p :: 0 <= p < |db.ops| && p != o ==> db'.ops[p] == db.ops[p])
    && db'.ops[o].planned == db.ops[o].planned
    && |db'.ops[o].runs| == |db.ops[o].runs|
    && (forall i :: k <= i < |db.ops[o].runs| ==> db'.ops[o].runs[i] == db.ops[o].runs[i])
  }

  lemma RecoverRunLocal(db: Db, w: WorkerId, livy: bool, o: nat, k: nat)
    requires HasRun(db, o, k)
    ensures OthersRecoverLater(db, RecoverRun(db, w, livy, o, k), o, k + 1)
  {
  }

  lemma {:induction false} RecoverRunsLocal(db: Db, w: WorkerId, livy: bool, o: nat, n: nat)
    requires o < |db.ops| && n <= |db.ops[o].runs|
    ensures OthersRecoverLater(db, RecoverRuns(db, w, livy, o, n), o, n)
  {
    if n > 0 {
      RecoverRunsLocal(db, w, livy, o, n - 1);
      RecoverRunLocal(RecoverRuns(db, w, livy, o, n - 1), w, livy, o, n - 1);
    }
  }

  lemma SameResumable(db: Db, db': Db, w: WorkerId, livy: bool, o: nat, k: nat)
    requires HasRun(db, o, k) && OthersRecoverLater(db, db', o, k)
    ensures ResumableRun(db', w, livy, o, k) == ResumableRun(db, w, livy, o, k)
  {
  }

  lemma {:induction false} SameResumableRuns(db: Db, db': Db, w: WorkerId, livy: bool, o: nat, n: nat)
    requires o < |db.ops| && o < |db'.ops| && db'.ops[o] == db.ops[o]
    ensures ResumableRuns(db', w, livy, o, n) == ResumableRuns(db, w, livy, o, n)
  {
    if n > 0 {
      SameResumableRuns(db, db', w, livy, o, n - 1);
    }
  }
}
