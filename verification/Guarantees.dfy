/** What the service promises its users, for every run of the transition system from an
    empty database, and exactly where the promises stop. */
module Guarantees {
  import opened Common
  import opened Operations
  import opened Requirements
  import opened OperationInvariant
  import opened DbInvariant
  import opened WorkerSteps
  import opened Protocol
  import opened History

  predicate LiveRun(db: Db, o: nat, k: nat) { HasRun(db, o, k) && db.ops[o].runs[k].state in {Running, Verifying} }

  /** The state a run from an empty database ends in. */
  predicate Reaches(fold: string -> string, init: System, run: seq<Action>) {
    Init(init) && Allowed(fold, init, run)
  }

  lemma ReachedOk(fold: string -> string, init: System, run: seq<Action>)
    requires Reaches(fold, init, run)
    ensures Inv(fold, Final(fold, init, run)) && JobsDistinct(Final(fold, init, run).db)
  {
    EveryRunOk(fold, init, run);
    JobsStayDistinct(fold, init, run);
  }

  /** Some run from an empty database ends here. */
  ghost predicate Reachable(fold: string -> string, s: System) {
    exists init, run :: Reaches(fold, init, run) && Final(fold, init, run) == s
  }

  lemma ReachableOk(fold: string -> string, s: System)
    requires Reachable(fold, s)
    ensures Inv(fold, s) && JobsDistinct(s.db)
  {
    var init, run :| Reaches(fold, init, run) && Final(fold, init, run) == s;
    ReachedOk(fold, init, run);
  }

  // ---------------------------------------------------------------- mutual exclusion

  /** No operation but `o` is active on its table. */
  predicate TableIdle(db: Db, o: nat)
    requires o < |db.ops|
  {
    forall p :: 0 <= p < |db.ops| && p != o && db.ops[p].state in {Queued, Running, Verifying, CancelRequested} ==>
      db.ops[p].table != db.ops[o].table
  }

  /** A table is locked by an operation exactly when the operation targets it and is active,
      so a table has at most one active operation. */
  lemma LockedExactlyWhenActive(fold: string -> string, init: System, run: seq<Action>)
    requires Reaches(fold, init, run)
    ensures var db := Final(fold, init, run).db;
      && (forall t, o :: t in db.locks && db.locks[t] == o <==>
            0 <= o < |db.ops| && db.ops[o].table == t &&
            db.ops[o].state in {Queued, Running, Verifying, CancelRequested})
      && (forall o | 0 <= o < |db.ops| && db.ops[o].state in {Queued, Running, Verifying, CancelRequested} ::
            TableIdle(db, o))
  {
    ReachedOk(fold, init, run);
  }

  /** An operation is executing exactly when it has a live execution, and no table has two live executions. */
  ghost predicate Exclusive(db: Db) {
    && (forall o: nat | o < |db.ops| ::
          db.ops[o].state in {Running, Verifying, CancelRequested} <==> exists k: nat :: LiveRun(db, o, k))
    && (forall o: nat, p: nat, k: nat, l: nat | LiveRun(db, o, k) && LiveRun(db, p, l) ::
          db.ops[o].table == db.ops[p].table ==> o == p && k == l)
  }

  lemma OneLiveExecutionPerTable(fold: string -> string, init: System, run: seq<Action>)
    requires Reaches(fold, init, run)
    ensures Exclusive(Final(fold, init, run).db)
  {
    ReachedOk(fold, init, run);
    var db := Final(fold, init, run).db;
    forall o: nat, k: nat | LiveRun(db, o, k)
      ensures k == |db.ops[o].runs| - 1 && Executing(db.ops[o].state)
    {
      OnlyTheLastIsLive(fold, db.ops[o], k);
    }
    forall o: nat | o < |db.ops| && Executing(db.ops[o].state)
      ensures exists k: nat :: LiveRun(db, o, k)
    {
      assert OpOk(fold, db.ops[o]);
      assert LiveRun(db, o, |db.ops[o].runs| - 1);
    }
  }

  // ---------------------------------------------------------------- approval

  /** Nothing runs unapproved: an operation with executions has exactly one decision, an
      approval by somebody whose folded name is not the requester's. */
  lemma ExecutedOnlyIfApproved(fold: string -> string, init: System, run: seq<Action>, o: nat)
    requires Reaches(fold, init, run) && o < |Final(fold, init, run).db.ops|
    ensures var op := Final(fold, init, run).db.ops[o];
      op.runs != [] || Active(op.state) || op.state in {Succeeded, Failed} ==>
        |op.decisions| == 1 && op.decisions[0].approved && fold(op.decisions[0].approver) != fold(op.requester)
  {
    ReachedOk(fold, init, run);
    assert OpOk(fold, Final(fold, init, run).db.ops[o]);
  }

  /** Of a worker's steps only the claim adds an execution. */
  lemma WorkersAddNoExecution(fold: string -> string, s: System, a: Action, o: nat)
    requires Enabled(s, a) && o < |s.db.ops|
    requires a.WorkerCrash? || (AtWork(a) && !a.WorkerClaim?) || Ending(a)
    ensures o < |Step(fold, s, a).db.ops| && |Step(fold, s, a).db.ops[o].runs| == |s.db.ops[o].runs|
  {
    if Ending(a) {
      EndingsAddNoExecution(fold, s, a, o);
    }
  }

  lemma EndingsAddNoExecution(fold: string -> string, s: System, a: Action, o: nat)
    requires Enabled(s, a) && o < |s.db.ops| && Ending(a)
    ensures o < |Step(fold, s, a).db.ops| && |Step(fold, s, a).db.ops[o].runs| == |s.db.ops[o].runs|
  {
  }

  lemma RecoveryAddsNoExecution(fold: string -> string, s: System, a: Action, o: nat)
    requires DbInv(fold, s.db) && Enabled(s, a) && o < |s.db.ops| && a.WorkerStart?
    ensures o < |Step(fold, s, a).db.ops| && |Step(fold, s, a).db.ops[o].runs| == |s.db.ops[o].runs|
  {
    RecoveredRow(fold, s.db, a.w, a.livy, o);
  }

  lemma ClaimAddsOneExecution(fold: string -> string, s: System, a: Action, o: nat)
    requires Enabled(s, a) && o < |s.db.ops| && a.WorkerClaim?
    ensures o < |Step(fold, s, a).db.ops|
    ensures |Step(fold, s, a).db.ops[o].runs| == |s.db.ops[o].runs| + if o == a.o then 1 else 0
  {
  }

  /** The approval comes first: a step adds an execution only by claiming the operation, and
      that is queued and approved already. */
  lemma ApprovalPrecedesExecution(fold: string -> string, s: System, a: Action, o: nat)
    requires Reachable(fold, s) && Enabled(s, a) && o < |s.db.ops|
    ensures o < |Step(fold, s, a).db.ops|
    ensures |Step(fold, s, a).db.ops[o].runs| > |s.db.ops[o].runs| <==> a.WorkerClaim? && a.o == o
    ensures a.WorkerClaim? && a.o == o ==>
      s.db.ops[o].state == Queued && |s.db.ops[o].decisions| == 1 && s.db.ops[o].decisions[0].approved
  {
    ReachableOk(fold, s);
    assert OpOk(fold, s.db.ops[o]);
    StepRuns(fold, s, a, o);
  }

  /** Every step adds as many executions to an operation as claims: one if it is one, else none. */
  lemma StepRuns(fold: string -> string, s: System, a: Action, o: nat)
    requires Inv(fold, s) && Enabled(s, a) && o < |s.db.ops|
    ensures o < |Step(fold, s, a).db.ops|
    ensures |Step(fold, s, a).db.ops[o].runs| == |s.db.ops[o].runs| + Count(a.WorkerClaim? && a.o == o)
  {
    if a.WorkerClaim? {
      ClaimAddsOneExecution(fold, s, a, o);
    } else if a.WorkerStart? {
      RecoveryAddsNoExecution(fold, s, a, o);
    } else if AtWork(a) || Ending(a) || a.WorkerCrash? {
      WorkersAddNoExecution(fold, s, a, o);
    } else {
      ApiStepOk(fold, s, a);
    }
  }

  /** The claims of operation `o` in a run. */
  function Claims(run: seq<Action>, o: nat): nat {
    if run == [] then 0 else Count(run[0].WorkerClaim? && run[0].o == o) + Claims(run[1..], o)
  }

  lemma {:induction false} ExecutionsAreClaims(fold: string -> string, s: System, run: seq<Action>, o: nat)
    requires Inv(fold, s) && Allowed(fold, s, run) && o < |Final(fold, s, run).db.ops|
    ensures |Final(fold, s, run).db.ops[o].runs| == (if o < |s.db.ops| then |s.db.ops[o].runs| else 0) + Claims(run, o)
    decreases |run|
  {
    if run == [] {
    } else {
      StepOk(fold, s, run[0]);
      if o < |s.db.ops| {
        StepRuns(fold, s, run[0], o);
      }
      ExecutionsAreClaims(fold, Step(fold, s, run[0]), run[1..], o);
    }
  }

  /** What has been decided stays decided: no run leads back to waiting for approval, and the
      decision rows of an operation are never changed. */
  lemma DecisionsAreFinal(fold: string -> string, s: System, run: seq<Action>, o: nat)
    requires Reachable(fold, s) && Allowed(fold, s, run) && o < |s.db.ops|
    ensures o < |Final(fold, s, run).db.ops|
    ensures var op, op' := s.db.ops[o], Final(fold, s, run).db.ops[o];
      && (op.state != WaitingApproval ==> op'.state != WaitingApproval)
      && (op.decisions != [] ==> op'.decisions == op.decisions)
      && op'.requester == op.requester
  {
    ReachableOk(fold, s);
    EveryRunOk(fold, s, run);
    assert OpOk(fold, s.db.ops[o]) && OpOk(fold, Final(fold, s, run).db.ops[o]);
  }

  // ---------------------------------------------------------------- terminal states

  /** Over any run a succeeded, rejected or canceled operation keeps its whole row (its bulk
      item aside), an ended execution keeps its row, and a failed operation leaves that state
      only by being put back into the queue. */
  lemma TerminalIsFinal(fold: string -> string, s: System, run: seq<Action>, o: nat)
    requires Reachable(fold, s) && Allowed(fold, s, run) && o < |s.db.ops|
    ensures o < |Final(fold, s, run).db.ops|
    ensures var op, op' := s.db.ops[o], Final(fold, s, run).db.ops[o];
      && (op.state in {Succeeded, Rejected, Canceled} ==> op'.(item := op.item) == op)
      && (op.state == Failed && op'.state != Failed ==> Requeued in Events(fold, s, run, o))
      && (forall k :: 0 <= k < |op.runs| && Terminal(op.runs[k].state) ==> k < |op'.runs| && op'.runs[k] == op.runs[k])
  {
    ReachableOk(fold, s);
    EveryRunOk(fold, s, run);
    TrailIsHistory(fold, s, run, o);
  }

  /** Of all steps exactly a retry takes an operation out of FAILED: its own, or a bulk retry of its job. */
  lemma FailedLeftExactlyByRetry(fold: string -> string, s: System, a: Action, o: nat)
    requires Reachable(fold, s) && Enabled(s, a) && o < |s.db.ops| && s.db.ops[o].state == Failed
    ensures o < |Step(fold, s, a).db.ops|
    ensures Step(fold, s, a).db.ops[o].state != Failed <==> EventOf(fold, s, a, o) == Some(Requeued)
    ensures Step(fold, s, a).db.ops[o].state != Failed ==>
      a == ApiRetry(o) || (a.ApiRetryJob? && a.j < |s.db.jobs| && o in s.db.jobs[a.j])
  {
    ReachableOk(fold, s);
    StepOk(fold, s, a);
    StepFollowsEvent(fold, s, a, o);
    assert Evolves(s.db.ops[o], Step(fold, s, a).db.ops[o]);
    if EventOf(fold, s, a, o) == Some(Requeued) {
      RequeuedIsQueued(fold, s, a, o);
    }
  }

  lemma RequeuedIsQueued(fold: string -> string, s: System, a: Action, o: nat)
    requires Enabled(s, a) && o < |s.db.ops| && JobsDistinct(s.db) && EventOf(fold, s, a, o) == Some(Requeued)
    ensures a == ApiRetry(o) || (a.ApiRetryJob? && a.j < |s.db.jobs| && o in s.db.jobs[a.j])
    ensures o < |Step(fold, s, a).db.ops| && Step(fold, s, a).db.ops[o].state == Queued
  {
    if a.ApiRetryJob? {
      assert Distinct(s.db.jobs[a.j]);
      RetryItemsAt(s.db, s.db.jobs[a.j], o);
    }
  }

  // ---------------------------------------------------------------- plans and results

  /** Stale plans never succeed: a successful execution found the table at the snapshot it was
      planned for, and its result passed verification. It is the last execution of its
      operation, so an operation succeeds at most once. */
  lemma SucceededOnThePlannedSnapshot(fold: string -> string, init: System, run: seq<Action>, o: nat, k: nat)
    requires Reaches(fold, init, run) && HasRun(Final(fold, init, run).db, o, k)
    requires Final(fold, init, run).db.ops[o].runs[k].state == Succeeded
    ensures var op := Final(fold, init, run).db.ops[o];
      var e := op.runs[k];
      && (e.planned.Some? ==> e.before == e.planned)
      && e.result.Some? && Verified(op.command, op.target, e.result.value.before, e.result.value.after)
      && e.before == e.result.value.before.snapshot && e.after == e.result.value.after.snapshot && e.after.Some?
      && k == |op.runs| - 1 && op.state == Succeeded
  {
    ReachedOk(fold, init, run);
    assert OpOk(fold, Final(fold, init, run).db.ops[o]);
    assert RunOk(Final(fold, init, run).db.ops[o], k);
    var op := Final(fold, init, run).db.ops[o];
    AcceptableExactly(op.command, op.target, op.runs[k].result.value);
  }

  /** The step that makes an execution successful records the snapshot it left as the table's
      current one, and frees the table. */
  lemma SuccessIsRecorded(fold: string -> string, s: System, w: WorkerId)
    requires Reachable(fold, s) && Enabled(s, WorkerSucceed(w))
    ensures var c, s' := Head(s, w), Step(fold, s, WorkerSucceed(w));
      && HasRun(s.db, c.op, c.run) && HasRun(s'.db, c.op, c.run)
      && var op, op' := s.db.ops[c.op], s'.db.ops[c.op];
      && op'.state == Succeeded && op'.runs[c.run].state == Succeeded && op'.version == op.version + 1
      && op.table in s'.db.tables && s'.db.tables[op.table].current == op'.runs[c.run].after
      && op.table in s.db.locks && op.table !in s'.db.locks
  {
    ReachableOk(fold, s);
    HeadHeld(fold, s, w);
    var c := Head(s, w);
    assert OpOk(fold, s.db.ops[c.op]);
    assert RunOk(s.db.ops[c.op], c.run);
  }

  /** A stale plan never runs either: a job that a worker waits for gets to its procedure exactly when it finds the
      table at the snapshot the operation is planned for, wherever the worker's claim came from. */
  lemma JobRunsOnPlanExactly(fold: string -> string, s: System, w: WorkerId, before: TableDoc, after: TableDoc)
    requires Reachable(fold, s) && Holds(s, w)
    requires Head(s, w).phase.Awaiting? && Head(s, w).phase.ext.LivyBatch? == s.workers[w].livy
    ensures Head(s, w).op < |s.db.ops|
    ensures var planned := s.db.ops[Head(s, w).op].planned;
      Enabled(s, WorkerReceive(w, before, after)) <==> planned.None? || before.snapshot == planned
  {
    ReachableOk(fold, s);
    HeadHeld(fold, s, w);
    assert OpOk(fold, s.db.ops[Head(s, w).op]);
  }

  /** Over any run an operation stands under the plan of its last retry in it, the table's current snapshot at that
      moment; without a retry the plan does not change. */
  lemma PlanChangesOnlyByRetry(fold: string -> string, s: System, run: seq<Action>, o: nat)
    requires Reachable(fold, s) && Allowed(fold, s, run) && o < |s.db.ops|
    ensures o < |Final(fold, s, run).db.ops|
    ensures var op, op' := s.db.ops[o], Final(fold, s, run).db.ops[o];
      && op'.planned == PlanBy(fold, s, run, o, op.planned)
      && (op'.planned != op.planned ==> Requeued in Events(fold, s, run, o) || Replanned in Events(fold, s, run, o))
  {
    ReachableOk(fold, s);
    EveryRunOk(fold, s, run);
    PlanIsHistory(fold, s, run, o);
    TrailIsHistory(fold, s, run, o);
    assert Evolves(s.db.ops[o], Final(fold, s, run).db.ops[o]);
  }

  /** The plan that was approved stays the plan throughout a run exactly when no retry in it meets a table that has
      moved on. */
  lemma ApprovedPlanKeptExactly(fold: string -> string, s: System, run: seq<Action>, o: nat)
    requires Reachable(fold, s) && Allowed(fold, s, run) && o < |s.db.ops|
    ensures PlanStays(fold, s, run, o, s.db.ops[o].planned) <==> NoRetryMeetsMovedTable(fold, s, run, o)
  {
    ReachableOk(fold, s);
    PlanStaysExactly(fold, s, run, o);
  }

  /** An execution claimed after some run, and looked at after any more, runs on the plan its operation had in the
      beginning exactly when the last retry before the claim, if any, met the table at that snapshot. */
  lemma ExecutionPlanExactly(
    fold: string -> string, s: System, before: seq<Action>, w: WorkerId, after: seq<Action>, o: nat)
    requires Reachable(fold, s) && o < |s.db.ops| && Allowed(fold, s, before)
    requires Enabled(Final(fold, s, before), WorkerClaim(w, o))
    requires Allowed(fold, Step(fold, Final(fold, s, before), WorkerClaim(w, o)), after)
    ensures var mid := Final(fold, s, before);
      var last := Final(fold, Step(fold, mid, WorkerClaim(w, o)), after);
      && o < |mid.db.ops| && HasRun(last.db, o, |mid.db.ops[o].runs|)
      && (last.db.ops[o].runs[|mid.db.ops[o].runs|].planned == s.db.ops[o].planned <==>
            PlanBy(fold, s, before, o, s.db.ops[o].planned) == s.db.ops[o].planned)
  {
    ReachableOk(fold, s);
    EveryRunOk(fold, s, before);
    PlanIsHistory(fold, s, before, o);
    ClaimedPlanIsFrozen(fold, Final(fold, s, before), w, after, o);
  }

  lemma ClaimedPlanIsFrozen(fold: string -> string, s: System, w: WorkerId, after: seq<Action>, o: nat)
    requires Inv(fold, s) && o < |s.db.ops| && Enabled(s, WorkerClaim(w, o))
    requires Allowed(fold, Step(fold, s, WorkerClaim(w, o)), after)
    ensures var last := Final(fold, Step(fold, s, WorkerClaim(w, o)), after);
      && HasRun(last.db, o, |s.db.ops[o].runs|)
      && last.db.ops[o].runs[|s.db.ops[o].runs|].planned == s.db.ops[o].planned
  {
    StepOk(fold, s, WorkerClaim(w, o));
    var mid := Step(fold, s, WorkerClaim(w, o));
    EveryRunOk(fold, mid, after);
    assert RunsGrow(mid.db.ops[o], Final(fold, mid, after).db.ops[o]);
  }

  /** A single retry keeps the plan exactly when the table is still where it was planned for. */
  lemma RetryKeepsPlanExactly(fold: string -> string, s: System, o: nat)
    requires Reachable(fold, s) && o < |s.db.ops| && Retry(s.db, o).Done?
    ensures var op' := Step(fold, s, ApiRetry(o)).db.ops[o];
      op'.planned == s.db.ops[o].planned <==> CurrentOf(s.db, s.db.ops[o].table) == s.db.ops[o].planned
  {
  }

  /** The same for every operation a bulk retry puts back into the queue, guarded or not, and even if it was queued
      already; it leaves the others as they are. */
  lemma BulkRetryKeepsPlanExactly(fold: string -> string, s: System, j: nat, o: nat)
    requires Reachable(fold, s) && j < |s.db.jobs| && o < |s.db.ops| && RetryJob(s.db, j).Done?
    ensures var db' := RetryJob(s.db, j).db;
      && |db'.ops| == |s.db.ops|
      && (BulkRequeues(s.db, s.db.jobs[j], o) ==>
            (db'.ops[o].planned == s.db.ops[o].planned <==>
               CurrentOf(s.db, s.db.ops[o].table) == s.db.ops[o].planned))
      && (!BulkRequeues(s.db, s.db.jobs[j], o) ==> db'.ops[o] == s.db.ops[o])
  {
    ReachableOk(fold, s);
    assert Distinct(s.db.jobs[j]);
    RetryItemsAt(s.db, s.db.jobs[j], o);
  }

  /** A retry then replaces the plan that was approved, and asks nobody: when the table has moved
      on since, a new snapshot is planned under the old decision. */
  lemma RetryReplacesApprovedPlan(fold: string -> string, s: System, o: nat, row: Table)
    requires Reachable(fold, s) && o < |s.db.ops| && s.db.ops[o].state == Failed && LockFree(s.db, o)
    requires row.current != s.db.ops[o].planned
    ensures var run := [TableSync(s.db.ops[o].table, row), ApiRetry(o)];
      && Allowed(fold, s, run) && o < |Final(fold, s, run).db.ops|
      && var op, op' := s.db.ops[o], Final(fold, s, run).db.ops[o];
         op'.state == Queued && op'.planned == row.current != op.planned && op'.decisions == op.decisions
  {
    ReachableOk(fold, s);
    var sync, retry := TableSync(s.db.ops[o].table, row), ApiRetry(o);
    assert OpOk(fold, s.db.ops[o]);
    var s1 := Step(fold, s, sync);
    RunPrepended(fold, s1, retry, []);
    RunPrepended(fold, s, sync, [retry]);
    assert [retry] + [] == [retry];
    assert [sync] + [retry] == [sync, retry];
  }

  // ---------------------------------------------------------------- who gets through

  /** The lock rows tell the truth about the operations, so that the tests made against them admit
      exactly what they are meant to admit. */
  lemma LockFreeExactly(fold: string -> string, s: System, o: nat)
    requires Reachable(fold, s) && o < |s.db.ops|
    ensures LockFree(s.db, o) <==> TableIdle(s.db, o)
  {
    ReachableOk(fold, s);
  }

  /** A decision takes effect exactly when it is the first, by somebody else, one of the two words,
      and, to approve, no other operation is active on the table. */
  lemma DecisionAdmittedExactly(fold: string -> string, s: System, o: nat, approver: string, word: string)
    requires Reachable(fold, s) && o < |s.db.ops|
    ensures Decide(s.db, fold, o, approver, word).Done? <==>
      && s.db.ops[o].decisions == [] && s.db.ops[o].state != Canceled
      && fold(s.db.ops[o].requester) != fold(approver)
      && (Spells(word, "REJECTED", "rejected") || (Spells(word, "APPROVED", "approved") && TableIdle(s.db, o)))
  {
    ReachableOk(fold, s);
    LockFreeExactly(fold, s, o);
    DecisionWords(word);
    assert OpOk(fold, s.db.ops[o]);
  }

  /** A retry takes effect exactly when the last execution failed, nothing has become of the
      operation since, and no other operation is active on the table. */
  lemma RetryAdmittedExactly(fold: string -> string, s: System, o: nat)
    requires Reachable(fold, s) && o < |s.db.ops|
    ensures var op := s.db.ops[o];
      Retry(s.db, o).Done? <==>
        && op.runs != [] && op.runs[|op.runs| - 1].state == Failed && !Active(op.state) && op.state != Canceled
        && TableIdle(s.db, o)
  {
    ReachableOk(fold, s);
    LockFreeExactly(fold, s, o);
    var op := s.db.ops[o];
    assert OpOk(fold, op);
    if op.runs != [] {
      assert RunOk(op, |op.runs| - 1);
    }
  }

  /** A queued operation is never held up by a lock: only its engine and its catalog decide
      whether a worker may claim it. */
  lemma ClaimableExactly(fold: string -> string, s: System, hadoopScope: bool, o: nat)
    requires Reachable(fold, s) && o < |s.db.ops|
    ensures var op := s.db.ops[o];
      Claimable(s.db, hadoopScope, o) <==>
        && op.state == Queued && op.engine in {Auto, Spark}
        && op.table in s.db.tables && s.db.tables[op.table].hadoop == hadoopScope
  {
    ReachableOk(fold, s);
  }

  // ---------------------------------------------------------------- attempts and versions

  /** Executions are numbered 1, 2, ... without gaps and are the claims of the run, and there are never more of
      them than approvals and retries in it: each of those leads to a claim, to a cancellation while queued, or is
      the one that has the operation queued now. */
  lemma AttemptLedger(fold: string -> string, init: System, run: seq<Action>, o: nat)
    requires Reaches(fold, init, run) && o < |Final(fold, init, run).db.ops|
    ensures var op, events := Final(fold, init, run).db.ops[o], Events(fold, init, run, o);
      && (forall k :: 0 <= k < |op.runs| ==> op.runs[k].attempt == k + 1)
      && |op.runs| == Claims(run, o)
      && Claims(run, o) + events[Dequeued] + Count(op.state == Queued) == events[Approved] + events[Requeued]
      && events[Approved] + events[Refusal] <= 1
  {
    ReachedOk(fold, init, run);
    TrailIsHistory(fold, init, run, o);
    ExecutionsAreClaims(fold, init, run, o);
    var op := Final(fold, init, run).db.ops[o];
    assert OpOk(fold, op);
    forall k | 0 <= k < |op.runs|
      ensures op.runs[k].attempt == k + 1
    {
      assert RunOk(op, k);
    }
  }

  /** The version is one more than the number of steps of the run that decided, retried, canceled or ended the
      operation. */
  lemma VersionCounts(fold: string -> string, init: System, run: seq<Action>, o: nat)
    requires Reaches(fold, init, run) && o < |Final(fold, init, run).db.ops|
    ensures Final(fold, init, run).db.ops[o].version == 1 + |Events(fold, init, run, o)|
  {
    ReachedOk(fold, init, run);
    TrailIsHistory(fold, init, run, o);
    assert OpOk(fold, Final(fold, init, run).db.ops[o]);
  }

  /** Optimistic cancellation: a cancel that names the version read in state `s` takes effect after
      any further run exactly if that run neither decided nor retried nor canceled nor ended the operation, and it
      has not ended otherwise than canceled. Then at most its execution has moved on. */
  lemma CancelSeesWhatWasRead(fold: string -> string, s: System, run: seq<Action>, o: nat)
    requires Reachable(fold, s) && Allowed(fold, s, run) && o < |s.db.ops|
    ensures o < |Final(fold, s, run).db.ops|
    ensures var op, op' := s.db.ops[o], Final(fold, s, run).db.ops[o];
      && (Cancel(Final(fold, s, run).db, o, Some(op.version)).Done? <==>
            Events(fold, s, run, o) == multiset{} && op'.state !in {Succeeded, Failed, Rejected})
      && (Events(fold, s, run, o) == multiset{} ==> SameEpoch(op, op'))
  {
    ReachableOk(fold, s);
    EveryRunOk(fold, s, run);
    TrailIsHistory(fold, s, run, o);
    VersionsApart(fold, s.db.ops[o], Final(fold, s, run).db.ops[o], Events(fold, s, run, o));
  }

  /** The version stands still exactly if nothing happened. */
  lemma VersionsApart(fold: string -> string, op: Operation, op': Operation, events: multiset<Event>)
    requires OpOk(fold, op) && OpOk(fold, op') && op'.trail == op.trail + events
    ensures op'.version == op.version <==> events == multiset{}
  {
    assert |op'.trail| == |op.trail| + |events|;
  }

  // ---------------------------------------------------------------- exact conditions

  /** An operation whose result is recorded and not yet marked is VERIFYING, or asked to stop, and
      its execution is live and the worker's own. */
  lemma ConfirmedIsOpen(fold: string -> string, s: System, w: WorkerId)
    requires Reachable(fold, s) && Holds(s, w) && Head(s, w).phase.Confirmed?
    ensures var c := Head(s, w);
      && Held(s.db, c.op, c.run) && s.db.ops[c.op].runs[c.run].worker == w
      && s.db.ops[c.op].state in {Verifying, CancelRequested}
  {
    ReachableOk(fold, s);
    HeadHeld(fold, s, w);
    assert OpOk(fold, s.db.ops[Head(s, w).op]);
  }

  /** Recovery by a worker that runs nothing through Livy fails the execution of another. */
  lemma OthersFailed(fold: string -> string, s: System, o: nat, k: nat, w: WorkerId, hadoopScope: bool)
    requires Reachable(fold, s) && Held(s.db, o, k) && s.db.ops[o].runs[k].worker != w
    ensures var db := Start(s, w, false, hadoopScope).db;
      |db.ops| == |s.db.ops| && db.ops[o] == EndedRun(s.db.ops[o], k, Failed)
  {
    ReachableOk(fold, s);
    RecoveredRow(fold, s.db, w, false, o);
  }

  /** The last step of a worker that has recorded an acceptable result asks nothing else. */
  lemma SucceedsRegardless(fold: string -> string, s: System, v: WorkerId)
    requires Holds(s, v) && Head(s, v).phase.Confirmed? && HasRun(s.db, Head(s, v).op, Head(s, v).run)
    requires var op := s.db.ops[Head(s, v).op]; Acceptable(op.command, op.target, Head(s, v).phase.r)
    ensures Enabled(s, WorkerSucceed(v))
    ensures var o, late := Head(s, v).op, Step(fold, s, WorkerSucceed(v)).db;
      o < |late.ops| && late.ops[o].state == Succeeded && late.ops[o].trail[Requeued] == s.db.ops[o].trail[Requeued]
  {
  }

  /** What goes wrong otherwise: the owner then turns the FAILED operation into a SUCCEEDED
      one that nobody retried. */
  lemma RecoveryOverBusyOwner(fold: string -> string, s: System, v: WorkerId, w: WorkerId, hadoopScope: bool)
    requires Reachable(fold, s) && Enabled(s, WorkerSucceed(v)) && w !in s.workers
    ensures var o := Head(s, v).op;
      var recovered := Start(s, w, false, hadoopScope);
      && o < |s.db.ops| && o < |recovered.db.ops| && recovered.db.ops[o].state == Failed
      && Enabled(recovered, WorkerSucceed(v))
      && var late := Step(fold, recovered, WorkerSucceed(v)).db;
         o < |late.ops| && late.ops[o].state == Succeeded && late.ops[o].trail[Requeued] == s.db.ops[o].trail[Requeued]
  {
    ConfirmedIsOpen(fold, s, v);
    OthersFailed(fold, s, Head(s, v).op, Head(s, v).run, w, hadoopScope);
    assert Head(Start(s, w, false, hadoopScope), v) == Head(s, v);
    SucceedsRegardless(fold, Start(s, w, false, hadoopScope), v);
  }

  /** A failed operation of a job is retried by itself and claimed, which leaves its item FAILED. */
  lemma RetriedAndClaimed(fold: string -> string, db: Db, o: nat, hadoopScope: bool, w: WorkerId)
    requires DbInv(fold, db) && o < |db.ops| && db.ops[o].state == Failed && db.ops[o].item == Some(Failed)
    requires db.ops[o].engine in {Auto, Spark} && db.tables[db.ops[o].table].hadoop == hadoopScope && LockFree(db, o)
    ensures var retried := After(db, Retry(db, o));
      && Claimable(retried, hadoopScope, o)
      && var claimed, n := ClaimRow(retried, w, o), |db.ops[o].runs|;
         && DbInv(fold, claimed) && claimed.jobs == db.jobs && claimed.tables == db.tables
         && o < |claimed.ops| && claimed.ops[o].item == Some(Failed) && claimed.ops[o].state == Running
         && claimed.ops[o].table == db.ops[o].table && claimed.ops[o].engine == db.ops[o].engine
         && LiveRun(claimed, o, n) && |claimed.ops[o].runs| == n + 1
  {
    RetryOk(fold, db, o);
    assert OpOk(fold, db.ops[o]);
    ClaimRowOk(fold, After(db, Retry(db, o)), w, hadoopScope, o);
  }

  /** Throughout a bulk retry the table of a lagging operation stays locked by it. */
  lemma {:induction false} RequeuedLockKept(fold: string -> string, db: Db, items: seq<nat>, o: nat)
    requires DbInv(fold, db) && o < |db.ops| && db.ops[o].item == Some(Failed) && Live(db.ops[o].state)
    ensures var db' := RetryItems(db, items);
      && |db'.ops| == |db.ops| && db'.tables == db.tables
      && db'.ops[o].table == db.ops[o].table && db'.ops[o].engine == db.ops[o].engine
      && db.ops[o].table in db'.locks && db'.locks[db.ops[o].table] == o
  {
    if items != [] {
      RequeuedLockKept(fold, db, items[..|items| - 1], o);
    }
  }

  /** A bulk retry over an operation whose failed item lags behind its live execution: the operation is queued and
      holds its lock, and the execution is still live. */
  lemma RequeuedUnderExecution(fold: string -> string, db: Db, j: nat, o: nat, n: nat)
    requires DbInv(fold, db) && j < |db.jobs| && o in db.jobs[j] && o < |db.ops|
    requires db.ops[o].item == Some(Failed) && db.ops[o].state == Running && LiveRun(db, o, n) &&
      |db.ops[o].runs| == n + 1
    ensures var db' := After(db, RetryJob(db, j));
      && o < |db'.ops| && db'.ops[o].state == Queued && LiveRun(db', o, n) && |db'.ops[o].runs| == n + 1
      && db'.tables == db.tables && db'.ops[o].table == db.ops[o].table && db'.ops[o].engine == db.ops[o].engine
      && db.ops[o].table in db'.locks && db'.locks[db.ops[o].table] == o
  {
    LaggingItemRequeued(fold, db, db.jobs[j], o);
    RequeuedLockKept(fold, db, db.jobs[j], o);
  }

  lemma SecondClaim(db: Db, o: nat, n: nat, w: WorkerId)
    requires LiveRun(db, o, n) && |db.ops[o].runs| == n + 1
    ensures LiveRun(ClaimRow(db, w, o), o, n) && LiveRun(ClaimRow(db, w, o), o, n + 1)
  {
  }

  lemma QueuedCancelUnlocks(db: Db, o: nat, n: nat)
    requires LiveRun(db, o, n) && db.ops[o].state == Queued
    requires db.ops[o].table in db.locks && db.locks[db.ops[o].table] == o
    ensures Cancel(db, o, None).Done?
    ensures LiveRun(After(db, Cancel(db, o, None)), o, n)
    ensures db.ops[o].table !in After(db, Cancel(db, o, None)).locks
  {
  }

  /** Without its guard, a bulk retry breaks mutual exclusion. A failed operation of a job is
      retried by itself and claimed, which leaves its item FAILED; the bulk retry then puts it
      back into the queue under its live execution. From there a second claim gives the table
      two live executions, and a cancellation leaves a live execution on an unlocked table. */
  lemma UnguardedBulkRetry(
    fold: string -> string, db: Db, j: nat, o: nat, hadoopScope: bool, first: WorkerId, second: WorkerId)
    requires DbInv(fold, db) && j < |db.jobs| && o in db.jobs[j] && o < |db.ops|
    requires db.ops[o].state == Failed && db.ops[o].item == Some(Failed) && db.ops[o].engine in {Auto, Spark}
    requires db.tables[db.ops[o].table].hadoop == hadoopScope && LockFree(db, o)
    ensures var retried := After(db, Retry(db, o));
      var claimed := ClaimRow(retried, first, o);
      var requeued := After(claimed, RetryJob(claimed, j));
      var n := |db.ops[o].runs|;
      && Claimable(retried, hadoopScope, o)
      && Claimable(requeued, hadoopScope, o)
      && LiveRun(ClaimRow(requeued, second, o), o, n) && LiveRun(ClaimRow(requeued, second, o), o, n + 1)
      && Cancel(requeued, o, None).Done?
      && LiveRun(After(requeued, Cancel(requeued, o, None)), o, n)
      && db.ops[o].table !in After(requeued, Cancel(requeued, o, None)).locks
  {
    RetriedAndClaimed(fold, db, o, hadoopScope, first);
    var claimed := ClaimRow(After(db, Retry(db, o)), first, o);
    var n := |db.ops[o].runs|;
    RequeuedUnderExecution(fold, claimed, j, o, n);
    SecondClaim(After(claimed, RetryJob(claimed, j)), o, n, second);
    QueuedCancelUnlocks(After(claimed, RetryJob(claimed, j)), o, n);
  }

  lemma CreatedByBulk(db: Db, t: TableId, requester: string)
    requires db.ops == [] && db.jobs == [] && t in db.tables && db.tables[t].current.Some?
    ensures CreateBulk(db, [t], Spark, ComputeStats, None, requester) ==
      Done(db.(ops := [NewOperation(t, Spark, ComputeStats, None, requester, Some(0), db.tables[t].current)],
        jobs := [[0]]))
  {
    var r := CreateBulk(db, [t], Spark, ComputeStats, None, requester);
    assert r.Done?;
    assert r.db.jobs[0] == [0];
    assert r.db.jobs == [[0]];
  }

  /** A worker that starts while nothing has run yet changes no row. */
  lemma NothingToRecover(s: System, w: WorkerId)
    requires |s.db.ops| == 1 && s.db.ops[0].runs == []
    ensures Start(s, w, true, false) == s.(workers := s.workers[w := Worker(true, false, [])])
  {
    assert RunsOf(s.db, 0) == 0;
    assert RecoverRuns(RecoverOps(s.db, w, true, 0), w, true, 0, 0) == s.db;
    assert RecoverOps(s.db, w, true, 1) == s.db;
    assert ResumableRuns(s.db, w, true, 0, 0) == [] && ResumableOps(s.db, w, true, 0) == [];
    assert ResumableOps(s.db, w, true, 1) == [];
  }

  /** A lone approved operation, claimed and failed by a fresh worker. */
  lemma ClaimedAndFailed(fold: string -> string, s: System, w: WorkerId)
    requires |s.db.ops| == 1 && Claimable(s.db, false, 0) && s.db.ops[0].runs == [] && s.db.ops[0].item.Some?
    requires s.db.jobs == [[0]] && w in s.workers && s.workers[w] == Worker(true, false, [])
    ensures var run := [WorkerClaim(w, 0), WorkerFail(w)];
      && Allowed(fold, s, run)
      && var db := Final(fold, s, run).db;
         && |db.ops| == 1 && db.jobs == [[0]] && db.ops[0].state == Failed && db.ops[0].item == Some(Failed)
         && db.ops[0].engine == s.db.ops[0].engine && db.ops[0].table == s.db.ops[0].table && LockFree(db, 0)
         && db.tables == s.db.tables
  {
    var s1 := Step(fold, s, WorkerClaim(w, 0));
    assert Holds(s1, w) && Head(s1, w) == Operations.Claim(0, 0, s.db.ops[0].planned, Fresh);
    var s2 := Step(fold, s1, WorkerFail(w));
    RunPrepended(fold, s1, WorkerFail(w), []);
    RunPrepended(fold, s, WorkerClaim(w, 0), [WorkerFail(w)]);
    assert [WorkerFail(w)] + [] == [WorkerFail(w)];
    assert [WorkerClaim(w, 0)] + [WorkerFail(w)] == [WorkerClaim(w, 0), WorkerFail(w)];
  }

  lemma LoneOperationApproved(db: Db, fold: string -> string, approver: string)
    requires |db.ops| == 1 && db.ops[0].state == WaitingApproval && db.locks == map[]
    requires fold(db.ops[0].requester) != fold(approver)
    ensures Decide(db, fold, 0, approver, "APPROVED") == Done(PutLocked(db, 0, Decided(db.ops[0], approver, true)))
  {
    assert Upper("APPROVED") == "APPROVED";
  }

  /** What `UnguardedBulkRetry` starts from: the only operation of a job, failed. */
  predicate FailedAlone(db: Db, t: TableId) {
    && |db.ops| == 1 && db.jobs == [[0]] && db.ops[0].state == Failed && db.ops[0].item == Some(Failed)
    && db.ops[0].engine == Spark && db.ops[0].table == t && LockFree(db, 0)
    && t in db.tables && !db.tables[t].hadoop
  }

  /** The only operation of the only job, approved; no worker is there yet. */
  predicate ApprovedAlone(s: System, t: TableId) {
    && |s.db.ops| == 1 && s.db.jobs == [[0]] && s.workers == map[] && Claimable(s.db, false, 0)
    && s.db.ops[0].runs == [] && s.db.ops[0].item.Some? && s.db.ops[0].planned.Some?
    && s.db.ops[0].engine == Spark && s.db.ops[0].command == ComputeStats && s.db.ops[0].table == t
  }

  /** A bulk request for one table, approved. */
  lemma ApprovedReachable(fold: string -> string, init: System, t: TableId, requester: string, approver: string)
    returns (run: seq<Action>)
    requires Init(init) && t in init.db.tables && init.db.tables[t].current.Some? && !init.db.tables[t].hadoop
    requires fold(requester) != fold(approver)
    ensures Reaches(fold, init, run) && ApprovedAlone(Final(fold, init, run), t)
  {
    var create := ApiCreateBulk([t], Spark, ComputeStats, None, requester);
    var decide := ApiDecide(0, approver, "APPROVED");
    var s1 := Step(fold, init, create);
    CreatedByBulk(init.db, t, requester);
    LoneOperationApproved(s1.db, fold, approver);
    RunPrepended(fold, s1, decide, []);
    RunPrepended(fold, init, create, [decide] + []);
    run := [create] + ([decide] + []);
  }

  /** An approved operation, and then a worker that starts, claims it and fails. */
  lemma ApprovedThenFailed(fold: string -> string, s: System, t: TableId, w: WorkerId)
    requires ApprovedAlone(s, t)
    ensures var run := [WorkerStart(w, true, false)] + [WorkerClaim(w, 0), WorkerFail(w)];
      Allowed(fold, s, run) && FailedAlone(Final(fold, s, run).db, t)
  {
    var start := WorkerStart(w, true, false);
    NothingToRecover(s, w);
    ClaimedAndFailed(fold, Step(fold, s, start), w);
    RunPrepended(fold, s, start, [WorkerClaim(w, 0), WorkerFail(w)]);
  }

  /** The state `UnguardedBulkRetry` starts from is reachable: a bulk request for one table,
      approved, claimed and failed. */
  lemma FailedBulkItemReachable(
    fold: string -> string, init: System, t: TableId, requester: string, approver: string, w: WorkerId)
    requires Init(init) && t in init.db.tables && init.db.tables[t].current.Some? && !init.db.tables[t].hadoop
    requires fold(requester) != fold(approver)
    ensures exists run :: Reaches(fold, init, run) && FailedAlone(Final(fold, init, run).db, t)
  {
    var approve := ApprovedReachable(fold, init, t, requester, approver);
    var rest := [WorkerStart(w, true, false)] + [WorkerClaim(w, 0), WorkerFail(w)];
    ApprovedThenFailed(fold, Final(fold, init, approve), t, w);
    RunsJoined(fold, init, approve, rest);
    assert Reaches(fold, init, approve + rest);
  }

  /** An accepted cancellation need not cancel: once the worker has recorded an acceptable
      result, the operation answers CANCEL_REQUESTED and still ends as SUCCEEDED. */
  lemma CancellationCanBeOvertaken(fold: string -> string, s: System, w: WorkerId)
    requires Reachable(fold, s) && Enabled(s, WorkerSucceed(w))
    ensures var o := Head(s, w).op;
      var asked := Step(fold, s, ApiCancel(o, None));
      && o < |s.db.ops| && o < |asked.db.ops|
      && asked.db.ops[o].state == CancelRequested && asked.db.ops[o].version == s.db.ops[o].version + 1
      && Enabled(asked, WorkerSucceed(w))
      && var late := Step(fold, asked, WorkerSucceed(w)).db;
         o < |late.ops| && late.ops[o].state == Succeeded
  {
    ConfirmedIsOpen(fold, s, w);
  }
}
