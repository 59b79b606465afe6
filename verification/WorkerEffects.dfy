/** What each step of a worker leaves behind, field by field, in every reachable state; when a result makes an operation
    succeed; which executions a starting worker takes over; and that a recorded batch survives every crash. */
module WorkerEffects {
  import opened Common
  import opened Operations
  import opened Requirements
  import opened OperationInvariant
  import opened DbInvariant
  import opened WorkerSteps
  import opened Protocol
  import opened History
  import opened Guarantees
  import opened Limits
  import opened Effects

  // ---------------------------------------------------------------- claim, submission and result

  /** A claim puts the operation to work under a new execution, for the snapshot the operation is planned for; the
      worker then holds that execution and nothing else, and has submitted nothing. */
  lemma ClaimEffect(fold: string -> string, s: System, w: WorkerId, o: nat)
    requires Reachable(fold, s) && Enabled(s, WorkerClaim(w, o))
    ensures var op, s', n := s.db.ops[o], Step(fold, s, WorkerClaim(w, o)), |s.db.ops[o].runs|;
      && Becomes(s.db, s'.db, o, op.(state := Running, runs := op.runs + [
           Execution(n + 1, Running, w, None, op.planned, None, None, None)]))
      && s'.db.locks == s.db.locks && op.table in s.db.locks && s.db.locks[op.table] == o
      && w in s'.workers && s'.workers[w].queue == [Operations.Claim(o, n, op.planned, Fresh)]
  {
    ReachableOk(fold, s);
    ClaimRowOk(fold, s.db, w, s.workers[w].hadoopScope, o);
  }

  /** The worker's claim is on this execution. */
  predicate Has(s: System, w: WorkerId, o: nat, k: nat) {
    Holds(s, w) && Head(s, w).op == o && Head(s, w).run == k && HasRun(s.db, o, k)
  }

  /** Execution `k` of operation `o` is now `run`, and nothing else has changed in the database. */
  predicate RunBecomes(db: Db, db': Db, o: nat, k: nat, run: Execution) {
    HasRun(db, o, k) && Becomes(db, db', o, db.ops[o].(runs := db.ops[o].runs[k := run])) && db'.locks == db.locks
  }

  /** The id of the batch that was posted is recorded, and the worker waits for that batch, which was submitted with the
      planned snapshot of the execution. In the runner's mode it is the operation's own id. */
  lemma RecordEffect(fold: string -> string, s: System, w: WorkerId)
    requires Reachable(fold, s) && Enabled(s, WorkerRecord(w))
    ensures var c, s' := Head(s, w), Step(fold, s, WorkerRecord(w));
      && Has(s, w, c.op, c.run) && Has(s', w, c.op, c.run)
      && var run, ext := s.db.ops[c.op].runs[c.run], s'.db.ops[c.op].runs[c.run].external;
      && RunBecomes(s.db, s'.db, c.op, c.run, run.(external := ext))
      && ext.Some? && Head(s', w).phase == Awaiting(ext.value)
      && if s.workers[w].livy
         then c.phase.Posted? && ext == Some(LivyBatch(c.phase.batch)) && c.phase.batch < |s.batches| &&
           s.batches[c.phase.batch] == run.planned
         else ext == Some(RunnerRequest(c.op))
  {
    ReachableOk(fold, s);
    HeadHeld(fold, s, w);
  }

  /** The result is recorded in the execution, with the snapshots it reports, and the operation is being verified. */
  lemma VerifyEffect(fold: string -> string, s: System, w: WorkerId)
    requires Reachable(fold, s) && Enabled(s, WorkerVerify(w))
    ensures var c, s' := Head(s, w), Step(fold, s, WorkerVerify(w));
      && Has(s, w, c.op, c.run) && Has(s', w, c.op, c.run)
      && var op, run, r := s.db.ops[c.op], s.db.ops[c.op].runs[c.run], c.phase.r;
      && Becomes(s.db, s'.db, c.op, op.(state := Verifying, runs := op.runs[c.run := run.(
           state := Verifying, before := r.before.snapshot, after := r.after.snapshot, result := Some(r))]))
      && s'.db.locks == s.db.locks && Head(s', w).phase == Confirmed(r)
  {
    ReachableOk(fold, s);
    HeadHeld(fold, s, w);
  }

  // ---------------------------------------------------------------- the three ways a claim ends

  /** Execution `k` of operation `o`, the operation and its item have ended in the state, the table is free, and no
      other row but that of the table has changed. */
  predicate EndedAs(db: Db, db': Db, o: nat, k: nat, s: State) {
    && HasRun(db, o, k) && HasRun(db', o, k)
    && db.ops[o].table in db.locks && db.locks[db.ops[o].table] == o && FreesTable(db, db', o)
    && var op := db.ops[o];
       Becomes(db.(tables := db'.tables), db', o, op.(
         state := s, version := op.version + 1, item := ItemIn(op, s), runs := op.runs[k := op.runs[k].(state := s)],
         trail := db'.ops[o].trail))
  }

  lemma EndedInto(fold: string -> string, db: Db, o: nat, k: nat, s: State)
    requires DbInv(fold, db) && Held(db, o, k)
    ensures EndedAs(db, PutReleased(db, o, EndedRun(db.ops[o], k, s)), o, k, s)
  {
    assert OpOk(fold, db.ops[o]);
    OneLockReleased(db, o);
  }

  /** The worker's head claim is dropped, and nothing else changes in any worker's memory. */
  predicate HeadDropped(s: System, s': System, w: WorkerId) {
    && Holds(s, w) && s'.batches == s.batches
    && s'.workers == s.workers[w := s.workers[w].(queue := s.workers[w].queue[1..])]
  }

  /** A failure, whatever it is and wherever it comes from. */
  lemma FailEffect(fold: string -> string, s: System, w: WorkerId)
    requires Reachable(fold, s) && Enabled(s, WorkerFail(w))
    ensures var c, s' := Head(s, w), Step(fold, s, WorkerFail(w));
      EndedAs(s.db, s'.db, c.op, c.run, Failed) && s'.db.tables == s.db.tables && HeadDropped(s, s', w)
  {
    ReachableOk(fold, s);
    HeadHeld(fold, s, w);
    EndedInto(fold, s.db, Head(s, w).op, Head(s, w).run, Failed);
  }

  /** A worker that stops for a cancellation. */
  lemma StopEffect(fold: string -> string, s: System, w: WorkerId)
    requires Reachable(fold, s) && Enabled(s, WorkerStop(w))
    ensures var c, s' := Head(s, w), Step(fold, s, WorkerStop(w));
      EndedAs(s.db, s'.db, c.op, c.run, Canceled) && s'.db.tables == s.db.tables && HeadDropped(s, s', w)
  {
    ReachableOk(fold, s);
    HeadHeld(fold, s, w);
    EndedInto(fold, s.db, Head(s, w).op, Head(s, w).run, Canceled);
  }

  /** A success: the table row has the snapshot that the job left, and is otherwise what it was. */
  lemma SuccessEffect(fold: string -> string, s: System, w: WorkerId)
    requires Reachable(fold, s) && Enabled(s, WorkerSucceed(w))
    ensures var c, s' := Head(s, w), Step(fold, s, WorkerSucceed(w));
      && EndedAs(s.db, s'.db, c.op, c.run, Succeeded) && HeadDropped(s, s', w)
      && var t := s.db.ops[c.op].table;
         t in s.db.tables && s'.db.tables == s.db.tables[t := Table(c.phase.r.after.snapshot, s.db.tables[t].hadoop)]
  {
    ReachableOk(fold, s);
    HeadHeld(fold, s, w);
    EndedInto(fold, s.db, Head(s, w).op, Head(s, w).run, Succeeded);
  }

  /** A worker that has recorded a result makes the operation succeed exactly if the table is, after it, as the
      procedure has to leave it; otherwise the step raises and changes nothing. */
  lemma SucceedsExactly(fold: string -> string, s: System, w: WorkerId)
    requires Reachable(fold, s) && Holds(s, w) && Head(s, w).phase.Confirmed?
    ensures var c := Head(s, w);
      && Has(s, w, c.op, c.run)
      && var op, r, out := s.db.ops[c.op], c.phase.r, MarkSucceeded(s.db, c.op, c.run, c.phase.r);
      && (Enabled(s, WorkerSucceed(w)) <==> Verified(op.command, op.target, r.before, r.after))
      && (!Verified(op.command, op.target, r.before, r.after) ==> out == Refused(ResultRejected))
  {
    ConfirmedIsOpen(fold, s, w);
    var c := Head(s, w);
    AcceptableExactly(s.db.ops[c.op].command, s.db.ops[c.op].target, c.phase.r);
  }

  /** The worker has noticed a cancellation, and is about to stop. */
  predicate Noticed(s: System, s': System, w: WorkerId) {
    && Holds(s, w) && s'.db == s.db && Holds(s', w) && Head(s', w) == Head(s, w).(phase := Stopping)
    && Enabled(s', WorkerStop(w))
  }

  lemma NoticeEffect(fold: string -> string, s: System, w: WorkerId)
    requires Enabled(s, WorkerNotice(w))
    ensures Noticed(s, Step(fold, s, WorkerNotice(w)), w)
  {
  }

  lemma NoticedAndStopped(fold: string -> string, s: System, s1: System, w: WorkerId)
    requires Reachable(fold, s1) && Noticed(s, s1, w)
    ensures EndedAs(s.db, Step(fold, s1, WorkerStop(w)).db, Head(s, w).op, Head(s, w).run, Canceled)
  {
    StopEffect(fold, s1, w);
  }

  /** A cancellation that finds the worker waiting for its job, or about to ask the runner, can stop it: the worker
      notices, and the operation is canceled and its table free. */
  lemma CancellationReachesWorker(fold: string -> string, s: System, w: WorkerId)
    requires Reachable(fold, s) && Holds(s, w)
    requires Head(s, w).op < |s.db.ops| && s.db.ops[Head(s, w).op].state == CancelRequested
    requires Head(s, w).phase.Awaiting? || (Head(s, w).phase == Fresh && !s.workers[w].livy)
    ensures var run, c := [WorkerNotice(w), WorkerStop(w)], Head(s, w);
      Allowed(fold, s, run) && EndedAs(s.db, Final(fold, s, run).db, c.op, c.run, Canceled)
  {
    ReachableStep(fold, s, WorkerNotice(w));
    NoticeEffect(fold, s, w);
    var s1 := Step(fold, s, WorkerNotice(w));
    NoticedAndStopped(fold, s, s1, w);
    RunPrepended(fold, s1, WorkerStop(w), []);
    RunPrepended(fold, s, WorkerNotice(w), [WorkerStop(w)]);
    assert [WorkerStop(w)] + [] == [WorkerStop(w)];
    assert [WorkerNotice(w)] + [WorkerStop(w)] == [WorkerNotice(w), WorkerStop(w)];
  }

  // ---------------------------------------------------------------- recovery

  /** The last execution of the operation is still at work, for another worker. */
  predicate Abandoned(op: Operation, w: WorkerId) {
    && op.runs != [] && op.runs[|op.runs| - 1].state in {Running, Verifying}
    && op.runs[|op.runs| - 1].worker != w
  }

  /** The worker follows batches, and the execution has one that is known, or at least an id of its own. */
  predicate Followed(op: Operation, livy: bool)
    requires op.runs != []
  {
    livy && op.runs[|op.runs| - 1].external != None
  }

  /** The claim is in the queue, once, and there is no other for its operation. */
  predicate OnlyClaim(q: seq<Claim>, c: Claim) {
    exists i :: 0 <= i < |q| && q[i] == c && forall j :: 0 <= j < |q| && j != i ==> q[j].op != c.op
  }

  predicate NoClaim(q: seq<Claim>, o: nat) { forall i :: 0 <= i < |q| ==> q[i].op != o }

  /** The execution is the same but for its worker, and that one goes on waiting for the same job, for the same plan. */
  predicate TakenOver(op: Operation, op': Operation, w: WorkerId, q: seq<Claim>, o: nat)
    requires op.runs != []
  {
    var k := |op.runs| - 1;
    && op' == op.(runs := op.runs[k := op.runs[k].(worker := w)])
    && op.runs[k].external.Some?
    && OnlyClaim(q, Operations.Claim(o, k, op.runs[k].planned, Awaiting(op.runs[k].external.value)))
  }

  /** The execution, the operation and its item have failed, and nobody goes on with it. */
  predicate GivenUp(op: Operation, op': Operation, q: seq<Claim>, o: nat)
    requires op.runs != []
  {
    var k := |op.runs| - 1;
    && op' == op.(state := Failed, version := op.version + 1, item := ItemIn(op, Failed),
                  runs := op.runs[k := op.runs[k].(state := Failed)], trail := op'.trail)
    && NoClaim(q, o)
  }

  lemma RecoveredOpEffect(fold: string -> string, op: Operation, w: WorkerId, livy: bool)
    requires OpOk(fold, op)
    ensures var op' := RecoveredOp(op, w, livy);
      && (!Abandoned(op, w) ==> op' == op)
      && (Abandoned(op, w) ==>
           var k := |op.runs| - 1;
           op' == if Followed(op, livy) then op.(runs := op.runs[k := op.runs[k].(worker := w)])
                  else op.(state := Failed, version := op.version + 1, item := ItemIn(op, Failed),
                           runs := op.runs[k := op.runs[k].(state := Failed)], trail := op'.trail))
  {
  }

  lemma ResumedOnce(fold: string -> string, db: Db, w: WorkerId, livy: bool, o: nat)
    requires DbInv(fold, db) && o < |db.ops| && Abandoned(db.ops[o], w) && Followed(db.ops[o], livy)
    ensures var k := |db.ops[o].runs| - 1;
      && db.ops[o].runs[k].planned == db.ops[o].planned
      && OnlyClaim(Resumable(db, w, livy),
                   Operations.Claim(o, k, db.ops[o].planned, Awaiting(db.ops[o].runs[k].external.value)))
  {
    assert OpOk(fold, db.ops[o]);
    var k := |db.ops[o].runs| - 1;
    OpResumed(db, w, livy, o, k, |db.ops|);
    ResumableOpsOk(fold, db, w, livy, |db.ops|);
    var q := Resumable(db, w, livy);
    var i :| 0 <= i < |q| && q[i].op == o && q[i].run == k;
    assert ResumedClaim(db, w, livy, q[i]);
  }

  lemma NotResumed(fold: string -> string, db: Db, w: WorkerId, livy: bool, o: nat)
    requires DbInv(fold, db) && o < |db.ops|
    requires Abandoned(db.ops[o], w) ==> !Followed(db.ops[o], livy)
    ensures NoClaim(Resumable(db, w, livy), o)
  {
    ResumableOpsOk(fold, db, w, livy, |db.ops|);
    var q := Resumable(db, w, livy);
    forall i | 0 <= i < |q|
      ensures q[i].op != o
    {
      assert ResumedClaim(db, w, livy, q[i]);
    }
  }

  lemma {:induction false} RecoverRunsKeepsTables(db: Db, w: WorkerId, livy: bool, o: nat, n: nat)
    ensures RecoverRuns(db, w, livy, o, n).tables == db.tables
  {
    if n > 0 {
      RecoverRunsKeepsTables(db, w, livy, o, n - 1);
    }
  }

  lemma {:induction false} RecoverKeepsTables(db: Db, w: WorkerId, livy: bool, m: nat)
    ensures RecoverOps(db, w, livy, m).tables == db.tables
  {
    if m > 0 {
      RecoverKeepsTables(db, w, livy, m - 1);
      RecoverRunsKeepsTables(RecoverOps(db, w, livy, m - 1), w, livy, m - 1, RunsOf(db, m - 1));
    }
  }

  /** What has become of an operation that recovery looked at. */
  predicate Outcome(op: Operation, op': Operation, w: WorkerId, livy: bool, q: seq<Claim>, o: nat) {
    && (!Abandoned(op, w) ==> op' == op && NoClaim(q, o))
    && (Abandoned(op, w) && Followed(op, livy) ==> TakenOver(op, op', w, q, o))
    && (Abandoned(op, w) && !Followed(op, livy) ==> GivenUp(op, op', q, o))
  }

  lemma RecoveryOutcome(fold: string -> string, db: Db, w: WorkerId, livy: bool, o: nat)
    requires DbInv(fold, db) && o < |db.ops|
    ensures Outcome(db.ops[o], RecoveredOp(db.ops[o], w, livy), w, livy, Resumable(db, w, livy), o)
  {
    RecoveredOpEffect(fold, db.ops[o], w, livy);
    if Abandoned(db.ops[o], w) && Followed(db.ops[o], livy) {
      ResumedOnce(fold, db, w, livy, o);
    } else {
      NotResumed(fold, db, w, livy, o);
    }
  }

  lemma RecoveryKeepsTable(fold: string -> string, db: Db, w: WorkerId, livy: bool, o: nat)
    requires DbInv(fold, db) && o < |db.ops| && Abandoned(db.ops[o], w) && Followed(db.ops[o], livy)
    ensures var t, locks := db.ops[o].table, Recover(db, w, livy).locks; t in locks && locks[t] == o
  {
    assert OpOk(fold, db.ops[o]);
    RecoverOpsOk(fold, db, w, livy, |db.ops|);
    RecoveredOpEffect(fold, db.ops[o], w, livy);
  }

  lemma RecoveredIsActive(op: Operation, w: WorkerId, livy: bool)
    ensures RecoveredOp(op, w, livy).table == op.table
    ensures Active(RecoveredOp(op, w, livy).state) ==> Active(op.state)
  {
  }

  /** Whoever holds a table after recovery was active on it before, and still is. */
  lemma HolderWasActive(fold: string -> string, db: Db, w: WorkerId, livy: bool, t: TableId)
    requires DbInv(fold, db) && t in Recover(db, w, livy).locks
    ensures var p := Recover(db, w, livy).locks[t];
      p < |db.ops| && db.ops[p].table == t && Active(db.ops[p].state) && Active(RecoveredOp(db.ops[p], w, livy).state)
  {
    RecoverOpsOk(fold, db, w, livy, |db.ops|);
    RecoveredIsActive(db.ops[Recover(db, w, livy).locks[t]], w, livy);
  }

  lemma RecoveryFreesTable(fold: string -> string, db: Db, w: WorkerId, livy: bool, o: nat)
    requires DbInv(fold, db) && o < |db.ops| && Abandoned(db.ops[o], w) && !Followed(db.ops[o], livy)
    ensures db.ops[o].table !in Recover(db, w, livy).locks
  {
    var t := db.ops[o].table;
    if t in Recover(db, w, livy).locks {
      HolderWasActive(fold, db, w, livy, t);
      RecoveredOpEffect(fold, db.ops[o], w, livy);
      assert Active(db.ops[o].state) by {
        assert OpOk(fold, db.ops[o]);
      }
    }
  }

  /** What a starting worker does to each operation. An execution that is still at work for another worker is taken over
      if this one follows batches and an id was recorded for it: nothing changes but the worker, which goes on waiting
      for that id, for the planned snapshot, and has no other claim for the operation, which keeps its table. Otherwise
      it has failed, and the table is no longer the operation's. All other operations, and the memory of all other
      workers, are as they were. */
  lemma RecoveryEffect(fold: string -> string, s: System, w: WorkerId, livy: bool, hadoopScope: bool, o: nat)
    requires Reachable(fold, s) && w !in s.workers && o < |s.db.ops|
    ensures var op, s' := s.db.ops[o], Start(s, w, livy, hadoopScope);
      && |s'.db.ops| == |s.db.ops| && s'.db.jobs == s.db.jobs && s'.db.tables == s.db.tables && s'.batches == s.batches
      && w in s'.workers && s'.workers == s.workers[w := Worker(livy, hadoopScope, s'.workers[w].queue)]
      && Outcome(op, s'.db.ops[o], w, livy, s'.workers[w].queue, o)
      && (Abandoned(op, w) ==>
           if Followed(op, livy) then op.table in s'.db.locks && s'.db.locks[op.table] == o
           else op.table !in s'.db.locks)
  {
    ReachableOk(fold, s);
    RecoveredRow(fold, s.db, w, livy, o);
    RecoveryOutcome(fold, s.db, w, livy, o);
    RecoverKeepsJobs(s.db, w, livy, |s.db.ops|);
    RecoverKeepsTables(s.db, w, livy, |s.db.ops|);
    if Abandoned(s.db.ops[o], w) {
      if Followed(s.db.ops[o], livy) {
        RecoveryKeepsTable(fold, s.db, w, livy, o);
      } else {
        RecoveryFreesTable(fold, s.db, w, livy, o);
      }
    }
  }

  // ---------------------------------------------------------------- crashes

  /** What a worker has submitted is what the row of its execution says. */
  lemma MemoryMatchesRow(fold: string -> string, s: System, w: WorkerId)
    requires Reachable(fold, s) && Holds(s, w)
    ensures var c := Head(s, w);
      && Has(s, w, c.op, c.run) && c.run == |s.db.ops[c.op].runs| - 1
      && var run := s.db.ops[c.op].runs[c.run];
      && run.state in {Running, Verifying} && run.worker == w && run.planned == c.expected
      && (c.phase.Awaiting? ==> run.external == Some(c.phase.ext))
      && (c.phase.Fresh? || c.phase.Posted? ==> run.external == None)
  {
    ReachableOk(fold, s);
    HeadHeld(fold, s, w);
  }

  /** What becomes of the execution a crashed worker was on, by how far that had come: it is taken over if the id of its
      batch was recorded, and given up if nothing was, whether or not there is a batch. */
  predicate PassedOn(s: System, c: Claim, s': System, v: WorkerId) {
    && HasRun(s.db, c.op, c.run) && c.op < |s'.db.ops| && s'.workers.Keys == {v}
    && var op, op', q := s.db.ops[c.op], s'.db.ops[c.op], s'.workers[v].queue;
    && (c.phase.Awaiting? ==> op.runs[c.run].external == Some(c.phase.ext) && TakenOver(op, op', v, q, c.op))
    && (c.phase.Fresh? || c.phase.Posted? ==> GivenUp(op, op', q, c.op))
  }

  lemma PassedOnByStart(fold: string -> string, s: System, s1: System, w: WorkerId, v: WorkerId, hadoopScope: bool)
    requires Reachable(fold, s) && Holds(s, w) && v != w && Reachable(fold, s1) && s1 == s.(workers := map[])
    ensures PassedOn(s, Head(s, w), Start(s1, v, true, hadoopScope), v)
  {
    MemoryMatchesRow(fold, s, w);
    RecoveryEffect(fold, s1, v, true, hadoopScope, Head(s, w).op);
  }

  /** When every worker crashes and another one starts that follows batches, it goes on waiting for the batch of an
      execution if the id of that was recorded; what was posted and not recorded is lost. */
  lemma CrashSurvivedIfRecorded(
    fold: string -> string, s: System, w: WorkerId, v: WorkerId, hadoopScope: bool) returns (run: seq<Action>)
    requires Reachable(fold, s) && Holds(s, w) && v != w
    ensures Allowed(fold, s, run) && PassedOn(s, Head(s, w), Final(fold, s, run), v)
  {
    var crashes := AllCrash(fold, s);
    var s1 := Final(fold, s, crashes);
    ReachableOn(fold, s, crashes);
    PassedOnByStart(fold, s, s1, w, v, hadoopScope);
    RunPrepended(fold, s1, WorkerStart(v, true, hadoopScope), []);
    RunsJoined(fold, s, crashes, [WorkerStart(v, true, hadoopScope)] + []);
    run := crashes + ([WorkerStart(v, true, hadoopScope)] + []);
  }
}
