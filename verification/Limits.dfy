/** How far the promises carry: exactly which cancellations are kept, and exactly when a worker may start. Where a
    promise ends, a run that breaks it is built from any state there is, and such states are shown to be reachable. */
module Limits {
  import opened Common
  import opened Operations
  import opened OperationInvariant
  import opened DbInvariant
  import opened WorkerSteps
  import opened Protocol
  import opened History
  import opened Guarantees

  // ---------------------------------------------------------------- putting runs together

  lemma ReachableOn(fold: string -> string, s: System, run: seq<Action>)
    requires Reachable(fold, s) && Allowed(fold, s, run)
    ensures Reachable(fold, Final(fold, s, run))
  {
    var init, before :| Reaches(fold, init, before) && Final(fold, init, before) == s;
    RunsJoined(fold, init, before, run);
    assert Reaches(fold, init, before + run);
  }

  lemma ReachableStep(fold: string -> string, s: System, a: Action)
    requires Reachable(fold, s) && Enabled(s, a)
    ensures Reachable(fold, Step(fold, s, a))
  {
    RunPrepended(fold, s, a, []);
    ReachableOn(fold, s, [a] + []);
  }

  /** All workers may crash. */
  lemma {:induction false} AllCrash(fold: string -> string, s: System) returns (run: seq<Action>)
    ensures Allowed(fold, s, run) && Final(fold, s, run) == s.(workers := map[])
    decreases |s.workers|
  {
    if s.workers == map[] {
      run := [];
    } else {
      var w :| w in s.workers;
      var s1 := Step(fold, s, WorkerCrash(w));
      assert s.workers.Keys == s1.workers.Keys + {w};
      assert |s1.workers.Keys| < |s.workers.Keys|;
      var rest := AllCrash(fold, s1);
      RunPrepended(fold, s, WorkerCrash(w), rest);
      run := [WorkerCrash(w)] + rest;
    }
  }

  // ---------------------------------------------------------------- cancellation

  /** An operation that is executing can always still end as FAILED: every worker crashes, and one that has no use
      for the execution starts. */
  lemma ExecutingCanFail(fold: string -> string, s: System, o: nat) returns (run: seq<Action>)
    requires Reachable(fold, s) && o < |s.db.ops| && Executing(s.db.ops[o].state)
    ensures Allowed(fold, s, run)
    ensures o < |Final(fold, s, run).db.ops| && Final(fold, s, run).db.ops[o].state == Failed
  {
    ReachableOk(fold, s);
    assert OpOk(fold, s.db.ops[o]);
    var k := |s.db.ops[o].runs| - 1;
    var w := s.db.ops[o].runs[k].worker + "'";
    var crashes := AllCrash(fold, s);
    var s1 := Final(fold, s, crashes);
    ReachableOn(fold, s, crashes);
    OthersFailed(fold, s1, o, k, w, false);
    RunPrepended(fold, s1, WorkerStart(w, false, false), []);
    RunsJoined(fold, s, crashes, [WorkerStart(w, false, false)] + []);
    run := crashes + ([WorkerStart(w, false, false)] + []);
  }

  /** Whatever happens next, operation `o` is in one of the states. */
  ghost predicate Always(fold: string -> string, s: System, o: nat, states: set<State>) {
    forall run | Allowed(fold, s, run) ::
      o < |Final(fold, s, run).db.ops| && Final(fold, s, run).db.ops[o].state in states
  }

  /** An accepted cancellation holds for good exactly when the operation is not executing at that moment. If it is,
      then not even CANCEL_REQUESTED is sure to lead to CANCELED and nothing else. */
  lemma CancellationKeptExactly(fold: string -> string, s: System, o: nat, version: Option<int>)
    requires Reachable(fold, s) && o < |s.db.ops| && Cancel(s.db, o, version).Done?
    ensures var s1 := Step(fold, s, ApiCancel(o, version));
      && (Always(fold, s1, o, {Canceled}) <==> !Executing(s.db.ops[o].state))
      && (Always(fold, s1, o, {CancelRequested, Canceled}) <==> !Executing(s.db.ops[o].state))
  {
    var s1 := Step(fold, s, ApiCancel(o, version));
    ReachableStep(fold, s, ApiCancel(o, version));
    if Executing(s.db.ops[o].state) {
      var run := ExecutingCanFail(fold, s1, o);
    } else {
      assert s1.db.ops[o].state == Canceled;
      forall run | Allowed(fold, s1, run)
        ensures o < |Final(fold, s1, run).db.ops| && Final(fold, s1, run).db.ops[o].state == Canceled
      {
        TerminalIsFinal(fold, s1, run, o);
      }
    }
  }

  // ---------------------------------------------------------------- what recovery hands over

  /** One of the claims is for execution `k` of operation `o`. */
  predicate Listed(cs: seq<Claim>, o: nat, k: nat) { exists i :: 0 <= i < |cs| && cs[i].op == o && cs[i].run == k }

  lemma {:induction false} RunResumed(db: Db, w: WorkerId, livy: bool, o: nat, k: nat, n: nat)
    requires Stale(db, w, o, k) && Attachable(livy, db.ops[o].runs[k]) && k < n
    ensures Listed(ResumableRuns(db, w, livy, o, n), o, k)
    decreases n
  {
    var front := ResumableRuns(db, w, livy, o, n - 1);
    var cs := ResumableRuns(db, w, livy, o, n);
    if k == n - 1 {
      assert cs[|front|].op == o && cs[|front|].run == k;
    } else {
      RunResumed(db, w, livy, o, k, n - 1);
      var i :| 0 <= i < |front| && front[i].op == o && front[i].run == k;
      assert cs[i] == front[i];
    }
  }

  lemma {:induction false} OpResumed(db: Db, w: WorkerId, livy: bool, o: nat, k: nat, m: nat)
    requires Stale(db, w, o, k) && Attachable(livy, db.ops[o].runs[k]) && o < m
    ensures Listed(ResumableOps(db, w, livy, m), o, k)
    decreases m
  {
    var front := ResumableOps(db, w, livy, m - 1);
    var last := ResumableRuns(db, w, livy, m - 1, RunsOf(db, m - 1));
    var cs := ResumableOps(db, w, livy, m);
    if o == m - 1 {
      RunResumed(db, w, livy, o, k, RunsOf(db, o));
      var i :| 0 <= i < |last| && last[i].op == o && last[i].run == k;
      assert cs[|front| + i] == last[i];
    } else {
      OpResumed(db, w, livy, o, k, m - 1);
      var i :| 0 <= i < |front| && front[i].op == o && front[i].run == k;
      assert cs[i] == front[i];
    }
  }

  /** What a starting worker makes of the execution another live worker is busy with: it fails the execution, or, if
      its batch is known and it can follow batches, it takes the execution over. The other goes on regardless. */
  lemma BusyExecutionTaken(
    fold: string -> string, s: System, w: WorkerId, livy: bool, hadoopScope: bool, v: WorkerId)
    requires Reachable(fold, s) && w !in s.workers && Holds(s, v)
    ensures var c, s0 := Head(s, v), Start(s, w, livy, hadoopScope);
      && Held(s.db, c.op, c.run) && |s0.db.ops| == |s.db.ops| && |s0.db.ops[c.op].runs| == c.run + 1
      && Holds(s0, v) && Head(s0, v) == c
      && var run, op' := s.db.ops[c.op].runs[c.run], s0.db.ops[c.op];
      && if livy && run.external.Some?
         then Listed(s0.workers[w].queue, c.op, c.run) && Held(s0.db, c.op, c.run) && op'.runs[c.run].worker == w
         else op'.state == Failed && op'.runs[c.run] == run.(state := Failed)
  {
    ReachableOk(fold, s);
    HeadHeld(fold, s, v);
    var c := Head(s, v);
    RecoveredRow(fold, s.db, w, livy, c.op);
    if Attachable(livy, s.db.ops[c.op].runs[c.run]) {
      OpResumed(s.db, w, livy, c.op, c.run, |s.db.ops|);
    }
  }

  // ---------------------------------------------------------------- two holders of one execution

  /** A worker that holds live executions, each of another operation, and can fail them. */
  predicate CanDrain(fold: string -> string, s: System, w: WorkerId) {
    && DbInv(fold, s.db) && w in s.workers
    && var q := s.workers[w].queue;
       && (forall i :: 0 <= i < |q| ==> Held(s.db, q[i].op, q[i].run) && q[i].phase.Awaiting?)
       && (forall i, j :: 0 <= i < j < |q| ==> q[i].op != q[j].op)
  }

  /** Nothing but the database and the worker's own memory has changed, and there only by ending operations. */
  predicate OnlyEnded(s: System, s': System, w: WorkerId) {
    && w in s.workers && s'.workers == s.workers[w := s.workers[w].(queue := [])] && s'.batches == s.batches
    && s'.db.tables == s.db.tables && s'.db.jobs == s.db.jobs && |s'.db.ops| == |s.db.ops|
    && forall p :: 0 <= p < |s.db.ops| ==>
         s'.db.ops[p].table == s.db.ops[p].table && (Active(s'.db.ops[p].state) ==> Active(s.db.ops[p].state))
  }

  /** The head of the queue has been failed, and nothing else has happened. */
  predicate HeadFailed(s: System, s': System, w: WorkerId) {
    && Holds(s, w) && HasRun(s.db, Head(s, w).op, Head(s, w).run)
    && s'.workers == s.workers[w := s.workers[w].(queue := s.workers[w].queue[1..])] && s'.batches == s.batches
    && s'.db.tables == s.db.tables && s'.db.jobs == s.db.jobs && OnlyOp(s.db, s'.db, Head(s, w).op)
    && s'.db.ops[Head(s, w).op] == EndedRun(s.db.ops[Head(s, w).op], Head(s, w).run, Failed)
  }

  lemma FailHead(fold: string -> string, s: System, w: WorkerId)
    requires CanDrain(fold, s, w) && s.workers[w].queue != []
    ensures Enabled(s, WorkerFail(w))
    ensures CanDrain(fold, Step(fold, s, WorkerFail(w)), w) && HeadFailed(s, Step(fold, s, WorkerFail(w)), w)
  {
    var c := Head(s, w);
    MarkFailedOk(fold, s.db, c.op, c.run);
    assert forall i :: 0 <= i < |s.workers[w].queue[1..]| ==> s.workers[w].queue[1..][i] == s.workers[w].queue[i + 1];
  }

  lemma HeadFailedOnlyEnds(s: System, s1: System, s': System, w: WorkerId)
    requires HeadFailed(s, s1, w) && OnlyEnded(s1, s', w)
    ensures OnlyEnded(s, s', w)
  {
    assert s1.workers[w := s1.workers[w].(queue := [])] == s.workers[w := s.workers[w].(queue := [])];
  }

  /** What has become of operation `o`, given the claims that were drained. */
  predicate DrainedOp(q: seq<Claim>, o: nat, k: nat, op: Operation, op': Operation) {
    && (Listed(q, o, k) ==> op' == EndedRun(op, k, Failed))
    && ((forall i :: 0 <= i < |q| ==> q[i].op != o) ==> op' == op)
  }

  lemma OneMoreDrained(q: seq<Claim>, o: nat, k: nat, op: Operation, op1: Operation, op': Operation)
    requires q != [] && forall i, j :: 0 <= i < j < |q| ==> q[i].op != q[j].op
    requires op1 == if q[0].op == o then EndedRun(op, q[0].run, Failed) else op
    requires DrainedOp(q[1..], o, k, op1, op')
    ensures DrainedOp(q, o, k, op, op')
  {
    assert forall i :: 0 <= i < |q[1..]| ==> q[1..][i] == q[i + 1];
    if Listed(q, o, k) {
      var i :| 0 <= i < |q| && q[i].op == o && q[i].run == k;
      if i > 0 {
        assert q[1..][i - 1] == q[i] && Listed(q[1..], o, k);
      }
    }
  }

  lemma HeadThenRest(s: System, s1: System, s': System, w: WorkerId, o: nat, k: nat)
    requires HeadFailed(s, s1, w) && OnlyEnded(s1, s', w) && o < |s.db.ops|
    requires var q := s.workers[w].queue; forall i, j :: 0 <= i < j < |q| ==> q[i].op != q[j].op
    requires DrainedOp(s1.workers[w].queue, o, k, s1.db.ops[o], s'.db.ops[o])
    ensures OnlyEnded(s, s', w) && DrainedOp(s.workers[w].queue, o, k, s.db.ops[o], s'.db.ops[o])
  {
    HeadFailedOnlyEnds(s, s1, s', w);
    OneMoreDrained(s.workers[w].queue, o, k, s.db.ops[o], s1.db.ops[o], s'.db.ops[o]);
  }

  /** It fails all it holds, one after the other; what it does not hold stays. */
  lemma {:induction false} Drained(fold: string -> string, s: System, w: WorkerId, o: nat, k: nat)
    returns (run: seq<Action>)
    requires CanDrain(fold, s, w) && o < |s.db.ops|
    ensures Allowed(fold, s, run)
    ensures var s' := Final(fold, s, run);
      DbInv(fold, s'.db) && OnlyEnded(s, s', w) && DrainedOp(s.workers[w].queue, o, k, s.db.ops[o], s'.db.ops[o])
    decreases |s.workers[w].queue|
  {
    if s.workers[w].queue == [] {
      run := [];
      assert s.workers[w := s.workers[w].(queue := [])] == s.workers;
    } else {
      FailHead(fold, s, w);
      var s1 := Step(fold, s, WorkerFail(w));
      var rest := Drained(fold, s1, w, o, k);
      RunPrepended(fold, s, WorkerFail(w), rest);
      run := [WorkerFail(w)] + rest;
      HeadThenRest(s, s1, Final(fold, s1, rest), w, o, k);
    }
  }

  // ---------------------------------------------------------------- and what becomes of it

  /** An idle worker takes the failed operation on again, after a retry and once the table is in its scope. */
  lemma RetriedAgain(fold: string -> string, s: System, w: WorkerId, o: nat) returns (run: seq<Action>)
    requires w in s.workers && s.workers[w].queue == [] && o < |s.db.ops| && s.db.ops[o].table in s.db.tables
    requires s.db.ops[o].state == Failed && s.db.ops[o].engine in {Auto, Spark} && LockFree(s.db, o)
    ensures Allowed(fold, s, run)
    ensures var s', n := Final(fold, s, run), |s.db.ops[o].runs|;
      && o < |s'.db.ops| && |s'.db.ops[o].runs| == n + 1 && s'.db.ops[o].runs[n].state == Running
      && forall v :: v in s.workers && v != w ==> v in s'.workers && s'.workers[v] == s.workers[v]
  {
    var t := s.db.ops[o].table;
    var s1 := Step(fold, s, ApiRetry(o));
    var sync := TableSync(t, s1.db.tables[t].(hadoop := s.workers[w].hadoopScope));
    var s2 := Step(fold, s1, sync);
    assert Claimable(s2.db, s.workers[w].hadoopScope, o);
    RunPrepended(fold, s2, WorkerClaim(w, o), []);
    RunPrepended(fold, s1, sync, [WorkerClaim(w, o)] + []);
    run := [ApiRetry(o)] + ([sync] + ([WorkerClaim(w, o)] + []));
    RunPrepended(fold, s, ApiRetry(o), [sync] + ([WorkerClaim(w, o)] + []));
  }

  /** The end of a worker's claim on an execution that is no longer the last one. */
  function LastStep(s: System, v: WorkerId): Action
    requires Holds(s, v)
  {
    if Head(s, v).phase == Stopping then WorkerStop(v) else WorkerFail(v)
  }

  lemma LateEndBreaksExclusion(fold: string -> string, s: System, v: WorkerId, o: nat, k: nat)
    requires Holds(s, v) && Head(s, v).op == o && Head(s, v).run == k
    requires o < |s.db.ops| && |s.db.ops[o].runs| == k + 2 && s.db.ops[o].runs[k + 1].state == Running
    ensures Enabled(s, LastStep(s, v)) && !Exclusive(Step(fold, s, LastStep(s, v)).db)
  {
    var db := Step(fold, s, LastStep(s, v)).db;
    assert o < |db.ops| && LiveRun(db, o, k + 1) && !Executing(db.ops[o].state);
  }

  /** A worker that still holds an execution somebody else has failed brings the exclusion down. */
  lemma FailedUnderHolder(fold: string -> string, s: System, v: WorkerId, w: WorkerId) returns (run: seq<Action>)
    requires v != w && Holds(s, v) && w in s.workers && s.workers[w].queue == []
    requires var o := Head(s, v).op;
      && o < |s.db.ops| && s.db.ops[o].state == Failed && |s.db.ops[o].runs| == Head(s, v).run + 1
      && s.db.ops[o].engine in {Auto, Spark} && s.db.ops[o].table in s.db.tables && LockFree(s.db, o)
    ensures Allowed(fold, s, run) && !Exclusive(Final(fold, s, run).db)
  {
    var c := Head(s, v);
    var again := RetriedAgain(fold, s, w, c.op);
    var s1 := Final(fold, s, again);
    assert Holds(s1, v) && Head(s1, v) == c;
    LateEndBreaksExclusion(fold, s1, v, c.op, c.run);
    RunPrepended(fold, s1, LastStep(s1, v), []);
    RunsJoined(fold, s, again, [LastStep(s1, v)] + []);
    run := again + ([LastStep(s1, v)] + []);
  }

  // ---------------------------------------------------------------- starting a worker

  /** Only operations for Spark have executions. */
  predicate SparkOnly(db: Db) {
    forall o :: 0 <= o < |db.ops| && db.ops[o].runs != [] ==> db.ops[o].engine in {Auto, Spark}
  }

  lemma SparkOnlyStep(fold: string -> string, s: System, a: Action)
    requires Inv(fold, s) && Enabled(s, a) && SparkOnly(s.db)
    ensures SparkOnly(Step(fold, s, a).db)
  {
    StepOk(fold, s, a);
    var db' := Step(fold, s, a).db;
    forall o | 0 <= o < |db'.ops| && db'.ops[o].runs != []
      ensures db'.ops[o].engine in {Auto, Spark}
    {
      if o < |s.db.ops| {
        StepRuns(fold, s, a, o);
        assert Evolves(s.db.ops[o], db'.ops[o]);
      }
    }
  }

  lemma {:induction false} SparkOnlyAlways(fold: string -> string, s: System, run: seq<Action>)
    requires Inv(fold, s) && SparkOnly(s.db) && Allowed(fold, s, run)
    ensures SparkOnly(Final(fold, s, run).db)
    decreases |run|
  {
    if run == [] {
    } else {
      StepOk(fold, s, run[0]);
      SparkOnlyStep(fold, s, run[0]);
      SparkOnlyAlways(fold, Step(fold, s, run[0]), run[1..]);
    }
  }

  lemma ReachableSparkOnly(fold: string -> string, s: System)
    requires Reachable(fold, s)
    ensures SparkOnly(s.db)
  {
    var init, run :| Reaches(fold, init, run) && Final(fold, init, run) == s;
    InitOk(fold, init);
    SparkOnlyAlways(fold, init, run);
  }

  /** An approved operation for Trino or Flink is never claimed, by any worker in any run. It stays queued, with its
      table locked, until it is canceled; it can be canceled at any time, and ends in no other way. */
  lemma OtherEnginesWait(fold: string -> string, s: System, run: seq<Action>, o: nat)
    requires Reachable(fold, s) && Allowed(fold, s, run) && o < |s.db.ops|
    requires s.db.ops[o].state == Queued && s.db.ops[o].engine !in {Auto, Spark}
    ensures Claims(run, o) == 0 && o < |Final(fold, s, run).db.ops|
    ensures var db := Final(fold, s, run).db;
      && db.ops[o].runs == [] && Cancel(db, o, None).Done?
      && (db.ops[o].state == Canceled || (db.ops[o].state == Queued && HoldsTable(db, o)))
      && (db.ops[o].state == Canceled <==> Dequeued in Events(fold, s, run, o))
  {
    ReachableOk(fold, s);
    ReachableSparkOnly(fold, s);
    EveryRunOk(fold, s, run);
    SparkOnlyAlways(fold, s, run);
    ExecutionsAreClaims(fold, s, run, o);
    TrailIsHistory(fold, s, run, o);
    var db := Final(fold, s, run).db;
    NeverRun(fold, s.db.ops[o], db.ops[o], Events(fold, s, run, o));
    if Dequeued in Events(fold, s, run, o) {
      DequeuedForGood(fold, s, run, o);
    }
  }

  lemma DequeuedIsCanceled(fold: string -> string, s: System, a: Action, o: nat)
    requires Enabled(s, a) && o < |s.db.ops| && JobsDistinct(s.db) && EventOf(fold, s, a, o) == Some(Dequeued)
    ensures o < |Step(fold, s, a).db.ops| && Step(fold, s, a).db.ops[o].state == Canceled
  {
    if a.ApiCancelJob? {
      assert Distinct(s.db.jobs[a.j]);
      CancelItemsAt(s.db, s.db.jobs[a.j], o);
    }
  }

  /** An operation that was canceled while queued, at any time in a run, is canceled at its end. */
  lemma {:induction false} DequeuedForGood(fold: string -> string, s: System, run: seq<Action>, o: nat)
    requires Inv(fold, s) && JobsDistinct(s.db) && Allowed(fold, s, run) && Dequeued in Events(fold, s, run, o)
    ensures o < |Final(fold, s, run).db.ops| && Final(fold, s, run).db.ops[o].state == Canceled
    decreases |run|
  {
    if run == [] {
    } else {
      var mid := Step(fold, s, run[0]);
      StepOk(fold, s, run[0]);
      CreationsAreFresh(fold, s, run[0]);
      if o < |s.db.ops| && EventOf(fold, s, run[0], o) == Some(Dequeued) {
        DequeuedIsCanceled(fold, s, run[0], o);
        EveryRunOk(fold, mid, run[1..]);
        assert Evolves(mid.db.ops[o], Final(fold, mid, run[1..]).db.ops[o]);
      } else {
        DequeuedForGood(fold, mid, run[1..], o);
      }
    }
  }

  /** The table is locked by the operation, so that no other one gets it. */
  predicate HoldsTable(db: Db, o: nat)
    requires o < |db.ops|
  {
    db.ops[o].table in db.locks && db.locks[db.ops[o].table] == o
  }

  lemma NeverRun(fold: string -> string, op: Operation, op': Operation, events: multiset<Event>)
    requires OpOk(fold, op) && OpOk(fold, op') && Evolves(op, op') && op'.trail == op.trail + events
    requires op.state == Queued && op.runs == [] && op'.runs == []
    ensures op'.state in {Queued, Canceled} && (op'.state == Canceled ==> Dequeued in events)
  {
    assert op'.decisions == op.decisions;
  }

  lemma ResumedHeld(fold: string -> string, db: Db, w: WorkerId, livy: bool, c: Claim)
    requires DbInv(fold, db) && ResumedClaim(db, w, livy, c)
    ensures Held(Recover(db, w, livy), c.op, c.run) && c.phase.Awaiting?
  {
    RecoveredRow(fold, db, w, livy, c.op);
  }

  lemma StarterCanDrain(fold: string -> string, s: System, w: WorkerId, livy: bool, hadoopScope: bool)
    requires Inv(fold, s) && w !in s.workers
    ensures CanDrain(fold, Start(s, w, livy, hadoopScope), w)
  {
    RecoverOpsOk(fold, s.db, w, livy, |s.db.ops|);
    ResumableOpsOk(fold, s.db, w, livy, |s.db.ops|);
    var q := Resumable(s.db, w, livy);
    forall i | 0 <= i < |q|
      ensures Held(Recover(s.db, w, livy), q[i].op, q[i].run) && q[i].phase.Awaiting?
    {
      ResumedHeld(fold, s.db, w, livy, q[i]);
    }
  }

  /** What a starting worker does not take over, it does not hold. */
  lemma NotTakenNotHeld(fold: string -> string, s: System, w: WorkerId, livy: bool, o: nat, k: nat)
    requires DbInv(fold, s.db) && Held(s.db, o, k) && !Attachable(livy, s.db.ops[o].runs[k])
    ensures var q := Resumable(s.db, w, livy); forall i :: 0 <= i < |q| ==> q[i].op != o
  {
    ResumableOpsOk(fold, s.db, w, livy, |s.db.ops|);
    var q := Resumable(s.db, w, livy);
    forall i | 0 <= i < |q|
      ensures q[i].op != o
    {
      assert ResumedClaim(s.db, w, livy, q[i]);
    }
  }

  /** The start and any endings make no operation active. */
  lemma ActiveBefore(
    fold: string -> string, s: System, w: WorkerId, livy: bool, hadoopScope: bool, s': System, p: nat)
    requires DbInv(fold, s.db) && p < |s.db.ops| && OnlyEnded(Start(s, w, livy, hadoopScope), s', w)
    ensures p < |s'.db.ops| && s'.db.ops[p].table == s.db.ops[p].table
    ensures Active(s'.db.ops[p].state) ==> Active(s.db.ops[p].state)
  {
    RecoveredRow(fold, s.db, w, livy, p);
  }

  /** After them the table of operation `o` is still nobody else's. */
  lemma StillLockFree(
    fold: string -> string, s: System, w: WorkerId, livy: bool, hadoopScope: bool, s': System, o: nat)
    requires Inv(fold, s) && o < |s.db.ops| && Active(s.db.ops[o].state)
    requires DbInv(fold, s'.db) && |s'.db.ops| == |s.db.ops|
    requires OnlyEnded(Start(s, w, livy, hadoopScope), s', w)
    ensures s'.db.ops[o].table == s.db.ops[o].table && LockFree(s'.db, o)
  {
    ActiveBefore(fold, s, w, livy, hadoopScope, s', o);
    var t := s.db.ops[o].table;
    if t in s'.db.locks {
      ActiveBefore(fold, s, w, livy, hadoopScope, s', s'.db.locks[t]);
    }
  }

  /** Once the starting worker has drained, the busy one holds an execution that has failed, and could be retried. */
  lemma DrainedUnderHolder(
    fold: string -> string, s: System, w: WorkerId, livy: bool, hadoopScope: bool, v: WorkerId, s1: System)
    requires Reachable(fold, s) && w !in s.workers && Holds(s, v) && Head(s, v).op < |s.db.ops|
    requires var c, s0 := Head(s, v), Start(s, w, livy, hadoopScope);
      && |s0.db.ops| == |s.db.ops| && DbInv(fold, s1.db) && OnlyEnded(s0, s1, w)
      && DrainedOp(s0.workers[w].queue, c.op, c.run, s0.db.ops[c.op], s1.db.ops[c.op])
    ensures Holds(s1, v) && Head(s1, v) == Head(s, v)
    ensures var o := Head(s, v).op;
      && s1.db.ops[o].state == Failed && |s1.db.ops[o].runs| == Head(s, v).run + 1
      && s1.db.ops[o].engine == s.db.ops[o].engine && Active(s.db.ops[o].state) && s.db.ops[o].runs != []
  {
    BusyExecutionTaken(fold, s, w, livy, hadoopScope, v);
    ReachableOk(fold, s);
    var c := Head(s, v);
    assert OpOk(fold, s.db.ops[c.op]);
    RecoveredRow(fold, s.db, w, livy, c.op);
    if !Attachable(livy, s.db.ops[c.op].runs[c.run]) {
      NotTakenNotHeld(fold, s, w, livy, c.op, c.run);
    }
  }

  /** A worker that starts while another is in the middle of a claim, of whatever kind, can bring the exclusion down. */
  lemma BusyStartBreaksExclusion(fold: string -> string, s: System, w: WorkerId, livy: bool, hadoopScope: bool)
    returns (run: seq<Action>)
    requires Reachable(fold, s) && w !in s.workers && !AllIdle(s)
    ensures Allowed(fold, Start(s, w, livy, hadoopScope), run)
    ensures !Exclusive(Final(fold, Start(s, w, livy, hadoopScope), run).db)
  {
    var v :| v in s.workers && s.workers[v].queue != [];
    var s0, c := Start(s, w, livy, hadoopScope), Head(s, v);
    ReachableOk(fold, s);
    BusyExecutionTaken(fold, s, w, livy, hadoopScope, v);
    StarterCanDrain(fold, s, w, livy, hadoopScope);
    var drain := Drained(fold, s0, w, c.op, c.run);
    var s1 := Final(fold, s0, drain);
    DrainedUnderHolder(fold, s, w, livy, hadoopScope, v, s1);
    StillLockFree(fold, s, w, livy, hadoopScope, s1, c.op);
    ReachableSparkOnly(fold, s);
    var rest := FailedUnderHolder(fold, s1, v, w);
    RunsJoined(fold, s0, drain, rest);
    run := drain + rest;
  }

  /** The exclusion holds from here on, whatever happens. */
  ghost predicate StaysExclusive(fold: string -> string, s: System) {
    forall run | Allowed(fold, s, run) :: Exclusive(Final(fold, s, run).db)
  }

  lemma ReachableStaysExclusive(fold: string -> string, s: System)
    requires Reachable(fold, s)
    ensures StaysExclusive(fold, s)
  {
    forall run | Allowed(fold, s, run)
      ensures Exclusive(Final(fold, s, run).db)
    {
      ReachableOn(fold, s, run);
      ReachableExclusive(fold, Final(fold, s, run));
    }
  }

  lemma BrokenNow(fold: string -> string, s: System)
    requires !Exclusive(s.db)
    ensures !StaysExclusive(fold, s)
  {
    var none: seq<Action> := [];
    assert Allowed(fold, s, none) && Final(fold, s, none) == s;
  }

  /** A worker may start exactly when no live worker is in the middle of a claim: then, and only then, no continuation
      gives a table two live executions or leaves one with an operation that is not executing. */
  lemma RecoverySafeExactly(fold: string -> string, s: System, w: WorkerId, livy: bool, hadoopScope: bool)
    requires Reachable(fold, s) && w !in s.workers
    ensures StaysExclusive(fold, Start(s, w, livy, hadoopScope)) <==> AllIdle(s)
  {
    var s0 := Start(s, w, livy, hadoopScope);
    if AllIdle(s) {
      ReachableStep(fold, s, WorkerStart(w, livy, hadoopScope));
      ReachableStaysExclusive(fold, s0);
    } else {
      var run := BusyStartBreaksExclusion(fold, s, w, livy, hadoopScope);
    }
  }

  lemma ReachableExclusive(fold: string -> string, s: System)
    requires Reachable(fold, s)
    ensures Exclusive(s.db)
  {
    var init, run :| Reaches(fold, init, run) && Final(fold, init, run) == s;
    OneLiveExecutionPerTable(fold, init, run);
  }

  /** A bulk retry may run exactly when no failed item of the job belongs to an operation that is executing again. */
  lemma BulkRetrySafeExactly(fold: string -> string, s: System, j: nat)
    requires Reachable(fold, s) && j < |s.db.jobs|
    ensures StaysExclusive(fold, s.(db := After(s.db, RetryJob(s.db, j)))) <==> NoLaggingItem(s.db, s.db.jobs[j])
  {
    var s1 := s.(db := After(s.db, RetryJob(s.db, j)));
    if NoLaggingItem(s.db, s.db.jobs[j]) {
      ReachableStep(fold, s, ApiRetryJob(j));
      ReachableStaysExclusive(fold, s1);
    } else {
      ReachableOk(fold, s);
      LaggingItemBreaksExclusion(fold, s.db, j);
      BrokenNow(fold, s1);
    }
  }

  lemma LaggingItemBreaksExclusion(fold: string -> string, db: Db, j: nat)
    requires DbInv(fold, db) && j < |db.jobs| && !NoLaggingItem(db, db.jobs[j])
    ensures !Exclusive(After(db, RetryJob(db, j)))
  {
    var o := LaggingItem(db, db.jobs[j]);
    RequeuedWhileLive(fold, db, j, o);
    QueuedWhileLive(After(db, RetryJob(db, j)), o, |db.ops[o].runs| - 1);
  }

  lemma LaggingItem(db: Db, items: seq<nat>) returns (o: nat)
    requires !NoLaggingItem(db, items)
    ensures o in items && o < |db.ops| && db.ops[o].item == Some(Failed) && Live(db.ops[o].state)
  {
    var i :| 0 <= i < |items| && items[i] < |db.ops| && db.ops[items[i]].item == Some(Failed) &&
      Live(db.ops[items[i]].state);
    o := items[i];
  }

  lemma RequeuedWhileLive(fold: string -> string, db: Db, j: nat, o: nat)
    requires DbInv(fold, db) && j < |db.jobs| && o in db.jobs[j] && o < |db.ops|
    requires db.ops[o].item == Some(Failed) && Live(db.ops[o].state)
    ensures db.ops[o].runs != []
    ensures var db' := After(db, RetryJob(db, j));
      LiveRun(db', o, |db.ops[o].runs| - 1) && db'.ops[o].state == Queued
  {
    LaggingItemRequeued(fold, db, db.jobs[j], o);
    assert OpOk(fold, db.ops[o]);
  }

  lemma QueuedWhileLive(db: Db, o: nat, k: nat)
    requires LiveRun(db, o, k) && db.ops[o].state == Queued
    ensures !Exclusive(db)
  {
  }

  // ---------------------------------------------------------------- the states these start from

  /** The worker has its head claim in the phase, and the operation is what it was up to its executions. */
  predicate InPhase(s: System, s': System, w: WorkerId, phase: Phase) {
    && Holds(s, w) && HasRun(s.db, Head(s, w).op, Head(s, w).run)
    && Holds(s', w) && Head(s', w) == Head(s, w).(phase := phase) && s'.workers[w].livy == s.workers[w].livy
    && HasRun(s'.db, Head(s, w).op, Head(s, w).run)
    && s'.db.ops[Head(s, w).op].command == s.db.ops[Head(s, w).op].command
    && s'.db.ops[Head(s, w).op].target == s.db.ops[Head(s, w).op].target
  }

  lemma Post(fold: string -> string, s: System, w: WorkerId)
    requires Holds(s, w) && HasRun(s.db, Head(s, w).op, Head(s, w).run)
    requires s.workers[w].livy && Head(s, w).phase == Fresh
    ensures Enabled(s, WorkerPost(w))
    ensures var s' := Step(fold, s, WorkerPost(w));
      InPhase(s, s', w, Posted(|s.batches|)) && s'.batches == s.batches + [Head(s, w).expected]
  {
  }

  lemma Record(fold: string -> string, s: System, w: WorkerId, b: nat)
    requires Holds(s, w) && HasRun(s.db, Head(s, w).op, Head(s, w).run)
    requires s.workers[w].livy && Head(s, w).phase == Posted(b)
    ensures Enabled(s, WorkerRecord(w))
    ensures var s' := Step(fold, s, WorkerRecord(w));
      InPhase(s, s', w, Awaiting(LivyBatch(b))) && s'.batches == s.batches
  {
  }

  lemma Receive(fold: string -> string, s: System, w: WorkerId, b: nat, before: TableDoc, after: TableDoc)
    requires Holds(s, w) && HasRun(s.db, Head(s, w).op, Head(s, w).run) && s.workers[w].livy
    requires Head(s, w).phase == Awaiting(LivyBatch(b)) && b < |s.batches|
    requires s.batches[b] == None || s.batches[b] == before.snapshot
    ensures Enabled(s, WorkerReceive(w, before, after))
    ensures InPhase(s, Step(fold, s, WorkerReceive(w, before, after)), w, Returned(Result(before, after)))
  {
  }

  lemma Verify(fold: string -> string, s: System, w: WorkerId, r: Result)
    requires Holds(s, w) && HasRun(s.db, Head(s, w).op, Head(s, w).run) && Head(s, w).phase == Returned(r)
    ensures Enabled(s, WorkerVerify(w))
    ensures InPhase(s, Step(fold, s, WorkerVerify(w)), w, Confirmed(r))
  {
  }

  /** A worker with a claim it has just taken can follow its batch to a result, and is then about to succeed. */
  lemma FollowedToResult(fold: string -> string, s: System, w: WorkerId, before: TableDoc, after: TableDoc)
    returns (run: seq<Action>)
    requires Holds(s, w) && HasRun(s.db, Head(s, w).op, Head(s, w).run)
    requires s.workers[w].livy && Head(s, w).phase == Fresh
    requires Head(s, w).expected == None || Head(s, w).expected == before.snapshot
    requires var op := s.db.ops[Head(s, w).op]; Acceptable(op.command, op.target, Result(before, after))
    ensures Allowed(fold, s, run) && Enabled(Final(fold, s, run), WorkerSucceed(w))
  {
    Post(fold, s, w);
    var s1 := Step(fold, s, WorkerPost(w));
    Record(fold, s1, w, |s.batches|);
    var s2 := Step(fold, s1, WorkerRecord(w));
    Receive(fold, s2, w, |s.batches|, before, after);
    var s3 := Step(fold, s2, WorkerReceive(w, before, after));
    Verify(fold, s3, w, Result(before, after));
    var s4 := Step(fold, s3, WorkerVerify(w));
    SucceedsRegardless(fold, s4, w);
    RunPrepended(fold, s3, WorkerVerify(w), []);
    run := [WorkerVerify(w)] + [];
    RunPrepended(fold, s2, WorkerReceive(w, before, after), run);
    run := [WorkerReceive(w, before, after)] + run;
    RunPrepended(fold, s1, WorkerRecord(w), run);
    run := [WorkerRecord(w)] + run;
    RunPrepended(fold, s, WorkerPost(w), run);
    run := [WorkerPost(w)] + run;
  }

  /** An approved operation, and then a worker that starts, claims it and gets as far as a result. */
  lemma ApprovedThenConfirmed(fold: string -> string, s: System, t: TableId, w: WorkerId) returns (run: seq<Action>)
    requires ApprovedAlone(s, t)
    ensures Allowed(fold, s, run) && Enabled(Final(fold, s, run), WorkerSucceed(w))
  {
    var doc := TableDoc(s.db.ops[0].planned, None, Absent, map[], map[]);
    NothingToRecover(s, w);
    var s1 := Step(fold, s, WorkerStart(w, true, false));
    var s2 := Step(fold, s1, WorkerClaim(w, 0));
    var rest := FollowedToResult(fold, s2, w, doc, doc);
    RunPrepended(fold, s1, WorkerClaim(w, 0), rest);
    RunPrepended(fold, s, WorkerStart(w, true, false), [WorkerClaim(w, 0)] + rest);
    run := [WorkerStart(w, true, false)] + ([WorkerClaim(w, 0)] + rest);
  }

  /** There are reachable states with a worker about to succeed, which is where a cancellation is overtaken and where
      a second worker does its worst. */
  lemma ConfirmedReachable(
    fold: string -> string, init: System, t: TableId, requester: string, approver: string, w: WorkerId)
    requires Init(init) && t in init.db.tables && init.db.tables[t].current.Some? && !init.db.tables[t].hadoop
    requires fold(requester) != fold(approver)
    ensures exists s :: Reachable(fold, s) && Enabled(s, WorkerSucceed(w))
  {
    var approve := ApprovedReachable(fold, init, t, requester, approver);
    var s2 := Final(fold, init, approve);
    var rest := ApprovedThenConfirmed(fold, s2, t, w);
    RunsJoined(fold, init, approve, rest);
    assert Reaches(fold, init, approve + rest);
    assert Reachable(fold, Final(fold, s2, rest));
  }
}
