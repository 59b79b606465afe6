/** The worker's transactions on the database, given what the worker knows: that the
    execution it holds is the last one of its operation and still live. */
module WorkerSteps {
  import opened Common
  import opened Operations
  import opened OperationInvariant
  import opened DbInvariant

  /** Execution `k` of operation `o` is its last one, and live. */
  predicate Held(db: Db, o: nat, k: nat) {
    o < |db.ops| && LastLive(db.ops[o]) && k == |db.ops[o].runs| - 1
  }

  /** Only operation `o` differs. */
  predicate OnlyOp(db: Db, db': Db, o: nat) {
    |db'.ops| == |db.ops| && forall x :: 0 <= x < |db.ops| && x != o ==> db'.ops[x] == db.ops[x]
  }

  predicate StepOn(fold: string -> string, db: Db, db': Db, o: nat) {
    DbInv(fold, db') && DbEvolves(db, db') && OnlyOp(db, db', o)
  }

  lemma ClaimRowOk(fold: string -> string, db: Db, w: WorkerId, hadoopScope: bool, o: nat)
    requires DbInv(fold, db) && Claimable(db, hadoopScope, o)
    ensures var db' := ClaimRow(db, w, o);
      && StepOn(fold, db, db', o)
      && Held(db', o, |db.ops[o].runs|)
      && db'.ops[o].runs[|db.ops[o].runs|] ==
           Execution(|db.ops[o].runs| + 1, Running, w, None, db.ops[o].planned, None, None, None)
      && db'.ops[o].planned == db.ops[o].planned
  {
    ClaimedRowOk(fold, db.ops[o], w);
    PutLockedOk(fold, db, o, ClaimedRow(db.ops[o], w));
    forall k | 0 <= k < |db.ops[o].runs|
      ensures db.ops[o].runs[k].attempt == k + 1
    {
      assert RunOk(db.ops[o], k);
    }
    MaxAttemptIsLength(db.ops[o].runs);
  }

  lemma MarkSubmittedOk(fold: string -> string, db: Db, o: nat, k: nat, ext: ExternalId)
    requires DbInv(fold, db) && Held(db, o, k)
    ensures StepOn(fold, db, MarkSubmitted(db, o, k, ext), o)
  {
    var run := db.ops[o].runs[k];
    ReassignedOk(fold, db.ops[o], k, run.worker, Some(ext));
    assert run.(external := Some(ext)) == run.(worker := run.worker, external := Some(ext));
    PutOk(fold, db, o, SetRun(db.ops[o], k, run.(external := Some(ext))));
  }

  lemma MarkVerifyingOk(fold: string -> string, db: Db, o: nat, k: nat, r: Result)
    requires DbInv(fold, db) && Held(db, o, k)
    requires db.ops[o].runs[k].planned.Some? ==> r.before.snapshot == db.ops[o].runs[k].planned
    ensures StepOn(fold, db, MarkVerifying(db, o, k, r), o)
  {
    VerifyingRowOk(fold, db.ops[o], k, r);
    PutOk(fold, db, o, VerifyingRow(db.ops[o], k, r));
  }

  /** The table row plays no part in the invariant, but for being there. */
  lemma ObservedOk(fold: string -> string, db: Db, t: TableId, r: Result)
    requires DbInv(fold, db)
    ensures DbInv(fold, Observed(db, t, r)) && Observed(db, t, r).ops == db.ops
  {
    var db' := Observed(db, t, r);
    forall j | 0 <= j < |db'.jobs|
      ensures JobOk(db', j)
    {
      assert JobOk(db, j);
    }
  }

  lemma MarkSucceededOk(fold: string -> string, db: Db, o: nat, k: nat, r: Result)
    requires DbInv(fold, db) && Held(db, o, k)
    requires db.ops[o].runs[k].state == Verifying && db.ops[o].runs[k].result == Some(r)
    requires Acceptable(db.ops[o].command, db.ops[o].target, r)
    ensures var out := MarkSucceeded(db, o, k, r);
      out.Done? && StepOn(fold, db, out.db, o)
  {
    EndedRunOk(fold, db.ops[o], k, Succeeded);
    var op' := EndedRun(db.ops[o], k, Succeeded);
    PutReleasedOk(fold, db, o, op');
    ObservedOk(fold, PutReleased(db, o, op'), db.ops[o].table, r);
  }

  lemma MarkFailedOk(fold: string -> string, db: Db, o: nat, k: nat)
    requires DbInv(fold, db) && Held(db, o, k)
    ensures StepOn(fold, db, MarkFailed(db, o, k), o)
  {
    EndedRunOk(fold, db.ops[o], k, Failed);
    PutReleasedOk(fold, db, o, EndedRun(db.ops[o], k, Failed));
  }

  lemma MarkCanceledOk(fold: string -> string, db: Db, o: nat, k: nat)
    requires DbInv(fold, db) && Held(db, o, k) && db.ops[o].cancelRequested
    ensures StepOn(fold, db, MarkCanceled(db, o, k), o)
  {
    EndedRunOk(fold, db.ops[o], k, Canceled);
    PutReleasedOk(fold, db, o, CanceledByWorker(db.ops[o], k));
  }

  // ---------------------------------------------------------------- recovery

  /** What recovery makes of one operation: a live execution of another worker is taken over
      or failed, everything else stays. */
  function RecoveredOp(op: Operation, w: WorkerId, livy: bool): Operation {
    if !LastLive(op) || op.runs[|op.runs| - 1].worker == w then op
    else
      var k := |op.runs| - 1;
      if Attachable(livy, op.runs[k]) then SetRun(op, k, op.runs[k].(worker := w)) else EndedRun(op, k, Failed)
  }

  lemma OnlyTheLastIsLive(fold: string -> string, op: Operation, k: nat)
    requires OpOk(fold, op) && k < |op.runs| && Live(op.runs[k].state)
    ensures LastLive(op) && k == |op.runs| - 1
  {
    assert RunOk(op, k);
  }

  lemma RecoverRunOk(fold: string -> string, db: Db, w: WorkerId, livy: bool, o: nat)
    requires DbInv(fold, db) && o < |db.ops| && db.ops[o].runs != []
    ensures var db' := RecoverRun(db, w, livy, o, |db.ops[o].runs| - 1);
      StepOn(fold, db, db', o) && db'.ops[o] == RecoveredOp(db.ops[o], w, livy)
  {
    QuietReflexive(db);
    var op := db.ops[o];
    var k := |op.runs| - 1;
    if Stale(db, w, o, k) {
      if Attachable(livy, op.runs[k]) {
        ReassignedOk(fold, op, k, w, op.runs[k].external);
        assert op.runs[k].(worker := w) == op.runs[k].(worker := w, external := op.runs[k].external);
        PutOk(fold, db, o, SetRun(op, k, op.runs[k].(worker := w)));
      } else {
        MarkFailedOk(fold, db, o, k);
      }
    }
  }

  lemma {:induction false} EarlierRunsUntouched(fold: string -> string, db: Db, w: WorkerId, livy: bool, o: nat, n: nat)
    requires DbInv(fold, db) && o < |db.ops| && n < |db.ops[o].runs|
    ensures RecoverRuns(db, w, livy, o, n) == db
  {
    if n > 0 {
      EarlierRunsUntouched(fold, db, w, livy, o, n - 1);
      assert RunOk(db.ops[o], n - 1);
    }
  }

  lemma RecoverRunsOk(fold: string -> string, db: Db, w: WorkerId, livy: bool, o: nat)
    requires DbInv(fold, db) && o < |db.ops|
    ensures var db' := RecoverRuns(db, w, livy, o, |db.ops[o].runs|);
      StepOn(fold, db, db', o) && db'.ops[o] == RecoveredOp(db.ops[o], w, livy)
  {
    QuietReflexive(db);
    var n := |db.ops[o].runs|;
    if n > 0 {
      EarlierRunsUntouched(fold, db, w, livy, o, n - 1);
      RecoverRunOk(fold, db, w, livy, o);
    }
  }

  lemma EvolvesTwice(a: Db, b: Db, c: Db)
    requires DbEvolves(a, b) && DbEvolves(b, c) && |a.ops| == |b.ops|
    ensures DbEvolves(a, c)
  {
    forall o | 0 <= o < |a.ops|
      ensures Evolves(a.ops[o], c.ops[o])
    {
      EvolvesTransitive(a.ops[o], b.ops[o], c.ops[o]);
    }
  }

  /** Recovery has been through the first `m` operations: it acted on each by itself. */
  predicate RecoveredUpTo(db: Db, db': Db, w: WorkerId, livy: bool, m: nat) {
    && |db'.ops| == |db.ops|
    && (forall o :: 0 <= o < |db.ops| && o < m ==> db'.ops[o] == RecoveredOp(db.ops[o], w, livy))
    && (forall o :: m <= o < |db.ops| ==> db'.ops[o] == db.ops[o])
  }

  /** How far recovery has come after the first `m` operations, and that all is well. */
  predicate RecoveryOk(fold: string -> string, db: Db, db': Db, w: WorkerId, livy: bool, m: nat) {
    DbInv(fold, db') && DbEvolves(db, db') && RecoveredUpTo(db, db', w, livy, m)
  }

  lemma RecoverNext(fold: string -> string, db: Db, mid: Db, db': Db, w: WorkerId, livy: bool, o: nat)
    requires o < |db.ops| && RecoveryOk(fold, db, mid, w, livy, o)
    requires db' == RecoverRuns(mid, w, livy, o, RunsOf(db, o))
    ensures RecoveryOk(fold, db, db', w, livy, o + 1)
  {
    RecoverRunsOk(fold, mid, w, livy, o);
    EvolvesTwice(db, mid, db');
  }

  /** The databases recovery passes through: `dbs[i]` is the one after the first `i` operations. */
  predicate PassAt(db: Db, dbs: seq<Db>, w: WorkerId, livy: bool, i: nat) {
    0 < i < |dbs| ==> dbs[i] == RecoverRuns(dbs[i - 1], w, livy, i - 1, RunsOf(db, i - 1))
  }

  lemma {:induction false} PassesOk(fold: string -> string, db: Db, dbs: seq<Db>, w: WorkerId, livy: bool, m: nat)
    requires DbInv(fold, db) && m <= |db.ops| && m < |dbs| && dbs[0] == db
    requires forall i: nat :: PassAt(db, dbs, w, livy, i)
    ensures RecoveryOk(fold, db, dbs[m], w, livy, m)
  {
    if m == 0 {
      QuietReflexive(db);
    } else {
      PassesOk(fold, db, dbs, w, livy, m - 1);
      assert PassAt(db, dbs, w, livy, m);
      RecoverNext(fold, db, dbs[m - 1], dbs[m], w, livy, m - 1);
    }
  }

  lemma RecoverOpsOk(fold: string -> string, db: Db, w: WorkerId, livy: bool, m: nat)
    requires DbInv(fold, db) && m <= |db.ops|
    ensures RecoveryOk(fold, db, RecoverOps(db, w, livy, m), w, livy, m)
  {
    var dbs := seq(m + 1, i requires 0 <= i <= m => RecoverOps(db, w, livy, i));
    PassesOk(fold, db, dbs, w, livy, m);
    assert dbs[m] == RecoverOps(db, w, livy, m);
  }

  /** What recovery does to one row. */
  lemma RecoveredRow(fold: string -> string, db: Db, w: WorkerId, livy: bool, o: nat)
    requires DbInv(fold, db) && o < |db.ops|
    ensures |Recover(db, w, livy).ops| == |db.ops| && Recover(db, w, livy).ops[o] == RecoveredOp(db.ops[o], w, livy)
  {
    RecoverOpsOk(fold, db, w, livy, |db.ops|);
  }

  /** The claim recovery resumes for operation `o`, if any. */
  predicate ResumedClaim(db: Db, w: WorkerId, livy: bool, c: Claim) {
    && Held(db, c.op, c.run)
    && var run := db.ops[c.op].runs[c.run];
       && run.worker != w && Attachable(livy, run)
       && c.expected == db.ops[c.op].planned && c.phase == Awaiting(run.external.value)
  }

  lemma {:induction false} EarlierRunsNotResumed(db: Db, w: WorkerId, livy: bool, o: nat, n: nat)
    requires o < |db.ops| && RunsOk(db.ops[o]) && n < |db.ops[o].runs|
    ensures ResumableRuns(db, w, livy, o, n) == []
  {
    if n > 0 {
      EarlierRunsNotResumed(db, w, livy, o, n - 1);
      assert RunOk(db.ops[o], n - 1);
    }
  }

  lemma ResumableRunsOk(db: Db, w: WorkerId, livy: bool, o: nat)
    requires o < |db.ops| && RunsOk(db.ops[o])
    ensures var cs := ResumableRuns(db, w, livy, o, |db.ops[o].runs|);
      |cs| <= 1 && (cs != [] ==> ResumedClaim(db, w, livy, cs[0]) && cs[0].op == o)
  {
    var n := |db.ops[o].runs|;
    if n > 0 {
      EarlierRunsNotResumed(db, w, livy, o, n - 1);
      assert ResumableRuns(db, w, livy, o, n) == ResumableRun(db, w, livy, o, n - 1);
    }
  }

  /** The claims are on executions recovery takes over, of distinct operations below `m`. */
  predicate ResumedClaims(db: Db, w: WorkerId, livy: bool, cs: seq<Claim>, m: nat) {
    && (forall i :: 0 <= i < |cs| ==> ResumedClaim(db, w, livy, cs[i]) && cs[i].op < m)
    && (forall i, j :: 0 <= i < j < |cs| ==> cs[i].op != cs[j].op)
  }

  lemma ResumedClaimsAppend(db: Db, w: WorkerId, livy: bool, front: seq<Claim>, last: seq<Claim>, o: nat)
    requires ResumedClaims(db, w, livy, front, o)
    requires |last| <= 1 && (last != [] ==> ResumedClaim(db, w, livy, last[0]) && last[0].op == o)
    ensures ResumedClaims(db, w, livy, front + last, o + 1)
  {
  }

  lemma OneMoreResumed(fold: string -> string, db: Db, w: WorkerId, livy: bool, o: nat, front: seq<Claim>)
    requires DbInv(fold, db) && o < |db.ops| && ResumedClaims(db, w, livy, front, o)
    ensures ResumedClaims(db, w, livy, front + ResumableRuns(db, w, livy, o, RunsOf(db, o)), o + 1)
  {
    assert OpOk(fold, db.ops[o]);
    ResumableRunsOk(db, w, livy, o);
    ResumedClaimsAppend(db, w, livy, front, ResumableRuns(db, w, livy, o, |db.ops[o].runs|), o);
  }

  /** The claims found so far: `found[i]` are those of the first `i` operations. */
  predicate FoundAt(db: Db, found: seq<seq<Claim>>, w: WorkerId, livy: bool, i: nat) {
    0 < i < |found| ==> found[i] == found[i - 1] + ResumableRuns(db, w, livy, i - 1, RunsOf(db, i - 1))
  }

  lemma {:induction false} FoundOk(
    fold: string -> string, db: Db, found: seq<seq<Claim>>, w: WorkerId, livy: bool, m: nat)
    requires DbInv(fold, db) && m <= |db.ops| && m < |found| && found[0] == []
    requires forall i: nat :: FoundAt(db, found, w, livy, i)
    ensures ResumedClaims(db, w, livy, found[m], m)
  {
    if m > 0 {
      FoundOk(fold, db, found, w, livy, m - 1);
      assert FoundAt(db, found, w, livy, m);
      OneMoreResumed(fold, db, w, livy, m - 1, found[m - 1]);
    }
  }

  lemma ResumableOpsOk(fold: string -> string, db: Db, w: WorkerId, livy: bool, m: nat)
    requires DbInv(fold, db) && m <= |db.ops|
    ensures ResumedClaims(db, w, livy, ResumableOps(db, w, livy, m), m)
  {
    var found := seq(m + 1, i requires 0 <= i <= m => ResumableOps(db, w, livy, i));
    FoundOk(fold, db, found, w, livy, m);
    assert found[m] == ResumableOps(db, w, livy, m);
  }
}
