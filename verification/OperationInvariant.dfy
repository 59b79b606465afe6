/** What is true of one operation row, with its decisions and executions, at every commit;
    what may happen to a row over time; and that every single write keeps the first and
    respects the second. */
module OperationInvariant {
  import opened Common
  import opened Operations

  predicate LastLive(op: Operation) { op.runs != [] && Live(op.runs[|op.runs| - 1].state) }

  /** The outcome of a verified execution is recorded, and was computed from the planned snapshot. */
  predicate OutcomeOk(run: Execution) {
    && run.result.Some?
    && run.before == run.result.value.before.snapshot
    && run.after == run.result.value.after.snapshot
    && (run.planned.Some? ==> run.before == run.planned)
  }

  predicate RunOk(op: Operation, k: nat)
    requires k < |op.runs|
  {
    var run := op.runs[k];
    && run.attempt == k + 1
    && (Live(run.state) || run.state in {Succeeded, Failed, Canceled})
    && (run.state in {Verifying, Succeeded} ==> OutcomeOk(run))
    && (run.state == Succeeded ==> Acceptable(op.command, op.target, run.result.value))
    && (run.state != Failed ==> k == |op.runs| - 1)
    && (run.state == Succeeded ==> op.state == Succeeded)
    && (run.state == Canceled ==> op.state == Canceled && op.cancelRequested)
  }

  predicate RunsOk(op: Operation) {
    && (forall k :: 0 <= k < |op.runs| ==> RunOk(op, k))
    && (Executing(op.state) <==> LastLive(op))
    && (LastLive(op) ==> op.runs[|op.runs| - 1].planned == op.planned)
    && (Live(op.state) ==> op.runs[|op.runs| - 1].state == op.state)
    && (op.state in {Succeeded, Failed} ==> op.runs != [] && op.runs[|op.runs| - 1].state == op.state)
  }

  predicate DecisionsOk(fold: string -> string, op: Operation) {
    && |op.decisions| <= 1
    && (forall i :: 0 <= i < |op.decisions| ==> fold(op.decisions[i].approver) != fold(op.requester))
    && (op.state == WaitingApproval ==> op.decisions == [])
    && (op.state == Rejected ==> op.decisions != [] && !op.decisions[0].approved)
    && (Active(op.state) || op.runs != [] ==> op.decisions != [] && op.decisions[0].approved)
    && (op.state in {CancelRequested, Canceled} ==> op.cancelRequested)
  }

  function Count(b: bool): nat { if b then 1 else 0 }

  /** The version counts the steps in the trail; every way into the queue is paid for by an
      approval or a retry, and every way out is a claim or a cancellation. */
  predicate LedgerOk(op: Operation) {
    && op.version == 1 + |op.trail|
    && |op.runs| + op.trail[Dequeued] + Count(op.state == Queued) == op.trail[Approved] + op.trail[Requeued]
    && op.trail[Approved] == Count(op.decisions != [] && op.decisions[0].approved)
    && op.trail[Approved] + op.trail[Refusal] == |op.decisions|
  }

  /** A bulk item may lag behind its operation only while that is queued or running: single
      retries, claims and verification do not write the item. */
  predicate ItemOk(op: Operation) {
    && (op.item.Some? <==> op.job.Some?)
    && (op.item.Some? ==>
          || op.item.value == op.state
          || (op.state in {Queued, Running, Verifying} &&
              op.item.value in {Failed, Queued, Running, Verifying, CancelRequested}))
  }

  predicate OpOk(fold: string -> string, op: Operation) {
    RunsOk(op) && DecisionsOk(fold, op) && LedgerOk(op) && ItemOk(op)
  }

  // ---------------------------------------------------------------- change over time

  predicate SameRequest(op: Operation, op': Operation) {
    && op'.table == op.table && op'.engine == op.engine && op'.command == op.command
    && op'.target == op.target && op'.requester == op.requester && op'.job == op.job
  }

  /** Executions are only added; an ended one is frozen; none changes its attempt or plan. */
  predicate RunsGrow(op: Operation, op': Operation) {
    && |op.runs| <= |op'.runs|
    && forall k :: 0 <= k < |op.runs| ==>
         && op'.runs[k].attempt == op.runs[k].attempt
         && op'.runs[k].planned == op.runs[k].planned
         && (Terminal(op.runs[k].state) ==> op'.runs[k] == op.runs[k])
  }

  /** While the version stands still nothing was decided, retried, canceled or ended: the row
      is the same up to the progress of its executions. */
  predicate SameEpoch(op: Operation, op': Operation) {
    && op'.trail == op.trail && op'.planned == op.planned && op'.decisions == op.decisions
    && op'.cancelRequested == op.cancelRequested
    && (op'.state == op.state || (Active(op.state) && Live(op'.state)))
  }

  /** What may become of an operation over any number of steps. */
  predicate Evolves(op: Operation, op': Operation) {
    && SameRequest(op, op')
    && RunsGrow(op, op')
    && op.version <= op'.version
    && op.trail <= op'.trail
    && op.decisions <= op'.decisions
    && (op'.version == op.version ==> SameEpoch(op, op'))
    && (op.state in {Succeeded, Rejected, Canceled} ==> op'.(item := op.item) == op)
    && (op.state == Failed && op'.state != Failed ==> op.trail[Requeued] < op'.trail[Requeued])
    && (op.state != WaitingApproval ==> op'.state != WaitingApproval)
    && (op'.trail[Requeued] == op.trail[Requeued] && op'.trail[Replanned] == op.trail[Replanned] ==>
         op'.planned == op.planned)
  }

  lemma EvolvesReflexive(op: Operation)
    ensures Evolves(op, op)
  {
    assert op.(item := op.item) == op;
  }

  lemma EvolvesTransitive(a: Operation, b: Operation, c: Operation)
    requires Evolves(a, b) && Evolves(b, c)
    ensures Evolves(a, c)
  {
    if a.state in {Succeeded, Rejected, Canceled} {
      assert b.state == a.state;
      assert c.(item := b.item) == b && b.(item := a.item) == a;
      assert c.(item := a.item) == a;
    }
    forall k | 0 <= k < |a.runs|
      ensures c.runs[k].attempt == a.runs[k].attempt && c.runs[k].planned == a.runs[k].planned
      ensures Terminal(a.runs[k].state) ==> c.runs[k] == a.runs[k]
    {
      assert b.runs[k].attempt == a.runs[k].attempt;
    }
    if a.state == Failed && c.state != Failed && b.state == Failed {
      assert a.trail[Requeued] <= b.trail[Requeued];
    }
    if c.version == a.version {
      assert SameEpoch(a, b) && SameEpoch(b, c);
    }
    assert a.trail[Requeued] <= b.trail[Requeued] <= c.trail[Requeued];
    assert a.trail[Replanned] <= b.trail[Replanned] <= c.trail[Replanned];
  }

  // ---------------------------------------------------------------- attempts

  lemma {:induction false} MaxAttemptIsLength(runs: seq<Execution>)
    requires forall k :: 0 <= k < |runs| ==> runs[k].attempt == k + 1
    ensures MaxAttempt(runs) == |runs|
  {
    if runs != [] {
      MaxAttemptIsLength(runs[..|runs| - 1]);
    }
  }

  // ---------------------------------------------------------------- one write at a time

  lemma CreatedOk(
    fold: string -> string, table: TableId, engine: Engine, command: Command, target: Option<Snapshot>,
    requester: string, job: Option<nat>, planned: Option<Snapshot>)
    ensures OpOk(fold, NewOperation(table, engine, command, target, requester, job, planned))
  {
  }

  lemma DecidedOk(fold: string -> string, op: Operation, approver: string, approved: bool)
    requires OpOk(fold, op) && op.state == WaitingApproval && fold(op.requester) != fold(approver)
    ensures var op' := Decided(op, approver, approved); OpOk(fold, op') && Evolves(op, op')
  {
    var op' := Decided(op, approver, approved);
    assert op.runs == [];
    assert !LastLive(op');
  }

  lemma RetriedOk(fold: string -> string, op: Operation, planned: Option<Snapshot>)
    requires OpOk(fold, op) && op.state == Failed
    ensures var op' := Retried(op, planned); OpOk(fold, op') && Evolves(op, op')
  {
    var op' := Retried(op, planned);
    forall k | 0 <= k < |op'.runs|
      ensures RunOk(op', k)
    {
      assert RunOk(op, k);
    }
  }

  lemma BulkRetriedOk(fold: string -> string, op: Operation, planned: Option<Snapshot>)
    requires OpOk(fold, op) && op.item == Some(Failed) && !Live(op.state)
    ensures var op' := BulkRetried(op, planned); OpOk(fold, op') && Evolves(op, op')
  {
    assert op.state in {Failed, Queued};
    var op' := BulkRetried(op, planned);
    forall k | 0 <= k < |op'.runs|
      ensures RunOk(op', k)
    {
      assert RunOk(op, k);
    }
  }

  lemma CanceledRowOk(fold: string -> string, op: Operation)
    requires OpOk(fold, op) && !Terminal(op.state)
    ensures var op' := CanceledRow(op); OpOk(fold, op') && Evolves(op, op')
  {
    var op' := CanceledRow(op);
    forall k | 0 <= k < |op'.runs|
      ensures RunOk(op', k)
    {
      assert RunOk(op, k);
    }
  }

  lemma RefreshedOk(fold: string -> string, op: Operation)
    requires OpOk(fold, op)
    ensures var op' := op.(item := SetItem(op.item, op.state)); OpOk(fold, op') && Evolves(op, op')
  {
    var op' := op.(item := SetItem(op.item, op.state));
    forall k | 0 <= k < |op'.runs|
      ensures RunOk(op', k)
    {
      assert RunOk(op, k);
    }
    assert op'.(item := op.item) == op;
  }

  lemma ClaimedRowOk(fold: string -> string, op: Operation, w: WorkerId)
    requires OpOk(fold, op) && op.state == Queued
    ensures var op' := ClaimedRow(op, w); OpOk(fold, op') && Evolves(op, op')
  {
    forall k | 0 <= k < |op.runs|
      ensures op.runs[k].attempt == k + 1 && op.runs[k].state == Failed
    {
      assert RunOk(op, k);
    }
    MaxAttemptIsLength(op.runs);
    var op' := ClaimedRow(op, w);
    forall k | 0 <= k < |op'.runs|
      ensures RunOk(op', k)
    {
      if k < |op.runs| {
        assert op'.runs[k] == op.runs[k];
      }
    }
  }

  /** The worker id and external id of a live execution may change freely. */
  lemma ReassignedOk(fold: string -> string, op: Operation, k: nat, w: WorkerId, ext: Option<ExternalId>)
    requires OpOk(fold, op) && LastLive(op) && k == |op.runs| - 1
    ensures var op' := SetRun(op, k, op.runs[k].(worker := w, external := ext)); OpOk(fold, op') && Evolves(op, op')
  {
    var op' := SetRun(op, k, op.runs[k].(worker := w, external := ext));
    forall i | 0 <= i < |op'.runs|
      ensures RunOk(op', i)
    {
      assert RunOk(op, i);
    }
  }

  lemma VerifyingRowOk(fold: string -> string, op: Operation, k: nat, r: Result)
    requires OpOk(fold, op) && LastLive(op) && k == |op.runs| - 1
    requires op.runs[k].planned.Some? ==> r.before.snapshot == op.runs[k].planned
    ensures var op' := VerifyingRow(op, k, r); OpOk(fold, op') && Evolves(op, op')
  {
    var op' := VerifyingRow(op, k, r);
    forall i | 0 <= i < |op'.runs|
      ensures RunOk(op', i)
    {
      assert RunOk(op, i);
    }
  }

  /** Ending the live execution: successfully if its verified result is acceptable, as
      canceled if that was asked for, as failed in any case. */
  lemma EndedRunOk(fold: string -> string, op: Operation, k: nat, s: State)
    requires OpOk(fold, op) && LastLive(op) && k == |op.runs| - 1
    requires s in {Succeeded, Failed, Canceled}
    requires s == Succeeded ==>
      op.runs[k].state == Verifying && op.runs[k].result.Some? &&
        Acceptable(op.command, op.target, op.runs[k].result.value)
    requires s == Canceled ==> op.cancelRequested
    ensures var op' := EndedRun(op, k, s); OpOk(fold, op') && Evolves(op, op')
  {
    var op' := EndedRun(op, k, s);
    forall i | 0 <= i < |op'.runs|
      ensures RunOk(op', i)
    {
      assert RunOk(op, i);
    }
  }
}
