/** What the steps of a run do to one operation, told from the actions alone: which of them take effect on it, and
    under which plan it then stands. The audit trail in its row, its version and its planned snapshot are proved
    to be exactly what this history says. */
module History {
  import opened Common
  import opened Operations
  import opened OperationInvariant
  import opened DbInvariant
  import opened WorkerSteps
  import opened Protocol

  // ---------------------------------------------------------------- bulk transactions, one operation at a time

  predicate Distinct(items: seq<nat>) { forall a, b :: 0 <= a < b < |items| ==> items[a] != items[b] }

  /** No operation is listed twice by a job. */
  predicate JobsDistinct(db: Db) { forall j :: 0 <= j < |db.jobs| ==> Distinct(db.jobs[j]) }

  /** A bulk cancellation cancels every listed operation that has not ended, once. */
  lemma {:induction false} CancelItemsAt(db: Db, items: seq<nat>, o: nat)
    requires o < |db.ops| && Distinct(items)
    ensures var db' := CancelItems(db, items);
      && |db'.ops| == |db.ops| && db'.jobs == db.jobs
      && db'.ops[o] == if o in items && !Terminal(db.ops[o].state) then CanceledRow(db.ops[o]) else db.ops[o]
  {
    if items == [] {
    } else {
      var front, last := items[..|items| - 1], items[|items| - 1];
      CancelItemsAt(db, front, o);
      assert items == front + [last];
      assert last !in front;
    }
  }

  /** When a bulk retry comes to operation `o`, it puts it back into the queue. */
  predicate BulkRequeues(db: Db, items: seq<nat>, o: nat) {
    exists n :: 0 <= n < |items| && items[n] == o && Retriable(RetryItems(db, items[..n]), o)
  }

  lemma BulkRequeuesGrows(db: Db, items: seq<nat>, o: nat)
    requires items != []
    ensures var front := items[..|items| - 1];
      BulkRequeues(db, items, o) <==>
        BulkRequeues(db, front, o) || (items[|items| - 1] == o && Retriable(RetryItems(db, front), o))
  {
    var front := items[..|items| - 1];
    assert forall n :: 0 <= n < |front| ==> front[..n] == items[..n];
    if BulkRequeues(db, front, o) {
      var n :| 0 <= n < |front| && front[n] == o && Retriable(RetryItems(db, front[..n]), o);
      assert items[n] == o && Retriable(RetryItems(db, items[..n]), o);
    }
  }

  /** A bulk retry requeues every operation whose turn finds it retriable, once, and counts it. */
  lemma {:induction false} RetryItemsAt(db: Db, items: seq<nat>, o: nat)
    requires o < |db.ops| && Distinct(items)
    ensures var db' := RetryItems(db, items);
      && |db'.ops| == |db.ops| && db'.jobs == db.jobs && db'.tables == db.tables
      && db'.ops[o] ==
           if BulkRequeues(db, items, o) then BulkRetried(db.ops[o], CurrentOf(db, db.ops[o].table)) else db.ops[o]
    ensures o !in items ==> !BulkRequeues(db, items, o)
    ensures BulkRequeues(db, items, o) ==> RetriedCount(db, items) > 0
  {
    if items == [] {
    } else {
      var front, last := items[..|items| - 1], items[|items| - 1];
      RetryItemsAt(db, front, o);
      BulkRequeuesGrows(db, items, o);
      assert items == front + [last];
      assert last !in front;
    }
  }

  // ---------------------------------------------------------------- events

  /** What a cancellation is recorded as, by the state it finds. */
  function CancelEvent(s: State): Event {
    if s == Queued then Dequeued else if s == WaitingApproval then Withdrawn else CancelAsked
  }

  /** What an action does to operation `o`: the first of the decisive steps it takes effect on, if any. Only the
      action and the state before it are looked at. */
  function EventOf(fold: string -> string, s: System, a: Action, o: nat): Option<Event>
    requires o < |s.db.ops|
  {
    var op := s.db.ops[o];
    match a
    case ApiDecide(p, approver, decision) =>
      if p == o && Decide(s.db, fold, o, approver, decision).Done? then
        Some(if ParseDecision(decision) == Some(true) then Approved else Refusal)
      else None
    case ApiRetry(p) => if p == o && Retry(s.db, o).Done? then Some(Requeued) else None
    case ApiCancel(p, v) =>
      if p == o && Cancel(s.db, o, v).Done? && op.state != Canceled then Some(CancelEvent(op.state)) else None
    case ApiCancelJob(j) =>
      if j < |s.db.jobs| && o in s.db.jobs[j] && !Terminal(op.state) then Some(CancelEvent(op.state)) else None
    case ApiRetryJob(j) =>
      if j < |s.db.jobs| && BulkRequeues(s.db, s.db.jobs[j], o) then
        Some(if op.state == Queued then Replanned else Requeued)
      else None
    case WorkerStart(w, livy, _) =>
      if LastLive(op) && op.runs[|op.runs| - 1].worker != w && !Attachable(livy, op.runs[|op.runs| - 1])
        then Some(Ended)
      else None
    case WorkerSucceed(w) => if Holds(s, w) && Head(s, w).op == o then Some(Ended) else None
    case WorkerStop(w) => if Holds(s, w) && Head(s, w).op == o then Some(Ended) else None
    case WorkerFail(w) => if Holds(s, w) && Head(s, w).op == o then Some(Ended) else None
    case _ => None
  }

  function Recorded(e: Option<Event>): multiset<Event> { if e.Some? then multiset{e.value} else multiset{} }

  predicate Replans(e: Option<Event>) { e == Some(Requeued) || e == Some(Replanned) }

  /** The row after a step has recorded its event, and has a new plan exactly if that was a retry. */
  predicate Follows(s: System, op: Operation, op': Operation, e: Option<Event>) {
    && op'.trail == op.trail + Recorded(e)
    && op'.planned == if Replans(e) then CurrentOf(s.db, op.table) else op.planned
  }

  // ---------------------------------------------------------------- one action at a time

  lemma DecideAt(fold: string -> string, db: Db, p: nat, approver: string, decision: string, o: nat)
    requires o < |db.ops|
    ensures var r := Decide(db, fold, p, approver, decision);
      && |After(db, r).ops| == |db.ops|
      && After(db, r).ops[o] ==
           if p == o && r.Done? then Decided(db.ops[o], approver, ParseDecision(decision) == Some(true)) else db.ops[o]
  {
  }

  lemma CancelAt(db: Db, p: nat, v: Option<int>, o: nat)
    requires o < |db.ops|
    ensures var r := Cancel(db, p, v);
      && |After(db, r).ops| == |db.ops|
      && After(db, r).ops[o] ==
           if p == o && r.Done? && db.ops[o].state != Canceled then CanceledRow(db.ops[o]) else db.ops[o]
  {
  }

  lemma CanceledRowEvent(op: Operation)
    requires !Terminal(op.state)
    ensures CanceledRow(op).trail == op.trail + multiset{CancelEvent(op.state)} && CanceledRow(op).planned == op.planned
  {
  }

  lemma EndAt(fold: string -> string, s: System, a: Action, o: nat)
    requires Enabled(s, a) && o < |s.db.ops| && Ending(a) && !a.WorkerNotice?
    requires HasRun(s.db, Head(s, a.w).op, Head(s, a.w).run)
    ensures var db' := Step(fold, s, a).db;
      && |db'.ops| == |s.db.ops|
      && (o != Head(s, a.w).op ==> db'.ops[o] == s.db.ops[o])
      && (o == Head(s, a.w).op ==>
           db'.ops[o].trail == s.db.ops[o].trail + multiset{Ended} && db'.ops[o].planned == s.db.ops[o].planned)
  {
  }

  lemma CreateEvent(fold: string -> string, s: System, a: Action, o: nat)
    requires Enabled(s, a) && o < |s.db.ops|
    requires a.ApiCreate? || a.ApiCreateBulk?
    ensures var s' := Step(fold, s, a);
      o < |s'.db.ops| && Follows(s, s.db.ops[o], s'.db.ops[o], EventOf(fold, s, a, o))
  {
  }

  lemma DecideEvent(fold: string -> string, s: System, a: Action, o: nat)
    requires Enabled(s, a) && o < |s.db.ops|
    requires a.ApiDecide?
    ensures var s' := Step(fold, s, a);
      o < |s'.db.ops| && Follows(s, s.db.ops[o], s'.db.ops[o], EventOf(fold, s, a, o))
  {
    DecideAt(fold, s.db, a.o, a.approver, a.decision, o);
  }

  lemma RetryEvent(fold: string -> string, s: System, a: Action, o: nat)
    requires Enabled(s, a) && o < |s.db.ops|
    requires a.ApiRetry?
    ensures var s' := Step(fold, s, a);
      o < |s'.db.ops| && Follows(s, s.db.ops[o], s'.db.ops[o], EventOf(fold, s, a, o))
  {
  }

  lemma CancelEventOk(fold: string -> string, s: System, a: Action, o: nat)
    requires Enabled(s, a) && o < |s.db.ops|
    requires a.ApiCancel?
    ensures var s' := Step(fold, s, a);
      o < |s'.db.ops| && Follows(s, s.db.ops[o], s'.db.ops[o], EventOf(fold, s, a, o))
  {
    CancelAt(s.db, a.o, a.expectedVersion, o);
    if !Terminal(s.db.ops[o].state) {
      CanceledRowEvent(s.db.ops[o]);
    }
  }

  lemma CancelJobEvent(fold: string -> string, s: System, a: Action, o: nat)
    requires Enabled(s, a) && o < |s.db.ops| && JobsDistinct(s.db)
    requires a.ApiCancelJob?
    ensures var s' := Step(fold, s, a);
      o < |s'.db.ops| && Follows(s, s.db.ops[o], s'.db.ops[o], EventOf(fold, s, a, o))
  {
    if a.j < |s.db.jobs| {
      assert Distinct(s.db.jobs[a.j]);
      CancelItemsAt(s.db, s.db.jobs[a.j], o);
    }
  }

  lemma RetryJobEvent(fold: string -> string, s: System, a: Action, o: nat)
    requires Enabled(s, a) && o < |s.db.ops| && JobsDistinct(s.db)
    requires a.ApiRetryJob?
    ensures var s' := Step(fold, s, a);
      o < |s'.db.ops| && Follows(s, s.db.ops[o], s'.db.ops[o], EventOf(fold, s, a, o))
  {
    if a.j < |s.db.jobs| {
      assert Distinct(s.db.jobs[a.j]);
      RetryItemsAt(s.db, s.db.jobs[a.j], o);
    }
  }

  lemma RefreshEvent(fold: string -> string, s: System, a: Action, o: nat)
    requires Enabled(s, a) && o < |s.db.ops|
    requires a.ApiRefreshJob?
    ensures var s' := Step(fold, s, a);
      o < |s'.db.ops| && Follows(s, s.db.ops[o], s'.db.ops[o], EventOf(fold, s, a, o))
  {
    if a.j < |s.db.jobs| {
      RefreshItemsExactly(s.db, s.db.jobs[a.j]);
    }
  }

  lemma IdleEvent(fold: string -> string, s: System, a: Action, o: nat)
    requires Enabled(s, a) && o < |s.db.ops|
    requires a.TableSync? || a.WorkerCrash? || a.WorkerPost? || a.WorkerReceive? || a.WorkerNotice?
    ensures var s' := Step(fold, s, a);
      o < |s'.db.ops| && Follows(s, s.db.ops[o], s'.db.ops[o], EventOf(fold, s, a, o))
  {
  }

  lemma WorkEvent(fold: string -> string, s: System, a: Action, o: nat)
    requires Enabled(s, a) && o < |s.db.ops|
    requires a.WorkerClaim? || a.WorkerRecord? || a.WorkerVerify?
    ensures var s' := Step(fold, s, a);
      o < |s'.db.ops| && Follows(s, s.db.ops[o], s'.db.ops[o], EventOf(fold, s, a, o))
  {
  }

  lemma EndEvent(fold: string -> string, s: System, a: Action, o: nat)
    requires Enabled(s, a) && o < |s.db.ops|
    requires a.WorkerSucceed? || a.WorkerStop? || a.WorkerFail?
    requires HasRun(s.db, Head(s, a.w).op, Head(s, a.w).run)
    ensures var s' := Step(fold, s, a);
      o < |s'.db.ops| && Follows(s, s.db.ops[o], s'.db.ops[o], EventOf(fold, s, a, o))
  {
    EndAt(fold, s, a, o);
  }

  lemma RecoveredEvent(op: Operation, w: WorkerId, livy: bool)
    ensures var op', k := RecoveredOp(op, w, livy), |op.runs| - 1;
      && op'.planned == op.planned
      && op'.trail == op.trail +
           if LastLive(op) && op.runs[k].worker != w && !Attachable(livy, op.runs[k]) then multiset{Ended}
           else multiset{}
  {
  }

  lemma StartEvent(fold: string -> string, s: System, a: Action, o: nat)
    requires DbInv(fold, s.db) && Enabled(s, a) && o < |s.db.ops| && a.WorkerStart?
    ensures var s' := Step(fold, s, a);
      o < |s'.db.ops| && Follows(s, s.db.ops[o], s'.db.ops[o], EventOf(fold, s, a, o))
  {
    RecoveredRow(fold, s.db, a.w, a.livy, o);
    RecoveredEvent(s.db.ops[o], a.w, a.livy);
  }

  lemma EndingHasRun(fold: string -> string, s: System, a: Action)
    requires Inv(fold, s) && Enabled(s, a) && Ending(a)
    ensures HasRun(s.db, Head(s, a.w).op, Head(s, a.w).run)
  {
    HeadHeld(fold, s, a.w);
  }

  /** Every step does to every operation what its event says, and no more: the trail grows by the event, and only
      a retry changes the plan, to the table's current snapshot. */
  lemma StepFollowsEvent(fold: string -> string, s: System, a: Action, o: nat)
    requires Inv(fold, s) && JobsDistinct(s.db) && Enabled(s, a) && o < |s.db.ops|
    ensures o < |Step(fold, s, a).db.ops|
    ensures Follows(s, s.db.ops[o], Step(fold, s, a).db.ops[o], EventOf(fold, s, a, o))
  {
    if a.ApiCreate? || a.ApiCreateBulk? {
      CreateEvent(fold, s, a, o);
    } else if a.ApiDecide? {
      DecideEvent(fold, s, a, o);
    } else if a.ApiRetry? {
      RetryEvent(fold, s, a, o);
    } else if a.ApiCancel? {
      CancelEventOk(fold, s, a, o);
    } else if a.ApiCancelJob? {
      CancelJobEvent(fold, s, a, o);
    } else if a.ApiRetryJob? {
      RetryJobEvent(fold, s, a, o);
    } else if a.ApiRefreshJob? {
      RefreshEvent(fold, s, a, o);
    } else if a.WorkerStart? {
      StartEvent(fold, s, a, o);
    } else if a.WorkerSucceed? || a.WorkerStop? || a.WorkerFail? {
      EndingHasRun(fold, s, a);
      EndEvent(fold, s, a, o);
    } else if a.WorkerClaim? || a.WorkerRecord? || a.WorkerVerify? {
      WorkEvent(fold, s, a, o);
    } else {
      IdleEvent(fold, s, a, o);
    }
  }

  // ---------------------------------------------------------------- jobs and new rows

  lemma {:induction false} ItemsKeepJobs(db: Db, items: seq<nat>)
    ensures CancelItems(db, items).jobs == db.jobs && |CancelItems(db, items).ops| == |db.ops|
    ensures RetryItems(db, items).jobs == db.jobs && |RetryItems(db, items).ops| == |db.ops|
  {
    if items == [] {
    } else {
      ItemsKeepJobs(db, items[..|items| - 1]);
    }
  }

  lemma {:induction false} RecoverRunsKeepsJobs(db: Db, w: WorkerId, livy: bool, o: nat, n: nat)
    ensures var db' := RecoverRuns(db, w, livy, o, n); db'.jobs == db.jobs && |db'.ops| == |db.ops|
  {
    if n == 0 {
    } else {
      RecoverRunsKeepsJobs(db, w, livy, o, n - 1);
    }
  }

  lemma {:induction false} RecoverKeepsJobs(db: Db, w: WorkerId, livy: bool, m: nat)
    ensures var db' := RecoverOps(db, w, livy, m); db'.jobs == db.jobs && |db'.ops| == |db.ops|
  {
    if m == 0 {
    } else {
      RecoverKeepsJobs(db, w, livy, m - 1);
      RecoverRunsKeepsJobs(RecoverOps(db, w, livy, m - 1), w, livy, m - 1, RunsOf(db, m - 1));
    }
  }

  /** Only the two creations add operations or jobs. */
  lemma OthersAddNothing(fold: string -> string, s: System, a: Action)
    requires Enabled(s, a) && !a.ApiCreate? && !a.ApiCreateBulk?
    ensures var db' := Step(fold, s, a).db; db'.jobs == s.db.jobs && |db'.ops| == |s.db.ops|
  {
    match a {
      case ApiCancelJob(j) =>
        if j < |s.db.jobs| {
          ItemsKeepJobs(s.db, s.db.jobs[j]);
        }
      case ApiRetryJob(j) =>
        if j < |s.db.jobs| {
          ItemsKeepJobs(s.db, s.db.jobs[j]);
        }
      case ApiRefreshJob(j) =>
        if j < |s.db.jobs| {
          RefreshItemsExactly(s.db, s.db.jobs[j]);
        }
      case WorkerStart(w, livy, _) => RecoverKeepsJobs(s.db, w, livy, |s.db.ops|);
      case _ =>
    }
  }

  /** A new operation has no past, and the jobs stay free of repetitions. */
  lemma CreationsAreFresh(fold: string -> string, s: System, a: Action)
    requires Enabled(s, a) && JobsDistinct(s.db)
    ensures var db' := Step(fold, s, a).db;
      && |s.db.ops| <= |db'.ops| && JobsDistinct(db')
      && forall o :: |s.db.ops| <= o < |db'.ops| ==> db'.ops[o].trail == multiset{}
  {
    if !a.ApiCreate? && !a.ApiCreateBulk? {
      OthersAddNothing(fold, s, a);
    }
  }

  // ---------------------------------------------------------------- whole runs

  /** The events of a run on operation `o`. */
  function Events(fold: string -> string, s: System, run: seq<Action>, o: nat): multiset<Event>
    requires Allowed(fold, s, run)
    decreases |run|
  {
    if run == [] then multiset{}
    else
      (if o < |s.db.ops| then Recorded(EventOf(fold, s, run[0], o)) else multiset{}) +
      Events(fold, Step(fold, s, run[0]), run[1..], o)
  }

  lemma {:induction false} JobsStayDistinct(fold: string -> string, s: System, run: seq<Action>)
    requires JobsDistinct(s.db) && Allowed(fold, s, run)
    ensures JobsDistinct(Final(fold, s, run).db)
    decreases |run|
  {
    if run == [] {
    } else {
      CreationsAreFresh(fold, s, run[0]);
      JobsStayDistinct(fold, Step(fold, s, run[0]), run[1..]);
    }
  }

  /** The trail in a row is the history of the run: nothing is missing and nothing is made up. */
  lemma {:induction false} TrailIsHistory(fold: string -> string, s: System, run: seq<Action>, o: nat)
    requires Inv(fold, s) && JobsDistinct(s.db) && Allowed(fold, s, run) && o < |Final(fold, s, run).db.ops|
    ensures Final(fold, s, run).db.ops[o].trail ==
      (if o < |s.db.ops| then s.db.ops[o].trail else multiset{}) + Events(fold, s, run, o)
    decreases |run|
  {
    if run == [] {
    } else {
      var mid := Step(fold, s, run[0]);
      StepOk(fold, s, run[0]);
      CreationsAreFresh(fold, s, run[0]);
      if o < |s.db.ops| {
        StepFollowsEvent(fold, s, run[0], o);
      }
      TrailIsHistory(fold, mid, run[1..], o);
    }
  }

  // ---------------------------------------------------------------- plans

  /** The plan a run leaves operation `o` with, when it stands under plan `p` before: that of the last retry, which
      is the table's current snapshot at that moment. */
  function PlanBy(
    fold: string -> string, s: System, run: seq<Action>, o: nat, p: Option<Snapshot>): Option<Snapshot>
    requires Allowed(fold, s, run)
    decreases |run|
  {
    if run == [] then p
    else
      PlanBy(fold, Step(fold, s, run[0]), run[1..], o,
             if o < |s.db.ops| && Replans(EventOf(fold, s, run[0], o)) then CurrentOf(s.db, s.db.ops[o].table) else p)
  }

  lemma {:induction false} PlanIsHistory(fold: string -> string, s: System, run: seq<Action>, o: nat)
    requires Inv(fold, s) && JobsDistinct(s.db) && Allowed(fold, s, run) && o < |s.db.ops|
    ensures o < |Final(fold, s, run).db.ops|
    ensures Final(fold, s, run).db.ops[o].planned == PlanBy(fold, s, run, o, s.db.ops[o].planned)
    decreases |run|
  {
    if run == [] {
    } else {
      StepOk(fold, s, run[0]);
      CreationsAreFresh(fold, s, run[0]);
      StepFollowsEvent(fold, s, run[0], o);
      PlanIsHistory(fold, Step(fold, s, run[0]), run[1..], o);
    }
  }

  /** In every state of the run operation `o` stands under plan `p`. */
  predicate PlanStays(fold: string -> string, s: System, run: seq<Action>, o: nat, p: Option<Snapshot>)
    requires Allowed(fold, s, run)
    decreases |run|
  {
    && o < |s.db.ops| && s.db.ops[o].planned == p
    && (run == [] || PlanStays(fold, Step(fold, s, run[0]), run[1..], o, p))
  }

  /** A retry of operation `o` that finds its table on another snapshot than the planned one. */
  predicate MeetsMovedTable(fold: string -> string, s: System, a: Action, o: nat) {
    && o < |s.db.ops| && Replans(EventOf(fold, s, a, o))
    && CurrentOf(s.db, s.db.ops[o].table) != s.db.ops[o].planned
  }

  predicate NoRetryMeetsMovedTable(fold: string -> string, s: System, run: seq<Action>, o: nat)
    requires Allowed(fold, s, run)
    decreases |run|
  {
    run == [] ||
    (!MeetsMovedTable(fold, s, run[0], o) && NoRetryMeetsMovedTable(fold, Step(fold, s, run[0]), run[1..], o))
  }

  lemma {:induction false} PlanStaysExactly(fold: string -> string, s: System, run: seq<Action>, o: nat)
    requires Inv(fold, s) && JobsDistinct(s.db) && Allowed(fold, s, run) && o < |s.db.ops|
    ensures PlanStays(fold, s, run, o, s.db.ops[o].planned) <==> NoRetryMeetsMovedTable(fold, s, run, o)
    decreases |run|
  {
    if run == [] {
    } else {
      var mid := Step(fold, s, run[0]);
      StepOk(fold, s, run[0]);
      CreationsAreFresh(fold, s, run[0]);
      StepFollowsEvent(fold, s, run[0], o);
      PlanStaysExactly(fold, mid, run[1..], o);
      if mid.db.ops[o].planned != s.db.ops[o].planned {
        assert !PlanStays(fold, mid, run[1..], o, s.db.ops[o].planned);
      }
    }
  }
}
