/** What each transaction leaves behind, field by field, in every reachable state; and which of the refusals it gives
    otherwise. The rows, words and results are spelled out here, not taken from the functions they are proved of. */
module Effects {
  import opened Common
  import opened Operations
  import opened Requirements
  import opened OperationInvariant
  import opened DbInvariant
  import opened WorkerSteps
  import opened Protocol
  import opened History
  import opened Guarantees

  /** Row `o` is now `op'`, and all other rows, the tables and the jobs are as they were. */
  predicate Becomes(db: Db, db': Db, o: nat, op': Operation) {
    && o < |db.ops| == |db'.ops| && db'.ops[o] == op'
    && (forall p :: 0 <= p < |db.ops| && p != o ==> db'.ops[p] == db.ops[p])
    && db'.tables == db.tables && db'.jobs == db.jobs
  }

  predicate TakesTable(db: Db, db': Db, o: nat)
    requires o < |db.ops|
  {
    db'.locks == db.locks[db.ops[o].table := o]
  }

  predicate FreesTable(db: Db, db': Db, o: nat)
    requires o < |db.ops|
  {
    db'.locks == db.locks - {db.ops[o].table}
  }

  /** The item an operation has if it belongs to a job, in the given state. */
  function ItemIn(op: Operation, s: State): Option<State> { if op.job.Some? then Some(s) else None }

  // ---------------------------------------------------------------- locks

  /** To delete the locks that name an active operation is to unlock its table. */
  lemma OneLockReleased(db: Db, o: nat)
    requires LocksOk(db) && o < |db.ops| && Active(db.ops[o].state)
    ensures WithoutLocksOf(db.locks, o) == db.locks - {db.ops[o].table}
  {
    var t := db.ops[o].table;
    assert forall u :: u in db.locks && db.locks[u] == o <==> u == t;
    assert WithoutLocksOf(db.locks, o).Keys == (db.locks - {t}).Keys;
  }

  lemma NoLockReleased(db: Db, o: nat)
    requires LocksOk(db) && o < |db.ops| && !Active(db.ops[o].state)
    ensures WithoutLocksOf(db.locks, o) == db.locks
  {
    assert forall t :: t in db.locks ==> db.locks[t] != o;
    assert WithoutLocksOf(db.locks, o).Keys == db.locks.Keys;
  }

  // ---------------------------------------------------------------- creation

  /** A row made from a request. */
  predicate Requested(
    op: Operation, table: TableId, engine: Engine, command: Command, target: Option<Snapshot>, requester: string,
    job: Option<nat>)
  {
    && op.table == table && op.engine == engine && op.command == command && op.target == target
    && op.requester == requester && op.job == job
  }

  /** It waits for a decision under the given plan, and nothing has happened to it. */
  predicate Untouched(op: Operation, planned: Option<Snapshot>) {
    && op.state == WaitingApproval && op.version == 1 && op.planned == planned && !op.cancelRequested
    && op.item == ItemIn(op, WaitingApproval) && op.decisions == [] && op.runs == []
  }

  /** The operation with that number is the one that was requested. */
  predicate RequestedAt(
    db: Db, o: nat, table: TableId, engine: Engine, command: Command, target: Option<Snapshot>, requester: string,
    job: Option<nat>)
  {
    o < |db.ops| && Requested(db.ops[o], table, engine, command, target, requester, job)
  }

  lemma RequestStands(
    fold: string -> string, s: System, run: seq<Action>, o: nat, table: TableId, engine: Engine, command: Command,
    target: Option<Snapshot>, requester: string, job: Option<nat>)
    requires Inv(fold, s) && Allowed(fold, s, run)
    requires RequestedAt(s.db, o, table, engine, command, target, requester, job)
    ensures RequestedAt(Final(fold, s, run).db, o, table, engine, command, target, requester, job)
  {
    EveryRunOk(fold, s, run);
    assert Evolves(s.db.ops[o], Final(fold, s, run).db.ops[o]);
  }

  /** A request for one operation is refused exactly for an unknown table, a procedure the engine cannot run, or a table
      without a snapshot, in that order. Otherwise there is one new operation, waiting, planned for the table's current
      snapshot; and whatever happens next, it stays the operation that was requested. */
  lemma CreationStands(
    fold: string -> string, s: System, table: TableId, engine: Engine, command: Command, target: Option<Snapshot>,
    requester: string, run: seq<Action>)
    requires Reachable(fold, s)
    requires Allowed(fold, Step(fold, s, ApiCreate(table, engine, command, target, requester)), run)
    ensures var db, r := s.db, Create(s.db, table, engine, command, target, requester);
      && (table !in db.tables ==> r == Refused(NotFound))
      && (table in db.tables && command in Unsupporting(engine) ==> r == Refused(Unsupported))
      && (table in db.tables && command !in Unsupporting(engine) ==>
           if db.tables[table].current.None? then r == Refused(NoSnapshot)
           else
             && r.Done? && db.ops < r.db.ops && |r.db.ops| == |db.ops| + 1 && r.db == db.(ops := r.db.ops)
             && Untouched(r.db.ops[|db.ops|], db.tables[table].current)
             && RequestedAt(Final(fold, Step(fold, s, ApiCreate(table, engine, command, target, requester)), run).db,
                            |db.ops|, table, engine, command, target, requester, None))
  {
    var a := ApiCreate(table, engine, command, target, requester);
    ReachableOk(fold, s);
    CreateOk(fold, s.db, table, engine, command, target, requester);
    ApiFrame(fold, s, Step(fold, s, a).db);
    if Create(s.db, table, engine, command, target, requester).Done? {
      RequestStands(fold, Step(fold, s, a), run, |s.db.ops|, table, engine, command, target, requester, None);
    }
  }

  predicate AllKnown(db: Db, tables: seq<TableId>) { forall i :: 0 <= i < |tables| ==> tables[i] in db.tables }

  predicate AllPlannable(db: Db, tables: seq<TableId>)
    requires AllKnown(db, tables)
  {
    forall i :: 0 <= i < |tables| ==> db.tables[tables[i]].current.Some?
  }

  /** A bulk request is refused exactly for a procedure the engine cannot run, an unknown table or one without a
      snapshot, in that order. */
  lemma BulkCreationRefused(
    db: Db, tables: seq<TableId>, engine: Engine, command: Command, target: Option<Snapshot>, requester: string)
    ensures var r := CreateBulk(db, tables, engine, command, target, requester);
      && (command in Unsupporting(engine) ==> r == Refused(Unsupported))
      && (command !in Unsupporting(engine) && !AllKnown(db, tables) ==> r == Refused(NotFound))
      && (command !in Unsupporting(engine) && AllKnown(db, tables) && !AllPlannable(db, tables) ==>
           r == Refused(NoSnapshot))
      && (r.Done? <==> command !in Unsupporting(engine) && AllKnown(db, tables) && AllPlannable(db, tables))
  {
    assert forall t :: t in tables <==> exists i :: 0 <= i < |tables| && tables[i] == t;
  }

  /** The new operation at place `i` of the new job, and that nothing else has changed. */
  predicate Appended(db: Db, db': Db, n: nat, i: nat, planned: Option<Snapshot>) {
    && db.ops <= db'.ops && |db'.ops| == |db.ops| + n && db' == db.(ops := db'.ops, jobs := db'.jobs)
    && |db'.jobs| == |db.jobs| + 1 && db.jobs <= db'.jobs && |db'.jobs[|db.jobs|]| == n
    && i < n && db'.jobs[|db.jobs|][i] == |db.ops| + i && Untouched(db'.ops[|db.ops| + i], planned)
  }

  lemma BulkAppended(
    db: Db, tables: seq<TableId>, engine: Engine, command: Command, target: Option<Snapshot>, requester: string, i: nat)
    requires i < |tables| && CreateBulk(db, tables, engine, command, target, requester).Done?
    ensures tables[i] in db.tables
    ensures var db' := CreateBulk(db, tables, engine, command, target, requester).db;
      && Appended(db, db', |tables|, i, db.tables[tables[i]].current)
      && RequestedAt(db', |db.ops| + i, tables[i], engine, command, target, requester, Some(|db.jobs|))
  {
    assert tables[i] in tables;
  }

  lemma BulkCreationEffect(
    s: System, tables: seq<TableId>, engine: Engine, command: Command, target: Option<Snapshot>, requester: string,
    db': Db, i: nat)
    requires i < |tables| && command !in Unsupporting(engine) && AllKnown(s.db, tables) && AllPlannable(s.db, tables)
    requires db' == After(s.db, CreateBulk(s.db, tables, engine, command, target, requester))
    ensures Appended(s.db, db', |tables|, i, s.db.tables[tables[i]].current)
    ensures RequestedAt(db', |s.db.ops| + i, tables[i], engine, command, target, requester, Some(|s.db.jobs|))
  {
    BulkCreationRefused(s.db, tables, engine, command, target, requester);
    BulkAppended(s.db, tables, engine, command, target, requester, i);
  }

  lemma BulkInv(
    fold: string -> string, s: System, tables: seq<TableId>, engine: Engine, command: Command,
    target: Option<Snapshot>, requester: string)
    requires Reachable(fold, s)
    ensures Inv(fold, s.(db := After(s.db, CreateBulk(s.db, tables, engine, command, target, requester))))
  {
    ReachableOk(fold, s);
    CreateBulkOk(fold, s.db, tables, engine, command, target, requester);
    ApiFrame(fold, s, After(s.db, CreateBulk(s.db, tables, engine, command, target, requester)));
  }

  /** Otherwise there are, in one new job, as many new operations as tables were given, each waiting, planned for its
      table's current snapshot; and whatever happens next, they stay the operations of that job that were requested. */
  lemma BulkCreationStands(
    fold: string -> string, s: System, tables: seq<TableId>, engine: Engine, command: Command,
    target: Option<Snapshot>, requester: string, s': System, run: seq<Action>, i: nat)
    requires Reachable(fold, s) && i < |tables|
    requires command !in Unsupporting(engine) && AllKnown(s.db, tables) && AllPlannable(s.db, tables)
    requires s' == Step(fold, s, ApiCreateBulk(tables, engine, command, target, requester)) && Allowed(fold, s', run)
    ensures Appended(s.db, s'.db, |tables|, i, s.db.tables[tables[i]].current)
    ensures RequestedAt(Final(fold, s', run).db, |s.db.ops| + i, tables[i], engine, command, target, requester,
                        Some(|s.db.jobs|))
  {
    BulkCreationEffect(s, tables, engine, command, target, requester, s'.db, i);
    BulkInv(fold, s, tables, engine, command, target, requester);
    RequestStands(fold, s', run, |s.db.ops| + i, tables[i], engine, command, target, requester, Some(|s.db.jobs|));
  }

  // ---------------------------------------------------------------- decisions

  /** Somebody else may decide the operation. */
  predicate MayDecide(fold: string -> string, db: Db, o: nat, approver: string) {
    o < |db.ops| && db.ops[o].state == WaitingApproval && fold(db.ops[o].requester) != fold(approver)
  }

  /** The operation is queued under an approval, and its table is locked by it. */
  predicate ApprovedInto(db: Db, db': Db, o: nat, approver: string) {
    && o < |db.ops| == |db'.ops| && TakesTable(db, db', o)
    && var op := db.ops[o];
       Becomes(db, db', o, op.(state := Queued, version := op.version + 1, item := ItemIn(op, Queued),
                               decisions := [Decision(approver, true)], trail := db'.ops[o].trail))
  }

  predicate RejectedInto(db: Db, db': Db, o: nat, approver: string) {
    && o < |db.ops| == |db'.ops| && db'.locks == db.locks
    && var op := db.ops[o];
       Becomes(db, db', o, op.(state := Rejected, version := op.version + 1, item := ItemIn(op, Rejected),
                               decisions := [Decision(approver, false)], trail := db'.ops[o].trail))
  }

  /** A known word, by somebody else, about an operation that waits. */
  lemma DecidedInto(fold: string -> string, db: Db, o: nat, approver: string, word: string)
    requires o < |db.ops| && OpOk(fold, db.ops[o]) && db.ops[o].state == WaitingApproval
    requires fold(db.ops[o].requester) != fold(approver)
    ensures var r := Decide(db, fold, o, approver, word);
      && (ParseDecision(word) == Some(true) && LockFree(db, o) ==> r.Done? && ApprovedInto(db, r.db, o, approver))
      && (ParseDecision(word) == Some(true) && !LockFree(db, o) ==> r == Refused(LockHeld))
      && (ParseDecision(word) == Some(false) ==> r.Done? && RejectedInto(db, r.db, o, approver))
      && (ParseDecision(word) == None ==> r == Refused(BadDecision))
  {
  }

  /** Nobody can decide an operation that is not there or does not wait, nor the requester his own. What a decision by
      somebody else does is in its word, in letters of either case: APPROVED queues the operation and locks its table,
      unless another operation is active there; REJECTED rejects it, whoever has the table; any other word changes
      nothing. */
  lemma DecisionEffect(fold: string -> string, s: System, o: nat, approver: string, word: string)
    requires Reachable(fold, s)
    ensures var r, db' := Decide(s.db, fold, o, approver, word), Step(fold, s, ApiDecide(o, approver, word)).db;
      && (r.Refused? ==> db' == s.db)
      && (!MayDecide(fold, s.db, o, approver) ==>
           r == Refused(if o >= |s.db.ops| then NotFound
                        else if s.db.ops[o].state != WaitingApproval then NotWaiting else SelfApproval))
      && (MayDecide(fold, s.db, o, approver) && Spells(word, "APPROVED", "approved") ==>
           if TableIdle(s.db, o) then r.Done? && ApprovedInto(s.db, db', o, approver) else r == Refused(LockHeld))
      && (MayDecide(fold, s.db, o, approver) && Spells(word, "REJECTED", "rejected") ==>
           r.Done? && RejectedInto(s.db, db', o, approver))
      && (MayDecide(fold, s.db, o, approver) ==>
           (r == Refused(BadDecision) <==>
              !Spells(word, "APPROVED", "approved") && !Spells(word, "REJECTED", "rejected")))
  {
    DecisionWords(word);
    if MayDecide(fold, s.db, o, approver) {
      ReachableOk(fold, s);
      LockFreeExactly(fold, s, o);
      DecidedInto(fold, s.db, o, approver, word);
    }
  }

  // ---------------------------------------------------------------- retry

  /** The operation is queued again, for the table's current snapshot, and its table is locked by it. */
  predicate RequeuedInto(db: Db, db': Db, o: nat, item: Option<State>) {
    && o < |db.ops| == |db'.ops| && db.ops[o].table in db.tables && TakesTable(db, db', o)
    && var op := db.ops[o];
       Becomes(db, db', o, op.(state := Queued, version := op.version + 1, planned := db.tables[op.table].current,
                               cancelRequested := false, item := item, trail := db'.ops[o].trail))
  }

  lemma RetriedInto(fold: string -> string, db: Db, o: nat)
    requires o < |db.ops| && db.ops[o].table in db.tables && db.ops[o].state == Failed && LockFree(db, o)
    ensures Retry(db, o).Done? && RequeuedInto(db, Retry(db, o).db, o, db.ops[o].item)
  {
  }

  /** A single retry takes a FAILED operation only, on a table where nothing else is active. Then it is queued for the
      snapshot the table has now, a cancellation asked for earlier is forgotten, and its bulk item is left as it is. */
  lemma RetryEffect(fold: string -> string, s: System, o: nat)
    requires Reachable(fold, s)
    ensures var r, db' := Retry(s.db, o), Step(fold, s, ApiRetry(o)).db;
      && (o >= |s.db.ops| ==> r == Refused(NotFound) && db' == s.db)
      && (o < |s.db.ops| && s.db.ops[o].state != Failed ==> r == Refused(NotFailed) && db' == s.db)
      && (o < |s.db.ops| && s.db.ops[o].state == Failed ==>
           if TableIdle(s.db, o) then r.Done? && RequeuedInto(s.db, db', o, s.db.ops[o].item)
           else r == Refused(LockHeld) && db' == s.db)
  {
    if o < |s.db.ops| {
      ReachableOk(fold, s);
      LockFreeExactly(fold, s, o);
      if s.db.ops[o].state == Failed && LockFree(s.db, o) {
        RetriedInto(fold, s.db, o);
      }
    }
  }

  // ---------------------------------------------------------------- cancellation

  /** The operation is canceled for good: it was not executing. */
  predicate CanceledInto(db: Db, db': Db, o: nat) {
    && o < |db.ops| == |db'.ops|
    && (if db.ops[o].state == Queued then FreesTable(db, db', o) else db'.locks == db.locks)
    && var op := db.ops[o];
       Becomes(db, db', o, op.(state := Canceled, version := op.version + 1, cancelRequested := true,
                               item := ItemIn(op, Canceled), trail := db'.ops[o].trail))
  }

  /** The worker on it is asked to stop; its execution and its lock are left alone. */
  predicate StopAsked(db: Db, db': Db, o: nat) {
    && o < |db.ops| == |db'.ops| && db'.locks == db.locks
    && var op := db.ops[o];
       Becomes(db, db', o, op.(state := CancelRequested, version := op.version + 1, cancelRequested := true,
                               item := ItemIn(op, CancelRequested), trail := db'.ops[o].trail))
  }

  lemma CancelOpenInto(fold: string -> string, db: Db, o: nat)
    requires LocksOk(db) && o < |db.ops| && ItemOk(db.ops[o]) && !Terminal(db.ops[o].state)
    ensures db.ops[o].state in {WaitingApproval, Queued} ==> CanceledInto(db, CancelOpen(db, o), o)
    ensures db.ops[o].state in {Running, Verifying, CancelRequested} ==> StopAsked(db, CancelOpen(db, o), o)
  {
    if db.ops[o].state == Queued {
      OneLockReleased(db, o);
    } else if db.ops[o].state == WaitingApproval {
      NoLockReleased(db, o);
    }
  }

  /** A cancellation that comes under another version than the operation has, or to one that has ended otherwise, is
      refused, in that order; one that comes again changes nothing. A waiting or queued operation is canceled at once;
      of one that is executing it is asked that it stop. */
  lemma CancellationEffect(fold: string -> string, s: System, o: nat, version: Option<int>)
    requires Reachable(fold, s)
    ensures var r, db' := Cancel(s.db, o, version), Step(fold, s, ApiCancel(o, version)).db;
      && (r.Refused? ==> db' == s.db)
      && (o >= |s.db.ops| ==> r == Refused(NotFound))
      && (o < |s.db.ops| && version.Some? && version.value != s.db.ops[o].version ==> r == Refused(VersionChanged))
      && (o < |s.db.ops| && (version.None? || version.value == s.db.ops[o].version) ==>
           var state := s.db.ops[o].state;
           && (state in {Succeeded, Failed, Rejected} ==> r == Refused(TerminalState))
           && (state == Canceled ==> r.Done? && db' == s.db)
           && (state in {WaitingApproval, Queued} ==> r.Done? && CanceledInto(s.db, db', o))
           && (state in {Running, Verifying, CancelRequested} ==> r.Done? && StopAsked(s.db, db', o)))
  {
    if o < |s.db.ops| && !Terminal(s.db.ops[o].state) {
      ReachableOk(fold, s);
      CancelOpenHere(fold, s.db, o);
    }
  }

  lemma CancelOpenHere(fold: string -> string, db: Db, o: nat)
    requires DbInv(fold, db) && o < |db.ops| && !Terminal(db.ops[o].state)
    ensures db.ops[o].state in {WaitingApproval, Queued} ==> CanceledInto(db, CancelOpen(db, o), o)
    ensures db.ops[o].state in {Running, Verifying, CancelRequested} ==> StopAsked(db, CancelOpen(db, o), o)
  {
    assert OpOk(fold, db.ops[o]);
    CancelOpenInto(fold, db, o);
  }

  // ---------------------------------------------------------------- bulk cancellation and bulk retry

  lemma ListedHasItem(fold: string -> string, db: Db, j: nat, o: nat)
    requires DbInv(fold, db) && j < |db.jobs| && o < |db.ops|
    ensures o in db.jobs[j] ==> db.ops[o].item.Some?
  {
    assert JobOk(db, j) && ItemOk(db.ops[o]);
  }

  /** A bulk cancellation does to every operation of the job what a single one does, and skips those that have ended. */
  lemma BulkCancellationEffect(fold: string -> string, s: System, j: nat, o: nat)
    requires Reachable(fold, s) && j < |s.db.jobs| && o < |s.db.ops|
    ensures var op, db' := s.db.ops[o], Step(fold, s, ApiCancelJob(j)).db;
      && |db'.ops| == |s.db.ops| && db'.jobs == s.db.jobs
      && (o !in s.db.jobs[j] || op.state in {Succeeded, Failed, Rejected, Canceled} ==> db'.ops[o] == op)
      && (o in s.db.jobs[j] && op.state in {WaitingApproval, Queued} ==>
           db'.ops[o] == op.(state := Canceled, version := op.version + 1, cancelRequested := true,
                             item := Some(Canceled), trail := db'.ops[o].trail))
      && (o in s.db.jobs[j] && op.state in {Running, Verifying, CancelRequested} ==>
           db'.ops[o] == op.(state := CancelRequested, version := op.version + 1, cancelRequested := true,
                             item := Some(CancelRequested), trail := db'.ops[o].trail))
  {
    ReachableOk(fold, s);
    assert Distinct(s.db.jobs[j]);
    ListedHasItem(fold, s.db, j, o);
    CancelItemsAt(s.db, s.db.jobs[j], o);
  }

  /** A refresh of a job brings the items of its operations up to their states, and changes nothing else. */
  lemma BulkRefreshEffect(fold: string -> string, s: System, j: nat, o: nat)
    requires Reachable(fold, s) && j < |s.db.jobs| && o < |s.db.ops|
    ensures var op, db' := s.db.ops[o], Step(fold, s, ApiRefreshJob(j)).db;
      && |db'.ops| == |s.db.ops| && db' == s.db.(ops := db'.ops)
      && db'.ops[o] == if o in s.db.jobs[j] then op.(item := Some(op.state)) else op
  {
    ReachableOk(fold, s);
    ListedHasItem(fold, s.db, j, o);
    RefreshItemsExactly(s.db, s.db.jobs[j]);
  }

  /** Before the n-th item of the job there is a failed one on that table. */
  predicate Wanted(db: Db, items: seq<nat>, n: nat, t: TableId) {
    exists m :: 0 <= m < n && m < |items| && items[m] < |db.ops| && db.ops[items[m]].item == Some(Failed) &&
      db.ops[items[m]].table == t
  }

  lemma WantedGrows(db: Db, items: seq<nat>, t: TableId)
    requires items != []
    ensures var front, last := items[..|items| - 1], items[|items| - 1];
      Wanted(db, items, |items|, t) <==>
        || Wanted(db, front, |front|, t)
        || (last < |db.ops| && db.ops[last].item == Some(Failed) && db.ops[last].table == t)
  {
    var front := items[..|items| - 1];
    assert forall m :: 0 <= m < |front| ==> front[m] == items[m];
    if Wanted(db, front, |front|, t) {
      var m :| 0 <= m < |front| && front[m] < |db.ops| && db.ops[front[m]].item == Some(Failed) &&
        db.ops[front[m]].table == t;
      assert items[m] == front[m];
    }
  }

  /** During a bulk retry a locked table stays locked by the same operation, and a free one is locked as soon as a
      failed item wants it. */
  lemma {:induction false} RetryLocks(db: Db, items: seq<nat>, t: TableId)
    requires Distinct(items)
    ensures var db' := RetryItems(db, items);
      && (t in db.locks ==> t in db'.locks && db'.locks[t] == db.locks[t])
      && (t !in db.locks ==> (t in db'.locks <==> Wanted(db, items, |items|, t)))
      && (t !in db.locks && t in db'.locks ==> db'.locks[t] in items)
  {
    if items != [] {
      var front, last := items[..|items| - 1], items[|items| - 1];
      assert items == front + [last] && last !in front;
      RetryLocks(db, front, t);
      WantedGrows(db, items, t);
      if last < |db.ops| {
        RetryItemsAt(db, front, last);
      } else {
        ItemsKeepJobs(db, front);
      }
    }
  }

  lemma RetriableAtItsTurn(db: Db, items: seq<nat>, n: nat, o: nat)
    requires Distinct(items) && n < |items| && items[n] == o && o < |db.ops|
    ensures Retriable(RetryItems(db, items[..n]), o) <==>
      && db.ops[o].item == Some(Failed)
      && if db.ops[o].table in db.locks then db.locks[db.ops[o].table] == o else !Wanted(db, items, n, db.ops[o].table)
  {
    var front := items[..n];
    assert Distinct(front) && o !in front;
    RetryItemsAt(db, front, o);
    RetryLocks(db, front, db.ops[o].table);
    assert forall m :: 0 <= m < n ==> front[m] == items[m];
    assert Wanted(db, front, |front|, db.ops[o].table) <==> Wanted(db, items, n, db.ops[o].table);
  }

  /** The operation is the n-th of the job, its item has failed, and its table is its own already, or free and wanted by
      no failed item before it. */
  predicate Admitted(db: Db, items: seq<nat>, n: nat, o: nat)
    requires o < |db.ops|
  {
    && n < |items| && items[n] == o && db.ops[o].item == Some(Failed) && TableIdle(db, o)
    && (db.ops[o].state in {Queued, Running, Verifying, CancelRequested} || !Wanted(db, items, n, db.ops[o].table))
  }

  lemma AdmittedExactly(fold: string -> string, db: Db, items: seq<nat>, n: nat, o: nat)
    requires DbInv(fold, db) && Distinct(items) && n < |items| && items[n] == o && o < |db.ops|
    ensures Retriable(RetryItems(db, items[..n]), o) <==> Admitted(db, items, n, o)
  {
    RetriableAtItsTurn(db, items, n, o);
  }

  /** Some position of the job admits the operation. */
  predicate AdmittedSomewhere(db: Db, items: seq<nat>, o: nat)
    requires o < |db.ops|
  {
    exists n :: 0 <= n < |items| && Admitted(db, items, n, o)
  }

  lemma RequeuesAdmitted(fold: string -> string, db: Db, items: seq<nat>, o: nat)
    requires DbInv(fold, db) && Distinct(items) && o < |db.ops|
    ensures BulkRequeues(db, items, o) <==> AdmittedSomewhere(db, items, o)
  {
    forall n | 0 <= n < |items| && items[n] == o
      ensures Retriable(RetryItems(db, items[..n]), o) <==> Admitted(db, items, n, o)
    {
      AdmittedExactly(fold, db, items, n, o);
    }
  }

  lemma {:induction false} RequeuedHasTable(db: Db, items: seq<nat>, o: nat)
    requires Distinct(items) && o < |db.ops| && BulkRequeues(db, items, o)
    ensures var db' := RetryItems(db, items); db.ops[o].table in db'.locks && db'.locks[db.ops[o].table] == o
  {
    var front, last := items[..|items| - 1], items[|items| - 1];
    assert items == front + [last] && last !in front;
    BulkRequeuesGrows(db, items, o);
    RetryItemsAt(db, front, o);
    if BulkRequeues(db, front, o) {
      RequeuedHasTable(db, front, o);
    }
  }

  lemma {:induction false} SomeRequeued(db: Db, items: seq<nat>) returns (o: nat)
    requires Distinct(items) && RetriedCount(db, items) > 0
    ensures o < |db.ops| && BulkRequeues(db, items, o)
  {
    var front, last := items[..|items| - 1], items[|items| - 1];
    assert items == front + [last];
    if RetriedCount(db, front) > 0 {
      o := SomeRequeued(db, front);
    } else {
      o := last;
      ItemsKeepJobs(db, front);
    }
    BulkRequeuesGrows(db, items, o);
  }

  /** A bulk retry is refused exactly if no operation is admitted. */
  lemma BulkRetryRefusedExactly(fold: string -> string, s: System, j: nat)
    requires Reachable(fold, s) && j < |s.db.jobs|
    ensures RetryJob(s.db, j) == Refused(NothingRetried) <==>
      forall o :: 0 <= o < |s.db.ops| ==> !AdmittedSomewhere(s.db, s.db.jobs[j], o)
    ensures RetryJob(s.db, j).Refused? ==> RetryJob(s.db, j).error == NothingRetried
  {
    ReachableOk(fold, s);
    var items := s.db.jobs[j];
    assert Distinct(items);
    if RetriedCount(s.db, items) > 0 {
      var o := SomeRequeued(s.db, items);
      RequeuesAdmitted(fold, s.db, items, o);
    } else {
      forall o | 0 <= o < |s.db.ops|
        ensures !AdmittedSomewhere(s.db, items, o)
      {
        RequeuesAdmitted(fold, s.db, items, o);
        RetryItemsAt(s.db, items, o);
      }
    }
  }

  /** The row of an operation that a bulk retry has requeued. */
  predicate BulkRequeued(db: Db, db': Db, o: nat) {
    && o < |db.ops| == |db'.ops| && db.ops[o].table in db.tables
    && db.ops[o].table in db'.locks && db'.locks[db.ops[o].table] == o
    && var op := db.ops[o];
       db'.ops[o] == op.(state := Queued, version := op.version + 1, planned := db.tables[op.table].current,
                         cancelRequested := false, item := Some(Queued), trail := db'.ops[o].trail)
  }

  /** Of the operations of a job a bulk retry requeues exactly those whose item has failed and whose table nobody else
      is active on or gets before them in the same retry; it looks at nothing else, and leaves the others alone. */
  lemma BulkRetryEffect(fold: string -> string, s: System, j: nat, o: nat)
    requires Reachable(fold, s) && j < |s.db.jobs| && o < |s.db.ops| && RetryJob(s.db, j).Done?
    ensures var db' := RetryJob(s.db, j).db;
      && |db'.ops| == |s.db.ops| && db'.jobs == s.db.jobs && db'.tables == s.db.tables
      && if AdmittedSomewhere(s.db, s.db.jobs[j], o) then BulkRequeued(s.db, db', o) else db'.ops[o] == s.db.ops[o]
  {
    ReachableOk(fold, s);
    var items := s.db.jobs[j];
    assert Distinct(items);
    RequeuesAdmitted(fold, s.db, items, o);
    RetryItemsAt(s.db, items, o);
    if BulkRequeues(s.db, items, o) {
      RequeuedHasTable(s.db, items, o);
    }
  }
}
