/** The invariant of the whole database, and proofs that every API transaction keeps it
    and leaves live executions alone. */
module DbInvariant {
  import opened Common
  import opened Operations
  import opened OperationInvariant

  /** A table is locked by an operation exactly when that operation targets it and is active. */
  predicate LocksOk(db: Db) {
    && (forall t :: t in db.locks ==>
          db.locks[t] < |db.ops| && db.ops[db.locks[t]].table == t && Active(db.ops[db.locks[t]].state))
    && (forall o :: 0 <= o < |db.ops| && Active(db.ops[o].state) ==>
          db.ops[o].table in db.locks && db.locks[db.ops[o].table] == o)
  }

  predicate JobOk(db: Db, j: nat)
    requires j < |db.jobs|
  {
    forall i :: 0 <= i < |db.jobs[j]| ==> db.jobs[j][i] < |db.ops| && db.ops[db.jobs[j][i]].job == Some(j)
  }

  /** Every item of a job has its operation, and every operation of a job is one of its items. */
  predicate JobsOk(db: Db) {
    && (forall j :: 0 <= j < |db.jobs| ==> JobOk(db, j))
    && (forall o :: 0 <= o < |db.ops| && db.ops[o].job.Some? ==>
          db.ops[o].job.value < |db.jobs| && o in db.jobs[db.ops[o].job.value])
  }

  predicate DbInv(fold: string -> string, db: Db) {
    && (forall o :: 0 <= o < |db.ops| ==> OpOk(fold, db.ops[o]) && db.ops[o].table in db.tables)
    && LocksOk(db)
    && JobsOk(db)
  }

  /** The executions are not touched, and while one is live a cancellation request stands. */
  predicate Undisturbed(op: Operation, op': Operation) {
    op'.runs == op.runs && (LastLive(op) && op.cancelRequested ==> op'.cancelRequested)
  }

  predicate DbEvolves(db: Db, db': Db) {
    && |db.ops| <= |db'.ops|
    && (forall o :: 0 <= o < |db.ops| ==> Evolves(db.ops[o], db'.ops[o]))
    && (forall o :: |db.ops| <= o < |db'.ops| ==> db'.ops[o].state == WaitingApproval && db'.ops[o].runs == [])
  }

  predicate Quiet(db: Db, db': Db) {
    DbEvolves(db, db') && forall o :: 0 <= o < |db.ops| ==> Undisturbed(db.ops[o], db'.ops[o])
  }

  predicate KeepsDb(fold: string -> string, db: Db, db': Db) { DbInv(fold, db') && Quiet(db, db') }

  lemma QuietReflexive(db: Db)
    ensures Quiet(db, db)
  {
    forall o | 0 <= o < |db.ops|
      ensures Evolves(db.ops[o], db.ops[o])
    {
      EvolvesReflexive(db.ops[o]);
    }
  }

  lemma QuietTransitive(a: Db, b: Db, c: Db)
    requires Quiet(a, b) && Quiet(b, c) && |b.ops| == |a.ops|
    ensures Quiet(a, c)
  {
    forall o | 0 <= o < |a.ops|
      ensures Evolves(a.ops[o], c.ops[o]) && Undisturbed(a.ops[o], c.ops[o])
    {
      EvolvesTransitive(a.ops[o], b.ops[o], c.ops[o]);
      assert Undisturbed(a.ops[o], b.ops[o]) && Undisturbed(b.ops[o], c.ops[o]);
    }
  }

  // ---------------------------------------------------------------- single writes

  lemma RowWritten(db: Db, db': Db, o: nat, op': Operation)
    requires o < |db.ops| && db'.ops == db.ops[o := op'] && Evolves(db.ops[o], op')
    ensures DbEvolves(db, db')
    ensures Undisturbed(db.ops[o], op') ==> Quiet(db, db')
  {
    forall x | 0 <= x < |db.ops|
      ensures Evolves(db.ops[x], db'.ops[x])
    {
      EvolvesReflexive(db.ops[x]);
    }
  }

  lemma JobsKept(db: Db, db': Db, o: nat, op': Operation)
    requires o < |db.ops| && JobsOk(db) && op'.job == db.ops[o].job
    requires db'.ops == db.ops[o := op'] && db'.jobs == db.jobs
    ensures JobsOk(db')
  {
    forall j | 0 <= j < |db'.jobs|
      ensures JobOk(db', j)
    {
      assert JobOk(db, j);
    }
  }

  lemma PutOk(fold: string -> string, db: Db, o: nat, op': Operation)
    requires DbInv(fold, db) && o < |db.ops|
    requires OpOk(fold, op') && Evolves(db.ops[o], op') && Active(op'.state) == Active(db.ops[o].state)
    ensures DbInv(fold, Put(db, o, op')) && DbEvolves(db, Put(db, o, op'))
    ensures Undisturbed(db.ops[o], op') ==> Quiet(db, Put(db, o, op'))
  {
    JobsKept(db, Put(db, o, op'), o, op');
    RowWritten(db, Put(db, o, op'), o, op');
  }

  lemma LockTaken(db: Db, o: nat, op': Operation)
    requires LocksOk(db) && o < |db.ops| && op'.table == db.ops[o].table && Active(op'.state) && LockFree(db, o)
    ensures LocksOk(PutLocked(db, o, op'))
  {
  }

  lemma PutLockedOk(fold: string -> string, db: Db, o: nat, op': Operation)
    requires DbInv(fold, db) && o < |db.ops|
    requires OpOk(fold, op') && Evolves(db.ops[o], op') && Active(op'.state) && LockFree(db, o)
    ensures DbInv(fold, PutLocked(db, o, op')) && DbEvolves(db, PutLocked(db, o, op'))
    ensures Undisturbed(db.ops[o], op') ==> Quiet(db, PutLocked(db, o, op'))
  {
    LockTaken(db, o, op');
    JobsKept(db, PutLocked(db, o, op'), o, op');
    RowWritten(db, PutLocked(db, o, op'), o, op');
  }

  lemma PutReleasedOk(fold: string -> string, db: Db, o: nat, op': Operation)
    requires DbInv(fold, db) && o < |db.ops|
    requires OpOk(fold, op') && Evolves(db.ops[o], op') && !Active(op'.state)
    ensures DbInv(fold, PutReleased(db, o, op')) && DbEvolves(db, PutReleased(db, o, op'))
    ensures Undisturbed(db.ops[o], op') ==> Quiet(db, PutReleased(db, o, op'))
  {
    JobsKept(db, PutReleased(db, o, op'), o, op');
    RowWritten(db, PutReleased(db, o, op'), o, op');
  }

  // ---------------------------------------------------------------- creation

  /** Appending waiting operations keeps the old rows and locks as they are. */
  lemma RowsAppended(fold: string -> string, db: Db, db': Db, rows: seq<Operation>)
    requires DbInv(fold, db) && db'.ops == db.ops + rows && db'.locks == db.locks && db'.tables == db.tables
    requires forall i :: 0 <= i < |rows| ==>
      OpOk(fold, rows[i]) && rows[i].table in db.tables && rows[i].state == WaitingApproval && rows[i].runs == []
    requires JobsOk(db')
    ensures KeepsDb(fold, db, db')
  {
    forall o | 0 <= o < |db'.ops|
      ensures OpOk(fold, db'.ops[o]) && db'.ops[o].table in db'.tables
    {
      if o >= |db.ops| {
        assert db'.ops[o] == rows[o - |db.ops|];
      }
    }
    forall o | 0 <= o < |db.ops|
      ensures Evolves(db.ops[o], db'.ops[o])
    {
      EvolvesReflexive(db.ops[o]);
    }
  }

  lemma CreateOk(
    fold: string -> string, db: Db, table: TableId, engine: Engine, command: Command, target: Option<Snapshot>,
    requester: string)
    requires DbInv(fold, db)
    ensures KeepsDb(fold, db, After(db, Create(db, table, engine, command, target, requester)))
  {
    QuietReflexive(db);
    var r := Create(db, table, engine, command, target, requester);
    if r.Done? {
      var row := NewOperation(table, engine, command, target, requester, None, db.tables[table].current);
      CreatedOk(fold, table, engine, command, target, requester, None, db.tables[table].current);
      forall j | 0 <= j < |r.db.jobs|
        ensures JobOk(r.db, j)
      {
        assert JobOk(db, j);
      }
      RowsAppended(fold, db, r.db, [row]);
    }
  }

  /** A new job over exactly the appended operations. */
  lemma JobAppended(db: Db, db': Db, rows: seq<Operation>, ids: seq<nat>)
    requires JobsOk(db) && db'.ops == db.ops + rows && db'.jobs == db.jobs + [ids]
    requires |ids| == |rows| && forall i :: 0 <= i < |rows| ==> ids[i] == |db.ops| + i && rows[i].job == Some(|db.jobs|)
    ensures JobsOk(db')
  {
    forall j | 0 <= j < |db'.jobs|
      ensures JobOk(db', j)
    {
      if j < |db.jobs| {
        assert JobOk(db, j);
      }
    }
    forall o | 0 <= o < |db'.ops| && db'.ops[o].job.Some?
      ensures db'.ops[o].job.value < |db'.jobs| && o in db'.jobs[db'.ops[o].job.value]
    {
      if o >= |db.ops| {
        assert db'.ops[o] == rows[o - |db.ops|];
        assert ids[o - |db.ops|] == o;
      }
    }
  }

  lemma BulkOperationsOk(
    fold: string -> string, db: Db, tables: seq<TableId>, engine: Engine, command: Command,
    target: Option<Snapshot>, requester: string, job: nat)
    requires forall t :: t in tables ==> t in db.tables
    ensures forall row :: row in BulkOperations(db, tables, engine, command, target, requester, job) ==>
      OpOk(fold, row) && row.state == WaitingApproval && row.runs == [] && row.table in db.tables &&
        row.job == Some(job)
  {
    forall i | 0 <= i < |tables|
      ensures OpOk(fold, BulkOperations(db, tables, engine, command, target, requester, job)[i])
    {
      CreatedOk(fold, tables[i], engine, command, target, requester, Some(job), db.tables[tables[i]].current);
    }
  }

  lemma CreateBulkOk(
    fold: string -> string, db: Db, tables: seq<TableId>, engine: Engine, command: Command,
    target: Option<Snapshot>, requester: string)
    requires DbInv(fold, db)
    ensures KeepsDb(fold, db, After(db, CreateBulk(db, tables, engine, command, target, requester)))
  {
    QuietReflexive(db);
    var r := CreateBulk(db, tables, engine, command, target, requester);
    if r.Done? {
      var rows := BulkOperations(db, tables, engine, command, target, requester, |db.jobs|);
      BulkOperationsOk(fold, db, tables, engine, command, target, requester, |db.jobs|);
      JobAppended(db, r.db, rows, seq(|tables|, i => |db.ops| + i));
      RowsAppended(fold, db, r.db, rows);
    }
  }

  // ---------------------------------------------------------------- decide, retry, cancel

  lemma DecideOk(fold: string -> string, db: Db, o: nat, approver: string, decision: string)
    requires DbInv(fold, db)
    ensures KeepsDb(fold, db, After(db, Decide(db, fold, o, approver, decision)))
  {
    QuietReflexive(db);
    var r := Decide(db, fold, o, approver, decision);
    if r.Done? {
      var approved := ParseDecision(decision).value;
      var op' := Decided(db.ops[o], approver, approved);
      DecidedOk(fold, db.ops[o], approver, approved);
      if approved {
        PutLockedOk(fold, db, o, op');
      } else {
        PutOk(fold, db, o, op');
      }
    }
  }

  lemma RetryOk(fold: string -> string, db: Db, o: nat)
    requires DbInv(fold, db)
    ensures KeepsDb(fold, db, After(db, Retry(db, o)))
  {
    QuietReflexive(db);
    var r := Retry(db, o);
    if r.Done? {
      var planned := CurrentOf(db, db.ops[o].table);
      RetriedOk(fold, db.ops[o], planned);
      PutLockedOk(fold, db, o, Retried(db.ops[o], planned));
    }
  }

  lemma CancelOpenOk(fold: string -> string, db: Db, o: nat)
    requires DbInv(fold, db) && o < |db.ops| && !Terminal(db.ops[o].state)
    ensures KeepsDb(fold, db, CancelOpen(db, o))
  {
    var op := db.ops[o];
    CanceledRowOk(fold, op);
    if op.state in {WaitingApproval, Queued} {
      PutReleasedOk(fold, db, o, CanceledRow(op));
    } else {
      PutOk(fold, db, o, CanceledRow(op));
    }
  }

  lemma CancelOk(fold: string -> string, db: Db, o: nat, expectedVersion: Option<int>)
    requires DbInv(fold, db)
    ensures KeepsDb(fold, db, After(db, Cancel(db, o, expectedVersion)))
  {
    QuietReflexive(db);
    if o < |db.ops| && !Terminal(db.ops[o].state) {
      CancelOpenOk(fold, db, o);
    }
  }

  // ---------------------------------------------------------------- bulk cancel, refresh, retry

  lemma {:induction false} CancelItemsOk(fold: string -> string, db: Db, items: seq<nat>)
    requires DbInv(fold, db)
    ensures var db' := CancelItems(db, items);
      KeepsDb(fold, db, db') && |db'.ops| == |db.ops|
  {
    QuietReflexive(db);
    if items != [] {
      var front, o := items[..|items| - 1], items[|items| - 1];
      CancelItemsOk(fold, db, front);
      var mid := CancelItems(db, front);
      if o < |mid.ops| && !Terminal(mid.ops[o].state) {
        CancelOpenOk(fold, mid, o);
        QuietTransitive(db, mid, CancelOpen(mid, o));
      }
    }
  }

  lemma CancelJobOk(fold: string -> string, db: Db, j: nat)
    requires DbInv(fold, db)
    ensures KeepsDb(fold, db, After(db, CancelJob(db, j)))
  {
    QuietReflexive(db);
    if j < |db.jobs| {
      CancelItemsOk(fold, db, db.jobs[j]);
    }
  }

  lemma {:induction false} RefreshItemsOk(fold: string -> string, db: Db, items: seq<nat>)
    requires DbInv(fold, db)
    ensures var db' := RefreshItems(db, items);
      KeepsDb(fold, db, db') && |db'.ops| == |db.ops|
  {
    QuietReflexive(db);
    if items != [] {
      var front, o := items[..|items| - 1], items[|items| - 1];
      RefreshItemsOk(fold, db, front);
      var mid := RefreshItems(db, front);
      if o < |mid.ops| {
        RefreshedOk(fold, mid.ops[o]);
        PutOk(fold, mid, o, mid.ops[o].(item := SetItem(mid.ops[o].item, mid.ops[o].state)));
        QuietTransitive(db, mid, RefreshItem(mid, o));
      }
    }
  }

  /** A refresh sets the item of every operation it lists to that operation's state, and nothing else. */
  lemma {:induction false} RefreshItemsExactly(db: Db, items: seq<nat>)
    ensures var db' := RefreshItems(db, items);
      db' == db.(ops := db'.ops) && |db'.ops| == |db.ops| &&
      forall o :: 0 <= o < |db.ops| ==>
        db'.ops[o] == if o in items then db.ops[o].(item := SetItem(db.ops[o].item, db.ops[o].state)) else db.ops[o]
  {
    if items != [] {
      RefreshItemsExactly(db, items[..|items| - 1]);
      assert forall o :: o in items <==> o in items[..|items| - 1] || o == items[|items| - 1];
    }
  }

  /** Refreshing again, or in another order, changes nothing more. */
  lemma RefreshIsIdempotent(db: Db, items: seq<nat>, again: seq<nat>)
    requires forall o :: o in again ==> o in items
    ensures RefreshItems(RefreshItems(db, items), again) == RefreshItems(db, items)
  {
    RefreshItemsExactly(db, items);
    RefreshItemsExactly(RefreshItems(db, items), again);
    assert RefreshItems(RefreshItems(db, items), again).ops == RefreshItems(db, items).ops;
  }

  lemma RefreshJobOk(fold: string -> string, db: Db, j: nat)
    requires DbInv(fold, db)
    ensures KeepsDb(fold, db, After(db, RefreshJob(db, j)))
  {
    QuietReflexive(db);
    if j < |db.jobs| {
      RefreshItemsOk(fold, db, db.jobs[j]);
    }
  }

  /** What a caller of a bulk retry could check first: no failed item lags behind an
      operation that is executing again. */
  predicate NoLaggingItem(db: Db, items: seq<nat>) {
    forall i :: 0 <= i < |items| && items[i] < |db.ops| && db.ops[items[i]].item == Some(Failed) ==>
      !Live(db.ops[items[i]].state)
  }

  lemma {:induction false} RetryItemsOk(fold: string -> string, db: Db, items: seq<nat>)
    requires DbInv(fold, db) && NoLaggingItem(db, items)
    ensures var db' := RetryItems(db, items);
      && KeepsDb(fold, db, db')
      && |db'.ops| == |db.ops|
      && (forall o :: 0 <= o < |db.ops| ==> db'.ops[o] == db.ops[o] || db'.ops[o].item == Some(Queued))
  {
    QuietReflexive(db);
    if items != [] {
      var front, o := items[..|items| - 1], items[|items| - 1];
      forall i | 0 <= i < |front| && front[i] < |db.ops| && db.ops[front[i]].item == Some(Failed)
        ensures !Live(db.ops[front[i]].state)
      {
        assert items[i] == front[i];
      }
      RetryItemsOk(fold, db, front);
      var mid := RetryItems(db, front);
      if Retriable(mid, o) {
        assert mid.ops[o] == db.ops[o] && items[|items| - 1] == o;
        var planned := CurrentOf(mid, mid.ops[o].table);
        BulkRetriedOk(fold, mid.ops[o], planned);
        PutLockedOk(fold, mid, o, BulkRetried(mid.ops[o], planned));
        QuietTransitive(db, mid, RetryItem(mid, o));
      }
    }
  }

  /** An operation whose failed item lags behind its live execution, and the lock it holds,
      are untouched until the bulk retry reaches it; from then on it is queued while its
      execution is live. */
  lemma {:induction false} LaggingItemRequeued(fold: string -> string, db: Db, items: seq<nat>, o: nat)
    requires DbInv(fold, db) && o < |db.ops| && db.ops[o].item == Some(Failed) && Live(db.ops[o].state)
    ensures var db' := RetryItems(db, items);
      && |db'.ops| == |db.ops|
      && (o !in items ==> db'.ops[o] == db.ops[o] && db.ops[o].table in db'.locks && db'.locks[db.ops[o].table] == o)
      && (o in items ==>
            db'.ops[o].state == Queued && db'.ops[o].item == Some(Queued) && db'.ops[o].runs == db.ops[o].runs &&
            db'.ops[o].table == db.ops[o].table)
    ensures RetriedCount(db, items) > 0 || o !in items
  {
    if items != [] {
      var front, last := items[..|items| - 1], items[|items| - 1];
      assert items == front + [last];
      LaggingItemRequeued(fold, db, front, o);
    }
  }

  lemma LiveExecutes(fold: string -> string, db: Db, o: nat)
    requires DbInv(fold, db) && o < |db.ops| && Live(db.ops[o].state)
    ensures LastLive(db.ops[o])
  {
    assert OpOk(fold, db.ops[o]);
  }

  lemma QueuedUnderExecution(fold: string -> string, db: Db, o: nat)
    requires o < |db.ops| && LastLive(db.ops[o]) && db.ops[o].state == Queued
    ensures !DbInv(fold, db)
  {
    assert !OpOk(fold, db.ops[o]);
  }

  /** A bulk retry keeps the invariant exactly when no failed item of the job lags behind an
      executing operation. */
  lemma BulkRetryExactly(fold: string -> string, db: Db, j: nat)
    requires DbInv(fold, db) && j < |db.jobs|
    ensures DbInv(fold, After(db, RetryJob(db, j))) <==> NoLaggingItem(db, db.jobs[j])
    ensures NoLaggingItem(db, db.jobs[j]) ==> KeepsDb(fold, db, After(db, RetryJob(db, j)))
  {
    var items := db.jobs[j];
    QuietReflexive(db);
    if NoLaggingItem(db, items) {
      RetryItemsOk(fold, db, items);
    } else {
      var i :| 0 <= i < |items| && items[i] < |db.ops| && db.ops[items[i]].item == Some(Failed) &&
        Live(db.ops[items[i]].state);
      LaggingItemRequeued(fold, db, items, items[i]);
      LiveExecutes(fold, db, items[i]);
      QueuedUnderExecution(fold, RetryItems(db, items), items[i]);
    }
  }
}
