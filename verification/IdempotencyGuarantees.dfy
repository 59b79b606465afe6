/** What holds over every run of the idempotent creations, and what becomes of the losers of a race. */
module IdempotencyGuarantees {
  import opened Common
  import opened Idempotency

  // ---------------------------------------------------------------- one step

  /** A move that commits nothing leaves the committed rows in order. */
  lemma CommittedFrame(w: World, c: nat, phase: Phase)
    requires CommittedOk(w) && At(w, c) && phase != Done(Reply(Id(c, 0)))
    ensures CommittedOk(Moved(w, c, phase)) && Kept(w, Moved(w, c, phase))
  {
    var w' := Moved(w, c, phase);
    forall d: nat
      ensures RowsOk(w'.db, d, Made(w', d))
    {
      assert Made(w', d) == Made(w, d);
    }
  }

  lemma ClientsFrame(w: World, c: nat, phase: Phase)
    requires ClientsOk(w) && At(w, c) && ClientOk(w.db, c, w.clients[c].(phase := phase))
    ensures ClientsOk(Moved(w, c, phase))
  {
  }

  /** Leaving for a phase that holds no rows collides with nothing. */
  lemma LeftFrame(w: World, c: nat, phase: Phase)
    requires NoCollision(w) && At(w, c) && !phase.Building? && !phase.Conflicted?
    ensures NoCollision(Moved(w, c, phase))
  {
    var w' := Moved(w, c, phase);
    assert Flushed(w', c) == map[];
    assert forall d: nat :: d != c ==> Flushed(w', d) == Flushed(w, d);
  }

  lemma LeftOk(deferred: bool, w: World, c: nat, phase: Phase)
    requires Inv(deferred, w) && At(w, c)
    requires !phase.Building? && phase != Done(Reply(Id(c, 0)))
    requires phase.Conflicted? ==> deferred
    requires ClientOk(w.db, c, w.clients[c].(phase := phase))
    ensures Inv(deferred, Moved(w, c, phase)) && Kept(w, Moved(w, c, phase))
  {
    CommittedFrame(w, c, phase);
    ClientsFrame(w, c, phase);
    if !deferred {
      LeftFrame(w, c, phase);
    }
  }

  /** A row whose key nobody holds can be flushed. */
  lemma FlushedApart(m: map<Id, Row>, n: map<Id, Row>, i: Id, row: Row)
    requires Apart(m, n) && !Taken(m, row)
    ensures Apart(m, n[i := row])
  {
  }

  lemma FlushedUnique(m: map<Id, Row>, i: Id, row: Row)
    requires Unique(m) && !Taken(m, row)
    ensures Unique(m[i := row])
  {
  }

  lemma ApartBothWays(m: map<Id, Row>, n: map<Id, Row>)
    requires Apart(m, n)
    ensures Apart(n, m)
  {
  }

  /** A client flushes one more row; `before` is what it had flushed so far. */
  lemma FlushFrame(w: World, c: nat, before: Rows, i: Id, row: Row, own: Rows)
    requires NoCollision(w) && At(w, c) && Flushed(w, c) == before.rows
    requires !FlushFails(false, w, before, row) && !Blocked(w, c, row)
    requires own.rows == before.rows[i := row]
    ensures NoCollision(Moved(w, c, Building(own)))
  {
    var w' := Moved(w, c, Building(own));
    assert Flushed(w', c) == before.rows[i := row];
    FlushedUnique(before.rows, i, row);
    FlushedApart(w.db.rows, before.rows, i, row);
    forall d: nat | d != c
      ensures Flushed(w', d) == Flushed(w, d) && Apart(Flushed(w', d), Flushed(w', c)) &&
        Apart(Flushed(w', c), Flushed(w', d))
    {
      assert !Taken(Flushed(w, d), row);
      FlushedApart(Flushed(w, d), before.rows, i, row);
      ApartBothWays(Flushed(w', d), Flushed(w', c));
    }
  }

  lemma SameRowsFrame(w: World, c: nat, own: Rows)
    requires NoCollision(w) && At(w, c) && Flushed(w, c) == own.rows
    ensures NoCollision(Moved(w, c, Building(own)))
  {
    assert forall d: nat :: Flushed(Moved(w, c, Building(own)), d) == Flushed(w, d);
  }

  lemma BuildingFrame(deferred: bool, w: World, c: nat, own: Rows)
    requires Inv(deferred, w) && At(w, c) && BuildingOk(c, w.clients[c].request, own)
    requires !deferred ==> NoCollision(Moved(w, c, Building(own)))
    ensures Inv(deferred, Moved(w, c, Building(own))) && Kept(w, Moved(w, c, Building(own)))
  {
    CommittedFrame(w, c, Building(own));
    ClientsFrame(w, c, Building(own));
  }

  lemma AnswerOk(deferred: bool, w: World, c: nat, found: Option<Id>)
    requires Inv(deferred, w) && At(w, c) && Selects(w.db.rows, w.clients[c].request, found)
    ensures found.Some? ==> found.value != Id(c, 0)
    ensures found.Some? ==> var phase := Done(Answer(w, w.clients[c].request, found.value));
      Inv(deferred, Moved(w, c, phase)) && Kept(w, Moved(w, c, phase))
  {
    if found.Some? {
      assert RowsOk(w.db, c, Made(w, c)) && Made(w, c) == None;
      LeftOk(deferred, w, c, Done(Answer(w, w.clients[c].request, found.value)));
    }
  }

  lemma BegunHolds(c: nat, r: Request, own: Rows)
    requires var bare := WithRow(EMPTY, Id(c, 0), Parent(r));
      own == if r.kind.BulkOperations? then bare else Audited(bare, Id(c, 0))
    ensures BuildingOk(c, r, own)
  {
  }

  lemma BeginOk(deferred: bool, w: World, c: nat, executable: bool)
    requires Inv(deferred, w) && Enabled(deferred, w, Begin(c, executable))
    ensures Inv(deferred, Step(deferred, w, Begin(c, executable)))
    ensures Kept(w, Step(deferred, w, Begin(c, executable)))
  {
    var r := w.clients[c].request;
    if !executable || FlushFails(deferred, w, EMPTY, Parent(r)) {
      LeftOk(deferred, w, c, Done(Failed));
    } else {
      var bare := WithRow(EMPTY, Id(c, 0), Parent(r));
      var own := if r.kind.BulkOperations? then bare else Audited(bare, Id(c, 0));
      BegunHolds(c, r, own);
      if !deferred {
        FlushFrame(w, c, EMPTY, Id(c, 0), Parent(r), own);
      }
      BuildingFrame(deferred, w, c, own);
    }
  }

  /** An inspection item is written without an operation. */
  lemma InspectionItemHolds(c: nat, r: Request, own: Rows)
    requires BuildingOk(c, r, own) && Written(own) < Items(r) && r.kind.BulkInspection?
    ensures BuildingOk(c, r, WithItem(own, Id(c, 0), Written(own), Item(r.tables[Written(own)], None)))
  {
    var n := Written(own);
    assert (Id(c, 0), n) !in own.items;
    var own' := WithItem(own, Id(c, 0), n, Item(r.tables[n], None));
    var next := Written(own');
    assert next == n + 1;
    forall p: nat
      ensures RowAsExpected(own', c, r, next, p)
    {
      assert RowAsExpected(own, c, r, n, p);
    }
  }

  lemma OperationRowHolds(c: nat, r: Request, own: Rows, p: nat)
    requires Written(own) < |r.tables| && r.kind.BulkOperations? && RowAsExpected(own, c, r, Written(own), p)
    ensures RowAsExpected(WithOperation(c, r, own), c, r, Written(own) + 1, p)
  {
  }

  lemma OperationItemsHold(c: nat, r: Request, own: Rows)
    requires Written(own) < |r.tables| && r.kind.BulkOperations? && ItemsAsExpected(own, c, r, Written(own))
    ensures Written(WithOperation(c, r, own)) == Written(own) + 1
    ensures ItemsAsExpected(WithOperation(c, r, own), c, r, Written(own) + 1)
  {
    var n := Written(own);
    var own' := WithOperation(c, r, own);
    assert (Id(c, 0), n) !in own.items;
    assert |own'.items| == n + 1;
    forall k: nat | (Id(c, 0), k) in own'.items
      ensures own'.items[(Id(c, 0), k)] == Item(r.tables[k], Some(Id(c, k + 1)))
    {
      assert k != n ==> (Id(c, 0), k) in own.items;
    }
  }

  /** An operation, its audit row and its item: the transaction then holds exactly one item more. */
  lemma OperationItemHolds(c: nat, r: Request, own: Rows)
    requires BuildingOk(c, r, own) && Written(own) < Items(r) && r.kind.BulkOperations?
    ensures BuildingOk(c, r, WithOperation(c, r, own))
  {
    var n := Written(own);
    OperationItemsHold(c, r, own);
    var own' := WithOperation(c, r, own);
    var next := Written(own');
    assert OnlyOf(own', c);
    forall p: nat
      ensures RowAsExpected(own', c, r, next, p)
    {
      assert RowAsExpected(own, c, r, n, p);
      OperationRowHolds(c, r, own, p);
    }
  }

  lemma InspectionAdded(deferred: bool, w: World, c: nat)
    requires Inv(deferred, w) && Enabled(deferred, w, AddItem(c, true)) && w.clients[c].request.kind.BulkInspection?
    ensures var r, own := w.clients[c].request, w.clients[c].phase.own;
      var next := Moved(w, c, Building(WithItem(own, Id(c, 0), Written(own), Item(r.tables[Written(own)], None))));
      Inv(deferred, next) && Kept(w, next)
  {
    var r, own := w.clients[c].request, w.clients[c].phase.own;
    assert ClientOk(w.db, c, w.clients[c]);
    InspectionItemHolds(c, r, own);
    var own' := WithItem(own, Id(c, 0), Written(own), Item(r.tables[Written(own)], None));
    if !deferred {
      SameRowsFrame(w, c, own');
    }
    BuildingFrame(deferred, w, c, own');
  }

  lemma OperationAdded(deferred: bool, w: World, c: nat)
    requires Inv(deferred, w) && Enabled(deferred, w, AddItem(c, true)) && w.clients[c].request.kind.BulkOperations?
    requires var r, own := w.clients[c].request, w.clients[c].phase.own;
      !FlushFails(deferred, w, own, Child(c, r, Written(own)))
    ensures var next := Moved(w, c, Building(WithOperation(c, w.clients[c].request, w.clients[c].phase.own)));
      Inv(deferred, next) && Kept(w, next)
  {
    var r, own := w.clients[c].request, w.clients[c].phase.own;
    assert ClientOk(w.db, c, w.clients[c]);
    OperationItemHolds(c, r, own);
    if !deferred {
      FlushFrame(w, c, own, Id(c, Written(own) + 1), Child(c, r, Written(own)), WithOperation(c, r, own));
    }
    BuildingFrame(deferred, w, c, WithOperation(c, r, own));
  }

  lemma AddItemOk(deferred: bool, w: World, c: nat, executable: bool)
    requires Inv(deferred, w) && Enabled(deferred, w, AddItem(c, executable))
    ensures Inv(deferred, Step(deferred, w, AddItem(c, executable)))
    ensures Kept(w, Step(deferred, w, AddItem(c, executable)))
  {
    var r := w.clients[c].request;
    var own := w.clients[c].phase.own;
    var n := Written(own);
    assert ClientOk(w.db, c, w.clients[c]);
    if r.kind.BulkInspection? {
      InspectionAdded(deferred, w, c);
    } else if !executable || FlushFails(deferred, w, own, Child(c, r, n)) {
      LeftOk(deferred, w, c, Done(Failed));
    } else {
      OperationAdded(deferred, w, c);
    }
  }

  /** The rows of two clients never share an identifier, so a commit adds its rows and changes none. */
  lemma MergedOther(db: Rows, own: Rows, c: nat, d: nat, made: Option<Request>)
    requires c != d && OnlyOf(own, c) && RowsOk(db, d, made)
    ensures RowsOk(Merged(db, own), d, made)
  {
    if made.Some? {
      forall p: nat
        ensures RowAsExpected(Merged(db, own), d, made.value, Items(made.value), p)
      {
        assert RowAsExpected(db, d, made.value, Items(made.value), p);
      }
    }
  }

  lemma MergedOwn(db: Rows, own: Rows, c: nat, r: Request, n: nat)
    requires n <= |r.tables| && OnlyOf(own, c) && HoldsNothing(db, c) && Holds(own, c, r, n)
    ensures Holds(Merged(db, own), c, r, n)
  {
    forall p: nat
      ensures RowAsExpected(Merged(db, own), c, r, n, p)
    {
      assert RowAsExpected(own, c, r, n, p);
    }
  }

  lemma MergedKeeps(db: Rows, own: Rows, c: nat)
    requires OnlyOf(own, c) && HoldsNothing(db, c)
    ensures forall i :: i in db.rows ==> i in Merged(db, own).rows && Merged(db, own).rows[i] == db.rows[i]
  {
    forall i | i in db.rows
      ensures i in Merged(db, own).rows && Merged(db, own).rows[i] == db.rows[i]
    {
      if i in own.rows {
        assert i == Id(c, i.part);
      }
    }
  }

  lemma MergedUnique(m: map<Id, Row>, n: map<Id, Row>)
    requires Unique(m) && Unique(n) && Apart(m, n)
    ensures Unique(m + n)
  {
  }

  lemma MergedApart(m: map<Id, Row>, n: map<Id, Row>, o: map<Id, Row>)
    requires Apart(m, o) && Apart(n, o)
    ensures Apart(m + n, o)
  {
  }

  /** Under immediate checking a commit meets no conflict: the rollback and the conflict lookup are never reached. */
  lemma CommitSucceeds(w: World, c: nat)
    requires Inv(false, w) && Enabled(false, w, Commit(c))
    ensures Step(false, w, Commit(c)).clients[c].phase == Done(Reply(Id(c, 0)))
  {
    assert Flushed(w, c) == w.clients[c].phase.own.rows;
    MergedUnique(w.db.rows, Flushed(w, c));
  }

  lemma CommittedRows(w: World, c: nat)
    requires CommittedOk(w) && At(w, c) && ClientOk(w.db, c, w.clients[c]) && w.clients[c].phase.Building?
    requires Written(w.clients[c].phase.own) == Items(w.clients[c].request)
    requires Unique(Merged(w.db, w.clients[c].phase.own).rows)
    ensures CommittedOk(Moved(w.(db := Merged(w.db, w.clients[c].phase.own)), c, Done(Reply(Id(c, 0)))))
  {
    var w' := Moved(w.(db := Merged(w.db, w.clients[c].phase.own)), c, Done(Reply(Id(c, 0))));
    forall d: nat
      ensures RowsOk(w'.db, d, Made(w', d))
    {
      assert RowsOk(w.db, d, Made(w, d));
      CommittedRowsOf(w, c, d);
    }
  }

  lemma CommittedRowsOf(w: World, c: nat, d: nat)
    requires At(w, c) && ClientOk(w.db, c, w.clients[c]) && w.clients[c].phase.Building?
    requires Written(w.clients[c].phase.own) == Items(w.clients[c].request)
    requires RowsOk(w.db, d, Made(w, d))
    ensures var w' := Moved(w.(db := Merged(w.db, w.clients[c].phase.own)), c, Done(Reply(Id(c, 0))));
      RowsOk(w'.db, d, Made(w', d))
  {
    var r := w.clients[c].request;
    if d == c {
      MergedOwn(w.db, w.clients[c].phase.own, c, r, Items(r));
    } else {
      MergedOther(w.db, w.clients[c].phase.own, c, d, Made(w, d));
    }
  }

  lemma CommittedReply(db: Rows, own: Rows, c: nat, r: Request)
    requires BuildingOk(c, r, own) && OnlyOf(own, c)
    ensures Id(c, 0) in own.rows && own.rows[Id(c, 0)] == Parent(r)
    ensures ReplyOk(Merged(db, own), r, Id(c, 0))
  {
    assert RowAsExpected(own, c, r, Written(own), 0);
  }

  lemma CommittedClients(w: World, c: nat)
    requires ClientsOk(w) && At(w, c) && w.clients[c].phase.Building? && HoldsNothing(w.db, c)
    ensures var w' := Moved(w.(db := Merged(w.db, w.clients[c].phase.own)), c, Done(Reply(Id(c, 0))));
      ClientsOk(w') && Kept(w, w')
  {
    var own := w.clients[c].phase.own;
    var w' := Moved(w.(db := Merged(w.db, own)), c, Done(Reply(Id(c, 0))));
    assert ClientOk(w.db, c, w.clients[c]);
    MergedKeeps(w.db, own, c);
    CommittedReply(w.db, own, c, w.clients[c].request);
    forall d | d in w'.clients && d != c
      ensures ClientOk(w'.db, d, w'.clients[d])
    {
      RepliesStay(w.db, w'.db, d, w.clients[d]);
    }
  }

  lemma RepliesStay(db: Rows, db': Rows, c: nat, client: Client)
    requires ClientOk(db, c, client)
    requires forall i :: i in db.rows ==> i in db'.rows && db'.rows[i] == db.rows[i]
    ensures ClientOk(db', c, client)
  {
  }

  lemma CommittedCollisions(w: World, c: nat)
    requires NoCollision(w) && At(w, c) && w.clients[c].phase.Building?
    ensures NoCollision(Moved(w.(db := Merged(w.db, w.clients[c].phase.own)), c, Done(Reply(Id(c, 0)))))
  {
    var own := w.clients[c].phase.own;
    var w' := Moved(w.(db := Merged(w.db, own)), c, Done(Reply(Id(c, 0))));
    assert own.rows == Flushed(w, c) && Flushed(w', c) == map[];
    forall d: nat | d != c
      ensures Flushed(w', d) == Flushed(w, d) && Apart(w'.db.rows, Flushed(w', d))
    {
      MergedApart(w.db.rows, own.rows, Flushed(w, d));
    }
  }

  lemma CommitOk(deferred: bool, w: World, c: nat)
    requires Inv(deferred, w) && Enabled(deferred, w, Commit(c))
    ensures Inv(deferred, Step(deferred, w, Commit(c)))
    ensures Kept(w, Step(deferred, w, Commit(c)))
  {
    var r := w.clients[c].request;
    var own := w.clients[c].phase.own;
    assert HoldsNothing(w.db, c) by { assert RowsOk(w.db, c, Made(w, c)) && Made(w, c) == None; }
    if !deferred {
      CommitSucceeds(w, c);
    }
    if Unique(Merged(w.db, own).rows) {
      assert ClientOk(w.db, c, w.clients[c]);
      CommittedRows(w, c);
      CommittedClients(w, c);
      if !deferred {
        CommittedCollisions(w, c);
      }
    } else {
      LeftOk(deferred, w, c, if r.key.Some? then Conflicted else Done(Failed));
    }
  }

  lemma ArriveOk(deferred: bool, w: World, c: nat, r: Request)
    requires Inv(deferred, w) && Enabled(deferred, w, Arrive(c, r))
    ensures Inv(deferred, Step(deferred, w, Arrive(c, r))) && Kept(w, Step(deferred, w, Arrive(c, r)))
  {
    var w' := Step(deferred, w, Arrive(c, r));
    assert forall d: nat :: Made(w', d) == Made(w, d);
    assert forall d: nat :: Flushed(w', d) == Flushed(w, d);
    forall d: nat
      ensures RowsOk(w'.db, d, Made(w', d))
    {
      assert RowsOk(w.db, d, Made(w, d));
    }
  }

  lemma StepOk(deferred: bool, w: World, a: Action)
    requires Inv(deferred, w) && Enabled(deferred, w, a)
    ensures Inv(deferred, Step(deferred, w, a)) && Kept(w, Step(deferred, w, a))
  {
    match a {
      case Arrive(c, r) => ArriveOk(deferred, w, c, r);
      case Lookup(c, found) =>
        AnswerOk(deferred, w, c, found);
        if found.None? {
          LeftOk(deferred, w, c, Missed);
        }
      case Begin(c, executable) => BeginOk(deferred, w, c, executable);
      case AddItem(c, executable) => AddItemOk(deferred, w, c, executable);
      case Commit(c) => CommitOk(deferred, w, c);
      case ConflictLookup(c, found) =>
        AnswerOk(deferred, w, c, found);
        if found.None? {
          LeftOk(deferred, w, c, Done(Refused));
        }
      case Crash(c) => LeftOk(deferred, w, c, Done(Failed));
    }
  }

  // ---------------------------------------------------------------- every run

  ghost predicate Allowed(deferred: bool, w: World, run: seq<Action>)
    decreases |run|
  {
    run == [] || (Enabled(deferred, w, run[0]) && Allowed(deferred, Step(deferred, w, run[0]), run[1..]))
  }

  ghost function Final(deferred: bool, w: World, run: seq<Action>): World
    requires Allowed(deferred, w, run)
    decreases |run|
  {
    if run == [] then w else Final(deferred, Step(deferred, w, run[0]), run[1..])
  }

  const START := World(EMPTY, map[])

  lemma StartOk(deferred: bool)
    ensures Inv(deferred, START)
  {
  }

  lemma {:induction false} EveryRunOk(deferred: bool, w: World, run: seq<Action>)
    requires Inv(deferred, w) && Allowed(deferred, w, run)
    ensures Inv(deferred, Final(deferred, w, run)) && Kept(w, Final(deferred, w, run))
    decreases |run|
  {
    if run != [] {
      StepOk(deferred, w, run[0]);
      EveryRunOk(deferred, Step(deferred, w, run[0]), run[1..]);
    }
  }

  /** The two tables a request can be answered from: bulk jobs of both kinds share one. */
  predicate SameTarget(r: Request, s: Request) {
    r.kind.OneOperation? == s.kind.OneOperation?
  }

  /** In every run a key names one row, and all successful replies under it name that row, made by their own payload. */
  lemma {:induction false} OneRowPerKey(deferred: bool, run: seq<Action>, c: nat, d: nat)
    requires Allowed(deferred, START, run)
    ensures var w := Final(deferred, START, run);
      Unique(w.db.rows) &&
      (c in w.clients && w.clients[c].phase.Done? && w.clients[c].phase.outcome.Reply? ==>
        ReplyOk(w.db, w.clients[c].request, w.clients[c].phase.outcome.id))
    ensures var w := Final(deferred, START, run);
      c in w.clients && d in w.clients && SameTarget(w.clients[c].request, w.clients[d].request) &&
      w.clients[c].request.key.Some? && w.clients[c].request.key == w.clients[d].request.key &&
      w.clients[c].phase.Done? && w.clients[c].phase.outcome.Reply? &&
      w.clients[d].phase.Done? && w.clients[d].phase.outcome.Reply? ==>
        w.clients[c].phase == w.clients[d].phase && w.clients[c].request.fingerprint == w.clients[d].request.fingerprint
  {
    StartOk(deferred);
    EveryRunOk(deferred, START, run);
    var w := Final(deferred, START, run);
    assert c in w.clients ==> ClientOk(w.db, c, w.clients[c]);
    assert d in w.clients ==> ClientOk(w.db, d, w.clients[d]);
  }

  /** Requests without a key are never answered with the row of another. */
  lemma {:induction false} KeylessAlwaysCreates(deferred: bool, run: seq<Action>, c: nat)
    requires Allowed(deferred, START, run)
    ensures var w := Final(deferred, START, run);
      c in w.clients && w.clients[c].request.key.None? && w.clients[c].phase.Done? &&
        w.clients[c].phase.outcome.Reply? ==>
        Created(w, c)
  {
    StartOk(deferred);
    EveryRunOk(deferred, START, run);
    var w := Final(deferred, START, run);
    assert c in w.clients ==> ClientOk(w.db, c, w.clients[c]);
  }

  /** A visible bulk job: its items are those of the ordinals below its total, and its operations those of its items. */
  ghost predicate Complete(db: Rows, j: Id)
    requires j in db.rows && db.rows[j].JobRow?
  {
    var job := db.rows[j];
    (forall k: nat :: (j, k) in db.items <==> k < job.total) &&
    (job.kind.BulkInspection? ==>
      db.audits[j] == 1 && (forall k: nat :: (j, k) in db.items ==> db.items[(j, k)].operation == None) &&
      (forall o :: o in db.rows && db.rows[o].OperationRow? ==> db.rows[o].job != Some(j))) &&
    (job.kind.BulkOperations? ==>
      (forall k: nat :: (j, k) in db.items ==>
        var item := db.items[(j, k)];
        item.operation.Some? && item.operation.value in db.rows && db.audits[item.operation.value] == 1 &&
        db.rows[item.operation.value] ==
          OperationRow(if job.key.Some? then Some(Derived(job.key.value, item.table)) else None, job.fingerprint,
                       item.table, Some(j))) &&
      (forall o :: o in db.rows && db.rows[o].OperationRow? && db.rows[o].job == Some(j) ==>
        exists k: nat :: (j, k) in db.items && db.items[(j, k)].operation == Some(o)) &&
      (forall k: nat, l: nat :: (j, k) in db.items && (j, l) in db.items && k != l ==>
        db.items[(j, k)].operation != db.items[(j, l)].operation))
  }

  /** Every row has a client that created it. */
  lemma RowHasCreator(w: World, i: Id)
    requires CommittedOk(w) && i in w.db.rows
    ensures Created(w, i.client)
    ensures Holds(w.db, i.client, w.clients[i.client].request, Items(w.clients[i.client].request))
    ensures Expected(i.client, w.clients[i.client].request, Items(w.clients[i.client].request), i.part) ==
      Some(w.db.rows[i])
  {
    assert i == Id(i.client, i.part);
    var c := i.client;
    assert RowsOk(w.db, c, Made(w, c));
    assert Created(w, c) ==> RowAsExpected(w.db, c, w.clients[c].request, Items(w.clients[c].request), i.part);
  }

  lemma JobComplete(w: World, j: Id)
    requires CommittedOk(w) && j in w.db.rows && w.db.rows[j].JobRow?
    ensures Complete(w.db, j)
  {
    RowHasCreator(w, j);
    var c := j.client;
    var r := w.clients[c].request;
    assert j == Id(c, 0) && w.db.rows[j] == Parent(r);
    assert RowAsExpected(w.db, c, r, Items(r), 0);
    forall o | o in w.db.rows && w.db.rows[o].OperationRow? && w.db.rows[o].job == Some(j)
      ensures r.kind.BulkOperations?
      ensures exists k: nat :: (j, k) in w.db.items && w.db.items[(j, k)].operation == Some(o)
    {
      RowHasCreator(w, o);
      assert o.client == c;
      var k: nat := o.part - 1;
      assert o == Id(c, k + 1) && (Id(c, 0), k) in w.db.items;
    }
    forall k: nat | r.kind.BulkOperations? && (j, k) in w.db.items
      ensures var item := w.db.items[(j, k)];
        item.operation == Some(Id(c, k + 1)) && Id(c, k + 1) in w.db.rows && w.db.audits[Id(c, k + 1)] == 1 &&
        w.db.rows[Id(c, k + 1)] == Child(c, r, k) && item.table == r.tables[k]
    {
      assert (Id(c, 0), k) in w.db.items;
      assert RowAsExpected(w.db, c, r, Items(r), k + 1);
    }
  }

  /** At every moment of every run a bulk job is visible only with all its items, operations and audit rows. */
  lemma {:induction false} BulkJobsAreComplete(deferred: bool, run: seq<Action>, j: Id)
    requires Allowed(deferred, START, run)
    ensures var w := Final(deferred, START, run);
      j in w.db.rows && w.db.rows[j].JobRow? ==> Complete(w.db, j)
  {
    StartOk(deferred);
    EveryRunOk(deferred, START, run);
    var w := Final(deferred, START, run);
    if j in w.db.rows && w.db.rows[j].JobRow? {
      JobComplete(w, j);
    }
  }

  /** With the constraint checked at the flush no run ever gets to the conflict handlers. */
  lemma {:induction false} ConflictsNeverHandled(run: seq<Action>, c: nat)
    requires Allowed(false, START, run)
    ensures var w := Final(false, START, run); c in w.clients ==> !w.clients[c].phase.Conflicted?
  {
    StartOk(false);
    EveryRunOk(false, START, run);
  }

  // ---------------------------------------------------------------- losers of a race

  ghost predicate Lost(w: World, c: nat) {
    c in w.clients &&
    (w.clients[c].phase == Done(Failed) ||
      (w.clients[c].phase.Missed? && Taken(w.db.rows, Parent(w.clients[c].request))))
  }

  lemma TakenStays(w: World, w': World, row: Row)
    requires Kept(w, w') && Taken(w.db.rows, row)
    ensures Taken(w'.db.rows, row)
  {
    var i :| i in w.db.rows && SameRelation(w.db.rows[i], row) && w.db.rows[i].key.Some? && w.db.rows[i].key == row.key;
    assert i in w'.db.rows;
  }

  lemma LostStaysLost(w: World, c: nat, a: Action)
    requires Lost(w, c) && Enabled(false, w, a) && Kept(w, Step(false, w, a))
    ensures Lost(Step(false, w, a), c)
  {
    var w' := Step(false, w, a);
    if w.clients[c].phase.Missed? {
      TakenStays(w, w', Parent(w.clients[c].request));
      if a.client == c {
        assert a.Begin? || a.Crash?;
      } else {
        assert w'.clients[c] == w.clients[c];
      }
    }
  }

  /**
   * With immediate checking a client whose lookup missed before the key was committed never gets a reply,
   * however the run goes on: its own flush raises, and no handler is around it.
   */
  lemma {:induction false} LoserNeverReplies(w: World, run: seq<Action>, c: nat)
    requires Inv(false, w) && Lost(w, c) && Allowed(false, w, run)
    ensures Lost(Final(false, w, run), c)
    decreases |run|
  {
    if run != [] {
      StepOk(false, w, run[0]);
      LostStaysLost(w, c, run[0]);
      LoserNeverReplies(Step(false, w, run[0]), run[1..], c);
    }
  }

  lemma KeyClash(m: map<Id, Row>, i: Id, j: Id)
    requires i in m && j in m && i != j && SameRelation(m[i], m[j]) && m[i].key.Some? && m[i].key == m[j].key
    ensures !Unique(m)
  {
  }

  /** A commit under a key that is held already is rolled back when the check is deferred. */
  lemma DeferredCommitConflicts(w: World, c: nat, winner: Id)
    requires Inv(true, w) && Enabled(true, w, Commit(c))
    requires w.clients[c].request.key.Some? && Selects(w.db.rows, w.clients[c].request, Some(winner))
    ensures Step(true, w, Commit(c)) == Moved(w, c, Conflicted)
  {
    var own := w.clients[c].phase.own;
    assert ClientOk(w.db, c, w.clients[c]);
    assert HoldsNothing(w.db, c) by { assert RowsOk(w.db, c, Made(w, c)) && Made(w, c) == None; }
    MergedKeeps(w.db, own, c);
    CommittedReply(w.db, own, c, w.clients[c].request);
    KeyClash(Merged(w.db, own).rows, winner, Id(c, 0));
  }

  /** With deferred checking the same client is answered: with the row if its payload made it, else with a refusal. */
  lemma {:induction false} DeferredLoserAnswered(w: World, c: nat, winner: Id, found: Option<Id>)
    requires Inv(true, w) && Enabled(true, w, Commit(c))
    requires w.clients[c].request.key.Some? && Selects(w.db.rows, w.clients[c].request, Some(winner))
    requires Enabled(true, Moved(w, c, Conflicted), ConflictLookup(c, found))
    ensures Step(true, w, Commit(c)) == Moved(w, c, Conflicted)
    ensures Step(true, Moved(w, c, Conflicted), ConflictLookup(c, found)).clients[c].phase ==
      Done(if w.db.rows[winner].fingerprint == w.clients[c].request.fingerprint then Reply(winner) else Refused)
  {
    DeferredCommitConflicts(w, c, winner);
    OneAnswer(w, w.clients[c].request, winner, found);
  }

  lemma OneAnswer(w: World, r: Request, winner: Id, found: Option<Id>)
    requires Unique(w.db.rows) && Selects(w.db.rows, r, Some(winner)) && Selects(w.db.rows, r, found)
    ensures found == Some(winner)
  {
    assert found.Some? && found.value in w.db.rows;
  }

  /** A client that arrives, or looks, after the commit is answered the same way under either checking. */
  lemma LateLookupAnswered(deferred: bool, w: World, c: nat, winner: Id, found: Option<Id>)
    requires Inv(deferred, w) && Enabled(deferred, w, Lookup(c, found))
    requires Selects(w.db.rows, w.clients[c].request, Some(winner))
    ensures Step(deferred, w, Lookup(c, found)).clients[c].phase ==
      Done(if w.db.rows[winner].fingerprint == w.clients[c].request.fingerprint then Reply(winner) else Refused)
  {
    OneAnswer(w, w.clients[c].request, winner, found);
  }

  ghost predicate HasReply(w: World, c: nat) {
    c in w.clients && w.clients[c].phase.Done? && w.clients[c].phase.outcome.Reply?
  }

  /** The client will look, and find the row of another payload. */
  ghost predicate Mismatched(w: World, c: nat, winner: Id) {
    c in w.clients && w.clients[c].phase.Asking? && Selects(w.db.rows, w.clients[c].request, Some(winner)) &&
    w.db.rows[winner].fingerprint != w.clients[c].request.fingerprint
  }

  ghost predicate Hopeless(w: World, c: nat, winner: Id) {
    Lost(w, c) || Mismatched(w, c, winner) || (c in w.clients && w.clients[c].phase == Done(Refused))
  }

  lemma HopelessStays(w: World, c: nat, winner: Id, a: Action)
    requires Inv(false, w) && Hopeless(w, c, winner) && Enabled(false, w, a) && Kept(w, Step(false, w, a))
    ensures Hopeless(Step(false, w, a), c, winner)
  {
    if Lost(w, c) {
      LostStaysLost(w, c, a);
    } else if Mismatched(w, c, winner) && a.client == c {
      if a.Lookup? {
        LateLookupAnswered(false, w, c, winner, a.found);
      }
    }
  }

  lemma {:induction false} HopelessForever(w: World, run: seq<Action>, c: nat, winner: Id)
    requires Inv(false, w) && Hopeless(w, c, winner) && Allowed(false, w, run)
    ensures !HasReply(Final(false, w, run), c)
    decreases |run|
  {
    if run == [] {
    } else {
      StepOk(false, w, run[0]);
      HopelessStays(w, c, winner, run[0]);
      HopelessForever(Step(false, w, run[0]), run[1..], c, winner);
    }
  }

  /** What is flushed and not committed has a key that no committed row has. */
  lemma BuildingKeyIsFree(w: World, c: nat, i: Id)
    requires Inv(false, w) && At(w, c) && w.clients[c].phase.Building? && w.clients[c].request.key.Some?
    requires i in w.db.rows && SameRelation(w.db.rows[i], Parent(w.clients[c].request))
    ensures w.db.rows[i].key != w.clients[c].request.key
  {
    var own := w.clients[c].phase.own;
    assert ClientOk(w.db, c, w.clients[c]);
    CommittedReply(w.db, own, c, w.clients[c].request);
    assert Apart(w.db.rows, Flushed(w, c));
  }

  lemma NoneBuilding(w: World, c: nat, winner: Id)
    requires Inv(false, w) && At(w, c) && w.clients[c].request.key.Some?
    requires Selects(w.db.rows, w.clients[c].request, Some(winner))
    ensures w.clients[c].phase.Asking? || (w.clients[c].phase.Missed? && Lost(w, c))
  {
    if w.clients[c].phase.Building? {
      BuildingKeyIsFree(w, c, winner);
    }
  }

  /** Some continuation gives the client a reply. */
  ghost predicate CanReply(w: World, c: nat) {
    exists run :: Allowed(false, w, run) && HasReply(Final(false, w, run), c)
  }

  lemma LookupReplies(w: World, c: nat, winner: Id)
    requires Inv(false, w) && At(w, c) && w.clients[c].phase.Asking?
    requires Selects(w.db.rows, w.clients[c].request, Some(winner))
    requires w.db.rows[winner].fingerprint == w.clients[c].request.fingerprint
    ensures CanReply(w, c)
  {
    var run := [Lookup(c, Some(winner))];
    assert Allowed(false, Step(false, w, run[0]), run[1..]);
    assert Allowed(false, w, run) && HasReply(Final(false, w, run), c);
  }

  /**
   * Whether a client that is still at work can get the promised answer once its key is held by a committed row: if
   * and only if it has yet to look, and its payload is the one that made the row.
   */
  lemma {:induction false} HeldKeyAnsweredExactly(w: World, c: nat, winner: Id)
    requires Inv(false, w) && At(w, c) && w.clients[c].request.key.Some?
    requires Selects(w.db.rows, w.clients[c].request, Some(winner))
    ensures CanReply(w, c) <==>
      w.clients[c].phase.Asking? && w.db.rows[winner].fingerprint == w.clients[c].request.fingerprint
  {
    NoneBuilding(w, c, winner);
    if w.clients[c].phase.Asking? && w.db.rows[winner].fingerprint == w.clients[c].request.fingerprint {
      LookupReplies(w, c, winner);
    } else {
      forall run | Allowed(false, w, run)
        ensures !HasReply(Final(false, w, run), c)
      {
        HopelessForever(w, run, c, winner);
      }
    }
  }

  lemma OneMore(w: World, a: Action, w': World, rest: seq<Action>, last: World)
    requires Enabled(false, w, a) && Step(false, w, a) == w'
    requires Allowed(false, w', rest) && Final(false, w', rest) == last
    ensures Allowed(false, w, [a] + rest) && Final(false, w, [a] + rest) == last
  {
    assert ([a] + rest)[1..] == rest;
  }

  function OwnRow(r: Request): Rows {
    Audited(WithRow(EMPTY, Id(0, 0), Parent(r)), Id(0, 0))
  }

  function TwoClients(db: Rows, r: Request, first: Phase, second: Phase): World {
    World(db, map[0 := Client(r, first), 1 := Client(r, second)])
  }

  lemma FirstWrites(r: Request)
    requires r.kind.OneOperation?
    ensures var w := TwoClients(EMPTY, r, Missed, Missed);
      Enabled(false, w, Begin(0, true)) &&
        Step(false, w, Begin(0, true)) == TwoClients(EMPTY, r, Building(OwnRow(r)), Missed)
  {
    var w := TwoClients(EMPTY, r, Missed, Missed);
    assert forall d: nat :: Flushed(w, d) == map[];
    assert !Taken(EMPTY.rows, Parent(r));
  }

  lemma FirstCommits(r: Request)
    requires r.kind.OneOperation?
    ensures var w := TwoClients(EMPTY, r, Building(OwnRow(r)), Missed);
      Enabled(false, w, Commit(0)) &&
        Step(false, w, Commit(0)) == TwoClients(OwnRow(r), r, Done(Reply(Id(0, 0))), Missed)
  {
    assert Merged(EMPTY, OwnRow(r)) == OwnRow(r) && Unique(OwnRow(r).rows);
  }

  lemma SecondFails(r: Request)
    requires r.kind.OneOperation? && r.key.Some?
    ensures var w := TwoClients(OwnRow(r), r, Done(Reply(Id(0, 0))), Missed);
      Enabled(false, w, Begin(1, true)) &&
      Step(false, w, Begin(1, true)) == TwoClients(OwnRow(r), r, Done(Reply(Id(0, 0))), Done(Failed))
  {
    var w := TwoClients(OwnRow(r), r, Done(Reply(Id(0, 0))), Missed);
    assert forall d: nat :: Flushed(w, d) == map[];
    assert Id(0, 0) in OwnRow(r).rows && Taken(OwnRow(r).rows, Parent(r));
  }

  /** Two clients send the same request; both look before either writes.  The second one to write fails. */
  lemma SameRequestTwiceFails(r: Request) returns (run: seq<Action>)
    requires r.kind.OneOperation? && |r.tables| == 1 && r.key.Some?
    ensures Allowed(false, START, run)
    ensures Final(false, START, run).clients == map[0 := Client(r, Done(Reply(Id(0, 0)))), 1 := Client(r, Done(Failed))]
  {
    var last := TwoClients(OwnRow(r), r, Done(Reply(Id(0, 0))), Done(Failed));
    SecondFails(r);
    OneMore(TwoClients(OwnRow(r), r, Done(Reply(Id(0, 0))), Missed), Begin(1, true), last, [], last);
    run := [Begin(1, true)] + [];
    FirstCommits(r);
    OneMore(TwoClients(EMPTY, r, Building(OwnRow(r)), Missed), Commit(0),
      TwoClients(OwnRow(r), r, Done(Reply(Id(0, 0))), Missed), run, last);
    run := [Commit(0)] + run;
    FirstWrites(r);
    OneMore(TwoClients(EMPTY, r, Missed, Missed), Begin(0, true), TwoClients(EMPTY, r, Building(OwnRow(r)), Missed),
      run, last);
    run := [Begin(0, true)] + run;
    run := BothLook(r, run, last);
  }

  lemma BothLook(r: Request, rest: seq<Action>, last: World) returns (run: seq<Action>)
    requires r.kind.OneOperation? && |r.tables| == 1
    requires var w := TwoClients(EMPTY, r, Missed, Missed); Allowed(false, w, rest) && Final(false, w, rest) == last
    ensures Allowed(false, START, run) && Final(false, START, run) == last
  {
    var w1 := World(EMPTY, map[0 := Client(r, Asking)]);
    var w2 := World(EMPTY, map[0 := Client(r, Missed)]);
    var w3 := TwoClients(EMPTY, r, Missed, Asking);
    OneMore(w3, Lookup(1, None), TwoClients(EMPTY, r, Missed, Missed), rest, last);
    run := [Lookup(1, None)] + rest;
    OneMore(w2, Arrive(1, r), w3, run, last);
    run := [Arrive(1, r)] + run;
    OneMore(w1, Lookup(0, None), w2, run, last);
    run := [Lookup(0, None)] + run;
    OneMore(START, Arrive(0, r), w1, run, last);
    run := [Arrive(0, r)] + run;
  }
}
