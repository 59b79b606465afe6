/** What a creation under a key makes, and exactly when one can be made: the rows in terms of the request, the keys of
    the operations of a bulk job, and the condition under which a client whose lookup found nothing can still create. */
module KeyedCreation {
  import opened Common
  import opened Idempotency
  import opened IdempotencyGuarantees

  /** Some run ends here, with the unique keys checked at the flush. */
  ghost predicate Reached(w: World) {
    exists run :: Allowed(false, START, run) && Final(false, START, run) == w
  }

  lemma ReachedOk(w: World)
    requires Reached(w)
    ensures Inv(false, w)
  {
    var run :| Allowed(false, START, run) && Final(false, START, run) == w;
    StartOk(false);
    EveryRunOk(false, START, run);
  }

  // ---------------------------------------------------------------- what is made

  /** The key that a bulk job under the given key gives its operation on a table. */
  function KeyFor(key: Option<Key>, table: nat): Option<Key> {
    match key
    case None => None
    case Some(k) => Some(Derived(k, table))
  }

  /** The item on the k-th table, and the operation it names. */
  ghost predicate OperationMade(db: Rows, c: nat, r: Request, k: nat)
    requires k < |r.tables|
  {
    && (Id(c, 0), k) in db.items && db.items[(Id(c, 0), k)] == Item(r.tables[k], Some(Id(c, k + 1)))
    && Id(c, k + 1) in db.rows && db.audits[Id(c, k + 1)] == 1
    && db.rows[Id(c, k + 1)] ==
         OperationRow(KeyFor(r.key, r.tables[k]), r.fingerprint, r.tables[k], Some(Id(c, 0)))
  }

  /** The rows a request asks for, under the identifiers of the client. */
  ghost predicate Fulfilled(db: Rows, c: nat, r: Request) {
    && Id(c, 0) in db.rows && db.rows[Id(c, 0)].OperationRow? == r.kind.OneOperation? && db.rows[Id(c, 0)].key == r.key
    && (r.kind.OneOperation? && |r.tables| == 1 ==>
         db.rows[Id(c, 0)] == OperationRow(r.key, r.fingerprint, r.tables[0], None) && db.audits[Id(c, 0)] == 1)
    && (!r.kind.OneOperation? ==>
         && db.rows[Id(c, 0)] == JobRow(r.key, r.fingerprint, r.kind, |r.tables|)
         && (forall k: nat :: (Id(c, 0), k) in db.items <==> k < |r.tables|))
    && (r.kind.BulkInspection? ==>
         db.audits[Id(c, 0)] == 1 &&
         forall k: nat :: k < |r.tables| ==> db.items[(Id(c, 0), k)] == Item(r.tables[k], None))
    && (r.kind.BulkOperations? ==>
         db.audits[Id(c, 0)] == 0 && forall k: nat :: k < |r.tables| ==> OperationMade(db, c, r, k))
  }

  lemma HeldIsFulfilled(db: Rows, c: nat, r: Request)
    requires Items(r) <= |r.tables| && Holds(db, c, r, Items(r))
    ensures Fulfilled(db, c, r)
  {
    assert RowAsExpected(db, c, r, Items(r), 0);
    forall k: nat | r.kind.BulkOperations? && k < |r.tables|
      ensures OperationMade(db, c, r, k)
    {
      assert RowAsExpected(db, c, r, Items(r), k + 1);
    }
  }

  /** In every run, under either checking, a client that was answered with a row of its own finds there exactly what it
      asked for: its table, or its tables in order, each with an operation of the job where there are to be any. */
  lemma {:induction false} CreatedAsRequested(deferred: bool, run: seq<Action>, c: nat)
    requires Allowed(deferred, START, run)
    ensures var w := Final(deferred, START, run);
      Created(w, c) ==> Fulfilled(w.db, c, w.clients[c].request)
  {
    StartOk(deferred);
    EveryRunOk(deferred, START, run);
    var w := Final(deferred, START, run);
    if Created(w, c) {
      assert RowsOk(w.db, c, Made(w, c));
      HeldIsFulfilled(w.db, c, w.clients[c].request);
    }
  }

  /** The operations of a visible job that has a key have keys that tell their tables apart; and since keys are unique,
      no table is listed twice. */
  lemma {:induction false} KeysTellTablesApart(deferred: bool, run: seq<Action>, j: Id, k: nat, l: nat)
    requires Allowed(deferred, START, run)
    ensures var db := Final(deferred, START, run).db;
      j in db.rows && db.rows[j].JobRow? && db.rows[j].kind.BulkOperations? && db.rows[j].key.Some? &&
      (j, k) in db.items && (j, l) in db.items && k != l ==>
        && db.items[(j, k)].operation.Some? && db.items[(j, l)].operation.Some?
        && db.items[(j, k)].operation.value in db.rows && db.items[(j, l)].operation.value in db.rows
        && db.rows[db.items[(j, k)].operation.value].key != db.rows[db.items[(j, l)].operation.value].key
        && db.items[(j, k)].table != db.items[(j, l)].table
  {
    StartOk(deferred);
    EveryRunOk(deferred, START, run);
    BulkJobsAreComplete(deferred, run, j);
  }

  // ---------------------------------------------------------------- when one can be made

  /** No committed row has the key of the request; and for a bulk job of operations, no committed operation has a key
      that would be given to one of its own, and no table is listed twice. */
  ghost predicate KeysFree(m: map<Id, Row>, r: Request) {
    r.key.Some? ==>
      && (forall i :: i in m && m[i].OperationRow? == r.kind.OneOperation? ==> m[i].key != r.key)
      && (r.kind.BulkOperations? ==>
           && (forall i, t :: i in m && m[i].OperationRow? && t in r.tables ==>
                 m[i].key != Some(Derived(r.key.value, t)))
           && (forall k, l :: 0 <= k < l < |r.tables| ==> r.tables[k] != r.tables[l]))
  }

  /** Some continuation answers the client with a row of its own. */
  ghost predicate CanCreate(w: World, c: nat) {
    exists run :: Allowed(false, w, run) && Created(Final(false, w, run), c)
  }

  lemma OperationKept(w: World, w': World, c: nat, r: Request, i: Id, k: nat)
    requires Unique(w'.db.rows) && Fulfilled(w'.db, c, r) && r.kind.BulkOperations? && r.key.Some?
    requires i in w.db.rows && i in w'.db.rows && w'.db.rows[i] == w.db.rows[i] && i.client != c
    requires w.db.rows[i].OperationRow? && k < |r.tables|
    ensures w.db.rows[i].key != Some(Derived(r.key.value, r.tables[k]))
  {
    assert OperationMade(w'.db, c, r, k);
  }

  /** What has been created shows that the keys were free. */
  lemma CreatedNeedsFreeKeys(w: World, w': World, c: nat, r: Request)
    requires Unique(w'.db.rows) && Fulfilled(w'.db, c, r) && HoldsNothing(w.db, c) && Kept(w, w')
    ensures KeysFree(w.db.rows, r)
  {
    forall i | i in w.db.rows
      ensures i.client != c
    {
      assert i == Id(i.client, i.part);
    }
    if r.key.Some? && r.kind.BulkOperations? {
      forall i, t | i in w.db.rows && w.db.rows[i].OperationRow? && t in r.tables
        ensures w.db.rows[i].key != Some(Derived(r.key.value, t))
      {
        var k: nat :| k < |r.tables| && r.tables[k] == t;
        OperationKept(w, w', c, r, i, k);
      }
      forall k, l | 0 <= k < l < |r.tables|
        ensures r.tables[k] != r.tables[l]
      {
        assert OperationMade(w'.db, c, r, k) && OperationMade(w'.db, c, r, l);
      }
    }
  }

  // ---------------------------------------------------------------- a run that makes it

  /** The others that have flushed something, and may be in the way. */
  ghost function Busy(w: World, c: nat): set<nat> {
    set d | d in w.clients && d != c && w.clients[d].phase.Building?
  }

  lemma OneCrashes(w: World, c: nat, d: nat)
    requires Inv(false, w) && At(w, c) && d in Busy(w, c)
    ensures Enabled(false, w, Crash(d))
    ensures var w1 := Step(false, w, Crash(d));
      Inv(false, w1) && At(w1, c) && w1.db == w.db && w1.clients[c] == w.clients[c] && Busy(w1, c) == Busy(w, c) - {d}
  {
    StepOk(false, w, Crash(d));
  }

  /** They may all crash. */
  lemma {:induction false} OthersCrash(w: World, c: nat) returns (run: seq<Action>)
    requires Inv(false, w) && At(w, c)
    ensures Allowed(false, w, run)
    ensures var w' := Final(false, w, run);
      Inv(false, w') && w'.db == w.db && c in w'.clients && w'.clients[c] == w.clients[c] && Busy(w', c) == {}
    decreases Busy(w, c)
  {
    if Busy(w, c) == {} {
      run := [];
    } else {
      var d :| d in Busy(w, c);
      OneCrashes(w, c, d);
      var w1 := Step(false, w, Crash(d));
      var rest := OthersCrash(w1, c);
      OneMore(w, Crash(d), w1, rest, Final(false, w1, rest));
      run := [Crash(d)] + rest;
    }
  }

  lemma NobodyInTheWay(w: World, c: nat, row: Row)
    requires Busy(w, c) == {}
    ensures !Blocked(w, c, row)
  {
    forall d: nat | d != c
      ensures Flushed(w, d) == map[]
    {
      assert d !in Busy(w, c);
    }
  }

  /** A client at work on a request whose keys are free, with nobody in its way. */
  ghost predicate Ready(w: World, c: nat) {
    Inv(false, w) && At(w, c) && Busy(w, c) == {} && KeysFree(w.db.rows, w.clients[c].request)
  }

  /** What the client has flushed so far does not have the next key. */
  lemma NextKeyIsNew(c: nat, r: Request, own: Rows)
    requires BuildingOk(c, r, own) && r.kind.BulkOperations? && Written(own) < |r.tables|
    requires r.key.Some? ==> forall k, l :: 0 <= k < l < |r.tables| ==> r.tables[k] != r.tables[l]
    ensures !Taken(own.rows, Child(c, r, Written(own)))
  {
    var row := Child(c, r, Written(own));
    forall i | i in own.rows && SameRelation(own.rows[i], row) && own.rows[i].key.Some?
      ensures own.rows[i].key != row.key
    {
      assert i == Id(c, i.part);
      assert RowAsExpected(own, c, r, Written(own), i.part);
    }
  }

  lemma NextKeyIsFree(w: World, c: nat)
    requires Ready(w, c) && w.clients[c].phase.Building? && w.clients[c].request.kind.BulkOperations?
    requires Written(w.clients[c].phase.own) < Items(w.clients[c].request)
    ensures var r, own := w.clients[c].request, w.clients[c].phase.own;
      !FlushFails(false, w, own, Child(c, r, Written(own)))
  {
    var r, own := w.clients[c].request, w.clients[c].phase.own;
    assert ClientOk(w.db, c, w.clients[c]);
    NextKeyIsNew(c, r, own);
    assert r.tables[Written(own)] in r.tables;
  }

  /** The client has written one more item, and can go on. */
  ghost predicate OneItemMore(w: World, w': World, c: nat) {
    && Ready(w', c) && w'.clients[c].phase.Building?
    && c in w.clients && w.clients[c].phase.Building? && w'.clients[c].request == w.clients[c].request
    && Written(w'.clients[c].phase.own) == Written(w.clients[c].phase.own) + 1
  }

  lemma StillReady(w: World, c: nat, own: Rows)
    requires Ready(w, c) && Inv(false, Moved(w, c, Building(own)))
    ensures Ready(Moved(w, c, Building(own)), c)
  {
    assert Busy(Moved(w, c, Building(own)), c) == Busy(w, c);
  }

  lemma OperationItemAdded(w: World, c: nat)
    requires Ready(w, c) && w.clients[c].phase.Building? && w.clients[c].request.kind.BulkOperations?
    requires Written(w.clients[c].phase.own) < Items(w.clients[c].request)
    ensures Enabled(false, w, AddItem(c, true)) && OneItemMore(w, Step(false, w, AddItem(c, true)), c)
  {
    var r, own := w.clients[c].request, w.clients[c].phase.own;
    assert ClientOk(w.db, c, w.clients[c]);
    NobodyInTheWay(w, c, Child(c, r, Written(own)));
    NextKeyIsFree(w, c);
    OperationItemsHold(c, r, own);
    OperationAdded(false, w, c);
    StillReady(w, c, WithOperation(c, r, own));
  }

  lemma InspectionItemAdded(w: World, c: nat)
    requires Ready(w, c) && w.clients[c].phase.Building? && w.clients[c].request.kind.BulkInspection?
    requires Written(w.clients[c].phase.own) < Items(w.clients[c].request)
    ensures Enabled(false, w, AddItem(c, true)) && OneItemMore(w, Step(false, w, AddItem(c, true)), c)
  {
    var r, own := w.clients[c].request, w.clients[c].phase.own;
    assert ClientOk(w.db, c, w.clients[c]);
    assert (Id(c, 0), Written(own)) !in own.items;
    InspectionAdded(false, w, c);
    StillReady(w, c, WithItem(own, Id(c, 0), Written(own), Item(r.tables[Written(own)], None)));
  }

  /** One more item. */
  lemma ItemAdded(w: World, c: nat)
    requires Ready(w, c) && w.clients[c].phase.Building?
    requires Written(w.clients[c].phase.own) < Items(w.clients[c].request)
    ensures Enabled(false, w, AddItem(c, true)) && OneItemMore(w, Step(false, w, AddItem(c, true)), c)
  {
    if w.clients[c].request.kind.BulkOperations? {
      OperationItemAdded(w, c);
    } else {
      InspectionItemAdded(w, c);
    }
  }

  /** All items, and the commit. */
  lemma {:induction false} ItemsThenCommit(w: World, c: nat) returns (run: seq<Action>)
    requires Ready(w, c) && w.clients[c].phase.Building?
    ensures Allowed(false, w, run) && Created(Final(false, w, run), c)
    decreases Items(w.clients[c].request) - Written(w.clients[c].phase.own)
  {
    assert ClientOk(w.db, c, w.clients[c]);
    if Written(w.clients[c].phase.own) == Items(w.clients[c].request) {
      CommitSucceeds(w, c);
      var w' := Step(false, w, Commit(c));
      OneMore(w, Commit(c), w', [], w');
      run := [Commit(c)] + [];
    } else {
      ItemAdded(w, c);
      var w' := Step(false, w, AddItem(c, true));
      var rest := ItemsThenCommit(w', c);
      OneMore(w, AddItem(c, true), w', rest, Final(false, w', rest));
      run := [AddItem(c, true)] + rest;
    }
  }

  lemma Begun(w: World, c: nat)
    requires Ready(w, c) && w.clients[c].phase.Missed?
    ensures Enabled(false, w, Begin(c, true))
    ensures Ready(Step(false, w, Begin(c, true)), c) && Step(false, w, Begin(c, true)).clients[c].phase.Building?
  {
    NobodyInTheWay(w, c, Parent(w.clients[c].request));
    assert !FlushFails(false, w, EMPTY, Parent(w.clients[c].request));
    StepOk(false, w, Begin(c, true));
    assert Busy(Step(false, w, Begin(c, true)), c) == Busy(w, c);
  }

  lemma FreeKeysSuffice(w: World, c: nat) returns (run: seq<Action>)
    requires Inv(false, w) && At(w, c) && w.clients[c].phase.Missed? && KeysFree(w.db.rows, w.clients[c].request)
    ensures Allowed(false, w, run) && Created(Final(false, w, run), c)
  {
    var crashes := OthersCrash(w, c);
    var w1 := Final(false, w, crashes);
    Begun(w1, c);
    var w2 := Step(false, w1, Begin(c, true));
    var rest := ItemsThenCommit(w2, c);
    OneMore(w1, Begin(c, true), w2, rest, Final(false, w2, rest));
    RunJoined(w, crashes, [Begin(c, true)] + rest);
    run := crashes + ([Begin(c, true)] + rest);
  }

  lemma {:induction false} RunJoined(w: World, first: seq<Action>, second: seq<Action>)
    requires Allowed(false, w, first) && Allowed(false, Final(false, w, first), second)
    ensures Allowed(false, w, first + second)
    ensures Final(false, w, first + second) == Final(false, Final(false, w, first), second)
    decreases |first|
  {
    if first == [] {
      assert first + second == second;
    } else {
      var w1 := Step(false, w, first[0]);
      RunJoined(w1, first[1..], second);
      OneMore(w, first[0], w1, first[1..] + second, Final(false, w1, first[1..] + second));
      assert [first[0]] + (first[1..] + second) == first + second;
    }
  }

  /** A client whose lookup found nothing, of whatever kind its request and for any number of tables, can still be
      answered with a row of its own exactly if the keys it needs are free: its own, and for a bulk job of operations
      the one made of it for each table, of which none may be listed twice. Without a key it always can. */
  lemma CreatesExactly(w: World, c: nat)
    requires Reached(w) && At(w, c) && w.clients[c].phase.Missed?
    ensures CanCreate(w, c) <==> KeysFree(w.db.rows, w.clients[c].request)
  {
    ReachedOk(w);
    if KeysFree(w.db.rows, w.clients[c].request) {
      var run := FreeKeysSuffice(w, c);
    }
    if CanCreate(w, c) {
      var run :| Allowed(false, w, run) && Created(Final(false, w, run), c);
      CreationFulfilled(w, c, run);
    }
  }

  lemma CreationFulfilled(w: World, c: nat, run: seq<Action>)
    requires Reached(w) && At(w, c) && Allowed(false, w, run) && Created(Final(false, w, run), c)
    ensures KeysFree(w.db.rows, w.clients[c].request)
  {
    var before :| Allowed(false, START, before) && Final(false, START, before) == w;
    RunJoined(START, before, run);
    CreatedAsRequested(false, before + run, c);
    ReachedOk(w);
    EveryRunOk(false, w, run);
    assert RowsOk(w.db, c, Made(w, c));
    CreatedNeedsFreeKeys(w, Final(false, w, run), c, w.clients[c].request);
  }
}
