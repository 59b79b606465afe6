/**
 * The three endpoints that create something under an Idempotency-Key: one operation, a bulk job of
 * operations, a bulk job of inspections.  Any number of clients run them at the same time; each SELECT, each
 * flush and each COMMIT is one step, so that lookups, inserts and conflict lookups interleave in every way.
 * Rows that a transaction has flushed are private to it until it commits.
 *
 * `deferred` says when the database checks its unique constraints: at the flush (as backend/app/models.py
 * declares them) or only at the commit.  Safety holds either way; which losers are served does not.
 */
module Idempotency {
  import opened Common

  /** A bulk job gives each of its operations a key hashed out of its own key and the table. Two texts are one key
      exactly if they are equal here: a client that types the text of a derived key has sent that `Derived` key. */
  datatype Key = Given(text: string) | Derived(base: Key, table: nat)

  datatype Kind = OneOperation | BulkOperations | BulkInspection

  /** The payload itself is represented by its fingerprint. */
  datatype Request = Request(kind: Kind, key: Option<Key>, fingerprint: nat, tables: seq<nat>)

  /** The identifiers a client draws are its own: part 0 is the row it was asked for. */
  datatype Id = Id(client: nat, part: nat)

  datatype Row =
    | OperationRow(key: Option<Key>, fingerprint: nat, table: nat, job: Option<Id>)
    | JobRow(key: Option<Key>, fingerprint: nat, kind: Kind, total: nat)

  datatype Item = Item(table: nat, operation: Option<Id>)

  datatype Rows = Rows(rows: map<Id, Row>, items: map<(Id, nat), Item>, audits: multiset<Id>)

  datatype Outcome = Reply(id: Id) | Refused | Failed

  datatype Phase = Asking | Missed | Building(own: Rows) | Conflicted | Done(outcome: Outcome)

  datatype Client = Client(request: Request, phase: Phase)

  datatype World = World(db: Rows, clients: map<nat, Client>)

  datatype Action =
    | Arrive(client: nat, request: Request)
    | Lookup(client: nat, found: Option<Id>)
    | Begin(client: nat, executable: bool)
    | AddItem(client: nat, executable: bool)
    | Commit(client: nat)
    | ConflictLookup(client: nat, found: Option<Id>)
    | Crash(client: nat)

  const EMPTY: Rows := Rows(map[], map[], multiset{})

  // ---------------------------------------------------------------- rows

  /** The two tables with a unique key column. */
  predicate SameRelation(a: Row, b: Row) {
    a.OperationRow? == b.OperationRow?
  }

  ghost predicate Unique(m: map<Id, Row>) {
    forall i, j :: i in m && j in m && i != j && SameRelation(m[i], m[j]) && m[i].key.Some? ==> m[i].key != m[j].key
  }

  /** No row of one map has the key of a row of the other. */
  ghost predicate Apart(m: map<Id, Row>, n: map<Id, Row>) {
    forall i, j :: i in m && j in n && SameRelation(m[i], n[j]) && m[i].key.Some? ==> m[i].key != n[j].key
  }

  ghost predicate Taken(m: map<Id, Row>, row: Row) {
    exists i :: i in m && SameRelation(m[i], row) && m[i].key.Some? && m[i].key == row.key
  }

  /** What a SELECT by key answers. */
  ghost predicate Selects(m: map<Id, Row>, r: Request, found: Option<Id>) {
    match found
    case Some(i) => i in m && m[i].OperationRow? == r.kind.OneOperation? && r.key.Some? && m[i].key == r.key
    case None => r.key.Some? ==> forall i :: i in m && m[i].OperationRow? == r.kind.OneOperation? ==> m[i].key != r.key
  }

  function Parent(r: Request): Row {
    if r.kind.OneOperation? then OperationRow(r.key, r.fingerprint, if r.tables == [] then 0 else r.tables[0], None)
    else JobRow(r.key, r.fingerprint, r.kind, |r.tables|)
  }

  function ChildKey(key: Option<Key>, table: nat): Option<Key> {
    if key.Some? then Some(Derived(key.value, table)) else None
  }

  function Child(c: nat, r: Request, n: nat): Row
    requires n < |r.tables|
  {
    OperationRow(ChildKey(r.key, r.tables[n]), r.fingerprint, r.tables[n], Some(Id(c, 0)))
  }

  function WithRow(own: Rows, i: Id, row: Row): Rows {
    own.(rows := own.rows[i := row])
  }

  function WithItem(own: Rows, job: Id, ordinal: nat, item: Item): Rows {
    own.(items := own.items[(job, ordinal) := item])
  }

  function Audited(own: Rows, i: Id): Rows {
    own.(audits := own.audits + multiset{i})
  }

  function Merged(db: Rows, own: Rows): Rows {
    Rows(db.rows + own.rows, db.items + own.items, db.audits + own.audits)
  }

  // ---------------------------------------------------------------- steps

  predicate At(w: World, c: nat) {
    c in w.clients && !w.clients[c].phase.Done?
  }

  /** What a client has flushed and not committed. */
  function Flushed(w: World, c: nat): map<Id, Row> {
    if c in w.clients && w.clients[c].phase.Building? then w.clients[c].phase.own.rows else map[]
  }

  /** Under immediate checking an insert waits for a transaction that has flushed the same key. */
  ghost predicate Blocked(w: World, c: nat, row: Row) {
    exists d: nat :: d != c && Taken(Flushed(w, d), row)
  }

  /** How many items a building client has written: its next ordinal. */
  function Written(own: Rows): nat {
    |own.items|
  }

  /** The rows to be written after the parent. */
  function Items(r: Request): nat {
    if r.kind.OneOperation? then 0 else |r.tables|
  }

  /** An operation, its audit row and the item that names it. */
  function WithOperation(c: nat, r: Request, own: Rows): Rows
    requires Written(own) < |r.tables|
  {
    var n := Written(own);
    var inserted := Audited(WithRow(own, Id(c, n + 1), Child(c, r, n)), Id(c, n + 1));
    WithItem(inserted, Id(c, 0), n, Item(r.tables[n], Some(Id(c, n + 1))))
  }

  ghost predicate Enabled(deferred: bool, w: World, a: Action) {
    match a
    case Arrive(c, r) => c !in w.clients && (r.kind.OneOperation? ==> |r.tables| == 1)
    case Lookup(c, found) => At(w, c) && w.clients[c].phase.Asking? && Selects(w.db.rows, w.clients[c].request, found)
    case Begin(c, executable) =>
      At(w, c) && w.clients[c].phase.Missed? &&
      (executable && !deferred ==> !Blocked(w, c, Parent(w.clients[c].request)))
    case AddItem(c, executable) =>
      At(w, c) && w.clients[c].phase.Building? && Written(w.clients[c].phase.own) < Items(w.clients[c].request) &&
      (executable && !deferred && w.clients[c].request.kind.BulkOperations? ==>
        !Blocked(w, c, Child(c, w.clients[c].request, Written(w.clients[c].phase.own))))
    case Commit(c) => At(w, c) && w.clients[c].phase.Building? &&
      Written(w.clients[c].phase.own) == Items(w.clients[c].request)
    case ConflictLookup(c, found) =>
      At(w, c) && w.clients[c].phase.Conflicted? && Selects(w.db.rows, w.clients[c].request, found)
    case Crash(c) => At(w, c)
  }

  function Moved(w: World, c: nat, phase: Phase): World
    requires c in w.clients
  {
    w.(clients := w.clients[c := w.clients[c].(phase := phase)])
  }

  /** The row under the key is the answer if it was made by the same payload. */
  function Answer(w: World, r: Request, found: Id): Outcome
    requires found in w.db.rows
  {
    if w.db.rows[found].fingerprint == r.fingerprint then Reply(found) else Refused
  }

  /** Flushing a row: it fails at once if the key is there already and the check is immediate. */
  ghost predicate FlushFails(deferred: bool, w: World, own: Rows, row: Row) {
    !deferred && (Taken(w.db.rows, row) || Taken(own.rows, row))
  }

  ghost function Step(deferred: bool, w: World, a: Action): World
    requires Enabled(deferred, w, a)
  {
    match a
    case Arrive(c, r) => w.(clients := w.clients[c := Client(r, Asking)])
    case Lookup(c, found) =>
      Moved(w, c, if found.Some? then Done(Answer(w, w.clients[c].request, found.value)) else Missed)
    case Begin(c, executable) =>
      var r := w.clients[c].request;
      if !executable || FlushFails(deferred, w, EMPTY, Parent(r)) then Moved(w, c, Done(Failed))
      else
        var own := WithRow(EMPTY, Id(c, 0), Parent(r));
        Moved(w, c, Building(if r.kind.BulkOperations? then own else Audited(own, Id(c, 0))))
    case AddItem(c, executable) =>
      var r := w.clients[c].request;
      var own := w.clients[c].phase.own;
      var n := Written(own);
      if r.kind.BulkInspection? then
        Moved(w, c, Building(WithItem(own, Id(c, 0), n, Item(r.tables[n], None))))
      else if !executable || FlushFails(deferred, w, own, Child(c, r, n)) then Moved(w, c, Done(Failed))
      else
        Moved(w, c, Building(WithOperation(c, r, own)))
    case Commit(c) =>
      var all := Merged(w.db, w.clients[c].phase.own);
      if Unique(all.rows) then Moved(w.(db := all), c, Done(Reply(Id(c, 0))))
      else Moved(w, c, if w.clients[c].request.key.Some? then Conflicted else Done(Failed))
    case ConflictLookup(c, found) =>
      Moved(w, c, Done(if found.Some? then Answer(w, w.clients[c].request, found.value) else Refused))
    case Crash(c) => Moved(w, c, Done(Failed))
  }

  // ---------------------------------------------------------------- invariant

  /** The row a client has under an identifier once it has written n items. */
  function Expected(c: nat, r: Request, n: nat, part: nat): (row: Option<Row>) {
    if part == 0 then Some(Parent(r))
    else if r.kind.BulkOperations? && part <= n && part <= |r.tables| then Some(Child(c, r, part - 1))
    else None
  }

  predicate AuditExpected(r: Request, n: nat, part: nat) {
    if r.kind.BulkOperations? then 1 <= part <= n else part == 0
  }

  ghost predicate RowAsExpected(db: Rows, c: nat, r: Request, n: nat, p: nat) {
    (Id(c, p) in db.rows <==> Expected(c, r, n, p).Some?) &&
    (Id(c, p) in db.rows ==> db.rows[Id(c, p)] == Expected(c, r, n, p).value) &&
    db.audits[Id(c, p)] == if AuditExpected(r, n, p) then 1 else 0
  }

  ghost predicate ItemsAsExpected(db: Rows, c: nat, r: Request, n: nat)
    requires n <= |r.tables|
  {
    (forall p: nat, k: nat :: (Id(c, p), k) in db.items <==> p == 0 && k < n && !r.kind.OneOperation?) &&
    (forall k: nat :: (Id(c, 0), k) in db.items ==>
      db.items[(Id(c, 0), k)] == Item(r.tables[k], if r.kind.BulkOperations? then Some(Id(c, k + 1)) else None))
  }

  /** Of the rows of client c there are exactly those of the first n items. */
  ghost predicate Holds(db: Rows, c: nat, r: Request, n: nat)
    requires n <= |r.tables|
  {
    (forall p: nat :: RowAsExpected(db, c, r, n, p)) && ItemsAsExpected(db, c, r, n)
  }

  ghost predicate HoldsNothing(db: Rows, c: nat) {
    (forall p: nat :: Id(c, p) !in db.rows && db.audits[Id(c, p)] == 0) &&
    (forall p: nat, k: nat :: (Id(c, p), k) !in db.items)
  }

  ghost predicate OnlyOf(own: Rows, c: nat) {
    (forall i :: i in own.rows ==> i.client == c) && (forall i :: i in own.items ==> i.0.client == c) &&
    (forall i :: i in own.audits ==> i.client == c)
  }

  predicate Created(w: World, c: nat) {
    c in w.clients && w.clients[c].phase == Done(Reply(Id(c, 0)))
  }

  /** The request whose rows a client has committed. */
  function Made(w: World, c: nat): Option<Request> {
    if Created(w, c) then Some(w.clients[c].request) else None
  }

  ghost predicate RowsOk(db: Rows, c: nat, made: Option<Request>) {
    match made
    case Some(r) => Items(r) <= |r.tables| && Holds(db, c, r, Items(r))
    case None => HoldsNothing(db, c)
  }

  ghost predicate CommittedOk(w: World) {
    Unique(w.db.rows) && forall c: nat :: RowsOk(w.db, c, Made(w, c))
  }

  ghost predicate BuildingOk(c: nat, r: Request, own: Rows) {
    OnlyOf(own, c) && Written(own) <= Items(r) <= |r.tables| && Holds(own, c, r, Written(own))
  }

  ghost predicate ReplyOk(db: Rows, r: Request, id: Id) {
    id in db.rows && db.rows[id].OperationRow? == r.kind.OneOperation? && db.rows[id].key == r.key &&
      db.rows[id].fingerprint == r.fingerprint
  }

  ghost predicate ClientOk(db: Rows, c: nat, client: Client) {
    match client.phase
    case Building(own) => BuildingOk(c, client.request, own)
    case Conflicted => client.request.key.Some?
    case Done(Reply(id)) => ReplyOk(db, client.request, id) && (client.request.key.None? ==> id == Id(c, 0))
    case _ => true
  }

  ghost predicate ClientsOk(w: World) {
    forall c :: c in w.clients ==> ClientOk(w.db, c, w.clients[c])
  }

  /** Under immediate checking what is flushed never collides with anything, committed or not. */
  ghost predicate NoCollision(w: World) {
    (forall c :: c in w.clients ==> !w.clients[c].phase.Conflicted?) &&
    (forall c: nat :: Unique(Flushed(w, c)) && Apart(w.db.rows, Flushed(w, c))) &&
    (forall c: nat, d: nat :: c != d ==> Apart(Flushed(w, c), Flushed(w, d)))
  }

  ghost predicate Inv(deferred: bool, w: World) {
    CommittedOk(w) && ClientsOk(w) && (!deferred ==> NoCollision(w))
  }

  /** Committed rows stay as they are. */
  ghost predicate Kept(w: World, w': World) {
    (forall i :: i in w.db.rows ==> i in w'.db.rows && w'.db.rows[i] == w.db.rows[i]) &&
    (forall c :: c in w.clients ==> c in w'.clients && w'.clients[c].request == w.clients[c].request) &&
    (forall c :: c in w.clients && w.clients[c].phase.Done? ==> w'.clients[c] == w.clients[c])
  }
}
