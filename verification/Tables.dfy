/**
  * The tables of the trace store as one value, and the row operations with the constraints of the schema on them:
  * primary keys, unique columns and foreign keys are error branches.
  */
module Tables {
  import opened Wrappers
  import opened Sorting
  import opened Utf8
  import opened CanonicalLaws
  import opened Trace

  datatype IntentRow = IntentRow(digest: Bytes, receipt: AppendReceipt)

  datatype RecordRow = RecordRow(
    schemaRef: Bytes,
    mode: Bytes,
    witnessRef: Bytes,
    causedBy: seq<Bytes>,
    body: Body,
    intent: Bytes)

  datatype PathRow = PathRow(recordID: Bytes, contextRef: Bytes, kindLabel: Bytes, intent: Bytes, receipt: Bytes)

  datatype FrontierRow = FrontierRow(frontier: Frontier, intent: Bytes)

  /** A position on an owner path */
  type Place = (Bytes, nat)

  datatype DB = DB(
    intents: map<Bytes, IntentRow>,
    contexts: map<Bytes, RetainedContext>,
    records: map<Bytes, RecordRow>,
    log: seq<Bytes>,                  // record ids in rowid order
    edges: map<(Bytes, nat), Bytes>,  // (child, position) to parent
    paths: map<Place, PathRow>,
    next: map<Bytes, nat>,            // owner_ordinals
    nextCommit: nat,
    frontiers: map<Bytes, FrontierRow>)

  const EMPTY: DB := DB(map[], map[], map[], [], map[], map[], map[], 0, map[])

  /** nextOwnerOrdinalTx */
  function Next(db: DB, owner: Bytes): nat { if owner in db.next then db.next[owner] else 0 }

  /** bodyFromJSON(bodyToJSON(body)) */
  function StoredBody(body: Body): Body {
    if body.Some? then Some(map k | k in body.value :: Stored(body.value[k])) else None
  }

  /** recordContentMatches compares everything but the intent. */
  predicate SameContent(a: RecordRow, b: RecordRow) { a.(intent := b.intent) == b }

  // ---- Inserting -----------------------------------------------------------

  function InsertContexts(db: DB, contexts: seq<RetainedContext>): Result<DB>
    decreases |contexts|
  {
    if contexts == [] then Ok(db)
    else if contexts[0].contextID in db.contexts then Err(Constraint)
    else InsertContexts(db.(contexts := db.contexts[contexts[0].contextID := contexts[0]]), contexts[1..])
  }

  /** record_edges rows for one new record: primary key (child, position), foreign key on the parent */
  function InsertEdges(db: DB, child: Bytes, parents: seq<Bytes>, position: nat): Result<DB>
    decreases |parents|
  {
    if parents == [] then Ok(db)
    else if (child, position) in db.edges || parents[0] !in db.records then Err(Constraint)
    else InsertEdges(db.(edges := db.edges[(child, position) := parents[0]]), child, parents[1..], position + 1)
  }

  /** insertRecordIfMissingTx */
  function InsertRecordIfMissing(db: DB, id: Bytes, row: RecordRow): Result<DB> {
    if id in db.records then
      if SameContent(db.records[id], row) then Ok(db) else Err(StoreLaw)
    else
      InsertEdges(db.(records := db.records[id := row], log := db.log + [id]), id, row.causedBy, 0)
  }

  predicate ReceiptUsed(db: DB, receipt: Bytes) {
    exists p :: p in db.paths && db.paths[p].receipt == receipt
  }

  /** path_entries: primary key (path, ordinal), unique receipt, foreign key on the record */
  function InsertPath(db: DB, place: Place, row: PathRow): Result<DB> {
    if place in db.paths || ReceiptUsed(db, row.receipt) || row.recordID !in db.records then Err(Constraint)
    else Ok(db.(paths := db.paths[place := row]))
  }

  /** insertFactRowTx */
  function InsertFactRow(db: DB, id: Bytes, record: RecordRow, place: Place, path: PathRow): Result<DB> {
    var db1 :- InsertRecordIfMissing(db, id, record);
    InsertPath(db1, place, path)
  }

  // ---- Selecting -----------------------------------------------------------

  /** ORDER BY path_ref ASC, path_ordinal ASC */
  predicate PlaceLess(a: Place, b: Place) { Less(a.0, b.0) || (a.0 == b.0 && a.1 < b.1) }

  lemma PlaceLessIsStrictTotal()
    ensures StrictTotal(PlaceLess)
  {
    LessIsStrictTotal();
    forall x, y, z | PlaceLess(x, y) && PlaceLess(y, z) ensures PlaceLess(x, z) {}
    forall x, y | x != y ensures PlaceLess(x, y) || PlaceLess(y, x) {
      assert x.0 != y.0 ==> Less(x.0, y.0) || Less(y.0, x.0);
    }
  }

  /** Where a record is retained */
  function PlacesOf(db: DB, id: Bytes): set<Place> {
    set p | p in db.paths && db.paths[p].recordID == id
  }

  datatype RecordView = RecordView(owner: Bytes, ordinal: int, contextRef: Bytes, kindLabel: Bytes)

  datatype Record = Record(id: Bytes, row: RecordRow, view: RecordView)

  function ViewAt(db: DB, p: Place): RecordView
    requires p in db.paths
  {
    RecordView(p.0, p.1, db.paths[p].contextRef, db.paths[p].kindLabel)
  }

  /** The first place of a record in path order */
  function FirstPlace(db: DB, id: Bytes): (p: Place)
    requires PlacesOf(db, id) != {}
    ensures p in PlacesOf(db, id) && forall q :: q in PlacesOf(db, id) && q != p ==> PlaceLess(p, q)
  {
    PlaceLessIsStrictTotal();
    Least(PlaceLess, PlacesOf(db, id))
  }

  /** readFact and readFactTx: the record joined with its first place */
  function ReadFact(db: DB, id: Bytes): Result<Record> {
    if id !in db.records || PlacesOf(db, id) == {} then Err(UnknownFact)
    else Ok(Record(id, db.records[id], ViewAt(db, FirstPlace(db, id))))
  }

  /** readFactAtPath */
  function ReadFactAtPath(db: DB, id: Bytes, owner: Bytes, ordinal: int): Result<Record> {
    if ordinal < 0 || (owner, ordinal) !in db.paths || db.paths[(owner, ordinal)].recordID != id
       || id !in db.records
    then Err(UnknownFact)
    else Ok(Record(id, db.records[id], ViewAt(db, (owner, ordinal))))
  }

  /** The ordinals at which a record occurs on one path */
  function OrdinalsOf(db: DB, id: Bytes, owner: Bytes): set<nat> {
    set p | p in db.paths && p.0 == owner && db.paths[p].recordID == id :: p.1
  }

  lemma GreaterIsStrictTotal()
    ensures StrictTotal((a: nat, b: nat) => a > b)
  {
  }

  function Greatest(s: set<nat>): (m: nat)
    requires s != {}
    ensures m in s && forall n :: n in s ==> n <= m
  {
    GreaterIsStrictTotal();
    Least((a: nat, b: nat) => a > b, s)
  }

  /** readLatestFactOnPathTx: the last ordinal of a record on a path */
  function LatestOnPath(db: DB, id: Bytes, owner: Bytes): Result<nat> {
    if id !in db.records || OrdinalsOf(db, id, owner) == {} then Err(UnknownFact)
    else Ok(Greatest(OrdinalsOf(db, id, owner)))
  }
}
