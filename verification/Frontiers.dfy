/** Publishing and reading frontiers, and that every frontier row agrees with its retained fact. */
module Frontiers {
  import opened Wrappers
  import opened Utf8
  import opened Numbers
  import opened Canonical
  import opened CanonicalLaws
  import opened Trace
  import opened Digests
  import opened Tables
  import opened Append
  import opened Invariant
  import opened BatchLaws

  // ---- Publishing ----------------------------------------------------------

  function PublisherOf(spec: FrontierSpec): Bytes { if spec.publisher == "" then spec.target else spec.publisher }

  function IntentOf(spec: FrontierSpec): Bytes { if spec.intent == "" then "frontier:" + spec.frontierID else spec.intent }

  function FrontierPayload(spec: FrontierSpec, ordinal: nat): map<Bytes, Json> {
    map["frontier_id" := Str(spec.frontierID),
        "target_trace_owner_id" := Str(spec.target),
        "through_fact_id" := Str(spec.throughFact),
        "through_owner_ordinal" := Int(ordinal),
        "publisher_trace_owner_id" := Str(PublisherOf(spec))]
  }

  function FrontierBatch(op: OperationContext, spec: FrontierSpec, ordinal: nat): AppendBatch {
    var intent := IntentOf(spec);
    var ctx := RetainedContext("ctx:" + intent + ":frontier", [], op.authorityRefs, [op.schemaEnvironment], [],
                               LOCAL_SUBSTRATE, CONTAINED);
    var draft := RecordDraft(CAPTURE, FRONTIER_SCHEMA, Some(FrontierPayload(spec, ordinal)), "frontier_published", "",
                             [], []);
    AppendBatch(intent, [AppendGroup(PublisherOf(spec), Some(ctx), [spec.throughFact] + spec.causedBy, [draft])])
  }

  /** The frontiers table: unique creator and intent, foreign keys on both records */
  function InsertFrontier(db: DB, f: Frontier, intent: Bytes): Result<DB> {
    if (exists id :: id in db.frontiers &&
                       (db.frontiers[id].frontier.createdBy == f.createdBy || db.frontiers[id].intent == intent))
       || f.throughFact !in db.records || f.createdBy !in db.records || f.throughOrdinal < 0
    then Err(Constraint)
    else Ok(db.(frontiers := db.frontiers[f.frontierID := FrontierRow(f, intent)]))
  }

  predicate SameCutoff(f: Frontier, g: Frontier) {
    f.frontierID == g.frontierID && f.target == g.target && f.throughFact == g.throughFact
    && f.throughOrdinal == g.throughOrdinal
  }

  /** Reuses the row of an equal frontier, refuses one that names another cutoff, inserts otherwise. */
  function RecordFrontier(db: DB, f: Frontier, intent: Bytes): Result<(DB, Frontier)> {
    if f.frontierID in db.frontiers then
      var existing := db.frontiers[f.frontierID].frontier;
      if SameCutoff(existing, f) then Ok((db, existing)) else Err(StoreLaw)
    else
      var db1 :- InsertFrontier(db, f, intent);
      Ok((db1, f))
  }

  /** publishFrontierInTx. An empty receipt, possible only on a digest collision, indexes out of range. */
  function PublishTx(k: Kernel, db: DB, op: OperationContext, spec: FrontierSpec): Result<(DB, Frontier)> {
    if spec.frontierID == "" then Err(BadBatch) else
      var ordinal :- LatestOnPath(db, spec.throughFact, spec.target);
      var r :- AppendTx(k, db, op, FrontierBatch(op, spec, ordinal));
      if r.1.factIDs == [] then Err(Panic) else
        RecordFrontier(r.0, Frontier(spec.frontierID, spec.target, spec.throughFact, ordinal, PublisherOf(spec),
                                     r.1.factIDs[0]), IntentOf(spec))
  }

  /** PublishFrontier: a failed transaction leaves the tables as they were. */
  function PublishTo(k: Kernel, db: DB, op: OperationContext, spec: FrontierSpec): (DB, Result<Frontier>) {
    if !AppendAuthorized(op) then (db, Err(Unauthorized)) else
      match PublishTx(k, db, op, spec)
      case Ok((db1, f)) => (db1, Ok(f))
      case Err(e) => (db, Err(e))
  }

  // ---- Reading -------------------------------------------------------------

  function NonEmptyString(fields: map<Bytes, Json>, key: Bytes): Result<Bytes> {
    if key in fields && fields[key].Str? && fields[key].s != "" then Ok(fields[key].s) else Err(StoreLaw)
  }

  /** intFromPayload on a decoded body, whose numbers are all tokens */
  function IntFromPayload(fields: map<Bytes, Json>, key: Bytes): Result<int> {
    if key in fields && fields[key].Number? && Split(fields[key].token).Some? && IsIntegerToken(fields[key].token)
    then Ok(IntegerValue(Split(fields[key].token).value))
    else Err(StoreLaw)
  }

  /** frontierFromPayload */
  function FrontierFromPayload(body: Body, createdBy: Bytes): Result<Frontier> {
    var id :- NonEmptyString(Fields(body), "frontier_id");
    var target :- NonEmptyString(Fields(body), "target_trace_owner_id");
    var through :- NonEmptyString(Fields(body), "through_fact_id");
    var ordinal :- IntFromPayload(Fields(body), "through_owner_ordinal");
    var publisher := match NonEmptyString(Fields(body), "publisher_trace_owner_id") case Ok(p) => p case Err(_) => "";
    Ok(Frontier(id, target, through, ordinal, publisher, createdBy))
  }

  /** readOwnerCutoff: the row, checked against the retained frontier fact */
  function ReadOwnerCutoff(db: DB, id: Bytes): Result<Frontier> {
    if id !in db.frontiers then Err(UnknownFrontier) else
      var f := db.frontiers[id].frontier;
      var fact :- ReadFact(db, f.createdBy);
      var expected :- FrontierFromPayload(fact.row.body, f.createdBy);
      if SameCutoff(f, expected) then Ok(f) else Err(StoreLaw)
  }

  // ---- Agreement -----------------------------------------------------------

  /** The retained fact of a frontier says the same cutoff. */
  ghost predicate FactSays(body: Body, f: Frontier) {
    FrontierFromPayload(body, f.createdBy).Ok? && SameCutoff(FrontierFromPayload(body, f.createdBy).value, f)
  }

  /** A frontier row cuts at a retained entry, and its fact is retained and says the same. */
  ghost predicate FrontierAgrees(db: DB, id: Bytes, row: FrontierRow) {
    var f := row.frontier;
    && f.frontierID == id
    && f.throughOrdinal >= 0
    && (f.target, f.throughOrdinal) in db.paths
    && db.paths[(f.target, f.throughOrdinal)].recordID == f.throughFact
    && f.createdBy in db.records && FactSays(db.records[f.createdBy].body, f)
    && row.intent in db.intents
  }

  ghost predicate FrontiersAgree(db: DB) {
    forall id :: id in db.frontiers ==> FrontierAgrees(db, id, db.frontiers[id])
  }

  lemma FrontierAgreesLater(db: DB, db': DB, id: Bytes, row: FrontierRow)
    requires FrontierAgrees(db, id, row) && Grows(db, db')
    ensures FrontierAgrees(db', id, row)
  {
  }

  // ---- What the payload of a frontier fact says ----------------------------

  /** Only a string means a string. */
  lemma StringMeaning(e: Encoder, v: Json, s: Bytes)
    requires Meaning(e, v) == VStr(s)
    ensures v == Str(s) && Stored(v) == Str(s)
  {
  }

  /** Whatever means an integer is stored as an integer token of that value. */
  lemma IntegerMeaning(e: Encoder, v: Json, n: int)
    requires Meaning(e, v) == VInt(n)
    ensures Stored(v).Number? && Split(Stored(v).token).Some? && IsIntegerToken(Stored(v).token)
    ensures IntegerValue(Split(Stored(v).token).value) == n
  {
    if v.Int? { SplitOfDecimalInt(n); }
  }

  lemma StringField(e: Encoder, p: map<Bytes, Json>, q: map<Bytes, Json>, key: Bytes)
    requires Meaning(e, Obj(p)) == Meaning(e, Obj(q)) && key in q && q[key].Str? && q[key].s != ""
    ensures NonEmptyString(Fields(StoredBody(Some(p))), key) == Ok(q[key].s)
  {
    SameMember(e, Obj(q), Obj(p), key);
    StringMeaning(e, p[key], q[key].s);
  }

  /** A stored payload that means a frontier payload says that frontier. */
  lemma StoredPayloadSays(e: Encoder, p: map<Bytes, Json>, spec: FrontierSpec, ordinal: nat, createdBy: Bytes)
    requires Meaning(e, Obj(p)) == Meaning(e, Obj(FrontierPayload(spec, ordinal)))
    requires spec.frontierID != "" && spec.target != "" && spec.throughFact != ""
    ensures FactSays(StoredBody(Some(p)), Frontier(spec.frontierID, spec.target, spec.throughFact, ordinal,
                                                   PublisherOf(spec), createdBy))
  {
    var q := FrontierPayload(spec, ordinal);
    StringField(e, p, q, "frontier_id");
    StringField(e, p, q, "target_trace_owner_id");
    StringField(e, p, q, "through_fact_id");
    SameMember(e, Obj(q), Obj(p), "through_owner_ordinal");
    IntegerMeaning(e, p["through_owner_ordinal"], ordinal);
  }
}
