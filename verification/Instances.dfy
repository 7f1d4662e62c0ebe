/** Concrete runs from the empty store: a refused append, a moved anchor, a frontier of another execution. */
module Instances {
  import opened Wrappers
  import opened Utf8
  import opened Canonical
  import opened Trace
  import opened Digests
  import opened Tables
  import opened Append
  import opened Invariant
  import opened StagingLaws
  import opened Commits
  import opened BatchStaging
  import opened Addressing
  import opened Admission
  import opened OneFacts
  import opened Runs
  import Slices
  import Numbers
  import CausalGraph
  import Closure
  import Cuts
  import Frontiers
  import Executions

  const OPERATOR: OperationContext := OperationContext("operator", ["trusted:internal"], "env", "internal")

  /** A capture of one schema */
  function Note(schemaRef: Bytes, payload: Body): RecordDraft { RecordDraft(CAPTURE, schemaRef, payload, "", "", [], []) }

  function First(owner: Bytes, d: RecordDraft): AppendBatch { OneFact("first", owner, None, [], d) }

  lemma Names()
    ensures IsTextOperation(OPERATOR) && AppendAuthorized(OPERATOR) && AreTexts([])
    ensures ValidString("first") && ValidString("second") && ValidString("note.v1") && ValidString("owner")
    ensures ValidString("a") && ValidString("b") && ValidString(WITNESS_OWNER) && ValidString("")
  {
    hide ValidString;
    AsciiIsValid("operator");
    AsciiIsValid("env");
    AsciiIsValid("first");
    AsciiIsValid("second");
    AsciiIsValid("note.v1");
    AsciiIsValid("owner");
    AsciiIsValid("a");
    AsciiIsValid("b");
    AsciiIsValid(WITNESS_OWNER);
    AsciiIsValid("");
  }

  lemma NoteIsPlain(k: Kernel, schemaRef: Bytes, payload: Body)
    requires schemaRef != "" && schemaRef != ROOT_WITNESS_SCHEMA && ValidString(schemaRef)
    requires PayloadWrites(k, payload) && (payload.Some? ==> forall x :: x in payload.value ==> Marshals(payload.value[x]))
    ensures IsPlainDraft(k, Note(schemaRef, payload))
  {
    hide ValidString, PayloadWrites, Marshals;
    Names();
  }

  lemma FirstIntent(owner: Bytes, d: RecordDraft)
    ensures First(owner, d) == OneFact("first", owner, None, [], d) && First(owner, d).intent == "first"
    ensures "first" != "" && "first" !in EMPTY.intents
    ensures Distinct<Bytes>([]) && !BatchStaging.Reuses(None)
    ensures IsContainment(BatchStaging.DraftOf(None).containment) && BatchStaging.DraftOf(None).substrate != ""
  {
  }

  /** Everything a first append needs to be staged */
  lemma FirstStages(k: Kernel, owner: Bytes, d: RecordDraft) returns (c: RetainedContext, plan: WitnessPlan, id: Bytes)
    requires HexDigits(k) && IsPlainDraft(k, d) && ValidString(owner) && owner != ""
    ensures Resolves(k, EMPTY, OPERATOR, "first", None, c, plan) && IsFactID(k, plan, [], d, id)
    ensures ValidString(c.contextID) && c.contextID != "" && ValidString(id) && id != ""
    ensures ValidString(plan.recordID) && "sha256:" <= plan.recordID
    ensures FreshID(k, "first", None, OPERATOR) == Ok(c.contextID)
    ensures BatchShape(First(owner, d)) && BatchDigest(k, First(owner, d), OPERATOR).Ok?
    ensures Stage(k, EMPTY, OPERATOR, First(owner, d)) ==
            Ok(OneStaging(k, EMPTY, "first", OneGroup(owner, None, [], d), c, plan, d, id))
    ensures AllOwners(First(owner, d).groups) == [owner]
  {
    hide *;
    Names();
    FirstIntent(owner, d);
    EmptyHolds(owner);
    c, plan := FreshResolves(k, EMPTY, OPERATOR, "first", None);
    id := FactIDExists(k, plan, [], d);
    PlainSays(k, d);
    OneFactHasShape(k, "first", owner, None, [], d);
    OneFactHasDigest(k, OPERATOR, "first", owner, None, [], d);
    OneFactStages(k, EMPTY, OPERATOR, "first", owner, None, [], d, c, plan, id);
  }

  lemma RootIsNotRetained(k: Kernel)
    ensures RootWitnessID(k) !in EMPTY.records
  {
  }

  lemma EmptyIsReached(k: Kernel)
    ensures Run(k, EMPTY, []) == EMPTY && StoreInv(k, EMPTY) && AllAddressed(k, EMPTY.records)
  {
    hide StoreInv, Core, DensePaths;
    ReachableInv(k, []);
  }

  /** A first append to the witness path is staged and refused: the root witness takes the place it was staged for. */
  lemma WitnessPathRefused(k: Kernel)
    requires HexDigits(k)
    ensures var batch := First(WITNESS_OWNER, Note("note.v1", None));
            Stage(k, EMPTY, OPERATOR, batch).Ok? && AppendTx(k, EMPTY, OPERATOR, batch).Err?
  {
    hide *;
    var d, batch := Note("note.v1", None), First(WITNESS_OWNER, Note("note.v1", None));
    Names();
    AnchorNames();
    EmptyWrites(k);
    NoteIsPlain(k, "note.v1", None);
    var c, plan, id := FirstStages(k, WITNESS_OWNER, d);
    var st := OneStaging(k, EMPTY, "first", OneGroup(WITNESS_OWNER, None, [], d), c, plan, d, id);
    FirstIntent(WITNESS_OWNER, d);
    EmptyIsReached(k);
    OneStagingSays(k, EMPTY, "first", OneGroup(WITNESS_OWNER, None, [], d), c, plan, d, id);
    RootIsNotRetained(k);
    WitnessPathIsReserved(k, EMPTY, OPERATOR, batch, st);
  }

  // ---- First appends that commit -------------------------------------------

  /** A first append off the witness path commits, and what it leaves is a reachable state. */
  lemma FirstCommits(k: Kernel, owner: Bytes, d: RecordDraft)
      returns (c: RetainedContext, plan: WitnessPlan, id: Bytes, db: DB, receipt: AppendReceipt)
    requires CollisionFree(k) && HexDigits(k) && IsPlainDraft(k, d)
    requires ValidString(owner) && owner != "" && owner != WITNESS_OWNER
    ensures AppendTx(k, EMPTY, OPERATOR, First(owner, d)) == Ok((db, receipt, true)) && receipt.factIDs == [id]
    ensures db == Run(k, EMPTY, [AppendOp(OPERATOR, First(owner, d))])
    ensures Resolves(k, EMPTY, OPERATOR, "first", None, c, plan) && IsFactID(k, plan, [], d, id)
    ensures ValidString(c.contextID) && c.contextID != "" && ValidString(id) && id != ""
    ensures ValidString(plan.recordID) && "sha256:" <= plan.recordID
    ensures FreshID(k, "first", None, OPERATOR) == Ok(c.contextID)
    ensures StoreInv(k, db) && AllAddressed(k, db.records)
    ensures (owner, 0) in db.paths && db.paths[(owner, 0)].recordID == id
    ensures id in db.records && db.records[id].body == StoredBody(d.payload) && db.records[id].schemaRef == d.schemaRef
    ensures db.intents.Keys == {"first"} && db.frontiers == map[] && db.contexts == map[c.contextID := c]
    ensures forall o :: o != owner && o != WITNESS_OWNER ==> Next(db, o) == 0
    ensures forall x :: x in db.records ==> db.records[x].causedBy == []
  {
    hide *;
    c, plan, id := FirstStages(k, owner, d);
    FirstIntent(owner, d);
    Names();
    EmptyIsReached(k);
    EmptyHolds(owner);
    OneFactCommits(k, EMPTY, OPERATOR, "first", owner, None, [], d, c, plan, id);
    var r := AppendTx(k, EMPTY, OPERATOR, First(owner, d)).value;
    db, receipt := r.0, r.1;
    NewIntent(k, First(owner, d), r.0, r.1, r.2);
    OneFactLeaves(k, EMPTY, OPERATOR, "first", owner, None, [], d, c, plan, id, db, receipt);
    OneFactLeavesRest(k, EMPTY, OPERATOR, "first", owner, None, [], d, c, plan, id, db, receipt);
    OneStep(k, First(owner, d), db, receipt, true);
  }

  lemma EmptyHolds(owner: Bytes)
    ensures EMPTY.records == map[] && EMPTY.contexts == map[] && EMPTY.frontiers == map[] && EMPTY.intents == map[]
    ensures forall o :: Next(EMPTY, o) == 0
  {
  }

  lemma NewIntent(k: Kernel, batch: AppendBatch, db: DB, receipt: AppendReceipt, isNew: bool)
    requires AppendTx(k, EMPTY, OPERATOR, batch) == Ok((db, receipt, isNew))
    ensures isNew
  {
    hide BatchShape, BatchDigest, Stage, Commit;
  }

  lemma OneStep(k: Kernel, batch: AppendBatch, db: DB, receipt: AppendReceipt, isNew: bool)
    requires AppendTx(k, EMPTY, OPERATOR, batch) == Ok((db, receipt, isNew)) && AppendAuthorized(OPERATOR)
    ensures Run(k, EMPTY, [AppendOp(OPERATOR, batch)]) == db
  {
    hide AppendTx, AppendAuthorized;
    var ops := [AppendOp(OPERATOR, batch)];
    assert ops[1..] == [];
    assert Step(k, EMPTY, ops[0]) == db;
    assert Run(k, db, []) == db;
  }

  // ---- A second append -----------------------------------------------------

  /** The same owner path or another, in the context of the first append */
  function Second(owner: Bytes, c: RetainedContext, d: RecordDraft): AppendBatch {
    OneFact("second", owner, Some(ReuseOf(c)), [], d)
  }

  lemma SecondIntent(owner: Bytes, c: RetainedContext, d: RecordDraft)
    ensures Second(owner, c, d) == OneFact("second", owner, Some(ReuseOf(c)), [], d)
    ensures "second" != "" && Distinct<Bytes>([])
  {
  }

  lemma SecondIsNew(db: DB)
    requires db.intents.Keys == {"first"}
    ensures "second" !in db.intents
  {
    assert |"second"| != |"first"|;
  }

  /** A second append of a fact whose id is retained commits exactly when its stored body is the retained one. */
  lemma SecondCommits(k: Kernel, db: DB, owner: Bytes, d: RecordDraft, c: RetainedContext, plan: WitnessPlan, id: Bytes)
    requires CollisionFree(k) && HexDigits(k) && IsPlainDraft(k, d)
    requires ValidString(owner) && owner != "" && owner != WITNESS_OWNER
    requires StoreInv(k, db) && AllAddressed(k, db.records) && db.intents.Keys == {"first"}
    requires db.contexts == map[c.contextID := c] && ValidString(c.contextID) && c.contextID != ""
    requires Resolves(k, EMPTY, OPERATOR, "first", None, c, plan) && IsFactID(k, plan, [], d, id) && id in db.records
    ensures Resolves(k, db, OPERATOR, "second", Some(ReuseOf(c)), c, plan)
    ensures AppendTx(k, db, OPERATOR, Second(owner, c, d)).Ok? <==> db.records[id].body == StoredBody(d.payload)
    ensures Stage(k, db, OPERATOR, Second(owner, c, d)) ==
            Ok(OneStaging(k, db, "second", OneGroup(owner, Some(ReuseOf(c)), [], d), c, plan, d, id))
  {
    hide *;
    Names();
    SecondIntent(owner, c, d);
    SecondIsNew(db);
    ReuseResolves(k, EMPTY, db, OPERATOR, "first", "second", None, c, plan);
    PlainSays(k, d);
    OneFactHasDigest(k, OPERATOR, "second", owner, Some(ReuseOf(c)), [], d);
    OneFactStages(k, db, OPERATOR, "second", owner, Some(ReuseOf(c)), [], d, c, plan, id);
    OneFactCommits(k, db, OPERATOR, "second", owner, Some(ReuseOf(c)), [], d, c, plan, id);
  }

  lemma SpelledNotes(k: Kernel)
    requires k.parse("1.0") == Some(ONE)
    ensures IsPlainDraft(k, Note("note.v1", NATIVE)) && IsPlainDraft(k, Note("note.v1", SPELLED))
  {
    hide ValidString, PayloadWrites;
    Names();
    SpelledBodies(k);
    SpelledMarshals();
    assert |"note.v1"| != |ROOT_WITNESS_SCHEMA|;
    NoteIsPlain(k, "note.v1", NATIVE);
    NoteIsPlain(k, "note.v1", SPELLED);
  }

  lemma SpelledMarshals()
    ensures forall x :: x in NATIVE.value ==> Marshals(NATIVE.value[x])
    ensures forall x :: x in SPELLED.value ==> Marshals(SPELLED.value[x])
  {
    SpelledToken();
    Numbers.SplitOf(Numbers.Token(false, "1", Some("0"), None));
  }

  lemma NoteDigests(k: Kernel, plan: WitnessPlan, id: Bytes, row: RecordRow)
    requires k.parse("1.0") == Some(ONE) && "sha256:" <= plan.recordID
    requires IsFactID(k, plan, [], Note("note.v1", NATIVE), id)
    ensures IsFactID(k, plan, [], Note("note.v1", SPELLED), id)
  {
    hide RecordDigest, RecordInput, Write, Meaning, StoredBody, PayloadWrites;
    SpelledDigests(k, "note.v1", CAPTURE, [], plan.recordID, id);
  }

  /**
    * A note with the native float 1.0 is appended; the same note with the token 1.0 gets the same id and is staged,
    * but the second append is refused, because the two are stored with different texts.
    */
  lemma SpellingRefused(k: Kernel) returns (db: DB, c: RetainedContext, id: Bytes)
    requires CollisionFree(k) && HexDigits(k) && k.parse("1.0") == Some(ONE)
    ensures db == Run(k, EMPTY, [AppendOp(OPERATOR, First("owner", Note("note.v1", NATIVE)))]) && id in db.records
    ensures var again := Second("owner", c, Note("note.v1", SPELLED));
            && Stage(k, db, OPERATOR, again).Ok? && StagedIDs(Stage(k, db, OPERATOR, again).value.facts) == [id]
            && AppendTx(k, db, OPERATOR, again).Err?
  {
    hide *;
    Names();
    OwnerName();
    SpelledNotes(k);
    SpelledDiffer();
    var plan, receipt;
    c, plan, id, db, receipt := FirstCommits(k, "owner", Note("note.v1", NATIVE));
    NotePayloads();
    NoteDigests(k, plan, id, db.records[id]);
    SecondCommits(k, db, "owner", Note("note.v1", SPELLED), c, plan, id);
    StagedOne(k, db, "second", OneGroup("owner", Some(ReuseOf(c)), [], Note("note.v1", SPELLED)), c, plan,
              Note("note.v1", SPELLED), id);
  }

  lemma OwnerName()
    ensures "owner" != WITNESS_OWNER && "owner" != ""
  {
    assert |"owner"| != |WITNESS_OWNER|;
  }

  lemma NotePayloads()
    ensures Note("note.v1", NATIVE).payload == NATIVE && Note("note.v1", SPELLED).payload == SPELLED
  {
  }

  lemma StagedOne(k: Kernel, db: DB, intent: Bytes, g: AppendGroup, c: RetainedContext, plan: WitnessPlan, d: RecordDraft,
                  id: Bytes)
    ensures StagedIDs(OneStaging(k, db, intent, g, c, plan, d, id).facts) == [id]
  {
    hide StoredBody, AddPlan;
    OneStagingIs(k, db, intent, g, c, plan, d, id);
  }

  // ---- An anchor that moves ------------------------------------------------

  lemma FirstPlaceIsLater(db: DB, id: Bytes)
    requires DensePaths(db) && ("b", 0) in db.paths && db.paths[("b", 0)].recordID == id
    requires forall o :: o != "b" && o != WITNESS_OWNER ==> Next(db, o) == 0
    ensures PlacesOf(db, id) != {} && PlaceLess(("a", 0), FirstPlace(db, id))
  {
    assert ("b", 0) in PlacesOf(db, id);
    var p := FirstPlace(db, id);
    assert p in db.paths && p.1 < Next(db, p.0);
    assert Less("a", "b") && Less("a", WITNESS_OWNER);
  }

  /**
    * A fact appended to path b and later to path a is anchored at b first and at a afterwards: the shape of an
    * external anchor can change, though its reference cannot.
    */
  lemma AnchorMoves(k: Kernel) returns (db: DB, db': DB, c: RetainedContext, id: Bytes)
    requires CollisionFree(k) && HexDigits(k)
    ensures db == Run(k, EMPTY, [AppendOp(OPERATOR, First("b", Note("note.v1", None)))])
    ensures db' == AppendTo(k, db, OPERATOR, Second("a", c, Note("note.v1", None))).0
    ensures id in db.records && Slices.AnchorFor(db', id) != Slices.AnchorFor(db, id)
  {
    hide *;
    Names();
    EmptyWrites(k);
    AnchorNames();
    var d := Note("note.v1", None);
    NoteIsPlain(k, "note.v1", None);
    var plan, receipt;
    c, plan, id, db, receipt := FirstCommits(k, "b", d);
    db' := SecondLeaves(k, db, d, c, plan, id);
    AnchorDiffers(k, db, db', id);
  }

  lemma AnchorNames()
    ensures "note.v1" != "" && "note.v1" != ROOT_WITNESS_SCHEMA
    ensures "a" != WITNESS_OWNER && "b" != WITNESS_OWNER && "a" != "" && "b" != "" && "a" != "b" && WITNESS_OWNER != ""
    ensures Note("note.v1", None).payload == None
  {
    assert |"note.v1"| != |ROOT_WITNESS_SCHEMA| && |"a"| != |WITNESS_OWNER| && |"b"| != |WITNESS_OWNER|;
  }

  /** Appending the retained fact to path a succeeds and gives it the first place there. */
  lemma SecondLeaves(k: Kernel, db: DB, d: RecordDraft, c: RetainedContext, plan: WitnessPlan, id: Bytes)
      returns (db': DB)
    requires CollisionFree(k) && HexDigits(k) && IsPlainDraft(k, d)
    requires StoreInv(k, db) && AllAddressed(k, db.records) && db.intents.Keys == {"first"}
    requires db.contexts == map[c.contextID := c] && ValidString(c.contextID) && c.contextID != ""
    requires Resolves(k, EMPTY, OPERATOR, "first", None, c, plan) && IsFactID(k, plan, [], d, id)
    requires id in db.records && db.records[id].body == StoredBody(d.payload)
    ensures db' == AppendTo(k, db, OPERATOR, Second("a", c, d)).0 && Grows(db, db')
    ensures ("a", Next(db, "a")) in db'.paths && db'.paths[("a", Next(db, "a"))].recordID == id
  {
    hide *;
    Names();
    AnchorNames();
    SecondIntent("a", c, d);
    SecondIsNew(db);
    PlainSays(k, d);
    SecondCommits(k, db, "a", d, c, plan, id);
    var r := AppendTx(k, db, OPERATOR, Second("a", c, d)).value;
    db' := r.0;
    SecondIs(k, db, "a", c, d, r.0, r.1, r.2);
    OneFactLeaves(k, db, OPERATOR, "second", "a", Some(ReuseOf(c)), [], d, c, plan, id, r.0, r.1);
  }

  lemma SecondIs(k: Kernel, db: DB, owner: Bytes, c: RetainedContext, d: RecordDraft, db': DB, receipt: AppendReceipt,
                 isNew: bool)
    requires AppendTx(k, db, OPERATOR, Second(owner, c, d)) == Ok((db', receipt, isNew)) && "second" !in db.intents
    requires AppendAuthorized(OPERATOR)
    ensures isNew
    ensures db' == AppendTo(k, db, OPERATOR, Second(owner, c, d)).0
  {
    hide BatchShape, BatchDigest, Stage, Commit, AppendAuthorized;
  }

  lemma AnchorDiffers(k: Kernel, db: DB, db': DB, id: Bytes)
    requires StoreInv(k, db) && Grows(db, db') && id in db.records
    requires ("b", 0) in db.paths && db.paths[("b", 0)].recordID == id
    requires forall o :: o != "b" && o != WITNESS_OWNER ==> Next(db, o) == 0
    requires ("a", Next(db, "a")) in db'.paths && db'.paths[("a", Next(db, "a"))].recordID == id
    requires "a" != "b" && "a" != WITNESS_OWNER
    ensures Slices.AnchorFor(db', id) != Slices.AnchorFor(db, id)
  {
    assert Next(db, "a") == 0;
    hide StoreInv, Grows, Core, PlaceLess, Next, Slices.AnchorFor, ReadFact;
    CausalGraph.InvariantLog(k, db);
    InvariantParts(k, db);
    RetainedReads(db, id);
    FirstPlaceIsLater(db, id);
    assert ("a", 0) in PlacesOf(db', id);
    Cuts.AnchorShapeLater(db, db', id);
  }

  // ---- A terminal frontier of another execution ----------------------------

  /** A completed fact that names the execution other */
  const DONE: Body := Some(map["execution_id" := Str("other")])

  function CutSpec(id: Bytes): FrontierSpec { FrontierSpec("cut", "mine", id, "", "", []) }

  const CUT_INTENT: Bytes := "frontier:cut"

  /** The context the publication asks for */
  const CUT_CONTEXT: RetainedContext :=
    RetainedContext("ctx:" + CUT_INTENT + ":frontier", [], OPERATOR.authorityRefs, [OPERATOR.schemaEnvironment], [],
                    LOCAL_SUBSTRATE, CONTAINED)

  function CutDraft(id: Bytes, ordinal: nat): RecordDraft {
    RecordDraft(CAPTURE, FRONTIER_SCHEMA, Some(Frontiers.FrontierPayload(CutSpec(id), ordinal)), "frontier_published",
                "", [], [])
  }

  lemma CutBatch(id: Bytes, ordinal: nat)
    ensures Frontiers.FrontierBatch(OPERATOR, CutSpec(id), ordinal) ==
            OneFact(CUT_INTENT, "mine", Some(CUT_CONTEXT), [id], CutDraft(id, ordinal))
    ensures CutSpec(id).throughFact == id && CutSpec(id).target == "mine" && CutSpec(id).frontierID != ""
    ensures Distinct([id]) && CUT_INTENT != "" && CUT_INTENT !in {"first"}
  {
    assert "frontier:" + "cut" == CUT_INTENT;
    assert [id] + [] == [id];
    assert |CUT_INTENT| != |"first"|;
  }

  lemma CutNames()
    ensures ValidString("cut") && ValidString("mine") && ValidString("other") && ValidString("frontier_published")
    ensures ValidString(FRONTIER_SCHEMA) && ValidString(CUT_INTENT) && ValidString("trusted:internal")
    ensures ValidString(Executions.COMPLETED) && ValidString("env") && ValidString("execution_id")
  {
    hide ValidString;
    AsciiIsValid("cut");
    AsciiIsValid("mine");
    AsciiIsValid("other");
    AsciiIsValid("frontier_published");
    AsciiIsValid(FRONTIER_SCHEMA);
    AsciiIsValid(CUT_INTENT);
    AsciiIsValid("trusted:internal");
    AsciiIsValid(Executions.COMPLETED);
    AsciiIsValid("env");
    AsciiIsValid("execution_id");
  }

  lemma CutFieldNames()
    ensures ValidString("frontier_id") && ValidString("target_trace_owner_id") && ValidString("through_fact_id")
    ensures ValidString("through_owner_ordinal") && ValidString("publisher_trace_owner_id")
  {
    hide ValidString;
    AsciiIsValid("frontier_id");
    AsciiIsValid("target_trace_owner_id");
    AsciiIsValid("through_fact_id");
    AsciiIsValid("through_owner_ordinal");
    AsciiIsValid("publisher_trace_owner_id");
  }

  lemma CutFields(id: Bytes, ordinal: nat)
    ensures var p := Frontiers.FrontierPayload(CutSpec(id), ordinal);
            && p.Keys == {"frontier_id", "target_trace_owner_id", "through_fact_id", "through_owner_ordinal",
                          "publisher_trace_owner_id"}
            && p["frontier_id"] == Str("cut") && p["target_trace_owner_id"] == Str("mine")
            && p["through_fact_id"] == Str(id) && p["through_owner_ordinal"] == Int(ordinal)
            && p["publisher_trace_owner_id"] == Str("mine")
  {
  }

  lemma IntWrites(e: Encoder, n: int)
    ensures Write(e, Int(n)).Ok?
  {
  }

  lemma SomePayload(k: Kernel, p: map<Bytes, Json>)
    requires Write(Utf8Encoder(k), Obj(p)).Ok?
    ensures PayloadWrites(k, Some(p))
  {
    hide Write;
  }

  lemma CutPayloadWrites(k: Kernel, id: Bytes, ordinal: nat)
    requires ValidString(id)
    ensures PayloadWrites(k, Some(Frontiers.FrontierPayload(CutSpec(id), ordinal)))
  {
    hide *;
    var e, v := Utf8Encoder(k), Obj(Frontiers.FrontierPayload(CutSpec(id), ordinal));
    CutFields(id, ordinal);
    CutNames();
    CutFieldNames();
    IntWrites(e, ordinal);
    TextWrites(e, "cut");
    TextWrites(e, "mine");
    TextWrites(e, id);
    MembersWritable(e, v);
    SomePayload(k, v.fields);
  }

  lemma CutMarshals(id: Bytes, ordinal: nat)
    ensures var p := Frontiers.FrontierPayload(CutSpec(id), ordinal); forall x :: x in p ==> Marshals(p[x])
  {
  }

  lemma PlainFrom(k: Kernel, d: RecordDraft, payload: map<Bytes, Json>)
    requires d == RecordDraft(CAPTURE, d.schemaRef, Some(payload), d.kindLabel, "", [], [])
    requires d.schemaRef != "" && d.schemaRef != ROOT_WITNESS_SCHEMA
    requires ValidString(d.schemaRef) && ValidString(d.kindLabel) && PayloadWrites(k, Some(payload))
    requires forall x :: x in payload ==> Marshals(payload[x])
    ensures IsPlainDraft(k, d)
  {
    hide ValidString, PayloadWrites, Marshals;
  }

  lemma CutDraftIs(id: Bytes, ordinal: nat)
    ensures var d := CutDraft(id, ordinal);
            && d == RecordDraft(CAPTURE, d.schemaRef, Some(Frontiers.FrontierPayload(CutSpec(id), ordinal)), d.kindLabel, "",
                                [], [])
            && d.schemaRef == FRONTIER_SCHEMA && d.schemaRef != "" && d.kindLabel == "frontier_published"
    ensures FRONTIER_SCHEMA != ROOT_WITNESS_SCHEMA
  {
    hide Frontiers.FrontierPayload;
    assert |FRONTIER_SCHEMA| != |ROOT_WITNESS_SCHEMA|;
  }

  lemma CutDraftIsPlain(k: Kernel, id: Bytes, ordinal: nat)
    requires ValidString(id)
    ensures IsPlainDraft(k, CutDraft(id, ordinal))
  {
    hide *;
    CutDraftIs(id, ordinal);
    CutPayloadWrites(k, id, ordinal);
    CutNames();
    CutMarshals(id, ordinal);
    PlainFrom(k, CutDraft(id, ordinal), Frontiers.FrontierPayload(CutSpec(id), ordinal));
  }

  lemma CutContextIsText()
    ensures IsTextContext(CUT_CONTEXT) && !BatchStaging.Reuses(Some(CUT_CONTEXT))
    ensures BatchStaging.DraftOf(Some(CUT_CONTEXT)) == CUT_CONTEXT
    ensures IsContainment(CUT_CONTEXT.containment) && CUT_CONTEXT.substrate != ""
    ensures ValidString(CUT_CONTEXT.contextID)
  {
    hide ValidString;
    CutNames();
    KernelNames();
    AsciiIsValid(CUT_CONTEXT.contextID);
  }

  lemma DoneSays()
    ensures DONE.Some? && DONE.value == map["execution_id" := Str("other")]
    ensures forall x :: x in DONE.value ==> Marshals(DONE.value[x])
    ensures var d := Note(Executions.COMPLETED, DONE);
            && d == RecordDraft(CAPTURE, d.schemaRef, Some(DONE.value), d.kindLabel, "", [], [])
            && d.schemaRef == Executions.COMPLETED && d.schemaRef != "" && d.kindLabel == "" && d.payload == DONE
    ensures Executions.COMPLETED != ROOT_WITNESS_SCHEMA
  {
    assert |Executions.COMPLETED| != |ROOT_WITNESS_SCHEMA|;
  }

  lemma DoneIsPlain(k: Kernel)
    ensures IsPlainDraft(k, Note(Executions.COMPLETED, DONE))
    ensures Note(Executions.COMPLETED, DONE).payload == DONE
    ensures Note(Executions.COMPLETED, DONE).schemaRef == Executions.COMPLETED
  {
    hide *;
    var e := Utf8Encoder(k);
    DoneSays();
    Names();
    CutNames();
    TextWrites(e, "other");
    MembersWritable(e, Obj(DONE.value));
    SomePayload(k, DONE.value);
    PlainFrom(k, Note(Executions.COMPLETED, DONE), DONE.value);
  }

  /** A fact that cites something is not among facts that cite nothing. */
  lemma CitingIsNew(k: Kernel, records: map<Bytes, RecordRow>, plan: WitnessPlan, parent: Bytes, d: RecordDraft, id: Bytes)
    requires CollisionFree(k) && AllAddressed(k, records) && IsFactID(k, plan, [parent], d, id)
    requires forall x :: x in records ==> records[x].causedBy == []
    ensures id !in records
  {
    hide CollisionFree, RecordDigest, StoredBody;
    if id in records {
      var body := RetainedDigest(k, records, id);
      var row := RecordRow(d.schemaRef, d.mode, plan.recordID, [parent], StoredBody(d.payload), "");
      assert IsDigestOf(k, id, row, d.payload) && |row.causedBy| == 1;
      SameIdSameRecord(k, id, records[id], body, row, d.payload);
    }
  }

  lemma CutPublishes(k: Kernel, db: DB, spec: FrontierSpec, ordinal: nat, db1: DB, receipt: AppendReceipt, isNew: bool,
                     id: Bytes) returns (db2: DB, f: Frontier)
    requires spec.frontierID != "" && LatestOnPath(db, spec.throughFact, spec.target) == Ok(ordinal)
    requires AppendTx(k, db, OPERATOR, Frontiers.FrontierBatch(OPERATOR, spec, ordinal)) == Ok((db1, receipt, isNew))
    requires receipt.factIDs == [id] && db1.frontiers == map[]
    requires spec.throughFact in db1.records && id in db1.records && AppendAuthorized(OPERATOR)
    requires ReadFact(db, spec.throughFact).Ok?
             && Executions.IsTerminalSchema(ReadFact(db, spec.throughFact).value.row.schemaRef)
    ensures Executions.PublishExecution(k, db, OPERATOR, spec) == (db2, Ok(f))
  {
    f := Frontier(spec.frontierID, spec.target, spec.throughFact, ordinal, Frontiers.PublisherOf(spec), id);
    db2 := db1.(frontiers := db1.frontiers[f.frontierID := FrontierRow(f, Frontiers.IntentOf(spec))]);
    hide AppendTx, Frontiers.FrontierBatch, LatestOnPath, ReadFact, AppendAuthorized, Executions.IsTerminalSchema;
    assert Frontiers.RecordFrontier(db1, f, Frontiers.IntentOf(spec)) == Ok((db2, f));
    assert Frontiers.PublishTx(k, db, OPERATOR, spec) == Ok((db2, f));
  }

  lemma LatestExists(db: DB, id: Bytes, owner: Bytes)
    requires (owner, 0) in db.paths && db.paths[(owner, 0)].recordID == id && id in db.records
    ensures LatestOnPath(db, id, owner).Ok?
  {
    assert 0 in OrdinalsOf(db, id, owner);
  }

  lemma OtherIsNotConcerned()
    ensures !Executions.Concerns(StoredBody(DONE), "mine")
  {
    assert Fields(StoredBody(DONE))["execution_id"] == Str("other");
    assert |"other"| != |"mine"|;
  }

  lemma CompletedIsTerminal()
    ensures Executions.IsTerminalSchema(Executions.COMPLETED) && "mine" != "" && "mine" != WITNESS_OWNER
  {
    assert |"mine"| != |WITNESS_OWNER|;
  }

  /** The publication of a cut at the completed fact commits, unless the digest confuses the two context texts. */
  lemma CutCommits(k: Kernel, db: DB, c: RetainedContext, id: Bytes, ordinal: nat) returns (r: (DB, AppendReceipt, bool), fid: Bytes)
    requires CollisionFree(k) && HexDigits(k) && ValidString(id)
    requires StoreInv(k, db) && AllAddressed(k, db.records) && id in db.records
    requires db.intents.Keys == {"first"} && db.contexts == map[c.contextID := c] && db.frontiers == map[]
    requires forall x :: x in db.records ==> db.records[x].causedBy == []
    requires FreshID(k, CUT_INTENT, Some(CUT_CONTEXT), OPERATOR) != Ok(c.contextID)
    ensures AppendTx(k, db, OPERATOR, Frontiers.FrontierBatch(OPERATOR, CutSpec(id), ordinal)) == Ok(r)
    ensures r.1.factIDs == [fid] && r.0.frontiers == map[] && id in r.0.records && fid in r.0.records
  {
    hide *;
    var d := CutDraft(id, ordinal);
    Names();
    CutNames();
    CutBatch(id, ordinal);
    CutContextIsText();
    CutDraftIsPlain(k, id, ordinal);
    CompletedIsTerminal();
    var c2, plan := FreshResolves(k, db, OPERATOR, CUT_INTENT, Some(CUT_CONTEXT));
    OneText(id);
    fid := FactIDExists(k, plan, [id], d);
    OneFactHasDigest(k, OPERATOR, CUT_INTENT, "mine", Some(CUT_CONTEXT), [id], d);
    CitingIsNew(k, db.records, plan, id, d, fid);
    OneFactCommits(k, db, OPERATOR, CUT_INTENT, "mine", Some(CUT_CONTEXT), [id], d, c2, plan, fid);
    r := AppendTx(k, db, OPERATOR, OneFact(CUT_INTENT, "mine", Some(CUT_CONTEXT), [id], d)).value;
    NewHere(k, db, OneFact(CUT_INTENT, "mine", Some(CUT_CONTEXT), [id], d), r.0, r.1, r.2);
    BatchIntent(CUT_INTENT, "mine", Some(CUT_CONTEXT), [id], d);
    OneFactLeaves(k, db, OPERATOR, CUT_INTENT, "mine", Some(CUT_CONTEXT), [id], d, c2, plan, fid, r.0, r.1);
    RecordStays(db, r.0, id);
  }

  lemma OneText(id: Bytes)
    requires ValidString(id)
    ensures AreTexts([id])
  {
  }

  lemma NewHere(k: Kernel, db: DB, batch: AppendBatch, db': DB, receipt: AppendReceipt, isNew: bool)
    requires AppendTx(k, db, OPERATOR, batch) == Ok((db', receipt, isNew))
    ensures isNew <==> batch.intent !in db.intents
  {
    hide BatchShape, BatchDigest, Stage, Commit;
  }

  lemma RecordStays(db: DB, db': DB, id: Bytes)
    requires Grows(db, db') && id in db.records
    ensures id in db'.records
  {
  }

  /**
    * A completed fact on path mine that names the execution other can be the through fact of a frontier of mine; in no
    * later state does the projection at that frontier name it as the terminal fact.
    */
  lemma TerminalElsewhere(k: Kernel) returns (db: DB, id: Bytes, db': DB, f: Frontier)
    requires CollisionFree(k) && HexDigits(k)
    requires FreshID(k, CUT_INTENT, Some(CUT_CONTEXT), OPERATOR) != FreshID(k, "first", None, OPERATOR)
    ensures db == Run(k, EMPTY, [AppendOp(OPERATOR, First("mine", Note(Executions.COMPLETED, DONE)))])
    ensures Executions.PublishExecution(k, db, OPERATOR, CutSpec(id)) == (db', Ok(f))
    ensures forall ops: seq<Op>, rc: Closure.ReadContext ::
              Closure.ReadAuthorized(rc) && rc.visibility != Slices.SHAPE_ONLY ==>
                var r := Executions.ProjectionFromStore(Run(k, db', ops), rc, f); r.Ok? && r.value.terminal != id
  {
    hide *;
    Names();
    CutNames();
    CompletedIsTerminal();
    DoneIsPlain(k);
    OtherIsNotConcerned();
    var c, plan, receipt;
    c, plan, id, db, receipt := FirstCommits(k, "mine", Note(Executions.COMPLETED, DONE));
    CausalGraph.InvariantLog(k, db);
    RetainedReads(db, id);
    LatestExists(db, id, "mine");
    var ordinal := LatestOnPath(db, id, "mine").value;
    CutBatch(id, ordinal);
    var r, fid := CutCommits(k, db, c, id, ordinal);
    db', f := CutPublishes(k, db, CutSpec(id), ordinal, r.0, r.1, r.2, fid);
    ReachableInv(k, [AppendOp(OPERATOR, First("mine", Note(Executions.COMPLETED, DONE)))]);
    forall ops: seq<Op>, rc: Closure.ReadContext | Closure.ReadAuthorized(rc) && rc.visibility != Slices.SHAPE_ONLY
      ensures var r := Executions.ProjectionFromStore(Run(k, db', ops), rc, f); r.Ok? && r.value.terminal != id
    {
      Executions.TerminalFrontier(k, db, OPERATOR, CutSpec(id), db', f, ops, rc);
    }
  }
}
