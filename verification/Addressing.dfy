/** Content addressing: in every reachable state a record is stored under the digest of what was appended. */
module Addressing {
  import opened Wrappers
  import opened Utf8
  import opened Numbers
  import opened Canonical
  import opened CanonicalLaws
  import opened Trace
  import opened Digests
  import opened Tables
  import opened Append
  import opened Invariant
  import opened StagingLaws
  import opened BatchLaws
  import opened BatchStaging
  import opened Commits
  import opened Frontiers
  import opened Runs
  import opened Redigests

  /** The id is the digest of a record with this body, and the row is what storing that record leaves. */
  ghost predicate IsDigestOf(k: Kernel, id: Bytes, row: RecordRow, body: Body) {
    && StoredBody(body) == row.body
    && RecordDigest(k, row.schemaRef, row.mode, body, row.causedBy, row.witnessRef) == Ok(id)
  }

  ghost predicate Addressed(k: Kernel, id: Bytes, row: RecordRow) { exists body :: IsDigestOf(k, id, row, body) }

  ghost predicate AllAddressed(k: Kernel, records: map<Bytes, RecordRow>) {
    forall id :: id in records ==> Addressed(k, id, records[id])
  }

  ghost predicate FactsAddressed(k: Kernel, facts: seq<Fact>) { forall f :: f in facts ==> Addressed(k, f.id, f.row) }

  predicate PlanAddressed(k: Kernel, plan: WitnessPlan) {
    RecordDigest(k, plan.schemaRef, CAPTURE, Some(plan.body), [], plan.witnessRef) == Ok(plan.recordID)
  }

  /** Each witness is planned once, under its digest. */
  ghost predicate PlansAddressed(k: Kernel, plans: seq<WitnessPlan>) {
    DistinctPlans(plans) && forall p :: p in plans ==> PlanAddressed(k, p)
  }

  // ---- Staging -------------------------------------------------------------

  lemma StagedDigest(k: Kernel, db: DB, intent: Bytes, g: AppendGroup, ctx: RetainedContext, plan: WitnessPlan,
                     d: RecordDraft, st: Staging, st': Staging) returns (f: Fact)
    requires StageDraft(k, db, intent, g, ctx, plan, d, st) == Ok(st')
    ensures st'.facts == st.facts + [f] && st'.plans == st.plans && st'.contexts == st.contexts
    ensures IsDigestOf(k, f.id, f.row, d.payload)
  {
    hide RecordDigest, StoredBody, ResolvedCauses, ParentsKnown;
    var causedBy := ResolvedCauses(g, d, st.locals).value;
    var id := RecordDigest(k, d.schemaRef, d.mode, d.payload, causedBy, plan.recordID).value;
    f := FactOf(id, d, causedBy, g, ctx, plan, intent);
  }

  lemma OneMoreFact(k: Kernel, facts: seq<Fact>, f: Fact, body: Body)
    requires FactsAddressed(k, facts) && IsDigestOf(k, f.id, f.row, body)
    ensures FactsAddressed(k, facts + [f])
  {
    hide IsDigestOf;
    assert Addressed(k, f.id, f.row);
    assert forall x :: x in facts + [f] <==> x in facts || x == f;
  }

  lemma FactIsAddressed(k: Kernel, db: DB, intent: Bytes, g: AppendGroup, ctx: RetainedContext, plan: WitnessPlan,
                        d: RecordDraft, st: Staging, st': Staging)
    requires FactsAddressed(k, st.facts) && StageDraft(k, db, intent, g, ctx, plan, d, st) == Ok(st')
    ensures FactsAddressed(k, st'.facts) && st'.plans == st.plans && st'.contexts == st.contexts
  {
    hide *;
    var f := StagedDigest(k, db, intent, g, ctx, plan, d, st, st');
    OneMoreFact(k, st.facts, f, d.payload);
  }

  lemma {:induction false} DraftsAreAddressed(k: Kernel, db: DB, intent: Bytes, g: AppendGroup, ctx: RetainedContext,
                                              plan: WitnessPlan, drafts: seq<RecordDraft>, st: Staging, st': Staging)
    requires FactsAddressed(k, st.facts) && StageDrafts(k, db, intent, g, ctx, plan, drafts, st) == Ok(st')
    ensures FactsAddressed(k, st'.facts) && st'.plans == st.plans && st'.contexts == st.contexts
    decreases |drafts|
  {
    hide FactsAddressed, StageDraft;
    if drafts != [] {
      var st1 := StageDraft(k, db, intent, g, ctx, plan, drafts[0], st).value;
      FactIsAddressed(k, db, intent, g, ctx, plan, drafts[0], st, st1);
      DraftsAreAddressed(k, db, intent, g, ctx, plan, drafts[1..], st1, st');
    }
  }

  lemma GroupPlans(k: Kernel, op: OperationContext, ctx: RetainedContext, plan: WitnessPlan, plans: seq<WitnessPlan>)
    requires PlansAddressed(k, plans) && OrdinaryWitnessPlan(k, ctx, op) == Ok(plan)
    ensures PlansAddressed(k, AddPlan(AddPlan(plans, RootWitnessPlan(k)), plan))
  {
    RootWitnessExists(k);
    assert PlanAddressed(k, RootWitnessPlan(k)) && PlanAddressed(k, plan);
    hide PlanAddressed, AddPlan, OrdinaryWitnessPlan, DistinctPlans;
    AddPlanIDs(plans, RootWitnessPlan(k));
    AddPlanIDs(AddPlan(plans, RootWitnessPlan(k)), plan);
    AddPlanContents(plans, RootWitnessPlan(k));
    AddPlanContents(AddPlan(plans, RootWitnessPlan(k)), plan);
  }

  lemma GroupIsAddressed(k: Kernel, db: DB, op: OperationContext, intent: Bytes, index: nat, g: AppendGroup,
                         st: Staging, st': Staging)
    requires FactsAddressed(k, st.facts) && PlansAddressed(k, st.plans)
    requires StageGroup(k, db, op, intent, index, g, st) == Ok(st')
    ensures FactsAddressed(k, st'.facts) && PlansAddressed(k, st'.plans)
  {
    if g.drafts != [] {
      var ctx := ResolveGroupContext(k, db, intent, index, g.context, op).value;
      var plan := OrdinaryWitnessPlan(k, ctx, op).value;
      hide FactsAddressed, PlansAddressed, ResolveGroupContext, OrdinaryWitnessPlan, StageDrafts, AddPlan;
      GroupPlans(k, op, ctx, plan, st.plans);
      DraftsAreAddressed(k, db, intent, g, ctx, plan, g.drafts, OpenGroup(k, db, ctx, plan, st), st');
    }
  }

  lemma {:induction false} GroupsAreAddressed(k: Kernel, db: DB, op: OperationContext, intent: Bytes, index: nat,
                                              groups: seq<AppendGroup>, st: Staging, st': Staging)
    requires FactsAddressed(k, st.facts) && PlansAddressed(k, st.plans)
    requires StageGroups(k, db, op, intent, index, groups, st) == Ok(st')
    ensures FactsAddressed(k, st'.facts) && PlansAddressed(k, st'.plans)
    decreases |groups|
  {
    hide FactsAddressed, PlansAddressed, StageGroup;
    if groups != [] {
      var st1 := StageGroup(k, db, op, intent, index, groups[0], st).value;
      GroupIsAddressed(k, db, op, intent, index, groups[0], st, st1);
      GroupsAreAddressed(k, db, op, intent, index + 1, groups[1..], st1, st');
    }
  }

  // ---- Insertion -----------------------------------------------------------

  lemma MoreAddressed(k: Kernel, records: map<Bytes, RecordRow>, id: Bytes, row: RecordRow)
    requires AllAddressed(k, records) && Addressed(k, id, row)
    ensures AllAddressed(k, records[id := row])
  {
    hide Addressed;
  }

  lemma WitnessIsAddressed(k: Kernel, db: DB, plan: WitnessPlan, intent: Bytes, db': DB)
    requires Core(db) && AllAddressed(k, db.records) && PlanAddressed(k, plan)
    requires InsertWitness(db, plan, intent) == Ok(db')
    ensures AllAddressed(k, db'.records)
  {
    if plan.recordID in db.records {
      WitnessReused(db, plan, intent, db');
    } else {
      var db1 := NewWitness(db, plan, intent, db');
      assert IsDigestOf(k, plan.recordID, WitnessRow(plan, intent), Some(plan.body));
      MoreAddressed(k, db.records, plan.recordID, WitnessRow(plan, intent));
    }
  }

  lemma FirstPlan(k: Kernel, plans: seq<WitnessPlan>)
    requires PlansAddressed(k, plans) && plans != []
    ensures PlanAddressed(k, plans[0]) && PlansAddressed(k, plans[1..])
  {
    hide PlanAddressed;
  }

  lemma {:induction false} WitnessesAreAddressed(k: Kernel, db: DB, plans: seq<WitnessPlan>, intent: Bytes, db': DB)
    requires Core(db) && DensePaths(db) && AllAddressed(k, db.records) && PlansAddressed(k, plans)
    requires InsertWitnesses(db, plans, intent) == Ok(db')
    ensures AllAddressed(k, db'.records)
    decreases |plans|
  {
    if plans != [] {
      var db1 := InsertWitness(db, plans[0], intent).value;
      assert InsertWitnesses(db1, plans[1..], intent) == Ok(db');
      hide *;
      FirstPlan(k, plans);
      InsertWitnessKeeps(db, plans[0], intent, db1);
      WitnessIsAddressed(k, db, plans[0], intent, db1);
      WitnessesAreAddressed(k, db1, plans[1..], intent, db');
    }
  }

  lemma FactAddressed(k: Kernel, facts: seq<Fact>, i: nat)
    requires FactsAddressed(k, facts) && i < |facts|
    ensures Addressed(k, facts[i].id, facts[i].row)
  {
    hide Addressed;
    assert facts[i] in facts;
  }

  lemma RecordsStep(start: DB, facts: seq<Fact>, n: nat)
    requires n < |facts|
    ensures var before, f := RecordsAfter(start, facts, n), facts[n];
            RecordsAfter(start, facts, n + 1) == if f.id in before then before else before[f.id := f.row]
  {
  }

  lemma RecordsStart(start: DB, facts: seq<Fact>)
    ensures RecordsAfter(start, facts, 0) == start.records
  {
  }

  lemma {:induction false} FactsStayAddressed(k: Kernel, start: DB, facts: seq<Fact>, n: nat)
    requires n <= |facts| && AllAddressed(k, start.records) && FactsAddressed(k, facts)
    ensures AllAddressed(k, RecordsAfter(start, facts, n))
    decreases n
  {
    hide *;
    if n == 0 {
      RecordsStart(start, facts);
    } else {
      FactsStayAddressed(k, start, facts, n - 1);
      FactAddressed(k, facts, n - 1);
      RecordsStep(start, facts, n - 1);
      MoreAddressed(k, RecordsAfter(start, facts, n - 1), facts[n - 1].id, facts[n - 1].row);
    }
  }

  lemma StagedIsAddressed(k: Kernel, db: DB, op: OperationContext, batch: AppendBatch, st: Staging)
    requires Stage(k, db, op, batch) == Ok(st)
    ensures FactsAddressed(k, st.facts) && PlansAddressed(k, st.plans)
  {
    GroupsAreAddressed(k, db, op, batch.intent, 0, batch.groups, NOTHING, st);
  }

  lemma InsertedRecords(base: DB, start: DB, db: DB, facts: seq<Fact>, intent: Bytes)
    requires Inserted(base, start, db, facts, |facts|, intent)
    ensures db.records == RecordsAfter(start, facts, |facts|)
    ensures Advance(base, db, facts).records == db.records
  {
  }

  lemma StartTables(k: Kernel, base: DB, intent: Bytes, row: IntentRow, contexts: seq<RetainedContext>, db1: DB)
    requires StoreInv(k, base)
    requires InsertContexts(base.(intents := base.intents[intent := row]), contexts) == Ok(db1)
    ensures Core(db1) && DensePaths(db1) && db1.records == base.records
  {
    InsertContextsKeeps(base.(intents := base.intents[intent := row]), contexts, db1);
  }

  /** A commit stores every new record under its digest. */
  lemma CommitIsAddressed(k: Kernel, base: DB, op: OperationContext, batch: AppendBatch, row: IntentRow, st: Staging,
                          db': DB)
    requires StoreInv(k, base) && batch.intent !in base.intents && AllAddressed(k, base.records)
    requires Stage(k, base, op, batch) == Ok(st) && InsertAll(base, batch.intent, row, st) == Ok(db')
    ensures AllAddressed(k, db'.records)
  {
    hide *;
    var db1, start, db3 := InsertAllSteps(base, batch.intent, row, st, db');
    StagedIsAddressed(k, base, op, batch, st);
    ContextIds(k, base);
    StageEstablishes(k, base, op, batch, st);
    StagedCauses(k, base, batch.intent, AllDrafts(batch.groups), AllOwners(batch.groups), st);
    StartsAtBase(k, base);
    PrepareStart(base, batch.intent, row, st.contexts, st.plans, db1, start);
    FactsInserted(base, start, st.facts, batch.intent, db3);
    StartTables(k, base, batch.intent, row, st.contexts, db1);
    WitnessesAreAddressed(k, db1, st.plans, batch.intent, start);
    FactsStayAddressed(k, start, st.facts, |st.facts|);
    InsertedRecords(base, start, db3, st.facts, batch.intent);
  }

  // ---- Runs ----------------------------------------------------------------

  lemma AppendIsAddressed(k: Kernel, db: DB, op: OperationContext, batch: AppendBatch, db': DB, receipt: AppendReceipt,
                          isNew: bool)
    requires StoreInv(k, db) && AllAddressed(k, db.records) && AppendTx(k, db, op, batch) == Ok((db', receipt, isNew))
    ensures AllAddressed(k, db'.records)
  {
    hide *;
    var digest, st := AppendCases(k, db, op, batch, db', receipt, isNew);
    if isNew {
      CommitInserts(db, batch.intent, digest, st, db');
      CommitIsAddressed(k, db, op, batch, IntentRow(digest, ReceiptFor(db, batch.intent, st)), st, db');
    }
  }

  lemma PublishIsAddressed(k: Kernel, db: DB, op: OperationContext, spec: FrontierSpec, db': DB, f: Frontier)
    requires StoreInv(k, db) && AllAddressed(k, db.records) && PublishTx(k, db, op, spec) == Ok((db', f))
    ensures AllAddressed(k, db'.records)
  {
    hide *;
    var ordinal, db1, receipt, isNew := PublishCases(k, db, op, spec, db', f);
    AppendIsAddressed(k, db, op, FrontierBatch(op, spec, ordinal), db1, receipt, isNew);
    RecordFrontierAdds(db1, FrontierOf(spec, ordinal, receipt.factIDs[0]), IntentOf(spec), db', f);
  }

  lemma StepIsAddressed(k: Kernel, db: DB, o: Op)
    requires StoreInv(k, db) && AllAddressed(k, db.records)
    ensures AllAddressed(k, Step(k, db, o).records)
  {
    hide StoreInv, AllAddressed, AppendTx, PublishTx, AppendAuthorized;
    match o
    case AppendOp(op, batch) =>
      if AppendAuthorized(op) && AppendTx(k, db, op, batch).Ok? {
        var r := AppendTx(k, db, op, batch).value;
        AppendIsAddressed(k, db, op, batch, r.0, r.1, r.2);
      }
    case PublishOp(op, spec) =>
      if AppendAuthorized(op) && PublishTx(k, db, op, spec).Ok? {
        var r := PublishTx(k, db, op, spec).value;
        PublishIsAddressed(k, db, op, spec, r.0, r.1);
      }
  }

  lemma {:induction false} RunIsAddressed(k: Kernel, db: DB, ops: seq<Op>)
    requires StoreInv(k, db) && AllAddressed(k, db.records)
    ensures AllAddressed(k, Run(k, db, ops).records)
    decreases |ops|
  {
    hide StoreInv, AllAddressed, Step;
    if ops != [] {
      StepKeepsInv(k, db, ops[0]);
      StepIsAddressed(k, db, ops[0]);
      RunIsAddressed(k, Step(k, db, ops[0]), ops[1..]);
    }
  }

  /** In every reachable state every record is stored under the digest of the record that was appended. */
  lemma RecordsAreAddressed(k: Kernel, ops: seq<Op>)
    ensures AllAddressed(k, Run(k, EMPTY, ops).records)
  {
    ReachableInv(k, []);
    assert Run(k, EMPTY, []) == EMPTY;
    assert AllAddressed(k, EMPTY.records);
    RunIsAddressed(k, EMPTY, ops);
  }

  ghost predicate StillAddressed(k: Kernel, id: Bytes, row: RecordRow) {
    RecordDigest(k, row.schemaRef, row.mode, row.body, row.causedBy, row.witnessRef) == Ok(id)
  }

  /** What a record of a reachable state was digested from, and when its retained row still digests to its id */
  lemma RetainedRecordRedigests(k: Kernel, ops: seq<Op>, id: Bytes) returns (body: Body)
    requires id in Run(k, EMPTY, ops).records
    ensures IsDigestOf(k, id, Run(k, EMPTY, ops).records[id], body)
    ensures BodyHasGoFloats(k, body) && BodyKeepsFloats(k, body) ==> StillAddressed(k, id, Run(k, EMPTY, ops).records[id])
    ensures BodyHasGoFloats(k, body) && CollisionFree(k) && StillAddressed(k, id, Run(k, EMPTY, ops).records[id]) ==>
              BodyKeepsFloats(k, body)
  {
    RecordsAreAddressed(k, ops);
    hide Run, BodyKeepsFloats, BodyHasGoFloats, CollisionFree, RecordDigest;
    var row := Run(k, EMPTY, ops).records[id];
    assert Addressed(k, id, row);
    body :| IsDigestOf(k, id, row, body);
    if BodyHasGoFloats(k, body) {
      RecordRedigests(k, row.schemaRef, row.mode, body, row.causedBy, row.witnessRef);
    }
  }

  // ---- Witness bodies ------------------------------------------------------

  lemma InputMember(e: Encoder, v: Json, w: Json, key: Bytes)
    requires v.Obj? && w.Obj? && Meaning(e, v) == Meaning(e, w) && key in v.fields && key in w.fields
    ensures Meaning(e, v.fields[key]) == Meaning(e, w.fields[key])
  {
    SameMember(e, v, w, key);
  }

  /** Record inputs that mean the same agree in every field. */
  lemma InputsAgree(e: Encoder, a: RecordRow, body: Body, b: RecordRow, body2: Body)
    requires Meaning(e, RecordInput(a.schemaRef, a.mode, body, a.causedBy, a.witnessRef)) ==
             Meaning(e, RecordInput(b.schemaRef, b.mode, body2, b.causedBy, b.witnessRef))
    ensures a.schemaRef == b.schemaRef && a.mode == b.mode && a.witnessRef == b.witnessRef && a.causedBy == b.causedBy
    ensures Meaning(e, Obj(Fields(body))) == Meaning(e, Obj(Fields(body2)))
  {
    hide *;
    var v := RecordInput(a.schemaRef, a.mode, body, a.causedBy, a.witnessRef);
    var w := RecordInput(b.schemaRef, b.mode, body2, b.causedBy, b.witnessRef);
    InputFields(a.schemaRef, a.mode, body, a.causedBy, a.witnessRef);
    InputFields(b.schemaRef, b.mode, body2, b.causedBy, b.witnessRef);
    InputMember(e, v, w, "schema_ref");
    TextDetermined(e, a.schemaRef, b.schemaRef);
    InputMember(e, v, w, "mode");
    TextDetermined(e, a.mode, b.mode);
    InputMember(e, v, w, "witness");
    TextDetermined(e, a.witnessRef, b.witnessRef);
    InputMember(e, v, w, "caused_by");
    MeaningsInjectiveOnStrings(e, a.causedBy, b.causedBy);
    InputMember(e, v, w, "body");
  }

  lemma DigestSays(k: Kernel, id: Bytes, row: RecordRow, body: Body)
    requires IsDigestOf(k, id, row, body)
    ensures CanonicalDigest(k, RecordInput(row.schemaRef, row.mode, body, row.causedBy, row.witnessRef)) == Ok(id)
  {
  }

  /** Without collisions, two records under one id agree in every field, their bodies up to spelling. */
  lemma SameIdSameRecord(k: Kernel, id: Bytes, a: RecordRow, body: Body, b: RecordRow, body2: Body)
    requires CollisionFree(k) && IsDigestOf(k, id, a, body) && IsDigestOf(k, id, b, body2)
    ensures a.schemaRef == b.schemaRef && a.mode == b.mode && a.witnessRef == b.witnessRef && a.causedBy == b.causedBy
    ensures Meaning(Utf8Encoder(k), Obj(Fields(body))) == Meaning(Utf8Encoder(k), Obj(Fields(body2)))
  {
    hide *;
    DigestSays(k, id, a, body);
    DigestSays(k, id, b, body2);
    SameDigestSameMeaning(k, RecordInput(a.schemaRef, a.mode, body, a.causedBy, a.witnessRef),
                          RecordInput(b.schemaRef, b.mode, body2, b.causedBy, b.witnessRef));
    InputsAgree(Utf8Encoder(k), a, body, b, body2);
  }

  lemma PlanDigest(k: Kernel, plan: WitnessPlan)
    requires PlanAddressed(k, plan)
    ensures IsDigestOf(k, plan.recordID, WitnessRow(plan, ""), Some(plan.body))
  {
  }

  lemma RetainedDigest(k: Kernel, records: map<Bytes, RecordRow>, id: Bytes) returns (body: Body)
    requires AllAddressed(k, records) && id in records
    ensures IsDigestOf(k, id, records[id], body)
  {
    hide IsDigestOf;
    assert Addressed(k, id, records[id]);
    body :| IsDigestOf(k, id, records[id], body);
  }

  lemma PlanRow(plan: WitnessPlan, row: RecordRow)
    requires row.schemaRef == WitnessRow(plan, "").schemaRef && row.mode == WitnessRow(plan, "").mode
    requires row.witnessRef == WitnessRow(plan, "").witnessRef
    ensures WitnessMatches(row, plan)
    ensures Obj(Fields(Some(plan.body))) == Obj(plan.body) && WitnessRow(plan, "").causedBy == []
  {
  }

  /** Without collisions, what is retained under a plan's id fits the plan. */
  lemma RetainedPlanAgrees(k: Kernel, records: map<Bytes, RecordRow>, plan: WitnessPlan) returns (body: Body)
    requires CollisionFree(k) && AllAddressed(k, records) && PlanAddressed(k, plan) && plan.recordID in records
    ensures var row := records[plan.recordID];
            IsDigestOf(k, plan.recordID, row, body) && WitnessMatches(row, plan) && row.causedBy == []
    ensures Meaning(Utf8Encoder(k), Obj(Fields(body))) == Meaning(Utf8Encoder(k), Obj(plan.body))
  {
    hide *;
    PlanDigest(k, plan);
    body := RetainedDigest(k, records, plan.recordID);
    SameIdSameRecord(k, plan.recordID, records[plan.recordID], body, WitnessRow(plan, ""), Some(plan.body));
    PlanRow(plan, records[plan.recordID]);
  }

  /** Bodies are not compared when a witness is reused; without collisions they agree all the same. */
  lemma ReusedWitnessAgrees(k: Kernel, ops: seq<Op>, plan: WitnessPlan) returns (body: Body)
    requires CollisionFree(k) && PlanAddressed(k, plan) && plan.recordID in Run(k, EMPTY, ops).records
    ensures var row := Run(k, EMPTY, ops).records[plan.recordID];
            IsDigestOf(k, plan.recordID, row, body) && WitnessMatches(row, plan) && row.causedBy == []
    ensures Meaning(Utf8Encoder(k), Obj(Fields(body))) == Meaning(Utf8Encoder(k), Obj(plan.body))
  {
    hide *;
    RecordsAreAddressed(k, ops);
    body := RetainedPlanAgrees(k, Run(k, EMPTY, ops).records, plan);
  }

  // ---- Accepting a record under a retained id ------------------------------

  lemma AddressedBody(k: Kernel, id: Bytes, row: RecordRow) returns (body: Body)
    requires Addressed(k, id, row)
    ensures IsDigestOf(k, id, row, body)
  {
    hide IsDigestOf;
    body :| IsDigestOf(k, id, row, body);
  }

  /** Without collisions, rows under one id have the same content exactly when their stored bodies are the same. */
  lemma SameContentIsSameBody(k: Kernel, id: Bytes, a: RecordRow, b: RecordRow)
    requires CollisionFree(k) && Addressed(k, id, a) && Addressed(k, id, b)
    ensures SameContent(a, b) <==> a.body == b.body
  {
    hide Addressed, IsDigestOf, CollisionFree;
    var x := AddressedBody(k, id, a);
    var y := AddressedBody(k, id, b);
    SameIdSameRecord(k, id, a, x, b, y);
  }

  /**
    * Without collisions, a record whose id is retained is accepted exactly when its body is stored as the retained one:
    * an equal id alone, which says that the bodies mean the same, is not enough.
    */
  lemma AcceptedExactlyOnSameText(k: Kernel, db: DB, id: Bytes, row: RecordRow, body: Body)
    requires CollisionFree(k) && AllAddressed(k, db.records) && id in db.records && IsDigestOf(k, id, row, body)
    ensures InsertRecordIfMissing(db, id, row).Ok? <==> db.records[id].body == StoredBody(body)
  {
    assert StoredBody(body) == row.body;
    assert Addressed(k, id, row) && Addressed(k, id, db.records[id]);
    SameContentIsSameBody(k, id, db.records[id], row);
  }

  // ---- Spelling ------------------------------------------------------------

  /** The number one as a native float and as a token: the digest is the same, the stored text is not. */
  const ONE: Float := Finite(false, "1", 0)
  const NATIVE: Body := Some(map["x" := Real(ONE)])
  const SPELLED: Body := Some(map["x" := Number("1.0")])

  lemma SpelledToken()
    ensures var t := Token(false, "1", Some("0"), None); WellFormed(t) && Render(t) == "1.0"
  {
    UnsignedText("1", "0");
    assert "1" + ("." + "0") == "1.0";
  }

  lemma NativeOne(e: Encoder)
    ensures Write(e, Real(ONE)).Ok? && Meaning(e, Real(ONE)) == VReal(ONE)
    ensures Write(e, Number("1.0")) == WriteNumber(e, "1.0") && Meaning(e, Number("1.0")) == NumberMeaning(e, "1.0")
  {
    hide WriteNumber, NumberMeaning;
  }

  lemma SpelledOne(k: Kernel)
    requires k.parse("1.0") == Some(ONE)
    ensures Write(Utf8Encoder(k), Number("1.0")).Ok? && Write(Utf8Encoder(k), Real(ONE)).Ok?
    ensures Meaning(Utf8Encoder(k), Number("1.0")) == Meaning(Utf8Encoder(k), Real(ONE))
  {
    assert Utf8Encoder(k).parse("1.0") == Some(ONE);
    hide *;
    SpelledToken();
    TokenKind(Utf8Encoder(k), Token(false, "1", Some("0"), None), ONE);
    NativeOne(Utf8Encoder(k));
  }

  lemma OneField(e: Encoder, key: Bytes, x: Json, y: Json)
    requires ValidString(key) && Write(e, x).Ok? && Write(e, y).Ok? && Meaning(e, x) == Meaning(e, y)
    ensures Meaning(e, Obj(map[key := x])) == Meaning(e, Obj(map[key := y]))
    ensures Write(e, Obj(map[key := x])).Ok? && Write(e, Obj(map[key := y])).Ok?
  {
    assert WriteString(e, key).Ok?;
    hide *;
    SameMembers(e, Obj(map[key := x]), Obj(map[key := y]));
    ObjectMembersWrite(e, Obj(map[key := x]));
    ObjectMembersWrite(e, Obj(map[key := y]));
  }

  lemma SpelledFields()
    ensures Obj(Fields(NATIVE)) == Obj(map["x" := Real(ONE)]) && Obj(Fields(SPELLED)) == Obj(map["x" := Number("1.0")])
    ensures ValidString("x")
  {
    AsciiIsValid("x");
  }

  lemma SpelledBodies(k: Kernel)
    requires k.parse("1.0") == Some(ONE)
    ensures Meaning(Utf8Encoder(k), Obj(Fields(NATIVE))) == Meaning(Utf8Encoder(k), Obj(Fields(SPELLED)))
    ensures PayloadWrites(k, NATIVE) && PayloadWrites(k, SPELLED)
  {
    hide *;
    SpelledOne(k);
    SpelledFields();
    OneField(Utf8Encoder(k), "x", Real(ONE), Number("1.0"));
    WritesIs(k, NATIVE);
    WritesIs(k, SPELLED);
  }

  lemma SpelledDiffer()
    ensures StoredBody(NATIVE) != StoredBody(SPELLED)
  {
    OneTokens();
    UnsignedText("1", "0");
    assert Stored(Real(ONE)) == Number("1");
    assert StoredBody(NATIVE).value["x"] == Number("1") && StoredBody(SPELLED).value["x"] == Number("1.0");
    assert |"1"| != |"1.0"|;
  }

  /** Both spellings have one id. */
  lemma SpelledDigests(k: Kernel, schemaRef: Bytes, mode: Bytes, causedBy: seq<Bytes>, witnessRef: Bytes, id: Bytes)
    requires k.parse("1.0") == Some(ONE) && witnessRef != ""
    requires RecordDigest(k, schemaRef, mode, NATIVE, causedBy, witnessRef) == Ok(id)
    ensures RecordDigest(k, schemaRef, mode, SPELLED, causedBy, witnessRef) == Ok(id)
  {
    hide Meaning, Write, RecordInput, StoredBody, PayloadWrites;
    SpelledBodies(k);
    WritesIs(k, NATIVE);
    WritesIs(k, SPELLED);
    SameInputs(Utf8Encoder(k), schemaRef, mode, NATIVE, SPELLED, causedBy, witnessRef);
  }

  /**
    * A retained record is compared by its stored text, which spells numbers as they came. The same record with a number
    * spelled differently has the same id and is refused.
    */
  lemma SpellingConflicts(k: Kernel, db: DB, d: RecordRow, id: Bytes, intent: Bytes)
    requires k.parse("1.0") == Some(ONE) && d.witnessRef != ""
    requires RecordDigest(k, d.schemaRef, d.mode, NATIVE, d.causedBy, d.witnessRef) == Ok(id)
    requires id in db.records && db.records[id] == d.(body := StoredBody(NATIVE))
    ensures RecordDigest(k, d.schemaRef, d.mode, SPELLED, d.causedBy, d.witnessRef) == Ok(id)
    ensures InsertRecordIfMissing(db, id, d.(body := StoredBody(SPELLED), intent := intent)) == Err(StoreLaw)
  {
    hide RecordDigest, StoredBody;
    SpelledDigests(k, d.schemaRef, d.mode, d.causedBy, d.witnessRef, id);
    SpelledDiffer();
  }

  lemma WritesIs(k: Kernel, body: Body)
    ensures PayloadWrites(k, body) <==> Write(Utf8Encoder(k), Obj(Fields(body))).Ok?
  {
  }
}
