/** Batches of one fact: they have a shape, a digest and a staging, and what they leave when they commit is known. */
module OneFacts {
  import opened Wrappers
  import opened Utf8
  import opened Canonical
  import opened CanonicalLaws
  import opened Trace
  import opened Digests
  import opened Tables
  import opened Append
  import opened Invariant
  import opened StagingLaws
  import opened BatchLaws
  import opened BatchStaging
  import opened Redigests
  import opened Commits
  import opened Conservation
  import opened Contexts
  import opened Inserting
  import opened Addressing
  import opened Admission
  import Runs
  import Slices

  // ---- Writable texts ------------------------------------------------------

  predicate AreTexts(ss: seq<Bytes>) { forall s :: s in ss ==> ValidString(s) }

  predicate IsTextContext(c: RetainedContext) {
    && AreTexts(c.activeBindings) && AreTexts(c.capabilityWitnesses) && AreTexts(c.semanticEnvironments)
    && AreTexts(c.visibilityPolicies) && ValidString(c.substrate) && ValidString(c.containment)
  }

  predicate IsTextOperation(op: OperationContext) { ValidString(op.actor) && ValidString(op.schemaEnvironment) }

  lemma StringsWrite(e: Encoder, ss: seq<Bytes>)
    requires AreTexts(ss)
    ensures Write(e, Strings(ss)).Ok?
  {
    ArrayWrites(e, Strings(ss).items);
    forall i | 0 <= i < |ss| ensures Write(e, Strings(ss).items[i]).Ok? {
      assert ss[i] in ss;
    }
  }

  lemma TextWrites(e: Encoder, s: Bytes)
    requires ValidString(s)
    ensures Write(e, Str(s)).Ok?
  {
  }

  predicate IsAsciiText(s: Bytes) { forall i :: 0 <= i < |s| ==> s[i] as int < 0x80 }

  /** An object with valid names and writable members can be written. */
  lemma MembersWritable(e: Encoder, v: Json)
    requires v.Obj? && (forall key :: key in v.fields ==> ValidString(key) && Write(e, v.fields[key]).Ok?)
    ensures Write(e, v).Ok?
  {
    assert forall key :: ValidString(key) ==> WriteString(e, key).Ok?;
    hide *;
    ObjectMembersWrite(e, v);
  }

  lemma ListNames()
    ensures ValidString("active_binding_refs") && ValidString("semantic_environment_refs")
    ensures ValidString("visibility_policy_refs") && ValidString("capability_witness_refs")
  {
    hide ValidString;
    AsciiIsValid("active_binding_refs");
    AsciiIsValid("semantic_environment_refs");
    AsciiIsValid("visibility_policy_refs");
    AsciiIsValid("capability_witness_refs");
  }

  lemma WitnessNames()
    ensures ValidString("actor_ref") && ValidString("authority_refs") && ValidString("provenance_policy_refs")
    ensures ValidString("substrate_ref") && ValidString("containment") && ValidString("reuse_context_id")
  {
    hide ValidString;
    AsciiIsValid("actor_ref");
    AsciiIsValid("authority_refs");
    AsciiIsValid("provenance_policy_refs");
    AsciiIsValid("substrate_ref");
    AsciiIsValid("containment");
    AsciiIsValid("reuse_context_id");
  }

  lemma RecordNames()
    ensures ValidString("body") && ValidString("caused_by") && ValidString("kind") && ValidString("mode")
    ensures ValidString("schema_ref") && ValidString("witness") && ValidString("record")
  {
    hide ValidString;
    AsciiIsValid("body");
    AsciiIsValid("caused_by");
    AsciiIsValid("kind");
    AsciiIsValid("mode");
    AsciiIsValid("schema_ref");
    AsciiIsValid("witness");
    AsciiIsValid("record");
  }

  lemma DraftNames()
    ensures ValidString("append_local_id") && ValidString("kind_label") && ValidString("payload")
    ensures ValidString("caused_by_fact_ids") && ValidString("caused_by_local_refs")
  {
    hide ValidString;
    AsciiIsValid("append_local_id");
    AsciiIsValid("kind_label");
    AsciiIsValid("payload");
    AsciiIsValid("caused_by_fact_ids");
    AsciiIsValid("caused_by_local_refs");
  }

  lemma GroupNames()
    ensures ValidString("trace_owner_id") && ValidString("retained_context") && ValidString("causal_parents")
    ensures ValidString("fact_drafts")
  {
    hide ValidString;
    AsciiIsValid("trace_owner_id");
    AsciiIsValid("retained_context");
    AsciiIsValid("causal_parents");
    AsciiIsValid("fact_drafts");
  }

  lemma BatchNames()
    ensures ValidString("append_intent_id") && ValidString("atomicity") && ValidString("atomic")
    ensures ValidString("schema_version_set") && ValidString("groups")
  {
    hide ValidString;
    AsciiIsValid("append_intent_id");
    AsciiIsValid("atomicity");
    AsciiIsValid("atomic");
    AsciiIsValid("schema_version_set");
    AsciiIsValid("groups");
  }

  lemma KernelNames()
    ensures ValidString(CAPTURE) && ValidString(DECLARATION) && ValidString(WITNESS_SCHEMA)
    ensures ValidString(LOCAL_SUBSTRATE) && ValidString(CONTAINED)
  {
    hide ValidString;
    AsciiIsValid(CAPTURE);
    AsciiIsValid(DECLARATION);
    AsciiIsValid(WITNESS_SCHEMA);
    AsciiIsValid(LOCAL_SUBSTRATE);
    AsciiIsValid(CONTAINED);
  }

  lemma ContextKeys(c: RetainedContext)
    ensures ContextInput(c).Obj?
    ensures ContextInput(c).fields.Keys == {"active_binding_refs", "capability_witness_refs", "semantic_environment_refs",
                                            "visibility_policy_refs", "substrate_ref", "containment"}
  {
    hide Strings;
  }

  lemma WitnessFields(c: RetainedContext, op: OperationContext)
    ensures var f := WitnessBody(c, op);
            && f.Keys == {"actor_ref", "authority_refs", "active_binding_refs", "semantic_environment_refs",
                          "visibility_policy_refs", "provenance_policy_refs", "substrate_ref", "containment"}
            && f["actor_ref"] == Str(op.actor)
            && f["authority_refs"] == Strings(c.capabilityWitnesses)
            && f["active_binding_refs"] == Strings(c.activeBindings)
            && f["semantic_environment_refs"] == Strings(c.semanticEnvironments)
            && f["visibility_policy_refs"] == Strings(c.visibilityPolicies)
            && f["provenance_policy_refs"] == Arr([])
            && f["substrate_ref"] == Str(c.substrate)
            && f["containment"] == Str(c.containment)
  {
    hide Strings;
  }

  lemma DraftKeys(d: RecordDraft)
    ensures DraftJson(d).Obj?
    ensures DraftJson(d).fields.Keys == {"append_local_id", "kind_label", "mode", "schema_ref", "payload",
                                         "caused_by_fact_ids", "caused_by_local_refs"}
  {
    hide Strings;
  }

  lemma ContextDraftKeys(ctx: Option<RetainedContext>)
    ensures ContextDraftJson(ctx).Obj?
    ensures ContextDraftJson(ctx).fields.Keys ==
            {"active_binding_refs", "capability_witness_refs", "semantic_environment_refs", "visibility_policy_refs",
             "substrate_ref", "containment", "reuse_context_id"}
  {
    hide Strings;
  }

  lemma GroupKeys(g: AppendGroup)
    ensures GroupJson(g).Obj?
    ensures GroupJson(g).fields.Keys == {"trace_owner_id", "retained_context", "causal_parents", "fact_drafts"}
  {
    hide Strings, ContextDraftJson;
  }

  lemma BatchKeys(batch: AppendBatch, op: OperationContext)
    ensures var v := BatchJson(batch, op);
            v.Obj? && v.fields.Keys == {"append_intent_id", "atomicity", "actor_ref", "schema_version_set", "groups"}
            && v.fields["atomicity"] == Str("atomic")
  {
  }

  lemma NothingWrites(e: Encoder)
    ensures Write(e, Null).Ok? && Write(e, NilObj).Ok? && Write(e, Arr([])).Ok?
  {
  }

  lemma ContextInputWrites(e: Encoder, c: RetainedContext)
    requires IsTextContext(c)
    ensures Write(e, ContextInput(c)).Ok?
  {
    ContextInputFields(c);
    hide Write, Strings, ContextInput, ValidString;
    ContextKeys(c);
    ListNames();
    WitnessNames();
    StringsWrite(e, c.activeBindings);
    StringsWrite(e, c.capabilityWitnesses);
    StringsWrite(e, c.semanticEnvironments);
    StringsWrite(e, c.visibilityPolicies);
    TextWrites(e, c.substrate);
    TextWrites(e, c.containment);
    MembersWritable(e, ContextInput(c));
  }

  lemma RecordInputWrites(e: Encoder, schemaRef: Bytes, mode: Bytes, body: Body, causedBy: seq<Bytes>,
                          witnessRef: Bytes)
    requires ValidString(schemaRef) && ValidString(mode) && AreTexts(causedBy) && ValidString(witnessRef)
    requires Write(e, Obj(Fields(body))).Ok?
    ensures Write(e, RecordInput(schemaRef, mode, body, causedBy, witnessRef)).Ok?
  {
    hide Write, Strings, RecordInput, Fields, ValidString;
    InputFields(schemaRef, mode, body, causedBy, witnessRef);
    StringsWrite(e, causedBy);
    RecordNames();
    TextWrites(e, "record");
    TextWrites(e, mode);
    TextWrites(e, schemaRef);
    TextWrites(e, witnessRef);
    MembersWritable(e, RecordInput(schemaRef, mode, body, causedBy, witnessRef));
  }

  // ---- Digests -------------------------------------------------------------

  lemma HexIsText(k: Kernel, s: Bytes, prefix: Bytes, n: nat)
    requires HexDigits(k) && IsAsciiText(prefix) && n <= |k.hash(s)|
    ensures ValidString(prefix + k.hash(s)[..n])
  {
    var t := prefix + k.hash(s)[..n];
    forall i | 0 <= i < |t| ensures t[i] as int < 0x80 {
      if i >= |prefix| {
        assert t[i] == k.hash(s)[i - |prefix|];
        assert IsHexDigit(k.hash(s)[i - |prefix|]);
      }
    }
    AsciiIsValid(t);
  }

  lemma DigestText(k: Kernel, v: Json) returns (s: Bytes)
    requires CanonicalDigest(k, v).Ok?
    ensures CanonicalDigest(k, v) == Ok("sha256:" + k.hash(s)[..|k.hash(s)|])
  {
    s := CANONICAL_PREFIX + Write(Utf8Encoder(k), v).value;
    hide Write;
    assert k.hash(s)[..|k.hash(s)|] == k.hash(s);
  }

  lemma StartsWith(a: Bytes, b: Bytes)
    ensures a <= a + b
  {
  }

  lemma SchemeIsAscii()
    ensures IsAsciiText("sha256:") && IsAsciiText("context:")
  {
  }

  lemma DigestIsText(k: Kernel, v: Json)
    requires HexDigits(k) && CanonicalDigest(k, v).Ok?
    ensures ValidString(CanonicalDigest(k, v).value) && "sha256:" <= CanonicalDigest(k, v).value
  {
    hide *;
    var s := DigestText(k, v);
    SchemeIsAscii();
    HexIsText(k, s, "sha256:", |k.hash(s)|);
    StartsWith("sha256:", k.hash(s)[..|k.hash(s)|]);
  }

  /** A record with texts and a writable body has a digest, if it cites a digest. */
  lemma RecordHasDigest(k: Kernel, schemaRef: Bytes, mode: Bytes, body: Body, causedBy: seq<Bytes>, witnessRef: Bytes)
    requires HexDigits(k) && schemaRef != "" && schemaRef != ROOT_WITNESS_SCHEMA && IsMode(mode)
    requires witnessRef != "" && IsWitnessRef(witnessRef)
    requires ValidString(schemaRef) && ValidString(mode) && AreTexts(causedBy) && ValidString(witnessRef)
    requires PayloadWrites(k, body)
    ensures var r := RecordDigest(k, schemaRef, mode, body, causedBy, witnessRef);
            r.Ok? && ValidString(r.value) && "sha256:" <= r.value
  {
    RecordInputWrites(Utf8Encoder(k), schemaRef, mode, body, causedBy, witnessRef);
    var v := RecordInput(schemaRef, mode, body, causedBy, witnessRef);
    assert CanonicalDigest(k, v).Ok?;
    DigestIsText(k, v);
    hide Write, RecordInput, CanonicalDigest, HexDigits;
  }

  lemma RootIsText(k: Kernel)
    requires HexDigits(k)
    ensures ValidString(RootWitnessID(k)) && RootWitnessID(k) != "" && IsWitnessRef(RootWitnessID(k))
  {
    RootWitnessExists(k);
    var v := RecordInput(ROOT_WITNESS_SCHEMA, CAPTURE, Some(RootWitnessBody()), [], "");
    assert CanonicalDigest(k, v) == Ok(RootWitnessID(k));
    DigestIsText(k, v);
  }

  lemma WitnessBodyWrites(k: Kernel, c: RetainedContext, op: OperationContext)
    requires IsTextContext(c) && IsTextOperation(op)
    ensures PayloadWrites(k, Some(WitnessBody(c, op)))
  {
    var e, v := Utf8Encoder(k), Obj(WitnessBody(c, op));
    hide Write, Strings, WitnessBody, ValidString;
    WitnessFields(c, op);
    ListNames();
    WitnessNames();
    NothingWrites(e);
    StringsWrite(e, c.activeBindings);
    StringsWrite(e, c.capabilityWitnesses);
    StringsWrite(e, c.semanticEnvironments);
    StringsWrite(e, c.visibilityPolicies);
    TextWrites(e, op.actor);
    TextWrites(e, c.substrate);
    TextWrites(e, c.containment);
    MembersWritable(e, v);
  }

  /** Every context of texts has an ordinary witness. */
  lemma PlanExists(k: Kernel, c: RetainedContext, op: OperationContext)
    requires HexDigits(k) && IsTextContext(c) && IsTextOperation(op)
    requires IsContainment(c.containment) && c.substrate != ""
    ensures var r := OrdinaryWitnessPlan(k, c, op);
            r.Ok? && ValidString(r.value.recordID) && "sha256:" <= r.value.recordID
  {
    hide RecordDigest, WitnessBody, RootWitnessID, ValidString, HexDigits, PayloadWrites, IsTextContext, IsTextOperation;
    RootIsText(k);
    WitnessBodyWrites(k, c, op);
    KernelNames();
    assert |WITNESS_SCHEMA| != |ROOT_WITNESS_SCHEMA|;
    RecordHasDigest(k, WITNESS_SCHEMA, CAPTURE, Some(WitnessBody(c, op)), [], RootWitnessID(k));
  }

  // ---- Batches of one fact -------------------------------------------------

  function OneGroup(owner: Bytes, ctx: Option<RetainedContext>, parents: seq<Bytes>, d: RecordDraft): AppendGroup {
    AppendGroup(owner, ctx, parents, [d])
  }

  function OneFact(intent: Bytes, owner: Bytes, ctx: Option<RetainedContext>, parents: seq<Bytes>, d: RecordDraft):
      AppendBatch
  {
    AppendBatch(intent, [OneGroup(owner, ctx, parents, d)])
  }

  /** A draft without references, with texts and a payload that can be written */
  predicate IsPlainDraft(k: Kernel, d: RecordDraft) {
    && DraftShape(d) && d.localID == "" && d.causedBy == [] && d.causedByLocal == []
    && d.schemaRef != ROOT_WITNESS_SCHEMA && ValidString(d.schemaRef) && ValidString(d.kindLabel)
    && PayloadWrites(k, d.payload)
  }

  lemma PlainSays(k: Kernel, d: RecordDraft)
    requires IsPlainDraft(k, d)
    ensures d.localID == "" && d.causedBy == [] && d.causedByLocal == []
  {
  }

  lemma OneFactHasShape(k: Kernel, intent: Bytes, owner: Bytes, ctx: Option<RetainedContext>, parents: seq<Bytes>,
                        d: RecordDraft)
    requires intent != "" && owner != "" && IsPlainDraft(k, d)
    ensures BatchShape(OneFact(intent, owner, ctx, parents, d))
    ensures AllOwners(OneFact(intent, owner, ctx, parents, d).groups) == [owner]
    ensures AllDrafts(OneFact(intent, owner, ctx, parents, d).groups) == [d]
  {
    var g := OneGroup(owner, ctx, parents, d);
    hide DraftShape, PayloadWrites, ValidString;
    assert [g][1..] == [];
    assert AllDrafts([g]) == [d] + AllDrafts([]);
    assert LocalIDs([d]) == [] + LocalIDs([d][1..]);
    assert LocalIDs([d]) == [];
    assert AllOwners([g]) == Repeat(owner, 1) + AllOwners([]);
    assert Repeat(owner, 1) == [owner] + Repeat(owner, 0);
  }

  lemma DraftJsonWrites(k: Kernel, d: RecordDraft)
    requires IsPlainDraft(k, d)
    ensures Write(AsciiEncoder(k), DraftJson(d)).Ok?
  {
    var e, v := AsciiEncoder(k), DraftJson(d);
    DraftFields(d);
    hide Write, Strings, DraftJson, ValidString;
    DraftKeys(d);
    DraftNames();
    RecordNames();
    KernelNames();
    NothingWrites(e);
    if d.payload.Some? { FlavoursWrite(k, Obj(d.payload.value)); }
    StringsWrite(e, []);
    TextWrites(e, d.kindLabel);
    TextWrites(e, d.mode);
    TextWrites(e, d.schemaRef);
    MembersWritable(e, v);
  }

  lemma PrintedIsText(ctx: Option<RetainedContext>)
    requires ctx.Some? ==> IsTextContext(ctx.value) && ValidString(ctx.value.contextID)
    ensures IsTextContext(PrintedContext(ctx))
    ensures ReuseJson(ctx) == Null || (ctx.Some? && ReuseJson(ctx) == Str(ctx.value.contextID))
  {
    hide ValidString;
    KernelNames();
  }

  lemma ContextDraftWrites(e: Encoder, ctx: Option<RetainedContext>)
    requires ctx.Some? ==> IsTextContext(ctx.value) && ValidString(ctx.value.contextID)
    ensures Write(e, ContextDraftJson(ctx)).Ok?
  {
    var c := PrintedContext(ctx);
    ContextFields(ctx);
    hide Write, Strings, ContextDraftJson, IsReuse, PrintedContext, ReuseJson, ValidString;
    PrintedIsText(ctx);
    ContextDraftKeys(ctx);
    ListNames();
    WitnessNames();
    NothingWrites(e);
    StringsWrite(e, c.activeBindings);
    StringsWrite(e, c.capabilityWitnesses);
    StringsWrite(e, c.semanticEnvironments);
    StringsWrite(e, c.visibilityPolicies);
    TextWrites(e, c.substrate);
    TextWrites(e, c.containment);
    if ctx.Some? { TextWrites(e, ctx.value.contextID); }
    MembersWritable(e, ContextDraftJson(ctx));
  }

  lemma GroupWrites(k: Kernel, owner: Bytes, ctx: Option<RetainedContext>, parents: seq<Bytes>, d: RecordDraft)
    requires IsPlainDraft(k, d) && ValidString(owner) && AreTexts(parents)
    requires ctx.Some? ==> IsTextContext(ctx.value) && ValidString(ctx.value.contextID)
    ensures Write(AsciiEncoder(k), GroupJson(OneGroup(owner, ctx, parents, d))).Ok?
  {
    var e, g := AsciiEncoder(k), OneGroup(owner, ctx, parents, d);
    hide Write, Strings, GroupJson, IsPlainDraft, ValidString, IsTextContext, DraftJson, ContextDraftJson, AreTexts;
    assert DraftsJson(g.drafts) == [DraftJson(d)];
    GroupFields(g);
    GroupKeys(g);
    GroupNames();
    DraftJsonWrites(k, d);
    ArrayWrites(e, [DraftJson(d)]);
    ContextDraftWrites(e, ctx);
    StringsWrite(e, parents);
    TextWrites(e, owner);
    MembersWritable(e, GroupJson(g));
  }

  lemma OneFactHasDigest(k: Kernel, op: OperationContext, intent: Bytes, owner: Bytes, ctx: Option<RetainedContext>,
                         parents: seq<Bytes>, d: RecordDraft)
    requires IsPlainDraft(k, d) && ValidString(intent) && ValidString(owner) && AreTexts(parents) && IsTextOperation(op)
    requires ctx.Some? ==> IsTextContext(ctx.value) && ValidString(ctx.value.contextID)
    ensures BatchDigest(k, OneFact(intent, owner, ctx, parents, d), op).Ok?
  {
    var e, batch := AsciiEncoder(k), OneFact(intent, owner, ctx, parents, d);
    var g := OneGroup(owner, ctx, parents, d);
    hide Write, BatchJson, IsPlainDraft, ValidString, IsTextContext, GroupJson, AreTexts;
    assert GroupsJson(batch.groups) == [GroupJson(g)];
    BatchFields(batch, op);
    BatchKeys(batch, op);
    BatchNames();
    WitnessNames();
    GroupWrites(k, owner, ctx, parents, d);
    ArrayWrites(e, [GroupJson(g)]);
    TextWrites(e, intent);
    TextWrites(e, "atomic");
    TextWrites(e, op.actor);
    TextWrites(e, op.schemaEnvironment);
    MembersWritable(e, BatchJson(batch, op));
  }

  // ---- Staging and committing ----------------------------------------------

  /** The context and the witness the group gets */
  predicate Resolves(k: Kernel, db: DB, op: OperationContext, intent: Bytes, ctx: Option<RetainedContext>,
                     c: RetainedContext, plan: WitnessPlan)
  {
    ResolveGroupContext(k, db, intent, 0, ctx, op) == Ok(c) && OrdinaryWitnessPlan(k, c, op) == Ok(plan)
  }

  predicate IsFactID(k: Kernel, plan: WitnessPlan, parents: seq<Bytes>, d: RecordDraft, id: Bytes) {
    RecordDigest(k, d.schemaRef, d.mode, d.payload, parents, plan.recordID) == Ok(id)
  }

  function OneStaging(k: Kernel, db: DB, intent: Bytes, g: AppendGroup, c: RetainedContext, plan: WitnessPlan,
                      d: RecordDraft, id: Bytes): Staging
  {
    Staging([FactOf(id, d, g.causalParents, g, c, plan, intent)], if c.contextID in db.contexts then [] else [c],
            AddPlan(AddPlan([], RootWitnessPlan(k)), plan), map[], [c.contextID])
  }

  lemma OneDraftStages(k: Kernel, db: DB, intent: Bytes, g: AppendGroup, c: RetainedContext, plan: WitnessPlan,
                       d: RecordDraft, id: Bytes, st: Staging)
    requires d.localID == "" && d.causedBy == [] && d.causedByLocal == []
    requires Distinct(g.causalParents) && (forall p :: p in g.causalParents ==> p in db.records)
    requires IsFactID(k, plan, g.causalParents, d, id)
    ensures StageDrafts(k, db, intent, g, c, plan, [d], st) ==
            Ok(st.(facts := st.facts + [FactOf(id, d, g.causalParents, g, c, plan, intent)]))
  {
    hide RecordDigest, FactOf;
    assert g.causalParents + d.causedBy + [] == g.causalParents;
    assert ResolvedCauses(g, d, st.locals) == Ok(g.causalParents);
    var st1 := st.(facts := st.facts + [FactOf(id, d, g.causalParents, g, c, plan, intent)]);
    assert StageDraft(k, db, intent, g, c, plan, d, st) == Ok(st1);
    assert [d][1..] == [];
    assert StageDrafts(k, db, intent, g, c, plan, [], st1) == Ok(st1);
  }

  lemma OneFactStages(k: Kernel, db: DB, op: OperationContext, intent: Bytes, owner: Bytes, ctx: Option<RetainedContext>,
                      parents: seq<Bytes>, d: RecordDraft, c: RetainedContext, plan: WitnessPlan, id: Bytes)
    requires d.localID == "" && d.causedBy == [] && d.causedByLocal == []
    requires Distinct(parents) && (forall p :: p in parents ==> p in db.records)
    requires Resolves(k, db, op, intent, ctx, c, plan) && IsFactID(k, plan, parents, d, id)
    ensures Stage(k, db, op, OneFact(intent, owner, ctx, parents, d)) ==
            Ok(OneStaging(k, db, intent, OneGroup(owner, ctx, parents, d), c, plan, d, id))
  {
    var g := OneGroup(owner, ctx, parents, d);
    assert g.causalParents == parents && g.context == ctx && g.drafts == [d];
    assert OneFact(intent, owner, ctx, parents, d) == AppendBatch(intent, [g]);
    hide *;
    var begun, st := OpenGroup(k, db, c, plan, NOTHING), OneStaging(k, db, intent, g, c, plan, d, id);
    OneDraftStages(k, db, intent, g, c, plan, d, id, begun);
    OpenedStaging(k, db, intent, g, c, plan, d, id);
    OneGroupStages(k, db, op, intent, g, c, plan, d, st);
    OneBatchStages(k, db, op, intent, g, st);
  }

  lemma OpenedStaging(k: Kernel, db: DB, intent: Bytes, g: AppendGroup, c: RetainedContext, plan: WitnessPlan,
                      d: RecordDraft, id: Bytes)
    ensures var begun, f := OpenGroup(k, db, c, plan, NOTHING), FactOf(id, d, g.causalParents, g, c, plan, intent);
            begun.(facts := begun.facts + [f]) == OneStaging(k, db, intent, g, c, plan, d, id)
  {
    hide FactOf, AddPlan;
  }

  lemma OneGroupStages(k: Kernel, db: DB, op: OperationContext, intent: Bytes, g: AppendGroup, c: RetainedContext,
                       plan: WitnessPlan, d: RecordDraft, st: Staging)
    requires g.drafts == [d] && Resolves(k, db, op, intent, g.context, c, plan)
    requires StageDrafts(k, db, intent, g, c, plan, [d], OpenGroup(k, db, c, plan, NOTHING)) == Ok(st)
    ensures StageGroup(k, db, op, intent, 0, g, NOTHING) == Ok(st)
  {
    hide StageDrafts, OpenGroup, ResolveGroupContext, OrdinaryWitnessPlan;
  }

  lemma OneBatchStages(k: Kernel, db: DB, op: OperationContext, intent: Bytes, g: AppendGroup, st: Staging)
    requires StageGroup(k, db, op, intent, 0, g, NOTHING) == Ok(st)
    ensures Stage(k, db, op, AppendBatch(intent, [g])) == Ok(st)
  {
    hide StageGroup;
    assert [g][1..] == [];
    assert StageGroups(k, db, op, intent, 1, [], st) == Ok(st);
  }

  lemma OneStagingSays(k: Kernel, db: DB, intent: Bytes, g: AppendGroup, c: RetainedContext, plan: WitnessPlan,
                       d: RecordDraft, id: Bytes)
    ensures var st := OneStaging(k, db, intent, g, c, plan, d, id);
            && |st.facts| == 1 && st.facts[0].id == id && st.facts[0].owner == g.owner
            && st.facts[0].row.body == StoredBody(d.payload)
            && AreNew(db.contexts.Keys, st.contexts)
            && (AllRetained(db.records, st.plans) ==> RootWitnessID(k) in db.records)
  {
    var st := OneStaging(k, db, intent, g, c, plan, d, id);
    hide StoredBody;
    RootIsPlanned(k, plan);
  }

  lemma RootIsPlanned(k: Kernel, plan: WitnessPlan)
    ensures var plans := AddPlan(AddPlan([], RootWitnessPlan(k)), plan); plans != [] && plans[0] in plans
    ensures AddPlan(AddPlan([], RootWitnessPlan(k)), plan)[0].recordID == RootWitnessID(k)
  {
    hide RootWitnessID;
    var root := RootWitnessPlan(k);
    assert AddPlan([], root) == [root];
  }

  /** Off the witness path, one staged fact commits exactly when its stored body agrees with what is retained. */
  lemma OneFactCommits(k: Kernel, db: DB, op: OperationContext, intent: Bytes, owner: Bytes, ctx: Option<RetainedContext>,
                       parents: seq<Bytes>, d: RecordDraft, c: RetainedContext, plan: WitnessPlan, id: Bytes)
    requires CollisionFree(k) && StoreInv(k, db) && AllAddressed(k, db.records) && intent !in db.intents
    requires intent != "" && owner != "" && owner != WITNESS_OWNER && IsPlainDraft(k, d)
    requires BatchDigest(k, OneFact(intent, owner, ctx, parents, d), op).Ok?
    requires Distinct(parents) && (forall p :: p in parents ==> p in db.records)
    requires Resolves(k, db, op, intent, ctx, c, plan) && IsFactID(k, plan, parents, d, id)
    ensures AppendTx(k, db, op, OneFact(intent, owner, ctx, parents, d)).Ok? <==>
              (id in db.records ==> db.records[id].body == StoredBody(d.payload))
  {
    var batch := OneFact(intent, owner, ctx, parents, d);
    var st := OneStaging(k, db, intent, OneGroup(owner, ctx, parents, d), c, plan, d, id);
    assert batch.intent == intent;
    hide *;
    PlainSays(k, d);
    OneFactHasShape(k, intent, owner, ctx, parents, d);
    OneFactStages(k, db, op, intent, owner, ctx, parents, d, c, plan, id);
    OneStagingSays(k, db, intent, OneGroup(owner, ctx, parents, d), c, plan, d, id);
    GroupOwner(owner, ctx, parents, d);
    CommitsExactlyIn(k, db, op, batch, st);
    OffWitnessPath(db, batch, st, owner);
    OneBodyAgrees(db, st.facts);
  }

  lemma OffWitnessPath(db: DB, batch: AppendBatch, st: Staging, owner: Bytes)
    requires AllOwners(batch.groups) == [owner] && owner != WITNESS_OWNER
    ensures WitnessPathFree(db, batch, st)
  {
  }

  lemma GroupOwner(owner: Bytes, ctx: Option<RetainedContext>, parents: seq<Bytes>, d: RecordDraft)
    ensures OneGroup(owner, ctx, parents, d).owner == owner
  {
  }

  lemma OneBodyAgrees(db: DB, facts: seq<Fact>)
    requires |facts| == 1
    ensures BodiesAgree(db, facts) <==>
              (facts[0].id in db.records ==> db.records[facts[0].id].body == facts[0].row.body)
  {
  }

  /** What one committed fact leaves: its record, its entry at the owner's next place, and its context. */
  lemma OneFactLeaves(k: Kernel, db: DB, op: OperationContext, intent: Bytes, owner: Bytes, ctx: Option<RetainedContext>,
                      parents: seq<Bytes>, d: RecordDraft, c: RetainedContext, plan: WitnessPlan, id: Bytes, db': DB,
                      receipt: AppendReceipt)
    requires StoreInv(k, db) && AllAddressed(k, db.records) && intent !in db.intents
    requires intent != "" && owner != "" && IsPlainDraft(k, d)
    requires Distinct(parents) && (forall p :: p in parents ==> p in db.records)
    requires Resolves(k, db, op, intent, ctx, c, plan) && IsFactID(k, plan, parents, d, id)
    requires AppendTx(k, db, op, OneFact(intent, owner, ctx, parents, d)) == Ok((db', receipt, true))
    ensures StoreInv(k, db') && AllAddressed(k, db'.records) && Grows(db, db') && receipt.factIDs == [id]
    ensures var place: Place := (owner, Next(db, owner));
            && place in db'.paths && db'.paths[place].recordID == id
            && id in db'.records && db'.records[id].body == StoredBody(d.payload)
            && db'.records[id].schemaRef == d.schemaRef
    ensures db'.intents.Keys == db.intents.Keys + {intent} && db'.frontiers == db.frontiers
    ensures db'.contexts == if c.contextID in db.contexts then db.contexts else db.contexts[c.contextID := c]
  {
    var batch := OneFact(intent, owner, ctx, parents, d);
    var st := OneStaging(k, db, intent, OneGroup(owner, ctx, parents, d), c, plan, d, id);
    assert batch.intent == intent;
    hide *;
    PlainSays(k, d);
    OneFactHasShape(k, intent, owner, ctx, parents, d);
    OneFactStages(k, db, op, intent, owner, ctx, parents, d, c, plan, id);
    AppendIsAddressed(k, db, op, batch, db', receipt, true);
    var digest, st1 := Runs.AppendCases(k, db, op, batch, db', receipt, true);
    CommitKeeps(k, db, op, batch, digest, st, db');
    KeysAdded(db.intents, intent, IntentRow(digest, ReceiptFor(db, intent, st)));
    CommitParts(k, db', batch, op, db'.intents[intent], db.nextCommit, PlacesOfFacts(db, st.facts));
    OnePlace(k, db, intent, OneGroup(owner, ctx, parents, d), c, plan, d, id);
    GroupOwner(owner, ctx, parents, d);
    IntentRowIs(digest, ReceiptFor(db, intent, st));
    RetainedAs(db', intent, owner, d, id, PlacesOfFacts(db, st.facts)[0], db.nextCommit);
    CommitInserts(db, intent, digest, st, db');
    ContextsAfter(k, db, op, batch, IntentRow(digest, ReceiptFor(db, intent, st)), st, db');
    OneContext(db, intent, IntentRow(digest, ReceiptFor(db, intent, st)),
               OneStaging(k, db, intent, OneGroup(owner, ctx, parents, d), c, plan, d, id), c);
  }

  lemma KeysAdded<K, V>(m: map<K, V>, key: K, v: V)
    ensures m[key := v].Keys == m.Keys + {key}
  {
  }

  lemma IntentRowIs(digest: Bytes, receipt: AppendReceipt)
    ensures IntentRow(digest, receipt).receipt == receipt
  {
  }

  lemma OnePlace(k: Kernel, db: DB, intent: Bytes, g: AppendGroup, c: RetainedContext, plan: WitnessPlan, d: RecordDraft,
                 id: Bytes)
    ensures var st := OneStaging(k, db, intent, g, c, plan, d, id);
            && PlacesOfFacts(db, st.facts) == [(g.owner, Next(db, g.owner))]
            && ReceiptFor(db, intent, st).factIDs == [id]
            && st.contexts == if c.contextID in db.contexts then [] else [c]
  {
    var f := FactOf(id, d, g.causalParents, g, c, plan, intent);
    assert f.id == id && f.owner == g.owner;
    OneStagingIs(k, db, intent, g, c, plan, d, id);
    hide OneStaging, FactOf, AddPlan;
    PlaceOfOne(db, f);
    IDsOfOne(db, intent, OneStaging(k, db, intent, g, c, plan, d, id), f);
  }

  lemma OneStagingIs(k: Kernel, db: DB, intent: Bytes, g: AppendGroup, c: RetainedContext, plan: WitnessPlan,
                     d: RecordDraft, id: Bytes)
    ensures var st := OneStaging(k, db, intent, g, c, plan, d, id);
            && st.facts == [FactOf(id, d, g.causalParents, g, c, plan, intent)]
            && st.contexts == if c.contextID in db.contexts then [] else [c]
  {
    hide FactOf, AddPlan;
  }

  lemma PlaceOfOne(db: DB, f: Fact)
    ensures PlacesOfFacts(db, [f]) == [(f.owner, Next(db, f.owner))]
  {
    hide Next;
    assert [f][..0] == [];
    assert PlaceOf(db, [f], 0) == (f.owner, Next(db, f.owner));
  }

  lemma IDsOfOne(db: DB, intent: Bytes, st: Staging, f: Fact)
    requires st.facts == [f]
    ensures ReceiptFor(db, intent, st).factIDs == [f.id]
  {
    hide OwnerRanges, CausalEdges, CommitReceipts;
    assert StagedIDs([f]) == [f.id];
  }

  lemma RetainedAs(db: DB, intent: Bytes, owner: Bytes, d: RecordDraft, id: Bytes, place: Place, number: nat)
    requires DraftRetained(db, intent, owner, d, id, place, number)
    ensures place in db.paths && db.paths[place].recordID == id
    ensures id in db.records && db.records[id].body == StoredBody(d.payload) && db.records[id].schemaRef == d.schemaRef
  {
  }

  /** Only contexts that were staged are added. */
  lemma ContextsAfter(k: Kernel, base: DB, op: OperationContext, batch: AppendBatch, row: IntentRow, st: Staging, db': DB)
    requires StoreInv(k, base) && batch.intent !in base.intents && Stage(k, base, op, batch) == Ok(st)
    requires InsertAll(base, batch.intent, row, st) == Ok(db')
    ensures var r := InsertContexts(base.(intents := base.intents[batch.intent := row]), st.contexts);
            r.Ok? && db'.contexts == r.value.contexts
  {
    hide *;
    var db1, start, db3 := InsertAllSteps(base, batch.intent, row, st, db');
    ContextIds(k, base);
    StageEstablishes(k, base, op, batch, st);
    StagedCauses(k, base, batch.intent, AllDrafts(batch.groups), AllOwners(batch.groups), st);
    StartsAtBase(k, base);
    PrepareStart(base, batch.intent, row, st.contexts, st.plans, db1, start);
    StartTables(k, base, batch.intent, row, st.contexts, db1);
    InsertWitnessesKeeps(db1, st.plans, batch.intent, start);
    FactsInserted(base, start, st.facts, batch.intent, db3);
    FactsKeepContexts(base, start, db3, st.facts, batch.intent);
  }

  lemma FactsKeepContexts(base: DB, start: DB, db3: DB, facts: seq<Fact>, intent: Bytes)
    requires Inserted(base, start, db3, facts, |facts|, intent)
    ensures Advance(base, db3, facts).contexts == start.contexts
  {
  }

  lemma OneContext(db: DB, intent: Bytes, row: IntentRow, st: Staging, c: RetainedContext)
    requires st.contexts == if c.contextID in db.contexts then [] else [c]
    ensures var r := InsertContexts(db.(intents := db.intents[intent := row]), st.contexts);
            r.Ok? && r.value.contexts == if c.contextID in db.contexts then db.contexts
                                         else db.contexts[c.contextID := c]
  {
    if c.contextID !in db.contexts { assert [c][1..] == []; }
  }

  lemma BatchIntent(intent: Bytes, owner: Bytes, ctx: Option<RetainedContext>, parents: seq<Bytes>, d: RecordDraft)
    ensures OneFact(intent, owner, ctx, parents, d).intent == intent
  {
  }

  lemma {:induction false} WitnessesAdded(records: map<Bytes, RecordRow>, plans: seq<WitnessPlan>, intent: Bytes)
    ensures var after := WithWitnesses(records, plans, intent);
            (forall x :: x in records ==> x in after && after[x] == records[x])
            && (forall x :: x in after && x !in records ==> after[x].causedBy == [])
    decreases |plans|
  {
    if plans != [] { WitnessesAdded(WithWitness(records, plans[0], intent), plans[1..], intent); }
  }

  lemma FactsAdded(base: DB, start: DB, db3: DB, f: Fact, intent: Bytes)
    requires Inserted(base, start, db3, [f], 1, intent)
    ensures var after := Advance(base, db3, [f]).records;
            forall x :: x in after ==>
              (x in start.records && after[x] == start.records[x]) || after[x].causedBy == f.row.causedBy
  {
    RecordsAfterAre(start, [f], 1);
  }

  lemma OtherCounter(base: DB, start: DB, db3: DB, f: Fact, intent: Bytes, o: Bytes)
    requires IsStart(base, start) && Inserted(base, start, db3, [f], 1, intent) && o != f.owner
    ensures Next(Advance(base, db3, [f]), o) == Next(start, o)
  {
    StartNumbering(base, start);
    CountedOwner(base, start, [f], o);
    CountZero([f], o);
    AdvanceMoves(base, start, db3, [f], o);
  }

  lemma FactCauses(id: Bytes, d: RecordDraft, g: AppendGroup, c: RetainedContext, plan: WitnessPlan, intent: Bytes)
    ensures var f := FactOf(id, d, g.causalParents, g, c, plan, intent);
            f.row.causedBy == g.causalParents && f.owner == g.owner
  {
  }

  lemma GroupParents(owner: Bytes, ctx: Option<RetainedContext>, parents: seq<Bytes>, d: RecordDraft)
    ensures OneGroup(owner, ctx, parents, d).causalParents == parents
  {
  }

  lemma OneFactAllLeft(k: Kernel, db: DB, op: OperationContext, intent: Bytes, owner: Bytes, ctx: Option<RetainedContext>,
                       parents: seq<Bytes>, d: RecordDraft, c: RetainedContext, plan: WitnessPlan, id: Bytes,
                       row: IntentRow, db': DB)
    requires StoreInv(k, db) && intent !in db.intents && IsPlainDraft(k, d) && intent != "" && owner != ""
    requires var st := OneStaging(k, db, intent, OneGroup(owner, ctx, parents, d), c, plan, d, id);
             Stage(k, db, op, OneFact(intent, owner, ctx, parents, d)) == Ok(st) && InsertAll(db, intent, row, st) == Ok(db')
    ensures forall o :: o != owner && o != WITNESS_OWNER ==> Next(db', o) == Next(db, o)
    ensures forall x :: x in db'.records && x !in db.records ==>
                        db'.records[x].causedBy == [] || db'.records[x].causedBy == parents
  {
    var batch := OneFact(intent, owner, ctx, parents, d);
    var g := OneGroup(owner, ctx, parents, d);
    var st := OneStaging(k, db, intent, g, c, plan, d, id);
    var f := FactOf(id, d, g.causalParents, g, c, plan, intent);
    hide *;
    BatchIntent(intent, owner, ctx, parents, d);
    OneStagingIs(k, db, intent, g, c, plan, d, id);
    FactCauses(id, d, g, c, plan, intent);
    GroupParents(owner, ctx, parents, d);
    GroupOwner(owner, ctx, parents, d);
    var db1, start, db3 := InsertAllSteps(db, intent, row, st, db');
    ContextIds(k, db);
    StageEstablishes(k, db, op, batch, st);
    StagedCauses(k, db, intent, AllDrafts(batch.groups), AllOwners(batch.groups), st);
    StartsAtBase(k, db);
    PrepareStart(db, intent, row, st.contexts, st.plans, db1, start);
    ContextsLeave(k, db, intent, row, st.contexts, db1);
    PlansAreDistinct(k, db, op, batch, st);
    WitnessesInsert(db1, st.plans, intent);
    WitnessesAdded(db1.records, st.plans, intent);
    CountersMoved(db, db1, st.plans, intent, start);
    FactsInserted(db, start, st.facts, intent, db3);
    FactsAdded(db, start, db3, f, intent);
    forall o | o != owner && o != WITNESS_OWNER ensures Next(db', o) == Next(db, o) {
      OtherCounter(db, start, db3, f, intent, o);
    }
  }

  /** Nothing else changes but for the witnesses: other owners' counters stay, and new records cite the parents or nothing. */
  lemma OneFactLeavesRest(k: Kernel, db: DB, op: OperationContext, intent: Bytes, owner: Bytes,
                          ctx: Option<RetainedContext>, parents: seq<Bytes>, d: RecordDraft, c: RetainedContext,
                          plan: WitnessPlan, id: Bytes, db': DB, receipt: AppendReceipt)
    requires StoreInv(k, db) && intent !in db.intents && intent != "" && owner != "" && IsPlainDraft(k, d)
    requires Distinct(parents) && (forall p :: p in parents ==> p in db.records)
    requires Resolves(k, db, op, intent, ctx, c, plan) && IsFactID(k, plan, parents, d, id)
    requires AppendTx(k, db, op, OneFact(intent, owner, ctx, parents, d)) == Ok((db', receipt, true))
    ensures forall o :: o != owner && o != WITNESS_OWNER ==> Next(db', o) == Next(db, o)
    ensures forall x :: x in db'.records && x !in db.records ==>
                        db'.records[x].causedBy == [] || db'.records[x].causedBy == parents
  {
    var batch := OneFact(intent, owner, ctx, parents, d);
    assert batch.intent == intent;
    hide *;
    PlainSays(k, d);
    OneFactStages(k, db, op, intent, owner, ctx, parents, d, c, plan, id);
    var digest, st := Runs.AppendCases(k, db, op, batch, db', receipt, true);
    CommitInserts(db, intent, digest, st, db');
    OneFactAllLeft(k, db, op, intent, owner, ctx, parents, d, c, plan, id, IntentRow(digest, ReceiptFor(db, intent, st)), db');
  }

  // ---- Contexts ------------------------------------------------------------

  /** The id a context that is not reused would get */
  function FreshID(k: Kernel, intent: Bytes, ctx: Option<RetainedContext>, op: OperationContext): Result<Bytes> {
    ContextIDFor(k, intent, 0, ContextPayload(DraftOf(ctx), op))
  }

  lemma PayloadIsText(ctx: Option<RetainedContext>, op: OperationContext)
    requires ctx.Some? ==> IsTextContext(ctx.value)
    requires IsTextOperation(op)
    ensures IsTextContext(ContextPayload(DraftOf(ctx), op))
  {
    hide ValidString;
    KernelNames();
    Slices.DeduplicateContents(DraftOf(ctx).semanticEnvironments + [op.schemaEnvironment]);
  }

  lemma FreshIDExists(k: Kernel, intent: Bytes, ctx: Option<RetainedContext>, op: OperationContext)
    requires HexDigits(k) && IsTextOperation(op) && (ctx.Some? ==> IsTextContext(ctx.value))
    ensures FreshID(k, intent, ctx, op).Ok? && ValidString(FreshID(k, intent, ctx, op).value)
    ensures FreshID(k, intent, ctx, op).value != ""
  {
    var payload := ContextPayload(DraftOf(ctx), op);
    hide ValidString, HexDigits, IsTextContext, ContextPayload, ContextInput, Write;
    PayloadIsText(ctx, op);
    ContextInputWrites(AsciiEncoder(k), payload);
    var s := ContextPreimage(intent, 0, Write(AsciiEncoder(k), ContextInput(payload)).value);
    SchemeIsAscii();
    HexIsText(k, s, "context:", 32);
  }

  /** A group whose context is not retained gets a fresh one, and an ordinary witness. */
  lemma FreshResolves(k: Kernel, db: DB, op: OperationContext, intent: Bytes, ctx: Option<RetainedContext>)
      returns (c: RetainedContext, plan: WitnessPlan)
    requires HexDigits(k) && IsTextOperation(op) && (ctx.Some? ==> IsTextContext(ctx.value))
    requires !Reuses(ctx) && IsContainment(DraftOf(ctx).containment) && DraftOf(ctx).substrate != ""
    requires FreshID(k, intent, ctx, op).Ok? ==> FreshID(k, intent, ctx, op).value !in db.contexts
    ensures Resolves(k, db, op, intent, ctx, c, plan)
    ensures FreshID(k, intent, ctx, op) == Ok(c.contextID) && c.contextID !in db.contexts && c.contextID != ""
    ensures IsTextContext(c) && ValidString(c.contextID)
    ensures ValidString(plan.recordID) && "sha256:" <= plan.recordID
  {
    hide ValidString, HexDigits, RecordDigest, WitnessBody, RootWitnessID, ContextIDFor, IsReuse, OrdinaryWitnessPlan, Write;
    FreshIDExists(k, intent, ctx, op);
    PayloadIsText(ctx, op);
    var payload := ContextPayload(DraftOf(ctx), op);
    c := payload.(contextID := FreshID(k, intent, ctx, op).value);
    PlanExists(k, c, op);
    plan := OrdinaryWitnessPlan(k, c, op).value;
    hide ContextPayload, Deduplicate, IsContainment;
    BatchStaging.ResolvesPayload(k, db, intent, 0, ctx, op);
  }

  /** Asks for a retained context by its id. */
  function ReuseOf(c: RetainedContext): RetainedContext { RetainedContext(c.contextID, [], [], [], [], "", "") }

  lemma ReuseResolves(k: Kernel, db: DB, db': DB, op: OperationContext, intent: Bytes, intent2: Bytes,
                      ctx: Option<RetainedContext>, c: RetainedContext, plan: WitnessPlan)
    requires Resolves(k, db, op, intent, ctx, c, plan) && c.contextID != ""
    requires c.contextID in db'.contexts && db'.contexts[c.contextID] == c
    ensures Resolves(k, db', op, intent2, Some(ReuseOf(c)), c, plan)
    ensures ValidString(c.contextID) ==> IsTextContext(ReuseOf(c)) && ValidString(ReuseOf(c).contextID)
  {
    hide OrdinaryWitnessPlan, ContextIDFor;
    AsciiIsValid("");
  }

  lemma FactIDExists(k: Kernel, plan: WitnessPlan, parents: seq<Bytes>, d: RecordDraft) returns (id: Bytes)
    requires HexDigits(k) && IsPlainDraft(k, d) && AreTexts(parents)
    requires ValidString(plan.recordID) && "sha256:" <= plan.recordID
    ensures IsFactID(k, plan, parents, d, id) && ValidString(id) && id != ""
  {
    hide ValidString, HexDigits, RecordDigest, PayloadWrites;
    KernelNames();
    RecordHasDigest(k, d.schemaRef, d.mode, d.payload, parents, plan.recordID);
    id := RecordDigest(k, d.schemaRef, d.mode, d.payload, parents, plan.recordID).value;
  }
}
