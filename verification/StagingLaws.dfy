/**
  * What prepareAppend guarantees about the facts, contexts and witness plans it stages: where each of them comes
  * from, and which of them are known before the first row is inserted.
  */
module StagingLaws {
  import opened Wrappers
  import opened Seqs
  import opened Utf8
  import opened Canonical
  import opened CanonicalLaws
  import opened Trace
  import opened Digests
  import opened Tables
  import opened Append
  import opened Invariant

  // ---- The root witness ----------------------------------------------------

  predicate IsAscii(s: Bytes) { forall i :: 0 <= i < |s| ==> s[i] as int < 0x80 }

  lemma AsciiText(e: Encoder, s: Bytes)
    requires IsAscii(s)
    ensures Write(e, Str(s)).Ok? && WriteString(e, s).Ok?
  {
    AsciiIsValid(s);
  }

  lemma {:induction false} MembersText(e: Encoder, v: Json, keys: seq<Bytes>)
    requires v.Obj? && forall k :: k in keys ==> k in v.fields
    requires forall k :: k in keys ==> WriteString(e, k).Ok? && Write(e, v.fields[k]).Ok?
    ensures WriteMembers(e, v, keys).Ok?
    decreases |keys|
  {
    if |keys| > 1 { MembersText(e, v, keys[1..]); }
  }

  lemma ObjectText(e: Encoder, fields: map<Bytes, Json>)
    requires forall k :: k in fields ==> WriteString(e, k).Ok? && Write(e, fields[k]).Ok?
    ensures Write(e, Obj(fields)).Ok?
  {
    MembersText(e, Obj(fields), SortedKeys(fields.Keys));
  }

  /** An ASCII string or an empty list */
  predicate IsPlain(v: Json) { v == Arr([]) || (v.Str? && IsAscii(v.s)) }

  lemma PlainObjectText(e: Encoder, fields: map<Bytes, Json>)
    requires forall k :: k in fields ==> IsAscii(k) && (IsPlain(fields[k]) || Write(e, fields[k]).Ok?)
    ensures Write(e, Obj(fields)).Ok?
  {
    assert Write(e, Arr([])).Ok?;
    forall k | k in fields ensures WriteString(e, k).Ok? && Write(e, fields[k]).Ok? {
      AsciiText(e, k);
      if fields[k].Str? && IsPlain(fields[k]) { AsciiText(e, fields[k].s); }
    }
    ObjectText(e, fields);
  }

  lemma RootBodyKeys()
    ensures forall k :: k in RootWitnessBody() ==> IsAscii(k)
  {
    assert IsAscii("active_binding_refs") && IsAscii("actor_ref") && IsAscii("authority_refs");
    assert IsAscii("containment") && IsAscii("provenance_policy_refs") && IsAscii("semantic_environment_refs");
    assert IsAscii("substrate_ref") && IsAscii("visibility_policy_refs");
  }

  lemma RootBodyValues()
    ensures forall k :: k in RootWitnessBody() ==> IsPlain(RootWitnessBody()[k])
  {
  }

  lemma RecordInputKeys(schemaRef: Bytes, mode: Bytes, body: Body, causedBy: seq<Bytes>, witnessRef: Bytes)
    ensures forall k :: k in RecordInput(schemaRef, mode, body, causedBy, witnessRef).fields ==> IsAscii(k)
  {
  }

  lemma RootInputValues()
    ensures var fields := RecordInput(ROOT_WITNESS_SCHEMA, CAPTURE, Some(RootWitnessBody()), [], "").fields;
            forall k :: k in fields ==> IsPlain(fields[k]) || fields[k] == Obj(RootWitnessBody())
  {
    assert Strings([]) == Arr([]);
  }

  lemma RootInputText(e: Encoder)
    ensures Write(e, RecordInput(ROOT_WITNESS_SCHEMA, CAPTURE, Some(RootWitnessBody()), [], "")).Ok?
  {
    RootBodyKeys();
    RootBodyValues();
    PlainObjectText(e, RootWitnessBody());
    RecordInputKeys(ROOT_WITNESS_SCHEMA, CAPTURE, Some(RootWitnessBody()), [], "");
    RootInputValues();
    PlainObjectText(e, RecordInput(ROOT_WITNESS_SCHEMA, CAPTURE, Some(RootWitnessBody()), [], "").fields);
  }

  /** The root witness record always has an id, so the package can be initialised. */
  lemma RootWitnessExists(k: Kernel)
    ensures RecordDigest(k, ROOT_WITNESS_SCHEMA, CAPTURE, Some(RootWitnessBody()), [], "") == Ok(RootWitnessID(k))
    ensures RootWitnessID(k) != "" && IsWitnessRef(RootWitnessID(k))
  {
    RootInputText(Utf8Encoder(k));
  }

  /** No ordinary witness digests to the root witness's id. */
  ghost predicate RootIsDistinct(k: Kernel) {
    forall ctx, op :: OrdinaryWitnessPlan(k, ctx, op).Ok? ==>
                        OrdinaryWitnessPlan(k, ctx, op).value.recordID != RootWitnessID(k)
  }

  /** Under collision freedom, equal digests are equal values. */
  lemma SameDigestSameMeaning(k: Kernel, a: Json, b: Json)
    requires CollisionFree(k)
    requires CanonicalDigest(k, a).Ok? && CanonicalDigest(k, a) == CanonicalDigest(k, b)
    ensures Meaning(Utf8Encoder(k), a) == Meaning(Utf8Encoder(k), b)
  {
    var e := Utf8Encoder(k);
    var s, t := Write(e, a).value, Write(e, b).value;
    var x, y := k.hash(CANONICAL_PREFIX + s), k.hash(CANONICAL_PREFIX + t);
    assert ("sha256:" + x)[7..] == x && ("sha256:" + y)[7..] == y;
    assert (CANONICAL_PREFIX + s)[|CANONICAL_PREFIX|..] == s;
    assert (CANONICAL_PREFIX + t)[|CANONICAL_PREFIX|..] == t;
    SameTextSameMeaning(e, a, b);
  }

  lemma MemberMeaning(e: Encoder, v: Json, key: Bytes)
    requires v.Obj? && key in v.fields
    ensures Meaning(e, v).VObj? && key in Meaning(e, v).fields
    ensures Meaning(e, v).fields[key] == Meaning(e, v.fields[key])
  {
  }

  lemma InputSchema(e: Encoder, schemaRef: Bytes, mode: Bytes, body: Body, causedBy: seq<Bytes>, witnessRef: Bytes)
    ensures var m := Meaning(e, RecordInput(schemaRef, mode, body, causedBy, witnessRef));
            m.VObj? && "schema_ref" in m.fields && m.fields["schema_ref"] == VStr(schemaRef)
  {
    MemberMeaning(e, RecordInput(schemaRef, mode, body, causedBy, witnessRef), "schema_ref");
  }

  lemma OrdinaryIsNotRoot(k: Kernel, ctx: RetainedContext, op: OperationContext)
    requires CollisionFree(k) && OrdinaryWitnessPlan(k, ctx, op).Ok?
    ensures OrdinaryWitnessPlan(k, ctx, op).value.recordID != RootWitnessID(k)
  {
    RootWitnessExists(k);
    var e := Utf8Encoder(k);
    var body := WitnessBody(ctx, op);
    InputSchema(e, ROOT_WITNESS_SCHEMA, CAPTURE, Some(RootWitnessBody()), [], "");
    InputSchema(e, WITNESS_SCHEMA, CAPTURE, Some(body), [], RootWitnessID(k));
    if OrdinaryWitnessPlan(k, ctx, op).value.recordID == RootWitnessID(k) {
      SameDigestSameMeaning(k, RecordInput(WITNESS_SCHEMA, CAPTURE, Some(body), [], RootWitnessID(k)),
                            RecordInput(ROOT_WITNESS_SCHEMA, CAPTURE, Some(RootWitnessBody()), [], ""));
    }
  }

  /** Without digest collisions the root witness is distinct: its schema is part of the digested text. */
  lemma CollisionFreeRoot(k: Kernel)
    requires CollisionFree(k)
    ensures RootIsDistinct(k)
  {
    forall ctx, op | OrdinaryWitnessPlan(k, ctx, op).Ok?
      ensures OrdinaryWitnessPlan(k, ctx, op).value.recordID != RootWitnessID(k)
    {
      OrdinaryIsNotRoot(k, ctx, op);
    }
  }

  // ---- Staged plans --------------------------------------------------------

  ghost predicate IsOrdinary(k: Kernel, plan: WitnessPlan) {
    && plan.schemaRef == WITNESS_SCHEMA
    && plan.witnessRef == RootWitnessID(k)
    && plan.recordID != RootWitnessID(k)
    && plan.recordID != ""
  }

  /** Staged plans: the root plan first, then ordinary ones */
  ghost predicate PlansStaged(k: Kernel, plans: seq<WitnessPlan>) {
    && (plans != [] ==> plans[0] == RootWitnessPlan(k))
    && (forall p :: p in plans ==> p == RootWitnessPlan(k) || IsOrdinary(k, p))
  }

  ghost predicate HasOrdinary(k: Kernel, plans: seq<WitnessPlan>, id: Bytes) {
    exists p :: p in plans && p.recordID == id && IsOrdinary(k, p)
  }

  lemma OrdinaryPlanIsOrdinary(k: Kernel, ctx: RetainedContext, op: OperationContext)
    requires RootIsDistinct(k) && OrdinaryWitnessPlan(k, ctx, op).Ok?
    ensures IsOrdinary(k, OrdinaryWitnessPlan(k, ctx, op).value)
  {
  }

  lemma {:induction false} AddPlanContents(plans: seq<WitnessPlan>, plan: WitnessPlan)
    ensures plan in AddPlan(plans, plan)
    ensures forall p :: p in AddPlan(plans, plan) ==> p == plan || p in plans
    ensures forall p :: p in plans && p.recordID != plan.recordID ==> p in AddPlan(plans, plan)
    ensures plans != [] && plans[0].recordID != plan.recordID ==> AddPlan(plans, plan)[0] == plans[0]
    ensures plans == [] || plans[0].recordID == plan.recordID ==> AddPlan(plans, plan)[0] == plan
  {
    if plans != [] {
      assert forall p :: p in plans <==> p == plans[0] || p in plans[1..];
      if plans[0].recordID != plan.recordID { AddPlanContents(plans[1..], plan); }
    }
  }

  /** Each witness is planned once. */
  predicate DistinctPlans(plans: seq<WitnessPlan>) {
    forall i, j :: 0 <= i < j < |plans| ==> plans[i].recordID != plans[j].recordID
  }

  lemma {:induction false} AddPlanIDs(plans: seq<WitnessPlan>, plan: WitnessPlan)
    requires DistinctPlans(plans)
    ensures DistinctPlans(AddPlan(plans, plan))
  {
    if plans != [] && plans[0].recordID != plan.recordID {
      var rest, more := plans[1..], AddPlan(plans[1..], plan);
      AddPlanIDs(rest, plan);
      AddPlanContents(rest, plan);
      forall j | 0 <= j < |more| ensures more[j].recordID != plans[0].recordID {
        assert more[j] in more;
        if more[j] in rest {
          var i :| 0 <= i < |rest| && rest[i] == more[j];
          assert plans[i + 1] == more[j];
        }
      }
    }
  }

  lemma AddRootPlan(k: Kernel, plans: seq<WitnessPlan>)
    requires PlansStaged(k, plans)
    ensures PlansStaged(k, AddPlan(plans, RootWitnessPlan(k))) && AddPlan(plans, RootWitnessPlan(k)) != []
    ensures forall id :: HasOrdinary(k, plans, id) ==> HasOrdinary(k, AddPlan(plans, RootWitnessPlan(k)), id)
  {
    AddPlanContents(plans, RootWitnessPlan(k));
  }

  lemma AddOrdinaryPlan(k: Kernel, plans: seq<WitnessPlan>, plan: WitnessPlan)
    requires PlansStaged(k, plans) && plans != [] && IsOrdinary(k, plan)
    ensures PlansStaged(k, AddPlan(plans, plan)) && HasOrdinary(k, AddPlan(plans, plan), plan.recordID)
    ensures forall id :: HasOrdinary(k, plans, id) ==> HasOrdinary(k, AddPlan(plans, plan), id)
  {
    AddPlanContents(plans, plan);
    forall id | HasOrdinary(k, plans, id) ensures HasOrdinary(k, AddPlan(plans, plan), id) {
      var p :| p in plans && p.recordID == id && IsOrdinary(k, p);
      if id != plan.recordID { assert p in AddPlan(plans, plan); }
    }
  }

  // ---- Staged facts --------------------------------------------------------

  /** A staged fact is no root witness and cites an ordinary witness of the batch. */
  ghost predicate FactsWitnessed(k: Kernel, st: Staging) {
    forall f :: f in st.facts ==>
      f.row.schemaRef != ROOT_WITNESS_SCHEMA && HasOrdinary(k, st.plans, f.row.witnessRef)
  }

  /** A staged fact's context is retained or staged. */
  ghost predicate FactsInContext(db: DB, st: Staging) {
    && (forall f :: f in st.facts ==>
          f.contextRef != "" && (f.contextRef in db.contexts || exists c :: c in st.contexts && c.contextID == f.contextRef))
    && (forall c :: c in st.contextReceipts ==> c in db.contexts || exists x :: x in st.contexts && x.contextID == c)
  }

  /** The n-th fact is the n-th draft, resolved. */
  ghost predicate FactsFromDrafts(drafts: seq<RecordDraft>, owners: seq<Bytes>, facts: seq<Fact>, intent: Bytes) {
    && |facts| == |drafts| == |owners|
    && (forall n :: 0 <= n < |facts| ==>
          && facts[n].row.schemaRef == drafts[n].schemaRef
          && facts[n].row.mode == drafts[n].mode
          && facts[n].row.body == StoredBody(drafts[n].payload)
          && facts[n].row.intent == intent
          && facts[n].kindLabel == LabelOf(drafts[n])
          && facts[n].owner == owners[n]
          && facts[n].id != "")
  }

  function Repeat(owner: Bytes, n: nat): seq<Bytes> { if n == 0 then [] else [owner] + Repeat(owner, n - 1) }

  /** The owner of every draft, in order */
  function AllOwners(groups: seq<AppendGroup>): seq<Bytes> {
    if groups == [] then [] else Repeat(groups[0].owner, |groups[0].drafts|) + AllOwners(groups[1..])
  }

  ghost predicate ContextKnown(db: DB, st: Staging, id: Bytes) {
    id in db.contexts || exists c :: c in st.contexts && c.contextID == id
  }

  /** What prepareAppend has established after staging the given drafts */
  ghost predicate IsStaging(k: Kernel, db: DB, intent: Bytes, drafts: seq<RecordDraft>, owners: seq<Bytes>, st: Staging) {
    && CausesStaged(db, st.facts)
    && FactsInContext(db, st)
    && FactsFromDrafts(drafts, owners, st.facts, intent)
    && (RootIsDistinct(k) ==> PlansStaged(k, st.plans) && FactsWitnessed(k, st))
  }

  lemma CausesStagedSnoc(db: DB, facts: seq<Fact>, f: Fact)
    requires CausesStaged(db, facts) && ParentsKnown(db, facts, f.row.causedBy)
    ensures CausesStaged(db, facts + [f])
  {
    var all := facts + [f];
    forall n | 0 <= n < |all| ensures ParentsKnown(db, all[..n], all[n].row.causedBy) {
      if n < |facts| {
        assert all[..n] == facts[..n] && all[n] == facts[n];
        assert ParentsKnown(db, facts[..n], facts[n].row.causedBy);
      } else {
        assert all[..n] == facts;
      }
    }
  }

  /** What staging one draft adds */
  lemma StagedDraft(k: Kernel, db: DB, intent: Bytes, g: AppendGroup, ctx: RetainedContext, plan: WitnessPlan,
                    d: RecordDraft, st: Staging, st': Staging) returns (f: Fact)
    requires StageDraft(k, db, intent, g, ctx, plan, d, st) == Ok(st') && plan.recordID != ""
    ensures st' == st.(facts := st.facts + [f], locals := st'.locals) && ParentsKnown(db, st.facts, f.row.causedBy)
    ensures f.contextRef == ctx.contextID && f.row.witnessRef == plan.recordID
    ensures f.row.schemaRef != ROOT_WITNESS_SCHEMA && FactFromDraft(f, d, g.owner, intent)
  {
    f := st'.facts[|st.facts|];
  }

  ghost predicate FactFromDraft(f: Fact, d: RecordDraft, owner: Bytes, intent: Bytes) {
    && f.row.schemaRef == d.schemaRef && f.row.mode == d.mode && f.row.body == StoredBody(d.payload)
    && f.row.intent == intent && f.kindLabel == LabelOf(d) && f.owner == owner && f.id != ""
  }

  lemma FromDraftsSnoc(drafts: seq<RecordDraft>, owners: seq<Bytes>, facts: seq<Fact>, intent: Bytes, d: RecordDraft,
                       owner: Bytes, f: Fact)
    requires FactsFromDrafts(drafts, owners, facts, intent) && FactFromDraft(f, d, owner, intent)
    ensures FactsFromDrafts(drafts + [d], owners + [owner], facts + [f], intent)
  {
  }

  lemma InContextSnoc(db: DB, st: Staging, f: Fact, locals: map<Bytes, Bytes>)
    requires FactsInContext(db, st) && f.contextRef != "" && ContextKnown(db, st, f.contextRef)
    ensures FactsInContext(db, st.(facts := st.facts + [f], locals := locals))
  {
    assert forall x :: x in st.facts + [f] <==> x in st.facts || x == f;
  }

  lemma WitnessedFactsSnoc(k: Kernel, st: Staging, f: Fact, locals: map<Bytes, Bytes>)
    requires FactsWitnessed(k, st) && f.row.schemaRef != ROOT_WITNESS_SCHEMA && HasOrdinary(k, st.plans, f.row.witnessRef)
    ensures FactsWitnessed(k, st.(facts := st.facts + [f], locals := locals))
  {
    hide HasOrdinary;
    assert forall x :: x in st.facts + [f] <==> x in st.facts || x == f;
  }

  lemma StageDraftKeeps(k: Kernel, db: DB, intent: Bytes, g: AppendGroup, ctx: RetainedContext, plan: WitnessPlan,
                        d: RecordDraft, st: Staging, drafts: seq<RecordDraft>, owners: seq<Bytes>, st': Staging)
    requires IsStaging(k, db, intent, drafts, owners, st)
    requires ctx.contextID != "" && ContextKnown(db, st, ctx.contextID)
    requires plan.recordID != "" && (RootIsDistinct(k) ==> HasOrdinary(k, st.plans, plan.recordID))
    requires StageDraft(k, db, intent, g, ctx, plan, d, st) == Ok(st')
    ensures IsStaging(k, db, intent, drafts + [d], owners + [g.owner], st')
    ensures st' == st.(facts := st'.facts, locals := st'.locals)
  {
    var f := StagedDraft(k, db, intent, g, ctx, plan, d, st, st');
    hide CausesStaged, FactsInContext, FactsFromDrafts, FactsWitnessed, PlansStaged, HasOrdinary, RootIsDistinct;
    hide StageDraft, ParentsKnown, ContextKnown, FactFromDraft;
    CausesStagedSnoc(db, st.facts, f);
    InContextSnoc(db, st, f, st'.locals);
    FromDraftsSnoc(drafts, owners, st.facts, intent, d, g.owner, f);
    if RootIsDistinct(k) { WitnessedFactsSnoc(k, st, f, st'.locals); }
  }

  lemma ContextStaysKnown(db: DB, st: Staging, st': Staging, id: Bytes)
    requires ContextKnown(db, st, id) && st'.contexts == st.contexts
    ensures ContextKnown(db, st', id)
  {
  }

  lemma StageDraftsFirst(k: Kernel, db: DB, intent: Bytes, g: AppendGroup, ctx: RetainedContext, plan: WitnessPlan,
                         drafts: seq<RecordDraft>, st: Staging, st': Staging) returns (st1: Staging)
    requires drafts != [] && StageDrafts(k, db, intent, g, ctx, plan, drafts, st) == Ok(st')
    ensures StageDraft(k, db, intent, g, ctx, plan, drafts[0], st) == Ok(st1)
    ensures StageDrafts(k, db, intent, g, ctx, plan, drafts[1..], st1) == Ok(st')
  {
    hide StageDraft;
    st1 := StageDraft(k, db, intent, g, ctx, plan, drafts[0], st).value;
  }

  lemma StageNoDrafts(k: Kernel, db: DB, intent: Bytes, g: AppendGroup, ctx: RetainedContext, plan: WitnessPlan,
                      st: Staging)
    ensures StageDrafts(k, db, intent, g, ctx, plan, [], st) == Ok(st) && Repeat(g.owner, 0) == []
  {
  }

  lemma RepeatFirst(owner: Bytes, n: nat)
    ensures n > 0 ==> Repeat(owner, n) == [owner] + Repeat(owner, n - 1)
  {
  }

  lemma {:induction false} StageDraftsKeeps(k: Kernel, db: DB, intent: Bytes, g: AppendGroup, ctx: RetainedContext,
                                            plan: WitnessPlan, todo: seq<RecordDraft>, st: Staging,
                                            drafts: seq<RecordDraft>, owners: seq<Bytes>, st': Staging)
    requires IsStaging(k, db, intent, drafts, owners, st)
    requires ctx.contextID != "" && ContextKnown(db, st, ctx.contextID)
    requires plan.recordID != "" && (RootIsDistinct(k) ==> HasOrdinary(k, st.plans, plan.recordID))
    requires StageDrafts(k, db, intent, g, ctx, plan, todo, st) == Ok(st')
    ensures IsStaging(k, db, intent, drafts + todo, owners + Repeat(g.owner, |todo|), st')
    decreases |todo|
  {
    hide *;
    if todo == [] {
      StageNoDrafts(k, db, intent, g, ctx, plan, st);
      assert drafts + todo == drafts && owners + Repeat(g.owner, |todo|) == owners;
    } else {
      var st1 := StageDraftsFirst(k, db, intent, g, ctx, plan, todo, st, st');
      RepeatFirst(g.owner, |todo|);
      StageDraftKeeps(k, db, intent, g, ctx, plan, todo[0], st, drafts, owners, st1);
      ContextStaysKnown(db, st, st1, ctx.contextID);
      StageDraftsKeeps(k, db, intent, g, ctx, plan, todo[1..], st1, drafts + [todo[0]], owners + [g.owner], st');
      Associate(drafts, [todo[0]], todo[1..]);
      Rejoin(todo, 1, [todo[0]], todo[1..]);
      Associate(owners, [g.owner], Repeat(g.owner, |todo| - 1));
    }
  }

  lemma OpenGroupKeeps(k: Kernel, db: DB, op: OperationContext, intent: Bytes, ctx: RetainedContext,
                       plan: WitnessPlan, st: Staging, drafts: seq<RecordDraft>, owners: seq<Bytes>)
    requires IsStaging(k, db, intent, drafts, owners, st)
    requires OrdinaryWitnessPlan(k, ctx, op) == Ok(plan)
    ensures var st' := OpenGroup(k, db, ctx, plan, st);
            && IsStaging(k, db, intent, drafts, owners, st')
            && ContextKnown(db, st', ctx.contextID)
            && (RootIsDistinct(k) ==> HasOrdinary(k, st'.plans, plan.recordID))
  {
    var st' := OpenGroup(k, db, ctx, plan, st);
    forall id | ContextKnown(db, st, id) || id == ctx.contextID ensures ContextKnown(db, st', id) {
      if c :| c in st.contexts && c.contextID == id {
        assert c in st'.contexts;
      } else if id == ctx.contextID && id !in db.contexts {
        assert st'.contexts[|st.contexts|] == ctx;
      }
    }
    if RootIsDistinct(k) {
      OrdinaryPlanIsOrdinary(k, ctx, op);
      AddRootPlan(k, st.plans);
      AddOrdinaryPlan(k, AddPlan(st.plans, RootWitnessPlan(k)), plan);
    }
  }

  lemma ResolvedContextIsNamed(k: Kernel, db: DB, intent: Bytes, index: nat, ctx: Option<RetainedContext>,
                               op: OperationContext)
    requires ResolveGroupContext(k, db, intent, index, ctx, op).Ok?
    requires forall c :: c in db.contexts ==> db.contexts[c].contextID == c
    ensures ResolveGroupContext(k, db, intent, index, ctx, op).value.contextID != ""
  {
  }

  lemma StageGroupKeeps(k: Kernel, db: DB, op: OperationContext, intent: Bytes, index: nat, g: AppendGroup,
                        st: Staging, drafts: seq<RecordDraft>, owners: seq<Bytes>, st': Staging)
    requires forall c :: c in db.contexts ==> db.contexts[c].contextID == c
    requires IsStaging(k, db, intent, drafts, owners, st)
    requires StageGroup(k, db, op, intent, index, g, st) == Ok(st')
    ensures IsStaging(k, db, intent, drafts + g.drafts, owners + Repeat(g.owner, |g.drafts|), st')
  {
    if g.drafts == [] {
      assert drafts + g.drafts == drafts && owners + Repeat(g.owner, |g.drafts|) == owners;
    } else {
      var ctx := ResolveGroupContext(k, db, intent, index, g.context, op).value;
      var plan := OrdinaryWitnessPlan(k, ctx, op).value;
      ResolvedContextIsNamed(k, db, intent, index, g.context, op);
      OpenGroupKeeps(k, db, op, intent, ctx, plan, st, drafts, owners);
      StageDraftsKeeps(k, db, intent, g, ctx, plan, g.drafts, OpenGroup(k, db, ctx, plan, st), drafts, owners, st');
    }
  }

  lemma {:induction false} StageGroupsKeeps(k: Kernel, db: DB, op: OperationContext, intent: Bytes, index: nat,
                                            groups: seq<AppendGroup>, st: Staging, drafts: seq<RecordDraft>,
                                            owners: seq<Bytes>, st': Staging)
    requires forall c :: c in db.contexts ==> db.contexts[c].contextID == c
    requires IsStaging(k, db, intent, drafts, owners, st)
    requires StageGroups(k, db, op, intent, index, groups, st) == Ok(st')
    ensures IsStaging(k, db, intent, drafts + AllDrafts(groups), owners + AllOwners(groups), st')
    decreases |groups|
  {
    if groups == [] {
      assert drafts + AllDrafts(groups) == drafts && owners + AllOwners(groups) == owners;
    } else {
      var g := groups[0];
      var st1 := StageGroup(k, db, op, intent, index, g, st).value;
      var here := Repeat(g.owner, |g.drafts|);
      StageGroupKeeps(k, db, op, intent, index, g, st, drafts, owners, st1);
      StageGroupsKeeps(k, db, op, intent, index + 1, groups[1..], st1, drafts + g.drafts, owners + here, st');
      Associate(drafts, g.drafts, AllDrafts(groups[1..]));
      Associate(owners, here, AllOwners(groups[1..]));
    }
  }

  /** Everything prepareAppend establishes about a batch */
  lemma StageEstablishes(k: Kernel, db: DB, op: OperationContext, batch: AppendBatch, st: Staging)
    requires forall c :: c in db.contexts ==> db.contexts[c].contextID == c
    requires Stage(k, db, op, batch) == Ok(st)
    ensures IsStaging(k, db, batch.intent, AllDrafts(batch.groups), AllOwners(batch.groups), st)
  {
    StageGroupsKeeps(k, db, op, batch.intent, 0, batch.groups, NOTHING, [], [], st);
    assert [] + AllDrafts(batch.groups) == AllDrafts(batch.groups);
    assert [] + AllOwners(batch.groups) == AllOwners(batch.groups);
  }
}
