/** Batches with equal digest payloads are staged alike, receipts and all. */
module BatchStaging {
  import opened Wrappers
  import opened Utf8
  import opened Canonical
  import opened CanonicalLaws
  import opened Trace
  import opened Digests
  import opened Tables
  import opened Append
  import opened StagingLaws
  import opened BatchLaws
  import opened Redigests

  /** Equal but for the spelling of the stored body */
  predicate SameFact(f: Fact, g: Fact) { f.(row := f.row.(body := g.row.body)) == g }

  predicate SameFacts(a: seq<Fact>, b: seq<Fact>) {
    |a| == |b| && forall i :: 0 <= i < |a| ==> SameFact(a[i], b[i])
  }

  predicate SameStaging(a: Staging, b: Staging) { a.(facts := b.facts) == b && SameFacts(a.facts, b.facts) }

  /** Staging succeeds for both or for neither, and then stages the same. */
  predicate SameOutcome(r: Result<Staging>, s: Result<Staging>) {
    r.Ok? == s.Ok? && (r.Ok? ==> SameStaging(r.value, s.value))
  }

  // ---- Writable payloads ---------------------------------------------------

  predicate PayloadWrites(k: Kernel, body: Body) { Write(Utf8Encoder(k), Obj(Fields(body))).Ok? }

  predicate DraftsWrite(k: Kernel, drafts: seq<RecordDraft>) { forall d :: d in drafts ==> PayloadWrites(k, d.payload) }

  predicate GroupsWrite(k: Kernel, groups: seq<AppendGroup>) { forall g :: g in groups ==> DraftsWrite(k, g.drafts) }

  lemma {:induction false} ItemsWrite(e: Encoder, items: seq<Json>)
    ensures WriteItems(e, items).Ok? <==> forall i :: 0 <= i < |items| ==> Write(e, items[i]).Ok?
  {
    if items != [] {
      ItemsWrite(e, items[1..]);
      assert forall i :: 1 <= i < |items| ==> items[i] == items[1..][i - 1];
      assert WriteItems(e, items).Ok? <==> Write(e, items[0]).Ok? && WriteItems(e, items[1..]).Ok?;
    }
  }

  lemma ArrayWrites(e: Encoder, items: seq<Json>)
    ensures Write(e, Arr(items)).Ok? <==> forall i :: 0 <= i < |items| ==> Write(e, items[i]).Ok?
  {
    ItemsWrite(e, items);
  }

  /** What one flavour can write the other can. */
  lemma {:induction false} FlavoursWrite(k: Kernel, v: Json)
    ensures Write(AsciiEncoder(k), v).Ok? <==> Write(Utf8Encoder(k), v).Ok?
    decreases v
  {
    var a, u := AsciiEncoder(k), Utf8Encoder(k);
    match v
    case Arr(items) =>
      forall i | 0 <= i < |items| ensures Write(a, items[i]).Ok? <==> Write(u, items[i]).Ok? {
        FlavoursWrite(k, items[i]);
      }
      hide Write;
      ArrayWrites(a, items);
      ArrayWrites(u, items);
    case Obj(fields) =>
      forall key | key in fields ensures Write(a, fields[key]).Ok? <==> Write(u, fields[key]).Ok? {
        FlavoursWrite(k, fields[key]);
      }
      assert forall key :: WriteString(a, key).Ok? <==> WriteString(u, key).Ok?;
      hide Write, WriteString;
      ObjectMembersWrite(a, v);
      ObjectMembersWrite(u, v);
    case _ =>
  }

  lemma DraftPayloadWrites(k: Kernel, d: RecordDraft)
    requires Write(AsciiEncoder(k), DraftJson(d)).Ok?
    ensures PayloadWrites(k, d.payload)
  {
    hide DraftJson, Write;
    DraftFields(d);
    ObjectMembersWrite(AsciiEncoder(k), DraftJson(d));
    if d.payload.Some? {
      FlavoursWrite(k, Obj(d.payload.value));
    } else {
      EmptyWrites(k);
    }
  }

  lemma EmptyWrites(k: Kernel)
    ensures PayloadWrites(k, None)
  {
    ObjectMembersWrite(Utf8Encoder(k), Obj(map[]));
  }

  lemma GroupPayloadsWrite(k: Kernel, g: AppendGroup)
    requires Write(AsciiEncoder(k), GroupJson(g)).Ok?
    ensures DraftsWrite(k, g.drafts)
  {
    hide GroupJson, Write, DraftJson, PayloadWrites;
    GroupFields(g);
    ObjectMembersWrite(AsciiEncoder(k), GroupJson(g));
    ArrayWrites(AsciiEncoder(k), DraftsJson(g.drafts));
    forall d | d in g.drafts ensures PayloadWrites(k, d.payload) {
      var i :| 0 <= i < |g.drafts| && g.drafts[i] == d;
      assert DraftsJson(g.drafts)[i] == DraftJson(d);
      DraftPayloadWrites(k, d);
    }
  }

  /** A batch that has a digest has only writable payloads. */
  lemma BatchPayloadsWrite(k: Kernel, batch: AppendBatch, op: OperationContext)
    requires BatchDigest(k, batch, op).Ok?
    ensures GroupsWrite(k, batch.groups)
  {
    hide BatchJson, Write, GroupJson, DraftsWrite;
    BatchFields(batch, op);
    ObjectMembersWrite(AsciiEncoder(k), BatchJson(batch, op));
    ArrayWrites(AsciiEncoder(k), GroupsJson(batch.groups));
    forall g | g in batch.groups ensures DraftsWrite(k, g.drafts) {
      var i :| 0 <= i < |batch.groups| && batch.groups[i] == g;
      assert GroupsJson(batch.groups)[i] == GroupJson(g);
      GroupPayloadsWrite(k, g);
    }
  }

  // ---- Staging -------------------------------------------------------------

  lemma PayloadMeans(e: Encoder, a: Body, b: Body)
    requires SamePayload(e, a, b)
    ensures Meaning(e, Obj(Fields(a))) == Meaning(e, Obj(Fields(b)))
  {
  }

  /** Inputs that differ only in how the body is spelled mean the same, and are writable alike. */
  lemma SameInputs(e: Encoder, schemaRef: Bytes, mode: Bytes, a: Body, b: Body, causedBy: seq<Bytes>, witnessRef: Bytes)
    requires Meaning(e, Obj(Fields(a))) == Meaning(e, Obj(Fields(b)))
    requires Write(e, Obj(Fields(a))).Ok? && Write(e, Obj(Fields(b))).Ok?
    ensures var v := RecordInput(schemaRef, mode, a, causedBy, witnessRef);
            var w := RecordInput(schemaRef, mode, b, causedBy, witnessRef);
            (Write(e, v).Ok? <==> Write(e, w).Ok?) && (Write(e, v).Ok? ==> Write(e, v) == Write(e, w))
  {
    hide *;
    var v := RecordInput(schemaRef, mode, a, causedBy, witnessRef);
    var w := RecordInput(schemaRef, mode, b, causedBy, witnessRef);
    InputFields(schemaRef, mode, a, causedBy, witnessRef);
    InputFields(schemaRef, mode, b, causedBy, witnessRef);
    ObjectMembersWrite(e, v);
    ObjectMembersWrite(e, w);
    SameMembers(e, v, w);
    if Write(e, v).Ok? { WriterIsUnambiguous(e, v, w); }
  }

  lemma SameRecordDigest(k: Kernel, a: RecordDraft, b: RecordDraft, causedBy: seq<Bytes>, witnessRef: Bytes)
    requires SameDraft(Utf8Encoder(k), a, b) && witnessRef != ""
    requires PayloadWrites(k, a.payload) && PayloadWrites(k, b.payload)
    ensures var r := RecordDigest(k, a.schemaRef, a.mode, a.payload, causedBy, witnessRef);
            var s := RecordDigest(k, b.schemaRef, b.mode, b.payload, causedBy, witnessRef);
            r.Ok? == s.Ok? && (r.Ok? ==> r == s)
  {
    hide Meaning, Write, RecordInput, SamePayload;
    PayloadMeans(Utf8Encoder(k), a.payload, b.payload);
    SameInputs(Utf8Encoder(k), a.schemaRef, a.mode, a.payload, b.payload, causedBy, witnessRef);
  }

  lemma SameStaged(a: seq<Fact>, b: seq<Fact>, id: Bytes)
    requires SameFacts(a, b)
    ensures IsStaged(a, id) == IsStaged(b, id)
  {
    if i :| 0 <= i < |a| && a[i].id == id { assert b[i].id == id; }
    if i :| 0 <= i < |b| && b[i].id == id { assert a[i].id == id; }
  }

  lemma SameDraftStaged(k: Kernel, db: DB, intent: Bytes, g: AppendGroup, h: AppendGroup, ctx: RetainedContext,
                        plan: WitnessPlan, a: RecordDraft, b: RecordDraft, s: Staging, t: Staging)
    requires SameDraft(Utf8Encoder(k), a, b) && g.owner == h.owner && g.causalParents == h.causalParents
    requires SameStaging(s, t) && plan.recordID != ""
    requires PayloadWrites(k, a.payload) && PayloadWrites(k, b.payload)
    ensures SameOutcome(StageDraft(k, db, intent, g, ctx, plan, a, s), StageDraft(k, db, intent, h, ctx, plan, b, t))
  {
    assert ResolvedCauses(h, b, t.locals) == ResolvedCauses(g, a, s.locals);
    if ResolvedCauses(g, a, s.locals).Ok? {
      var causedBy := ResolvedCauses(g, a, s.locals).value;
      SameParentsKnown(db, s.facts, t.facts, causedBy);
      SameRecordDigest(k, a, b, causedBy, plan.recordID);
      hide RecordDigest, ResolvedCauses, ParentsKnown, SamePayload, PayloadWrites;
    }
  }

  lemma SameParentsKnown(db: DB, a: seq<Fact>, b: seq<Fact>, causedBy: seq<Bytes>)
    requires SameFacts(a, b)
    ensures ParentsKnown(db, a, causedBy) == ParentsKnown(db, b, causedBy)
  {
    hide SameFacts, IsStaged;
    forall p ensures IsStaged(a, p) == IsStaged(b, p) { SameStaged(a, b, p); }
  }

  lemma FirstDraft(k: Kernel, db: DB, intent: Bytes, g: AppendGroup, ctx: RetainedContext, plan: WitnessPlan,
                   drafts: seq<RecordDraft>, s: Staging)
    requires drafts != []
    ensures DraftsWrite(k, drafts) ==> PayloadWrites(k, drafts[0].payload) && DraftsWrite(k, drafts[1..])
    ensures var r := StageDraft(k, db, intent, g, ctx, plan, drafts[0], s);
            StageDrafts(k, db, intent, g, ctx, plan, drafts, s) ==
            if r.Err? then r else StageDrafts(k, db, intent, g, ctx, plan, drafts[1..], r.value)
  {
    hide StageDraft, PayloadWrites;
  }

  lemma {:induction false} SameDraftsStaged(k: Kernel, db: DB, intent: Bytes, g: AppendGroup, h: AppendGroup,
                                            ctx: RetainedContext, plan: WitnessPlan, a: seq<RecordDraft>,
                                            b: seq<RecordDraft>, s: Staging, t: Staging)
    requires |a| == |b| && (forall i :: 0 <= i < |a| ==> SameDraft(Utf8Encoder(k), a[i], b[i]))
    requires g.owner == h.owner && g.causalParents == h.causalParents && SameStaging(s, t) && plan.recordID != ""
    requires DraftsWrite(k, a) && DraftsWrite(k, b)
    ensures SameOutcome(StageDrafts(k, db, intent, g, ctx, plan, a, s), StageDrafts(k, db, intent, h, ctx, plan, b, t))
    decreases |a|
  {
    hide *;
    if a == [] {
      StageNoDrafts(k, db, intent, g, ctx, plan, s);
      StageNoDrafts(k, db, intent, h, ctx, plan, t);
      OutcomeIs(Ok(s), Ok(t));
    } else {
      var r, q := StageDraft(k, db, intent, g, ctx, plan, a[0], s), StageDraft(k, db, intent, h, ctx, plan, b[0], t);
      FirstDraft(k, db, intent, g, ctx, plan, a, s);
      FirstDraft(k, db, intent, h, ctx, plan, b, t);
      SameDraftStaged(k, db, intent, g, h, ctx, plan, a[0], b[0], s, t);
      OutcomeIs(r, q);
      if r.Ok? { SameDraftsStaged(k, db, intent, g, h, ctx, plan, a[1..], b[1..], r.value, q.value); }
    }
  }

  function DraftOf(ctx: Option<RetainedContext>): RetainedContext {
    if ctx.Some? then ctx.value else DefaultContextDraft()
  }

  predicate Reuses(ctx: Option<RetainedContext>) { ctx.Some? && IsReuse(ctx.value) }

  lemma SameContextCases(a: Option<RetainedContext>, b: Option<RetainedContext>, aop: OperationContext,
                         bop: OperationContext)
    requires SameContextDraft(a, b) && aop.schemaEnvironment == bop.schemaEnvironment
    ensures Reuses(a) == Reuses(b)
    ensures Reuses(a) ==> a.value.contextID == b.value.contextID
    ensures !Reuses(a) ==> ContextPayload(DraftOf(a), aop) == ContextPayload(DraftOf(b), bop)
  {
    hide Deduplicate, IsReuse;
    var x, y := DraftOf(a), DraftOf(b);
    if !Reuses(a) { assert x.(contextID := "") == y.(contextID := ""); }
  }

  lemma ResolvesReuse(k: Kernel, db: DB, intent: Bytes, index: nat, ctx: Option<RetainedContext>, op: OperationContext)
    requires Reuses(ctx)
    ensures ResolveGroupContext(k, db, intent, index, ctx, op) == ReadContext(db, ctx.value.contextID)
  {
  }

  /** What resolving a context that is not reused depends on */
  function ResolvePayload(k: Kernel, db: DB, intent: Bytes, index: nat, payload: RetainedContext):
      Result<RetainedContext>
  {
    var id :- ContextIDFor(k, intent, index, payload);
    var fresh' := payload.(contextID := id);
    if id in db.contexts && db.contexts[id] != fresh' then Err(StoreLaw) else Ok(fresh')
  }

  lemma ResolvesPayload(k: Kernel, db: DB, intent: Bytes, index: nat, ctx: Option<RetainedContext>,
                        op: OperationContext)
    requires !Reuses(ctx)
    ensures ResolveGroupContext(k, db, intent, index, ctx, op) ==
            ResolvePayload(k, db, intent, index, ContextPayload(DraftOf(ctx), op))
  {
    hide ContextIDFor, ContextPayload, IsReuse;
  }

  lemma SameContextResolved(k: Kernel, db: DB, intent: Bytes, index: nat, a: Option<RetainedContext>,
                            b: Option<RetainedContext>, aop: OperationContext, bop: OperationContext)
    requires SameContextDraft(a, b) && aop.schemaEnvironment == bop.schemaEnvironment
    ensures ResolveGroupContext(k, db, intent, index, a, aop) == ResolveGroupContext(k, db, intent, index, b, bop)
  {
    SameContextCases(a, b, aop, bop);
    hide *;
    if Reuses(a) {
      ResolvesReuse(k, db, intent, index, a, aop);
      ResolvesReuse(k, db, intent, index, b, bop);
    } else {
      ResolvesPayload(k, db, intent, index, a, aop);
      ResolvesPayload(k, db, intent, index, b, bop);
    }
  }

  lemma SamePlan(k: Kernel, ctx: RetainedContext, aop: OperationContext, bop: OperationContext)
    requires aop.actor == bop.actor
    ensures OrdinaryWitnessPlan(k, ctx, aop) == OrdinaryWitnessPlan(k, ctx, bop)
    ensures OrdinaryWitnessPlan(k, ctx, aop).Ok? ==> OrdinaryWitnessPlan(k, ctx, aop).value.recordID != ""
  {
    assert WitnessBody(ctx, aop) == WitnessBody(ctx, bop);
  }

  lemma SameOpening(k: Kernel, db: DB, ctx: RetainedContext, plan: WitnessPlan, s: Staging, t: Staging)
    requires SameStaging(s, t)
    ensures SameStaging(OpenGroup(k, db, ctx, plan, s), OpenGroup(k, db, ctx, plan, t))
  {
    hide AddPlan, SameFacts;
  }

  lemma SameGroupStaged(k: Kernel, db: DB, aop: OperationContext, bop: OperationContext, intent: Bytes, index: nat,
                        g: AppendGroup, h: AppendGroup, s: Staging, t: Staging)
    requires SameGroup(Utf8Encoder(k), g, h) && SameStaging(s, t)
    requires aop.actor == bop.actor && aop.schemaEnvironment == bop.schemaEnvironment
    requires DraftsWrite(k, g.drafts) && DraftsWrite(k, h.drafts)
    ensures SameOutcome(StageGroup(k, db, aop, intent, index, g, s), StageGroup(k, db, bop, intent, index, h, t))
  {
    hide SameDraft, DraftsWrite, StageDrafts, OrdinaryWitnessPlan, ResolveGroupContext, SameContextDraft, SameStaging;
    hide OpenGroup;
    SameContextResolved(k, db, intent, index, g.context, h.context, aop, bop);
    var resolved := ResolveGroupContext(k, db, intent, index, g.context, aop);
    if g.drafts != [] && resolved.Ok? {
      var ctx := resolved.value;
      SamePlan(k, ctx, aop, bop);
      if OrdinaryWitnessPlan(k, ctx, aop).Ok? {
        var plan := OrdinaryWitnessPlan(k, ctx, aop).value;
        SameOpening(k, db, ctx, plan, s, t);
        SameDraftsStaged(k, db, intent, g, h, ctx, plan, g.drafts, h.drafts, OpenGroup(k, db, ctx, plan, s),
                         OpenGroup(k, db, ctx, plan, t));
      }
    }
  }

  lemma OutcomeIs(r: Result<Staging>, q: Result<Staging>)
    ensures SameOutcome(r, q) <==> r.Ok? == q.Ok? && (r.Ok? ==> SameStaging(r.value, q.value))
  {
    hide SameStaging;
  }

  lemma StageNoGroups(k: Kernel, db: DB, op: OperationContext, intent: Bytes, index: nat, s: Staging)
    ensures StageGroups(k, db, op, intent, index, [], s) == Ok(s)
  {
  }

  lemma FirstGroup(k: Kernel, db: DB, op: OperationContext, intent: Bytes, index: nat, groups: seq<AppendGroup>,
                   s: Staging)
    requires groups != []
    ensures GroupsWrite(k, groups) ==> DraftsWrite(k, groups[0].drafts) && GroupsWrite(k, groups[1..])
    ensures var r := StageGroup(k, db, op, intent, index, groups[0], s);
            StageGroups(k, db, op, intent, index, groups, s) ==
            if r.Err? then r else StageGroups(k, db, op, intent, index + 1, groups[1..], r.value)
  {
    hide StageGroup, DraftsWrite;
  }

  lemma {:induction false} SameGroupsStaged(k: Kernel, db: DB, aop: OperationContext, bop: OperationContext,
                                            intent: Bytes, index: nat, g: seq<AppendGroup>, h: seq<AppendGroup>,
                                            s: Staging, t: Staging)
    requires |g| == |h| && (forall i :: 0 <= i < |g| ==> SameGroup(Utf8Encoder(k), g[i], h[i])) && SameStaging(s, t)
    requires aop.actor == bop.actor && aop.schemaEnvironment == bop.schemaEnvironment
    requires GroupsWrite(k, g) && GroupsWrite(k, h)
    ensures SameOutcome(StageGroups(k, db, aop, intent, index, g, s), StageGroups(k, db, bop, intent, index, h, t))
    decreases |g|
  {
    hide *;
    if g == [] {
      StageNoGroups(k, db, aop, intent, index, s);
      StageNoGroups(k, db, bop, intent, index, t);
      OutcomeIs(Ok(s), Ok(t));
    } else {
      var r, q := StageGroup(k, db, aop, intent, index, g[0], s), StageGroup(k, db, bop, intent, index, h[0], t);
      FirstGroup(k, db, aop, intent, index, g, s);
      FirstGroup(k, db, bop, intent, index, h, t);
      SameGroupStaged(k, db, aop, bop, intent, index, g[0], h[0], s, t);
      OutcomeIs(r, q);
      if r.Ok? { SameGroupsStaged(k, db, aop, bop, intent, index + 1, g[1..], h[1..], r.value, q.value); }
    }
  }

  // ---- Receipts ------------------------------------------------------------

  lemma {:induction false} SameFactsSameCounts(a: seq<Fact>, b: seq<Fact>, owner: Bytes)
    requires SameFacts(a, b)
    ensures CountOwner(a, owner) == CountOwner(b, owner)
  {
    if a != [] { SameFactsSameCounts(a[..|a| - 1], b[..|b| - 1], owner); }
  }

  lemma {:induction false} SameFactsSameEdges(a: seq<Fact>, b: seq<Fact>)
    requires SameFacts(a, b)
    ensures CausalEdges(a) == CausalEdges(b)
  {
    if a != [] { SameFactsSameEdges(a[..|a| - 1], b[..|b| - 1]); }
  }

  lemma SameFactsSameRanges(db: DB, a: seq<Fact>, b: seq<Fact>)
    requires SameFacts(a, b)
    ensures OwnerRanges(db, a) == OwnerRanges(db, b)
  {
    forall o ensures CountOwner(a, o) == CountOwner(b, o) { SameFactsSameCounts(a, b, o); }
    SameFactsSameOwners(a, b);
    assert OwnerRanges(db, a) == OwnerRanges(db, b);
  }

  lemma SameFactsSameOwners(a: seq<Fact>, b: seq<Fact>)
    requires SameFacts(a, b)
    ensures Owners(a) == Owners(b)
  {
    forall o ensures o in Owners(a) <==> o in Owners(b) {
      if i :| 0 <= i < |a| && a[i].owner == o { assert SameFact(a[i], b[i]) && b[i] in b; }
      if i :| 0 <= i < |b| && b[i].owner == o { assert SameFact(a[i], b[i]) && a[i] in a; }
    }
  }

  lemma SameStagingSameReceipt(db: DB, intent: Bytes, s: Staging, t: Staging)
    requires SameStaging(s, t)
    ensures ReceiptFor(db, intent, s) == ReceiptFor(db, intent, t)
  {
    SameFactsSameRanges(db, s.facts, t.facts);
    SameFactsSameEdges(s.facts, t.facts);
    assert StagedIDs(s.facts) == StagedIDs(t.facts);
  }

  /** Of two batches with digests over payloads that mean the same, both are staged alike, or neither can be staged. */
  lemma SameDigestSameStaging(k: Kernel, db: DB, a: AppendBatch, aop: OperationContext, b: AppendBatch,
                              bop: OperationContext)
    requires BatchDigest(k, a, aop).Ok? && BatchDigest(k, b, bop).Ok?
    requires Meaning(AsciiEncoder(k), BatchJson(a, aop)) == Meaning(AsciiEncoder(k), BatchJson(b, bop))
    ensures a.intent == b.intent && SameOutcome(Stage(k, db, aop, a), Stage(k, db, bop, b))
  {
    BatchPayloadsWrite(k, a, aop);
    BatchPayloadsWrite(k, b, bop);
    BatchDetermined(AsciiEncoder(k), a, aop, b, bop);
    FlavourIsIrrelevant(k, a, aop, b, bop);
    hide BatchDigest, BatchJson, GroupsWrite, StageGroups, SameGroup, SameStaging;
    SameNothing();
    SameGroupsStaged(k, db, aop, bop, a.intent, 0, a.groups, b.groups, NOTHING, NOTHING);
  }

  /**
    * Of two batches with digests over payloads that mean the same, both can be staged from a given state or neither
    * can, and they get the same receipt, record ids included.
    */
  lemma SameDigestSameReceipt(k: Kernel, db: DB, a: AppendBatch, aop: OperationContext, b: AppendBatch,
                              bop: OperationContext)
    requires BatchDigest(k, a, aop).Ok? && BatchDigest(k, b, bop).Ok?
    requires Meaning(AsciiEncoder(k), BatchJson(a, aop)) == Meaning(AsciiEncoder(k), BatchJson(b, bop))
    ensures var r, s := Stage(k, db, aop, a), Stage(k, db, bop, b);
            r.Ok? == s.Ok? && (r.Ok? ==> ReceiptFor(db, a.intent, r.value) == ReceiptFor(db, b.intent, s.value))
  {
    hide *;
    SameDigestSameStaging(k, db, a, aop, b, bop);
    var r, s := Stage(k, db, aop, a), Stage(k, db, bop, b);
    OutcomeIs(r, s);
    if r.Ok? { SameStagingSameReceipt(db, a.intent, r.value, s.value); }
  }

  lemma SameNothing()
    ensures SameStaging(NOTHING, NOTHING)
  {
  }
}
