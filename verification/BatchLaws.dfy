/** The batch-digest payload determines the batch, up to spelling. */
module BatchLaws {
  import opened Wrappers
  import opened Utf8
  import opened Canonical
  import opened Trace
  import opened Digests
  import opened StagingLaws

  // ---- What the digest payload determines ----------------------------------

  lemma {:induction false} MeaningsInjectiveOnStrings(e: Encoder, a: seq<Bytes>, b: seq<Bytes>)
    requires Meaning(e, Strings(a)) == Meaning(e, Strings(b))
    ensures a == b
  {
    var x, y := Strings(a).items, Strings(b).items;
    assert |a| == |x| == |Meanings(e, x)| && |b| == |y| == |Meanings(e, y)|;
    forall i | 0 <= i < |a| ensures a[i] == b[i] {
      assert Meanings(e, x)[i] == VStr(a[i]) && Meanings(e, y)[i] == VStr(b[i]);
    }
  }

  lemma NullableMeaning(e: Encoder, a: Bytes, b: Bytes)
    requires Meaning(e, NullableString(a)) == Meaning(e, NullableString(b))
    ensures a == b
  {
  }

  /** The members two objects of equal meaning share mean the same. */
  lemma SameMember(e: Encoder, v: Json, w: Json, key: Bytes)
    requires v.Obj? && w.Obj? && Meaning(e, v) == Meaning(e, w) && key in v.fields
    ensures key in w.fields && Meaning(e, v.fields[key]) == Meaning(e, w.fields[key])
  {
    MemberMeaning(e, v, key);
    assert key in Meaning(e, w).fields;
    assert key in w.fields;
    MemberMeaning(e, w, key);
  }

  predicate SamePayload(e: Encoder, a: Body, b: Body) {
    a.Some? == b.Some? && (a.Some? ==> Meaning(e, Obj(a.value)) == Meaning(e, Obj(b.value)))
  }

  /** The same draft but for how its payload values are represented */
  predicate SameDraft(e: Encoder, a: RecordDraft, b: RecordDraft) {
    a.(payload := b.payload) == b && SamePayload(e, a.payload, b.payload)
  }

  predicate SameContextDraft(a: Option<RetainedContext>, b: Option<RetainedContext>) {
    var x := if a.None? then DefaultContextDraft() else a.value;
    var y := if b.None? then DefaultContextDraft() else b.value;
    if a.Some? && IsReuse(a.value) then b.Some? && IsReuse(b.value) && a.value.contextID == b.value.contextID
    else !(b.Some? && IsReuse(b.value)) && x.(contextID := "") == y.(contextID := "")
  }

  predicate SameGroup(e: Encoder, a: AppendGroup, b: AppendGroup) {
    && a.owner == b.owner && a.causalParents == b.causalParents
    && SameContextDraft(a.context, b.context)
    && |a.drafts| == |b.drafts|
    && (forall i :: 0 <= i < |a.drafts| ==> SameDraft(e, a.drafts[i], b.drafts[i]))
  }

  predicate SameBatch(e: Encoder, a: AppendBatch, aop: OperationContext, b: AppendBatch, bop: OperationContext) {
    && a.intent == b.intent && aop.actor == bop.actor && aop.schemaEnvironment == bop.schemaEnvironment
    && |a.groups| == |b.groups|
    && (forall i :: 0 <= i < |a.groups| ==> SameGroup(e, a.groups[i], b.groups[i]))
  }

  lemma DraftFields(d: RecordDraft)
    ensures var f := DraftJson(d);
            && f.Obj?
            && "append_local_id" in f.fields && f.fields["append_local_id"] == NullableString(d.localID)
            && "kind_label" in f.fields && f.fields["kind_label"] == Str(d.kindLabel)
            && "mode" in f.fields && f.fields["mode"] == Str(d.mode)
            && "schema_ref" in f.fields && f.fields["schema_ref"] == Str(d.schemaRef)
            && "payload" in f.fields
            && f.fields["payload"] == (if d.payload.Some? then Obj(d.payload.value) else NilObj)
            && "caused_by_fact_ids" in f.fields && f.fields["caused_by_fact_ids"] == Strings(d.causedBy)
            && "caused_by_local_refs" in f.fields && f.fields["caused_by_local_refs"] == Strings(d.causedByLocal)
  {
  }

  lemma PayloadDetermined(e: Encoder, a: Body, b: Body)
    requires Meaning(e, if a.Some? then Obj(a.value) else NilObj) == Meaning(e, if b.Some? then Obj(b.value) else NilObj)
    ensures SamePayload(e, a, b)
  {
  }

  lemma TextDetermined(e: Encoder, a: Bytes, b: Bytes)
    requires Meaning(e, Str(a)) == Meaning(e, Str(b))
    ensures a == b
  {
  }

  lemma DraftDetermined(e: Encoder, a: RecordDraft, b: RecordDraft)
    requires Meaning(e, DraftJson(a)) == Meaning(e, DraftJson(b))
    ensures SameDraft(e, a, b)
  {
    var v, w := DraftJson(a), DraftJson(b);
    hide DraftJson, Meaning, Strings, NullableString, SamePayload;
    DraftFields(a);
    DraftFields(b);
    SameMember(e, v, w, "append_local_id");
    NullableMeaning(e, a.localID, b.localID);
    SameMember(e, v, w, "kind_label");
    TextDetermined(e, a.kindLabel, b.kindLabel);
    SameMember(e, v, w, "mode");
    TextDetermined(e, a.mode, b.mode);
    SameMember(e, v, w, "schema_ref");
    TextDetermined(e, a.schemaRef, b.schemaRef);
    SameMember(e, v, w, "payload");
    PayloadDetermined(e, a.payload, b.payload);
    SameMember(e, v, w, "caused_by_fact_ids");
    MeaningsInjectiveOnStrings(e, a.causedBy, b.causedBy);
    SameMember(e, v, w, "caused_by_local_refs");
    MeaningsInjectiveOnStrings(e, a.causedByLocal, b.causedByLocal);
  }

  /** The draft whose fields contextDraftJSON prints */
  function PrintedContext(ctx: Option<RetainedContext>): RetainedContext {
    if ctx.None? || IsReuse(ctx.value) then DefaultContextDraft() else ctx.value
  }

  function ReuseJson(ctx: Option<RetainedContext>): Json {
    if ctx.Some? && IsReuse(ctx.value) then Str(ctx.value.contextID) else Null
  }

  lemma ContextFields(ctx: Option<RetainedContext>)
    ensures var f, d := ContextDraftJson(ctx), PrintedContext(ctx);
            && f.Obj?
            && "active_binding_refs" in f.fields && f.fields["active_binding_refs"] == Strings(d.activeBindings)
            && "capability_witness_refs" in f.fields
            && f.fields["capability_witness_refs"] == Strings(d.capabilityWitnesses)
            && "semantic_environment_refs" in f.fields
            && f.fields["semantic_environment_refs"] == Strings(d.semanticEnvironments)
            && "visibility_policy_refs" in f.fields
            && f.fields["visibility_policy_refs"] == Strings(d.visibilityPolicies)
            && "substrate_ref" in f.fields && f.fields["substrate_ref"] == Str(d.substrate)
            && "containment" in f.fields && f.fields["containment"] == Str(d.containment)
            && "reuse_context_id" in f.fields && f.fields["reuse_context_id"] == ReuseJson(ctx)
  {
  }

  lemma ReuseDetermined(e: Encoder, a: Option<RetainedContext>, b: Option<RetainedContext>)
    requires Meaning(e, ReuseJson(a)) == Meaning(e, ReuseJson(b))
    requires PrintedContext(a).(contextID := "") == PrintedContext(b).(contextID := "")
    ensures SameContextDraft(a, b)
  {
  }

  lemma ContextDetermined(e: Encoder, a: Option<RetainedContext>, b: Option<RetainedContext>)
    requires Meaning(e, ContextDraftJson(a)) == Meaning(e, ContextDraftJson(b))
    ensures SameContextDraft(a, b)
  {
    var v, w, x, y := ContextDraftJson(a), ContextDraftJson(b), PrintedContext(a), PrintedContext(b);
    hide *;
    ContextFields(a);
    ContextFields(b);
    SameMember(e, v, w, "active_binding_refs");
    MeaningsInjectiveOnStrings(e, x.activeBindings, y.activeBindings);
    SameMember(e, v, w, "capability_witness_refs");
    MeaningsInjectiveOnStrings(e, x.capabilityWitnesses, y.capabilityWitnesses);
    SameMember(e, v, w, "semantic_environment_refs");
    MeaningsInjectiveOnStrings(e, x.semanticEnvironments, y.semanticEnvironments);
    SameMember(e, v, w, "visibility_policy_refs");
    MeaningsInjectiveOnStrings(e, x.visibilityPolicies, y.visibilityPolicies);
    SameMember(e, v, w, "substrate_ref");
    TextDetermined(e, x.substrate, y.substrate);
    SameMember(e, v, w, "containment");
    TextDetermined(e, x.containment, y.containment);
    SameMember(e, v, w, "reuse_context_id");
    ReuseDetermined(e, a, b);
  }

  /** Lists of equal meaning have the same length and pairwise equal meanings. */
  lemma SameItems(e: Encoder, v: seq<Json>, w: seq<Json>)
    requires Meaning(e, Arr(v)) == Meaning(e, Arr(w))
    ensures |v| == |w| && forall i :: 0 <= i < |v| ==> Meaning(e, v[i]) == Meaning(e, w[i])
  {
    assert Meanings(e, v) == Meanings(e, w);
    assert |v| == |Meanings(e, v)| && |w| == |Meanings(e, w)|;
    forall i | 0 <= i < |v| ensures Meaning(e, v[i]) == Meaning(e, w[i]) {
      assert Meanings(e, v)[i] == Meanings(e, w)[i];
    }
  }

  lemma GroupFields(g: AppendGroup)
    ensures var f := GroupJson(g);
            && f.Obj?
            && "trace_owner_id" in f.fields && f.fields["trace_owner_id"] == Str(g.owner)
            && "retained_context" in f.fields && f.fields["retained_context"] == ContextDraftJson(g.context)
            && "causal_parents" in f.fields && f.fields["causal_parents"] == Strings(g.causalParents)
            && "fact_drafts" in f.fields && f.fields["fact_drafts"] == Arr(DraftsJson(g.drafts))
  {
  }

  lemma DraftsDetermined(e: Encoder, a: seq<RecordDraft>, b: seq<RecordDraft>)
    requires Meaning(e, Arr(DraftsJson(a))) == Meaning(e, Arr(DraftsJson(b)))
    ensures |a| == |b| && forall i :: 0 <= i < |a| ==> SameDraft(e, a[i], b[i])
  {
    SameItems(e, DraftsJson(a), DraftsJson(b));
    hide Meaning, DraftJson, SameDraft;
    forall i | 0 <= i < |a| ensures SameDraft(e, a[i], b[i]) {
      assert DraftsJson(a)[i] == DraftJson(a[i]) && DraftsJson(b)[i] == DraftJson(b[i]);
      DraftDetermined(e, a[i], b[i]);
    }
  }

  lemma GroupDetermined(e: Encoder, a: AppendGroup, b: AppendGroup)
    requires Meaning(e, GroupJson(a)) == Meaning(e, GroupJson(b))
    ensures SameGroup(e, a, b)
  {
    var v, w := GroupJson(a), GroupJson(b);
    hide GroupJson, Meaning, Strings, DraftsJson, ContextDraftJson, SameDraft, SameContextDraft;
    GroupFields(a);
    GroupFields(b);
    SameMember(e, v, w, "trace_owner_id");
    TextDetermined(e, a.owner, b.owner);
    SameMember(e, v, w, "retained_context");
    ContextDetermined(e, a.context, b.context);
    SameMember(e, v, w, "causal_parents");
    MeaningsInjectiveOnStrings(e, a.causalParents, b.causalParents);
    SameMember(e, v, w, "fact_drafts");
    DraftsDetermined(e, a.drafts, b.drafts);
  }

  lemma GroupsDetermined(e: Encoder, a: seq<AppendGroup>, b: seq<AppendGroup>)
    requires Meaning(e, Arr(GroupsJson(a))) == Meaning(e, Arr(GroupsJson(b)))
    ensures |a| == |b| && forall i :: 0 <= i < |a| ==> SameGroup(e, a[i], b[i])
  {
    SameItems(e, GroupsJson(a), GroupsJson(b));
    hide Meaning, GroupJson, SameGroup;
    forall i | 0 <= i < |a| ensures SameGroup(e, a[i], b[i]) {
      assert GroupsJson(a)[i] == GroupJson(a[i]) && GroupsJson(b)[i] == GroupJson(b[i]);
      GroupDetermined(e, a[i], b[i]);
    }
  }

  lemma BatchFields(batch: AppendBatch, op: OperationContext)
    ensures var f := BatchJson(batch, op);
            && f.Obj?
            && "append_intent_id" in f.fields && f.fields["append_intent_id"] == Str(batch.intent)
            && "actor_ref" in f.fields && f.fields["actor_ref"] == Str(op.actor)
            && "schema_version_set" in f.fields && f.fields["schema_version_set"] == Str(op.schemaEnvironment)
            && "groups" in f.fields && f.fields["groups"] == Arr(GroupsJson(batch.groups))
  {
  }

  /** The batch-digest payload determines the batch up to the spelling of payload values. */
  lemma BatchDetermined(e: Encoder, a: AppendBatch, aop: OperationContext, b: AppendBatch, bop: OperationContext)
    requires Meaning(e, BatchJson(a, aop)) == Meaning(e, BatchJson(b, bop))
    ensures SameBatch(e, a, aop, b, bop)
  {
    var v, w := BatchJson(a, aop), BatchJson(b, bop);
    hide BatchJson, Meaning, GroupsJson, SameGroup;
    BatchFields(a, aop);
    BatchFields(b, bop);
    SameMember(e, v, w, "append_intent_id");
    TextDetermined(e, a.intent, b.intent);
    SameMember(e, v, w, "actor_ref");
    TextDetermined(e, aop.actor, bop.actor);
    SameMember(e, v, w, "schema_version_set");
    TextDetermined(e, aop.schemaEnvironment, bop.schemaEnvironment);
    SameMember(e, v, w, "groups");
    GroupsDetermined(e, a.groups, b.groups);
  }

  // ---- Flavours ------------------------------------------------------------

  lemma {:induction false} MeaningIgnoresFlavour(k: Kernel, v: Json)
    ensures Meaning(AsciiEncoder(k), v) == Meaning(Utf8Encoder(k), v)
    decreases v
  {
    var a, u := AsciiEncoder(k), Utf8Encoder(k);
    match v
    case Arr(items) =>
      forall i | 0 <= i < |items| ensures Meaning(a, items[i]) == Meaning(u, items[i]) {
        MeaningIgnoresFlavour(k, items[i]);
      }
      assert Meanings(a, items) == Meanings(u, items);
    case Obj(fields) =>
      forall key | key in fields ensures Meaning(a, fields[key]) == Meaning(u, fields[key]) {
        MeaningIgnoresFlavour(k, fields[key]);
      }
      assert Meaning(a, v).fields == Meaning(u, v).fields;
    case _ =>
  }

  lemma FlavourIsIrrelevant(k: Kernel, a: AppendBatch, aop: OperationContext, b: AppendBatch, bop: OperationContext)
    requires SameBatch(AsciiEncoder(k), a, aop, b, bop)
    ensures SameBatch(Utf8Encoder(k), a, aop, b, bop)
  {
    forall i | 0 <= i < |a.groups| ensures SameGroup(Utf8Encoder(k), a.groups[i], b.groups[i]) {
      var g, h := a.groups[i], b.groups[i];
      assert SameGroup(AsciiEncoder(k), g, h);
      forall j | 0 <= j < |g.drafts| ensures SameDraft(Utf8Encoder(k), g.drafts[j], h.drafts[j]) {
        assert SameDraft(AsciiEncoder(k), g.drafts[j], h.drafts[j]);
        if g.drafts[j].payload.Some? {
          MeaningIgnoresFlavour(k, Obj(g.drafts[j].payload.value));
          MeaningIgnoresFlavour(k, Obj(h.drafts[j].payload.value));
        }
      }
    }
  }
}
