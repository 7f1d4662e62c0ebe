/** What a staged fact takes from its draft and its group. */
module Origins {
  import opened Wrappers
  import opened Seqs
  import opened Utf8
  import opened Trace
  import opened Digests
  import opened Tables
  import opened Append
  import opened Invariant
  import opened StagingLaws

  /** What a draft takes from its group */
  datatype Origin = Origin(parents: seq<Bytes>, context: Option<RetainedContext>)

  function OriginOf(g: AppendGroup): Origin { Origin(g.causalParents, g.context) }

  function Copies(o: Origin, n: nat): seq<Origin> { if n == 0 then [] else [o] + Copies(o, n - 1) }

  /** The origin of every draft, in order */
  function AllOrigins(groups: seq<AppendGroup>): seq<Origin> {
    if groups == [] then [] else Copies(OriginOf(groups[0]), |groups[0].drafts|) + AllOrigins(groups[1..])
  }

  // ---- Causes --------------------------------------------------------------

  /** One of the first n drafts has the local id ref, and got the id. */
  ghost predicate NamesEarlier(drafts: seq<RecordDraft>, ids: seq<Bytes>, n: nat, ref: Bytes, id: Bytes) {
    ref != "" && exists m: nat :: m < n && m < |drafts| && m < |ids| && drafts[m].localID == ref && ids[m] == id
  }

  /**
    * The causes of the n-th draft: its group's causal parents, then the facts it names, then, for each append-local
    * reference, the id of the earlier draft that bears it; none of them twice.
    */
  ghost predicate CausedAs(o: Origin, drafts: seq<RecordDraft>, ids: seq<Bytes>, n: nat, causes: seq<Bytes>)
    requires n < |drafts|
  {
    var d := drafts[n];
    && |causes| == |o.parents| + |d.causedBy| + |d.causedByLocal|
    && (forall i :: 0 <= i < |o.parents| ==> causes[i] == o.parents[i])
    && (forall i :: 0 <= i < |d.causedBy| ==> causes[|o.parents| + i] == d.causedBy[i])
    && (forall i :: 0 <= i < |d.causedByLocal| ==>
          NamesEarlier(drafts, ids, n, d.causedByLocal[i], causes[|o.parents| + |d.causedBy| + i]))
    && Distinct(causes)
  }

  ghost predicate LocalsNamed(drafts: seq<RecordDraft>, ids: seq<Bytes>, locals: map<Bytes, Bytes>) {
    forall x :: x in locals ==> NamesEarlier(drafts, ids, |ids|, x, locals[x])
  }

  // ---- Contexts and witnesses ----------------------------------------------

  /** The context a group asks for: a retained one by its id, or its own draft, or the default one */
  ghost predicate ContextAs(o: Origin, op: OperationContext, c: RetainedContext) {
    match o.context
    case None =>
      && c.activeBindings == [] && c.capabilityWitnesses == [] && c.visibilityPolicies == []
      && c.semanticEnvironments == [op.schemaEnvironment]
      && c.substrate == "sqlite.local.v1" && c.containment == "contained"
    case Some(d) =>
      if d.contextID != "" && d.substrate == "" then c.contextID == d.contextID else
        && c.activeBindings == d.activeBindings && c.capabilityWitnesses == d.capabilityWitnesses
        && c.visibilityPolicies == d.visibilityPolicies
        && c.semanticEnvironments == Deduplicate(d.semanticEnvironments + [op.schemaEnvironment])
        && c.substrate == d.substrate && c.containment == d.containment
  }

  /** The witness a fact cites is the ordinary one of its context and the operation. */
  ghost predicate CitesAs(k: Kernel, op: OperationContext, c: RetainedContext, row: RecordRow) {
    OrdinaryWitnessPlan(k, c, op).Ok? && row.witnessRef == OrdinaryWitnessPlan(k, c, op).value.recordID
  }

  ghost predicate PlacedIn(k: Kernel, db: DB, op: OperationContext, o: Origin, contexts: seq<RetainedContext>, f: Fact,
                           c: RetainedContext)
  {
    && f.contextRef == c.contextID && (c in contexts || (c.contextID in db.contexts && db.contexts[c.contextID] == c))
    && ContextAs(o, op, c) && CitesAs(k, op, c, f.row)
  }

  ghost predicate StagedAs(k: Kernel, db: DB, op: OperationContext, o: Origin, drafts: seq<RecordDraft>, st: Staging,
                           n: nat)
    requires n < |drafts| && n < |st.facts|
  {
    && CausedAs(o, drafts, StagedIDs(st.facts), n, st.facts[n].row.causedBy)
    && exists c :: PlacedIn(k, db, op, o, st.contexts, st.facts[n], c)
  }

  ghost predicate AllStaged(k: Kernel, db: DB, op: OperationContext, origins: seq<Origin>, drafts: seq<RecordDraft>,
                            st: Staging)
  {
    && |origins| == |drafts| == |st.facts|
    && (forall n :: 0 <= n < |drafts| ==> StagedAs(k, db, op, origins[n], drafts, st, n))
    && LocalsNamed(drafts, StagedIDs(st.facts), st.locals)
  }

  /** The n-th draft's record is caused, placed and witnessed as the draft and its group say. */
  ghost predicate OriginRetained(k: Kernel, db: DB, op: OperationContext, o: Origin, drafts: seq<RecordDraft>,
                                 ids: seq<Bytes>, place: Place, n: nat)
    requires n < |drafts| && n < |ids|
  {
    && ids[n] in db.records && CausedAs(o, drafts, ids, n, db.records[ids[n]].causedBy)
    && place in db.paths && db.paths[place].contextRef in db.contexts
    && var c := db.contexts[db.paths[place].contextRef];
    && c.contextID == db.paths[place].contextRef && ContextAs(o, op, c) && CitesAs(k, op, c, db.records[ids[n]])
  }

  ghost predicate OriginsRetained(k: Kernel, db: DB, op: OperationContext, origins: seq<Origin>,
                                  drafts: seq<RecordDraft>, ids: seq<Bytes>, places: seq<Place>)
  {
    && |origins| == |drafts| == |ids| == |places|
    && forall n :: 0 <= n < |ids| ==> OriginRetained(k, db, op, origins[n], drafts, ids, places[n], n)
  }

  lemma OriginsLater(k: Kernel, db: DB, db': DB, op: OperationContext, origins: seq<Origin>, drafts: seq<RecordDraft>,
                     ids: seq<Bytes>, places: seq<Place>)
    requires OriginsRetained(k, db, op, origins, drafts, ids, places)
    requires Extends(db'.records, db.records) && Extends(db'.paths, db.paths) && Extends(db'.contexts, db.contexts)
    ensures OriginsRetained(k, db', op, origins, drafts, ids, places)
  {
    hide CausedAs, ContextAs, CitesAs;
    forall n | 0 <= n < |ids| ensures OriginRetained(k, db', op, origins[n], drafts, ids, places[n], n) {
      assert OriginRetained(k, db, op, origins[n], drafts, ids, places[n], n);
    }
  }

  lemma ListedLater(db: DB, db': DB, contexts: seq<Bytes>, spans: seq<(nat, nat)>, places: seq<Place>)
    requires ContextsListed(db, contexts, spans, places) && Extends(db'.paths, db.paths)
    ensures ContextsListed(db', contexts, spans, places)
  {
    forall i | 0 <= i < |spans| ensures SpanRetained(db', places, spans[i], contexts[i]) {
      assert SpanRetained(db, places, spans[i], contexts[i]);
    }
  }

  lemma SpansRetained(db: DB, spans: seq<(nat, nat)>, st: Staging, places: seq<Place>)
    requires SpansStaged(spans, st) && |places| == |st.facts|
    requires forall n :: 0 <= n < |places| ==>
               places[n] in db.paths && db.paths[places[n]].contextRef == st.facts[n].contextRef
    ensures ContextsListed(db, st.contextReceipts, spans, places)
  {
    forall i | 0 <= i < |spans| ensures SpanRetained(db, places, spans[i], st.contextReceipts[i]) {
      assert SpanIn(st.facts, spans[i], st.contextReceipts[i]);
    }
  }

  /** A staged fact whose row, entry and context are retained is retained as it was staged. */
  lemma StagedRetained(k: Kernel, base: DB, db: DB, op: OperationContext, o: Origin, drafts: seq<RecordDraft>, st: Staging,
                       n: nat, place: Place)
    requires n < |drafts| && n < |st.facts| && StagedAs(k, base, op, o, drafts, st, n)
    requires Extends(db.contexts, base.contexts)
    requires forall c :: c in st.contexts ==> c.contextID in db.contexts && db.contexts[c.contextID] == c
    requires st.facts[n].id in db.records && SameContent(db.records[st.facts[n].id], st.facts[n].row)
    requires place in db.paths && db.paths[place].contextRef == st.facts[n].contextRef
    ensures OriginRetained(k, db, op, o, drafts, StagedIDs(st.facts), place, n)
  {
    hide CausedAs, ContextAs, OrdinaryWitnessPlan;
    var c :| PlacedIn(k, base, op, o, st.contexts, st.facts[n], c);
    assert db.contexts[c.contextID] == c;
  }

  // ---- One context for each group ------------------------------------------

  /** The drafts of every group that has some, as a range of the batch's drafts */
  function Spans(groups: seq<AppendGroup>, at: nat): seq<(nat, nat)> {
    if groups == [] then [] else
      var end := at + |groups[0].drafts|;
      (if groups[0].drafts == [] then [] else [(at, end)]) + Spans(groups[1..], end)
  }

  /** The i-th context is the one every draft of the i-th group that has some is retained in. */
  ghost predicate ContextsListed(db: DB, contexts: seq<Bytes>, spans: seq<(nat, nat)>, places: seq<Place>) {
    |contexts| == |spans| && forall i :: 0 <= i < |spans| ==> SpanRetained(db, places, spans[i], contexts[i])
  }

  ghost predicate SpanRetained(db: DB, places: seq<Place>, span: (nat, nat), context: Bytes) {
    && span.1 <= |places|
    && forall n :: span.0 <= n < span.1 ==> places[n] in db.paths && db.paths[places[n]].contextRef == context
  }

  ghost predicate SpanIn(facts: seq<Fact>, span: (nat, nat), context: Bytes) {
    span.1 <= |facts| && forall n :: span.0 <= n < span.1 ==> facts[n].contextRef == context
  }

  ghost predicate SpansStaged(spans: seq<(nat, nat)>, st: Staging) {
    |st.contextReceipts| == |spans| && forall i :: 0 <= i < |spans| ==> SpanIn(st.facts, spans[i], st.contextReceipts[i])
  }

  /** What staging adds for one group's drafts, all in one context */
  ghost predicate AddsIn(st: Staging, st': Staging, n: nat, context: Bytes) {
    && st'.contextReceipts == st.contextReceipts && st.facts <= st'.facts && |st'.facts| == |st.facts| + n
    && forall j :: |st.facts| <= j < |st'.facts| ==> st'.facts[j].contextRef == context
  }

  lemma {:induction false} DraftsShareContext(k: Kernel, db: DB, intent: Bytes, g: AppendGroup, ctx: RetainedContext,
                                              plan: WitnessPlan, todo: seq<RecordDraft>, st: Staging, st': Staging)
    requires StageDrafts(k, db, intent, g, ctx, plan, todo, st) == Ok(st')
    ensures AddsIn(st, st', |todo|, ctx.contextID)
    decreases |todo|
  {
    hide StageDraft, StageDrafts;
    if todo == [] {
      StageNoDrafts(k, db, intent, g, ctx, plan, st);
    } else {
      var st1 := StageDraftsFirst(k, db, intent, g, ctx, plan, todo, st, st');
      DraftAdds(k, db, intent, g, ctx, plan, todo[0], st, st1);
      DraftsShareContext(k, db, intent, g, ctx, plan, todo[1..], st1, st');
    }
  }

  lemma DraftAdds(k: Kernel, db: DB, intent: Bytes, g: AppendGroup, ctx: RetainedContext, plan: WitnessPlan,
                  d: RecordDraft, st: Staging, st': Staging)
    requires StageDraft(k, db, intent, g, ctx, plan, d, st) == Ok(st')
    ensures AddsIn(st, st', 1, ctx.contextID)
  {
    hide RecordDigest, StoredBody, ResolvedCauses, ParentsKnown, LabelOf;
  }

  lemma GroupSpanned(k: Kernel, db: DB, op: OperationContext, intent: Bytes, index: nat, g: AppendGroup,
                     spans: seq<(nat, nat)>, st: Staging, st': Staging)
    requires SpansStaged(spans, st) && StageGroup(k, db, op, intent, index, g, st) == Ok(st')
    ensures |st'.facts| == |st.facts| + |g.drafts|
    ensures SpansStaged(spans + if g.drafts == [] then [] else [(|st.facts|, |st.facts| + |g.drafts|)], st')
  {
    hide *;
    if g.drafts == [] {
      NoDraftsStaged(k, db, op, intent, index, g, st);
      assert spans + [] == spans;
    } else {
      var ctx, plan := StageGroupCases(k, db, op, intent, index, g, st, st');
      var opened' := OpenGroup(k, db, ctx, plan, st);
      OpenedLists(k, db, ctx, plan, st);
      DraftsShareContext(k, db, intent, g, ctx, plan, g.drafts, opened', st');
      SpansMore(spans, st, opened', st', |g.drafts|, ctx.contextID);
    }
  }

  lemma NoDraftsStaged(k: Kernel, db: DB, op: OperationContext, intent: Bytes, index: nat, g: AppendGroup, st: Staging)
    requires g.drafts == []
    ensures StageGroup(k, db, op, intent, index, g, st) == Ok(st)
  {
  }

  lemma OpenedLists(k: Kernel, db: DB, ctx: RetainedContext, plan: WitnessPlan, st: Staging)
    ensures OpenGroup(k, db, ctx, plan, st).contextReceipts == st.contextReceipts + [ctx.contextID]
    ensures OpenGroup(k, db, ctx, plan, st).facts == st.facts
  {
    hide AddPlan;
  }

  lemma SpansMore(spans: seq<(nat, nat)>, st: Staging, opened': Staging, st': Staging, n: nat, context: Bytes)
    requires SpansStaged(spans, st) && opened'.facts == st.facts
    requires opened'.contextReceipts == st.contextReceipts + [context]
    requires AddsIn(opened', st', n, context)
    ensures |st'.facts| == |st.facts| + n && SpansStaged(spans + [(|st.facts|, |st.facts| + n)], st')
  {
    var more := spans + [(|st.facts|, |st.facts| + n)];
    forall i | 0 <= i < |more| ensures SpanIn(st'.facts, more[i], st'.contextReceipts[i]) {
      if i < |spans| { assert SpanIn(st.facts, spans[i], st.contextReceipts[i]); }
    }
  }

  lemma {:induction false} GroupsSpanned(k: Kernel, db: DB, op: OperationContext, intent: Bytes, index: nat,
                                         groups: seq<AppendGroup>, spans: seq<(nat, nat)>, st: Staging, st': Staging)
    requires SpansStaged(spans, st) && StageGroups(k, db, op, intent, index, groups, st) == Ok(st')
    ensures SpansStaged(spans + Spans(groups, |st.facts|), st')
    decreases |groups|
  {
    hide SpansStaged, StageGroup;
    if groups == [] {
      assert spans + [] == spans;
    } else {
      var g, at := groups[0], |st.facts|;
      var here := if g.drafts == [] then [] else [(at, at + |g.drafts|)];
      var st1 := StageGroup(k, db, op, intent, index, g, st).value;
      GroupSpanned(k, db, op, intent, index, g, spans, st, st1);
      GroupsSpanned(k, db, op, intent, index + 1, groups[1..], spans + here, st1, st');
      Associate(spans, here, Spans(groups[1..], at + |g.drafts|));
    }
  }

  /** Staging lists one context for each group that has drafts. */
  lemma BatchSpanned(k: Kernel, db: DB, op: OperationContext, batch: AppendBatch, st: Staging)
    requires Stage(k, db, op, batch) == Ok(st)
    ensures SpansStaged(Spans(batch.groups, 0), st)
  {
    hide StageGroups;
    GroupsSpanned(k, db, op, batch.intent, 0, batch.groups, [], NOTHING, st);
    assert [] + Spans(batch.groups, 0) == Spans(batch.groups, 0);
  }

  // ---- Growing -------------------------------------------------------------

  lemma NamesMore(drafts: seq<RecordDraft>, more: seq<RecordDraft>, ids: seq<Bytes>, ids': seq<Bytes>, n: nat, n': nat,
                  ref: Bytes, id: Bytes)
    requires NamesEarlier(drafts, ids, n, ref, id) && drafts <= more && ids <= ids' && n <= n'
    ensures NamesEarlier(more, ids', n', ref, id)
  {
    var m: nat :| m < n && m < |drafts| && m < |ids| && drafts[m].localID == ref && ids[m] == id;
    assert more[m] == drafts[m] && ids'[m] == ids[m];
  }

  lemma CausedMore(o: Origin, drafts: seq<RecordDraft>, more: seq<RecordDraft>, ids: seq<Bytes>, ids': seq<Bytes>, n: nat,
                   causes: seq<Bytes>)
    requires n < |drafts| && CausedAs(o, drafts, ids, n, causes) && drafts <= more && ids <= ids'
    ensures CausedAs(o, more, ids', n, causes)
  {
    hide NamesEarlier;
    var d := drafts[n];
    assert more[n] == d;
    forall i | 0 <= i < |d.causedByLocal|
      ensures NamesEarlier(more, ids', n, d.causedByLocal[i], causes[|o.parents| + |d.causedBy| + i])
    {
      NamesMore(drafts, more, ids, ids', n, n, d.causedByLocal[i], causes[|o.parents| + |d.causedBy| + i]);
    }
  }

  lemma PlacedMore(k: Kernel, db: DB, op: OperationContext, o: Origin, contexts: seq<RetainedContext>,
                   more: seq<RetainedContext>, f: Fact, c: RetainedContext)
    requires PlacedIn(k, db, op, o, contexts, f, c) && contexts <= more
    ensures PlacedIn(k, db, op, o, more, f, c)
  {
    hide ContextAs, CitesAs;
  }

  lemma StagedMore(k: Kernel, db: DB, op: OperationContext, o: Origin, drafts: seq<RecordDraft>, more: seq<RecordDraft>,
                   st: Staging, st': Staging, n: nat)
    requires n < |drafts| && n < |st.facts| && StagedAs(k, db, op, o, drafts, st, n)
    requires drafts <= more && st.facts <= st'.facts && st.contexts <= st'.contexts
    ensures n < |more| && n < |st'.facts| && StagedAs(k, db, op, o, more, st', n)
  {
    hide CausedAs, PlacedIn;
    var c :| PlacedIn(k, db, op, o, st.contexts, st.facts[n], c);
    assert st'.facts[n] == st.facts[n];
    PlacedMore(k, db, op, o, st.contexts, st'.contexts, st.facts[n], c);
    IDsMore(st.facts, st'.facts);
    CausedMore(o, drafts, more, StagedIDs(st.facts), StagedIDs(st'.facts), n, st.facts[n].row.causedBy);
  }

  lemma IDsMore(facts: seq<Fact>, more: seq<Fact>)
    requires facts <= more
    ensures StagedIDs(facts) <= StagedIDs(more)
  {
    forall i | 0 <= i < |facts| ensures StagedIDs(facts)[i] == StagedIDs(more)[i] {
      assert facts[i] == more[i];
    }
  }

  // ---- One draft -----------------------------------------------------------

  lemma {:induction false} LocalsResolve(refs: seq<Bytes>, locals: map<Bytes, Bytes>, drafts: seq<RecordDraft>,
                                         ids: seq<Bytes>)
    requires ResolveLocals(refs, locals).Ok? && LocalsNamed(drafts, ids, locals)
    ensures |ResolveLocals(refs, locals).value| == |refs|
    ensures forall i :: 0 <= i < |refs| ==> NamesEarlier(drafts, ids, |ids|, refs[i], ResolveLocals(refs, locals).value[i])
  {
    hide NamesEarlier;
    if refs != [] {
      LocalsResolve(refs[1..], locals, drafts, ids);
      var rest := ResolveLocals(refs[1..], locals).value;
      forall i | 0 <= i < |refs|
        ensures NamesEarlier(drafts, ids, |ids|, refs[i], ResolveLocals(refs, locals).value[i])
      {
        if i > 0 { assert refs[1..][i - 1] == refs[i] && ResolveLocals(refs, locals).value[i] == rest[i - 1]; }
      }
    }
  }

  lemma ResolvedAre(g: AppendGroup, d: RecordDraft, locals: map<Bytes, Bytes>, drafts: seq<RecordDraft>, ids: seq<Bytes>)
    requires ResolvedCauses(g, d, locals).Ok? && LocalsNamed(drafts, ids, locals) && |drafts| == |ids|
    ensures CausedAs(OriginOf(g), drafts + [d], ids, |drafts|, ResolvedCauses(g, d, locals).value)
  {
    hide LocalsNamed, NamesEarlier;
    LocalsResolve(d.causedByLocal, locals, drafts, ids);
    var causes, local := ResolvedCauses(g, d, locals).value, ResolveLocals(d.causedByLocal, locals).value;
    assert causes == g.causalParents + d.causedBy + local;
    forall i | 0 <= i < |d.causedByLocal|
      ensures NamesEarlier(drafts + [d], ids, |drafts|, d.causedByLocal[i], causes[|g.causalParents| + |d.causedBy| + i])
    {
      assert causes[|g.causalParents| + |d.causedBy| + i] == local[i];
      NamesMore(drafts, drafts + [d], ids, ids, |ids|, |drafts|, d.causedByLocal[i], local[i]);
    }
  }

  lemma LocalsMore(drafts: seq<RecordDraft>, ids: seq<Bytes>, locals: map<Bytes, Bytes>, d: RecordDraft, id: Bytes)
    requires LocalsNamed(drafts, ids, locals) && |drafts| == |ids|
    ensures LocalsNamed(drafts + [d], ids + [id], if d.localID == "" then locals else locals[d.localID := id])
  {
    hide NamesEarlier;
    var locals' := if d.localID == "" then locals else locals[d.localID := id];
    forall x | x in locals' ensures NamesEarlier(drafts + [d], ids + [id], |ids| + 1, x, locals'[x]) {
      if d.localID != "" && x == d.localID {
        NamesLast(drafts, ids, d, id);
      } else {
        NamesMore(drafts, drafts + [d], ids, ids + [id], |ids|, |ids| + 1, x, locals[x]);
      }
    }
  }

  lemma NamesLast(drafts: seq<RecordDraft>, ids: seq<Bytes>, d: RecordDraft, id: Bytes)
    requires |drafts| == |ids| && d.localID != ""
    ensures NamesEarlier(drafts + [d], ids + [id], |ids| + 1, d.localID, id)
  {
    var m := |ids|;
    assert (drafts + [d])[m] == d && (ids + [id])[m] == id;
  }

  lemma StagedParts(k: Kernel, db: DB, intent: Bytes, g: AppendGroup, ctx: RetainedContext, plan: WitnessPlan,
                    d: RecordDraft, st: Staging, st': Staging) returns (f: Fact)
    requires StageDraft(k, db, intent, g, ctx, plan, d, st) == Ok(st')
    ensures ResolvedCauses(g, d, st.locals).Ok? && f.row.causedBy == ResolvedCauses(g, d, st.locals).value
    ensures f.row.witnessRef == plan.recordID && f.contextRef == ctx.contextID
    ensures st'.facts == st.facts + [f] && st'.contexts == st.contexts
    ensures st'.locals == if d.localID == "" then st.locals else st.locals[d.localID := f.id]
  {
    hide RecordDigest, StoredBody, ResolvedCauses, ParentsKnown;
    var causedBy := ResolvedCauses(g, d, st.locals).value;
    var id := RecordDigest(k, d.schemaRef, d.mode, d.payload, causedBy, plan.recordID).value;
    f := FactOf(id, d, causedBy, g, ctx, plan, intent);
  }

  lemma IDsSnoc(facts: seq<Fact>, f: Fact)
    ensures StagedIDs(facts + [f]) == StagedIDs(facts) + [f.id]
  {
  }

  /** The group's context and witness, found before its drafts are staged */
  ghost predicate GroupIn(k: Kernel, db: DB, op: OperationContext, o: Origin, contexts: seq<RetainedContext>,
                          ctx: RetainedContext, plan: WitnessPlan)
  {
    && (ctx in contexts || (ctx.contextID in db.contexts && db.contexts[ctx.contextID] == ctx))
    && ContextAs(o, op, ctx) && OrdinaryWitnessPlan(k, ctx, op) == Ok(plan)
  }

  lemma PlacedFact(k: Kernel, db: DB, op: OperationContext, o: Origin, contexts: seq<RetainedContext>,
                   ctx: RetainedContext, plan: WitnessPlan, f: Fact)
    requires GroupIn(k, db, op, o, contexts, ctx, plan)
    requires f.contextRef == ctx.contextID && f.row.witnessRef == plan.recordID
    ensures PlacedIn(k, db, op, o, contexts, f, ctx)
  {
    hide ContextAs, OrdinaryWitnessPlan;
  }

  lemma CausedWith(o: Origin, drafts: seq<RecordDraft>, ids: seq<Bytes>, id: Bytes, n: nat, causes: seq<Bytes>)
    requires n < |drafts| && CausedAs(o, drafts, ids, n, causes)
    ensures CausedAs(o, drafts, ids + [id], n, causes)
  {
    CausedMore(o, drafts, drafts, ids, ids + [id], n, causes);
  }

  lemma OneStaged(k: Kernel, db: DB, op: OperationContext, intent: Bytes, g: AppendGroup, ctx: RetainedContext,
                  plan: WitnessPlan, d: RecordDraft, st: Staging, origins: seq<Origin>, drafts: seq<RecordDraft>,
                  st': Staging)
    requires AllStaged(k, db, op, origins, drafts, st) && GroupIn(k, db, op, OriginOf(g), st.contexts, ctx, plan)
    requires StageDraft(k, db, intent, g, ctx, plan, d, st) == Ok(st')
    ensures AllStaged(k, db, op, origins + [OriginOf(g)], drafts + [d], st') && st'.contexts == st.contexts
  {
    hide StageDraft, GroupIn, StagedAs, LocalsNamed, CausedAs, PlacedIn, ResolvedCauses, OriginOf, StagedIDs;
    var f := StagedParts(k, db, intent, g, ctx, plan, d, st, st');
    var ids := StagedIDs(st.facts);
    IDsSnoc(st.facts, f);
    ResolvedAre(g, d, st.locals, drafts, ids);
    LocalsMore(drafts, ids, st.locals, d, f.id);
    CausedWith(OriginOf(g), drafts + [d], ids, f.id, |drafts|, f.row.causedBy);
    PlacedFact(k, db, op, OriginOf(g), st.contexts, ctx, plan, f);
    NewStaged(k, db, op, OriginOf(g), drafts + [d], st', |drafts|, ctx);
    forall n | 0 <= n < |drafts| + 1 ensures StagedAs(k, db, op, (origins + [OriginOf(g)])[n], drafts + [d], st', n) {
      if n < |drafts| { StagedMore(k, db, op, origins[n], drafts, drafts + [d], st, st', n); }
    }
  }

  lemma NewStaged(k: Kernel, db: DB, op: OperationContext, o: Origin, drafts: seq<RecordDraft>, st: Staging, n: nat,
                  c: RetainedContext)
    requires n < |drafts| && n < |st.facts|
    requires CausedAs(o, drafts, StagedIDs(st.facts), n, st.facts[n].row.causedBy)
    requires PlacedIn(k, db, op, o, st.contexts, st.facts[n], c)
    ensures StagedAs(k, db, op, o, drafts, st, n)
  {
    hide CausedAs, PlacedIn;
  }

  // ---- A batch -------------------------------------------------------------

  lemma CopiesFirst(o: Origin, n: nat)
    ensures Copies(o, 0) == [] && (n > 0 ==> Copies(o, n) == [o] + Copies(o, n - 1))
  {
  }

  lemma {:induction false} DraftsStaged(k: Kernel, db: DB, op: OperationContext, intent: Bytes, g: AppendGroup,
                                        ctx: RetainedContext, plan: WitnessPlan, todo: seq<RecordDraft>, st: Staging,
                                        origins: seq<Origin>, drafts: seq<RecordDraft>, st': Staging)
    requires AllStaged(k, db, op, origins, drafts, st) && GroupIn(k, db, op, OriginOf(g), st.contexts, ctx, plan)
    requires StageDrafts(k, db, intent, g, ctx, plan, todo, st) == Ok(st')
    ensures AllStaged(k, db, op, origins + Copies(OriginOf(g), |todo|), drafts + todo, st')
    ensures st'.contexts == st.contexts
    decreases |todo|
  {
    hide *;
    CopiesFirst(OriginOf(g), |todo|);
    if todo == [] {
      StageNoDrafts(k, db, intent, g, ctx, plan, st);
      assert drafts + todo == drafts && origins + [] == origins;
    } else {
      var st1 := StageDraftsFirst(k, db, intent, g, ctx, plan, todo, st, st');
      OneStaged(k, db, op, intent, g, ctx, plan, todo[0], st, origins, drafts, st1);
      DraftsStaged(k, db, op, intent, g, ctx, plan, todo[1..], st1, origins + [OriginOf(g)], drafts + [todo[0]], st');
      Associate(drafts, [todo[0]], todo[1..]);
      Rejoin(todo, 1, [todo[0]], todo[1..]);
      Associate(origins, [OriginOf(g)], Copies(OriginOf(g), |todo| - 1));
    }
  }

  lemma ResolvedContextAs(k: Kernel, db: DB, intent: Bytes, index: nat, g: AppendGroup, op: OperationContext,
                          c: RetainedContext)
    requires forall x :: x in db.contexts ==> db.contexts[x].contextID == x
    requires ResolveGroupContext(k, db, intent, index, g.context, op) == Ok(c)
    ensures ContextAs(OriginOf(g), op, c) && (c.contextID in db.contexts ==> db.contexts[c.contextID] == c)
  {
    hide ContextIDFor;
    if g.context.None? { assert Deduplicate([] + [op.schemaEnvironment]) == [op.schemaEnvironment]; }
  }

  lemma OpenedGroup(k: Kernel, db: DB, op: OperationContext, o: Origin, ctx: RetainedContext, plan: WitnessPlan,
                    st: Staging)
    requires ContextAs(o, op, ctx) && (ctx.contextID in db.contexts ==> db.contexts[ctx.contextID] == ctx)
    requires OrdinaryWitnessPlan(k, ctx, op) == Ok(plan)
    ensures var st' := OpenGroup(k, db, ctx, plan, st);
            && GroupIn(k, db, op, o, st'.contexts, ctx, plan) && st.contexts <= st'.contexts
            && st'.facts == st.facts && st'.locals == st.locals
  {
    hide ContextAs, OrdinaryWitnessPlan, AddPlan;
    assert OpenGroup(k, db, ctx, plan, st).contexts == st.contexts + if ctx.contextID in db.contexts then [] else [ctx];
  }

  lemma AllStagedMore(k: Kernel, db: DB, op: OperationContext, origins: seq<Origin>, drafts: seq<RecordDraft>,
                      st: Staging, st': Staging)
    requires AllStaged(k, db, op, origins, drafts, st)
    requires st.contexts <= st'.contexts && st'.facts == st.facts && st'.locals == st.locals
    ensures AllStaged(k, db, op, origins, drafts, st')
  {
    hide StagedAs, LocalsNamed;
    forall n | 0 <= n < |drafts| ensures StagedAs(k, db, op, origins[n], drafts, st', n) {
      StagedMore(k, db, op, origins[n], drafts, drafts, st, st', n);
    }
  }

  lemma StageGroupCases(k: Kernel, db: DB, op: OperationContext, intent: Bytes, index: nat, g: AppendGroup, st: Staging,
                        st': Staging) returns (ctx: RetainedContext, plan: WitnessPlan)
    requires StageGroup(k, db, op, intent, index, g, st) == Ok(st') && g.drafts != []
    ensures ResolveGroupContext(k, db, intent, index, g.context, op) == Ok(ctx)
    ensures OrdinaryWitnessPlan(k, ctx, op) == Ok(plan)
    ensures StageDrafts(k, db, intent, g, ctx, plan, g.drafts, OpenGroup(k, db, ctx, plan, st)) == Ok(st')
  {
    hide ResolveGroupContext, OrdinaryWitnessPlan, StageDrafts, OpenGroup;
    ctx := ResolveGroupContext(k, db, intent, index, g.context, op).value;
    plan := OrdinaryWitnessPlan(k, ctx, op).value;
  }

  lemma GroupStaged(k: Kernel, db: DB, op: OperationContext, intent: Bytes, index: nat, g: AppendGroup, st: Staging,
                    origins: seq<Origin>, drafts: seq<RecordDraft>, st': Staging)
    requires forall x :: x in db.contexts ==> db.contexts[x].contextID == x
    requires AllStaged(k, db, op, origins, drafts, st) && StageGroup(k, db, op, intent, index, g, st) == Ok(st')
    ensures AllStaged(k, db, op, origins + Copies(OriginOf(g), |g.drafts|), drafts + g.drafts, st')
  {
    if g.drafts == [] {
      hide AllStaged;
      assert drafts + g.drafts == drafts && origins + Copies(OriginOf(g), 0) == origins;
    } else {
      hide *;
      var ctx, plan := StageGroupCases(k, db, op, intent, index, g, st, st');
      ResolvedContextAs(k, db, intent, index, g, op, ctx);
      OpenedGroup(k, db, op, OriginOf(g), ctx, plan, st);
      AllStagedMore(k, db, op, origins, drafts, st, OpenGroup(k, db, ctx, plan, st));
      DraftsStaged(k, db, op, intent, g, ctx, plan, g.drafts, OpenGroup(k, db, ctx, plan, st), origins, drafts, st');
    }
  }

  lemma {:induction false} GroupsStaged(k: Kernel, db: DB, op: OperationContext, intent: Bytes, index: nat,
                                        groups: seq<AppendGroup>, st: Staging, origins: seq<Origin>,
                                        drafts: seq<RecordDraft>, st': Staging)
    requires forall x :: x in db.contexts ==> db.contexts[x].contextID == x
    requires AllStaged(k, db, op, origins, drafts, st)
    requires StageGroups(k, db, op, intent, index, groups, st) == Ok(st')
    ensures AllStaged(k, db, op, origins + AllOrigins(groups), drafts + AllDrafts(groups), st')
    decreases |groups|
  {
    hide AllStaged, StageGroup, OriginOf, Copies;
    if groups == [] {
      assert drafts + AllDrafts(groups) == drafts && origins + AllOrigins(groups) == origins;
    } else {
      var g := groups[0];
      var st1 := StageGroup(k, db, op, intent, index, g, st).value;
      var here := Copies(OriginOf(g), |g.drafts|);
      GroupStaged(k, db, op, intent, index, g, st, origins, drafts, st1);
      GroupsStaged(k, db, op, intent, index + 1, groups[1..], st1, origins + here, drafts + g.drafts, st');
      Associate(drafts, g.drafts, AllDrafts(groups[1..]));
      Associate(origins, here, AllOrigins(groups[1..]));
    }
  }

  /** Every staged fact is caused, placed and witnessed as its draft and its group say. */
  lemma BatchStaged(k: Kernel, db: DB, op: OperationContext, batch: AppendBatch, st: Staging)
    requires forall x :: x in db.contexts ==> db.contexts[x].contextID == x
    requires Stage(k, db, op, batch) == Ok(st)
    ensures AllStaged(k, db, op, AllOrigins(batch.groups), AllDrafts(batch.groups), st)
  {
    NothingStaged(k, db, op);
    hide AllStaged, StageGroups;
    GroupsStaged(k, db, op, batch.intent, 0, batch.groups, NOTHING, [], [], st);
    assert [] + AllDrafts(batch.groups) == AllDrafts(batch.groups);
    assert [] + AllOrigins(batch.groups) == AllOrigins(batch.groups);
  }

  lemma NothingStaged(k: Kernel, db: DB, op: OperationContext)
    ensures AllStaged(k, db, op, [], [], NOTHING)
  {
  }
}
