/** prepareAppend and previewFactIDs as the nested loops they are, proved against the append functions. */
module Preparing {
  import opened Wrappers
  import opened Seqs
  import opened Utf8
  import opened Trace
  import opened Digests
  import opened Tables
  import opened Append
  import opened Reading
  import opened Store
  import Invariant

  /** A staged fact with the ordinal its view carries */
  datatype StagedFact = StagedFact(fact: Fact, ordinal: nat)

  /** The local variables of prepareAppend */
  datatype Prepare = Prepare(
    stagedIDs: set<Bytes>,
    locals: map<Bytes, Bytes>,
    stagedNext: map<Bytes, nat>,
    commits: seq<Bytes>,
    edges: seq<(Bytes, Bytes)>,
    contextReceipts: seq<Bytes>,
    ranges: map<Bytes, (int, int)>,
    planMap: map<Bytes, WitnessPlan>,
    planOrder: seq<Bytes>,
    contexts: seq<RetainedContext>,
    facts: seq<StagedFact>)

  datatype Prepared = Prepared(
    contexts: seq<RetainedContext>,
    plans: seq<WitnessPlan>,
    facts: seq<StagedFact>,
    receipt: AppendReceipt)

  function Facts(staged: seq<StagedFact>): (r: seq<Fact>)
    ensures |r| == |staged|
  {
    seq(|staged|, i requires 0 <= i < |staged| => staged[i].fact)
  }

  lemma FactsSnoc(staged: seq<StagedFact>, f: StagedFact)
    ensures Facts(staged + [f]) == Facts(staged) + [f.fact]
  {
  }

  // ---- Witness plans -------------------------------------------------------

  ghost predicate PlansTracked(plans: seq<WitnessPlan>, planMap: map<Bytes, WitnessPlan>, order: seq<Bytes>) {
    && Ordered(planMap, order)
    && (forall id :: id in planMap ==> planMap[id].recordID == id)
    && plans == ValuesIn(planMap, order)
  }

  /** AddPlan replaces the plan with the same id, or appends. */
  lemma {:induction false} AddPlanAt(plans: seq<WitnessPlan>, plan: WitnessPlan, i: nat)
    requires i <= |plans| && forall j :: 0 <= j < i ==> plans[j].recordID != plan.recordID
    requires i < |plans| ==> plans[i].recordID == plan.recordID
    ensures AddPlan(plans, plan) == if i < |plans| then plans[i := plan] else plans + [plan]
    decreases |plans|
  {
    if i > 0 {
      AddPlanAt(plans[1..], plan, i - 1);
      assert plans == [plans[0]] + plans[1..];
    } else if plans != [] {
      assert plans[0 := plan] == [plan] + plans[1..];
    }
  }

  lemma PlanReplaced(planMap: map<Bytes, WitnessPlan>, order: seq<Bytes>, plan: WitnessPlan, i: nat)
    requires Ordered(planMap, order) && i < |order| && order[i] == plan.recordID
    ensures i < |ValuesIn(planMap, order)|
    ensures ValuesIn(planMap[plan.recordID := plan], order) == ValuesIn(planMap, order)[i := plan]
  {
    var m := planMap[plan.recordID := plan];
    ValuesAre(planMap, order);
    ValuesAre(m, order);
    forall j | 0 <= j < |order| ensures ValuesIn(m, order)[j] == ValuesIn(planMap, order)[i := plan][j] {
      assert order[j] in order;
    }
  }

  lemma PlanAppended(planMap: map<Bytes, WitnessPlan>, order: seq<Bytes>, plan: WitnessPlan)
    requires Ordered(planMap, order) && plan.recordID !in planMap
    ensures ValuesIn(planMap[plan.recordID := plan], order + [plan.recordID]) == ValuesIn(planMap, order) + [plan]
  {
    var m, more := planMap[plan.recordID := plan], order + [plan.recordID];
    ValuesAre(planMap, order);
    ValuesAre(m, more);
    forall j | 0 <= j < |more| ensures ValuesIn(m, more)[j] == (ValuesIn(planMap, order) + [plan])[j] {
      if j < |order| { assert order[j] in order && more[j] == order[j]; }
    }
  }

  lemma PlanIDs(planMap: map<Bytes, WitnessPlan>, order: seq<Bytes>)
    requires Ordered(planMap, order) && forall id :: id in planMap ==> planMap[id].recordID == id
    ensures |ValuesIn(planMap, order)| == |order|
    ensures forall j :: 0 <= j < |order| ==> ValuesIn(planMap, order)[j].recordID == order[j]
  {
    ValuesAre(planMap, order);
    forall j | 0 <= j < |order| ensures planMap[order[j]].recordID == order[j] { assert order[j] in order; }
  }

  lemma PlanAdded(plans: seq<WitnessPlan>, planMap: map<Bytes, WitnessPlan>, order: seq<Bytes>, plan: WitnessPlan)
    requires PlansTracked(plans, planMap, order)
    ensures var id := plan.recordID;
            PlansTracked(AddPlan(plans, plan), planMap[id := plan], if id in planMap then order else order + [id])
  {
    var id := plan.recordID;
    PlanIDs(planMap, order);
    if id in planMap {
      assert id in order;
      var i :| 0 <= i < |order| && order[i] == id;
      assert forall j :: 0 <= j < i ==> order[j] != id;
      hide ValuesIn, AddPlan;
      PlanReplaced(planMap, order, plan, i);
      AddPlanAt(plans, plan, i);
    } else {
      assert forall j :: 0 <= j < |order| ==> order[j] in order;
      hide ValuesIn, AddPlan;
      PlanAppended(planMap, order, plan);
      OrderedAdd(planMap, order, id, plan);
      AddPlanAt(plans, plan, |plans|);
    }
  }

  /** addWitnessPlan */
  method AddWitnessPlan(planMap: map<Bytes, WitnessPlan>, order: seq<Bytes>, plan: WitnessPlan,
                        ghost plans: seq<WitnessPlan>)
      returns (planMap': map<Bytes, WitnessPlan>, order': seq<Bytes>)
    requires PlansTracked(plans, planMap, order)
    ensures PlansTracked(AddPlan(plans, plan), planMap', order')
  {
    PlanAdded(plans, planMap, order, plan);
    order' := order;
    if plan.recordID !in planMap { order' := order + [plan.recordID]; }
    planMap' := planMap[plan.recordID := plan];
  }

  // ---- Staged facts --------------------------------------------------------

  ghost predicate Numbered(db: DB, staged: seq<StagedFact>) {
    forall n :: 0 <= n < |staged| ==> staged[n].ordinal == PlaceOf(db, Facts(staged), n).1
  }

  /** The facts, receipts and edges so far are those of the staging. */
  ghost predicate FactsTracked(db: DB, st: Staging, p: Prepare) {
    && st.facts == Facts(p.facts) && st.locals == p.locals
    && (forall id :: id in p.stagedIDs <==> IsStaged(st.facts, id))
    && p.commits == CommitReceipts(db.nextCommit, |p.facts|)
    && p.edges == CausalEdges(st.facts)
    && Numbered(db, p.facts)
  }

  ghost predicate GroupsTracked(st: Staging, p: Prepare) {
    && st.contexts == p.contexts && st.contextReceipts == p.contextReceipts
    && PlansTracked(st.plans, p.planMap, p.planOrder)
  }

  ghost predicate OwnersTracked(db: DB, facts: seq<Fact>, p: Prepare) {
    && p.ranges == OwnerRanges(db, facts)
    && (forall o :: o in p.stagedNext ==> p.stagedNext[o] == Next(db, o) + CountOwner(facts, o))
  }

  lemma StagedSnoc(facts: seq<Fact>, f: Fact, id: Bytes)
    ensures IsStaged(facts + [f], id) <==> IsStaged(facts, id) || f.id == id
  {
    var all := facts + [f];
    if i :| 0 <= i < |facts| && facts[i].id == id { assert all[i].id == id; }
    if f.id == id { assert all[|facts|].id == id; }
  }

  lemma CountSnoc(facts: seq<Fact>, f: Fact, o: Bytes)
    ensures CountOwner(facts + [f], o) == CountOwner(facts, o) + if f.owner == o then 1 else 0
  {
    assert (facts + [f])[..|facts|] == facts;
  }

  lemma EdgesSnoc(facts: seq<Fact>, f: Fact)
    ensures CausalEdges(facts + [f]) == CausalEdges(facts) + EdgesTo(f.id, f.row.causedBy)
  {
    assert (facts + [f])[..|facts|] == facts;
  }

  lemma CommitsSnoc(from: nat, n: nat)
    ensures CommitReceipts(from, n + 1) == CommitReceipts(from, n) + [CommitReceipt(from + n)]
  {
  }

  lemma NumberedSnoc(db: DB, staged: seq<StagedFact>, f: Fact)
    requires Numbered(db, staged)
    ensures Numbered(db, staged + [StagedFact(f, Next(db, f.owner) + CountOwner(Facts(staged), f.owner))])
  {
    var more := staged + [StagedFact(f, Next(db, f.owner) + CountOwner(Facts(staged), f.owner))];
    FactsSnoc(staged, more[|staged|]);
    forall n | 0 <= n < |more| ensures more[n].ordinal == PlaceOf(db, Facts(more), n).1 {
      assert Facts(more)[..n] == Facts(staged)[..n];
      if n == |staged| { assert Facts(staged)[..n] == Facts(staged); }
    }
  }

  /** Recording one staged fact */
  lemma FactTracked(db: DB, st: Staging, p: Prepare, f: Fact, locals: map<Bytes, Bytes>, ordinal: nat)
    requires FactsTracked(db, st, p) && ordinal == Next(db, f.owner) + CountOwner(st.facts, f.owner)
    ensures FactsTracked(db, st.(facts := st.facts + [f], locals := locals),
                         p.(stagedIDs := p.stagedIDs + {f.id}, locals := locals,
                            commits := p.commits + [CommitReceipt(db.nextCommit + |p.facts|)],
                            edges := p.edges + EdgesTo(f.id, f.row.causedBy),
                            facts := p.facts + [StagedFact(f, ordinal)]))
  {
    hide CausalEdges, Numbered, CountOwner, IsStaged, CommitReceipts, Facts;
    FactsSnoc(p.facts, StagedFact(f, ordinal));
    forall id ensures IsStaged(st.facts + [f], id) <==> IsStaged(st.facts, id) || f.id == id { StagedSnoc(st.facts, f, id); }
    EdgesSnoc(st.facts, f);
    CommitsSnoc(db.nextCommit, |p.facts|);
    NumberedSnoc(db, p.facts, f);
  }

  /** validateCausalParentsTx */
  method ValidateCausalParents(db: DB, causedBy: seq<Bytes>, stagedIDs: set<Bytes>, ghost facts: seq<Fact>)
      returns (ok: bool)
    requires forall id :: id in stagedIDs <==> IsStaged(facts, id)
    ensures ok <==> ParentsKnown(db, facts, causedBy)
  {
    hide IsStaged;
    for i := 0 to |causedBy|
      invariant forall j :: 0 <= j < i ==> causedBy[j] in stagedIDs || causedBy[j] in db.records
    {
      if causedBy[i] !in stagedIDs {
        if causedBy[i] !in db.records {
          assert causedBy[i] in causedBy;
          return false;
        }
      }
    }
    return true;
  }

  // ---- One group -----------------------------------------------------------

  lemma EdgeAppended(edges: seq<(Bytes, Bytes)>, child: Bytes, parents: seq<Bytes>, j: nat)
    requires j < |parents|
    ensures edges + EdgesTo(child, parents[..j]) + [(parents[j], child)] == edges + EdgesTo(child, parents[..j + 1])
  {
    EdgesToSnoc(child, parents, j);
    Associate(edges, EdgesTo(child, parents[..j]), [(parents[j], child)]);
  }

  /** The edges of one staged fact, in parent order */
  method AppendEdges(edges: seq<(Bytes, Bytes)>, child: Bytes, parents: seq<Bytes>) returns (edges': seq<(Bytes, Bytes)>)
    ensures edges' == edges + EdgesTo(child, parents)
  {
    edges' := edges;
    assert edges + EdgesTo(child, parents[..0]) == edges;
    for j := 0 to |parents|
      invariant edges' == edges + EdgesTo(child, parents[..j])
    {
      EdgeAppended(edges, child, parents, j);
      edges' := edges' + [(parents[j], child)];
    }
    assert parents[..|parents|] == parents;
  }

  lemma StageDraftsStep(k: Kernel, db: DB, intent: Bytes, g: AppendGroup, ctx: RetainedContext, plan: WitnessPlan,
                        j: nat, st: Staging)
    requires j < |g.drafts|
    ensures StageDrafts(k, db, intent, g, ctx, plan, g.drafts[j..], st) ==
            match StageDraft(k, db, intent, g, ctx, plan, g.drafts[j], st)
            case Err(e) => Err(e)
            case Ok(st1) => StageDrafts(k, db, intent, g, ctx, plan, g.drafts[j + 1..], st1)
  {
    assert g.drafts[j..][1..] == g.drafts[j + 1..];
  }

  /** Of a group being staged: whose facts are new, and what the counts of the others are */
  ghost predicate SameOthers(before: seq<Fact>, after: seq<Fact>, owner: Bytes, n: nat) {
    && |after| == |before| + n
    && (forall o :: o != owner ==> CountOwner(after, o) == CountOwner(before, o))
    && CountOwner(after, owner) == CountOwner(before, owner) + n
    && Owners(after) == Owners(before) + if n > 0 then {owner} else {}
  }

  lemma SameOthersSnoc(before: seq<Fact>, after: seq<Fact>, f: Fact, n: nat)
    requires SameOthers(before, after, f.owner, n)
    ensures SameOthers(before, after + [f], f.owner, n + 1)
  {
    forall o ensures CountOwner(after + [f], o) == CountOwner(after, o) + if f.owner == o then 1 else 0 {
      CountSnoc(after, f, o);
    }
    hide CountOwner;
    assert forall x :: x in after + [f] <==> x in after || x == f;
    assert Owners(after + [f]) == Owners(after) + {f.owner};
  }

  /** Staging one draft: what the spec does, on the tracked variables */
  method PrepareDraft(k: Kernel, db: DB, intent: Bytes, g: AppendGroup, ctx: RetainedContext, plan: WitnessPlan,
                      d: RecordDraft, p: Prepare, ordinal: nat, ghost st: Staging) returns (r: Result<Prepare>)
    requires FactsTracked(db, st, p) && GroupsTracked(st, p)
    requires ordinal == Next(db, g.owner) + CountOwner(st.facts, g.owner)
    ensures var expected := StageDraft(k, db, intent, g, ctx, plan, d, st);
            if expected.Err? then r == Err(expected.error) else
              && r.Ok? && FactsTracked(db, expected.value, r.value) && GroupsTracked(expected.value, r.value)
              && r.value.ranges == p.ranges && r.value.stagedNext == p.stagedNext
              && expected.value.facts[..|st.facts|] == st.facts && |expected.value.facts| == |st.facts| + 1
              && expected.value.facts[|st.facts|].owner == g.owner
  {
    var causedBy := ResolveCauses(g, d, p.locals);
    if causedBy.Err? { return Err(causedBy.error); }
    var known := ValidateCausalParents(db, causedBy.value, p.stagedIDs, st.facts);
    if !known { return Err(UnknownFact); }
    var commit := CommitReceipt(db.nextCommit + |p.facts|);
    var id := RecordDigest(k, d.schemaRef, d.mode, d.payload, causedBy.value, plan.recordID);
    if id.Err? { return Err(id.error); }
    var locals := p.locals;
    if d.localID != "" { locals := locals[d.localID := id.value]; }
    var f := FactOf(id.value, d, causedBy.value, g, ctx, plan, intent);
    var edges := AppendEdges(p.edges, f.id, causedBy.value);
    assert StageDraft(k, db, intent, g, ctx, plan, d, st) == Ok(st.(facts := st.facts + [f], locals := locals));
    FactTracked(db, st, p, f, locals, ordinal);
    r := Ok(p.(stagedIDs := p.stagedIDs + {id.value}, locals := locals, commits := p.commits + [commit], edges := edges,
               facts := p.facts + [StagedFact(f, ordinal)]));
  }

  /** The loop over the drafts of one group */
  method PrepareDrafts(k: Kernel, db: DB, intent: Bytes, g: AppendGroup, ctx: RetainedContext, plan: WitnessPlan,
                       p: Prepare, start: nat, ghost st: Staging) returns (r: Result<Prepare>, ordinal: nat)
    requires FactsTracked(db, st, p) && GroupsTracked(st, p)
    requires start == Next(db, g.owner) + CountOwner(st.facts, g.owner)
    ensures var expected := StageDrafts(k, db, intent, g, ctx, plan, g.drafts, st);
            if expected.Err? then r == Err(expected.error) else
              && r.Ok? && FactsTracked(db, expected.value, r.value) && GroupsTracked(expected.value, r.value)
              && r.value.ranges == p.ranges && r.value.stagedNext == p.stagedNext
              && SameOthers(st.facts, expected.value.facts, g.owner, |g.drafts|)
              && ordinal == Next(db, g.owner) + CountOwner(expected.value.facts, g.owner)
  {
    ghost var expected := StageDrafts(k, db, intent, g, ctx, plan, g.drafts, st);
    ghost var cur := st;
    var q := p;
    ordinal := start;
    SameOthersStart(st.facts, g.owner);
    assert g.drafts[0..] == g.drafts;
    hide *;
    for j := 0 to |g.drafts|
      invariant StageDrafts(k, db, intent, g, ctx, plan, g.drafts[j..], cur) == expected
      invariant FactsTracked(db, cur, q) && GroupsTracked(cur, q)
      invariant q.ranges == p.ranges && q.stagedNext == p.stagedNext
      invariant SameOthers(st.facts, cur.facts, g.owner, j)
      invariant ordinal == Next(db, g.owner) + CountOwner(cur.facts, g.owner)
    {
      StageDraftsStep(k, db, intent, g, ctx, plan, j, cur);
      var one := PrepareDraft(k, db, intent, g, ctx, plan, g.drafts[j], q, ordinal, cur);
      if one.Err? { return Err(one.error), ordinal; }
      ghost var next := StageDraft(k, db, intent, g, ctx, plan, g.drafts[j], cur).value;
      OneMoreFact(st.facts, cur.facts, next.facts, g.owner, j);
      q, ordinal := one.value, ordinal + 1;
      cur := next;
    }
    StageDraftsEnd(k, db, intent, g, ctx, plan, cur);
    return Ok(q), ordinal;
  }

  lemma SameOthersStart(facts: seq<Fact>, owner: Bytes)
    ensures SameOthers(facts, facts, owner, 0)
  {
  }

  lemma OneMoreFact(before: seq<Fact>, facts: seq<Fact>, next: seq<Fact>, owner: Bytes, n: nat)
    requires SameOthers(before, facts, owner, n)
    requires |next| == |facts| + 1 && next[..|facts|] == facts && next[|facts|].owner == owner
    ensures SameOthers(before, next, owner, n + 1) && CountOwner(next, owner) == CountOwner(facts, owner) + 1
  {
    Rejoin(next, |facts|, facts, [next[|facts|]]);
    SameOthersSnoc(before, facts, next[|facts|], n);
    CountSnoc(facts, next[|facts|], owner);
  }

  lemma StageDraftsEnd(k: Kernel, db: DB, intent: Bytes, g: AppendGroup, ctx: RetainedContext, plan: WitnessPlan,
                       st: Staging)
    ensures StageDrafts(k, db, intent, g, ctx, plan, g.drafts[|g.drafts|..], st) == Ok(st)
  {
  }

  /** resolveGroupContextTx */
  method ResolveContext(k: Kernel, db: DB, intent: Bytes, index: nat, ctx: Option<RetainedContext>, op: OperationContext)
      returns (r: Result<RetainedContext>)
    ensures r == ResolveGroupContext(k, db, intent, index, ctx, op)
  {
    if ctx.Some? && ctx.value.contextID != "" {
      if ctx.value.substrate == "" { return ReadContext(db, ctx.value.contextID); }
    }
    var draft := DefaultContextDraft();
    if ctx.Some? { draft := ctx.value; }
    var environments := DeduplicateStrings(draft.semanticEnvironments + [op.schemaEnvironment]);
    var payload := draft.(contextID := "", semanticEnvironments := environments);
    assert payload == ContextPayload(draft, op);
    var id := ContextIDFor(k, intent, index, payload);
    if id.Err? { return Err(id.error); }
    var newCtx := payload.(contextID := id.value);
    if id.value in db.contexts {
      if db.contexts[id.value] != newCtx { return Err(StoreLaw); }
      return Ok(db.contexts[id.value]);
    }
    return Ok(newCtx);
  }

  lemma GrownMap<V>(m: map<Bytes, V>, key: Bytes, v: V, n: map<Bytes, V>)
    requires n.Keys == m.Keys + {key} && n[key] == v && forall o :: o in m && o != key ==> n[o] == m[o]
    ensures n == m[key := v]
  {
  }

  lemma NoneOfOwner(facts: seq<Fact>, owner: Bytes)
    requires owner !in Owners(facts)
    ensures CountOwner(facts, owner) == 0
  {
    forall f | f in facts ensures f.owner != owner { assert f.owner in Owners(facts); }
    Invariant.CountZero(facts, owner);
  }

  /** The ordinals the facts take on one owner */
  function RangeOf(db: DB, facts: seq<Fact>, owner: Bytes): (int, int) {
    (Next(db, owner), Next(db, owner) + CountOwner(facts, owner) - 1)
  }

  lemma RangesGrow(db: DB, before: seq<Fact>, after: seq<Fact>, owner: Bytes, n: nat)
    requires SameOthers(before, after, owner, n) && n > 0
    ensures OwnerRanges(db, after) == OwnerRanges(db, before)[owner := RangeOf(db, after, owner)]
  {
    hide *;
    OthersGrow(before, after, owner, n);
    RangesAre(db, before);
    RangesAre(db, after);
    forall o | o in Owners(before) && o != owner ensures OwnerRanges(db, after)[o] == OwnerRanges(db, before)[o] {
      SameRange(db, before, after, o);
    }
    GrownMap(OwnerRanges(db, before), owner, RangeOf(db, after, owner), OwnerRanges(db, after));
  }

  lemma SameRange(db: DB, before: seq<Fact>, after: seq<Fact>, o: Bytes)
    requires CountOwner(after, o) == CountOwner(before, o)
    ensures RangeOf(db, after, o) == RangeOf(db, before, o)
  {
  }

  lemma FirstOrdinal(db: DB, facts: seq<Fact>, owner: Bytes)
    ensures owner in OwnerRanges(db, facts) ==> OwnerRanges(db, facts)[owner].0 == Next(db, owner)
    ensures owner !in OwnerRanges(db, facts) ==> CountOwner(facts, owner) == 0
  {
    hide *;
    RangesAre(db, facts);
    RangeStarts(db, facts, owner);
    if owner !in Owners(facts) { NoneOfOwner(facts, owner); }
  }

  lemma RangeStarts(db: DB, facts: seq<Fact>, owner: Bytes)
    ensures RangeOf(db, facts, owner) == (Next(db, owner), Next(db, owner) + CountOwner(facts, owner) - 1)
  {
  }

  lemma OthersGrow(before: seq<Fact>, after: seq<Fact>, owner: Bytes, n: nat)
    requires SameOthers(before, after, owner, n) && n > 0
    ensures Owners(after) == Owners(before) + {owner}
    ensures forall o :: o != owner ==> CountOwner(after, o) == CountOwner(before, o)
  {
  }

  lemma RangesAre(db: DB, facts: seq<Fact>)
    ensures OwnerRanges(db, facts).Keys == Owners(facts)
    ensures forall o :: o in Owners(facts) ==> OwnerRanges(db, facts)[o] == RangeOf(db, facts, o)
  {
    hide Next, CountOwner, Owners;
  }

  /** One group: its context and witness plans, its drafts, then its owner's next ordinal and range */
  method PrepareGroup(k: Kernel, db: DB, op: OperationContext, intent: Bytes, index: nat, g: AppendGroup, p: Prepare,
                      ghost st: Staging) returns (r: Result<Prepare>)
    requires FactsTracked(db, st, p) && GroupsTracked(st, p) && OwnersTracked(db, st.facts, p) && g.owner in p.stagedNext
    ensures var expected := StageGroup(k, db, op, intent, index, g, st);
            if expected.Err? then r == Err(expected.error) else
              && r.Ok? && FactsTracked(db, expected.value, r.value) && GroupsTracked(expected.value, r.value)
              && OwnersTracked(db, expected.value.facts, r.value) && r.value.stagedNext.Keys == p.stagedNext.Keys
  {
    if g.drafts == [] { return Ok(p); }
    var resolved := ResolveContext(k, db, intent, index, g.context, op);
    if resolved.Err? { return Err(resolved.error); }
    var ctx := resolved.value;
    var q := p.(contexts := if ctx.contextID in db.contexts then p.contexts else p.contexts + [ctx],
                contextReceipts := p.contextReceipts + [ctx.contextID]);
    var planned := OrdinaryWitnessPlan(k, ctx, op);
    assert StageGroup(k, db, op, intent, index, g, st) ==
           if planned.Err? then Err(planned.error)
           else StageDrafts(k, db, intent, g, ctx, planned.value, g.drafts, OpenGroup(k, db, ctx, planned.value, st));
    if planned.Err? { return Err(planned.error); }
    var planMap, planOrder := AddWitnessPlan(q.planMap, q.planOrder, RootWitnessPlan(k), st.plans);
    planMap, planOrder := AddWitnessPlan(planMap, planOrder, planned.value, AddPlan(st.plans, RootWitnessPlan(k)));
    q := q.(planMap := planMap, planOrder := planOrder);
    GroupOpened(k, db, ctx, planned.value, st, p, q);
    r := PrepareOpened(k, db, intent, g, ctx, planned.value, q, OpenGroup(k, db, ctx, planned.value, st));
  }

  lemma GroupOpened(k: Kernel, db: DB, ctx: RetainedContext, plan: WitnessPlan, st: Staging, p: Prepare, q: Prepare)
    requires FactsTracked(db, st, p) && GroupsTracked(st, p) && OwnersTracked(db, st.facts, p)
    requires q == p.(contexts := if ctx.contextID in db.contexts then p.contexts else p.contexts + [ctx],
                     contextReceipts := p.contextReceipts + [ctx.contextID], planMap := q.planMap, planOrder := q.planOrder)
    requires PlansTracked(AddPlan(AddPlan(st.plans, RootWitnessPlan(k)), plan), q.planMap, q.planOrder)
    ensures var st' := OpenGroup(k, db, ctx, plan, st);
            FactsTracked(db, st', q) && GroupsTracked(st', q) && OwnersTracked(db, st'.facts, q)
  {
    hide PlansTracked, AddPlan, RootWitnessPlan, CommitReceipts, CausalEdges, Numbered, OwnerRanges, IsStaged;
  }

  /** The drafts of an opened group, and what the group leaves behind for its owner */
  method PrepareOpened(k: Kernel, db: DB, intent: Bytes, g: AppendGroup, ctx: RetainedContext, plan: WitnessPlan,
                       p: Prepare, ghost st: Staging) returns (r: Result<Prepare>)
    requires g.drafts != [] && g.owner in p.stagedNext
    requires FactsTracked(db, st, p) && GroupsTracked(st, p) && OwnersTracked(db, st.facts, p)
    ensures var expected := StageDrafts(k, db, intent, g, ctx, plan, g.drafts, st);
            if expected.Err? then r == Err(expected.error) else
              && r.Ok? && FactsTracked(db, expected.value, r.value) && GroupsTracked(expected.value, r.value)
              && OwnersTracked(db, expected.value.facts, r.value) && r.value.stagedNext.Keys == p.stagedNext.Keys
  {
    var owner := g.owner;
    var start := p.stagedNext[owner];
    var staged, ordinal := PrepareDrafts(k, db, intent, g, ctx, plan, p, start, st);
    if staged.Err? { return Err(staged.error); }
    var q := staged.value;
    ghost var after := StageDrafts(k, db, intent, g, ctx, plan, g.drafts, st).value;
    RangesGrow(db, st.facts, after.facts, owner, |g.drafts|);
    q := q.(stagedNext := q.stagedNext[owner := ordinal],
            ranges := if owner !in q.ranges then q.ranges[owner := (start, ordinal - 1)]
                      else q.ranges[owner := (q.ranges[owner].0, ordinal - 1)]);
    OwnersMoved(db, st.facts, after.facts, owner, |g.drafts|, p, q, start, ordinal);
    LocalsKept(db, after, staged.value, q);
    hide *;
    r := Ok(q);
  }

  lemma LocalsKept(db: DB, st: Staging, p: Prepare, q: Prepare)
    requires FactsTracked(db, st, p) && GroupsTracked(st, p) && q == p.(stagedNext := q.stagedNext, ranges := q.ranges)
    ensures FactsTracked(db, st, q) && GroupsTracked(st, q)
  {
  }

  lemma TrackedParts(db: DB, facts: seq<Fact>, p: Prepare)
    ensures OwnersTracked(db, facts, p) <==>
              p.ranges == OwnerRanges(db, facts)
              && forall o :: o in p.stagedNext ==> p.stagedNext[o] == Next(db, o) + CountOwner(facts, o)
  {
  }

  lemma OwnersMoved(db: DB, before: seq<Fact>, after: seq<Fact>, owner: Bytes, n: nat, p: Prepare, q: Prepare, start: nat,
                    ordinal: nat)
    requires OwnersTracked(db, before, p) && SameOthers(before, after, owner, n) && n > 0 && owner in p.stagedNext
    requires start == p.stagedNext[owner] && ordinal == Next(db, owner) + CountOwner(after, owner)
    requires q.stagedNext == p.stagedNext[owner := ordinal]
    requires q.ranges == if owner !in p.ranges then p.ranges[owner := (start, ordinal - 1)]
                         else p.ranges[owner := (p.ranges[owner].0, ordinal - 1)]
    ensures OwnersTracked(db, after, q) && q.stagedNext.Keys == p.stagedNext.Keys
  {
    hide *;
    TrackedParts(db, before, p);
    TrackedParts(db, after, q);
    FirstOrdinal(db, before, owner);
    RangeStarts(db, after, owner);
    RangesGrow(db, before, after, owner, n);
    OthersGrow(before, after, owner, n);
  }

  // ---- The whole batch -----------------------------------------------------

  lemma StageGroupsStep(k: Kernel, db: DB, op: OperationContext, batch: AppendBatch, i: nat, st: Staging)
    requires i < |batch.groups|
    ensures StageGroups(k, db, op, batch.intent, i, batch.groups[i..], st) ==
            match StageGroup(k, db, op, batch.intent, i, batch.groups[i], st)
            case Err(e) => Err(e)
            case Ok(st1) => StageGroups(k, db, op, batch.intent, i + 1, batch.groups[i + 1..], st1)
  {
    assert batch.groups[i..][1..] == batch.groups[i + 1..];
  }

  /** The starting ordinal of every owner of the batch */
  method StartingOrdinals(db: DB, groups: seq<AppendGroup>) returns (stagedNext: map<Bytes, nat>)
    ensures forall o :: o in stagedNext ==> stagedNext[o] == Next(db, o)
    ensures forall g :: g in groups ==> g.owner in stagedNext
  {
    stagedNext := map[];
    for i := 0 to |groups|
      invariant forall o :: o in stagedNext ==> stagedNext[o] == Next(db, o)
      invariant forall g :: g in groups[..i] ==> g.owner in stagedNext
    {
      assert groups[..i + 1] == groups[..i] + [groups[i]];
      var owner := groups[i].owner;
      if owner !in stagedNext { stagedNext := stagedNext[owner := Next(db, owner)]; }
    }
    assert groups[..|groups|] == groups;
  }

  lemma NothingTracked(db: DB, stagedNext: map<Bytes, nat>)
    requires forall o :: o in stagedNext ==> stagedNext[o] == Next(db, o)
    ensures var p := Prepare({}, map[], stagedNext, [], [], [], map[], map[], [], [], []);
            FactsTracked(db, NOTHING, p) && GroupsTracked(NOTHING, p) && OwnersTracked(db, NOTHING.facts, p)
  {
  }

  /** What prepareAppend returns is the staging, its facts numbered, and its receipt. */
  ghost predicate IsPrepared(db: DB, intent: Bytes, st: Staging, p: Prepared) {
    && p.contexts == st.contexts && p.plans == st.plans
    && Facts(p.facts) == st.facts && Numbered(db, p.facts)
    && p.receipt == ReceiptFor(db, intent, st)
  }

  /** prepareAppend */
  method PrepareAppend(k: Kernel, db: DB, op: OperationContext, batch: AppendBatch) returns (r: Result<Prepared>)
    ensures var expected := Stage(k, db, op, batch);
            if expected.Err? then r == Err(expected.error)
            else r.Ok? && IsPrepared(db, batch.intent, expected.value, r.value)
  {
    var stagedNext := StartingOrdinals(db, batch.groups);
    var p := Prepare({}, map[], stagedNext, [], [], [], map[], map[], [], [], []);
    ghost var st := NOTHING;
    NothingTracked(db, stagedNext);
    assert batch.groups[0..] == batch.groups;
    ghost var expected := Stage(k, db, op, batch);
    assert StageGroups(k, db, op, batch.intent, 0, batch.groups[0..], st) == expected;
    hide *;
    for i := 0 to |batch.groups|
      invariant StageGroups(k, db, op, batch.intent, i, batch.groups[i..], st) == expected
      invariant FactsTracked(db, st, p) && GroupsTracked(st, p) && OwnersTracked(db, st.facts, p)
      invariant p.stagedNext.Keys == stagedNext.Keys
    {
      StageGroupsStep(k, db, op, batch, i, st);
      assert batch.groups[i] in batch.groups && batch.groups[i].owner in p.stagedNext.Keys;
      var one := PrepareGroup(k, db, op, batch.intent, i, batch.groups[i], p, st);
      if one.Err? { return Err(one.error); }
      p := one.value;
      st := StageGroup(k, db, op, batch.intent, i, batch.groups[i], st).value;
    }
    StageGroupsEnd(k, db, op, batch, st);
    var plans := CollectValues(p.planMap, p.planOrder);
    var ids := CollectIDs(p.facts);
    var receipt := AppendReceipt(batch.intent, ids, p.commits, p.ranges, p.edges, p.contextReceipts);
    ReceiptTracked(db, batch.intent, st, p, plans, ids);
    return Ok(Prepared(p.contexts, plans, p.facts, receipt));
  }

  lemma StageGroupsEnd(k: Kernel, db: DB, op: OperationContext, batch: AppendBatch, st: Staging)
    ensures StageGroups(k, db, op, batch.intent, |batch.groups|, batch.groups[|batch.groups|..], st) == Ok(st)
  {
  }

  /** factIDs */
  method CollectIDs(facts: seq<StagedFact>) returns (ids: seq<Bytes>)
    ensures ids == StagedIDs(Facts(facts))
  {
    ids := [];
    for i := 0 to |facts|
      invariant |ids| == i && forall j :: 0 <= j < i ==> ids[j] == facts[j].fact.id
    {
      ids := ids + [facts[i].fact.id];
    }
  }

  lemma ReceiptTracked(db: DB, intent: Bytes, st: Staging, p: Prepare, plans: seq<WitnessPlan>, ids: seq<Bytes>)
    requires FactsTracked(db, st, p) && GroupsTracked(st, p) && OwnersTracked(db, st.facts, p)
    requires plans == ValuesIn(p.planMap, p.planOrder) && ids == StagedIDs(Facts(p.facts))
    ensures var receipt := AppendReceipt(intent, ids, p.commits, p.ranges, p.edges, p.contextReceipts);
            IsPrepared(db, intent, st, Prepared(p.contexts, plans, p.facts, receipt))
  {
    hide Numbered, CausalEdges, CommitReceipts, OwnerRanges, ValuesIn, Ordered;
  }

  // ---- Preview -------------------------------------------------------------

  lemma PreviewDraftsStep(k: Kernel, g: AppendGroup, plan: WitnessPlan, j: nat, ids: seq<Bytes>, locals: map<Bytes, Bytes>)
    requires j < |g.drafts|
    ensures var first := PreviewDraft(k, g, plan, g.drafts[j], locals);
            PreviewDrafts(k, g, plan, g.drafts[j..], ids, locals) ==
            if first.Err? then Err(first.error)
            else PreviewDrafts(k, g, plan, g.drafts[j + 1..], ids + [first.value.0], first.value.1)
  {
    assert g.drafts[j..][1..] == g.drafts[j + 1..];
  }

  lemma PreviewGroupsStep(k: Kernel, db: DB, op: OperationContext, batch: AppendBatch, i: nat, ids: seq<Bytes>,
                          locals: map<Bytes, Bytes>)
    requires i < |batch.groups|
    ensures var g := batch.groups[i];
            PreviewGroups(k, db, op, batch.intent, i, batch.groups[i..], ids, locals) ==
            if g.drafts == [] then PreviewGroups(k, db, op, batch.intent, i + 1, batch.groups[i + 1..], ids, locals)
            else
              var ctx := ResolveGroupContext(k, db, batch.intent, i, g.context, op);
              if ctx.Err? then Err(ctx.error) else
                var plan := OrdinaryWitnessPlan(k, ctx.value, op);
                if plan.Err? then Err(plan.error) else
                  var r := PreviewDrafts(k, g, plan.value, g.drafts, ids, locals);
                  if r.Err? then Err(r.error)
                  else PreviewGroups(k, db, op, batch.intent, i + 1, batch.groups[i + 1..], r.value.0, r.value.1)
  {
    assert batch.groups[i..][1..] == batch.groups[i + 1..];
  }

  /** The inner loop of previewFactIDs */
  method PreviewGroupDrafts(k: Kernel, g: AppendGroup, plan: WitnessPlan, ids: seq<Bytes>, locals: map<Bytes, Bytes>)
      returns (r: Result<(seq<Bytes>, map<Bytes, Bytes>)>)
    ensures r == PreviewDrafts(k, g, plan, g.drafts, ids, locals)
  {
    var factIDs, localIDs := ids, locals;
    assert g.drafts[0..] == g.drafts;
    for j := 0 to |g.drafts|
      invariant PreviewDrafts(k, g, plan, g.drafts[j..], factIDs, localIDs) == PreviewDrafts(k, g, plan, g.drafts, ids, locals)
    {
      hide PreviewDrafts, RecordDigest;
      var d := g.drafts[j];
      PreviewDraftsStep(k, g, plan, j, factIDs, localIDs);
      var causedBy := ResolveCauses(g, d, localIDs);
      if causedBy.Err? { return Err(causedBy.error); }
      var id := RecordDigest(k, d.schemaRef, d.mode, d.payload, causedBy.value, plan.recordID);
      if id.Err? { return Err(id.error); }
      if d.localID != "" { localIDs := localIDs[d.localID := id.value]; }
      factIDs := factIDs + [id.value];
    }
    return Ok((factIDs, localIDs));
  }

  /** PreviewRecordIDs */
  method PreviewRecordIDs(k: Kernel, db: DB, op: OperationContext, batch: AppendBatch) returns (r: Result<seq<Bytes>>)
    ensures r == Preview(k, db, op, batch)
  {
    if !AppendAuthorized(op) { return Err(Unauthorized); }
    var shape := ValidateBatchShape(batch);
    if !shape { return Err(BadBatch); }
    var factIDs: seq<Bytes>, locals: map<Bytes, Bytes> := [], map[];
    assert batch.groups[0..] == batch.groups;
    ghost var expected := PreviewGroups(k, db, op, batch.intent, 0, batch.groups, [], map[]);
    assert expected == Preview(k, db, op, batch);
    assert PreviewGroups(k, db, op, batch.intent, 0, batch.groups[0..], factIDs, locals) == expected;
    hide *;
    for i := 0 to |batch.groups|
      invariant PreviewGroups(k, db, op, batch.intent, i, batch.groups[i..], factIDs, locals) == expected
    {
      PreviewGroupsStep(k, db, op, batch, i, factIDs, locals);
      var g := batch.groups[i];
      if g.drafts != [] {
        var ctx := ResolveContext(k, db, batch.intent, i, g.context, op);
        if ctx.Err? { return Err(ctx.error); }
        var plan := OrdinaryWitnessPlan(k, ctx.value, op);
        if plan.Err? { return Err(plan.error); }
        var ids := PreviewGroupDrafts(k, g, plan.value, factIDs, locals);
        if ids.Err? { return Err(ids.error); }
        factIDs, locals := ids.value.0, ids.value.1;
      }
    }
    PreviewGroupsEnd(k, db, op, batch, factIDs, locals);
    return Ok(factIDs);
  }

  lemma PreviewGroupsEnd(k: Kernel, db: DB, op: OperationContext, batch: AppendBatch, ids: seq<Bytes>,
                         locals: map<Bytes, Bytes>)
    ensures PreviewGroups(k, db, op, batch.intent, |batch.groups|, batch.groups[|batch.groups|..], ids, locals) == Ok(ids)
  {
  }
}
