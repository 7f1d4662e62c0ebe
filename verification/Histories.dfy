/** Relations between executions, effective histories. */
module Histories {
  import opened Wrappers
  import opened Utf8
  import opened Canonical
  import opened Trace
  import opened Digests
  import opened Tables
  import opened Append
  import opened Invariant
  import opened Commits
  import Frontiers
  import opened WitnessWalk
  import opened Slices
  import opened Closure
  import opened Runs
  import opened Cuts
  import opened Executions

  const RELATION: Bytes := "shepherd2.execution_relation.created.v1"
  const PUBLISHED_FACT: Bytes := "shepherd2.runtime.published_fact.v1"
  const SPAWNED: Bytes := "spawned"
  const ADOPTED: Bytes := "adopted"
  const ABANDONED: Bytes := "abandoned"

  datatype Relation = Relation(id: Bytes, kind: Bytes, parent: Bytes, child: Bytes, frontier: Bytes, fact: Bytes)

  datatype PublishedFact = PublishedFact(fact: Bytes, kind: Bytes, data: map<Bytes, Json>)

  datatype Child = Child(relation: Relation, execution: Execution)

  datatype History = History(root: Execution, relations: seq<Relation>, children: seq<Child>, published: seq<PublishedFact>)

  // ---- Relations -----------------------------------------------------------

  /** relationFromPayload */
  function RelationFrom(fact: Bytes, body: Body): Result<Relation> {
    var kind := PayloadString(body, "relation_kind");
    if kind != SPAWNED && kind != ADOPTED && kind != ABANDONED then Err(Incompatible) else
      Ok(Relation(PayloadString(body, "relation_id"), kind, PayloadString(body, "parent_execution_id"),
                  PayloadString(body, "child_execution_id"), PayloadString(body, "child_frontier_id"), fact))
  }

  function RelationsOf(facts: seq<Record>, parent: Bytes): Result<seq<Relation>> {
    if facts == [] then Ok([]) else
      var last := facts[|facts| - 1];
      var init :- RelationsOf(facts[..|facts| - 1], parent);
      if last.row.schemaRef != RELATION then Ok(init) else
        var relation :- RelationFrom(last.id, last.row.body);
        Ok(if relation.parent == parent then init + [relation] else init)
  }

  function Relations(s: Slice, parent: Bytes): Result<seq<Relation>> {
    if !Projectable(s) then Err(Incompatible) else
      var facts :- PathFacts(s.facts, PathIn(s, parent));
      RelationsOf(facts, parent)
  }

  /** The facts on an owner path, looked up one after the other */
  method FactAt(s: Slice, ids: seq<Bytes>, i: nat, ghost facts: seq<Record>) returns (r: Result<Record>)
    requires i < |ids| && PathFacts(s.facts, ids[..i]) == Ok(facts)
    ensures r.Ok? ==> PathFacts(s.facts, ids[..i + 1]) == Ok(facts + [r.value])
    ensures r.Err? ==> PathFacts(s.facts, ids) == Err(Incompatible) && r == Err(Incompatible)
  {
    PathFactsStep(s.facts, ids, i);
    if ids[i] in s.facts && s.facts[ids[i]].Full? { return Ok(s.facts[ids[i]].record); }
    PathFactsFail(s.facts, ids, i + 1);
    return Err(Incompatible);
  }

  lemma RelationsStep(facts: seq<Record>, fact: Record, parent: Bytes)
    requires RelationsOf(facts, parent).Ok?
    ensures RelationsOf(facts + [fact], parent) ==
            if fact.row.schemaRef != RELATION then RelationsOf(facts, parent)
            else match RelationFrom(fact.id, fact.row.body)
              case Err(e) => Err(e)
              case Ok(r) => Ok(if r.parent == parent then RelationsOf(facts, parent).value + [r]
                               else RelationsOf(facts, parent).value)
  {
    assert (facts + [fact])[..|facts|] == facts;
  }

  lemma {:induction false} RelationsFail(facts: seq<Record>, i: nat, parent: Bytes)
    requires i <= |facts| && RelationsOf(facts[..i], parent).Err?
    ensures RelationsOf(facts, parent) == Err(Incompatible)
    decreases |facts| - i
  {
    if i == |facts| {
      assert facts[..i] == facts;
      RelationsError(facts, parent);
    } else {
      assert facts[..i + 1][..i] == facts[..i];
      RelationsFail(facts, i + 1, parent);
    }
  }

  lemma {:induction false} RelationsError(facts: seq<Record>, parent: Bytes)
    ensures RelationsOf(facts, parent).Err? ==> RelationsOf(facts, parent) == Err(Incompatible)
  {
    if facts != [] { RelationsError(facts[..|facts| - 1], parent); }
  }

  /** A failing prefix fails the projection, whether or not the rest of the path can be looked up. */
  lemma {:induction false} PrefixFails(s: Slice, ids: seq<Bytes>, i: nat, facts: seq<Record>, parent: Bytes)
    requires i <= |ids| && PathFacts(s.facts, ids[..i]) == Ok(facts) && RelationsOf(facts, parent).Err?
    ensures PathFacts(s.facts, ids).Ok? ==> RelationsOf(PathFacts(s.facts, ids).value, parent).Err?
    decreases |ids| - i
  {
    if i == |ids| {
      assert ids[..i] == ids;
    } else {
      PathFactsStep(s.facts, ids, i);
      if PathFacts(s.facts, ids[..i + 1]).Ok? {
        var more := PathFacts(s.facts, ids[..i + 1]).value;
        assert more[..|facts|] == facts;
        RelationsFail(more, |facts|, parent);
        PrefixFails(s, ids, i + 1, more, parent);
      } else {
        PathFactsFail(s.facts, ids, i + 1);
      }
    }
  }

  lemma RelationsErrorIs(s: Slice, ids: seq<Bytes>, parent: Bytes)
    requires PathFacts(s.facts, ids).Ok? ==> RelationsOf(PathFacts(s.facts, ids).value, parent).Err?
    ensures PathFacts(s.facts, ids).Err? ==> PathFacts(s.facts, ids) == Err(Incompatible)
    ensures PathFacts(s.facts, ids).Ok? ==> RelationsOf(PathFacts(s.facts, ids).value, parent) == Err(Incompatible)
  {
    PathFactsError(s.facts, ids);
    if PathFacts(s.facts, ids).Ok? { RelationsError(PathFacts(s.facts, ids).value, parent); }
  }

  // ---- What relations say --------------------------------------------------

  /** A relation created by the parent */
  ghost predicate IsRelationOf(fact: Record, parent: Bytes) {
    fact.row.schemaRef == "shepherd2.execution_relation.created.v1"
    && TextAt(fact.row.body, "parent_execution_id", parent)
  }

  /** Every field of a relation, from the fact's payload */
  ghost predicate RelationSays(fact: Record, r: Relation) {
    && r.fact == fact.id
    && TextAt(fact.row.body, "relation_id", r.id)
    && TextAt(fact.row.body, "relation_kind", r.kind)
    && TextAt(fact.row.body, "parent_execution_id", r.parent)
    && TextAt(fact.row.body, "child_execution_id", r.child)
    && TextAt(fact.row.body, "child_frontier_id", r.frontier)
    && (r.kind == "spawned" || r.kind == "adopted" || r.kind == "abandoned")
  }

  ghost predicate Ascends(idx: seq<nat>) { forall m, n :: 0 <= m < n < |idx| ==> idx[m] < idx[n] }

  /** The relations are exactly those the parent created, in order. */
  ghost predicate RelationsAre(facts: seq<Record>, parent: Bytes, relations: seq<Relation>, idx: seq<nat>) {
    && Ascends(idx) && |idx| == |relations|
    && (forall n :: 0 <= n < |idx| ==>
          idx[n] < |facts| && IsRelationOf(facts[idx[n]], parent) && RelationSays(facts[idx[n]], relations[n]))
    && (forall i: nat :: i < |facts| && IsRelationOf(facts[i], parent) ==> i in idx)
  }

  lemma RelationFromSays(fact: Record, parent: Bytes)
    requires fact.row.schemaRef == RELATION && RelationFrom(fact.id, fact.row.body).Ok?
    ensures var r := RelationFrom(fact.id, fact.row.body).value;
            RelationSays(fact, r) && (r.parent == parent <==> IsRelationOf(fact, parent))
  {
  }

  lemma OtherSchema(fact: Record, parent: Bytes)
    requires fact.row.schemaRef != RELATION
    ensures !IsRelationOf(fact, parent)
  {
  }

  lemma RelationsMore(init: seq<Record>, fact: Record, parent: Bytes, relations: seq<Relation>, idx: seq<nat>, r: Relation)
    requires RelationsAre(init, parent, relations, idx) && IsRelationOf(fact, parent) && RelationSays(fact, r)
    ensures RelationsAre(init + [fact], parent, relations + [r], idx + [|init|])
  {
    hide IsRelationOf, RelationSays;
    var all, idx' := init + [fact], idx + [|init|];
    forall n | 0 <= n < |idx'|
      ensures idx'[n] < |all| && IsRelationOf(all[idx'[n]], parent) && RelationSays(all[idx'[n]], (relations + [r])[n])
    {
      if n < |idx| { assert all[idx[n]] == init[idx[n]]; }
    }
    forall i: nat | i < |all| && IsRelationOf(all[i], parent) ensures i in idx' {
      if i < |init| {
        assert all[i] == init[i] && i in idx;
      } else {
        assert idx'[|idx|] == i;
      }
    }
  }

  lemma RelationsSame(init: seq<Record>, fact: Record, parent: Bytes, relations: seq<Relation>, idx: seq<nat>)
    requires RelationsAre(init, parent, relations, idx) && !IsRelationOf(fact, parent)
    ensures RelationsAre(init + [fact], parent, relations, idx)
  {
    hide IsRelationOf, RelationSays;
    var all := init + [fact];
    forall n | 0 <= n < |idx|
      ensures idx[n] < |all| && IsRelationOf(all[idx[n]], parent) && RelationSays(all[idx[n]], relations[n])
    {
      assert all[idx[n]] == init[idx[n]];
    }
    forall i: nat | i < |all| && IsRelationOf(all[i], parent) ensures i in idx {
      assert i < |init| && all[i] == init[i];
    }
  }

  /** A projection's relations are, in path order, exactly the relation facts whose payload names the parent. */
  lemma {:induction false} RelationsSay(facts: seq<Record>, parent: Bytes) returns (idx: seq<nat>)
    requires RelationsOf(facts, parent).Ok?
    ensures RelationsAre(facts, parent, RelationsOf(facts, parent).value, idx)
  {
    if facts == [] {
      idx := [];
    } else {
      var init, last := facts[..|facts| - 1], facts[|facts| - 1];
      var before := RelationsSay(init, parent);
      assert init + [last] == facts;
      hide RelationsAre, RelationFrom;
      if last.row.schemaRef != RELATION {
        OtherSchema(last, parent);
        RelationsSame(init, last, parent, RelationsOf(init, parent).value, before);
        idx := before;
      } else {
        var r := RelationFrom(last.id, last.row.body).value;
        RelationFromSays(last, parent);
        if r.parent == parent {
          RelationsMore(init, last, parent, RelationsOf(init, parent).value, before, r);
          idx := before + [|init|];
        } else {
          RelationsSame(init, last, parent, RelationsOf(init, parent).value, before);
          idx := before;
        }
      }
    }
  }

  /** ProjectExecutionRelations */
  method ProjectExecutionRelations(s: Slice, parent: Bytes) returns (r: Result<seq<Relation>>)
    ensures r == Relations(s, parent)
    ensures r.Ok? ==> PathFacts(s.facts, PathIn(s, parent)).Ok?
                      && exists idx :: RelationsAre(PathFacts(s.facts, PathIn(s, parent)).value, parent, r.value, idx)
  {
    if !Projectable(s) { return Err(Incompatible); }
    var relations: seq<Relation> := [];
    var ids := PathIn(s, parent);
    ghost var facts: seq<Record> := [];
    assert PathFacts(s.facts, ids[..0]) == Ok([]) && RelationsOf([], parent) == Ok([]);
    hide PathFacts, PathIn, RelationsOf, RelationFrom;
    for i := 0 to |ids|
      invariant PathFacts(s.facts, ids[..i]) == Ok(facts) && RelationsOf(facts, parent) == Ok(relations)
    {
      var fact := FactAt(s, ids, i, facts);
      if fact.Err? { return Err(Incompatible); }
      RelationsStep(facts, fact.value, parent);
      facts := facts + [fact.value];
      if fact.value.row.schemaRef == RELATION {
        var relation := RelationFrom(fact.value.id, fact.value.row.body);
        if relation.Err? {
          PrefixFails(s, ids, i + 1, facts, parent);
          RelationsErrorIs(s, ids, parent);
          return Err(Incompatible);
        }
        if relation.value.parent == parent { relations := relations + [relation.value]; }
      }
    }
    assert ids[..|ids|] == ids;
    hide RelationsAre;
    ghost var idx := RelationsSay(facts, parent);
    return Ok(relations);
  }

  // ---- Active relations ----------------------------------------------------

  function RelationIDs(relations: seq<Relation>): (r: seq<Bytes>)
    ensures |r| == |relations|
  {
    seq(|relations|, i requires 0 <= i < |relations| => relations[i].id)
  }

  /** The last relation with an id */
  function Latest(relations: seq<Relation>, id: Bytes): (r: Relation)
    requires id in RelationIDs(relations)
  {
    var last := relations[|relations| - 1];
    if last.id == id then last else
      assert RelationIDs(relations) == RelationIDs(relations[..|relations| - 1]) + [last.id];
      Latest(relations[..|relations| - 1], id)
  }

  predicate IsActiveKind(kind: Bytes) { kind == SPAWNED || kind == ADOPTED }

  /** Of the ids, those whose last relation is active, with that relation */
  function ActiveOf(relations: seq<Relation>, order: seq<Bytes>): seq<Relation>
    requires forall id :: id in order ==> id in RelationIDs(relations)
  {
    if order == [] then [] else
      var init, last := order[..|order| - 1], order[|order| - 1];
      assert last in order && forall id :: id in init ==> id in order;
      ActiveOf(relations, init) +
      if IsActiveKind(Latest(relations, last).kind) then [Latest(relations, last)] else []
  }

  /** The specification of activeRelations: distinct ids in first-seen order, the last relation of each, active ones only */
  function Active(relations: seq<Relation>): seq<Relation> {
    DeduplicateContents(RelationIDs(relations));
    ActiveOf(relations, Deduplicate(RelationIDs(relations)))
  }

  ghost predicate IsLatest(relations: seq<Relation>, latest: map<Bytes, Relation>, order: seq<Bytes>) {
    && order == Deduplicate(RelationIDs(relations))
    && (forall id :: id in latest <==> id in RelationIDs(relations))
    && (forall id :: id in latest ==> latest[id] == Latest(relations, id))
  }

  lemma LatestStep(relations: seq<Relation>, i: nat, latest: map<Bytes, Relation>, order: seq<Bytes>)
    requires i < |relations| && IsLatest(relations[..i], latest, order)
    ensures var r := relations[i];
            IsLatest(relations[..i + 1], latest[r.id := r], if r.id in latest then order else order + [r.id])
  {
    var before, after, r := relations[..i], relations[..i + 1], relations[i];
    assert after[..i] == before && after[i] == r;
    assert RelationIDs(after) == RelationIDs(before) + [r.id];
    assert RelationIDs(after)[..i] == RelationIDs(before) && RelationIDs(after)[i] == r.id;
    DeduplicateContents(RelationIDs(before));
    forall id ensures id in RelationIDs(after) <==> id in RelationIDs(before) || id == r.id {}
  }

  lemma ActiveStep(relations: seq<Relation>, order: seq<Bytes>, i: nat)
    requires i < |order| && forall id :: id in order ==> id in RelationIDs(relations)
    ensures forall id :: id in order[..i] ==> id in RelationIDs(relations)
    ensures forall id :: id in order[..i + 1] ==> id in RelationIDs(relations)
    ensures order[i] in RelationIDs(relations)
    ensures ActiveOf(relations, order[..i + 1]) ==
            ActiveOf(relations, order[..i]) +
            if IsActiveKind(Latest(relations, order[i]).kind) then [Latest(relations, order[i])] else []
  {
    assert order[..i + 1][..i] == order[..i] && order[i] in order;
  }

  /** activeRelations: the latest map and the first-seen order, then the active ones */
  method ActiveRelations(relations: seq<Relation>) returns (active: seq<Relation>)
    ensures active == Active(relations)
  {
    var latest: map<Bytes, Relation>, order: seq<Bytes> := map[], [];
    assert RelationIDs(relations[..0]) == [];
    assert IsLatest(relations[..0], latest, order);
    for i := 0 to |relations|
      invariant IsLatest(relations[..i], latest, order)
    {
      hide *;
      LatestStep(relations, i, latest, order);
      var r := relations[i];
      if r.id !in latest { order := order + [r.id]; }
      latest := latest[r.id := r];
    }
    assert relations[..|relations|] == relations;
    DeduplicateContents(RelationIDs(relations));
    active := [];
    assert order[..0] == [];
    for i := 0 to |order|
      invariant forall id :: id in order[..i] ==> id in RelationIDs(relations)
      invariant active == ActiveOf(relations, order[..i])
    {
      ActiveStep(relations, order, i);
      var r := latest[order[i]];
      if r.kind == SPAWNED || r.kind == ADOPTED { active := active + [r]; }
    }
    assert order[..|order|] == order;
  }

  /** The last relation with an id is one of them, and none after it has that id. */
  lemma {:induction false} LatestIsLast(relations: seq<Relation>, id: Bytes)
    requires id in RelationIDs(relations)
    ensures exists i :: 0 <= i < |relations| && relations[i] == Latest(relations, id) && relations[i].id == id
                        && forall j :: i < j < |relations| ==> relations[j].id != id
  {
    var init, last := relations[..|relations| - 1], relations[|relations| - 1];
    if last.id == id {
      assert relations[|relations| - 1] == Latest(relations, id);
    } else {
      assert RelationIDs(relations) == RelationIDs(init) + [last.id];
      LatestIsLast(init, id);
      var i :| 0 <= i < |init| && init[i] == Latest(init, id) && init[i].id == id
               && forall j :: i < j < |init| ==> init[j].id != id;
      assert relations[i] == Latest(relations, id);
      forall j | i < j < |relations| ensures relations[j].id != id {
        if j < |init| { assert init[j].id != id; }
      }
    }
  }

  lemma {:induction false} ActiveOfContents(relations: seq<Relation>, order: seq<Bytes>)
    requires forall id :: id in order ==> id in RelationIDs(relations)
    ensures forall r :: r in ActiveOf(relations, order) <==>
                          exists id :: id in order && r == Latest(relations, id) && IsActiveKind(r.kind)
  {
    if order != [] {
      var init, last := order[..|order| - 1], order[|order| - 1];
      assert last in order && forall id :: id in order <==> id in init || id == last;
      ActiveOfContents(relations, init);
    }
  }

  /** A relation is active exactly when it is the last one with its id and was spawned or adopted. */
  lemma ActiveIsLatest(relations: seq<Relation>)
    ensures forall r :: r in Active(relations) <==>
                          r.id in RelationIDs(relations) && r == Latest(relations, r.id) && IsActiveKind(r.kind)
  {
    var order := Deduplicate(RelationIDs(relations));
    DeduplicateContents(RelationIDs(relations));
    ActiveOfContents(relations, order);
    forall id | id in order ensures Latest(relations, id).id == id { LatestIsLast(relations, id); }
  }

  /** The id p is met before the id q. */
  ghost predicate MetFirst(ids: seq<Bytes>, p: Bytes, q: Bytes) {
    exists m :: 0 <= m < |ids| && ids[m] == p && q !in ids[..m + 1]
  }

  lemma {:induction false} ActiveOfIsPart(relations: seq<Relation>, order: seq<Bytes>, j: nat) returns (n: nat)
    requires (forall id :: id in order ==> id in RelationIDs(relations)) && j < |ActiveOf(relations, order)|
    ensures j <= n < |order| && ActiveOf(relations, order)[j].id == order[n]
    ensures ActiveOf(relations, order[..n]) == ActiveOf(relations, order)[..j]
  {
    var init := order[..|order| - 1];
    assert order[|order| - 1] in order && forall id :: id in init ==> id in order;
    if j < |ActiveOf(relations, init)| {
      n := ActiveOfIsPart(relations, init, j);
      assert init[..n] == order[..n];
    } else {
      ActiveOfShorter(relations, init);
      n := |order| - 1;
      LatestIsLast(relations, order[n]);
    }
  }

  lemma {:induction false} ActiveOfShorter(relations: seq<Relation>, order: seq<Bytes>)
    requires forall id :: id in order ==> id in RelationIDs(relations)
    ensures |ActiveOf(relations, order)| <= |order|
  {
    if order != [] {
      assert forall id :: id in order[..|order| - 1] ==> id in order;
      ActiveOfShorter(relations, order[..|order| - 1]);
    }
  }

  /** Active relations stand in the order their ids are first met. */
  lemma ActiveInOrder(relations: seq<Relation>, i: nat, j: nat)
    requires i < j < |Active(relations)|
    ensures MetFirst(RelationIDs(relations), Active(relations)[i].id, Active(relations)[j].id)
  {
    var ids := RelationIDs(relations);
    var order := Deduplicate(ids);
    DeduplicateContents(ids);
    var n := ActiveOfIsPart(relations, order, j);
    assert forall id :: id in order[..n] ==> id in order;
    assert ActiveOf(relations, order[..n])[i] == Active(relations)[i];
    var m := ActiveOfIsPart(relations, order[..n], i);
    assert order[..n][m] == order[m];
    FirstSeenOrder(ids, m, n);
  }

  // ---- Published facts -----------------------------------------------------

  function PublishedOf(facts: seq<Record>): seq<PublishedFact> {
    if facts == [] then [] else
      var last := facts[|facts| - 1];
      PublishedOf(facts[..|facts| - 1]) +
      if last.row.schemaRef != PUBLISHED_FACT then []
      else [PublishedFact(last.id, PayloadString(last.row.body, "kind"), PayloadMap(last.row.body, "data"))]
  }

  function Published(s: Slice, owner: Bytes): Result<seq<PublishedFact>> {
    var facts :- PathFacts(s.facts, PathIn(s, owner));
    Ok(PublishedOf(facts))
  }

  lemma PublishedStep(facts: seq<Record>, fact: Record)
    ensures PublishedOf(facts + [fact]) ==
            PublishedOf(facts) +
            if fact.row.schemaRef != PUBLISHED_FACT then []
            else [PublishedFact(fact.id, PayloadString(fact.row.body, "kind"), PayloadMap(fact.row.body, "data"))]
  {
    assert (facts + [fact])[..|facts|] == facts;
  }

  ghost predicate IsPublished(fact: Record) { fact.row.schemaRef == "shepherd2.runtime.published_fact.v1" }

  ghost predicate PublishedSays(fact: Record, p: PublishedFact) {
    p.fact == fact.id && TextAt(fact.row.body, "kind", p.kind) && ObjectAt(fact.row.body, "data", p.data)
  }

  ghost predicate PublishedAre(facts: seq<Record>, published: seq<PublishedFact>, idx: seq<nat>) {
    && Ascends(idx) && |idx| == |published|
    && (forall n :: 0 <= n < |idx| ==>
          idx[n] < |facts| && IsPublished(facts[idx[n]]) && PublishedSays(facts[idx[n]], published[n]))
    && (forall i: nat :: i < |facts| && IsPublished(facts[i]) ==> i in idx)
  }

  lemma PublishedMore(init: seq<Record>, fact: Record, published: seq<PublishedFact>, idx: seq<nat>)
    requires PublishedAre(init, published, idx)
    ensures var p := PublishedFact(fact.id, PayloadString(fact.row.body, "kind"), PayloadMap(fact.row.body, "data"));
            if fact.row.schemaRef == PUBLISHED_FACT then PublishedAre(init + [fact], published + [p], idx + [|init|])
            else PublishedAre(init + [fact], published, idx)
  {
    PayloadSays(fact.row.body, "kind", "");
    PayloadSays(fact.row.body, "data", "");
    assert IsPublished(fact) <==> fact.row.schemaRef == PUBLISHED_FACT;
    hide IsPublished, TextAt, ObjectAt, PayloadString, PayloadMap;
    var all, idx' := init + [fact], if IsPublished(fact) then idx + [|init|] else idx;
    forall n | 0 <= n < |idx| ensures all[idx[n]] == init[idx[n]] {}
    forall i: nat | i < |all| && IsPublished(all[i]) ensures i in idx' {
      if i < |init| {
        assert all[i] == init[i] && i in idx;
      } else {
        assert idx'[|idx|] == i;
      }
    }
  }

  /** The published facts are exactly the path's, in order, with their payload's kind and data. */
  lemma {:induction false} PublishedSay(facts: seq<Record>) returns (idx: seq<nat>)
    ensures PublishedAre(facts, PublishedOf(facts), idx)
  {
    if facts == [] {
      idx := [];
    } else {
      var init, last := facts[..|facts| - 1], facts[|facts| - 1];
      var before := PublishedSay(init);
      assert init + [last] == facts;
      hide PublishedAre, PayloadString, PayloadMap;
      PublishedMore(init, last, PublishedOf(init), before);
      idx := if last.row.schemaRef == PUBLISHED_FACT then before + [|init|] else before;
    }
  }

  /** projectPublishedFacts */
  method ProjectPublishedFacts(s: Slice, owner: Bytes) returns (r: Result<seq<PublishedFact>>)
    ensures r == Published(s, owner)
  {
    var published: seq<PublishedFact> := [];
    var ids := PathIn(s, owner);
    ghost var facts: seq<Record> := [];
    assert PathFacts(s.facts, ids[..0]) == Ok([]) && PublishedOf([]) == [];
    hide PathFacts, PathIn, PublishedOf, PayloadString, PayloadMap;
    for i := 0 to |ids|
      invariant PathFacts(s.facts, ids[..i]) == Ok(facts) && PublishedOf(facts) == published
    {
      var fact := FactAt(s, ids, i, facts);
      if fact.Err? { return Err(Incompatible); }
      PublishedStep(facts, fact.value);
      facts := facts + [fact.value];
      if fact.value.row.schemaRef == PUBLISHED_FACT {
        published := published + [PublishedFact(fact.value.id, PayloadString(fact.value.row.body, "kind"),
                                                PayloadMap(fact.value.row.body, "data"))];
      }
    }
    assert ids[..|ids|] == ids;
    return Ok(published);
  }

  // ---- Histories -----------------------------------------------------------

  /** The child slices by frontier id; a later slice replaces an earlier one. */
  function ByFrontier(slices: seq<Slice>): map<Bytes, Slice> {
    if slices == [] then map[] else
      var last := slices[|slices| - 1];
      var init := ByFrontier(slices[..|slices| - 1]);
      if last.frontier.Some? then init[last.frontier.value.frontierID := last] else init
  }

  /** One active relation: no child without a frontier or a slice, an error when the frontier targets another execution */
  function ChildFor(relation: Relation, slices: map<Bytes, Slice>): Result<seq<Child>> {
    if relation.frontier == "" || relation.frontier !in slices then Ok([]) else
      var s := slices[relation.frontier];
      if s.frontier.None? || s.frontier.value.target != relation.child then Err(Incompatible) else
        var e :- Projection(s, relation.child, None);
        Ok([Child(relation, e)])
  }

  function ChildrenOf(relations: seq<Relation>, slices: map<Bytes, Slice>): Result<seq<Child>> {
    if relations == [] then Ok([]) else
      var init :- ChildrenOf(relations[..|relations| - 1], slices);
      var last :- ChildFor(relations[|relations| - 1], slices);
      Ok(init + last)
  }

  function HistoryOf(root: Slice, target: Bytes, children: seq<Slice>): Result<History> {
    var e :- Projection(root, target, None);
    var relations :- Relations(root, target);
    var projected :- ChildrenOf(Active(relations), ByFrontier(children));
    var published :- Published(root, target);
    Ok(History(e, relations, projected, published))
  }

  lemma {:induction false} ChildrenFail(relations: seq<Relation>, slices: map<Bytes, Slice>, i: nat, e: Error)
    requires i <= |relations| && ChildrenOf(relations[..i], slices) == Err(e)
    ensures ChildrenOf(relations, slices) == Err(e)
    decreases |relations| - i
  {
    if i == |relations| {
      assert relations[..i] == relations;
    } else {
      assert relations[..i + 1][..i] == relations[..i];
      ChildrenFail(relations, slices, i + 1, e);
    }
  }

  lemma ChildrenStep(relations: seq<Relation>, slices: map<Bytes, Slice>, i: nat)
    requires i < |relations| && ChildrenOf(relations[..i], slices).Ok?
    ensures ChildrenOf(relations[..i + 1], slices) ==
            match ChildFor(relations[i], slices)
            case Err(e) => Err(e)
            case Ok(last) => Ok(ChildrenOf(relations[..i], slices).value + last)
  {
    assert relations[..i + 1][..i] == relations[..i];
  }

  method SlicesByFrontier(slices: seq<Slice>) returns (m: map<Bytes, Slice>)
    ensures m == ByFrontier(slices)
  {
    m := map[];
    for i := 0 to |slices|
      invariant m == ByFrontier(slices[..i])
    {
      assert slices[..i + 1][..i] == slices[..i];
      if slices[i].frontier.Some? { m := m[slices[i].frontier.value.frontierID := slices[i]]; }
    }
    assert slices[..|slices|] == slices;
  }

  /** The children of ProjectEffectiveHistory */
  method ProjectChildren(active: seq<Relation>, slices: map<Bytes, Slice>) returns (r: Result<seq<Child>>)
    ensures r == ChildrenOf(active, slices)
  {
    var children: seq<Child> := [];
    assert ChildrenOf(active[..0], slices) == Ok([]);
    for i := 0 to |active|
      invariant ChildrenOf(active[..i], slices) == Ok(children)
    {
      hide ChildrenOf, Projection;
      ChildrenStep(active, slices, i);
      var relation := active[i];
      if relation.frontier != "" && relation.frontier in slices {
        var s := slices[relation.frontier];
        if s.frontier.None? || s.frontier.value.target != relation.child {
          ChildrenFail(active, slices, i + 1, Incompatible);
          return Err(Incompatible);
        }
        var e := ProjectExecution(s, relation.child, None);
        if e.Err? {
          ChildrenFail(active, slices, i + 1, e.error);
          return Err(e.error);
        }
        children := children + [Child(relation, e.value)];
      } else {
        assert children + [] == children;
      }
    }
    assert active[..|active|] == active;
    return Ok(children);
  }

  /** ProjectEffectiveHistory */
  method ProjectEffectiveHistory(root: Slice, target: Bytes, children: seq<Slice>) returns (r: Result<History>)
    ensures r == HistoryOf(root, target, children)
  {
    hide Projection, Relations, Active, ChildrenOf, ByFrontier, Published;
    var e := ProjectExecution(root, target, None);
    if e.Err? { return Err(e.error); }
    var relations := ProjectExecutionRelations(root, target);
    if relations.Err? { return Err(relations.error); }
    var slices := SlicesByFrontier(children);
    var active := ActiveRelations(relations.value);
    var projected := ProjectChildren(active, slices);
    if projected.Err? { return Err(projected.error); }
    var published := ProjectPublishedFacts(root, target);
    if published.Err? { return Err(published.error); }
    return Ok(History(e.value, relations.value, projected.value, published.value));
  }

  // ---- From the store ------------------------------------------------------

  /** The frontiers of the active relations that have one, resolved in order */
  ghost function ChildSlices(db: DB, rc: ReadContext, active: seq<Relation>): Result<seq<Slice>> {
    if active == [] then Ok([]) else
      var init :- ChildSlices(db, rc, active[..|active| - 1]);
      var last := active[|active| - 1];
      if last.frontier == "" then Ok(init) else
        var s :- ResolveResult(db, rc, last.frontier, BOTH);
        Ok(init + [s])
  }

  ghost function HistoryFromStore(db: DB, rc: ReadContext, cutoff: Frontier): Result<History> {
    var root :- ResolveResult(db, rc, cutoff.frontierID, BOTH);
    var relations :- Relations(root, cutoff.target);
    var children :- ChildSlices(db, rc, Active(relations));
    HistoryOf(root, cutoff.target, children)
  }

  lemma ChildSlicesStep(db: DB, rc: ReadContext, active: seq<Relation>, i: nat)
    requires i < |active| && ChildSlices(db, rc, active[..i]).Ok?
    ensures ChildSlices(db, rc, active[..i + 1]) ==
            if active[i].frontier == "" then ChildSlices(db, rc, active[..i])
            else match ResolveResult(db, rc, active[i].frontier, BOTH)
              case Err(e) => Err(e)
              case Ok(s) => Ok(ChildSlices(db, rc, active[..i]).value + [s])
  {
    assert active[..i + 1][..i] == active[..i];
  }

  lemma {:induction false} ChildSlicesFail(db: DB, rc: ReadContext, active: seq<Relation>, i: nat, e: Error)
    requires i <= |active| && ChildSlices(db, rc, active[..i]) == Err(e)
    ensures ChildSlices(db, rc, active) == Err(e)
    decreases |active| - i
  {
    if i == |active| {
      assert active[..i] == active;
    } else {
      assert active[..i + 1][..i] == active[..i];
      ChildSlicesFail(db, rc, active, i + 1, e);
    }
  }

  /** ProjectEffectiveHistoryFromStore */
  method ProjectEffectiveHistoryFromStore(db: DB, rc: ReadContext, cutoff: Frontier) returns (r: Result<History>)
    ensures r == HistoryFromStore(db, rc, cutoff)
  {
    hide ResolveResult, Relations, Active, HistoryOf;
    var root := ResolveFrontier(db, rc, cutoff.frontierID, BOTH);
    if root.Err? { return Err(root.error); }
    var relations := ProjectExecutionRelations(root.value, cutoff.target);
    if relations.Err? { return Err(relations.error); }
    var active := ActiveRelations(relations.value);
    var children: seq<Slice> := [];
    assert ChildSlices(db, rc, active[..0]) == Ok([]);
    for i := 0 to |active|
      invariant ChildSlices(db, rc, active[..i]) == Ok(children)
    {
      hide ChildSlices;
      ChildSlicesStep(db, rc, active, i);
      if active[i].frontier != "" {
        var s := ResolveFrontier(db, rc, active[i].frontier, BOTH);
        if s.Err? {
          ChildSlicesFail(db, rc, active, i + 1, s.error);
          return Err(s.error);
        }
        children := children + [s.value];
      }
    }
    assert active[..|active|] == active;
    r := ProjectEffectiveHistory(root.value, cutoff.target, children);
  }

  // ---- One child per active relation ---------------------------------------

  function WithFrontier(relations: seq<Relation>): seq<Relation> {
    if relations == [] then [] else
      var last := relations[|relations| - 1];
      WithFrontier(relations[..|relations| - 1]) + if last.frontier == "" then [] else [last]
  }

  /** Slices that were resolved from the frontiers they carry */
  ghost predicate Resolved(db: DB, rc: ReadContext, slices: seq<Slice>) {
    forall s :: s in slices ==> s.frontier.Some?
                                && ResolveResult(db, rc, s.frontier.value.frontierID, BOTH) == Ok(s)
  }

  lemma ResolvedFrontier(db: DB, rc: ReadContext, id: Bytes)
    requires Frontiers.FrontiersAgree(db) && ResolveResult(db, rc, id, BOTH).Ok?
    ensures var s := ResolveResult(db, rc, id, BOTH).value; s.frontier.Some? && s.frontier.value.frontierID == id
  {
    hide *;
    ResolvedGuards(db, rc, id, BOTH);
    CutIsNamed(db, rc, id);
    ResolvedCarries(db, rc, id);
  }

  lemma CutIsNamed(db: DB, rc: ReadContext, id: Bytes)
    requires Frontiers.FrontiersAgree(db) && CutOf(db, rc, id, BOTH).Ok?
    ensures CutOf(db, rc, id, BOTH).value.frontierID == id
  {
    assert Frontiers.FrontierAgrees(db, id, db.frontiers[id]);
    hide ReadFactAtPath, Frontiers.FrontierFromPayload;
  }

  lemma ResolvedCarries(db: DB, rc: ReadContext, id: Bytes)
    requires ResolveResult(db, rc, id, BOTH).Ok? && CutOf(db, rc, id, BOTH).Ok?
    ensures ResolveResult(db, rc, id, BOTH).value.frontier == Some(CutOf(db, rc, id, BOTH).value)
  {
    hide CutOf, LoadAll, AllSupported, FilterMode, FactsByID, OwnerPaths, Inside, AnchorsFor;
  }

  ghost predicate HasSlice(db: DB, rc: ReadContext, r: Relation, slices: seq<Slice>) {
    ResolveResult(db, rc, r.frontier, BOTH).Ok? && ResolveResult(db, rc, r.frontier, BOTH).value in slices
  }

  lemma OneMoreSlice(db: DB, rc: ReadContext, active: seq<Relation>, slices: seq<Slice>, s: Slice, last: Relation)
    requires Resolved(db, rc, slices) && forall r :: r in active && r.frontier != "" ==> HasSlice(db, rc, r, slices)
    requires ResolveResult(db, rc, last.frontier, BOTH) == Ok(s)
    requires s.frontier.Some? && s.frontier.value.frontierID == last.frontier
    ensures Resolved(db, rc, slices + [s])
    ensures forall r :: r in active + [last] && r.frontier != "" ==> HasSlice(db, rc, r, slices + [s])
  {
    hide ResolveResult;
    assert forall x :: x in slices + [s] <==> x in slices || x == s;
  }

  lemma {:induction false} ChildSlicesResolved(db: DB, rc: ReadContext, active: seq<Relation>)
    requires Frontiers.FrontiersAgree(db) && ChildSlices(db, rc, active).Ok?
    ensures Resolved(db, rc, ChildSlices(db, rc, active).value)
    ensures forall r :: r in active && r.frontier != "" ==> HasSlice(db, rc, r, ChildSlices(db, rc, active).value)
  {
    if active != [] {
      var init, last := active[..|active| - 1], active[|active| - 1];
      var slices := ChildSlices(db, rc, init).value;
      assert last.frontier == "" ==> ChildSlices(db, rc, active) == Ok(slices);
      assert last.frontier != "" ==>
          ResolveResult(db, rc, last.frontier, BOTH).Ok?
          && ChildSlices(db, rc, active) == Ok(slices + [ResolveResult(db, rc, last.frontier, BOTH).value]);
      assert active == init + [last];
      hide *;
      ChildSlicesResolved(db, rc, init);
      if last.frontier != "" {
        ResolvedFrontier(db, rc, last.frontier);
        OneMoreSlice(db, rc, init, slices, ResolveResult(db, rc, last.frontier, BOTH).value, last);
      }
    }
  }

  lemma {:induction false} ByFrontierContents(slices: seq<Slice>)
    ensures forall id :: id in ByFrontier(slices) ==>
                           ByFrontier(slices)[id] in slices && ByFrontier(slices)[id].frontier.Some?
                           && ByFrontier(slices)[id].frontier.value.frontierID == id
    ensures forall s :: s in slices && s.frontier.Some? ==> s.frontier.value.frontierID in ByFrontier(slices)
  {
    if slices != [] {
      var init, last := slices[..|slices| - 1], slices[|slices| - 1];
      ByFrontierContents(init);
      assert forall s :: s in slices <==> s in init || s == last;
    }
  }

  /** The slice a relation's frontier id selects is the one its frontier resolves to. */
  lemma SelectedSlice(db: DB, rc: ReadContext, active: seq<Relation>, r: Relation)
    requires Frontiers.FrontiersAgree(db) && ChildSlices(db, rc, active).Ok? && r in active && r.frontier != ""
    ensures var m := ByFrontier(ChildSlices(db, rc, active).value);
            r.frontier in m && ResolveResult(db, rc, r.frontier, BOTH) == Ok(m[r.frontier])
  {
    var slices := ChildSlices(db, rc, active).value;
    ChildSlicesResolved(db, rc, active);
    ByFrontierContents(slices);
    assert HasSlice(db, rc, r, slices);
    var s := ResolveResult(db, rc, r.frontier, BOTH).value;
    ResolvedFrontier(db, rc, r.frontier);
    assert s in slices && s.frontier.value.frontierID == r.frontier;
    assert ByFrontier(slices)[r.frontier] in slices;
  }

  /** The child of a relation: projected from its own frontier, which targets the related execution */
  ghost predicate IsChild(db: DB, rc: ReadContext, r: Relation, c: Child) {
    && c.relation == r && ResolveResult(db, rc, r.frontier, BOTH).Ok?
    && var s := ResolveResult(db, rc, r.frontier, BOTH).value;
       && s.frontier.Some? && s.frontier.value.frontierID == r.frontier && s.frontier.value.target == r.child
       && Projection(s, r.child, None) == Ok(c.execution)
  }

  /** The slices hold, under each relation's frontier id, what that frontier resolves to. */
  ghost predicate Selects(db: DB, rc: ReadContext, relations: seq<Relation>, slices: map<Bytes, Slice>) {
    forall r :: r in relations && r.frontier != "" ==> SelectsFor(db, rc, r, slices)
  }

  ghost predicate SelectsFor(db: DB, rc: ReadContext, r: Relation, slices: map<Bytes, Slice>) {
    && r.frontier in slices && ResolveResult(db, rc, r.frontier, BOTH) == Ok(slices[r.frontier])
    && slices[r.frontier].frontier.Some? && slices[r.frontier].frontier.value.frontierID == r.frontier
  }

  ghost predicate AreChildren(db: DB, rc: ReadContext, wanted: seq<Relation>, children: seq<Child>) {
    |children| == |wanted| && forall i :: 0 <= i < |wanted| ==> IsChild(db, rc, wanted[i], children[i])
  }

  lemma ChildMatches(db: DB, rc: ReadContext, r: Relation, slices: map<Bytes, Slice>)
    requires ChildFor(r, slices).Ok? && (r.frontier != "" ==> SelectsFor(db, rc, r, slices))
    ensures AreChildren(db, rc, if r.frontier == "" then [] else [r], ChildFor(r, slices).value)
  {
    hide ResolveResult, Projection;
  }

  lemma MoreChildren(db: DB, rc: ReadContext, a: seq<Relation>, b: seq<Relation>, x: seq<Child>, y: seq<Child>)
    requires AreChildren(db, rc, a, x) && AreChildren(db, rc, b, y)
    ensures AreChildren(db, rc, a + b, x + y)
  {
    hide IsChild;
  }

  lemma ChildrenSnoc(relations: seq<Relation>, slices: map<Bytes, Slice>)
    requires relations != [] && ChildrenOf(relations, slices).Ok?
    ensures var init, last := relations[..|relations| - 1], relations[|relations| - 1];
            && ChildrenOf(init, slices).Ok? && ChildFor(last, slices).Ok?
            && ChildrenOf(relations, slices).value == ChildrenOf(init, slices).value + ChildFor(last, slices).value
            && WithFrontier(relations) == WithFrontier(init) + if last.frontier == "" then [] else [last]
  {
    hide ChildFor;
  }

  lemma NoChildren(db: DB, rc: ReadContext, slices: map<Bytes, Slice>)
    ensures ChildrenOf([], slices) == Ok([]) && WithFrontier([]) == [] && AreChildren(db, rc, [], [])
  {
  }

  lemma SelectsInit(db: DB, rc: ReadContext, relations: seq<Relation>, slices: map<Bytes, Slice>)
    requires relations != [] && Selects(db, rc, relations, slices)
    ensures var last := relations[|relations| - 1];
            Selects(db, rc, relations[..|relations| - 1], slices) && (last.frontier != "" ==> SelectsFor(db, rc, last, slices))
  {
    hide SelectsFor;
    assert relations[|relations| - 1] in relations;
  }

  lemma {:induction false} ChildrenMatch(db: DB, rc: ReadContext, relations: seq<Relation>, slices: map<Bytes, Slice>)
    requires ChildrenOf(relations, slices).Ok? && Selects(db, rc, relations, slices)
    ensures AreChildren(db, rc, WithFrontier(relations), ChildrenOf(relations, slices).value)
  {
    hide *;
    if relations == [] {
      NoChildren(db, rc, slices);
    } else {
      var init, last := relations[..|relations| - 1], relations[|relations| - 1];
      ChildrenSnoc(relations, slices);
      SelectsInit(db, rc, relations, slices);
      ChildrenMatch(db, rc, init, slices);
      ChildMatches(db, rc, last, slices);
      MoreChildren(db, rc, WithFrontier(init), if last.frontier == "" then [] else [last],
                   ChildrenOf(init, slices).value, ChildFor(last, slices).value);
    }
  }

  lemma HistoryCases(db: DB, rc: ReadContext, cutoff: Frontier, h: History)
    requires HistoryFromStore(db, rc, cutoff) == Ok(h)
    ensures ChildSlices(db, rc, Active(h.relations)).Ok?
    ensures ChildrenOf(Active(h.relations), ByFrontier(ChildSlices(db, rc, Active(h.relations)).value)) == Ok(h.children)
  {
    hide ResolveResult, Relations, Active, ChildSlices, ChildrenOf, ByFrontier, Projection, Published;
  }

  /**
   * A successful effective history has exactly one child per active relation that has a frontier, in first-seen order,
   * each projected at its own frontier's target.
   */
  lemma HistoryChildren(db: DB, rc: ReadContext, cutoff: Frontier, h: History)
    requires Frontiers.FrontiersAgree(db) && HistoryFromStore(db, rc, cutoff) == Ok(h)
    ensures var wanted := WithFrontier(Active(h.relations));
            |h.children| == |wanted| && forall i :: 0 <= i < |wanted| ==> IsChild(db, rc, wanted[i], h.children[i])
  {
    hide *;
    HistoryCases(db, rc, cutoff, h);
    var active := Active(h.relations);
    AllSelected(db, rc, active);
    ChildrenMatch(db, rc, active, ByFrontier(ChildSlices(db, rc, active).value));
    ChildrenAre(db, rc, WithFrontier(active), h.children);
  }

  lemma AllSelected(db: DB, rc: ReadContext, active: seq<Relation>)
    requires Frontiers.FrontiersAgree(db) && ChildSlices(db, rc, active).Ok?
    ensures Selects(db, rc, active, ByFrontier(ChildSlices(db, rc, active).value))
  {
    var slices := ChildSlices(db, rc, active).value;
    hide Frontiers.FrontiersAgree, ChildSlices, ByFrontier, ResolveResult;
    forall r | r in active && r.frontier != "" ensures SelectsFor(db, rc, r, ByFrontier(slices)) {
      SelectedSlice(db, rc, active, r);
      ByFrontierContents(slices);
    }
  }

  lemma ChildrenAre(db: DB, rc: ReadContext, wanted: seq<Relation>, children: seq<Child>)
    ensures AreChildren(db, rc, wanted, children) <==>
              |children| == |wanted| && forall i :: 0 <= i < |wanted| ==> IsChild(db, rc, wanted[i], children[i])
  {
    hide IsChild;
  }

  // ---- Histories are stable ------------------------------------------------

  ghost predicate SameCuts(a: seq<Slice>, b: seq<Slice>) {
    |a| == |b| && forall i :: 0 <= i < |a| ==> SameCut(a[i], b[i])
  }

  lemma {:induction false} ChildSlicesLater(k: Kernel, db: DB, db': DB, rc: ReadContext, active: seq<Relation>)
    requires StoreInv(k, db) && Grows(db, db') && ChildSlices(db, rc, active).Ok?
    ensures ChildSlices(db', rc, active).Ok?
    ensures SameCuts(ChildSlices(db, rc, active).value, ChildSlices(db', rc, active).value)
  {
    hide StoreInv, Grows, ResolveResult, SameCut;
    if active != [] {
      var last := active[|active| - 1];
      ChildSlicesLater(k, db, db', rc, active[..|active| - 1]);
      if last.frontier != "" { CutIsImmutable(k, db, db', rc, last.frontier, BOTH); }
    }
  }

  ghost predicate SameSelection(m: map<Bytes, Slice>, n: map<Bytes, Slice>) {
    m.Keys == n.Keys && forall id :: id in m ==> SameCut(m[id], n[id])
  }

  lemma {:induction false} SameByFrontier(a: seq<Slice>, b: seq<Slice>)
    requires SameCuts(a, b)
    ensures SameSelection(ByFrontier(a), ByFrontier(b))
  {
    if a != [] {
      var last, other := a[|a| - 1], b[|b| - 1];
      assert SameCut(last, other) && last.frontier == other.frontier;
      hide SameCut;
      SameByFrontier(a[..|a| - 1], b[..|b| - 1]);
    }
  }

  lemma {:induction false} SameChildren(relations: seq<Relation>, m: map<Bytes, Slice>, n: map<Bytes, Slice>)
    requires SameSelection(m, n)
    ensures ChildrenOf(relations, n) == ChildrenOf(relations, m)
  {
    if relations != [] {
      var last := relations[|relations| - 1];
      SameChildren(relations[..|relations| - 1], m, n);
      if last.frontier in m { SameChild(last, m, n); }
    }
  }

  lemma SameChild(r: Relation, m: map<Bytes, Slice>, n: map<Bytes, Slice>)
    requires SameSelection(m, n) && r.frontier in m
    ensures ChildFor(r, n) == ChildFor(r, m)
  {
    assert SameCut(m[r.frontier], n[r.frontier]);
    SameCutSameProjection(m[r.frontier], n[r.frontier], r.child, None);
    hide Projection;
  }

  /** Relations and published facts read only what a cut keeps. */
  lemma SameCutSameRelations(s: Slice, t: Slice, owner: Bytes)
    requires SameCut(s, t)
    ensures Relations(t, owner) == Relations(s, owner) && Published(t, owner) == Published(s, owner)
  {
  }

  lemma SameHistory(s: Slice, t: Slice, target: Bytes, a: seq<Slice>, b: seq<Slice>)
    requires SameCut(s, t) && SameCuts(a, b)
    ensures HistoryOf(t, target, b) == HistoryOf(s, target, a)
  {
    SameCutSameRelations(s, t, target);
    SameCutSameProjection(s, t, target, None);
    SameByFrontier(a, b);
    hide SameCut, SameCuts, Relations, Published, Projection, ByFrontier, SameSelection;
    if Relations(s, target).Ok? {
      SameChildren(Active(Relations(s, target).value), ByFrontier(a), ByFrontier(b));
    }
  }

  /** An effective history that projected once projects identically in every later state. */
  lemma HistoryIsStable(k: Kernel, db: DB, db': DB, rc: ReadContext, cutoff: Frontier)
    requires StoreInv(k, db) && Grows(db, db') && HistoryFromStore(db, rc, cutoff).Ok?
    ensures HistoryFromStore(db', rc, cutoff) == HistoryFromStore(db, rc, cutoff)
  {
    var s := ResolveResult(db, rc, cutoff.frontierID, BOTH).value;
    var relations := Relations(s, cutoff.target).value;
    var active := Active(relations);
    hide StoreInv, Grows, ResolveResult, Relations, Active, HistoryOf, SameCut, SameCuts, ChildSlices;
    CutIsImmutable(k, db, db', rc, cutoff.frontierID, BOTH);
    var t := ResolveResult(db', rc, cutoff.frontierID, BOTH).value;
    SameCutSameRelations(s, t, cutoff.target);
    ChildSlicesLater(k, db, db', rc, active);
    SameHistory(s, t, cutoff.target, ChildSlices(db, rc, active).value, ChildSlices(db', rc, active).value);
  }

  /** The same over runs from the empty store */
  lemma HistorySurvivesRuns(k: Kernel, ops: seq<Op>, later: seq<Op>, rc: ReadContext, cutoff: Frontier)
    requires HistoryFromStore(Run(k, EMPTY, ops), rc, cutoff).Ok?
    ensures HistoryFromStore(Run(k, Run(k, EMPTY, ops), later), rc, cutoff) == HistoryFromStore(Run(k, EMPTY, ops), rc, cutoff)
  {
    hide *;
    ReachableInv(k, ops);
    RunKeeps(k, Run(k, EMPTY, ops), later);
    HistoryIsStable(k, Run(k, EMPTY, ops), Run(k, Run(k, EMPTY, ops), later), rc, cutoff);
  }
}
