/** Effective histories, from the entries of the parent's path. */
module HistoryFacts {
  import opened Wrappers
  import opened Utf8
  import opened Canonical
  import opened Trace
  import opened Tables
  import opened Append
  import opened Invariant
  import opened Slices
  import opened Closure
  import opened Cuts
  import opened Executions
  import opened Histories
  import Frontiers

  // ---- What a history is projected from ------------------------------------

  lemma HistoryRoot(db: DB, rc: ReadContext, cutoff: Frontier, h: History) returns (s: Slice, children: seq<Slice>)
    requires HistoryFromStore(db, rc, cutoff) == Ok(h)
    ensures ResolveResult(db, rc, cutoff.frontierID, BOTH) == Ok(s) && HistoryOf(s, cutoff.target, children) == Ok(h)
  {
    hide ResolveResult, Relations, Active, ChildSlices, HistoryOf;
    s := ResolveResult(db, rc, cutoff.frontierID, BOTH).value;
    children := ChildSlices(db, rc, Active(Relations(s, cutoff.target).value)).value;
  }

  lemma HistoryOfParts(s: Slice, target: Bytes, children: seq<Slice>, h: History)
    requires HistoryOf(s, target, children) == Ok(h)
    ensures Projection(s, target, None) == Ok(h.root) && Relations(s, target) == Ok(h.relations)
    ensures Published(s, target) == Ok(h.published)
  {
    hide Projection, Relations, Published, Active, ChildrenOf, ByFrontier;
  }

  lemma ProjectedFrom(s: Slice, target: Bytes, e: Execution)
    requires Projection(s, target, None) == Ok(e)
    ensures s.visibility != SHAPE_ONLY && PathFacts(s.facts, PathIn(s, target)).Ok?
    ensures e.(cutoff := NOWHERE) == Fold(target, PathFacts(s.facts, PathIn(s, target)).value).(cutoff := NOWHERE)
  {
    hide PathFacts, PathIn, Fold, CutoffFrom;
  }

  lemma RelationsFrom(s: Slice, target: Bytes, relations: seq<Relation>, published: seq<PublishedFact>)
    requires Relations(s, target) == Ok(relations) && Published(s, target) == Ok(published)
    ensures PathFacts(s.facts, PathIn(s, target)).Ok?
    ensures RelationsOf(PathFacts(s.facts, PathIn(s, target)).value, target) == Ok(relations)
    ensures published == PublishedOf(PathFacts(s.facts, PathIn(s, target)).value)
  {
    hide PathFacts, PathIn, RelationsOf, PublishedOf;
  }

  lemma HistoryParts(db: DB, rc: ReadContext, cutoff: Frontier, h: History) returns (s: Slice)
    requires HistoryFromStore(db, rc, cutoff) == Ok(h)
    ensures ResolveResult(db, rc, cutoff.frontierID, BOTH) == Ok(s) && s.visibility != SHAPE_ONLY
    ensures PathFacts(s.facts, PathIn(s, cutoff.target)).Ok?
    ensures var facts := PathFacts(s.facts, PathIn(s, cutoff.target)).value;
            && RelationsOf(facts, cutoff.target) == Ok(h.relations)
            && h.published == PublishedOf(facts)
            && h.root.(cutoff := NOWHERE) == Fold(cutoff.target, facts).(cutoff := NOWHERE)
  {
    hide *;
    var children;
    s, children := HistoryRoot(db, rc, cutoff, h);
    HistoryOfParts(s, cutoff.target, children, h);
    ProjectedFrom(s, cutoff.target, h.root);
    RelationsFrom(s, cutoff.target, h.relations, h.published);
  }

  lemma ShownAs(db: DB, rc: ReadContext, id: Bytes, s: Slice)
    requires ResolveResult(db, rc, id, BOTH) == Ok(s) && s.visibility != SHAPE_ONLY
    ensures rc.visibility != SHAPE_ONLY
  {
    hide CutOf, CutEntries;
  }

  lemma SameRoot(target: Bytes, facts: seq<Record>, root: Execution)
    requires root.(cutoff := NOWHERE) == Fold(target, facts).(cutoff := NOWHERE)
    ensures ExecutionSays(target, facts, root)
  {
    FoldSays(target, facts);
    hide ExecutionSays, Fold;
    CutoffKeeps(target, facts, Fold(target, facts), root.cutoff);
    assert root == Fold(target, facts).(cutoff := root.cutoff);
  }

  /** How many entries of its target's path a cutoff shows: none when its frontier is of another target */
  ghost function CutLength(db: DB, cutoff: Frontier): int {
    if cutoff.frontierID !in db.frontiers then 0 else
      var f := db.frontiers[cutoff.frontierID].frontier;
      if f.target == cutoff.target then f.throughOrdinal + 1 else 0
  }

  lemma CutPathFacts(db: DB, rc: ReadContext, cutoff: Frontier, s: Slice) returns (facts: seq<Record>)
    requires DensePaths(db) && RecordsOnPaths(db.paths, db.records)
    requires ResolveResult(db, rc, cutoff.frontierID, BOTH) == Ok(s) && rc.visibility != SHAPE_ONLY
    ensures PathFacts(s.facts, PathIn(s, cutoff.target)) == Ok(facts)
    ensures AreEntries(db, cutoff.target, CutLength(db, cutoff), facts)
  {
    hide *;
    facts := CutFactsAre(db, rc, cutoff.frontierID, s);
    var f := db.frontiers[cutoff.frontierID].frontier;
    LengthIs(db, cutoff);
    if f.target != cutoff.target {
      CutHolds(db, rc, cutoff.frontierID, BOTH, s);
      CutHoldsAll(db, s, cutoff.frontierID);
      facts := [];
      NoFacts(db, s, cutoff.target);
    }
  }

  lemma LengthIs(db: DB, cutoff: Frontier)
    requires cutoff.frontierID in db.frontiers
    ensures var f := db.frontiers[cutoff.frontierID].frontier;
            CutLength(db, cutoff) == if f.target == cutoff.target then f.throughOrdinal + 1 else 0
  {
  }

  lemma NoFacts(db: DB, s: Slice, target: Bytes)
    requires target !in s.ownerPaths
    ensures PathFacts(s.facts, PathIn(s, target)) == Ok([]) && AreEntries(db, target, 0, [])
  {
  }

  /**
    * The root execution, the relations and the published facts of an effective history are those of the entries of the
    * parent's path up to the cutoff, in order.
    */
  lemma HistorySays(db: DB, rc: ReadContext, cutoff: Frontier, h: History)
      returns (facts: seq<Record>, related: seq<nat>, published: seq<nat>)
    requires DensePaths(db) && RecordsOnPaths(db.paths, db.records) && HistoryFromStore(db, rc, cutoff) == Ok(h)
    ensures AreEntries(db, cutoff.target, CutLength(db, cutoff), facts)
    ensures ExecutionSays(cutoff.target, facts, h.root)
    ensures RelationsAre(facts, cutoff.target, h.relations, related)
    ensures PublishedAre(facts, h.published, published)
  {
    hide *;
    var s := HistoryParts(db, rc, cutoff, h);
    ShownAs(db, rc, cutoff.frontierID, s);
    facts := CutPathFacts(db, rc, cutoff, s);
    SameRoot(cutoff.target, facts, h.root);
    related := RelationsSay(facts, cutoff.target);
    published := PublishedSay(facts);
  }

  // ---- Children ------------------------------------------------------------

  /** The i-th entry of the parent's path creates a relation with the given id. */
  ghost predicate RelatesAt(db: DB, parent: Bytes, i: nat, id: Bytes) {
    && (parent, i) in db.paths && db.paths[(parent, i)].recordID in db.records
    && var row := db.records[db.paths[(parent, i)].recordID];
       && row.schemaRef == "shepherd2.execution_relation.created.v1"
       && TextAt(row.body, "parent_execution_id", parent) && TextAt(row.body, "relation_id", id)
  }

  ghost predicate LastRelatesAt(db: DB, parent: Bytes, n: int, i: nat, id: Bytes) {
    i < n && RelatesAt(db, parent, i, id) && forall j: nat :: i < j < n ==> !RelatesAt(db, parent, j, id)
  }

  lemma RelatedFact(db: DB, parent: Bytes, n: int, facts: seq<Record>, i: nat, id: Bytes)
    requires AreEntries(db, parent, n, facts) && i < |facts|
    ensures RelatesAt(db, parent, i, id) <==>
              IsRelationOf(facts[i], parent) && TextAt(facts[i].row.body, "relation_id", id)
  {
    hide TextAt;
  }

  lemma SameText(body: Body, key: Bytes, a: Bytes, b: Bytes)
    requires TextAt(body, key, a)
    ensures TextAt(body, key, b) <==> a == b
  {
  }

  /** The last relation with an id is the one of its last fact on the path. */
  lemma LatestOfPath(db: DB, parent: Bytes, n: int, facts: seq<Record>, relations: seq<Relation>, idx: seq<nat>, i: nat,
                     id: Bytes)
    requires AreEntries(db, parent, n, facts) && RelationsAre(facts, parent, relations, idx)
    requires LastRelatesAt(db, parent, n, i, id)
    ensures i < |facts| && id in RelationIDs(relations) && RelationSays(facts[i], Latest(relations, id))
    ensures Latest(relations, id).id == id
  {
    hide Latest, TextAt, IsRelationOf, RelatesAt, RelationSays;
    RelatedFact(db, parent, n, facts, i, id);
    var m :| 0 <= m < |idx| && idx[m] == i;
    NamedBy(facts[i], relations[m], id);
    assert RelationIDs(relations)[m] == id;
    LatestIsLast(relations, id);
    var l :| 0 <= l < |relations| && relations[l] == Latest(relations, id) && relations[l].id == id
             && forall j :: l < j < |relations| ==> relations[j].id != id;
    if l > m {
      RelatedFact(db, parent, n, facts, idx[l], id);
      NamedBy(facts[idx[l]], relations[l], id);
    }
  }

  lemma NamedBy(fact: Record, r: Relation, id: Bytes)
    requires RelationSays(fact, r)
    ensures TextAt(fact.row.body, "relation_id", id) <==> r.id == id
  {
    SameText(fact.row.body, "relation_id", r.id, id);
  }

  lemma ActiveByKind(relations: seq<Relation>, id: Bytes)
    requires id in RelationIDs(relations) && Latest(relations, id).id == id
    ensures (exists r :: r in Active(relations) && r.id == id) <==>
              Latest(relations, id).kind == "spawned" || Latest(relations, id).kind == "adopted"
    ensures forall r :: r in Active(relations) && r.id == id ==> r == Latest(relations, id)
  {
    ActiveIsLatest(relations);
    hide Active, Latest;
    if IsActiveKind(Latest(relations, id).kind) { assert Latest(relations, id) in Active(relations); }
  }

  lemma {:induction false} ChildrenAmong(relations: seq<Relation>, slices: map<Bytes, Slice>)
    requires ChildrenOf(relations, slices).Ok?
    ensures forall c :: c in ChildrenOf(relations, slices).value ==> c.relation in relations
  {
    if relations != [] {
      var init, last := relations[..|relations| - 1], relations[|relations| - 1];
      hide Projection;
      ChildrenAmong(init, slices);
      assert forall r :: r in init ==> r in relations;
      assert last in relations;
    }
  }

  lemma LastFact(db: DB, parent: Bytes, n: int, facts: seq<Record>, i: nat)
    requires AreEntries(db, parent, n, facts) && i < |facts|
    ensures (parent, i) in db.paths && db.paths[(parent, i)].recordID in db.records
    ensures facts[i].row == db.records[db.paths[(parent, i)].recordID]
  {
  }

  lemma RelationTexts(fact: Record, r: Relation)
    requires RelationSays(fact, r)
    ensures TextAt(fact.row.body, "relation_kind", r.kind) && TextAt(fact.row.body, "child_frontier_id", r.frontier)
  {
  }

  /** The payload of an entry's record */
  ghost function BodyAt(db: DB, parent: Bytes, i: nat): Body
    requires (parent, i) in db.paths && db.paths[(parent, i)].recordID in db.records
  {
    db.records[db.paths[(parent, i)].recordID].body
  }

  /**
    * A successful history has no child for a relation id whose last fact on the parent's path, up to the cutoff, is
    * neither spawned nor adopted: an abandoned relation drops its child.
    */
  lemma AbandonedHasNoChild(db: DB, rc: ReadContext, cutoff: Frontier, h: History, i: nat, id: Bytes)
    requires DensePaths(db) && RecordsOnPaths(db.paths, db.records) && HistoryFromStore(db, rc, cutoff) == Ok(h)
    requires LastRelatesAt(db, cutoff.target, CutLength(db, cutoff), i, id)
    requires (cutoff.target, i) in db.paths && db.paths[(cutoff.target, i)].recordID in db.records
    requires TextAt(BodyAt(db, cutoff.target, i), "relation_kind", "abandoned")
    ensures forall c :: c in h.children ==> c.relation.id != id
  {
    hide *;
    var facts, related, published := HistorySays(db, rc, cutoff, h);
    var n := CutLength(db, cutoff);
    LatestOfPath(db, cutoff.target, n, facts, h.relations, related, i, id);
    var last := Latest(h.relations, id);
    LastFact(db, cutoff.target, n, facts, i);
    BodyIs(db, cutoff.target, i);
    RelationTexts(facts[i], last);
    SameText(facts[i].row.body, "relation_kind", last.kind, "abandoned");
    ActiveByKind(h.relations, id);
    KindsDiffer();
    HistoryCases(db, rc, cutoff, h);
    ChildrenAmong(Active(h.relations), ByFrontier(ChildSlices(db, rc, Active(h.relations)).value));
  }

  lemma BodyIs(db: DB, parent: Bytes, i: nat)
    requires (parent, i) in db.paths && db.paths[(parent, i)].recordID in db.records
    ensures BodyAt(db, parent, i) == db.records[db.paths[(parent, i)].recordID].body
  {
  }

  lemma KindsDiffer()
    ensures "abandoned" != "spawned" && "abandoned" != "adopted"
  {
    assert |"abandoned"| != |"spawned"| && |"abandoned"| != |"adopted"|;
  }

  lemma {:induction false} WantedContents(relations: seq<Relation>)
    ensures forall r :: r in WithFrontier(relations) <==> r in relations && r.frontier != ""
  {
    if relations != [] {
      var init, last := relations[..|relations| - 1], relations[|relations| - 1];
      WantedContents(init);
      assert forall r :: r in relations <==> r in init || r == last;
    }
  }

  lemma ChildOf(db: DB, rc: ReadContext, wanted: seq<Relation>, children: seq<Child>, r: Relation)
    requires |children| == |wanted| && forall i :: 0 <= i < |wanted| ==> IsChild(db, rc, wanted[i], children[i])
    ensures (exists c :: c in children && c.relation == r) <==> r in wanted
  {
    if r in wanted {
      var i :| 0 <= i < |wanted| && wanted[i] == r;
      assert IsChild(db, rc, wanted[i], children[i]) && children[i] in children;
    }
    if c :| c in children && c.relation == r {
      var i :| 0 <= i < |children| && children[i] == c;
      assert IsChild(db, rc, wanted[i], children[i]);
    }
  }

  /**
    * When every frontier row agrees with its fact, a history has a child for a relation id exactly when the id's last
    * fact on the parent's path was spawned or adopted and names a frontier.
    */
  lemma HasChildExactly(db: DB, rc: ReadContext, cutoff: Frontier, h: History, i: nat, id: Bytes)
    requires DensePaths(db) && RecordsOnPaths(db.paths, db.records) && HistoryFromStore(db, rc, cutoff) == Ok(h)
    requires Frontiers.FrontiersAgree(db)
    requires LastRelatesAt(db, cutoff.target, CutLength(db, cutoff), i, id)
    requires (cutoff.target, i) in db.paths && db.paths[(cutoff.target, i)].recordID in db.records
    ensures var body := BodyAt(db, cutoff.target, i);
            (exists c :: c in h.children && c.relation.id == id) <==>
              (TextAt(body, "relation_kind", "spawned") || TextAt(body, "relation_kind", "adopted"))
              && !TextAt(body, "child_frontier_id", "")
  {
    hide *;
    var facts, related, published := HistorySays(db, rc, cutoff, h);
    var n := CutLength(db, cutoff);
    LatestOfPath(db, cutoff.target, n, facts, h.relations, related, i, id);
    var last := Latest(h.relations, id);
    LastFact(db, cutoff.target, n, facts, i);
    BodyIs(db, cutoff.target, i);
    RelationTexts(facts[i], last);
    SameText(facts[i].row.body, "relation_kind", last.kind, "spawned");
    SameText(facts[i].row.body, "relation_kind", last.kind, "adopted");
    SameText(facts[i].row.body, "child_frontier_id", last.frontier, "");
    ActiveByKind(h.relations, id);
    HistoryChildren(db, rc, cutoff, h);
    WantedContents(Active(h.relations));
    forall r ensures (exists c :: c in h.children && c.relation == r) <==> r in WithFrontier(Active(h.relations)) {
      ChildOf(db, rc, WithFrontier(Active(h.relations)), h.children, r);
    }
    ChildById(h.children, id);
  }

  lemma ChildById(children: seq<Child>, id: Bytes)
    ensures (exists c :: c in children && c.relation.id == id) <==>
              exists r: Relation :: r.id == id && exists c :: c in children && c.relation == r
  {
    if c :| c in children && c.relation.id == id {
      assert c.relation.id == id && exists d :: d in children && d.relation == c.relation;
    }
  }
}
