/** Slices: what a read result says about its entries. */
module Slices {
  import opened Wrappers
  import opened Seqs
  import opened Sorting
  import opened Utf8
  import opened Trace
  import opened Digests
  import opened Tables
  import opened Append

  const SHAPE_ONLY: Bytes := "shape_only"
  const PAYLOAD: Bytes := "payload"
  const FULL_INTERNAL: Bytes := "full_internal"

  const BOTH: Bytes := "both"
  const DECLARATIONS_ONLY: Bytes := "declarations_only"
  const CAPTURES_ONLY: Bytes := "captures_only"

  /** pathEntry: one row of path_entries a read selected */
  datatype Entry = Entry(id: Bytes, owner: Bytes, ordinal: nat)

  /** A record, or its shape without payload */
  datatype Visible =
    | Full(record: Record)
    | Shape(id: Bytes, schemaRef: Bytes, mode: Bytes, witnessRef: Bytes, causedBy: seq<Bytes>, view: RecordView)

  datatype AnchorShape = AnchorShape(kindLabel: Bytes, schemaRef: Bytes, owner: Bytes, ordinal: int, witnessRef: Bytes)

  /** A reference to a fact outside the slice; the shape is missing when the fact is unknown. */
  datatype Anchor = Anchor(ref: Bytes, shape: Option<AnchorShape>)

  datatype WitnessAnchor = WitnessAnchor(ref: Bytes, schemaRef: Bytes, witnessRef: Bytes)

  datatype Slice = Slice(
    frontier: Option<Frontier>,
    visibility: Bytes,
    mode: Bytes,
    facts: map<Bytes, Visible>,
    contexts: map<Bytes, RetainedContext>,
    ownerPaths: map<Bytes, seq<Bytes>>,
    ownerPathOrder: seq<Bytes>,
    causalEdges: seq<(Bytes, Bytes)>,
    externalAnchors: seq<Anchor>,
    contextAnchors: seq<Bytes>,
    witnesses: map<Bytes, Visible>,
    witnessAnchors: seq<WitnessAnchor>)

  // ---- Filters -------------------------------------------------------------

  /** modeMatches */
  predicate ModeMatches(record: Record, mode: Bytes) {
    if mode == DECLARATIONS_ONLY then record.row.mode == DECLARATION
    else if mode == CAPTURES_ONLY then record.row.mode == CAPTURE
    else true
  }

  /** visibleFact */
  function VisibleFact(r: Record, visibility: Bytes): Visible {
    if visibility == SHAPE_ONLY then Shape(r.id, r.row.schemaRef, r.row.mode, r.row.witnessRef, r.row.causedBy, r.view)
    else Full(r)
  }

  /** anchorForFact */
  function AnchorFor(db: DB, id: Bytes): Anchor {
    match ReadFact(db, id)
    case Err(_) => Anchor(id, None)
    case Ok(f) => Anchor(id, Some(AnchorShape(f.view.kindLabel, f.row.schemaRef, f.view.owner, f.view.ordinal,
                                              f.row.witnessRef)))
  }

  function AnchorsFor(db: DB, ids: seq<Bytes>): (r: seq<Anchor>)
    ensures |r| == |ids|
  {
    seq(|ids|, i requires 0 <= i < |ids| => AnchorFor(db, ids[i]))
  }

  function Refs(anchors: seq<Anchor>): (r: seq<Bytes>)
    ensures |r| == |anchors|
  {
    seq(|anchors|, i requires 0 <= i < |anchors| => anchors[i].ref)
  }

  /** The records at the selected rows; any row that does not join fails the read. */
  function LoadAll(db: DB, entries: seq<Entry>): Result<seq<Record>> {
    if entries == [] then Ok([]) else
      var last := entries[|entries| - 1];
      var init :- LoadAll(db, entries[..|entries| - 1]);
      var fact :- ReadFactAtPath(db, last.id, last.owner, last.ordinal);
      Ok(init + [fact])
  }

  function FilterMode(records: seq<Record>, mode: Bytes): seq<Record> {
    if records == [] then [] else
      var last := records[|records| - 1];
      FilterMode(records[..|records| - 1], mode) + if ModeMatches(last, mode) then [last] else []
  }

  // ---- The parts of a slice ------------------------------------------------

  function IDs(loaded: seq<Record>): (r: seq<Bytes>)
    ensures |r| == |loaded|
  {
    seq(|loaded|, i requires 0 <= i < |loaded| => loaded[i].id)
  }

  function PathRefs(loaded: seq<Record>): (r: seq<Bytes>)
    ensures |r| == |loaded|
  {
    seq(|loaded|, i requires 0 <= i < |loaded| => loaded[i].view.owner)
  }

  function Selected(loaded: seq<Record>): set<Bytes> { set r | r in loaded :: r.id }

  /** The last occurrence of an id gives its view. */
  function FactsByID(loaded: seq<Record>, visibility: Bytes): map<Bytes, Visible> {
    if loaded == [] then map[] else
      var last := loaded[|loaded| - 1];
      FactsByID(loaded[..|loaded| - 1], visibility)[last.id := VisibleFact(last, visibility)]
  }

  /** The ids loaded from one owner path, in order */
  function OwnerPath(loaded: seq<Record>, owner: Bytes): seq<Bytes> {
    if loaded == [] then [] else
      var last := loaded[|loaded| - 1];
      OwnerPath(loaded[..|loaded| - 1], owner) + if last.view.owner == owner then [last.id] else []
  }

  function OwnerPaths(loaded: seq<Record>): map<Bytes, seq<Bytes>> {
    map o | o in PathRefs(loaded) :: OwnerPath(loaded, o)
  }

  /** Every parent of every loaded fact, in order, with its child */
  function ParentEdges(loaded: seq<Record>): seq<(Bytes, Bytes)> {
    if loaded == [] then [] else
      var last := loaded[|loaded| - 1];
      ParentEdges(loaded[..|loaded| - 1]) + EdgesTo(last.id, last.row.causedBy)
  }

  function Inside(edges: seq<(Bytes, Bytes)>, selected: set<Bytes>): seq<(Bytes, Bytes)> {
    if edges == [] then [] else
      var last := edges[|edges| - 1];
      Inside(edges[..|edges| - 1], selected) + if last.0 in selected then [last] else []
  }

  function Outside(edges: seq<(Bytes, Bytes)>, selected: set<Bytes>): seq<Bytes> {
    if edges == [] then [] else
      var last := edges[|edges| - 1];
      Outside(edges[..|edges| - 1], selected) + if last.0 in selected then [] else [last.0]
  }

  function ContextRefs(loaded: seq<Record>): seq<Bytes> {
    if loaded == [] then [] else
      var last := loaded[|loaded| - 1];
      ContextRefs(loaded[..|loaded| - 1]) + if last.view.contextRef == "" then [] else [last.view.contextRef]
  }

  function ContextsByID(db: DB, refs: seq<Bytes>): map<Bytes, RetainedContext> {
    map c | c in refs && c in db.contexts :: db.contexts[c]
  }

  function RecordsOf(db: DB, ids: seq<Bytes>): (r: seq<Record>)
    requires forall id :: id in ids ==> ReadFact(db, id).Ok?
    ensures |r| == |ids|
  {
    seq(|ids|, i requires 0 <= i < |ids| => ReadFact(db, ids[i]).value)
  }

  function WitnessAnchorFor(r: Record): WitnessAnchor { WitnessAnchor(r.id, r.row.schemaRef, r.row.witnessRef) }

  function WitnessAnchorsFor(support: seq<Record>): (r: seq<WitnessAnchor>)
    ensures |r| == |support|
  {
    seq(|support|, i requires 0 <= i < |support| => WitnessAnchorFor(support[i]))
  }

  /** The slice over the loaded facts and their witness support */
  function SliceOf(db: DB, loaded: seq<Record>, support: seq<Record>, frontier: Option<Frontier>, visibility: Bytes,
                   mode: Bytes, anchors: bool): Slice
  {
    var edges, selected := ParentEdges(loaded), Selected(loaded);
    var contexts := Deduplicate(ContextRefs(loaded));
    Slice(frontier, visibility, mode, FactsByID(loaded, visibility),
          if visibility == SHAPE_ONLY then map[] else ContextsByID(db, contexts),
          OwnerPaths(loaded), Deduplicate(PathRefs(loaded)), Inside(edges, selected),
          if anchors then AnchorsFor(db, Deduplicate(Outside(edges, selected))) else [],
          if visibility == SHAPE_ONLY then contexts else [],
          if visibility == SHAPE_ONLY then map[] else FactsByID(support, visibility),
          if visibility == SHAPE_ONLY then WitnessAnchorsFor(support) else [])
  }

  // ---- Membership ----------------------------------------------------------

  lemma {:induction false} DeduplicateContents<T>(ss: seq<T>)
    ensures forall x :: x in Deduplicate(ss) <==> x in ss
    ensures Distinct(Deduplicate(ss))
  {
    if ss != [] {
      var init, last := ss[..|ss| - 1], ss[|ss| - 1];
      DeduplicateContents(init);
      assert forall x :: x in ss <==> x in init || x == last;
    }
  }

  lemma {:induction false} InsideContents(edges: seq<(Bytes, Bytes)>, selected: set<Bytes>)
    ensures forall e :: e in Inside(edges, selected) <==> e in edges && e.0 in selected
  {
    if edges != [] {
      var init, last := edges[..|edges| - 1], edges[|edges| - 1];
      InsideContents(init, selected);
      assert forall e :: e in edges <==> e in init || e == last;
    }
  }

  lemma {:induction false} OutsideContents(edges: seq<(Bytes, Bytes)>, selected: set<Bytes>)
    ensures forall p :: p in Outside(edges, selected) <==> p !in selected && exists e :: e in edges && e.0 == p
  {
    if edges != [] {
      var init, last := edges[..|edges| - 1], edges[|edges| - 1];
      OutsideContents(init, selected);
      assert forall e :: e in edges <==> e in init || e == last;
    }
  }

  lemma {:induction false} ParentEdgesContents(loaded: seq<Record>)
    ensures forall e :: e in ParentEdges(loaded) <==> exists r :: r in loaded && r.id == e.1 && e.0 in r.row.causedBy
  {
    if loaded != [] {
      var init, last := loaded[..|loaded| - 1], loaded[|loaded| - 1];
      ParentEdgesContents(init);
      var edges := EdgesTo(last.id, last.row.causedBy);
      forall e ensures e in edges <==> last.id == e.1 && e.0 in last.row.causedBy {
        if last.id == e.1 && e.0 in last.row.causedBy {
          var i :| 0 <= i < |last.row.causedBy| && last.row.causedBy[i] == e.0;
          assert edges[i] == e;
        }
      }
      assert forall r :: r in loaded <==> r in init || r == last;
    }
  }

  ghost predicate IsParentEdge(loaded: seq<Record>, parent: Bytes, child: Bytes) {
    exists r :: r in loaded && r.id == child && parent in r.row.causedBy
  }

  ghost predicate IsOutsideParent(loaded: seq<Record>, parent: Bytes) {
    parent !in Selected(loaded) && exists r :: r in loaded && parent in r.row.causedBy
  }

  lemma DeduplicatedIn<T>(ss: seq<T>, i: nat)
    requires i < |Deduplicate(ss)|
    ensures Deduplicate(ss)[i] in ss
  {
    var d := Deduplicate(ss);
    DeduplicateContents(ss);
    assert d[i] in d;
  }

  /** Before the first occurrence of a later first-seen value comes an occurrence of the earlier one. */
  lemma {:induction false} FirstSeenOrder<T>(ss: seq<T>, i: nat, j: nat)
    requires i < j < |Deduplicate(ss)|
    ensures exists m :: 0 <= m < |ss| && ss[m] == Deduplicate(ss)[i] && Deduplicate(ss)[j] !in ss[..m + 1]
  {
    var init, last := ss[..|ss| - 1], ss[|ss| - 1];
    DeduplicateContents(init);
    if j < |Deduplicate(init)| {
      FirstSeenOrder(init, i, j);
      var m :| 0 <= m < |init| && init[m] == Deduplicate(init)[i] && Deduplicate(init)[j] !in init[..m + 1];
      assert init[..m + 1] == ss[..m + 1];
    } else {
      var x := Deduplicate(init)[i];
      DeduplicatedIn(init, i);
      var m :| 0 <= m < |init| && init[m] == x;
      assert forall x :: x in ss[..m + 1] ==> x in init;
    }
  }

  /** An edge from p stands before every edge from q. */
  ghost predicate MetBefore(edges: seq<(Bytes, Bytes)>, p: Bytes, q: Bytes) {
    exists e :: 0 <= e < |edges| && edges[e].0 == p && forall n :: 0 <= n <= e ==> edges[n].0 != q
  }

  /** The edge an outside parent comes from */
  lemma {:induction false} OutsideIndex(edges: seq<(Bytes, Bytes)>, selected: set<Bytes>, m: nat) returns (e: nat)
    requires m < |Outside(edges, selected)|
    ensures e < |edges| && edges[e].0 == Outside(edges, selected)[m]
    ensures Outside(edges[..e + 1], selected) == Outside(edges, selected)[..m + 1]
  {
    var init := edges[..|edges| - 1];
    if m < |Outside(init, selected)| {
      e := OutsideIndex(init, selected, m);
      assert edges[..e + 1] == init[..e + 1];
    } else {
      e := |edges| - 1;
      assert edges[..e + 1] == edges;
    }
  }

  lemma OutsideInOrder(edges: seq<(Bytes, Bytes)>, selected: set<Bytes>)
    ensures var d := Deduplicate(Outside(edges, selected));
            forall i, j :: 0 <= i < j < |d| ==> MetBefore(edges, d[i], d[j])
  {
    var outside, d := Outside(edges, selected), Deduplicate(Outside(edges, selected));
    forall i, j | 0 <= i < j < |d| ensures MetBefore(edges, d[i], d[j]) {
      FirstSeenOrder(outside, i, j);
      var m :| 0 <= m < |outside| && outside[m] == d[i] && d[j] !in outside[..m + 1];
      var e := OutsideIndex(edges, selected, m);
      DeduplicatedIn(outside, j);
      OutsideContents(edges, selected);
      OutsideContents(edges[..e + 1], selected);
      forall n | 0 <= n <= e ensures edges[n].0 != d[j] {
        assert edges[..e + 1][n] == edges[n] && edges[n] in edges[..e + 1];
      }
    }
  }

  /** What the edges and anchors of a slice are made from */
  lemma SliceEdges(db: DB, loaded: seq<Record>, support: seq<Record>, frontier: Option<Frontier>, visibility: Bytes,
                   mode: Bytes, anchors: bool)
    ensures var s := SliceOf(db, loaded, support, frontier, visibility, mode, anchors);
            && s.causalEdges == Inside(ParentEdges(loaded), Selected(loaded))
            && |s.externalAnchors| == |Refs(s.externalAnchors)|
            && Refs(s.externalAnchors) ==
               if anchors then Deduplicate(Outside(ParentEdges(loaded), Selected(loaded))) else []
  {
  }

  /**
   * Every parent of a loaded fact is either selected, with its edge in the slice, or outside, anchored exactly once
   * when anchors are included; nothing else is an edge or an anchor. Anchors stand in the order their facts are first
   * met as parents.
   */
  lemma SlicePartition(db: DB, loaded: seq<Record>, support: seq<Record>, frontier: Option<Frontier>, visibility: Bytes,
                       mode: Bytes, anchors: bool)
    ensures var s := SliceOf(db, loaded, support, frontier, visibility, mode, anchors);
            && (forall p, c :: (p, c) in s.causalEdges <==> IsParentEdge(loaded, p, c) && p in Selected(loaded))
            && (forall p :: p in Refs(s.externalAnchors) <==> anchors && IsOutsideParent(loaded, p))
            && Distinct(Refs(s.externalAnchors))
            && (forall i, j :: 0 <= i < j < |s.externalAnchors| ==>
                  MetBefore(ParentEdges(loaded), Refs(s.externalAnchors)[i], Refs(s.externalAnchors)[j]))
  {
    hide *;
    var edges, selected := ParentEdges(loaded), Selected(loaded);
    SliceEdges(db, loaded, support, frontier, visibility, mode, anchors);
    EdgesPartition(loaded);
    DistinctNothing();
    if anchors { OutsideInOrder(edges, selected); }
  }

  lemma DistinctNothing()
    ensures Distinct<Bytes>([])
  {
  }

  lemma EdgesPartition(loaded: seq<Record>)
    ensures var edges, selected := ParentEdges(loaded), Selected(loaded);
            && (forall p, c :: (p, c) in Inside(edges, selected) <==> IsParentEdge(loaded, p, c) && p in selected)
            && (forall p :: p in Deduplicate(Outside(edges, selected)) <==> IsOutsideParent(loaded, p))
            && Distinct(Deduplicate(Outside(edges, selected)))
  {
    var edges, selected := ParentEdges(loaded), Selected(loaded);
    var outside := Outside(edges, selected);
    hide Selected;
    ParentEdgesContents(loaded);
    InsideContents(edges, selected);
    OutsideContents(edges, selected);
    DeduplicateContents(outside);
    forall p, c ensures (p, c) in Inside(edges, selected) <==> IsParentEdge(loaded, p, c) && p in selected {
      assert (p, c) in edges <==> IsParentEdge(loaded, p, c);
    }
    forall p ensures p in outside <==> IsOutsideParent(loaded, p) {
      if r :| r in loaded && p in r.row.causedBy { assert (p, r.id) in edges; }
    }
  }

  // ---- Flattening ----------------------------------------------------------

  /** Slice.FactIDs visits the owner paths in the order they were first met. */
  function Flatten(order: seq<Bytes>, paths: map<Bytes, seq<Bytes>>): seq<Bytes> {
    if order == [] then [] else
      var last := order[|order| - 1];
      Flatten(order[..|order| - 1], paths) + if last in paths then paths[last] else []
  }

  lemma FlattenNothing(paths: map<Bytes, seq<Bytes>>)
    ensures Flatten([], paths) == []
  {
  }

  lemma FlattenSnoc(order: seq<Bytes>, i: nat, paths: map<Bytes, seq<Bytes>>)
    requires i < |order|
    ensures Flatten(order[..i + 1], paths) ==
            Flatten(order[..i], paths) + if order[i] in paths then paths[order[i]] else []
  {
    assert order[..i + 1][..i] == order[..i];
  }

  /** FactIDs: the recorded order when it covers the paths, otherwise the sorted owners */
  method FactIDs(s: Slice) returns (ids: seq<Bytes>)
    ensures ids == Flatten(if |s.ownerPathOrder| == |s.ownerPaths| then s.ownerPathOrder
                           else SortedOwners(s.ownerPaths.Keys), s.ownerPaths)
  {
    hide Flatten, SortedOwners;
    var order := s.ownerPathOrder;
    if |order| != |s.ownerPaths| { order := SortedOwners(s.ownerPaths.Keys); }
    ids := [];
    FlattenNothing(s.ownerPaths);
    for i := 0 to |order|
      invariant ids == Flatten(order[..i], s.ownerPaths)
    {
      FlattenSnoc(order, i, s.ownerPaths);
      ids := ids + if order[i] in s.ownerPaths then s.ownerPaths[order[i]] else [];
    }
    assert order[..|order|] == order;
  }

  function SortedOwners(owners: set<Bytes>): seq<Bytes> {
    LessIsStrictTotal();
    SortSet(Less, owners)
  }

  function PlaceOfRecord(r: Record): Place { (r.view.owner, if r.view.ordinal < 0 then 0 else r.view.ordinal) }

  /** The records stand in strictly increasing path order. */
  ghost predicate InPathOrder(loaded: seq<Record>) {
    forall i, j :: 0 <= i < j < |loaded| ==> PlaceLess(PlaceOfRecord(loaded[i]), PlaceOfRecord(loaded[j]))
  }

  ghost predicate Grouped(owners: seq<Bytes>) {
    forall i, j, k :: 0 <= i < j < k < |owners| && owners[i] == owners[k] ==> owners[j] == owners[i]
  }

  lemma PathOrderIsGrouped(loaded: seq<Record>)
    requires InPathOrder(loaded)
    ensures Grouped(PathRefs(loaded))
  {
    LessIsStrictTotal();
    var owners := PathRefs(loaded);
    forall i, j, k | 0 <= i < j < k < |owners| && owners[i] == owners[k] ensures owners[j] == owners[i] {
      assert PlaceLess(PlaceOfRecord(loaded[i]), PlaceOfRecord(loaded[j]));
      assert PlaceLess(PlaceOfRecord(loaded[j]), PlaceOfRecord(loaded[k]));
    }
  }

  /** Grouped values end with the last new one. */
  lemma {:induction false} GroupedEnd(owners: seq<Bytes>)
    requires Grouped(owners) && owners != []
    ensures Deduplicate(owners) != [] && Deduplicate(owners)[|Deduplicate(owners)| - 1] == owners[|owners| - 1]
  {
    var init, last := owners[..|owners| - 1], owners[|owners| - 1];
    DeduplicateContents(init);
    if last in init {
      var i :| 0 <= i < |init| && init[i] == last;
      GroupedEnd(init);
      assert init[|init| - 1] == last;
    }
  }

  function FlattenPaths(loaded: seq<Record>, order: seq<Bytes>): seq<Bytes> {
    if order == [] then [] else
      FlattenPaths(loaded, order[..|order| - 1]) + OwnerPath(loaded, order[|order| - 1])
  }

  lemma {:induction false} FlattenIsPaths(loaded: seq<Record>, order: seq<Bytes>)
    requires forall o :: o in order ==> o in PathRefs(loaded)
    ensures Flatten(order, OwnerPaths(loaded)) == FlattenPaths(loaded, order)
  {
    if order != [] { FlattenIsPaths(loaded, order[..|order| - 1]); }
  }

  lemma {:induction false} OtherPathsUnchanged(loaded: seq<Record>, order: seq<Bytes>)
    requires loaded != [] && loaded[|loaded| - 1].view.owner !in order
    ensures FlattenPaths(loaded, order) == FlattenPaths(loaded[..|loaded| - 1], order)
  {
    if order != [] {
      OtherPathsUnchanged(loaded, order[..|order| - 1]);
      assert order[|order| - 1] in order;
    }
  }

  lemma {:induction false} NewPath(loaded: seq<Record>, owner: Bytes)
    requires owner !in PathRefs(loaded)
    ensures OwnerPath(loaded, owner) == []
  {
    if loaded != [] {
      assert PathRefs(loaded)[|loaded| - 1] == loaded[|loaded| - 1].view.owner;
      assert forall o :: o in PathRefs(loaded[..|loaded| - 1]) ==> o in PathRefs(loaded) by {
        assert PathRefs(loaded)[..|loaded| - 1] == PathRefs(loaded[..|loaded| - 1]);
      }
      NewPath(loaded[..|loaded| - 1], owner);
    }
  }

  lemma FlattenLast(loaded: seq<Record>, order: seq<Bytes>)
    requires loaded != [] && order != [] && order[|order| - 1] == loaded[|loaded| - 1].view.owner
    requires loaded[|loaded| - 1].view.owner !in order[..|order| - 1]
    ensures FlattenPaths(loaded, order) ==
            FlattenPaths(loaded[..|loaded| - 1], order[..|order| - 1])
            + OwnerPath(loaded[..|loaded| - 1], order[|order| - 1]) + [loaded[|loaded| - 1].id]
  {
    var head, o := order[..|order| - 1], order[|order| - 1];
    OtherPathsUnchanged(loaded, head);
    Associate(FlattenPaths(loaded, head), OwnerPath(loaded[..|loaded| - 1], o), [loaded[|loaded| - 1].id]);
  }

  lemma {:induction false} GroupedFlattens(loaded: seq<Record>)
    requires Grouped(PathRefs(loaded))
    ensures FlattenPaths(loaded, Deduplicate(PathRefs(loaded))) == IDs(loaded)
  {
    if loaded != [] {
      GroupedInit(loaded);
      GroupedFlattens(loaded[..|loaded| - 1]);
      GroupedStep(loaded);
    } else {
      assert PathRefs(loaded) == [] && IDs(loaded) == [];
    }
  }

  lemma GroupedInit(loaded: seq<Record>)
    requires loaded != [] && Grouped(PathRefs(loaded))
    ensures Grouped(PathRefs(loaded[..|loaded| - 1]))
    ensures PathRefs(loaded)[..|loaded| - 1] == PathRefs(loaded[..|loaded| - 1])
    ensures PathRefs(loaded)[|loaded| - 1] == loaded[|loaded| - 1].view.owner
    ensures IDs(loaded) == IDs(loaded[..|loaded| - 1]) + [loaded[|loaded| - 1].id]
  {
    var all, init := PathRefs(loaded), PathRefs(loaded[..|loaded| - 1]);
    assert all[..|loaded| - 1] == init;
    forall i, j, k | 0 <= i < j < k < |init| && init[i] == init[k] ensures init[j] == init[i] {
      assert all[i] == init[i] && all[j] == init[j] && all[k] == init[k];
    }
  }

  lemma GroupedStep(loaded: seq<Record>)
    requires loaded != [] && Grouped(PathRefs(loaded))
    requires var init := loaded[..|loaded| - 1]; FlattenPaths(init, Deduplicate(PathRefs(init))) == IDs(init)
    ensures FlattenPaths(loaded, Deduplicate(PathRefs(loaded))) == IDs(loaded)
  {
    var init, last := loaded[..|loaded| - 1], loaded[|loaded| - 1];
    var owners, before, o := PathRefs(loaded), PathRefs(init), last.view.owner;
    var order := Deduplicate(owners);
    GroupedInit(loaded);
    DeduplicateContents(before);
    DeduplicateContents(owners);
    GroupedEnd(owners);
    assert o !in order[..|order| - 1];
    assert o in before ==> order == Deduplicate(before);
    assert o !in before ==> order == Deduplicate(before) + [o];
    FlattenLast(loaded, order);
    assert FlattenPaths(init, order) == FlattenPaths(init, order[..|order| - 1]) + OwnerPath(init, o);
    if o !in before {
      NewPath(init, o);
      assert order[..|order| - 1] == Deduplicate(before);
    }
  }

  /** For entries in path order, FactIDs flattens back to exactly the loaded entries in order. */
  lemma FlattensBack(db: DB, loaded: seq<Record>, support: seq<Record>, frontier: Option<Frontier>, visibility: Bytes,
                     mode: Bytes, anchors: bool)
    requires InPathOrder(loaded)
    ensures var s := SliceOf(db, loaded, support, frontier, visibility, mode, anchors);
            |s.ownerPathOrder| == |s.ownerPaths| && Flatten(s.ownerPathOrder, s.ownerPaths) == IDs(loaded)
  {
    var order := Deduplicate(PathRefs(loaded));
    DeduplicateContents(PathRefs(loaded));
    PathOrderIsGrouped(loaded);
    GroupedFlattens(loaded);
    FlattenIsPaths(loaded, order);
    DistinctCount(order, OwnerPaths(loaded).Keys);
  }

  lemma {:induction false} DistinctCount<T>(ss: seq<T>, all: set<T>)
    requires Distinct(ss) && forall x :: x in ss <==> x in all
    ensures |ss| == |all|
  {
    if ss == [] {
      assert all == {};
    } else {
      var init, last := ss[..|ss| - 1], ss[|ss| - 1];
      assert last in ss;
      forall x ensures x in init <==> x in all - {last} {
        assert x in ss <==> x in init || x == last;
      }
      DistinctCount(init, all - {last});
    }
  }
}
