/** What a slice tells of the retained records. */
module SliceFacts {
  import opened Wrappers
  import opened Utf8
  import opened Trace
  import opened Digests
  import opened Tables
  import opened Append
  import opened WitnessWalk
  import opened Slices
  import opened Reading
  import opened Closure

  // ---- The specification ---------------------------------------------------

  /** The view is of one of the places the record is retained at. */
  predicate IsViewOf(db: DB, id: Bytes, view: RecordView) {
    && view.ordinal >= 0 && (view.owner, view.ordinal) in db.paths
    && var row := db.paths[(view.owner, view.ordinal)];
    && row.recordID == id && row.contextRef == view.contextRef && row.kindLabel == view.kindLabel
  }

  /** What is shown of a record: all of it, or its shape without the payload */
  predicate Tells(db: DB, visibility: Bytes, id: Bytes, v: Visible) {
    && id in db.records
    && var row := db.records[id];
    if visibility == "shape_only" then
      && v.Shape? && v.id == id && v.schemaRef == row.schemaRef && v.mode == row.mode
      && v.witnessRef == row.witnessRef && v.causedBy == row.causedBy && IsViewOf(db, id, v.view)
    else
      v.Full? && v.record.id == id && v.record.row == row && IsViewOf(db, id, v.record.view)
  }

  predicate WitnessTells(db: DB, a: WitnessAnchor) {
    a.ref in db.records && a.schemaRef == db.records[a.ref].schemaRef && a.witnessRef == db.records[a.ref].witnessRef
  }

  /** An anchor has the shape of a known fact at its first place, and none of an unknown one. */
  ghost predicate AnchorTells(db: DB, a: Anchor) {
    if a.ref !in db.records || forall p :: p in db.paths ==> db.paths[p].recordID != a.ref then a.shape == None else
      && a.shape.Some? && a.shape.value.ordinal >= 0
      && a.shape.value.schemaRef == db.records[a.ref].schemaRef
      && a.shape.value.witnessRef == db.records[a.ref].witnessRef
      && var p := (a.shape.value.owner, a.shape.value.ordinal as nat);
      && p in db.paths && db.paths[p].recordID == a.ref && db.paths[p].kindLabel == a.shape.value.kindLabel
      && forall q :: q in db.paths && db.paths[q].recordID == a.ref && q != p ==> PlaceLess(p, q)
  }

  /** A fact of the slice is retained in the context. */
  ghost predicate Cited(db: DB, s: Slice, c: Bytes) {
    c != "" && exists p :: p in db.paths && db.paths[p].contextRef == c && db.paths[p].recordID in s.facts
  }

  /** The facts are those of the owner paths; a slice of shapes anchors contexts and witnesses, any other holds them. */
  ghost predicate SliceTells(db: DB, s: Slice, visibility: Bytes) {
    && (forall id :: id in s.facts ==> Tells(db, visibility, id, s.facts[id]))
    && (forall id :: id in s.facts <==> exists o :: o in s.ownerPaths && id in s.ownerPaths[o])
    && (forall c :: c in s.contexts ==> c in db.contexts && s.contexts[c] == db.contexts[c])
    && (forall c :: c in s.contexts || c in s.contextAnchors ==> Cited(db, s, c))
    && (forall id :: id in s.witnesses ==> Tells(db, visibility, id, s.witnesses[id]))
    && (forall a :: a in s.witnessAnchors ==> WitnessTells(db, a))
    && (forall a :: a in s.externalAnchors ==> AnchorTells(db, a))
    && (if visibility == "shape_only" then s.contexts == map[] && s.witnesses == map[]
        else s.contextAnchors == [] && s.witnessAnchors == [])
  }

  function ViewIn(v: Visible): RecordView { if v.Full? then v.record.view else v.view }

  /** The slice anchors or holds the witness. */
  ghost predicate ShowsWitness(s: Slice, w: Bytes) {
    if s.visibility == "shape_only" then exists a :: a in s.witnessAnchors && a.ref == w else w in s.witnesses
  }

  predicate CitesOnChain(db: DB, row: RecordRow, c: seq<Bytes>, w: Bytes) {
    row.witnessRef != "" && IsChain(db, row.witnessRef, c) && w in c
  }

  /** The witness is on the chain from some fact of the slice to a root. */
  ghost predicate OnChain(db: DB, s: Slice, w: Bytes) {
    exists id, c :: id in s.facts && id in db.records && CitesOnChain(db, db.records[id], c, w)
  }

  ghost predicate ShowsContext(db: DB, s: Slice, c: Bytes) {
    if s.visibility == "shape_only" then c in s.contextAnchors else c in s.contexts <==> c in db.contexts
  }

  /** The slice shows every context and exactly the witnesses its facts rest on, each anchor once. */
  ghost predicate SliceHolds(db: DB, s: Slice) {
    && (forall id :: id in s.facts && ViewIn(s.facts[id]).contextRef != "" ==>
          ShowsContext(db, s, ViewIn(s.facts[id]).contextRef))
    && Distinct(s.contextAnchors)
    && (forall w :: ShowsWitness(s, w) <==> OnChain(db, s, w))
  }

  // ---- Loaded records ------------------------------------------------------

  /** The record is a row of the join of records and path entries. */
  predicate Joins(db: DB, r: Record) { r.id in db.records && r.row == db.records[r.id] && IsViewOf(db, r.id, r.view) }

  lemma {:induction false} LoadedJoin(db: DB, entries: seq<Entry>)
    requires LoadAll(db, entries).Ok?
    ensures forall r :: r in LoadAll(db, entries).value ==> Joins(db, r)
  {
    if entries != [] {
      var last, init := entries[|entries| - 1], entries[..|entries| - 1];
      LoadedJoin(db, init);
      var fact := ReadFactAtPath(db, last.id, last.owner, last.ordinal).value;
      assert LoadAll(db, entries).value == LoadAll(db, init).value + [fact];
      assert Joins(db, fact);
    }
  }

  lemma ReadJoins(db: DB, id: Bytes)
    requires ReadFact(db, id).Ok?
    ensures ReadFact(db, id).value.id == id && Joins(db, ReadFact(db, id).value)
  {
  }

  lemma SupportJoins(db: DB, loaded: seq<Record>)
    requires AllSupported(db, loaded)
    ensures forall r :: r in SupportRecords(db, loaded) ==> Joins(db, r)
  {
    SupportReadable(db, loaded);
    hide ReadFact, AllSupported, Chains, Joins;
    var ids := Deduplicate(Chains(db, loaded));
    forall r | r in SupportRecords(db, loaded) ensures Joins(db, r) {
      var i :| 0 <= i < |ids| && SupportRecords(db, loaded)[i] == r;
      assert ids[i] in ids && r == ReadFact(db, ids[i]).value;
      ReadJoins(db, ids[i]);
    }
  }

  lemma VisibleTells(db: DB, r: Record, visibility: Bytes)
    requires Joins(db, r)
    ensures Tells(db, visibility, r.id, VisibleFact(r, visibility))
  {
  }

  ghost predicate AllTell(db: DB, facts: map<Bytes, Visible>, visibility: Bytes) {
    forall id :: id in facts ==> Tells(db, visibility, id, facts[id])
  }

  lemma {:induction false} FactsTell(db: DB, loaded: seq<Record>, visibility: Bytes)
    requires forall r :: r in loaded ==> Joins(db, r)
    ensures AllTell(db, FactsByID(loaded, visibility), visibility)
    ensures forall id :: id in FactsByID(loaded, visibility) <==> exists r :: r in loaded && r.id == id
    ensures forall id :: id in FactsByID(loaded, visibility) ==>
              exists r :: r in loaded && r.id == id && FactsByID(loaded, visibility)[id] == VisibleFact(r, visibility)
  {
    hide Joins, Tells, VisibleFact;
    if loaded != [] {
      var init, last := loaded[..|loaded| - 1], loaded[|loaded| - 1];
      FactsTell(db, init, visibility);
      VisibleTells(db, last, visibility);
      assert forall r :: r in loaded <==> r in init || r == last;
      assert last in loaded;
    }
  }

  lemma {:induction false} PathHolds(loaded: seq<Record>, owner: Bytes)
    ensures forall id :: id in OwnerPath(loaded, owner) <==> exists r :: r in loaded && r.view.owner == owner && r.id == id
  {
    if loaded != [] {
      var init, last := loaded[..|loaded| - 1], loaded[|loaded| - 1];
      PathHolds(init, owner);
      assert forall r :: r in loaded <==> r in init || r == last;
      assert last in loaded;
    }
  }

  lemma PathsCover(loaded: seq<Record>, id: Bytes)
    ensures (exists r :: r in loaded && r.id == id) <==>
              exists o :: o in OwnerPaths(loaded) && id in OwnerPaths(loaded)[o]
  {
    hide OwnerPath;
    if r :| r in loaded && r.id == id {
      PathHolds(loaded, r.view.owner);
      var i :| 0 <= i < |loaded| && loaded[i] == r;
      assert PathRefs(loaded)[i] == r.view.owner;
      assert r.view.owner in OwnerPaths(loaded) && id in OwnerPaths(loaded)[r.view.owner];
    }
    if o :| o in OwnerPaths(loaded) && id in OwnerPaths(loaded)[o] {
      PathHolds(loaded, o);
    }
  }

  lemma {:induction false} ContextsCited(loaded: seq<Record>)
    ensures forall c :: c in ContextRefs(loaded) <==> c != "" && exists r :: r in loaded && r.view.contextRef == c
  {
    if loaded != [] {
      var init, last := loaded[..|loaded| - 1], loaded[|loaded| - 1];
      ContextsCited(init);
      assert forall r :: r in loaded <==> r in init || r == last;
      assert last in loaded;
    }
  }

  lemma CitedBy(db: DB, loaded: seq<Record>, s: Slice, c: Bytes)
    requires forall r :: r in loaded ==> Joins(db, r)
    requires forall r :: r in loaded ==> r.id in s.facts
    requires c in Deduplicate(ContextRefs(loaded))
    ensures Cited(db, s, c)
  {
    DeduplicateContents(ContextRefs(loaded));
    ContextsCited(loaded);
    var r :| r in loaded && r.view.contextRef == c;
    assert Joins(db, r);
    var p := (r.view.owner, r.view.ordinal as nat);
    assert p in db.paths && db.paths[p].contextRef == c && db.paths[p].recordID in s.facts;
  }

  lemma AnchorSays(db: DB, id: Bytes)
    ensures AnchorTells(db, AnchorFor(db, id))
  {
    if id in db.records && PlacesOf(db, id) != {} {
      var p := FirstPlace(db, id);
      assert p in PlacesOf(db, id);
      forall q | q in db.paths && db.paths[q].recordID == id && q != p ensures PlaceLess(p, q) {
        assert q in PlacesOf(db, id);
      }
    } else {
      forall p | id in db.records && p in db.paths ensures db.paths[p].recordID != id {
        assert p !in PlacesOf(db, id);
      }
    }
  }

  lemma AnchorsSay(db: DB, ids: seq<Bytes>)
    ensures forall a :: a in AnchorsFor(db, ids) ==> AnchorTells(db, a)
  {
    hide AnchorFor, AnchorTells;
    forall a | a in AnchorsFor(db, ids) ensures AnchorTells(db, a) {
      var i :| 0 <= i < |ids| && AnchorsFor(db, ids)[i] == a;
      AnchorSays(db, ids[i]);
    }
  }

  // ---- Slices --------------------------------------------------------------

  lemma LoadedTell(db: DB, loaded: seq<Record>, support: seq<Record>, frontier: Option<Frontier>, visibility: Bytes,
                   mode: Bytes, anchors: bool)
    requires forall r :: r in loaded ==> Joins(db, r)
    requires forall r :: r in support ==> Joins(db, r)
    ensures SliceTells(db, SliceOf(db, loaded, support, frontier, visibility, mode, anchors), visibility)
  {
    var s := SliceOf(db, loaded, support, frontier, visibility, mode, anchors);
    hide Joins, Tells, Cited, AnchorFor, AnchorTells, FactsByID, OwnerPaths, ParentEdges, Selected, Inside, Outside,
         Deduplicate, ContextRefs;
    FactsTell(db, loaded, visibility);
    FactsTell(db, support, visibility);
    forall id ensures id in s.facts <==> exists o :: o in s.ownerPaths && id in s.ownerPaths[o] { PathsCover(loaded, id); }
    forall c | c in s.contexts || c in s.contextAnchors ensures Cited(db, s, c) { CitedBy(db, loaded, s, c); }
    AnchorsSay(db, Deduplicate(Outside(ParentEdges(loaded), Selected(loaded))));
    forall a | a in s.witnessAnchors ensures WitnessTells(db, a) {
      var i :| 0 <= i < |support| && WitnessAnchorFor(support[i]) == a;
      assert support[i] in support;
      JoinedRow(db, support[i]);
    }
  }

  lemma {:induction false} ChainsHold(db: DB, loaded: seq<Record>, w: Bytes)
    requires AllSupported(db, loaded)
    ensures w in Chains(db, loaded) <==> exists r, c :: r in loaded && CitesOnChain(db, r.row, c, w)
  {
    hide CitesOnChain;
    if loaded != [] {
      var init, last := loaded[..|loaded| - 1], loaded[|loaded| - 1];
      ChainsHold(db, init, w);
      assert last in loaded && Supported(db, last);
      SupportHolds(db, last, w);
      assert forall r :: r in loaded <==> r in init || r == last;
    }
  }

  lemma SupportHolds(db: DB, r: Record, w: Bytes)
    requires Supported(db, r)
    ensures w in SupportOf(db, r) <==> exists c :: CitesOnChain(db, r.row, c, w)
  {
    if c :| CitesOnChain(db, r.row, c, w) {
      ChainUnique(db, r.row.witnessRef, c, ChainOf(db, r.row.witnessRef));
    }
    if w in SupportOf(db, r) { assert CitesOnChain(db, r.row, ChainOf(db, r.row.witnessRef), w); }
  }

  lemma SupportShown(db: DB, loaded: seq<Record>, s: Slice, w: Bytes)
    requires AllSupported(db, loaded) && (forall r :: r in loaded ==> Joins(db, r))
    requires forall id :: id in s.facts <==> exists r :: r in loaded && r.id == id
    ensures w in Deduplicate(Chains(db, loaded)) <==> OnChain(db, s, w)
  {
    hide CitesOnChain, Chains, AllSupported, Deduplicate;
    DeduplicateContents(Chains(db, loaded));
    ChainsHold(db, loaded, w);
    if r, c :| r in loaded && CitesOnChain(db, r.row, c, w) {
      JoinedRow(db, r);
      assert r.id in s.facts && CitesOnChain(db, db.records[r.id], c, w);
    }
    if id, c :| id in s.facts && id in db.records && CitesOnChain(db, db.records[id], c, w) {
      var r :| r in loaded && r.id == id;
      JoinedRow(db, r);
    }
  }

  lemma JoinedRow(db: DB, r: Record)
    requires Joins(db, r)
    ensures r.id in db.records && r.row == db.records[r.id]
  {
  }

  lemma WitnessesShown(db: DB, loaded: seq<Record>, frontier: Option<Frontier>, visibility: Bytes, mode: Bytes,
                       anchors: bool, w: Bytes)
    requires AllSupported(db, loaded) && forall r :: r in loaded ==> Joins(db, r)
    ensures var s := SliceOf(db, loaded, SupportRecords(db, loaded), frontier, visibility, mode, anchors);
            ShowsWitness(s, w) <==> OnChain(db, s, w)
  {
    var support := SupportRecords(db, loaded);
    var s := SliceOf(db, loaded, support, frontier, visibility, mode, anchors);
    hide Joins, Tells, OnChain, FactsByID, OwnerPaths, ParentEdges, Selected, Inside, Outside, Deduplicate, ContextRefs,
         ContextsByID, AnchorsFor, Chains, AllSupported, SupportRecords, VisibleFact;
    FactsTell(db, loaded, visibility);
    SupportJoins(db, loaded);
    FactsTell(db, support, visibility);
    SupportShown(db, loaded, s, w);
    SupportNamed(db, loaded, w);
    AnchorRefs(support, w);
  }

  lemma SupportNamed(db: DB, loaded: seq<Record>, w: Bytes)
    requires AllSupported(db, loaded)
    ensures w in Deduplicate(Chains(db, loaded)) <==> exists r :: r in SupportRecords(db, loaded) && r.id == w
  {
    SupportReadable(db, loaded);
    hide AllSupported, Chains, Deduplicate, ReadFact;
    var ids, support := Deduplicate(Chains(db, loaded)), SupportRecords(db, loaded);
    forall i | 0 <= i < |ids| ensures support[i].id == ids[i] {
      assert ids[i] in ids;
      ReadJoins(db, ids[i]);
    }
    if w in ids {
      var i :| 0 <= i < |ids| && ids[i] == w;
      assert support[i] in support;
    }
  }

  lemma AnchorRefs(support: seq<Record>, w: Bytes)
    ensures (exists a :: a in WitnessAnchorsFor(support) && a.ref == w) <==> exists r :: r in support && r.id == w
  {
    var all := WitnessAnchorsFor(support);
    if r :| r in support && r.id == w {
      var i :| 0 <= i < |support| && support[i] == r;
      assert all[i] in all && all[i].ref == w;
    }
    if a :| a in all && a.ref == w {
      var i :| 0 <= i < |all| && all[i] == a;
      assert support[i] in support;
    }
  }

  lemma ContextsShown(db: DB, loaded: seq<Record>, support: seq<Record>, frontier: Option<Frontier>, visibility: Bytes,
                      mode: Bytes, anchors: bool, id: Bytes)
    requires forall r :: r in loaded ==> Joins(db, r)
    ensures var s := SliceOf(db, loaded, support, frontier, visibility, mode, anchors);
            && Distinct(s.contextAnchors)
            && (id in s.facts && ViewIn(s.facts[id]).contextRef != "" ==>
                  ShowsContext(db, s, ViewIn(s.facts[id]).contextRef))
  {
    var s := SliceOf(db, loaded, support, frontier, visibility, mode, anchors);
    hide Joins, FactsByID, OwnerPaths, ParentEdges, Selected, Inside, Outside, Deduplicate, ContextRefs, AnchorsFor,
         WitnessAnchorsFor;
    FactsTell(db, loaded, visibility);
    DeduplicateContents(ContextRefs(loaded));
    if id in s.facts && ViewIn(s.facts[id]).contextRef != "" {
      var r :| r in loaded && r.id == id && s.facts[id] == VisibleFact(r, visibility);
      ContextsCited(loaded);
      assert r.view.contextRef in ContextRefs(loaded);
    }
  }

  /** Every slice a read returns tells the retained records as its visibility says. */
  lemma SliceTellsRecords(db: DB, entries: seq<Entry>, frontier: Option<Frontier>, visibility: Bytes, mode: Bytes,
                          anchors: bool)
    requires SliceResult(db, entries, frontier, visibility, mode, anchors).Ok?
    ensures var s := SliceResult(db, entries, frontier, visibility, mode, anchors).value;
            s.frontier == frontier && s.visibility == visibility && s.mode == mode && SliceTells(db, s, visibility)
            && SliceHolds(db, s)
  {
    var facts := LoadAll(db, entries).value;
    var loaded := FilterMode(facts, mode);
    LoadedJoin(db, entries);
    FilterContents(facts, mode);
    SupportJoins(db, loaded);
    hide SliceTells, Joins, FilterMode, LoadAll, SupportRecords, AllSupported, ShowsWitness, OnChain, ShowsContext;
    var support := SupportRecords(db, loaded);
    LoadedTell(db, loaded, support, frontier, visibility, mode, anchors);
    forall w: Bytes { WitnessesShown(db, loaded, frontier, visibility, mode, anchors, w); }
    forall id: Bytes { ContextsShown(db, loaded, support, frontier, visibility, mode, anchors, id); }
  }
}
