/** Resolving a published frontier, and that a published cut never changes. */
module Cuts {
  import opened Wrappers
  import opened Sorting
  import opened Utf8
  import opened Trace
  import opened Digests
  import opened Tables
  import opened Append
  import opened Invariant
  import StagingLaws
  import opened StoreInvariant
  import opened Commits
  import opened Frontiers
  import opened WitnessLaws
  import opened WitnessWalk
  import opened Slices
  import opened Reading
  import opened Closure
  import opened PathReads
  import opened Runs

  // ---- Resolving -----------------------------------------------------------

  /** The rows up to the cutoff, on the target's path */
  function CutPlaces(paths: map<Place, PathRow>, f: Frontier): set<Place> {
    set p | p in paths && p.0 == f.target && p.1 <= f.throughOrdinal
  }

  function CutEntries(db: DB, f: Frontier): seq<Entry> { EntriesAt(db, Rows(CutPlaces(db.paths, f))) }

  /** The guards of ResolveFrontier before it reads the entries */
  function CutOf(db: DB, rc: ReadContext, id: Bytes, mode: Bytes): Result<Frontier> {
    if !ReadAuthorized(rc) then Err(Unauthorized)
    else if !IsModeFilter(mode) then Err(Incompatible)
    else
      var f :- ReadOwnerCutoff(db, id);
      var through :- ReadFactAtPath(db, f.throughFact, f.target, f.throughOrdinal);
      if through.view.owner != f.target || through.view.ordinal != f.throughOrdinal then Err(StoreLaw) else Ok(f)
  }

  ghost function ResolveResult(db: DB, rc: ReadContext, id: Bytes, mode: Bytes): Result<Slice> {
    var f :- CutOf(db, rc, id, mode);
    SliceResult(db, CutEntries(db, f), Some(f), rc.visibility, mode, true)
  }

  /** Of the frontier's target path, the entries up to its cutoff that the filter lets through, and nothing else */
  ghost predicate ShowsCut(db: DB, s: Slice, id: Bytes, filter: Bytes) {
    && id in db.frontiers
    && var f := db.frontiers[id].frontier;
       && s.frontier == Some(f) && f.throughOrdinal >= 0
       && ShowsPath(db, s, f.target, f.throughOrdinal + 1, filter)
       && s.ownerPaths.Keys <= {f.target}
  }

  lemma CutSelects(db: DB, f: Frontier, o: Bytes)
    requires DensePaths(db) && f.throughOrdinal >= 0 && (f.target, f.throughOrdinal as nat) in db.paths
    ensures SelectsTo(Rows(CutPlaces(db.paths, f)), o, if o == f.target then f.throughOrdinal + 1 else 0)
  {
  }

  lemma CutRowsRetained(db: DB, f: Frontier)
    requires RecordsOnPaths(db.paths, db.records)
    ensures Retained(db, Rows(CutPlaces(db.paths, f))) && Increasing(PlaceLess, Rows(CutPlaces(db.paths, f)))
  {
  }

  lemma CutIsRow(db: DB, rc: ReadContext, id: Bytes, mode: Bytes)
    requires CutOf(db, rc, id, mode).Ok?
    ensures id in db.frontiers && CutOf(db, rc, id, mode).value == db.frontiers[id].frontier && IsModeFilter(mode)
    ensures var f := db.frontiers[id].frontier; f.throughOrdinal >= 0 && (f.target, f.throughOrdinal as nat) in db.paths
  {
  }

  lemma ResolvedFrom(db: DB, rc: ReadContext, id: Bytes, mode: Bytes, s: Slice)
    requires ResolveResult(db, rc, id, mode) == Ok(s)
    ensures CutOf(db, rc, id, mode).Ok?
    ensures var f := CutOf(db, rc, id, mode).value;
            SliceResult(db, EntriesAt(db, Rows(CutPlaces(db.paths, f))), Some(f), rc.visibility, mode, true) == Ok(s)
            && s.frontier == Some(f)
  {
    hide LoadAll, SupportRecords, AllSupported, FilterMode, CutOf;
  }

  lemma NoOtherPath(db: DB, s: Slice, o: Bytes, filter: Bytes)
    requires ShowsPath(db, s, o, 0, filter)
    ensures o !in s.ownerPaths
  {
  }

  /** A frontier resolved in a dense store holds exactly the entries of its target's path up to its cutoff. */
  lemma CutHolds(db: DB, rc: ReadContext, id: Bytes, mode: Bytes, s: Slice)
    requires DensePaths(db) && RecordsOnPaths(db.paths, db.records) && ResolveResult(db, rc, id, mode) == Ok(s)
    ensures ShowsCut(db, s, id, mode)
  {
    hide *;
    ResolvedFrom(db, rc, id, mode, s);
    CutIsRow(db, rc, id, mode);
    var f := db.frontiers[id].frontier;
    CutRowsRetained(db, f);
    forall o | o in s.ownerPaths ensures o == f.target {
      if o != f.target { OtherPath(db, rc, f, mode, s, o); }
    }
    CutSelects(db, f, f.target);
    RowsShowPaths(db, Rows(CutPlaces(db.paths, f)), Some(f), rc.visibility, mode, true, s, f.target, f.throughOrdinal + 1);
    ShowsCutFrom(db, s, id, mode);
  }

  lemma OtherPath(db: DB, rc: ReadContext, f: Frontier, mode: Bytes, s: Slice, o: Bytes)
    requires DensePaths(db) && f.throughOrdinal >= 0 && (f.target, f.throughOrdinal as nat) in db.paths
    requires RecordsOnPaths(db.paths, db.records) && IsModeFilter(mode) && o != f.target
    requires Retained(db, Rows(CutPlaces(db.paths, f)))
    requires SliceResult(db, EntriesAt(db, Rows(CutPlaces(db.paths, f))), Some(f), rc.visibility, mode, true) == Ok(s)
    ensures o !in s.ownerPaths
  {
    hide *;
    CutRowsRetained(db, f);
    CutSelects(db, f, o);
    RowsShowPaths(db, Rows(CutPlaces(db.paths, f)), Some(f), rc.visibility, mode, true, s, o, 0);
    NoOtherPath(db, s, o, mode);
  }

  lemma ShowsCutFrom(db: DB, s: Slice, id: Bytes, filter: Bytes)
    requires id in db.frontiers
    requires var f := db.frontiers[id].frontier;
             && s.frontier == Some(f) && f.throughOrdinal >= 0
             && ShowsPath(db, s, f.target, f.throughOrdinal + 1, filter)
             && forall o :: o in s.ownerPaths ==> o == f.target
    ensures ShowsCut(db, s, id, filter)
  {
    hide ShowsPath;
  }

  /** With mode both, the i-th id of the path is that of its i-th entry, up to the cutoff. */
  lemma CutHoldsAll(db: DB, s: Slice, id: Bytes)
    requires ShowsCut(db, s, id, BOTH)
    ensures var f := db.frontiers[id].frontier;
            && f.throughOrdinal >= 0
            && s.ownerPaths.Keys == {f.target}
            && |s.ownerPaths[f.target]| == f.throughOrdinal + 1
            && forall i: nat :: i <= f.throughOrdinal ==>
                 (f.target, i) in db.paths && s.ownerPaths[f.target][i] == db.paths[(f.target, i)].recordID
  {
    var f := db.frontiers[id].frontier;
    KeptBoth(db, f.target, f.throughOrdinal + 1);
  }

  /** ResolveFrontier */
  method ResolveFrontier(db: DB, rc: ReadContext, id: Bytes, mode: Bytes) returns (r: Result<Slice>)
    ensures r == ResolveResult(db, rc, id, mode)
    ensures r.Ok? && DensePaths(db) && RecordsOnPaths(db.paths, db.records) ==> ShowsCut(db, r.value, id, mode)
  {
    hide SliceResult, CutEntries, ReadOwnerCutoff, ReadFactAtPath, DensePaths, RecordsOnPaths, ShowsCut;
    if !ReadAuthorized(rc) { return Err(Unauthorized); }
    if !IsModeFilter(mode) { return Err(Incompatible); }
    var f := ReadOwnerCutoff(db, id);
    if f.Err? { return Err(f.error); }
    var through := ReadFactAtPath(db, f.value.throughFact, f.value.target, f.value.throughOrdinal);
    if through.Err? { return Err(through.error); }
    if through.value.view.owner != f.value.target { return Err(StoreLaw); }
    if through.value.view.ordinal != f.value.throughOrdinal { return Err(StoreLaw); }
    r := BuildSlice(db, CutEntries(db, f.value), Some(f.value), rc.visibility, mode, true);
    if r.Ok? && DensePaths(db) && RecordsOnPaths(db.paths, db.records) { CutHolds(db, rc, id, mode, r.value); }
  }

  // ---- What growth keeps ---------------------------------------------------

  lemma ReadableLater(db: DB, db': DB, id: Bytes)
    requires Grows(db, db') && ReadFact(db, id).Ok?
    ensures ReadFact(db', id).Ok? && ReadFact(db', id).value.row == ReadFact(db, id).value.row
    ensures RowOf(db', id) == RowOf(db, id)
  {
    var p :| p in PlacesOf(db, id);
    assert p in PlacesOf(db', id);
  }

  lemma {:induction false} ChainLater(db: DB, db': DB, ref: Bytes, c: seq<Bytes>)
    requires Grows(db, db') && IsChain(db, ref, c)
    ensures IsChain(db', ref, c)
    decreases |c|
  {
    ReadableLater(db, db', ref);
    hide Grows, ReadFact, RowOf;
    if RowOf(db, ref).schemaRef != ROOT_WITNESS_SCHEMA { ChainLater(db, db', RowOf(db, ref).witnessRef, c[1..]); }
  }

  lemma SupportedLater(db: DB, db': DB, r: Record)
    requires Grows(db, db') && Supported(db, r)
    ensures Supported(db', r) && SupportOf(db', r) == SupportOf(db, r)
  {
    if r.row.witnessRef != "" {
      var c := ChainOf(db, r.row.witnessRef);
      ChainLater(db, db', r.row.witnessRef, c);
      ChainUnique(db', r.row.witnessRef, c, ChainOf(db', r.row.witnessRef));
    }
  }

  lemma {:induction false} ChainsLater(db: DB, db': DB, loaded: seq<Record>)
    requires Grows(db, db') && AllSupported(db, loaded)
    ensures AllSupported(db', loaded) && Chains(db', loaded) == Chains(db, loaded)
  {
    forall r | r in loaded ensures Supported(db', r) { SupportedLater(db, db', r); }
    hide Grows, Supported, SupportOf;
    if loaded != [] {
      ChainsLater(db, db', loaded[..|loaded| - 1]);
      SupportedLater(db, db', loaded[|loaded| - 1]);
    }
  }

  // ---- The cut itself ------------------------------------------------------

  /** A cut at a retained entry selects the same rows in every later state. */
  lemma CutPlacesLater(db: DB, db': DB, f: Frontier)
    requires DensePaths(db) && Grows(db, db') && f.throughOrdinal >= 0 && (f.target, f.throughOrdinal) in db.paths
    ensures CutPlaces(db'.paths, f) == CutPlaces(db.paths, f)
  {
    var last: Place := (f.target, f.throughOrdinal);
    assert last in db.paths;
    forall p: Place ensures p in CutPlaces(db'.paths, f) <==> p in CutPlaces(db.paths, f) {
      if p.0 == f.target && p.1 <= f.throughOrdinal { assert p in db.paths; }
    }
  }

  lemma RecordsLater(db: DB, db': DB, places: seq<Place>)
    requires Retained(db, places) && Grows(db, db')
    ensures Retained(db', places) && RecordsAt(db', places) == RecordsAt(db, places)
    ensures EntriesAt(db', places) == EntriesAt(db, places)
  {
    forall i | 0 <= i < |places| ensures RecordsAt(db', places)[i] == RecordsAt(db, places)[i]
      ensures EntriesAt(db', places)[i] == EntriesAt(db, places)[i]
    {
      assert places[i] in places;
    }
  }

  lemma {:induction false} ContextsHeld(db: DB, loaded: seq<Record>)
    requires forall r :: r in loaded && r.view.contextRef != "" ==> r.view.contextRef in db.contexts
    ensures forall c :: c in ContextRefs(loaded) ==> c in db.contexts
  {
    if loaded != [] { ContextsHeld(db, loaded[..|loaded| - 1]); }
  }

  lemma ContextsLater(db: DB, db': DB, loaded: seq<Record>)
    requires Grows(db, db')
    requires forall r :: r in loaded && r.view.contextRef != "" ==> r.view.contextRef in db.contexts
    ensures ContextsByID(db', Deduplicate(ContextRefs(loaded))) == ContextsByID(db, Deduplicate(ContextRefs(loaded)))
  {
    ContextsHeld(db, loaded);
    DeduplicateContents(ContextRefs(loaded));
  }

  lemma EntryContexts(db: DB, places: seq<Place>)
    requires ContextsRetained(db) && Retained(db, places)
    ensures forall r :: r in RecordsAt(db, places) && r.view.contextRef != "" ==> r.view.contextRef in db.contexts
  {
    forall r | r in RecordsAt(db, places) && r.view.contextRef != "" ensures r.view.contextRef in db.contexts {
      var i :| 0 <= i < |places| && RecordsAt(db, places)[i] == r;
      assert places[i] in places;
    }
  }

  lemma AnchorRefs(db: DB, db': DB, ids: seq<Bytes>)
    ensures Refs(AnchorsFor(db, ids)) == ids && Refs(AnchorsFor(db', ids)) == ids
  {
  }

  lemma SameWitnesses(db: DB, db': DB, ids: seq<Bytes>)
    requires Grows(db, db') && forall id :: id in ids ==> ReadFact(db, id).Ok?
    ensures forall id :: id in ids ==> ReadFact(db', id).Ok?
    ensures var a, b := RecordsOf(db, ids), RecordsOf(db', ids);
            (forall i :: 0 <= i < |ids| ==> a[i].id == b[i].id == ids[i] && a[i].row == b[i].row)
            && WitnessAnchorsFor(a) == WitnessAnchorsFor(b)
  {
    forall id | id in ids
      ensures ReadFact(db', id).Ok? && ReadFact(db', id).value.row == ReadFact(db, id).value.row
      ensures ReadFact(db, id).value.id == id == ReadFact(db', id).value.id
    {
      ReadableLater(db, db', id);
    }
    hide Grows, ReadFact;
    forall i | 0 <= i < |ids| ensures ids[i] in ids {}
  }

  lemma {:induction false} FactKeys(support: seq<Record>, visibility: Bytes)
    ensures forall id :: id in FactsByID(support, visibility) <==> id in IDs(support)
  {
    if support != [] {
      var init := support[..|support| - 1];
      FactKeys(init, visibility);
      assert IDs(support) == IDs(init) + [support[|support| - 1].id];
    }
  }

  /** Everything of a slice but the shapes of its external anchors and the views of its witnesses */
  ghost predicate SameCut(s: Slice, t: Slice) {
    && t.(externalAnchors := s.externalAnchors, witnesses := s.witnesses) == s
    && Refs(t.externalAnchors) == Refs(s.externalAnchors)
    && t.witnesses.Keys == s.witnesses.Keys
  }

  /** Two slices over the same facts, one in a later state */
  lemma SlicesLater(db: DB, db': DB, loaded: seq<Record>, frontier: Option<Frontier>, visibility: Bytes, mode: Bytes,
                    anchors: bool)
    requires Grows(db, db') && AllSupported(db, loaded)
    requires forall r :: r in loaded && r.view.contextRef != "" ==> r.view.contextRef in db.contexts
    ensures AllSupported(db', loaded)
    ensures SameCut(SliceOf(db, loaded, SupportRecords(db, loaded), frontier, visibility, mode, anchors),
                    SliceOf(db', loaded, SupportRecords(db', loaded), frontier, visibility, mode, anchors))
  {
    ChainsLater(db, db', loaded);
    var ids := Deduplicate(Chains(db, loaded));
    SupportReadable(db, loaded);
    SameWitnesses(db, db', ids);
    var a, b := SupportRecords(db, loaded), SupportRecords(db', loaded);
    FactKeys(a, visibility);
    FactKeys(b, visibility);
    assert IDs(a) == ids && IDs(b) == ids;
    ContextsLater(db, db', loaded);
    AnchorRefs(db, db', Deduplicate(Outside(ParentEdges(loaded), Selected(loaded))));
  }

  lemma CutoffLater(db: DB, db': DB, id: Bytes)
    requires Grows(db, db') && ReadOwnerCutoff(db, id).Ok?
    ensures ReadOwnerCutoff(db', id) == ReadOwnerCutoff(db, id)
  {
    ReadableLater(db, db', db.frontiers[id].frontier.createdBy);
    hide FrontierFromPayload, ReadFact, RowOf;
  }

  lemma EntryLater(db: DB, db': DB, id: Bytes, owner: Bytes, ordinal: int)
    requires Grows(db, db') && ReadFactAtPath(db, id, owner, ordinal).Ok?
    ensures ReadFactAtPath(db', id, owner, ordinal) == ReadFactAtPath(db, id, owner, ordinal)
    ensures ordinal >= 0 && (owner, ordinal as nat) in db.paths && db.paths[(owner, ordinal as nat)].recordID == id
  {
  }

  lemma CutLater(db: DB, db': DB, rc: ReadContext, id: Bytes, mode: Bytes)
    requires Grows(db, db') && CutOf(db, rc, id, mode).Ok?
    ensures CutOf(db', rc, id, mode) == CutOf(db, rc, id, mode)
    ensures var f := CutOf(db, rc, id, mode).value; f.throughOrdinal >= 0 && (f.target, f.throughOrdinal as nat) in db.paths
  {
    CutoffLater(db, db', id);
    var f := ReadOwnerCutoff(db, id).value;
    EntryLater(db, db', f.throughFact, f.target, f.throughOrdinal);
    hide Grows, ReadOwnerCutoff, ReadFactAtPath;
  }

  /** What the guards and the rows of a cut are, in this state and in any later one */
  lemma CutFacts(k: Kernel, db: DB, db': DB, rc: ReadContext, id: Bytes, mode: Bytes)
    requires StoreInv(k, db) && Grows(db, db') && CutOf(db, rc, id, mode).Ok?
    ensures CutOf(db', rc, id, mode) == CutOf(db, rc, id, mode)
    ensures var f := CutOf(db, rc, id, mode).value; var rows := Rows(CutPlaces(db.paths, f));
            && Retained(db, rows) && Increasing(PlaceLess, rows)
            && LoadAll(db, CutEntries(db, f)) == Ok(RecordsAt(db, rows)) == LoadAll(db', CutEntries(db', f))
            && (forall r :: r in RecordsAt(db, rows) && r.view.contextRef != "" ==> r.view.contextRef in db.contexts)
  {
    InvariantParts(k, db);
    hide StoreInv, Grows, DensePaths, ContextsRetained, IntentsHold, CommitsDense, CommitsRise, LoadAll, CutOf, PlaceLess;
    CutLater(db, db', rc, id, mode);
    var f := CutOf(db, rc, id, mode).value;
    var rows := Rows(CutPlaces(db.paths, f));
    CutPlacesLater(db, db', f);
    CutRowsRetained(db, f);
    RecordsLater(db, db', rows);
    EntryContexts(db, rows);
    RowsLoad(db, rows);
    RowsLoad(db', rows);
  }

  lemma FilteredContexts(db: DB, records: seq<Record>, mode: Bytes)
    requires forall r :: r in records && r.view.contextRef != "" ==> r.view.contextRef in db.contexts
    ensures forall r :: r in FilterMode(records, mode) && r.view.contextRef != "" ==> r.view.contextRef in db.contexts
  {
    FilterContents(records, mode);
  }

  lemma ResolveCases(db: DB, rc: ReadContext, id: Bytes, mode: Bytes, records: seq<Record>)
    requires CutOf(db, rc, id, mode).Ok?
    requires var f := CutOf(db, rc, id, mode).value; LoadAll(db, CutEntries(db, f)) == Ok(records)
    ensures var f, loaded := CutOf(db, rc, id, mode).value, FilterMode(records, mode);
            ResolveResult(db, rc, id, mode) ==
            if AllSupported(db, loaded)
            then Ok(SliceOf(db, loaded, SupportRecords(db, loaded), Some(f), rc.visibility, mode, true))
            else Err(StoreLaw)
  {
  }

  /**
   * A published cut is immutable: whatever resolves once resolves in every later state to the same facts, owner
   * paths, contexts, causal edges, external anchor references and witness references.
   */
  lemma CutIsImmutable(k: Kernel, db: DB, db': DB, rc: ReadContext, id: Bytes, mode: Bytes)
    requires StoreInv(k, db) && Grows(db, db') && ResolveResult(db, rc, id, mode).Ok?
    ensures ResolveResult(db', rc, id, mode).Ok?
    ensures SameCut(ResolveResult(db, rc, id, mode).value, ResolveResult(db', rc, id, mode).value)
  {
    ResolvedGuards(db, rc, id, mode);
    hide *;
    CutFacts(k, db, db', rc, id, mode);
    var f := CutOf(db, rc, id, mode).value;
    var records := RecordsAt(db, Rows(CutPlaces(db.paths, f)));
    ResolveCases(db, rc, id, mode, records);
    ResolveCases(db', rc, id, mode, records);
    FilteredContexts(db, records, mode);
    SlicesLater(db, db', FilterMode(records, mode), Some(f), rc.visibility, mode, true);
  }

  lemma ResolvedGuards(db: DB, rc: ReadContext, id: Bytes, mode: Bytes)
    requires ResolveResult(db, rc, id, mode).Ok?
    ensures CutOf(db, rc, id, mode).Ok?
  {
  }

  /** The same over runs: no sequence of later operations changes a published cut. */
  lemma CutSurvivesRuns(k: Kernel, ops: seq<Op>, later: seq<Op>, rc: ReadContext, id: Bytes, mode: Bytes)
    requires ResolveResult(Run(k, EMPTY, ops), rc, id, mode).Ok?
    ensures var db := Run(k, EMPTY, ops); var db' := Run(k, db, later);
            && ResolveResult(db', rc, id, mode).Ok?
            && SameCut(ResolveResult(db, rc, id, mode).value, ResolveResult(db', rc, id, mode).value)
  {
    hide *;
    ReachableInv(k, ops);
    RunKeeps(k, Run(k, EMPTY, ops), later);
    CutIsImmutable(k, Run(k, EMPTY, ops), Run(k, Run(k, EMPTY, ops), later), rc, id, mode);
  }

  /** The anchor of a fact stays the same exactly when the fact gains no place before its first. */
  lemma AnchorShapeLater(db: DB, db': DB, id: Bytes)
    requires Grows(db, db') && ReadFact(db, id).Ok?
    ensures AnchorFor(db', id) == AnchorFor(db, id) <==>
              forall p :: p in PlacesOf(db', id) ==> !PlaceLess(p, FirstPlace(db, id))
  {
    ReadableLater(db, db', id);
    var p, q := FirstPlace(db, id), FirstPlace(db', id);
    assert p in PlacesOf(db', id);
    PlaceLessIsStrictTotal();
    if q == p {
      forall x | x in PlacesOf(db', id) ensures !PlaceLess(x, p) {
        assert x == q || PlaceLess(q, x);
      }
    } else {
      assert PlaceLess(q, p) && q in PlacesOf(db', id);
      assert AnchorFor(db, id).shape.value.owner == p.0 && AnchorFor(db, id).shape.value.ordinal == p.1;
      assert AnchorFor(db', id).shape.value.owner == q.0 && AnchorFor(db', id).shape.value.ordinal == q.1;
      assert p.0 != q.0 || p.1 != q.1;
    }
  }

  // ---- Resolving always succeeds -------------------------------------------

  lemma RootHasChain(k: Kernel, db: DB)
    requires RecordsOnPaths(db.paths, db.records) && RootWitnessID(k) in db.records
    requires IsRootRow(db.records[RootWitnessID(k)])
    ensures IsChain(db, RootWitnessID(k), [RootWitnessID(k)])
  {
    RetainedReads(db, RootWitnessID(k));
  }

  lemma OrdinaryHasChain(k: Kernel, db: DB, id: Bytes)
    requires RecordsOnPaths(db.paths, db.records) && RootWitnessID(k) in db.records && RootWitnessID(k) != ""
    requires IsRootRow(db.records[RootWitnessID(k)]) && id in db.records && IsWitnessRow(k, db.records[id])
    ensures IsChain(db, id, [id, RootWitnessID(k)])
  {
    RetainedReads(db, id);
    RootHasChain(k, db);
    assert [id, RootWitnessID(k)][1..] == [RootWitnessID(k)];
  }

  /** Every record of a witnessed store is supported, so the witness walk cannot fail on it. */
  lemma WitnessedIsSupported(k: Kernel, db: DB, r: Record)
    requires RecordsOnPaths(db.paths, db.records) && Witnessed(k, db.log, db.records)
    requires r.id in db.records && r.row == db.records[r.id]
    ensures Supported(db, r)
  {
    StagingRoot(k);
    if r.id != RootWitnessID(k) {
      assert CitesWitness(k, db.records, r.row);
      RootHasChain(k, db);
      if !IsWitnessRow(k, r.row) {
        OrdinaryHasChain(k, db, r.row.witnessRef);
      }
    }
  }

  lemma StagingRoot(k: Kernel)
    ensures RootWitnessID(k) != ""
  {
    StagingLaws.RootWitnessExists(k);
  }

  lemma LoadedAreSupported(k: Kernel, db: DB, places: seq<Place>, mode: Bytes)
    requires RecordsOnPaths(db.paths, db.records) && Witnessed(k, db.log, db.records) && Retained(db, places)
    ensures AllSupported(db, FilterMode(RecordsAt(db, places), mode))
  {
    FilterContents(RecordsAt(db, places), mode);
    forall r | r in RecordsAt(db, places) ensures Supported(db, r) {
      var i :| 0 <= i < |places| && RecordsAt(db, places)[i] == r;
      assert places[i] in places;
      WitnessedIsSupported(k, db, r);
    }
  }

  lemma AgreedCut(db: DB, rc: ReadContext, id: Bytes, mode: Bytes)
    requires RecordsOnPaths(db.paths, db.records) && FrontiersAgree(db) && id in db.frontiers
    requires ReadAuthorized(rc) && IsModeFilter(mode)
    ensures CutOf(db, rc, id, mode) == Ok(db.frontiers[id].frontier)
  {
    var row := db.frontiers[id];
    assert FrontierAgrees(db, id, row);
    RetainedReads(db, row.frontier.createdBy);
    var fact := ReadFact(db, row.frontier.createdBy).value;
    assert FactSays(fact.row.body, row.frontier);
    hide FrontierFromPayload, ReadFact;
  }

  /** In every sound state every published frontier resolves, for every authorised read. */
  lemma PublishedResolves(k: Kernel, db: DB, rc: ReadContext, id: Bytes, mode: Bytes)
    requires Sound(k, db) && id in db.frontiers && ReadAuthorized(rc) && IsModeFilter(mode)
    ensures CutOf(db, rc, id, mode) == Ok(db.frontiers[id].frontier)
    ensures ResolveResult(db, rc, id, mode).Ok?
  {
    hide *;
    SoundParts(k, db);
    InvariantParts(k, db);
    CorePaths(db);
    AgreedCut(db, rc, id, mode);
    GrowsReflexive(db);
    CutFacts(k, db, db, rc, id, mode);
    var rows := Rows(CutPlaces(db.paths, db.frontiers[id].frontier));
    LoadedAreSupported(k, db, rows, mode);
    ResolveCases(db, rc, id, mode, RecordsAt(db, rows));
  }

  lemma CorePaths(db: DB)
    requires Core(db)
    ensures RecordsOnPaths(db.paths, db.records)
  {
  }
}
