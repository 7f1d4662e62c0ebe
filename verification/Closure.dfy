/** Prefix and closure reads: which entries, in which order. */
module Closure {
  import opened Wrappers
  import opened Sorting
  import opened Utf8
  import opened Trace
  import opened Tables
  import opened Append
  import opened WitnessWalk
  import opened Slices
  import opened Reading

  // ---- Guards --------------------------------------------------------------

  datatype ReadContext = ReadContext(actor: Bytes, refs: seq<Bytes>, visibility: Bytes)

  /** ensureReadAuthorized */
  predicate ReadAuthorized(rc: ReadContext) {
    rc.visibility == SHAPE_ONLY || rc.visibility == PAYLOAD
    || (rc.visibility == FULL_INTERNAL && "trusted:internal" in rc.refs)
  }

  /** ensureModeFilter */
  predicate IsModeFilter(mode: Bytes) { mode == BOTH || mode == DECLARATIONS_ONLY || mode == CAPTURES_ONLY }

  const VISIBLE_ONLY: Bytes := "visible_only"
  const INCLUDE_ANCHORS: Bytes := "include_external_anchors"

  /** ensureClosurePolicy */
  predicate IsPolicy(policy: Bytes) { policy == VISIBLE_ONLY || policy == INCLUDE_ANCHORS }

  // ---- Selected rows -------------------------------------------------------

  /** ORDER BY path_ref, path_ordinal */
  function Rows(places: set<Place>): (r: seq<Place>)
    ensures Increasing(PlaceLess, r) && forall p :: p in r <==> p in places
  {
    PlaceLessIsStrictTotal();
    SortSet(PlaceLess, places)
  }

  function EntryAt(db: DB, p: Place): Entry
    requires p in db.paths
  {
    Entry(db.paths[p].recordID, p.0, p.1)
  }

  function EntriesAt(db: DB, places: seq<Place>): (r: seq<Entry>)
    requires forall p :: p in places ==> p in db.paths
    ensures |r| == |places|
  {
    seq(|places|, i requires 0 <= i < |places| => EntryAt(db, places[i]))
  }

  /** Entries of retained records */
  ghost predicate Retained(db: DB, places: seq<Place>) {
    forall p :: p in places ==> p in db.paths && db.paths[p].recordID in db.records
  }

  function RecordAt(db: DB, p: Place): Record
    requires p in db.paths && db.paths[p].recordID in db.records
  {
    Record(db.paths[p].recordID, db.records[db.paths[p].recordID], ViewAt(db, p))
  }

  function RecordsAt(db: DB, places: seq<Place>): (r: seq<Record>)
    requires Retained(db, places)
    ensures |r| == |places|
  {
    seq(|places|, i requires 0 <= i < |places| => RecordAt(db, places[i]))
  }

  /** Rows of retained records load, in order. */
  lemma {:induction false} RowsLoad(db: DB, places: seq<Place>)
    requires Retained(db, places)
    ensures LoadAll(db, EntriesAt(db, places)) == Ok(RecordsAt(db, places))
  {
    if places != [] {
      var init, last := places[..|places| - 1], places[|places| - 1];
      assert last in places;
      assert forall p :: p in init ==> p in places;
      RowsLoad(db, init);
      assert EntriesAt(db, places)[..|places| - 1] == EntriesAt(db, init);
      assert RecordsAt(db, places) == RecordsAt(db, init) + [RecordAt(db, last)];
    }
  }

  lemma RowsInPathOrder(db: DB, places: seq<Place>)
    requires Retained(db, places) && Increasing(PlaceLess, places)
    ensures InPathOrder(RecordsAt(db, places))
  {
    var records := RecordsAt(db, places);
    forall i, j | 0 <= i < j < |records| ensures PlaceLess(PlaceOfRecord(records[i]), PlaceOfRecord(records[j])) {
      assert PlaceOfRecord(records[i]) == places[i] && PlaceOfRecord(records[j]) == places[j];
    }
  }

  /** The filter keeps a subsequence. */
  lemma {:induction false} FilterIndex(records: seq<Record>, mode: Bytes, i: nat) returns (j: nat)
    requires i < |FilterMode(records, mode)|
    ensures i <= j < |records| && FilterMode(records, mode)[i] == records[j] && ModeMatches(records[j], mode)
    ensures FilterMode(records[..j], mode) == FilterMode(records, mode)[..i]
  {
    var init := records[..|records| - 1];
    if i < |FilterMode(init, mode)| {
      j := FilterIndex(init, mode, i);
      assert init[..j] == records[..j];
      assert FilterMode(init, mode)[..i] == FilterMode(records, mode)[..i];
    } else {
      j := |records| - 1;
      FilterShorter(init, mode);
    }
  }

  lemma {:induction false} FilterShorter(records: seq<Record>, mode: Bytes)
    ensures |FilterMode(records, mode)| <= |records|
  {
    if records != [] { FilterShorter(records[..|records| - 1], mode); }
  }

  lemma FilterKeepsOrder(records: seq<Record>, mode: Bytes)
    requires InPathOrder(records)
    ensures InPathOrder(FilterMode(records, mode))
  {
    var kept := FilterMode(records, mode);
    forall i, j | 0 <= i < j < |kept| ensures PlaceLess(PlaceOfRecord(kept[i]), PlaceOfRecord(kept[j])) {
      var n := FilterIndex(records, mode, j);
      assert kept[i] == kept[..j][i];
      var m := FilterIndex(records[..n], mode, i);
      assert records[..n][m] == records[m];
    }
  }

  lemma {:induction false} FilterContents(records: seq<Record>, mode: Bytes)
    ensures forall r :: r in FilterMode(records, mode) <==> r in records && ModeMatches(r, mode)
  {
    if records != [] {
      var init, last := records[..|records| - 1], records[|records| - 1];
      FilterContents(init, mode);
      assert forall r :: r in records <==> r in init || r == last;
    }
  }

  lemma {:induction false} FilterBoth(records: seq<Record>)
    ensures FilterMode(records, BOTH) == records
  {
    if records != [] {
      FilterBoth(records[..|records| - 1]);
      assert records == records[..|records| - 1] + [records[|records| - 1]];
    }
  }

  /** A read of retained rows in path order flattens back to the ids it loaded, in order. */
  lemma RowsFlattenBack(db: DB, places: seq<Place>, frontier: Option<Frontier>, visibility: Bytes, mode: Bytes,
                        anchors: bool, s: Slice)
    requires Retained(db, places) && Increasing(PlaceLess, places)
    requires SliceResult(db, EntriesAt(db, places), frontier, visibility, mode, anchors) == Ok(s)
    ensures |s.ownerPathOrder| == |s.ownerPaths|
    ensures Flatten(s.ownerPathOrder, s.ownerPaths) == IDs(FilterMode(RecordsAt(db, places), mode))
  {
    var loaded := FilterMode(RecordsAt(db, places), mode);
    RowsLoad(db, places);
    RowsInPathOrder(db, places);
    FilterKeepsOrder(RecordsAt(db, places), mode);
    hide InPathOrder, IDs, SliceOf, RecordsAt, FilterMode;
    FlattensBack(db, loaded, SupportRecords(db, loaded), frontier, visibility, mode, anchors);
  }

  // ---- Reachability --------------------------------------------------------

  /** A readable fact cites a parent. */
  predicate Cites(db: DB, id: Bytes, parent: Bytes) { ReadFact(db, id).Ok? && parent in RowOf(db, id).causedBy }

  /** A path of citations: each fact but the last is readable and cites the next. */
  ghost predicate IsCitationPath(db: DB, path: seq<Bytes>) {
    forall i :: 0 <= i < |path| - 1 ==> Cites(db, path[i], path[i + 1])
  }

  ghost predicate LeadsTo(db: DB, roots: seq<Bytes>, path: seq<Bytes>, id: Bytes) {
    path != [] && path[0] in roots && path[|path| - 1] == id && IsCitationPath(db, path)
  }

  /** id is a root or is cited, directly or not, by one */
  ghost predicate Reaches(db: DB, roots: seq<Bytes>, id: Bytes) { exists path :: LeadsTo(db, roots, path, id) }

  lemma RootReaches(db: DB, roots: seq<Bytes>, id: Bytes)
    requires id in roots
    ensures Reaches(db, roots, id)
  {
    assert LeadsTo(db, roots, [id], id);
  }

  lemma ParentReaches(db: DB, roots: seq<Bytes>, id: Bytes, parent: Bytes)
    requires Reaches(db, roots, id) && Cites(db, id, parent)
    ensures Reaches(db, roots, parent)
  {
    var path :| LeadsTo(db, roots, path, id);
    hide Cites;
    assert LeadsTo(db, roots, path + [parent], parent);
  }

  /** A set that holds the roots and all parents of its members holds everything reachable. */
  lemma {:induction false} ClosedHoldsPath(db: DB, roots: seq<Bytes>, held: set<Bytes>, path: seq<Bytes>, id: Bytes)
    requires LeadsTo(db, roots, path, id)
    requires forall r :: r in roots ==> r in held
    requires forall x, p :: x in held && Cites(db, x, p) ==> p in held
    ensures id in held
    decreases |path|
  {
    hide Cites;
    if |path| > 1 {
      var init := path[..|path| - 1];
      assert LeadsTo(db, roots, init, path[|path| - 2]);
      ClosedHoldsPath(db, roots, held, init, path[|path| - 2]);
      assert Cites(db, path[|path| - 2], path[|path| - 1]);
    }
  }

  ghost predicate AllReadable(db: DB, roots: seq<Bytes>) {
    forall id :: Reaches(db, roots, id) ==> ReadFact(db, id).Ok?
  }

  /** The parents still to visit are queued behind the others. */
  method Enqueue(pending: seq<Bytes>, parents: seq<Bytes>, seen: set<Bytes>) returns (queue: seq<Bytes>)
    ensures forall x :: x in queue <==> x in pending || (x in parents && x !in seen)
  {
    queue := pending;
    for i := 0 to |parents|
      invariant forall x :: x in queue <==> x in pending || (x in parents[..i] && x !in seen)
    {
      assert parents[..i + 1] == parents[..i] + [parents[i]];
      if parents[i] !in seen { queue := queue + [parents[i]]; }
    }
    assert parents[..|parents|] == parents;
  }

  /** What the breadth-first search has established so far */
  ghost predicate Searched(db: DB, roots: seq<Bytes>, seen: set<Bytes>, pending: seq<Bytes>) {
    && (forall id :: id in seen ==> Reaches(db, roots, id) && ReadFact(db, id).Ok?)
    && (forall id :: id in pending ==> Reaches(db, roots, id))
    && (forall r :: r in roots ==> r in seen || r in pending)
    && (forall id, p :: id in seen && Cites(db, id, p) ==> p in seen || p in pending)
  }

  lemma SearchStarts(db: DB, roots: seq<Bytes>)
    ensures Searched(db, roots, {}, roots)
  {
    forall id | id in roots ensures Reaches(db, roots, id) { RootReaches(db, roots, id); }
  }

  lemma SearchSkips(db: DB, roots: seq<Bytes>, seen: set<Bytes>, pending: seq<Bytes>)
    requires Searched(db, roots, seen, pending) && pending != [] && pending[0] in seen
    ensures Searched(db, roots, seen, pending[1..])
  {
    assert forall x :: x in pending <==> x == pending[0] || x in pending[1..];
  }

  lemma SearchVisits(db: DB, roots: seq<Bytes>, seen: set<Bytes>, pending: seq<Bytes>, queue: seq<Bytes>)
    requires Searched(db, roots, seen, pending) && pending != [] && ReadFact(db, pending[0]).Ok?
    requires forall x :: x in queue <==>
                         x in pending[1..] || (Cites(db, pending[0], x) && x !in seen + {pending[0]})
    ensures Searched(db, roots, seen + {pending[0]}, queue)
  {
    var id := pending[0];
    assert forall x :: x in pending <==> x == id || x in pending[1..];
    forall p | Cites(db, id, p) ensures Reaches(db, roots, p) { ParentReaches(db, roots, id, p); }
    hide Cites, Reaches, ReadFact;
  }

  lemma SearchEnds(db: DB, roots: seq<Bytes>, seen: set<Bytes>)
    requires Searched(db, roots, seen, [])
    ensures AllReadable(db, roots) && forall id :: id in seen <==> Reaches(db, roots, id)
  {
    hide Cites, LeadsTo, ReadFact;
    forall id | Reaches(db, roots, id) ensures id in seen {
      var path :| LeadsTo(db, roots, path, id);
      ClosedHoldsPath(db, roots, seen, path, id);
    }
  }

  lemma SearchFails(db: DB, roots: seq<Bytes>, seen: set<Bytes>, pending: seq<Bytes>)
    requires Searched(db, roots, seen, pending) && pending != [] && ReadFact(db, pending[0]).Err?
    ensures !AllReadable(db, roots) && ReadFact(db, pending[0]) == Err(UnknownFact)
  {
    assert pending[0] in pending;
  }

  /** The breadth-first search of ReadCausalClosure terminates with exactly the reachable facts. */
  method CausalClosure(db: DB, roots: seq<Bytes>) returns (r: Result<set<Bytes>>)
    ensures r.Ok? <==> AllReadable(db, roots)
    ensures r.Err? ==> r == Err(UnknownFact)
    ensures r.Ok? ==> forall id :: id in r.value <==> Reaches(db, roots, id)
  {
    hide *;
    var pending, seen: set<Bytes> := roots, {};
    SearchStarts(db, roots);
    while pending != []
      invariant Searched(db, roots, seen, pending)
      decreases |db.records.Keys - seen|, |pending|
    {
      var id := pending[0];
      if id in seen {
        SearchSkips(db, roots, seen, pending);
        pending := pending[1..];
      } else {
        var fact := ReadFact(db, id);
        if fact.Err? {
          SearchFails(db, roots, seen, pending);
          return Err(fact.error);
        }
        ReadFactNamesIt(db, id);
        RowOfFact(db, id);
        var queue := Enqueue(pending[1..], fact.value.row.causedBy, seen + {id});
        SearchVisits(db, roots, seen, pending, queue);
        FewerLeft(db.records.Keys, seen, seen + {id}, id);
        seen, pending := seen + {id}, queue;
      }
    }
    SearchEnds(db, roots, seen);
    return Ok(seen);
  }

  lemma RowOfFact(db: DB, id: Bytes)
    requires ReadFact(db, id).Ok?
    ensures id in db.records.Keys && forall p :: Cites(db, id, p) <==> p in ReadFact(db, id).value.row.causedBy
  {
  }

  // ---- Canonical order -----------------------------------------------------

  /** The rows of the given records */
  function PlacesOfAll(db: DB, ids: set<Bytes>): set<Place> {
    set p | p in db.paths && db.paths[p].recordID in ids
  }

  predicate IsFirst(db: DB, p: Place)
    requires p in db.paths
  {
    p in PlacesOf(db, db.paths[p].recordID) && FirstPlace(db, db.paths[p].recordID) == p
  }

  /** The first row of each of the given records */
  function FirstPlaces(db: DB, ids: set<Bytes>): set<Place> {
    set p | p in db.paths && db.paths[p].recordID in ids && IsFirst(db, p)
  }

  function CanonicalEntries(db: DB, ids: set<Bytes>): seq<Entry> { EntriesAt(db, Rows(FirstPlaces(db, ids))) }

  ghost predicate NamesRecord(db: DB, rows: seq<Place>, id: Bytes) {
    exists p :: p in rows && p in db.paths && db.paths[p].recordID == id
  }

  /** Of the rows done so far, the ones that are the first of their record */
  ghost predicate FirstsKept(db: DB, done: seq<Place>, seen: set<Bytes>, kept: seq<Place>)
    requires forall p :: p in done ==> p in db.paths
  {
    && Increasing(PlaceLess, kept)
    && (forall p :: p in kept <==> p in done && IsFirst(db, p))
    && (forall id :: id in seen <==> NamesRecord(db, done, id))
  }

  lemma EarlierRow(rows: seq<Place>, n: nat, q: Place)
    requires Increasing(PlaceLess, rows) && n < |rows| && q in rows[..n]
    ensures PlaceLess(q, rows[n])
  {
    hide PlaceLess;
    var j :| 0 <= j < n && rows[j] == q;
  }

  lemma LesserRow(rows: seq<Place>, n: nat, q: Place)
    requires Increasing(PlaceLess, rows) && n < |rows| && q in rows && PlaceLess(q, rows[n])
    ensures q in rows[..n]
  {
    PlaceLessIsStrictTotal();
    hide PlaceLess;
    var k :| 0 <= k < |rows| && rows[k] == q;
    var row := rows[n];
    assert k > n ==> PlaceLess(row, q);
    assert rows[..n][k] == q;
  }

  /** The first place of a record is one of its places, and no other is less. */
  lemma FirstPlaceIs(db: DB, p: Place, q: Place)
    requires p in db.paths && q in db.paths && db.paths[q].recordID == db.paths[p].recordID
    ensures PlacesOf(db, db.paths[p].recordID) != {}
    ensures var first := FirstPlace(db, db.paths[p].recordID);
            && first in db.paths && db.paths[first].recordID == db.paths[p].recordID
            && (IsFirst(db, p) <==> first == p)
            && (first == q || PlaceLess(first, q))
  {
    assert p in PlacesOf(db, db.paths[p].recordID) && q in PlacesOf(db, db.paths[p].recordID);
  }

  lemma RowsAreEntries(db: DB, ids: set<Bytes>, rows: seq<Place>, n: nat)
    requires rows == Rows(PlacesOfAll(db, ids)) && n <= |rows|
    ensures forall p :: p in rows ==> p in db.paths
    ensures forall p :: p in rows[..n] ==> p in rows
    ensures n < |rows| ==> rows[n] in rows && rows[..n + 1] == rows[..n] + [rows[n]]
  {
  }

  lemma SameRecordInRows(db: DB, ids: set<Bytes>, rows: seq<Place>, p: Place, q: Place)
    requires rows == Rows(PlacesOfAll(db, ids)) && p in rows
    requires p in db.paths && q in db.paths && db.paths[q].recordID == db.paths[p].recordID
    ensures q in rows
  {
  }

  /** A row is the first of its record exactly when the record is not among the rows before it. */
  lemma FirstIsUnseen(db: DB, ids: set<Bytes>, rows: seq<Place>, n: nat)
    requires rows == Rows(PlacesOfAll(db, ids)) && n < |rows|
    ensures rows[n] in db.paths && (IsFirst(db, rows[n]) <==> !NamesRecord(db, rows[..n], db.paths[rows[n]].recordID))
  {
    RowsAreEntries(db, ids, rows, n);
    var p := rows[n];
    FirstPlaceIs(db, p, p);
    var first := FirstPlace(db, db.paths[p].recordID);
    SameRecordInRows(db, ids, rows, p, first);
    PlaceLessIsStrictTotal();
    hide PlaceLess, IsFirst, FirstPlace, PlacesOfAll, Increasing;
    if first != p {
      LesserRow(rows, n, first);
      assert NamesRecord(db, rows[..n], db.paths[p].recordID);
    }
    if q :| q in rows[..n] && q in db.paths && db.paths[q].recordID == db.paths[p].recordID {
      EarlierRow(rows, n, q);
      FirstPlaceIs(db, p, q);
    }
  }

  lemma KeptIncreases(rows: seq<Place>, n: nat, kept: seq<Place>)
    requires Increasing(PlaceLess, rows) && n < |rows| && Increasing(PlaceLess, kept)
    requires forall p :: p in kept ==> p in rows[..n]
    ensures Increasing(PlaceLess, kept + [rows[n]])
  {
    forall i | 0 <= i < |kept| ensures PlaceLess(kept[i], rows[n]) {
      assert kept[i] in kept;
      EarlierRow(rows, n, kept[i]);
    }
  }

  lemma NamesRecordSnoc(db: DB, done: seq<Place>, p: Place, id: Bytes)
    requires p in db.paths
    ensures NamesRecord(db, done + [p], id) <==> NamesRecord(db, done, id) || db.paths[p].recordID == id
  {
    assert forall q :: q in done + [p] <==> q in done || q == p;
  }

  lemma KeepOne(db: DB, done: seq<Place>, p: Place, seen: set<Bytes>, kept: seq<Place>)
    requires (forall q :: q in done ==> q in db.paths) && p in db.paths && FirstsKept(db, done, seen, kept)
    requires IsFirst(db, p) <==> !NamesRecord(db, done, db.paths[p].recordID)
    requires Increasing(PlaceLess, kept + [p])
    ensures var id := db.paths[p].recordID;
            FirstsKept(db, done + [p], seen + {id}, if id in seen then kept else kept + [p])
  {
    hide IsFirst, PlaceLess, Increasing;
    forall id ensures NamesRecord(db, done + [p], id) <==> NamesRecord(db, done, id) || db.paths[p].recordID == id {
      NamesRecordSnoc(db, done, p, id);
    }
    hide NamesRecord;
    assert forall q :: q in done + [p] <==> q in done || q == p;
  }

  lemma FirstsStep(db: DB, ids: set<Bytes>, rows: seq<Place>, n: nat, seen: set<Bytes>, kept: seq<Place>)
    requires rows == Rows(PlacesOfAll(db, ids)) && n < |rows|
    requires (forall p :: p in rows[..n] ==> p in db.paths) && FirstsKept(db, rows[..n], seen, kept)
    ensures rows[n] in db.paths && forall p :: p in rows[..n + 1] ==> p in db.paths
    ensures var id := db.paths[rows[n]].recordID;
            FirstsKept(db, rows[..n + 1], seen + {id}, if id in seen then kept else kept + [rows[n]])
  {
    RowsAreEntries(db, ids, rows, n);
    FirstIsUnseen(db, ids, rows, n);
    KeptIncreases(rows, n, kept);
    KeepOne(db, rows[..n], rows[n], seen, kept);
  }

  lemma FirstsAreAll(db: DB, ids: set<Bytes>, rows: seq<Place>, seen: set<Bytes>, kept: seq<Place>)
    requires rows == Rows(PlacesOfAll(db, ids)) && FirstsKept(db, rows, seen, kept)
    ensures kept == Rows(FirstPlaces(db, ids))
  {
    PlaceLessIsStrictTotal();
    IncreasingUnique(PlaceLess, kept, Rows(FirstPlaces(db, ids)));
  }

  /** canonicalFactOrder: each record once, at its first row, in row order */
  method CanonicalFactOrder(db: DB, ids: set<Bytes>) returns (entries: seq<Entry>)
    ensures entries == CanonicalEntries(db, ids)
  {
    var rows := Rows(PlacesOfAll(db, ids));
    var seen: set<Bytes> := {};
    ghost var kept: seq<Place> := [];
    entries := [];
    NothingKept(db, rows);
    hide *;
    for n := 0 to |rows|
      invariant (forall p :: p in rows[..n] ==> p in db.paths) && FirstsKept(db, rows[..n], seen, kept)
      invariant (forall p :: p in kept ==> p in db.paths) && entries == EntriesAt(db, kept)
    {
      FirstsStep(db, ids, rows, n, seen, kept);
      var id := db.paths[rows[n]].recordID;
      if id !in seen {
        EntriesSnoc(db, kept, rows[n]);
        entries := entries + [EntryAt(db, rows[n])];
        kept := kept + [rows[n]];
      }
      seen := seen + {id};
    }
    assert rows[..|rows|] == rows;
    FirstsAreAll(db, ids, rows, seen, kept);
    CanonicalEntriesAre(db, ids);
  }

  lemma NothingKept(db: DB, rows: seq<Place>)
    ensures FirstsKept(db, rows[..0], {}, []) && EntriesAt(db, []) == []
  {
  }

  lemma EntriesSnoc(db: DB, places: seq<Place>, p: Place)
    requires p in db.paths && forall q :: q in places ==> q in db.paths
    ensures EntriesAt(db, places + [p]) == EntriesAt(db, places) + [EntryAt(db, p)]
  {
  }

  lemma CanonicalEntriesAre(db: DB, ids: set<Bytes>)
    ensures forall p :: p in Rows(FirstPlaces(db, ids)) ==> p in db.paths
    ensures CanonicalEntries(db, ids) == EntriesAt(db, Rows(FirstPlaces(db, ids)))
  {
  }

  // ---- Closure reads -------------------------------------------------------

  ghost function ClosureSet(db: DB, roots: seq<Bytes>): set<Bytes> {
    set id | id in db.records && Reaches(db, roots, id)
  }

  lemma ClosureIsReachable(db: DB, roots: seq<Bytes>, seen: set<Bytes>)
    requires AllReadable(db, roots) && forall id :: id in seen <==> Reaches(db, roots, id)
    ensures seen == ClosureSet(db, roots)
  {
    forall id | id in seen ensures id in db.records {
      assert ReadFact(db, id).Ok?;
    }
  }

  /** What ReadCausalClosure returns: the facts the roots reach, however the mode filter shows them. */
  ghost function ClosureResult(db: DB, rc: ReadContext, roots: seq<Bytes>, mode: Bytes, policy: Bytes): Result<Slice> {
    if !ReadAuthorized(rc) then Err(Unauthorized)
    else if !IsModeFilter(mode) || !IsPolicy(policy) then Err(Incompatible)
    else if !AllReadable(db, roots) then Err(UnknownFact)
    else SliceResult(db, CanonicalEntries(db, ClosureSet(db, roots)), None, rc.visibility, mode, policy == INCLUDE_ANCHORS)
  }

  /** ReadCausalClosure */
  method ReadCausalClosure(db: DB, rc: ReadContext, roots: seq<Bytes>, mode: Bytes, policy: Bytes)
      returns (r: Result<Slice>)
    ensures r == ClosureResult(db, rc, roots, mode, policy)
  {
    hide SliceResult, CanonicalEntries, AllReadable, Reaches, ClosureSet;
    if !ReadAuthorized(rc) { return Err(Unauthorized); }
    if !IsModeFilter(mode) { return Err(Incompatible); }
    if !IsPolicy(policy) { return Err(Incompatible); }
    var seen := CausalClosure(db, roots);
    if seen.Err? { return Err(seen.error); }
    ClosureIsReachable(db, roots, seen.value);
    var entries := CanonicalFactOrder(db, seen.value);
    r := BuildSlice(db, entries, None, rc.visibility, mode, policy == INCLUDE_ANCHORS);
  }

  lemma FirstPlacesRetained(db: DB, ids: set<Bytes>)
    requires forall id :: id in ids ==> ReadFact(db, id).Ok?
    ensures Retained(db, Rows(FirstPlaces(db, ids))) && Increasing(PlaceLess, Rows(FirstPlaces(db, ids)))
  {
  }

  lemma ReadAtFirst(db: DB, p: Place)
    requires p in db.paths && IsFirst(db, p) && db.paths[p].recordID in db.records
    ensures ReadFact(db, db.paths[p].recordID) == Ok(RecordAt(db, p)) && PlacesOf(db, db.paths[p].recordID) != {}
    ensures FirstPlace(db, db.paths[p].recordID) == p && PlaceOfRecord(RecordAt(db, p)) == p
  {
  }

  lemma FirstPlaceListed(db: DB, ids: set<Bytes>, id: Bytes)
    requires id in ids && ReadFact(db, id).Ok?
    ensures FirstPlace(db, id) in FirstPlaces(db, ids) && db.paths[FirstPlace(db, id)].recordID == id
    ensures ReadFact(db, id) == Ok(RecordAt(db, FirstPlace(db, id)))
  {
    var p := FirstPlace(db, id);
    FirstPlaceIs(db, p, p);
  }

  /** The given records, each read at its first place */
  ghost predicate AreReadings(db: DB, ids: set<Bytes>, records: seq<Record>) {
    && (forall r :: r in records ==> r.id in ids && ReadFact(db, r.id) == Ok(r))
    && (forall id :: id in ids ==> ReadFact(db, id).Ok? && ReadFact(db, id).value in records)
  }

  lemma CanonicalRecords(db: DB, ids: set<Bytes>)
    requires forall id :: id in ids ==> ReadFact(db, id).Ok?
    ensures Retained(db, Rows(FirstPlaces(db, ids)))
    ensures AreReadings(db, ids, RecordsAt(db, Rows(FirstPlaces(db, ids))))
  {
    var rows := Rows(FirstPlaces(db, ids));
    FirstPlacesRetained(db, ids);
    var records := RecordsAt(db, rows);
    forall r | r in records ensures r.id in ids && ReadFact(db, r.id) == Ok(r) {
      var i :| 0 <= i < |records| && records[i] == r;
      assert rows[i] in rows;
      ReadAtFirst(db, rows[i]);
    }
    forall id | id in ids ensures ReadFact(db, id).value in records {
      FirstPlaceListed(db, ids, id);
      var i :| 0 <= i < |rows| && rows[i] == FirstPlace(db, id);
      assert records[i] in records;
    }
  }

  lemma IDsContents(records: seq<Record>)
    ensures forall id :: id in IDs(records) <==> exists r :: r in records && r.id == id
  {
    forall id ensures id in IDs(records) <==> exists r :: r in records && r.id == id {
      if i :| 0 <= i < |records| && IDs(records)[i] == id { assert records[i] in records; }
      if r :| r in records && r.id == id {
        var i :| 0 <= i < |records| && records[i] == r;
        assert IDs(records)[i] == id;
      }
    }
  }

  lemma ReadingsAreIDs(db: DB, ids: set<Bytes>, records: seq<Record>)
    requires AreReadings(db, ids, records)
    ensures forall id :: id in IDs(records) <==> id in ids
    ensures forall id :: id in Selected(records) <==> id in ids
  {
    IDsContents(records);
    forall id | id in ids ensures exists r :: r in records && r.id == id {
      ReadFactNamesIt(db, id);
      assert ReadFact(db, id).value in records;
    }
  }

  lemma ClosureLoads(db: DB, roots: seq<Bytes>)
    requires AllReadable(db, roots)
    ensures var rows := Rows(FirstPlaces(db, ClosureSet(db, roots)));
            && Retained(db, rows) && Increasing(PlaceLess, rows)
            && LoadAll(db, CanonicalEntries(db, ClosureSet(db, roots))) == Ok(RecordsAt(db, rows))
            && AreReadings(db, ClosureSet(db, roots), RecordsAt(db, rows))
  {
    FirstPlacesRetained(db, ClosureSet(db, roots));
    CanonicalRecords(db, ClosureSet(db, roots));
    RowsLoad(db, Rows(FirstPlaces(db, ClosureSet(db, roots))));
  }

  lemma ClosureSetIs(db: DB, roots: seq<Bytes>, id: Bytes)
    requires AllReadable(db, roots)
    ensures id in ClosureSet(db, roots) <==> Reaches(db, roots, id)
  {
    assert Reaches(db, roots, id) ==> ReadFact(db, id).Ok?;
  }

  // ---- What closure reads say ----------------------------------------------

  ghost predicate SelectsClosure(db: DB, roots: seq<Bytes>, ids: seq<Bytes>) {
    && (forall id :: id in ids <==> Reaches(db, roots, id))
    && Distinct(ids)
    && (forall id :: id in ids ==> PlacesOf(db, id) != {})
    && (forall i, j :: 0 <= i < j < |ids| ==> ids[i] in ids && ids[j] in ids
                                              && PlaceLess(FirstPlace(db, ids[i]), FirstPlace(db, ids[j])))
  }

  lemma ReadingsInOrder(db: DB, ids: set<Bytes>, rows: seq<Place>)
    requires Retained(db, rows) && Increasing(PlaceLess, rows) && rows == Rows(FirstPlaces(db, ids))
    ensures var records := RecordsAt(db, rows);
            forall i :: 0 <= i < |records| ==>
              PlacesOf(db, records[i].id) != {} && FirstPlace(db, records[i].id) == rows[i]
  {
    forall i | 0 <= i < |rows|
      ensures PlacesOf(db, RecordsAt(db, rows)[i].id) != {} && FirstPlace(db, RecordsAt(db, rows)[i].id) == rows[i]
    {
      assert rows[i] in rows;
      ReadAtFirst(db, rows[i]);
    }
  }

  lemma OrderedByFirstPlace(db: DB, rows: seq<Place>, ids: seq<Bytes>)
    requires Increasing(PlaceLess, rows) && |ids| == |rows|
    requires forall i :: 0 <= i < |ids| ==> PlacesOf(db, ids[i]) != {} && FirstPlace(db, ids[i]) == rows[i]
    ensures Distinct(ids) && forall id :: id in ids ==> PlacesOf(db, id) != {}
    ensures forall i, j :: 0 <= i < j < |ids| ==> ids[i] in ids && ids[j] in ids
                                                  && PlaceLess(FirstPlace(db, ids[i]), FirstPlace(db, ids[j]))
  {
    PlaceLessIsStrictTotal();
    hide FirstPlace, PlaceLess, PlacesOf;
    forall i, j | 0 <= i < j < |ids| ensures ids[i] != ids[j] {
      assert PlaceLess(rows[i], rows[j]);
    }
  }

  lemma ClosureFlattens(db: DB, rc: ReadContext, roots: seq<Bytes>, mode: Bytes, policy: Bytes, s: Slice)
    requires ClosureResult(db, rc, roots, mode, policy) == Ok(s)
    ensures AllReadable(db, roots)
    ensures var rows := Rows(FirstPlaces(db, ClosureSet(db, roots)));
            && Retained(db, rows) && Increasing(PlaceLess, rows)
            && AreReadings(db, ClosureSet(db, roots), RecordsAt(db, rows))
            && Flatten(s.ownerPathOrder, s.ownerPaths) == IDs(FilterMode(RecordsAt(db, rows), mode))
  {
    ClosureLoads(db, roots);
    RowsFlattenBack(db, Rows(FirstPlaces(db, ClosureSet(db, roots))), None, rc.visibility, mode,
                    policy == INCLUDE_ANCHORS, s);
  }

  /** With mode both, a closure read holds exactly the reachable records, each once, ordered by first place. */
  lemma ClosureSelects(db: DB, rc: ReadContext, roots: seq<Bytes>, policy: Bytes, s: Slice)
    requires ClosureResult(db, rc, roots, BOTH, policy) == Ok(s)
    ensures SelectsClosure(db, roots, Flatten(s.ownerPathOrder, s.ownerPaths))
  {
    hide *;
    ClosureFlattens(db, rc, roots, BOTH, policy, s);
    var ids := ClosureSet(db, roots);
    var rows := Rows(FirstPlaces(db, ids));
    var records := RecordsAt(db, rows);
    FilterBoth(records);
    ReadingsAreIDs(db, ids, records);
    ReadingsInOrder(db, ids, rows);
    SameIDs(records);
    OrderedByFirstPlace(db, rows, IDs(records));
    ClosureIDs(db, roots, IDs(records), ids);
  }

  lemma SameIDs(records: seq<Record>)
    ensures forall i :: 0 <= i < |records| ==> IDs(records)[i] == records[i].id
  {
  }

  lemma ClosureIDs(db: DB, roots: seq<Bytes>, ids: seq<Bytes>, closure: set<Bytes>)
    requires AllReadable(db, roots) && closure == ClosureSet(db, roots) && forall id :: id in ids <==> id in closure
    requires Distinct(ids) && forall id :: id in ids ==> PlacesOf(db, id) != {}
    requires forall i, j :: 0 <= i < j < |ids| ==> ids[i] in ids && ids[j] in ids
                                                   && PlaceLess(FirstPlace(db, ids[i]), FirstPlace(db, ids[j]))
    ensures SelectsClosure(db, roots, ids)
  {
    hide FirstPlace, PlaceLess, PlacesOf, AllReadable, Reaches, ClosureSet;
    forall id ensures id in ids <==> Reaches(db, roots, id) { ClosureSetIs(db, roots, id); }
  }

  /** With mode both, every parent is selected, so a closure read has no external anchors. */
  lemma ClosureHasNoAnchors(db: DB, rc: ReadContext, roots: seq<Bytes>, policy: Bytes, s: Slice)
    requires ClosureResult(db, rc, roots, BOTH, policy) == Ok(s)
    ensures s.externalAnchors == []
  {
    var ids := ClosureSet(db, roots);
    var rows := Rows(FirstPlaces(db, ids));
    ClosureLoads(db, roots);
    var records := RecordsAt(db, rows);
    FilterBoth(records);
    SlicePartition(db, records, SupportRecords(db, records), None, rc.visibility, BOTH, policy == INCLUDE_ANCHORS);
    forall p ensures !IsOutsideParent(records, p) {
      if r :| r in records && p in r.row.causedBy {
        ParentIsSelected(db, roots, records, r, p);
      }
    }
    NoRefs(s.externalAnchors);
  }

  lemma NoRefs(anchors: seq<Anchor>)
    requires forall p :: p !in Refs(anchors)
    ensures anchors == []
  {
    if anchors != [] { FirstRef(anchors); }
  }

  lemma FirstRef(anchors: seq<Anchor>)
    requires anchors != []
    ensures exists p :: p in Refs(anchors)
  {
    assert Refs(anchors)[0] in Refs(anchors);
  }

  lemma ParentIsSelected(db: DB, roots: seq<Bytes>, records: seq<Record>, r: Record, p: Bytes)
    requires AllReadable(db, roots) && AreReadings(db, ClosureSet(db, roots), records)
    requires r in records && p in r.row.causedBy
    ensures p in Selected(records)
  {
    RowReadings(db, ClosureSet(db, roots), records, r);
    assert Cites(db, r.id, p);
    hide *;
    ClosureSetIs(db, roots, r.id);
    ParentReaches(db, roots, r.id, p);
    ClosureSetIs(db, roots, p);
    ReadingsAreIDs(db, ClosureSet(db, roots), records);
  }

  lemma RowReadings(db: DB, ids: set<Bytes>, records: seq<Record>, r: Record)
    requires AreReadings(db, ids, records) && r in records
    ensures r.id in ids && ReadFact(db, r.id) == Ok(r)
  {
  }

  /** Mode filters change what is shown, not what is walked: the shown facts are the closure's that match. */
  lemma ClosureModes(db: DB, rc: ReadContext, roots: seq<Bytes>, mode: Bytes, policy: Bytes, s: Slice)
    requires ClosureResult(db, rc, roots, mode, policy) == Ok(s)
    ensures forall id :: id in Flatten(s.ownerPathOrder, s.ownerPaths) <==>
                           Reaches(db, roots, id) && ModeMatches(ReadFact(db, id).value, mode)
  {
    var ids := ClosureSet(db, roots);
    var rows := Rows(FirstPlaces(db, ids));
    ClosureFlattens(db, rc, roots, mode, policy, s);
    var records := RecordsAt(db, rows);
    FilterContents(records, mode);
    IDsContents(FilterMode(records, mode));
    hide FilterMode, RecordsAt, Rows, FirstPlaces, ModeMatches, ReadFact, Reaches, ClosureResult;
    forall id ensures id in IDs(FilterMode(records, mode)) <==>
                        Reaches(db, roots, id) && ModeMatches(ReadFact(db, id).value, mode)
    {
      ClosureSetIs(db, roots, id);
      ShownInMode(db, ids, records, mode, id);
    }
  }

  lemma ShownInMode(db: DB, ids: set<Bytes>, records: seq<Record>, mode: Bytes, id: Bytes)
    requires AreReadings(db, ids, records)
    ensures (exists r :: r in records && ModeMatches(r, mode) && r.id == id) <==>
              id in ids && ModeMatches(ReadFact(db, id).value, mode)
  {
    if id in ids { ReadFactNamesIt(db, id); }
  }
}
