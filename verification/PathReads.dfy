/** What prefix and frontier reads hold, entry by entry. */
module PathReads {
  import opened Wrappers
  import opened Seqs
  import opened Utf8
  import opened Sorting
  import opened Trace
  import opened Tables
  import opened Append
  import opened Invariant
  import opened Slices
  import opened Reading
  import opened Closure

  // ---- The specification ---------------------------------------------------

  /** The records a mode filter lets through */
  predicate Kept(filter: Bytes, mode: Bytes) {
    filter == "both" || (filter == "declarations_only" && mode == "declaration")
    || (filter == "captures_only" && mode == "capture")
  }

  /** The path holds retained records at its first n ordinals. */
  ghost predicate HoldsTo(db: DB, owner: Bytes, n: nat) {
    forall i: nat :: i < n ==> (owner, i) in db.paths && db.paths[(owner, i)].recordID in db.records
  }

  /** The ids of the first n entries of a path that a mode filter lets through, in order */
  ghost function KeptIDs(db: DB, owner: Bytes, n: nat, filter: Bytes): seq<Bytes>
    requires HoldsTo(db, owner, n)
  {
    if n == 0 then [] else
      var id := db.paths[(owner, n - 1)].recordID;
      KeptIDs(db, owner, n - 1, filter) + if Kept(filter, db.records[id].mode) then [id] else []
  }

  /** Unfiltered, the i-th id is that of the i-th entry. */
  lemma {:induction false} KeptBoth(db: DB, owner: Bytes, n: nat)
    requires HoldsTo(db, owner, n)
    ensures |KeptIDs(db, owner, n, BOTH)| == n
    ensures forall i: nat :: i < n ==> KeptIDs(db, owner, n, BOTH)[i] == db.paths[(owner, i)].recordID
  {
    if n > 0 { KeptBoth(db, owner, n - 1); }
  }

  /** The slice's path of an owner is what the filter keeps of its first n entries; a path without ids is no key. */
  ghost predicate ShowsPath(db: DB, s: Slice, owner: Bytes, n: nat, filter: Bytes) {
    && HoldsTo(db, owner, n)
    && var ids := KeptIDs(db, owner, n, filter);
       (owner in s.ownerPaths <==> ids != []) && (ids != [] ==> s.ownerPaths[owner] == ids)
  }

  // ---- Rows ----------------------------------------------------------------

  /** The rows select exactly the first n ordinals of the owner's path. */
  ghost predicate SelectsTo(rows: seq<Place>, owner: Bytes, n: nat) {
    forall p: Place :: p.0 == owner ==> (p in rows <==> p.1 < n)
  }

  lemma OrderedPlaces(a: Place, b: Place)
    requires PlaceLess(a, b)
    ensures a != b && (a.0 == b.0 ==> a.1 < b.1)
  {
    LessIsStrictTotal();
  }

  lemma BelowLast(rows: seq<Place>, i: nat)
    requires i < |rows| - 1 && Increasing(PlaceLess, rows)
    ensures PlaceLess(rows[i], rows[|rows| - 1])
  {
    hide PlaceLess;
  }

  lemma LastIsTop(rows: seq<Place>, owner: Bytes, n: nat)
    requires rows != [] && Increasing(PlaceLess, rows) && SelectsTo(rows, owner, n)
    requires rows[|rows| - 1].0 == owner
    ensures n > 0 && rows[|rows| - 1].1 == n - 1
  {
    hide PlaceLess, Increasing;
    var last := rows[|rows| - 1];
    assert last in rows;
    var top: Place := (owner, n - 1);
    assert top in rows;
    var i :| 0 <= i < |rows| && rows[i] == top;
    if i < |rows| - 1 {
      BelowLast(rows, i);
      OrderedPlaces(top, last);
    }
  }

  lemma InitOf(rows: seq<Place>, p: Place)
    requires rows != [] && Increasing(PlaceLess, rows)
    ensures p in rows[..|rows| - 1] <==> p in rows && p != rows[|rows| - 1]
  {
    hide PlaceLess, Increasing;
    var init := rows[..|rows| - 1];
    if p in init {
      var i :| 0 <= i < |init| && init[i] == p;
      BelowLast(rows, i);
      OrderedPlaces(p, rows[|rows| - 1]);
    }
  }

  lemma LastOfOwner(rows: seq<Place>, owner: Bytes, n: nat)
    requires rows != [] && Increasing(PlaceLess, rows) && SelectsTo(rows, owner, n)
    ensures rows[|rows| - 1].0 == owner ==> n > 0 && rows[|rows| - 1].1 == n - 1
    ensures SelectsTo(rows[..|rows| - 1], owner, if rows[|rows| - 1].0 == owner then n - 1 else n)
    ensures Increasing(PlaceLess, rows[..|rows| - 1])
  {
    hide PlaceLess;
    var init, last := rows[..|rows| - 1], rows[|rows| - 1];
    if last.0 == owner { LastIsTop(rows, owner, n); }
    forall p: Place | p.0 == owner ensures p in init <==> p in rows && p != last { InitOf(rows, p); }
  }

  lemma RecordsSnoc(db: DB, rows: seq<Place>)
    requires rows != [] && Retained(db, rows)
    ensures var init, last := rows[..|rows| - 1], rows[|rows| - 1];
            Retained(db, init) && last in rows && RecordsAt(db, rows) == RecordsAt(db, init) + [RecordAt(db, last)]
  {
    assert rows[|rows| - 1] in rows;
    assert forall p :: p in rows[..|rows| - 1] ==> p in rows;
  }

  lemma FilterSnoc(records: seq<Record>, r: Record, mode: Bytes)
    ensures FilterMode(records + [r], mode) == FilterMode(records, mode) + if ModeMatches(r, mode) then [r] else []
  {
    assert (records + [r])[..|records|] == records;
  }

  lemma PathSnoc(loaded: seq<Record>, r: Record, owner: Bytes)
    ensures OwnerPath(loaded + [r], owner) == OwnerPath(loaded, owner) + if r.view.owner == owner then [r.id] else []
  {
    assert (loaded + [r])[..|loaded|] == loaded;
  }

  lemma RecordAtSays(db: DB, p: Place, filter: Bytes)
    requires p in db.paths && db.paths[p].recordID in db.records && IsModeFilter(filter)
    ensures RecordAt(db, p).id == db.paths[p].recordID && RecordAt(db, p).view.owner == p.0
    ensures ModeMatches(RecordAt(db, p), filter) <==> Kept(filter, db.records[db.paths[p].recordID].mode)
  {
  }

  lemma HoldsToRows(db: DB, rows: seq<Place>, owner: Bytes, n: nat)
    requires Retained(db, rows) && SelectsTo(rows, owner, n)
    ensures HoldsTo(db, owner, n)
  {
    forall i: nat | i < n ensures (owner, i) in db.paths && db.paths[(owner, i)].recordID in db.records {
      assert (owner, i) in rows;
    }
  }

  lemma KeptSnoc(db: DB, owner: Bytes, n: nat, filter: Bytes)
    requires n > 0 && HoldsTo(db, owner, n)
    ensures HoldsTo(db, owner, n - 1)
    ensures var id := db.paths[(owner, n - 1)].recordID;
            KeptIDs(db, owner, n, filter) ==
            KeptIDs(db, owner, n - 1, filter) + if Kept(filter, db.records[id].mode) then [id] else []
  {
  }

  lemma EmptyPath(db: DB, rows: seq<Place>, owner: Bytes, n: nat, filter: Bytes)
    requires rows == [] && SelectsTo(rows, owner, n)
    ensures n == 0 && Retained(db, rows) && HoldsTo(db, owner, n) && KeptIDs(db, owner, n, filter) == []
    ensures OwnerPath(FilterMode(RecordsAt(db, rows), filter), owner) == []
  {
    var p: Place := (owner, 0);
    assert p in rows <==> p.1 < n;
  }

  /** Loading and filtering rows keeps, on each path, what the filter keeps of the path's selected entries. */
  lemma {:induction false} PathOfRows(db: DB, rows: seq<Place>, owner: Bytes, n: nat, filter: Bytes)
    requires Retained(db, rows) && Increasing(PlaceLess, rows) && SelectsTo(rows, owner, n) && IsModeFilter(filter)
    ensures HoldsTo(db, owner, n)
    ensures OwnerPath(FilterMode(RecordsAt(db, rows), filter), owner) == KeptIDs(db, owner, n, filter)
  {
    hide *;
    if rows == [] {
      EmptyPath(db, rows, owner, n, filter);
    } else {
      var init, last := rows[..|rows| - 1], rows[|rows| - 1];
      HoldsToRows(db, rows, owner, n);
      RecordsSnoc(db, rows);
      RetainedRow(db, rows, last);
      LastOfOwner(rows, owner, n);
      RecordAtSays(db, last, filter);
      FilterSnoc(RecordsAt(db, init), RecordAt(db, last), filter);
      PathSnoc(FilterMode(RecordsAt(db, init), filter), RecordAt(db, last), owner);
      assert FilterMode(RecordsAt(db, init), filter) + [] == FilterMode(RecordsAt(db, init), filter);
      PathOfRows(db, init, owner, if last.0 == owner then n - 1 else n, filter);
      if last.0 == owner { KeptSnoc(db, owner, n, filter); }
    }
  }

  lemma RetainedRow(db: DB, rows: seq<Place>, p: Place)
    requires Retained(db, rows) && p in rows
    ensures p in db.paths && db.paths[p].recordID in db.records
  {
  }

  lemma {:induction false} PathOrNone(loaded: seq<Record>, owner: Bytes)
    ensures owner in PathRefs(loaded) <==> OwnerPath(loaded, owner) != []
  {
    if loaded == [] {
      assert PathRefs(loaded) == [];
    } else {
      var init, last := loaded[..|loaded| - 1], loaded[|loaded| - 1];
      PathOrNone(init, owner);
      assert PathRefs(loaded) == PathRefs(init) + [last.view.owner];
    }
  }

  lemma SlicePaths(db: DB, loaded: seq<Record>, support: seq<Record>, frontier: Option<Frontier>, visibility: Bytes,
                   mode: Bytes, anchors: bool, owner: Bytes)
    ensures var s := SliceOf(db, loaded, support, frontier, visibility, mode, anchors);
            (owner in s.ownerPaths <==> OwnerPath(loaded, owner) != [])
            && (owner in s.ownerPaths ==> s.ownerPaths[owner] == OwnerPath(loaded, owner))
  {
    hide OwnerPath, ParentEdges, Selected, FactsByID, ContextsByID, PathRefs;
    PathOrNone(loaded, owner);
  }

  lemma ShowsFrom(db: DB, s: Slice, owner: Bytes, n: nat, filter: Bytes)
    requires HoldsTo(db, owner, n)
    requires owner in s.ownerPaths <==> KeptIDs(db, owner, n, filter) != []
    requires owner in s.ownerPaths ==> s.ownerPaths[owner] == KeptIDs(db, owner, n, filter)
    ensures ShowsPath(db, s, owner, n, filter)
  {
  }

  /** A read of retained rows shows, of each path, what the filter keeps of the selected entries. */
  lemma RowsShowPaths(db: DB, rows: seq<Place>, frontier: Option<Frontier>, visibility: Bytes, filter: Bytes,
                      anchors: bool, s: Slice, owner: Bytes, n: nat)
    requires Retained(db, rows) && Increasing(PlaceLess, rows) && SelectsTo(rows, owner, n) && IsModeFilter(filter)
    requires SliceResult(db, EntriesAt(db, rows), frontier, visibility, filter, anchors) == Ok(s)
    ensures ShowsPath(db, s, owner, n, filter)
  {
    var loaded := FilterMode(RecordsAt(db, rows), filter);
    RowsLoad(db, rows);
    assert s == SliceOf(db, loaded, SupportRecords(db, loaded), frontier, visibility, filter, anchors);
    hide *;
    SlicePaths(db, loaded, SupportRecords(db, loaded), frontier, visibility, filter, anchors, owner);
    PathOfRows(db, rows, owner, n, filter);
    ShowsFrom(db, s, owner, n, filter);
  }

  // ---- Prefix reads --------------------------------------------------------

  /** The rows of an owner's prefix; an empty owner selects every path. */
  function PrefixPlaces(db: DB, owner: Bytes, through: int): set<Place> {
    set p | p in db.paths && (owner == "" || p.0 == owner) && p.1 <= through
  }

  function PrefixEntries(db: DB, owner: Bytes, through: int): seq<Entry> {
    EntriesAt(db, Rows(PrefixPlaces(db, owner, through)))
  }

  /** How many entries of an owner's path a prefix up to an ordinal holds */
  function PrefixLength(db: DB, owner: Bytes, through: int): nat {
    if through < 0 then 0 else if through + 1 < Next(db, owner) then through + 1 else Next(db, owner)
  }

  function PrefixCount(db: DB, owner: Bytes, through: int, o: Bytes): nat {
    if owner == "" || o == owner then PrefixLength(db, o, through) else 0
  }

  /** Of the owner's path, or of every path, the entries up to an ordinal that the filter lets through */
  ghost predicate ShowsPrefix(db: DB, s: Slice, owner: Bytes, through: int, filter: Bytes) {
    forall o :: ShowsPath(db, s, o, PrefixCount(db, owner, through, o), filter)
  }

  lemma PrefixSelects(db: DB, owner: Bytes, through: int, o: Bytes)
    requires DensePaths(db)
    ensures SelectsTo(Rows(PrefixPlaces(db, owner, through)), o, PrefixCount(db, owner, through, o))
  {
  }

  lemma PrefixRetained(db: DB, owner: Bytes, through: int)
    requires RecordsOnPaths(db.paths, db.records)
    ensures Retained(db, Rows(PrefixPlaces(db, owner, through)))
    ensures Increasing(PlaceLess, Rows(PrefixPlaces(db, owner, through)))
    ensures PrefixEntries(db, owner, through) == EntriesAt(db, Rows(PrefixPlaces(db, owner, through)))
  {
  }

  /**
    * A prefix read of a dense store holds, of the owner's path or of every path, exactly the entries up to the given
    * ordinal that the mode filter lets through, in order.
    */
  lemma PrefixHolds(db: DB, owner: Bytes, through: int, visibility: Bytes, filter: Bytes, s: Slice)
    requires DensePaths(db) && RecordsOnPaths(db.paths, db.records) && IsModeFilter(filter)
    requires SliceResult(db, PrefixEntries(db, owner, through), None, visibility, filter, true) == Ok(s)
    ensures ShowsPrefix(db, s, owner, through, filter)
  {
    PrefixRetained(db, owner, through);
    hide DensePaths, RecordsOnPaths, SliceResult, PrefixEntries, ShowsPath, PrefixCount, IsModeFilter;
    forall o ensures ShowsPath(db, s, o, PrefixCount(db, owner, through, o), filter) {
      PrefixSelects(db, owner, through, o);
      RowsShowPaths(db, Rows(PrefixPlaces(db, owner, through)), None, visibility, filter, true, s, o,
                    PrefixCount(db, owner, through, o));
    }
  }

  /** ReadOwnerPrefix */
  method ReadOwnerPrefix(db: DB, rc: ReadContext, owner: Bytes, through: int, mode: Bytes) returns (r: Result<Slice>)
    ensures r == if !ReadAuthorized(rc) then Err(Unauthorized)
                 else if !IsModeFilter(mode) then Err(Incompatible)
                 else SliceResult(db, PrefixEntries(db, owner, through), None, rc.visibility, mode, true)
    ensures r.Ok? && DensePaths(db) && RecordsOnPaths(db.paths, db.records) ==>
              ShowsPrefix(db, r.value, owner, through, mode)
  {
    hide SliceResult, PrefixEntries, ShowsPrefix, DensePaths, RecordsOnPaths;
    if !ReadAuthorized(rc) { return Err(Unauthorized); }
    if !IsModeFilter(mode) { return Err(Incompatible); }
    r := BuildSlice(db, PrefixEntries(db, owner, through), None, rc.visibility, mode, true);
    if r.Ok? && DensePaths(db) && RecordsOnPaths(db.paths, db.records) {
      PrefixHolds(db, owner, through, rc.visibility, mode, r.value);
    }
  }
}
