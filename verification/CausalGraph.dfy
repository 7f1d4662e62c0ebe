/** The causal graph has no cycles, and reads of sound states succeed. */
module CausalGraph {
  import opened Wrappers
  import opened Utf8
  import opened Trace
  import opened Digests
  import opened Tables
  import opened Invariant
  import opened Commits
  import opened WitnessLaws
  import opened Reading
  import opened Closure
  import opened PathReads
  import opened Runs
  import opened Cuts

  // ---- No cycles -----------------------------------------------------------

  /** A cited fact was inserted before the one that cites it. */
  lemma CitedEarlier(db: DB, j: nat, parent: Bytes) returns (i: nat)
    requires ParentsFirst(db.log, db.records) && j < |db.log| && Cites(db, db.log[j], parent)
    ensures i < j && db.log[i] == parent
  {
    assert parent in db.records[db.log[j]].causedBy;
    assert parent in db.log[..j];
    i :| 0 <= i < j && db.log[..j][i] == parent;
  }

  lemma RestOfPath(db: DB, path: seq<Bytes>)
    requires |path| > 1 && IsCitationPath(db, path)
    ensures Cites(db, path[0], path[1]) && IsCitationPath(db, path[1..])
    ensures path[1..][0] == path[1] && path[1..][|path| - 2] == path[|path| - 1]
  {
    forall i | 0 <= i < |path| - 2 ensures Cites(db, path[1..][i], path[1..][i + 1]) {
      assert Cites(db, path[i + 1], path[i + 2]);
    }
  }

  /** A path of citations runs back through the insertion order. */
  lemma {:induction false} PathGoesBack(db: DB, path: seq<Bytes>, j: nat) returns (i: nat)
    requires ParentsFirst(db.log, db.records)
    requires path != [] && IsCitationPath(db, path) && j < |db.log| && db.log[j] == path[0]
    ensures i <= j && db.log[i] == path[|path| - 1] && (|path| > 1 ==> i < j)
    decreases |path|
  {
    if |path| == 1 {
      i := j;
    } else {
      RestOfPath(db, path);
      var parent := CitedEarlier(db, j, path[1]);
      i := PathGoesBack(db, path[1..], parent);
    }
  }

  lemma InvariantLog(k: Kernel, db: DB)
    requires StoreInv(k, db)
    ensures ParentsFirst(db.log, db.records) && RecordsOnPaths(db.paths, db.records)
  {
  }

  lemma DistinctLog(db: DB, i: nat, j: nat)
    requires ParentsFirst(db.log, db.records) && i < j < |db.log|
    ensures db.log[i] != db.log[j]
  {
  }

  lemma CitingIsLogged(db: DB, id: Bytes, parent: Bytes) returns (j: nat)
    requires ParentsFirst(db.log, db.records) && Cites(db, id, parent)
    ensures j < |db.log| && db.log[j] == id
  {
    assert id in db.records;
    j :| 0 <= j < |db.log| && db.log[j] == id;
  }

  /** In every reachable state, no fact is among its own causes, directly or not. */
  lemma CausesAreAcyclic(k: Kernel, ops: seq<Op>, path: seq<Bytes>)
    requires |path| > 1 && IsCitationPath(Run(k, EMPTY, ops), path)
    ensures path[0] != path[|path| - 1]
  {
    hide *;
    var db := Run(k, EMPTY, ops);
    ReachableInv(k, ops);
    InvariantLog(k, db);
    RestOfPath(db, path);
    var j := CitingIsLogged(db, path[0], path[1]);
    var i := PathGoesBack(db, path, j);
    DistinctLog(db, i, j);
  }

  // ---- Reads of sound states succeed ---------------------------------------

  lemma {:induction false} PathIsRetained(db: DB, path: seq<Bytes>)
    requires ParentsFirst(db.log, db.records) && path != [] && IsCitationPath(db, path) && path[0] in db.records
    ensures path[|path| - 1] in db.records
    decreases |path|
  {
    if |path| > 1 {
      RestOfPath(db, path);
      var j := CitingIsLogged(db, path[0], path[1]);
      var i := CitedEarlier(db, j, path[1]);
      assert path[1] in db.log;
      PathIsRetained(db, path[1..]);
    }
  }

  /** Everything the roots reach is readable exactly when the roots are retained. */
  lemma RetainedRootsSuffice(db: DB, roots: seq<Bytes>)
    requires ParentsFirst(db.log, db.records) && RecordsOnPaths(db.paths, db.records)
    ensures AllReadable(db, roots) <==> forall r :: r in roots ==> r in db.records
  {
    if AllReadable(db, roots) {
      forall r | r in roots ensures r in db.records {
        RootReaches(db, roots, r);
        assert ReadFact(db, r).Ok?;
      }
    }
    if forall r :: r in roots ==> r in db.records {
      forall id | Reaches(db, roots, id) ensures ReadFact(db, id).Ok? {
        var path :| LeadsTo(db, roots, path, id);
        PathIsRetained(db, path);
        RetainedReads(db, id);
      }
    }
  }

  lemma ReadOfRows(k: Kernel, db: DB, rows: seq<Place>, frontier: Option<Frontier>, visibility: Bytes, mode: Bytes,
                   anchors: bool)
    requires RecordsOnPaths(db.paths, db.records) && Witnessed(k, db.log, db.records) && Retained(db, rows)
    ensures SliceResult(db, EntriesAt(db, rows), frontier, visibility, mode, anchors).Ok?
  {
    LoadedAreSupported(k, db, rows, mode);
    RowsLoad(db, rows);
  }

  lemma ClosureCases(db: DB, rc: ReadContext, roots: seq<Bytes>, mode: Bytes, policy: Bytes)
    ensures ClosureResult(db, rc, roots, mode, policy) ==
            if !ReadAuthorized(rc) then Err(Unauthorized)
            else if !IsModeFilter(mode) || !IsPolicy(policy) then Err(Incompatible)
            else if !AllReadable(db, roots) then Err(UnknownFact)
            else SliceResult(db, EntriesAt(db, Rows(FirstPlaces(db, ClosureSet(db, roots)))), None, rc.visibility, mode,
                             policy == INCLUDE_ANCHORS)
  {
  }

  /** In a sound state a valid closure read succeeds exactly when its roots are retained. */
  lemma ClosureSucceeds(k: Kernel, db: DB, rc: ReadContext, roots: seq<Bytes>, mode: Bytes, policy: Bytes)
    requires Sound(k, db) && ReadAuthorized(rc) && IsModeFilter(mode) && IsPolicy(policy)
    ensures ClosureResult(db, rc, roots, mode, policy).Ok? <==> forall r :: r in roots ==> r in db.records
  {
    hide *;
    SoundParts(k, db);
    InvariantLog(k, db);
    RetainedRootsSuffice(db, roots);
    ClosureCases(db, rc, roots, mode, policy);
    if AllReadable(db, roots) {
      ClosureLoads(db, roots);
      ReadOfRows(k, db, Rows(FirstPlaces(db, ClosureSet(db, roots))), None, rc.visibility, mode, policy == INCLUDE_ANCHORS);
    }
  }

  /** In a sound state every prefix read that is allowed succeeds. */
  lemma PrefixSucceeds(k: Kernel, db: DB, owner: Bytes, through: int, visibility: Bytes, mode: Bytes)
    requires Sound(k, db)
    ensures SliceResult(db, PrefixEntries(db, owner, through), None, visibility, mode, true).Ok?
  {
    SoundParts(k, db);
    InvariantLog(k, db);
    var rows := Rows(PrefixPlaces(db, owner, through));
    PrefixRetained(db, owner, through);
    ReadOfRows(k, db, rows, None, visibility, mode, true);
  }
}
