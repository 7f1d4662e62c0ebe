/** When the row operations of an append succeed, operation by operation. */
module Inserting {
  import opened Wrappers
  import opened Utf8
  import opened Trace
  import opened Digests
  import opened Tables
  import opened Append
  import opened Invariant
  import opened StagingLaws
  import opened StoreInvariant
  import opened Commits

  // ---- Contexts ------------------------------------------------------------

  /** No staged context is known already or staged twice. */
  predicate AreNew(known: set<Bytes>, contexts: seq<RetainedContext>) {
    && (forall c :: c in contexts ==> c.contextID !in known)
    && (forall i, j :: 0 <= i < j < |contexts| ==> contexts[i].contextID != contexts[j].contextID)
  }

  lemma AreNewFirst(known: set<Bytes>, contexts: seq<RetainedContext>)
    requires contexts != []
    ensures AreNew(known, contexts) <==>
              contexts[0].contextID !in known && AreNew(known + {contexts[0].contextID}, contexts[1..])
  {
    var rest, known' := contexts[1..], known + {contexts[0].contextID};
    if contexts[0].contextID !in known && AreNew(known', rest) {
      forall i, j | 0 <= i < j < |contexts| ensures contexts[i].contextID != contexts[j].contextID {
        assert rest[j - 1] in rest;
        if i > 0 { assert rest[i - 1].contextID != rest[j - 1].contextID; }
      }
      assert forall c :: c in contexts ==> c == contexts[0] || c in rest;
    }
    if AreNew(known, contexts) {
      forall c | c in rest ensures c.contextID !in known' {
        var j :| 0 <= j < |rest| && rest[j] == c;
        assert contexts[j + 1] == c && c in contexts;
      }
    }
  }

  /** Contexts go in exactly when none of them is known or staged twice. */
  lemma {:induction false} ContextsInsert(db: DB, contexts: seq<RetainedContext>)
    ensures InsertContexts(db, contexts).Ok? <==> AreNew(db.contexts.Keys, contexts)
    decreases |contexts|
  {
    if contexts != [] {
      var c := contexts[0];
      var db1 := db.(contexts := db.contexts[c.contextID := c]);
      ContextsInsert(db1, contexts[1..]);
      AreNewFirst(db.contexts.Keys, contexts);
      assert db1.contexts.Keys == db.contexts.Keys + {c.contextID};
    }
  }

  // ---- Witnesses -----------------------------------------------------------

  /** The part of the store invariant that row operations need */
  ghost predicate Numbered(db: DB) {
    Core(db) && DensePaths(db) && CommitsDense(db.paths, db.nextCommit) && CommitsRise(db.paths)
  }

  /** A retained witness fits its plan. */
  predicate WitnessFits(records: map<Bytes, RecordRow>, plan: WitnessPlan) {
    plan.recordID in records ==> WitnessMatches(records[plan.recordID], plan)
  }

  predicate WitnessesFit(records: map<Bytes, RecordRow>, plans: seq<WitnessPlan>) {
    forall p :: p in plans ==> WitnessFits(records, p)
  }

  predicate AllRetained(records: map<Bytes, RecordRow>, plans: seq<WitnessPlan>) {
    forall p :: p in plans ==> p.recordID in records
  }

  function WithWitness(records: map<Bytes, RecordRow>, plan: WitnessPlan, intent: Bytes): map<Bytes, RecordRow> {
    if plan.recordID in records then records else records[plan.recordID := WitnessRow(plan, intent)]
  }

  /** The records once the witnesses are in */
  function WithWitnesses(records: map<Bytes, RecordRow>, plans: seq<WitnessPlan>, intent: Bytes): map<Bytes, RecordRow>
    decreases |plans|
  {
    if plans == [] then records else WithWitnesses(WithWitness(records, plans[0], intent), plans[1..], intent)
  }

  lemma WitnessReceiptInjective(a: Bytes, b: Bytes)
    requires WitnessReceipt(a) == WitnessReceipt(b)
    ensures a == b
  {
    assert WitnessReceipt(a)[8..] == a && WitnessReceipt(b)[8..] == b;
  }

  lemma WitnessReceiptFree(db: DB, id: Bytes)
    requires RecordsOnPaths(db.paths, db.records) && CommitsDense(db.paths, db.nextCommit) && id !in db.records
    ensures !ReceiptUsed(db, WitnessReceipt(id))
  {
    if ReceiptUsed(db, WitnessReceipt(id)) {
      var p :| p in db.paths && db.paths[p].receipt == WitnessReceipt(id);
      assert EntryNumbered(p, db.paths[p], db.nextCommit);
      forall n: nat ensures CommitReceipt(n) != WitnessReceipt(id) { CommitIsNotWitness(n, id); }
      WitnessReceiptInjective(id, db.paths[p].recordID);
    }
  }

  lemma NewWitnessInserts(db: DB, plan: WitnessPlan, intent: Bytes)
    requires !ReceiptUsed(db, WitnessReceipt(plan.recordID)) && plan.recordID !in db.records
    requires (WITNESS_OWNER, Next(db, WITNESS_OWNER)) !in db.paths
    ensures InsertWitness(db, plan, intent).Ok?
  {
    var row := WitnessRow(plan, intent);
    var db1 := db.(records := db.records[plan.recordID := row], log := db.log + [plan.recordID]);
    assert InsertRecordIfMissing(db, plan.recordID, row) == Ok(db1);
    assert !ReceiptUsed(db1, WitnessReceipt(plan.recordID));
  }

  lemma NumberedParts(db: DB)
    requires Numbered(db)
    ensures Core(db) && DensePaths(db) && CommitsDense(db.paths, db.nextCommit) && CommitsRise(db.paths)
    ensures RecordsOnPaths(db.paths, db.records) && EdgesAreCauses(db.edges, db.records)
    ensures (WITNESS_OWNER, Next(db, WITNESS_OWNER)) !in db.paths
  {
  }

  lemma OldWitnessInserts(db: DB, plan: WitnessPlan, intent: Bytes)
    requires RecordsOnPaths(db.paths, db.records) && plan.recordID in db.records
    ensures InsertWitness(db, plan, intent).Ok? <==> WitnessMatches(db.records[plan.recordID], plan)
  {
    RetainedReads(db, plan.recordID);
  }

  /** A witness goes in exactly when it is new or fits the retained one. */
  lemma WitnessInserts(db: DB, plan: WitnessPlan, intent: Bytes)
    requires Numbered(db)
    ensures InsertWitness(db, plan, intent).Ok? <==> WitnessFits(db.records, plan)
  {
    NumberedParts(db);
    if plan.recordID in db.records {
      hide Numbered, Core, RecordsOnPaths, InsertWitness, WitnessMatches;
      OldWitnessInserts(db, plan, intent);
    } else {
      hide Numbered, Core, RecordsOnPaths, InsertWitness, WitnessMatches;
      WitnessReceiptFree(db, plan.recordID);
      NewWitnessInserts(db, plan, intent);
    }
  }

  lemma WitnessLeaves(db: DB, plan: WitnessPlan, intent: Bytes, db': DB)
    requires Numbered(db) && InsertWitness(db, plan, intent) == Ok(db')
    ensures Numbered(db') && db'.records == WithWitness(db.records, plan, intent)
    ensures plan.recordID in db.records ==> db' == db
  {
    NumberedParts(db);
    InsertWitnessKeeps(db, plan, intent, db');
    InsertWitnessCommits(db, plan, intent, db');
    hide Core, DensePaths, CommitsDense, CommitsRise, InsertWitness;
    if plan.recordID in db.records {
      WitnessReused(db, plan, intent, db');
    } else {
      var db1 := NewWitness(db, plan, intent, db');
    }
  }

  lemma WitnessesFitRest(records: map<Bytes, RecordRow>, plans: seq<WitnessPlan>, intent: Bytes)
    requires plans != [] && DistinctPlans(plans)
    ensures WitnessesFit(records, plans) <==>
              WitnessFits(records, plans[0]) && WitnessesFit(WithWitness(records, plans[0], intent), plans[1..])
  {
    var rest, records' := plans[1..], WithWitness(records, plans[0], intent);
    assert forall p :: p in plans <==> p == plans[0] || p in rest;
    forall p | p in rest ensures WitnessFits(records, p) <==> WitnessFits(records', p) {
      var j :| 0 <= j < |rest| && rest[j] == p;
      assert plans[j + 1] == p && plans[0].recordID != p.recordID;
    }
  }

  lemma NoWitnesses(db: DB, intent: Bytes)
    ensures InsertWitnesses(db, [], intent) == Ok(db) && WithWitnesses(db.records, [], intent) == db.records
    ensures WitnessesFit(db.records, [])
  {
  }

  lemma FirstWitness(db: DB, plans: seq<WitnessPlan>, intent: Bytes)
    requires plans != []
    ensures DistinctPlans(plans) ==> DistinctPlans(plans[1..])
    ensures WithWitnesses(db.records, plans, intent) ==
            WithWitnesses(WithWitness(db.records, plans[0], intent), plans[1..], intent)
    ensures var r := InsertWitness(db, plans[0], intent);
            InsertWitnesses(db, plans, intent) == if r.Err? then r else InsertWitnesses(r.value, plans[1..], intent)
  {
    hide InsertWitness, WithWitness;
  }

  /** Witnesses go in exactly when every retained one fits. */
  lemma {:induction false} WitnessesInsert(db: DB, plans: seq<WitnessPlan>, intent: Bytes)
    requires Numbered(db) && DistinctPlans(plans)
    ensures InsertWitnesses(db, plans, intent).Ok? <==> WitnessesFit(db.records, plans)
    ensures InsertWitnesses(db, plans, intent).Ok? ==>
              InsertWitnesses(db, plans, intent).value.records == WithWitnesses(db.records, plans, intent)
    decreases |plans|
  {
    hide *;
    if plans == [] {
      NoWitnesses(db, intent);
    } else {
      FirstWitness(db, plans, intent);
      WitnessInserts(db, plans[0], intent);
      WitnessesFitRest(db.records, plans, intent);
      if InsertWitness(db, plans[0], intent).Ok? {
        var db1 := InsertWitness(db, plans[0], intent).value;
        WitnessLeaves(db, plans[0], intent, db1);
        WitnessesInsert(db1, plans[1..], intent);
      }
    }
  }

  /** Witnesses that are all retained leave the tables alone. */
  lemma {:induction false} RetainedWitnesses(db: DB, plans: seq<WitnessPlan>, intent: Bytes, db': DB)
    requires Numbered(db) && AllRetained(db.records, plans) && InsertWitnesses(db, plans, intent) == Ok(db')
    ensures db' == db
    decreases |plans|
  {
    if plans != [] {
      hide Numbered, InsertWitness;
      var db1 := InsertWitness(db, plans[0], intent).value;
      assert plans[0] in plans;
      WitnessLeaves(db, plans[0], intent, db1);
      RetainedWitnesses(db1, plans[1..], intent, db');
    }
  }

  lemma NewWitnessTakesPlace(db: DB, plan: WitnessPlan, intent: Bytes, db': DB)
    requires Core(db) && DensePaths(db) && InsertWitness(db, plan, intent) == Ok(db')
    ensures Next(db', WITNESS_OWNER) == Next(db, WITNESS_OWNER) + if plan.recordID in db.records then 0 else 1
  {
    if plan.recordID !in db.records {
      var db1 := InsertWitnessStep(db, plan, intent, db');
    }
  }

  lemma InsertWitnessesFirst(db: DB, plans: seq<WitnessPlan>, intent: Bytes, db': DB) returns (db1: DB)
    requires plans != [] && InsertWitnesses(db, plans, intent) == Ok(db')
    ensures InsertWitness(db, plans[0], intent) == Ok(db1)
    ensures InsertWitnesses(db1, plans[1..], intent) == Ok(db')
  {
    db1 := InsertWitness(db, plans[0], intent).value;
  }

  /** The witness path stays put only if every witness was retained already. */
  lemma {:induction false} WitnessesTakePlaces(db: DB, plans: seq<WitnessPlan>, intent: Bytes, db': DB)
    requires Core(db) && DensePaths(db) && InsertWitnesses(db, plans, intent) == Ok(db')
    ensures Next(db, WITNESS_OWNER) <= Next(db', WITNESS_OWNER)
    ensures Next(db, WITNESS_OWNER) == Next(db', WITNESS_OWNER) ==> forall p :: p in plans ==> p.recordID in db.records
    decreases |plans|
  {
    hide *;
    if plans == [] {
      NoWitnesses(db, intent);
    } else {
      var db1 := InsertWitnessesFirst(db, plans, intent, db');
      NewWitnessTakesPlace(db, plans[0], intent, db1);
      InsertWitnessKeeps(db, plans[0], intent, db1);
      WitnessesTakePlaces(db1, plans[1..], intent, db');
      if plans[0].recordID in db.records { WitnessReused(db, plans[0], intent, db1); }
      assert forall p :: p in plans <==> p == plans[0] || p in plans[1..];
    }
  }

  // ---- Records and their paths ---------------------------------------------

  lemma {:induction false} EdgesInsert(db: DB, child: Bytes, parents: seq<Bytes>, position: nat)
    requires forall p :: p in parents ==> p in db.records
    requires forall n: nat :: position <= n ==> (child, n) !in db.edges
    ensures InsertEdges(db, child, parents, position).Ok?
    decreases |parents|
  {
    if parents != [] {
      EdgesInsert(db.(edges := db.edges[(child, position) := parents[0]]), child, parents[1..], position + 1);
    }
  }

  /** A retained record must name the same content; a new one always goes in. */
  lemma RecordInserts(db: DB, id: Bytes, row: RecordRow)
    requires EdgesAreCauses(db.edges, db.records)
    requires id !in db.records ==> forall p :: p in row.causedBy ==> p in db.records
    ensures InsertRecordIfMissing(db, id, row).Ok? <==> (id in db.records ==> SameContent(db.records[id], row))
    ensures InsertRecordIfMissing(db, id, row).Ok? ==>
              var db' := InsertRecordIfMissing(db, id, row).value; db'.paths == db.paths && id in db'.records
  {
    if id !in db.records {
      var db1 := db.(records := db.records[id := row], log := db.log + [id]);
      assert forall n: nat :: (id, n) !in db1.edges;
      EdgesInsert(db1, id, row.causedBy, 0);
      InsertEdgesAdds(db1, id, row.causedBy, 0, InsertEdges(db1, id, row.causedBy, 0).value);
    }
  }

  /** A fact row goes in exactly when its record does, its place is free and its receipt unused. */
  lemma FactRowInserts(db: DB, id: Bytes, row: RecordRow, place: Place, path: PathRow)
    requires EdgesAreCauses(db.edges, db.records) && path.recordID == id
    requires id !in db.records ==> forall p :: p in row.causedBy ==> p in db.records
    ensures InsertFactRow(db, id, row, place, path).Ok? <==>
              (id in db.records ==> SameContent(db.records[id], row))
              && place !in db.paths && !ReceiptUsed(db, path.receipt)
  {
    hide EdgesAreCauses, SameContent, InsertRecordIfMissing;
    RecordInserts(db, id, row);
    if InsertRecordIfMissing(db, id, row).Ok? {
      var db1 := InsertRecordIfMissing(db, id, row).value;
      SameReceipts(db, db1, path.receipt);
    }
  }

  lemma SameReceipts(db: DB, db': DB, receipt: Bytes)
    requires db'.paths == db.paths
    ensures ReceiptUsed(db', receipt) == ReceiptUsed(db, receipt)
  {
  }

  // ---- Facts ---------------------------------------------------------------

  lemma CommitReceiptFree(base: DB, start: DB, db: DB, facts: seq<Fact>, n: nat, intent: Bytes)
    requires n < |facts| && Inserted(base, start, db, facts, n, intent)
    requires CommitsDense(start.paths, base.nextCommit)
    ensures !ReceiptUsed(db, CommitReceipt(base.nextCommit + n))
  {
    var receipt := CommitReceipt(base.nextCommit + n);
    PathsAfterAre(base, start, facts, n, intent);
    forall p | p in db.paths ensures db.paths[p].receipt != receipt {
      if p in start.paths {
        PathsAfterKeep(base, start, facts, n, intent, p);
        OldReceiptDiffers(start.paths, base.nextCommit, p, base.nextCommit + n);
      } else {
        var i :| 0 <= i < n && p == PlaceOf(base, facts, i);
        assert db.paths[p].receipt == CommitReceipt(base.nextCommit + i);
        if db.paths[p].receipt == receipt { CommitReceiptInjective(base.nextCommit + i, base.nextCommit + n); }
      }
    }
  }

  lemma OldReceiptDiffers(paths: map<Place, PathRow>, next: nat, p: Place, n: nat)
    requires CommitsDense(paths, next) && p in paths && next <= n
    ensures paths[p].receipt != CommitReceipt(n)
  {
    assert EntryNumbered(p, paths[p], next);
    if IsCommitBelow(paths[p].receipt, next) {
      var m: nat :| m < next && paths[p].receipt == CommitReceipt(m);
      if CommitReceipt(m) == CommitReceipt(n) { CommitReceiptInjective(m, n); }
    } else {
      CommitIsNotWitness(n, paths[p].recordID);
    }
  }

  /** The i-th fact's content fits whatever is retained under its id by then. */
  predicate ContentFits(start: DB, facts: seq<Fact>, i: nat)
    requires i < |facts|
  {
    var records, f := RecordsAfter(start, facts, i), facts[i];
    f.id in records ==> SameContent(records[f.id], f.row)
  }

  predicate ContentsFit(start: DB, facts: seq<Fact>) {
    forall i :: 0 <= i < |facts| ==> ContentFits(start, facts, i)
  }

  lemma PlaceFreeLater(base: DB, start: DB, db: DB, facts: seq<Fact>, n: nat, intent: Bytes)
    requires n < |facts| && Inserted(base, start, db, facts, n, intent)
    ensures PlaceOf(base, facts, n) in db.paths <==> PlaceOf(base, facts, n) in start.paths
  {
    PathsAfterAre(base, start, facts, n, intent);
    var p := PlaceOf(base, facts, n);
    if p in db.paths && p !in start.paths {
      var i :| 0 <= i < n && p == PlaceOf(base, facts, i);
      PlacesDistinct(base, facts, i, n);
    }
  }

  lemma FactInserts(base: DB, start: DB, db: DB, facts: seq<Fact>, n: nat, intent: Bytes)
    requires n < |facts| && Core(db) && Grows(start, db) && Extends(start.records, base.records)
    requires CausesStaged(base, facts) && Inserted(base, start, db, facts, n, intent)
    requires CommitsDense(start.paths, base.nextCommit)
    ensures InsertFactRow(db, facts[n].id, facts[n].row, PlaceOf(base, facts, n), PathRowOf(base, facts, n, intent)).Ok?
            <==> PlaceOf(base, facts, n) !in start.paths && ContentFits(start, facts, n)
  {
    CoreEdges(db);
    InsertedSays(base, start, db, facts, n, intent);
    FitsIs(start, facts, n);
    PathRowIs(base, facts, n, intent);
    hide *;
    FactParents(base, start, db, facts, n, intent);
    FactRowInserts(db, facts[n].id, facts[n].row, PlaceOf(base, facts, n), PathRowOf(base, facts, n, intent));
    CommitReceiptFree(base, start, db, facts, n, intent);
    PlaceFreeLater(base, start, db, facts, n, intent);
  }

  lemma CoreEdges(db: DB)
    requires Core(db)
    ensures EdgesAreCauses(db.edges, db.records)
  {
  }

  lemma InsertedSays(base: DB, start: DB, db: DB, facts: seq<Fact>, n: nat, intent: Bytes)
    requires n <= |facts| && Inserted(base, start, db, facts, n, intent)
    ensures db.records == RecordsAfter(start, facts, n)
  {
  }

  lemma FitsIs(start: DB, facts: seq<Fact>, n: nat)
    requires n < |facts|
    ensures var records := RecordsAfter(start, facts, n);
            ContentFits(start, facts, n) <==>
              (facts[n].id in records ==> SameContent(records[facts[n].id], facts[n].row))
  {
  }

  lemma PathRowIs(base: DB, facts: seq<Fact>, n: nat, intent: Bytes)
    requires n < |facts|
    ensures PathRowOf(base, facts, n, intent).recordID == facts[n].id
    ensures PathRowOf(base, facts, n, intent).receipt == CommitReceipt(base.nextCommit + n)
  {
  }

  /** The facts from the n-th on go in exactly when their places are free and their contents fit. */
  lemma {:induction false} FactsInsert(base: DB, start: DB, db: DB, facts: seq<Fact>, n: nat, intent: Bytes)
    requires n <= |facts| && Core(db) && Grows(start, db) && Extends(start.records, base.records)
    requires CausesStaged(base, facts) && Inserted(base, start, db, facts, n, intent)
    requires CommitsDense(start.paths, base.nextCommit)
    ensures InsertFacts(base, db, facts, n, intent).Ok? <==>
              forall i :: n <= i < |facts| ==> PlaceOf(base, facts, i) !in start.paths && ContentFits(start, facts, i)
    decreases |facts| - n
  {
    if n < |facts| {
      var r := InsertFactRow(db, facts[n].id, facts[n].row, PlaceOf(base, facts, n), PathRowOf(base, facts, n, intent));
      hide Core, Grows, CausesStaged, Inserted, CommitsDense, InsertFactRow, PlaceOf, PathRowOf, ContentFits, Extends;
      FactInserts(base, start, db, facts, n, intent);
      if r.Ok? {
        InsertFactKeeps(base, start, db, facts, n, intent, r.value);
        GrowsTransitive(start, db, r.value);
        FactsInsert(base, start, r.value, facts, n + 1, intent);
      }
    }
  }

  /** The facts' places are free unless one of them is on the witness path and a witness has moved its counter. */
  lemma PlacesFree(base: DB, start: DB, facts: seq<Fact>)
    requires DensePaths(start) && (forall o :: o != WITNESS_OWNER ==> Next(start, o) == Next(base, o))
    requires Next(base, WITNESS_OWNER) <= Next(start, WITNESS_OWNER)
    ensures (forall i :: 0 <= i < |facts| ==> PlaceOf(base, facts, i) !in start.paths) <==>
              ((exists f :: f in facts && f.owner == WITNESS_OWNER) ==>
                Next(start, WITNESS_OWNER) == Next(base, WITNESS_OWNER))
  {
    if forall i :: 0 <= i < |facts| ==> PlaceOf(base, facts, i) !in start.paths {
      if f :| f in facts && f.owner == WITNESS_OWNER {
        var j :| 0 <= j < |facts| && facts[j] == f;
        OwnersUnmoved(base, start, facts, j);
      }
    }
    if i :| 0 <= i < |facts| && PlaceOf(base, facts, i) in start.paths {
      assert facts[i] in facts;
      assert Next(base, facts[i].owner) <= PlaceOf(base, facts, i).1 < Next(start, facts[i].owner);
    }
  }

  lemma OwnerStaged(k: Kernel, db: DB, intent: Bytes, drafts: seq<RecordDraft>, owners: seq<Bytes>, st: Staging,
                    owner: Bytes) returns (j: nat)
    requires IsStaging(k, db, intent, drafts, owners, st) && owner in owners
    ensures j < |st.facts| && st.facts[j].owner == owner
  {
    StagedCauses(k, db, intent, drafts, owners, st);
    j :| 0 <= j < |owners| && owners[j] == owner;
  }

  lemma SameNext(a: DB, b: DB, o: Bytes)
    requires a.next == b.next
    ensures Next(a, o) == Next(b, o)
  {
  }
}
