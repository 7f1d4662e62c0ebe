/**
  * What every table operation keeps: dense paths, edges that are the causes, parents that come first, and the
  * growth order in which nothing retained is ever changed or lost.
  */
module Invariant {
  import opened Wrappers
  import opened Utf8
  import opened Trace
  import opened Tables
  import opened Append

  // ---- The invariant -------------------------------------------------------

  /** Every path is dense from 0 to its next ordinal. */
  ghost predicate DensePaths(db: DB) {
    forall p: Place :: p in db.paths <==> p.1 < Next(db, p.0)
  }

  ghost predicate OnPath(paths: map<Place, PathRow>, id: Bytes) {
    exists p :: p in paths && paths[p].recordID == id
  }

  /** Path entries name retained records, and every retained record is on a path. */
  ghost predicate RecordsOnPaths(paths: map<Place, PathRow>, records: map<Bytes, RecordRow>) {
    && (forall p :: p in paths ==> paths[p].recordID in records)
    && (forall id :: id in records ==> OnPath(paths, id))
  }

  ghost predicate UniqueReceipts(paths: map<Place, PathRow>) {
    forall p, q :: p in paths && q in paths && paths[p].receipt == paths[q].receipt ==> p == q
  }

  /** record_edges is exactly caused_by with its positions. */
  ghost predicate EdgesAreCauses(edges: map<Place, Bytes>, records: map<Bytes, RecordRow>) {
    && (forall e: Place :: e in edges <==> e.0 in records && e.1 < |records[e.0].causedBy|)
    && (forall e: Place :: e in edges ==> edges[e] == records[e.0].causedBy[e.1])
  }

  /** Every record was inserted once, after all its parents. */
  ghost predicate ParentsFirst(log: seq<Bytes>, records: map<Bytes, RecordRow>) {
    && Distinct(log)
    && (forall id :: id in log <==> id in records)
    && (forall j :: 0 <= j < |log| ==> forall p :: p in records[log[j]].causedBy ==> p in log[..j])
  }

  ghost predicate Core(db: DB) {
    && RecordsOnPaths(db.paths, db.records)
    && UniqueReceipts(db.paths)
    && EdgesAreCauses(db.edges, db.records)
    && ParentsFirst(db.log, db.records)
  }

  /** The contexts path entries cite are retained, each under its own id. */
  ghost predicate ContextsRetained(db: DB) {
    && (forall p :: p in db.paths && db.paths[p].contextRef != "" ==> db.paths[p].contextRef in db.contexts)
    && (forall c :: c in db.contexts ==> db.contexts[c].contextID == c)
  }

  lemma RetainedReads(db: DB, id: Bytes)
    requires RecordsOnPaths(db.paths, db.records) && id in db.records
    ensures ReadFact(db, id).Ok? && ReadFact(db, id).value.row == db.records[id]
  {
    assert OnPath(db.paths, id);
    var p :| p in db.paths && db.paths[p].recordID == id;
    assert p in PlacesOf(db, id);
  }

  // ---- Growth --------------------------------------------------------------

  /** m keeps every row of n. */
  ghost predicate Extends<K, V>(m: map<K, V>, n: map<K, V>) {
    forall key :: key in n ==> key in m && m[key] == n[key]
  }

  /** Nothing retained is ever changed or lost. */
  ghost predicate Grows(db: DB, db': DB) {
    && Extends(db'.intents, db.intents)
    && Extends(db'.contexts, db.contexts)
    && Extends(db'.records, db.records)
    && db.log <= db'.log
    && Extends(db'.edges, db.edges)
    && Extends(db'.paths, db.paths)
    && (forall o :: Next(db, o) <= Next(db', o))
    && db.nextCommit <= db'.nextCommit
    && Extends(db'.frontiers, db.frontiers)
  }

  lemma GrowsTransitive(a: DB, b: DB, c: DB)
    requires Grows(a, b) && Grows(b, c)
    ensures Grows(a, c)
  {
  }

  // ---- Record rows ---------------------------------------------------------

  lemma {:induction false} InsertEdgesAdds(db: DB, child: Bytes, parents: seq<Bytes>, position: nat, db': DB)
    requires InsertEdges(db, child, parents, position) == Ok(db')
    ensures db' == db.(edges := db'.edges)
    ensures forall p :: p in parents ==> p in db.records
    ensures forall e: Place :: e in db'.edges <==>
                        e in db.edges || (e.0 == child && position <= e.1 < position + |parents|)
    ensures forall e: Place :: e in db'.edges ==>
                        db'.edges[e] == if e.0 == child && position <= e.1 < position + |parents|
                                        then parents[e.1 - position] else db.edges[e]
    decreases |parents|
  {
    if parents != [] {
      var db1 := db.(edges := db.edges[(child, position) := parents[0]]);
      InsertEdgesAdds(db1, child, parents[1..], position + 1, db');
    }
  }

  /** What inserting a new record does to the record tables */
  lemma NewRecord(db: DB, id: Bytes, row: RecordRow, db': DB)
    requires EdgesAreCauses(db.edges, db.records) && ParentsFirst(db.log, db.records)
    requires id !in db.records && InsertRecordIfMissing(db, id, row) == Ok(db')
    requires forall p :: p in row.causedBy ==> p in db.records
    ensures EdgesAreCauses(db'.edges, db'.records) && ParentsFirst(db'.log, db'.records) && Extends(db'.edges, db.edges)
    ensures db' == db.(records := db.records[id := row], log := db.log + [id], edges := db'.edges)
  {
    var db1 := db.(records := db.records[id := row], log := db.log + [id]);
    InsertEdgesAdds(db1, id, row.causedBy, 0, db');
    forall j | 0 <= j < |db'.log|
      ensures forall p :: p in db'.records[db'.log[j]].causedBy ==> p in db'.log[..j]
    {
      if j < |db.log| {
        assert db'.log[j] == db.log[j] && db'.log[..j] == db.log[..j];
        assert db.log[j] in db.records;
      } else {
        assert db'.log[..j] == db.log;
      }
    }
    forall x ensures x in db'.log <==> x in db'.records {
      assert x in db'.log <==> x in db.log || x == id;
    }
  }

  lemma InsertRecordKeeps(db: DB, id: Bytes, row: RecordRow, db': DB)
    requires EdgesAreCauses(db.edges, db.records) && ParentsFirst(db.log, db.records)
    requires InsertRecordIfMissing(db, id, row) == Ok(db')
    requires id !in db.records ==> forall p :: p in row.causedBy ==> p in db.records
    ensures EdgesAreCauses(db'.edges, db'.records) && ParentsFirst(db'.log, db'.records) && Grows(db, db')
    ensures db'.records == if id in db.records then db.records else db.records[id := row]
    ensures db'.log == if id in db.records then db.log else db.log + [id]
    ensures SameContent(db'.records[id], row)
    ensures db' == db.(records := db'.records, log := db'.log, edges := db'.edges)
  {
    if id !in db.records {
      NewRecord(db, id, row, db');
    }
  }

  lemma InsertPathKeeps(db: DB, place: Place, row: PathRow, db': DB)
    requires (forall p :: p in db.paths ==> db.paths[p].recordID in db.records) && UniqueReceipts(db.paths)
    requires forall id :: id in db.records && id != row.recordID ==> OnPath(db.paths, id)
    requires InsertPath(db, place, row) == Ok(db')
    ensures RecordsOnPaths(db'.paths, db'.records) && UniqueReceipts(db'.paths)
    ensures place !in db.paths && !ReceiptUsed(db, row.receipt) && db' == db.(paths := db.paths[place := row])
    ensures Grows(db, db')
  {
    forall id | id in db'.records ensures OnPath(db'.paths, id) {
      if id == row.recordID {
        assert place in db'.paths && db'.paths[place].recordID == id;
      } else {
        var p :| p in db.paths && db.paths[p].recordID == id;
        assert p in db'.paths && db'.paths[p].recordID == id;
      }
    }
  }

  /** insertFactRowTx keeps the core invariant and adds exactly one path entry. */
  lemma InsertFactRowKeeps(db: DB, id: Bytes, row: RecordRow, place: Place, path: PathRow, db': DB)
    requires Core(db) && path.recordID == id
    requires InsertFactRow(db, id, row, place, path) == Ok(db')
    requires id !in db.records ==> forall p :: p in row.causedBy ==> p in db.records
    ensures Core(db') && Grows(db, db')
    ensures place !in db.paths && !ReceiptUsed(db, path.receipt)
    ensures db'.paths == db.paths[place := path]
    ensures db'.records == if id in db.records then db.records else db.records[id := row]
    ensures db'.log == if id in db.records then db.log else db.log + [id]
    ensures SameContent(db'.records[id], row)
    ensures db' == db.(records := db'.records, log := db'.log, edges := db'.edges, paths := db'.paths)
  {
    var db1 := InsertRecordIfMissing(db, id, row).value;
    InsertRecordKeeps(db, id, row, db1);
    InsertPathKeeps(db1, place, path, db');
    GrowsTransitive(db, db1, db');
  }

  // ---- Contexts ------------------------------------------------------------

  lemma {:induction false} InsertContextsKeeps(db: DB, contexts: seq<RetainedContext>, db': DB)
    requires InsertContexts(db, contexts) == Ok(db')
    ensures db' == db.(contexts := db'.contexts) && Extends(db'.contexts, db.contexts)
    ensures forall c :: c in contexts ==> c.contextID in db'.contexts && db'.contexts[c.contextID] == c
    ensures forall x :: x in db'.contexts ==>
                        x in db.contexts || (db'.contexts[x] in contexts && db'.contexts[x].contextID == x)
    decreases |contexts|
  {
    if contexts != [] {
      var c := contexts[0];
      var db1 := db.(contexts := db.contexts[c.contextID := c]);
      InsertContextsKeeps(db1, contexts[1..], db');
      assert forall x :: x in contexts <==> x == c || x in contexts[1..];
    }
  }

  // ---- Witness rows --------------------------------------------------------

  /** Taking an owner's next place and moving the counter past it keeps the paths dense. */
  lemma TakeNext(db: DB, owner: Bytes, path: PathRow, db1: DB, db': DB)
    requires DensePaths(db) && db1.next == db.next
    requires db1.paths == db.paths[(owner, Next(db, owner)) := path]
    requires db' == db1.(next := db1.next[owner := Next(db, owner) + 1])
    ensures DensePaths(db')
    ensures forall o :: Next(db', o) == Next(db, o) + if o == owner then 1 else 0
    ensures Grows(db1, db')
  {
  }

  lemma InsertWitnessStep(db: DB, plan: WitnessPlan, intent: Bytes, db': DB) returns (db1: DB)
    requires InsertWitness(db, plan, intent) == Ok(db') && plan.recordID !in db.records
    ensures InsertFactRow(db, plan.recordID, WitnessRow(plan, intent), (WITNESS_OWNER, Next(db, WITNESS_OWNER)),
                          WitnessEntry(plan, intent)) == Ok(db1)
    ensures db' == db1.(next := db1.next[WITNESS_OWNER := Next(db, WITNESS_OWNER) + 1])
  {
    db1 := InsertFactRow(db, plan.recordID, WitnessRow(plan, intent), (WITNESS_OWNER, Next(db, WITNESS_OWNER)),
                         WitnessEntry(plan, intent)).value;
  }

  /** What inserting a new witness does to the tables */
  lemma NewWitness(db: DB, plan: WitnessPlan, intent: Bytes, db': DB) returns (db1: DB)
    requires Core(db) && InsertWitness(db, plan, intent) == Ok(db') && plan.recordID !in db.records
    ensures Core(db1) && Grows(db, db1) && db1.next == db.next && db1.nextCommit == db.nextCommit
    ensures db1.paths == db.paths[(WITNESS_OWNER, Next(db, WITNESS_OWNER)) := WitnessEntry(plan, intent)]
    ensures (WITNESS_OWNER, Next(db, WITNESS_OWNER)) !in db.paths
    ensures db1.records == db.records[plan.recordID := WitnessRow(plan, intent)]
    ensures db1.log == db.log + [plan.recordID]
    ensures db1 == db.(records := db1.records, log := db1.log, edges := db1.edges, paths := db1.paths)
    ensures db' == db1.(next := db1.next[WITNESS_OWNER := Next(db, WITNESS_OWNER) + 1])
  {
    db1 := InsertWitnessStep(db, plan, intent, db');
    InsertFactRowKeeps(db, plan.recordID, WitnessRow(plan, intent), (WITNESS_OWNER, Next(db, WITNESS_OWNER)),
                       WitnessEntry(plan, intent), db1);
  }

  lemma NewWitnessKeeps(db: DB, plan: WitnessPlan, intent: Bytes, db': DB)
    requires Core(db) && DensePaths(db) && InsertWitness(db, plan, intent) == Ok(db') && plan.recordID !in db.records
    ensures Core(db') && DensePaths(db') && Grows(db, db')
    ensures plan.recordID in db'.records && WitnessMatches(db'.records[plan.recordID], plan)
    ensures db' == db.(records := db'.records, log := db'.log, edges := db'.edges, paths := db'.paths,
                       next := db'.next)
    ensures forall o :: o != WITNESS_OWNER ==> Next(db', o) == Next(db, o)
  {
    hide *;
    var db1 := NewWitness(db, plan, intent, db');
    WitnessRowMatches(plan, intent);
    CounterKeepsCore(db1, db1.next[WITNESS_OWNER := Next(db, WITNESS_OWNER) + 1]);
    TakeNext(db, WITNESS_OWNER, WitnessEntry(plan, intent), db1, db');
    GrowsTransitive(db, db1, db');
  }

  lemma WitnessReused(db: DB, plan: WitnessPlan, intent: Bytes, db': DB)
    requires InsertWitness(db, plan, intent) == Ok(db') && plan.recordID in db.records
    ensures db' == db && WitnessMatches(db.records[plan.recordID], plan) && Grows(db, db)
  {
  }

  lemma InsertWitnessKeeps(db: DB, plan: WitnessPlan, intent: Bytes, db': DB)
    requires Core(db) && DensePaths(db) && InsertWitness(db, plan, intent) == Ok(db')
    ensures Core(db') && DensePaths(db') && Grows(db, db')
    ensures plan.recordID in db'.records && WitnessMatches(db'.records[plan.recordID], plan)
    ensures db' == db.(records := db'.records, log := db'.log, edges := db'.edges, paths := db'.paths,
                       next := db'.next)
    ensures forall o :: o != WITNESS_OWNER ==> Next(db', o) == Next(db, o)
  {
    hide *;
    if plan.recordID in db.records {
      WitnessReused(db, plan, intent, db');
    } else {
      NewWitnessKeeps(db, plan, intent, db');
    }
  }

  lemma WitnessRowMatches(plan: WitnessPlan, intent: Bytes)
    ensures WitnessMatches(WitnessRow(plan, intent), plan)
  {
  }

  lemma CounterKeepsCore(db: DB, next: map<Bytes, nat>)
    requires Core(db)
    ensures Core(db.(next := next))
  {
  }

  lemma {:induction false} InsertWitnessesKeeps(db: DB, plans: seq<WitnessPlan>, intent: Bytes, db': DB)
    requires Core(db) && DensePaths(db) && InsertWitnesses(db, plans, intent) == Ok(db')
    ensures Core(db') && DensePaths(db') && Grows(db, db')
    ensures forall p :: p in plans ==> p.recordID in db'.records && WitnessMatches(db'.records[p.recordID], p)
    ensures db' == db.(records := db'.records, log := db'.log, edges := db'.edges, paths := db'.paths,
                       next := db'.next)
    ensures forall o :: o != WITNESS_OWNER ==> Next(db', o) == Next(db, o)
    decreases |plans|
  {
    if plans != [] {
      var db1 := InsertWitness(db, plans[0], intent).value;
      InsertWitnessKeeps(db, plans[0], intent, db1);
      InsertWitnessesKeeps(db1, plans[1..], intent, db');
      GrowsTransitive(db, db1, db');
      assert forall p :: p in plans <==> p == plans[0] || p in plans[1..];
    }
  }

  // ---- Fact rows -----------------------------------------------------------

  /** The parents of the n-th fact are retained in base or staged before it. */
  ghost predicate CausesStaged(base: DB, facts: seq<Fact>) {
    forall n :: 0 <= n < |facts| ==> ParentsKnown(base, facts[..n], facts[n].row.causedBy)
  }

  /** The path entries after the first n facts */
  function PathsAfter(base: DB, start: DB, facts: seq<Fact>, n: nat, intent: Bytes): map<Place, PathRow>
    requires n <= |facts|
  {
    if n == 0 then start.paths
    else PathsAfter(base, start, facts, n - 1, intent)[PlaceOf(base, facts, n - 1) := PathRowOf(base, facts, n - 1, intent)]
  }

  /** The records after the first n facts: an id that is retained already is not inserted again */
  function RecordsAfter(start: DB, facts: seq<Fact>, n: nat): map<Bytes, RecordRow>
    requires n <= |facts|
  {
    if n == 0 then start.records else
      var before := RecordsAfter(start, facts, n - 1);
      if facts[n - 1].id in before then before else before[facts[n - 1].id := facts[n - 1].row]
  }

  /** The first n facts have been inserted into db, starting from start; base numbered them. */
  ghost predicate Inserted(base: DB, start: DB, db: DB, facts: seq<Fact>, n: nat, intent: Bytes)
    requires n <= |facts|
  {
    && db.paths == PathsAfter(base, start, facts, n, intent)
    && db.records == RecordsAfter(start, facts, n)
    && db == start.(records := db.records, log := db.log, edges := db.edges, paths := db.paths)
    && (forall i :: 0 <= i < n ==> PlaceOf(base, facts, i) !in start.paths)
    && (forall i :: 0 <= i < n ==> facts[i].id in db.records && SameContent(db.records[facts[i].id], facts[i].row))
  }

  /** By the time a fact goes in, all its parents are retained. */
  lemma FactParents(base: DB, start: DB, db: DB, facts: seq<Fact>, n: nat, intent: Bytes)
    requires n < |facts| && Grows(start, db) && Extends(start.records, base.records)
    requires CausesStaged(base, facts) && Inserted(base, start, db, facts, n, intent)
    ensures forall p :: p in facts[n].row.causedBy ==> p in db.records
  {
    assert ParentsKnown(base, facts[..n], facts[n].row.causedBy);
    forall p | p in facts[n].row.causedBy ensures p in db.records {
      if IsStaged(facts[..n], p) {
        var i :| 0 <= i < n && facts[..n][i].id == p;
        assert facts[i].id in db.records;
      }
    }
  }

  lemma InsertFactKeeps(base: DB, start: DB, db: DB, facts: seq<Fact>, n: nat, intent: Bytes, db': DB)
    requires n < |facts| && Core(db) && Grows(start, db) && Extends(start.records, base.records)
    requires CausesStaged(base, facts)
    requires Inserted(base, start, db, facts, n, intent)
    requires InsertFactRow(db, facts[n].id, facts[n].row, PlaceOf(base, facts, n),
                           PathRowOf(base, facts, n, intent)) == Ok(db')
    ensures Core(db') && Grows(db, db') && Inserted(base, start, db', facts, n + 1, intent)
  {
    PathNamesFact(base, facts, n, intent);
    hide *;
    FactParents(base, start, db, facts, n, intent);
    InsertFactRowKeeps(db, facts[n].id, facts[n].row, PlaceOf(base, facts, n), PathRowOf(base, facts, n, intent), db');
    PlaceStillFree(start, db, PlaceOf(base, facts, n));
    InsertedNext(base, start, db, facts, n, intent, db');
  }

  lemma InsertedNext(base: DB, start: DB, db: DB, facts: seq<Fact>, n: nat, intent: Bytes, db': DB)
    requires n < |facts| && Inserted(base, start, db, facts, n, intent)
    requires PlaceOf(base, facts, n) !in start.paths
    requires db'.paths == db.paths[PlaceOf(base, facts, n) := PathRowOf(base, facts, n, intent)]
    requires var id := facts[n].id;
             && db'.records == (if id in db.records then db.records else db.records[id := facts[n].row])
             && SameContent(db'.records[id], facts[n].row)
    requires db' == db.(records := db'.records, log := db'.log, edges := db'.edges, paths := db'.paths)
    ensures Inserted(base, start, db', facts, n + 1, intent)
  {
    hide PlaceOf, PathRowOf, SameContent;
  }

  lemma PathNamesFact(base: DB, facts: seq<Fact>, n: nat, intent: Bytes)
    requires n < |facts|
    ensures PathRowOf(base, facts, n, intent).recordID == facts[n].id
  {
  }

  lemma PlaceStillFree(start: DB, db: DB, place: Place)
    requires Grows(start, db) && place !in db.paths
    ensures place !in start.paths
  {
  }

  lemma InsertFactsStep(base: DB, db: DB, facts: seq<Fact>, n: nat, intent: Bytes, db': DB) returns (db1: DB)
    requires n < |facts| && InsertFacts(base, db, facts, n, intent) == Ok(db')
    ensures InsertFactRow(db, facts[n].id, facts[n].row, PlaceOf(base, facts, n), PathRowOf(base, facts, n, intent)) == Ok(db1)
    ensures InsertFacts(base, db1, facts, n + 1, intent) == Ok(db')
  {
    db1 := InsertFactRow(db, facts[n].id, facts[n].row, PlaceOf(base, facts, n),
                         PathRowOf(base, facts, n, intent)).value;
  }

  lemma {:induction false} InsertFactsKeeps(base: DB, start: DB, db: DB, facts: seq<Fact>, n: nat, intent: Bytes,
                                            db': DB)
    requires n <= |facts| && Core(db) && Grows(start, db) && Extends(start.records, base.records)
    requires CausesStaged(base, facts)
    requires Inserted(base, start, db, facts, n, intent)
    requires InsertFacts(base, db, facts, n, intent) == Ok(db')
    ensures Core(db') && Grows(start, db') && Inserted(base, start, db', facts, |facts|, intent)
    decreases |facts| - n
  {
    if n < |facts| {
      hide *;
      var db1 := InsertFactsStep(base, db, facts, n, intent, db');
      InsertFactKeeps(base, start, db, facts, n, intent, db1);
      GrowsTransitive(start, db, db1);
      InsertFactsKeeps(base, start, db1, facts, n + 1, intent, db');
    }
  }

  lemma {:induction false} RecordsAfterAre(start: DB, facts: seq<Fact>, n: nat)
    requires n <= |facts|
    ensures var r := RecordsAfter(start, facts, n);
            && Extends(r, start.records)
            && (forall id :: id in r && id !in start.records ==>
                  exists i :: 0 <= i < n && facts[i].id == id && r[id] == facts[i].row)
  {
    if n > 0 {
      RecordsAfterAre(start, facts, n - 1);
      var before, r := RecordsAfter(start, facts, n - 1), RecordsAfter(start, facts, n);
      forall id | id in r && id !in start.records
        ensures exists i :: 0 <= i < n && facts[i].id == id && r[id] == facts[i].row
      {
        if id in before {
          var i :| 0 <= i < n - 1 && facts[i].id == id && before[id] == facts[i].row;
          assert facts[i].id == id && r[id] == facts[i].row;
        } else {
          assert facts[n - 1].id == id && r[id] == facts[n - 1].row;
        }
      }
    }
  }

  // ---- Numbering -----------------------------------------------------------

  lemma {:induction false} CountPrefix(facts: seq<Fact>, n: nat, owner: Bytes)
    requires n < |facts|
    ensures CountOwner(facts[..n + 1], owner) == CountOwner(facts[..n], owner) + if facts[n].owner == owner then 1 else 0
  {
    assert facts[..n + 1][..n] == facts[..n];
  }

  lemma {:induction false} CountMonotone(facts: seq<Fact>, m: nat, n: nat, owner: Bytes)
    requires m <= n <= |facts|
    ensures CountOwner(facts[..m], owner) <= CountOwner(facts[..n], owner)
    decreases n - m
  {
    if m < n {
      CountPrefix(facts, m, owner);
      CountMonotone(facts, m + 1, n, owner);
    }
  }

  /** Each rank below the count is the rank of exactly one fact of the owner. */
  lemma {:induction false} RankHit(facts: seq<Fact>, n: nat, owner: Bytes, rank: nat) returns (i: nat)
    requires n <= |facts| && rank < CountOwner(facts[..n], owner)
    ensures i < n && facts[i].owner == owner && CountOwner(facts[..i], owner) == rank
    decreases n
  {
    CountPrefix(facts, n - 1, owner);
    if rank < CountOwner(facts[..n - 1], owner) {
      i := RankHit(facts, n - 1, owner, rank);
    } else {
      i := n - 1;
    }
  }

  /** Later facts of an owner get higher ordinals. */
  lemma PlacesRise(base: DB, facts: seq<Fact>, i: nat, j: nat)
    requires i < j < |facts| && facts[i].owner == facts[j].owner
    ensures PlaceOf(base, facts, i).1 < PlaceOf(base, facts, j).1
  {
    CountPrefix(facts, i, facts[i].owner);
    CountMonotone(facts, i + 1, j, facts[i].owner);
  }

  lemma PlacesDistinct(base: DB, facts: seq<Fact>, i: nat, j: nat)
    requires i < |facts| && j < |facts| && PlaceOf(base, facts, i) == PlaceOf(base, facts, j)
    ensures i == j
  {
    if i < j { PlacesRise(base, facts, i, j); }
    if j < i { PlacesRise(base, facts, j, i); }
  }

  lemma {:induction false} PathsAfterAre(base: DB, start: DB, facts: seq<Fact>, n: nat, intent: Bytes)
    requires n <= |facts|
    ensures var m := PathsAfter(base, start, facts, n, intent);
            && (forall p :: p in start.paths ==> p in m)
            && (forall p :: p in m && p !in start.paths ==> exists i :: 0 <= i < n && p == PlaceOf(base, facts, i))
            && (forall i :: 0 <= i < n ==>
                  PlaceOf(base, facts, i) in m && m[PlaceOf(base, facts, i)] == PathRowOf(base, facts, i, intent))
  {
    if n > 0 {
      PathsAfterAre(base, start, facts, n - 1, intent);
      var before := PathsAfter(base, start, facts, n - 1, intent);
      var m := PathsAfter(base, start, facts, n, intent);
      var last := PlaceOf(base, facts, n - 1);
      forall i | 0 <= i < n
        ensures PlaceOf(base, facts, i) in m && m[PlaceOf(base, facts, i)] == PathRowOf(base, facts, i, intent)
      {
        if PlaceOf(base, facts, i) == last { PlacesDistinct(base, facts, i, n - 1); }
      }
      forall p | p in m && p !in start.paths ensures exists i :: 0 <= i < n && p == PlaceOf(base, facts, i) {
        if p != last {
          var i :| 0 <= i < n - 1 && p == PlaceOf(base, facts, i);
          assert 0 <= i < n && p == PlaceOf(base, facts, i);
        }
      }
    }
  }

  lemma RankBound(facts: seq<Fact>, i: nat)
    requires i < |facts|
    ensures CountOwner(facts[..i], facts[i].owner) < CountOwner(facts, facts[i].owner)
  {
    CountPrefix(facts, i, facts[i].owner);
    CountMonotone(facts, i + 1, |facts|, facts[i].owner);
    assert facts[..|facts|] == facts;
  }

  lemma {:induction false} CountZero(facts: seq<Fact>, owner: Bytes)
    requires forall f :: f in facts ==> f.owner != owner
    ensures CountOwner(facts, owner) == 0
  {
    if facts != [] {
      CountZero(facts[..|facts| - 1], owner);
    }
  }

  /** The place of an owner's fact of a given rank */
  lemma RankPlace(base: DB, facts: seq<Fact>, owner: Bytes, rank: nat) returns (i: nat)
    requires rank < CountOwner(facts, owner)
    ensures i < |facts| && facts[i].owner == owner && PlaceOf(base, facts, i) == (owner, Next(base, owner) + rank)
  {
    assert facts[..|facts|] == facts;
    i := RankHit(facts, |facts|, owner, rank);
  }

  /** Facts can only be inserted when their owners' next ordinals have not moved since they were numbered. */
  lemma OwnersUnmoved(base: DB, start: DB, facts: seq<Fact>, j: nat)
    requires DensePaths(start) && (forall o :: Next(base, o) <= Next(start, o))
    requires forall i :: 0 <= i < |facts| ==> PlaceOf(base, facts, i) !in start.paths
    requires j < |facts|
    ensures Next(start, facts[j].owner) == Next(base, facts[j].owner)
  {
    RankBound(facts, j);
    var i := RankPlace(base, facts, facts[j].owner, 0);
    assert PlaceOf(base, facts, i) !in start.paths;
  }

  lemma CountedOwner(base: DB, start: DB, facts: seq<Fact>, o: Bytes)
    requires DensePaths(start) && (forall o :: Next(base, o) <= Next(start, o))
    requires forall i :: 0 <= i < |facts| ==> PlaceOf(base, facts, i) !in start.paths
    ensures CountOwner(facts, o) > 0 ==> Next(base, o) == Next(start, o)
  {
    if CountOwner(facts, o) > 0 {
      var i := RankPlace(base, facts, o, 0);
      OwnersUnmoved(base, start, facts, i);
    }
  }

  lemma AdvanceMoves(base: DB, start: DB, db: DB, facts: seq<Fact>, o: Bytes)
    requires CountOwner(facts, o) > 0 ==> Next(base, o) == Next(start, o)
    requires db.next == start.next
    ensures Next(Advance(base, db, facts), o) == Next(start, o) + CountOwner(facts, o)
  {
    if j :| 0 <= j < |facts| && facts[j].owner == o {
      RankBound(facts, j);
      assert facts[j] in facts;
    } else {
      CountZero(facts, o);
    }
  }

  lemma FreePlaceIsFilled(base: DB, start: DB, facts: seq<Fact>, intent: Bytes, o: Bytes, n: nat)
    requires DensePaths(start) && (forall o :: Next(base, o) <= Next(start, o))
    requires forall i :: 0 <= i < |facts| ==> PlaceOf(base, facts, i) !in start.paths
    requires Next(start, o) <= n < Next(start, o) + CountOwner(facts, o)
    ensures (o, n) in PathsAfter(base, start, facts, |facts|, intent)
  {
    PathsAfterAre(base, start, facts, |facts|, intent);
    CountedOwner(base, start, facts, o);
    var i := RankPlace(base, facts, o, n - Next(start, o));
    assert PlaceOf(base, facts, i).0 == o;
    assert PlaceOf(base, facts, i).1 == n;
    assert PlaceOf(base, facts, i) == (o, n);
  }

  lemma FilledPlaceIsBelow(base: DB, start: DB, facts: seq<Fact>, intent: Bytes, p: Place)
    requires DensePaths(start) && (forall o :: Next(base, o) <= Next(start, o))
    requires forall i :: 0 <= i < |facts| ==> PlaceOf(base, facts, i) !in start.paths
    requires p in PathsAfter(base, start, facts, |facts|, intent) && p !in start.paths
    ensures p.1 < Next(start, p.0) + CountOwner(facts, p.0)
  {
    PathsAfterAre(base, start, facts, |facts|, intent);
    CountedOwner(base, start, facts, p.0);
    var i :| 0 <= i < |facts| && p == PlaceOf(base, facts, i);
    RankBound(facts, i);
  }

  /** A place below the advanced counter is taken by an earlier entry or by a fact of the batch. */
  lemma AdvancedPlace(base: DB, start: DB, db: DB, facts: seq<Fact>, intent: Bytes, p: Place)
    requires DensePaths(start) && (forall o :: Next(base, o) <= Next(start, o))
    requires Inserted(base, start, db, facts, |facts|, intent)
    ensures p in db.paths <==> p.1 < Next(start, p.0) + CountOwner(facts, p.0)
  {
    if p in start.paths {
      PathsAfterAre(base, start, facts, |facts|, intent);
    } else if p in db.paths {
      FilledPlaceIsBelow(base, start, facts, intent, p);
    } else if p.1 < Next(start, p.0) + CountOwner(facts, p.0) {
      FreePlaceIsFilled(base, start, facts, intent, p.0, p.1);
    }
  }

  /** After the facts are in, advancing the counters makes the paths dense again. */
  lemma AdvanceIsDense(base: DB, start: DB, db: DB, facts: seq<Fact>, intent: Bytes)
    requires DensePaths(start) && (forall o :: Next(base, o) <= Next(start, o))
    requires Inserted(base, start, db, facts, |facts|, intent)
    ensures DensePaths(Advance(base, db, facts))
    ensures forall o :: Next(Advance(base, db, facts), o) == Next(start, o) + CountOwner(facts, o)
  {
    var db' := Advance(base, db, facts);
    forall o ensures Next(db', o) == Next(start, o) + CountOwner(facts, o) {
      CountedOwner(base, start, facts, o);
      AdvanceMoves(base, start, db, facts, o);
    }
    forall p: Place ensures p in db'.paths <==> p.1 < Next(db', p.0) {
      AdvancedPlace(base, start, db, facts, intent, p);
    }
  }
}
