/**
  * Every non-root record's witness is retained before it and cites the root, and every path entry has an owner
  * and names a record. Both are kept by every commit.
  */
module WitnessLaws {
  import opened Wrappers
  import opened Utf8
  import opened Trace
  import opened Digests
  import opened Tables
  import opened Append
  import opened Invariant
  import opened StagingLaws
  import opened StoreInvariant
  import opened Commits

  predicate IsRootRow(row: RecordRow) {
    row.schemaRef == ROOT_WITNESS_SCHEMA && row.mode == CAPTURE && row.witnessRef == "" && row.causedBy == []
  }

  /** An ordinary witness: it cites the root. */
  predicate IsWitnessRow(k: Kernel, row: RecordRow) {
    row.schemaRef == WITNESS_SCHEMA && row.mode == CAPTURE && row.witnessRef == RootWitnessID(k)
  }

  /** A non-root record: an ordinary witness, or a fact citing an ordinary witness. */
  ghost predicate CitesWitness(k: Kernel, records: map<Bytes, RecordRow>, row: RecordRow) {
    && row.schemaRef != ROOT_WITNESS_SCHEMA && row.witnessRef != ""
    && RootWitnessID(k) in records
    && row.witnessRef in records
    && (IsWitnessRow(k, row) || IsWitnessRow(k, records[row.witnessRef]))
  }

  ghost predicate Witnessed(k: Kernel, log: seq<Bytes>, records: map<Bytes, RecordRow>) {
    && (RootWitnessID(k) in records ==> IsRootRow(records[RootWitnessID(k)]))
    && (forall id :: id in records && id != RootWitnessID(k) ==> CitesWitness(k, records, records[id]))
    && (forall j :: 0 <= j < |log| && log[j] in records && log[j] != RootWitnessID(k) ==>
          records[log[j]].witnessRef in log[..j])
  }

  lemma WitnessedSnoc(k: Kernel, log: seq<Bytes>, records: map<Bytes, RecordRow>, id: Bytes, row: RecordRow)
    requires Witnessed(k, log, records) && id !in records && forall x :: x in log <==> x in records
    requires if id == RootWitnessID(k) then IsRootRow(row) else CitesWitness(k, records, row)
    ensures Witnessed(k, log + [id], records[id := row])
  {
    var log', records' := log + [id], records[id := row];
    forall j | 0 <= j < |log'| && log'[j] in records' && log'[j] != RootWitnessID(k)
      ensures records'[log'[j]].witnessRef in log'[..j]
    {
      if j < |log| {
        assert log[j] in records && log'[..j] == log[..j];
      } else {
        assert log'[..j] == log;
      }
    }
    forall x | x in records' && x != RootWitnessID(k) ensures CitesWitness(k, records', records'[x]) {
      if x != id { assert CitesWitness(k, records, records[x]); }
    }
  }

  lemma RecordKeepsWitnessed(k: Kernel, db: DB, id: Bytes, row: RecordRow, db': DB)
    requires Witnessed(k, db.log, db.records) && ParentsFirst(db.log, db.records)
    requires db'.records == if id in db.records then db.records else db.records[id := row]
    requires db'.log == if id in db.records then db.log else db.log + [id]
    requires id !in db.records ==> if id == RootWitnessID(k) then IsRootRow(row) else CitesWitness(k, db.records, row)
    ensures Witnessed(k, db'.log, db'.records)
  {
    if id !in db.records {
      WitnessedSnoc(k, db.log, db.records, id, row);
    }
  }

  lemma InsertWitnessWitnessed(k: Kernel, db: DB, plan: WitnessPlan, intent: Bytes, db': DB)
    requires Core(db) && Witnessed(k, db.log, db.records) && InsertWitness(db, plan, intent) == Ok(db')
    requires plan == RootWitnessPlan(k) || (IsOrdinary(k, plan) && RootWitnessID(k) in db.records)
    ensures Witnessed(k, db'.log, db'.records)
  {
    RootWitnessExists(k);
    if plan.recordID !in db.records {
      var db1 := NewWitness(db, plan, intent, db');
      RecordKeepsWitnessed(k, db, plan.recordID, WitnessRow(plan, intent), db1);
    }
  }

  lemma {:induction false} InsertWitnessesWitnessed(k: Kernel, db: DB, plans: seq<WitnessPlan>, intent: Bytes, db': DB)
    requires Core(db) && DensePaths(db) && Witnessed(k, db.log, db.records)
    requires InsertWitnesses(db, plans, intent) == Ok(db')
    requires forall p :: p in plans ==> p == RootWitnessPlan(k) || IsOrdinary(k, p)
    requires plans != [] ==> plans[0] == RootWitnessPlan(k) || RootWitnessID(k) in db.records
    ensures Witnessed(k, db'.log, db'.records)
    decreases |plans|
  {
    if plans != [] {
      var db1 := InsertWitness(db, plans[0], intent).value;
      InsertWitnessKeeps(db, plans[0], intent, db1);
      InsertWitnessWitnessed(k, db, plans[0], intent, db1);
      InsertWitnessesWitnessed(k, db1, plans[1..], intent, db');
    }
  }

  lemma CitesLater(k: Kernel, records: map<Bytes, RecordRow>, records': map<Bytes, RecordRow>, row: RecordRow)
    requires CitesWitness(k, records, row) && Extends(records', records)
    ensures CitesWitness(k, records', row)
  {
  }

  lemma GrowsRecords(db: DB, db': DB)
    requires Grows(db, db')
    ensures Extends(db'.records, db.records)
  {
  }

  /** Inserting one fact that cites a retained witness */
  lemma InsertFactWitnessed(k: Kernel, db: DB, id: Bytes, row: RecordRow, place: Place, path: PathRow, db': DB)
    requires Core(db) && Witnessed(k, db.log, db.records) && path.recordID == id
    requires InsertFactRow(db, id, row, place, path) == Ok(db')
    requires id !in db.records ==> forall p :: p in row.causedBy ==> p in db.records
    requires RootWitnessID(k) in db.records && CitesWitness(k, db.records, row)
    ensures Witnessed(k, db'.log, db'.records)
  {
    InsertFactRowKeeps(db, id, row, place, path, db');
    RecordKeepsWitnessed(k, db, id, row, db');
  }

  lemma {:induction false} InsertFactsWitnessed(k: Kernel, base: DB, start: DB, db: DB, facts: seq<Fact>, n: nat,
                                                intent: Bytes, db': DB)
    requires n <= |facts| && Core(db) && Grows(start, db) && Extends(start.records, base.records)
    requires CausesStaged(base, facts) && Inserted(base, start, db, facts, n, intent)
    requires Witnessed(k, db.log, db.records) && RootWitnessID(k) in start.records
    requires forall f :: f in facts ==> CitesWitness(k, start.records, f.row)
    requires InsertFacts(base, db, facts, n, intent) == Ok(db')
    ensures Witnessed(k, db'.log, db'.records)
    decreases |facts| - n
  {
    if n < |facts| {
      hide *;
      var f, place, path := facts[n], PlaceOf(base, facts, n), PathRowOf(base, facts, n, intent);
      var db1 := InsertFactsStep(base, db, facts, n, intent, db');
      GrowsRecords(start, db);
      CitesLater(k, start.records, db.records, f.row);
      FactParents(base, start, db, facts, n, intent);
      InsertFactWitnessed(k, db, f.id, f.row, place, path, db1);
      InsertFactKeeps(base, start, db, facts, n, intent, db1);
      GrowsTransitive(start, db, db1);
      InsertFactsWitnessed(k, base, start, db1, facts, n + 1, intent, db');
    }
  }

  /** Staged facts cite witnesses that are retained by the time the facts go in. */
  lemma FactsCite(k: Kernel, start: DB, st: Staging)
    requires FactsWitnessed(k, st) && PlansStaged(k, st.plans)
    requires forall p :: p in st.plans ==> p.recordID in start.records && WitnessMatches(start.records[p.recordID], p)
    ensures forall f :: f in st.facts ==> CitesWitness(k, start.records, f.row)
  {
    forall f | f in st.facts ensures CitesWitness(k, start.records, f.row) {
      var p :| p in st.plans && p.recordID == f.row.witnessRef && IsOrdinary(k, p);
      assert st.plans[0] in st.plans;
    }
  }

  lemma StartWitnessed(k: Kernel, base: DB, intent: Bytes, row: IntentRow, st: Staging, db1: DB, start: DB)
    requires IsStart(base, base) && Witnessed(k, base.log, base.records) && PlansStaged(k, st.plans)
    requires Extends(base.intents[intent := row], base.intents)
    requires InsertContexts(base.(intents := base.intents[intent := row]), st.contexts) == Ok(db1)
    requires InsertWitnesses(db1, st.plans, intent) == Ok(start)
    ensures Witnessed(k, start.log, start.records)
  {
    ContextsStart(base, base.(intents := base.intents[intent := row]), st.contexts, db1);
    InsertWitnessesWitnessed(k, db1, st.plans, intent, start);
  }

  /** A commit keeps every record witnessed. */
  lemma CommitWitnessed(k: Kernel, base: DB, op: OperationContext, batch: AppendBatch, row: IntentRow, st: Staging,
                        db': DB)
    requires StoreInv(k, base) && batch.intent !in base.intents
    requires RootIsDistinct(k) && Witnessed(k, base.log, base.records)
    requires Stage(k, base, op, batch) == Ok(st) && InsertAll(base, batch.intent, row, st) == Ok(db')
    ensures Witnessed(k, db'.log, db'.records)
  {
    hide *;
    var db1, start, db3 := InsertAllSteps(base, batch.intent, row, st, db');
    ContextIds(k, base);
    StageEstablishes(k, base, op, batch, st);
    StagedCauses(k, base, batch.intent, AllDrafts(batch.groups), AllOwners(batch.groups), st);
    IntentAdded(base, batch.intent, row);
    StartsAtBase(k, base);
    PrepareStart(base, batch.intent, row, st.contexts, st.plans, db1, start);
    StartWitnessed(k, base, batch.intent, row, st, db1, start);
    FactsCite(k, start, st);
    FactsInWitnessed(k, base, start, st, batch.intent, db3);
    AdvanceKeepsRecords(base, db3, st.facts);
  }

  lemma AdvanceKeepsRecords(base: DB, db: DB, facts: seq<Fact>)
    ensures Advance(base, db, facts).log == db.log && Advance(base, db, facts).records == db.records
    ensures Advance(base, db, facts).paths == db.paths
  {
  }

  lemma RootStart(k: Kernel, base: DB, start: DB, st: Staging)
    requires IsStart(base, start)
    requires forall f :: f in st.facts ==> CitesWitness(k, start.records, f.row)
    ensures Core(start) && Grows(start, start) && Extends(start.records, base.records)
    ensures st.facts != [] ==> RootWitnessID(k) in start.records
  {
    if st.facts != [] { assert CitesWitness(k, start.records, st.facts[0].row); }
  }

  lemma FactsInWitnessed(k: Kernel, base: DB, start: DB, st: Staging, intent: Bytes, db3: DB)
    requires IsStart(base, start) && CausesStaged(base, st.facts) && Witnessed(k, start.log, start.records)
    requires forall f :: f in st.facts ==> CitesWitness(k, start.records, f.row)
    requires InsertFacts(base, start, st.facts, 0, intent) == Ok(db3)
    ensures Witnessed(k, db3.log, db3.records)
  {
    RootStart(k, base, start, st);
    if st.facts != [] {
      hide *;
      NothingInserted(base, start, st.facts, intent);
      InsertFactsWitnessed(k, base, start, start, st.facts, 0, intent, db3);
    }
  }

  // ---- Named entries -------------------------------------------------------

  /** Path entries have an owner and name a record. */
  ghost predicate Named(paths: map<Place, PathRow>) {
    forall p :: p in paths ==> p.0 != "" && paths[p].recordID != ""
  }

  lemma PlanIsNamed(k: Kernel, plans: seq<WitnessPlan>, plan: WitnessPlan)
    requires PlansStaged(k, plans) && plan in plans
    ensures plan.recordID != ""
  {
    RootWitnessExists(k);
  }

  lemma WitnessEntriesNamed(k: Kernel, paths: map<Place, PathRow>, paths': map<Place, PathRow>, plans: seq<WitnessPlan>)
    requires Named(paths) && PlansStaged(k, plans) && OnlyWitnesses(paths, paths', plans)
    ensures Named(paths')
  {
    hide PlansStaged;
    forall p | p in paths' ensures p.0 != "" && paths'[p].recordID != "" {
      if p !in paths {
        var plan :| plan in plans && plan.recordID == paths'[p].recordID;
        PlanIsNamed(k, plans, plan);
      }
    }
  }

  lemma StartParts(base: DB, start: DB)
    requires IsStart(base, start)
    ensures Core(start) && DensePaths(start)
    ensures CommitsDense(start.paths, base.nextCommit) && CommitsRise(start.paths)
  {
  }

  lemma StartNamed(k: Kernel, base: DB, db1: DB, plans: seq<WitnessPlan>, intent: Bytes, start: DB)
    requires IsStart(base, db1) && db1.paths == base.paths && db1.nextCommit == base.nextCommit
    requires Named(base.paths) && PlansStaged(k, plans) && InsertWitnesses(db1, plans, intent) == Ok(start)
    ensures Named(start.paths)
  {
    hide *;
    StartParts(base, db1);
    InsertWitnessesCommits(db1, plans, intent, start);
    WitnessEntriesNamed(k, base.paths, start.paths, plans);
  }

  lemma {:induction false} RepeatIs(owner: Bytes, n: nat)
    ensures forall o :: o in Repeat(owner, n) ==> o == owner
  {
    if n > 0 { RepeatIs(owner, n - 1); }
  }

  lemma {:induction false} OwnersNamed(groups: seq<AppendGroup>)
    requires forall g :: g in groups ==> g.owner != ""
    ensures forall o :: o in AllOwners(groups) ==> o != ""
  {
    if groups != [] {
      assert groups[0] in groups;
      RepeatIs(groups[0].owner, |groups[0].drafts|);
      OwnersNamed(groups[1..]);
    }
  }

  lemma InsertedNamed(base: DB, start: DB, db: DB, drafts: seq<RecordDraft>, owners: seq<Bytes>, facts: seq<Fact>,
                      intent: Bytes)
    requires Named(start.paths) && Inserted(base, start, db, facts, |facts|, intent)
    requires FactsFromDrafts(drafts, owners, facts, intent) && forall o :: o in owners ==> o != ""
    ensures Named(db.paths)
  {
    PathsAfterAre(base, start, facts, |facts|, intent);
    forall p | p in db.paths ensures p.0 != "" && db.paths[p].recordID != "" {
      if p in start.paths {
        PathsAfterKeep(base, start, facts, |facts|, intent, p);
      } else {
        var i :| 0 <= i < |facts| && p == PlaceOf(base, facts, i);
        assert owners[i] in owners;
      }
    }
  }

  /** A commit keeps every entry named. */
  lemma CommitNamed(k: Kernel, base: DB, op: OperationContext, batch: AppendBatch, row: IntentRow, st: Staging, db': DB)
    requires StoreInv(k, base) && batch.intent !in base.intents && BatchShape(batch)
    requires RootIsDistinct(k) && Named(base.paths)
    requires Stage(k, base, op, batch) == Ok(st) && InsertAll(base, batch.intent, row, st) == Ok(db')
    ensures Named(db'.paths)
  {
    var db1, start, db3 := InsertAllSteps(base, batch.intent, row, st, db');
    IntentAdded(base, batch.intent, row);
    hide *;
    ContextIds(k, base);
    StageEstablishes(k, base, op, batch, st);
    StagedCauses(k, base, batch.intent, AllDrafts(batch.groups), AllOwners(batch.groups), st);
    StartsAtBase(k, base);
    ContextsStart(base, base.(intents := base.intents[batch.intent := row]), st.contexts, db1);
    WitnessesStart(base, db1, st.plans, batch.intent, start);
    StartNamed(k, base, db1, st.plans, batch.intent, start);
    FactsInserted(base, start, st.facts, batch.intent, db3);
    GroupOwnersNamed(batch);
    InsertedNamed(base, start, db3, AllDrafts(batch.groups), AllOwners(batch.groups), st.facts, batch.intent);
    AdvanceKeepsRecords(base, db3, st.facts);
  }

  lemma IntentAdded(base: DB, intent: Bytes, row: IntentRow)
    requires intent !in base.intents
    ensures Extends(base.intents[intent := row], base.intents)
  {
  }

  lemma GroupOwnersNamed(batch: AppendBatch)
    requires BatchShape(batch)
    ensures forall o :: o in AllOwners(batch.groups) ==> o != ""
  {
    OwnersNamed(batch.groups);
  }
}
