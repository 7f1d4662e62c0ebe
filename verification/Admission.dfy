/** Exactly when an append commits: its contexts, the witness path, and what is stored. */
module Admission {
  import opened Wrappers
  import opened Utf8
  import opened Trace
  import opened Digests
  import opened Tables
  import opened Append
  import opened Invariant
  import opened StagingLaws
  import opened StoreInvariant
  import opened Commits
  import opened Contexts
  import opened BatchStaging
  import opened Canonical
  import Runs
  import opened Inserting
  import opened Addressing

  // ---- The condition -------------------------------------------------------

  /** A batch that writes to the witness path needs no new witness. */
  predicate WitnessPathFree(db: DB, batch: AppendBatch, st: Staging) {
    WITNESS_OWNER in AllOwners(batch.groups) ==> AllRetained(db.records, st.plans)
  }

  /** The tables with the staged witnesses retained */
  function Witnesses(db: DB, intent: Bytes, st: Staging): DB {
    db.(records := WithWitnesses(db.records, st.plans, intent))
  }

  /** What inserting a staged batch depends on, whatever the hash function */
  predicate Admissible(db: DB, batch: AppendBatch, st: Staging) {
    && AreNew(db.contexts.Keys, st.contexts)
    && WitnessesFit(db.records, st.plans)
    && WitnessPathFree(db, batch, st)
    && ContentsFit(Witnesses(db, batch.intent, st), st.facts)
  }

  // ---- Inserting a staged batch --------------------------------------------

  lemma InsertAllIs(base: DB, intent: Bytes, row: IntentRow, st: Staging)
    ensures var c := InsertContexts(base.(intents := base.intents[intent := row]), st.contexts);
            InsertAll(base, intent, row, st).Ok? <==>
              c.Ok? && InsertWitnesses(c.value, st.plans, intent).Ok?
              && InsertFacts(base, InsertWitnesses(c.value, st.plans, intent).value, st.facts, 0, intent).Ok?
  {
  }

  lemma ContextsLeave(k: Kernel, base: DB, intent: Bytes, row: IntentRow, contexts: seq<RetainedContext>, db1: DB)
    requires StoreInv(k, base)
    requires InsertContexts(base.(intents := base.intents[intent := row]), contexts) == Ok(db1)
    ensures Numbered(db1) && db1.records == base.records && db1.next == base.next && db1.paths == base.paths
  {
    InsertContextsKeeps(base.(intents := base.intents[intent := row]), contexts, db1);
  }

  lemma {:induction false} SameRecordsAfter(a: DB, b: DB, facts: seq<Fact>, n: nat)
    requires n <= |facts| && a.records == b.records
    ensures RecordsAfter(a, facts, n) == RecordsAfter(b, facts, n)
  {
    if n > 0 { SameRecordsAfter(a, b, facts, n - 1); }
  }

  lemma SameContentsFit(a: DB, b: DB, facts: seq<Fact>)
    requires a.records == b.records
    ensures ContentsFit(a, facts) <==> ContentsFit(b, facts)
  {
    forall i | 0 <= i < |facts| ensures ContentFits(a, facts, i) <==> ContentFits(b, facts, i) {
      SameRecordsAfter(a, b, facts, i);
    }
  }

  lemma StagedOwners(k: Kernel, db: DB, intent: Bytes, drafts: seq<RecordDraft>, owners: seq<Bytes>, st: Staging)
    requires IsStaging(k, db, intent, drafts, owners, st)
    ensures (exists f :: f in st.facts && f.owner == WITNESS_OWNER) <==> WITNESS_OWNER in owners
  {
    StagedCauses(k, db, intent, drafts, owners, st);
    if WITNESS_OWNER in owners {
      var j := OwnerStaged(k, db, intent, drafts, owners, st, WITNESS_OWNER);
      assert st.facts[j] in st.facts;
    }
    if f :| f in st.facts && f.owner == WITNESS_OWNER {
      var j :| 0 <= j < |st.facts| && st.facts[j] == f;
      assert owners[j] in owners;
    }
  }

  lemma StartFacts(base: DB, start: DB)
    requires IsStart(base, start)
    ensures Core(start) && DensePaths(start) && Grows(start, start) && Extends(start.records, base.records)
    ensures CommitsDense(start.paths, base.nextCommit)
  {
  }

  /** Once the witnesses are in, the facts go in exactly when the witness path is free and the contents fit. */
  lemma FactsAdmitted(k: Kernel, base: DB, batch: AppendBatch, st: Staging, db1: DB, start: DB)
    requires IsStaging(k, base, batch.intent, AllDrafts(batch.groups), AllOwners(batch.groups), st)
    requires Numbered(db1) && db1.records == base.records && db1.next == base.next
    requires InsertWitnesses(db1, st.plans, batch.intent) == Ok(start) && IsStart(base, start)
    requires start.records == WithWitnesses(base.records, st.plans, batch.intent)
    ensures InsertFacts(base, start, st.facts, 0, batch.intent).Ok? <==>
              WitnessPathFree(base, batch, st) && ContentsFit(Witnesses(base, batch.intent, st), st.facts)
  {
    hide *;
    PathFreeIs(base, batch, st);
    FitsAll(base, start, st.facts);
    SameContentsFit(start, Witnesses(base, batch.intent, st), st.facts);
    StagedCauses(k, base, batch.intent, AllDrafts(batch.groups), AllOwners(batch.groups), st);
    StagedOwners(k, base, batch.intent, AllDrafts(batch.groups), AllOwners(batch.groups), st);
    StartFacts(base, start);
    NothingInserted(base, start, st.facts, batch.intent);
    FactsInsert(base, start, start, st.facts, 0, batch.intent);
    CountersMoved(base, db1, st.plans, batch.intent, start);
    PlacesFree(base, start, st.facts);
  }

  lemma PathFreeIs(db: DB, batch: AppendBatch, st: Staging)
    ensures WitnessPathFree(db, batch, st) <==>
              (WITNESS_OWNER in AllOwners(batch.groups) ==> AllRetained(db.records, st.plans))
    ensures Witnesses(db, batch.intent, st).records == WithWitnesses(db.records, st.plans, batch.intent)
  {
  }

  lemma FitsAll(base: DB, start: DB, facts: seq<Fact>)
    ensures (forall i :: 0 <= i < |facts| ==> PlaceOf(base, facts, i) !in start.paths && ContentFits(start, facts, i)) <==>
              (forall i :: 0 <= i < |facts| ==> PlaceOf(base, facts, i) !in start.paths) && ContentsFit(start, facts)
  {
    hide PlaceOf, ContentFits;
  }

  /** Witnesses move only the witness path's counter, and leave it exactly when all of them are retained. */
  lemma CountersMoved(base: DB, db1: DB, plans: seq<WitnessPlan>, intent: Bytes, start: DB)
    requires Numbered(db1) && db1.records == base.records && db1.next == base.next
    requires InsertWitnesses(db1, plans, intent) == Ok(start)
    ensures forall o :: o != WITNESS_OWNER ==> Next(start, o) == Next(base, o)
    ensures Next(base, WITNESS_OWNER) <= Next(start, WITNESS_OWNER)
    ensures Next(start, WITNESS_OWNER) == Next(base, WITNESS_OWNER) <==> AllRetained(base.records, plans)
  {
    NumberedParts(db1);
    forall o ensures Next(db1, o) == Next(base, o) { SameNext(base, db1, o); }
    RetainedIs(base.records, plans);
    hide *;
    InsertWitnessesKeeps(db1, plans, intent, start);
    WitnessesTakePlaces(db1, plans, intent, start);
    if AllRetained(base.records, plans) { RetainedWitnesses(db1, plans, intent, start); }
  }

  lemma RetainedIs(records: map<Bytes, RecordRow>, plans: seq<WitnessPlan>)
    ensures AllRetained(records, plans) <==> forall p :: p in plans ==> p.recordID in records
  {
  }

  lemma AdmissibleIs(db: DB, batch: AppendBatch, st: Staging)
    ensures Admissible(db, batch, st) <==>
              AreNew(db.contexts.Keys, st.contexts) && WitnessesFit(db.records, st.plans)
              && WitnessPathFree(db, batch, st) && ContentsFit(Witnesses(db, batch.intent, st), st.facts)
  {
  }

  lemma PlansAreDistinct(k: Kernel, db: DB, op: OperationContext, batch: AppendBatch, st: Staging)
    requires Stage(k, db, op, batch) == Ok(st)
    ensures DistinctPlans(st.plans)
  {
    StagedIsAddressed(k, db, op, batch, st);
  }

  /** A staged batch is inserted exactly when it is admissible. */
  lemma InsertedIfAdmissible(k: Kernel, base: DB, op: OperationContext, batch: AppendBatch, row: IntentRow, st: Staging)
    requires StoreInv(k, base) && batch.intent !in base.intents && Stage(k, base, op, batch) == Ok(st)
    ensures InsertAll(base, batch.intent, row, st).Ok? <==> Admissible(base, batch, st)
  {
    var db0 := base.(intents := base.intents[batch.intent := row]);
    assert db0.contexts == base.contexts;
    hide *;
    AdmissibleIs(base, batch, st);
    InsertAllIs(base, batch.intent, row, st);
    ContextsInsert(db0, st.contexts);
    var inserted := InsertContexts(db0, st.contexts);
    if inserted.Ok? {
      var db1 := inserted.value;
      ContextsLeave(k, base, batch.intent, row, st.contexts, db1);
      PlansAreDistinct(k, base, op, batch, st);
      WitnessesInsert(db1, st.plans, batch.intent);
      if InsertWitnesses(db1, st.plans, batch.intent).Ok? {
        var start := InsertWitnesses(db1, st.plans, batch.intent).value;
        ContextIds(k, base);
        StageEstablishes(k, base, op, batch, st);
        StartsAtBase(k, base);
        PrepareStart(base, batch.intent, row, st.contexts, st.plans, db1, start);
        FactsAdmitted(k, base, batch, st, db1, start);
      }
    }
  }

  /** What an append does with a batch it can stage */
  predicate StagedAndAdmissible(k: Kernel, db: DB, op: OperationContext, batch: AppendBatch) {
    Stage(k, db, op, batch).Ok? && Admissible(db, batch, Stage(k, db, op, batch).value)
  }

  lemma AppendIs(k: Kernel, db: DB, op: OperationContext, batch: AppendBatch)
    requires BatchShape(batch) && BatchDigest(k, batch, op).Ok? && batch.intent !in db.intents
    ensures var digest, r := BatchDigest(k, batch, op).value, Stage(k, db, op, batch);
            AppendTx(k, db, op, batch).Ok? <==>
              r.Ok? && InsertAll(db, batch.intent, IntentRow(digest, ReceiptFor(db, batch.intent, r.value)), r.value).Ok?
  {
    hide BatchShape, BatchDigest, Stage, InsertAll, ReceiptFor;
  }

  lemma AppendRefuses(k: Kernel, db: DB, op: OperationContext, batch: AppendBatch)
    requires !BatchShape(batch) || BatchDigest(k, batch, op).Err?
    ensures AppendTx(k, db, op, batch).Err?
  {
    hide BatchShape, BatchDigest;
  }

  /**
    * Exactly when an append succeeds, with no assumption on the hash function: the batch has a valid shape and a digest,
    * and either its intent is committed with that digest or the batch can be staged and is admissible.
    */
  lemma AppendSucceedsExactly(k: Kernel, db: DB, op: OperationContext, batch: AppendBatch)
    requires StoreInv(k, db)
    ensures AppendTx(k, db, op, batch).Ok? <==>
              && BatchShape(batch) && BatchDigest(k, batch, op).Ok?
              && if batch.intent in db.intents then Ok(db.intents[batch.intent].digest) == BatchDigest(k, batch, op)
                 else StagedAndAdmissible(k, db, op, batch)
  {
    CommitsIs(k, db, op, batch);
    hide *;
    if !BatchShape(batch) || BatchDigest(k, batch, op).Err? {
      AppendRefuses(k, db, op, batch);
    } else if batch.intent in db.intents {
      Runs.SpentIntent(k, db, op, batch);
    } else {
      AppendIs(k, db, op, batch);
      var staged := Stage(k, db, op, batch);
      if staged.Ok? {
        var row := IntentRow(BatchDigest(k, batch, op).value, ReceiptFor(db, batch.intent, staged.value));
        InsertedIfAdmissible(k, db, op, batch, row, staged.value);
      }
    }
  }

  lemma CommitsIs(k: Kernel, db: DB, op: OperationContext, batch: AppendBatch)
    ensures StagedAndAdmissible(k, db, op, batch) <==>
              Stage(k, db, op, batch).Ok? && Admissible(db, batch, Stage(k, db, op, batch).value)
  {
  }

  /**
    * A new batch that writes to the witness path commits only if all its witnesses are retained, and if its contexts,
    * retained witnesses and contents fit, exactly then.
    */
  lemma WitnessPathIsReserved(k: Kernel, db: DB, op: OperationContext, batch: AppendBatch, st: Staging)
    requires StoreInv(k, db) && batch.intent !in db.intents && BatchShape(batch) && BatchDigest(k, batch, op).Ok?
    requires Stage(k, db, op, batch) == Ok(st) && WITNESS_OWNER in AllOwners(batch.groups)
    ensures AppendTx(k, db, op, batch).Ok? ==> AllRetained(db.records, st.plans)
    ensures AreNew(db.contexts.Keys, st.contexts) && WitnessesFit(db.records, st.plans)
            && ContentsFit(Witnesses(db, batch.intent, st), st.facts) ==>
              (AppendTx(k, db, op, batch).Ok? <==> AllRetained(db.records, st.plans))
  {
    hide *;
    AppendSucceedsExactly(k, db, op, batch);
    CommitsIs(k, db, op, batch);
    AdmissibleIs(db, batch, st);
    PathFreeIs(db, batch, st);
  }

  // ---- Without collisions --------------------------------------------------

  /** A staged fact is stored as what is retained under its id, and as what an earlier fact of the batch stores there. */
  predicate BodiesAgree(db: DB, facts: seq<Fact>) {
    forall i :: 0 <= i < |facts| ==>
      && (facts[i].id in db.records ==> db.records[facts[i].id].body == facts[i].row.body)
      && (forall j :: 0 <= j < i && facts[j].id == facts[i].id ==> facts[j].row.body == facts[i].row.body)
  }

  lemma PlansFit(k: Kernel, records: map<Bytes, RecordRow>, plans: seq<WitnessPlan>)
    requires CollisionFree(k) && AllAddressed(k, records) && PlansAddressed(k, plans)
    ensures WitnessesFit(records, plans)
  {
    hide CollisionFree, AllAddressed, PlanAddressed, WitnessMatches;
    forall p | p in plans ensures WitnessFits(records, p) {
      if p.recordID in records { var body := RetainedPlanAgrees(k, records, p); }
    }
  }

  /** What a fact cites tells its id from every planned witness's. */
  lemma FactIsNoPlan(k: Kernel, f: Fact, plan: WitnessPlan)
    requires CollisionFree(k) && Addressed(k, f.id, f.row) && PlanAddressed(k, plan)
    requires plan == RootWitnessPlan(k) || IsOrdinary(k, plan)
    requires f.row.witnessRef != "" && f.row.witnessRef != RootWitnessID(k)
    ensures f.id != plan.recordID
  {
    if f.id == plan.recordID {
      var body := AddressedBody(k, f.id, f.row);
      PlanDigest(k, plan);
      SameIdSameRecord(k, f.id, f.row, body, WitnessRow(plan, ""), Some(plan.body));
    }
  }

  lemma CitesOrdinary(k: Kernel, st: Staging, f: Fact)
    requires FactsWitnessed(k, st) && f in st.facts
    ensures f.row.witnessRef != "" && f.row.witnessRef != RootWitnessID(k)
  {
  }

  lemma FactsAreNoPlans(k: Kernel, st: Staging)
    requires CollisionFree(k) && FactsAddressed(k, st.facts) && PlansAddressed(k, st.plans)
    requires PlansStaged(k, st.plans) && FactsWitnessed(k, st)
    ensures forall f, p :: f in st.facts && p in st.plans ==> f.id != p.recordID
  {
    hide CollisionFree, Addressed, PlanAddressed, IsOrdinary, FactsWitnessed;
    forall f, p | f in st.facts && p in st.plans ensures f.id != p.recordID {
      CitesOrdinary(k, st, f);
      FactIsNoPlan(k, f, p);
    }
  }

  lemma {:induction false} OtherRecords(records: map<Bytes, RecordRow>, plans: seq<WitnessPlan>, intent: Bytes, id: Bytes)
    requires forall p :: p in plans ==> p.recordID != id
    ensures var after := WithWitnesses(records, plans, intent);
            (id in after <==> id in records) && (id in records ==> after[id] == records[id])
    decreases |plans|
  {
    if plans != [] {
      assert plans[0] in plans;
      OtherRecords(WithWitness(records, plans[0], intent), plans[1..], intent, id);
    }
  }

  /** By the time of the i-th fact, the ids of earlier facts are retained for good. */
  lemma {:induction false} EarlierRetained(start: DB, facts: seq<Fact>, i: nat, j: nat)
    requires j < i <= |facts|
    ensures facts[j].id in RecordsAfter(start, facts, i)
    ensures RecordsAfter(start, facts, i)[facts[j].id] ==
            var before := RecordsAfter(start, facts, j); if facts[j].id in before then before[facts[j].id] else facts[j].row
    decreases i
  {
    if j < i - 1 { EarlierRetained(start, facts, i - 1, j); }
  }

  lemma FirstUnder(start: DB, facts: seq<Fact>, i: nat)
    requires i < |facts| && facts[i].id in RecordsAfter(start, facts, i)
    ensures var id, row := facts[i].id, RecordsAfter(start, facts, i)[facts[i].id];
            (id in start.records && row == start.records[id])
            || exists j :: 0 <= j < i && facts[j].id == id && row == facts[j].row
  {
    RecordsAfterAre(start, facts, i);
  }

  /** The retained rows under the facts' ids are as before, but for the staged witnesses. */
  ghost predicate SameUnder(db: DB, start: DB, facts: seq<Fact>) {
    forall f :: f in facts ==>
      (f.id in start.records <==> f.id in db.records) && (f.id in db.records ==> start.records[f.id] == db.records[f.id])
  }

  lemma ContentIsBody(k: Kernel, db: DB, start: DB, facts: seq<Fact>, i: nat)
    requires CollisionFree(k) && AllAddressed(k, db.records) && FactsAddressed(k, facts) && SameUnder(db, start, facts)
    requires i < |facts| && facts[i].id in RecordsAfter(start, facts, i)
    ensures var id := facts[i].id;
            SameContent(RecordsAfter(start, facts, i)[id], facts[i].row) <==>
            RecordsAfter(start, facts, i)[id].body == facts[i].row.body
  {
    var id := facts[i].id;
    FirstUnder(start, facts, i);
    FactAddressed(k, facts, i);
    assert facts[i] in facts;
    if j :| 0 <= j < i && facts[j].id == id && RecordsAfter(start, facts, i)[id] == facts[j].row {
      FactAddressed(k, facts, j);
    } else {
      assert Addressed(k, id, db.records[id]);
    }
    SameContentIsSameBody(k, id, RecordsAfter(start, facts, i)[id], facts[i].row);
  }

  lemma FitsSayBodies(k: Kernel, db: DB, start: DB, facts: seq<Fact>)
    requires CollisionFree(k) && AllAddressed(k, db.records) && FactsAddressed(k, facts) && SameUnder(db, start, facts)
    requires ContentsFit(start, facts)
    ensures BodiesAgree(db, facts)
  {
    forall i | 0 <= i < |facts|
      ensures facts[i].id in db.records ==> db.records[facts[i].id].body == facts[i].row.body
      ensures forall j :: 0 <= j < i && facts[j].id == facts[i].id ==> facts[j].row.body == facts[i].row.body
    {
      RecordsAfterAre(start, facts, i);
      assert facts[i] in facts && ContentFits(start, facts, i);
      if facts[i].id in RecordsAfter(start, facts, i) { ContentIsBody(k, db, start, facts, i); }
      forall j | 0 <= j < i && facts[j].id == facts[i].id ensures facts[j].row.body == facts[i].row.body {
        EarlierRetained(start, facts, i, j);
        assert ContentFits(start, facts, j);
        if facts[j].id in RecordsAfter(start, facts, j) { ContentIsBody(k, db, start, facts, j); }
      }
    }
  }

  lemma BodiesSayFits(k: Kernel, db: DB, start: DB, facts: seq<Fact>)
    requires CollisionFree(k) && AllAddressed(k, db.records) && FactsAddressed(k, facts) && SameUnder(db, start, facts)
    requires BodiesAgree(db, facts)
    ensures ContentsFit(start, facts)
  {
    forall i | 0 <= i < |facts| ensures ContentFits(start, facts, i) {
      assert facts[i] in facts;
      if facts[i].id in RecordsAfter(start, facts, i) {
        FirstUnder(start, facts, i);
        ContentIsBody(k, db, start, facts, i);
      }
    }
  }

  lemma StagedParts(k: Kernel, db: DB, op: OperationContext, batch: AppendBatch, st: Staging)
    requires CollisionFree(k) && StoreInv(k, db) && Stage(k, db, op, batch) == Ok(st)
    ensures FactsAddressed(k, st.facts) && PlansAddressed(k, st.plans)
    ensures PlansStaged(k, st.plans) && FactsWitnessed(k, st)
  {
    hide *;
    StagedIsAddressed(k, db, op, batch, st);
    ContextIds(k, db);
    StageEstablishes(k, db, op, batch, st);
    StagedCauses(k, db, batch.intent, AllDrafts(batch.groups), AllOwners(batch.groups), st);
    CollisionFreeRoot(k);
  }

  lemma SameUnderFacts(db: DB, intent: Bytes, st: Staging)
    requires forall f, p :: f in st.facts && p in st.plans ==> f.id != p.recordID
    ensures SameUnder(db, Witnesses(db, intent, st), st.facts)
  {
    forall f | f in st.facts
      ensures var after := Witnesses(db, intent, st).records;
              (f.id in after <==> f.id in db.records) && (f.id in db.records ==> after[f.id] == db.records[f.id])
    {
      OtherRecords(db.records, st.plans, intent, f.id);
    }
  }

  /** Without collisions, a staged batch is admissible by its contexts, its witness path and its bodies. */
  lemma AdmissibleByBodies(k: Kernel, db: DB, op: OperationContext, batch: AppendBatch, st: Staging)
    requires CollisionFree(k) && StoreInv(k, db) && AllAddressed(k, db.records) && Stage(k, db, op, batch) == Ok(st)
    ensures Admissible(db, batch, st) <==>
              AreNew(db.contexts.Keys, st.contexts) && WitnessPathFree(db, batch, st) && BodiesAgree(db, st.facts)
  {
    hide *;
    AdmissibleIs(db, batch, st);
    StagedParts(k, db, op, batch, st);
    PlansFit(k, db.records, st.plans);
    FactsAreNoPlans(k, st);
    SameUnderFacts(db, batch.intent, st);
    var start := Witnesses(db, batch.intent, st);
    if ContentsFit(start, st.facts) { FitsSayBodies(k, db, start, st.facts); }
    if BodiesAgree(db, st.facts) { BodiesSayFits(k, db, start, st.facts); }
  }

  // ---- Contexts ------------------------------------------------------------

  /** The staged contexts are fresh ones of increasing group indexes, none of them retained. */
  ghost predicate Indexed(k: Kernel, db: DB, intent: Bytes, contexts: seq<RetainedContext>, idx: seq<nat>, bound: nat) {
    && |idx| == |contexts|
    && (forall i :: 0 <= i < |idx| ==> idx[i] < bound && IsFresh(k, db, intent, idx[i], contexts[i]))
    && (forall i, j :: 0 <= i < j < |idx| ==> idx[i] < idx[j])
  }

  predicate IsFresh(k: Kernel, db: DB, intent: Bytes, index: nat, c: RetainedContext) {
    c.contextID !in db.contexts && ContextIDFor(k, intent, index, c.(contextID := "")) == Ok(c.contextID)
  }

  lemma ResolvedIsFresh(k: Kernel, db: DB, intent: Bytes, index: nat, ctx: Option<RetainedContext>, op: OperationContext,
                        c: RetainedContext)
    requires forall x :: x in db.contexts ==> db.contexts[x].contextID == x
    requires ResolveGroupContext(k, db, intent, index, ctx, op) == Ok(c)
    ensures c.contextID in db.contexts || IsFresh(k, db, intent, index, c)
  {
    hide ContextIDFor, Deduplicate, IsReuse;
    if !(ctx.Some? && IsReuse(ctx.value)) {
      var payload := ContextPayload(if ctx.Some? then ctx.value else DefaultContextDraft(), op);
      assert c == payload.(contextID := c.contextID);
      assert c.(contextID := "") == payload;
    }
  }

  lemma OneMoreContext(k: Kernel, db: DB, intent: Bytes, contexts: seq<RetainedContext>, idx: seq<nat>, index: nat,
                       c: RetainedContext)
    requires Indexed(k, db, intent, contexts, idx, index) && IsFresh(k, db, intent, index, c)
    ensures Indexed(k, db, intent, contexts + [c], idx + [index], index + 1)
  {
    hide IsFresh;
  }

  lemma GroupContexts(k: Kernel, db: DB, op: OperationContext, intent: Bytes, index: nat, g: AppendGroup, st: Staging,
                      st': Staging, idx: seq<nat>) returns (idx': seq<nat>)
    requires forall x :: x in db.contexts ==> db.contexts[x].contextID == x
    requires Indexed(k, db, intent, st.contexts, idx, index) && FactsAddressed(k, st.facts)
    requires StageGroup(k, db, op, intent, index, g, st) == Ok(st')
    ensures Indexed(k, db, intent, st'.contexts, idx', index + 1)
  {
    if g.drafts == [] {
      hide IsFresh;
      idx' := idx;
    } else {
      var ctx := ResolveGroupContext(k, db, intent, index, g.context, op).value;
      var plan := OrdinaryWitnessPlan(k, ctx, op).value;
      hide FactsAddressed, ResolveGroupContext, OrdinaryWitnessPlan, StageDrafts, AddPlan, IsFresh;
      ResolvedIsFresh(k, db, intent, index, g.context, op, ctx);
      DraftsAreAddressed(k, db, intent, g, ctx, plan, g.drafts, OpenGroup(k, db, ctx, plan, st), st');
      if ctx.contextID in db.contexts {
        idx' := idx;
      } else {
        OneMoreContext(k, db, intent, st.contexts, idx, index, ctx);
        idx' := idx + [index];
      }
    }
  }

  lemma {:induction false} GroupsContexts(k: Kernel, db: DB, op: OperationContext, intent: Bytes, index: nat,
                                          groups: seq<AppendGroup>, st: Staging, st': Staging, idx: seq<nat>)
      returns (idx': seq<nat>)
    requires forall x :: x in db.contexts ==> db.contexts[x].contextID == x
    requires Indexed(k, db, intent, st.contexts, idx, index)
    requires FactsAddressed(k, st.facts) && PlansAddressed(k, st.plans)
    requires StageGroups(k, db, op, intent, index, groups, st) == Ok(st')
    ensures Indexed(k, db, intent, st'.contexts, idx', index + |groups|)
    decreases |groups|
  {
    hide FactsAddressed, PlansAddressed, StageGroup, Indexed;
    if groups == [] {
      idx' := idx;
    } else {
      var st1 := StageGroup(k, db, op, intent, index, groups[0], st).value;
      var idx1 := GroupContexts(k, db, op, intent, index, groups[0], st, st1, idx);
      GroupIsAddressed(k, db, op, intent, index, groups[0], st, st1);
      idx' := GroupsContexts(k, db, op, intent, index + 1, groups[1..], st1, st', idx1);
    }
  }

  function ContextText(k: Kernel, c: RetainedContext): Bytes
    requires Write(AsciiEncoder(k), ContextInput(c)).Ok?
  {
    Write(AsciiEncoder(k), ContextInput(c)).value
  }

  /** Two staged contexts share an id only if the digest confuses the texts of two groups of the batch. */
  ghost predicate Confused(k: Kernel, intent: Bytes, contexts: seq<RetainedContext>) {
    exists i, j, m: nat, n: nat :: 0 <= i < j < |contexts| && m < n && ConfusesAt(k, intent, contexts[i], contexts[j], m, n)
  }

  ghost predicate ConfusesAt(k: Kernel, intent: Bytes, c: RetainedContext, d: RetainedContext, m: nat, n: nat) {
    && ContextIDFor(k, intent, m, c).Ok? && ContextIDFor(k, intent, n, d).Ok?
    && SharesDigits(k, ContextPreimage(intent, m, ContextText(k, c)), ContextPreimage(intent, n, ContextText(k, d)))
  }

  lemma SamePreimage(k: Kernel, intent: Bytes, index: nat, c: RetainedContext)
    ensures ContextIDFor(k, intent, index, c.(contextID := "")) == ContextIDFor(k, intent, index, c)
  {
    assert ContextInput(c.(contextID := "")) == ContextInput(c);
  }

  lemma SharedIdConfuses(k: Kernel, db: DB, intent: Bytes, m: nat, n: nat, c: RetainedContext, d: RetainedContext)
    requires m < n && IsFresh(k, db, intent, m, c) && IsFresh(k, db, intent, n, d) && c.contextID == d.contextID
    ensures ConfusesAt(k, intent, c, d, m, n)
  {
    SamePreimage(k, intent, m, c);
    SamePreimage(k, intent, n, d);
    SameContextID(k, intent, m, c, intent, n, d);
  }

  /** The staged contexts are new, unless the first 32 digits of two groups' context texts are the same. */
  lemma ContextsAreNew(k: Kernel, db: DB, op: OperationContext, batch: AppendBatch, st: Staging)
    requires StoreInv(k, db) && Stage(k, db, op, batch) == Ok(st)
    ensures AreNew(db.contexts.Keys, st.contexts) || Confused(k, batch.intent, st.contexts)
  {
    hide StoreInv, StageGroups, IsFresh, ConfusesAt;
    ContextIds(k, db);
    assert Indexed(k, db, batch.intent, NOTHING.contexts, [], 0);
    NothingAddressed(k);
    var idx := GroupsContexts(k, db, op, batch.intent, 0, batch.groups, NOTHING, st, []);
    forall c | c in st.contexts ensures c.contextID !in db.contexts {
      var i :| 0 <= i < |st.contexts| && st.contexts[i] == c;
      FreshIsNew(k, db, batch.intent, idx[i], c);
    }
    if i, j :| 0 <= i < j < |st.contexts| && st.contexts[i].contextID == st.contexts[j].contextID {
      SharedIdConfuses(k, db, batch.intent, idx[i], idx[j], st.contexts[i], st.contexts[j]);
    }
  }

  lemma FreshIsNew(k: Kernel, db: DB, intent: Bytes, index: nat, c: RetainedContext)
    requires IsFresh(k, db, intent, index, c)
    ensures c.contextID !in db.contexts
  {
  }

  lemma NothingAddressed(k: Kernel)
    ensures FactsAddressed(k, NOTHING.facts) && PlansAddressed(k, NOTHING.plans)
  {
  }

  // ---- Reachable states ----------------------------------------------------

  /**
    * Without collisions, exactly when a batch that can be staged commits in a reachable state: its staged context ids
    * are distinct, it does not write to the witness path while it needs a new witness, and whatever is retained under
    * the id of one of its facts is stored with the same body.
    */
  lemma CommitsExactly(k: Kernel, ops: seq<Runs.Op>, op: OperationContext, batch: AppendBatch, st: Staging)
    requires CollisionFree(k)
    requires var db := Runs.Run(k, EMPTY, ops); batch.intent !in db.intents && Stage(k, db, op, batch) == Ok(st)
    requires BatchShape(batch) && BatchDigest(k, batch, op).Ok?
    ensures var db := Runs.Run(k, EMPTY, ops);
            AppendTx(k, db, op, batch).Ok? <==>
              AreNew(db.contexts.Keys, st.contexts) && WitnessPathFree(db, batch, st) && BodiesAgree(db, st.facts)
  {
    hide *;
    Runs.ReachableInv(k, ops);
    RecordsAreAddressed(k, ops);
    CommitsExactlyIn(k, Runs.Run(k, EMPTY, ops), op, batch, st);
  }

  /** The same in any state whose records are stored under their digests */
  lemma CommitsExactlyIn(k: Kernel, db: DB, op: OperationContext, batch: AppendBatch, st: Staging)
    requires CollisionFree(k) && StoreInv(k, db) && AllAddressed(k, db.records)
    requires batch.intent !in db.intents && BatchShape(batch) && BatchDigest(k, batch, op).Ok?
    requires Stage(k, db, op, batch) == Ok(st)
    ensures AppendTx(k, db, op, batch).Ok? <==>
              AreNew(db.contexts.Keys, st.contexts) && WitnessPathFree(db, batch, st) && BodiesAgree(db, st.facts)
  {
    hide *;
    AppendSucceedsExactly(k, db, op, batch);
    CommitsIs(k, db, op, batch);
    AdmissibleByBodies(k, db, op, batch, st);
  }

  // ---- Batches with the same digest payload --------------------------------

  lemma SameStagedParts(db: DB, a: Staging, b: Staging)
    requires SameStaging(a, b)
    ensures a.contexts == b.contexts && a.plans == b.plans
    ensures (exists f :: f in a.facts && f.owner == WITNESS_OWNER) <==> (exists f :: f in b.facts && f.owner == WITNESS_OWNER)
  {
    if f :| f in a.facts && f.owner == WITNESS_OWNER {
      var i :| 0 <= i < |a.facts| && a.facts[i] == f;
      assert SameFact(a.facts[i], b.facts[i]) && b.facts[i] in b.facts;
    }
    if f :| f in b.facts && f.owner == WITNESS_OWNER {
      var i :| 0 <= i < |b.facts| && b.facts[i] == f;
      assert SameFact(a.facts[i], b.facts[i]) && a.facts[i] in a.facts;
    }
  }

  /** The witness path is free for both of two batches that are staged alike, or for neither. */
  lemma SamePathFree(k: Kernel, db: DB, a: AppendBatch, aop: OperationContext, b: AppendBatch, bop: OperationContext,
                     s: Staging, t: Staging)
    requires StoreInv(k, db) && Stage(k, db, aop, a) == Ok(s) && Stage(k, db, bop, b) == Ok(t) && SameStaging(s, t)
    ensures WitnessPathFree(db, a, s) <==> WitnessPathFree(db, b, t)
    ensures s.contexts == t.contexts
  {
    hide *;
    ContextIds(k, db);
    StageEstablishes(k, db, aop, a, s);
    StageEstablishes(k, db, bop, b, t);
    StagedOwners(k, db, a.intent, AllDrafts(a.groups), AllOwners(a.groups), s);
    StagedOwners(k, db, b.intent, AllDrafts(b.groups), AllOwners(b.groups), t);
    SameStagedParts(db, s, t);
    PathFreeIs(db, a, s);
    PathFreeIs(db, b, t);
  }

  /**
    * Once one of two batches with the same digest payload would commit in a state, the other would too exactly when its
    * bodies agree with what is stored there, and with the same receipt.
    */
  lemma SameDigestSameCommit(k: Kernel, db: DB, a: AppendBatch, aop: OperationContext, b: AppendBatch,
                             bop: OperationContext)
    requires CollisionFree(k) && StoreInv(k, db) && AllAddressed(k, db.records) && a.intent !in db.intents
    requires BatchShape(b) && BatchDigest(k, b, bop).Ok? && AppendTx(k, db, aop, a).Ok?
    requires Meaning(AsciiEncoder(k), BatchJson(a, aop)) == Meaning(AsciiEncoder(k), BatchJson(b, bop))
    ensures var t, r := Stage(k, db, bop, b), AppendTx(k, db, bop, b);
            && t.Ok? && (r.Ok? <==> BodiesAgree(db, t.value.facts))
            && (r.Ok? ==> r.value.1 == AppendTx(k, db, aop, a).value.1)
  {
    hide *;
    var x := AppendTx(k, db, aop, a).value;
    var digest, s := Runs.AppendCases(k, db, aop, a, x.0, x.1, x.2);
    SameDigestSameStaging(k, db, a, aop, b, bop);
    SameDigestSameReceipt(k, db, a, aop, b, bop);
    var t := Stage(k, db, bop, b).value;
    OutcomeIs(Stage(k, db, aop, a), Stage(k, db, bop, b));
    SamePathFree(k, db, a, aop, b, bop, s, t);
    CommitsExactlyIn(k, db, aop, a, s);
    CommitsExactlyIn(k, db, bop, b, t);
    if AppendTx(k, db, bop, b).Ok? {
      var y := AppendTx(k, db, bop, b).value;
      var digest2, t2 := Runs.AppendCases(k, db, bop, b, y.0, y.1, y.2);
    }
  }
}
