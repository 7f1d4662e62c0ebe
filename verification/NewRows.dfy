/** Which rows an append adds. */
module NewRows {
  import opened Wrappers
  import opened Utf8
  import opened Trace
  import opened Digests
  import opened Tables
  import opened Append
  import opened StagingLaws
  import opened Commits
  import opened Runs

  predicate WitnessPlanned(schemaRef: Bytes, kindLabel: Bytes) {
    || (schemaRef == "kernel.witness.root.v1" && kindLabel == "witness_root")
    || (schemaRef == "kernel.witness.v1" && kindLabel == "witness")
  }

  predicate IsWitnessEntry(p: Place, row: PathRow, record: RecordRow) {
    && p.0 == "kernel:witness" && row.contextRef == "" && row.receipt == "witness:" + row.recordID
    && record.mode == "capture" && record.causedBy == [] && WitnessPlanned(record.schemaRef, row.kindLabel)
  }

  predicate NewRecord(id: Bytes, row: RecordRow, intent: Bytes, ids: seq<Bytes>) {
    row.intent == intent
    && (id in ids || row.schemaRef == "kernel.witness.root.v1" || row.schemaRef == "kernel.witness.v1")
  }

  predicate NewEntry(db: DB, p: Place, row: PathRow, intent: Bytes, ids: seq<Bytes>) {
    && row.intent == intent && row.recordID in db.records
    && (row.recordID in ids || IsWitnessEntry(p, row, db.records[row.recordID]))
  }

  /** Going from a to b, records and entries are kept, and those added are the append's. */
  ghost predicate AddsOnly(a: DB, b: DB, intent: Bytes, ids: seq<Bytes>) {
    && (forall id :: id in a.records ==> id in b.records && b.records[id] == a.records[id])
    && (forall p :: p in a.paths ==> p in b.paths && b.paths[p] == a.paths[p])
    && (forall id :: id in b.records && id !in a.records ==> NewRecord(id, b.records[id], intent, ids))
    && (forall p :: p in b.paths && p !in a.paths ==> NewEntry(b, p, b.paths[p], intent, ids))
  }

  lemma NothingAdded(a: DB, b: DB, intent: Bytes, ids: seq<Bytes>)
    requires b.records == a.records && b.paths == a.paths
    ensures AddsOnly(a, b, intent, ids)
  {
  }

  lemma AddedTwice(a: DB, b: DB, c: DB, intent: Bytes, ids: seq<Bytes>)
    requires AddsOnly(a, b, intent, ids) && AddsOnly(b, c, intent, ids)
    ensures AddsOnly(a, c, intent, ids)
  {
    hide NewRecord;
    forall p | p in c.paths && p !in a.paths ensures NewEntry(c, p, c.paths[p], intent, ids) {
      if p in b.paths { assert NewEntry(b, p, b.paths[p], intent, ids); }
    }
  }

  lemma {:induction false} EdgesOnly(db: DB, child: Bytes, parents: seq<Bytes>, position: nat)
    requires InsertEdges(db, child, parents, position).Ok?
    ensures InsertEdges(db, child, parents, position).value.records == db.records
    ensures InsertEdges(db, child, parents, position).value.paths == db.paths
    decreases |parents|
  {
    if parents != [] {
      EdgesOnly(db.(edges := db.edges[(child, position) := parents[0]]), child, parents[1..], position + 1);
    }
  }

  lemma RowAdded(db: DB, id: Bytes, record: RecordRow, place: Place, path: PathRow, db': DB)
    requires InsertFactRow(db, id, record, place, path) == Ok(db')
    ensures db'.paths == db.paths[place := path] && place !in db.paths && path.recordID in db'.records
    ensures db'.records == if id in db.records then db.records else db.records[id := record]
    ensures id in db.records ==> SameContent(db.records[id], record)
  {
    if id !in db.records {
      EdgesOnly(db.(records := db.records[id := record], log := db.log + [id]), id, record.causedBy, 0);
    }
  }

  lemma FactAdded(db: DB, f: Fact, place: Place, path: PathRow, db': DB, ids: seq<Bytes>)
    requires InsertFactRow(db, f.id, f.row, place, path) == Ok(db')
    requires f.id in ids && path.recordID == f.id && path.intent == f.row.intent
    ensures AddsOnly(db, db', f.row.intent, ids)
  {
    hide InsertFactRow, SameContent;
    RowAdded(db, f.id, f.row, place, path, db');
  }

  lemma {:induction false} FactsAdded(base: DB, db: DB, facts: seq<Fact>, n: nat, intent: Bytes, db': DB, ids: seq<Bytes>)
    requires n <= |facts| && InsertFacts(base, db, facts, n, intent) == Ok(db')
    requires forall f :: f in facts ==> f.id in ids && f.row.intent == intent
    ensures AddsOnly(db, db', intent, ids)
    decreases |facts| - n
  {
    hide InsertFactRow, AddsOnly, PlaceOf, CommitReceipt;
    if n == |facts| {
      NothingAdded(db, db', intent, ids);
    } else {
      var f, place, path := facts[n], PlaceOf(base, facts, n), PathRowOf(base, facts, n, intent);
      assert f in facts;
      var db1 := InsertFactRow(db, f.id, f.row, place, path).value;
      FactAdded(db, f, place, path, db1, ids);
      FactsAdded(base, db1, facts, n + 1, intent, db', ids);
      AddedTwice(db, db1, db', intent, ids);
    }
  }

  lemma WitnessAdded(db: DB, plan: WitnessPlan, intent: Bytes, db': DB, ids: seq<Bytes>)
    requires InsertWitness(db, plan, intent) == Ok(db') && WitnessPlanned(plan.schemaRef, plan.kindLabel)
    ensures AddsOnly(db, db', intent, ids)
  {
    hide InsertFactRow, StoredBody, ReadFact;
    if plan.recordID !in db.records {
      var place := (WITNESS_OWNER, Next(db, WITNESS_OWNER));
      var db1 := InsertFactRow(db, plan.recordID, WitnessRow(plan, intent), place, WitnessEntry(plan, intent)).value;
      RowAdded(db, plan.recordID, WitnessRow(plan, intent), place, WitnessEntry(plan, intent), db1);
    }
  }

  lemma {:induction false} WitnessesAdded(db: DB, plans: seq<WitnessPlan>, intent: Bytes, db': DB, ids: seq<Bytes>)
    requires InsertWitnesses(db, plans, intent) == Ok(db')
    requires forall p :: p in plans ==> WitnessPlanned(p.schemaRef, p.kindLabel)
    ensures AddsOnly(db, db', intent, ids)
    decreases |plans|
  {
    hide InsertWitness, AddsOnly, WitnessPlanned;
    if plans == [] {
      NothingAdded(db, db', intent, ids);
    } else {
      var db1 := InsertWitness(db, plans[0], intent).value;
      assert plans[0] in plans;
      WitnessAdded(db, plans[0], intent, db1, ids);
      WitnessesAdded(db1, plans[1..], intent, db', ids);
      AddedTwice(db, db1, db', intent, ids);
    }
  }

  lemma {:induction false} ContextsOnly(db: DB, contexts: seq<RetainedContext>)
    requires InsertContexts(db, contexts).Ok?
    ensures InsertContexts(db, contexts).value.records == db.records && InsertContexts(db, contexts).value.paths == db.paths
    decreases |contexts|
  {
    if contexts != [] {
      ContextsOnly(db.(contexts := db.contexts[contexts[0].contextID := contexts[0]]), contexts[1..]);
    }
  }

  // ---- Plans ---------------------------------------------------------------

  ghost predicate AllPlanned(plans: seq<WitnessPlan>) {
    forall p :: p in plans ==> WitnessPlanned(p.schemaRef, p.kindLabel)
  }

  lemma {:induction false} DraftsPlanNothing(k: Kernel, db: DB, intent: Bytes, g: AppendGroup, ctx: RetainedContext,
                                             plan: WitnessPlan, drafts: seq<RecordDraft>, st: Staging, st': Staging)
    requires StageDrafts(k, db, intent, g, ctx, plan, drafts, st) == Ok(st')
    ensures st'.plans == st.plans
    decreases |drafts|
  {
    hide RecordDigest, ResolvedCauses, ParentsKnown, FactOf;
    if drafts != [] {
      var st1 := StageDraft(k, db, intent, g, ctx, plan, drafts[0], st).value;
      DraftsPlanNothing(k, db, intent, g, ctx, plan, drafts[1..], st1, st');
    }
  }

  lemma GroupPlanned(k: Kernel, db: DB, op: OperationContext, intent: Bytes, index: nat, g: AppendGroup, st: Staging,
                     st': Staging)
    requires AllPlanned(st.plans) && StageGroup(k, db, op, intent, index, g, st) == Ok(st')
    ensures AllPlanned(st'.plans)
  {
    hide StageDrafts, ResolveGroupContext, RecordDigest, RootWitnessID, AddPlan;
    if g.drafts != [] {
      var ctx := ResolveGroupContext(k, db, intent, index, g.context, op).value;
      var plan := OrdinaryWitnessPlan(k, ctx, op).value;
      AddPlanContents(st.plans, RootWitnessPlan(k));
      AddPlanContents(AddPlan(st.plans, RootWitnessPlan(k)), plan);
      DraftsPlanNothing(k, db, intent, g, ctx, plan, g.drafts, OpenGroup(k, db, ctx, plan, st), st');
    }
  }

  lemma {:induction false} GroupsPlanned(k: Kernel, db: DB, op: OperationContext, intent: Bytes, index: nat,
                                         groups: seq<AppendGroup>, st: Staging, st': Staging)
    requires AllPlanned(st.plans) && StageGroups(k, db, op, intent, index, groups, st) == Ok(st')
    ensures AllPlanned(st'.plans)
    decreases |groups|
  {
    hide AllPlanned, StageGroup;
    if groups != [] {
      var st1 := StageGroup(k, db, op, intent, index, groups[0], st).value;
      GroupPlanned(k, db, op, intent, index, groups[0], st, st1);
      GroupsPlanned(k, db, op, intent, index + 1, groups[1..], st1, st');
    }
  }

  lemma StagePlans(k: Kernel, db: DB, op: OperationContext, batch: AppendBatch, st: Staging)
    requires Stage(k, db, op, batch) == Ok(st)
    ensures AllPlanned(st.plans)
  {
    hide StageGroups;
    GroupsPlanned(k, db, op, batch.intent, 0, batch.groups, NOTHING, st);
  }

  // ---- Appends -------------------------------------------------------------

  lemma FactsNamed(drafts: seq<RecordDraft>, owners: seq<Bytes>, facts: seq<Fact>, intent: Bytes)
    requires FactsFromDrafts(drafts, owners, facts, intent)
    ensures forall f :: f in facts ==> f.id in StagedIDs(facts) && f.row.intent == intent
  {
    forall f | f in facts ensures f.id in StagedIDs(facts) && f.row.intent == intent {
      var i :| 0 <= i < |facts| && facts[i] == f;
      assert StagedIDs(facts)[i] == f.id;
    }
  }

  lemma InsertedOnly(base: DB, intent: Bytes, row: IntentRow, st: Staging, db': DB)
    requires InsertAll(base, intent, row, st) == Ok(db') && AllPlanned(st.plans)
    requires forall f :: f in st.facts ==> f.id in StagedIDs(st.facts) && f.row.intent == intent
    ensures AddsOnly(base, db', intent, StagedIDs(st.facts))
  {
    var ids := StagedIDs(st.facts);
    var db0 := base.(intents := base.intents[intent := row]);
    var db1, start, db3 := InsertAllSteps(base, intent, row, st, db');
    ContextsOnly(db0, st.contexts);
    hide AddsOnly, InsertContexts, InsertWitnesses, InsertFacts, InsertAll, WitnessPlanned, StagedIDs;
    NothingAdded(base, db1, intent, ids);
    WitnessesAdded(db1, st.plans, intent, start, ids);
    FactsAdded(base, start, st.facts, 0, intent, db3, ids);
    AddedTwice(base, db1, start, intent, ids);
    AddedTwice(base, start, db3, intent, ids);
    NothingAdded(db3, db', intent, ids);
    AddedTwice(base, db3, db', intent, ids);
  }

  /** A new append adds the records and entries of its drafts and of witnesses, and nothing else, all under its intent. */
  lemma AppendAddsOnly(k: Kernel, db: DB, op: OperationContext, batch: AppendBatch, db': DB, receipt: AppendReceipt)
    requires StoreInv(k, db) && AppendTx(k, db, op, batch) == Ok((db', receipt, true))
    ensures AddsOnly(db, db', batch.intent, receipt.factIDs)
  {
    hide *;
    var digest, st := AppendCases(k, db, op, batch, db', receipt, true);
    CommitInserts(db, batch.intent, digest, st, db');
    ReceiptParts(db, batch.intent, st);
    ContextIds(k, db);
    StageEstablishes(k, db, op, batch, st);
    StagedCauses(k, db, batch.intent, AllDrafts(batch.groups), AllOwners(batch.groups), st);
    FactsNamed(AllDrafts(batch.groups), AllOwners(batch.groups), st.facts, batch.intent);
    StagePlans(k, db, op, batch, st);
    InsertedOnly(db, batch.intent, IntentRow(digest, ReceiptFor(db, batch.intent, st)), st, db');
  }
}
