/** Appends, publications and whole runs: what every reachable state satisfies, and what stays. */
module Runs {
  import opened Wrappers
  import opened Utf8
  import opened Canonical
  import opened CanonicalLaws
  import opened Trace
  import opened Digests
  import opened Tables
  import opened Append
  import opened Invariant
  import opened StagingLaws
  import opened Commits
  import opened Origins
  import opened BatchLaws
  import opened WitnessLaws
  import opened Frontiers

  // ---- Appending -----------------------------------------------------------

  /** A new append commits the staged batch; a retry returns the recorded receipt and changes nothing. */
  lemma AppendCases(k: Kernel, db: DB, op: OperationContext, batch: AppendBatch, db': DB, receipt: AppendReceipt,
                    isNew: bool) returns (digest: Bytes, st: Staging)
    requires AppendTx(k, db, op, batch) == Ok((db', receipt, isNew))
    ensures BatchShape(batch) && BatchDigest(k, batch, op) == Ok(digest)
    ensures isNew <==> batch.intent !in db.intents
    ensures !isNew ==> db' == db && db.intents[batch.intent] == IntentRow(digest, receipt)
    ensures isNew ==> Stage(k, db, op, batch) == Ok(st) && Commit(db, batch.intent, digest, st) == Ok(db')
    ensures isNew ==> receipt == ReceiptFor(db, batch.intent, st)
  {
    digest := BatchDigest(k, batch, op).value;
    if batch.intent in db.intents {
      assert db.intents[batch.intent].digest == digest;
      st := NOTHING;
    } else {
      st := Stage(k, db, op, batch).value;
    }
  }

  lemma GrowsReflexive(db: DB)
    ensures Grows(db, db)
  {
  }

  /** Append keeps the invariant, only adds, and leaves the receipt it returns under the intent. */
  lemma AppendKeeps(k: Kernel, db: DB, op: OperationContext, batch: AppendBatch, db': DB, receipt: AppendReceipt,
                    isNew: bool)
    requires StoreInv(k, db) && AppendTx(k, db, op, batch) == Ok((db', receipt, isNew))
    ensures StoreInv(k, db') && Grows(db, db') && db'.frontiers == db.frontiers
    ensures batch.intent in db'.intents && db'.intents[batch.intent].receipt == receipt
    ensures BatchDigest(k, batch, op) == Ok(db'.intents[batch.intent].digest)
    ensures !isNew ==> db' == db
  {
    hide *;
    var digest, st := AppendCases(k, db, op, batch, db', receipt, isNew);
    if isNew {
      CommitKeeps(k, db, op, batch, digest, st, db');
    } else {
      GrowsReflexive(db);
    }
  }

  /** A failing append returns the tables it was given. */
  lemma AppendToKeeps(k: Kernel, db: DB, op: OperationContext, batch: AppendBatch)
    requires StoreInv(k, db)
    ensures var (db', r) := AppendTo(k, db, op, batch);
            StoreInv(k, db') && Grows(db, db') && (r.Err? ==> db' == db)
  {
    GrowsReflexive(db);
    if AppendAuthorized(op) && AppendTx(k, db, op, batch).Ok? {
      var (db1, receipt, isNew) := AppendTx(k, db, op, batch).value;
      AppendKeeps(k, db, op, batch, db1, receipt, isNew);
    }
  }

  // ---- The invariant with collision-free digests ---------------------------

  /** What collision-free digests add to the invariant */
  ghost predicate Sound(k: Kernel, db: DB) {
    && StoreInv(k, db)
    && Witnessed(k, db.log, db.records)
    && Named(db.paths)
    && FrontiersAgree(db)
  }

  lemma FrontiersAgreeLater(db: DB, db': DB)
    requires FrontiersAgree(db) && Grows(db, db') && db'.frontiers == db.frontiers
    ensures FrontiersAgree(db')
  {
    forall id | id in db'.frontiers ensures FrontierAgrees(db', id, db'.frontiers[id]) {
      FrontierAgreesLater(db, db', id, db.frontiers[id]);
    }
  }

  lemma SoundParts(k: Kernel, db: DB)
    requires Sound(k, db)
    ensures StoreInv(k, db) && Witnessed(k, db.log, db.records) && Named(db.paths) && FrontiersAgree(db)
  {
  }

  lemma SoundOfParts(k: Kernel, db: DB)
    requires StoreInv(k, db) && Witnessed(k, db.log, db.records) && Named(db.paths) && FrontiersAgree(db)
    ensures Sound(k, db)
  {
  }

  lemma AppendStaysSound(k: Kernel, db: DB, op: OperationContext, batch: AppendBatch, db': DB, receipt: AppendReceipt,
                         isNew: bool)
    requires CollisionFree(k) && Sound(k, db) && AppendTx(k, db, op, batch) == Ok((db', receipt, isNew))
    ensures Sound(k, db') && Grows(db, db')
  {
    hide *;
    SoundParts(k, db);
    CollisionFreeRoot(k);
    AppendKeeps(k, db, op, batch, db', receipt, isNew);
    var digest, st := AppendCases(k, db, op, batch, db', receipt, isNew);
    if isNew {
      var row := IntentRow(digest, ReceiptFor(db, batch.intent, st));
      CommitInserts(db, batch.intent, digest, st, db');
      CommitWitnessed(k, db, op, batch, row, st, db');
      CommitNamed(k, db, op, batch, row, st, db');
    }
    FrontiersAgreeLater(db, db');
    SoundOfParts(k, db');
  }

  // ---- Retried batches -----------------------------------------------------

  /** Two batches with the same digest payload */
  ghost predicate SamePayloadDigested(k: Kernel, a: AppendBatch, aop: OperationContext, b: AppendBatch,
                                      bop: OperationContext)
  {
    Meaning(AsciiEncoder(k), BatchJson(a, aop)) == Meaning(AsciiEncoder(k), BatchJson(b, bop))
  }

  /** Without collisions, equal batch digests mean equal digest payloads, and conversely. */
  lemma SameBatchDigest(k: Kernel, a: AppendBatch, aop: OperationContext, b: AppendBatch, bop: OperationContext)
    requires CollisionFree(k) && BatchDigest(k, a, aop).Ok? && BatchDigest(k, b, bop).Ok?
    ensures BatchDigest(k, a, aop) == BatchDigest(k, b, bop) <==> SamePayloadDigested(k, a, aop, b, bop)
  {
    WriterIsUnambiguous(AsciiEncoder(k), BatchJson(a, aop), BatchJson(b, bop));
  }

  /** The intent was committed for a batch with this batch's digest payload. */
  ghost predicate CommittedAs(k: Kernel, db: DB, batch: AppendBatch, op: OperationContext, b: AppendBatch,
                              bop: OperationContext, from: nat, places: seq<Place>)
  {
    && batch.intent in db.intents && b.intent == batch.intent
    && IsCommit(k, db, b, bop, db.intents[batch.intent], from, places)
    && SamePayloadDigested(k, b, bop, batch, op)
  }

  lemma CommittedBatch(k: Kernel, db: DB, batch: AppendBatch, op: OperationContext)
      returns (b: AppendBatch, bop: OperationContext, from: nat, places: seq<Place>)
    requires CollisionFree(k) && IntentsHold(k, db) && batch.intent in db.intents
    requires BatchDigest(k, batch, op) == Ok(db.intents[batch.intent].digest)
    ensures CommittedAs(k, db, batch, op, b, bop, from, places)
  {
    var row := db.intents[batch.intent];
    assert IntentHolds(k, db, batch.intent, row);
    b, bop, from, places :| b.intent == batch.intent && IsCommit(k, db, b, bop, row, from, places);
    SameBatchDigest(k, b, bop, batch, op);
  }

  // ---- Publishing ----------------------------------------------------------

  /** The retained fact of a published frontier says the frontier that was published. */
  ghost predicate PublishedBy(db: DB, spec: FrontierSpec, ordinal: nat, id: Bytes) {
    id in db.records && FactSays(db.records[id].body, Frontier(spec.frontierID, spec.target, spec.throughFact, ordinal,
                                                                 PublisherOf(spec), id))
  }

  function FrontierDraft(spec: FrontierSpec, ordinal: nat): RecordDraft {
    RecordDraft(CAPTURE, FRONTIER_SCHEMA, Some(FrontierPayload(spec, ordinal)), "frontier_published", "", [], [])
  }

  lemma OneDraft(op: OperationContext, spec: FrontierSpec, ordinal: nat)
    ensures |FrontierBatch(op, spec, ordinal).groups| == 1
    ensures FrontierBatch(op, spec, ordinal).groups[0].drafts == [FrontierDraft(spec, ordinal)]
  {
  }

  /** A batch with a frontier batch's digest payload has one draft, whose payload means the frontier's. */
  lemma SameAsFrontierBatch(k: Kernel, op: OperationContext, spec: FrontierSpec, ordinal: nat, b: AppendBatch,
                            bop: OperationContext)
    requires SamePayloadDigested(k, b, bop, FrontierBatch(op, spec, ordinal), op)
    ensures |AllDrafts(b.groups)| == 1
    ensures SameDraft(AsciiEncoder(k), AllDrafts(b.groups)[0], FrontierDraft(spec, ordinal))
  {
    var batch := FrontierBatch(op, spec, ordinal);
    OneDraft(op, spec, ordinal);
    BatchDetermined(AsciiEncoder(k), b, bop, batch, op);
    assert SameGroup(AsciiEncoder(k), b.groups[0], batch.groups[0]);
    assert SameDraft(AsciiEncoder(k), b.groups[0].drafts[0], batch.groups[0].drafts[0]);
    assert AllDrafts(b.groups) == b.groups[0].drafts + AllDrafts(b.groups[1..]);
    assert b.groups[1..] == [];
    assert AllDrafts(b.groups) == b.groups[0].drafts;
  }

  lemma FrontierFactRetained(k: Kernel, db: DB, op: OperationContext, spec: FrontierSpec, ordinal: nat)
    requires CollisionFree(k) && IntentsHold(k, db)
    requires spec.frontierID != "" && spec.target != "" && spec.throughFact != ""
    requires var batch := FrontierBatch(op, spec, ordinal);
             batch.intent in db.intents && BatchDigest(k, batch, op) == Ok(db.intents[batch.intent].digest)
    ensures var ids := db.intents[FrontierBatch(op, spec, ordinal).intent].receipt.factIDs;
            |ids| == 1 && PublishedBy(db, spec, ordinal, ids[0])
  {
    var batch := FrontierBatch(op, spec, ordinal);
    var b, bop, from, places := CommittedBatch(k, db, batch, op);
    SameAsFrontierBatch(k, op, spec, ordinal, b, bop);
    DraftIsRetained(k, db, b, bop, db.intents[batch.intent], from, places, 0);
    var draft, id := AllDrafts(b.groups)[0], db.intents[batch.intent].receipt.factIDs[0];
    hide IsCommit, DraftRetained, CommittedAs, FrontierBatch, FactSays;
    assert draft.payload.Some? && Meaning(AsciiEncoder(k), Obj(draft.payload.value)) ==
                                  Meaning(AsciiEncoder(k), Obj(FrontierPayload(spec, ordinal)));
    StoredPayloadSays(AsciiEncoder(k), draft.payload.value, spec, ordinal, id);
  }

  lemma DraftIsRetained(k: Kernel, db: DB, batch: AppendBatch, op: OperationContext, row: IntentRow, from: nat,
                        places: seq<Place>, n: nat)
    requires IsCommit(k, db, batch, op, row, from, places) && n < |AllDrafts(batch.groups)|
    ensures |row.receipt.factIDs| == |AllDrafts(batch.groups)| && row.receipt.factIDs[n] in db.records
    ensures db.records[row.receipt.factIDs[n]].body == StoredBody(AllDrafts(batch.groups)[n].payload)
  {
    var drafts, owners := AllDrafts(batch.groups), AllOwners(batch.groups);
    assert DraftRetained(db, batch.intent, owners[n], drafts[n], row.receipt.factIDs[n], places[n], from + n);
  }

  lemma LatestIsPlaced(db: DB, id: Bytes, owner: Bytes)
    requires LatestOnPath(db, id, owner).Ok?
    ensures var n := LatestOnPath(db, id, owner).value;
            id in db.records && (owner, n) in db.paths && db.paths[(owner, n)].recordID == id
  {
    var n := LatestOnPath(db, id, owner).value;
    assert n in OrdinalsOf(db, id, owner);
  }

  /** The stages of a publication that does not fail */
  lemma PublishCases(k: Kernel, db: DB, op: OperationContext, spec: FrontierSpec, db': DB, f: Frontier)
      returns (ordinal: nat, db1: DB, receipt: AppendReceipt, isNew: bool)
    requires PublishTx(k, db, op, spec) == Ok((db', f))
    ensures spec.frontierID != "" && LatestOnPath(db, spec.throughFact, spec.target) == Ok(ordinal)
    ensures AppendTx(k, db, op, FrontierBatch(op, spec, ordinal)) == Ok((db1, receipt, isNew)) && receipt.factIDs != []
    ensures RecordFrontier(db1, FrontierOf(spec, ordinal, receipt.factIDs[0]), IntentOf(spec)) == Ok((db', f))
  {
    ordinal := LatestOnPath(db, spec.throughFact, spec.target).value;
    var r := AppendTx(k, db, op, FrontierBatch(op, spec, ordinal)).value;
    db1, receipt, isNew := r.0, r.1, r.2;
  }

  function FrontierOf(spec: FrontierSpec, ordinal: nat, createdBy: Bytes): Frontier {
    Frontier(spec.frontierID, spec.target, spec.throughFact, ordinal, PublisherOf(spec), createdBy)
  }

  /** Recording a frontier only adds its row, or finds one for the same cutoff. */
  lemma RecordFrontierAdds(db: DB, f: Frontier, intent: Bytes, db': DB, r: Frontier)
    requires RecordFrontier(db, f, intent) == Ok((db', r))
    ensures Grows(db, db') && db' == db.(frontiers := db'.frontiers)
    ensures f.frontierID in db'.frontiers && db'.frontiers[f.frontierID].frontier == r && SameCutoff(r, f)
    ensures f.frontierID !in db.frontiers ==> db'.frontiers == db.frontiers[f.frontierID := FrontierRow(f, intent)]
    ensures f.frontierID in db.frontiers ==> db' == db
  {
  }

  lemma TablesIgnoreFrontiers(db: DB, frontiers: map<Bytes, FrontierRow>)
    requires Core(db) && DensePaths(db) && ContextsRetained(db)
    ensures var db' := db.(frontiers := frontiers);
            Core(db') && DensePaths(db') && ContextsRetained(db') && db'.paths == db.paths && db'.log == db.log
            && db'.records == db.records && db'.nextCommit == db.nextCommit
  {
  }

  lemma FrontiersAgreeWith(db: DB, frontiers: map<Bytes, FrontierRow>)
    requires forall id :: id in frontiers ==> FrontierAgrees(db, id, frontiers[id])
    ensures FrontiersAgree(db.(frontiers := frontiers))
  {
    var db' := db.(frontiers := frontiers);
    forall id | id in db'.frontiers ensures FrontierAgrees(db', id, db'.frontiers[id]) {
      assert FrontierAgrees(db, id, frontiers[id]);
    }
  }

  /** The frontiers table can be replaced by any that agrees. */
  lemma FrontiersKept(k: Kernel, db: DB, frontiers: map<Bytes, FrontierRow>)
    requires Sound(k, db)
    requires forall id :: id in frontiers ==> FrontierAgrees(db, id, frontiers[id])
    ensures Sound(k, db.(frontiers := frontiers))
  {
    hide *;
    SoundParts(k, db);
    InvariantParts(k, db);
    TablesIgnoreFrontiers(db, frontiers);
    IntentsIgnoreFrontiers(k, db, frontiers);
    FrontiersAgreeWith(db, frontiers);
    InvariantOfParts(k, db.(frontiers := frontiers));
    SoundOfParts(k, db.(frontiers := frontiers));
  }

  lemma IntentsIgnoreFrontiers(k: Kernel, db: DB, frontiers: map<Bytes, FrontierRow>)
    requires IntentsHold(k, db)
    ensures IntentsHold(k, db.(frontiers := frontiers))
  {
    var db' := db.(frontiers := frontiers);
    forall i | i in db'.intents ensures IntentHolds(k, db', i, db'.intents[i]) {
      var batch: AppendBatch, op: OperationContext, from: nat, places: seq<Place> :|
        batch.intent == i && IsCommit(k, db, batch, op, db.intents[i], from, places);
      IsCommitWithoutFrontiers(k, db, frontiers, batch, op, db.intents[i], from, places);
    }
  }

  lemma IsCommitWithoutFrontiers(k: Kernel, db: DB, frontiers: map<Bytes, FrontierRow>, batch: AppendBatch,
                                 op: OperationContext, row: IntentRow, from: nat, places: seq<Place>)
    requires IsCommit(k, db, batch, op, row, from, places)
    ensures IsCommit(k, db.(frontiers := frontiers), batch, op, row, from, places)
  {
    hide *;
    PartsOfCommit(k, db, batch, op, row, from, places);
    var drafts, owners, r := AllDrafts(batch.groups), AllOwners(batch.groups), row.receipt;
    OriginsIgnoreFrontiers(k, db, frontiers, op, AllOrigins(batch.groups), drafts, r.factIDs, places);
    SameRecordEdges(db, frontiers, r.factIDs);
    ListingIgnoresFrontiers(db, frontiers, r.contextReceipts, Spans(batch.groups, 0), places);
    forall n | 0 <= n < |places|
      ensures DraftRetained(db.(frontiers := frontiers), batch.intent, owners[n], drafts[n], r.factIDs[n], places[n], from + n)
    {
      DraftIgnoresFrontiers(db, frontiers, batch.intent, owners[n], drafts[n], r.factIDs[n], places[n], from + n);
    }
    IsCommitOf(k, db.(frontiers := frontiers), batch, op, row, from, places);
  }

  lemma OriginsIgnoreFrontiers(k: Kernel, db: DB, frontiers: map<Bytes, FrontierRow>, op: OperationContext,
                               origins: seq<Origin>, drafts: seq<RecordDraft>, ids: seq<Bytes>, places: seq<Place>)
    requires OriginsRetained(k, db, op, origins, drafts, ids, places)
    ensures OriginsRetained(k, db.(frontiers := frontiers), op, origins, drafts, ids, places)
  {
    hide OriginsRetained;
    OriginsLater(k, db, db.(frontiers := frontiers), op, origins, drafts, ids, places);
  }

  lemma ListingIgnoresFrontiers(db: DB, frontiers: map<Bytes, FrontierRow>, contexts: seq<Bytes>, spans: seq<(nat, nat)>,
                                places: seq<Place>)
    requires ContextsListed(db, contexts, spans, places)
    ensures ContextsListed(db.(frontiers := frontiers), contexts, spans, places)
  {
    hide ContextsListed;
    ListedLater(db, db.(frontiers := frontiers), contexts, spans, places);
  }

  lemma SameRecordEdges(db: DB, frontiers: map<Bytes, FrontierRow>, ids: seq<Bytes>)
    requires forall id :: id in ids ==> id in db.records
    ensures EdgesOf(db.(frontiers := frontiers).records, ids) == EdgesOf(db.records, ids)
  {
  }

  lemma DraftIgnoresFrontiers(db: DB, frontiers: map<Bytes, FrontierRow>, intent: Bytes, owner: Bytes, d: RecordDraft,
                              id: Bytes, place: Place, number: nat)
    requires DraftRetained(db, intent, owner, d, id, place, number)
    ensures DraftRetained(db.(frontiers := frontiers), intent, owner, d, id, place, number)
  {
    hide StoredBody, LabelOf, CommitReceipt;
  }

  /** The row a publication adds agrees with the retained frontier fact. */
  lemma NewFrontierAgrees(db: DB, spec: FrontierSpec, ordinal: nat, id: Bytes)
    requires (spec.target, ordinal) in db.paths && db.paths[(spec.target, ordinal)].recordID == spec.throughFact
    requires PublishedBy(db, spec, ordinal, id) && IntentOf(spec) in db.intents
    ensures FrontierAgrees(db, spec.frontierID, FrontierRow(FrontierOf(spec, ordinal, id), IntentOf(spec)))
  {
  }

  lemma PathsStay(db: DB, db': DB, p: Place)
    requires Grows(db, db') && p in db.paths
    ensures p in db'.paths && db'.paths[p] == db.paths[p]
  {
  }

  lemma EntryNames(paths: map<Place, PathRow>, p: Place)
    requires Named(paths) && p in paths
    ensures p.0 != "" && paths[p].recordID != ""
  {
  }

  lemma FrontierIntent(op: OperationContext, spec: FrontierSpec, ordinal: nat)
    ensures FrontierBatch(op, spec, ordinal).intent == IntentOf(spec)
  {
  }

  lemma SoundIntents(k: Kernel, db: DB)
    requires Sound(k, db)
    ensures IntentsHold(k, db) && Named(db.paths)
    ensures forall id :: id in db.frontiers ==> FrontierAgrees(db, id, db.frontiers[id])
  {
  }

  /** After the append, the row to record agrees with the retained fact. */
  lemma PublishedAgrees(k: Kernel, db: DB, op: OperationContext, spec: FrontierSpec, ordinal: nat, db1: DB,
                        receipt: AppendReceipt, isNew: bool)
    requires CollisionFree(k) && Sound(k, db) && spec.frontierID != ""
    requires LatestOnPath(db, spec.throughFact, spec.target) == Ok(ordinal)
    requires AppendTx(k, db, op, FrontierBatch(op, spec, ordinal)) == Ok((db1, receipt, isNew))
    ensures Sound(k, db1) && Grows(db, db1) && db1.frontiers == db.frontiers && |receipt.factIDs| == 1
    ensures var row := FrontierRow(FrontierOf(spec, ordinal, receipt.factIDs[0]), IntentOf(spec));
            FrontierAgrees(db1, spec.frontierID, row)
  {
    hide *;
    SoundParts(k, db);
    LatestIsPlaced(db, spec.throughFact, spec.target);
    EntryNames(db.paths, (spec.target, ordinal));
    AppendKeeps(k, db, op, FrontierBatch(op, spec, ordinal), db1, receipt, isNew);
    AppendStaysSound(k, db, op, FrontierBatch(op, spec, ordinal), db1, receipt, isNew);
    SoundIntents(k, db1);
    FrontierFactRetained(k, db1, op, spec, ordinal);
    FrontierIntent(op, spec, ordinal);
    PathsStay(db, db1, (spec.target, ordinal));
    NewFrontierAgrees(db1, spec, ordinal, receipt.factIDs[0]);
  }

  /** Publishing keeps the invariant, only adds, and leaves the frontier it returns in its row. */
  lemma PublishKeeps(k: Kernel, db: DB, op: OperationContext, spec: FrontierSpec, db': DB, f: Frontier)
    requires CollisionFree(k) && Sound(k, db) && PublishTx(k, db, op, spec) == Ok((db', f))
    ensures Sound(k, db') && Grows(db, db')
    ensures spec.frontierID in db'.frontiers && db'.frontiers[spec.frontierID].frontier == f
    ensures f.frontierID == spec.frontierID && f.target == spec.target && f.throughFact == spec.throughFact
  {
    hide *;
    var ordinal, db1, receipt, isNew := PublishCases(k, db, op, spec, db', f);
    PublishedAgrees(k, db, op, spec, ordinal, db1, receipt, isNew);
    var g := FrontierOf(spec, ordinal, receipt.factIDs[0]);
    FrontierOfIs(spec, ordinal, receipt.factIDs[0]);
    RecordFrontierAdds(db1, g, IntentOf(spec), db', f);
    CutoffIs(f, g);
    SoundIntents(k, db1);
    FrontiersKept(k, db1, db'.frontiers);
    GrowsTransitive(db, db1, db');
  }

  lemma FrontierOfIs(spec: FrontierSpec, ordinal: nat, id: Bytes)
    ensures var f := FrontierOf(spec, ordinal, id);
            f.frontierID == spec.frontierID && f.target == spec.target && f.throughFact == spec.throughFact
  {
  }

  lemma CutoffIs(f: Frontier, g: Frontier)
    requires SameCutoff(f, g)
    ensures f.frontierID == g.frontierID && f.target == g.target && f.throughFact == g.throughFact
    ensures f.throughOrdinal == g.throughOrdinal
  {
  }

  /** Publishing needs no assumption on digests to keep the structural invariant. */
  lemma PublishKeepsInv(k: Kernel, db: DB, op: OperationContext, spec: FrontierSpec, db': DB, f: Frontier)
    requires StoreInv(k, db) && PublishTx(k, db, op, spec) == Ok((db', f))
    ensures StoreInv(k, db') && Grows(db, db')
  {
    hide *;
    var ordinal, db1, receipt, isNew := PublishCases(k, db, op, spec, db', f);
    AppendKeeps(k, db, op, FrontierBatch(op, spec, ordinal), db1, receipt, isNew);
    RecordFrontierAdds(db1, FrontierOf(spec, ordinal, receipt.factIDs[0]), IntentOf(spec), db', f);
    InvariantParts(k, db1);
    TablesIgnoreFrontiers(db1, db'.frontiers);
    IntentsIgnoreFrontiers(k, db1, db'.frontiers);
    InvariantOfParts(k, db');
    GrowsTransitive(db, db1, db');
  }

  // ---- Runs ----------------------------------------------------------------

  datatype Op =
    | AppendOp(op: OperationContext, batch: AppendBatch)
    | PublishOp(op: OperationContext, spec: FrontierSpec)

  function Step(k: Kernel, db: DB, o: Op): DB {
    match o
    case AppendOp(op, batch) => AppendTo(k, db, op, batch).0
    case PublishOp(op, spec) => PublishTo(k, db, op, spec).0
  }

  /** The tables after a run of successful and failing operations */
  function Run(k: Kernel, db: DB, ops: seq<Op>): DB
    decreases |ops|
  {
    if ops == [] then db else Run(k, Step(k, db, ops[0]), ops[1..])
  }

  lemma StepKeepsInv(k: Kernel, db: DB, o: Op)
    requires StoreInv(k, db)
    ensures StoreInv(k, Step(k, db, o)) && Grows(db, Step(k, db, o))
  {
    match o
    case AppendOp(op, batch) => AppendToKeeps(k, db, op, batch);
    case PublishOp(op, spec) =>
      GrowsReflexive(db);
      if AppendAuthorized(op) && PublishTx(k, db, op, spec).Ok? {
        var r := PublishTx(k, db, op, spec).value;
        PublishKeepsInv(k, db, op, spec, r.0, r.1);
      }
  }

  lemma StepStaysSound(k: Kernel, db: DB, o: Op)
    requires CollisionFree(k) && Sound(k, db)
    ensures Sound(k, Step(k, db, o))
  {
    match o
    case AppendOp(op, batch) =>
      if AppendAuthorized(op) && AppendTx(k, db, op, batch).Ok? {
        var r := AppendTx(k, db, op, batch).value;
        AppendStaysSound(k, db, op, batch, r.0, r.1, r.2);
      }
    case PublishOp(op, spec) =>
      if AppendAuthorized(op) && PublishTx(k, db, op, spec).Ok? {
        var r := PublishTx(k, db, op, spec).value;
        PublishKeeps(k, db, op, spec, r.0, r.1);
      }
  }

  /** Every run keeps the invariant and everything that was retained. */
  lemma {:induction false} RunKeeps(k: Kernel, db: DB, ops: seq<Op>)
    requires StoreInv(k, db)
    ensures StoreInv(k, Run(k, db, ops)) && Grows(db, Run(k, db, ops))
    decreases |ops|
  {
    if ops == [] {
      GrowsReflexive(db);
    } else {
      var db1 := Step(k, db, ops[0]);
      hide StoreInv, Grows, Step;
      StepKeepsInv(k, db, ops[0]);
      RunKeeps(k, db1, ops[1..]);
      GrowsTransitive(db, db1, Run(k, db1, ops[1..]));
    }
  }

  lemma {:induction false} RunStaysSound(k: Kernel, db: DB, ops: seq<Op>)
    requires CollisionFree(k) && Sound(k, db)
    ensures Sound(k, Run(k, db, ops))
    decreases |ops|
  {
    if ops != [] {
      hide Sound, CollisionFree, Step;
      StepStaysSound(k, db, ops[0]);
      RunStaysSound(k, Step(k, db, ops[0]), ops[1..]);
    }
  }

  lemma EmptyIsSound(k: Kernel)
    ensures Sound(k, EMPTY)
  {
  }

  /** Every state a run reaches from the empty store satisfies the invariant. */
  lemma ReachableInv(k: Kernel, ops: seq<Op>)
    ensures StoreInv(k, Run(k, EMPTY, ops))
    ensures CollisionFree(k) ==> Sound(k, Run(k, EMPTY, ops))
  {
    EmptyIsSound(k);
    SoundParts(k, EMPTY);
    RunKeeps(k, EMPTY, ops);
    if CollisionFree(k) { RunStaysSound(k, EMPTY, ops); }
  }

  // ---- Exactly once --------------------------------------------------------

  /** A committed batch, retried in any later state, gets its first receipt back and changes nothing. */
  lemma RetryReturnsReceipt(k: Kernel, db: DB, op: OperationContext, batch: AppendBatch, db': DB,
                            receipt: AppendReceipt, isNew: bool, ops: seq<Op>)
    requires StoreInv(k, db) && AppendTx(k, db, op, batch) == Ok((db', receipt, isNew))
    ensures var later := Run(k, db', ops); AppendTx(k, later, op, batch) == Ok((later, receipt, false))
  {
    hide *;
    AppendKeeps(k, db, op, batch, db', receipt, isNew);
    RunKeeps(k, db', ops);
    var digest, st := AppendCases(k, db, op, batch, db', receipt, isNew);
    IntentsStay(db', Run(k, db', ops), batch.intent);
    SpentIntent(k, Run(k, db', ops), op, batch);
  }

  /** Under a committed intent, an append succeeds exactly when its digest payload is the committed one. */
  lemma IntentIsSpent(k: Kernel, db: DB, op: OperationContext, batch: AppendBatch, db': DB, receipt: AppendReceipt,
                      isNew: bool, ops: seq<Op>, op2: OperationContext, batch2: AppendBatch)
    requires CollisionFree(k) && StoreInv(k, db) && AppendTx(k, db, op, batch) == Ok((db', receipt, isNew))
    requires batch2.intent == batch.intent && BatchShape(batch2) && BatchDigest(k, batch2, op2).Ok?
    ensures var later := Run(k, db', ops);
            AppendTx(k, later, op2, batch2) ==
            if SamePayloadDigested(k, batch, op, batch2, op2) then Ok((later, receipt, false)) else Err(IntentConflict)
  {
    hide *;
    AppendKeeps(k, db, op, batch, db', receipt, isNew);
    RunKeeps(k, db', ops);
    SameBatchDigest(k, batch, op, batch2, op2);
    var later := Run(k, db', ops);
    IntentsStay(db', later, batch.intent);
    SpentIntent(k, later, op2, batch2);
  }

  lemma IntentsStay(db: DB, later: DB, intent: Bytes)
    requires Grows(db, later) && intent in db.intents
    ensures intent in later.intents && later.intents[intent] == db.intents[intent]
  {
  }

  lemma SpentIntent(k: Kernel, db: DB, op: OperationContext, batch: AppendBatch)
    requires batch.intent in db.intents && BatchShape(batch) && BatchDigest(k, batch, op).Ok?
    ensures AppendTx(k, db, op, batch) ==
            if Ok(db.intents[batch.intent].digest) == BatchDigest(k, batch, op)
            then Ok((db, db.intents[batch.intent].receipt, false)) else Err(IntentConflict)
  {
    hide BatchShape, BatchDigest;
  }
}
