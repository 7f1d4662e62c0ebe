/** Exactly when a frontier publication succeeds: its append, and the cutoff a reused frontier already has. */
module Publishing {
  import opened Wrappers
  import opened Utf8
  import opened Trace
  import opened Digests
  import opened Tables
  import opened Append
  import opened Invariant
  import opened Commits
  import opened Frontiers
  import opened Runs

  /** A frontier's intent committed exactly its fact. */
  ghost predicate IntentsName(db: DB) {
    forall id :: id in db.frontiers ==> IntentNames(db, db.frontiers[id])
  }

  predicate IntentNames(db: DB, row: FrontierRow) {
    row.intent in db.intents && db.intents[row.intent].receipt.factIDs == [row.frontier.createdBy]
  }

  // ---- Runs ----------------------------------------------------------------

  lemma IntentsNameLater(db: DB, db': DB)
    requires IntentsName(db) && Grows(db, db') && db'.frontiers == db.frontiers
    ensures IntentsName(db')
  {
    forall id | id in db'.frontiers ensures IntentNames(db', db'.frontiers[id]) {
      assert IntentNames(db, db.frontiers[id]);
    }
  }

  lemma CutoffCreator(spec: FrontierSpec, ordinal: nat, id: Bytes)
    ensures FrontierOf(spec, ordinal, id).createdBy == id && FrontierOf(spec, ordinal, id).frontierID == spec.frontierID
  {
  }

  lemma OneMoreFrontier(db: DB, db': DB, f: Frontier, intent: Bytes)
    requires IntentsName(db) && db' == db.(frontiers := db'.frontiers)
    requires db'.frontiers == db.frontiers || db'.frontiers == db.frontiers[f.frontierID := FrontierRow(f, intent)]
    requires intent in db.intents && db.intents[intent].receipt.factIDs == [f.createdBy]
    ensures IntentsName(db')
  {
    forall id | id in db'.frontiers ensures IntentNames(db', db'.frontiers[id]) {
      if id in db.frontiers { assert IntentNames(db, db.frontiers[id]); }
    }
  }

  lemma OneElement(ids: seq<Bytes>)
    requires |ids| == 1
    ensures ids == [ids[0]]
  {
  }

  lemma PublishNames(k: Kernel, db: DB, op: OperationContext, spec: FrontierSpec, db': DB, f: Frontier)
    requires CollisionFree(k) && Sound(k, db) && IntentsName(db) && PublishTx(k, db, op, spec) == Ok((db', f))
    ensures IntentsName(db')
  {
    hide *;
    var ordinal, db1, receipt, isNew := PublishCases(k, db, op, spec, db', f);
    PublishedAgrees(k, db, op, spec, ordinal, db1, receipt, isNew);
    SoundParts(k, db);
    AppendKeeps(k, db, op, FrontierBatch(op, spec, ordinal), db1, receipt, isNew);
    FrontierIntent(op, spec, ordinal);
    IntentsNameLater(db, db1);
    OneElement(receipt.factIDs);
    CutoffCreator(spec, ordinal, receipt.factIDs[0]);
    RecordFrontierAdds(db1, FrontierOf(spec, ordinal, receipt.factIDs[0]), IntentOf(spec), db', f);
    if spec.frontierID in db1.frontiers { SameTables(db1, db'); }
    OneMoreFrontier(db1, db', FrontierOf(spec, ordinal, receipt.factIDs[0]), IntentOf(spec));
  }

  lemma SameTables(db: DB, db': DB)
    requires db' == db
    ensures db'.frontiers == db.frontiers
  {
  }

  lemma StepNames(k: Kernel, db: DB, o: Op)
    requires CollisionFree(k) && Sound(k, db) && IntentsName(db)
    ensures IntentsName(Step(k, db, o))
  {
    hide CollisionFree, Sound, IntentsName, AppendTx, PublishTx, AppendAuthorized;
    match o
    case AppendOp(op, batch) =>
      if AppendAuthorized(op) && AppendTx(k, db, op, batch).Ok? {
        var r := AppendTx(k, db, op, batch).value;
        SoundParts(k, db);
        AppendKeeps(k, db, op, batch, r.0, r.1, r.2);
        IntentsNameLater(db, r.0);
      }
    case PublishOp(op, spec) =>
      if AppendAuthorized(op) && PublishTx(k, db, op, spec).Ok? {
        var r := PublishTx(k, db, op, spec).value;
        PublishNames(k, db, op, spec, r.0, r.1);
      }
  }

  lemma {:induction false} RunNames(k: Kernel, db: DB, ops: seq<Op>)
    requires CollisionFree(k) && Sound(k, db) && IntentsName(db)
    ensures IntentsName(Run(k, db, ops))
    decreases |ops|
  {
    hide CollisionFree, Sound, IntentsName, Step;
    if ops != [] {
      StepNames(k, db, ops[0]);
      StepStaysSound(k, db, ops[0]);
      RunNames(k, Step(k, db, ops[0]), ops[1..]);
    }
  }

  // ---- Succeeding ----------------------------------------------------------

  /** A fact says one frontier id. */
  lemma FactSaysOne(db: DB, id: Bytes, row: FrontierRow, id2: Bytes, row2: FrontierRow)
    requires FrontierAgrees(db, id, row) && FrontierAgrees(db, id2, row2)
    requires row.frontier.createdBy == row2.frontier.createdBy
    ensures id == id2
  {
    hide NonEmptyString, IntFromPayload;
  }

  /** No other row has the new frontier's creator or intent. */
  lemma NoOtherRow(k: Kernel, db: DB, op: OperationContext, spec: FrontierSpec, ordinal: nat, db1: DB,
                   receipt: AppendReceipt, isNew: bool, id: Bytes)
    requires CollisionFree(k) && Sound(k, db) && IntentsName(db) && spec.frontierID != ""
    requires LatestOnPath(db, spec.throughFact, spec.target) == Ok(ordinal)
    requires AppendTx(k, db, op, FrontierBatch(op, spec, ordinal)) == Ok((db1, receipt, isNew))
    requires id in db1.frontiers && |receipt.factIDs| == 1
    requires db1.frontiers[id].frontier.createdBy == receipt.factIDs[0] || db1.frontiers[id].intent == IntentOf(spec)
    ensures id == spec.frontierID
  {
    hide *;
    PublishedAgrees(k, db, op, spec, ordinal, db1, receipt, isNew);
    SoundIntents(k, db1);
    SoundParts(k, db);
    AppendKeeps(k, db, op, FrontierBatch(op, spec, ordinal), db1, receipt, isNew);
    FrontierIntent(op, spec, ordinal);
    IntentsNameLater(db, db1);
    NamesOne(db1, id);
    CutoffCreator(spec, ordinal, receipt.factIDs[0]);
    var row := FrontierRow(FrontierOf(spec, ordinal, receipt.factIDs[0]), IntentOf(spec));
    assert row.frontier == FrontierOf(spec, ordinal, receipt.factIDs[0]);
    FactSaysOne(db1, spec.frontierID, row, id, db1.frontiers[id]);
  }

  lemma NamesOne(db: DB, id: Bytes)
    requires IntentsName(db) && id in db.frontiers
    ensures var row := db.frontiers[id];
            row.intent in db.intents && db.intents[row.intent].receipt.factIDs == [row.frontier.createdBy]
  {
    assert IntentNames(db, db.frontiers[id]);
  }

  /** A reused frontier already cuts where the publication would. */
  predicate CutoffFits(db: DB, spec: FrontierSpec, ordinal: nat) {
    spec.frontierID in db.frontiers ==>
      var f := db.frontiers[spec.frontierID].frontier;
      f.target == spec.target && f.throughFact == spec.throughFact && f.throughOrdinal == ordinal
  }

  lemma RecordsExactly(db: DB, spec: FrontierSpec, ordinal: nat, id: Bytes)
    requires spec.frontierID in db.frontiers ==> db.frontiers[spec.frontierID].frontier.frontierID == spec.frontierID
    requires forall x :: x in db.frontiers
                         && (db.frontiers[x].frontier.createdBy == id || db.frontiers[x].intent == IntentOf(spec)) ==>
                           x == spec.frontierID
    requires spec.throughFact in db.records && id in db.records
    ensures RecordFrontier(db, FrontierOf(spec, ordinal, id), IntentOf(spec)).Ok? <==> CutoffFits(db, spec, ordinal)
  {
  }

  lemma PublishTxIs(k: Kernel, db: DB, op: OperationContext, spec: FrontierSpec)
    ensures PublishTx(k, db, op, spec).Ok? <==>
              && spec.frontierID != ""
              && LatestOnPath(db, spec.throughFact, spec.target).Ok?
              && var ordinal := LatestOnPath(db, spec.throughFact, spec.target).value;
                 var r := AppendTx(k, db, op, FrontierBatch(op, spec, ordinal));
                 r.Ok? && r.value.1.factIDs != []
                 && RecordFrontier(r.value.0, FrontierOf(spec, ordinal, r.value.1.factIDs[0]), IntentOf(spec)).Ok?
  {
    hide LatestOnPath, AppendTx, FrontierBatch, RecordFrontier;
  }

  lemma AgreeingRow(db: DB, id: Bytes, row: FrontierRow)
    requires FrontierAgrees(db, id, row)
    ensures row.frontier.createdBy in db.records && row.frontier.frontierID == id
  {
  }

  lemma RetainedStays(db: DB, db': DB, id: Bytes)
    requires Grows(db, db') && id in db.records
    ensures id in db'.records
  {
  }

  lemma SameFits(db: DB, db1: DB, spec: FrontierSpec, ordinal: nat)
    requires db1.frontiers == db.frontiers
    ensures CutoffFits(db, spec, ordinal) <==> CutoffFits(db1, spec, ordinal)
  {
  }

  /** Once its append succeeds, a publication succeeds exactly when a frontier of that id already cuts there. */
  lemma RecordedExactly(k: Kernel, db: DB, op: OperationContext, spec: FrontierSpec, ordinal: nat, db1: DB,
                        receipt: AppendReceipt, isNew: bool)
    requires CollisionFree(k) && Sound(k, db) && IntentsName(db) && spec.frontierID != ""
    requires LatestOnPath(db, spec.throughFact, spec.target) == Ok(ordinal)
    requires AppendTx(k, db, op, FrontierBatch(op, spec, ordinal)) == Ok((db1, receipt, isNew))
    ensures |receipt.factIDs| == 1
    ensures RecordFrontier(db1, FrontierOf(spec, ordinal, receipt.factIDs[0]), IntentOf(spec)).Ok? <==>
              CutoffFits(db, spec, ordinal)
  {
    hide *;
    PublishedAgrees(k, db, op, spec, ordinal, db1, receipt, isNew);
    var fid := receipt.factIDs[0];
    AgreeingRow(db1, spec.frontierID, FrontierRow(FrontierOf(spec, ordinal, fid), IntentOf(spec)));
    CutoffCreator(spec, ordinal, fid);
    SoundIntents(k, db1);
    if spec.frontierID in db1.frontiers { AgreeingRow(db1, spec.frontierID, db1.frontiers[spec.frontierID]); }
    forall x | x in db1.frontiers
               && (db1.frontiers[x].frontier.createdBy == fid || db1.frontiers[x].intent == IntentOf(spec))
      ensures x == spec.frontierID
    {
      NoOtherRow(k, db, op, spec, ordinal, db1, receipt, isNew, x);
    }
    LatestIsPlaced(db, spec.throughFact, spec.target);
    RetainedStays(db, db1, spec.throughFact);
    RecordsExactly(db1, spec, ordinal, fid);
    SameFits(db, db1, spec, ordinal);
  }

  /**
    * Without collisions, exactly when a publication succeeds in a reachable state: the frontier has an id, the through
    * fact is on the target's path, the frontier fact can be appended, and a frontier of that id, if there is one,
    * already cuts at the through fact's latest place there.
    */
  lemma PublishSucceedsExactly(k: Kernel, ops: seq<Op>, op: OperationContext, spec: FrontierSpec)
    requires CollisionFree(k)
    ensures var db := Run(k, EMPTY, ops);
            var ordinal := LatestOnPath(db, spec.throughFact, spec.target);
            PublishTx(k, db, op, spec).Ok? <==>
              && spec.frontierID != "" && ordinal.Ok?
              && AppendTx(k, db, op, FrontierBatch(op, spec, ordinal.value)).Ok?
              && CutoffFits(db, spec, ordinal.value)
  {
    hide *;
    EmptyNames();
    EmptyIsSound(k);
    RunNames(k, EMPTY, ops);
    ReachableInv(k, ops);
    var db := Run(k, EMPTY, ops);
    PublishTxIs(k, db, op, spec);
    var ordinal := LatestOnPath(db, spec.throughFact, spec.target);
    if spec.frontierID != "" && ordinal.Ok? && AppendTx(k, db, op, FrontierBatch(op, spec, ordinal.value)).Ok? {
      var r := AppendTx(k, db, op, FrontierBatch(op, spec, ordinal.value)).value;
      RecordedExactly(k, db, op, spec, ordinal.value, r.0, r.1, r.2);
    }
  }

  lemma EmptyNames()
    ensures IntentsName(EMPTY)
  {
  }
}
