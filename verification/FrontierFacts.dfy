/** What a publication retains, and where it cuts. */
module FrontierFacts {
  import opened Wrappers
  import opened Utf8
  import opened Canonical
  import opened Trace
  import opened Digests
  import opened Tables
  import opened Append
  import opened Invariant
  import opened StagingLaws
  import opened Commits
  import opened Origins
  import opened BatchLaws
  import opened Frontiers
  import opened Runs

  /** The context a publication makes: the caller's authority and schema environment on the local substrate */
  predicate PublishedIn(op: OperationContext, c: RetainedContext) {
    && c.activeBindings == [] && c.visibilityPolicies == [] && c.capabilityWitnesses == op.authorityRefs
    && c.semanticEnvironments == [op.schemaEnvironment] && c.substrate == "sqlite.local.v1" && c.containment == "contained"
  }

  predicate PlacedFor(db: DB, p: Place, op: OperationContext, id: Bytes, owner: Bytes, intent: Bytes) {
    && p in db.paths && p.0 == owner && db.paths[p].recordID == id && db.paths[p].intent == intent
    && db.paths[p].kindLabel == "frontier_published"
    && db.paths[p].contextRef in db.contexts && PublishedIn(op, db.contexts[db.paths[p].contextRef])
  }

  /** The fact is on the owner's path under this append, as a frontier capture with these causes. */
  ghost predicate FrontierFactAt(db: DB, op: OperationContext, id: Bytes, owner: Bytes, intent: Bytes,
                                 causes: seq<Bytes>)
  {
    && (exists p :: PlacedFor(db, p, op, id, owner, intent))
    && id in db.records && db.records[id].mode == "capture" && db.records[id].causedBy == causes
    && db.records[id].schemaRef == "shepherd2.frontier.owner_cutoff.v1"
  }

  /** The last place of a fact on a path */
  ghost predicate LastOn(db: DB, owner: Bytes, ordinal: int, id: Bytes) {
    && ordinal >= 0 && (owner, ordinal) in db.paths && db.paths[(owner, ordinal)].recordID == id
    && forall n: nat :: (owner, n) in db.paths && db.paths[(owner, n)].recordID == id ==> n <= ordinal
  }

  lemma LatestIsLast(db: DB, id: Bytes, owner: Bytes)
    requires LatestOnPath(db, id, owner).Ok?
    ensures LastOn(db, owner, LatestOnPath(db, id, owner).value, id)
  {
    LatestIsPlaced(db, id, owner);
    forall n: nat | (owner, n) in db.paths && db.paths[(owner, n)].recordID == id
      ensures n <= LatestOnPath(db, id, owner).value
    {
      assert n in OrdinalsOf(db, id, owner);
    }
  }

  /** What a batch with a frontier batch's digest payload appends */
  lemma SameFrontierGroup(k: Kernel, op: OperationContext, spec: FrontierSpec, ordinal: nat, b: AppendBatch,
                          bop: OperationContext)
    requires SamePayloadDigested(k, b, bop, FrontierBatch(op, spec, ordinal), op)
    ensures |AllDrafts(b.groups)| == |AllOwners(b.groups)| == |AllOrigins(b.groups)| == 1
    ensures var d := AllDrafts(b.groups)[0];
            && d.mode == CAPTURE && d.schemaRef == FRONTIER_SCHEMA && d.kindLabel == "frontier_published"
            && d.causedBy == [] && d.causedByLocal == []
    ensures AllOwners(b.groups)[0] == PublisherOf(spec)
    ensures AllOrigins(b.groups)[0].parents == [spec.throughFact] + spec.causedBy
    ensures forall c :: ContextAs(AllOrigins(b.groups)[0], bop, c) ==> PublishedIn(op, c)
  {
    var e, batch := AsciiEncoder(k), FrontierBatch(op, spec, ordinal);
    OneDraft(op, spec, ordinal);
    assert batch.groups[0].owner == PublisherOf(spec);
    assert batch.groups[0].causalParents == [spec.throughFact] + spec.causedBy;
    SameAsFrontierBatch(k, op, spec, ordinal, b, bop);
    BatchDetermined(e, b, bop, batch, op);
    hide FrontierBatch, SamePayload, SameContextDraft, FrontierPayload, PublisherOf, BatchJson, Meaning;
    assert |b.groups| == 1 && SameGroup(e, b.groups[0], batch.groups[0]);
    assert b.groups == [b.groups[0]];
    OneGroupParts(b.groups[0]);
    hide SameGroup;
    forall c | ContextAs(AllOrigins(b.groups)[0], bop, c) ensures PublishedIn(op, c) {
      ContextOfPublication(op, spec, ordinal, b.groups[0], bop, c);
    }
  }

  lemma ContextOfPublication(op: OperationContext, spec: FrontierSpec, ordinal: nat, g: AppendGroup,
                             bop: OperationContext, c: RetainedContext)
    requires SameContextDraft(g.context, FrontierBatch(op, spec, ordinal).groups[0].context)
    requires bop.schemaEnvironment == op.schemaEnvironment && ContextAs(OriginOf(g), bop, c)
    ensures PublishedIn(op, c)
  {
    var ctx := FrontierBatch(op, spec, ordinal).groups[0].context.value;
    var env := op.schemaEnvironment;
    assert ctx.semanticEnvironments == [env];
    if g.context.Some? {
      assert g.context.value.(contextID := "").semanticEnvironments == ctx.(contextID := "").semanticEnvironments;
      assert Deduplicate([env] + [env]) == [env] by {
        var two := [env] + [env];
        assert two[..1] == [env] && [env][..0] == [];
        assert Deduplicate<Bytes>([]) == [] && Deduplicate([env]) == [env];
      }
    }
  }

  lemma OneGroupParts(g: AppendGroup)
    requires |g.drafts| == 1
    ensures AllDrafts([g]) == [g.drafts[0]] && AllOwners([g]) == [g.owner] && AllOrigins([g]) == [OriginOf(g)]
  {
    assert [g][1..] == [];
    assert AllDrafts([]) == [] && AllOwners([]) == [] && AllOrigins([]) == [];
    assert Repeat(g.owner, 1) == [g.owner] + Repeat(g.owner, 0);
    assert Copies(OriginOf(g), 1) == [OriginOf(g)] + Copies(OriginOf(g), 0);
  }

  lemma FirstIsAt(k: Kernel, db: DB, op: OperationContext, batch: AppendBatch, row: IntentRow, from: nat,
                  places: seq<Place>, pub: OperationContext)
    requires IsCommit(k, db, batch, op, row, from, places)
    requires |AllDrafts(batch.groups)| == |AllOwners(batch.groups)| == |AllOrigins(batch.groups)| == 1
    requires var d := AllDrafts(batch.groups)[0];
             && d.mode == CAPTURE && d.schemaRef == FRONTIER_SCHEMA && d.kindLabel == "frontier_published"
             && d.causedBy == [] && d.causedByLocal == []
    requires forall c :: ContextAs(AllOrigins(batch.groups)[0], op, c) ==> PublishedIn(pub, c)
    ensures |row.receipt.factIDs| == 1
    ensures FrontierFactAt(db, pub, row.receipt.factIDs[0], AllOwners(batch.groups)[0], batch.intent,
                           AllOrigins(batch.groups)[0].parents)
  {
    hide *;
    PartsOfCommit(k, db, batch, op, row, from, places);
    var ids, drafts := row.receipt.factIDs, AllDrafts(batch.groups);
    FirstCauses(k, db, op, AllOrigins(batch.groups), drafts, ids, places, pub);
    FirstRetained(db, pub, batch.intent, AllOwners(batch.groups)[0], drafts[0], ids[0], places[0], from + 0,
                  AllOrigins(batch.groups)[0].parents);
  }

  lemma FirstCauses(k: Kernel, db: DB, op: OperationContext, origins: seq<Origin>, drafts: seq<RecordDraft>,
                    ids: seq<Bytes>, places: seq<Place>, pub: OperationContext)
    requires OriginsRetained(k, db, op, origins, drafts, ids, places)
    requires |drafts| == 1 && drafts[0].causedBy == [] && drafts[0].causedByLocal == []
    requires forall c :: ContextAs(origins[0], op, c) ==> PublishedIn(pub, c)
    ensures |places| == 1 && places[0] in db.paths
    ensures db.paths[places[0]].contextRef in db.contexts && PublishedIn(pub, db.contexts[db.paths[places[0]].contextRef])
    ensures |ids| == |origins| == 1 && ids[0] in db.records && db.records[ids[0]].causedBy == origins[0].parents
  {
    hide ContextAs, CitesAs, PublishedIn;
    assert OriginRetained(k, db, op, origins[0], drafts, ids, places[0], 0);
  }

  lemma FirstRetained(db: DB, pub: OperationContext, intent: Bytes, owner: Bytes, d: RecordDraft, id: Bytes, place: Place,
                      number: nat, causes: seq<Bytes>)
    requires DraftRetained(db, intent, owner, d, id, place, number)
    requires d.mode == CAPTURE && d.schemaRef == FRONTIER_SCHEMA && d.kindLabel == "frontier_published"
    requires db.records[id].causedBy == causes
    requires db.paths[place].contextRef in db.contexts && PublishedIn(pub, db.contexts[db.paths[place].contextRef])
    ensures FrontierFactAt(db, pub, id, owner, intent, causes)
  {
    hide StoredBody, CommitReceipt, PublishedIn;
    assert PlacedFor(db, place, pub, id, owner, intent);
  }

  /** The fact an append of a frontier batch leaves */
  lemma FactOfPublication(k: Kernel, db: DB, op: OperationContext, spec: FrontierSpec, ordinal: nat)
    requires CollisionFree(k) && IntentsHold(k, db)
    requires var batch := FrontierBatch(op, spec, ordinal);
             batch.intent in db.intents && BatchDigest(k, batch, op) == Ok(db.intents[batch.intent].digest)
    ensures var ids := db.intents[FrontierBatch(op, spec, ordinal).intent].receipt.factIDs;
            |ids| == 1 && FrontierFactAt(db, op, ids[0], PublisherOf(spec), FrontierBatch(op, spec, ordinal).intent,
                                         [spec.throughFact] + spec.causedBy)
  {
    hide *;
    var batch := FrontierBatch(op, spec, ordinal);
    var b, bop, from, places := CommittedBatch(k, db, batch, op);
    CommittedParts(k, db, batch, op, b, bop, from, places);
    SameFrontierGroup(k, op, spec, ordinal, b, bop);
    FirstIsAt(k, db, bop, b, db.intents[batch.intent], from, places, op);
  }

  lemma CommittedParts(k: Kernel, db: DB, batch: AppendBatch, op: OperationContext, b: AppendBatch,
                       bop: OperationContext, from: nat, places: seq<Place>)
    requires CommittedAs(k, db, batch, op, b, bop, from, places)
    ensures batch.intent in db.intents && b.intent == batch.intent
    ensures IsCommit(k, db, b, bop, db.intents[batch.intent], from, places)
    ensures SamePayloadDigested(k, b, bop, batch, op)
  {
    hide IsCommit, SamePayloadDigested;
  }

  lemma FrontierFactStays(db: DB, db': DB, op: OperationContext, id: Bytes, owner: Bytes, intent: Bytes, causes: seq<Bytes>)
    requires FrontierFactAt(db, op, id, owner, intent, causes) && Grows(db, db')
    ensures FrontierFactAt(db', op, id, owner, intent, causes)
  {
    var p :| PlacedFor(db, p, op, id, owner, intent);
    assert PlacedFor(db', p, op, id, owner, intent);
  }

  lemma NewRow(spec: FrontierSpec, ordinal: nat, id: Bytes)
    ensures var f := FrontierOf(spec, ordinal, id);
            && f.throughOrdinal == ordinal && f.publisher == PublisherOf(spec) && f.createdBy == id
            && f.frontierID == spec.frontierID
    ensures PublisherOf(spec) == (if spec.publisher == "" then spec.target else spec.publisher)
    ensures IntentOf(spec) == (if spec.intent == "" then "frontier:" + spec.frontierID else spec.intent)
  {
  }

  lemma NewOrKept(db: DB, f: Frontier, intent: Bytes, db': DB, r: Frontier)
    requires RecordFrontier(db, f, intent) == Ok((db', r))
    ensures f.frontierID in db.frontiers ==> r == db.frontiers[f.frontierID].frontier
    ensures f.frontierID !in db.frontiers ==> r == f
    ensures r.throughOrdinal == f.throughOrdinal
  {
  }

  /**
    * A publication cuts at the last place of the through fact on the target's path. Of a new frontier, the fact is
    * retained on the publisher's path, which is the target's unless another is named, under the publication's intent
    * and in a context of the caller, caused by the through fact and then the causes given; a frontier that exists is
    * returned as it is.
    */
  lemma PublicationRetains(k: Kernel, db: DB, op: OperationContext, spec: FrontierSpec, db': DB, f: Frontier)
    requires CollisionFree(k) && Sound(k, db) && PublishTx(k, db, op, spec) == Ok((db', f))
    ensures LastOn(db, spec.target, f.throughOrdinal, spec.throughFact)
    ensures spec.frontierID in db.frontiers ==> f == db.frontiers[spec.frontierID].frontier
    ensures spec.frontierID !in db.frontiers ==>
              var publisher := if spec.publisher == "" then spec.target else spec.publisher;
              var intent := if spec.intent == "" then "frontier:" + spec.frontierID else spec.intent;
              f.publisher == publisher
              && FrontierFactAt(db', op, f.createdBy, publisher, intent, [spec.throughFact] + spec.causedBy)
  {
    hide *;
    var ordinal, db1, receipt, isNew := PublishCases(k, db, op, spec, db', f);
    LatestIsLast(db, spec.throughFact, spec.target);
    SoundParts(k, db);
    var batch := FrontierBatch(op, spec, ordinal);
    PublishedAgrees(k, db, op, spec, ordinal, db1, receipt, isNew);
    AppendKeeps(k, db, op, batch, db1, receipt, isNew);
    InvariantParts(k, db1);
    FactOfPublication(k, db1, op, spec, ordinal);
    FrontierIntent(op, spec, ordinal);
    var g := FrontierOf(spec, ordinal, receipt.factIDs[0]);
    NewRow(spec, ordinal, receipt.factIDs[0]);
    RecordFrontierAdds(db1, g, IntentOf(spec), db', f);
    NewOrKept(db1, g, IntentOf(spec), db', f);
    FrontierFactStays(db1, db', op, receipt.factIDs[0], PublisherOf(spec), batch.intent,
                      [spec.throughFact] + spec.causedBy);
  }
}
