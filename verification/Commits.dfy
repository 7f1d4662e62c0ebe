/** Committing a batch: what its receipt says about the tables, and that the store invariant is kept by it. */
module Commits {
  import opened Wrappers
  import opened Utf8
  import opened Trace
  import opened Digests
  import opened Tables
  import opened Append
  import opened Invariant
  import opened StagingLaws
  import opened StoreInvariant
  import opened Origins

  // ---- What a receipt says -------------------------------------------------

  function EdgesOf(records: map<Bytes, RecordRow>, ids: seq<Bytes>): seq<(Bytes, Bytes)>
    requires forall id :: id in ids ==> id in records
  {
    if ids == [] then [] else
      var last := ids[|ids| - 1];
      EdgesOf(records, ids[..|ids| - 1]) + EdgesTo(last, records[last].causedBy)
  }

  /** How many causes the first n records have between them */
  ghost function CauseCount(records: map<Bytes, RecordRow>, ids: seq<Bytes>, n: nat): nat
    requires n <= |ids| && forall id :: id in ids ==> id in records
  {
    if n == 0 then 0 else CauseCount(records, ids, n - 1) + |records[ids[n - 1]].causedBy|
  }

  /** The edges are every cause of every record with that record, record by record and cause by cause. */
  ghost predicate ListsCauses(records: map<Bytes, RecordRow>, ids: seq<Bytes>, edges: seq<(Bytes, Bytes)>)
    requires forall id :: id in ids ==> id in records
  {
    && |edges| == CauseCount(records, ids, |ids|)
    && forall n :: 0 <= n < |ids| ==> CausesAt(records[ids[n]].causedBy, ids[n], edges, CauseCount(records, ids, n))
  }

  ghost predicate CausesAt(causes: seq<Bytes>, id: Bytes, edges: seq<(Bytes, Bytes)>, at: nat) {
    at + |causes| <= |edges| && forall i :: 0 <= i < |causes| ==> edges[at + i] == (causes[i], id)
  }

  lemma {:induction false} CauseCountPrefix(records: map<Bytes, RecordRow>, ids: seq<Bytes>, m: nat, n: nat)
    requires n <= m <= |ids| && forall id :: id in ids ==> id in records
    ensures CauseCount(records, ids[..m], n) == CauseCount(records, ids, n)
  {
    if n > 0 { CauseCountPrefix(records, ids, m, n - 1); }
  }

  lemma CausesStay(causes: seq<Bytes>, id: Bytes, edges: seq<(Bytes, Bytes)>, more: seq<(Bytes, Bytes)>, at: nat)
    requires CausesAt(causes, id, edges, at)
    ensures CausesAt(causes, id, edges + more, at)
  {
  }

  lemma LastCauses(causes: seq<Bytes>, id: Bytes, edges: seq<(Bytes, Bytes)>)
    ensures CausesAt(causes, id, edges + EdgesTo(id, causes), |edges|)
    ensures |edges + EdgesTo(id, causes)| == |edges| + |causes|
  {
  }

  /** The edges of a receipt list exactly the causes of its records. */
  lemma {:induction false} EdgesListCauses(records: map<Bytes, RecordRow>, ids: seq<Bytes>)
    requires forall id :: id in ids ==> id in records
    ensures ListsCauses(records, ids, EdgesOf(records, ids))
  {
    if ids != [] {
      var m := |ids| - 1;
      var init, edges, more := ids[..m], EdgesOf(records, ids[..m]), EdgesOf(records, ids);
      EdgesListCauses(records, init);
      CauseCountPrefix(records, ids, m, m);
      LastCauses(records[ids[m]].causedBy, ids[m], edges);
      hide CausesAt, EdgesTo;
      forall n | 0 <= n < |ids| ensures CausesAt(records[ids[n]].causedBy, ids[n], more, CauseCount(records, ids, n)) {
        if n < m {
          CauseCountPrefix(records, ids, m, n);
          assert CausesAt(records[init[n]].causedBy, init[n], edges, CauseCount(records, init, n));
          assert init[n] == ids[n];
          CausesStay(records[ids[n]].causedBy, ids[n], edges, EdgesTo(ids[m], records[ids[m]].causedBy),
                     CauseCount(records, ids, n));
        }
      }
    }
  }

  /** The n-th draft of a batch is retained as the n-th id, at the n-th place, under commit number from + n. */
  ghost predicate DraftRetained(db: DB, intent: Bytes, owner: Bytes, d: RecordDraft, id: Bytes, place: Place, number: nat) {
    && place in db.paths && place.0 == owner
    && db.paths[place].recordID == id
    && db.paths[place].receipt == CommitReceipt(number)
    && db.paths[place].intent == intent
    && db.paths[place].kindLabel == (if d.kindLabel == "" then d.schemaRef else d.kindLabel)
    && id in db.records
    && db.records[id].schemaRef == d.schemaRef
    && db.records[id].mode == d.mode
    && db.records[id].body == StoredBody(d.payload)
  }

  /** Each owner's range holds exactly the batch's places on that path, which rise in batch order. */
  ghost predicate RangesHold(ranges: map<Bytes, (int, int)>, places: seq<Place>) {
    && (forall n :: 0 <= n < |places| ==> places[n].0 in ranges)
    && (forall o :: o in ranges ==> 0 <= ranges[o].0 <= ranges[o].1)
    && (forall p: Place :: p.0 in ranges ==>
          (ranges[p.0].0 <= p.1 <= ranges[p.0].1 <==> p in places))
    && (forall m, n :: 0 <= m < n < |places| && places[m].0 == places[n].0 ==> places[m].1 < places[n].1)
  }

  ghost predicate IsCommit(k: Kernel, db: DB, batch: AppendBatch, op: OperationContext, row: IntentRow, from: nat,
                           places: seq<Place>)
  {
    var r := row.receipt;
    var drafts, owners := AllDrafts(batch.groups), AllOwners(batch.groups);
    && BatchShape(batch) && BatchDigest(k, batch, op) == Ok(row.digest)
    && r.intent == batch.intent
    && |drafts| == |owners| == |places| == |r.factIDs|
    && from + |places| <= db.nextCommit
    && r.commitReceipts == CommitReceipts(from, |places|)
    && (forall n :: 0 <= n < |places| ==>
          DraftRetained(db, batch.intent, owners[n], drafts[n], r.factIDs[n], places[n], from + n))
    && OriginsRetained(k, db, op, AllOrigins(batch.groups), drafts, r.factIDs, places)
    && RangesHold(r.ownerRanges, places)
    && (forall id :: id in r.factIDs ==> id in db.records)
    && r.causalEdges == EdgesOf(db.records, r.factIDs)
    && (forall c :: c in r.contextReceipts ==> c in db.contexts)
    && ContextsListed(db, r.contextReceipts, Spans(batch.groups, 0), places)
  }

  /** An intent row is the record of one committed batch. */
  ghost predicate IntentHolds(k: Kernel, db: DB, intent: Bytes, row: IntentRow) {
    exists batch: AppendBatch, op: OperationContext, from: nat, places: seq<Place> ::
      batch.intent == intent && IsCommit(k, db, batch, op, row, from, places)
  }

  ghost predicate IntentsHold(k: Kernel, db: DB) {
    forall i :: i in db.intents ==> IntentHolds(k, db, i, db.intents[i])
  }

  /** The invariant of every reachable state; it needs no assumption on the digest function. */
  ghost predicate StoreInv(k: Kernel, db: DB) {
    && DensePaths(db)
    && Core(db)
    && ContextsRetained(db)
    && CommitsDense(db.paths, db.nextCommit)
    && CommitsRise(db.paths)
    && IntentsHold(k, db)
  }

  lemma {:induction false} EdgesOfGrows(records: map<Bytes, RecordRow>, records': map<Bytes, RecordRow>, ids: seq<Bytes>)
    requires Extends(records', records) && forall id :: id in ids ==> id in records
    ensures EdgesOf(records', ids) == EdgesOf(records, ids)
  {
    if ids != [] { EdgesOfGrows(records, records', ids[..|ids| - 1]); }
  }

  /** What a commit recorded stays true in every later state. */
  lemma IntentHoldsLater(k: Kernel, db: DB, db': DB, intent: Bytes, row: IntentRow)
    requires IntentHolds(k, db, intent, row) && Grows(db, db')
    ensures IntentHolds(k, db', intent, row)
  {
    var batch: AppendBatch, op: OperationContext, from: nat, places: seq<Place> :|
      batch.intent == intent && IsCommit(k, db, batch, op, row, from, places);
    IsCommitLater(k, db, db', batch, op, row, from, places);
  }

  lemma IsCommitLater(k: Kernel, db: DB, db': DB, batch: AppendBatch, op: OperationContext, row: IntentRow, from: nat,
                      places: seq<Place>)
    requires IsCommit(k, db, batch, op, row, from, places) && Grows(db, db')
    ensures IsCommit(k, db', batch, op, row, from, places)
  {
    var drafts, owners, r := AllDrafts(batch.groups), AllOwners(batch.groups), row.receipt;
    EdgesOfGrows(db.records, db'.records, r.factIDs);
    OriginsLater(k, db, db', op, AllOrigins(batch.groups), drafts, r.factIDs, places);
    ListedLater(db, db', r.contextReceipts, Spans(batch.groups, 0), places);
    hide OriginsRetained, RangesHold, ContextsListed, Spans;
    forall n | 0 <= n < |places|
      ensures DraftRetained(db', batch.intent, owners[n], drafts[n], r.factIDs[n], places[n], from + n)
    {
      assert DraftRetained(db, batch.intent, owners[n], drafts[n], r.factIDs[n], places[n], from + n);
    }
  }

  // ---- Committing ----------------------------------------------------------

  function PlacesOfFacts(base: DB, facts: seq<Fact>): (r: seq<Place>)
    ensures |r| == |facts|
  {
    seq(|facts|, i requires 0 <= i < |facts| => PlaceOf(base, facts, i))
  }

  lemma RangesOfFacts(base: DB, facts: seq<Fact>)
    ensures RangesHold(OwnerRanges(base, facts), PlacesOfFacts(base, facts))
  {
    var ranges, places := OwnerRanges(base, facts), PlacesOfFacts(base, facts);
    forall n | 0 <= n < |places| ensures places[n].0 in ranges {
      assert facts[n] in facts;
    }
    forall o | o in ranges ensures 0 <= ranges[o].0 <= ranges[o].1 {
      var i :| 0 <= i < |facts| && facts[i].owner == o;
      RankBound(facts, i);
    }
    forall p: Place | p.0 in ranges ensures ranges[p.0].0 <= p.1 <= ranges[p.0].1 <==> p in places {
      RangeIsPlaces(base, facts, p.0, p.1);
    }
    forall m, n | 0 <= m < n < |places| && places[m].0 == places[n].0 ensures places[m].1 < places[n].1 {
      PlacesRise(base, facts, m, n);
    }
  }

  lemma RangeIsPlaces(base: DB, facts: seq<Fact>, o: Bytes, n: nat)
    ensures Next(base, o) <= n <= Next(base, o) + CountOwner(facts, o) - 1 <==> (o, n) in PlacesOfFacts(base, facts)
  {
    var places := PlacesOfFacts(base, facts);
    if Next(base, o) <= n < Next(base, o) + CountOwner(facts, o) {
      var i := RankPlace(base, facts, o, n - Next(base, o));
      assert PlaceOf(base, facts, i).0 == o;
      assert PlaceOf(base, facts, i).1 == n;
      assert places[i] == (o, n);
    }
    if (o, n) in places {
      var i :| 0 <= i < |places| && places[i] == (o, n);
      RankBound(facts, i);
    }
  }

  lemma {:induction false} EdgesOfFacts(records: map<Bytes, RecordRow>, facts: seq<Fact>)
    requires forall f :: f in facts ==> f.id in records && records[f.id].causedBy == f.row.causedBy
    ensures forall id :: id in StagedIDs(facts) ==> id in records
    ensures EdgesOf(records, StagedIDs(facts)) == CausalEdges(facts)
  {
    var ids := StagedIDs(facts);
    forall id | id in ids ensures id in records {
      var i :| 0 <= i < |ids| && ids[i] == id;
      assert facts[i] in facts;
    }
    if facts != [] {
      var init := facts[..|facts| - 1];
      assert facts[|facts| - 1] in facts;
      assert forall f :: f in init ==> f in facts;
      EdgesOfFacts(records, init);
      assert StagedIDs(init) == ids[..|facts| - 1];
    }
  }

  /** The tables before the facts go in: intent, contexts and witnesses are there, numbering is untouched. */
  ghost predicate IsStart(base: DB, start: DB) {
    && Core(start) && DensePaths(start)
    && Grows(base, start)
    && start.nextCommit == base.nextCommit
    && CommitsDense(start.paths, base.nextCommit) && CommitsRise(start.paths)
    && (forall p :: p in start.paths ==> p in base.paths || start.paths[p].contextRef == "")
  }

  lemma ContextsStart(base: DB, db0: DB, contexts: seq<RetainedContext>, db1: DB)
    requires IsStart(base, base)
    requires db0 == base.(intents := db0.intents) && Extends(db0.intents, base.intents)
    requires InsertContexts(db0, contexts) == Ok(db1)
    ensures IsStart(base, db1)
    ensures db1 == base.(intents := db0.intents, contexts := db1.contexts)
  {
    InsertContextsKeeps(db0, contexts, db1);
  }

  lemma WitnessesStart(base: DB, db1: DB, plans: seq<WitnessPlan>, intent: Bytes, start: DB)
    requires IsStart(base, db1) && InsertWitnesses(db1, plans, intent) == Ok(start)
    ensures IsStart(base, start)
    ensures start == db1.(records := start.records, log := start.log, edges := start.edges, paths := start.paths,
                          next := start.next)
    ensures forall p :: p in plans ==> p.recordID in start.records && WitnessMatches(start.records[p.recordID], p)
  {
    InsertWitnessesKeeps(db1, plans, intent, start);
    InsertWitnessesCommits(db1, plans, intent, start);
    GrowsTransitive(base, db1, start);
  }

  lemma NothingInserted(base: DB, start: DB, facts: seq<Fact>, intent: Bytes)
    ensures Inserted(base, start, start, facts, 0, intent)
  {
  }

  lemma FactsInserted(base: DB, start: DB, facts: seq<Fact>, intent: Bytes, db3: DB)
    requires IsStart(base, start) && CausesStaged(base, facts)
    requires InsertFacts(base, start, facts, 0, intent) == Ok(db3)
    ensures Core(db3) && Grows(start, db3) && Inserted(base, start, db3, facts, |facts|, intent)
  {
    NothingInserted(base, start, facts, intent);
    InsertFactsKeeps(base, start, start, facts, 0, intent, db3);
  }

  lemma StartNumbering(base: DB, start: DB)
    requires IsStart(base, start)
    ensures DensePaths(start) && Grows(base, start) && start.nextCommit == base.nextCommit
    ensures forall o :: Next(base, o) <= Next(start, o)
    ensures CommitsDense(start.paths, base.nextCommit) && CommitsRise(start.paths)
  {
  }

  lemma InsertedFrame(base: DB, start: DB, db3: DB, facts: seq<Fact>, intent: Bytes)
    requires Inserted(base, start, db3, facts, |facts|, intent)
    ensures db3.nextCommit == start.nextCommit && db3.next == start.next
  {
  }

  lemma AdvanceFrame(base: DB, db3: DB, facts: seq<Fact>)
    ensures Advance(base, db3, facts).paths == db3.paths && Advance(base, db3, facts).records == db3.records
    ensures Advance(base, db3, facts).contexts == db3.contexts
    ensures Advance(base, db3, facts).nextCommit == base.nextCommit + |facts|
  {
  }

  /** Advancing the counters over the inserted facts restores the numbering invariants. */
  lemma CountersAdvanced(base: DB, start: DB, facts: seq<Fact>, intent: Bytes, db3: DB)
    requires IsStart(base, start) && Grows(start, db3) && Inserted(base, start, db3, facts, |facts|, intent)
    ensures var db' := Advance(base, db3, facts);
            DensePaths(db') && Grows(base, db') && Grows(db3, db')
  {
    StartNumbering(base, start);
    InsertedFrame(base, start, db3, facts, intent);
    hide *;
    AdvanceIsDense(base, start, db3, facts, intent);
    GrowsTransitive(base, start, db3);
    AdvanceGrows(base, start, db3, facts);
  }

  lemma NumbersAdvanced(base: DB, start: DB, facts: seq<Fact>, intent: Bytes, db3: DB)
    requires IsStart(base, start) && Inserted(base, start, db3, facts, |facts|, intent)
    requires forall f :: f in facts ==> f.contextRef != ""
    ensures var db' := Advance(base, db3, facts);
            CommitsDense(db'.paths, db'.nextCommit) && CommitsRise(db'.paths)
  {
    hide *;
    StartNumbering(base, start);
    AdvanceFrame(base, db3, facts);
    InsertedCommits(base, start, db3, facts, intent);
    InsertedCommitsRise(base, start, db3, facts, intent);
  }

  lemma AdvanceGrows(base: DB, start: DB, db3: DB, facts: seq<Fact>)
    requires Grows(base, db3) && db3.nextCommit == base.nextCommit && db3.next == start.next
    requires forall o :: Next(Advance(base, db3, facts), o) == Next(start, o) + CountOwner(facts, o)
    ensures Grows(base, Advance(base, db3, facts)) && Grows(db3, Advance(base, db3, facts))
  {
    forall o ensures Next(db3, o) <= Next(Advance(base, db3, facts), o) {
      assert Next(db3, o) == Next(start, o);
    }
  }

  lemma DraftsRetained(base: DB, start: DB, db: DB, facts: seq<Fact>, drafts: seq<RecordDraft>, owners: seq<Bytes>,
                       intent: Bytes, n: nat)
    requires FactsFromDrafts(drafts, owners, facts, intent) && n < |facts|
    requires Inserted(base, start, db, facts, |facts|, intent)
    ensures DraftRetained(db, intent, owners[n], drafts[n], facts[n].id, PlaceOf(base, facts, n), base.nextCommit + n)
  {
    PathsAfterAre(base, start, facts, |facts|, intent);
    assert SameContent(db.records[facts[n].id], facts[n].row);
  }

  lemma EdgesRetained(base: DB, start: DB, db: DB, facts: seq<Fact>, intent: Bytes)
    requires Inserted(base, start, db, facts, |facts|, intent)
    ensures forall id :: id in StagedIDs(facts) ==> id in db.records
    ensures EdgesOf(db.records, StagedIDs(facts)) == CausalEdges(facts)
  {
    forall f | f in facts ensures f.id in db.records && db.records[f.id].causedBy == f.row.causedBy {
      var i :| 0 <= i < |facts| && facts[i] == f;
      assert SameContent(db.records[facts[i].id], facts[i].row);
    }
    EdgesOfFacts(db.records, facts);
  }

  /** The new intent row records exactly what was committed. */
  lemma ReceiptIsCommit(k: Kernel, base: DB, start: DB, db3: DB, batch: AppendBatch, op: OperationContext,
                        digest: Bytes, st: Staging)
    requires BatchShape(batch) && BatchDigest(k, batch, op) == Ok(digest)
    requires IsStaging(k, base, batch.intent, AllDrafts(batch.groups), AllOwners(batch.groups), st)
    requires Inserted(base, start, db3, st.facts, |st.facts|, batch.intent)
    requires AllStaged(k, base, op, AllOrigins(batch.groups), AllDrafts(batch.groups), st)
    requires SpansStaged(Spans(batch.groups, 0), st)
    requires Extends(db3.contexts, base.contexts)
    requires forall c :: c in st.contexts ==> c.contextID in db3.contexts && db3.contexts[c.contextID] == c
    ensures var db' := Advance(base, db3, st.facts);
            IsCommit(k, db', batch, op, IntentRow(digest, ReceiptFor(base, batch.intent, st)), base.nextCommit,
                     PlacesOfFacts(base, st.facts))
  {
    hide *;
    StagedCauses(k, base, batch.intent, AllDrafts(batch.groups), AllOwners(batch.groups), st);
    StagingSizes(base, AllDrafts(batch.groups), AllOwners(batch.groups), batch.intent, st, db3.contexts);
    AllDraftsRetained(base, start, db3, st.facts, AllDrafts(batch.groups), AllOwners(batch.groups), batch.intent);
    RangesOfFacts(base, st.facts);
    EdgesRetained(base, start, db3, st.facts, batch.intent);
    AllOriginsRetained(k, base, start, db3, op, AllOrigins(batch.groups), AllDrafts(batch.groups), st, batch.intent);
    AllListed(base, start, db3, Spans(batch.groups, 0), st, batch.intent);
    ReceiptParts(base, batch.intent, st);
    AdvanceFrame(base, db3, st.facts);
    IsCommitOf(k, Advance(base, db3, st.facts), batch, op, IntentRow(digest, ReceiptFor(base, batch.intent, st)),
               base.nextCommit, PlacesOfFacts(base, st.facts));
  }

  lemma PlacesSay(base: DB, start: DB, db3: DB, facts: seq<Fact>, intent: Bytes)
    requires Inserted(base, start, db3, facts, |facts|, intent)
    ensures |PlacesOfFacts(base, facts)| == |facts|
    ensures forall n :: 0 <= n < |facts| ==>
              && PlacesOfFacts(base, facts)[n] in db3.paths
              && db3.paths[PlacesOfFacts(base, facts)[n]].contextRef == facts[n].contextRef
  {
    PathsAfterAre(base, start, facts, |facts|, intent);
    hide PlaceOf, SameContent, RecordsAfter;
  }

  lemma AllListed(base: DB, start: DB, db3: DB, spans: seq<(nat, nat)>, st: Staging, intent: Bytes)
    requires SpansStaged(spans, st) && Inserted(base, start, db3, st.facts, |st.facts|, intent)
    ensures ContextsListed(Advance(base, db3, st.facts), st.contextReceipts, spans, PlacesOfFacts(base, st.facts))
  {
    hide *;
    PlacesSay(base, start, db3, st.facts, intent);
    AdvanceFrame(base, db3, st.facts);
    SpansRetained(Advance(base, db3, st.facts), spans, st, PlacesOfFacts(base, st.facts));
  }

  lemma StagingSizes(base: DB, drafts: seq<RecordDraft>, owners: seq<Bytes>, intent: Bytes, st: Staging,
                     contexts: map<Bytes, RetainedContext>)
    requires FactsFromDrafts(drafts, owners, st.facts, intent) && FactsInContext(base, st)
    requires Extends(contexts, base.contexts)
    requires forall c :: c in st.contexts ==> c.contextID in contexts
    ensures |drafts| == |owners| == |st.facts| == |StagedIDs(st.facts)|
    ensures forall c :: c in st.contextReceipts ==> c in contexts
  {
  }

  lemma ReceiptParts(base: DB, intent: Bytes, st: Staging)
    ensures var r := ReceiptFor(base, intent, st);
            && r.intent == intent && r.factIDs == StagedIDs(st.facts) && r.ownerRanges == OwnerRanges(base, st.facts)
            && r.commitReceipts == CommitReceipts(base.nextCommit, |st.facts|)
            && r.causalEdges == CausalEdges(st.facts) && r.contextReceipts == st.contextReceipts
  {
  }

  /** What a commit consists of, one by one */
  lemma PartsOfCommit(k: Kernel, db: DB, batch: AppendBatch, op: OperationContext, row: IntentRow, from: nat,
                      places: seq<Place>)
    requires IsCommit(k, db, batch, op, row, from, places)
    ensures BatchShape(batch) && BatchDigest(k, batch, op) == Ok(row.digest) && row.receipt.intent == batch.intent
    ensures |AllDrafts(batch.groups)| == |AllOwners(batch.groups)| == |places| == |row.receipt.factIDs|
    ensures from + |places| <= db.nextCommit && row.receipt.commitReceipts == CommitReceipts(from, |places|)
    ensures forall n :: 0 <= n < |places| ==>
              DraftRetained(db, batch.intent, AllOwners(batch.groups)[n], AllDrafts(batch.groups)[n],
                            row.receipt.factIDs[n], places[n], from + n)
    ensures OriginsRetained(k, db, op, AllOrigins(batch.groups), AllDrafts(batch.groups), row.receipt.factIDs, places)
    ensures RangesHold(row.receipt.ownerRanges, places)
    ensures forall id :: id in row.receipt.factIDs ==> id in db.records
    ensures row.receipt.causalEdges == EdgesOf(db.records, row.receipt.factIDs)
    ensures forall c :: c in row.receipt.contextReceipts ==> c in db.contexts
    ensures ContextsListed(db, row.receipt.contextReceipts, Spans(batch.groups, 0), places)
  {
    hide BatchShape, BatchDigest, AllDrafts, AllOwners, AllOrigins, DraftRetained, OriginsRetained, RangesHold, EdgesOf,
         CommitReceipts, ContextsListed, Spans;
  }

  lemma IsCommitOf(k: Kernel, db: DB, batch: AppendBatch, op: OperationContext, row: IntentRow, from: nat,
                   places: seq<Place>)
    requires BatchShape(batch) && BatchDigest(k, batch, op) == Ok(row.digest) && row.receipt.intent == batch.intent
    requires |AllDrafts(batch.groups)| == |AllOwners(batch.groups)| == |places| == |row.receipt.factIDs|
    requires from + |places| <= db.nextCommit && row.receipt.commitReceipts == CommitReceipts(from, |places|)
    requires forall n :: 0 <= n < |places| ==>
               DraftRetained(db, batch.intent, AllOwners(batch.groups)[n], AllDrafts(batch.groups)[n],
                             row.receipt.factIDs[n], places[n], from + n)
    requires OriginsRetained(k, db, op, AllOrigins(batch.groups), AllDrafts(batch.groups), row.receipt.factIDs, places)
    requires RangesHold(row.receipt.ownerRanges, places)
    requires forall id :: id in row.receipt.factIDs ==> id in db.records
    requires row.receipt.causalEdges == EdgesOf(db.records, row.receipt.factIDs)
    requires forall c :: c in row.receipt.contextReceipts ==> c in db.contexts
    requires ContextsListed(db, row.receipt.contextReceipts, Spans(batch.groups, 0), places)
    ensures IsCommit(k, db, batch, op, row, from, places)
  {
    hide BatchShape, BatchDigest, AllDrafts, AllOwners, AllOrigins, DraftRetained, OriginsRetained, RangesHold, EdgesOf,
         CommitReceipts, ContextsListed, Spans;
  }


  lemma AllOriginsRetained(k: Kernel, base: DB, start: DB, db3: DB, op: OperationContext, origins: seq<Origin>,
                           drafts: seq<RecordDraft>, st: Staging, intent: Bytes)
    requires AllStaged(k, base, op, origins, drafts, st)
    requires Inserted(base, start, db3, st.facts, |st.facts|, intent) && Extends(db3.contexts, base.contexts)
    requires forall c :: c in st.contexts ==> c.contextID in db3.contexts && db3.contexts[c.contextID] == c
    ensures OriginsRetained(k, Advance(base, db3, st.facts), op, origins, drafts, StagedIDs(st.facts),
                            PlacesOfFacts(base, st.facts))
  {
    var db', places := Advance(base, db3, st.facts), PlacesOfFacts(base, st.facts);
    PathsAfterAre(base, start, st.facts, |st.facts|, intent);
    hide StagedAs, OriginRetained, SameContent, LocalsNamed, PlaceOf;
    forall n | 0 <= n < |drafts|
      ensures OriginRetained(k, db', op, origins[n], drafts, StagedIDs(st.facts), places[n], n)
    {
      StagedRetained(k, base, db', op, origins[n], drafts, st, n, places[n]);
    }
  }

  lemma AllDraftsRetained(base: DB, start: DB, db3: DB, facts: seq<Fact>, drafts: seq<RecordDraft>, owners: seq<Bytes>,
                          intent: Bytes)
    requires FactsFromDrafts(drafts, owners, facts, intent) && Inserted(base, start, db3, facts, |facts|, intent)
    ensures forall n :: 0 <= n < |facts| ==>
              DraftRetained(Advance(base, db3, facts), intent, owners[n], drafts[n], StagedIDs(facts)[n],
                            PlacesOfFacts(base, facts)[n], base.nextCommit + n)
  {
    forall n | 0 <= n < |facts|
      ensures DraftRetained(Advance(base, db3, facts), intent, owners[n], drafts[n], StagedIDs(facts)[n],
                            PlacesOfFacts(base, facts)[n], base.nextCommit + n)
    {
      DraftsRetained(base, start, db3, facts, drafts, owners, intent, n);
    }
  }

  lemma ContextsKept(base: DB, start: DB, db3: DB, st: Staging, intent: Bytes)
    requires ContextsRetained(base) && IsStart(base, start) && FactsInContext(base, st)
    requires Inserted(base, start, db3, st.facts, |st.facts|, intent)
    requires Extends(start.contexts, base.contexts)
    requires forall c :: c in st.contexts ==> c.contextID in start.contexts
    requires forall c :: c in start.contexts ==> start.contexts[c].contextID == c
    ensures ContextsRetained(db3)
  {
    forall p | p in db3.paths && db3.paths[p].contextRef != "" ensures db3.paths[p].contextRef in db3.contexts {
      EntryInContext(base, start, db3, st, intent, p);
    }
  }

  lemma EntryInContext(base: DB, start: DB, db3: DB, st: Staging, intent: Bytes, p: Place)
    requires forall q :: q in base.paths && base.paths[q].contextRef != "" ==> base.paths[q].contextRef in base.contexts
    requires Extends(start.paths, base.paths)
    requires forall q :: q in start.paths ==> q in base.paths || start.paths[q].contextRef == ""
    requires FactsInContext(base, st) && Extends(start.contexts, base.contexts)
    requires forall c :: c in st.contexts ==> c.contextID in start.contexts
    requires Inserted(base, start, db3, st.facts, |st.facts|, intent)
    requires p in db3.paths && db3.paths[p].contextRef != ""
    ensures db3.paths[p].contextRef in db3.contexts
  {
    hide CausesStaged, PlaceOf, RecordsAfter;
    if p in start.paths {
      PathsAfterKeep(base, start, st.facts, |st.facts|, intent, p);
    } else {
      PathsAfterAre(base, start, st.facts, |st.facts|, intent);
      var i :| 0 <= i < |st.facts| && p == PlaceOf(base, st.facts, i);
      assert st.facts[i] in st.facts;
    }
  }

  /** The tables a commit passes through: start before the facts go in, db3 before the counters advance. */
  ghost predicate CommitPath(k: Kernel, base: DB, batch: AppendBatch, row: IntentRow, st: Staging, start: DB, db3: DB) {
    && IsStaging(k, base, batch.intent, AllDrafts(batch.groups), AllOwners(batch.groups), st)
    && IsStart(base, start)
    && start.intents == base.intents[batch.intent := row] && start.frontiers == base.frontiers
    && (forall c :: c in st.contexts ==> c.contextID in start.contexts && start.contexts[c.contextID] == c)
    && (forall c :: c in start.contexts ==> start.contexts[c].contextID == c)
    && (forall p :: p in st.plans ==> p.recordID in start.records && WitnessMatches(start.records[p.recordID], p))
    && Core(db3) && Grows(start, db3)
    && Inserted(base, start, db3, st.facts, |st.facts|, batch.intent)
  }

  lemma StartsAtBase(k: Kernel, base: DB)
    requires StoreInv(k, base)
    ensures IsStart(base, base)
  {
  }

  lemma PrepareStart(base: DB, intent: Bytes, row: IntentRow, contexts: seq<RetainedContext>, plans: seq<WitnessPlan>,
                     db1: DB, start: DB)
    requires IsStart(base, base) && ContextsRetained(base) && intent !in base.intents
    requires InsertContexts(base.(intents := base.intents[intent := row]), contexts) == Ok(db1)
    requires InsertWitnesses(db1, plans, intent) == Ok(start)
    ensures IsStart(base, start)
    ensures start.intents == base.intents[intent := row] && start.frontiers == base.frontiers
    ensures forall c :: c in contexts ==> c.contextID in start.contexts && start.contexts[c.contextID] == c
    ensures forall c :: c in start.contexts ==> start.contexts[c].contextID == c
    ensures forall p :: p in plans ==> p.recordID in start.records && WitnessMatches(start.records[p.recordID], p)
  {
    var db0 := base.(intents := base.intents[intent := row]);
    InsertContextsKeeps(db0, contexts, db1);
    ContextsStart(base, db0, contexts, db1);
    WitnessesStart(base, db1, plans, intent, start);
  }

  /** The three stages of an insertion */
  lemma InsertAllSteps(base: DB, intent: Bytes, row: IntentRow, st: Staging, db': DB) returns (db1: DB, start: DB, db3: DB)
    requires InsertAll(base, intent, row, st) == Ok(db')
    ensures InsertContexts(base.(intents := base.intents[intent := row]), st.contexts) == Ok(db1)
    ensures InsertWitnesses(db1, st.plans, intent) == Ok(start)
    ensures InsertFacts(base, start, st.facts, 0, intent) == Ok(db3)
    ensures db' == Advance(base, db3, st.facts)
  {
    db1 := InsertContexts(base.(intents := base.intents[intent := row]), st.contexts).value;
    start := InsertWitnesses(db1, st.plans, intent).value;
    db3 := InsertFacts(base, start, st.facts, 0, intent).value;
  }

  lemma ContextIds(k: Kernel, db: DB)
    requires StoreInv(k, db)
    ensures ContextsRetained(db) && forall c :: c in db.contexts ==> db.contexts[c].contextID == c
  {
  }

  lemma StagedCauses(k: Kernel, db: DB, intent: Bytes, drafts: seq<RecordDraft>, owners: seq<Bytes>, st: Staging)
    requires IsStaging(k, db, intent, drafts, owners, st)
    ensures CausesStaged(db, st.facts) && FactsFromDrafts(drafts, owners, st.facts, intent)
    ensures FactsInContext(db, st)
    ensures RootIsDistinct(k) ==> PlansStaged(k, st.plans) && FactsWitnessed(k, st)
  {
  }

  lemma PathOfParts(k: Kernel, base: DB, batch: AppendBatch, row: IntentRow, st: Staging, start: DB, db3: DB)
    requires IsStaging(k, base, batch.intent, AllDrafts(batch.groups), AllOwners(batch.groups), st)
    requires IsStart(base, start)
    requires start.intents == base.intents[batch.intent := row] && start.frontiers == base.frontiers
    requires forall c :: c in st.contexts ==> c.contextID in start.contexts && start.contexts[c.contextID] == c
    requires forall c :: c in start.contexts ==> start.contexts[c].contextID == c
    requires forall p :: p in st.plans ==> p.recordID in start.records && WitnessMatches(start.records[p.recordID], p)
    requires Core(db3) && Grows(start, db3) && Inserted(base, start, db3, st.facts, |st.facts|, batch.intent)
    ensures CommitPath(k, base, batch, row, st, start, db3)
  {
  }

  lemma CommitFollowsPath(k: Kernel, base: DB, op: OperationContext, batch: AppendBatch, row: IntentRow, st: Staging,
                          db': DB) returns (start: DB, db3: DB)
    requires StoreInv(k, base) && batch.intent !in base.intents
    requires Stage(k, base, op, batch) == Ok(st)
    requires InsertAll(base, batch.intent, row, st) == Ok(db')
    ensures CommitPath(k, base, batch, row, st, start, db3)
    ensures db' == Advance(base, db3, st.facts)
  {
    var db1;
    db1, start, db3 := InsertAllSteps(base, batch.intent, row, st, db');
    hide *;
    ContextIds(k, base);
    StageEstablishes(k, base, op, batch, st);
    StagedCauses(k, base, batch.intent, AllDrafts(batch.groups), AllOwners(batch.groups), st);
    StartsAtBase(k, base);
    PrepareStart(base, batch.intent, row, st.contexts, st.plans, db1, start);
    FactsInserted(base, start, st.facts, batch.intent, db3);
    PathOfParts(k, base, batch, row, st, start, db3);
  }

  lemma PathKeepsTables(k: Kernel, base: DB, batch: AppendBatch, row: IntentRow, st: Staging, start: DB, db3: DB)
    requires ContextsRetained(base) && CommitPath(k, base, batch, row, st, start, db3)
    ensures var db' := Advance(base, db3, st.facts);
            && DensePaths(db') && Core(db') && ContextsRetained(db') && Grows(base, db')
            && CommitsDense(db'.paths, db'.nextCommit) && CommitsRise(db'.paths)
  {
    CountersAdvanced(base, start, st.facts, batch.intent, db3);
    NumbersAdvanced(base, start, st.facts, batch.intent, db3);
    ContextsKept(base, start, db3, st, batch.intent);
  }

  lemma PathFrame(k: Kernel, base: DB, batch: AppendBatch, row: IntentRow, st: Staging, start: DB, db3: DB)
    requires CommitPath(k, base, batch, row, st, start, db3)
    ensures var db' := Advance(base, db3, st.facts);
            && db'.intents == base.intents[batch.intent := row] && db'.frontiers == base.frontiers
            && db'.nextCommit == base.nextCommit + |st.facts|
    ensures Inserted(base, start, db3, st.facts, |st.facts|, batch.intent) && Extends(db3.contexts, base.contexts)
    ensures IsStaging(k, base, batch.intent, AllDrafts(batch.groups), AllOwners(batch.groups), st)
    ensures forall c :: c in st.contexts ==> c.contextID in db3.contexts && db3.contexts[c.contextID] == c
  {
  }

  lemma IntentsKept(k: Kernel, base: DB, db': DB, intent: Bytes, row: IntentRow)
    requires IntentsHold(k, base) && Grows(base, db') && db'.intents == base.intents[intent := row]
    requires IntentHolds(k, db', intent, row)
    ensures IntentsHold(k, db')
  {
    forall i | i in db'.intents ensures IntentHolds(k, db', i, db'.intents[i]) {
      if i != intent { IntentHoldsLater(k, base, db', i, base.intents[i]); }
    }
  }

  lemma CommitHolds(k: Kernel, db: DB, batch: AppendBatch, op: OperationContext, row: IntentRow, from: nat,
                    places: seq<Place>)
    requires IsCommit(k, db, batch, op, row, from, places)
    ensures IntentHolds(k, db, batch.intent, row)
  {
  }

  lemma CommitInserts(base: DB, intent: Bytes, digest: Bytes, st: Staging, db': DB)
    requires Commit(base, intent, digest, st) == Ok(db')
    ensures InsertAll(base, intent, IntentRow(digest, ReceiptFor(base, intent, st)), st) == Ok(db')
  {
  }

  lemma InvariantParts(k: Kernel, db: DB)
    requires StoreInv(k, db)
    ensures DensePaths(db) && Core(db) && ContextsRetained(db) && IntentsHold(k, db)
    ensures CommitsDense(db.paths, db.nextCommit) && CommitsRise(db.paths)
    ensures forall c :: c in db.contexts ==> db.contexts[c].contextID == c
  {
  }

  lemma InvariantOfParts(k: Kernel, db: DB)
    requires DensePaths(db) && Core(db) && ContextsRetained(db) && IntentsHold(k, db)
    requires CommitsDense(db.paths, db.nextCommit) && CommitsRise(db.paths)
    ensures StoreInv(k, db)
  {
  }

  /** A successful commit keeps the invariant, only adds, and leaves the receipt of exactly this batch. */
  lemma CommitKeeps(k: Kernel, base: DB, op: OperationContext, batch: AppendBatch, digest: Bytes, st: Staging, db': DB)
    requires StoreInv(k, base) && batch.intent !in base.intents && BatchShape(batch)
    requires BatchDigest(k, batch, op) == Ok(digest)
    requires Stage(k, base, op, batch) == Ok(st)
    requires Commit(base, batch.intent, digest, st) == Ok(db')
    ensures StoreInv(k, db') && Grows(base, db')
    ensures db'.intents == base.intents[batch.intent := IntentRow(digest, ReceiptFor(base, batch.intent, st))]
    ensures db'.frontiers == base.frontiers && db'.nextCommit == base.nextCommit + |st.facts|
    ensures IsCommit(k, db', batch, op, db'.intents[batch.intent], base.nextCommit, PlacesOfFacts(base, st.facts))
  {
    hide *;
    var row := IntentRow(digest, ReceiptFor(base, batch.intent, st));
    CommitInserts(base, batch.intent, digest, st, db');
    var start, db3 := CommitFollowsPath(k, base, op, batch, row, st, db');
    InvariantParts(k, base);
    BatchStaged(k, base, op, batch, st);
    BatchSpanned(k, base, op, batch, st);
    PathFrame(k, base, batch, row, st, start, db3);
    PathKeepsTables(k, base, batch, row, st, start, db3);
    ReceiptIsCommit(k, base, start, db3, batch, op, digest, st);
    CommitHolds(k, db', batch, op, row, base.nextCommit, PlacesOfFacts(base, st.facts));
    IntentsKept(k, base, db', batch.intent, row);
    InvariantOfParts(k, db');
  }
}
