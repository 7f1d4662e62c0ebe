/** Counting: entries, commit receipts, and the ranges a receipt promises. */
module Conservation {
  import opened Wrappers
  import opened Utf8
  import opened Trace
  import opened Digests
  import opened Tables
  import opened Append
  import opened Invariant
  import opened StagingLaws
  import opened StoreInvariant
  import opened Origins
  import opened Commits
  import opened Runs

  ghost function AnOwner(next: map<Bytes, nat>): (o: Bytes)
    requires next != map[]
    ensures o in next
  {
    assert |next| != 0;
    var o :| o in next;
    o
  }

  /** The sum of all next ordinals */
  ghost function Total(next: map<Bytes, nat>): nat
    decreases |next|
  {
    if next == map[] then 0 else
      var o := AnOwner(next);
      next[o] + Total(next - {o})
  }

  function Column(owner: Bytes, n: nat): set<Place> { set i | 0 <= i < n :: (owner, i) }

  lemma {:induction false} ColumnSize(owner: Bytes, n: nat)
    ensures |Column(owner, n)| == n
  {
    if n > 0 {
      ColumnSize(owner, n - 1);
      assert Column(owner, n) == Column(owner, n - 1) + {(owner, n - 1)};
    }
  }

  /** Places filled densely up to each owner's ordinal number as many as the ordinals sum to. */
  lemma {:induction false} DensePlaces(next: map<Bytes, nat>, places: set<Place>)
    requires forall p: Place :: p in places <==> p.0 in next && p.1 < next[p.0]
    ensures |places| == Total(next)
    decreases |next|
  {
    if next == map[] {
      assert places == {};
    } else {
      var o := AnOwner(next);
      var column := Column(o, next[o]);
      var rest := set p | p in places && p.0 != o;
      ColumnSize(o, next[o]);
      DensePlaces(next - {o}, rest);
      forall p: Place ensures p in places <==> p in rest + column {
        assert p in column <==> p.0 == o && p.1 < next[o];
      }
      assert places == rest + column && rest !! column;
    }
  }

  /** In every state a run reaches, the owners' next ordinals sum to the number of path entries. */
  lemma EntriesAreCounted(k: Kernel, ops: seq<Op>)
    ensures var db := Run(k, EMPTY, ops); Total(db.next) == |db.paths|
  {
    var db := Run(k, EMPTY, ops);
    ReachableInv(k, ops);
    InvariantParts(k, db);
    DensePlaces(db.next, db.paths.Keys);
    assert |db.paths.Keys| == |db.paths|;
  }

  ghost predicate CarriesCommit(db: DB, p: Place, n: nat) {
    p in db.paths && db.paths[p].receipt == CommitReceipt(n)
  }

  ghost predicate CommitTaken(db: DB, n: nat) { exists p :: CarriesCommit(db, p, n) }

  /** Commit receipts are commit:0 to commit:next-1, each on exactly one entry, and rise along every path. */
  lemma CommitsAreCounted(k: Kernel, ops: seq<Op>)
    ensures var db := Run(k, EMPTY, ops);
            && (forall n: nat :: CommitTaken(db, n) <==> n < db.nextCommit)
            && (forall p, q, n: nat :: CarriesCommit(db, p, n) && CarriesCommit(db, q, n) ==> p == q)
            && (forall p, q, m: nat, n: nat ::
                  CarriesCommit(db, p, m) && CarriesCommit(db, q, n) && p.0 == q.0 && p.1 < q.1 ==> m < n)
  {
    var db := Run(k, EMPTY, ops);
    hide *;
    ReachableInv(k, ops);
    InvariantParts(k, db);
    CommitsOf(db);
  }

  lemma CommitsOf(db: DB)
    requires Core(db) && CommitsDense(db.paths, db.nextCommit) && CommitsRise(db.paths)
    ensures forall n: nat :: CommitTaken(db, n) <==> n < db.nextCommit
    ensures forall p, q, n: nat :: CarriesCommit(db, p, n) && CarriesCommit(db, q, n) ==> p == q
    ensures forall p, q, m: nat, n: nat ::
              CarriesCommit(db, p, m) && CarriesCommit(db, q, n) && p.0 == q.0 && p.1 < q.1 ==> m < n
  {
    forall n: nat ensures CommitTaken(db, n) <==> n < db.nextCommit { CommitCarried(db, n); }
  }

  lemma CommitCarried(db: DB, n: nat)
    requires CommitsDense(db.paths, db.nextCommit)
    ensures CommitTaken(db, n) <==> n < db.nextCommit
  {
    if n < db.nextCommit {
      assert HasReceipt(db.paths, CommitReceipt(n));
      var p :| p in db.paths && db.paths[p].receipt == CommitReceipt(n);
      assert CarriesCommit(db, p, n);
    }
    if p :| CarriesCommit(db, p, n) {
      assert EntryNumbered(p, db.paths[p], db.nextCommit);
      CommitIsNotWitness(n, db.paths[p].recordID);
      var m: nat :| m < db.nextCommit && db.paths[p].receipt == CommitReceipt(m);
      CommitReceiptInjective(m, n);
    }
  }

  // ---- Receipts ------------------------------------------------------------

  /** The n-th id of a receipt stands at the n-th place, on the n-th draft's owner path, under the n-th commit receipt. */
  ghost predicate StandsAt(db: DB, receipt: AppendReceipt, owners: seq<Bytes>, places: seq<Place>, n: nat)
    requires n < |places| == |owners| == |receipt.factIDs| == |receipt.commitReceipts|
  {
    && places[n].0 == owners[n]
    && places[n] in db.paths
    && db.paths[places[n]].recordID == receipt.factIDs[n]
    && db.paths[places[n]].receipt == receipt.commitReceipts[n]
    && db.paths[places[n]].intent == receipt.intent
  }

  lemma CommitParts(k: Kernel, db: DB, batch: AppendBatch, op: OperationContext, row: IntentRow, from: nat,
                    places: seq<Place>)
    requires IsCommit(k, db, batch, op, row, from, places)
    ensures var r, drafts, owners := row.receipt, AllDrafts(batch.groups), AllOwners(batch.groups);
            && |places| == |drafts| == |owners| == |r.factIDs| == |r.commitReceipts| && r.intent == batch.intent
            && (forall n :: 0 <= n < |places| ==> r.commitReceipts[n] == CommitReceipt(from + n))
            && (forall n :: 0 <= n < |places| ==>
                  DraftRetained(db, r.intent, owners[n], drafts[n], r.factIDs[n], places[n], from + n))
            && RangesHold(r.ownerRanges, places)
            && OriginsRetained(k, db, op, AllOrigins(batch.groups), drafts, r.factIDs, places)
            && ContextsListed(db, r.contextReceipts, Spans(batch.groups, 0), places)
            && (forall id :: id in r.factIDs ==> id in db.records)
            && r.causalEdges == EdgesOf(db.records, r.factIDs)
  {
    hide ContextsListed, Spans;
    hide AllOrigins, OriginsRetained;
    hide BatchShape, BatchDigest, AllDrafts, AllOwners, CommitReceipt, DraftRetained, RangesHold, EdgesOf;
  }

  lemma DraftStands(db: DB, r: AppendReceipt, drafts: seq<RecordDraft>, owners: seq<Bytes>, places: seq<Place>, from: nat,
                    n: nat)
    requires n < |places| == |drafts| == |owners| == |r.factIDs| == |r.commitReceipts|
    requires r.commitReceipts[n] == CommitReceipt(from + n)
    requires DraftRetained(db, r.intent, owners[n], drafts[n], r.factIDs[n], places[n], from + n)
    ensures StandsAt(db, r, owners, places, n)
  {
    hide CommitReceipt, StoredBody, LabelOf;
  }

  lemma CommitSays(k: Kernel, db: DB, batch: AppendBatch, op: OperationContext, row: IntentRow, from: nat,
                   places: seq<Place>)
    requires IsCommit(k, db, batch, op, row, from, places)
    ensures var r, drafts, owners := row.receipt, AllDrafts(batch.groups), AllOwners(batch.groups);
            && |places| == |drafts| == |owners| == |r.factIDs| == |r.commitReceipts|
            && (forall n :: 0 <= n < |places| ==>
                  DraftRetained(db, batch.intent, owners[n], drafts[n], r.factIDs[n], places[n], from + n))
            && OriginsRetained(k, db, op, AllOrigins(batch.groups), drafts, r.factIDs, places)
            && ContextsListed(db, r.contextReceipts, Spans(batch.groups, 0), places)
            && (forall id :: id in r.factIDs ==> id in db.records)
            && ListsCauses(db.records, r.factIDs, r.causalEdges)
            && (forall n :: 0 <= n < |places| ==> StandsAt(db, r, owners, places, n))
            && RangesHold(r.ownerRanges, places)
            && (forall n :: 0 <= n < |places| ==> r.commitReceipts[n] == CommitReceipt(from + n))
  {
    hide *;
    CommitParts(k, db, batch, op, row, from, places);
    EdgesListCauses(db.records, row.receipt.factIDs);
    forall n | 0 <= n < |places| ensures StandsAt(db, row.receipt, AllOwners(batch.groups), places, n) {
      DraftStands(db, row.receipt, AllDrafts(batch.groups), AllOwners(batch.groups), places, from, n);
    }
  }

  lemma CommittedAtNew(k: Kernel, db: DB, op: OperationContext, batch: AppendBatch, db': DB, receipt: AppendReceipt,
                       ops: seq<Op>) returns (row: IntentRow, places: seq<Place>)
    requires StoreInv(k, db) && AppendTx(k, db, op, batch) == Ok((db', receipt, true))
    ensures row.receipt == receipt && IsCommit(k, Run(k, db', ops), batch, op, row, db.nextCommit, places)
  {
    hide *;
    var digest, st := AppendCases(k, db, op, batch, db', receipt, true);
    CommitKeeps(k, db, op, batch, digest, st, db');
    row, places := IntentRow(digest, receipt), PlacesOfFacts(db, st.facts);
    RunKeeps(k, db', ops);
    IsCommitLater(k, db', Run(k, db', ops), batch, op, row, db.nextCommit, places);
  }

  /**
    * After a new batch commits, its receipt stays true in every later state: its ids stand on its drafts' owner paths
    * under the next commit receipts, each with its draft's content, causes, context and witness; its edges are exactly
    * the causes of its records, its contexts those of its groups, and each owner's range holds exactly the batch's places
    * on that path, in batch order, however the groups of different owners are interleaved.
    */
  lemma ReceiptStaysTrue(k: Kernel, db: DB, op: OperationContext, batch: AppendBatch, db': DB, receipt: AppendReceipt,
                         ops: seq<Op>) returns (places: seq<Place>)
    requires StoreInv(k, db) && AppendTx(k, db, op, batch) == Ok((db', receipt, true))
    ensures |places| == |AllDrafts(batch.groups)| == |AllOwners(batch.groups)|
    ensures |places| == |receipt.factIDs| == |receipt.commitReceipts|
    ensures forall n :: 0 <= n < |places| ==>
                          StandsAt(Run(k, db', ops), receipt, AllOwners(batch.groups), places, n)
    ensures forall n :: 0 <= n < |places| ==> receipt.commitReceipts[n] == CommitReceipt(db.nextCommit + n)
    ensures forall n :: 0 <= n < |places| ==>
              DraftRetained(Run(k, db', ops), batch.intent, AllOwners(batch.groups)[n], AllDrafts(batch.groups)[n],
                            receipt.factIDs[n], places[n], db.nextCommit + n)
    ensures OriginsRetained(k, Run(k, db', ops), op, AllOrigins(batch.groups), AllDrafts(batch.groups), receipt.factIDs,
                            places)
    ensures ContextsListed(Run(k, db', ops), receipt.contextReceipts, Spans(batch.groups, 0), places)
    ensures forall id :: id in receipt.factIDs ==> id in Run(k, db', ops).records
    ensures ListsCauses(Run(k, db', ops).records, receipt.factIDs, receipt.causalEdges)
    ensures RangesHold(receipt.ownerRanges, places)
  {
    hide *;
    var row;
    row, places := CommittedAtNew(k, db, op, batch, db', receipt, ops);
    CommitSays(k, Run(k, db', ops), batch, op, row, db.nextCommit, places);
  }

  // ---- Causes --------------------------------------------------------------

  ghost predicate RetainedBefore(db: DB, cause: Bytes, id: Bytes) {
    exists i, j :: 0 <= i < j < |db.log| && db.log[i] == cause && db.log[j] == id
  }

  lemma CausesGoFirst(db: DB, id: Bytes, cause: Bytes)
    requires Core(db) && id in db.records && cause in db.records[id].causedBy
    ensures RetainedBefore(db, cause, id)
  {
    assert id in db.log;
    var j :| 0 <= j < |db.log| && db.log[j] == id;
    assert cause in db.log[..j];
    var i :| 0 <= i < j && db.log[..j][i] == cause;
  }

  lemma CausesOfCommit(k: Kernel, db: DB, op: OperationContext, origins: seq<Origin>, drafts: seq<RecordDraft>,
                       ids: seq<Bytes>, places: seq<Place>, n: nat)
    requires Core(db) && OriginsRetained(k, db, op, origins, drafts, ids, places) && n < |ids|
    ensures |origins| == |drafts| == |ids| && ids[n] in db.records
    ensures CausedAs(origins[n], drafts, ids, n, db.records[ids[n]].causedBy)
    ensures forall c :: c in db.records[ids[n]].causedBy ==> RetainedBefore(db, c, ids[n])
  {
    hide Core, CausedAs, RetainedBefore, ContextAs, CitesAs;
    assert OriginRetained(k, db, op, origins[n], drafts, ids, places[n], n);
    forall c | c in db.records[ids[n]].causedBy ensures RetainedBefore(db, c, ids[n]) { CausesGoFirst(db, ids[n], c); }
  }

  /**
    * In every state after a batch committed, the record of its n-th draft is caused by exactly the group's causal
    * parents, the draft's own causes and the earlier drafts it refers to, in this order, each retained before it.
    */
  lemma CausesStayTrue(k: Kernel, db: DB, op: OperationContext, batch: AppendBatch, db': DB, receipt: AppendReceipt,
                       ops: seq<Op>, n: nat)
    requires StoreInv(k, db) && AppendTx(k, db, op, batch) == Ok((db', receipt, true)) && n < |receipt.factIDs|
    ensures |AllOrigins(batch.groups)| == |AllDrafts(batch.groups)| == |receipt.factIDs|
    ensures var later, id := Run(k, db', ops), receipt.factIDs[n];
            && id in later.records
            && CausedAs(AllOrigins(batch.groups)[n], AllDrafts(batch.groups), receipt.factIDs, n, later.records[id].causedBy)
            && (forall c :: c in later.records[id].causedBy ==> RetainedBefore(later, c, id))
  {
    hide *;
    var later := Run(k, db', ops);
    var places := ReceiptStaysTrue(k, db, op, batch, db', receipt, ops);
    AppendKeeps(k, db, op, batch, db', receipt, true);
    RunKeeps(k, db', ops);
    InvariantParts(k, later);
    CausesOfCommit(k, later, op, AllOrigins(batch.groups), AllDrafts(batch.groups), receipt.factIDs, places, n);
  }
}
