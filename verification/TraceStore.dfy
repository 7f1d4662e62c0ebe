/** The trace store as an object: tables as fields, changed row by row in a transaction that can roll back. */
module TraceStore {
  import opened Wrappers
  import opened Seqs
  import opened Utf8
  import opened Numbers
  import opened Trace
  import opened Digests
  import opened Tables
  import opened Append
  import opened Frontiers
  import opened Store
  import opened Preparing
  import Bus
  import opened EffectBuses
  import Executions

  /** The goroutine whose publications the bus numbers */
  const CALLER: nat := 0

  /** The event of one draft; append-local parents are not among its causal parents. */
  function EventOf(intent: Bytes, g: AppendGroup, d: RecordDraft, id: Bytes): EffectEvent {
    EffectEvent(id, intent, g.owner, d.mode, d.schemaRef, LabelOf(d), d.payload, g.causalParents + d.causedBy)
  }

  /** One event per draft, as long as there are ids */
  function GroupEvents(intent: Bytes, g: AppendGroup, drafts: seq<RecordDraft>, ids: seq<Bytes>): seq<EffectEvent> {
    if drafts == [] || ids == [] then [] else
      [EventOf(intent, g, drafts[0], ids[0])] + GroupEvents(intent, g, drafts[1..], ids[1..])
  }

  function Skip(ids: seq<Bytes>, n: nat): seq<Bytes> { if n <= |ids| then ids[n..] else [] }

  /** The events of a committed batch, in draft order */
  function BatchEvents(intent: Bytes, groups: seq<AppendGroup>, ids: seq<Bytes>): seq<EffectEvent> {
    if groups == [] then [] else
      GroupEvents(intent, groups[0], groups[0].drafts, ids)
      + BatchEvents(intent, groups[1..], Skip(ids, |groups[0].drafts|))
  }

  lemma GroupEventsStep(intent: Bytes, g: AppendGroup, j: nat, ids: seq<Bytes>)
    requires j < |g.drafts| && ids != []
    ensures GroupEvents(intent, g, g.drafts[j..], ids) ==
            [EventOf(intent, g, g.drafts[j], ids[0])] + GroupEvents(intent, g, g.drafts[j + 1..], ids[1..])
  {
    assert g.drafts[j..][0] == g.drafts[j] && g.drafts[j..][1..] == g.drafts[j + 1..];
  }

  lemma BatchEventsStep(intent: Bytes, groups: seq<AppendGroup>, i: nat, ids: seq<Bytes>)
    requires i < |groups|
    ensures BatchEvents(intent, groups[i..], ids) ==
            GroupEvents(intent, groups[i], groups[i].drafts, ids)
            + BatchEvents(intent, groups[i + 1..], Skip(ids, |groups[i].drafts|))
  {
    assert groups[i..][0] == groups[i] && groups[i..][1..] == groups[i + 1..];
  }

  /** The number a commit receipt carries; zero when it does not scan */
  function ScanCommit(receipt: Bytes): nat {
    if "commit:" <= receipt then NatOf(receipt[7..][..Span(receipt[7..])]) else 0
  }

  lemma ScanOfCommit(n: nat)
    ensures ScanCommit(CommitReceipt(n)) == n
  {
    var r := CommitReceipt(n);
    assert r[7..] == Decimal(n) && r[..7] == "commit:";
    DecimalIsWhole(n);
    SpanOf(Decimal(n), []);
    assert Decimal(n) + [] == Decimal(n);
    assert Decimal(n)[..|Decimal(n)|] == Decimal(n);
    NatOfDecimal(n);
  }

  /** nextCommitSeq: one past the greatest number scanned */
  method NextCommitSeq(receipts: seq<Bytes>, ghost from: nat) returns (maxSeq: nat)
    requires receipts == CommitReceipts(from, |receipts|)
    ensures maxSeq == if receipts == [] then 0 else from + |receipts|
  {
    maxSeq := 0;
    for i := 0 to |receipts|
      invariant maxSeq == if i == 0 then 0 else from + i
    {
      ScanOfCommit(from + i);
      var number := ScanCommit(receipts[i]);
      if number >= maxSeq { maxSeq := number + 1; }
    }
  }

  lemma AdvancedNext(base: DB, db: DB, facts: seq<Fact>, next: map<Bytes, nat>)
    requires next == db.next + map o | o in OwnerRanges(base, facts) :: (OwnerRanges(base, facts)[o].1 + 1) as nat
    ensures Advance(base, db, facts) == db.(next := next, nextCommit := base.nextCommit + |facts|)
  {
    assert OwnerRanges(base, facts).Keys == Owners(facts);
  }

  /** InsertAll without the counters */
  function InsertRows(base: DB, intent: Bytes, row: IntentRow, st: Staging): Result<DB> {
    var db1 :- InsertContexts(base.(intents := base.intents[intent := row]), st.contexts);
    var db2 :- InsertWitnesses(db1, st.plans, intent);
    InsertFacts(base, db2, st.facts, 0, intent)
  }

  lemma CommitIsRows(base: DB, intent: Bytes, digest: Bytes, st: Staging)
    ensures var rows := InsertRows(base, intent, IntentRow(digest, ReceiptFor(base, intent, st)), st);
            Commit(base, intent, digest, st) ==
            if rows.Err? then Err(rows.error) else Ok(Advance(base, rows.value, st.facts))
  {
  }

  lemma PreparedReceipts(base: DB, intent: Bytes, st: Staging, p: Prepared)
    requires IsPrepared(base, intent, st, p)
    ensures p.receipt == ReceiptFor(base, intent, st) && p.receipt.ownerRanges == OwnerRanges(base, st.facts)
    ensures p.receipt.commitReceipts == CommitReceipts(base.nextCommit, |p.facts|) && |p.facts| == |st.facts|
    ensures Facts(p.facts) == st.facts && Numbered(base, p.facts)
  {
  }

  lemma InsertFactsTurn(base: DB, db: DB, facts: seq<StagedFact>, i: nat, receipts: seq<Bytes>, intent: Bytes)
    requires i < |facts| && Numbered(base, facts) && receipts == CommitReceipts(base.nextCommit, |facts|)
    ensures var f := facts[i].fact;
            var row := InsertFactRow(db, f.id, f.row, (f.owner, facts[i].ordinal),
                                     PathRow(f.id, f.contextRef, f.kindLabel, intent, receipts[i]));
            InsertFacts(base, db, Facts(facts), i, intent) ==
            if row.Err? then Err(row.error) else InsertFacts(base, row.value, Facts(facts), i + 1, intent)
  {
    hide InsertFactRow, CountOwner;
    assert PlaceOf(base, Facts(facts), i) == (facts[i].fact.owner, facts[i].ordinal);
  }

  lemma LogAppends(log: map<nat, seq<EffectEvent>>, p: nat, event: EffectEvent)
    ensures Bus.LogOf(log[p := Bus.LogOf(log, p) + [event]], p) == Bus.LogOf(log, p) + [event]
    ensures forall q :: q != p ==> Bus.LogOf(log[p := Bus.LogOf(log, p) + [event]], q) == Bus.LogOf(log, q)
  {
  }

  class SQLiteTraceStore {
    const k: Kernel
    const bus: EffectBus?
    var intents: map<Bytes, IntentRow>
    var contexts: map<Bytes, RetainedContext>
    var records: map<Bytes, RecordRow>
    var log: seq<Bytes>
    var edges: map<Place, Bytes>
    var paths: map<Place, PathRow>
    var next: map<Bytes, nat>
    var nextCommit: nat
    var frontiers: map<Bytes, FrontierRow>

    function Snapshot(): DB
      reads this
    {
      DB(intents, contexts, records, log, edges, paths, next, nextCommit, frontiers)
    }

    constructor (k: Kernel, bus: EffectBus?)
      ensures Snapshot() == EMPTY && this.k == k && this.bus == bus
    {
      this.k, this.bus := k, bus;
      intents, contexts, records, log, edges, paths, next, nextCommit, frontiers :=
        map[], map[], map[], [], map[], map[], map[], 0, map[];
    }

    /** tx.Rollback */
    method Rollback(begin: DB)
      modifies this
      ensures Snapshot() == begin
    {
      intents, contexts, records, log := begin.intents, begin.contexts, begin.records, begin.log;
      edges, paths, next, nextCommit, frontiers := begin.edges, begin.paths, begin.next, begin.nextCommit, begin.frontiers;
    }

    // ---- Rows --------------------------------------------------------------

    /** insertContextTx, for each new context */
    method InsertContextsTx(all: seq<RetainedContext>) returns (e: Option<Error>)
      modifies this`contexts
      ensures Does(InsertContexts(old(Snapshot()), all), e, Snapshot())
    {
      ghost var expected := InsertContexts(Snapshot(), all);
      assert all[0..] == all;
      for i := 0 to |all|
        invariant InsertContexts(Snapshot(), all[i..]) == expected
      {
        assert all[i..][0] == all[i] && all[i..][1..] == all[i + 1..];
        if all[i].contextID in contexts { return Some(Constraint); }
        contexts := contexts[all[i].contextID := all[i]];
      }
      return None;
    }

    /** The record_edges rows of a new record */
    method InsertEdgesTx(child: Bytes, parents: seq<Bytes>) returns (e: Option<Error>)
      modifies this`edges
      ensures Does(InsertEdges(old(Snapshot()), child, parents, 0), e, Snapshot())
    {
      ghost var expected := InsertEdges(Snapshot(), child, parents, 0);
      assert parents[0..] == parents;
      for i := 0 to |parents|
        invariant InsertEdges(Snapshot(), child, parents[i..], i) == expected
      {
        assert parents[i..][0] == parents[i] && parents[i..][1..] == parents[i + 1..];
        if (child, i) in edges || parents[i] !in records { return Some(Constraint); }
        edges := edges[(child, i) := parents[i]];
      }
      return None;
    }

    /** insertRecordIfMissingTx: an id that is retained must name the same content. */
    method InsertRecordIfMissingTx(id: Bytes, row: RecordRow) returns (e: Option<Error>)
      modifies this`records, this`log, this`edges
      ensures Does(InsertRecordIfMissing(old(Snapshot()), id, row), e, Snapshot())
    {
      if id in records {
        if !SameContent(records[id], row) { return Some(StoreLaw); }
        return None;
      }
      records, log := records[id := row], log + [id];
      e := InsertEdgesTx(id, row.causedBy);
    }

    /** insertFactRowTx: the record if it is new, then its path entry */
    method InsertFactRowTx(id: Bytes, record: RecordRow, place: Place, path: PathRow) returns (e: Option<Error>)
      modifies this`records, this`log, this`edges, this`paths
      ensures Does(InsertFactRow(old(Snapshot()), id, record, place, path), e, Snapshot())
    {
      e := InsertRecordIfMissingTx(id, record);
      if e.Some? { return; }
      if place in paths || ReceiptUsed(Snapshot(), path.receipt) || path.recordID !in records { return Some(Constraint); }
      paths := paths[place := path];
    }

    /** insertWitnessRecordIfMissingTx */
    method InsertWitnessTx(plan: WitnessPlan, intent: Bytes) returns (e: Option<Error>)
      modifies this`records, this`log, this`edges, this`paths, this`next
      ensures Does(InsertWitness(old(Snapshot()), plan, intent), e, Snapshot())
    {
      if plan.recordID in records {
        var existing := ReadFact(Snapshot(), plan.recordID);
        if existing.Err? { return Some(existing.error); }
        if !WitnessMatches(existing.value.row, plan) { return Some(StoreLaw); }
        return None;
      }
      var ordinal := Next(Snapshot(), WITNESS_OWNER);
      e := InsertFactRowTx(plan.recordID, WitnessRow(plan, intent), (WITNESS_OWNER, ordinal), WitnessEntry(plan, intent));
      if e.Some? { return; }
      next := next[WITNESS_OWNER := ordinal + 1];
    }

    method InsertWitnessesTx(plans: seq<WitnessPlan>, intent: Bytes) returns (e: Option<Error>)
      modifies this`records, this`log, this`edges, this`paths, this`next
      ensures Does(InsertWitnesses(old(Snapshot()), plans, intent), e, Snapshot())
    {
      ghost var expected := InsertWitnesses(Snapshot(), plans, intent);
      assert plans[0..] == plans;
      for i := 0 to |plans|
        invariant InsertWitnesses(Snapshot(), plans[i..], intent) == expected
      {
        assert plans[i..][0] == plans[i] && plans[i..][1..] == plans[i + 1..];
        hide InsertWitness;
        e := InsertWitnessTx(plans[i], intent);
        if e.Some? { return; }
      }
      return None;
    }

    /** The staged facts, each at its place, under its commit receipt */
    method InsertFactsTx(ghost base: DB, facts: seq<StagedFact>, receipts: seq<Bytes>, intent: Bytes)
        returns (e: Option<Error>)
      requires Numbered(base, facts) && receipts == CommitReceipts(base.nextCommit, |facts|)
      modifies this`records, this`log, this`edges, this`paths
      ensures Does(InsertFacts(base, old(Snapshot()), Facts(facts), 0, intent), e, Snapshot())
    {
      ghost var expected := InsertFacts(base, Snapshot(), Facts(facts), 0, intent);
      for i := 0 to |facts|
        invariant InsertFacts(base, Snapshot(), Facts(facts), i, intent) == expected
      {
        hide *;
        var f := facts[i].fact;
        InsertFactsTurn(base, Snapshot(), facts, i, receipts, intent);
        e := InsertFactRowTx(f.id, f.row, (f.owner, facts[i].ordinal),
                             PathRow(f.id, f.contextRef, f.kindLabel, intent, receipts[i]));
        if e.Some? { return; }
      }
      return None;
    }

    /** The owners' counters after the batch, updated in any order */
    method UpdateOrdinalsTx(ranges: map<Bytes, (int, int)>)
      requires forall o :: o in ranges ==> ranges[o].1 + 1 >= 0
      modifies this`next
      ensures next == old(next) + map o | o in ranges :: (ranges[o].1 + 1) as nat
    {
      var todo := ranges.Keys;
      while todo != {}
        invariant todo <= ranges.Keys
        invariant next == old(next) + map o | o in ranges && o !in todo :: (ranges[o].1 + 1) as nat
        decreases todo
      {
        var owner :| owner in todo;
        next := next[owner := ranges[owner].1 + 1];
        todo := todo - {owner};
      }
    }

    // ---- Appending ---------------------------------------------------------

    /** The rows of a prepared batch: the intent, then contexts, witnesses and facts */
    method InsertPreparedTx(intent: Bytes, digest: Bytes, p: Prepared, ghost st: Staging) returns (e: Option<Error>)
      requires IsPrepared(Snapshot(), intent, st, p)
      modifies this`intents, this`contexts, this`records, this`log, this`edges, this`paths, this`next
      ensures Does(InsertRows(old(Snapshot()), intent, IntentRow(digest, p.receipt), st), e, Snapshot())
    {
      hide InsertContexts, InsertWitnesses, InsertFacts, Numbered;
      ghost var base := Snapshot();
      intents := intents[intent := IntentRow(digest, p.receipt)];
      e := InsertContextsTx(p.contexts);
      if e.Some? { return; }
      e := InsertWitnessesTx(p.plans, intent);
      if e.Some? { return; }
      PreparedReceipts(base, intent, st, p);
      e := InsertFactsTx(base, p.facts, p.receipt.commitReceipts, intent);
    }

    /** The owners' ordinals and the commit sequence move past the batch. */
    method UpdateCountersTx(receipt: AppendReceipt, ghost base: DB, ghost facts: seq<Fact>)
      requires receipt.ownerRanges == OwnerRanges(base, facts) && nextCommit == base.nextCommit
      requires receipt.commitReceipts == CommitReceipts(base.nextCommit, |facts|)
      modifies this`next, this`nextCommit
      ensures Snapshot() == Advance(base, old(Snapshot()), facts)
    {
      ghost var before := Snapshot();
      RangesAreNatural(base, facts);
      UpdateOrdinalsTx(receipt.ownerRanges);
      if |receipt.commitReceipts| > 0 { nextCommit := NextCommitSeq(receipt.commitReceipts, base.nextCommit); }
      AdvancedNext(base, before, facts, next);
    }

    /** What appendInTx inserts once the batch is prepared, then the counters */
    method CommitTx(intent: Bytes, digest: Bytes, p: Prepared, ghost st: Staging) returns (e: Option<Error>)
      requires IsPrepared(Snapshot(), intent, st, p)
      modifies this
      ensures Does(Commit(old(Snapshot()), intent, digest, st), e, Snapshot())
    {
      ghost var base := Snapshot();
      CommitIsRows(base, intent, digest, st);
      PreparedReceipts(base, intent, st, p);
      hide Commit, InsertRows, Numbered, IsPrepared, CommitReceipts, OwnerRanges, Advance, ReceiptFor;
      e := InsertPreparedTx(intent, digest, p, st);
      if e.Some? { return; }
      UpdateCountersTx(p.receipt, base, st.facts);
      return None;
    }

    /** appendInTx */
    method AppendInTx(op: OperationContext, batch: AppendBatch) returns (r: Result<(AppendReceipt, bool)>)
      modifies this
      ensures match AppendTx(k, old(Snapshot()), op, batch)
              case Ok(done) => r == Ok((done.1, done.2)) && Snapshot() == done.0
              case Err(e) => r == Err(e)
    {
      var shape := ValidateBatchShape(batch);
      if !shape { return Err(BadBatch); }
      var digest := BatchDigest(k, batch, op);
      if digest.Err? { return Err(digest.error); }
      if batch.intent in intents {
        var row := intents[batch.intent];
        if row.digest != digest.value { return Err(IntentConflict); }
        return Ok((row.receipt, false));
      }
      var prepared := PrepareAppend(k, Snapshot(), op, batch);
      if prepared.Err? { return Err(prepared.error); }
      ghost var st := Stage(k, Snapshot(), op, batch).value;
      var e := CommitTx(batch.intent, digest.value, prepared.value, st);
      if e.Some? { return Err(e.value); }
      return Ok((prepared.value.receipt, true));
    }

    /** The events of one group; factIdx runs over the receipt's ids. */
    method PublishGroup(b: EffectBus, intent: Bytes, g: AppendGroup, ids: seq<Bytes>, start: nat)
        returns (factIdx: nat, ghost events: seq<EffectEvent>)
      requires b.Valid() && !b.closed && start <= |ids|
      modifies b
      ensures b.Valid() && !b.closed && factIdx <= |ids|
      ensures events == GroupEvents(intent, g, g.drafts, ids[start..])
      ensures ids[factIdx..] == Skip(ids[start..], |g.drafts|)
      ensures Bus.LogOf(b.log, CALLER) == Bus.LogOf(old(b.log), CALLER) + events
    {
      hide *;
      factIdx, events := start, [];
      NoEventsYet(intent, g, ids, start, Bus.LogOf(b.log, CALLER));
      for j := 0 to |g.drafts|
        invariant b.Valid() && !b.closed && factIdx <= |ids| && factIdx == start + j
        invariant events + GroupEvents(intent, g, g.drafts[j..], ids[factIdx..]) == GroupEvents(intent, g, g.drafts, ids[start..])
        invariant Bus.LogOf(b.log, CALLER) == Bus.LogOf(old(b.log), CALLER) + events
      {
        if factIdx >= |ids| {
          NoMoreIDs(intent, g, ids, start, j, events);
          return;
        }
        FirstID(ids, factIdx);
        GroupEventsStep(intent, g, j, ids[factIdx..]);
        var event := EventOf(intent, g, g.drafts[j], ids[factIdx]);
        LogAppends(b.log, CALLER, event);
        b.Publish(CALLER, event);
        Associate(events, [event], GroupEvents(intent, g, g.drafts[j + 1..], ids[factIdx + 1..]));
        Associate(Bus.LogOf(old(b.log), CALLER), events, [event]);
        events := events + [event];
        factIdx := factIdx + 1;
      }
      NoMoreDrafts(intent, g, ids, start, events);
    }

    /** publishAppendEvents */
    method PublishAppendEvents(batch: AppendBatch, receipt: AppendReceipt)
      requires bus != null ==> bus.Valid()
      modifies if bus == null then {} else {bus}
      ensures bus != null ==> bus.Valid() && bus.closed == old(bus.closed)
      ensures bus != null && bus.closed ==> bus.Snapshot() == old(bus.Snapshot())
      ensures bus != null && !bus.closed ==>
                Bus.LogOf(bus.log, CALLER) ==
                Bus.LogOf(old(bus.log), CALLER) + BatchEvents(batch.intent, batch.groups, receipt.factIDs)
    {
      if bus == null { return; }
      if bus.closed { return; }  // Publish ignores every event on a closed bus
      var b, ids, groups := bus, receipt.factIDs, batch.groups;
      var factIdx := 0;
      ghost var events: seq<EffectEvent> := [];
      assert groups[0..] == groups && ids[0..] == ids;
      for i := 0 to |groups|
        invariant b.Valid() && !b.closed && factIdx <= |ids|
        invariant events + BatchEvents(batch.intent, groups[i..], ids[factIdx..]) == BatchEvents(batch.intent, groups, ids)
        invariant Bus.LogOf(b.log, CALLER) == Bus.LogOf(old(b.log), CALLER) + events
      {
        hide BatchEvents, GroupEvents, EffectBus.Valid;
        BatchEventsStep(batch.intent, groups, i, ids[factIdx..]);
        ghost var more;
        factIdx, more := PublishGroup(b, batch.intent, groups[i], ids, factIdx);
        Associate(events, more, BatchEvents(batch.intent, groups[i + 1..], ids[factIdx..]));
        Associate(Bus.LogOf(old(b.log), CALLER), events, more);
        events := events + more;
      }
    }

    /**
     * Append: a failed transaction leaves the tables as they were; a new commit publishes its events; a retry publishes
     * nothing.
     */
    method Append(op: OperationContext, batch: AppendBatch) returns (r: Result<AppendReceipt>)
      requires bus != null ==> bus.Valid()
      modifies this, if bus == null then {} else {bus}
      ensures bus != null ==> bus.Valid()
      ensures AppendTo(k, old(Snapshot()), op, batch) == (Snapshot(), r)
      ensures bus != null && (r.Err? || batch.intent in old(intents) || old(bus.closed)) ==>
                bus.Snapshot() == old(bus.Snapshot())
      ensures bus != null && r.Ok? && batch.intent !in old(intents) && !old(bus.closed) ==>
                Bus.LogOf(bus.log, CALLER) ==
                Bus.LogOf(old(bus.log), CALLER) + BatchEvents(batch.intent, batch.groups, r.value.factIDs)
    {
      if !AppendAuthorized(op) { return Err(Unauthorized); }
      ghost var was := AppendTx(k, Snapshot(), op, batch);
      NewIsUncommitted(k, Snapshot(), op, batch);
      hide AppendTx, BatchEvents;
      var begin := Snapshot();
      var done := AppendInTx(op, batch);
      if done.Err? {
        Rollback(begin);
        return Err(done.error);
      }
      if done.value.1 { PublishAppendEvents(batch, done.value.0); }
      return Ok(done.value.0);
    }

    // ---- Publishing --------------------------------------------------------

    /** The end of publishFrontierInTx: reuse, refuse or insert the frontier row */
    method RecordFrontierTx(f: Frontier, intent: Bytes) returns (r: Result<Frontier>)
      modifies this`frontiers
      ensures match RecordFrontier(old(Snapshot()), f, intent)
              case Ok(done) => r == Ok(done.1) && Snapshot() == done.0
              case Err(e) => r == Err(e)
    {
      if f.frontierID in frontiers {
        var existing := frontiers[f.frontierID].frontier;
        if !SameCutoff(existing, f) { return Err(StoreLaw); }
        return Ok(existing);
      }
      var inserted := InsertFrontier(Snapshot(), f, intent);
      if inserted.Err? { return Err(inserted.error); }
      frontiers := frontiers[f.frontierID := FrontierRow(f, intent)];
      return Ok(f);
    }

    /** publishFrontierInTx */
    method PublishFrontierInTx(op: OperationContext, spec: FrontierSpec) returns (r: Result<Frontier>)
      modifies this
      ensures match PublishTx(k, old(Snapshot()), op, spec)
              case Ok(done) => r == Ok(done.1) && Snapshot() == done.0
              case Err(e) => r == Err(e)
    {
      hide AppendTx, RecordFrontier, FrontierBatch, LatestOnPath;
      if spec.frontierID == "" { return Err(BadBatch); }
      var ordinal := LatestOnPath(Snapshot(), spec.throughFact, spec.target);
      if ordinal.Err? { return Err(ordinal.error); }
      var done := AppendInTx(op, FrontierBatch(op, spec, ordinal.value));
      if done.Err? { return Err(done.error); }
      if done.value.0.factIDs == [] { return Err(Panic); }
      r := RecordFrontierTx(Frontier(spec.frontierID, spec.target, spec.throughFact, ordinal.value, PublisherOf(spec),
                                     done.value.0.factIDs[0]), IntentOf(spec));
    }

    /** PublishFrontier: it publishes no events. */
    method PublishFrontier(op: OperationContext, spec: FrontierSpec) returns (r: Result<Frontier>)
      modifies this
      ensures PublishTo(k, old(Snapshot()), op, spec) == (Snapshot(), r)
    {
      if !AppendAuthorized(op) { return Err(Unauthorized); }
      hide PublishTx;
      var begin := Snapshot();
      r := PublishFrontierInTx(op, spec);
      if r.Err? { Rollback(begin); }
    }

    /** PublishExecutionFrontier: the through fact must be a terminal lifecycle fact. */
    method PublishExecutionFrontier(op: OperationContext, spec: FrontierSpec) returns (r: Result<Frontier>)
      modifies this
      ensures Executions.PublishExecution(k, old(Snapshot()), op, spec) == (Snapshot(), r)
    {
      var through := ReadFact(Snapshot(), spec.throughFact);
      if through.Err? { return Err(through.error); }
      if !Executions.IsTerminalSchema(through.value.row.schemaRef) { return Err(Incompatible); }
      hide ReadFact, PublishTo;
      r := PublishFrontier(op, spec);
    }

    /** PreviewRecordIDs changes nothing. */
    method PreviewRecordIDs(op: OperationContext, batch: AppendBatch) returns (r: Result<seq<Bytes>>)
      ensures r == Preview(k, Snapshot(), op, batch)
    {
      r := Preparing.PreviewRecordIDs(k, Snapshot(), op, batch);
    }
  }

  /** An append is new exactly when its intent was not committed. */
  lemma NewIsUncommitted(k: Kernel, db: DB, op: OperationContext, batch: AppendBatch)
    ensures AppendTx(k, db, op, batch).Ok? ==> (AppendTx(k, db, op, batch).value.2 <==> batch.intent !in db.intents)
  {
  }

  lemma NoEventsYet(intent: Bytes, g: AppendGroup, ids: seq<Bytes>, start: nat, published: seq<EffectEvent>)
    requires start <= |ids|
    ensures [] + GroupEvents(intent, g, g.drafts[0..], ids[start..]) == GroupEvents(intent, g, g.drafts, ids[start..])
    ensures published + [] == published
  {
    assert g.drafts[0..] == g.drafts;
  }

  lemma FirstID(ids: seq<Bytes>, n: nat)
    requires n < |ids|
    ensures ids[n..] != [] && ids[n..][0] == ids[n] && ids[n..][1..] == ids[n + 1..]
  {
  }

  lemma NoMoreIDs(intent: Bytes, g: AppendGroup, ids: seq<Bytes>, start: nat, j: nat, events: seq<EffectEvent>)
    requires start + j == |ids| && j <= |g.drafts|
    ensures events + GroupEvents(intent, g, g.drafts[j..], ids[start + j..]) == events
    ensures ids[start + j..] == Skip(ids[start..], |g.drafts|)
  {
    assert events + [] == events;
  }

  lemma NoMoreDrafts(intent: Bytes, g: AppendGroup, ids: seq<Bytes>, start: nat, events: seq<EffectEvent>)
    requires start + |g.drafts| <= |ids|
    ensures events + GroupEvents(intent, g, g.drafts[|g.drafts|..], ids[start + |g.drafts|..]) == events
    ensures ids[start + |g.drafts|..] == Skip(ids[start..], |g.drafts|)
  {
    assert events + [] == events;
  }

  lemma RangesAreNatural(base: DB, facts: seq<Fact>)
    ensures forall o :: o in OwnerRanges(base, facts) ==> OwnerRanges(base, facts)[o].1 + 1 >= 0
  {
  }
}
