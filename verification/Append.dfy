/**
  * The append transaction as a function from tables to tables: staging first, then insertion, then the counters.
  * The preview is the part of staging that needs no parents.
  */
module Append {
  import opened Wrappers
  import opened Utf8
  import opened Numbers
  import opened Canonical
  import opened Trace
  import opened Digests
  import opened Tables

  // ---- Batch shape ---------------------------------------------------------

  /** encoding/json can marshal the value. */
  predicate Marshals(v: Json) {
    match v
    case Real(f) => f.Finite?
    case Real32(f, _) => f.Finite?
    case Number(token) => token == "" || Split(token).Some?
    case Arr(items) => forall x :: x in items ==> Marshals(x)
    case Obj(fields) => forall k :: k in fields ==> Marshals(fields[k])
    case _ => true
  }

  predicate DraftShape(d: RecordDraft) {
    && IsMode(d.mode)
    && d.schemaRef != ""
    && (d.payload.Some? ==> forall k :: k in d.payload.value ==> Marshals(d.payload.value[k]))
  }

  /** The local ids that are set, in order */
  function LocalIDs(drafts: seq<RecordDraft>): seq<Bytes> {
    if drafts == [] then []
    else (if drafts[0].localID == "" then [] else [drafts[0].localID]) + LocalIDs(drafts[1..])
  }

  function AllDrafts(groups: seq<AppendGroup>): seq<RecordDraft> {
    if groups == [] then [] else groups[0].drafts + AllDrafts(groups[1..])
  }

  predicate Distinct<T(==)>(s: seq<T>) { forall i, j :: 0 <= i < j < |s| ==> s[i] != s[j] }

  /** validateBatchShape */
  predicate BatchShape(batch: AppendBatch) {
    && batch.intent != ""
    && (forall g :: g in batch.groups ==> g.owner != "")
    && (forall d :: d in AllDrafts(batch.groups) ==> DraftShape(d))
    && Distinct(LocalIDs(AllDrafts(batch.groups)))
  }

  // ---- Staging -------------------------------------------------------------

  /** A record staged by prepareAppend, not yet numbered */
  datatype Fact = Fact(id: Bytes, row: RecordRow, owner: Bytes, contextRef: Bytes, kindLabel: Bytes)

  datatype Staging = Staging(
    facts: seq<Fact>,
    contexts: seq<RetainedContext>,
    plans: seq<WitnessPlan>,
    locals: map<Bytes, Bytes>,
    contextReceipts: seq<Bytes>)

  const NOTHING: Staging := Staging([], [], [], map[], [])

  predicate IsStaged(facts: seq<Fact>, id: Bytes) { exists i :: 0 <= i < |facts| && facts[i].id == id }

  /** How many of the facts belong to an owner */
  function CountOwner(facts: seq<Fact>, owner: Bytes): nat {
    if facts == [] then 0 else
      CountOwner(facts[..|facts| - 1], owner) + if facts[|facts| - 1].owner == owner then 1 else 0
  }

  function ResolveLocals(refs: seq<Bytes>, locals: map<Bytes, Bytes>): Result<seq<Bytes>> {
    if refs == [] then Ok([])
    else if refs[0] !in locals then Err(StoreLaw)
    else
      var rest :- ResolveLocals(refs[1..], locals);
      Ok([locals[refs[0]]] + rest)
  }

  /** resolvedCauses: group parents, then fact ids, then local references; duplicates are refused */
  function ResolvedCauses(g: AppendGroup, d: RecordDraft, locals: map<Bytes, Bytes>): Result<seq<Bytes>> {
    var local :- ResolveLocals(d.causedByLocal, locals);
    var all := g.causalParents + d.causedBy + local;
    if Distinct(all) then Ok(all) else Err(BadBatch)
  }

  predicate ParentsKnown(db: DB, facts: seq<Fact>, causedBy: seq<Bytes>) {
    forall p :: p in causedBy ==> IsStaged(facts, p) || p in db.records
  }

  /** readContextTx */
  function ReadContext(db: DB, id: Bytes): Result<RetainedContext> {
    if id in db.contexts then Ok(db.contexts[id]) else Err(StoreLaw)
  }

  /** resolveGroupContextTx */
  function ResolveGroupContext(k: Kernel, db: DB, intent: Bytes, index: nat, ctx: Option<RetainedContext>,
                               op: OperationContext): Result<RetainedContext>
  {
    if ctx.Some? && IsReuse(ctx.value) then ReadContext(db, ctx.value.contextID) else
      var payload := ContextPayload(if ctx.Some? then ctx.value else DefaultContextDraft(), op);
      var id :- ContextIDFor(k, intent, index, payload);
      var fresh' := payload.(contextID := id);
      if id in db.contexts && db.contexts[id] != fresh' then Err(StoreLaw) else Ok(fresh')
  }

  /** addWitnessPlan: first-seen order, the latest plan per id */
  function AddPlan(plans: seq<WitnessPlan>, plan: WitnessPlan): seq<WitnessPlan> {
    if plans == [] then [plan]
    else if plans[0].recordID == plan.recordID then [plan] + plans[1..]
    else [plans[0]] + AddPlan(plans[1..], plan)
  }

  function FactOf(id: Bytes, d: RecordDraft, causedBy: seq<Bytes>, g: AppendGroup, ctx: RetainedContext,
                  plan: WitnessPlan, intent: Bytes): Fact
  {
    Fact(id, RecordRow(d.schemaRef, d.mode, plan.recordID, causedBy, StoredBody(d.payload), intent),
         g.owner, ctx.contextID, LabelOf(d))
  }

  function StageDraft(k: Kernel, db: DB, intent: Bytes, g: AppendGroup, ctx: RetainedContext, plan: WitnessPlan,
                      d: RecordDraft, st: Staging): Result<Staging>
  {
    var causedBy :- ResolvedCauses(g, d, st.locals);
    if !ParentsKnown(db, st.facts, causedBy) then Err(UnknownFact) else
      var id :- RecordDigest(k, d.schemaRef, d.mode, d.payload, causedBy, plan.recordID);
      Ok(st.(facts := st.facts + [FactOf(id, d, causedBy, g, ctx, plan, intent)],
             locals := if d.localID == "" then st.locals else st.locals[d.localID := id]))
  }

  function StageDrafts(k: Kernel, db: DB, intent: Bytes, g: AppendGroup, ctx: RetainedContext, plan: WitnessPlan,
                       drafts: seq<RecordDraft>, st: Staging): Result<Staging>
    decreases |drafts|
  {
    if drafts == [] then Ok(st) else
      var st1 :- StageDraft(k, db, intent, g, ctx, plan, drafts[0], st);
      StageDrafts(k, db, intent, g, ctx, plan, drafts[1..], st1)
  }

  /** What a non-empty group adds before its drafts */
  function OpenGroup(k: Kernel, db: DB, ctx: RetainedContext, plan: WitnessPlan, st: Staging): Staging {
    st.(contexts := if ctx.contextID in db.contexts then st.contexts else st.contexts + [ctx],
        contextReceipts := st.contextReceipts + [ctx.contextID],
        plans := AddPlan(AddPlan(st.plans, RootWitnessPlan(k)), plan))
  }

  function StageGroup(k: Kernel, db: DB, op: OperationContext, intent: Bytes, index: nat, g: AppendGroup,
                      st: Staging): Result<Staging>
  {
    if g.drafts == [] then Ok(st) else
      var ctx :- ResolveGroupContext(k, db, intent, index, g.context, op);
      var plan :- OrdinaryWitnessPlan(k, ctx, op);
      StageDrafts(k, db, intent, g, ctx, plan, g.drafts, OpenGroup(k, db, ctx, plan, st))
  }

  function StageGroups(k: Kernel, db: DB, op: OperationContext, intent: Bytes, index: nat, groups: seq<AppendGroup>,
                       st: Staging): Result<Staging>
    decreases |groups|
  {
    if groups == [] then Ok(st) else
      var st1 :- StageGroup(k, db, op, intent, index, groups[0], st);
      StageGroups(k, db, op, intent, index + 1, groups[1..], st1)
  }

  function Stage(k: Kernel, db: DB, op: OperationContext, batch: AppendBatch): Result<Staging> {
    StageGroups(k, db, op, batch.intent, 0, batch.groups, NOTHING)
  }

  // ---- The receipt ---------------------------------------------------------

  function CommitReceipt(n: nat): Bytes { "commit:" + Decimal(n) }

  function WitnessReceipt(id: Bytes): Bytes { "witness:" + id }

  function StagedIDs(facts: seq<Fact>): (r: seq<Bytes>)
    ensures |r| == |facts|
  {
    seq(|facts|, i requires 0 <= i < |facts| => facts[i].id)
  }

  function CommitReceipts(from: nat, n: nat): (r: seq<Bytes>)
    ensures |r| == n
  {
    seq(n, i requires 0 <= i < n => CommitReceipt(from + i))
  }

  function EdgesTo(child: Bytes, parents: seq<Bytes>): seq<(Bytes, Bytes)> {
    seq(|parents|, i requires 0 <= i < |parents| => (parents[i], child))
  }

  function CausalEdges(facts: seq<Fact>): seq<(Bytes, Bytes)> {
    if facts == [] then [] else
      var last := facts[|facts| - 1];
      CausalEdges(facts[..|facts| - 1]) + EdgesTo(last.id, last.row.causedBy)
  }

  function Owners(facts: seq<Fact>): set<Bytes> { set f | f in facts :: f.owner }

  /** The ordinals a batch takes on each owner: dense, from the owner's next ordinal on */
  function OwnerRanges(db: DB, facts: seq<Fact>): map<Bytes, (int, int)> {
    map o | o in Owners(facts) :: (Next(db, o), Next(db, o) + CountOwner(facts, o) - 1)
  }

  function ReceiptFor(db: DB, intent: Bytes, st: Staging): AppendReceipt {
    AppendReceipt(intent, StagedIDs(st.facts), CommitReceipts(db.nextCommit, |st.facts|), OwnerRanges(db, st.facts),
                  CausalEdges(st.facts), st.contextReceipts)
  }

  // ---- Insertion -----------------------------------------------------------

  /** witnessFactMatchesPlan does not compare bodies. */
  predicate WitnessMatches(row: RecordRow, plan: WitnessPlan) {
    row.schemaRef == plan.schemaRef && row.mode == CAPTURE && row.witnessRef == plan.witnessRef
  }

  function WitnessRow(plan: WitnessPlan, intent: Bytes): RecordRow {
    RecordRow(plan.schemaRef, CAPTURE, plan.witnessRef, [], StoredBody(Some(plan.body)), intent)
  }

  function WitnessEntry(plan: WitnessPlan, intent: Bytes): PathRow {
    PathRow(plan.recordID, "", plan.kindLabel, intent, WitnessReceipt(plan.recordID))
  }

  /** insertWitnessRecordIfMissingTx */
  function InsertWitness(db: DB, plan: WitnessPlan, intent: Bytes): Result<DB> {
    if plan.recordID in db.records then
      var existing :- ReadFact(db, plan.recordID);
      if WitnessMatches(existing.row, plan) then Ok(db) else Err(StoreLaw)
    else
      var n := Next(db, WITNESS_OWNER);
      var db1 :- InsertFactRow(db, plan.recordID, WitnessRow(plan, intent), (WITNESS_OWNER, n),
                               WitnessEntry(plan, intent));
      Ok(db1.(next := db1.next[WITNESS_OWNER := n + 1]))
  }

  function InsertWitnesses(db: DB, plans: seq<WitnessPlan>, intent: Bytes): Result<DB>
    decreases |plans|
  {
    if plans == [] then Ok(db) else
      var db1 :- InsertWitness(db, plans[0], intent);
      InsertWitnesses(db1, plans[1..], intent)
  }

  /** The n-th staged fact goes to its owner's next free ordinal, under the n-th commit receipt. */
  function PlaceOf(base: DB, facts: seq<Fact>, n: nat): Place
    requires n < |facts|
  {
    (facts[n].owner, Next(base, facts[n].owner) + CountOwner(facts[..n], facts[n].owner))
  }

  function PathRowOf(base: DB, facts: seq<Fact>, n: nat, intent: Bytes): PathRow
    requires n < |facts|
  {
    PathRow(facts[n].id, facts[n].contextRef, facts[n].kindLabel, intent, CommitReceipt(base.nextCommit + n))
  }

  /** Inserts the facts from the n-th on; base is the state the ordinals were staged in. */
  function InsertFacts(base: DB, db: DB, facts: seq<Fact>, n: nat, intent: Bytes): Result<DB>
    requires n <= |facts|
    decreases |facts| - n
  {
    if n == |facts| then Ok(db) else
      var db1 :- InsertFactRow(db, facts[n].id, facts[n].row, PlaceOf(base, facts, n),
                               PathRowOf(base, facts, n, intent));
      InsertFacts(base, db1, facts, n + 1, intent)
  }

  /** The counters after the facts are in: every owner of the batch moves past its range. */
  function Advance(base: DB, db: DB, facts: seq<Fact>): DB {
    db.(next := db.next + map o | o in Owners(facts) :: Next(base, o) + CountOwner(facts, o),
        nextCommit := base.nextCommit + |facts|)
  }

  /** The intent row, then contexts, witnesses and facts, then the counters */
  function InsertAll(base: DB, intent: Bytes, row: IntentRow, st: Staging): Result<DB> {
    var db0 := base.(intents := base.intents[intent := row]);
    var db1 :- InsertContexts(db0, st.contexts);
    var db2 :- InsertWitnesses(db1, st.plans, intent);
    var db3 :- InsertFacts(base, db2, st.facts, 0, intent);
    Ok(Advance(base, db3, st.facts))
  }

  function Commit(base: DB, intent: Bytes, digest: Bytes, st: Staging): Result<DB> {
    InsertAll(base, intent, IntentRow(digest, ReceiptFor(base, intent, st)), st)
  }

  /** appendInTx: the new tables, the receipt, and whether anything was appended */
  function AppendTx(k: Kernel, db: DB, op: OperationContext, batch: AppendBatch): Result<(DB, AppendReceipt, bool)> {
    if !BatchShape(batch) then Err(BadBatch) else
      var digest :- BatchDigest(k, batch, op);
      if batch.intent in db.intents then
        var row := db.intents[batch.intent];
        if row.digest == digest then Ok((db, row.receipt, false)) else Err(IntentConflict)
      else
        var st :- Stage(k, db, op, batch);
        var db1 :- Commit(db, batch.intent, digest, st);
        Ok((db1, ReceiptFor(db, batch.intent, st), true))
  }

  /** Append: a failed transaction leaves the tables as they were. */
  function AppendTo(k: Kernel, db: DB, op: OperationContext, batch: AppendBatch): (DB, Result<AppendReceipt>) {
    if !AppendAuthorized(op) then (db, Err(Unauthorized)) else
      match AppendTx(k, db, op, batch)
      case Ok((db1, receipt, _)) => (db1, Ok(receipt))
      case Err(e) => (db, Err(e))
  }

  // ---- Preview -------------------------------------------------------------

  /** previewFactIDs resolves contexts and causes like the append but checks no parents. */
  function PreviewDraft(k: Kernel, g: AppendGroup, plan: WitnessPlan, d: RecordDraft, locals: map<Bytes, Bytes>):
      Result<(Bytes, map<Bytes, Bytes>)>
  {
    var causedBy :- ResolvedCauses(g, d, locals);
    var id :- RecordDigest(k, d.schemaRef, d.mode, d.payload, causedBy, plan.recordID);
    Ok((id, if d.localID == "" then locals else locals[d.localID := id]))
  }

  function PreviewDrafts(k: Kernel, g: AppendGroup, plan: WitnessPlan, drafts: seq<RecordDraft>, ids: seq<Bytes>,
                         locals: map<Bytes, Bytes>): Result<(seq<Bytes>, map<Bytes, Bytes>)>
    decreases |drafts|
  {
    if drafts == [] then Ok((ids, locals)) else
      var one :- PreviewDraft(k, g, plan, drafts[0], locals);
      PreviewDrafts(k, g, plan, drafts[1..], ids + [one.0], one.1)
  }

  function PreviewGroups(k: Kernel, db: DB, op: OperationContext, intent: Bytes, index: nat, groups: seq<AppendGroup>,
                         ids: seq<Bytes>, locals: map<Bytes, Bytes>): Result<seq<Bytes>>
    decreases |groups|
  {
    if groups == [] then Ok(ids)
    else if groups[0].drafts == [] then PreviewGroups(k, db, op, intent, index + 1, groups[1..], ids, locals)
    else
      var ctx :- ResolveGroupContext(k, db, intent, index, groups[0].context, op);
      var plan :- OrdinaryWitnessPlan(k, ctx, op);
      var r :- PreviewDrafts(k, groups[0], plan, groups[0].drafts, ids, locals);
      PreviewGroups(k, db, op, intent, index + 1, groups[1..], r.0, r.1)
  }

  /** PreviewRecordIDs */
  function Preview(k: Kernel, db: DB, op: OperationContext, batch: AppendBatch): Result<seq<Bytes>> {
    if !AppendAuthorized(op) then Err(Unauthorized)
    else if !BatchShape(batch) then Err(BadBatch)
    else PreviewGroups(k, db, op, batch.intent, 0, batch.groups, [], map[])
  }
}
