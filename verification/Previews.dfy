/** A preview returns the ids the append allocates, before it and ever after. */
module Previews {
  import opened Wrappers
  import opened Utf8
  import opened Trace
  import opened Digests
  import opened Tables
  import opened Append
  import opened Invariant
  import opened Commits
  import opened Runs

  /** db2 keeps db's contexts and has nothing else under the ids of the given ones. */
  ghost predicate Compatible(db: DB, db2: DB, contexts: seq<RetainedContext>) {
    && Extends(db2.contexts, db.contexts)
    && (forall c :: c in contexts && c.contextID in db2.contexts ==> db2.contexts[c.contextID] == c)
  }

  lemma SameResolution(k: Kernel, db: DB, db2: DB, intent: Bytes, index: nat, ctx: Option<RetainedContext>,
                       op: OperationContext, r: RetainedContext, contexts: seq<RetainedContext>)
    requires Compatible(db, db2, contexts) && ResolveGroupContext(k, db, intent, index, ctx, op) == Ok(r)
    requires r.contextID in db.contexts || r in contexts
    ensures ResolveGroupContext(k, db2, intent, index, ctx, op) == Ok(r)
  {
  }

  lemma PreviewsDraft(k: Kernel, db: DB, intent: Bytes, g: AppendGroup, ctx: RetainedContext, plan: WitnessPlan,
                      d: RecordDraft, st: Staging, st': Staging)
    requires StageDraft(k, db, intent, g, ctx, plan, d, st) == Ok(st')
    ensures st'.facts != [] && StagedIDs(st'.facts) == StagedIDs(st.facts) + [st'.facts[|st'.facts| - 1].id]
    ensures PreviewDraft(k, g, plan, d, st.locals) == Ok((st'.facts[|st'.facts| - 1].id, st'.locals))
    ensures st'.contexts == st.contexts
  {
  }

  lemma {:induction false} PreviewsDrafts(k: Kernel, db: DB, intent: Bytes, g: AppendGroup, ctx: RetainedContext,
                                          plan: WitnessPlan, drafts: seq<RecordDraft>, st: Staging, st': Staging)
    requires StageDrafts(k, db, intent, g, ctx, plan, drafts, st) == Ok(st')
    ensures PreviewDrafts(k, g, plan, drafts, StagedIDs(st.facts), st.locals) == Ok((StagedIDs(st'.facts), st'.locals))
    ensures st'.contexts == st.contexts
    decreases |drafts|
  {
    if drafts != [] {
      var st1 := StageDraft(k, db, intent, g, ctx, plan, drafts[0], st).value;
      hide StageDraft, PreviewDraft, StagedIDs;
      PreviewsDraft(k, db, intent, g, ctx, plan, drafts[0], st, st1);
      PreviewsDrafts(k, db, intent, g, ctx, plan, drafts[1..], st1, st');
    }
  }

  lemma {:induction false} ContextsStay(k: Kernel, db: DB, op: OperationContext, intent: Bytes, index: nat,
                                        groups: seq<AppendGroup>, st: Staging, st': Staging)
    requires StageGroups(k, db, op, intent, index, groups, st) == Ok(st')
    ensures st.contexts <= st'.contexts
    decreases |groups|
  {
    if groups != [] {
      var g := groups[0];
      var st1 := StageGroup(k, db, op, intent, index, g, st).value;
      if g.drafts != [] {
        var ctx := ResolveGroupContext(k, db, intent, index, g.context, op).value;
        var plan := OrdinaryWitnessPlan(k, ctx, op).value;
        hide ResolveGroupContext, OrdinaryWitnessPlan, AddPlan;
        PreviewsDrafts(k, db, intent, g, ctx, plan, g.drafts, OpenGroup(k, db, ctx, plan, st), st1);
      }
      ContextsStay(k, db, op, intent, index + 1, groups[1..], st1, st');
    }
  }

  /** A staged group's context is retained or staged. */
  lemma PreviewsGroup(k: Kernel, db: DB, op: OperationContext, intent: Bytes, index: nat, g: AppendGroup, st: Staging,
                      st': Staging) returns (ctx: RetainedContext, plan: WitnessPlan)
    requires StageGroup(k, db, op, intent, index, g, st) == Ok(st') && g.drafts != []
    ensures ResolveGroupContext(k, db, intent, index, g.context, op) == Ok(ctx)
    ensures OrdinaryWitnessPlan(k, ctx, op) == Ok(plan)
    ensures ctx.contextID in db.contexts || ctx in st'.contexts
    ensures PreviewDrafts(k, g, plan, g.drafts, StagedIDs(st.facts), st.locals) == Ok((StagedIDs(st'.facts), st'.locals))
  {
    ctx := ResolveGroupContext(k, db, intent, index, g.context, op).value;
    plan := OrdinaryWitnessPlan(k, ctx, op).value;
    PreviewsDrafts(k, db, intent, g, ctx, plan, g.drafts, OpenGroup(k, db, ctx, plan, st), st');
  }

  lemma {:induction false} PreviewsGroups(k: Kernel, db: DB, db2: DB, op: OperationContext, intent: Bytes, index: nat,
                                          groups: seq<AppendGroup>, st: Staging, st': Staging)
    requires StageGroups(k, db, op, intent, index, groups, st) == Ok(st') && Compatible(db, db2, st'.contexts)
    ensures PreviewGroups(k, db2, op, intent, index, groups, StagedIDs(st.facts), st.locals) == Ok(StagedIDs(st'.facts))
    decreases |groups|
  {
    if groups != [] {
      var g := groups[0];
      var st1 := StageGroup(k, db, op, intent, index, g, st).value;
      hide StageGroup, PreviewDrafts, ResolveGroupContext, OrdinaryWitnessPlan, StagedIDs, Compatible;
      ContextsStay(k, db, op, intent, index + 1, groups[1..], st1, st');
      if g.drafts != [] {
        var ctx, plan := PreviewsGroup(k, db, op, intent, index, g, st, st1);
        SameResolution(k, db, db2, intent, index, g.context, op, ctx, st'.contexts);
      } else {
        EmptyGroup(k, db, op, intent, index, g, st);
      }
      PreviewsGroups(k, db, db2, op, intent, index + 1, groups[1..], st1, st');
    }
  }

  lemma EmptyGroup(k: Kernel, db: DB, op: OperationContext, intent: Bytes, index: nat, g: AppendGroup, st: Staging)
    requires g.drafts == []
    ensures StageGroup(k, db, op, intent, index, g, st) == Ok(st)
  {
  }

  lemma {:induction false} InsertedContextsAreNew(db: DB, contexts: seq<RetainedContext>)
    requires InsertContexts(db, contexts).Ok?
    ensures forall c :: c in contexts ==> c.contextID !in db.contexts
    decreases |contexts|
  {
    if contexts != [] {
      InsertedContextsAreNew(db.(contexts := db.contexts[contexts[0].contextID := contexts[0]]), contexts[1..]);
    }
  }

  lemma PreviewOfStaging(k: Kernel, db: DB, db2: DB, op: OperationContext, batch: AppendBatch, st: Staging)
    requires AppendAuthorized(op) && BatchShape(batch)
    requires Stage(k, db, op, batch) == Ok(st) && Compatible(db, db2, st.contexts)
    ensures Preview(k, db2, op, batch) == Ok(StagedIDs(st.facts))
  {
    hide BatchShape, AppendAuthorized, Compatible;
    PreviewsGroups(k, db, db2, op, batch.intent, 0, batch.groups, NOTHING, st);
    assert StagedIDs(NOTHING.facts) == [];
  }

  lemma CommitContexts(k: Kernel, db: DB, batch: AppendBatch, row: IntentRow, st: Staging, start: DB, db3: DB, later: DB)
    requires CommitPath(k, db, batch, row, st, start, db3) && Grows(Advance(db, db3, st.facts), later)
    ensures Compatible(db, later, st.contexts)
  {
    GrowsThrough(db, start, db3, st);
    forall c | c in st.contexts ensures c.contextID in later.contexts && later.contexts[c.contextID] == c {
      assert start.contexts[c.contextID] == c;
    }
  }

  lemma GrowsThrough(db: DB, start: DB, db3: DB, st: Staging)
    requires Grows(db, start) && Grows(start, db3)
    ensures Extends(Advance(db, db3, st.facts).contexts, db.contexts)
    ensures Extends(Advance(db, db3, st.facts).contexts, start.contexts)
  {
  }

  lemma NewContexts(db: DB, intent: Bytes, row: IntentRow, st: Staging)
    requires InsertContexts(db.(intents := db.intents[intent := row]), st.contexts).Ok?
    ensures Compatible(db, db, st.contexts)
  {
    InsertedContextsAreNew(db.(intents := db.intents[intent := row]), st.contexts);
  }

  /** If an append commits, the preview gives its ids in the state before it and in every state after it. */
  lemma PreviewAgrees(k: Kernel, db: DB, op: OperationContext, batch: AppendBatch, db': DB, receipt: AppendReceipt,
                      ops: seq<Op>)
    requires AppendAuthorized(op) && StoreInv(k, db) && AppendTx(k, db, op, batch) == Ok((db', receipt, true))
    ensures Preview(k, db, op, batch) == Ok(receipt.factIDs)
    ensures Preview(k, Run(k, db', ops), op, batch) == Ok(receipt.factIDs)
  {
    hide *;
    var digest, st := AppendCases(k, db, op, batch, db', receipt, true);
    var row := IntentRow(digest, ReceiptFor(db, batch.intent, st));
    CommitInserts(db, batch.intent, digest, st, db');
    var db1, start1, db4 := InsertAllSteps(db, batch.intent, row, st, db');
    NewContexts(db, batch.intent, row, st);
    ReceiptIDs(db, batch.intent, st);
    PreviewOfStaging(k, db, db, op, batch, st);
    var start, db3 := CommitFollowsPath(k, db, op, batch, row, st, db');
    CommitKeeps(k, db, op, batch, digest, st, db');
    RunKeeps(k, db', ops);
    CommitContexts(k, db, batch, row, st, start, db3, Run(k, db', ops));
    PreviewOfStaging(k, db, Run(k, db', ops), op, batch, st);
  }

  lemma ReceiptIDs(db: DB, intent: Bytes, st: Staging)
    ensures ReceiptFor(db, intent, st).factIDs == StagedIDs(st.facts)
  {
  }
}
