/**
  * The record model: record drafts, append groups and batches, operation contexts, receipts, retained contexts,
  * frontiers and effect events, together with the names of the kernel's own schemas, owners and modes.
  */
module Trace {
  import opened Wrappers
  import opened Utf8
  import opened Canonical

  const CAPTURE: Bytes := "capture"
  const DECLARATION: Bytes := "declaration"
  const ROOT_WITNESS_SCHEMA: Bytes := "kernel.witness.root.v1"
  const WITNESS_SCHEMA: Bytes := "kernel.witness.v1"
  const FRONTIER_SCHEMA: Bytes := "shepherd2.frontier.owner_cutoff.v1"
  const WITNESS_OWNER: Bytes := "kernel:witness"
  const LOCAL_SUBSTRATE: Bytes := "sqlite.local.v1"
  const CONTAINED: Bytes := "contained"

  /** A payload; None is a nil map, which digests as an empty one. */
  type Body = Option<map<Bytes, Json>>

  datatype RecordDraft = RecordDraft(
    mode: Bytes,
    schemaRef: Bytes,
    payload: Body,
    kindLabel: Bytes,
    localID: Bytes,
    causedBy: seq<Bytes>,
    causedByLocal: seq<Bytes>)

  datatype RetainedContext = RetainedContext(
    contextID: Bytes,
    activeBindings: seq<Bytes>,
    capabilityWitnesses: seq<Bytes>,
    semanticEnvironments: seq<Bytes>,
    visibilityPolicies: seq<Bytes>,
    substrate: Bytes,
    containment: Bytes)

  datatype AppendGroup = AppendGroup(
    owner: Bytes,
    context: Option<RetainedContext>,
    causalParents: seq<Bytes>,
    drafts: seq<RecordDraft>)

  datatype AppendBatch = AppendBatch(intent: Bytes, groups: seq<AppendGroup>)

  datatype OperationContext = OperationContext(
    actor: Bytes,
    authorityRefs: seq<Bytes>,
    schemaEnvironment: Bytes,
    trustMode: Bytes)

  datatype AppendReceipt = AppendReceipt(
    intent: Bytes,
    factIDs: seq<Bytes>,
    commitReceipts: seq<Bytes>,
    ownerRanges: map<Bytes, (int, int)>,
    causalEdges: seq<(Bytes, Bytes)>,
    contextReceipts: seq<Bytes>)

  datatype Frontier = Frontier(
    frontierID: Bytes,
    target: Bytes,
    throughFact: Bytes,
    throughOrdinal: int,
    publisher: Bytes,
    createdBy: Bytes)

  datatype FrontierSpec = FrontierSpec(
    frontierID: Bytes,
    target: Bytes,
    throughFact: Bytes,
    publisher: Bytes,
    intent: Bytes,
    causedBy: seq<Bytes>)

  datatype WitnessPlan = WitnessPlan(
    recordID: Bytes,
    schemaRef: Bytes,
    kindLabel: Bytes,
    body: map<Bytes, Json>,
    witnessRef: Bytes)

  /** What the bus is told about one appended record. */
  datatype EffectEvent = EffectEvent(
    recordID: Bytes,
    intent: Bytes,
    owner: Bytes,
    mode: Bytes,
    schemaRef: Bytes,
    kindLabel: Bytes,
    payload: Body,
    causalParents: seq<Bytes>)

  /** ensureAppendAuthorized */
  predicate AppendAuthorized(op: OperationContext) {
    op.trustMode == "internal" || "trusted:internal" in op.authorityRefs
  }

  /** An empty label defaults to the schema reference. */
  function LabelOf(draft: RecordDraft): Bytes {
    if draft.kindLabel == "" then draft.schemaRef else draft.kindLabel
  }
}
