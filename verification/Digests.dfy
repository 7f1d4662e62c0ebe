/**
  * Record, witness, context and batch digests over the canonical writer. The hash function and the parser of float
  * tokens are parameters.
  */
module Digests {
  import opened Wrappers
  import opened Utf8
  import opened Numbers
  import opened Canonical
  import opened CanonicalLaws
  import opened Trace

  type Digest = s: Bytes | |s| >= 32 witness seq(32, _ => '0')

  /** The library functions the kernel builds on: SHA-256 in hexadecimal and strconv.ParseFloat. */
  datatype Kernel = Kernel(hash: Bytes -> Digest, parse: Bytes -> Option<Float>)

  function Utf8Encoder(k: Kernel): Encoder { Encoder(false, k.parse) }
  function AsciiEncoder(k: Kernel): Encoder { Encoder(true, k.parse) }

  /** No two texts with the same digest. Assumed only where a result says so. */
  ghost predicate CollisionFree(k: Kernel) {
    forall a: Bytes, b: Bytes :: k.hash(a) == k.hash(b) ==> a == b
  }

  predicate IsHexDigit(c: byte) { '0' <= c <= '9' || 'a' <= c <= 'f' }

  /** Digests are rendered in hexadecimal. Assumed only where a result says so. */
  ghost predicate HexDigits(k: Kernel) {
    forall s: Bytes, i :: 0 <= i < |k.hash(s)| ==> IsHexDigit(k.hash(s)[i])
  }

  function ThreeDigits(n: int): (r: Bytes)
    requires 0 <= n < 4096
    ensures |r| == 3
  {
    [HexDigit(n / 256), HexDigit(n / 16 % 16), HexDigit(n % 16)]
  }

  /** Six hexadecimal digits for each element of a text */
  function HexText(s: Bytes): (r: Bytes)
    ensures |r| == 6 * |s|
  {
    if s == [] then [] else ThreeDigits(s[0] as int / 4096) + ThreeDigits(s[0] as int % 4096) + HexText(s[1..])
  }

  lemma DigitDetermined(m: int, n: int)
    requires 0 <= m < 16 && 0 <= n < 16 && HexDigit(m) == HexDigit(n)
    ensures m == n
  {
    HexValueOfDigit(m);
    HexValueOfDigit(n);
  }

  lemma ThreeDigitsSay(m: int, n: int)
    requires 0 <= m < 4096 && 0 <= n < 4096 && ThreeDigits(m) == ThreeDigits(n)
    ensures m == n
  {
    var a, b := ThreeDigits(m), ThreeDigits(n);
    assert a[0] == HexDigit(m / 256) && a[1] == HexDigit(m / 16 % 16) && a[2] == HexDigit(m % 16);
    assert b[0] == HexDigit(n / 256) && b[1] == HexDigit(n / 16 % 16) && b[2] == HexDigit(n % 16);
    hide HexDigit, ThreeDigits;
    DigitDetermined(m / 256, n / 256);
    DigitDetermined(m / 16 % 16, n / 16 % 16);
    DigitDetermined(m % 16, n % 16);
    Base16(m);
    Base16(n);
  }

  lemma {:induction false} HexTextIsHex(s: Bytes)
    ensures forall i :: 0 <= i < |HexText(s)| ==> IsHexDigit(HexText(s)[i])
  {
    if s != [] { HexTextIsHex(s[1..]); }
  }

  lemma {:induction false} HexTextInjective(s: Bytes, t: Bytes)
    requires HexText(s) == HexText(t)
    ensures s == t
  {
    assert |s| == |t|;
    if s != [] {
      var a, b := HexText(s), HexText(t);
      hide ThreeDigits;
      assert a[..3] == ThreeDigits(s[0] as int / 4096) && b[..3] == ThreeDigits(t[0] as int / 4096);
      assert a[3..6] == ThreeDigits(s[0] as int % 4096) && b[3..6] == ThreeDigits(t[0] as int % 4096);
      ThreeDigitsSay(s[0] as int / 4096, t[0] as int / 4096);
      ThreeDigitsSay(s[0] as int % 4096, t[0] as int % 4096);
      assert a[6..] == HexText(s[1..]) && b[6..] == HexText(t[1..]);
      HexTextInjective(s[1..], t[1..]);
      assert s == [s[0]] + s[1..] && t == [t[0]] + t[1..];
    }
  }

  /** Both hypotheses can be met together: digests are only required to be at least 32 digits long. */
  lemma CollisionFreeExists(parse: Bytes -> Option<Float>)
    ensures exists k :: CollisionFree(k) && HexDigits(k) && k.parse == parse
  {
    var prefix: Bytes := seq(32, _ => '0');
    var k := Kernel((s: Bytes) => prefix + HexText(s), parse);
    forall a: Bytes, b: Bytes | k.hash(a) == k.hash(b) ensures a == b {
      assert HexText(a) == (prefix + HexText(a))[32..] && HexText(b) == (prefix + HexText(b))[32..];
      HexTextInjective(a, b);
    }
    assert CollisionFree(k);
    forall s: Bytes, i | 0 <= i < |k.hash(s)| ensures IsHexDigit(k.hash(s)[i]) {
      HexTextIsHex(s);
      if i >= 32 { assert k.hash(s)[i] == HexText(s)[i - 32]; }
    }
    assert HexDigits(k);
  }

  function Strings(ss: seq<Bytes>): Json { Arr(seq(|ss|, i requires 0 <= i < |ss| => Str(ss[i]))) }

  // ---- Records and witnesses -----------------------------------------------

  const CANONICAL_PREFIX: Bytes := "shepherd.kernel.canonical.v2\n"

  /** CanonicalDigest */
  function CanonicalDigest(k: Kernel, v: Json): Result<Bytes> {
    var text :- Write(Utf8Encoder(k), v);
    Ok("sha256:" + k.hash(CANONICAL_PREFIX + text))
  }

  function Fields(body: Body): map<Bytes, Json> { if body.Some? then body.value else map[] }

  function RootWitnessBody(): map<Bytes, Json> {
    map["active_binding_refs" := Arr([]),
        "actor_ref" := Str("kernel:root"),
        "authority_refs" := Arr([]),
        "containment" := Str("full"),
        "provenance_policy_refs" := Arr([]),
        "semantic_environment_refs" := Arr([]),
        "substrate_ref" := Str("kernel"),
        "visibility_policy_refs" := Arr([])]
  }

  predicate IsMode(mode: Bytes) { mode == CAPTURE || mode == DECLARATION }

  predicate IsWitnessRef(witnessRef: Bytes) { witnessRef == "" || "sha256:" <= witnessRef }

  /** ValidateRootWitnessRecord */
  predicate RootWitnessRules(schemaRef: Bytes, mode: Bytes, body: Body, causedBy: seq<Bytes>, witnessRef: Bytes) {
    if witnessRef == "" then
      && schemaRef == ROOT_WITNESS_SCHEMA
      && mode == CAPTURE
      && causedBy == []
      && body.Some? && Stored(Obj(body.value)) == Stored(Obj(RootWitnessBody()))
    else
      schemaRef != ROOT_WITNESS_SCHEMA
  }

  /** CanonicalRecordInput, once its arguments are valid */
  function RecordInput(schemaRef: Bytes, mode: Bytes, body: Body, causedBy: seq<Bytes>, witnessRef: Bytes): Json {
    Obj(map["body" := Obj(Fields(body)),
            "caused_by" := Strings(causedBy),
            "kind" := Str("record"),
            "mode" := Str(mode),
            "schema_ref" := Str(schemaRef),
            "witness" := Str(witnessRef)])
  }

  /** RecordDigest */
  function RecordDigest(k: Kernel, schemaRef: Bytes, mode: Bytes, body: Body, causedBy: seq<Bytes>,
                        witnessRef: Bytes): Result<Bytes>
  {
    if schemaRef == "" || !IsMode(mode) || !IsWitnessRef(witnessRef)
       || !RootWitnessRules(schemaRef, mode, body, causedBy, witnessRef)
    then Err(BadBatch)
    else CanonicalDigest(k, RecordInput(schemaRef, mode, body, causedBy, witnessRef))
  }

  predicate IsContainment(c: Bytes) { c == "full" || c == CONTAINED || c == "buffered" || c == "uncontained" }

  /** RootWitnessRecordID; it cannot fail, see RootWitnessExists */
  function RootWitnessID(k: Kernel): Bytes {
    match RecordDigest(k, ROOT_WITNESS_SCHEMA, CAPTURE, Some(RootWitnessBody()), [], "")
    case Ok(id) => id
    case Err(_) => ""
  }

  function RootWitnessPlan(k: Kernel): WitnessPlan {
    WitnessPlan(RootWitnessID(k), ROOT_WITNESS_SCHEMA, "witness_root", RootWitnessBody(), "")
  }

  function WitnessBody(ctx: RetainedContext, op: OperationContext): map<Bytes, Json> {
    map["actor_ref" := Str(op.actor),
        "authority_refs" := Strings(ctx.capabilityWitnesses),
        "active_binding_refs" := Strings(ctx.activeBindings),
        "semantic_environment_refs" := Strings(ctx.semanticEnvironments),
        "visibility_policy_refs" := Strings(ctx.visibilityPolicies),
        "provenance_policy_refs" := Arr([]),
        "substrate_ref" := Str(ctx.substrate),
        "containment" := Str(ctx.containment)]
  }

  /** ordinaryWitnessPlan: the witness a group's records cite, itself citing the root */
  function OrdinaryWitnessPlan(k: Kernel, ctx: RetainedContext, op: OperationContext): Result<WitnessPlan> {
    if !IsContainment(ctx.containment) || ctx.substrate == "" then Err(BadBatch) else
      var body := WitnessBody(ctx, op);
      var id :- RecordDigest(k, WITNESS_SCHEMA, CAPTURE, Some(body), [], RootWitnessID(k));
      Ok(WitnessPlan(id, WITNESS_SCHEMA, "witness", body, RootWitnessID(k)))
  }

  // ---- Contexts ------------------------------------------------------------

  function DefaultContextDraft(): RetainedContext {
    RetainedContext("", [], [], [], [], LOCAL_SUBSTRATE, CONTAINED)
  }

  /** deduplicate: first occurrences, in order */
  function Deduplicate<T(==)>(ss: seq<T>): seq<T> {
    if ss == [] then [] else
      var init := Deduplicate(ss[..|ss| - 1]);
      var last := ss[|ss| - 1];
      if last in init then init else init + [last]
  }

  /** contextPayload */
  function ContextPayload(draft: RetainedContext, op: OperationContext): RetainedContext {
    draft.(contextID := "",
           semanticEnvironments := Deduplicate(draft.semanticEnvironments + [op.schemaEnvironment]))
  }

  function ContextInput(payload: RetainedContext): Json {
    Obj(map["active_binding_refs" := Strings(payload.activeBindings),
            "capability_witness_refs" := Strings(payload.capabilityWitnesses),
            "semantic_environment_refs" := Strings(payload.semanticEnvironments),
            "visibility_policy_refs" := Strings(payload.visibilityPolicies),
            "substrate_ref" := Str(payload.substrate),
            "containment" := Str(payload.containment)])
  }

  const NUL: byte := Byte(0)

  function ContextPreimage(intent: Bytes, index: nat, text: Bytes): Bytes {
    intent + [NUL] + Decimal(index) + [NUL] + text
  }

  /** contextIDFor: the first 32 digits of the digest */
  function ContextIDFor(k: Kernel, intent: Bytes, index: nat, payload: RetainedContext): Result<Bytes> {
    var text :- Write(AsciiEncoder(k), ContextInput(payload));
    Ok("context:" + k.hash(ContextPreimage(intent, index, text))[..32])
  }

  // ---- Batches -------------------------------------------------------------

  predicate IsReuse(ctx: RetainedContext) { ctx.contextID != "" && ctx.substrate == "" }

  /** contextDraftJSON */
  function ContextDraftJson(ctx: Option<RetainedContext>): Json {
    var d := if ctx.None? || IsReuse(ctx.value) then DefaultContextDraft() else ctx.value;
    Obj(map["active_binding_refs" := Strings(d.activeBindings),
            "capability_witness_refs" := Strings(d.capabilityWitnesses),
            "semantic_environment_refs" := Strings(d.semanticEnvironments),
            "visibility_policy_refs" := Strings(d.visibilityPolicies),
            "substrate_ref" := Str(d.substrate),
            "containment" := Str(d.containment),
            "reuse_context_id" := if ctx.Some? && IsReuse(ctx.value) then Str(ctx.value.contextID) else Null])
  }

  function NullableString(s: Bytes): Json { if s == "" then Null else Str(s) }

  function DraftJson(d: RecordDraft): Json {
    Obj(map["append_local_id" := NullableString(d.localID),
            "kind_label" := Str(d.kindLabel),
            "mode" := Str(d.mode),
            "schema_ref" := Str(d.schemaRef),
            "payload" := if d.payload.Some? then Obj(d.payload.value) else NilObj,
            "caused_by_fact_ids" := Strings(d.causedBy),
            "caused_by_local_refs" := Strings(d.causedByLocal)])
  }

  function DraftsJson(drafts: seq<RecordDraft>): seq<Json> {
    seq(|drafts|, i requires 0 <= i < |drafts| => DraftJson(drafts[i]))
  }

  function GroupJson(g: AppendGroup): Json {
    Obj(map["trace_owner_id" := Str(g.owner),
            "retained_context" := ContextDraftJson(g.context),
            "causal_parents" := Strings(g.causalParents),
            "fact_drafts" := Arr(DraftsJson(g.drafts))])
  }

  function GroupsJson(groups: seq<AppendGroup>): seq<Json> {
    seq(|groups|, i requires 0 <= i < |groups| => GroupJson(groups[i]))
  }

  function BatchJson(batch: AppendBatch, op: OperationContext): Json {
    Obj(map["append_intent_id" := Str(batch.intent),
            "atomicity" := Str("atomic"),
            "actor_ref" := Str(op.actor),
            "schema_version_set" := Str(op.schemaEnvironment),
            "groups" := Arr(GroupsJson(batch.groups))])
  }

  /** batchDigest */
  function BatchDigest(k: Kernel, batch: AppendBatch, op: OperationContext): Result<Bytes> {
    var text :- Write(AsciiEncoder(k), BatchJson(batch, op));
    Ok(k.hash(text))
  }
}
