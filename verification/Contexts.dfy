/** Context ids determine the intent, the group index and the payload. */
module Contexts {
  import opened Seqs
  import opened Utf8
  import opened Numbers
  import opened Canonical
  import opened CanonicalLaws
  import opened Trace
  import opened Digests
  import opened BatchLaws

  predicate HasNul(s: Bytes) { NUL in s }

  /** Two fields joined by a NUL, as ExecutionIDFor and RelationIDFor digest them */
  function JoinNul(a: Bytes, b: Bytes): Bytes { a + [NUL] + b }

  lemma PrintableHasNoNul(s: Bytes)
    requires Printable(s)
    ensures !HasNul(s)
  {
  }

  lemma DigitsHaveNoNul(s: Bytes)
    requires AllDigits(s)
    ensures !HasNul(s)
  {
  }

  /** Where the bytes of a joined text come from */
  lemma JoinBytes(a: Bytes, x: Bytes)
    ensures var s := JoinNul(a, x);
            && |s| == |a| + 1 + |x| && s[|a|] == NUL
            && (forall i :: 0 <= i < |a| ==> s[i] == a[i] && s[i] in a)
            && (forall i :: |a| < i < |s| ==> s[i] == x[i - |a| - 1] && s[i] in x)
  {
  }

  lemma JoinParts(a: Bytes, x: Bytes)
    ensures JoinNul(a, x)[..|a|] == a && JoinNul(a, x)[|a| + 1..] == x
  {
  }

  /** The last NUL splits a text in only one way. */
  lemma LastNul(a: Bytes, x: Bytes, b: Bytes, y: Bytes)
    requires !HasNul(x) && !HasNul(y) && JoinNul(a, x) == JoinNul(b, y)
    ensures a == b && x == y
  {
    JoinBytes(a, x);
    JoinBytes(b, y);
    assert |a| == |b|;
    JoinParts(a, x);
    JoinParts(b, y);
  }

  /** The preimage separates its fields at the last two NULs, even when the intent contains NUL. */
  lemma PreimageFields(intent: Bytes, index: nat, text: Bytes, intent2: Bytes, index2: nat, text2: Bytes)
    requires Printable(text) && Printable(text2)
    requires ContextPreimage(intent, index, text) == ContextPreimage(intent2, index2, text2)
    ensures intent == intent2 && index == index2 && text == text2
  {
    PrintableHasNoNul(text);
    PrintableHasNoNul(text2);
    LastNul(intent + [NUL] + Decimal(index), text, intent2 + [NUL] + Decimal(index2), text2);
    DecimalIsWhole(index);
    DecimalIsWhole(index2);
    DigitsHaveNoNul(Decimal(index));
    DigitsHaveNoNul(Decimal(index2));
    LastNul(intent, Decimal(index), intent2, Decimal(index2));
    NatOfDecimal(index);
    NatOfDecimal(index2);
  }

  lemma ContextInputFields(p: RetainedContext)
    ensures var f := ContextInput(p);
            && f.Obj?
            && "active_binding_refs" in f.fields && f.fields["active_binding_refs"] == Strings(p.activeBindings)
            && "capability_witness_refs" in f.fields
            && f.fields["capability_witness_refs"] == Strings(p.capabilityWitnesses)
            && "semantic_environment_refs" in f.fields
            && f.fields["semantic_environment_refs"] == Strings(p.semanticEnvironments)
            && "visibility_policy_refs" in f.fields
            && f.fields["visibility_policy_refs"] == Strings(p.visibilityPolicies)
            && "substrate_ref" in f.fields && f.fields["substrate_ref"] == Str(p.substrate)
            && "containment" in f.fields && f.fields["containment"] == Str(p.containment)
  {
  }

  /** The printed payload determines the payload. */
  lemma PayloadOfText(e: Encoder, p: RetainedContext, q: RetainedContext)
    requires Meaning(e, ContextInput(p)) == Meaning(e, ContextInput(q))
    ensures p.(contextID := "") == q.(contextID := "")
  {
    var v, w := ContextInput(p), ContextInput(q);
    hide *;
    ContextInputFields(p);
    ContextInputFields(q);
    SameMember(e, v, w, "active_binding_refs");
    MeaningsInjectiveOnStrings(e, p.activeBindings, q.activeBindings);
    SameMember(e, v, w, "capability_witness_refs");
    MeaningsInjectiveOnStrings(e, p.capabilityWitnesses, q.capabilityWitnesses);
    SameMember(e, v, w, "semantic_environment_refs");
    MeaningsInjectiveOnStrings(e, p.semanticEnvironments, q.semanticEnvironments);
    SameMember(e, v, w, "visibility_policy_refs");
    MeaningsInjectiveOnStrings(e, p.visibilityPolicies, q.visibilityPolicies);
    SameMember(e, v, w, "substrate_ref");
    TextDetermined(e, p.substrate, q.substrate);
    SameMember(e, v, w, "containment");
    TextDetermined(e, p.containment, q.containment);
  }

  /** The digested preimages of two contexts are equal exactly when intent, group index and payload are. */
  lemma PreimageIsInjective(k: Kernel, intent: Bytes, index: nat, p: RetainedContext, intent2: Bytes, index2: nat,
                            q: RetainedContext)
    requires Write(AsciiEncoder(k), ContextInput(p)).Ok? && Write(AsciiEncoder(k), ContextInput(q)).Ok?
    ensures var e := AsciiEncoder(k);
            ContextPreimage(intent, index, Write(e, ContextInput(p)).value) ==
            ContextPreimage(intent2, index2, Write(e, ContextInput(q)).value)
            <==> intent == intent2 && index == index2 && p.(contextID := "") == q.(contextID := "")
  {
    var e := AsciiEncoder(k);
    var s, t := Write(e, ContextInput(p)).value, Write(e, ContextInput(q)).value;
    AsciiPrintable(e, ContextInput(p));
    AsciiPrintable(e, ContextInput(q));
    if ContextPreimage(intent, index, s) == ContextPreimage(intent2, index2, t) {
      PreimageFields(intent, index, s, intent2, index2, t);
      SameTextSameMeaning(e, ContextInput(p), ContextInput(q));
      PayloadOfText(e, p, q);
    }
    if p.(contextID := "") == q.(contextID := "") {
      assert ContextInput(p) == ContextInput(q);
    }
  }

  /** Two different texts whose digests start with the same 32 digits */
  predicate SharesDigits(k: Kernel, s: Bytes, t: Bytes) { s != t && k.hash(s)[..32] == k.hash(t)[..32] }

  /** Two contexts have the same id exactly when they are the same context or the digest confuses their preimages. */
  lemma SameContextID(k: Kernel, intent: Bytes, index: nat, p: RetainedContext, intent2: Bytes, index2: nat,
                      q: RetainedContext)
    requires ContextIDFor(k, intent, index, p).Ok? && ContextIDFor(k, intent2, index2, q).Ok?
    ensures var e := AsciiEncoder(k);
            ContextIDFor(k, intent, index, p) == ContextIDFor(k, intent2, index2, q) <==>
            (intent == intent2 && index == index2 && p.(contextID := "") == q.(contextID := ""))
            || SharesDigits(k, ContextPreimage(intent, index, Write(e, ContextInput(p)).value),
                            ContextPreimage(intent2, index2, Write(e, ContextInput(q)).value))
  {
    PreimageIsInjective(k, intent, index, p, intent2, index2, q);
    var e := AsciiEncoder(k);
    var s := ContextPreimage(intent, index, Write(e, ContextInput(p)).value);
    var t := ContextPreimage(intent2, index2, Write(e, ContextInput(q)).value);
    var x, y := k.hash(s)[..32], k.hash(t)[..32];
    assert ("context:" + x)[8..] == x && ("context:" + y)[8..] == y;
  }

  // ---- Two-field joins -----------------------------------------------------

  lemma SplitAtNul(s: Bytes) returns (a: Bytes, b: Bytes)
    requires HasNul(s)
    ensures s == a + [NUL] + b
  {
    var i :| 0 <= i < |s| && s[i] == NUL;
    a, b := s[..i], s[i + 1..];
  }

  lemma NulOfJoin(a: Bytes, x: Bytes, b: Bytes, y: Bytes)
    requires !HasNul(a) && !HasNul(x) && JoinNul(a, x) == JoinNul(b, y)
    ensures a == b && x == y
  {
    JoinBytes(a, x);
    JoinBytes(b, y);
    assert |a| == |b|;
    JoinParts(a, x);
    JoinParts(b, y);
  }

  ghost predicate AmbiguousJoin(intent: Bytes, localRef: Bytes) {
    exists a: Bytes, x: Bytes :: (a != intent || x != localRef) && JoinNul(a, x) == JoinNul(intent, localRef)
  }

  /** An execution or relation id's preimage stands for another pair exactly when a field contains NUL. */
  lemma JoinIsAmbiguousExactlyOnNul(intent: Bytes, localRef: Bytes)
    ensures AmbiguousJoin(intent, localRef) <==> HasNul(intent) || HasNul(localRef)
  {
    if !HasNul(intent) && !HasNul(localRef) {
      forall a: Bytes, x: Bytes | JoinNul(a, x) == JoinNul(intent, localRef) ensures a == intent && x == localRef {
        NulOfJoin(intent, localRef, a, x);
      }
    } else if HasNul(intent) {
      var a, b := SplitAtNul(intent);
      Associate(a + [NUL], b, [NUL] + localRef);
      assert JoinNul(a, b + [NUL] + localRef) == JoinNul(intent, localRef);
      assert a != intent;
    } else {
      var a, b := SplitAtNul(localRef);
      assert JoinNul(intent + [NUL] + a, b) == JoinNul(intent, localRef);
      assert b != localRef;
    }
  }
}
