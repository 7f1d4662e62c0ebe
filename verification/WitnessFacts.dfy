/** What a witness says of the records that cite it. */
module WitnessFacts {
  import opened Wrappers
  import opened Utf8
  import opened Canonical
  import opened CanonicalLaws
  import opened Trace
  import opened Digests
  import opened Tables
  import opened Append
  import opened BatchLaws
  import opened Addressing

  lemma WitnessFields(c: RetainedContext, op: OperationContext)
    ensures var f := Obj(WitnessBody(c, op));
            && "actor_ref" in f.fields && f.fields["actor_ref"] == Str(op.actor)
            && "active_binding_refs" in f.fields && f.fields["active_binding_refs"] == Strings(c.activeBindings)
            && "authority_refs" in f.fields && f.fields["authority_refs"] == Strings(c.capabilityWitnesses)
            && "semantic_environment_refs" in f.fields
            && f.fields["semantic_environment_refs"] == Strings(c.semanticEnvironments)
            && "visibility_policy_refs" in f.fields && f.fields["visibility_policy_refs"] == Strings(c.visibilityPolicies)
            && "substrate_ref" in f.fields && f.fields["substrate_ref"] == Str(c.substrate)
            && "containment" in f.fields && f.fields["containment"] == Str(c.containment)
  {
  }

  lemma BodyDetermined(e: Encoder, a: RetainedContext, aop: OperationContext, b: RetainedContext, bop: OperationContext)
    requires Meaning(e, Obj(WitnessBody(a, aop))) == Meaning(e, Obj(WitnessBody(b, bop)))
    ensures aop.actor == bop.actor && a.(contextID := "") == b.(contextID := "")
  {
    var v, w := Obj(WitnessBody(a, aop)), Obj(WitnessBody(b, bop));
    hide *;
    WitnessFields(a, aop);
    WitnessFields(b, bop);
    SameMember(e, v, w, "actor_ref");
    TextDetermined(e, aop.actor, bop.actor);
    SameMember(e, v, w, "active_binding_refs");
    MeaningsInjectiveOnStrings(e, a.activeBindings, b.activeBindings);
    SameMember(e, v, w, "authority_refs");
    MeaningsInjectiveOnStrings(e, a.capabilityWitnesses, b.capabilityWitnesses);
    SameMember(e, v, w, "semantic_environment_refs");
    MeaningsInjectiveOnStrings(e, a.semanticEnvironments, b.semanticEnvironments);
    SameMember(e, v, w, "visibility_policy_refs");
    MeaningsInjectiveOnStrings(e, a.visibilityPolicies, b.visibilityPolicies);
    SameMember(e, v, w, "substrate_ref");
    TextDetermined(e, a.substrate, b.substrate);
    SameMember(e, v, w, "containment");
    TextDetermined(e, a.containment, b.containment);
  }

  lemma PlanIsDigest(k: Kernel, c: RetainedContext, op: OperationContext)
    requires OrdinaryWitnessPlan(k, c, op).Ok?
    ensures var row := RecordRow(WITNESS_SCHEMA, CAPTURE, RootWitnessID(k), [], StoredBody(Some(WitnessBody(c, op))), "");
            IsDigestOf(k, OrdinaryWitnessPlan(k, c, op).value.recordID, row, Some(WitnessBody(c, op)))
  {
    hide RecordDigest, WitnessBody, StoredBody, RootWitnessID;
  }

  /** Without collisions, records citing one witness were appended by one actor, in contexts that differ at most in id. */
  lemma WitnessDeterminesContext(k: Kernel, a: RetainedContext, aop: OperationContext, b: RetainedContext,
                                 bop: OperationContext)
    requires CollisionFree(k) && OrdinaryWitnessPlan(k, a, aop).Ok? && OrdinaryWitnessPlan(k, b, bop).Ok?
    ensures OrdinaryWitnessPlan(k, a, aop).value.recordID == OrdinaryWitnessPlan(k, b, bop).value.recordID <==>
              aop.actor == bop.actor && a.(contextID := "") == b.(contextID := "")
  {
    hide *;
    PlanIsDigest(k, a, aop);
    PlanIsDigest(k, b, bop);
    var p, q := OrdinaryWitnessPlan(k, a, aop).value, OrdinaryWitnessPlan(k, b, bop).value;
    var bodyA, bodyB := Some(WitnessBody(a, aop)), Some(WitnessBody(b, bop));
    if p.recordID == q.recordID {
      SameIdSameRecord(k, p.recordID, RecordRow(WITNESS_SCHEMA, CAPTURE, RootWitnessID(k), [], StoredBody(bodyA), ""),
                       bodyA, RecordRow(WITNESS_SCHEMA, CAPTURE, RootWitnessID(k), [], StoredBody(bodyB), ""), bodyB);
      SomeFields(bodyA.value);
      SomeFields(bodyB.value);
      BodyDetermined(Utf8Encoder(k), a, aop, b, bop);
    }
    if aop.actor == bop.actor && a.(contextID := "") == b.(contextID := "") { SamePlans(k, a, aop, b, bop); }
  }

  lemma SomeFields(fields: map<Bytes, Json>)
    ensures Fields(Some(fields)) == fields
  {
  }

  lemma SamePlans(k: Kernel, a: RetainedContext, aop: OperationContext, b: RetainedContext, bop: OperationContext)
    requires aop.actor == bop.actor && a.(contextID := "") == b.(contextID := "")
    ensures OrdinaryWitnessPlan(k, a, aop) == OrdinaryWitnessPlan(k, b, bop)
  {
    assert a.(contextID := "").activeBindings == a.activeBindings;
    hide RecordDigest, RootWitnessID;
    assert WitnessBody(a, aop) == WitnessBody(b, bop);
  }
}
