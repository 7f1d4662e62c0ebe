/** Records read back from the store, and whether they still reproduce their ids. */
module Redigests {
  import opened Utf8
  import opened Canonical
  import opened CanonicalLaws
  import opened Trace
  import opened Digests
  import opened Tables
  import opened StagingLaws

  /** Every native float in the body keeps its kind and value when it is stored. */
  predicate BodyKeepsFloats(k: Kernel, body: Body) { KeepsFloats(Utf8Encoder(k), Obj(Fields(body))) }

  predicate BodyHasGoFloats(k: Kernel, body: Body) { GoFloats(Utf8Encoder(k), Obj(Fields(body))) }

  lemma {:induction false} StoredTwice(v: Json)
    ensures Stored(Stored(v)) == Stored(v)
    decreases v, 1
  {
    match v
    case Arr(items) =>
      StoredItemsTwice(items);
    case Obj(fields) =>
      forall k | k in fields ensures Stored(Stored(fields[k])) == Stored(fields[k]) {
        StoredTwice(fields[k]);
      }
      StoredFields(v);
      StoredFields(Stored(v));
      MapsEqual(Stored(Stored(v)).fields, Stored(v).fields);
    case _ =>
  }

  lemma {:induction false} StoredItemsTwice(items: seq<Json>)
    ensures StoredItems(StoredItems(items)) == StoredItems(items)
    decreases items, 0
  {
    if items != [] {
      var rest := StoredItems(items[1..]);
      assert StoredItems(items) == [Stored(items[0])] + rest;
      assert ([Stored(items[0])] + rest)[1..] == rest;
      StoredTwice(items[0]);
      StoredItemsTwice(items[1..]);
    }
  }

  lemma StoredBodyIs(body: Body)
    ensures Obj(Fields(StoredBody(body))) == Stored(Obj(Fields(body)))
  {
  }

  lemma SameRules(schemaRef: Bytes, mode: Bytes, body: Body, causedBy: seq<Bytes>, witnessRef: Bytes)
    ensures RootWitnessRules(schemaRef, mode, StoredBody(body), causedBy, witnessRef) <==>
            RootWitnessRules(schemaRef, mode, body, causedBy, witnessRef)
  {
    StoredBodyIs(body);
    StoredTwice(Obj(Fields(body)));
  }

  lemma InputFields(schemaRef: Bytes, mode: Bytes, body: Body, causedBy: seq<Bytes>, witnessRef: Bytes)
    ensures var v := RecordInput(schemaRef, mode, body, causedBy, witnessRef);
            && v.Obj?
            && v.fields.Keys == {"body", "caused_by", "kind", "mode", "schema_ref", "witness"}
            && v.fields["body"] == Obj(Fields(body))
            && v.fields["caused_by"] == Strings(causedBy)
            && v.fields["kind"] == Str("record")
            && v.fields["mode"] == Str(mode)
            && v.fields["schema_ref"] == Str(schemaRef)
            && v.fields["witness"] == Str(witnessRef)
  {
  }

  /** The digested input of a record means the same after storing exactly when its body does. */
  lemma SameInputMeaning(e: Encoder, schemaRef: Bytes, mode: Bytes, body: Body, causedBy: seq<Bytes>, witnessRef: Bytes)
    ensures Meaning(e, RecordInput(schemaRef, mode, StoredBody(body), causedBy, witnessRef)) ==
            Meaning(e, RecordInput(schemaRef, mode, body, causedBy, witnessRef)) <==>
            Meaning(e, Stored(Obj(Fields(body)))) == Meaning(e, Obj(Fields(body)))
  {
    hide *;
    StoredBodyIs(body);
    InputFields(schemaRef, mode, body, causedBy, witnessRef);
    InputFields(schemaRef, mode, StoredBody(body), causedBy, witnessRef);
    SameMembers(e, RecordInput(schemaRef, mode, StoredBody(body), causedBy, witnessRef),
                RecordInput(schemaRef, mode, body, causedBy, witnessRef));
  }

  lemma InputWrites(e: Encoder, schemaRef: Bytes, mode: Bytes, body: Body, causedBy: seq<Bytes>, witnessRef: Bytes)
    requires Write(e, RecordInput(schemaRef, mode, body, causedBy, witnessRef)).Ok?
    ensures Write(e, Obj(Fields(body))).Ok?
    ensures Write(e, Stored(Obj(Fields(body)))).Ok? ==>
              Write(e, RecordInput(schemaRef, mode, StoredBody(body), causedBy, witnessRef)).Ok?
  {
    hide *;
    StoredBodyIs(body);
    InputFields(schemaRef, mode, body, causedBy, witnessRef);
    InputFields(schemaRef, mode, StoredBody(body), causedBy, witnessRef);
    ObjectMembersWrite(e, RecordInput(schemaRef, mode, body, causedBy, witnessRef));
    ObjectMembersWrite(e, RecordInput(schemaRef, mode, StoredBody(body), causedBy, witnessRef));
  }

  lemma DigestCases(k: Kernel, schemaRef: Bytes, mode: Bytes, body: Body, causedBy: seq<Bytes>, witnessRef: Bytes)
    requires RecordDigest(k, schemaRef, mode, body, causedBy, witnessRef).Ok?
    ensures var v := RecordInput(schemaRef, mode, body, causedBy, witnessRef);
            var w := RecordInput(schemaRef, mode, StoredBody(body), causedBy, witnessRef);
            && RecordDigest(k, schemaRef, mode, body, causedBy, witnessRef) == CanonicalDigest(k, v)
            && RecordDigest(k, schemaRef, mode, StoredBody(body), causedBy, witnessRef) == CanonicalDigest(k, w)
  {
    SameRules(schemaRef, mode, body, causedBy, witnessRef);
  }

  lemma DigestOfText(k: Kernel, v: Json, w: Json)
    requires Write(Utf8Encoder(k), v).Ok? && Write(Utf8Encoder(k), w).Ok?
    ensures CanonicalDigest(k, v).Ok? && CanonicalDigest(k, w).Ok?
    ensures Write(Utf8Encoder(k), v) == Write(Utf8Encoder(k), w) ==> CanonicalDigest(k, v) == CanonicalDigest(k, w)
  {
  }

  /**
    * A record read back always has a digest. It is the record's own id if the native floats of its
    * body keep their kind and value, and, without digest collisions, only then.
    */
  lemma RecordRedigests(k: Kernel, schemaRef: Bytes, mode: Bytes, body: Body, causedBy: seq<Bytes>, witnessRef: Bytes)
    requires BodyHasGoFloats(k, body)
    requires RecordDigest(k, schemaRef, mode, body, causedBy, witnessRef).Ok?
    ensures RecordDigest(k, schemaRef, mode, StoredBody(body), causedBy, witnessRef).Ok?
    ensures BodyKeepsFloats(k, body) ==>
              RecordDigest(k, schemaRef, mode, StoredBody(body), causedBy, witnessRef) ==
              RecordDigest(k, schemaRef, mode, body, causedBy, witnessRef)
    ensures CollisionFree(k) && !BodyKeepsFloats(k, body) ==>
              RecordDigest(k, schemaRef, mode, StoredBody(body), causedBy, witnessRef) !=
              RecordDigest(k, schemaRef, mode, body, causedBy, witnessRef)
  {
    var e := Utf8Encoder(k);
    var v := RecordInput(schemaRef, mode, body, causedBy, witnessRef);
    var w := RecordInput(schemaRef, mode, StoredBody(body), causedBy, witnessRef);
    DigestCases(k, schemaRef, mode, body, causedBy, witnessRef);
    assert Write(e, v).Ok?;
    assert BodyKeepsFloats(k, body) <==> KeepsFloats(e, Obj(Fields(body)));
    hide *;
    InputWrites(e, schemaRef, mode, body, causedBy, witnessRef);
    StoredMeaning(e, Obj(Fields(body)));
    SameInputMeaning(e, schemaRef, mode, body, causedBy, witnessRef);
    WriterIsUnambiguous(e, w, v);
    DigestOfText(k, w, v);
    if CollisionFree(k) && CanonicalDigest(k, w) == CanonicalDigest(k, v) {
      SameDigestSameMeaning(k, w, v);
    }
  }
}
