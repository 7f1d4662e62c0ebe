/** The memoised walk that validates witness chains to the root. */
module WitnessWalk {
  import opened Wrappers
  import opened Seqs
  import opened Utf8
  import opened Trace
  import opened Digests
  import opened Tables

  // ---- Chains --------------------------------------------------------------

  predicate IsWitnessSchema(schemaRef: Bytes) { schemaRef == ROOT_WITNESS_SCHEMA || schemaRef == WITNESS_SCHEMA }

  /** A reference that resolves to a witness record */
  predicate ResolvesToWitness(db: DB, id: Bytes) {
    ReadFact(db, id).Ok? && IsWitnessSchema(ReadFact(db, id).value.row.schemaRef)
  }

  function RowOf(db: DB, id: Bytes): RecordRow
    requires ReadFact(db, id).Ok?
  {
    ReadFact(db, id).value.row
  }

  /** The references from ref to a root witness with the empty sentinel, all of them to witness records */
  predicate IsChain(db: DB, ref: Bytes, c: seq<Bytes>)
    decreases |c|
  {
    && c != [] && c[0] == ref && ResolvesToWitness(db, ref)
    && if RowOf(db, ref).schemaRef == ROOT_WITNESS_SCHEMA then |c| == 1 && RowOf(db, ref).witnessRef == ""
       else RowOf(db, ref).witnessRef != "" && IsChain(db, RowOf(db, ref).witnessRef, c[1..])
  }

  ghost predicate HasChain(db: DB, ref: Bytes) { exists c :: IsChain(db, ref, c) }

  ghost function ChainOf(db: DB, ref: Bytes): (c: seq<Bytes>)
    requires HasChain(db, ref)
    ensures IsChain(db, ref, c)
  {
    var c :| IsChain(db, ref, c);
    c
  }

  lemma {:induction false} ChainUnique(db: DB, ref: Bytes, c: seq<Bytes>, d: seq<Bytes>)
    requires IsChain(db, ref, c) && IsChain(db, ref, d)
    ensures c == d
    decreases |c|
  {
    if RowOf(db, ref).schemaRef != ROOT_WITNESS_SCHEMA {
      ChainUnique(db, RowOf(db, ref).witnessRef, c[1..], d[1..]);
      assert c == [c[0]] + c[1..] && d == [d[0]] + d[1..];
    }
  }

  /** The rest of a chain is the chain of the reference it starts at. */
  lemma {:induction false} ChainSuffix(db: DB, ref: Bytes, c: seq<Bytes>, i: nat)
    requires IsChain(db, ref, c) && i < |c|
    ensures IsChain(db, c[i], c[i..])
    decreases i
  {
    if i == 0 {
      assert c[0..] == c;
    } else {
      ChainSuffix(db, RowOf(db, ref).witnessRef, c[1..], i - 1);
      assert c[1..][i - 1..] == c[i..] && c[1..][i - 1] == c[i];
    }
  }

  /** A chain visits no reference twice. */
  lemma ChainDistinct(db: DB, ref: Bytes, c: seq<Bytes>, i: nat, j: nat)
    requires IsChain(db, ref, c) && i <= j < |c| && c[i] == c[j]
    ensures i == j
  {
    ChainSuffix(db, ref, c, i);
    ChainSuffix(db, ref, c, j);
    ChainUnique(db, c[i], c[i..], c[j..]);
    assert |c[i..]| == |c| - i && |c[j..]| == |c| - j;
  }

  // ---- First-seen order ----------------------------------------------------

  /** order, then the ids it lacks, as they first occur */
  function AddAll(order: seq<Bytes>, ids: seq<Bytes>): seq<Bytes> {
    if ids == [] then order else
      var init := AddAll(order, ids[..|ids| - 1]);
      if ids[|ids| - 1] in init then init else init + [ids[|ids| - 1]]
  }

  lemma {:induction false} DeduplicateConcat(a: seq<Bytes>, b: seq<Bytes>)
    ensures Deduplicate(a + b) == AddAll(Deduplicate(a), b)
  {
    if b == [] {
      assert a + b == a;
    } else {
      assert (a + b)[..|a + b| - 1] == a + b[..|b| - 1];
      DeduplicateConcat(a, b[..|b| - 1]);
    }
  }

  lemma {:induction false} AddAllContents(order: seq<Bytes>, ids: seq<Bytes>)
    ensures forall x :: x in AddAll(order, ids) <==> x in order || x in ids
  {
    if ids != [] {
      var init, last := ids[..|ids| - 1], ids[|ids| - 1];
      AddAllContents(order, init);
      assert forall x :: x in ids <==> x in init || x == last;
    }
  }

  lemma {:induction false} AddAllConcat(order: seq<Bytes>, a: seq<Bytes>, b: seq<Bytes>)
    ensures AddAll(order, a + b) == AddAll(AddAll(order, a), b)
  {
    if b == [] {
      assert a + b == a;
    } else {
      assert (a + b)[..|a + b| - 1] == a + b[..|b| - 1];
      AddAllConcat(order, a, b[..|b| - 1]);
    }
  }

  lemma {:induction false} AddAllPresent(order: seq<Bytes>, ids: seq<Bytes>)
    requires forall x :: x in ids ==> x in order
    ensures AddAll(order, ids) == order
  {
    if ids != [] { AddAllPresent(order, ids[..|ids| - 1]); }
  }

  lemma AddOne(order: seq<Bytes>, id: Bytes)
    ensures AddAll(order, [id]) == if id in order then order else order + [id]
  {
    assert [id][..0] == [];
  }

  // ---- The accumulator -----------------------------------------------------

  /** witnessSupport: the witnesses a slice depends on, in the order they were first met */
  class WitnessSupport {
    var byID: map<Bytes, Record>
    var order: seq<Bytes>

    ghost predicate Valid(db: DB)
      reads this
    {
      && (forall id :: id in order <==> id in byID)
      && (forall i, j :: 0 <= i < j < |order| ==> order[i] != order[j])
      && (forall id :: id in byID ==> ResolvesToWitness(db, id) && byID[id] == ReadFact(db, id).value)
    }

    constructor ()
      ensures byID == map[] && order == []
    {
      byID, order := map[], [];
    }

    method Add(rec: Record)
      modifies this
      ensures byID == old(byID)[rec.id := rec]
      ensures order == if rec.id in old(byID) then old(order) else old(order) + [rec.id]
    {
      if rec.id !in byID { order := order + [rec.id]; }
      byID := byID[rec.id := rec];
    }

    /** The witnesses in first-seen order */
    method Records() returns (out: seq<Record>)
      requires forall id :: id in order ==> id in byID
      ensures |out| == |order| && forall i :: 0 <= i < |order| ==> out[i] == byID[order[i]]
    {
      out := [];
      for i := 0 to |order|
        invariant |out| == i && forall j :: 0 <= j < i ==> out[j] == byID[order[j]]
      {
        if order[i] in byID { out := out + [byID[order[i]]]; }
      }
    }
  }

  lemma ReadFactNamesIt(db: DB, id: Bytes)
    requires ReadFact(db, id).Ok?
    ensures ReadFact(db, id).value.id == id && id in db.records && RowOf(db, id) == db.records[id]
  {
  }

  /** References whose chains are known to reach the root, with every witness on them collected */
  ghost predicate Validated(db: DB, order: seq<Bytes>, done: set<Bytes>) {
    forall v :: v in done ==> exists c :: IsChain(db, v, c) && forall x :: x in c ==> x in order
  }

  /** walked leads from start to ref: whatever chain ref has, start has it after walked, and nothing else. */
  ghost predicate Walked(db: DB, start: Bytes, walked: seq<Bytes>, ref: Bytes) {
    && (forall d :: IsChain(db, ref, d) ==> IsChain(db, start, walked + d))
    && (forall c :: IsChain(db, start, c) ==> |walked| < |c| && c[..|walked|] == walked && IsChain(db, ref, c[|walked|..]))
  }

  lemma WalkStarts(db: DB, start: Bytes)
    ensures Walked(db, start, [], start)
  {
    forall d | IsChain(db, start, d) ensures IsChain(db, start, [] + d) { assert [] + d == d; }
    forall c | IsChain(db, start, c) ensures c[..0] == [] && IsChain(db, start, c[0..]) { assert c[0..] == c; }
  }

  lemma WalkStep(db: DB, start: Bytes, walked: seq<Bytes>, ref: Bytes)
    requires Walked(db, start, walked, ref) && ResolvesToWitness(db, ref)
    requires RowOf(db, ref).schemaRef != ROOT_WITNESS_SCHEMA && RowOf(db, ref).witnessRef != ""
    ensures Walked(db, start, walked + [ref], RowOf(db, ref).witnessRef)
  {
    var next := RowOf(db, ref).witnessRef;
    forall d | IsChain(db, next, d) ensures IsChain(db, start, walked + [ref] + d) {
      ExtendWalk(db, start, walked, ref, d);
    }
    forall c | IsChain(db, start, c)
      ensures |walked| + 1 < |c| && c[..|walked| + 1] == walked + [ref] && IsChain(db, next, c[|walked| + 1..])
    {
      ShortenChain(db, ref, c, walked);
    }
    hide IsChain, ResolvesToWitness, RowOf;
    assert |walked + [ref]| == |walked| + 1;
  }

  lemma ExtendWalk(db: DB, start: Bytes, walked: seq<Bytes>, ref: Bytes, d: seq<Bytes>)
    requires Walked(db, start, walked, ref) && ResolvesToWitness(db, ref)
    requires RowOf(db, ref).schemaRef != ROOT_WITNESS_SCHEMA && RowOf(db, ref).witnessRef != ""
    requires IsChain(db, RowOf(db, ref).witnessRef, d)
    ensures IsChain(db, start, walked + [ref] + d)
  {
    ExtendChain(db, ref, d);
    Associate(walked, [ref], d);
    assert IsChain(db, start, walked + ([ref] + d));
  }

  lemma ExtendChain(db: DB, ref: Bytes, d: seq<Bytes>)
    requires ResolvesToWitness(db, ref) && RowOf(db, ref).schemaRef != ROOT_WITNESS_SCHEMA
    requires RowOf(db, ref).witnessRef != "" && IsChain(db, RowOf(db, ref).witnessRef, d)
    ensures IsChain(db, ref, [ref] + d)
  {
    Unjoin([ref], d);
  }

  lemma ShortenChain(db: DB, ref: Bytes, c: seq<Bytes>, walked: seq<Bytes>)
    requires ResolvesToWitness(db, ref) && RowOf(db, ref).schemaRef != ROOT_WITNESS_SCHEMA
    requires |walked| < |c| && c[..|walked|] == walked && IsChain(db, ref, c[|walked|..])
    ensures |walked| + 1 < |c| && c[..|walked| + 1] == walked + [ref]
    ensures IsChain(db, RowOf(db, ref).witnessRef, c[|walked| + 1..])
  {
    assert c[|walked|..][1..] == c[|walked| + 1..] && c[|walked|..][0] == c[|walked|];
    hide IsChain, ResolvesToWitness, RowOf;
    assert c[..|walked| + 1] == c[..|walked|] + [c[|walked|]];
  }

  /** Coming back to a walked reference means there is no chain. */
  lemma WalkCycles(db: DB, start: Bytes, walked: seq<Bytes>, ref: Bytes)
    requires Walked(db, start, walked, ref) && ref in walked
    ensures !HasChain(db, start)
  {
    if c :| IsChain(db, start, c) {
      var i :| 0 <= i < |walked| && walked[i] == ref;
      assert c[i] == c[..|walked|][i] && c[|walked|] == c[|walked|..][0];
      ChainDistinct(db, start, c, i, |walked|);
    }
  }

  /** A reference that is neither an ordinary witness nor a proper root ends the walk without a chain. */
  lemma WalkFails(db: DB, start: Bytes, walked: seq<Bytes>, ref: Bytes)
    requires Walked(db, start, walked, ref)
    requires ResolvesToWitness(db, ref) ==>
               if RowOf(db, ref).schemaRef == ROOT_WITNESS_SCHEMA then RowOf(db, ref).witnessRef != ""
               else RowOf(db, ref).witnessRef == ""
    ensures !HasChain(db, start)
  {
  }

  /** A walk that ends at a reference with a chain has walked the start's chain up to there. */
  lemma WalkEnds(db: DB, start: Bytes, walked: seq<Bytes>, ref: Bytes, d: seq<Bytes>)
    requires Walked(db, start, walked, ref) && IsChain(db, ref, d)
    ensures HasChain(db, start) && ChainOf(db, start) == walked + d
  {
    assert IsChain(db, start, walked + d);
    ChainUnique(db, start, ChainOf(db, start), walked + d);
  }

  lemma ValidatedMore(db: DB, order: seq<Bytes>, id: Bytes, done: set<Bytes>)
    requires Validated(db, order, done)
    ensures Validated(db, if id in order then order else order + [id], done)
  {
    forall v | v in done ensures exists c :: IsChain(db, v, c) && forall x :: x in c ==> x in order + [id] {
      var c :| IsChain(db, v, c) && forall x :: x in c ==> x in order;
      assert forall x :: x in c ==> x in order + [id];
    }
  }

  /** The witness a reference resolves to, collected if it is met for the first time */
  method Lookup(db: DB, ref: Bytes, support: WitnessSupport) returns (found: Option<Record>)
    requires support.Valid(db)
    modifies support
    ensures support.Valid(db)
    ensures found == if ResolvesToWitness(db, ref) then Some(ReadFact(db, ref).value) else None
    ensures support.order == if found.None? || ref in old(support.order) then old(support.order)
                             else old(support.order) + [ref]
  {
    if ref in support.byID { return Some(support.byID[ref]); }
    if !ResolvesToWitness(db, ref) { return None; }
    ReadFactNamesIt(db, ref);
    support.Add(ReadFact(db, ref).value);
    return Some(ReadFact(db, ref).value);
  }

  lemma StartOrder(order: seq<Bytes>)
    ensures AddAll(order, []) == order
  {
  }

  /** validateWitnessChain */
  method ValidateWitnessChain(db: DB, start: Bytes, support: WitnessSupport, done: set<Bytes>)
      returns (ok: bool, done': set<Bytes>)
    requires support.Valid(db) && Validated(db, support.order, done)
    modifies support
    ensures ok <==> HasChain(db, start)
    ensures support.Valid(db)
    ensures ok ==> support.order == AddAll(old(support.order), ChainOf(db, start))
    ensures ok ==> Validated(db, support.order, done')
  {
    hide *;
    var seen: set<Bytes>, ref := {}, start;
    ghost var order, walked: seq<Bytes> := support.order, [];
    WalkStarts(db, start);
    StartOrder(order);
    while true
      invariant support.Valid(db) && Validated(db, support.order, done)
      invariant Walked(db, start, walked, ref)
      invariant forall x :: x in seen <==> x in walked
      invariant forall x :: x in seen ==> x in db.records
      invariant support.order == AddAll(order, walked)
      decreases |db.records.Keys - seen|
    {
      if ref in done {
        MeetValidated(db, start, walked, ref, order, support.order, done);
        return true, done;
      }
      if ref in seen {
        WalkCycles(db, start, walked, ref);
        return false, done;
      }
      ghost var earlier := seen;
      seen := seen + {ref};
      ValidatedMore(db, support.order, ref, done);
      AddedRef(order, walked, ref);
      var found := Lookup(db, ref, support);
      if found.None? {
        WalkFails(db, start, walked, ref);
        return false, done;
      }
      FoundRow(db, ref);
      var row := found.value.row;
      if row.schemaRef == ROOT_WITNESS_SCHEMA {
        if row.witnessRef != "" {
          WalkFails(db, start, walked, ref);
          return false, done;
        }
        RootChain(db, ref);
        WalkEnds(db, start, walked, ref, [ref]);
        RootValidated(db, start, walked + [ref], order, support.order, done, seen);
        return true, done + seen;
      }
      if row.witnessRef == "" {
        WalkFails(db, start, walked, ref);
        return false, done;
      }
      WalkStep(db, start, walked, ref);
      FewerLeft(db.records.Keys, earlier, seen, ref);
      walked, ref := walked + [ref], row.witnessRef;
    }
  }

  lemma FoundRow(db: DB, ref: Bytes)
    requires ResolvesToWitness(db, ref)
    ensures ref in db.records.Keys && ReadFact(db, ref).value.row == RowOf(db, ref)
  {
    ReadFactNamesIt(db, ref);
  }

  lemma RootChain(db: DB, ref: Bytes)
    requires ResolvesToWitness(db, ref)
    requires RowOf(db, ref).schemaRef == ROOT_WITNESS_SCHEMA && RowOf(db, ref).witnessRef == ""
    ensures IsChain(db, ref, [ref])
  {
  }

  lemma FewerLeft(all: set<Bytes>, smaller: set<Bytes>, larger: set<Bytes>, x: Bytes)
    requires x in all && x !in smaller && larger == smaller + {x}
    ensures |all - larger| < |all - smaller|
  {
    assert all - smaller == (all - larger) + {x};
  }

  lemma AddedRef(order: seq<Bytes>, walked: seq<Bytes>, ref: Bytes)
    ensures AddAll(order, walked + [ref]) ==
            var o := AddAll(order, walked); if ref in o then o else o + [ref]
  {
    AddAllConcat(order, walked, [ref]);
    AddOne(AddAll(order, walked), ref);
  }

  /** Reaching a validated reference completes the chain with witnesses that are collected already. */
  lemma MeetValidated(db: DB, start: Bytes, walked: seq<Bytes>, ref: Bytes, before: seq<Bytes>, order: seq<Bytes>,
                      done: set<Bytes>)
    requires Walked(db, start, walked, ref) && ref in done && Validated(db, order, done)
    requires order == AddAll(before, walked)
    ensures HasChain(db, start) && order == AddAll(before, ChainOf(db, start))
  {
    var d :| IsChain(db, ref, d) && forall x :: x in d ==> x in order;
    WalkEnds(db, start, walked, ref, d);
    AddAllConcat(before, walked, d);
    AddAllPresent(order, d);
  }

  /** After a walk that ended at the root, every reference on it is validated. */
  lemma RootValidated(db: DB, start: Bytes, chain: seq<Bytes>, before: seq<Bytes>, order: seq<Bytes>, done: set<Bytes>,
                      seen: set<Bytes>)
    requires IsChain(db, start, chain) && order == AddAll(before, chain)
    requires Validated(db, order, done) && forall x :: x in seen ==> x in chain
    ensures Validated(db, order, done + seen)
  {
    AddAllContents(before, chain);
    forall v | v in done + seen ensures exists c :: IsChain(db, v, c) && forall x :: x in c ==> x in order {
      if v !in done {
        var i :| 0 <= i < |chain| && chain[i] == v;
        ChainSuffix(db, start, chain, i);
        assert forall x :: x in chain[i..] ==> x in chain;
      }
    }
  }

  // ---- The closure ---------------------------------------------------------

  /** Root records need no witness; every other record cites one whose chain reaches the root. */
  ghost predicate Supported(db: DB, record: Record) {
    if record.row.witnessRef == "" then record.row.schemaRef == ROOT_WITNESS_SCHEMA
    else HasChain(db, record.row.witnessRef)
  }

  ghost function SupportOf(db: DB, record: Record): seq<Bytes>
    requires Supported(db, record)
  {
    if record.row.witnessRef == "" then [] else ChainOf(db, record.row.witnessRef)
  }

  ghost predicate AllSupported(db: DB, records: seq<Record>) { forall r :: r in records ==> Supported(db, r) }

  /** The chains of the records, one after the other */
  ghost function Chains(db: DB, records: seq<Record>): seq<Bytes>
    requires AllSupported(db, records)
  {
    if records == [] then [] else
      Chains(db, records[..|records| - 1]) + SupportOf(db, records[|records| - 1])
  }

  predicate AreRecords(db: DB, out: seq<Record>, ids: seq<Bytes>) {
    |out| == |ids| && forall i :: 0 <= i < |ids| ==> ReadFact(db, ids[i]) == Ok(out[i])
  }

  /** The union of the chains, each witness once, in first-seen order */
  ghost predicate IsSupport(db: DB, records: seq<Record>, out: seq<Record>) {
    AllSupported(db, records) && AreRecords(db, out, Deduplicate(Chains(db, records)))
  }

  lemma SupportSnoc(db: DB, records: seq<Record>, i: nat, order: seq<Bytes>)
    requires i < |records| && AllSupported(db, records[..i]) && Supported(db, records[i])
    requires order == Deduplicate(Chains(db, records[..i]))
    ensures AllSupported(db, records[..i + 1])
    ensures AddAll(order, SupportOf(db, records[i])) == Deduplicate(Chains(db, records[..i + 1]))
  {
    Rejoin(records[..i + 1], i, records[..i], [records[i]]);
    assert forall r :: r in records[..i + 1] <==> r in records[..i] || r == records[i];
    assert records[..i + 1][..i] == records[..i];
    DeduplicateConcat(Chains(db, records[..i]), SupportOf(db, records[i]));
  }

  lemma SupportCases(db: DB, record: Record, order: seq<Bytes>)
    requires ProperSentinel(record)
    ensures record.row.witnessRef != "" ==> (Supported(db, record) <==> HasChain(db, record.row.witnessRef))
    ensures record.row.witnessRef != "" && Supported(db, record) ==>
              SupportOf(db, record) == ChainOf(db, record.row.witnessRef)
    ensures record.row.witnessRef == "" ==> Supported(db, record) && AddAll(order, SupportOf(db, record)) == order
  {
  }

  lemma OneUnsupported(db: DB, records: seq<Record>, i: nat)
    requires i < |records| && !Supported(db, records[i])
    ensures !AllSupported(db, records)
  {
    assert records[i] in records;
  }

  lemma NothingSupported(db: DB, records: seq<Record>)
    ensures AllSupported(db, records[..0]) && Deduplicate(Chains(db, records[..0])) == []
    ensures Validated(db, [], {})
  {
  }

  lemma SupportFound(db: DB, records: seq<Record>, out: seq<Record>, order: seq<Bytes>, byID: map<Bytes, Record>)
    requires AllSupported(db, records) && order == Deduplicate(Chains(db, records))
    requires forall id :: id in order ==> id in byID && ResolvesToWitness(db, id) && byID[id] == ReadFact(db, id).value
    requires |out| == |order| && forall i :: 0 <= i < |order| ==> out[i] == byID[order[i]]
    ensures IsSupport(db, records, out)
  {
    forall i | 0 <= i < |order| ensures ReadFact(db, order[i]) == Ok(out[i]) {
      assert ResolvesToWitness(db, order[i]);
    }
  }

  predicate ProperSentinel(record: Record) {
    record.row.witnessRef == "" ==> record.row.schemaRef == ROOT_WITNESS_SCHEMA
  }

  /** The first loop of witnessSupportClosure: only root records have an empty witness reference. */
  method CheckSentinels(records: seq<Record>) returns (ok: bool)
    ensures ok <==> forall i :: 0 <= i < |records| ==> ProperSentinel(records[i])
  {
    for i := 0 to |records|
      invariant forall j :: 0 <= j < i ==> ProperSentinel(records[j])
    {
      if !ProperSentinel(records[i]) { return false; }
    }
    return true;
  }

  /** The second loop: the chains of the records, validated one after the other */
  method CollectSupport(db: DB, records: seq<Record>, support: WitnessSupport) returns (ok: bool)
    requires support.Valid(db) && support.order == []
    requires forall i :: 0 <= i < |records| ==> ProperSentinel(records[i])
    modifies support
    ensures ok <==> AllSupported(db, records)
    ensures ok ==> support.Valid(db) && support.order == Deduplicate(Chains(db, records))
  {
    hide *;
    var done: set<Bytes> := {};
    NothingSupported(db, records);
    for i := 0 to |records|
      invariant support.Valid(db) && Validated(db, support.order, done)
      invariant AllSupported(db, records[..i]) && support.order == Deduplicate(Chains(db, records[..i]))
    {
      SupportCases(db, records[i], support.order);
      ghost var order := support.order;
      if records[i].row.witnessRef != "" {
        ok, done := ValidateWitnessChain(db, records[i].row.witnessRef, support, done);
        if !ok {
          OneUnsupported(db, records, i);
          return false;
        }
      }
      SupportSnoc(db, records, i, order);
    }
    assert records[..|records|] == records;
    return true;
  }

  /** witnessSupportClosure succeeds exactly when every record is supported, on any store, corrupt or not. */
  method WitnessSupportClosure(db: DB, records: seq<Record>) returns (r: Result<seq<Record>>)
    ensures r.Ok? <==> AllSupported(db, records)
    ensures r.Ok? ==> IsSupport(db, records, r.value)
  {
    var proper := CheckSentinels(records);
    if !proper {
      ghost var i :| 0 <= i < |records| && !ProperSentinel(records[i]);
      OneUnsupported(db, records, i);
      return Err(StoreLaw);
    }
    var support := new WitnessSupport();
    var ok := CollectSupport(db, records, support);
    if !ok { return Err(StoreLaw); }
    hide *;
    ValidSupport(db, support);
    var out := support.Records();
    SupportFound(db, records, out, support.order, support.byID);
    r := Ok(out);
  }

  lemma ValidSupport(db: DB, support: WitnessSupport)
    requires support.Valid(db)
    ensures forall id :: id in support.order ==> id in support.byID && ResolvesToWitness(db, id)
                                                 && support.byID[id] == ReadFact(db, id).value
  {
  }
}
