/** Which appends, publications, reads and projections are refused. */
module Guards {
  import opened Wrappers
  import opened Seqs
  import opened Utf8
  import opened Trace
  import opened Digests
  import opened Tables
  import opened Append
  import opened Frontiers
  import opened Slices
  import opened Reading
  import opened Closure
  import opened Cuts
  import opened Executions

  // ---- Appending -----------------------------------------------------------

  predicate Trusted(op: OperationContext) { op.trustMode == "internal" || "trusted:internal" in op.authorityRefs }

  /** Without trust, nothing is appended or published and the tables stay as they are. */
  lemma AppendsNeedTrust(k: Kernel, db: DB, op: OperationContext, batch: AppendBatch, spec: FrontierSpec)
    ensures !Trusted(op) ==>
              && AppendTo(k, db, op, batch) == (db, Err(Unauthorized))
              && PublishTo(k, db, op, spec) == (db, Err(Unauthorized))
              && PublishExecution(k, db, op, spec).0 == db && PublishExecution(k, db, op, spec).1.Err?
    ensures AppendTo(k, db, op, batch).1.Ok? <==> Trusted(op) && AppendTx(k, db, op, batch).Ok?
    ensures PublishTo(k, db, op, spec).1.Ok? <==> Trusted(op) && PublishTx(k, db, op, spec).Ok?
  {
    hide AppendTx, PublishTx, ReadFact;
  }

  /** A batch names its intent and owners, its drafts are well formed, and no two of them share a local id. */
  ghost predicate WellFormedBatch(batch: AppendBatch) {
    var drafts := AllDrafts(batch.groups);
    && batch.intent != ""
    && (forall i :: 0 <= i < |batch.groups| ==> batch.groups[i].owner != "")
    && (forall n :: 0 <= n < |drafts| ==>
          && (drafts[n].mode == "capture" || drafts[n].mode == "declaration") && drafts[n].schemaRef != ""
          && (drafts[n].payload.Some? ==>
                forall x :: x in drafts[n].payload.value ==> Marshals(drafts[n].payload.value[x])))
    && NamesDiffer(drafts)
  }

  ghost predicate NamesDiffer(drafts: seq<RecordDraft>) {
    forall m, n :: 0 <= m < n < |drafts| && drafts[m].localID == drafts[n].localID ==> drafts[m].localID == ""
  }

  ghost predicate Named(drafts: seq<RecordDraft>, x: Bytes) {
    x != "" && exists n :: 0 <= n < |drafts| && drafts[n].localID == x
  }

  lemma NamedCons(d: RecordDraft, rest: seq<RecordDraft>, x: Bytes)
    ensures Named([d] + rest, x) <==> (x != "" && d.localID == x) || Named(rest, x)
  {
    var all := [d] + rest;
    assert all[0] == d;
    if n :| 0 <= n < |rest| && rest[n].localID == x { assert all[n + 1] == rest[n]; }
    if n :| 0 <= n < |all| && all[n].localID == x { assert n > 0 ==> all[n] == rest[n - 1]; }
  }

  lemma {:induction false} LocalIDsNamed(drafts: seq<RecordDraft>)
    ensures forall x :: x in LocalIDs(drafts) <==> Named(drafts, x)
  {
    if drafts != [] {
      LocalIDsNamed(drafts[1..]);
      Rejoin(drafts, 1, [drafts[0]], drafts[1..]);
      forall x ensures Named(drafts, x) <==> (x != "" && drafts[0].localID == x) || Named(drafts[1..], x) {
        NamedCons(drafts[0], drafts[1..], x);
      }
      hide Named;
    }
  }

  lemma DifferCons(d: RecordDraft, rest: seq<RecordDraft>)
    ensures NamesDiffer([d] + rest) <==> NamesDiffer(rest) && !Named(rest, d.localID)
  {
    var all := [d] + rest;
    assert all[0] == d && forall n :: 0 <= n < |rest| ==> all[n + 1] == rest[n];
    forall m, n | NamesDiffer(all) && 0 <= m < n < |rest| && rest[m].localID == rest[n].localID
      ensures rest[m].localID == ""
    {
      assert all[m + 1] == rest[m] && all[n + 1] == rest[n];
    }
    forall m, n | NamesDiffer(rest) && !Named(rest, d.localID) && 0 <= m < n < |all| && all[m].localID == all[n].localID
      ensures all[m].localID == ""
    {
      assert all[n] == rest[n - 1];
      if m > 0 { assert all[m] == rest[m - 1]; }
    }
  }

  lemma DistinctCons(a: Bytes, rest: seq<Bytes>)
    ensures Distinct([a] + rest) <==> Distinct(rest) && a !in rest
  {
    var all := [a] + rest;
    if Distinct(all) {
      forall i, j | 0 <= i < j < |rest| ensures rest[i] != rest[j] { assert all[i + 1] == rest[i] && all[j + 1] == rest[j]; }
      forall i | 0 <= i < |rest| ensures rest[i] != a { assert all[0] == a && all[i + 1] == rest[i]; }
    }
  }

  lemma {:induction false} LocalIDsDistinct(drafts: seq<RecordDraft>)
    ensures Distinct(LocalIDs(drafts)) <==> NamesDiffer(drafts)
  {
    if drafts != [] {
      var d, rest := drafts[0], drafts[1..];
      LocalIDsDistinct(rest);
      LocalIDsNamed(rest);
      Rejoin(drafts, 1, [d], rest);
      DifferCons(d, rest);
      DistinctCons(d.localID, LocalIDs(rest));
      hide Distinct, NamesDiffer;
      assert d.localID == "" ==> [] + LocalIDs(rest) == LocalIDs(rest);
    }
  }

  lemma ShapeIsWellFormed(batch: AppendBatch)
    ensures BatchShape(batch) <==> WellFormedBatch(batch)
  {
    LocalIDsDistinct(AllDrafts(batch.groups));
    hide LocalIDs, AllDrafts, Marshals, NamesDiffer, Distinct;
    var drafts := AllDrafts(batch.groups);
    assert (forall d :: d in drafts ==> DraftShape(d)) <==> forall n :: 0 <= n < |drafts| ==> DraftShape(drafts[n]);
  }

  /** A malformed batch is refused as such, whatever the tables hold; a well-formed one never is before its digest. */
  lemma MalformedRefused(k: Kernel, db: DB, op: OperationContext, batch: AppendBatch)
    ensures !WellFormedBatch(batch) ==> AppendTx(k, db, op, batch) == Err(BadBatch)
    ensures AppendTx(k, db, op, batch).Ok? ==> WellFormedBatch(batch)
  {
    ShapeIsWellFormed(batch);
    hide BatchShape, WellFormedBatch, BatchDigest, Stage, Commit;
  }

  // ---- Reading -------------------------------------------------------------

  predicate MayRead(rc: ReadContext) {
    rc.visibility == "shape_only" || rc.visibility == "payload"
    || (rc.visibility == "full_internal" && "trusted:internal" in rc.refs)
  }

  predicate KnownFilter(mode: Bytes) { mode == "both" || mode == "declarations_only" || mode == "captures_only" }

  /** A read is refused without the right to its visibility, and then on an unknown filter or policy. */
  lemma ReadsAreGuarded(db: DB, rc: ReadContext, id: Bytes, roots: seq<Bytes>, mode: Bytes, policy: Bytes)
    ensures !MayRead(rc) ==>
              ResolveResult(db, rc, id, mode) == Err(Unauthorized)
              && ClosureResult(db, rc, roots, mode, policy) == Err(Unauthorized)
    ensures MayRead(rc) && !KnownFilter(mode) ==>
              ResolveResult(db, rc, id, mode) == Err(Incompatible)
              && ClosureResult(db, rc, roots, mode, policy) == Err(Incompatible)
    ensures MayRead(rc) && policy != "visible_only" && policy != "include_external_anchors" ==>
              ClosureResult(db, rc, roots, mode, policy) == Err(Incompatible)
  {
    hide SliceResult, AllReadable, ReadOwnerCutoff;
  }

  // ---- Projecting ----------------------------------------------------------

  lemma {:induction false} FactsThere(facts: map<Bytes, Visible>, ids: seq<Bytes>)
    ensures PathFacts(facts, ids).Ok? <==> forall i :: 0 <= i < |ids| ==> ids[i] in facts && facts[ids[i]].Full?
    ensures PathFacts(facts, ids).Ok? ==>
              |PathFacts(facts, ids).value| == |ids|
              && forall i :: 0 <= i < |ids| ==> PathFacts(facts, ids).value[i] == facts[ids[i]].record
  {
    if ids != [] { FactsThere(facts, ids[..|ids| - 1]); }
  }

  /**
    * A slice projects exactly when it shows payloads in both modes and holds every fact of the target's path; the facts
    * projected are those of the path in order, and the cutoff is the one given, the slice's, or the end of the path.
    */
  lemma ProjectsExactly(s: Slice, target: Bytes, cutoff: Option<Frontier>)
    ensures var ids := if target in s.ownerPaths then s.ownerPaths[target] else [];
            var r := Projection(s, target, cutoff);
            && (r.Ok? <==> s.visibility != "shape_only" && s.mode == "both"
                           && forall i :: 0 <= i < |ids| ==> ids[i] in s.facts && s.facts[ids[i]].Full?)
            && (r.Ok? && cutoff.Some? ==> r.value.cutoff == cutoff.value)
            && (r.Ok? && cutoff.None? && s.frontier.Some? ==> r.value.cutoff == s.frontier.value)
            && (r.Ok? && cutoff.None? && s.frontier.None? ==>
                  && r.value.cutoff.target == target
                  && (if ids == [] then r.value.cutoff.throughFact == "" && r.value.cutoff.throughOrdinal == -1
                      else && r.value.cutoff.throughFact == ids[|ids| - 1]
                           && r.value.cutoff.throughOrdinal == s.facts[ids[|ids| - 1]].record.view.ordinal))
  {
    FactsThere(s.facts, PathIn(s, target));
    hide PathFacts, Fold;
  }

  /** An execution frontier is published exactly when its through fact is a retained completion or failure. */
  lemma PublishesTerminals(k: Kernel, db: DB, op: OperationContext, spec: FrontierSpec)
    ensures var fact := ReadFact(db, spec.throughFact);
            PublishExecution(k, db, op, spec).1.Ok? <==>
              && fact.Ok? && fact.value.id == spec.throughFact
              && (fact.value.row.schemaRef == "shepherd2.execution.completed.v1"
                  || fact.value.row.schemaRef == "shepherd2.execution.failed.v1")
              && Trusted(op) && PublishTx(k, db, op, spec).Ok?
    ensures PublishExecution(k, db, op, spec).1.Err? ==> PublishExecution(k, db, op, spec).0 == db
  {
    hide PublishTx, FirstPlace;
  }
}
