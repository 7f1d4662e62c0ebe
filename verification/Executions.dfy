/** Projecting executions, and terminal frontiers. */
module Executions {
  import opened Wrappers
  import opened Utf8
  import opened Canonical
  import opened Trace
  import opened Digests
  import opened Tables
  import opened Append
  import opened Invariant
  import opened Commits
  import opened Frontiers
  import opened Slices
  import opened Reading
  import opened Closure
  import opened Runs
  import opened Cuts

  const CREATED: Bytes := "shepherd2.execution.created.v1"
  const STARTED: Bytes := "shepherd2.execution.started.v1"
  const COMPLETED: Bytes := "shepherd2.execution.completed.v1"
  const FAILED: Bytes := "shepherd2.execution.failed.v1"

  datatype Status = Pending | Running | Succeeded | Failed

  datatype Execution = Execution(
    id: Bytes,
    taskRef: Bytes,
    parent: Bytes,
    status: Status,
    inputs: map<Bytes, Json>,
    outputs: map<Bytes, Json>,
    error: Bytes,
    started: Bytes,
    terminal: Bytes,
    cutoff: Frontier)

  // ---- Payloads ------------------------------------------------------------

  function PayloadString(body: Body, key: Bytes): Bytes {
    if key in Fields(body) && Fields(body)[key].Str? then Fields(body)[key].s else ""
  }

  function PayloadMap(body: Body, key: Bytes): map<Bytes, Json> {
    if key in Fields(body) && Fields(body)[key].Obj? then Fields(body)[key].fields else map[]
  }

  /** The fact names this execution, or none. */
  predicate Concerns(body: Body, target: Bytes) {
    "execution_id" in Fields(body) && Fields(body)["execution_id"] != Null ==> Fields(body)["execution_id"] == Str(target)
  }

  // ---- The fold ------------------------------------------------------------

  predicate IsTerminalSchema(schemaRef: Bytes) { schemaRef == COMPLETED || schemaRef == FAILED }

  predicate IsLifecycle(schemaRef: Bytes) { schemaRef == CREATED || schemaRef == STARTED || IsTerminalSchema(schemaRef) }

  function StatusAfter(schemaRef: Bytes): Status {
    if schemaRef == STARTED then Running
    else if schemaRef == COMPLETED then Succeeded
    else if schemaRef == FAILED then Failed
    else Pending
  }

  const NOWHERE: Frontier := Frontier("", "", "", 0, "", "")

  function NewExecution(target: Bytes): Execution {
    Execution(target, "", "", Pending, map[], map[], "", "", "", NOWHERE)
  }

  /** One fact of the owner path, folded into the execution */
  function FoldFact(e: Execution, fact: Record): Execution {
    var body, schemaRef := fact.row.body, fact.row.schemaRef;
    if !Concerns(body, e.id) then e
    else if schemaRef == CREATED then
      e.(taskRef := PayloadString(body, "task_ref"), parent := PayloadString(body, "parent_execution_id"),
         inputs := PayloadMap(body, "inputs"), status := Pending)
    else if schemaRef == STARTED then e.(started := fact.id, status := Running)
    else if schemaRef == COMPLETED then
      e.(outputs := PayloadMap(body, "outputs"), error := "", terminal := fact.id, status := Succeeded)
    else if schemaRef == FAILED then
      e.(outputs := map[], error := PayloadString(body, "error"), terminal := fact.id, status := Failed)
    else e
  }

  function Fold(target: Bytes, facts: seq<Record>): Execution {
    if facts == [] then NewExecution(target) else FoldFact(Fold(target, facts[..|facts| - 1]), facts[|facts| - 1])
  }

  /** The facts a path names, all of them in the slice with their payload */
  function PathFacts(facts: map<Bytes, Visible>, ids: seq<Bytes>): Result<seq<Record>> {
    if ids == [] then Ok([]) else
      var init :- PathFacts(facts, ids[..|ids| - 1]);
      var last := ids[|ids| - 1];
      if last in facts && facts[last].Full? then Ok(init + [facts[last].record]) else Err(Incompatible)
  }

  /** EnsureProjectionCompatible, for projections that require payloads and both modes */
  predicate Projectable(s: Slice) { s.visibility != SHAPE_ONLY && s.mode == BOTH }

  function PathIn(s: Slice, owner: Bytes): seq<Bytes> { if owner in s.ownerPaths then s.ownerPaths[owner] else [] }

  /** executionCutoffFrom */
  function CutoffFrom(s: Slice, target: Bytes): Frontier {
    if s.frontier.Some? then s.frontier.value else
      var ids := PathIn(s, target);
      if ids == [] then Frontier("", target, "", -1, "", "") else
        var through := ids[|ids| - 1];
        Frontier("", target, through,
                 if through in s.facts && s.facts[through].Full? then s.facts[through].record.view.ordinal else -1, "", "")
  }

  function Projection(s: Slice, target: Bytes, cutoff: Option<Frontier>): Result<Execution> {
    if !Projectable(s) then Err(Incompatible) else
      var facts :- PathFacts(s.facts, PathIn(s, target));
      Ok(Fold(target, facts).(cutoff := if cutoff.Some? then cutoff.value else CutoffFrom(s, target)))
  }

  lemma {:induction false} PathFactsFail(facts: map<Bytes, Visible>, ids: seq<Bytes>, i: nat)
    requires i <= |ids| && PathFacts(facts, ids[..i]).Err?
    ensures PathFacts(facts, ids) == Err(Incompatible)
    decreases |ids| - i
  {
    if i == |ids| {
      assert ids[..i] == ids;
      PathFactsError(facts, ids);
    } else {
      assert ids[..i + 1][..i] == ids[..i];
      PathFactsFail(facts, ids, i + 1);
    }
  }

  lemma {:induction false} PathFactsError(facts: map<Bytes, Visible>, ids: seq<Bytes>)
    ensures PathFacts(facts, ids).Err? ==> PathFacts(facts, ids) == Err(Incompatible)
  {
    if ids != [] { PathFactsError(facts, ids[..|ids| - 1]); }
  }

  lemma PathFactsStep(facts: map<Bytes, Visible>, ids: seq<Bytes>, i: nat)
    requires i < |ids| && PathFacts(facts, ids[..i]).Ok?
    ensures PathFacts(facts, ids[..i + 1]) ==
            if ids[i] in facts && facts[ids[i]].Full? then Ok(PathFacts(facts, ids[..i]).value + [facts[ids[i]].record])
            else Err(Incompatible)
  {
    assert ids[..i + 1][..i] == ids[..i];
  }

  lemma FoldStep(target: Bytes, facts: seq<Record>, fact: Record)
    ensures Fold(target, facts + [fact]) == FoldFact(Fold(target, facts), fact)
  {
    assert (facts + [fact])[..|facts|] == facts;
  }

  /** ProjectExecution */
  method ProjectExecution(s: Slice, target: Bytes, cutoff: Option<Frontier>) returns (r: Result<Execution>)
    ensures r == Projection(s, target, cutoff)
    ensures r.Ok? ==> PathFacts(s.facts, PathIn(s, target)).Ok?
                      && ExecutionSays(target, PathFacts(s.facts, PathIn(s, target)).value, r.value)
  {
    if !Projectable(s) { return Err(Incompatible); }
    var exec := NewExecution(target);
    var ids := PathIn(s, target);
    ghost var facts: seq<Record> := [];
    assert Fold(target, []) == exec && PathFacts(s.facts, ids[..0]) == Ok([]);
    hide Fold, FoldFact, PathFacts, PathIn, CutoffFrom, NewExecution;
    for i := 0 to |ids|
      invariant PathFacts(s.facts, ids[..i]) == Ok(facts) && exec == Fold(target, facts)
    {
      PathFactsStep(s.facts, ids, i);
      if ids[i] !in s.facts || !s.facts[ids[i]].Full? {
        PathFactsFail(s.facts, ids, i + 1);
        return Err(Incompatible);
      }
      var fact := s.facts[ids[i]].record;
      FoldStep(target, facts, fact);
      exec := FoldFact(exec, fact);
      facts := facts + [fact];
    }
    assert ids[..|ids|] == ids;
    hide ExecutionSays;
    FoldSays(target, facts);
    CutoffKeeps(target, facts, exec, if cutoff.Some? then cutoff.value else CutoffFrom(s, target));
    exec := exec.(cutoff := CutoffFrom(s, target));
    if cutoff.Some? { exec := exec.(cutoff := cutoff.value); }
    return Ok(exec);
  }

  // ---- What the fold computes ----------------------------------------------

  predicate Folded(target: Bytes, fact: Record) { Concerns(fact.row.body, target) && IsLifecycle(fact.row.schemaRef) }

  lemma {:induction false} FoldKeepsTarget(target: Bytes, facts: seq<Record>)
    ensures Fold(target, facts).id == target
  {
    if facts != [] { FoldKeepsTarget(target, facts[..|facts| - 1]); }
  }

  /** The status is that of the last lifecycle fact: a started fact after a terminal one reopens the execution. */
  lemma {:induction false} StatusIsLast(target: Bytes, facts: seq<Record>, i: nat)
    requires i < |facts| && Folded(target, facts[i])
    requires forall j :: i < j < |facts| ==> !Folded(target, facts[j])
    ensures Fold(target, facts).status == StatusAfter(facts[i].row.schemaRef)
  {
    FoldKeepsTarget(target, facts[..|facts| - 1]);
    if i < |facts| - 1 { StatusIsLast(target, facts[..|facts| - 1], i); }
  }

  /** The terminal fact is the last terminal one. */
  lemma {:induction false} TerminalIsLast(target: Bytes, facts: seq<Record>, i: nat)
    requires i < |facts| && Concerns(facts[i].row.body, target) && IsTerminalSchema(facts[i].row.schemaRef)
    requires forall j :: i < j < |facts| ==>
                           !(Concerns(facts[j].row.body, target) && IsTerminalSchema(facts[j].row.schemaRef))
    ensures Fold(target, facts).terminal == facts[i].id
  {
    FoldKeepsTarget(target, facts[..|facts| - 1]);
    if i < |facts| - 1 { TerminalIsLast(target, facts[..|facts| - 1], i); }
  }

  // ---- Every field of the fold ---------------------------------------------

  /** A text of the payload, empty unless the payload holds a string under the key */
  ghost predicate TextAt(body: Body, key: Bytes, text: Bytes) {
    if body.Some? && key in body.value && body.value[key].Str? then text == body.value[key].s else text == ""
  }

  /** An object of the payload, empty unless the payload holds one under the key */
  ghost predicate ObjectAt(body: Body, key: Bytes, fields: map<Bytes, Json>) {
    if body.Some? && key in body.value && body.value[key].Obj? then fields == body.value[key].fields else fields == map[]
  }

  /** The payload holds an execution id that is not the given one. */
  ghost predicate NamesOther(body: Body, target: Bytes) {
    body.Some? && "execution_id" in body.value && body.value["execution_id"] != Null
    && body.value["execution_id"] != Str(target)
  }

  /** A fact of one of the schemas that does not name another execution */
  ghost predicate Bears(target: Bytes, fact: Record, schemas: set<Bytes>) {
    fact.row.schemaRef in schemas && !NamesOther(fact.row.body, target)
  }

  ghost predicate IsLastOf(target: Bytes, facts: seq<Record>, schemas: set<Bytes>, i: nat) {
    i < |facts| && Bears(target, facts[i], schemas) && forall j :: i < j < |facts| ==> !Bears(target, facts[j], schemas)
  }

  ghost predicate HasNone(target: Bytes, facts: seq<Record>, schemas: set<Bytes>) {
    forall i :: 0 <= i < |facts| ==> !Bears(target, facts[i], schemas)
  }

  /** Task, parent and inputs are those of the last created fact. */
  ghost predicate CreatedSays(target: Bytes, facts: seq<Record>, e: Execution) {
    && (forall i: nat :: IsLastOf(target, facts, {CREATED}, i) ==>
          && TextAt(facts[i].row.body, "task_ref", e.taskRef)
          && TextAt(facts[i].row.body, "parent_execution_id", e.parent)
          && ObjectAt(facts[i].row.body, "inputs", e.inputs))
    && (HasNone(target, facts, {CREATED}) ==> e.taskRef == "" && e.parent == "" && e.inputs == map[])
  }

  /** The started fact is the last one. */
  ghost predicate StartedSays(target: Bytes, facts: seq<Record>, e: Execution) {
    && (forall i: nat :: IsLastOf(target, facts, {STARTED}, i) ==> e.started == facts[i].id)
    && (HasNone(target, facts, {STARTED}) ==> e.started == "")
  }

  /** Outputs, error and terminal fact are those of the last terminal fact: a failure has no outputs, a success no error. */
  ghost predicate OutcomeSays(target: Bytes, facts: seq<Record>, e: Execution) {
    && (forall i: nat :: IsLastOf(target, facts, {COMPLETED, FAILED}, i) ==>
          && e.terminal == facts[i].id
          && (facts[i].row.schemaRef == COMPLETED ==> ObjectAt(facts[i].row.body, "outputs", e.outputs) && e.error == "")
          && (facts[i].row.schemaRef == FAILED ==> e.outputs == map[] && TextAt(facts[i].row.body, "error", e.error)))
    && (HasNone(target, facts, {COMPLETED, FAILED}) ==> e.terminal == "" && e.outputs == map[] && e.error == "")
  }

  /** The status is that of the last lifecycle fact. */
  ghost predicate StatusSays(target: Bytes, facts: seq<Record>, e: Execution) {
    && (forall i: nat :: IsLastOf(target, facts, {CREATED, STARTED, COMPLETED, FAILED}, i) ==>
          && (facts[i].row.schemaRef == CREATED ==> e.status == Pending)
          && (facts[i].row.schemaRef == STARTED ==> e.status == Running)
          && (facts[i].row.schemaRef == COMPLETED ==> e.status == Succeeded)
          && (facts[i].row.schemaRef == FAILED ==> e.status == Failed))
    && (HasNone(target, facts, {CREATED, STARTED, COMPLETED, FAILED}) ==> e.status == Pending)
  }

  /** What an execution says about the facts it was projected from */
  ghost predicate ExecutionSays(target: Bytes, facts: seq<Record>, e: Execution) {
    && e.id == target
    && CreatedSays(target, facts, e) && StartedSays(target, facts, e) && OutcomeSays(target, facts, e)
    && StatusSays(target, facts, e)
  }

  lemma PayloadSays(body: Body, key: Bytes, target: Bytes)
    ensures TextAt(body, key, PayloadString(body, key)) && ObjectAt(body, key, PayloadMap(body, key))
    ensures Concerns(body, target) <==> !NamesOther(body, target)
  {
  }

  lemma SchemasDiffer()
    ensures CREATED != STARTED && CREATED != COMPLETED && CREATED != FAILED
    ensures STARTED != COMPLETED && STARTED != FAILED && COMPLETED != FAILED
  {
    assert CREATED[21] != STARTED[21] && CREATED[22] != COMPLETED[22] && CREATED[20] != FAILED[20];
    assert STARTED[20] != COMPLETED[20] && STARTED[20] != FAILED[20] && COMPLETED[20] != FAILED[20];
  }

  /** What one fact does to an execution, by its schema */
  lemma FoldFactSays(e: Execution, fact: Record)
    ensures var e', body := FoldFact(e, fact), fact.row.body;
            && e'.id == e.id
            && (if Bears(e.id, fact, {CREATED})
                then TextAt(body, "task_ref", e'.taskRef) && TextAt(body, "parent_execution_id", e'.parent)
                     && ObjectAt(body, "inputs", e'.inputs) && e'.status == Pending
                else e'.taskRef == e.taskRef && e'.parent == e.parent && e'.inputs == e.inputs)
            && (if Bears(e.id, fact, {STARTED}) then e'.started == fact.id && e'.status == Running
                else e'.started == e.started)
            && (if Bears(e.id, fact, {COMPLETED, FAILED})
                then && e'.terminal == fact.id
                     && (fact.row.schemaRef == COMPLETED ==>
                           ObjectAt(body, "outputs", e'.outputs) && e'.error == "" && e'.status == Succeeded)
                     && (fact.row.schemaRef == FAILED ==>
                           e'.outputs == map[] && TextAt(body, "error", e'.error) && e'.status == Failed)
                else e'.terminal == e.terminal && e'.outputs == e.outputs && e'.error == e.error)
            && (!Bears(e.id, fact, {CREATED, STARTED, COMPLETED, FAILED}) ==> e'.status == e.status)
  {
    SchemasDiffer();
    PayloadSays(fact.row.body, "task_ref", e.id);
    PayloadSays(fact.row.body, "parent_execution_id", e.id);
    PayloadSays(fact.row.body, "inputs", e.id);
    PayloadSays(fact.row.body, "outputs", e.id);
    PayloadSays(fact.row.body, "error", e.id);
    hide Concerns, NamesOther, TextAt, ObjectAt, PayloadString, PayloadMap, CREATED, STARTED, COMPLETED, FAILED;
  }

  /** The last bearing fact is the one just added, or the last of the others. */
  lemma LastOfSnoc(target: Bytes, facts: seq<Record>, fact: Record, schemas: set<Bytes>)
    ensures var all := facts + [fact];
            if Bears(target, fact, schemas)
            then !HasNone(target, all, schemas) && forall i: nat :: IsLastOf(target, all, schemas, i) ==> i == |facts|
            else (HasNone(target, all, schemas) ==> HasNone(target, facts, schemas))
                 && forall i: nat :: IsLastOf(target, all, schemas, i) ==>
                      i < |facts| && IsLastOf(target, facts, schemas, i) && all[i] == facts[i]
  {
    hide Bears;
    var all := facts + [fact];
    assert all[|facts|] == fact;
    forall i: nat | IsLastOf(target, all, schemas, i)
      ensures if Bears(target, fact, schemas) then i == |facts|
              else i < |facts| && IsLastOf(target, facts, schemas, i) && all[i] == facts[i]
    {
      if !Bears(target, fact, schemas) {
        forall j | i < j < |facts| ensures !Bears(target, facts[j], schemas) { assert all[j] == facts[j]; }
      }
    }
    if !Bears(target, fact, schemas) && HasNone(target, all, schemas) {
      forall i | 0 <= i < |facts| ensures !Bears(target, facts[i], schemas) { assert all[i] == facts[i]; }
    }
  }

  lemma BearsMore(target: Bytes, fact: Record)
    ensures Bears(target, fact, {CREATED, STARTED, COMPLETED, FAILED}) <==>
              Bears(target, fact, {CREATED}) || Bears(target, fact, {STARTED}) || Bears(target, fact, {COMPLETED, FAILED})
    ensures Bears(target, fact, {CREATED}) ==> fact.row.schemaRef == CREATED
    ensures Bears(target, fact, {STARTED}) ==> fact.row.schemaRef == STARTED
    ensures Bears(target, fact, {COMPLETED, FAILED}) ==> fact.row.schemaRef == COMPLETED || fact.row.schemaRef == FAILED
  {
    hide NamesOther, CREATED, STARTED, COMPLETED, FAILED;
  }

  lemma CreatedStep(target: Bytes, facts: seq<Record>, fact: Record, e: Execution)
    requires e.id == target && CreatedSays(target, facts, e)
    ensures CreatedSays(target, facts + [fact], FoldFact(e, fact))
  {
    FoldFactSays(e, fact);
    LastOfSnoc(target, facts, fact, {CREATED});
    hide FoldFact, Bears, TextAt, ObjectAt, IsLastOf, HasNone, CREATED, STARTED, COMPLETED, FAILED;
  }

  lemma StartedStep(target: Bytes, facts: seq<Record>, fact: Record, e: Execution)
    requires e.id == target && StartedSays(target, facts, e)
    ensures StartedSays(target, facts + [fact], FoldFact(e, fact))
  {
    FoldFactSays(e, fact);
    LastOfSnoc(target, facts, fact, {STARTED});
    hide FoldFact, Bears, TextAt, ObjectAt, IsLastOf, HasNone, CREATED, STARTED, COMPLETED, FAILED;
  }

  lemma OutcomeStep(target: Bytes, facts: seq<Record>, fact: Record, e: Execution)
    requires e.id == target && OutcomeSays(target, facts, e)
    ensures OutcomeSays(target, facts + [fact], FoldFact(e, fact))
  {
    FoldFactSays(e, fact);
    LastOfSnoc(target, facts, fact, {COMPLETED, FAILED});
    hide FoldFact, Bears, TextAt, ObjectAt, IsLastOf, HasNone, CREATED, STARTED, COMPLETED, FAILED;
  }

  lemma StatusStep(target: Bytes, facts: seq<Record>, fact: Record, e: Execution)
    requires e.id == target && StatusSays(target, facts, e)
    ensures StatusSays(target, facts + [fact], FoldFact(e, fact))
  {
    FoldFactSays(e, fact);
    LastOfSnoc(target, facts, fact, {CREATED, STARTED, COMPLETED, FAILED});
    BearsMore(target, fact);
    SchemasDiffer();
    hide FoldFact, Bears, TextAt, ObjectAt, IsLastOf, HasNone, CREATED, STARTED, COMPLETED, FAILED;
  }

  lemma StartSays(target: Bytes)
    ensures ExecutionSays(target, [], NewExecution(target))
  {
    hide CREATED, STARTED, COMPLETED, FAILED;
  }

  /** Every field of a projected execution, from the facts and their payloads */
  lemma {:induction false} FoldSays(target: Bytes, facts: seq<Record>)
    ensures ExecutionSays(target, facts, Fold(target, facts))
  {
    hide *;
    FoldKeepsTarget(target, facts);
    if facts == [] {
      StartSays(target);
      FoldNothing(target);
    } else {
      var init, last := facts[..|facts| - 1], facts[|facts| - 1];
      var e := Fold(target, init);
      assert init + [last] == facts;
      FoldSays(target, init);
      FoldStep(target, init, last);
      ExecutionParts(target, init, e);
      ExecutionParts(target, facts, FoldFact(e, last));
      CreatedStep(target, init, last, e);
      StartedStep(target, init, last, e);
      OutcomeStep(target, init, last, e);
      StatusStep(target, init, last, e);
    }
  }

  lemma FoldNothing(target: Bytes)
    ensures Fold(target, []) == NewExecution(target)
  {
  }

  lemma ExecutionParts(target: Bytes, facts: seq<Record>, e: Execution)
    ensures ExecutionSays(target, facts, e) <==>
              e.id == target && CreatedSays(target, facts, e) && StartedSays(target, facts, e)
              && OutcomeSays(target, facts, e) && StatusSays(target, facts, e)
  {
    hide CreatedSays, StartedSays, OutcomeSays, StatusSays;
  }

  lemma CutoffKeeps(target: Bytes, facts: seq<Record>, e: Execution, cutoff: Frontier)
    requires ExecutionSays(target, facts, e)
    ensures ExecutionSays(target, facts, e.(cutoff := cutoff))
  {
    hide IsLastOf, HasNone, TextAt, ObjectAt, CREATED, STARTED, COMPLETED, FAILED;
  }

  /** A fact that concerns another execution never becomes the terminal fact. */
  lemma {:induction false} SkippedIsNotTerminal(target: Bytes, facts: seq<Record>, id: Bytes)
    requires id != "" && forall i :: 0 <= i < |facts| && facts[i].id == id ==> !Concerns(facts[i].row.body, target)
    ensures Fold(target, facts).terminal != id
  {
    if facts != [] {
      FoldKeepsTarget(target, facts[..|facts| - 1]);
      SkippedIsNotTerminal(target, facts[..|facts| - 1], id);
    }
  }

  // ---- From the store ------------------------------------------------------

  ghost function ProjectionFromStore(db: DB, rc: ReadContext, cutoff: Frontier): Result<Execution> {
    var s :- ResolveResult(db, rc, cutoff.frontierID, BOTH);
    Projection(s, cutoff.target, Some(cutoff))
  }

  /** ProjectExecutionFromStore */
  method ProjectExecutionFromStore(db: DB, rc: ReadContext, cutoff: Frontier) returns (r: Result<Execution>)
    ensures r == ProjectionFromStore(db, rc, cutoff)
  {
    var s := ResolveFrontier(db, rc, cutoff.frontierID, BOTH);
    hide ResolveResult, Projection;
    if s.Err? { return Err(s.error); }
    r := ProjectExecution(s.value, cutoff.target, Some(cutoff));
  }

  /** Projections read only what a cut keeps. */
  lemma SameCutSameProjection(s: Slice, t: Slice, target: Bytes, cutoff: Option<Frontier>)
    requires SameCut(s, t)
    ensures Projection(t, target, cutoff) == Projection(s, target, cutoff)
  {
  }

  /** A projection that succeeded once is the same in every later state. */
  lemma ProjectionIsStable(k: Kernel, db: DB, db': DB, rc: ReadContext, cutoff: Frontier)
    requires StoreInv(k, db) && Grows(db, db') && ProjectionFromStore(db, rc, cutoff).Ok?
    ensures ProjectionFromStore(db', rc, cutoff) == ProjectionFromStore(db, rc, cutoff)
  {
    var s := ResolveResult(db, rc, cutoff.frontierID, BOTH).value;
    CutIsImmutable(k, db, db', rc, cutoff.frontierID, BOTH);
    var t := ResolveResult(db', rc, cutoff.frontierID, BOTH).value;
    hide ResolveResult, Projection, SameCut, StoreInv, Grows;
    SameCutSameProjection(s, t, cutoff.target, Some(cutoff));
  }

  // ---- Terminal frontiers --------------------------------------------------

  /** PublishExecutionFrontier: only a completed or failed fact may be the through fact. */
  function PublishExecution(k: Kernel, db: DB, op: OperationContext, spec: FrontierSpec): (DB, Result<Frontier>) {
    match ReadFact(db, spec.throughFact)
    case Err(e) => (db, Err(e))
    case Ok(through) =>
      if IsTerminalSchema(through.row.schemaRef) then PublishTo(k, db, op, spec) else (db, Err(Incompatible))
  }

  lemma {:induction false} OnePath(loaded: seq<Record>, owner: Bytes)
    requires forall r :: r in loaded ==> r.view.owner == owner
    ensures OwnerPath(loaded, owner) == IDs(loaded)
  {
    if loaded != [] {
      assert loaded[|loaded| - 1] in loaded;
      OnePath(loaded[..|loaded| - 1], owner);
      assert IDs(loaded) == IDs(loaded[..|loaded| - 1]) + [loaded[|loaded| - 1].id];
    }
  }

  /** Facts with equal ids have equal rows. */
  ghost predicate RowsAgree(loaded: seq<Record>) {
    forall r, q :: r in loaded && q in loaded && r.id == q.id ==> r.row == q.row
  }

  lemma {:induction false} FactsAreLoaded(loaded: seq<Record>, visibility: Bytes)
    ensures forall r :: r in loaded ==> r.id in FactsByID(loaded, visibility)
    ensures forall id :: id in FactsByID(loaded, visibility) ==>
                           exists r :: r in loaded && r.id == id && FactsByID(loaded, visibility)[id] == VisibleFact(r, visibility)
  {
    if loaded != [] {
      var init, last := loaded[..|loaded| - 1], loaded[|loaded| - 1];
      FactsAreLoaded(init, visibility);
      assert last in loaded;
      assert forall r :: r in loaded <==> r in init || r == last;
    }
  }

  /** Facts with the given ids and rows, whatever their views */
  ghost predicate SameRows(facts: seq<Record>, loaded: seq<Record>) {
    |facts| == |loaded| && forall i :: 0 <= i < |loaded| ==> facts[i].id == loaded[i].id && facts[i].row == loaded[i].row
  }

  lemma LoadedFact(all: seq<Record>, visibility: Bytes, r: Record)
    requires visibility != SHAPE_ONLY && RowsAgree(all) && r in all
    ensures var m := FactsByID(all, visibility);
            r.id in m && m[r.id].Full? && m[r.id].record.id == r.id && m[r.id].record.row == r.row
  {
    FactsAreLoaded(all, visibility);
  }

  lemma {:induction false} PathFactsAreLoaded(all: seq<Record>, loaded: seq<Record>, visibility: Bytes)
    requires visibility != SHAPE_ONLY && RowsAgree(all) && forall r :: r in loaded ==> r in all
    ensures PathFacts(FactsByID(all, visibility), IDs(loaded)).Ok?
    ensures SameRows(PathFacts(FactsByID(all, visibility), IDs(loaded)).value, loaded)
  {
    if loaded != [] {
      var init, last := loaded[..|loaded| - 1], loaded[|loaded| - 1];
      assert last in loaded;
      PathFactsAreLoaded(all, init, visibility);
      assert IDs(loaded)[..|loaded| - 1] == IDs(init) && IDs(loaded)[|loaded| - 1] == last.id;
      LoadedFact(all, visibility, last);
    }
  }

  lemma RowsAtAgree(db: DB, places: seq<Place>)
    requires Retained(db, places)
    ensures RowsAgree(RecordsAt(db, places))
    ensures forall r :: r in RecordsAt(db, places) ==> r.id in db.records && r.row == db.records[r.id]
  {
    forall r | r in RecordsAt(db, places) ensures r.id in db.records && r.row == db.records[r.id] {
      var i :| 0 <= i < |places| && RecordsAt(db, places)[i] == r;
      assert places[i] in places;
    }
  }

  lemma CutOwners(db: DB, places: seq<Place>, owner: Bytes)
    requires Retained(db, places) && forall p :: p in places ==> p.0 == owner
    ensures forall r :: r in RecordsAt(db, places) ==> r.view.owner == owner
  {
    forall r | r in RecordsAt(db, places) ensures r.view.owner == owner {
      var i :| 0 <= i < |places| && RecordsAt(db, places)[i] == r;
      assert places[i] in places;
    }
  }

  /** The facts are the first n entries of a path, in order, with the rows retained for them. */
  ghost predicate AreEntries(db: DB, owner: Bytes, n: int, facts: seq<Record>) {
    && |facts| == n
    && forall i: nat :: i < |facts| ==>
         && (owner, i) in db.paths && facts[i].id == db.paths[(owner, i)].recordID
         && facts[i].id in db.records && facts[i].row == db.records[facts[i].id]
  }

  lemma EntriesFrom(db: DB, owner: Bytes, n: int, facts: seq<Record>, loaded: seq<Record>)
    requires SameRows(facts, loaded) && |loaded| == n
    requires forall r :: r in loaded ==> r.id in db.records && r.row == db.records[r.id]
    requires forall i: nat :: i < n ==> (owner, i) in db.paths && IDs(loaded)[i] == db.paths[(owner, i)].recordID
    ensures AreEntries(db, owner, n, facts)
  {
    forall i | 0 <= i < |loaded| ensures loaded[i] in loaded && IDs(loaded)[i] == loaded[i].id {}
  }

  lemma SliceOfRows(db: DB, rows: seq<Place>, f: Frontier, visibility: Bytes, s: Slice) returns (support: seq<Record>)
    requires Retained(db, rows)
    requires SliceResult(db, EntriesAt(db, rows), Some(f), visibility, BOTH, true) == Ok(s)
    ensures s == SliceOf(db, RecordsAt(db, rows), support, Some(f), visibility, BOTH, true)
  {
    RowsLoad(db, rows);
    FilterBoth(RecordsAt(db, rows));
    support := SupportRecords(db, RecordsAt(db, rows));
    hide LoadAll, RecordsAt, FilterMode, SliceOf;
  }

  lemma ResolvedLoads(db: DB, rc: ReadContext, id: Bytes, s: Slice)
      returns (f: Frontier, loaded: seq<Record>, support: seq<Record>)
    requires RecordsOnPaths(db.paths, db.records) && ResolveResult(db, rc, id, BOTH) == Ok(s)
    ensures id in db.frontiers && f == db.frontiers[id].frontier
    ensures Retained(db, Rows(CutPlaces(db.paths, f))) && loaded == RecordsAt(db, Rows(CutPlaces(db.paths, f)))
    ensures s == SliceOf(db, loaded, support, Some(f), rc.visibility, BOTH, true)
  {
    hide *;
    ResolvedFrom(db, rc, id, BOTH, s);
    CutIsRow(db, rc, id, BOTH);
    f := db.frontiers[id].frontier;
    CutRowsRetained(db, f);
    loaded := RecordsAt(db, Rows(CutPlaces(db.paths, f)));
    support := SliceOfRows(db, Rows(CutPlaces(db.paths, f)), f, rc.visibility, s);
  }

  lemma CutPlaceOwners(db: DB, f: Frontier)
    ensures forall p :: p in Rows(CutPlaces(db.paths, f)) ==> p.0 == f.target
  {
  }

  /** What a projection finds on the target's path of a resolved frontier: the entries up to the cutoff */
  lemma CutFactsAre(db: DB, rc: ReadContext, id: Bytes, s: Slice) returns (facts: seq<Record>)
    requires DensePaths(db) && RecordsOnPaths(db.paths, db.records) && ResolveResult(db, rc, id, BOTH) == Ok(s)
    requires rc.visibility != SHAPE_ONLY
    ensures id in db.frontiers && s.visibility == rc.visibility && s.mode == BOTH
    ensures var f := db.frontiers[id].frontier;
            && PathFacts(s.facts, PathIn(s, f.target)) == Ok(facts)
            && AreEntries(db, f.target, f.throughOrdinal + 1, facts)
  {
    hide *;
    var f, loaded, support := ResolvedLoads(db, rc, id, s);
    CutHolds(db, rc, id, BOTH, s);
    CutHoldsAll(db, s, id);
    var rows := Rows(CutPlaces(db.paths, f));
    CutPlaceOwners(db, f);
    CutOwners(db, rows, f.target);
    RowsAtAgree(db, rows);
    TargetIs(db, loaded, support, f, rc.visibility);
    PathFactsAreLoaded(loaded, loaded, rc.visibility);
    facts := PathFacts(s.facts, PathIn(s, f.target)).value;
    EntriesFrom(db, f.target, f.throughOrdinal + 1, facts, loaded);
  }

  /** When everything loaded is on the target's path, that path is what was loaded. */
  lemma TargetIs(db: DB, loaded: seq<Record>, support: seq<Record>, f: Frontier, visibility: Bytes)
    requires forall r :: r in loaded ==> r.view.owner == f.target
    requires f.target in SliceOf(db, loaded, support, Some(f), visibility, BOTH, true).ownerPaths
    ensures var s := SliceOf(db, loaded, support, Some(f), visibility, BOTH, true);
            && PathIn(s, f.target) == IDs(loaded) == s.ownerPaths[f.target] && s.facts == FactsByID(loaded, visibility)
            && |IDs(loaded)| == |loaded| && s.visibility == visibility && s.mode == BOTH
  {
    OnePath(loaded, f.target);
  }

  /**
    * The projection of a published frontier succeeds and folds exactly the entries of the target's path up to the
    * cutoff: the i-th fact is the record of the i-th entry, and every field of the execution follows from the facts.
    */
  lemma PublishedProjects(k: Kernel, db: DB, rc: ReadContext, f: Frontier) returns (facts: seq<Record>)
    requires Sound(k, db) && f.frontierID in db.frontiers && db.frontiers[f.frontierID].frontier == f
    requires ReadAuthorized(rc) && rc.visibility != SHAPE_ONLY
    ensures ProjectionFromStore(db, rc, f) == Ok(Fold(f.target, facts).(cutoff := f))
    ensures facts != [] && facts[|facts| - 1].id == f.throughFact
    ensures AreEntries(db, f.target, f.throughOrdinal + 1, facts)
    ensures ExecutionSays(f.target, facts, ProjectionFromStore(db, rc, f).value)
    ensures forall i :: 0 <= i < |facts| ==> facts[i].id in db.records && facts[i].row == db.records[facts[i].id]
  {
    hide *;
    PublishedResolves(k, db, rc, f.frontierID, BOTH) by { ModeBoth(); }
    SoundParts(k, db);
    InvariantParts(k, db);
    CorePaths(db);
    var s := ResolveResult(db, rc, f.frontierID, BOTH).value;
    facts := CutFactsAre(db, rc, f.frontierID, s);
    ProjectsFacts(db, rc, f, s, facts);
    CutThrough(db, rc, f);
    EntriesSay(db, f, facts);
    FoldSays(f.target, facts);
    CutoffKeeps(f.target, facts, Fold(f.target, facts), f);
  }

  lemma CutThrough(db: DB, rc: ReadContext, f: Frontier)
    requires CutOf(db, rc, f.frontierID, BOTH) == Ok(f)
    ensures f.throughOrdinal >= 0 && (f.target, f.throughOrdinal as nat) in db.paths
    ensures db.paths[(f.target, f.throughOrdinal as nat)].recordID == f.throughFact
  {
    EntryLater(db, db, f.throughFact, f.target, f.throughOrdinal) by { GrowsReflexive(db); }
  }

  lemma EntriesSay(db: DB, f: Frontier, facts: seq<Record>)
    requires AreEntries(db, f.target, f.throughOrdinal + 1, facts) && f.throughOrdinal >= 0
    requires (f.target, f.throughOrdinal as nat) in db.paths
    requires db.paths[(f.target, f.throughOrdinal as nat)].recordID == f.throughFact
    ensures facts != [] && facts[|facts| - 1].id == f.throughFact
    ensures forall i :: 0 <= i < |facts| ==> facts[i].id in db.records && facts[i].row == db.records[facts[i].id]
  {
  }

  lemma ModeBoth()
    ensures IsModeFilter(BOTH)
  {
  }

  lemma ProjectsFacts(db: DB, rc: ReadContext, f: Frontier, s: Slice, facts: seq<Record>)
    requires ResolveResult(db, rc, f.frontierID, BOTH) == Ok(s) && s.visibility != SHAPE_ONLY && s.mode == BOTH
    requires PathFacts(s.facts, PathIn(s, f.target)) == Ok(facts)
    ensures ProjectionFromStore(db, rc, f) == Ok(Fold(f.target, facts).(cutoff := f))
  {
  }

  ghost predicate IsTerminal(e: Execution, through: Bytes) {
    (e.status == Succeeded || e.status == Failed) && e.terminal == through
  }

  /** A fold whose last fact is terminal ends there, unless that fact concerns another execution. */
  lemma LastFactDecides(target: Bytes, facts: seq<Record>, through: Bytes, row: RecordRow)
    requires facts != [] && facts[|facts| - 1].id == through && through != "" && IsTerminalSchema(row.schemaRef)
    requires forall i :: 0 <= i < |facts| && facts[i].id == through ==> facts[i].row == row
    ensures Concerns(row.body, target) ==> IsTerminal(Fold(target, facts), through)
    ensures !Concerns(row.body, target) ==> Fold(target, facts).terminal != through
  {
    if Concerns(row.body, target) {
      StatusIsLast(target, facts, |facts| - 1);
      TerminalIsLast(target, facts, |facts| - 1);
    } else {
      SkippedIsNotTerminal(target, facts, through);
    }
  }

  lemma FrontierStays(db: DB, db': DB, id: Bytes)
    requires Grows(db, db') && id in db.frontiers
    ensures id in db'.frontiers && db'.frontiers[id] == db.frontiers[id]
  {
  }

  lemma PublishExecutionCases(k: Kernel, db: DB, op: OperationContext, spec: FrontierSpec, db': DB, f: Frontier)
    requires PublishExecution(k, db, op, spec) == (db', Ok(f))
    ensures PublishTx(k, db, op, spec) == Ok((db', f))
    ensures ReadFact(db, spec.throughFact).Ok? && IsTerminalSchema(ReadFact(db, spec.throughFact).value.row.schemaRef)
  {
  }

  lemma ThroughStays(db: DB, db': DB, id: Bytes)
    requires Grows(db, db') && ReadFact(db, id).Ok?
    ensures id in db'.records && db'.records[id] == ReadFact(db, id).value.row
  {
  }

  lemma FrontierNamed(k: Kernel, db: DB, id: Bytes)
    requires Sound(k, db) && ReadFact(db, id).Ok?
    ensures id != ""
  {
    var p :| p in PlacesOf(db, id);
    EntryNames(db.paths, p);
  }

  /**
   * A terminal frontier, end to end: once published, in every later state it projects, and the projected execution has
   * ended at the through fact exactly when that fact names the target execution or none.
   */
  lemma TerminalFrontier(k: Kernel, db: DB, op: OperationContext, spec: FrontierSpec, db': DB, f: Frontier, ops: seq<Op>,
                         rc: ReadContext)
    requires CollisionFree(k) && Sound(k, db) && PublishExecution(k, db, op, spec) == (db', Ok(f))
    requires ReadAuthorized(rc) && rc.visibility != SHAPE_ONLY
    ensures var r := ProjectionFromStore(Run(k, db', ops), rc, f);
            && r.Ok? && r.value.id == spec.target && r.value.cutoff == f
            && (r.value.terminal == spec.throughFact <==>
                Concerns(ReadFact(db, spec.throughFact).value.row.body, spec.target))
            && (r.value.terminal == spec.throughFact ==> r.value.status == Succeeded || r.value.status == Failed)
  {
    hide *;
    PublishExecutionCases(k, db, op, spec, db', f);
    PublishKeeps(k, db, op, spec, db', f);
    SoundParts(k, db');
    RunKeeps(k, db', ops);
    RunStaysSound(k, db', ops);
    var later := Run(k, db', ops);
    GrowsTransitive(db, db', later);
    FrontierStays(db', later, spec.frontierID);
    ThroughStays(db, later, spec.throughFact);
    FrontierNamed(k, db, spec.throughFact);
    var facts := PublishedProjects(k, later, rc, f);
    FoldKeepsTarget(f.target, facts);
    LastFactDecides(f.target, facts, spec.throughFact, later.records[spec.throughFact]);
    Terminates(Fold(f.target, facts), spec.throughFact);
  }

  lemma Terminates(e: Execution, through: Bytes)
    ensures IsTerminal(e, through) <==> (e.status == Succeeded || e.status == Failed) && e.terminal == through
  {
  }
}
