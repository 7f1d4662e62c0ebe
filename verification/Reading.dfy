/** The read path: loading facts and building slices from entries. */
module Reading {
  import opened Wrappers
  import opened Seqs
  import opened Utf8
  import opened Trace
  import opened Digests
  import opened Tables
  import opened Append
  import opened WitnessWalk
  import opened Slices

  // ---- Ordered maps --------------------------------------------------------

  /** The values a map holds for the given keys, in key order */
  function ValuesIn<T>(m: map<Bytes, T>, order: seq<Bytes>): seq<T> {
    if order == [] then [] else
      var last := order[|order| - 1];
      ValuesIn(m, order[..|order| - 1]) + if last in m then [m[last]] else []
  }

  /** orderedValues falls back to sorted keys when the recorded order does not cover the map. */
  method OrderedValues<T>(m: map<Bytes, T>, order: seq<Bytes>) returns (s: seq<T>)
    ensures s == ValuesIn(m, if |order| == |m| then order else SortedOwners(m.Keys))
  {
    s := CollectValues(m, if |order| == |m| then order else SortedOwners(m.Keys));
  }

  method CollectValues<T>(m: map<Bytes, T>, keys: seq<Bytes>) returns (s: seq<T>)
    ensures s == ValuesIn(m, keys)
  {
    hide *;
    s := [];
    NoValues(m, keys);
    for i := 0 to |keys|
      invariant s == ValuesIn(m, keys[..i])
    {
      ValuesSnoc(m, keys, i);
      if keys[i] in m { s := s + [m[keys[i]]]; }
    }
    assert keys[..|keys|] == keys;
  }

  lemma NoValues<T>(m: map<Bytes, T>, keys: seq<Bytes>)
    ensures ValuesIn(m, keys[..0]) == []
  {
  }

  lemma ValuesSnoc<T>(m: map<Bytes, T>, keys: seq<Bytes>, i: nat)
    requires i < |keys|
    ensures keys[i] in m ==> ValuesIn(m, keys[..i + 1]) == ValuesIn(m, keys[..i]) + [m[keys[i]]]
    ensures keys[i] !in m ==> ValuesIn(m, keys[..i + 1]) == ValuesIn(m, keys[..i])
  {
    assert keys[..i + 1][..i] == keys[..i];
  }

  /** order lists the keys of m, each once. */
  ghost predicate Ordered<T>(m: map<Bytes, T>, order: seq<Bytes>) {
    Distinct(order) && forall k :: k in order <==> k in m
  }

  lemma OrderedCovers<T>(m: map<Bytes, T>, order: seq<Bytes>)
    requires Ordered(m, order)
    ensures |order| == |m|
  {
    DistinctCount(order, m.Keys);
  }

  lemma {:induction false} ValuesAre<T>(m: map<Bytes, T>, order: seq<Bytes>)
    requires forall k :: k in order ==> k in m
    ensures |ValuesIn(m, order)| == |order|
    ensures forall i :: 0 <= i < |order| ==> ValuesIn(m, order)[i] == m[order[i]]
  {
    if order != [] {
      assert order[|order| - 1] in order;
      ValuesAre(m, order[..|order| - 1]);
    }
  }

  lemma OrderedAdd<T>(m: map<Bytes, T>, order: seq<Bytes>, k: Bytes, v: T)
    requires Ordered(m, order) && k !in m
    ensures Ordered(m[k := v], order + [k])
  {
  }

  // ---- Owner paths ---------------------------------------------------------

  lemma Snoc(loaded: seq<Record>, i: nat)
    requires i < |loaded|
    ensures loaded[..i + 1][..i] == loaded[..i] && loaded[..i + 1][i] == loaded[i] && loaded[..i + 1] != []
    ensures PathRefs(loaded[..i + 1]) == PathRefs(loaded[..i]) + [loaded[i].view.owner]
  {
  }

  ghost predicate PathsBuilt(loaded: seq<Record>, paths: map<Bytes, seq<Bytes>>, order: seq<Bytes>) {
    paths == OwnerPaths(loaded) && order == Deduplicate(PathRefs(loaded))
  }

  lemma PathsStep(loaded: seq<Record>, i: nat, paths: map<Bytes, seq<Bytes>>, order: seq<Bytes>)
    requires i < |loaded| && PathsBuilt(loaded[..i], paths, order)
    ensures var r, o := loaded[i], loaded[i].view.owner;
            PathsBuilt(loaded[..i + 1], paths[o := (if o in paths then paths[o] else []) + [r.id]],
                       if o in paths then order else order + [o])
  {
    var o, after, refs := loaded[i].view.owner, loaded[..i + 1], PathRefs(loaded[..i]);
    Snoc(loaded, i);
    DeduplicateContents(refs);
    assert PathRefs(after)[..i] == refs && PathRefs(after)[i] == o;
    if o !in refs { NewPath(loaded[..i], o); }
    var paths' := paths[o := (if o in paths then paths[o] else []) + [loaded[i].id]];
    forall x ensures x in PathRefs(after) <==> x in refs || x == o {}
    forall x | x in paths' ensures paths'[x] == OwnerPath(after, x) {}
    assert paths' == OwnerPaths(after);
  }

  // ---- Parents -------------------------------------------------------------

  ghost predicate EdgesBuilt(db: DB, edges: seq<(Bytes, Bytes)>, selected: set<Bytes>, anchors: bool,
                             causal: seq<(Bytes, Bytes)>, outside: map<Bytes, Anchor>, order: seq<Bytes>)
  {
    && causal == Inside(edges, selected)
    && order == (if anchors then Deduplicate(Outside(edges, selected)) else [])
    && Ordered(outside, order)
    && (forall k :: k in outside ==> outside[k] == AnchorFor(db, k))
  }

  lemma EdgeStep(db: DB, edges: seq<(Bytes, Bytes)>, e: (Bytes, Bytes), selected: set<Bytes>, anchors: bool,
                 causal: seq<(Bytes, Bytes)>, outside: map<Bytes, Anchor>, order: seq<Bytes>)
    requires EdgesBuilt(db, edges, selected, anchors, causal, outside, order)
    ensures e.0 in selected ==> EdgesBuilt(db, edges + [e], selected, anchors, causal + [e], outside, order)
    ensures e.0 !in selected && (!anchors || e.0 in outside) ==>
              EdgesBuilt(db, edges + [e], selected, anchors, causal, outside, order)
    ensures e.0 !in selected && anchors && e.0 !in outside ==>
              EdgesBuilt(db, edges + [e], selected, anchors, causal, outside[e.0 := AnchorFor(db, e.0)], order + [e.0])
  {
    var all, parents := edges + [e], Outside(edges, selected);
    assert all[..|all| - 1] == edges && all[|all| - 1] == e;
    DeduplicateContents(parents);
    if e.0 !in selected {
      assert Outside(all, selected) == parents + [e.0];
      assert (parents + [e.0])[..|parents|] == parents;
      if anchors && e.0 !in outside { OrderedAdd(outside, order, e.0, AnchorFor(db, e.0)); }
    } else {
      assert Outside(all, selected) == parents;
    }
  }

  lemma EdgesToSnoc(child: Bytes, parents: seq<Bytes>, j: nat)
    requires j < |parents|
    ensures EdgesTo(child, parents[..j + 1]) == EdgesTo(child, parents[..j]) + [(parents[j], child)]
  {
  }

  /** The inner loop of buildSlice: each parent is an edge inside the slice or an anchor. */
  method AddParents(db: DB, r: Record, selected: set<Bytes>, anchors: bool, causal: seq<(Bytes, Bytes)>,
                    outside: map<Bytes, Anchor>, order: seq<Bytes>, ghost edges: seq<(Bytes, Bytes)>)
      returns (causal': seq<(Bytes, Bytes)>, outside': map<Bytes, Anchor>, order': seq<Bytes>)
    requires EdgesBuilt(db, edges, selected, anchors, causal, outside, order)
    ensures EdgesBuilt(db, edges + EdgesTo(r.id, r.row.causedBy), selected, anchors, causal', outside', order')
  {
    hide *;
    causal', outside', order' := causal, outside, order;
    var parents := r.row.causedBy;
    ghost var done := edges;
    NoParents(edges, r.id, parents);
    for j := 0 to |parents|
      invariant done == edges + EdgesTo(r.id, parents[..j])
      invariant EdgesBuilt(db, done, selected, anchors, causal', outside', order')
    {
      var parent := parents[j];
      EdgeStep(db, done, (parent, r.id), selected, anchors, causal', outside', order');
      if parent in selected {
        causal' := causal' + [(parent, r.id)];
      } else if anchors {
        if parent !in outside' {
          order' := order' + [parent];
          outside' := outside'[parent := AnchorFor(db, parent)];
        }
      }
      EdgesToSnoc(r.id, parents, j);
      Associate(edges, EdgesTo(r.id, parents[..j]), [(parent, r.id)]);
      done := done + [(parent, r.id)];
    }
    assert parents[..|parents|] == parents;
  }

  lemma NoParents(edges: seq<(Bytes, Bytes)>, child: Bytes, parents: seq<Bytes>)
    ensures edges + EdgesTo(child, parents[..0]) == edges
  {
  }

  // ---- Contexts ------------------------------------------------------------

  /** What the contexts seen so far contribute: anchors in first-seen order, or the retained contexts themselves */
  ghost predicate ContextsBuilt(db: DB, refs: seq<Bytes>, visibility: Bytes, contexts: map<Bytes, RetainedContext>,
                                anchors: map<Bytes, Bytes>, order: seq<Bytes>)
  {
    && order == (if visibility == SHAPE_ONLY then Deduplicate(refs) else [])
    && Ordered(anchors, order) && (forall k :: k in anchors ==> anchors[k] == k)
    && contexts == (if visibility == SHAPE_ONLY then map[] else ContextsByID(db, refs))
  }

  lemma ContextStep(db: DB, refs: seq<Bytes>, ref: Bytes, visibility: Bytes, contexts: map<Bytes, RetainedContext>,
                    anchors: map<Bytes, Bytes>, order: seq<Bytes>)
    requires ContextsBuilt(db, refs, visibility, contexts, anchors, order)
    ensures visibility == SHAPE_ONLY && ref in anchors ==>
              ContextsBuilt(db, refs + [ref], visibility, contexts, anchors, order)
    ensures visibility == SHAPE_ONLY && ref !in anchors ==>
              ContextsBuilt(db, refs + [ref], visibility, contexts, anchors[ref := ref], order + [ref])
    ensures visibility != SHAPE_ONLY && (ref in contexts || ref !in db.contexts) ==>
              ContextsBuilt(db, refs + [ref], visibility, contexts, anchors, order)
    ensures visibility != SHAPE_ONLY && ref !in contexts && ref in db.contexts ==>
              ContextsBuilt(db, refs + [ref], visibility, contexts[ref := db.contexts[ref]], anchors, order)
  {
    var all := refs + [ref];
    assert all[..|all| - 1] == refs && all[|all| - 1] == ref;
    DeduplicateContents(refs);
    if visibility == SHAPE_ONLY {
      if ref !in anchors { OrderedAdd(anchors, order, ref, ref); }
    } else {
      forall c ensures c in all <==> c in refs || c == ref {}
    }
  }

  /** One fact's context, seen once */
  method AddContext(db: DB, r: Record, visibility: Bytes, contexts: map<Bytes, RetainedContext>,
                    anchors: map<Bytes, Bytes>, order: seq<Bytes>, ghost refs: seq<Bytes>)
      returns (contexts': map<Bytes, RetainedContext>, anchors': map<Bytes, Bytes>, order': seq<Bytes>)
    requires ContextsBuilt(db, refs, visibility, contexts, anchors, order)
    ensures ContextsBuilt(db, refs + if r.view.contextRef == "" then [] else [r.view.contextRef], visibility, contexts',
                          anchors', order')
  {
    hide *;
    contexts', anchors', order' := contexts, anchors, order;
    var ref := r.view.contextRef;
    if ref != "" {
      ContextStep(db, refs, ref, visibility, contexts, anchors, order);
      if visibility == SHAPE_ONLY {
        if ref !in anchors {
          order' := order + [ref];
          anchors' := anchors[ref := ref];
        }
      } else if ref !in contexts {
        if ref in db.contexts { contexts' := contexts[ref := db.contexts[ref]]; }
      }
    } else {
      assert refs + [] == refs;
    }
  }

  // ---- Witnesses -----------------------------------------------------------

  ghost predicate WitnessesBuilt(support: seq<Record>, visibility: Bytes, witnesses: map<Bytes, Visible>,
                                 anchors: map<Bytes, WitnessAnchor>, order: seq<Bytes>)
  {
    && order == (if visibility == SHAPE_ONLY then IDs(support) else [])
    && Ordered(anchors, order)
    && (visibility == SHAPE_ONLY ==> forall i :: 0 <= i < |support| ==> anchors[support[i].id] == WitnessAnchorFor(support[i]))
    && witnesses == (if visibility == SHAPE_ONLY then map[] else FactsByID(support, visibility))
  }

  lemma WitnessStep(support: seq<Record>, i: nat, visibility: Bytes, witnesses: map<Bytes, Visible>,
                    anchors: map<Bytes, WitnessAnchor>, order: seq<Bytes>)
    requires i < |support| && Distinct(IDs(support))
    requires WitnessesBuilt(support[..i], visibility, witnesses, anchors, order)
    ensures var w := support[i];
            && (visibility == SHAPE_ONLY ==>
                  && w.id !in anchors
                  && WitnessesBuilt(support[..i + 1], visibility, witnesses, anchors[w.id := WitnessAnchorFor(w)], order + [w.id]))
            && (visibility != SHAPE_ONLY ==>
                  WitnessesBuilt(support[..i + 1], visibility, witnesses[w.id := VisibleFact(w, visibility)], anchors, order))
  {
    var after, w := support[..i + 1], support[i];
    assert after[..i] == support[..i] && after[i] == w;
    var all := IDs(support);
    if visibility == SHAPE_ONLY {
      assert forall j :: 0 <= j < i ==> order[j] == all[j];
      assert all[i] == w.id;
      OrderedAdd(anchors, order, w.id, WitnessAnchorFor(w));
      assert IDs(after) == order + [w.id];
      forall j | 0 <= j < |after| ensures anchors[w.id := WitnessAnchorFor(w)][after[j].id] == WitnessAnchorFor(after[j]) {
        assert after[j] == support[j] && all[j] == support[j].id;
      }
    }
  }

  /** The last loop of buildSlice */
  method AddWitnesses(support: seq<Record>, visibility: Bytes)
      returns (witnesses: map<Bytes, Visible>, anchors: map<Bytes, WitnessAnchor>, order: seq<Bytes>)
    requires Distinct(IDs(support))
    ensures WitnessesBuilt(support, visibility, witnesses, anchors, order)
  {
    witnesses, anchors, order := map[], map[], [];
    assert WitnessesBuilt(support[..0], visibility, witnesses, anchors, order);
    hide *;
    for i := 0 to |support|
      invariant WitnessesBuilt(support[..i], visibility, witnesses, anchors, order)
    {
      WitnessStep(support, i, visibility, witnesses, anchors, order);
      var w := support[i];
      if visibility == SHAPE_ONLY {
        if w.id !in anchors {
          order := order + [w.id];
          anchors := anchors[w.id := WitnessAnchorFor(w)];
        }
      } else {
        witnesses := witnesses[w.id := VisibleFact(w, visibility)];
      }
    }
    assert support[..|support|] == support;
  }

  // ---- Slices --------------------------------------------------------------

  ghost function SupportRecords(db: DB, loaded: seq<Record>): (r: seq<Record>)
    requires AllSupported(db, loaded)
  {
    SupportReadable(db, loaded);
    RecordsOf(db, Deduplicate(Chains(db, loaded)))
  }

  lemma {:induction false} ChainReadable(db: DB, ref: Bytes, c: seq<Bytes>)
    requires IsChain(db, ref, c)
    ensures forall id :: id in c ==> ReadFact(db, id).Ok?
    decreases |c|
  {
    if RowOf(db, ref).schemaRef != ROOT_WITNESS_SCHEMA { ChainReadable(db, RowOf(db, ref).witnessRef, c[1..]); }
    assert forall id :: id in c ==> id == c[0] || id in c[1..];
  }

  lemma {:induction false} ChainsReadable(db: DB, loaded: seq<Record>)
    requires AllSupported(db, loaded)
    ensures forall id :: id in Chains(db, loaded) ==> ReadFact(db, id).Ok?
  {
    if loaded != [] {
      var last := loaded[|loaded| - 1];
      ChainsReadable(db, loaded[..|loaded| - 1]);
      assert Supported(db, last);
      if last.row.witnessRef != "" { ChainReadable(db, last.row.witnessRef, ChainOf(db, last.row.witnessRef)); }
    }
  }

  lemma SupportReadable(db: DB, loaded: seq<Record>)
    requires AllSupported(db, loaded)
    ensures forall id :: id in Deduplicate(Chains(db, loaded)) ==> ReadFact(db, id).Ok?
  {
    ChainsReadable(db, loaded);
    DeduplicateContents(Chains(db, loaded));
  }

  lemma SupportIsRecords(db: DB, loaded: seq<Record>, support: seq<Record>)
    requires IsSupport(db, loaded, support)
    ensures support == SupportRecords(db, loaded) && IDs(support) == Deduplicate(Chains(db, loaded))
    ensures Distinct(IDs(support))
  {
    SupportReadable(db, loaded);
    var ids := Deduplicate(Chains(db, loaded));
    DeduplicateContents(Chains(db, loaded));
    forall i | 0 <= i < |ids| ensures support[i] == RecordsOf(db, ids)[i] && support[i].id == ids[i] {
      assert ids[i] in ids;
    }
  }

  /** What buildSlice returns */
  ghost function SliceResult(db: DB, entries: seq<Entry>, frontier: Option<Frontier>, visibility: Bytes, mode: Bytes,
                             anchors: bool): Result<Slice>
  {
    var facts :- LoadAll(db, entries);
    var loaded := FilterMode(facts, mode);
    if AllSupported(db, loaded)
    then Ok(SliceOf(db, loaded, SupportRecords(db, loaded), frontier, visibility, mode, anchors))
    else Err(StoreLaw)
  }

  lemma LoadStep(db: DB, entries: seq<Entry>, i: nat)
    requires i < |entries| && LoadAll(db, entries[..i]).Ok?
    ensures var e := entries[i]; var fact := ReadFactAtPath(db, e.id, e.owner, e.ordinal);
            if fact.Err? then LoadAll(db, entries[..i + 1]) == Err(fact.error)
            else LoadAll(db, entries[..i + 1]) == Ok(LoadAll(db, entries[..i]).value + [fact.value])
  {
    assert entries[..i + 1][..i] == entries[..i];
  }

  lemma {:induction false} LoadFails(db: DB, entries: seq<Entry>, i: nat, e: Error)
    requires i <= |entries| && LoadAll(db, entries[..i]) == Err(e)
    ensures LoadAll(db, entries) == Err(e)
    decreases |entries| - i
  {
    if i == |entries| {
      assert entries[..i] == entries;
    } else {
      assert entries[..i + 1][..i] == entries[..i];
      LoadFails(db, entries, i + 1, e);
    }
  }

  lemma FilterStep(facts: seq<Record>, fact: Record, mode: Bytes)
    ensures FilterMode(facts + [fact], mode) == FilterMode(facts, mode) + if ModeMatches(fact, mode) then [fact] else []
  {
    assert (facts + [fact])[..|facts|] == facts;
  }

  /** The first loop of buildSlice: the facts at the entries, filtered by mode */
  method LoadFiltered(db: DB, entries: seq<Entry>, mode: Bytes) returns (r: Result<seq<Record>>)
    ensures LoadAll(db, entries).Err? ==> r == Err(LoadAll(db, entries).error)
    ensures LoadAll(db, entries).Ok? ==> r == Ok(FilterMode(LoadAll(db, entries).value, mode))
  {
    var loaded: seq<Record> := [];
    ghost var facts: seq<Record> := [];
    assert LoadAll(db, entries[..0]) == Ok([]);
    assert FilterMode([], mode) == [];
    hide *;
    for i := 0 to |entries|
      invariant LoadAll(db, entries[..i]) == Ok(facts) && loaded == FilterMode(facts, mode)
    {
      LoadStep(db, entries, i);
      var fact := ReadFactAtPath(db, entries[i].id, entries[i].owner, entries[i].ordinal);
      if fact.Err? {
        LoadFails(db, entries, i + 1, fact.error);
        return Err(fact.error);
      }
      FilterStep(facts, fact.value, mode);
      if ModeMatches(fact.value, mode) { loaded := loaded + [fact.value]; }
      facts := facts + [fact.value];
    }
    assert entries[..|entries|] == entries;
    return Ok(loaded);
  }

  lemma PartSteps(loaded: seq<Record>, i: nat, visibility: Bytes)
    requires i < |loaded|
    ensures var r := loaded[i];
            && FactsByID(loaded[..i + 1], visibility) == FactsByID(loaded[..i], visibility)[r.id := VisibleFact(r, visibility)]
            && ParentEdges(loaded[..i + 1]) == ParentEdges(loaded[..i]) + EdgesTo(r.id, r.row.causedBy)
            && ContextRefs(loaded[..i + 1]) ==
               ContextRefs(loaded[..i]) + if r.view.contextRef == "" then [] else [r.view.contextRef]
  {
    assert loaded[..i + 1][..i] == loaded[..i];
  }

  lemma NothingBuilt(db: DB, loaded: seq<Record>, selected: set<Bytes>, visibility: Bytes, anchors: bool)
    ensures FactsByID(loaded[..0], visibility) == map[] && PathsBuilt(loaded[..0], map[], [])
    ensures EdgesBuilt(db, ParentEdges(loaded[..0]), selected, anchors, [], map[], [])
    ensures ContextsBuilt(db, ContextRefs(loaded[..0]), visibility, map[], map[], [])
  {
    assert PathRefs(loaded[..0]) == [];
  }

  lemma AnchorsAssembled(db: DB, edges: seq<(Bytes, Bytes)>, selected: set<Bytes>, anchors: bool,
                         causal: seq<(Bytes, Bytes)>, outside: map<Bytes, Anchor>, order: seq<Bytes>)
    requires EdgesBuilt(db, edges, selected, anchors, causal, outside, order)
    ensures |order| == |outside|
    ensures ValuesIn(outside, order) == if anchors then AnchorsFor(db, Deduplicate(Outside(edges, selected))) else []
  {
    OrderedCovers(outside, order);
    ValuesAre(outside, order);
    forall i | 0 <= i < |order| ensures ValuesIn(outside, order)[i] == AnchorFor(db, order[i]) {
      assert order[i] in order;
    }
    assert anchors ==> ValuesIn(outside, order) == AnchorsFor(db, order);
  }

  lemma ContextsAssembled(db: DB, refs: seq<Bytes>, visibility: Bytes, contexts: map<Bytes, RetainedContext>,
                          anchors: map<Bytes, Bytes>, order: seq<Bytes>)
    requires ContextsBuilt(db, refs, visibility, contexts, anchors, order)
    ensures |order| == |anchors|
    ensures ValuesIn(anchors, order) == if visibility == SHAPE_ONLY then Deduplicate(refs) else []
    ensures contexts == if visibility == SHAPE_ONLY then map[] else ContextsByID(db, Deduplicate(refs))
  {
    OrderedCovers(anchors, order);
    ValuesAre(anchors, order);
    forall i | 0 <= i < |order| ensures ValuesIn(anchors, order)[i] == order[i] {
      assert order[i] in order;
    }
    assert ValuesIn(anchors, order) == order;
    DeduplicateContents(refs);
  }

  lemma WitnessesAssembled(support: seq<Record>, visibility: Bytes, witnesses: map<Bytes, Visible>,
                           anchors: map<Bytes, WitnessAnchor>, order: seq<Bytes>)
    requires WitnessesBuilt(support, visibility, witnesses, anchors, order)
    ensures |order| == |anchors|
    ensures ValuesIn(anchors, order) == if visibility == SHAPE_ONLY then WitnessAnchorsFor(support) else []
  {
    OrderedCovers(anchors, order);
    ValuesAre(anchors, order);
    if visibility == SHAPE_ONLY {
      forall i | 0 <= i < |support| ensures ValuesIn(anchors, order)[i] == WitnessAnchorFor(support[i]) {
        assert order[i] == support[i].id;
      }
      assert ValuesIn(anchors, order) == WitnessAnchorsFor(support);
    }
  }

  /** buildSlice */
  method BuildSlice(db: DB, entries: seq<Entry>, frontier: Option<Frontier>, visibility: Bytes, mode: Bytes,
                    anchors: bool) returns (r: Result<Slice>)
    ensures r == SliceResult(db, entries, frontier, visibility, mode, anchors)
  {
    var load := LoadFiltered(db, entries, mode);
    if load.Err? { return Err(load.error); }
    var loaded := load.value;
    assert SliceResult(db, entries, frontier, visibility, mode, anchors) ==
           if AllSupported(db, loaded)
           then Ok(SliceOf(db, loaded, SupportRecords(db, loaded), frontier, visibility, mode, anchors))
           else Err(StoreLaw);
    var slice := BuildLoaded(db, loaded, frontier, visibility, mode, anchors);
    hide *;
    return slice;
  }

  /** The rest of buildSlice, over the loaded facts */
  method BuildLoaded(db: DB, loaded: seq<Record>, frontier: Option<Frontier>, visibility: Bytes, mode: Bytes,
                     anchors: bool) returns (r: Result<Slice>)
    ensures r == if AllSupported(db, loaded)
                 then Ok(SliceOf(db, loaded, SupportRecords(db, loaded), frontier, visibility, mode, anchors))
                 else Err(StoreLaw)
  {
    hide *;
    var selected := Selected(loaded);
    var facts: map<Bytes, Visible>, ownerPaths: map<Bytes, seq<Bytes>>, ownerPathOrder: seq<Bytes> := map[], map[], [];
    var causal: seq<(Bytes, Bytes)>, outside: map<Bytes, Anchor>, outsideOrder: seq<Bytes> := [], map[], [];
    var contexts: map<Bytes, RetainedContext>, contextAnchors: map<Bytes, Bytes>, contextOrder: seq<Bytes> := map[], map[], [];
    NothingBuilt(db, loaded, selected, visibility, anchors);
    for i := 0 to |loaded|
      invariant facts == FactsByID(loaded[..i], visibility)
      invariant PathsBuilt(loaded[..i], ownerPaths, ownerPathOrder)
      invariant EdgesBuilt(db, ParentEdges(loaded[..i]), selected, anchors, causal, outside, outsideOrder)
      invariant ContextsBuilt(db, ContextRefs(loaded[..i]), visibility, contexts, contextAnchors, contextOrder)
    {
      var r, o := loaded[i], loaded[i].view.owner;
      PartSteps(loaded, i, visibility);
      PathsStep(loaded, i, ownerPaths, ownerPathOrder);
      facts := facts[r.id := VisibleFact(r, visibility)];
      if o !in ownerPaths { ownerPathOrder := ownerPathOrder + [o]; }
      ownerPaths := ownerPaths[o := (if o in ownerPaths then ownerPaths[o] else []) + [r.id]];
      causal, outside, outsideOrder := AddParents(db, r, selected, anchors, causal, outside, outsideOrder,
                                                  ParentEdges(loaded[..i]));
      contexts, contextAnchors, contextOrder := AddContext(db, r, visibility, contexts, contextAnchors, contextOrder,
                                                           ContextRefs(loaded[..i]));
    }
    assert loaded[..|loaded|] == loaded;
    var support := WitnessSupportClosure(db, loaded);
    if support.Err? { return Err(StoreLaw); }
    SupportIsRecords(db, loaded, support.value);
    var witnesses, witnessAnchors, witnessOrder := AddWitnesses(support.value, visibility);
    AnchorsAssembled(db, ParentEdges(loaded), selected, anchors, causal, outside, outsideOrder);
    ContextsAssembled(db, ContextRefs(loaded), visibility, contexts, contextAnchors, contextOrder);
    WitnessesAssembled(support.value, visibility, witnesses, witnessAnchors, witnessOrder);
    var external := OrderedValues(outside, outsideOrder);
    var contextRefs := OrderedValues(contextAnchors, contextOrder);
    var anchored := OrderedValues(witnessAnchors, witnessOrder);
    r := Ok(Slice(frontier, visibility, mode, facts, contexts, ownerPaths, ownerPathOrder, causal, external, contextRefs,
                  witnesses, anchored));
    SliceIsBuilt(db, loaded, support.value, frontier, visibility, mode, anchors, r.value, outside, outsideOrder,
                 contextAnchors, contextOrder, witnessAnchors, witnessOrder);
  }

  lemma SliceIsBuilt(db: DB, loaded: seq<Record>, support: seq<Record>, frontier: Option<Frontier>, visibility: Bytes,
                     mode: Bytes, anchors: bool, s: Slice, outside: map<Bytes, Anchor>, outsideOrder: seq<Bytes>,
                     contextAnchors: map<Bytes, Bytes>, contextOrder: seq<Bytes>,
                     witnessAnchors: map<Bytes, WitnessAnchor>, witnessOrder: seq<Bytes>)
    requires s.frontier == frontier && s.visibility == visibility && s.mode == mode
    requires s.facts == FactsByID(loaded, visibility) && PathsBuilt(loaded, s.ownerPaths, s.ownerPathOrder)
    requires EdgesBuilt(db, ParentEdges(loaded), Selected(loaded), anchors, s.causalEdges, outside, outsideOrder)
    requires ContextsBuilt(db, ContextRefs(loaded), visibility, s.contexts, contextAnchors, contextOrder)
    requires WitnessesBuilt(support, visibility, s.witnesses, witnessAnchors, witnessOrder)
    requires s.externalAnchors == ValuesIn(outside, outsideOrder)
    requires s.contextAnchors == ValuesIn(contextAnchors, contextOrder)
    requires s.witnessAnchors == ValuesIn(witnessAnchors, witnessOrder)
    ensures s == SliceOf(db, loaded, support, frontier, visibility, mode, anchors)
  {
    AnchorsAssembled(db, ParentEdges(loaded), Selected(loaded), anchors, s.causalEdges, outside, outsideOrder);
    ContextsAssembled(db, ContextRefs(loaded), visibility, s.contexts, contextAnchors, contextOrder);
    WitnessesAssembled(support, visibility, s.witnesses, witnessAnchors, witnessOrder);
    hide ValuesIn, Ordered, AnchorsFor, WitnessAnchorsFor, FactsByID, OwnerPaths, Inside, Outside, Deduplicate;
  }
}
