/** The writer on shared and cyclic containers. */
module GraphLaws {
  import opened Wrappers
  import opened Utf8
  import opened Canonical
  import opened Graphs

  // ---- Unfolding -----------------------------------------------------------

  /** The tree a value unfolds to; None when a container would contain itself or one of the marked ones. */
  function Unfold(g: Graph, v: Value, marks: set<nat>): Option<Json>
    requires Closed(g) && Held(g, v)
    decreases |g.Keys - marks|, 2
  {
    if v.Leaf? then Some(v.json)
    else if v.id in marks then None
    else
      MarkShrinks(g, marks, v.id);
      match g[v.id]
      case List(items) =>
        var trees :- UnfoldItems(g, items, marks + {v.id});
        Some(Arr(trees))
      case Fields(fields) =>
        if forall k :: k in fields ==> Unfold(g, fields[k], marks + {v.id}).Some?
        then Some(Obj(map k | k in fields :: Unfold(g, fields[k], marks + {v.id}).value))
        else None
  }

  function UnfoldItems(g: Graph, items: seq<Value>, marks: set<nat>): Option<seq<Json>>
    requires Closed(g) && forall j :: 0 <= j < |items| ==> Held(g, items[j])
    decreases |g.Keys - marks|, 3, |items|
  {
    if items == [] then Some([]) else
      var first :- Unfold(g, items[0], marks);
      var more :- UnfoldItems(g, items[1..], marks);
      Some([first] + more)
  }

  lemma {:induction false} UnfoldedItems(g: Graph, items: seq<Value>, marks: set<nat>)
    requires Closed(g) && forall j :: 0 <= j < |items| ==> Held(g, items[j])
    ensures UnfoldItems(g, items, marks).Some? <==> forall j :: 0 <= j < |items| ==> Unfold(g, items[j], marks).Some?
    ensures UnfoldItems(g, items, marks).Some? ==>
              var trees := UnfoldItems(g, items, marks).value;
              |trees| == |items| && forall j :: 0 <= j < |items| ==> Unfold(g, items[j], marks) == Some(trees[j])
  {
    if items != [] {
      UnfoldedItems(g, items[1..], marks);
      assert forall j :: 0 < j < |items| ==> items[j] == items[1..][j - 1];
    }
  }

  // ---- A tree is written as a tree -----------------------------------------

  ghost predicate WritesAs(e: Encoder, g: Graph, v: Value, marks: set<nat>, tree: Json)
    requires Closed(g) && Held(g, v)
  {
    Text(e, g, v, marks) == Write(e, tree)
  }

  /** The separator before a rest that is not empty */
  function Rest(i: nat, n: nat, w: Result<Bytes>): Result<Bytes> {
    if w.Ok? && i < n then Ok(Comma(i) + w.value) else w
  }

  lemma {:induction false} ItemsWrite(e: Encoder, g: Graph, items: seq<Value>, i: nat, marks: set<nat>, trees: seq<Json>)
    requires Closed(g) && |trees| == |items| && i <= |items|
    requires forall j :: 0 <= j < |items| ==> Held(g, items[j]) && WritesAs(e, g, items[j], marks, trees[j])
    ensures ItemsText(e, g, items, i, marks) == Rest(i, |items|, Canonical.WriteItems(e, trees[i..]))
    decreases |items| - i
  {
    if i < |items| {
      ItemsWrite(e, g, items, i + 1, marks, trees);
      assert WritesAs(e, g, items[i], marks, trees[i]);
      assert trees[i..][0] == trees[i] && trees[i..][1..] == trees[i + 1..];
      hide Text, Held, Closed;
      var first, more := Write(e, trees[i]), Canonical.WriteItems(e, trees[i + 1..]);
      if first.Ok? && more.Ok? { Separated(i, |items|, first.value, more.value); }
    }
  }

  lemma Separated(i: nat, n: nat, first: Bytes, more: Bytes)
    requires i < n && (i + 1 == n ==> more == "")
    ensures Comma(i) + first + (if i + 1 < n then Comma(i + 1) + more else more) ==
            Comma(i) + if i + 1 == n then first else first + "," + more
  {
    if i + 1 == n {
      assert Comma(i) + first + "" == Comma(i) + first;
    } else {
      assert Comma(i) + first + ("," + more) == Comma(i) + (first + "," + more);
    }
  }

  lemma {:induction false} MembersWrite(e: Encoder, g: Graph, fields: map<Bytes, Value>, keys: seq<Bytes>, i: nat,
                                        marks: set<nat>, trees: map<Bytes, Json>)
    requires Closed(g) && i <= |keys| && (forall k :: k in keys ==> k in fields) && trees.Keys == fields.Keys
    requires forall k :: k in fields ==> Held(g, fields[k]) && WritesAs(e, g, fields[k], marks, trees[k])
    ensures forall k :: k in keys[i..] ==> k in trees
    ensures MembersText(e, g, fields, keys, i, marks) == Rest(i, |keys|, Canonical.WriteMembers(e, Obj(trees), keys[i..]))
    decreases |keys| - i
  {
    assert forall k :: k in keys[i..] ==> k in keys;
    if i < |keys| {
      MembersWrite(e, g, fields, keys, i + 1, marks, trees);
      assert keys[i] in keys && WritesAs(e, g, fields[keys[i]], marks, trees[keys[i]]);
      assert keys[i..][0] == keys[i] && keys[i..][1..] == keys[i + 1..];
      hide Text, Held, Closed;
      var first, more := WriteMember(e, Obj(trees), keys[i]), Canonical.WriteMembers(e, Obj(trees), keys[i + 1..]);
      if first.Ok? && more.Ok? { Separated(i, |keys|, first.value, more.value); }
    }
  }

  lemma ListUnfolds(e: Encoder, g: Graph, id: nat, marks: set<nat>, trees: seq<Json>)
    requires Closed(g) && id in g && id !in marks && g[id].List?
    requires |trees| == |g[id].items| && forall j :: 0 <= j < |trees| ==>
               Held(g, g[id].items[j]) && WritesAs(e, g, g[id].items[j], marks + {id}, trees[j])
    ensures Text(e, g, Ref(id), marks) == Write(e, Arr(trees))
  {
    ListText(e, g, id, marks);
    hide Text, Closed, Held, WritesAs, ItemsText;
    ItemsWrite(e, g, g[id].items, 0, marks + {id}, trees);
    assert trees[0..] == trees;
    RestWhole(|trees|, Canonical.WriteItems(e, trees));
  }

  lemma FieldsUnfold(e: Encoder, g: Graph, id: nat, marks: set<nat>, trees: map<Bytes, Json>)
    requires Closed(g) && id in g && id !in marks && g[id].Fields? && trees.Keys == g[id].fields.Keys
    requires forall k :: k in trees ==>
               Held(g, g[id].fields[k]) && WritesAs(e, g, g[id].fields[k], marks + {id}, trees[k])
    ensures Text(e, g, Ref(id), marks) == Write(e, Obj(trees))
  {
    hide *;
    FieldsText(e, g, id, marks);
    var keys := SortedKeys(g[id].fields.Keys);
    MembersWrite(e, g, g[id].fields, keys, 0, marks + {id}, trees);
    assert keys[0..] == keys;
    RestWhole(|keys|, Canonical.WriteMembers(e, Obj(trees), keys));
    ObjectTextOf(e, trees);
  }

  lemma ObjectTextOf(e: Encoder, trees: map<Bytes, Json>)
    ensures var body := Canonical.WriteMembers(e, Obj(trees), SortedKeys(trees.Keys));
            Write(e, Obj(trees)) == if body.Err? then body else Ok("{" + body.value + "}")
  {
  }

  /** A shared container is printed as its unfolding: the text is that of the tree. */
  lemma {:induction false} UnfoldedText(e: Encoder, g: Graph, v: Value, marks: set<nat>)
    requires Closed(g) && Held(g, v) && Unfold(g, v, marks).Some?
    ensures Text(e, g, v, marks) == Write(e, Unfold(g, v, marks).value)
    decreases |g.Keys - marks|
  {
    if v.Ref? {
      MarkShrinks(g, marks, v.id);
      if g[v.id].List? {
        var items := g[v.id].items;
        UnfoldedItems(g, items, marks + {v.id});
        var trees := UnfoldItems(g, items, marks + {v.id}).value;
        hide Text, Write;
        forall j | 0 <= j < |items| ensures WritesAs(e, g, items[j], marks + {v.id}, trees[j]) {
          UnfoldedText(e, g, items[j], marks + {v.id});
        }
        ListUnfolds(e, g, v.id, marks, trees);
      } else {
        var fields, trees := g[v.id].fields, Unfold(g, v, marks).value.fields;
        hide Text, Write;
        forall k | k in fields ensures WritesAs(e, g, fields[k], marks + {v.id}, trees[k]) {
          UnfoldedText(e, g, fields[k], marks + {v.id});
        }
        FieldsUnfold(e, g, v.id, marks, trees);
      }
    }
  }

  lemma RestWhole(n: nat, w: Result<Bytes>)
    ensures Rest(0, n, w) == w
  {
    if w.Ok? { assert "" + w.value == w.value; }
  }

  // ---- Cycles --------------------------------------------------------------

  predicate Contains(n: Node, id: nat) {
    match n
    case List(items) => Ref(id) in items
    case Fields(fields) => exists k :: k in fields && fields[k] == Ref(id)
  }

  /** Each container on the path holds the next. */
  ghost predicate IsPath(g: Graph, path: seq<nat>) {
    && (forall i :: 0 <= i < |path| ==> path[i] in g)
    && (forall i, j :: 0 <= i && j == i + 1 < |path| ==> Contains(g[path[i]], path[j]))
  }

  /** A path from the value runs into a marked container or into one it has passed. */
  ghost predicate RunsInto(g: Graph, v: Value, marks: set<nat>, path: seq<nat>) {
    && path != [] && v == Ref(path[0]) && IsPath(g, path)
    && (path[|path| - 1] in marks || path[|path| - 1] in path[..|path| - 1])
  }

  ghost predicate Cyclic(g: Graph, v: Value, marks: set<nat>) { exists path :: RunsInto(g, v, marks, path) }

  /** A container whose part is cyclic below it is cyclic. */
  lemma CyclicAbove(g: Graph, id: nat, child: Value, marks: set<nat>)
    requires id in g && child.Ref? && Contains(g[id], child.id) && Cyclic(g, child, marks + {id})
    ensures Cyclic(g, Ref(id), marks)
  {
    var path :| RunsInto(g, child, marks + {id}, path);
    var longer := [id] + path;
    assert forall i :: 0 < i < |longer| ==> longer[i] == path[i - 1];
    var last := path[|path| - 1];
    assert longer[|longer| - 1] == last && longer[..|longer| - 1] == [id] + path[..|path| - 1];
    assert RunsInto(g, Ref(id), marks, longer);
  }

  /** A cyclic container that is not marked itself has a part that is cyclic below it. */
  lemma CyclicBelow(g: Graph, id: nat, marks: set<nat>) returns (child: nat)
    requires id in g && id !in marks && Cyclic(g, Ref(id), marks)
    ensures Contains(g[id], child) && Cyclic(g, Ref(child), marks + {id})
  {
    var path :| RunsInto(g, Ref(id), marks, path);
    var rest, last := path[1..], path[|path| - 1];
    assert |path| > 1;
    child := path[1];
    assert forall i :: 0 <= i < |rest| ==> rest[i] == path[i + 1];
    assert path[..|path| - 1] == [id] + rest[..|rest| - 1];
    assert RunsInto(g, Ref(child), marks + {id}, rest);
  }

  /** Unfolding fails exactly on a cycle. */
  lemma {:induction false} UnfoldsUnlessCyclic(g: Graph, v: Value, marks: set<nat>)
    requires Closed(g) && Held(g, v)
    ensures Unfold(g, v, marks).None? <==> Cyclic(g, v, marks)
    decreases |g.Keys - marks|
  {
    if v.Ref? {
      if v.id in marks {
        assert RunsInto(g, v, marks, [v.id]);
      } else {
        MarkShrinks(g, marks, v.id);
        PartsUnfold(g, v.id, marks);
        forall c: Value | IsPart(g[v.id], c) ensures Unfold(g, c, marks + {v.id}).None? <==> Cyclic(g, c, marks + {v.id}) {
          UnfoldsUnlessCyclic(g, c, marks + {v.id});
        }
        hide Unfold, Cyclic;
        if Unfold(g, v, marks).None? {
          var c: Value :| IsPart(g[v.id], c) && Unfold(g, c, marks + {v.id}).None?;
          CyclicIsRef(g, c, marks + {v.id});
          PartContains(g[v.id], c);
          CyclicAbove(g, v.id, c, marks);
        }
        if Cyclic(g, v, marks) {
          var child := CyclicBelow(g, v.id, marks);
          ContainsPart(g[v.id], child);
        }
      }
    }
  }

  ghost predicate IsPart(n: Node, c: Value) {
    match n
    case List(items) => c in items
    case Fields(fields) => exists k :: k in fields && fields[k] == c
  }

  lemma PartContains(n: Node, c: Value)
    requires IsPart(n, c) && c.Ref?
    ensures Contains(n, c.id)
  {
  }

  lemma ContainsPart(n: Node, id: nat)
    requires Contains(n, id)
    ensures IsPart(n, Ref(id))
  {
  }

  lemma CyclicIsRef(g: Graph, c: Value, marks: set<nat>)
    requires Cyclic(g, c, marks)
    ensures c.Ref?
  {
  }

  /** A container unfolds exactly when all its parts do. */
  lemma PartsUnfold(g: Graph, id: nat, marks: set<nat>)
    requires Closed(g) && id in g && id !in marks
    ensures forall c :: IsPart(g[id], c) ==> Held(g, c)
    ensures Unfold(g, Ref(id), marks).Some? <==> forall c :: IsPart(g[id], c) ==> Unfold(g, c, marks + {id}).Some?
  {
    match g[id]
    case List(items) =>
      UnfoldedItems(g, items, marks + {id});
      assert forall j :: 0 <= j < |items| ==> IsPart(g[id], items[j]);
    case Fields(fields) =>
      assert forall k :: k in fields ==> IsPart(g[id], fields[k]);
  }

  // ---- Failing -------------------------------------------------------------

  lemma ItemsStep(e: Encoder, g: Graph, items: seq<Value>, i: nat, marks: set<nat>)
    requires Closed(g) && i < |items| && forall j :: 0 <= j < |items| ==> Held(g, items[j])
    ensures var t, more := Text(e, g, items[i], marks), ItemsText(e, g, items, i + 1, marks);
            var all := ItemsText(e, g, items, i, marks);
            if t.Err? then all == Err(t.error) else if more.Err? then all == Err(more.error) else all.Ok?
  {
  }

  lemma {:induction false} ItemsFail(e: Encoder, g: Graph, items: seq<Value>, i: nat, marks: set<nat>)
    requires Closed(g) && i <= |items| && forall j :: 0 <= j < |items| ==> Held(g, items[j])
    ensures ItemsText(e, g, items, i, marks).Err? <==> exists j :: i <= j < |items| && Text(e, g, items[j], marks).Err?
    ensures (forall j :: i <= j < |items| ==> Text(e, g, items[j], marks).Ok? || Text(e, g, items[j], marks) == Err(Cycle)) ==>
              ItemsText(e, g, items, i, marks).Ok? || ItemsText(e, g, items, i, marks) == Err(Cycle)
    decreases |items| - i
  {
    if i < |items| {
      hide *;
      ItemsStep(e, g, items, i, marks);
      ItemsFail(e, g, items, i + 1, marks);
    }
  }

  lemma MembersStep(e: Encoder, g: Graph, fields: map<Bytes, Value>, keys: seq<Bytes>, i: nat, marks: set<nat>)
    requires Closed(g) && i < |keys| && (forall k :: k in keys ==> k in fields)
    requires forall k :: k in fields ==> Held(g, fields[k]) && WriteString(e, k).Ok?
    ensures keys[i] in fields && Held(g, fields[keys[i]])
    ensures var t, more := Text(e, g, fields[keys[i]], marks), MembersText(e, g, fields, keys, i + 1, marks);
            var all := MembersText(e, g, fields, keys, i, marks);
            if t.Err? then all == Err(t.error) else if more.Err? then all == Err(more.error) else all.Ok?
  {
    assert keys[i] in keys;
  }

  function ValuesAt(fields: map<Bytes, Value>, keys: seq<Bytes>): (r: seq<Value>)
    requires forall k :: k in keys ==> k in fields
    ensures |r| == |keys| && forall i :: 0 <= i < |keys| ==> r[i] == fields[keys[i]]
  {
    seq(|keys|, i requires 0 <= i < |keys| => fields[keys[i]])
  }

  /** With writable keys, members fail as the list of their values would. */
  lemma {:induction false} MembersFailLikeItems(e: Encoder, g: Graph, fields: map<Bytes, Value>, keys: seq<Bytes>, i: nat,
                                                marks: set<nat>)
    requires Closed(g) && i <= |keys| && (forall k :: k in keys ==> k in fields)
    requires forall k :: k in fields ==> Held(g, fields[k]) && WriteString(e, k).Ok?
    ensures var m, n := MembersText(e, g, fields, keys, i, marks), ItemsText(e, g, ValuesAt(fields, keys), i, marks);
            if m.Err? then n == Err(m.error) else n.Ok?
    decreases |keys| - i
  {
    if i < |keys| {
      hide *;
      MembersStep(e, g, fields, keys, i, marks);
      ItemsStep(e, g, ValuesAt(fields, keys), i, marks);
      MembersFailLikeItems(e, g, fields, keys, i + 1, marks);
    }
  }

  /** A scalar that has a text */
  predicate Writable(e: Encoder, v: Value) { v.Leaf? ==> Write(e, v.json).Ok? }

  /** Every scalar and every key of the graph has a text. */
  ghost predicate LeavesWrite(e: Encoder, g: Graph) {
    forall id :: id in g ==>
      && (forall c :: IsPart(g[id], c) ==> Writable(e, c))
      && (g[id].Fields? ==> forall k :: k in g[id].fields ==> WriteString(e, k).Ok?)
  }

  /** Some value of a list has no text. */
  ghost predicate SomeFails(e: Encoder, g: Graph, values: seq<Value>, marks: set<nat>)
    requires Closed(g) && forall c :: c in values ==> Held(g, c)
  {
    exists c :: c in values && Text(e, g, c, marks).Err?
  }

  ghost predicate OnlyCycles(e: Encoder, g: Graph, values: seq<Value>, marks: set<nat>)
    requires Closed(g) && forall c :: c in values ==> Held(g, c)
  {
    forall c :: c in values ==> Text(e, g, c, marks).Ok? || Text(e, g, c, marks) == Err(Cycle)
  }

  lemma ValuesFail(e: Encoder, g: Graph, values: seq<Value>, marks: set<nat>)
    requires Closed(g) && (forall c :: c in values ==> Held(g, c)) && forall j :: 0 <= j < |values| ==> Held(g, values[j])
    ensures var body := ItemsText(e, g, values, 0, marks);
            && (body.Err? <==> SomeFails(e, g, values, marks))
            && (OnlyCycles(e, g, values, marks) ==> body.Ok? || body == Err(Cycle))
  {
    ItemsFail(e, g, values, 0, marks);
    hide Text, ItemsText, Closed, Held;
    assert forall j :: 0 <= j < |values| ==> values[j] in values;
  }

  /** The parts of a container, in the order the writer visits them */
  function PartsOf(n: Node): seq<Value> {
    match n
    case List(items) => items
    case Fields(fields) => ValuesAt(fields, SortedKeys(fields.Keys))
  }

  lemma PartsAre(n: Node)
    ensures forall c :: c in PartsOf(n) <==> IsPart(n, c)
  {
    if n.Fields? {
      var keys := SortedKeys(n.fields.Keys);
      forall c ensures c in ValuesAt(n.fields, keys) <==> IsPart(n, c) {
        if k :| k in n.fields && n.fields[k] == c {
          assert k in keys;
          var j :| 0 <= j < |keys| && keys[j] == k;
          assert ValuesAt(n.fields, keys)[j] == c;
        }
      }
    }
  }

  /** The text of a container fails as the list of its parts does. */
  lemma ContainerFails(e: Encoder, g: Graph, id: nat, marks: set<nat>)
    requires Closed(g) && id in g && id !in marks
    requires g[id].Fields? ==> forall k :: k in g[id].fields ==> WriteString(e, k).Ok?
    ensures forall j :: 0 <= j < |PartsOf(g[id])| ==> Held(g, PartsOf(g[id])[j])
    ensures var body, t := ItemsText(e, g, PartsOf(g[id]), 0, marks + {id}), Text(e, g, Ref(id), marks);
            if body.Err? then t == Err(body.error) else t.Ok?
  {
    if g[id].List? {
      ListText(e, g, id, marks);
    } else {
      FieldsText(e, g, id, marks);
      var keys := SortedKeys(g[id].fields.Keys);
      assert forall j :: 0 <= j < |keys| ==> keys[j] in keys;
      MembersFailLikeItems(e, g, g[id].fields, keys, 0, marks + {id});
    }
  }

  lemma PartsHeld(g: Graph, id: nat)
    requires Closed(g) && id in g
    ensures forall c :: IsPart(g[id], c) ==> Held(g, c)
    ensures forall c :: c in PartsOf(g[id]) ==> Held(g, c)
  {
    PartsAre(g[id]);
  }

  /** The texts of the parts decide the text of a container. */
  lemma PartsFail(e: Encoder, g: Graph, id: nat, marks: set<nat>)
    requires Closed(g) && LeavesWrite(e, g) && id in g && id !in marks
    ensures forall c :: IsPart(g[id], c) ==> Held(g, c)
    ensures Text(e, g, Ref(id), marks).Err? <==> exists c :: IsPart(g[id], c) && Text(e, g, c, marks + {id}).Err?
    ensures (forall c :: IsPart(g[id], c) ==>
               Text(e, g, c, marks + {id}).Ok? || Text(e, g, c, marks + {id}) == Err(Cycle)) ==>
              Text(e, g, Ref(id), marks).Ok? || Text(e, g, Ref(id), marks) == Err(Cycle)
  {
    PartsHeld(g, id);
    PartsAre(g[id]);
    ContainerFails(e, g, id, marks);
    ValuesFail(e, g, PartsOf(g[id]), marks + {id});
    hide Text, ItemsText, Closed, Held, LeavesWrite, PartsOf, IsPart;
  }

  /** Writing fails exactly on a cycle, and then reports one. */
  lemma {:induction false} FailsOnCycle(e: Encoder, g: Graph, v: Value, marks: set<nat>)
    requires Closed(g) && Held(g, v) && LeavesWrite(e, g) && Writable(e, v)
    ensures Text(e, g, v, marks).Err? <==> Cyclic(g, v, marks)
    ensures Text(e, g, v, marks).Ok? || Text(e, g, v, marks) == Err(Cycle)
    decreases |g.Keys - marks|
  {
    if v.Ref? {
      if v.id in marks {
        assert RunsInto(g, v, marks, [v.id]);
      } else {
        MarkShrinks(g, marks, v.id);
        PartsFail(e, g, v.id, marks);
        forall c: Value | IsPart(g[v.id], c)
          ensures Text(e, g, c, marks + {v.id}).Err? <==> Cyclic(g, c, marks + {v.id})
          ensures Text(e, g, c, marks + {v.id}).Ok? || Text(e, g, c, marks + {v.id}) == Err(Cycle)
        {
          FailsOnCycle(e, g, c, marks + {v.id});
        }
        hide Text, Cyclic, LeavesWrite, Closed;
        if Text(e, g, v, marks).Err? {
          var c: Value :| IsPart(g[v.id], c) && Text(e, g, c, marks + {v.id}).Err?;
          CyclicIsRef(g, c, marks + {v.id});
          PartContains(g[v.id], c);
          CyclicAbove(g, v.id, c, marks);
        }
        if Cyclic(g, v, marks) {
          var child := CyclicBelow(g, v.id, marks);
          ContainsPart(g[v.id], child);
        }
      }
    }
  }

  /** A path from the value visits some container twice. */
  ghost predicate ReachesItself(g: Graph, v: Value) {
    exists path :: path != [] && v == Ref(path[0]) && IsPath(g, path) && path[|path| - 1] in path[..|path| - 1]
  }

  /**
   * Over any graph of containers with writable scalars: the writer fails exactly when a container reachable from the
   * value contains itself; otherwise it prints the tree the value unfolds to, shared containers included.
   */
  lemma WriterOnGraphs(e: Encoder, g: Graph, v: Value)
    requires Closed(g) && Held(g, v) && LeavesWrite(e, g) && Writable(e, v)
    ensures Text(e, g, v, {}) == Err(Cycle) <==> ReachesItself(g, v)
    ensures !ReachesItself(g, v) ==>
              Unfold(g, v, {}).Some? && Text(e, g, v, {}).Ok? && Text(e, g, v, {}) == Write(e, Unfold(g, v, {}).value)
  {
    FailsOnCycle(e, g, v, {});
    UnfoldsUnlessCyclic(g, v, {});
    if Unfold(g, v, {}).Some? { UnfoldedText(e, g, v, {}); }
    hide Text, Unfold, Closed, LeavesWrite;
    if Cyclic(g, v, {}) {
      var path :| RunsInto(g, v, {}, path);
      assert ReachesItself(g, v);
    }
    if ReachesItself(g, v) {
      var path :| path != [] && v == Ref(path[0]) && IsPath(g, path) && path[|path| - 1] in path[..|path| - 1];
      assert RunsInto(g, v, {}, path);
    }
  }
}
