/** Writing values that share or contain containers: buffer, ancestor marks, text. */
module Graphs {
  import opened Wrappers
  import opened Seqs
  import opened Utf8
  import opened Canonical
  import opened Keys

  /** A value held in memory: a scalar, or a reference to a container */
  datatype Value = Leaf(json: Json) | Ref(id: nat)

  datatype Node = List(items: seq<Value>) | Fields(fields: map<Bytes, Value>)

  type Graph = map<nat, Node>

  predicate IsScalar(v: Json) { !v.Arr? && !v.Obj? }

  predicate Held(g: Graph, v: Value) { if v.Leaf? then IsScalar(v.json) else v.id in g }

  predicate WellFormedNode(g: Graph, n: Node) {
    match n
    case List(items) => forall i :: 0 <= i < |items| ==> Held(g, items[i])
    case Fields(fields) => forall k :: k in fields ==> Held(g, fields[k])
  }

  /** Every reference is to a container of the graph. */
  predicate Closed(g: Graph) { forall id :: id in g ==> WellFormedNode(g, g[id]) }

  // ---- The writer as a function --------------------------------------------

  function Comma(i: nat): Bytes { if i > 0 then "," else "" }

  lemma MarkShrinks(g: Graph, marks: set<nat>, id: nat)
    requires id in g && id !in marks
    ensures |g.Keys - (marks + {id})| < |g.Keys - marks|
  {
    assert g.Keys - marks == (g.Keys - (marks + {id})) + {id};
  }

  /** The text of a value below the given ancestors */
  function Text(e: Encoder, g: Graph, v: Value, marks: set<nat>): Result<Bytes>
    requires Closed(g) && Held(g, v)
    decreases |g.Keys - marks|, 2
  {
    if v.Leaf? then Write(e, v.json)
    else if v.id in marks then Err(Cycle)
    else
      MarkShrinks(g, marks, v.id);
      match g[v.id]
      case List(items) =>
        var body :- ItemsText(e, g, items, 0, marks + {v.id});
        Ok("[" + body + "]")
      case Fields(fields) =>
        var body :- MembersText(e, g, fields, SortedKeys(fields.Keys), 0, marks + {v.id});
        Ok("{" + body + "}")
  }

  /** The text of the items from the i-th on, each but the first after a comma */
  function ItemsText(e: Encoder, g: Graph, items: seq<Value>, i: nat, marks: set<nat>): Result<Bytes>
    requires Closed(g) && i <= |items| && forall j :: 0 <= j < |items| ==> Held(g, items[j])
    decreases |g.Keys - marks|, 3, |items| - i
  {
    if i == |items| then Ok("") else
      var first :- Text(e, g, items[i], marks);
      var more :- ItemsText(e, g, items, i + 1, marks);
      Ok(Comma(i) + first + more)
  }

  function MembersText(e: Encoder, g: Graph, fields: map<Bytes, Value>, keys: seq<Bytes>, i: nat, marks: set<nat>):
      Result<Bytes>
    requires Closed(g) && i <= |keys| && (forall k :: k in keys ==> k in fields)
    requires forall k :: k in fields ==> Held(g, fields[k])
    decreases |g.Keys - marks|, 3, |keys| - i
  {
    if i == |keys| then Ok("") else
      var name :- WriteString(e, keys[i]);
      var value :- Text(e, g, fields[keys[i]], marks);
      var more :- MembersText(e, g, fields, keys, i + 1, marks);
      Ok(Comma(i) + (name + ":" + value) + more)
  }

  // ---- The writer ----------------------------------------------------------

  class Buffer {
    var text: Bytes

    constructor ()
      ensures text == ""
    {
      text := "";
    }
  }

  /** The containers being written */
  class Seen {
    var marks: set<nat>

    constructor ()
      ensures marks == {}
    {
      marks := {};
    }
  }

  /** The text written, or the error */
  ghost predicate Wrote(expected: Result<Bytes>, before: Bytes, after: Bytes, err: Option<Error>) {
    match expected
    case Ok(text) => err == None && after == before + text
    case Err(x) => err == Some(x)
  }

  /** What is still to be written completes what was to be written. */
  ghost predicate Remaining(whole: Result<Bytes>, done: Bytes, rest: Result<Bytes>) {
    match rest
    case Ok(more) => whole == Ok(done + more)
    case Err(x) => whole == Err(x)
  }

  lemma RemainingStart(whole: Result<Bytes>)
    ensures Remaining(whole, "", whole)
  {
    if whole.Ok? { assert "" + whole.value == whole.value; }
  }

  lemma ItemsTurn(e: Encoder, g: Graph, items: seq<Value>, i: nat, marks: set<nat>, whole: Result<Bytes>, done: Bytes)
    requires Closed(g) && i < |items| && forall j :: 0 <= j < |items| ==> Held(g, items[j])
    requires Remaining(whole, done, ItemsText(e, g, items, i, marks))
    ensures var t := Text(e, g, items[i], marks);
            if t.Err? then whole == Err(t.error)
            else Remaining(whole, done + (Comma(i) + t.value), ItemsText(e, g, items, i + 1, marks))
  {
    var t, more := Text(e, g, items[i], marks), ItemsText(e, g, items, i + 1, marks);
    if t.Ok? && more.Ok? { Associate(done, Comma(i) + t.value, more.value); }
  }

  lemma ItemsEnd(e: Encoder, g: Graph, items: seq<Value>, marks: set<nat>, whole: Result<Bytes>, done: Bytes)
    requires Closed(g) && forall j :: 0 <= j < |items| ==> Held(g, items[j])
    requires Remaining(whole, done, ItemsText(e, g, items, |items|, marks))
    ensures whole == Ok(done)
  {
    assert done + "" == done;
  }

  lemma MembersTurn(e: Encoder, g: Graph, fields: map<Bytes, Value>, keys: seq<Bytes>, i: nat, marks: set<nat>,
                    whole: Result<Bytes>, done: Bytes)
    requires Closed(g) && i < |keys| && (forall k :: k in keys ==> k in fields)
    requires forall k :: k in fields ==> Held(g, fields[k])
    requires Remaining(whole, done, MembersText(e, g, fields, keys, i, marks))
    ensures keys[i] in fields
    ensures var name, t := WriteString(e, keys[i]), Text(e, g, fields[keys[i]], marks);
            if name.Err? then whole == Err(name.error)
            else if t.Err? then whole == Err(t.error)
            else Remaining(whole, done + (Comma(i) + (name.value + ":" + t.value)),
                           MembersText(e, g, fields, keys, i + 1, marks))
  {
    var name, t := WriteString(e, keys[i]), Text(e, g, fields[keys[i]], marks);
    var more := MembersText(e, g, fields, keys, i + 1, marks);
    if name.Ok? && t.Ok? && more.Ok? { Associate(done, Comma(i) + (name.value + ":" + t.value), more.value); }
  }

  lemma MembersEnd(e: Encoder, g: Graph, fields: map<Bytes, Value>, keys: seq<Bytes>, marks: set<nat>,
                   whole: Result<Bytes>, done: Bytes)
    requires Closed(g) && (forall k :: k in keys ==> k in fields) && forall k :: k in fields ==> Held(g, fields[k])
    requires Remaining(whole, done, MembersText(e, g, fields, keys, |keys|, marks))
    ensures whole == Ok(done)
  {
    assert done + "" == done;
  }

  /** Appending a comma and a part, piece by piece */
  lemma Appended(start: Bytes, done: Bytes, i: nat, part: Bytes)
    ensures start + done + Comma(i) + part == start + (done + (Comma(i) + part))
    ensures start + done + "" == start + done
  {
  }

  lemma Pieces(text: Bytes, name: Bytes, value: Bytes)
    ensures text + name + ":" + value == text + (name + ":" + value)
  {
  }

  lemma Enclosed(start: Bytes, open: Bytes, body: Bytes, close: Bytes)
    ensures start + open + body + close == start + (open + body + close)
  {
  }

  lemma ScalarText(e: Encoder, g: Graph, v: Value, marks: set<nat>)
    requires Closed(g) && Held(g, v)
    ensures v.Leaf? ==> Text(e, g, v, marks) == Write(e, v.json)
    ensures v.Ref? && v.id in marks ==> Text(e, g, v, marks) == Err(Cycle)
  {
  }

  lemma ListText(e: Encoder, g: Graph, id: nat, marks: set<nat>)
    requires Closed(g) && id in g && id !in marks && g[id].List?
    ensures forall j :: 0 <= j < |g[id].items| ==> Held(g, g[id].items[j])
    ensures var body := ItemsText(e, g, g[id].items, 0, marks + {id});
            Text(e, g, Ref(id), marks) == if body.Err? then body else Ok("[" + body.value + "]")
  {
  }

  lemma FieldsText(e: Encoder, g: Graph, id: nat, marks: set<nat>)
    requires Closed(g) && id in g && id !in marks && g[id].Fields?
    ensures forall k :: k in g[id].fields ==> Held(g, g[id].fields[k])
    ensures var body := MembersText(e, g, g[id].fields, SortedKeys(g[id].fields.Keys), 0, marks + {id});
            Text(e, g, Ref(id), marks) == if body.Err? then body else Ok("{" + body.value + "}")
  {
  }

  /** writeCanonicalValue: whatever happens, the marks are left as they were found. */
  method WriteValue(e: Encoder, g: Graph, v: Value, buf: Buffer, seen: Seen) returns (err: Option<Error>)
    requires Closed(g) && Held(g, v)
    modifies buf, seen
    ensures seen.marks == old(seen.marks)
    ensures Wrote(Text(e, g, v, old(seen.marks)), old(buf.text), buf.text, err)
    decreases |g.Keys - seen.marks|, 2
  {
    assert v.Leaf? || v.id in g;
    hide Text, Closed, Held, Write, ItemsText, MembersText;
    ScalarText(e, g, v, seen.marks);
    if v.Leaf? {
      var text := Write(e, v.json);
      if text.Err? { return Some(text.error); }
      buf.text := buf.text + text.value;
      return None;
    }
    if v.id in seen.marks { return Some(Cycle); }
    ghost var start, marks := buf.text, seen.marks;
    MarkShrinks(g, seen.marks, v.id);
    seen.marks := seen.marks + {v.id};
    if g[v.id].List? {
      ListText(e, g, v.id, marks);
      buf.text := buf.text + "[";
      err := WriteItems(e, g, g[v.id].items, buf, seen);
      if err == None {
        Enclosed(start, "[", ItemsText(e, g, g[v.id].items, 0, marks + {v.id}).value, "]");
        buf.text := buf.text + "]";
      }
    } else {
      FieldsText(e, g, v.id, marks);
      buf.text := buf.text + "{";
      err := WriteMembers(e, g, g[v.id].fields, buf, seen);
      if err == None {
        Enclosed(start, "{", MembersText(e, g, g[v.id].fields, SortedKeys(g[v.id].fields.Keys), 0, marks + {v.id}).value, "}");
        buf.text := buf.text + "}";
      }
    }
    seen.marks := seen.marks - {v.id};
    assert seen.marks == marks;
  }

  method WriteItems(e: Encoder, g: Graph, items: seq<Value>, buf: Buffer, seen: Seen) returns (err: Option<Error>)
    requires Closed(g) && forall j :: 0 <= j < |items| ==> Held(g, items[j])
    modifies buf, seen
    ensures seen.marks == old(seen.marks)
    ensures Wrote(ItemsText(e, g, items, 0, old(seen.marks)), old(buf.text), buf.text, err)
    decreases |g.Keys - seen.marks|, 3
  {
    hide Text, Closed, Held, ItemsText, Remaining;
    ghost var marks, start, done := seen.marks, buf.text, "";
    ghost var whole := ItemsText(e, g, items, 0, marks);
    RemainingStart(whole);
    assert start + "" == start;
    for i := 0 to |items|
      invariant seen.marks == marks && buf.text == start + done
      invariant Remaining(whole, done, ItemsText(e, g, items, i, marks))
    {
      ItemsTurn(e, g, items, i, marks, whole, done);
      Appended(start, done, i, "");
      if i > 0 { buf.text := buf.text + ","; }
      assert buf.text == start + done + Comma(i);
      err := WriteValue(e, g, items[i], buf, seen);
      if err.Some? { return; }
      ghost var text := Text(e, g, items[i], marks).value;
      Appended(start, done, i, text);
      done := done + (Comma(i) + text);
    }
    ItemsEnd(e, g, items, marks, whole, done);
    return None;
  }

  method WriteMembers(e: Encoder, g: Graph, fields: map<Bytes, Value>, buf: Buffer, seen: Seen)
      returns (err: Option<Error>)
    requires Closed(g) && forall k :: k in fields ==> Held(g, fields[k])
    modifies buf, seen
    ensures seen.marks == old(seen.marks)
    ensures Wrote(MembersText(e, g, fields, SortedKeys(fields.Keys), 0, old(seen.marks)), old(buf.text), buf.text, err)
    decreases |g.Keys - seen.marks|, 3
  {
    hide Text, Closed, Held, MembersText, Remaining, WriteString;
    var keys := CollectSortedKeys(fields.Keys);
    ghost var marks, start, done := seen.marks, buf.text, "";
    ghost var whole := MembersText(e, g, fields, keys, 0, marks);
    RemainingStart(whole);
    assert start + "" == start;
    for i := 0 to |keys|
      invariant seen.marks == marks && buf.text == start + done
      invariant Remaining(whole, done, MembersText(e, g, fields, keys, i, marks))
    {
      MembersTurn(e, g, fields, keys, i, marks, whole, done);
      Appended(start, done, i, "");
      if i > 0 { buf.text := buf.text + ","; }
      ghost var before := buf.text;
      assert before == start + done + Comma(i);
      var name := WriteString(e, keys[i]);
      if name.Err? { return Some(name.error); }
      buf.text := buf.text + name.value;
      buf.text := buf.text + ":";
      err := WriteValue(e, g, fields[keys[i]], buf, seen);
      if err.Some? { return; }
      ghost var text := Text(e, g, fields[keys[i]], marks).value;
      Pieces(before, name.value, text);
      Appended(start, done, i, name.value + ":" + text);
      done := done + (Comma(i) + (name.value + ":" + text));
    }
    MembersEnd(e, g, fields, keys, marks, whole, done);
    return None;
  }

  /** canonicalJSON: one encoding pass with no marks */
  method CanonicalJSON(e: Encoder, g: Graph, v: Value) returns (r: Result<Bytes>)
    requires Closed(g) && Held(g, v)
    ensures r == Text(e, g, v, {})
  {
    var buf := new Buffer();
    var seen := new Seen();
    var err := WriteValue(e, g, v, buf, seen);
    if err.Some? { return Err(err.value); }
    assert "" + Text(e, g, v, {}).value == Text(e, g, v, {}).value;
    return Ok(buf.text);
  }
}
