/** Laws of the writer and of stored bodies. */
module CanonicalLaws {
  import opened Wrappers
  import opened Utf8
  import opened Numbers
  import opened Canonical

  // ---- Equal bytes are equal values ----------------------------------------

  lemma SameTextSameMeaning(e: Encoder, v: Json, w: Json)
    requires Write(e, v).Ok? && Write(e, w) == Write(e, v)
    ensures Meaning(e, v) == Meaning(e, w)
  {
    ReadOfWrite(e, v, "");
    ReadOfWrite(e, w, "");
  }

  /** The text of a number with the given value */
  predicate IsTextOf(text: Bytes, v: Val) {
    match v
    case VInt(n) => text == DecimalInt(n)
    case VReal(f) => f.Finite? && IsShortest(f) && FormatCanonicalFloat(f) == Ok(text)
    case _ => false
  }

  lemma FloatTokenText(e: Encoder, token: Bytes)
    requires !IsIntegerToken(token) && WriteNumber(e, token).Ok?
    ensures IsTextOf(WriteNumber(e, token).value, NumberMeaning(e, token))
  {
    hide IsIntegerToken, Split, CanonicalToken, Render;
    var f := e.parse(token).value;
    assert NumberMeaning(e, token) == VReal(f);
  }

  lemma TokenText(e: Encoder, token: Bytes)
    requires WriteNumber(e, token).Ok?
    ensures IsTextOf(WriteNumber(e, token).value, NumberMeaning(e, token))
  {
    if !IsIntegerToken(token) {
      FloatTokenText(e, token);
    } else if token == "-0" {
      NegativeZero();
      assert DecimalInt(0) == "0";
    } else {
      IntegerTokenIsDecimal(token);
    }
  }

  /** A written number is determined by its value. */
  lemma NumberText(e: Encoder, v: Json)
    requires (v.Int? || v.Number? || v.Real? || v.Real32?) && Write(e, v).Ok?
    ensures IsTextOf(Write(e, v).value, Meaning(e, v))
  {
    if v.Number? {
      TokenText(e, v.token);
    }
  }

  lemma {:induction false} SameMeaningSameText(e: Encoder, v: Json, w: Json)
    requires Write(e, v).Ok? && Write(e, w).Ok? && Meaning(e, v) == Meaning(e, w)
    ensures Write(e, v) == Write(e, w)
    decreases v, 1
  {
    if v.Arr? && w.Arr? {
      SameItemsSameText(e, v.items, w.items);
    } else if v.Obj? && w.Obj? {
      assert Meaning(e, v).fields.Keys == v.fields.Keys;
      assert Meaning(e, w).fields.Keys == w.fields.Keys;
      SameMembers(e, v, w);
      SameMembersSameText(e, v, w, SortedKeys(v.fields.Keys));
    } else {
      if v.Int? || v.Number? || v.Real? || v.Real32? { NumberText(e, v); }
      if w.Int? || w.Number? || w.Real? || w.Real32? { NumberText(e, w); }
    }
  }

  lemma {:induction false} SameItemsSameText(e: Encoder, v: seq<Json>, w: seq<Json>)
    requires WriteItems(e, v).Ok? && WriteItems(e, w).Ok? && Meanings(e, v) == Meanings(e, w)
    ensures WriteItems(e, v) == WriteItems(e, w)
    decreases v, 0
  {
    assert |v| == |Meanings(e, v)| == |Meanings(e, w)| == |w|;
    if v != [] {
      assert Meanings(e, v)[0] == Meanings(e, w)[0];
      SameMeaningSameText(e, v[0], w[0]);
      assert Meanings(e, v)[1..] == Meanings(e, v[1..]);
      assert Meanings(e, w)[1..] == Meanings(e, w[1..]);
      if |v| > 1 { SameItemsSameText(e, v[1..], w[1..]); }
    }
  }

  lemma {:induction false} SameMembersSameText(e: Encoder, v: Json, w: Json, keys: seq<Bytes>)
    requires v.Obj? && w.Obj?
    requires forall k :: k in keys ==> k in v.fields && k in w.fields
    requires forall k :: k in keys ==> Meaning(e, v.fields[k]) == Meaning(e, w.fields[k])
    requires WriteMembers(e, v, keys).Ok? && WriteMembers(e, w, keys).Ok?
    ensures WriteMembers(e, v, keys) == WriteMembers(e, w, keys)
    decreases v, 0, |keys|
  {
    if keys != [] {
      SameMeaningSameText(e, v.fields[keys[0]], w.fields[keys[0]]);
      if |keys| > 1 { SameMembersSameText(e, v, w, keys[1..]); }
    }
  }

  /** Two values that can be written have the same text exactly when they mean the same. */
  lemma WriterIsUnambiguous(e: Encoder, v: Json, w: Json)
    requires Write(e, v).Ok? && Write(e, w).Ok?
    ensures Write(e, v) == Write(e, w) <==> Meaning(e, v) == Meaning(e, w)
  {
    if Write(e, v) == Write(e, w) {
      SameTextSameMeaning(e, v, w);
    }
    if Meaning(e, v) == Meaning(e, w) {
      SameMeaningSameText(e, v, w);
    }
  }

  // ---- The ASCII flavour is printable --------------------------------------

  predicate Printable(s: Bytes) { forall i :: 0 <= i < |s| ==> 0x20 <= s[i] as int <= 0x7e }

  lemma {:induction false} EscapeRunesPrintable(rs: seq<rune>)
    ensures Printable(EscapeRunes(rs))
  {
    if rs != [] {
      EscapeRunesPrintable(rs[1..]);
      assert Printable(EscapeRune(rs[0]));
    }
  }

  lemma NumberBytesPrintable(s: Bytes)
    requires NumberBytes(s)
    ensures Printable(s)
  {
  }

  lemma AsciiNumberPrintable(e: Encoder, v: Json)
    requires (v.Int? || v.Number? || v.Real? || v.Real32?) && Write(e, v).Ok?
    ensures Printable(Write(e, v).value)
  {
    NumberText(e, v);
    if Meaning(e, v).VInt? {
      SplitOfDecimalInt(Meaning(e, v).n);
    } else {
      FormatIsExact(Meaning(e, v).f);
    }
    TokenIsNumberBytes(Write(e, v).value);
    NumberBytesPrintable(Write(e, v).value);
  }

  lemma AsciiStringPrintable(e: Encoder, s: Bytes)
    requires e.ascii && WriteString(e, s).Ok?
    ensures Printable(WriteString(e, s).value)
  {
    EscapeRunesPrintable(Decode(s).value);
  }

  lemma WrappedPrintable(open: Bytes, body: Bytes, close: Bytes)
    requires Printable(open) && Printable(body) && Printable(close)
    ensures Printable(open + body + close)
  {
  }

  lemma WordsPrintable()
    ensures Printable("null") && Printable("true") && Printable("false")
    ensures Printable("[") && Printable("]") && Printable("{") && Printable("}")
  {
  }

  lemma {:induction false} AsciiPrintable(e: Encoder, v: Json)
    requires e.ascii && Write(e, v).Ok?
    ensures Printable(Write(e, v).value)
    decreases v, 1
  {
    hide Printable, SortedKeys, WriteNumber, FormatCanonicalFloat, WriteString;
    WordsPrintable();
    match v
    case Str(s) => AsciiStringPrintable(e, s);
    case Arr(items) =>
      AsciiItemsPrintable(e, items);
      WrappedPrintable("[", WriteItems(e, items).value, "]");
    case Obj(fields) =>
      var keys := SortedKeys(fields.Keys);
      AsciiMembersPrintable(e, v, keys);
      WrappedPrintable("{", WriteMembers(e, v, keys).value, "}");
    case Int(_) => AsciiNumberPrintable(e, v);
    case Number(_) => AsciiNumberPrintable(e, v);
    case Real(_) => AsciiNumberPrintable(e, v);
    case Real32(_, _) => AsciiNumberPrintable(e, v);
    case _ =>
  }

  lemma {:induction false} AsciiItemsPrintable(e: Encoder, items: seq<Json>)
    requires e.ascii && WriteItems(e, items).Ok?
    ensures Printable(WriteItems(e, items).value)
    decreases items, 0
  {
    if items != [] {
      AsciiPrintable(e, items[0]);
      if |items| > 1 { AsciiItemsPrintable(e, items[1..]); }
    }
  }

  lemma {:induction false} AsciiMembersPrintable(e: Encoder, v: Json, keys: seq<Bytes>)
    requires v.Obj? && (forall k :: k in keys ==> k in v.fields)
    requires e.ascii && WriteMembers(e, v, keys).Ok?
    ensures Printable(WriteMembers(e, v, keys).value)
    decreases v, 0, |keys|
  {
    if keys != [] {
      AsciiStringPrintable(e, keys[0]);
      AsciiPrintable(e, v.fields[keys[0]]);
      assert Printable(WriteMember(e, v, keys[0]).value);
      if |keys| > 1 { AsciiMembersPrintable(e, v, keys[1..]); }
    }
  }

  // ---- Stored bodies -------------------------------------------------------

  /**
    * bodyFromJSON after bodyToJSON: what a SELECT returns for a body that was inserted. Native
    * numbers come back as tokens, nil containers as null.
    */
  function Stored(v: Json): Json {
    match v
    case Int(n) => Number(DecimalInt(n))
    case Real(f) => if f.Finite? then Number(Render(StoredToken(f))) else Null
    case Real32(_, short) => if short.Finite? then Number(Render(StoredToken(short))) else Null
    case NilArr => Null
    case Arr(items) => Arr(StoredItems(items))
    case NilObj => Null
    case Obj(fields) => Obj(map k | k in fields :: Stored(fields[k]))
    case _ => v
  }

  function StoredItems(items: seq<Json>): (r: seq<Json>)
    ensures |r| == |items|
    ensures forall i :: 0 <= i < |items| ==> r[i] == Stored(items[i])
  {
    if items == [] then [] else [Stored(items[0])] + StoredItems(items[1..])
  }

  /** The stored token still looks like a float: it has a fraction or an exponent. */
  predicate KeepsFloat(f: Float) {
    f.Finite? ==> f.digits != [] && (f.exp + 1 < |f.digits| || f.exp >= 21)
  }

  /** The float64 a stored decimal is read back as */
  function ReadBack(e: Encoder, f: Float): Option<Float>
    requires f.Finite?
  {
    e.parse(Render(StoredToken(f)))
  }

  /**
    * No native float in v has an integral value below 1e21, and the shortest decimal of every
    * float32 in v still denotes the same value when it is read as a float64.
    */
  predicate KeepsFloats(e: Encoder, v: Json) {
    match v
    case Real(f) => KeepsFloat(f)
    case Real32(f, short) => KeepsFloat(short) && (short.Finite? ==> ReadBack(e, short) == Some(f))
    case Arr(items) => forall x :: x in items ==> KeepsFloats(e, x)
    case Obj(fields) => forall k :: k in fields ==> KeepsFloats(e, fields[k])
    case _ => true
  }

  /** The native floats in v are Go's: strconv.ParseFloat inverts shortest formatting, and reads every float32. */
  predicate GoFloats(e: Encoder, v: Json) {
    match v
    case Real(f) => f.Finite? ==> ReadBack(e, f) == Some(f)
    case Real32(f, short) =>
      (f.Finite? <==> short.Finite?) && (short.Finite? ==> ReadBack(e, short).Some? && ReadBack(e, short).value.Finite?)
    case Arr(items) => forall x :: x in items ==> GoFloats(e, x)
    case Obj(fields) => forall k :: k in fields ==> GoFloats(e, fields[k])
    case _ => true
  }

  lemma StoredTokenKind(f: Float)
    requires f.Finite?
    ensures KeepsFloat(f) <==> StoredToken(f).frac.Some? || StoredToken(f).exp.Some?
  {
  }

  /** A token that can be split is written, as an integer or through strconv.ParseFloat. */
  lemma TokenKind(e: Encoder, t: Token, f: Float)
    requires WellFormed(t) && f.Finite? && e.parse(Render(t)) == Some(f)
    ensures WriteNumber(e, Render(t)).Ok?
    ensures NumberMeaning(e, Render(t)) == VReal(f) <==> t.frac.Some? || t.exp.Some?
    ensures NumberMeaning(e, Render(t)).VReal? <==> t.frac.Some? || t.exp.Some?
    ensures NumberMeaning(e, Render(t)).VReal? ==> NumberMeaning(e, Render(t)).f == f
  {
    SplitOf(t);
    IntegerTokenOf(t);
  }

  /** A stored decimal means the float64 it is read back as, unless it looks like an integer. */
  lemma StoredFloat(e: Encoder, f: Float, short: Float)
    requires short.Finite? && ReadBack(e, short).Some? && ReadBack(e, short).value.Finite?
    ensures WriteNumber(e, Render(StoredToken(short))).Ok?
    ensures NumberMeaning(e, Render(StoredToken(short))) == VReal(f) <==>
              KeepsFloat(short) && ReadBack(e, short) == Some(f)
  {
    StoredTokenExact(short);
    StoredTokenKind(short);
    TokenKind(e, StoredToken(short), ReadBack(e, short).value);
  }

  lemma StoredInt(e: Encoder, n: int)
    ensures Write(e, Stored(Int(n))).Ok? && Meaning(e, Stored(Int(n))) == VInt(n)
  {
    SplitOfDecimalInt(n);
  }

  /** A stored body means what was inserted exactly when its native floats keep their kind and value. */
  lemma {:induction false} StoredMeaning(e: Encoder, v: Json)
    requires GoFloats(e, v) && Write(e, v).Ok?
    ensures Write(e, Stored(v)).Ok?
    ensures Meaning(e, Stored(v)) == Meaning(e, v) <==> KeepsFloats(e, v)
    decreases v, 1
  {
    match v
    case Int(n) => StoredInt(e, n);
    case Real(f) => StoredFloat(e, f, f);
    case Real32(f, short) => StoredFloat(e, f, short);
    case Arr(items) => StoredItemsMeaning(e, items);
    case Obj(fields) => StoredObjMeaning(e, v);
    case _ =>
  }

  lemma {:induction false} StoredItemsMeaning(e: Encoder, items: seq<Json>)
    requires (forall x :: x in items ==> GoFloats(e, x)) && WriteItems(e, items).Ok?
    ensures WriteItems(e, StoredItems(items)).Ok?
    ensures Meanings(e, StoredItems(items)) == Meanings(e, items) <==> forall x :: x in items ==> KeepsFloats(e, x)
    decreases items, 0
  {
    if items != [] {
      var s, rest := StoredItems(items), items[1..];
      StoredMeaning(e, items[0]);
      StoredItemsMeaning(e, rest);
      assert s[0] == Stored(items[0]) && s[1..] == StoredItems(rest);
      assert Meanings(e, s) == [Meaning(e, s[0])] + Meanings(e, StoredItems(rest));
      assert Meanings(e, items) == [Meaning(e, items[0])] + Meanings(e, rest);
      assert Meanings(e, s)[1..] == Meanings(e, StoredItems(rest));
      assert Meanings(e, items)[1..] == Meanings(e, rest);
      assert forall x :: x in items <==> x == items[0] || x in rest;
    }
  }

  lemma {:induction false} StoredMembersWritable(e: Encoder, v: Json, keys: seq<Bytes>)
    requires v.Obj? && (forall k :: k in keys ==> k in v.fields)
    requires GoFloats(e, v) && WriteMembers(e, v, keys).Ok?
    ensures WriteMembers(e, Stored(v), keys).Ok?
    ensures forall k :: k in keys ==> Write(e, v.fields[k]).Ok?
    decreases v, 0, |keys|
  {
    if keys != [] {
      StoredMeaning(e, v.fields[keys[0]]);
      if |keys| > 1 { StoredMembersWritable(e, v, keys[1..]); }
      assert forall k :: k in keys ==> k == keys[0] || k in keys[1..];
    }
  }

  lemma MapsEqual<K, V>(a: map<K, V>, b: map<K, V>)
    requires a.Keys == b.Keys
    ensures a == b <==> forall k :: k in a ==> a[k] == b[k]
  {
  }

  lemma ObjectMeaning(e: Encoder, v: Json)
    requires v.Obj?
    ensures Meaning(e, v).VObj? && Meaning(e, v).fields.Keys == v.fields.Keys
    ensures forall k :: k in v.fields ==> Meaning(e, v).fields[k] == Meaning(e, v.fields[k])
  {
  }

  /** Objects mean the same exactly when their members do. */
  lemma SameMembers(e: Encoder, v: Json, w: Json)
    requires v.Obj? && w.Obj? && v.fields.Keys == w.fields.Keys
    ensures Meaning(e, v) == Meaning(e, w) <==>
            forall k :: k in v.fields ==> Meaning(e, v.fields[k]) == Meaning(e, w.fields[k])
  {
    hide *;
    ObjectMeaning(e, v);
    ObjectMeaning(e, w);
    MapsEqual(Meaning(e, v).fields, Meaning(e, w).fields);
  }

  lemma StoredFields(v: Json)
    requires v.Obj?
    ensures Stored(v).Obj? && Stored(v).fields.Keys == v.fields.Keys
    ensures forall k :: k in v.fields ==> Stored(v).fields[k] == Stored(v.fields[k])
  {
  }

  lemma ObjectWrites(e: Encoder, v: Json)
    requires v.Obj?
    ensures Write(e, v).Ok? <==> WriteMembers(e, v, SortedKeys(v.fields.Keys)).Ok?
  {
  }

  lemma MembersWrite(e: Encoder, v: Json, keys: seq<Bytes>)
    requires v.Obj? && (forall k :: k in keys ==> k in v.fields)
    ensures WriteMembers(e, v, keys).Ok? <==> forall k :: k in keys ==> WriteMember(e, v, k).Ok?
    decreases |keys|
  {
    if keys != [] {
      var rest := keys[1..];
      assert forall k :: k in keys <==> k == keys[0] || k in rest;
      MembersWrite(e, v, rest);
      assert rest == [] ==> WriteMembers(e, v, rest) == Ok("");
      assert WriteMembers(e, v, keys).Ok? <==> WriteMember(e, v, keys[0]).Ok? && WriteMembers(e, v, rest).Ok?;
    }
  }

  /** An object can be written exactly when all its members can. */
  lemma ObjectMembersWrite(e: Encoder, v: Json)
    requires v.Obj?
    ensures Write(e, v).Ok? <==> forall k :: k in v.fields ==> WriteString(e, k).Ok? && Write(e, v.fields[k]).Ok?
  {
    ObjectWrites(e, v);
    MembersWrite(e, v, SortedKeys(v.fields.Keys));
    forall k | k in v.fields
      ensures WriteMember(e, v, k).Ok? <==> WriteString(e, k).Ok? && Write(e, v.fields[k]).Ok?
    {
    }
  }

  lemma ObjectFloats(e: Encoder, v: Json)
    requires v.Obj?
    ensures KeepsFloats(e, v) <==> forall k :: k in v.fields ==> KeepsFloats(e, v.fields[k])
    ensures GoFloats(e, v) <==> forall k :: k in v.fields ==> GoFloats(e, v.fields[k])
  {
  }

  lemma {:induction false} StoredObjMeaning(e: Encoder, v: Json)
    requires v.Obj? && GoFloats(e, v) && Write(e, v).Ok?
    ensures Write(e, Stored(v)).Ok?
    ensures Meaning(e, Stored(v)) == Meaning(e, v) <==> KeepsFloats(e, v)
    decreases v, 0, |v.fields| + 1
  {
    hide *;
    var s := Stored(v);
    StoredFields(v);
    ObjectWrites(e, v);
    ObjectWrites(e, s);
    ObjectFloats(e, v);
    StoredMembersWritable(e, v, SortedKeys(v.fields.Keys));
    forall k | k in v.fields
      ensures Meaning(e, s.fields[k]) == Meaning(e, v.fields[k]) <==> KeepsFloats(e, v.fields[k])
    {
      StoredMeaning(e, v.fields[k]);
    }
    SameMembers(e, s, v);
  }

  /** A body read back re-digests to the same text exactly when its native floats keep their kind and value. */
  lemma StoredTextUnchanged(e: Encoder, v: Json)
    requires GoFloats(e, v) && Write(e, v).Ok?
    ensures Write(e, Stored(v)).Ok?
    ensures Write(e, Stored(v)) == Write(e, v) <==> KeepsFloats(e, v)
  {
    StoredMeaning(e, v);
    WriterIsUnambiguous(e, Stored(v), v);
  }

  lemma UnsignedText(whole: Bytes, frac: Bytes)
    ensures Render(Token(false, whole, None, None)) == whole
    ensures Render(Token(false, whole, Some(frac), None)) == whole + ("." + frac)
  {
    assert RenderTail(None, None) == "" && RenderTail(Some(frac), None) == "." + frac;
  }

  lemma IntegerWritten(e: Encoder, t: Token)
    requires WellFormed(t) && t.frac.None? && t.exp.None? && Render(t) != "-0"
    ensures WriteNumber(e, Render(t)) == Ok(Render(t))
  {
    SplitOf(t);
    IntegerTokenOf(t);
  }

  lemma FloatWritten(e: Encoder, t: Token, f: Float)
    requires WellFormed(t) && t.frac.Some? && f.Finite? && e.parse(Render(t)) == Some(f)
    ensures WriteNumber(e, Render(t)) == Ok(Render(CanonicalToken(f)))
  {
    SplitOf(t);
    IntegerTokenOf(t);
  }

  lemma OneTokens()
    ensures var f: Float := Finite(false, "1", 0);
            CanonicalToken(f) == Token(false, "1", Some("0"), None) && StoredToken(f) == Token(false, "1", None, None)
  {
    assert "1" + Zeros(0) == "1";
  }

  /** The float64 1.0 is written as 1.0 but comes back from the store as the integer 1. */
  lemma IntegralFloatChanges(e: Encoder)
    ensures var one := Real(Finite(false, "1", 0));
            Write(e, one) == Ok("1.0") && Stored(one) == Number("1") && Write(e, Stored(one)) == Ok("1")
  {
    OneTokens();
    UnsignedText("1", "0");
    assert "1" + ("." + "0") == "1.0";
    var t := Token(false, "1", None, None);
    assert WellFormed(t);
    hide CanonicalToken, StoredToken, Render, WriteNumber;
    IntegerWritten(e, t);
  }

  lemma TenthTokens()
    ensures var f: Float := Finite(false, "10000000149011612", -1);
            CanonicalToken(f) == Token(false, "0", Some("10000000149011612"), None)
    ensures var f: Float := Finite(false, "1", -1);
            CanonicalToken(f) == Token(false, "0", Some("1"), None) == StoredToken(f)
  {
    assert Zeros(0) + "1" == "1" && Zeros(0) + "10000000149011612" == "10000000149011612";
  }

  lemma TenthTexts()
    ensures "0" + ("." + "10000000149011612") == "0.10000000149011612" && "0" + ("." + "1") == "0.1"
  {
  }

  lemma TenthToken(e: Encoder)
    requires e.parse("0.1") == Some(Finite(false, "1", -1))
    ensures var short: Float := Finite(false, "1", -1);
            && Render(StoredToken(short)) == "0.1" && WriteNumber(e, "0.1") == Ok("0.1")
  {
    TenthTokens();
    TenthTexts();
    UnsignedText("0", "1");
    var t := Token(false, "0", Some("1"), None);
    assert WellFormed(t);
    hide CanonicalToken, StoredToken, Render, WriteNumber;
    FloatWritten(e, t, Finite(false, "1", -1));
  }

  lemma TenthText()
    ensures var f: Float := Finite(false, "10000000149011612", -1); Render(CanonicalToken(f)) == "0.10000000149011612"
  {
    hide *;
    TenthTokens();
    TenthTexts();
    UnsignedText("0", "10000000149011612");
  }

  /** The float32 nearest to 0.1 is written with the digits of its float64 value, and comes back as 0.1. */
  lemma NarrowFloatChanges(e: Encoder)
    requires e.parse("0.1") == Some(Finite(false, "1", -1))
    ensures var tenth := Real32(Finite(false, "10000000149011612", -1), Finite(false, "1", -1));
            && Write(e, tenth) == Ok("0.10000000149011612")
            && Stored(tenth) == Number("0.1")
            && Write(e, Stored(tenth)) == Ok("0.1")
  {
    TenthToken(e);
    TenthText();
    hide CanonicalToken, StoredToken, Render, WriteNumber;
  }
}
