/** The canonical writer and a reader. */
module Canonical {
  import opened Wrappers
  import opened Seqs
  import opened Sorting
  import opened Utf8
  import opened Numbers

  /**
    * A Go value the writer accepts: trees of nil, booleans, numbers, strings, slices and string-keyed
    * maps. A float32 is given by its value as a float64 and by its own shortest decimal.
    */
  datatype Json =
    | Null
    | Bool(b: bool)
    | Int(n: int)
    | Number(token: Bytes)
    | Real(f: Float)
    | Real32(f: Float, short: Float)
    | Str(s: Bytes)
    | NilArr
    | Arr(items: seq<Json>)
    | NilObj
    | Obj(fields: map<Bytes, Json>)

  /** What a JSON text denotes: numbers by value, objects by their members. */
  datatype Val =
    | VNull
    | VBool(b: bool)
    | VInt(n: int)
    | VReal(f: RawFloat)
    | VStr(s: Bytes)
    | VArr(items: seq<Val>)
    | VObj(fields: map<Bytes, Val>)

  /** One encoding pass: the escaping flavour, and strconv.ParseFloat for number tokens. */
  datatype Encoder = Encoder(ascii: bool, parse: Bytes -> Option<Float>)

  // ---- Strings -------------------------------------------------------------

  function HexDigit(n: int): byte
    requires 0 <= n < 16
  {
    if n < 10 then Byte('0' as int + n) else Byte('a' as int + n - 10)
  }

  /** The \uXXXX escape with lowercase digits */
  function HexEscape(n: int): (s: Bytes)
    requires 0 <= n < 0x10000
    ensures |s| == 6
  {
    ['\\', 'u', HexDigit(n / 4096), HexDigit(n / 256 % 16), HexDigit(n / 16 % 16), HexDigit(n % 16)]
  }

  /** The letter of a two-character escape */
  function ShortEscape(c: int): Option<byte> {
    if c == 0x22 then Some('"')
    else if c == 0x5C then Some('\\')
    else if c == 8 then Some('b')
    else if c == 12 then Some('f')
    else if c == 10 then Some('n')
    else if c == 13 then Some('r')
    else if c == 9 then Some('t')
    else None
  }

  function EscapeByte(c: byte): Bytes {
    var short := ShortEscape(c as int);
    if short.Some? then ['\\', short.value]
    else if c as int < 0x20 then HexEscape(c as int)
    else [c]
  }

  function EscapeRune(r: rune): Bytes {
    var short := ShortEscape(r);
    if short.Some? then ['\\', short.value]
    else if r < 0x20 || r == 0x7f then HexEscape(r)
    else if r < 0x80 then [Byte(r)]
    else if r > 0xFFFF then HexEscape(0xD800 + (r - 0x10000) / 1024) + HexEscape(0xDC00 + (r - 0x10000) % 1024)
    else HexEscape(r)
  }

  function EscapeBytes(s: Bytes): Bytes {
    if s == [] then [] else EscapeByte(s[0]) + EscapeBytes(s[1..])
  }

  function EscapeRunes(rs: seq<rune>): Bytes {
    if rs == [] then [] else EscapeRune(rs[0]) + EscapeRunes(rs[1..])
  }

  /** The characters between the quotes, for a valid string */
  function EscapeText(e: Encoder, s: Bytes): Bytes
    requires ValidString(s)
  {
    if e.ascii then EscapeRunes(Decode(s).value) else EscapeBytes(s)
  }

  /** writeCanonicalString */
  function WriteString(e: Encoder, s: Bytes): Result<Bytes> {
    if ValidString(s) then Ok("\"" + EscapeText(e, s) + "\"") else Err(NotCanonical)
  }

  function HexValue(c: byte): (r: Option<int>)
    ensures r.Some? ==> 0 <= r.value < 16
  {
    if '0' <= c <= '9' then Some(c as int - '0' as int)
    else if 'a' <= c <= 'f' then Some(c as int - 'a' as int + 10)
    else if 'A' <= c <= 'F' then Some(c as int - 'A' as int + 10)
    else None
  }

  /** The code unit of a \uXXXX escape at the start of b */
  function ReadUnit(b: Bytes): (r: Option<int>)
    ensures r.Some? ==> 0 <= r.value < 0x10000 && |b| >= 6
  {
    if |b| < 6 || b[0] != '\\' || b[1] != 'u' then None else
      var d0 :- HexValue(b[2]);
      var d1 :- HexValue(b[3]);
      var d2 :- HexValue(b[4]);
      var d3 :- HexValue(b[5]);
      Some(d0 * 4096 + d1 * 256 + d2 * 16 + d3)
  }

  function ShortUnescape(c: byte): Option<byte> {
    if c == '"' || c == '\\' || c == '/' then Some(c)
    else if c == 'b' then Some(Byte(8))
    else if c == 'f' then Some(Byte(12))
    else if c == 'n' then Some(Byte(10))
    else if c == 'r' then Some(Byte(13))
    else if c == 't' then Some(Byte(9))
    else None
  }

  /** Section 7 of RFC 8259: one escape, as the UTF-8 it stands for and the number of bytes read. */
  function ReadEscape(b: Bytes): (r: Option<(Bytes, nat)>)
    ensures r.Some? ==> 0 < r.value.1 <= |b|
  {
    if |b| < 2 || b[0] != '\\' then None
    else if b[1] != 'u' then
      var c :- ShortUnescape(b[1]);
      Some(([c], 2))
    else
      var unit :- ReadUnit(b);
      if 0xD800 <= unit < 0xDC00 then
        var low :- ReadUnit(b[6..]);
        if 0xDC00 <= low < 0xE000
        then Some((Encode(0x10000 + (unit - 0xD800) * 1024 + (low - 0xDC00)), 12))
        else None
      else if 0xDC00 <= unit < 0xE000 then None
      else Some((Encode(unit), 6))
  }

  /** The rest of a string after its opening quote, and what follows the closing one. */
  function ReadChars(b: Bytes): (r: Option<(Bytes, Bytes)>)
    ensures r.Some? ==> |r.value.1| < |b|
    decreases |b|
  {
    if b == [] || b[0] as int < 0x20 then None
    else if b[0] == '"' then Some(([], b[1..]))
    else if b[0] == '\\' then
      var esc :- ReadEscape(b);
      var more :- ReadChars(b[esc.1..]);
      Some((esc.0 + more.0, more.1))
    else
      var more :- ReadChars(b[1..]);
      Some(([b[0]] + more.0, more.1))
  }

  function ReadString(b: Bytes): (r: Option<(Bytes, Bytes)>)
    ensures r.Some? ==> |r.value.1| < |b|
  {
    if b == [] || b[0] != '"' then None else
      var r :- ReadChars(b[1..]);
      if ValidString(r.0) then Some(r) else None
  }

  lemma Base16(n: nat)
    ensures n / 4096 * 4096 + n / 256 % 16 * 256 + n / 16 % 16 * 16 + n % 16 == n
  {
    assert n / 256 == n / 16 / 16;
    assert n / 4096 == n / 256 / 16;
  }

  lemma HexValueOfDigit(n: int)
    requires 0 <= n < 16
    ensures HexValue(HexDigit(n)) == Some(n)
  {
  }

  lemma ReadUnitOfHexEscape(n: int, rest: Bytes)
    requires 0 <= n < 0x10000
    ensures ReadUnit(HexEscape(n) + rest) == Some(n)
  {
    Base16(n);
    HexValueOfDigit(n / 4096);
    HexValueOfDigit(n / 256 % 16);
    HexValueOfDigit(n / 16 % 16);
    HexValueOfDigit(n % 16);
  }

  /** Escaped by the ASCII flavour, rather than written as itself */
  predicate NeedsEscape(r: rune) { ShortEscape(r).Some? || r < 0x20 || r >= 0x7f }

  lemma ReadEscapeOfPair(r: rune, rest: Bytes)
    requires r > 0xFFFF
    ensures ReadEscape(EscapeRune(r) + rest) == Some((Encode(r), 12)) && |EscapeRune(r)| == 12
  {
    var hi, lo := 0xD800 + (r - 0x10000) / 1024, 0xDC00 + (r - 0x10000) % 1024;
    var b := EscapeRune(r) + rest;
    Associate(HexEscape(hi), HexEscape(lo), rest);
    ReadUnitOfHexEscape(hi, HexEscape(lo) + rest);
    ReadUnitOfHexEscape(lo, rest);
    Unjoin(HexEscape(hi), HexEscape(lo) + rest);
    SurrogateValue(r);
    assert b == HexEscape(hi) + (HexEscape(lo) + rest) && b[0] == '\\' && b[1] == 'u';
    ReadPair(b, hi, lo);
  }

  /** A high and a low surrogate escape stand for one scalar value. */
  lemma ReadPair(b: Bytes, hi: int, lo: int)
    requires |b| >= 12 && b[0] == '\\' && b[1] == 'u'
    requires 0xD800 <= hi < 0xDC00 && 0xDC00 <= lo < 0xE000
    requires ReadUnit(b) == Some(hi) && ReadUnit(b[6..]) == Some(lo)
    ensures ReadEscape(b) == Some((Encode(0x10000 + (hi - 0xD800) * 1024 + (lo - 0xDC00)), 12))
  {
    hide ReadUnit, Encode;
  }

  lemma SurrogateValue(r: rune)
    requires r > 0xFFFF
    ensures var hi, lo := 0xD800 + (r - 0x10000) / 1024, 0xDC00 + (r - 0x10000) % 1024;
            0xD800 <= hi < 0xDC00 && 0xDC00 <= lo < 0xE000 && 0x10000 + (hi - 0xD800) * 1024 + (lo - 0xDC00) == r
  {
  }

  lemma ReadEscapeOfUnit(r: rune, rest: Bytes)
    requires r <= 0xFFFF
    ensures ReadEscape(HexEscape(r) + rest) == Some((Encode(r), 6))
  {
    ReadUnitOfHexEscape(r, rest);
    assert (HexEscape(r) + rest)[1] == 'u';
  }

  lemma ReadEscapeOfRune(r: rune, rest: Bytes)
    requires NeedsEscape(r)
    ensures ReadEscape(EscapeRune(r) + rest) == Some((Encode(r), |EscapeRune(r)|))
  {
    if ShortEscape(r).Some? {
      assert (EscapeRune(r) + rest)[1] == ShortEscape(r).value;
    } else if r > 0xFFFF {
      ReadEscapeOfPair(r, rest);
    } else {
      ReadEscapeOfUnit(r, rest);
    }
  }

  /** Reading one escaped scalar value yields its UTF-8. */
  lemma ReadCharsOfRune(r: rune, rest: Bytes)
    ensures ReadChars(EscapeRune(r) + rest) ==
            var more := ReadChars(rest);
            if more.None? then None else Some((Encode(r) + more.value.0, more.value.1))
  {
    var e := EscapeRune(r);
    assert (e + rest)[|e|..] == rest;
    if !NeedsEscape(r) {
      assert Encode(r) == e;
    } else {
      ReadEscapeOfRune(r, rest);
      assert (e + rest)[0] == '\\';
    }
  }

  lemma {:induction false} ReadCharsOfRunes(rs: seq<rune>, rest: Bytes)
    ensures ReadChars(EscapeRunes(rs) + ("\"" + rest)) == Some((EncodeAll(rs), rest))
  {
    if rs == [] {
      assert EscapeRunes(rs) + ("\"" + rest) == "\"" + rest;
    } else {
      var tail := EscapeRunes(rs[1..]) + ("\"" + rest);
      assert EscapeRunes(rs) + ("\"" + rest) == EscapeRune(rs[0]) + tail;
      ReadCharsOfRune(rs[0], tail);
      ReadCharsOfRunes(rs[1..], rest);
    }
  }

  lemma ReadCharsOfByte(c: byte, rest: Bytes)
    ensures ReadChars(EscapeByte(c) + rest) ==
            var more := ReadChars(rest);
            if more.None? then None else Some(([c] + more.value.0, more.value.1))
  {
    var e := EscapeByte(c);
    if c as int < 0x20 || ShortEscape(c as int).Some? {
      assert e == EscapeRune(c as int) && Encode(c as int) == [c];
      ReadCharsOfRune(c as int, rest);
    } else {
      assert (e + rest)[1..] == rest;
    }
  }

  lemma {:induction false} ReadCharsOfBytes(s: Bytes, rest: Bytes)
    ensures ReadChars(EscapeBytes(s) + ("\"" + rest)) == Some((s, rest))
  {
    if s == [] {
      assert EscapeBytes(s) + ("\"" + rest) == "\"" + rest;
    } else {
      var tail := EscapeBytes(s[1..]) + ("\"" + rest);
      assert EscapeBytes(s) + ("\"" + rest) == EscapeByte(s[0]) + tail;
      ReadCharsOfByte(s[0], tail);
      ReadCharsOfBytes(s[1..], rest);
      assert [s[0]] + s[1..] == s;
    }
  }

  /** A written string of either flavour reads back as itself. */
  lemma ReadStringOfWrite(e: Encoder, s: Bytes, rest: Bytes)
    requires WriteString(e, s).Ok?
    ensures ReadString(WriteString(e, s).value + rest) == Some((s, rest))
    ensures WriteString(e, s).value[0] == '"'
  {
    var b := WriteString(e, s).value + rest;
    assert b[1..] == EscapeText(e, s) + ("\"" + rest);
    if e.ascii {
      ReadCharsOfRunes(Decode(s).value, rest);
    } else {
      ReadCharsOfBytes(s, rest);
    }
  }

  // ---- Writing values ------------------------------------------------------

  /** The json.Number case of writeCanonicalValue */
  function WriteNumber(e: Encoder, token: Bytes): Result<Bytes> {
    if Split(token).None? then Err(NotCanonical)
    else if IsIntegerToken(token) then Ok(if token == "-0" then "0" else token)
    else
      match e.parse(token)
      case Some(f) => FormatCanonicalFloat(f)
      case None => Err(NotCanonical)
  }

  /** Keys in bytewise order, which is code-point order */
  function SortedKeys(keys: set<Bytes>): (r: seq<Bytes>)
    ensures Increasing(Less, r)
    ensures forall k :: k in r <==> k in keys
    ensures |r| == |keys|
  {
    LessIsStrictTotal();
    SortSet(Less, keys)
  }

  /** writeCanonicalValue on a tree */
  function Write(e: Encoder, v: Json): Result<Bytes>
    decreases v, 1
  {
    match v
    case Null => Ok("null")
    case Bool(b) => Ok(if b then "true" else "false")
    case Int(n) => Ok(DecimalInt(n))
    case Number(token) => WriteNumber(e, token)
    case Real(f) => FormatCanonicalFloat(f)
    case Real32(f, _) => FormatCanonicalFloat(f)
    case Str(s) => WriteString(e, s)
    case NilArr => Ok("null")
    case Arr(items) =>
      var body :- WriteItems(e, items);
      Ok("[" + body + "]")
    case NilObj => Ok("null")
    case Obj(fields) =>
      var body :- WriteMembers(e, v, SortedKeys(fields.Keys));
      Ok("{" + body + "}")
  }

  function WriteItems(e: Encoder, items: seq<Json>): Result<Bytes>
    decreases items, 0
  {
    if items == [] then Ok("") else
      var first :- Write(e, items[0]);
      if |items| == 1 then Ok(first) else
        var more :- WriteItems(e, items[1..]);
        Ok(first + "," + more)
  }

  function WriteMember(e: Encoder, v: Json, k: Bytes): Result<Bytes>
    requires v.Obj? && k in v.fields
    decreases v, 0, 0
  {
    var name :- WriteString(e, k);
    var value :- Write(e, v.fields[k]);
    Ok(name + ":" + value)
  }

  function WriteMembers(e: Encoder, v: Json, keys: seq<Bytes>): Result<Bytes>
    requires v.Obj? && forall k :: k in keys ==> k in v.fields
    decreases v, 0, |keys|
  {
    if keys == [] then Ok("") else
      var first :- WriteMember(e, v, keys[0]);
      if |keys| == 1 then Ok(first) else
        var more :- WriteMembers(e, v, keys[1..]);
        Ok(first + "," + more)
  }

  // ---- What a value means --------------------------------------------------

  /** The value of a number token; NaN stands for a float token strconv.ParseFloat refuses. */
  function NumberMeaning(e: Encoder, token: Bytes): Val {
    match Split(token)
    case None => VNull
    case Some(t) =>
      if IsIntegerToken(token) then VInt(IntegerValue(t))
      else VReal(match e.parse(token) case Some(f) => f case None => NaN)
  }

  /** The JSON value a Go value stands for: nil containers are null and -0 is 0. */
  function Meaning(e: Encoder, v: Json): Val {
    match v
    case Null => VNull
    case Bool(b) => VBool(b)
    case Int(n) => VInt(n)
    case Number(token) => NumberMeaning(e, token)
    case Real(f) => VReal(f)
    case Real32(f, _) => VReal(f)
    case Str(s) => VStr(s)
    case NilArr => VNull
    case Arr(items) => VArr(Meanings(e, items))
    case NilObj => VNull
    case Obj(fields) => VObj(map k | k in fields :: Meaning(e, fields[k]))
  }

  function Meanings(e: Encoder, items: seq<Json>): (r: seq<Val>)
    ensures |r| == |items|
    ensures forall i :: 0 <= i < |items| ==> r[i] == Meaning(e, items[i])
  {
    if items == [] then [] else [Meaning(e, items[0])] + Meanings(e, items[1..])
  }

  // ---- Reading values: RFC 8259 --------------------------------------------

  predicate IsSpace(c: byte) { c == ' ' || c == '\t' || c == '\n' || c == '\r' }

  function SkipSpace(b: Bytes): (r: Bytes)
    ensures |r| <= |b|
  {
    if b != [] && IsSpace(b[0]) then SkipSpace(b[1..]) else b
  }

  predicate IsNumberByte(c: byte) {
    IsDigit(c) || c == '+' || c == '-' || c == '.' || c == 'e' || c == 'E'
  }

  function NumberSpan(b: Bytes): (n: nat)
    ensures n <= |b|
  {
    if b != [] && IsNumberByte(b[0]) then 1 + NumberSpan(b[1..]) else 0
  }

  function TokenValue(token: Bytes): Option<Val> {
    var t :- Split(token);
    Some(if IsIntegerToken(token) then VInt(IntegerValue(t)) else VReal(DecimalValue(t)))
  }

  function ReadLiteral(b: Bytes, word: Bytes, v: Val): Option<(Val, Bytes)> {
    if word <= b then Some((v, b[|word|..])) else None
  }

  function ReadNumber(b: Bytes): Option<(Val, Bytes)> {
    var n := NumberSpan(b);
    var v :- TokenValue(b[..n]);
    Some((v, b[n..]))
  }

  /** One JSON value and what follows it */
  function ReadValue(text: Bytes): (r: Option<(Val, Bytes)>)
    ensures r.Some? ==> |r.value.1| < |text|
    decreases |text|, 2
  {
    var b := SkipSpace(text);
    if b == [] then None
    else if b[0] == 'n' then ReadLiteral(b, "null", VNull)
    else if b[0] == 't' then ReadLiteral(b, "true", VBool(true))
    else if b[0] == 'f' then ReadLiteral(b, "false", VBool(false))
    else if b[0] == '"' then
      var s :- ReadString(b);
      Some((VStr(s.0), s.1))
    else if b[0] == '[' then ReadArray(b[1..])
    else if b[0] == '{' then ReadObject(b[1..])
    else if !IsNumberByte(b[0]) then None
    else ReadNumber(b)
  }

  function ReadArray(b: Bytes): (r: Option<(Val, Bytes)>)
    ensures r.Some? ==> |r.value.1| < |b|
    decreases |b|, 5
  {
    var c := SkipSpace(b);
    if c != [] && c[0] == ']' then Some((VArr([]), c[1..])) else
      var items :- ReadItems(b);
      Some((VArr(items.0), items.1))
  }

  function ReadObject(b: Bytes): (r: Option<(Val, Bytes)>)
    ensures r.Some? ==> |r.value.1| < |b|
    decreases |b|, 5
  {
    var c := SkipSpace(b);
    if c != [] && c[0] == '}' then Some((VObj(map[]), c[1..])) else
      var members :- ReadMembers(b);
      Some((VObj(members.0), members.1))
  }

  function ReadItems(text: Bytes): (r: Option<(seq<Val>, Bytes)>)
    ensures r.Some? ==> |r.value.1| < |text|
    decreases |text|, 3
  {
    var first :- ReadValue(text);
    var c := SkipSpace(first.1);
    if c == [] then None
    else if c[0] == ']' then Some(([first.0], c[1..]))
    else if c[0] != ',' then None
    else
      var more :- ReadItems(c[1..]);
      Some(([first.0] + more.0, more.1))
  }

  function ReadMember(text: Bytes): (r: Option<((Bytes, Val), Bytes)>)
    ensures r.Some? ==> |r.value.1| < |text|
    decreases |text|, 3
  {
    var name :- ReadString(SkipSpace(text));
    var c := SkipSpace(name.1);
    if c == [] || c[0] != ':' then None else
      var value :- ReadValue(c[1..]);
      Some(((name.0, value.0), value.1))
  }

  /** Members in order; of equal names the last one counts. */
  function ReadMembers(text: Bytes): (r: Option<(map<Bytes, Val>, Bytes)>)
    ensures r.Some? ==> |r.value.1| < |text|
    decreases |text|, 4
  {
    var first :- ReadMember(text);
    var c := SkipSpace(first.1);
    if c == [] then None
    else if c[0] == '}' then Some((map[first.0.0 := first.0.1], c[1..]))
    else if c[0] != ',' then None
    else
      var more :- ReadMembers(c[1..]);
      Some((map[first.0.0 := first.0.1] + more.0, more.1))
  }

  // ---- The writer is unambiguous -------------------------------------------

  /** Text that can follow a value inside a JSON text */
  predicate Delimited(rest: Bytes) { rest == [] || rest[0] == ',' || rest[0] == ']' || rest[0] == '}' }

  /** Text that starts a value rather than ending a container */
  predicate StartsValue(w: Bytes) { w != [] && !IsSpace(w[0]) && w[0] != ']' && w[0] != '}' }

  lemma {:induction false} NumberSpanOf(token: Bytes, rest: Bytes)
    requires NumberBytes(token)
    requires Delimited(rest)
    ensures NumberSpan(token + rest) == |token|
  {
    if token == [] {
      assert token + rest == rest;
    } else {
      assert (token + rest)[1..] == token[1..] + rest;
      NumberSpanOf(token[1..], rest);
    }
  }

  predicate NumberBytes(s: Bytes) { forall i :: 0 <= i < |s| ==> IsNumberByte(s[i]) }

  lemma ConcatNumberBytes(a: Bytes, b: Bytes)
    requires NumberBytes(a) && NumberBytes(b)
    ensures NumberBytes(a + b)
  {
  }

  lemma TokenIsNumberBytes(s: Bytes)
    requires Split(s).Some?
    ensures s != [] && NumberBytes(s)
  {
    SplitSound(s);
    var t := Split(s).value;
    if t.exp.Some? {
      ConcatNumberBytes(t.exp.value.sign, t.exp.value.digits);
      ConcatNumberBytes([t.exp.value.mark], t.exp.value.sign + t.exp.value.digits);
    }
    if t.frac.Some? {
      ConcatNumberBytes(".", t.frac.value);
    }
    assert NumberBytes(t.whole);
    ConcatNumberBytes(RenderFrac(t.frac), RenderExp(t.exp));
    ConcatNumberBytes(t.whole, RenderTail(t.frac, t.exp));
    ConcatNumberBytes(Sign(t.neg), t.whole + RenderTail(t.frac, t.exp));
  }

  lemma ReadToken(token: Bytes, rest: Bytes)
    requires TokenValue(token).Some? && Delimited(rest)
    ensures ReadValue(token + rest) == Some((TokenValue(token).value, rest))
    ensures StartsValue(token)
  {
    TokenIsNumberBytes(token);
    NumberSpanOf(token, rest);
    Unjoin(token, rest);
    ReadsNumber(token + rest);
  }

  lemma ReadsNumber(b: Bytes)
    requires b != [] && IsNumberByte(b[0])
    ensures ReadValue(b) == ReadNumber(b)
  {
    var c := b[0];
    assert SkipSpace(b) == b;
    assert c != 'n' && c != 't' && c != 'f' && c != '"' && c != '[' && c != '{';
  }

  lemma ReadInt(n: int, rest: Bytes)
    requires Delimited(rest)
    ensures ReadValue(DecimalInt(n) + rest) == Some((VInt(n), rest)) && StartsValue(DecimalInt(n))
  {
    SplitOfDecimalInt(n);
    ReadToken(DecimalInt(n), rest);
  }

  lemma ReadReal(f: Float, rest: Bytes)
    requires f.Finite? && Delimited(rest)
    ensures ReadValue(Render(CanonicalToken(f)) + rest) == Some((VReal(f), rest))
    ensures StartsValue(Render(CanonicalToken(f)))
  {
    FormatIsExact(f);
    ReadToken(Render(CanonicalToken(f)), rest);
  }

  lemma ReadWrittenNumber(e: Encoder, token: Bytes, rest: Bytes)
    requires WriteNumber(e, token).Ok? && Delimited(rest)
    ensures ReadValue(WriteNumber(e, token).value + rest) == Some((NumberMeaning(e, token), rest))
    ensures StartsValue(WriteNumber(e, token).value)
  {
    if !IsIntegerToken(token) {
      ReadReal(e.parse(token).value, rest);
    } else if token == "-0" {
      NegativeZero();
      ReadInt(0, rest);
      assert DecimalInt(0) == "0";
    } else {
      ReadToken(token, rest);
    }
  }

  lemma ReadWord(word: Bytes, v: Val, rest: Bytes)
    requires (word == "null" && v == VNull) || (word == "true" && v == VBool(true))
             || (word == "false" && v == VBool(false))
    ensures ReadValue(word + rest) == Some((v, rest)) && StartsValue(word)
  {
    var b := word + rest;
    assert b[0] == word[0] && word <= b && b[|word|..] == rest;
  }

  lemma ReadWrittenString(e: Encoder, s: Bytes, rest: Bytes)
    requires WriteString(e, s).Ok?
    ensures ReadValue(WriteString(e, s).value + rest) == Some((VStr(s), rest))
    ensures StartsValue(WriteString(e, s).value)
  {
    ReadStringOfWrite(e, s, rest);
    assert (WriteString(e, s).value + rest)[0] == '"';
  }

  lemma ReadScalar(e: Encoder, v: Json, rest: Bytes)
    requires Write(e, v).Ok? && Delimited(rest) && !v.Arr? && !v.Obj?
    ensures ReadValue(Write(e, v).value + rest) == Some((Meaning(e, v), rest))
    ensures StartsValue(Write(e, v).value)
  {
    match v
    case Int(n) => ReadInt(n, rest);
    case Number(token) => ReadWrittenNumber(e, token, rest);
    case Real(f) => ReadReal(f, rest);
    case Real32(f, _) => ReadReal(f, rest);
    case Str(s) => ReadWrittenString(e, s, rest);
    case Bool(b) => ReadWord(if b then "true" else "false", VBool(b), rest);
    case Null => ReadWord("null", VNull, rest);
    case NilArr => ReadWord("null", VNull, rest);
    case NilObj => ReadWord("null", VNull, rest);
    case Arr(_) =>
    case Obj(_) =>
  }

  lemma ReadBrackets(body: Bytes, v: Val, rest: Bytes)
    requires ReadArray(body + ("]" + rest)) == Some((v, rest))
    ensures ReadValue("[" + body + "]" + rest) == Some((v, rest))
  {
    assert ("[" + body + "]" + rest)[1..] == body + ("]" + rest);
  }

  lemma ReadBraces(body: Bytes, v: Val, rest: Bytes)
    requires ReadObject(body + ("}" + rest)) == Some((v, rest))
    ensures ReadValue("{" + body + "}" + rest) == Some((v, rest))
  {
    assert ("{" + body + "}" + rest)[1..] == body + ("}" + rest);
  }

  /** Reading what was written returns the value written and leaves the rest. */
  lemma {:induction false} ReadOfWrite(e: Encoder, v: Json, rest: Bytes)
    requires Write(e, v).Ok? && Delimited(rest)
    ensures ReadValue(Write(e, v).value + rest) == Some((Meaning(e, v), rest))
    ensures StartsValue(Write(e, v).value)
    decreases v, 1
  {
    if v.Arr? {
      ReadArrOfWrite(e, v, rest);
    } else if v.Obj? {
      ReadObjOfWrite(e, v, rest);
    } else {
      ReadScalar(e, v, rest);
    }
  }

  lemma {:induction false} ReadArrOfWrite(e: Encoder, v: Json, rest: Bytes)
    requires v.Arr? && Write(e, v).Ok?
    ensures ReadValue(Write(e, v).value + rest) == Some((Meaning(e, v), rest))
    ensures StartsValue(Write(e, v).value)
    decreases v, 0
  {
    var body := WriteItems(e, v.items).value;
    ReadWrittenArray(e, v.items, rest);
    ReadBrackets(body, Meaning(e, v), rest);
    assert Write(e, v).value == "[" + body + "]";
  }

  lemma {:induction false} ReadObjOfWrite(e: Encoder, v: Json, rest: Bytes)
    requires v.Obj? && Write(e, v).Ok?
    ensures ReadValue(Write(e, v).value + rest) == Some((Meaning(e, v), rest))
    ensures StartsValue(Write(e, v).value)
    decreases v, 0
  {
    var keys := SortedKeys(v.fields.Keys);
    var body := WriteMembers(e, v, keys).value;
    ReadWrittenObject(e, v, keys, rest);
    SortedMeanings(e, v);
    ReadBraces(body, Meaning(e, v), rest);
    assert Write(e, v).value == "{" + body + "}";
  }

  lemma {:induction false} ReadWrittenArray(e: Encoder, items: seq<Json>, rest: Bytes)
    requires WriteItems(e, items).Ok?
    ensures ReadArray(WriteItems(e, items).value + ("]" + rest)) == Some((VArr(Meanings(e, items)), rest))
    decreases items, 0, |items| + 1
  {
    var b := WriteItems(e, items).value + ("]" + rest);
    if items == [] {
      assert b == "]" + rest && b[1..] == rest;
    } else {
      ReadWrittenItems(e, items, rest);
    }
  }

  lemma {:induction false} ReadWrittenItems(e: Encoder, items: seq<Json>, rest: Bytes)
    requires WriteItems(e, items).Ok? && items != []
    ensures ReadItems(WriteItems(e, items).value + ("]" + rest)) == Some((Meanings(e, items), rest))
    ensures StartsValue(WriteItems(e, items).value)
    decreases items, 0, |items|
  {
    var first := Write(e, items[0]).value;
    var b := WriteItems(e, items).value + ("]" + rest);
    if |items| == 1 {
      ReadOfWrite(e, items[0], "]" + rest);
      assert Meanings(e, items) == [Meaning(e, items[0])];
    } else {
      var more := WriteItems(e, items[1..]).value + ("]" + rest);
      assert b == first + ("," + more);
      ReadOfWrite(e, items[0], "," + more);
      ReadWrittenItems(e, items[1..], rest);
      assert ("," + more)[1..] == more;
    }
  }

  function MeaningsOf(e: Encoder, v: Json, keys: seq<Bytes>): map<Bytes, Val>
    requires v.Obj? && forall k :: k in keys ==> k in v.fields
  {
    map k | k in keys :: Meaning(e, v.fields[k])
  }

  lemma SortedMeanings(e: Encoder, v: Json)
    requires v.Obj?
    ensures VObj(MeaningsOf(e, v, SortedKeys(v.fields.Keys))) == Meaning(e, v)
  {
    assert MeaningsOf(e, v, SortedKeys(v.fields.Keys)) == map k | k in v.fields :: Meaning(e, v.fields[k]);
  }

  lemma MeaningsOfCons(e: Encoder, v: Json, keys: seq<Bytes>)
    requires v.Obj? && keys != [] && forall k :: k in keys ==> k in v.fields
    ensures MeaningsOf(e, v, keys) ==
            map[keys[0] := Meaning(e, v.fields[keys[0]])] + MeaningsOf(e, v, keys[1..])
  {
    assert forall k :: k in keys <==> k == keys[0] || k in keys[1..];
  }

  lemma {:induction false} ReadWrittenObject(e: Encoder, v: Json, keys: seq<Bytes>, rest: Bytes)
    requires v.Obj? && forall k :: k in keys ==> k in v.fields
    requires WriteMembers(e, v, keys).Ok?
    ensures ReadObject(WriteMembers(e, v, keys).value + ("}" + rest)) ==
            Some((VObj(MeaningsOf(e, v, keys)), rest))
    decreases v, 0, |keys| + 1
  {
    var b := WriteMembers(e, v, keys).value + ("}" + rest);
    if keys == [] {
      assert b == "}" + rest && b[1..] == rest;
      assert MeaningsOf(e, v, keys) == map[];
    } else {
      ReadWrittenMembers(e, v, keys, rest);
    }
  }

  /** A member is read once its name and its value are. */
  lemma ReadMemberOf(k: Bytes, name: Bytes, value: Bytes, meaning: Val, rest: Bytes)
    requires name != [] && name[0] == '"'
    requires ReadString(name + (":" + (value + rest))) == Some((k, ":" + (value + rest)))
    requires ReadValue(value + rest) == Some((meaning, rest))
    ensures ReadMember(name + (":" + (value + rest))) == Some(((k, meaning), rest))
  {
    var c := ":" + (value + rest);
    var text := name + c;
    assert SkipSpace(text) == text by { assert text[0] == '"'; }
    assert SkipSpace(c) == c && c[0] == ':';
    assert c[1..] == value + rest;
  }

  lemma {:induction false} ReadWrittenMember(e: Encoder, v: Json, k: Bytes, rest: Bytes)
    requires v.Obj? && k in v.fields && WriteMember(e, v, k).Ok? && Delimited(rest)
    ensures ReadMember(WriteMember(e, v, k).value + rest) == Some(((k, Meaning(e, v.fields[k])), rest))
    ensures WriteMember(e, v, k).value != [] && WriteMember(e, v, k).value[0] == '"'
    decreases v, 0, 0
  {
    var name, value := WriteString(e, k).value, Write(e, v.fields[k]).value;
    assert WriteMember(e, v, k).value + rest == name + (":" + (value + rest));
    ReadStringOfWrite(e, k, ":" + (value + rest));
    ReadOfWrite(e, v.fields[k], rest);
    ReadMemberOf(k, name, value, Meaning(e, v.fields[k]), rest);
  }

  lemma ReadLastMember(first: Bytes, k: Bytes, m: Val, rest: Bytes)
    requires ReadMember(first + ("}" + rest)) == Some(((k, m), "}" + rest))
    ensures ReadMembers(first + ("}" + rest)) == Some((map[k := m], rest))
  {
    assert ("}" + rest)[1..] == rest;
  }

  lemma ReadMoreMembers(first: Bytes, k: Bytes, m: Val, more: Bytes, ms: map<Bytes, Val>, rest: Bytes)
    requires ReadMember(first + ("," + more)) == Some(((k, m), "," + more))
    requires ReadMembers(more) == Some((ms, rest))
    ensures ReadMembers(first + ("," + more)) == Some((map[k := m] + ms, rest))
  {
    assert ("," + more)[1..] == more;
  }

  lemma {:induction false} ReadWrittenMembers(e: Encoder, v: Json, keys: seq<Bytes>, rest: Bytes)
    requires v.Obj? && keys != [] && forall k :: k in keys ==> k in v.fields
    requires WriteMembers(e, v, keys).Ok?
    ensures ReadMembers(WriteMembers(e, v, keys).value + ("}" + rest)) == Some((MeaningsOf(e, v, keys), rest))
    ensures var w := WriteMembers(e, v, keys).value; w != [] && w[0] == '"'
    decreases v, 0, |keys|
  {
    var k, first := keys[0], WriteMember(e, v, keys[0]).value;
    var m := Meaning(e, v.fields[k]);
    MeaningsOfCons(e, v, keys);
    if |keys| == 1 {
      ReadWrittenMember(e, v, k, "}" + rest);
      ReadLastMember(first, k, m, rest);
      assert MeaningsOf(e, v, keys) == map[k := m];
    } else {
      var more := WriteMembers(e, v, keys[1..]).value + ("}" + rest);
      assert WriteMembers(e, v, keys).value + ("}" + rest) == first + ("," + more);
      ReadWrittenMember(e, v, k, "," + more);
      ReadWrittenMembers(e, v, keys[1..], rest);
      ReadMoreMembers(first, k, m, more, MeaningsOf(e, v, keys[1..]), rest);
    }
  }
}
