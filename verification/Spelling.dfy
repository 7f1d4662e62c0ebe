/** How the writer spells strings, arrays and objects. */
module Spelling {
  import opened Wrappers
  import opened Seqs
  import opened Sorting
  import opened Utf8
  import opened Canonical
  import opened Keys

  /** The parts with a separator between any two */
  function Joined(parts: seq<Bytes>, separator: Bytes): Bytes {
    if parts == [] then "" else
    if |parts| == 1 then parts[0] else parts[0] + separator + Joined(parts[1..], separator)
  }

  // ---- Strings -------------------------------------------------------------

  /** A \uXXXX escape of a code unit, in lowercase digits */
  predicate EscapesUnit(u: Bytes, n: int) {
    && |u| == 6 && ReadUnit(u) == Some(n)
    && forall i :: 2 <= i < 6 ==> '0' <= u[i] <= '9' || 'a' <= u[i] <= 'f'
  }

  /** A surrogate pair of escapes for a scalar value beyond the basic plane */
  ghost predicate EscapesPair(u: Bytes, r: rune) {
    |u| == 12 && exists hi, lo :: EscapesUnit(u[..6], hi) && EscapesUnit(u[6..], lo) && IsPair(hi, lo, r)
  }

  predicate IsPair(hi: int, lo: int, r: rune) {
    0xD800 <= hi < 0xDC00 && 0xDC00 <= lo < 0xE000 && r == 0x10000 + (hi - 0xD800) * 0x400 + (lo - 0xDC00)
  }

  /**
    * The spelling of one scalar value: a two-character escape where there is one; else, below the space and, in the
    * ASCII flavour, from the delete character on, escapes of its UTF-16 code units; else its UTF-8.
    */
  ghost predicate Spells(ascii: bool, r: rune, u: Bytes) {
    if r == 0x22 then u == "\\\""
    else if r == 0x5C then u == "\\\\"
    else if r == 0x08 then u == "\\b"
    else if r == 0x0C then u == "\\f"
    else if r == 0x0A then u == "\\n"
    else if r == 0x0D then u == "\\r"
    else if r == 0x09 then u == "\\t"
    else if 0x20 <= r < 0x7F || (r >= 0x20 && !ascii) then u == Encode(r)
    else if r <= 0xFFFF then EscapesUnit(u, r)
    else EscapesPair(u, r)
  }

  lemma HexEscapes(n: int)
    requires 0 <= n < 0x10000
    ensures EscapesUnit(HexEscape(n), n)
  {
    ReadUnitOfHexEscape(n, []);
    assert HexEscape(n) + [] == HexEscape(n);
  }

  lemma RuneSpelled(r: rune)
    ensures Spells(true, r, EscapeRune(r))
  {
    hide HexEscape, EscapesUnit, EscapesPair;
    if r > 0xFFFF { PairSpelled(r); } else { HexEscapes(r); }
  }

  lemma PairSpelled(r: rune)
    requires r > 0xFFFF
    ensures EscapesPair(EscapeRune(r), r)
  {
    hide HexEscape, EscapesUnit, ReadUnit;
    var hi, lo := 0xD800 + (r - 0x10000) / 1024, 0xDC00 + (r - 0x10000) % 1024;
    SurrogateValue(r);
    HexEscapes(hi);
    HexEscapes(lo);
    Unjoin(HexEscape(hi), HexEscape(lo));
    assert EscapesUnit(EscapeRune(r)[..6], hi) && EscapesUnit(EscapeRune(r)[6..], lo) && IsPair(hi, lo, r);
  }

  lemma {:induction false} EscapedApart(a: Bytes, b: Bytes)
    ensures EscapeBytes(a + b) == EscapeBytes(a) + EscapeBytes(b)
  {
    if a == [] {
      assert a + b == b;
    } else {
      assert (a + b)[0] == a[0] && (a + b)[1..] == a[1..] + b;
      EscapedApart(a[1..], b);
    }
  }

  lemma {:induction false} HighBytesVerbatim(s: Bytes)
    requires forall i :: 0 <= i < |s| ==> s[i] as int >= 0x80
    ensures EscapeBytes(s) == s
  {
    if s != [] {
      HighBytesVerbatim(s[1..]);
      assert s == [s[0]] + s[1..];
    }
  }

  lemma EncodedSpelled(r: rune)
    ensures Spells(false, r, EscapeBytes(Encode(r)))
  {
    if r >= 0x80 {
      HighBytesVerbatim(Encode(r));
    } else {
      HexEscapes(r);
      assert EscapeBytes(Encode(r)) == EscapeByte(Byte(r)) + EscapeBytes([]);
    }
  }

  ghost predicate AllSpelled(ascii: bool, rs: seq<rune>, units: seq<Bytes>) {
    |units| == |rs| && forall i :: 0 <= i < |rs| ==> Spells(ascii, rs[i], units[i])
  }

  lemma JoinedCons(u: Bytes, units: seq<Bytes>)
    ensures Joined([u] + units, "") == u + Joined(units, "")
  {
    if units == [] { assert [u] + units == [u]; } else { assert ([u] + units)[1..] == units; }
  }

  lemma {:induction false} RunesSpelled(rs: seq<rune>) returns (units: seq<Bytes>)
    ensures AllSpelled(true, rs, units) && EscapeRunes(rs) == Joined(units, "")
  {
    hide Spells, EscapeRune;
    if rs == [] { units := []; } else {
      var more := RunesSpelled(rs[1..]);
      units := [EscapeRune(rs[0])] + more;
      RuneSpelled(rs[0]);
      JoinedCons(EscapeRune(rs[0]), more);
      AllSpelledCons(true, rs, units[0], more);
    }
  }

  lemma AllSpelledCons(ascii: bool, rs: seq<rune>, u: Bytes, more: seq<Bytes>)
    requires rs != [] && Spells(ascii, rs[0], u) && AllSpelled(ascii, rs[1..], more)
    ensures AllSpelled(ascii, rs, [u] + more)
  {
    hide Spells;
    forall i | 0 <= i < |rs| ensures Spells(ascii, rs[i], ([u] + more)[i]) {
      if i > 0 { assert rs[1..][i - 1] == rs[i]; }
    }
  }

  lemma {:induction false} BytesSpelled(rs: seq<rune>) returns (units: seq<Bytes>)
    ensures AllSpelled(false, rs, units) && EscapeBytes(EncodeAll(rs)) == Joined(units, "")
  {
    hide Spells, EscapeByte, Encode;
    if rs == [] { units := []; } else {
      var more := BytesSpelled(rs[1..]);
      var u := EscapeBytes(Encode(rs[0]));
      units := [u] + more;
      EncodedSpelled(rs[0]);
      EscapedApart(Encode(rs[0]), EncodeAll(rs[1..]));
      hide EscapeBytes;
      JoinedCons(u, more);
      AllSpelledCons(false, rs, u, more);
    }
  }

  /** A valid string is written as the spellings of its scalar values, in order, between quotes; others are refused. */
  lemma StringSpelled(e: Encoder, s: Bytes) returns (units: seq<Bytes>)
    ensures WriteString(e, s).Ok? <==> Decode(s).Some?
    ensures Decode(s).Some? ==>
              AllSpelled(e.ascii, Decode(s).value, units) && WriteString(e, s).value == "\"" + Joined(units, "") + "\""
  {
    units := [];
    if Decode(s).Some? {
      hide AllSpelled, EscapeRunes, EscapeBytes, Joined, Decode, EncodeAll;
      if e.ascii {
        units := RunesSpelled(Decode(s).value);
      } else {
        units := BytesSpelled(Decode(s).value);
      }
    }
  }

  // ---- Arrays and objects --------------------------------------------------

  ghost predicate AllWritten(e: Encoder, items: seq<Json>, parts: seq<Bytes>) {
    |parts| == |items| && forall i :: 0 <= i < |items| ==> Write(e, items[i]) == Ok(parts[i])
  }

  lemma {:induction false} ItemsSpelled(e: Encoder, items: seq<Json>) returns (parts: seq<Bytes>)
    requires WriteItems(e, items).Ok?
    ensures AllWritten(e, items, parts) && WriteItems(e, items).value == Joined(parts, ",")
  {
    hide Write;
    if items == [] { parts := []; } else {
      var first := Write(e, items[0]).value;
      if |items| == 1 { parts := [first]; } else {
        var more := ItemsSpelled(e, items[1..]);
        parts := [first] + more;
        assert parts[1..] == more;
        forall i | 0 <= i < |items| ensures Write(e, items[i]) == Ok(parts[i]) {
          if i > 0 { assert items[1..][i - 1] == items[i]; }
        }
      }
    }
  }

  /** A written array is its written items between brackets, with commas and nothing else between them. */
  lemma ArraySpelled(e: Encoder, items: seq<Json>) returns (parts: seq<Bytes>)
    requires Write(e, Arr(items)).Ok?
    ensures AllWritten(e, items, parts) && Write(e, Arr(items)).value == "[" + Joined(parts, ",") + "]"
  {
    parts := ItemsSpelled(e, items);
  }

  /** The part of an object a key makes */
  ghost predicate MemberWritten(e: Encoder, v: Json, k: Bytes, part: Bytes)
    requires v.Obj? && k in v.fields
  {
    && WriteString(e, k).Ok? && Write(e, v.fields[k]).Ok?
    && part == WriteString(e, k).value + ":" + Write(e, v.fields[k]).value
  }

  ghost predicate MembersWritten(e: Encoder, v: Json, keys: seq<Bytes>, parts: seq<Bytes>)
    requires v.Obj? && forall k :: k in keys ==> k in v.fields
  {
    |parts| == |keys| && forall i :: 0 <= i < |keys| ==> MemberWritten(e, v, keys[i], parts[i])
  }

  lemma {:induction false} MembersSpelled(e: Encoder, v: Json, keys: seq<Bytes>) returns (parts: seq<Bytes>)
    requires v.Obj? && (forall k :: k in keys ==> k in v.fields) && WriteMembers(e, v, keys).Ok?
    ensures MembersWritten(e, v, keys, parts) && WriteMembers(e, v, keys).value == Joined(parts, ",")
  {
    hide Write, WriteString, MemberWritten, WriteMember;
    if keys == [] { parts := []; } else {
      var first := WriteMember(e, v, keys[0]).value;
      OneMember(e, v, keys[0]);
      if |keys| == 1 { parts := [first]; } else {
        var more := MembersSpelled(e, v, keys[1..]);
        parts := [first] + more;
        assert parts[1..] == more;
        forall i | 0 <= i < |keys| ensures MemberWritten(e, v, keys[i], parts[i]) {
          if i > 0 { assert keys[1..][i - 1] == keys[i]; }
        }
      }
    }
  }

  lemma OneMember(e: Encoder, v: Json, k: Bytes)
    requires v.Obj? && k in v.fields && WriteMember(e, v, k).Ok?
    ensures MemberWritten(e, v, k, WriteMember(e, v, k).value)
  {
    hide Write, WriteString;
  }

  /**
    * A written object is its members between braces, in the code-point order of their names: each the written name, a
    * colon and the written value, with commas and nothing else between them.
    */
  lemma ObjectSpelled(e: Encoder, v: Json, names: seq<seq<rune>>) returns (parts: seq<Bytes>)
    requires v.Obj? && Increasing(RuneLess, names)
    requires forall k :: k in Names(names) <==> k in v.fields
    requires Write(e, v).Ok?
    ensures MembersWritten(e, v, Names(names), parts) && Write(e, v).value == "{" + Joined(parts, ",") + "}"
  {
    hide Names, WriteMembers, MembersWritten, RuneLess, Joined;
    MembersInCodePointOrder(e, v, names);
    parts := MembersSpelled(e, v, Names(names));
  }
}
