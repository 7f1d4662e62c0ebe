/** Byte strings, UTF-8 and order. */
module Utf8 {
  import opened Wrappers
  import opened Sorting

  /**
    * A Go string or byte slice. Each character stands for the byte of the same number, so that
    * ASCII literals read naturally; a string holding a larger character is just not valid UTF-8.
    */
  type byte = char
  type Bytes = seq<byte>

  /** A Unicode scalar value: surrogates are excluded. */
  type rune = r: int | 0 <= r < 0xD800 || 0xE000 <= r < 0x110000

  function Byte(n: int): byte
    requires 0 <= n < 0x100
  {
    n as char
  }

  predicate IsScalar(r: int) {
    0 <= r < 0xD800 || 0xE000 <= r < 0x110000
  }

  function Encode(r: rune): (b: Bytes)
    ensures 1 <= |b| <= 4
  {
    if r < 0x80 then [Byte(r)]
    else if r < 0x800 then [Byte(0xC0 + r / 64), Byte(0x80 + r % 64)]
    else if r < 0x10000 then [Byte(0xE0 + r / 4096), Byte(0x80 + r / 64 % 64), Byte(0x80 + r % 64)]
    else [Byte(0xF0 + r / 262144), Byte(0x80 + r / 4096 % 64), Byte(0x80 + r / 64 % 64), Byte(0x80 + r % 64)]
  }

  function EncodeAll(rs: seq<rune>): Bytes {
    if rs == [] then [] else Encode(rs[0]) + EncodeAll(rs[1..])
  }

  /** The value a lead byte and the continuation bytes after it denote, before any range check. */
  function Candidate(s: Bytes): int
    requires s != []
  {
    var b0 := s[0] as int;
    if b0 < 0x80 then b0
    else if b0 < 0xE0 && |s| >= 2 then (b0 - 0xC0) * 64 + s[1] as int - 0x80
    else if b0 < 0xF0 && |s| >= 3 then (b0 - 0xE0) * 4096 + (s[1] as int - 0x80) * 64 + s[2] as int - 0x80
    else if |s| >= 4 then
      (b0 - 0xF0) * 262144 + (s[1] as int - 0x80) * 4096 + (s[2] as int - 0x80) * 64 + s[3] as int - 0x80
    else -1
  }

  /** The first scalar value of s. Overlong forms and surrogates re-encode differently and are refused. */
  function DecodeFirst(s: Bytes): (r: Option<rune>)
    requires s != []
    ensures r.Some? ==> Encode(r.value) <= s
  {
    var c := Candidate(s);
    if IsScalar(c) && Encode(c) <= s then Some(c) else None
  }

  function Decode(s: Bytes): (r: Option<seq<rune>>)
    ensures r.Some? ==> EncodeAll(r.value) == s
  {
    if s == [] then Some([]) else
      var c :- DecodeFirst(s);
      var rest :- Decode(s[|Encode(c)|..]);
      Some([c] + rest)
  }

  /** utf8.ValidString */
  predicate ValidString(s: Bytes) { Decode(s).Some? }

  /** A number is rebuilt from its digits in base 64. */
  lemma Base64(r: nat)
    ensures r == r / 64 * 64 + r % 64
    ensures r == r / 4096 * 4096 + r / 64 % 64 * 64 + r % 64
    ensures r == r / 262144 * 262144 + r / 4096 % 64 * 4096 + r / 64 % 64 * 64 + r % 64
  {
    assert r / 4096 == r / 64 / 64;
    assert r / 262144 == r / 4096 / 64;
  }

  lemma CandidateOfEncode(r: rune)
    ensures Candidate(Encode(r)) == r
  {
    Base64(r);
  }

  lemma DecodeFirstOfEncode(r: rune, rest: Bytes)
    ensures DecodeFirst(Encode(r) + rest) == Some(r)
  {
    var e := Encode(r);
    CandidateOfEncode(r);
    assert forall i :: 0 <= i < |e| ==> (e + rest)[i] == e[i];
    assert r >= 0x10000 || |e| < 4;
    assert Candidate(e + rest) == Candidate(e);
  }

  lemma {:induction false} DecodeOfEncodeAll(rs: seq<rune>)
    ensures Decode(EncodeAll(rs)) == Some(rs)
  {
    if rs != [] {
      var e := Encode(rs[0]);
      DecodeFirstOfEncode(rs[0], EncodeAll(rs[1..]));
      assert EncodeAll(rs)[|e|..] == EncodeAll(rs[1..]);
      DecodeOfEncodeAll(rs[1..]);
      assert rs == [rs[0]] + rs[1..];
    }
  }

  lemma {:induction false} AsciiIsValid(s: Bytes)
    requires forall i :: 0 <= i < |s| ==> s[i] as int < 0x80
    ensures ValidString(s)
  {
    if s != [] {
      assert Encode(s[0] as int) == [s[0]];
      AsciiIsValid(s[1..]);
    }
  }

  /** Go's string order: bytewise lexicographic, as sort.Strings and SQLite's binary collation use. */
  predicate Less(a: Bytes, b: Bytes) {
    if b == [] then false
    else if a == [] then true
    else a[0] < b[0] || (a[0] == b[0] && Less(a[1..], b[1..]))
  }

  /** Lexicographic order by code point. */
  predicate RuneLess(a: seq<rune>, b: seq<rune>) {
    if b == [] then false
    else if a == [] then true
    else a[0] < b[0] || (a[0] == b[0] && RuneLess(a[1..], b[1..]))
  }

  lemma {:induction false} LessTransitive(a: Bytes, b: Bytes, c: Bytes)
    requires Less(a, b) && Less(b, c)
    ensures Less(a, c)
  {
    if a != [] && a[0] == b[0] && b[0] == c[0] { LessTransitive(a[1..], b[1..], c[1..]); }
  }

  lemma {:induction false} LessTotal(a: Bytes, b: Bytes)
    ensures !Less(a, a)
    ensures a == b || Less(a, b) || Less(b, a)
  {
    if a != [] {
      LessTotal(a[1..], if b == [] then [] else b[1..]);
      if b != [] && a[0] == b[0] {
        assert a == [a[0]] + a[1..] && b == [b[0]] + b[1..];
      }
    }
  }

  lemma LessIsStrictTotal()
    ensures StrictTotal(Less)
  {
    forall x, y ensures !Less(x, x) && (x == y || Less(x, y) || Less(y, x)) { LessTotal(x, y); }
    forall x, y, z | Less(x, y) && Less(y, z) ensures Less(x, z) { LessTransitive(x, y, z); }
  }

  lemma {:induction false} LessPrefix(p: Bytes, a: Bytes, b: Bytes)
    ensures Less(p + a, p + b) == Less(a, b)
  {
    if p == [] {
      assert p + a == a && p + b == b;
    } else {
      assert (p + a)[1..] == p[1..] + a && (p + b)[1..] == p[1..] + b;
      LessPrefix(p[1..], a, b);
    }
  }

  /** The first byte in which two encodings of the same length differ orders them. */
  lemma EncodeDiffersShort(r: rune, q: rune) returns (k: nat)
    requires r < q < 0x800 && |Encode(r)| == |Encode(q)|
    ensures k < |Encode(r)|
    ensures Encode(r)[..k] == Encode(q)[..k] && Encode(r)[k] < Encode(q)[k]
  {
    Base64(r);
    Base64(q);
    k := if q < 0x80 || r / 64 < q / 64 then 0 else 1;
  }

  lemma EncodeDiffersThree(r: rune, q: rune) returns (k: nat)
    requires 0x800 <= r < q < 0x10000
    ensures k < 3
    ensures Encode(r)[..k] == Encode(q)[..k] && Encode(r)[k] < Encode(q)[k]
  {
    Base64(r);
    Base64(q);
    k := if r / 4096 < q / 4096 then 0 else if r / 64 % 64 < q / 64 % 64 then 1 else 2;
  }

  lemma EncodeDiffersFour(r: rune, q: rune) returns (k: nat)
    requires 0x10000 <= r < q
    ensures k < 4
    ensures Encode(r)[..k] == Encode(q)[..k] && Encode(r)[k] < Encode(q)[k]
  {
    Base64(r);
    Base64(q);
    k := if r / 262144 < q / 262144 then 0
    else if r / 4096 % 64 < q / 4096 % 64 then 1
    else if r / 64 % 64 < q / 64 % 64 then 2 else 3;
  }

  /** A longer encoding starts with a larger byte. */
  lemma EncodeDiffersLonger(r: rune, q: rune)
    requires r < q && |Encode(r)| != |Encode(q)|
    ensures Encode(r)[0] < Encode(q)[0]
  {
  }

  lemma EncodeDiffers(r: rune, q: rune) returns (k: nat)
    requires r < q
    ensures k < |Encode(r)| && k < |Encode(q)|
    ensures Encode(r)[..k] == Encode(q)[..k] && Encode(r)[k] < Encode(q)[k]
  {
    if |Encode(r)| == |Encode(q)| {
      if q < 0x800 {
        k := EncodeDiffersShort(r, q);
      } else if q < 0x10000 {
        k := EncodeDiffersThree(r, q);
      } else {
        k := EncodeDiffersFour(r, q);
      }
    } else {
      EncodeDiffersLonger(r, q);
      k := 0;
    }
  }

  lemma EncodeOrder(r: rune, q: rune, a: Bytes, b: Bytes)
    requires r < q
    ensures Less(Encode(r) + a, Encode(q) + b) && !Less(Encode(q) + b, Encode(r) + a)
  {
    var k := EncodeDiffers(r, q);
    var p := Encode(r)[..k];
    var s, t := Encode(r)[k..] + a, Encode(q)[k..] + b;
    assert Encode(r) + a == p + s && Encode(q) + b == p + t;
    LessPrefix(p, s, t);
    LessPrefix(p, t, s);
  }

  /** Section 1 of RFC 3629: bytewise order of UTF-8 is code-point order. */
  lemma {:induction false} BytewiseOrderIsCodePointOrder(a: seq<rune>, b: seq<rune>)
    ensures Less(EncodeAll(a), EncodeAll(b)) == RuneLess(a, b)
  {
    if a == [] || b == [] {
    } else if a[0] < b[0] {
      EncodeOrder(a[0], b[0], EncodeAll(a[1..]), EncodeAll(b[1..]));
    } else if b[0] < a[0] {
      EncodeOrder(b[0], a[0], EncodeAll(b[1..]), EncodeAll(a[1..]));
    } else {
      LessPrefix(Encode(a[0]), EncodeAll(a[1..]), EncodeAll(b[1..]));
      BytewiseOrderIsCodePointOrder(a[1..], b[1..]);
    }
  }
}
