/** Number tokens and floats. */
module Numbers {
  import opened Wrappers
  import opened Seqs
  import opened Utf8

  predicate IsDigit(c: byte) { '0' <= c <= '9' }

  predicate AllDigits(s: Bytes) { forall i :: 0 <= i < |s| ==> IsDigit(s[i]) }

  function Digit(n: int): byte
    requires 0 <= n < 10
  {
    Byte('0' as int + n)
  }

  function DigitValue(c: byte): nat { if IsDigit(c) then c as int - '0' as int else 0 }

  /** strconv.Itoa for a non-negative value */
  function Decimal(n: nat): Bytes {
    if n < 10 then [Digit(n)] else Decimal(n / 10) + [Digit(n % 10)]
  }

  function Signed(neg: bool, n: nat): int { if neg then 0 - n else n as int }

  function Abs(n: int): nat { if n < 0 then -n else n }

  function Sign(neg: bool): Bytes { if neg then "-" else "" }

  function DecimalInt(n: int): Bytes { Sign(n < 0) + Decimal(Abs(n)) }

  function NatOf(s: Bytes): nat {
    if s == [] then 0 else NatOf(s[..|s| - 1]) * 10 + DigitValue(s[|s| - 1])
  }

  /** The whole part of a JSON number: digits without a superfluous leading zero. */
  predicate IsWhole(s: Bytes) { AllDigits(s) && s != [] && (s[0] == '0' ==> |s| == 1) }

  lemma {:induction false} DecimalIsWhole(n: nat)
    ensures IsWhole(Decimal(n)) && (Decimal(n)[0] == '0' ==> n == 0)
  {
    if n >= 10 { DecimalIsWhole(n / 10); }
  }

  lemma {:induction false} NatOfDecimal(n: nat)
    ensures NatOf(Decimal(n)) == n
  {
    if n >= 10 {
      NatOfDecimal(n / 10);
      assert Decimal(n)[..|Decimal(n)| - 1] == Decimal(n / 10);
    }
  }

  lemma {:induction false} DecimalOfNat(s: Bytes)
    requires IsWhole(s)
    ensures Decimal(NatOf(s)) == s && (s[0] != '0' ==> NatOf(s) > 0)
  {
    var init := s[..|s| - 1];
    if |s| == 1 {
      assert NatOf(init) == 0;
    } else {
      assert init[0] == s[0];
      DecimalOfNat(init);
      assert s == init + [s[|s| - 1]];
    }
  }

  // ---- Number tokens -------------------------------------------------------

  datatype Exponent = Exponent(mark: byte, sign: Bytes, digits: Bytes)

  /** The parts of a number token, in the order in which the grammar lists them. */
  datatype Token = Token(neg: bool, whole: Bytes, frac: Option<Bytes>, exp: Option<Exponent>)

  predicate IsMark(c: byte) { c == 'e' || c == 'E' }

  predicate IsSign(c: byte) { c == '+' || c == '-' }

  predicate IsFrac(f: Option<Bytes>) { f.Some? ==> f.value != [] && AllDigits(f.value) }

  predicate IsExponent(e: Option<Exponent>) {
    e.Some? ==>
      && IsMark(e.value.mark)
      && (e.value.sign == [] || (|e.value.sign| == 1 && IsSign(e.value.sign[0])))
      && e.value.digits != [] && AllDigits(e.value.digits)
  }

  predicate WellFormed(t: Token) { IsWhole(t.whole) && IsFrac(t.frac) && IsExponent(t.exp) }

  function RenderFrac(f: Option<Bytes>): Bytes { if f.Some? then "." + f.value else "" }

  function RenderExp(e: Option<Exponent>): Bytes {
    if e.Some? then [e.value.mark] + (e.value.sign + e.value.digits) else ""
  }

  function RenderTail(f: Option<Bytes>, e: Option<Exponent>): Bytes { RenderFrac(f) + RenderExp(e) }

  function Render(t: Token): Bytes { Sign(t.neg) + (t.whole + RenderTail(t.frac, t.exp)) }

  /** Section 6 of RFC 8259: [minus] int [frac] [exp]. */
  ghost predicate IsNumber(s: Bytes) {
    exists t :: WellFormed(t) && Render(t) == s
  }

  function Span(s: Bytes): (n: nat)
    ensures n <= |s|
  {
    if s == [] || !IsDigit(s[0]) then 0 else 1 + Span(s[1..])
  }

  function SplitExp(s: Bytes): Option<Option<Exponent>> {
    if s == [] then Some(None)
    else if !IsMark(s[0]) then None
    else
      var sign := if |s| > 1 && IsSign(s[1]) then s[1..2] else [];
      var digits := s[1 + |sign|..];
      if digits == [] || Span(digits) != |digits| then None
      else Some(Some(Exponent(s[0], sign, digits)))
  }

  function SplitTail(s: Bytes): Option<(Option<Bytes>, Option<Exponent>)> {
    if s != [] && s[0] == '.' then
      var n := Span(s[1..]);
      if n == 0 then None else
        var exp :- SplitExp(s[1..][n..]);
        Some((Some(s[1..][..n]), exp))
    else
      var exp :- SplitExp(s);
      Some((None, exp))
  }

  /** How many bytes the integer part takes: a lone 0, or a maximal run of digits. */
  function WholeSpan(s: Bytes): (n: nat)
    ensures n <= |s|
  {
    if s != [] && s[0] == '0' then 1 else Span(s)
  }

  function SplitUnsigned(neg: bool, s: Bytes): Option<Token> {
    var n := WholeSpan(s);
    if n == 0 then None else
      var tail :- SplitTail(s[n..]);
      Some(Token(neg, s[..n], tail.0, tail.1))
  }

  /** Takes a token apart; None when it is not a JSON number. */
  function Split(s: Bytes): Option<Token> {
    if s != [] && s[0] == '-' then SplitUnsigned(true, s[1..]) else SplitUnsigned(false, s)
  }

  lemma {:induction false} SpanIsDigits(s: Bytes)
    ensures AllDigits(s[..Span(s)])
    ensures Span(s) < |s| ==> !IsDigit(s[Span(s)])
  {
    if s != [] && IsDigit(s[0]) {
      SpanIsDigits(s[1..]);
      assert s[..Span(s)] == [s[0]] + s[1..][..Span(s[1..])];
    }
  }

  lemma {:induction false} SpanOf(digits: Bytes, rest: Bytes)
    requires AllDigits(digits) && (rest != [] ==> !IsDigit(rest[0]))
    ensures Span(digits + rest) == |digits|
  {
    if digits == [] {
      assert digits + rest == rest;
    } else {
      assert (digits + rest)[1..] == digits[1..] + rest;
      SpanOf(digits[1..], rest);
    }
  }

  lemma SplitExpSound(s: Bytes, e: Option<Exponent>)
    requires SplitExp(s) == Some(e)
    ensures IsExponent(e) && RenderExp(e) == s
  {
    if e.Some? {
      SpanIsDigits(e.value.digits);
      assert e.value.digits[..|e.value.digits|] == e.value.digits;
      assert s == [s[0]] + (e.value.sign + e.value.digits);
    }
  }

  lemma SplitTailSound(s: Bytes, f: Option<Bytes>, e: Option<Exponent>)
    requires SplitTail(s) == Some((f, e))
    ensures IsFrac(f) && IsExponent(e) && RenderTail(f, e) == s
  {
    if f.Some? {
      var n := Span(s[1..]);
      SpanIsDigits(s[1..]);
      SplitExpSound(s[1..][n..], e);
      Rejoin(s[1..], n, f.value, RenderExp(e));
      assert s[..1] == ".";
      Rejoin(s, 1, ".", s[1..]);
      Associate(".", f.value, RenderExp(e));
    } else {
      SplitExpSound(s, e);
      Rejoin(s, 0, "", s);
    }
  }

  lemma WholeSpanIsWhole(s: Bytes)
    requires WholeSpan(s) > 0
    ensures IsWhole(s[..WholeSpan(s)])
  {
    SpanIsDigits(s);
  }

  lemma SplitUnsignedSound(s: Bytes, t: Token)
    requires SplitUnsigned(t.neg, s) == Some(t)
    ensures WellFormed(t) && t.whole + RenderTail(t.frac, t.exp) == s
  {
    var n := WholeSpan(s);
    WholeSpanIsWhole(s);
    SplitTailSound(s[n..], t.frac, t.exp);
    Rejoin(s, n, t.whole, RenderTail(t.frac, t.exp));
  }

  /** The parts of a token are well formed, and put together they give the token back. */
  lemma SplitSound(s: Bytes)
    requires Split(s).Some?
    ensures WellFormed(Split(s).value) && Render(Split(s).value) == s
  {
    var t := Split(s).value;
    if s != [] && s[0] == '-' {
      SplitUnsignedSound(s[1..], t);
      assert s == "-" + s[1..];
    } else {
      SplitUnsignedSound(s, t);
      assert s == "" + s;
    }
  }

  lemma SignAndDigits(c: byte, sign: Bytes, digits: Bytes)
    requires digits != []
    ensures var s := [c] + (sign + digits);
            && |s| > 1 && s[0] == c && s[1 + |sign|..] == digits
            && (sign == [] ==> s[1] == digits[0])
            && (|sign| == 1 ==> s[1] == sign[0] && s[1..2] == sign)
  {
  }

  lemma SplitExpOf(e: Option<Exponent>)
    requires IsExponent(e)
    ensures SplitExp(RenderExp(e)) == Some(e)
  {
    if e.Some? {
      var x := e.value;
      SignAndDigits(x.mark, x.sign, x.digits);
      SpanOf(x.digits, []);
      assert x.digits + [] == x.digits;
      assert IsDigit(x.digits[0]);
    }
  }

  lemma SplitFractionOf(f: Bytes, rest: Bytes, e: Option<Exponent>)
    requires f != [] && AllDigits(f) && (rest != [] ==> !IsDigit(rest[0]))
    requires SplitExp(rest) == Some(e)
    ensures SplitTail("." + f + rest) == Some((Some(f), e))
  {
    var s := "." + f + rest;
    assert s[1..] == f + rest;
    SpanOf(f, rest);
    assert (f + rest)[..|f|] == f && (f + rest)[|f|..] == rest;
  }

  lemma SplitTailOf(f: Option<Bytes>, e: Option<Exponent>)
    requires IsFrac(f) && IsExponent(e)
    ensures SplitTail(RenderTail(f, e)) == Some((f, e))
  {
    SplitExpOf(e);
    if f.Some? {
      SplitFractionOf(f.value, RenderExp(e), e);
    } else {
      assert RenderTail(f, e) == RenderExp(e);
    }
  }

  lemma SplitUnsignedOf(t: Token, tail: Bytes)
    requires IsWhole(t.whole) && (tail != [] ==> !IsDigit(tail[0]))
    requires SplitTail(tail) == Some((t.frac, t.exp))
    ensures SplitUnsigned(t.neg, t.whole + tail) == Some(t)
  {
    var s := t.whole + tail;
    SpanOf(t.whole, tail);
    assert s[0] == t.whole[0];
    assert s[..|t.whole|] == t.whole && s[|t.whole|..] == tail;
  }

  lemma SplitOf(t: Token)
    requires WellFormed(t)
    ensures Split(Render(t)) == Some(t)
  {
    var tail := RenderTail(t.frac, t.exp);
    SplitTailOf(t.frac, t.exp);
    SplitUnsignedOf(t, tail);
    assert (t.whole + tail)[0] == t.whole[0];
    assert t.neg ==> Render(t)[1..] == t.whole + tail;
    assert !t.neg ==> Render(t) == t.whole + tail;
  }

  /** The scanner accepts exactly the grammar. */
  lemma SplitIsGrammar(s: Bytes)
    ensures Split(s).Some? <==> IsNumber(s)
  {
    if Split(s).Some? {
      SplitSound(s);
    }
    if IsNumber(s) {
      var t :| WellFormed(t) && Render(t) == s;
      SplitOf(t);
    }
  }

  lemma SpanStep(s: Bytes, j: nat)
    requires j < |s| && IsDigit(s[j])
    ensures Span(s[j..]) == 1 + Span(s[j + 1..])
  {
    assert s[j..][1..] == s[j + 1..];
  }

  /** Advances over a run of digits, as each of the scanner's inner loops does. */
  method SkipDigits(s: Bytes, start: nat) returns (i: nat)
    requires start <= |s|
    ensures i == start + Span(s[start..]) && i <= |s|
  {
    i := start;
    while i < |s| && IsDigit(s[i])
      invariant start <= i <= |s|
      invariant start + Span(s[start..]) == i + Span(s[i..])
    {
      SpanStep(s, i);
      i := i + 1;
    }
  }

  /** The optional fraction: a '.' must be followed by at least one digit. */
  method SkipFraction(s: Bytes, i: nat) returns (ok: bool, j: nat)
    requires i <= |s|
    ensures j <= |s| && (SplitTail(s[i..]).Some? <==> ok && SplitExp(s[j..]).Some?)
  {
    j := i;
    if i < |s| && s[i] == '.' {
      assert s[i..][1..] == s[i + 1..];
      j := SkipDigits(s, i + 1);
      assert s[i + 1..][j - i - 1..] == s[j..];
      return j != i + 1, j;
    }
    return true, j;
  }

  /** The optional exponent: the digits are mandatory once e or E appears. */
  method SkipExponent(s: Bytes, i: nat) returns (ok: bool, j: nat)
    requires i <= |s|
    ensures j <= |s| && (SplitExp(s[i..]).Some? <==> ok && j == |s|)
  {
    j := i;
    if i < |s| && (s[i] == 'e' || s[i] == 'E') {
      j := j + 1;
      if j < |s| && (s[j] == '+' || s[j] == '-') {
        j := j + 1;
      }
      assert s[i..][j - i..] == s[j..];
      var start := j;
      j := SkipDigits(s, start);
      return j != start, j;
    }
    return true, j;
  }

  /** validJSONNumber */
  method ValidJSONNumber(s: Bytes) returns (valid: bool)
    ensures valid <==> IsNumber(s)
  {
    SplitIsGrammar(s);
    var i := if 0 < |s| && s[0] == '-' then 1 else 0;
    ghost var t := s[i..];
    ghost var begin := i;
    assert Split(s) == SplitUnsigned(i == 1, t);
    if i < |s| && s[i] == '0' {
      i := i + 1;
    } else if i < |s| && '1' <= s[i] <= '9' {
      i := SkipDigits(s, i);
    } else {
      return false;
    }
    assert i == begin + WholeSpan(t) && t[WholeSpan(t)..] == s[i..];
    var ok;
    ok, i := SkipFraction(s, i);
    if !ok {
      return false;
    }
    ok, i := SkipExponent(s, i);
    return ok && i == |s|;
  }

  /** isJSONIntegerToken */
  predicate IsIntegerToken(s: Bytes) {
    forall i :: 0 <= i < |s| ==> !(s[i] == '.' || IsMark(s[i]))
  }

  lemma IntegerTokenOf(t: Token)
    requires WellFormed(t)
    ensures IsIntegerToken(Render(t)) <==> t.frac.None? && t.exp.None?
  {
    var head := Sign(t.neg) + t.whole;
    var tail := RenderTail(t.frac, t.exp);
    assert Render(t) == head + tail;
    if tail == [] {
      assert head + tail == head;
    } else {
      assert tail[0] == '.' || IsMark(tail[0]);
      assert (head + tail)[|head|] == tail[0];
    }
  }

  lemma IntegerTokenSplit(s: Bytes)
    requires Split(s).Some?
    ensures IsIntegerToken(s) <==> Split(s).value.frac.None? && Split(s).value.exp.None?
  {
    SplitSound(s);
    IntegerTokenOf(Split(s).value);
  }

  /** An integer token's value */
  function IntegerValue(t: Token): int { Signed(t.neg, NatOf(t.whole)) }

  lemma NegativeZero()
    ensures Split("-0") == Some(Token(true, "0", None, None)) && IntegerValue(Token(true, "0", None, None)) == 0
  {
    var t := Token(true, "0", None, None);
    SplitOf(t);
    assert Render(t) == "-0";
    assert NatOf("0") == 0;
  }

  /** Integer tokens other than -0 are the decimal form of their value. */
  lemma IntegerTokenIsDecimal(s: Bytes)
    requires Split(s).Some? && IsIntegerToken(s) && s != "-0"
    ensures s == DecimalInt(IntegerValue(Split(s).value))
  {
    var t := Split(s).value;
    IntegerTokenSplit(s);
    SplitSound(s);
    DecimalOfNat(t.whole);
    assert s == Sign(t.neg) + t.whole;
    assert t.whole[0] == '0' ==> t.whole == "0";
  }

  lemma SplitOfDecimalInt(n: int)
    ensures Split(DecimalInt(n)).Some? && IsIntegerToken(DecimalInt(n))
    ensures IntegerValue(Split(DecimalInt(n)).value) == n
  {
    var t := Token(n < 0, Decimal(Abs(n)), None, None);
    DecimalIsWhole(Abs(n));
    NatOfDecimal(Abs(n));
    SplitOf(t);
    IntegerTokenOf(t);
    assert Render(t) == DecimalInt(n);
  }

  // ---- Floats --------------------------------------------------------------

  /** A float64 by its shortest decimal: digits d0.d1d2... times ten to the exp; zero has no digits. */
  datatype RawFloat = NaN | Inf(negative: bool) | Finite(neg: bool, digits: Bytes, exp: int)

  /** Digits without leading or trailing zeros */
  predicate IsTrimmed(d: Bytes) { AllDigits(d) && (d != [] ==> d[0] != '0' && d[|d| - 1] != '0') }

  predicate IsShortest(f: RawFloat) {
    f.Finite? ==> IsTrimmed(f.digits) && (f.digits == [] ==> f.exp == 0)
  }

  type Float = f: RawFloat | IsShortest(f) witness NaN

  function Zeros(n: nat): (s: Bytes)
    ensures |s| == n && forall i :: 0 <= i < n ==> s[i] == '0'
  {
    seq(n, _ => '0')
  }

  /** strconv.FormatFloat(f, 'f', -1, 64) */
  function FixedToken(f: Float): Token
    requires f.Finite? && f.digits != []
  {
    var d := f.digits;
    if f.exp < 0 then Token(f.neg, "0", Some(Zeros(-f.exp - 1) + d), None)
    else if f.exp + 1 >= |d| then Token(f.neg, d + Zeros(f.exp + 1 - |d|), None, None)
    else Token(f.neg, d[..f.exp + 1], Some(d[f.exp + 1..]), None)
  }

  /** strconv.FormatFloat(f, 'e', -1, 64), with the exponent's digits rewritten */
  function ScientificToken(f: Float, exponentDigits: Bytes): Token
    requires f.Finite? && f.digits != []
  {
    Token(f.neg, f.digits[..1], if |f.digits| > 1 then Some(f.digits[1..]) else None,
          Some(Exponent('e', if f.exp < 0 then "-" else "+", exponentDigits)))
  }

  /** pythonExponent, without its sign: at least two digits */
  function ExponentDigits(exp: int): Bytes {
    var digits := Decimal(Abs(exp));
    if |digits| < 2 then "0" + digits else digits
  }

  /** The token formatCanonicalFloat writes for a finite value */
  function CanonicalToken(f: Float): Token
    requires f.Finite?
  {
    if f.digits == [] then Token(f.neg, "0", Some("0"), None)
    else if f.exp >= 16 || f.exp <= -5 then ScientificToken(f, ExponentDigits(f.exp))
    else
      var fixed := FixedToken(f);
      if fixed.frac.None? then fixed.(frac := Some("0")) else fixed
  }

  /** formatCanonicalFloat */
  function FormatCanonicalFloat(f: Float): Result<Bytes> {
    if f.Finite? then Ok(Render(CanonicalToken(f))) else Err(NotCanonical)
  }

  /** The token encoding/json writes for a finite float64 in a stored body: 1.0 becomes 1. */
  function StoredToken(f: Float): Token
    requires f.Finite?
  {
    if f.digits == [] then Token(f.neg, "0", None, None)
    else if f.exp < -6 || f.exp >= 21 then
      ScientificToken(f, if f.exp < 0 then Decimal(-f.exp) else ExponentDigits(f.exp))
    else FixedToken(f)
  }

  function LeadingZeros(s: Bytes): (n: nat)
    ensures n <= |s|
  {
    if s != [] && s[0] == '0' then 1 + LeadingZeros(s[1..]) else 0
  }

  function StripZeros(s: Bytes): Bytes {
    if s != [] && s[|s| - 1] == '0' then StripZeros(s[..|s| - 1]) else s
  }

  /** All the digits of a token, whole part first */
  function DigitsOf(t: Token): Bytes { t.whole + (if t.frac.Some? then t.frac.value else []) }

  function ExponentOf(e: Option<Exponent>): int {
    if e.None? then 0 else Signed(e.value.sign == "-", NatOf(e.value.digits))
  }

  /** The decimal a token denotes: its digits without leading and trailing zeros, and where the point goes. */
  function DecimalValue(t: Token): RawFloat {
    var lead := LeadingZeros(DigitsOf(t));
    var digits := StripZeros(DigitsOf(t)[lead..]);
    Finite(t.neg, digits, if digits == [] then 0 else |t.whole| - 1 - lead + ExponentOf(t.exp))
  }

  lemma {:induction false} LeadingZerosOf(n: nat, d: Bytes)
    requires d != [] ==> d[0] != '0'
    ensures LeadingZeros(Zeros(n) + d) == n
  {
    if n == 0 {
      assert Zeros(n) + d == d;
    } else {
      assert (Zeros(n) + d)[1..] == Zeros(n - 1) + d;
      LeadingZerosOf(n - 1, d);
    }
  }

  lemma {:induction false} StripZerosOf(d: Bytes, n: nat)
    requires d != [] ==> d[|d| - 1] != '0'
    ensures StripZeros(d + Zeros(n)) == d
  {
    if n == 0 {
      assert d + Zeros(n) == d;
    } else {
      assert (d + Zeros(n))[..|d| + n - 1] == d + Zeros(n - 1);
      StripZerosOf(d, n - 1);
    }
  }

  /** A token whose digits are zeros, the shortest digits, then zeros denotes that shortest decimal. */
  lemma DecimalValueOf(t: Token, lead: nat, d: Bytes, trail: nat)
    requires IsTrimmed(d) && (d == [] ==> trail == 0)
    requires DigitsOf(t) == Zeros(lead) + (d + Zeros(trail))
    ensures DecimalValue(t) ==
            Finite(t.neg, d, if d == [] then 0 else |t.whole| - 1 - lead + ExponentOf(t.exp))
  {
    LeadingZerosOf(lead, d + Zeros(trail));
    assert DigitsOf(t)[lead..] == d + Zeros(trail);
    StripZerosOf(d, trail);
  }

  lemma {:induction false} LeadingZeroValue(d: Bytes)
    ensures NatOf("0" + d) == NatOf(d)
  {
    if d != [] {
      LeadingZeroValue(d[..|d| - 1]);
      assert ("0" + d)[..|d|] == "0" + d[..|d| - 1];
    } else {
      assert ("0" + d)[..0] == [];
    }
  }

  lemma ExponentDigitsOf(exp: int)
    ensures AllDigits(ExponentDigits(exp)) && ExponentDigits(exp) != []
    ensures NatOf(ExponentDigits(exp)) == Abs(exp)
  {
    DecimalIsWhole(Abs(exp));
    NatOfDecimal(Abs(exp));
    LeadingZeroValue(Decimal(Abs(exp)));
  }

  lemma ScientificTokenOf(f: Float, e: Bytes)
    requires f.Finite? && f.digits != [] && AllDigits(e) && e != []
    ensures WellFormed(ScientificToken(f, e))
    ensures DigitsOf(ScientificToken(f, e)) == f.digits
    ensures ExponentOf(ScientificToken(f, e).exp) == Signed(f.exp < 0, NatOf(e))
  {
    var t := ScientificToken(f, e);
    assert IsWhole(t.whole) && IsFrac(t.frac) && IsExponent(t.exp);
    assert f.digits == f.digits[..1] + f.digits[1..];
  }

  lemma ScientificTokenValue(f: Float, e: Bytes)
    requires f.Finite? && f.digits != [] && AllDigits(e) && e != [] && NatOf(e) == Abs(f.exp)
    ensures WellFormed(ScientificToken(f, e)) && DecimalValue(ScientificToken(f, e)) == f
  {
    ScientificTokenOf(f, e);
    assert f.digits == Zeros(0) + (f.digits + Zeros(0));
    DecimalValueOf(ScientificToken(f, e), 0, f.digits, 0);
  }

  lemma FixedTokenOf(f: Float) returns (lead: nat, trail: nat)
    requires f.Finite? && f.digits != []
    ensures WellFormed(FixedToken(f)) && FixedToken(f).exp.None?
    ensures DigitsOf(FixedToken(f)) == Zeros(lead) + (f.digits + Zeros(trail))
    ensures |FixedToken(f).whole| - 1 - lead == f.exp
    ensures FixedToken(f).frac.None? ==> lead == 0
  {
    var t, d := FixedToken(f), f.digits;
    lead, trail := 0, 0;
    if f.exp < 0 {
      lead := -f.exp;
      assert DigitsOf(t) == Zeros(lead) + (d + Zeros(0));
    } else if f.exp + 1 >= |d| {
      trail := f.exp + 1 - |d|;
      assert DigitsOf(t) == Zeros(0) + (d + Zeros(trail));
    } else {
      assert DigitsOf(t) == Zeros(0) + (d + Zeros(0));
    }
  }

  lemma FixedTokenValue(f: Float)
    requires f.Finite? && f.digits != []
    ensures WellFormed(FixedToken(f)) && DecimalValue(FixedToken(f)) == f
  {
    var lead, trail := FixedTokenOf(f);
    DecimalValueOf(FixedToken(f), lead, f.digits, trail);
  }

  /** A fixed notation without a point gets a fraction of 0, which changes nothing. */
  lemma CanonicalIntegral(f: Float)
    requires f.Finite? && f.digits != [] && FixedToken(f).frac.None?
    ensures var t := FixedToken(f).(frac := Some("0")); WellFormed(t) && DecimalValue(t) == f
  {
    var t := FixedToken(f).(frac := Some("0"));
    var lead, trail := FixedTokenOf(f);
    assert Zeros(trail + 1) == Zeros(trail) + "0";
    assert DigitsOf(t) == DigitsOf(FixedToken(f)) + "0";
    assert DigitsOf(t) == Zeros(0) + (f.digits + Zeros(trail + 1));
    DecimalValueOf(t, 0, f.digits, trail + 1);
  }

  lemma CanonicalZero(f: Float)
    requires f.Finite? && f.digits == []
    ensures WellFormed(CanonicalToken(f)) && DecimalValue(CanonicalToken(f)) == f
  {
    var t := CanonicalToken(f);
    assert DigitsOf(t) == Zeros(2) + ([] + Zeros(0));
    DecimalValueOf(t, 2, [], 0);
  }

  lemma CanonicalTokenExact(f: Float)
    requires f.Finite?
    ensures WellFormed(CanonicalToken(f)) && DecimalValue(CanonicalToken(f)) == f
  {
    if f.digits == [] {
      CanonicalZero(f);
    } else if f.exp >= 16 || f.exp <= -5 {
      ExponentDigitsOf(f.exp);
      ScientificTokenValue(f, ExponentDigits(f.exp));
    } else if FixedToken(f).frac.None? {
      CanonicalIntegral(f);
    } else {
      FixedTokenValue(f);
    }
  }

  /** The float writer stays inside the grammar, keeps the exact value and never looks like an integer. */
  lemma FormatIsExact(f: Float)
    requires f.Finite?
    ensures var s := FormatCanonicalFloat(f).value;
            IsNumber(s) && !IsIntegerToken(s) && Split(s).Some? && DecimalValue(Split(s).value) == f
  {
    CanonicalTokenExact(f);
    SplitOf(CanonicalToken(f));
    IntegerTokenOf(CanonicalToken(f));
  }

  // ---- Which notation ------------------------------------------------------

  /** A fraction without a superfluous zero at its end */
  predicate IsTight(frac: Bytes) { frac != [] && frac[|frac| - 1] != '0' }

  /**
    * CPython's choice between the two notations. With an exponent: one whole digit, the further digits as a fraction, a
    * lower-case e, an explicit sign, and at least two exponent digits, padded no further. Without one: a fraction, a
    * lone 0 when the value is integral.
    */
  ghost predicate PythonNotation(f: RawFloat, t: Token)
    requires f.Finite?
  {
    && t.neg == f.neg
    && (t.exp.Some? <==> f.digits != [] && (f.exp >= 16 || f.exp <= -5))
    && (t.exp.Some? ==>
          && |t.whole| == 1 && (t.frac.Some? <==> |f.digits| > 1) && (t.frac.Some? ==> IsTight(t.frac.value))
          && t.exp.value.mark == 'e' && t.exp.value.sign == (if f.exp < 0 then "-" else "+")
          && |t.exp.value.digits| >= 2 && (|t.exp.value.digits| > 2 ==> t.exp.value.digits[0] != '0'))
    && (t.exp.None? ==> t.frac.Some? && (t.frac.value == "0" || IsTight(t.frac.value)))
  }

  lemma TightDigits(d: Bytes, n: nat)
    requires IsTrimmed(d) && d != [] && n < |d|
    ensures IsTight(d[n..]) && IsTight(d)
  {
  }

  lemma ExponentPadding(exp: int)
    requires exp >= 10 || exp <= -10
    ensures |ExponentDigits(exp)| >= 2 && ExponentDigits(exp)[0] != '0'
  {
    DecimalIsWhole(Abs(exp));
    var m := Abs(exp) / 10;
    assert |Decimal(Abs(exp))| == |Decimal(m)| + 1;
  }

  lemma ScientificNotation(f: Float)
    requires f.Finite? && f.digits != [] && (f.exp >= 16 || f.exp <= -5)
    ensures PythonNotation(f, ScientificToken(f, ExponentDigits(f.exp)))
  {
    if |f.digits| > 1 { TightDigits(f.digits, 1); }
    if f.exp <= -10 || f.exp >= 10 {
      ExponentPadding(f.exp);
    } else {
      assert |Decimal(Abs(f.exp))| == 1;
    }
  }

  lemma FixedNotation(f: Float)
    requires f.Finite? && f.digits != []
    ensures var t := FixedToken(f); t.frac.Some? ==> IsTight(t.frac.value)
    ensures FixedToken(f).exp.None? && FixedToken(f).neg == f.neg
  {
    if f.exp < 0 {
      TightDigits(f.digits, 0);
      var frac := Zeros(-f.exp - 1) + f.digits;
      assert frac[|frac| - 1] == f.digits[|f.digits| - 1];
    } else if f.exp + 1 < |f.digits| {
      TightDigits(f.digits, f.exp + 1);
    }
  }

  /** The text of a finite float is in CPython's notation: scientific exactly for exponents from 16 up and -5 down. */
  lemma FormatNotation(f: Float)
    requires f.Finite?
    ensures var s := FormatCanonicalFloat(f).value; Split(s).Some? && PythonNotation(f, Split(s).value)
  {
    CanonicalTokenExact(f);
    SplitOf(CanonicalToken(f));
    if f.digits != [] {
      if f.exp >= 16 || f.exp <= -5 { ScientificNotation(f); } else { FixedNotation(f); }
    }
    hide Render, Split, DecimalValue;
  }

  /**
    * The choice of encoding/json, which stores bodies: scientific below 1e-6 and from 1e21 up, with no padding of a
    * negative exponent, and no fraction at all for an integral value in fixed notation.
    */
  ghost predicate GoNotation(f: RawFloat, t: Token)
    requires f.Finite?
  {
    && t.neg == f.neg
    && (t.exp.Some? <==> f.digits != [] && (f.exp >= 21 || f.exp < -6))
    && (t.exp.Some? ==>
          && |t.whole| == 1 && (t.frac.Some? <==> |f.digits| > 1) && (t.frac.Some? ==> IsTight(t.frac.value))
          && t.exp.value.mark == 'e' && t.exp.value.sign == (if f.exp < 0 then "-" else "+")
          && t.exp.value.digits != [] && t.exp.value.digits[0] != '0')
    && (t.exp.None? ==> (t.frac.Some? ==> IsTight(t.frac.value)))
  }

  lemma UnpaddedExponent(n: nat)
    requires n > 0
    ensures Decimal(n) != [] && Decimal(n)[0] != '0'
  {
    DecimalIsWhole(n);
    NatOfDecimal(n);
  }

  lemma GoScientific(f: Float)
    requires f.Finite? && f.digits != [] && (f.exp >= 21 || f.exp < -6)
    ensures GoNotation(f, ScientificToken(f, if f.exp < 0 then Decimal(-f.exp) else ExponentDigits(f.exp)))
  {
    if |f.digits| > 1 { TightDigits(f.digits, 1); }
    UnpaddedExponent(Abs(f.exp));
    if f.exp >= 21 { ExponentPadding(f.exp); }
    hide Decimal, ExponentDigits;
  }

  lemma GoFixed(f: Float)
    requires f.Finite? && (f.digits != [] ==> -6 <= f.exp < 21)
    ensures GoNotation(f, StoredToken(f))
  {
    if f.digits != [] { FixedNotation(f); }
    hide FixedToken;
  }

  /** The text a native float is stored as is in the notation of encoding/json. */
  lemma StoredNotation(f: Float)
    requires f.Finite?
    ensures var s := Render(StoredToken(f)); Split(s).Some? && GoNotation(f, Split(s).value)
  {
    StoredTokenExact(f);
    hide Render, Split, DecimalValue, GoNotation, Decimal, ExponentDigits;
    SplitOf(StoredToken(f));
    if f.digits != [] && (f.exp >= 21 || f.exp < -6) { GoScientific(f); } else { GoFixed(f); }
  }

  lemma StoredZero(f: Float)
    requires f.Finite? && f.digits == []
    ensures WellFormed(StoredToken(f)) && DecimalValue(StoredToken(f)) == f
  {
    var t := StoredToken(f);
    assert DigitsOf(t) == Zeros(1) + ([] + Zeros(0));
    DecimalValueOf(t, 1, [], 0);
  }

  lemma StoredExponentDigits(exp: int) returns (e: Bytes)
    ensures e == if exp < 0 then Decimal(-exp) else ExponentDigits(exp)
    ensures AllDigits(e) && e != [] && NatOf(e) == Abs(exp)
  {
    e := if exp < 0 then Decimal(-exp) else ExponentDigits(exp);
    ExponentDigitsOf(exp);
    DecimalIsWhole(Abs(exp));
    NatOfDecimal(Abs(exp));
  }

  lemma StoredTokenExact(f: Float)
    requires f.Finite?
    ensures WellFormed(StoredToken(f)) && DecimalValue(StoredToken(f)) == f
  {
    if f.digits == [] {
      StoredZero(f);
    } else if f.exp < -6 || f.exp >= 21 {
      hide DecimalValue, ScientificToken, ExponentDigits, Decimal;
      var e := StoredExponentDigits(f.exp);
      ScientificTokenValue(f, e);
    } else {
      hide DecimalValue, FixedToken;
      FixedTokenValue(f);
    }
  }

  /** Distinct floats are written differently. */
  lemma FormatInjective(f: Float, g: Float)
    requires f.Finite? && g.Finite? && Render(CanonicalToken(f)) == Render(CanonicalToken(g))
    ensures f == g
  {
    FormatIsExact(f);
    FormatIsExact(g);
  }

  lemma DecimalLength(n: nat)
    requires n < 1000
    ensures |Decimal(n)| <= 3
  {
    if n >= 10 {
      var m := n / 10;
      if m >= 10 { assert |Decimal(m / 10)| == 1; }
    }
  }

  /** Every float64 fits in 24 bytes: at most 17 digits and an exponent within 324. */
  lemma FormatLength(f: Float)
    requires f.Finite? && |f.digits| <= 17 && -324 <= f.exp <= 324
    ensures |FormatCanonicalFloat(f).value| <= 24
  {
    DecimalLength(Abs(f.exp));
    var t := CanonicalToken(f);
    if f.digits != [] && -5 < f.exp < 16 {
      assert t.exp.None? && |t.whole| + |RenderFrac(t.frac)| <= 23;
    } else {
      assert |RenderFrac(t.frac)| <= 17 && |RenderExp(t.exp)| <= 5 && |t.whole| == 1;
    }
  }
}
