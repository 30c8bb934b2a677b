/** The JavaScript string and number primitives the core relies on:
    `String.prototype.trim`, `toLowerCase`, `includes`, `Number.prototype.toString`
    on integers, `Boolean.prototype.toString` and the global `parseInt`. */
module JsText {
  import opened Optional

  /** A JavaScript number as the core sees it: a finite value, or NaN. */
  datatype JsNumber = Num(value: real) | NaN

  /** JavaScript's unary minus on a number. */
  function Negate(n: JsNumber): JsNumber {
    match n
    case Num(x) => Num(-x)
    case NaN => NaN
  }

  /** `a < b` on JavaScript numbers: false whenever either side is NaN. */
  predicate Less(a: JsNumber, b: JsNumber) {
    a.Num? && b.Num? && a.value < b.value
  }

  /** `a >= b` on JavaScript numbers: false whenever either side is NaN. */
  predicate AtLeast(a: JsNumber, b: JsNumber) {
    a.Num? && b.Num? && a.value >= b.value
  }

  /** The characters ECMAScript counts as WhiteSpace or LineTerminator,
      which both `trim` and `parseInt` skip. */
  predicate IsWhitespace(c: char) {
    || c == '\t' || c == '\n' || c == '\U{000B}' || c == '\U{000C}' || c == '\r'
    || c == ' ' || c == '\U{00A0}' || c == '\U{1680}' || ('\U{2000}' <= c <= '\U{200A}')
    || c == '\U{2028}' || c == '\U{2029}' || c == '\U{202F}' || c == '\U{205F}'
    || c == '\U{3000}' || c == '\U{FEFF}'
  }

  /** The number of whitespace characters `s` starts with. */
  function LeadingWhitespace(s: string): (n: nat)
    ensures n <= |s|
    ensures forall i :: 0 <= i < n ==> IsWhitespace(s[i])
    ensures n < |s| ==> !IsWhitespace(s[n])
  {
    if |s| > 0 && IsWhitespace(s[0]) then 1 + LeadingWhitespace(s[1..]) else 0
  }

  /** The length of `s` without the whitespace it ends with. */
  function LengthBeforeTrailingWhitespace(s: string): (n: nat)
    ensures n <= |s|
    ensures forall i :: n <= i < |s| ==> IsWhitespace(s[i])
    ensures n > 0 ==> !IsWhitespace(s[n - 1])
  {
    if |s| > 0 && IsWhitespace(s[|s| - 1]) then LengthBeforeTrailingWhitespace(s[..|s| - 1]) else |s|
  }

  /** Drops the leading whitespace of `s`. */
  function TrimStart(s: string): (r: string)
    ensures |r| <= |s| && r == s[|s| - |r|..]
    ensures forall i :: 0 <= i < |s| - |r| ==> IsWhitespace(s[i])
    ensures r == [] || !IsWhitespace(r[0])
  {
    s[LeadingWhitespace(s)..]
  }

  /** Drops the trailing whitespace of `s`. */
  function TrimEnd(s: string): (r: string)
    ensures |r| <= |s| && r == s[..|r|]
    ensures forall i :: |r| <= i < |s| ==> IsWhitespace(s[i])
    ensures r == [] || !IsWhitespace(r[|r| - 1])
  {
    s[..LengthBeforeTrailingWhitespace(s)]
  }

  /** `String.prototype.trim`. */
  function Trim(s: string): (r: string)
    ensures |r| <= |s|
    ensures r == [] || (!IsWhitespace(r[0]) && !IsWhitespace(r[|r| - 1]))
  {
    TrimEnd(TrimStart(s))
  }

  /** `trim` keeps a contiguous middle part of the string and removes only
      whitespace around it; what it keeps neither starts nor ends with whitespace. */
  lemma TrimKeepsMiddle(s: string)
    ensures OccursAt(s, Trim(s), |s| - |TrimStart(s)|)
    ensures forall i :: 0 <= i < |s| - |TrimStart(s)| ==> IsWhitespace(s[i])
    ensures forall i :: |s| - |TrimStart(s)| + |Trim(s)| <= i < |s| ==> IsWhitespace(s[i])
    ensures Trim(s) == [] || (!IsWhitespace(Trim(s)[0]) && !IsWhitespace(Trim(s)[|Trim(s)| - 1]))
  {
    var t := TrimStart(s);
    var r := TrimEnd(t);
    KeptMiddle(s, t, r);
    assert Trim(s) == r;
  }

  /** A whitespace-free start `t` of `s` cut short by a trailing run of
      whitespace to `r`: `r` sits in `s` where `t` starts, with only
      whitespace on either side of it. */
  lemma KeptMiddle(s: string, t: string, r: string)
    requires |t| <= |s| && t == s[|s| - |t|..]
    requires forall i :: 0 <= i < |s| - |t| ==> IsWhitespace(s[i])
    requires t == [] || !IsWhitespace(t[0])
    requires |r| <= |t| && r == t[..|r|]
    requires forall i :: |r| <= i < |t| ==> IsWhitespace(t[i])
    requires r == [] || !IsWhitespace(r[|r| - 1])
    ensures var a := |s| - |t|;
      && OccursAt(s, r, a)
      && (forall i :: 0 <= i < a ==> IsWhitespace(s[i]))
      && (forall i :: a + |r| <= i < |s| ==> IsWhitespace(s[i]))
      && (r == [] || (!IsWhitespace(r[0]) && !IsWhitespace(r[|r| - 1])))
  {
    var a := |s| - |t|;
    assert s[a..a + |r|] == r;
    forall i | a + |r| <= i < |s|
      ensures IsWhitespace(s[i])
    {
      assert s[i] == t[i - a];
    }
    if r != [] {
      assert r[0] == t[0];
    }
  }

  /** ASCII case folding of one character, as `toLowerCase` does on A–Z. */
  function LowerChar(c: char): char {
    if 'A' <= c <= 'Z' then (c as int + 32) as char else c
  }

  /** `String.prototype.toLowerCase`, restricted to the ASCII letters. */
  function ToLower(s: string): (r: string)
    ensures |r| == |s|
    ensures forall i :: 0 <= i < |s| ==> !('A' <= r[i] <= 'Z')
    ensures forall i :: 0 <= i < |s| && !('A' <= s[i] <= 'Z') ==> r[i] == s[i]
    ensures forall i :: 0 <= i < |s| && 'A' <= s[i] <= 'Z' ==> r[i] as int == s[i] as int + 32
  {
    seq(|s|, i requires 0 <= i < |s| => LowerChar(s[i]))
  }

  /** Lowering twice is lowering once, and no upper-case ASCII letter survives. */
  lemma ToLowerIdempotent(s: string)
    ensures ToLower(ToLower(s)) == ToLower(s)
    ensures forall i :: 0 <= i < |s| ==> !('A' <= ToLower(s)[i] <= 'Z')
  {
  }

  /** `sub` occurs in `s` starting at index `i`. */
  predicate OccursAt(s: string, sub: string, i: int) {
    0 <= i && i + |sub| <= |s| && s[i..i + |sub|] == sub
  }

  /** `String.prototype.includes`: a left-to-right search for `sub`. */
  function Includes(s: string, sub: string): (r: bool)
    ensures r <==> exists i :: OccursAt(s, sub, i)
    decreases |s|
  {
    if |sub| > |s| then
      false
    else if s[..|sub|] == sub then
      assert OccursAt(s, sub, 0);
      true
    else
      var r := Includes(s[1..], sub);
      if r then
        var i :| OccursAt(s[1..], sub, i);
        assert OccursAt(s, sub, i + 1);
        r
      else
        assert forall i :: OccursAt(s, sub, i) ==> i > 0 && OccursAt(s[1..], sub, i - 1);
        r
  }

  /** `Boolean.prototype.toString`. */
  function BoolToString(b: bool): string {
    if b then "true" else "false"
  }

  predicate IsDecimalDigit(c: char) {
    '0' <= c <= '9'
  }

  /** The value of a character as a digit in base 16, or 16 if it is none. */
  function HexValue(c: char): (v: nat)
    ensures v <= 16
    ensures IsDecimalDigit(c) ==> v == c as int - '0' as int
  {
    if '0' <= c <= '9' then c as int - '0' as int
    else if 'a' <= c <= 'f' then c as int - 'a' as int + 10
    else if 'A' <= c <= 'F' then c as int - 'A' as int + 10
    else 16
  }

  /** `c` is a digit of the given base (10 or 16). */
  predicate IsDigit(c: char, base: nat) {
    HexValue(c) < base
  }

  /** The length of the longest prefix of `s` made of digits of `base`. */
  function DigitRun(s: string, base: nat): (n: nat)
    ensures n <= |s|
    ensures forall i :: 0 <= i < n ==> IsDigit(s[i], base)
    ensures n < |s| ==> !IsDigit(s[n], base)
  {
    if |s| > 0 && IsDigit(s[0], base) then 1 + DigitRun(s[1..], base) else 0
  }

  /** The value of a string of digits in `base`, most significant digit first. */
  function DigitsValue(ds: string, base: nat): int
    requires forall i :: 0 <= i < |ds| ==> IsDigit(ds[i], base)
  {
    if ds == [] then 0
    else
      var front := ds[..|ds| - 1];
      assert forall i :: 0 <= i < |front| ==> IsDigit(front[i], base);
      DigitsValue(front, base) * base + HexValue(ds[|ds| - 1])
  }

  /** The radix argument of `parseInt`: 10, or omitted (a `0x` prefix selects 16). */
  datatype Radix = Decimal | Auto

  /** The digits after the sign: a `0x` prefix selects base 16 when no radix
      is given; then the longest run of digits, or nothing if there is none. */
  function ParseMagnitude(u: string, radix: Radix): Option<int> {
    var hex := radix == Auto && |u| >= 2 && u[0] == '0' && (u[1] == 'x' || u[1] == 'X');
    var base := if hex then 16 else 10;
    var body := if hex then u[2..] else u;
    var n := DigitRun(body, base);
    if n == 0 then None else Some(DigitsValue(body[..n], base))
  }

  /** The text after the leading whitespace: an optional sign, then the
      magnitude; no digit at all gives NaN. */
  function ParseSigned(t: string, radix: Radix): (r: JsNumber)
    ensures r.Num? ==> r.value == r.value.Floor as real
    ensures t == [] ==> r == NaN
  {
    var negative := |t| > 0 && t[0] == '-';
    var u := if |t| > 0 && (t[0] == '-' || t[0] == '+') then t[1..] else t;
    match ParseMagnitude(u, radix)
    case None => NaN
    case Some(m) =>
      var n := if negative then -m else m;
      WholeNumber(n);
      Num(n as real)
  }

  /** An integer converted to a real has no fractional part. */
  lemma WholeNumber(n: int)
    ensures (n as real).Floor as real == n as real
  {
  }

  /** `parseInt(s, radix)`: skip leading whitespace, then read a signed number. */
  function ParseInt(s: string, radix: Radix): (r: JsNumber)
    ensures r.Num? ==> r.value == r.value.Floor as real
    ensures TrimStart(s) == [] ==> r == NaN
  {
    ParseSigned(TrimStart(s), radix)
  }

  function DigitChar(d: nat): char
    requires d < 10
  {
    ('0' as int + d) as char
  }

  /** The decimal rendering of a natural number, without leading zeros. */
  function NatToString(n: nat): (r: string)
    ensures |r| > 0
    ensures forall i :: 0 <= i < |r| ==> IsDecimalDigit(r[i])
  {
    if n < 10 then [DigitChar(n)] else NatToString(n / 10) + [DigitChar(n % 10)]
  }

  /** `Number.prototype.toString()` on an integer value. */
  function IntToString(n: int): (r: string)
    ensures r != [] && (r[0] == '-' <==> n < 0)
    ensures forall i :: (if n < 0 then 1 else 0) <= i < |r| ==> IsDecimalDigit(r[i])
  {
    if n < 0 then "-" + NatToString(-n) else NatToString(n)
  }

  /** Reading back the decimal rendering of `n` gives `n`. */
  lemma {:induction false} NatToStringValue(n: nat)
    ensures forall i :: 0 <= i < |NatToString(n)| ==> IsDigit(NatToString(n)[i], 10)
    ensures DigitsValue(NatToString(n), 10) == n
  {
    var s := NatToString(n);
    if n >= 10 {
      NatToStringValue(n / 10);
      assert s[..|s| - 1] == NatToString(n / 10);
    }
  }

  /** A plain run of decimal digits reads as its decimal value. */
  lemma MagnitudeOfDecimal(u: string, radix: Radix)
    requires u != [] && forall i :: 0 <= i < |u| ==> IsDecimalDigit(u[i])
    ensures forall i :: 0 <= i < |u| ==> IsDigit(u[i], 10)
    ensures ParseMagnitude(u, radix) == Some(DigitsValue(u, 10))
  {
    assert !(|u| >= 2 && (u[1] == 'x' || u[1] == 'X'));
    assert DigitRun(u, 10) == |u|;
    assert u[..|u|] == u;
  }

  /** A run of decimal digits that does not start with whitespace is read
      as it stands. */
  lemma TrimStartOfDigits(s: string)
    requires s != [] && (IsDecimalDigit(s[0]) || s[0] == '-')
    ensures TrimStart(s) == s
  {
    assert !IsWhitespace(s[0]);
  }

  /** A minus sign in front of unsigned text negates what the text reads as. */
  lemma MinusNegates(u: string, radix: Radix)
    requires u == [] || (u[0] != '-' && u[0] != '+')
    ensures ParseSigned("-" + u, radix) == Negate(ParseSigned(u, radix))
  {
    assert ("-" + u)[1..] == u;
  }

  /** A run of decimal digits reads as its decimal value. */
  lemma ParseUnsignedDecimal(digits: string, radix: Radix)
    requires digits != [] && forall i :: 0 <= i < |digits| ==> IsDecimalDigit(digits[i])
    ensures forall i :: 0 <= i < |digits| ==> IsDigit(digits[i], 10)
    ensures ParseSigned(digits, radix) == Num(DigitsValue(digits, 10) as real)
  {
    MagnitudeOfDecimal(digits, radix);
    assert digits[0] != '-' && digits[0] != '+';
  }

  /** `parseInt(String(n))` is `n` for every integer `n`, whether or not a
      radix is given. */
  lemma ParseIntRoundTrip(n: int, radix: Radix)
    ensures ParseInt(IntToString(n), radix) == Num(n as real)
  {
    var m: nat := if n < 0 then -n else n;
    var digits := NatToString(m);
    NatToStringValue(m);
    ParseUnsignedDecimal(digits, radix);
    TrimStartOfDigits(IntToString(n));
    if n < 0 {
      MinusNegates(digits, radix);
    }
  }

  /** Distinct integers render to distinct strings. */
  lemma IntToStringInjective(a: int, b: int)
    requires IntToString(a) == IntToString(b)
    ensures a == b
  {
    ParseIntRoundTrip(a, Decimal);
    ParseIntRoundTrip(b, Decimal);
  }
}
