/**
 * Models of the PHP string and number primitives that the SQL layer and the
 * file helpers are built from: trim, strtolower, substr, implode, str_replace,
 * string truthiness, and the conversions between integers and decimal text.
 * Strings are sequences of characters, one character per byte of the
 * original; no multi-byte encoding is modelled.
 */
module PhpText {

  datatype Option<+T> = None | Some(value: T)

  /** The characters that trim, ltrim and rtrim strip when no list is given. */
  predicate IsBlank(c: char) {
    c == ' ' || c == '\t' || c == '\n' || c == '\r' || c == '\0' || c == '\U{B}'
  }

  /** ltrim($s): drops the longest blank prefix (LTrimShape). */
  function LTrim(s: string): string {
    if |s| > 0 && IsBlank(s[0]) then LTrim(s[1..]) else s
  }

  /** What ltrim leaves is a suffix, starts with a non-blank, and everything cut was blank. */
  lemma {:induction false} LTrimShape(s: string)
    ensures |LTrim(s)| <= |s| && LTrim(s) == s[|s| - |LTrim(s)|..]
    ensures LTrim(s) == [] || !IsBlank(LTrim(s)[0])
    ensures forall i :: 0 <= i < |s| - |LTrim(s)| ==> IsBlank(s[i])
  {
    if |s| > 0 && IsBlank(s[0]) {
      LTrimShape(s[1..]);
    }
  }

  /** rtrim($s): drops the longest blank suffix. */
  function RTrim(s: string): (r: string)
    ensures |r| <= |s| && r == s[..|r|]
    ensures r == [] || !IsBlank(r[|r| - 1])
    ensures forall i :: |r| <= i < |s| ==> IsBlank(s[i])
  {
    if |s| > 0 && IsBlank(s[|s| - 1]) then RTrim(s[..|s| - 1]) else s
  }

  /** trim($s). */
  function Trim(s: string): string {
    RTrim(LTrim(s))
  }

  /** strtolower on one byte: only the ASCII capitals change. */
  function LowerChar(c: char): char {
    if 'A' <= c <= 'Z' then (c as int + 32) as char else c
  }

  function Lower(s: string): (r: string)
    ensures |r| == |s|
    ensures forall i :: 0 <= i < |s| ==> r[i] == LowerChar(s[i])
  {
    seq(|s|, i requires 0 <= i < |s| => LowerChar(s[i]))
  }

  /** substr($s, 0, $n) for $n >= 0. */
  function Take(s: string, n: nat): string {
    if n <= |s| then s[..n] else s
  }

  /** implode($sep, $parts). */
  function Join(sep: string, parts: seq<string>): string {
    if |parts| == 0 then ""
    else if |parts| == 1 then parts[0]
    else parts[0] + sep + Join(sep, parts[1..])
  }

  /** Joining two non-empty lists is joining each and gluing with one more separator. */
  lemma {:induction false} JoinAppend(sep: string, a: seq<string>, b: seq<string>)
    requires |a| > 0 && |b| > 0
    ensures Join(sep, a + b) == Join(sep, a) + sep + Join(sep, b)
  {
    if |a| == 1 {
      assert (a + b)[1..] == b;
    } else {
      assert (a + b)[1..] == a[1..] + b;
      JoinAppend(sep, a[1..], b);
    }
  }

  /** A PHP string is falsy exactly when it is "" or "0". */
  predicate Truthy(s: string) {
    s != "" && s != "0"
  }

  /** str_replace("'", '', $s). */
  function StripQuotes(s: string): (r: string)
    ensures '\'' !in r
    ensures |r| <= |s|
    ensures '\'' !in s ==> r == s
  {
    if s == [] then []
    else if s[0] == '\'' then StripQuotes(s[1..])
    else [s[0]] + StripQuotes(s[1..])
  }

  predicate IsDigit(c: char) {
    '0' <= c <= '9'
  }

  predicate AllDigits(s: string) {
    forall i :: 0 <= i < |s| ==> IsDigit(s[i])
  }

  function DigitChar(d: nat): (c: char)
    requires d < 10
    ensures IsDigit(c)
  {
    ('0' as int + d) as char
  }

  /** The value of a run of decimal digits; the empty run is worth 0, as "" is in PHP arithmetic. */
  function DigitsValue(d: string): nat
    requires AllDigits(d)
  {
    if d == [] then 0
    else DigitsValue(d[..|d| - 1]) * 10 + (d[|d| - 1] as int - '0' as int)
  }

  /** Decimal text of a natural number, without leading zeros. */
  function NatToDigits(n: nat): (r: string)
    ensures |r| >= 1 && AllDigits(r)
    ensures DigitsValue(r) == n
  {
    if n < 10 then [DigitChar(n)]
    else
      var r := NatToDigits(n / 10) + [DigitChar(n % 10)];
      assert r[..|r| - 1] == NatToDigits(n / 10);
      r
  }

  /** PHP's decimal rendering of an integer ("$n", strval). */
  function IntToString(n: int): (r: string)
    ensures |r| >= 1
    ensures n >= 0 ==> AllDigits(r)
    ensures n < 0 ==> r[0] == '-' && AllDigits(r[1..])
  {
    if n < 0 then "-" + NatToDigits(-n) else NatToDigits(n)
  }

  /** The length of the longest prefix of s made of digits. */
  function DigitPrefixLength(s: string): (k: nat)
    ensures k <= |s| && AllDigits(s[..k])
    ensures k == |s| || !IsDigit(s[k])
  {
    if |s| > 0 && IsDigit(s[0]) then
      var k := 1 + DigitPrefixLength(s[1..]);
      assert s[..k] == [s[0]] + s[1..][..k - 1];
      k
    else 0
  }

  /**
   * The integer PHP reads from the front of a string in arithmetic: an
   * optional sign and the digits after it; a string that starts with
   * neither is worth 0. Fractions and exponents are not read; the blanks PHP
   * skips first are skipped by NumericPrefix.
   */
  function LeadingInt(s: string): int {
    if |s| > 0 && (s[0] == '-' || s[0] == '+') then
      var t := s[1..];
      var v: int := DigitsValue(t[..DigitPrefixLength(t)]);
      if s[0] == '-' then -v else v
    else
      DigitsValue(s[..DigitPrefixLength(s)])
  }

  /** The blanks PHP skips before the number when it converts a string: space, \t, \n, \r, \v and \f. */
  predicate IsNumberSpace(c: char) {
    c == ' ' || c == '\t' || c == '\n' || c == '\r' || c == '\U{B}' || c == '\U{C}'
  }

  function SkipNumberSpace(s: string): string {
    if |s| > 0 && IsNumberSpace(s[0]) then SkipNumberSpace(s[1..]) else s
  }

  /** The number a leading-numeric string stands for in arithmetic: the blanks are skipped, then the integer read. */
  function NumericPrefix(s: string): int {
    LeadingInt(SkipNumberSpace(s))
  }

  /** The range of a PHP integer on a 64-bit build. */
  const PhpIntMax: int := 0x7FFF_FFFF_FFFF_FFFF
  const PhpIntMin: int := -0x8000_0000_0000_0000

  /** A number outside the 64-bit range pinned to the nearer bound, as the string-to-int cast does. */
  function Saturate(n: int): int {
    if n > PhpIntMax then PhpIntMax else if n < PhpIntMin then PhpIntMin else n
  }

  /** A scalar argument as a PHP caller may pass it. */
  datatype Scalar = NullArg | BoolArg(b: bool) | IntArg(i: int) | StringArg(s: string)

  /**
   * The cast (int) $v: null is 0, a boolean 0 or 1, and a string the
   * signed integer at its front once leading blanks are skipped, saturated
   * at the bounds of a 64-bit integer.
   */
  function IntCast(v: Scalar): (r: int)
    ensures !v.IntArg? ==> PhpIntMin <= r <= PhpIntMax
  {
    match v
    case NullArg => 0
    case BoolArg(b) => if b then 1 else 0
    case IntArg(i) => i
    case StringArg(s) => Saturate(NumericPrefix(s))
  }

  lemma {:induction false} DigitPrefixOfDigits(d: string, rest: string)
    requires AllDigits(d)
    requires rest == [] || !IsDigit(rest[0])
    ensures DigitPrefixLength(d + rest) == |d|
  {
    if d != [] {
      assert (d + rest)[1..] == d[1..] + rest;
      DigitPrefixOfDigits(d[1..], rest);
    }
  }

  /** The digits of n, followed by anything that is not a digit, read back as n. */
  lemma DigitsRoundTrip(n: nat, rest: string)
    requires rest == [] || !IsDigit(rest[0])
    ensures var s := NatToDigits(n) + rest; DigitsValue(s[..DigitPrefixLength(s)]) == n
  {
    var d := NatToDigits(n);
    DigitPrefixOfDigits(d, rest);
    assert (d + rest)[..|d|] == d;
  }

  lemma NaturalRoundTrip(n: nat, rest: string)
    requires rest == [] || !IsDigit(rest[0])
    ensures LeadingInt(NatToDigits(n) + rest) == n
  {
    var s := NatToDigits(n) + rest;
    assert s[0] == NatToDigits(n)[0];
    DigitsRoundTrip(n, rest);
  }

  lemma NegativeRoundTrip(m: nat, rest: string)
    requires rest == [] || !IsDigit(rest[0])
    ensures LeadingInt("-" + NatToDigits(m) + rest) == -(m as int)
  {
    var t := NatToDigits(m) + rest;
    var s := "-" + NatToDigits(m) + rest;
    assert s[0] == '-' && s[1..] == t;
    DigitsRoundTrip(m, rest);
  }

  /** Decimal rendering and PHP's reading of a leading integer are inverse. */
  lemma IntToStringRoundTrip(n: int, rest: string)
    requires rest == [] || !IsDigit(rest[0])
    ensures LeadingInt(IntToString(n) + rest) == n
  {
    if n < 0 {
      NegativeRoundTrip(-n, rest);
    } else {
      NaturalRoundTrip(n, rest);
    }
  }

  lemma {:induction false} SkipNumberSpacePrefix(pad: string, x: string)
    requires forall i :: 0 <= i < |pad| ==> IsNumberSpace(pad[i])
    requires x == [] || !IsNumberSpace(x[0])
    ensures SkipNumberSpace(pad + x) == x
  {
    if pad != [] {
      assert (pad + x)[1..] == pad[1..] + x;
      SkipNumberSpacePrefix(pad[1..], x);
    } else {
      assert pad + x == x;
    }
  }

  /**
   * PHP's reading of a numeric string inverts its rendering: an integer's
   * text, after any leading blanks and before anything that is not a digit,
   * reads back as that integer.
   */
  lemma NumericPrefixOfText(pad: string, n: int, rest: string)
    requires forall i :: 0 <= i < |pad| ==> IsNumberSpace(pad[i])
    requires rest == [] || !IsDigit(rest[0])
    ensures NumericPrefix(pad + IntToString(n) + rest) == n
  {
    var x := IntToString(n) + rest;
    assert pad + IntToString(n) + rest == pad + x;
    assert x[0] == IntToString(n)[0];
    assert !IsNumberSpace(x[0]) by {
      if n >= 0 {
        assert IsDigit(IntToString(n)[0]);
      }
    }
    SkipNumberSpacePrefix(pad, x);
    IntToStringRoundTrip(n, rest);
  }

  /**
   * The cast reads back what PHP renders: an integer's text, after any
   * leading blanks and before anything that is not a digit, casts to that
   * integer when it fits in 64 bits, and to the nearer bound otherwise.
   */
  lemma IntCastOfText(pad: string, n: int, rest: string)
    requires forall i :: 0 <= i < |pad| ==> IsNumberSpace(pad[i])
    requires rest == [] || !IsDigit(rest[0])
    ensures PhpIntMin <= n <= PhpIntMax ==> IntCast(StringArg(pad + IntToString(n) + rest)) == n
    ensures n > PhpIntMax ==> IntCast(StringArg(pad + IntToString(n) + rest)) == PhpIntMax
    ensures n < PhpIntMin ==> IntCast(StringArg(pad + IntToString(n) + rest)) == PhpIntMin
  {
    NumericPrefixOfText(pad, n, rest);
  }
}
