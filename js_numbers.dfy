/** JavaScript numbers as far as the panel uses them: decimal rendering of a
    non-negative integer (`String(Date.now())`) and `Number(text)` on the
    decimal text a number input produces. */
module JsNumbers {
  import opened JsStrings

  /** A JavaScript number: a finite value or NaN (infinities are not modelled). */
  datatype JsNumber = NaN | Finite(value: real)

  predicate IsDigit(c: char) {
    '0' <= c <= '9'
  }

  predicate AllDigits(s: string) {
    forall i :: 0 <= i < |s| ==> IsDigit(s[i])
  }

  function DigitValue(c: char): (d: nat)
    requires IsDigit(c)
    ensures d < 10
  {
    c as int - '0' as int
  }

  function DigitChar(d: nat): (c: char)
    requires d < 10
    ensures IsDigit(c) && DigitValue(c) == d
  {
    ('0' as int + d) as char
  }

  /** The value of a string of decimal digits, most significant first. */
  function DigitsValue(s: string): nat
    requires AllDigits(s)
  {
    if s == [] then 0 else 10 * DigitsValue(s[..|s| - 1]) + DigitValue(s[|s| - 1])
  }

  function Pow10(n: nat): (p: nat)
    ensures p >= 1
  {
    if n == 0 then 1 else 10 * Pow10(n - 1)
  }

  /** `String(n)` for a non-negative integer: its decimal digits, no leading zero. */
  function DecimalString(n: nat): (r: string)
    ensures r != [] && AllDigits(r)
    ensures |r| > 1 ==> r[0] != '0'
  {
    if n < 10 then [DigitChar(n)] else DecimalString(n / 10) + [DigitChar(n % 10)]
  }

  /** Reading the digits of `String(n)` back gives `n`. */
  lemma {:induction false} DecimalStringValue(n: nat)
    ensures DigitsValue(DecimalString(n)) == n
  {
    if n >= 10 {
      var s := DecimalString(n);
      assert s[..|s| - 1] == DecimalString(n / 10);
      DecimalStringValue(n / 10);
    }
  }

  /** The length of the longest prefix of `s` made of digits. */
  function LeadingDigits(s: string): (k: nat)
    ensures k <= |s| && AllDigits(s[..k])
    ensures k < |s| ==> !IsDigit(s[k])
  {
    if s != [] && IsDigit(s[0]) then
      var k := 1 + LeadingDigits(s[1..]);
      assert forall i :: 1 <= i < k ==> s[..k][i] == s[1..][..k - 1][i - 1];
      k
    else 0
  }

  /** An unsigned decimal literal: digits, optionally a point and more digits,
      at least one digit in all (`"5"`, `"5."`, `".5"`, `"2.50"`). */
  function ParseUnsigned(t: string): JsNumber {
    var k := LeadingDigits(t);
    var whole := DigitsValue(t[..k]) as real;
    if k == |t| then
      (if k == 0 then NaN else Finite(whole))
    else if t[k] == '.' && AllDigits(t[k + 1..]) && (k > 0 || k + 1 < |t|) then
      var frac := t[k + 1..];
      Finite(whole + (DigitsValue(frac) as real) / (Pow10(|frac|) as real))
    else
      NaN
  }

  function Negate(n: JsNumber): JsNumber {
    match n
    case NaN => NaN
    case Finite(v) => Finite(-v)
  }

  /** `Number(s)` on a string: surrounding whitespace is ignored, the empty
      string is 0, a sign may precede an unsigned decimal literal, and
      anything else is NaN. */
  function StringToNumber(s: string): JsNumber {
    var t := Trim(s);
    if t == [] then Finite(0.0)
    else if t[0] == '-' then Negate(ParseUnsigned(t[1..]))
    else if t[0] == '+' then ParseUnsigned(t[1..])
    else ParseUnsigned(t)
  }

  /** `Number(String(n)) === n` for every non-negative integer `n`. */
  lemma DecimalStringRoundTrip(n: nat)
    ensures StringToNumber(DecimalString(n)) == Finite(n as real)
  {
    var s := DecimalString(n);
    assert IsDigit(s[0]) && IsDigit(s[|s| - 1]);
    DigitIsNotWhitespace(s[0]);
    DigitIsNotWhitespace(s[|s| - 1]);
    TrimOfTrimmed(s);
    assert s[0] != '-' && s[0] != '+';
    LeadingDigitsOfDigits(s);
    assert s[..|s|] == s;
    DecimalStringValue(n);
    assert ParseUnsigned(s) == Finite(n as real);
  }

  lemma DigitIsNotWhitespace(c: char)
    requires IsDigit(c)
    ensures !IsWhitespace(c)
  {
  }

  lemma {:induction false} LeadingDigitsOfDigits(s: string)
    requires AllDigits(s)
    ensures LeadingDigits(s) == |s|
  {
    if s != [] {
      LeadingDigitsOfDigits(s[1..]);
    }
  }
}
