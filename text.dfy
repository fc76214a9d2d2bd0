/**
 * The string helpers the builder leans on: `implode`, the numeric-literal
 * test used when quoting values, and the decimal text of the LIMIT amount.
 */
module Text {

  /** The summed lengths of the items of `xs`. */
  function TotalLength(xs: seq<string>): nat
  {
    if xs == [] then 0 else |xs[0]| + TotalLength(xs[1..])
  }

  /**
   * `implode(sep, xs)`: the items of `xs` in order, with `sep` between
   * neighbours, so one separator fewer than there are items.
   */
  function Join(sep: string, xs: seq<string>): (r: string)
    ensures |xs| > 0 ==> |r| == TotalLength(xs) + (|xs| - 1) * |sep|
    ensures |xs| > 0 ==> xs[0] <= r
  {
    if |xs| == 0 then ""
    else if |xs| == 1 then xs[0]
    else xs[0] + sep + Join(sep, xs[1..])
  }

  predicate IsDigit(c: char)
  {
    '0' <= c <= '9'
  }

  /** A non-empty run of decimal digits. */
  predicate IsDigits(s: string)
  {
    |s| > 0 && forall i :: 0 <= i < |s| ==> IsDigit(s[i])
  }

  /** Digits, then optionally one '.' followed by at least one digit. */
  predicate IsDecimalTail(s: string)
  {
    if s == [] then true
    else if IsDigit(s[0]) then IsDecimalTail(s[1..])
    else s[0] == '.' && IsDigits(s[1..])
  }

  /** An unsigned decimal literal: `42`, `3.14`. */
  predicate IsUnsignedDecimal(s: string)
  {
    |s| > 0 && IsDigit(s[0]) && IsDecimalTail(s[1..])
  }

  /** The characters after the first digit of an unsigned decimal are digits or one `.`. */
  lemma {:induction false} DecimalTailChars(s: string)
    requires IsDecimalTail(s)
    ensures forall i :: 0 <= i < |s| ==> IsDigit(s[i]) || s[i] == '.'
  {
    if s != [] && IsDigit(s[0]) {
      DecimalTailChars(s[1..]);
    }
  }

  /** Every character of an unsigned decimal literal is a digit or `.`, and the first is a digit. */
  lemma UnsignedDecimalChars(s: string)
    ensures IsUnsignedDecimal(s) ==>
      IsDigit(s[0]) && forall i :: 0 <= i < |s| ==> IsDigit(s[i]) || s[i] == '.'
  {
    if IsUnsignedDecimal(s) {
      DecimalTailChars(s[1..]);
      assert forall i :: 1 <= i < |s| ==> s[i] == s[1..][i - 1];
    }
  }

  /**
   * The numeric-literal test applied to clause values: an optional sign,
   * then an unsigned decimal literal (`42`, `-3.14`, `+7`). A numeric
   * value starts with a sign or a digit and holds only digits and `.`
   * after that, so it never contains a quote character.
   */
  function IsNumeric(s: string): (b: bool)
    ensures b ==> |s| > 0 && (s[0] == '+' || s[0] == '-' || IsDigit(s[0]))
    ensures b ==> forall i :: 1 <= i < |s| ==> IsDigit(s[i]) || s[i] == '.'
  {
    if |s| > 0 && (s[0] == '+' || s[0] == '-') then
      UnsignedDecimalChars(s[1..]);
      assert forall i :: 1 <= i < |s| ==> s[i] == s[1..][i - 1];
      IsUnsignedDecimal(s[1..])
    else
      UnsignedDecimalChars(s);
      IsUnsignedDecimal(s)
  }

  function DigitChar(d: nat): (c: char)
    requires d < 10
    ensures IsDigit(c)
  {
    ['0', '1', '2', '3', '4', '5', '6', '7', '8', '9'][d]
  }

  function DigitValue(c: char): nat
    requires IsDigit(c)
  {
    (c as int - '0' as int) as nat
  }

  /** The decimal text of a natural number, without leading zeros. */
  function NatToString(n: nat): (s: string)
    ensures IsDigits(s)
    ensures |s| > 1 ==> s[0] != '0'
  {
    if n < 10 then [DigitChar(n)]
    else NatToString(n / 10) + [DigitChar(n % 10)]
  }

  /**
   * The decimal text of an integer, as string concatenation renders it: a
   * `-` for a negative number, then digits without a leading zero that read
   * back as its magnitude.
   */
  function IntToString(n: int): (s: string)
    ensures n >= 0 ==> IsDigits(s) && DigitsValue(s) == n && (|s| > 1 ==> s[0] != '0')
    ensures n < 0 ==>
      (|s| > 1 && s[0] == '-' && IsDigits(s[1..]) && DigitsValue(s[1..]) == -n && (|s| > 2 ==> s[1] != '0'))
  {
    var m: nat := if n < 0 then -n else n;
    NatToStringRoundTrip(m);
    if n < 0 then
      assert ("-" + NatToString(m))[1..] == NatToString(m);
      "-" + NatToString(m)
    else NatToString(m)
  }

  /** The number a run of digits denotes. */
  function DigitsValue(s: string): nat
    requires forall i :: 0 <= i < |s| ==> IsDigit(s[i])
  {
    if s == [] then 0 else 10 * DigitsValue(s[..|s| - 1]) + DigitValue(s[|s| - 1])
  }

  /** Reading back the decimal text of `n` gives `n`: NatToString loses nothing. */
  lemma {:induction false} NatToStringRoundTrip(n: nat)
    ensures DigitsValue(NatToString(n)) == n
  {
    var s := NatToString(n);
    if n < 10 {
      assert DigitChar(n) as int - '0' as int == n;
    } else {
      NatToStringRoundTrip(n / 10);
      var d := DigitChar(n % 10);
      assert s[..|s| - 1] == NatToString(n / 10);
      assert s[|s| - 1] == d;
      assert d as int - '0' as int == n % 10;
    }
  }

  lemma ConcatAssoc(a: string, b: string, c: string)
    ensures a + (b + c) == (a + b) + c
  {
  }

  /** `t` occurs in `s` starting at position `k`. */
  predicate OccursAt(t: string, s: string, k: nat)
  {
    k + |t| <= |s| && s[k..k + |t|] == t
  }

  /** `t` occurs somewhere inside `s`. */
  predicate IsInfix(t: string, s: string)
  {
    exists k: nat :: k <= |s| && OccursAt(t, s, k)
  }

  /** The middle of a three-part concatenation occurs inside it. */
  lemma MiddleIsInfix(a: string, t: string, b: string)
    ensures IsInfix(t, a + t + b)
  {
    var s := a + t + b;
    assert OccursAt(t, s, |a|);
  }
}
