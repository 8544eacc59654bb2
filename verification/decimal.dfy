/**
 * Decimal text and the subset of JavaScript's `parseInt` that the form's
 * number inputs exercise: an optional sign followed by the longest run of
 * decimal digits. A string with no digit after the sign parses to `NaN`,
 * written here as `None`.
 */
module Decimal {
  import opened Options

  predicate IsDigit(c: char) {
    '0' <= c <= '9'
  }

  predicate AllDigits(s: string) {
    forall i :: 0 <= i < |s| ==> IsDigit(s[i])
  }

  function DigitValue(c: char): nat
    requires IsDigit(c)
  {
    c as int - '0' as int
  }

  function DigitChar(d: nat): (c: char)
    requires d < 10
    ensures IsDigit(c) && DigitValue(c) == d
  {
    ('0' as int + d) as char
  }

  /** Length of the run of decimal digits that starts the string. */
  function DigitRunLength(s: string): (n: nat)
    ensures n <= |s|
    ensures AllDigits(s[..n])
    ensures n < |s| ==> !IsDigit(s[n])
  {
    if |s| == 0 || !IsDigit(s[0]) then 0
    else
      var n := 1 + DigitRunLength(s[1..]);
      assert s[..n] == [s[0]] + s[1..][..n - 1];
      n
  }

  /** The number a string of digits denotes, most significant digit first. */
  function DigitsValue(s: string): nat
    requires AllDigits(s)
  {
    if |s| == 0 then 0 else DigitsValue(s[..|s| - 1]) * 10 + DigitValue(s[|s| - 1])
  }

  /** Shortest decimal text of a natural number. */
  function ToDigits(n: nat): (s: string)
    ensures |s| > 0 && AllDigits(s)
    ensures DigitsValue(s) == n
  {
    if n < 10 then [DigitChar(n)]
    else
      var s := ToDigits(n / 10) + [DigitChar(n % 10)];
      assert s[..|s| - 1] == ToDigits(n / 10);
      s
  }

  /** Decimal text of an integer, with a leading '-' when it is negative. */
  function IntToDecimal(n: int): (s: string)
    ensures |s| > 0
  {
    if n < 0 then "-" + ToDigits(-n) else ToDigits(n)
  }

  /** The text after an optional leading sign. */
  function Unsigned(s: string): (u: string)
    ensures |u| <= |s|
  {
    if |s| > 0 && (s[0] == '-' || s[0] == '+') then s[1..] else s
  }

  /** JavaScript `parseInt(s)` (radix 10): `None` stands for `NaN`. */
  function ParseInt(s: string): (r: Option<int>)
    ensures r.None? <==> |Unsigned(s)| == 0 || !IsDigit(Unsigned(s)[0])
    ensures r.Some? ==> s != ""
    ensures r.Some? && r.value < 0 ==> s[0] == '-'
  {
    var body := Unsigned(s);
    var n := DigitRunLength(body);
    if n == 0 then None
    else
      var magnitude: int := DigitsValue(body[..n]);
      Some(if |s| > 0 && s[0] == '-' then -magnitude else magnitude)
  }

  /** Digits followed by text that does not start with a digit: the run stops at the join. */
  lemma {:induction false} DigitRunOfPrefix(digits: string, rest: string)
    requires AllDigits(digits)
    requires rest == [] || !IsDigit(rest[0])
    ensures DigitRunLength(digits + rest) == |digits|
  {
    if |digits| > 0 {
      assert (digits + rest)[1..] == digits[1..] + rest;
      DigitRunOfPrefix(digits[1..], rest);
    }
  }

  /**
   * `parseInt` reads back the decimal text of any integer, and stops at the
   * first character after it that is not a digit (so "12.5" reads as 12).
   */
  lemma ParseIntOfDecimal(n: int, rest: string)
    requires rest == [] || !IsDigit(rest[0])
    ensures ParseInt(IntToDecimal(n) + rest) == Some(n)
  {
    var m: nat := if n < 0 then -n else n;
    var digits := ToDigits(m);
    var s := IntToDecimal(n) + rest;
    if n < 0 {
      assert s == "-" + (digits + rest);
      assert Unsigned(s) == digits + rest;
    } else {
      assert s == digits + rest;
      assert Unsigned(s) == digits + rest;
    }
    DigitRunOfPrefix(digits, rest);
    assert (digits + rest)[..|digits|] == digits;
  }

  /** `parseInt` is a left inverse of `IntToDecimal`. */
  lemma ParseIntRoundTrip(n: int)
    ensures ParseInt(IntToDecimal(n)) == Some(n)
  {
    ParseIntOfDecimal(n, []);
    assert IntToDecimal(n) + [] == IntToDecimal(n);
  }

  /**
   * `parseInt` on any run of digits, leading zeros included, followed by text
   * that does not start with a digit, reads the run's value ("007" reads as 7).
   */
  lemma ParseIntOfDigits(ds: string, rest: string)
    requires |ds| > 0 && AllDigits(ds)
    requires rest == [] || !IsDigit(rest[0])
    ensures ParseInt(ds + rest) == Some(DigitsValue(ds))
  {
    var body := ds + rest;
    DigitRunOfPrefix(ds, rest);
    assert body[..|ds|] == ds;
    assert IsDigit(body[0]);
    assert Unsigned(body) == body;
  }

  /** The same after a '-': the run's value negated ("-0" and "-0.5" read as 0). */
  lemma ParseIntOfNegatedDigits(ds: string, rest: string)
    requires |ds| > 0 && AllDigits(ds)
    requires rest == [] || !IsDigit(rest[0])
    ensures ParseInt("-" + ds + rest).Some?
    ensures ParseInt("-" + ds + rest).value == -(DigitsValue(ds) as int)
  {
    var body := ds + rest;
    assert "-" + ds + rest == "-" + body;
    ParseIntOfDigits(ds, rest);
    assert IsDigit(body[0]);
    NegatedParse(body);
  }

  /** A '-' in front of a string that starts with a digit negates what `parseInt` reads. */
  lemma NegatedParse(body: string)
    requires |body| > 0 && IsDigit(body[0])
    ensures ParseInt(body).Some? && ParseInt("-" + body).Some?
    ensures ParseInt("-" + body).value == -ParseInt(body).value
  {
    var s := "-" + body;
    assert s[1..] == body;
    assert Unsigned(s) == body;
    assert Unsigned(body) == body;
  }
}
