/** Decimal text of integers, and JavaScript's `Number(text)` on the text a
    `bigint` database column is surfaced as. */
module Decimal {
  import opened Wrappers

  predicate IsDigit(c: char) {
    '0' <= c <= '9'
  }

  predicate AllDigits(s: string) {
    forall i :: 0 <= i < |s| ==> IsDigit(s[i])
  }

  function DigitValue(c: char): (d: nat)
    requires IsDigit(c)
    ensures d < 10
  {
    c as int - '0' as int
  }

  function DigitChar(d: nat): (c: char)
    requires d < 10
    ensures IsDigit(c) && DigitValue(c) == d
  {
    ('0' as int + d) as char
  }

  /** The decimal numeral of `n`, most significant digit first, no leading zero. */
  function NatText(n: nat): (s: string)
    ensures 1 <= |s| && AllDigits(s)
    ensures |s| > 1 ==> s[0] != '0'
  {
    if n < 10 then [DigitChar(n)] else NatText(n / 10) + [DigitChar(n % 10)]
  }

  /** The value of a string of decimal digits, read most significant first. */
  function DigitsValue(s: string): nat
    requires AllDigits(s)
  {
    if s == [] then 0 else DigitsValue(s[..|s| - 1]) * 10 + DigitValue(s[|s| - 1])
  }

  /** How a signed integer is written by the database driver. */
  function IntText(n: int): string {
    if n < 0 then "-" + NatText(-n) else NatText(n)
  }

  /** `Number(s)` restricted to what a bigint column can hold: the empty
      string converts to 0, an optionally negated non-empty run of digits to
      its value, and anything else to NaN (`None`). */
  function NumberOf(s: string): (r: Option<int>)
    ensures s == [] ==> r == Some(0)
    ensures AllDigits(s) ==> r == Some(DigitsValue(s))
  {
    if s == [] then Some(0)
    else if AllDigits(s) then Some(DigitsValue(s))
    else if s[0] == '-' && |s| > 1 && AllDigits(s[1..]) then Some(0 - DigitsValue(s[1..]) as int)
    else None
  }

  lemma {:induction false} NatTextValue(n: nat)
    ensures DigitsValue(NatText(n)) == n
  {
    if n >= 10 {
      var s := NatText(n);
      assert s[..|s| - 1] == NatText(n / 10);
      NatTextValue(n / 10);
    }
  }

  /** A minus sign before a run of digits converts to the negated value. */
  lemma NumberOfNegated(s: string, t: string)
    requires s == "-" + t && t != [] && AllDigits(t)
    ensures NumberOf(s) == Some(0 - DigitsValue(t))
  {
    assert s[0] == '-' && !IsDigit(s[0]);
    assert s[1..] == t;
  }

  /** The text of a negative integer is a minus sign and the digits of its magnitude. */
  lemma NumberOfNegativeText(n: int)
    requires n < 0
    ensures NumberOf(IntText(n)) == Some(n)
  {
    var t := NatText(-n);
    assert DigitsValue(t) == -n by { NatTextValue(-n); }
    assert IntText(n) == "-" + t;
    NumberOfNegated(IntText(n), t);
  }

  /** Reading back the text the driver writes recovers the integer. */
  lemma NumberOfIntText(n: int)
    ensures NumberOf(IntText(n)) == Some(n)
  {
    if n < 0 {
      NumberOfNegativeText(n);
    } else {
      NatTextValue(n);
    }
  }
}
