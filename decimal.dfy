/** Swift's string interpolation of an `Int`: base ten, with a leading '-'
    for negative values, and the inverse reading used to show that the text
    determines the number. */
module Decimal {

  predicate IsDigit(c: char)
  {
    '0' <= c <= '9'
  }

  function DigitChar(d: nat): (c: char)
    requires d < 10
    ensures IsDigit(c) && DigitValue(c) == d
  {
    ('0' as int + d) as char
  }

  function DigitValue(c: char): (d: nat)
    requires IsDigit(c)
    ensures d < 10
  {
    c as int - '0' as int
  }

  /** The base-ten digits of `n`, most significant first, without leading zeros. */
  function NatDigits(n: nat): (s: string)
    ensures |s| > 0 && forall i :: 0 <= i < |s| ==> IsDigit(s[i])
    ensures |s| > 1 ==> s[0] != '0'
  {
    if n < 10 then [DigitChar(n)] else NatDigits(n / 10) + [DigitChar(n % 10)]
  }

  /** `"\(n)"` for a Swift `Int`. */
  function DecimalString(n: int): (s: string)
    ensures |s| > 0
    ensures n >= 0 <==> IsDigit(s[0])
  {
    if n < 0 then "-" + NatDigits(-n) else NatDigits(n)
  }

  /** The number a string of digits denotes. */
  function DigitsValue(s: string): nat
    requires forall i :: 0 <= i < |s| ==> IsDigit(s[i])
  {
    if s == [] then 0 else 10 * DigitsValue(s[..|s| - 1]) + DigitValue(s[|s| - 1])
  }

  /** The number an optionally signed string of digits denotes. */
  function DecimalValue(s: string): (v: int)
    requires |s| > 0 && (s[0] == '-' || IsDigit(s[0]))
    requires forall i :: 1 <= i < |s| ==> IsDigit(s[i])
  {
    if s[0] == '-' then 0 - DigitsValue(s[1..]) as int else DigitsValue(s)
  }

  /** Reading back the digits of `n` gives `n`. */
  lemma {:induction false} NatDigitsRoundTrip(n: nat)
    ensures DigitsValue(NatDigits(n)) == n
  {
    if n >= 10 {
      NatDigitsRoundTrip(n / 10);
      var s := NatDigits(n);
      assert s[..|s| - 1] == NatDigits(n / 10);
    }
  }

  /** Reading back `"\(n)"` gives `n`. */
  lemma DecimalRoundTrip(n: int)
    ensures var s := DecimalString(n);
      (s[0] == '-' || IsDigit(s[0])) && (forall i :: 1 <= i < |s| ==> IsDigit(s[i]))
      && DecimalValue(s) == n
  {
    if n < 0 {
      NatDigitsRoundTrip(-n);
      assert DecimalString(n)[1..] == NatDigits(-n);
    } else {
      NatDigitsRoundTrip(n);
    }
  }

  /** Different numbers are written differently. */
  lemma DecimalStringInjective(m: int, n: int)
    requires DecimalString(m) == DecimalString(n)
    ensures m == n
  {
    DecimalRoundTrip(m);
    DecimalRoundTrip(n);
  }
}
