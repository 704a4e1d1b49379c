/** Decimal formatting of integers as Go's `fmt` prints them with the verbs `%d` and `%v`. */
module GoFmt {

  predicate IsDigit(c: char)
  {
    '0' <= c <= '9'
  }

  predicate AllDigits(s: string)
  {
    forall i :: 0 <= i < |s| ==> IsDigit(s[i])
  }

  function DigitChar(d: nat): (c: char)
    requires d < 10
    ensures IsDigit(c)
  {
    ('0' as int + d) as char
  }

  function DigitValue(c: char): (d: nat)
    requires IsDigit(c)
    ensures d < 10
  {
    c as int - '0' as int
  }

  /** The shortest decimal numeral of `n`: digits only, and no leading zero unless `n` is 0. */
  function NatToDecimal(n: nat): (s: string)
    ensures |s| >= 1 && AllDigits(s)
    ensures s[0] == '0' <==> n == 0
    decreases n
  {
    if n < 10 then [DigitChar(n)] else NatToDecimal(n / 10) + [DigitChar(n % 10)]
  }

  /** A numeral as `FormatInt` writes it: an optional minus sign, then at least one digit. */
  predicate IsNumeral(s: string)
  {
    |s| >= 1 && (if s[0] == '-' then |s| >= 2 && AllDigits(s[1..]) else AllDigits(s))
  }

  /** Go's `%d` for a signed integer: a minus sign before the magnitude of a negative value.
      The numeral never holds a separator used in host names, URLs or paths. */
  function FormatInt(i: int): (s: string)
    ensures IsNumeral(s)
    ensures s[0] == '-' <==> i < 0
    ensures ':' !in s && '/' !in s
  {
    if i < 0 then "-" + NatToDecimal(-i) else NatToDecimal(i)
  }

  /** The value of a string of decimal digits (the empty string reads as 0). */
  function DecimalValue(s: string): nat
    requires AllDigits(s)
  {
    if s == [] then 0 else DecimalValue(s[..|s| - 1]) * 10 + DigitValue(s[|s| - 1])
  }

  /** Reads back a numeral in the form `FormatInt` writes. */
  function ParseInt(s: string): int
    requires IsNumeral(s)
  {
    if s[0] == '-' then 0 - DecimalValue(s[1..]) as int else DecimalValue(s) as int
  }

  lemma {:induction false} DecimalRoundTrip(n: nat)
    ensures DecimalValue(NatToDecimal(n)) == n
    decreases n
  {
    if n >= 10 {
      DecimalRoundTrip(n / 10);
      var s := NatToDecimal(n);
      assert s[..|s| - 1] == NatToDecimal(n / 10);
    }
  }

  /** Reading back what `FormatInt` wrote gives the integer again. */
  lemma FormatIntRoundTrip(i: int)
    ensures ParseInt(FormatInt(i)) == i
  {
    if i < 0 {
      assert FormatInt(i)[1..] == NatToDecimal(-i);
      DecimalRoundTrip(-i);
    } else {
      DecimalRoundTrip(i);
    }
  }

  /** Distinct integers print differently. */
  lemma FormatIntInjective(i: int, j: int)
    requires FormatInt(i) == FormatInt(j)
    ensures i == j
  {
    FormatIntRoundTrip(i);
    FormatIntRoundTrip(j);
  }
}
