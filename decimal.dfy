/** Java's `String.valueOf(long)`, which makes the miss-cache key of every lookup by
    numeric id, and the decimal reading that inverts it. */
module Decimal {
  import opened TwitterTypes

  predicate IsDigit(c: char) {
    '0' <= c <= '9'
  }

  predicate AllDigits(s: string) {
    forall i :: 0 <= i < |s| ==> IsDigit(s[i])
  }

  function DigitChar(d: nat): (c: char)
    requires d < 10
    ensures IsDigit(c)
  {
    ('0' as int + d) as char
  }

  function DigitValue(c: char): (d: nat)
    requires IsDigit(c)
    ensures d < 10
  {
    c as int - '0' as int
  }

  /** The decimal digits of `n`, most significant first, with no leading zero. */
  function NatToDigits(n: nat): (s: string)
    ensures |s| > 0 && AllDigits(s)
    ensures s[0] == '0' ==> n == 0
    decreases n
  {
    if n < 10 then [DigitChar(n)] else NatToDigits(n / 10) + [DigitChar(n % 10)]
  }

  /** The number a string of decimal digits denotes. */
  function DigitsValue(s: string): nat
    requires AllDigits(s)
    decreases |s|
  {
    if s == [] then 0 else DigitsValue(s[..|s| - 1]) * 10 + DigitValue(s[|s| - 1])
  }

  lemma {:induction false} DigitsRoundTrip(n: nat)
    ensures DigitsValue(NatToDigits(n)) == n
    decreases n
  {
    if n >= 10 {
      var d := NatToDigits(n / 10);
      DigitsRoundTrip(n / 10);
      assert (d + [DigitChar(n % 10)])[..|d|] == d;
    }
  }

  /** `String.valueOf(long)`: a minus sign for a negative value, then the digits
      of the magnitude. */
  function LongToString(x: int64): (s: string)
    ensures |s| > 0
    ensures s[0] == '-' <==> x < 0
    ensures AllDigits(if x < 0 then s[1..] else s)
  {
    if x < 0 then "-" + NatToDigits(-(x as int)) else NatToDigits(x as int)
  }

  /** A string that `Long.parseLong` would accept: an optional minus sign, then
      at least one digit. */
  predicate IsLongText(s: string) {
    if |s| > 0 && s[0] == '-' then |s| > 1 && AllDigits(s[1..]) else |s| > 0 && AllDigits(s)
  }

  function TextValue(s: string): int
    requires IsLongText(s)
  {
    if s[0] == '-' then -(DigitsValue(s[1..]) as int) else DigitsValue(s)
  }

  lemma LongToStringRoundTrip(x: int64)
    ensures IsLongText(LongToString(x))
    ensures TextValue(LongToString(x)) == x as int
  {
    if x < 0 {
      var d := NatToDigits(-(x as int));
      assert ("-" + d)[1..] == d;
      DigitsRoundTrip(-(x as int));
    } else {
      DigitsRoundTrip(x as int);
    }
  }

  /** Distinct ids never share a miss-cache key. */
  lemma LongToStringInjective(x: int64, y: int64)
    ensures LongToString(x) == LongToString(y) ==> x == y
  {
    LongToStringRoundTrip(x);
    LongToStringRoundTrip(y);
  }

  /** The key of id 123 is the screen name "123". */
  lemma LongToString123()
    ensures LongToString(123) == "123"
  {
  }
}
