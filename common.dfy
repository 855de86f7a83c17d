/** Values shared by the client and the server model: an optional value, the
    opaque dictionaries produced by foreign estimators, and the decimal
    formatting both sides use when they build human-readable messages. */
module Common {

  datatype Option<+T> = None | Some(value: T)

  /** A result dictionary produced by code outside the model (the heart-rate,
      HRV, blood-pressure and stress estimators), with its values as text. */
  datatype Record = Record(fields: map<string, string>)

  predicate IsDigit(c: char) {
    '0' <= c <= '9'
  }

  predicate AllDigits(s: string) {
    forall i :: 0 <= i < |s| ==> IsDigit(s[i])
  }

  function DigitChar(d: nat): (c: char)
    requires d < 10
    ensures IsDigit(c)
    ensures (c as int) - ('0' as int) == d
  {
    (('0' as int) + d) as char
  }

  /** The decimal text of a natural number: digits only, no leading zero. */
  function NatToString(n: nat): (s: string)
    ensures |s| >= 1
    ensures AllDigits(s)
    ensures |s| > 1 ==> s[0] != '0'
    decreases n
  {
    if n < 10 then [DigitChar(n)] else NatToString(n / 10) + [DigitChar(n % 10)]
  }

  /** The number a string of decimal digits denotes. */
  function DigitsValue(s: string): nat
    requires AllDigits(s)
  {
    if s == [] then 0
    else 10 * DigitsValue(s[..|s| - 1]) + ((s[|s| - 1] as int) - ('0' as int))
  }

  /** Reading back the text NatToString writes gives the number again. */
  lemma {:induction false} NatToStringRoundTrip(n: nat)
    ensures DigitsValue(NatToString(n)) == n
  {
    if n >= 10 {
      var s := NatToString(n);
      assert s[..|s| - 1] == NatToString(n / 10);
      NatToStringRoundTrip(n / 10);
    }
  }

  /** An integer as JavaScript's template literals and Python's str() write it. */
  function IntToString(i: int): (s: string)
    ensures i < 0 ==> |s| >= 2 && s[0] == '-' && s[1..] == NatToString(-i)
    ensures i >= 0 ==> s == NatToString(i)
  {
    if i < 0 then "-" + NatToString(-i) else NatToString(i)
  }

  /** JavaScript's Math.round: the nearest integer, a half rounded up. */
  function RoundHalfUp(x: real): (r: int)
    ensures x - 0.5 < r as real <= x + 0.5
  {
    (x + 0.5).Floor
  }

  /** Round to the nearest integer, a half rounded to the even neighbour, as
      Python's fixed-point formatting does. */
  function RoundHalfEven(x: real): (r: int)
    ensures x - 0.5 <= r as real <= x + 0.5
    ensures (r as real == x - 0.5 || r as real == x + 0.5) ==> r % 2 == 0
  {
    var f := x.Floor;
    var frac := x - f as real;
    if frac < 0.5 then f
    else if frac > 0.5 then f + 1
    else if f % 2 == 0 then f
    else f + 1
  }

  /** Python's format(x, '.0f') on a value x: an optional minus sign (kept even
      when the magnitude rounds to zero) and the rounded magnitude. */
  function FormatFixed0(x: real): (s: string)
    ensures |s| >= 1
    ensures x < 0.0 <==> s[0] == '-'
    ensures x >= 0.0 ==> s == NatToString(RoundHalfEven(x))
  {
    if x < 0.0 then "-" + NatToString(RoundHalfEven(-x)) else NatToString(RoundHalfEven(x))
  }
}
