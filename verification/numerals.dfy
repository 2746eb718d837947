/**
 * Decimal numerals: the digit strings an HTTP status is printed as, and the
 * plain decimal literals (`12`, `-7`, `1.5`) whose conversion to a number the
 * host runtime is required to get right.
 */
module Numerals {

  predicate IsDigit(c: char) {
    '0' <= c <= '9'
  }

  function DigitValue(c: char): nat
    requires IsDigit(c)
  {
    c as int - '0' as int
  }

  function DigitChar(d: nat): (c: char)
    requires d < 10
    ensures IsDigit(c) && DigitValue(c) == d
  {
    ('0' as int + d) as char
  }

  predicate AllDigits(s: string) {
    forall i :: 0 <= i < |s| ==> IsDigit(s[i])
  }

  /** The value of a string of decimal digits, most significant first. */
  function DigitsValue(s: string): nat
    requires AllDigits(s)
  {
    if |s| == 0 then 0 else 10 * DigitsValue(s[..|s| - 1]) + DigitValue(s[|s| - 1])
  }

  function Pow10(k: nat): (p: nat)
    ensures p >= 1
  {
    if k == 0 then 1 else 10 * Pow10(k - 1)
  }

  /** The shortest decimal spelling of `n`, as a template literal prints an integer. */
  function NatToString(n: nat): (s: string)
    ensures 0 < |s| && AllDigits(s)
    ensures n < 10 <==> |s| == 1
    ensures 1 < |s| ==> s[0] != '0'
  {
    if n < 10 then [DigitChar(n)] else NatToString(n / 10) + [DigitChar(n % 10)]
  }

  /** Printing a number and reading the digits back gives the number again. */
  lemma {:induction false} NatToStringRoundTrip(n: nat)
    ensures DigitsValue(NatToString(n)) == n
  {
    if n >= 10 {
      var s := NatToString(n);
      assert s[..|s| - 1] == NatToString(n / 10);
      NatToStringRoundTrip(n / 10);
    }
  }

  /** The index of the first '.', or |s| when there is none. */
  function DotIndex(s: string): (k: nat)
    ensures k <= |s|
    ensures forall i :: 0 <= i < k ==> s[i] != '.'
    ensures k < |s| ==> s[k] == '.'
  {
    if |s| == 0 || s[0] == '.' then 0 else 1 + DotIndex(s[1..])
  }

  /** `123` or `123.45`: digits, optionally followed by a point and more digits. */
  predicate IsUnsignedDecimal(s: string) {
    var k := DotIndex(s);
    && 0 < k
    && AllDigits(s[..k])
    && (k == |s| || (k + 1 < |s| && AllDigits(s[k + 1..])))
  }

  function UnsignedValue(s: string): real
    requires IsUnsignedDecimal(s)
  {
    var k := DotIndex(s);
    var whole := DigitsValue(s[..k]) as real;
    if k == |s| then whole
    else whole + DigitsValue(s[k + 1..]) as real / Pow10(|s| - k - 1) as real
  }

  /** A plain decimal literal with an optional leading minus sign. */
  predicate IsDecimal(s: string) {
    if 0 < |s| && s[0] == '-' then IsUnsignedDecimal(s[1..]) else IsUnsignedDecimal(s)
  }

  function DecimalValue(s: string): real
    requires IsDecimal(s)
  {
    if 0 < |s| && s[0] == '-' then -UnsignedValue(s[1..]) else UnsignedValue(s)
  }
}
