/** Decimal digits. */
module Decimal {
  predicate IsDigit(c: char) { '0' <= c <= '9' }

  function Digit(d: nat): (c: char)
    requires d < 10
    ensures IsDigit(c) && (c as int) - ('0' as int) == d
  {
    (d + '0' as int) as char
  }

  function Power10(k: nat): (p: nat)
    ensures p > 0
  {
    if k == 0 then 1 else 10 * Power10(k - 1)
  }

  /** The value of a text of digits. */
  function ReadDigits(s: string): int {
    if s == "" then 0 else 10 * ReadDigits(s[..|s| - 1]) + (s[|s| - 1] as int - '0' as int)
  }

  predicate AllDigits(s: string) { forall i :: 0 <= i < |s| ==> IsDigit(s[i]) }

  /** Digits, and no zero in front of others. */
  predicate Numeral(s: string) { s != "" && AllDigits(s) && (s[0] == '0' ==> |s| == 1) }

  lemma {:induction false} ReadsPositive(s: string)
    requires AllDigits(s)
    ensures ReadDigits(s) >= 0
    ensures s != "" && s[0] != '0' ==> ReadDigits(s) > 0
  {
    if s != "" { ReadsPositive(s[..|s| - 1]); }
  }
}
