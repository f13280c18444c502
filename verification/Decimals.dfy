/** Decimal rendering of naturals, as `to_string` and template strings produce it. */
module Decimals {
  function DigitChar(d: nat): (c: char)
    requires d < 10
    ensures '0' <= c <= '9'
  {
    '0' + d as char
  }

  function DigitValue(c: char): (d: nat)
    requires '0' <= c <= '9'
    ensures d < 10
  {
    (c - '0') as nat
  }

  predicate AllDigits(s: string) { forall i | 0 <= i < |s| :: '0' <= s[i] <= '9' }

  /** The number a digit string denotes. */
  function NatOf(s: string): nat
    requires AllDigits(s)
  {
    if s == "" then 0 else 10 * NatOf(s[..|s| - 1]) + DigitValue(s[|s| - 1])
  }

  /** One more digit behind a number. */
  lemma Appended(high: string, d: nat)
    requires AllDigits(high) && d < 10
    ensures AllDigits(high + [DigitChar(d)]) && NatOf(high + [DigitChar(d)]) == 10 * NatOf(high) + d
  {
    assert (high + [DigitChar(d)])[..|high|] == high;
  }

  function Render(n: nat): (s: string)
    ensures s != "" && AllDigits(s) && NatOf(s) == n
  {
    if n < 10 then
      Appended("", n);
      [DigitChar(n)]
    else
      Appended(Render(n / 10), n % 10);
      Render(n / 10) + [DigitChar(n % 10)]
  }

  /** `n` in exactly `width` digits, zero-padded (`{n:018}`). */
  function Padded(n: nat, width: nat): (s: string)
    requires n < Pow10(width)
    ensures |s| == width && AllDigits(s) && NatOf(s) == n
  {
    if width == 0 then ""
    else
      Appended(Padded(n / 10, width - 1), n % 10);
      Padded(n / 10, width - 1) + [DigitChar(n % 10)]
  }

  function Pow10(k: nat): (p: nat)
    ensures p >= 1
  {
    if k == 0 then 1 else 10 * Pow10(k - 1)
  }
}
