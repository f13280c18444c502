/** Balances for the operator: base units as a short decimal, in integer arithmetic only. */
module WeiUnits {
  import opened Decimals

  function Divide(n: nat, p: nat): (r: (nat, nat))
    requires p >= 1
    ensures r.0 * p + r.1 == n && r.1 < p
  {
    (n / p, n % p)
  }

  function TrimZeros(s: string): (t: string)
    ensures |t| <= |s| && t == s[..|t|] && (t != "" ==> t[|t| - 1] != '0')
  {
    if s != "" && s[|s| - 1] == '0' then TrimZeros(s[..|s| - 1]) else s
  }

  /** A count of base units as a short decimal, `decimals` places to the whole unit: 18 for wei. */
  function Units(n: nat, decimals: nat): string {
    var (whole, fraction) := Divide(n, Pow10(decimals));
    if fraction == 0 then Render(whole) else Render(whole) + "." + TrimZeros(Padded(fraction, decimals))
  }

  /** The number of base units a decimal denotes exactly, with at most `decimals` places. */
  function Exactly(whole: string, fraction: string, decimals: nat): nat
    requires AllDigits(whole) && AllDigits(fraction) && |fraction| <= decimals
  {
    NatOf(whole) * Pow10(decimals) + NatOf(fraction) * Pow10(decimals - |fraction|)
  }

  lemma TimesTen(a: nat, p: nat)
    ensures 10 * (a * p) == a * (10 * p)
  {
  }

  lemma {:induction false} TrimKeepsValue(s: string, t: string)
    requires AllDigits(s) && t == TrimZeros(s)
    ensures AllDigits(t) && NatOf(s) == NatOf(t) * Pow10(|s| - |t|)
  {
    if s != "" && s[|s| - 1] == '0' {
      TrimKeepsValue(s[..|s| - 1], t);
      TimesTen(NatOf(t), Pow10(|s| - 1 - |t|));
    } else {
      assert Pow10(0) == 1;
    }
  }

  lemma FractionIsExact(f: nat, decimals: nat, t: string)
    requires 0 < f < Pow10(decimals) && t == TrimZeros(Padded(f, decimals))
    ensures t != "" && |t| <= decimals && AllDigits(t) && t[|t| - 1] != '0'
    ensures NatOf(t) * Pow10(decimals - |t|) == f
  {
    TrimKeepsValue(Padded(f, decimals), t);
    assert NatOf("") == 0;
  }

  /** The text is the whole part, and a fraction if there is one, that reads back to exactly `n`. */
  ghost predicate Renders(text: string, whole: string, fraction: string, n: nat, decimals: nat) {
    && AllDigits(whole) && AllDigits(fraction) && |fraction| <= decimals
    && text == (if fraction == "" then whole else whole + "." + fraction)
    && (fraction != "" ==> fraction[|fraction| - 1] != '0')
    && Exactly(whole, fraction, decimals) == n
  }

  lemma PartsAddUp(text: string, whole: string, fraction: string, w: nat, f: nat, n: nat, decimals: nat)
    requires AllDigits(whole) && AllDigits(fraction) && |fraction| <= decimals
    requires NatOf(whole) == w && NatOf(fraction) * Pow10(decimals - |fraction|) == f
    requires w * Pow10(decimals) + f == n
    requires text == if fraction == "" then whole else whole + "." + fraction
    requires fraction != "" ==> fraction[|fraction| - 1] != '0'
    ensures Renders(text, whole, fraction, n, decimals)
  {
  }

  /** The rendering is exact: whole part and fraction read back to the very count, the fraction appears only when
      there is one, and it never ends in a zero. */
  lemma UnitsAreExact(n: nat, decimals: nat)
    ensures exists whole, fraction :: Renders(Units(n, decimals), whole, fraction, n, decimals)
  {
    var (w, f) := Divide(n, Pow10(decimals));
    if f == 0 {
      PartsAddUp(Units(n, decimals), Render(w), "", w, f, n, decimals);
    } else {
      var t := TrimZeros(Padded(f, decimals));
      FractionIsExact(f, decimals, t);
      PartsAddUp(Units(n, decimals), Render(w), t, w, f, n, decimals);
    }
  }
}
