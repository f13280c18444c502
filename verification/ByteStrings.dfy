/** Byte strings and their big-endian reading: the ground all the wire formats stand on. */
module ByteStrings {
  type Byte = b: int | 0 <= b < 256
  type Bytes = seq<Byte>

  const U64: nat := 0x1_0000_0000_0000_0000
  const U128: nat := 0x1_0000_0000_0000_0000_0000_0000_0000_0000

  function Pow256(k: nat): (p: nat)
    ensures p >= 1
  {
    if k == 0 then 1 else 256 * Pow256(k - 1)
  }

  lemma Pow256Widths()
    ensures Pow256(6) == 0x1_0000_0000_0000
    ensures Pow256(8) == U64
    ensures Pow256(16) == U128
  {
    assert Pow256(4) == 0x1_0000_0000;
    assert Pow256(6) == 0x1_0000_0000_0000;
    assert Pow256(8) == U64;
    assert Pow256(12) == 0x1_0000_0000_0000_0000_0000_0000;
    assert Pow256(16) == U128;
  }

  lemma {:induction false} Pow256Monotone(a: nat, b: nat)
    requires a <= b
    ensures Pow256(a) <= Pow256(b)
  {
    if a < b {
      Pow256Monotone(a, b - 1);
    }
  }

  /** The number a byte string denotes, most significant byte first. */
  function Value(b: Bytes): (n: nat)
  {
    if |b| == 0 then 0 else 256 * Value(b[..|b| - 1]) + b[|b| - 1]
  }

  /** `n` in exactly `width` bytes (`to_be_bytes`). */
  function BigEndian(n: nat, width: nat): (b: Bytes)
    requires n < Pow256(width)
    ensures |b| == width && Value(b) == n
  {
    if width == 0 then [] else
      var high := BigEndian(n / 256, width - 1);
      assert (high + [n % 256])[..width - 1] == high;
      high + [n % 256]
  }

  function Zeros(n: nat): (z: Bytes)
    ensures |z| == n && forall i | 0 <= i < n :: z[i] == 0
  {
    seq(n, _ => 0)
  }

  type Uint64 = n: int | 0 <= n < U64
  type Uint128 = n: int | 0 <= n < U128
  type Address = b: Bytes | |b| == 20 witness Zeros(20)
  type Word = b: Bytes | |b| == 32 witness Zeros(32)
  /** A `Vec<u8>` never holds more than `isize::MAX` bytes. */
  type Buffer = b: Bytes | |b| < 0x8000_0000_0000_0000 witness []

  /** The cast `as u64`: the low 64 bits. */
  function AsU64(n: nat): (m: nat)
    ensures m < U64 && (n < U64 ==> m == n)
  {
    n % 0x1_0000_0000_0000_0000
  }

  lemma {:induction false} ValueBound(b: Bytes)
    ensures Value(b) < Pow256(|b|)
  {
    if |b| > 0 {
      ValueBound(b[..|b| - 1]);
    }
  }

  /** The leading byte weighs 256 to the power of the length of the rest. */
  lemma {:induction false} ValueOfCons(x: Byte, b: Bytes)
    ensures Value([x] + b) == x * Pow256(|b|) + Value(b)
  {
    if |b| == 0 {
      assert ([x] + b)[..0] == [];
      assert Value([]) == 0;
    } else {
      var front := b[..|b| - 1];
      assert ([x] + b)[..|b|] == [x] + front;
      ValueOfCons(x, front);
    }
  }

  /** Two strings of one width that denote one number are one string. */
  lemma {:induction false} ValueInjective(a: Bytes, b: Bytes)
    requires |a| == |b| && Value(a) == Value(b)
    ensures a == b
  {
    if |a| > 0 {
      var n := |a| - 1;
      ValueInjective(a[..n], b[..n]);
      assert a == a[..n] + [a[n]] && b == b[..n] + [b[n]];
    }
  }

  /** The minimal form: no leading zero byte, so zero is the empty string. */
  predicate Minimal(b: Bytes) {
    b == [] || b[0] != 0
  }

  function Stripped(b: Bytes): (s: Bytes)
    ensures Minimal(s) && |s| <= |b|
  {
    if b != [] && b[0] == 0 then Stripped(b[1..]) else b
  }

  /** `strip_leading_zeros`: find the first non-zero byte, keep the rest. */
  method StripLeadingZeros(b: Bytes) returns (out: Bytes)
    ensures out == Stripped(b)
  {
    var first := 0;
    while first < |b| && b[first] == 0
      invariant first <= |b|
      invariant Stripped(b) == Stripped(b[first..])
    {
      assert b[first..][1..] == b[first + 1..];
      first := first + 1;
    }
    out := b[first..];
  }

  /** Stripping drops zeros only: padding back to the old width restores the string. */
  lemma {:induction false} StrippedPadsBack(b: Bytes)
    ensures b == Zeros(|b| - |Stripped(b)|) + Stripped(b)
    ensures Value(Stripped(b)) == Value(b)
  {
    if b != [] && b[0] == 0 {
      StrippedPadsBack(b[1..]);
      ValueOfCons(0, b[1..]);
      assert b == [0] + b[1..];
    }
  }

  lemma MinimalWeight(b: Bytes)
    requires Minimal(b) && b != []
    ensures Value(b) >= Pow256(|b| - 1)
  {
    assert b == [b[0]] + b[1..];
    ValueOfCons(b[0], b[1..]);
    AtLeastOnce(b[0], Pow256(|b| - 1));
  }

  lemma AtLeastOnce(x: nat, p: nat)
    requires x >= 1
    ensures x * p >= p
  {
    assert x * p == p + (x - 1) * p;
  }

  /** A number has exactly one minimal form. */
  lemma MinimalUnique(a: Bytes, b: Bytes)
    requires Minimal(a) && Minimal(b) && Value(a) == Value(b)
    ensures a == b
  {
    MinimalNoLonger(a, b);
    MinimalNoLonger(b, a);
    ValueInjective(a, b);
  }

  lemma MinimalNoLonger(a: Bytes, b: Bytes)
    requires Minimal(a) && Value(a) == Value(b)
    ensures |a| <= |b|
  {
    if |a| > |b| {
      Pow256Monotone(|b|, |a| - 1);
      ValueBound(b);
      MinimalWeight(a);
    }
  }

  lemma MinimalFormExists(n: nat, width: nat)
    requires n < Pow256(width)
    ensures exists b: Bytes :: Minimal(b) && |b| <= width && Value(b) == n
  {
    var wide := BigEndian(n, width);
    StrippedPadsBack(wide);
    assert Minimal(Stripped(wide)) && |Stripped(wide)| <= width && Value(Stripped(wide)) == n;
  }

  /** The minimal big-endian form of `n`; `MinimalUnique` says there is only one. */
  ghost function MinimalForm(n: nat, width: nat): (b: Bytes)
    requires n < Pow256(width)
    ensures Minimal(b) && |b| <= width && Value(b) == n
  {
    MinimalFormExists(n, width);
    var b: Bytes :| Minimal(b) && |b| <= width && Value(b) == n;
    b
  }

  /** Full width, then stripped, is the minimal form. */
  method MinimalBigEndian(n: nat, width: nat) returns (out: Bytes)
    requires n < Pow256(width)
    ensures out == MinimalForm(n, width)
  {
    var wide := BigEndian(n, width);
    out := StripLeadingZeros(wide);
    StrippedPadsBack(wide);
    MinimalUnique(out, MinimalForm(n, width));
  }
}
