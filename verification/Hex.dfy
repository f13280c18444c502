/** Lower-case hex text, two digits a byte. */
module Hex {
  import opened ByteStrings
  import opened Text

  function HexDigit(n: nat): char
    requires n < 16
  {
    if n < 10 then '0' + n as char else 'a' + (n - 10) as char
  }

  /** `"0x" + hex::encode(bytes)`. */
  function HexText(b: Bytes): string { "0x" + HexDigits(b) }

  function HexDigits(b: Bytes): (s: string)
    ensures |s| == 2 * |b|
  {
    if b == [] then "" else [HexDigit(b[0] / 16), HexDigit(b[0] % 16)] + HexDigits(b[1..])
  }

  lemma HexPairInjective(x: Byte, y: Byte)
    requires HexDigit(x / 16) == HexDigit(y / 16) && HexDigit(x % 16) == HexDigit(y % 16)
    ensures x == y
  {
    assert x / 16 == y / 16 && x % 16 == y % 16;
  }

  lemma {:induction false} HexDigitsInjective(a: Bytes, b: Bytes, x: string)
    requires HexDigits(a) == x == HexDigits(b)
    ensures a == b
  {
    assert |x| == 2 * |a| == 2 * |b|;
    if a != [] {
      assert x[0] == HexDigit(a[0] / 16) == HexDigit(b[0] / 16);
      assert x[1] == HexDigit(a[0] % 16) == HexDigit(b[0] % 16);
      HexPairInjective(a[0], b[0]);
      assert HexDigits(a[1..]) == x[2..] == HexDigits(b[1..]);
      HexDigitsInjective(a[1..], b[1..], x[2..]);
      assert a == [a[0]] + a[1..] && b == [b[0]] + b[1..];
    }
  }

  lemma {:induction false} HexDigitsAreLower(b: Bytes)
    ensures Lower(HexDigits(b)) == HexDigits(b)
  {
    if b != [] {
      HexDigitsAreLower(b[1..]);
      var s, rest := HexDigits(b), HexDigits(b[1..]);
      forall i | 0 <= i < |s| ensures LowerChar(s[i]) == s[i] {
        if i >= 2 {
          assert s[i] == rest[i - 2];
          assert Lower(rest)[i - 2] == LowerChar(rest[i - 2]);
        }
      }
    }
  }
}
