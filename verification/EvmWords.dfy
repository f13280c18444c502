/** 32-byte words, as contracts read them. */
module EvmWords {
  import opened ByteStrings

  /** 24 zero bytes, then eight big-endian ones. */
  function WordOf(n: Uint64): (w: Word) {
    Pow256Widths();
    Zeros(24) + BigEndian(n, 8)
  }

  function AddressWord(a: Address): (w: Word) { Zeros(12) + a }

  function Words(ws: seq<Word>): (b: Bytes)
    ensures |b| == 32 * |ws|
  {
    if ws == [] then [] else Words(ws[..|ws| - 1]) + ws[|ws| - 1]
  }

  lemma WordsStep(ws: seq<Word>, k: nat)
    requires k < |ws|
    ensures Words(ws[..k + 1]) == Words(ws[..k]) + ws[k]
  {
    assert ws[..k + 1][..k] == ws[..k];
  }

  lemma {:induction false} WordsInjective(a: seq<Word>, b: seq<Word>)
    requires Words(a) == Words(b)
    ensures a == b
  {
    assert |a| == |b|;
    if a != [] {
      var n := |a| - 1;
      var wa, wb := Words(a), Words(b);
      assert wa[..32 * n] == Words(a[..n]) && wb[..32 * n] == Words(b[..n]);
      assert wa[32 * n..] == a[n] && wb[32 * n..] == b[n];
      WordsInjective(a[..n], b[..n]);
      assert a == a[..n] + [a[n]] && b == b[..n] + [b[n]];
    }
  }

  lemma WordOfInjective(m: Uint64, n: Uint64)
    requires WordOf(m) == WordOf(n)
    ensures m == n
  {
    Pow256Widths();
    assert WordOf(m)[24..] == BigEndian(m, 8) && WordOf(n)[24..] == BigEndian(n, 8);
  }

  lemma AddressWordInjective(a: Address, b: Address)
    requires AddressWord(a) == AddressWord(b)
    ensures a == b
  {
    assert AddressWord(a)[12..] == a && AddressWord(b)[12..] == b;
  }
}
