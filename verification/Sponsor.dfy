/** The sponsored user operation: what the broker co-signs, how `paymasterAndData` is laid out, and what a
    verifier that sees only the finished operation re-derives. Hashing and signing are parameters. */
module Sponsor {
  import opened Options
  import opened ByteStrings
  import opened EvmWords

  type Keccak = Bytes -> Word
  /** The broker's signature over a digest, decoded from its hex; None when signing or decoding fails. */
  type Cosigner = Word -> Option<Bytes>

  datatype UserOp = UserOp(
    sender: Address, nonce: Word, initCode: Bytes, callData: Bytes, accountGasLimits: Word, preVerificationGas: Word,
    gasFees: Word, paymasterAndData: Bytes, signature: Bytes)

  datatype Params = Params(
    entryPoint: Address, chainId: Uint64, masterAccount: Address, nonce: Word, accountGasLimits: Word,
    preVerificationGas: Word, gasFees: Word, paymaster: Option<Address>, verificationGasLimit: Uint128,
    postOpGasLimit: Uint128, validUntil: Uint64, validAfter: Uint64, brokerSigner: Address)

  // ---------------------------------------------------------------- digests

  function PackPair(hi: Uint128, lo: Uint128): (w: Word) {
    Pow256Widths();
    BigEndian(hi, 16) + BigEndian(lo, 16)
  }

  /** `paymasterAndData[20:52]`, or zero when that is too short. */
  function GasWord(op: UserOp): (w: Word) {
    if |op.paymasterAndData| >= 52 then op.paymasterAndData[20..52] else Zeros(32)
  }

  /** The sponsorship digest's preimage, word by word. */
  function SponsorWords(op: UserOp, until: Uint64, after: Uint64, paymaster: Address, signer: Address, chainId: Uint64,
                        keccak: Keccak): (ws: seq<Word>)
    ensures |ws| == 13
  {
    [AddressWord(op.sender), op.nonce, keccak(op.initCode), keccak(op.callData), op.accountGasLimits,
     op.preVerificationGas, op.gasFees, GasWord(op), WordOf(chainId), AddressWord(paymaster), AddressWord(signer),
     WordOf(until), WordOf(after)]
  }

  function PaymasterGetHash(op: UserOp, until: Uint64, after: Uint64, paymaster: Address, signer: Address,
                            chainId: Uint64, keccak: Keccak): Word {
    keccak(Words(SponsorWords(op, until, after, paymaster, signer, chainId, keccak)))
  }

  function OpWords(op: UserOp, keccak: Keccak): seq<Word> {
    [AddressWord(op.sender), op.nonce, keccak(op.initCode), keccak(op.callData), op.accountGasLimits,
     op.preVerificationGas, op.gasFees, keccak(op.paymasterAndData)]
  }

  function UserOpHash(op: UserOp, entryPoint: Address, chainId: Uint64, keccak: Keccak): Word {
    keccak(Words([keccak(Words(OpWords(op, keccak))), AddressWord(entryPoint), WordOf(chainId)]))
  }

  // ---------------------------------------------------------------- the layout of paymasterAndData

  const U48: nat := 0x1_0000_0000_0000

  datatype Sponsorship = Sponsorship(
    paymaster: Address, verificationGasLimit: nat, postOpGasLimit: nat, validUntil: nat, validAfter: nat,
    signature: Bytes)

  /** What a contract slices out of 129 bytes. */
  function ReadBack(data: Bytes): Option<Sponsorship> {
    if |data| != 129 then None
    else Some(Sponsorship(data[..20], Value(data[20..36]), Value(data[36..52]), Value(data[52..58]),
                          Value(data[58..64]), data[64..]))
  }

  /** The slices determine every byte. */
  lemma ReadBackInjective(a: Bytes, b: Bytes)
    requires ReadBack(a).Some? && ReadBack(a) == ReadBack(b)
    ensures a == b
  {
    ValueInjective(a[20..36], b[20..36]);
    ValueInjective(a[36..52], b[36..52]);
    ValueInjective(a[52..58], b[52..58]);
    ValueInjective(a[58..64], b[58..64]);
    assert a == a[..20] + a[20..36] + a[36..52] + a[52..58] + a[58..64] + a[64..];
    assert b == b[..20] + b[20..36] + b[36..52] + b[52..58] + b[58..64] + b[64..];
  }

  lemma {:induction false} ValueOfConcat(a: Bytes, b: Bytes)
    ensures Value(a + b) == Value(a) * Pow256(|b|) + Value(b)
  {
    if b == [] {
      assert a + b == a;
    } else {
      var n := |b| - 1;
      assert (a + b)[..|a| + n] == a + b[..n];
      ValueOfConcat(a, b[..n]);
      Regroup(Value(a), Pow256(n), Value(b[..n]), b[n]);
    }
  }

  lemma Regroup(x: nat, p: nat, y: nat, z: nat)
    ensures 256 * (x * p + y) + z == x * (256 * p) + (256 * y + z)
  {
  }

  function Low48(n: Uint64): nat { n % U48 }

  lemma RemainderUnique(n: nat, high: nat, low: nat)
    requires n == high * 0x1_0000_0000_0000 + low && low < 0x1_0000_0000_0000
    ensures n % 0x1_0000_0000_0000 == low
  {
  }

  /** Dropping the two leading bytes of eight keeps the low 48 bits. */
  lemma LastSixBytes(n: Uint64)
    ensures Pow256(8) == U64 && |BigEndian(n, 8)[2..]| == 6 && Value(BigEndian(n, 8)[2..]) == Low48(n)
  {
    Pow256Widths();
    var b := BigEndian(n, 8);
    assert b == b[..2] + b[2..];
    ValueOfConcat(b[..2], b[2..]);
    ValueBound(b[2..]);
    RemainderUnique(n, Value(b[..2]), Value(b[2..]));
  }

  method AssemblePaymasterAndData(paymaster: Address, verificationGasLimit: Uint128, postOpGasLimit: Uint128,
                                  validUntil: Uint64, validAfter: Uint64, signature: Option<Bytes>)
    returns (data: Option<Bytes>)
    ensures data.Some? <==> signature.Some? && |signature.value| == 65
    ensures data.Some? ==> ReadBack(data.value) == Some(Sponsorship(
      paymaster, verificationGasLimit, postOpGasLimit, Low48(validUntil), Low48(validAfter), signature.value))
    ensures data.Some? ==> data.value[20..52] == PackPair(verificationGasLimit, postOpGasLimit)
  {
    if signature.None? || |signature.value| != 65 {
      return None;
    }
    Pow256Widths();
    LastSixBytes(validUntil);
    LastSixBytes(validAfter);
    var out: Bytes := paymaster;
    var v, p := BigEndian(verificationGasLimit, 16), BigEndian(postOpGasLimit, 16);
    var u, a := BigEndian(validUntil, 8)[2..], BigEndian(validAfter, 8)[2..];
    out := out + v;
    out := out + p;
    out := out + u;
    out := out + a;
    out := out + signature.value;
    SlicesOf(paymaster, v, p, u, a, signature.value, out);
    data := Some(out);
  }

  lemma SlicesOf(x: Bytes, v: Bytes, p: Bytes, u: Bytes, a: Bytes, s: Bytes, out: Bytes)
    requires |x| == 20 && |v| == 16 && |p| == 16 && |u| == 6 && |a| == 6 && |s| == 65
    requires out == x + v + p + u + a + s
    ensures |out| == 129 && out[..20] == x && out[20..36] == v && out[36..52] == p && out[52..58] == u
    ensures out[58..64] == a && out[64..] == s && out[20..52] == v + p
  {
  }

  // ---------------------------------------------------------------- assembly

  datatype Assembled = Assembled(userOp: UserOp, userOpHash: Word, paymasterGetHash: Word)

  /** The operation of these parameters around one `paymasterAndData`. */
  function Envelope(p: Params, callData: Bytes, initCode: Bytes, paymasterAndData: Bytes): UserOp {
    UserOp(p.masterAccount, p.nonce, initCode, callData, p.accountGasLimits, p.preVerificationGas, p.gasFees,
           paymasterAndData, [])
  }

  /** What the assembled operation promises: an unsponsored one carries nothing; a sponsored one carries the
      broker's signature over the digest of the finished operation itself. */
  ghost predicate IsAssembly(p: Params, callData: Bytes, initCode: Bytes, keccak: Keccak, cosign: Cosigner,
                             a: Assembled)
  {
    && a.userOp == Envelope(p, callData, initCode, a.userOp.paymasterAndData)
    && a.userOpHash == UserOpHash(a.userOp, p.entryPoint, p.chainId, keccak)
    && match p.paymaster
       case None => a.userOp.paymasterAndData == [] && a.paymasterGetHash == Zeros(32)
       case Some(paymaster) =>
         && a.paymasterGetHash
            == PaymasterGetHash(a.userOp, p.validUntil, p.validAfter, paymaster, p.brokerSigner, p.chainId, keccak)
         && cosign(a.paymasterGetHash).Some?
         && ReadBack(a.userOp.paymasterAndData) == Some(Sponsorship(
              paymaster, p.verificationGasLimit, p.postOpGasLimit, Low48(p.validUntil), Low48(p.validAfter),
              cosign(a.paymasterGetHash).value))
  }

  /** The digest of any operation of these parameters that carries the approved gas word in its place. */
  ghost function SignedDigest(p: Params, paymaster: Address, callData: Bytes, initCode: Bytes, keccak: Keccak): Word {
    PaymasterGetHash(Envelope(p, callData, initCode, paymaster + PackPair(p.verificationGasLimit, p.postOpGasLimit)),
                     p.validUntil, p.validAfter, paymaster, p.brokerSigner, p.chainId, keccak)
  }

  /** Assembly fails exactly when a co-signature is needed and does not come with its 65 bytes. */
  method AssembleUserOp(p: Params, callData: Bytes, initCode: Bytes, keccak: Keccak, cosign: Cosigner)
    returns (r: Option<Assembled>)
    ensures r.Some? ==> IsAssembly(p, callData, initCode, keccak, cosign, r.value)
    ensures r.None? <==> (
      && p.paymaster.Some?
      && var signature := cosign(SignedDigest(p, p.paymaster.value, callData, initCode, keccak));
         signature.None? || |signature.value| != 65)
  {
    var userOp := UserOp(p.masterAccount, p.nonce, initCode, callData, p.accountGasLimits, p.preVerificationGas,
                         p.gasFees, [], []);
    var getHash: Word := Zeros(32);
    if p.paymaster.Some? {
      var paymaster := p.paymaster.value;
      var gasWord := PackPair(p.verificationGasLimit, p.postOpGasLimit);
      userOp := userOp.(paymasterAndData := paymaster + gasWord);
      assert GasWord(userOp) == gasWord;
      getHash := PaymasterGetHash(userOp, p.validUntil, p.validAfter, paymaster, p.brokerSigner, p.chainId, keccak);
      var data := AssemblePaymasterAndData(paymaster, p.verificationGasLimit, p.postOpGasLimit, p.validUntil,
                                           p.validAfter, cosign(getHash));
      if data.None? {
        return None;
      }
      userOp := userOp.(paymasterAndData := data.value);
      assert GasWord(userOp) == gasWord;
    }
    r := Some(Assembled(userOp, UserOpHash(userOp, p.entryPoint, p.chainId, keccak), getHash));
  }

  // ---------------------------------------------------------------- what a verifier concludes

  /** The preimage a contract builds from the finished operation alone, taking the paymaster and the validity
      window from its slices. */
  function VerifierWords(op: UserOp, signer: Address, chainId: Uint64, keccak: Keccak): seq<Word>
    requires ReadBack(op.paymasterAndData).Some?
  {
    var s := ReadBack(op.paymasterAndData).value;
    SliceBounds(op.paymasterAndData);
    SponsorWords(op, s.validUntil, s.validAfter, s.paymaster, signer, chainId, keccak)
  }

  lemma SliceBounds(data: Bytes)
    requires |data| == 129
    ensures Value(data[52..58]) < U48 <= U64 && Value(data[58..64]) < U48
  {
    Pow256Widths();
    ValueBound(data[52..58]);
    ValueBound(data[58..64]);
  }

  /** Beside the same operation, only equal windows make equal preimages. */
  lemma WindowInPreimage(op: UserOp, until: Uint64, until': Uint64, after: Uint64, after': Uint64, paymaster: Address,
                         signer: Address, chainId: Uint64, keccak: Keccak)
    ensures Words(SponsorWords(op, until, after, paymaster, signer, chainId, keccak))
         == Words(SponsorWords(op, until', after', paymaster, signer, chainId, keccak))
       <==> until == until' && after == after'
  {
    var v := SponsorWords(op, until, after, paymaster, signer, chainId, keccak);
    var w := SponsorWords(op, until', after', paymaster, signer, chainId, keccak);
    if Words(v) == Words(w) {
      WordsInjective(v, w);
      assert v[11] == w[11] && v[12] == w[12];
      WordOfInjective(until, until');
      WordOfInjective(after, after');
    }
  }

  /** The slices of an assembly, and what they keep of the window. */
  lemma AssemblyReadsBack(p: Params, paymaster: Address, callData: Bytes, initCode: Bytes, keccak: Keccak,
                          cosign: Cosigner, a: Assembled)
    requires p.paymaster == Some(paymaster) && IsAssembly(p, callData, initCode, keccak, cosign, a)
    ensures var s := ReadBack(a.userOp.paymasterAndData);
      && s.Some? && s.value.paymaster == paymaster
      && s.value.validUntil == Low48(p.validUntil) < U64 && s.value.validAfter == Low48(p.validAfter) < U64
      && Some(s.value.signature) == cosign(a.paymasterGetHash)
    ensures a.paymasterGetHash
         == keccak(Words(SponsorWords(a.userOp, p.validUntil, p.validAfter, paymaster, p.brokerSigner, p.chainId,
                                      keccak)))
  {
    SliceBounds(a.userOp.paymasterAndData);
  }

  lemma FitsLow48(n: Uint64)
    ensures Low48(n) < U64 && (Low48(n) == n <==> n < U48)
  {
  }

  lemma VerifierSees(p: Params, paymaster: Address, callData: Bytes, initCode: Bytes, keccak: Keccak,
                     cosign: Cosigner, a: Assembled)
    requires p.paymaster == Some(paymaster) && IsAssembly(p, callData, initCode, keccak, cosign, a)
    ensures Low48(p.validUntil) < U64 && Low48(p.validAfter) < U64
    ensures VerifierWords(a.userOp, p.brokerSigner, p.chainId, keccak)
         == SponsorWords(a.userOp, Low48(p.validUntil), Low48(p.validAfter), paymaster, p.brokerSigner, p.chainId,
                         keccak)
  {
    AssemblyReadsBack(p, paymaster, callData, initCode, keccak, cosign, a);
  }

  /** A verifier that sees only the finished operation arrives at the preimage the broker signed exactly when both
      validity times fit in 48 bits; beyond that the digests are of different texts. */
  lemma VerifierAgreesExactly(p: Params, paymaster: Address, callData: Bytes, initCode: Bytes, keccak: Keccak,
                              cosign: Cosigner, a: Assembled)
    requires p.paymaster == Some(paymaster) && IsAssembly(p, callData, initCode, keccak, cosign, a)
    ensures Words(VerifierWords(a.userOp, p.brokerSigner, p.chainId, keccak))
         == Words(SponsorWords(a.userOp, p.validUntil, p.validAfter, paymaster, p.brokerSigner, p.chainId, keccak))
       <==> p.validUntil < U48 && p.validAfter < U48
    ensures p.validUntil < U48 && p.validAfter < U48 ==>
      cosign(keccak(Words(VerifierWords(a.userOp, p.brokerSigner, p.chainId, keccak))))
      == Some(ReadBack(a.userOp.paymasterAndData).value.signature)
  {
    AssemblyReadsBack(p, paymaster, callData, initCode, keccak, cosign, a);
    VerifierSees(p, paymaster, callData, initCode, keccak, cosign, a);
    FitsLow48(p.validUntil);
    FitsLow48(p.validAfter);
    WindowInPreimage(a.userOp, Low48(p.validUntil), p.validUntil, Low48(p.validAfter), p.validAfter, paymaster,
                     p.brokerSigner, p.chainId, keccak);
  }

  /** A window that ends at 2^48 seconds, and starts at zero, reads back as one that ended at zero: the verifier's
      preimage is not the one the broker signed. */
  lemma WindowBeyond48BitsIsLost(p: Params, paymaster: Address, callData: Bytes, initCode: Bytes, keccak: Keccak,
                                 cosign: Cosigner, a: Assembled)
    requires p.paymaster == Some(paymaster) && IsAssembly(p, callData, initCode, keccak, cosign, a)
    requires p.validUntil == U48 && p.validAfter == 0
    ensures ReadBack(a.userOp.paymasterAndData).value.validUntil == 0
    ensures Words(VerifierWords(a.userOp, p.brokerSigner, p.chainId, keccak))
         != Words(SponsorWords(a.userOp, p.validUntil, p.validAfter, paymaster, p.brokerSigner, p.chainId, keccak))
  {
    VerifierAgreesExactly(p, paymaster, callData, initCode, keccak, cosign, a);
  }

  /** The digest binds the operation: equal preimages mean equal fields, up to the two hashed byte strings. */
  lemma SignatureBinds(op: UserOp, op': UserOp, until: Uint64, until': Uint64, after: Uint64, after': Uint64,
                       paymaster: Address, paymaster': Address, signer: Address, signer': Address,
                       chainId: Uint64, chainId': Uint64, keccak: Keccak)
    requires Words(SponsorWords(op, until, after, paymaster, signer, chainId, keccak))
          == Words(SponsorWords(op', until', after', paymaster', signer', chainId', keccak))
    ensures op.sender == op'.sender && op.nonce == op'.nonce && op.accountGasLimits == op'.accountGasLimits
    ensures op.preVerificationGas == op'.preVerificationGas && op.gasFees == op'.gasFees && GasWord(op) == GasWord(op')
    ensures keccak(op.initCode) == keccak(op'.initCode) && keccak(op.callData) == keccak(op'.callData)
    ensures until == until' && after == after' && paymaster == paymaster' && signer == signer' && chainId == chainId'
  {
    var a := SponsorWords(op, until, after, paymaster, signer, chainId, keccak);
    var b := SponsorWords(op', until', after', paymaster', signer', chainId', keccak);
    WordsInjective(a, b);
    assert a[0] == b[0] && a[1] == b[1] && a[2] == b[2] && a[3] == b[3] && a[4] == b[4] && a[5] == b[5] && a[6] == b[6];
    assert a[7] == b[7] && a[8] == b[8] && a[9] == b[9] && a[10] == b[10] && a[11] == b[11] && a[12] == b[12];
    AddressWordInjective(op.sender, op'.sender);
    AddressWordInjective(paymaster, paymaster');
    AddressWordInjective(signer, signer');
    WordOfInjective(chainId, chainId');
    WordOfInjective(until, until');
    WordOfInjective(after, after');
  }

  lemma SamePrefix(d: Bytes, d': Bytes)
    requires ReadBack(d).Some? && ReadBack(d').Some?
    requires ReadBack(d').value == ReadBack(d).value.(signature := ReadBack(d').value.signature)
    ensures d[..64] == d'[..64] && d[20..52] == d'[20..52]
  {
    ValueInjective(d[20..36], d'[20..36]);
    ValueInjective(d[36..52], d'[36..52]);
    ValueInjective(d[52..58], d'[52..58]);
    ValueInjective(d[58..64], d'[58..64]);
    assert d[..64] == d[..20] + d[20..36] + d[36..52] + d[52..58] + d[58..64];
    assert d'[..64] == d'[..20] + d'[20..36] + d'[36..52] + d'[52..58] + d'[58..64];
    assert d[20..52] == d[20..36] + d[36..52] && d'[20..52] == d'[20..36] + d'[36..52];
  }

  /** Two siblings of the same parameters differ only through call data and init code: every other field and the
      first 64 bytes of `paymasterAndData` agree; when the hashes of call data and init code agree too, so do the
      digest the broker signs and the whole of `paymasterAndData`. */
  lemma SiblingsDiffer(p: Params, keccak: Keccak, cosign: Cosigner, callData: Bytes, initCode: Bytes, a: Assembled,
                       callData': Bytes, initCode': Bytes, a': Assembled)
    requires IsAssembly(p, callData, initCode, keccak, cosign, a)
    requires IsAssembly(p, callData', initCode', keccak, cosign, a')
    ensures a'.userOp
         == a.userOp.(callData := callData', initCode := initCode', paymasterAndData := a'.userOp.paymasterAndData)
    ensures p.paymaster.None? ==> a'.userOp.paymasterAndData == a.userOp.paymasterAndData
    ensures p.paymaster.Some? ==>
      && |a.userOp.paymasterAndData| == |a'.userOp.paymasterAndData| == 129
      && a.userOp.paymasterAndData[..64] == a'.userOp.paymasterAndData[..64]
    ensures keccak(callData) == keccak(callData') && keccak(initCode) == keccak(initCode') ==>
      a.paymasterGetHash == a'.paymasterGetHash && a.userOp.paymasterAndData == a'.userOp.paymasterAndData
  {
    if p.paymaster.Some? {
      var d, d' := a.userOp.paymasterAndData, a'.userOp.paymasterAndData;
      SamePrefix(d, d');
      if keccak(callData) == keccak(callData') && keccak(initCode) == keccak(initCode') {
        assert SponsorWords(a.userOp, p.validUntil, p.validAfter, p.paymaster.value, p.brokerSigner, p.chainId, keccak)
            == SponsorWords(a'.userOp, p.validUntil, p.validAfter, p.paymaster.value, p.brokerSigner, p.chainId,
                            keccak);
        ReadBackInjective(d, d');
      }
    }
  }
}
