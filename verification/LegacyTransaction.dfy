/** The bundler's outer transaction: a pre-EIP-1559 transaction signed as EIP-155 lays down. */
module LegacyTransaction {
  import opened Options
  import opened ByteStrings
  import opened Rlp

  datatype LegacyTx = LegacyTx(
    nonce: Uint128, gasPrice: Uint128, gasLimit: Uint128,
    to: Address, value: Uint128, data: Buffer, chainId: Uint64)

  /** A recoverable signature; the recovery id is one of four. */
  type RecoveryId = n: int | 0 <= n < 4
  datatype Signature = Signature(r: Word, s: Word, recid: RecoveryId)

  ghost function MinimalBytes(n: Uint128): (b: Bytes)
    ensures Minimal(b) && |b| <= 16 && Value(b) == n
  {
    Pow256Widths();
    MinimalForm(n, 16)
  }

  /** `rlp_uint`. */
  method RlpUint(n: Uint128) returns (out: Bytes)
    ensures out == EncodeTree(Leaf(MinimalBytes(n)))
  {
    Pow256Widths();
    var stripped := MinimalBigEndian(n, 16);
    out := RlpBytes(stripped);
  }

  /** The six base fields and the three that close the list, as RLP strings. */
  ghost function Strings(tx: LegacyTx, x: Bytes, y: Bytes, z: Bytes): (s: seq<Bytes>)
    ensures |s| == 9
  {
    [MinimalBytes(tx.nonce), MinimalBytes(tx.gasPrice), MinimalBytes(tx.gasLimit),
     tx.to, MinimalBytes(tx.value), tx.data, x, y, z]
  }

  function Leaves(strings: seq<Bytes>): (t: seq<Tree>)
    ensures |t| == |strings| && forall i | 0 <= i < |t| :: t[i] == Leaf(strings[i])
  {
    seq(|strings|, i requires 0 <= i < |strings| => Leaf(strings[i]))
  }

  ghost function SigningTree(tx: LegacyTx): Tree {
    Node(Leaves(Strings(tx, MinimalBytes(tx.chainId), [], [])))
  }

  /** What is hashed before signing (`signing_hash` up to its keccak). */
  ghost function SigningPayload(tx: LegacyTx): Bytes { EncodeTree(SigningTree(tx)) }

  function V(chainId: Uint64, recid: RecoveryId): (v: Uint128) { chainId * 2 + 35 + recid }

  ghost function SignedTree(tx: LegacyTx, sig: Signature): Tree {
    Node(Leaves(Strings(tx, MinimalBytes(V(tx.chainId, sig.recid)), Stripped(sig.r), Stripped(sig.s))))
  }

  /** `base_fields`. */
  method BaseFields(tx: LegacyTx) returns (fields: seq<Bytes>)
    ensures |fields| == 6
    ensures forall i | 0 <= i < 6 :: fields[i] == EncodeTree(Leaf(Strings(tx, [], [], [])[i]))
  {
    var nonce := RlpUint(tx.nonce);
    var gasPrice := RlpUint(tx.gasPrice);
    var gasLimit := RlpUint(tx.gasLimit);
    var to := RlpBytes(tx.to);
    var value := RlpUint(tx.value);
    var data := RlpBytes(tx.data);
    fields := [nonce, gasPrice, gasLimit, to, value, data];
  }

  lemma FieldsEncode(tx: LegacyTx, x: Bytes, y: Bytes, z: Bytes, fields: seq<Bytes>)
    requires |fields| == 9
    requires forall i | 0 <= i < 6 :: fields[i] == EncodeTree(Leaf(Strings(tx, [], [], [])[i]))
    requires fields[6..] == [EncodeTree(Leaf(x)), EncodeTree(Leaf(y)), EncodeTree(Leaf(z))]
    ensures Concat(fields) == EncodeForest(Leaves(Strings(tx, x, y, z)))
  {
    assert fields[6] == fields[6..][0] && fields[7] == fields[6..][1] && fields[8] == fields[6..][2];
    ConcatOfEncodings(Leaves(Strings(tx, x, y, z)), fields);
  }

  method SigningHash(tx: LegacyTx, keccak: Bytes -> Word) returns (hash: Word)
    ensures hash == keccak(SigningPayload(tx))
  {
    var fields := BaseFields(tx);
    var chain := RlpUint(tx.chainId);
    fields := fields + [chain];
    var empty := RlpUint(0);
    MinimalUnique(MinimalBytes(0), []);
    fields := fields + [empty];
    fields := fields + [empty];
    FieldsEncode(tx, MinimalBytes(tx.chainId), [], [], fields);
    var payload := RlpList(fields);
    hash := keccak(payload);
  }

  /** `sign`: the raw transaction and its hash, or the signer's refusal. */
  method Sign(tx: LegacyTx, keccak: Bytes -> Word, key: Word -> Option<Signature>)
    returns (signed: Option<(Bytes, Word)>)
    ensures signed == match key(keccak(SigningPayload(tx)))
                      case None => None
                      case Some(sig) => Some((EncodeTree(SignedTree(tx, sig)), keccak(EncodeTree(SignedTree(tx, sig)))))
  {
    var hash := SigningHash(tx, keccak);
    var sig := key(hash);
    if sig.None? {
      return None;
    }
    var v := tx.chainId * 2 + 35 + sig.value.recid;
    var fields := BaseFields(tx);
    var encodedV := RlpUint(v);
    fields := fields + [encodedV];
    var r := StripLeadingZeros(sig.value.r);
    r := RlpBytes(r);
    fields := fields + [r];
    var s := StripLeadingZeros(sig.value.s);
    s := RlpBytes(s);
    fields := fields + [s];
    FieldsEncode(tx, MinimalBytes(v), Stripped(sig.value.r), Stripped(sig.value.s), fields);
    var raw := RlpList(fields);
    signed := Some((raw, keccak(raw)));
  }

  // ---------------------------------------------------------------- injectivity of what is signed

  /** A list of nine strings of bounded size can be read back. */
  lemma {:induction false} LeavesSized(strings: seq<Bytes>, total: nat)
    requires forall i | 0 <= i < |strings| :: |strings[i]| < U64
    requires TotalLength(strings) + 9 * |strings| <= total
    ensures Sized(Leaves(strings)) && |EncodeForest(Leaves(strings))| <= total
  {
    if strings != [] {
      assert Leaves(strings)[1..] == Leaves(strings[1..]);
      LeavesSized(strings[1..], total - |strings[0]| - 9);
      EncodeLength(Str, strings[0]);
    }
  }

  function TotalLength(strings: seq<Bytes>): nat {
    if strings == [] then 0 else |strings[0]| + TotalLength(strings[1..])
  }

  lemma {:induction false} TotalLengthBound(strings: seq<Bytes>, each: nat)
    requires forall i | 0 <= i < |strings| :: |strings[i]| <= each
    ensures TotalLength(strings) <= |strings| * each
  {
    if strings != [] {
      TotalLengthBound(strings[1..], each);
    }
  }

  lemma TotalLengthConcat(a: seq<Bytes>, b: seq<Bytes>)
    ensures TotalLength(a + b) == TotalLength(a) + TotalLength(b)
  {
    if a == [] {
      assert a + b == b;
    } else {
      assert (a + b)[1..] == a[1..] + b;
      TotalLengthConcat(a[1..], b);
    }
  }

  lemma NineFieldsSized(tx: LegacyTx, x: Bytes, y: Bytes, z: Bytes)
    requires |x| <= 32 && |y| <= 32 && |z| <= 32
    ensures Sized([Node(Leaves(Strings(tx, x, y, z)))])
  {
    var all := Strings(tx, x, y, z);
    TotalLengthBound(all[..5], 32);
    TotalLengthBound(all[6..], 32);
    assert all == all[..5] + ([tx.data] + all[6..]);
    assert ([tx.data] + all[6..])[1..] == all[6..];
    TotalLengthConcat(all[..5], [tx.data] + all[6..]);
    LeavesSized(all, TotalLength(all) + 81);
    assert [Node(Leaves(all))][1..] == [];
  }

  lemma LeavesInjective(a: seq<Bytes>, b: seq<Bytes>)
    requires Leaves(a) == Leaves(b)
    ensures a == b
  {
    assert |Leaves(a)| == |a| && |Leaves(b)| == |b|;
    forall i | 0 <= i < |a| ensures a[i] == b[i] {
      assert Leaves(a)[i] == Leaf(a[i]) && Leaves(b)[i] == Leaf(b[i]);
    }
  }

  lemma StringsInjective(a: LegacyTx, b: LegacyTx, x: Bytes, y: Bytes, z: Bytes, x': Bytes, y': Bytes, z': Bytes)
    requires Strings(a, x, y, z) == Strings(b, x', y', z')
    ensures a.(chainId := b.chainId) == b && x == x' && y == y' && z == z'
  {
    var left, right := Strings(a, x, y, z), Strings(b, x', y', z');
    assert left[0] == right[0] && left[1] == right[1] && left[2] == right[2] && left[3] == right[3];
    assert left[4] == right[4] && left[5] == right[5];
    assert left[6] == right[6] && left[7] == right[7] && left[8] == right[8];
    assert Value(left[0]) == a.nonce && Value(right[0]) == b.nonce;
    assert Value(left[1]) == a.gasPrice && Value(right[1]) == b.gasPrice;
    assert Value(left[2]) == a.gasLimit && Value(right[2]) == b.gasLimit;
    assert Value(left[4]) == a.value && Value(right[4]) == b.value;
  }

  /** Two transactions that are hashed from the same bytes are the same transaction, chain included. */
  lemma SigningPayloadInjective(a: LegacyTx, b: LegacyTx)
    requires SigningPayload(a) == SigningPayload(b)
    ensures a == b
  {
    var x, x' := MinimalBytes(a.chainId), MinimalBytes(b.chainId);
    NineFieldsSized(a, x, [], []);
    NineFieldsSized(b, x', [], []);
    assert EncodeTree(SigningTree(a)) + [] == EncodeTree(SigningTree(b)) + [];
    PrefixFree(SigningTree(a), SigningTree(b), [], []);
    LeavesInjective(Strings(a, x, [], []), Strings(b, x', [], []));
    StringsInjective(a, b, x, [], [], x', [], []);
    assert Value(x) == a.chainId && Value(x') == b.chainId;
  }

  // ---------------------------------------------------------------- strict decoding of a signed transaction

  /** What a strict reader gets out of raw transaction bytes. */
  datatype Decoded = Decoded(
    nonce: Uint128, gasPrice: Uint128, gasLimit: Uint128,
    to: Address, value: Uint128, data: Bytes, v: Uint128, r: Word, s: Word)

  function Pad32(b: Bytes): (w: Word)
    requires |b| <= 32
  {
    Zeros(32 - |b|) + b
  }

  predicate CanonicalUint(b: Bytes, width: nat) { Minimal(b) && |b| <= width }

  predicate AllLeaves(items: seq<Tree>) { forall i | 0 <= i < |items| :: items[i].Leaf? }

  function Decode(raw: Bytes): Option<Decoded> {
    match DecodeForest(raw)
    case Some(f) => if |f| == 1 && f[0].Node? then DecodeFields(f[0].items) else None
    case None => None
  }

  function DecodeFields(items: seq<Tree>): Option<Decoded> {
    if AllLeaves(items) then DecodeStrings(BytesOf(items)) else None
  }

  function BytesOf(items: seq<Tree>): (s: seq<Bytes>)
    requires AllLeaves(items)
  {
    seq(|items|, i requires 0 <= i < |items| => items[i].bytes)
  }

  function DecodeStrings(s: seq<Bytes>): Option<Decoded> {
    if |s| == 9 && CanonicalUint(s[0], 16) && CanonicalUint(s[1], 16) && CanonicalUint(s[2], 16)
       && |s[3]| == 20 && CanonicalUint(s[4], 16) && CanonicalUint(s[6], 16)
       && CanonicalUint(s[7], 32) && CanonicalUint(s[8], 32)
    then
      Some(Decoded(Uint(s[0]), Uint(s[1]), Uint(s[2]), s[3], Uint(s[4]), s[5], Uint(s[6]), Pad32(s[7]), Pad32(s[8])))
    else None
  }

  function Uint(b: Bytes): (n: Uint128)
    requires |b| <= 16
    ensures n == Value(b)
  {
    ValueBound(b);
    Pow256Monotone(|b|, 16);
    Pow256Widths();
    Value(b)
  }

  function Fields(tx: LegacyTx, sig: Signature): Decoded {
    Decoded(tx.nonce, tx.gasPrice, tx.gasLimit, tx.to, tx.value, tx.data,
            V(tx.chainId, sig.recid), sig.r, sig.s)
  }

  lemma DecodeStringsRecovers(tx: LegacyTx, sig: Signature)
    ensures DecodeStrings(Strings(tx, MinimalBytes(V(tx.chainId, sig.recid)), Stripped(sig.r), Stripped(sig.s)))
         == Some(Fields(tx, sig))
  {
    StrippedPadsBack(sig.r);
    StrippedPadsBack(sig.s);
  }

  lemma DecodeOfStrings(raw: Bytes, strings: seq<Bytes>)
    requires Sized([Node(Leaves(strings))]) && raw == EncodeTree(Node(Leaves(strings)))
    ensures Decode(raw) == DecodeStrings(strings)
  {
    OneTree(Node(Leaves(strings)));
    DecodeExact(raw, [Node(Leaves(strings))]);
    assert BytesOf(Leaves(strings)) == strings;
  }

  /** Strictly decoding what `sign` returns gives back every field, `r` and `s` padded to 32 bytes. */
  lemma DecodeRecoversFields(tx: LegacyTx, sig: Signature)
    ensures Decode(EncodeTree(SignedTree(tx, sig))) == Some(Fields(tx, sig))
  {
    var v := MinimalBytes(V(tx.chainId, sig.recid));
    NineFieldsSized(tx, v, Stripped(sig.r), Stripped(sig.s));
    DecodeOfStrings(EncodeTree(SignedTree(tx, sig)), Strings(tx, v, Stripped(sig.r), Stripped(sig.s)));
    DecodeStringsRecovers(tx, sig);
  }

  /** EIP-155: the chain id and the parity a verifier reads out of `v`, if `v` has that form. */
  function FromV(v: Uint128): Option<(Uint64, RecoveryId)> {
    if v < 35 || (v - 35) / 2 >= U64 then None else Some(((v - 35) / 2, (v - 35) % 2))
  }

  lemma FromVExactly(chainId: Uint64, recid: RecoveryId)
    ensures FromV(V(chainId, recid)) == Some((chainId, recid)) <==> recid <= 1
  {
    assert V(chainId, recid) - 35 == 2 * chainId + recid;
  }

  /** The transaction and recovery id a verifier reconstructs from the raw bytes. */
  function Reconstruct(raw: Bytes): Option<(LegacyTx, RecoveryId)> {
    match Decode(raw)
    case None => None
    case Some(d) => Rebuild(d)
  }

  function Rebuild(d: Decoded): Option<(LegacyTx, RecoveryId)> {
    match FromV(d.v)
    case None => None
    case Some((chainId, recid)) =>
      if |d.data| >= 0x8000_0000_0000_0000 then None
      else Some((LegacyTx(d.nonce, d.gasPrice, d.gasLimit, d.to, d.value, d.data, chainId), recid))
  }

  /** A verifier reconstructs the signed transaction and the signer's recovery id exactly when
      that id is 0 or 1: `v` has room for one parity bit only. */
  lemma ReconstructExactly(tx: LegacyTx, sig: Signature)
    ensures Reconstruct(EncodeTree(SignedTree(tx, sig))) == Some((tx, sig.recid)) <==> sig.recid <= 1
  {
    DecodeRecoversFields(tx, sig);
    RebuildExactly(tx, sig);
  }

  lemma RebuildExactly(tx: LegacyTx, sig: Signature)
    ensures Rebuild(Fields(tx, sig)) == Some((tx, sig.recid)) <==> sig.recid <= 1
  {
    FromVExactly(tx.chainId, sig.recid);
  }

  lemma FromVShifts(chainId: Uint64, recid: RecoveryId)
    requires recid > 1
    ensures FromV(V(chainId, recid)) == if chainId + 1 < U64 then Some((chainId + 1, recid - 2)) else None
  {
    assert V(chainId, recid) - 35 == 2 * (chainId + 1) + (recid - 2);
  }

  lemma RebuildShifts(tx: LegacyTx, sig: Signature, next: LegacyTx)
    requires sig.recid > 1 && tx.chainId + 1 < U64 && next == tx.(chainId := tx.chainId + 1)
    ensures Rebuild(Fields(tx, sig)) == Some((next, sig.recid - 2))
  {
    FromVShifts(tx.chainId, sig.recid);
  }

  lemma RebuildFails(tx: LegacyTx, sig: Signature)
    requires sig.recid > 1 && tx.chainId + 1 == U64
    ensures Rebuild(Fields(tx, sig)) == None
  {
    FromVShifts(tx.chainId, sig.recid);
  }

  /** Above 1 the verifier sees the same transaction on the next chain, with the recovery id two lower; at the top
      of the range there is no next chain id, and it sees nothing. */
  lemma ReconstructShifts(tx: LegacyTx, sig: Signature, raw: Bytes)
    requires sig.recid > 1 && raw == EncodeTree(SignedTree(tx, sig))
    ensures Reconstruct(raw) ==
      if tx.chainId + 1 < U64 then Some((tx.(chainId := tx.chainId + 1), sig.recid - 2)) else None
  {
    DecodeRecoversFields(tx, sig);
    if tx.chainId + 1 < U64 {
      RebuildShifts(tx, sig, tx.(chainId := tx.chainId + 1));
    } else {
      RebuildFails(tx, sig);
    }
  }

  /** The same boundary for the hashed bytes: the verifier hashes what was signed iff the id is 0 or 1. */
  lemma SamePayloadExactly(tx: LegacyTx, sig: Signature)
    ensures var back := Reconstruct(EncodeTree(SignedTree(tx, sig)));
            (back.Some? && SigningPayload(back.value.0) == SigningPayload(tx)) <==> sig.recid <= 1
  {
    if sig.recid <= 1 {
      ReconstructExactly(tx, sig);
    } else {
      var raw := EncodeTree(SignedTree(tx, sig));
      ReconstructShifts(tx, sig, raw);
      var back := Reconstruct(raw);
      if back.Some? && SigningPayload(back.value.0) == SigningPayload(tx) {
        SigningPayloadInjective(back.value.0, tx);
      }
    }
  }

  /** A concrete failure: recovery id 2 on chain 1 is byte for byte recovery id 0 on chain 2. */
  lemma RecoveryIdTwoCollides(tx: LegacyTx, sig: Signature)
    requires tx.chainId == 1 && sig.recid == 2
    ensures EncodeTree(SignedTree(tx, sig)) == EncodeTree(SignedTree(tx.(chainId := 2), sig.(recid := 0)))
  {
    assert V(1, 2) == V(2, 0);
  }
}
