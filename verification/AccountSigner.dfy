/** The broker's `verifyAssertion` calldata (Solidity Contract ABI Specification, formal specification of
    the encoding) and the choice of the passkey an assertion is checked against. */
module AccountSigner {
  import opened Options
  import opened ByteStrings
  import opened EvmWords

  const HEAD_WORDS: nat := 9

  datatype Args = Args(
    challenge: Word, rpIdHash: Word, authenticatorData: Buffer, clientDataJson: Buffer,
    challengeLocation: Uint64, r: Word, s: Word, pubX: Word, pubY: Word)

  function Pad32(len: nat): (n: nat)
    ensures n % 32 == 0 && len <= n < len + 32
  {
    (len + 31) / 32 * 32
  }

  function Blob(b: Buffer): (t: Bytes)
    ensures |t| == 32 + Pad32(|b|)
  {
    WordOf(|b|) + b + Zeros(Pad32(|b|) - |b|)
  }

  const OFFSET_AUTH: nat := 288

  function OffsetCdj(auth: Buffer): (n: Uint64)
    ensures n % 32 == 0
  {
    OFFSET_AUTH + 32 + Pad32(|auth|)
  }

  function HeadWords(a: Args): (ws: seq<Word>)
    ensures |ws| == HEAD_WORDS
  {
    [a.challenge, a.rpIdHash, WordOf(OFFSET_AUTH), WordOf(OffsetCdj(a.authenticatorData)),
     WordOf(a.challengeLocation), a.r, a.s, a.pubX, a.pubY]
  }

  /** The arguments after the selector: nine head words, then the two dynamic tails. */
  function Encoding(a: Args): (data: Bytes)
    ensures |data| == OffsetCdj(a.authenticatorData) + 32 + Pad32(|a.clientDataJson|)
  {
    Words(HeadWords(a)) + Blob(a.authenticatorData) + Blob(a.clientDataJson)
  }

  /** `encode_verify_assertion_call`, the bytes behind the selector. */
  method EncodeVerifyAssertionCall(a: Args) returns (data: Bytes)
    ensures data == Encoding(a)
  {
    data := EncodeHead(a, HEAD_WORDS * 32, HEAD_WORDS * 32 + 32 + Pad32(|a.authenticatorData|));
    ghost var head := data;
    var blobs := [a.authenticatorData, a.clientDataJson];
    var i := 0;
    while i < 2
      invariant 0 <= i <= 2
      invariant data == head + Tails(blobs[..i])
    {
      data := AppendBlob(data, blobs[i]);
      TailsStep(head, blobs, i);
      i := i + 1;
    }
    TwoTails(a.authenticatorData, a.clientDataJson);
    assert blobs[..2] == [a.authenticatorData, a.clientDataJson];
    assert head + (Blob(a.authenticatorData) + Blob(a.clientDataJson))
        == head + Blob(a.authenticatorData) + Blob(a.clientDataJson);
  }

  lemma TailsStep(head: Bytes, blobs: seq<Buffer>, i: nat)
    requires i < |blobs|
    ensures head + Tails(blobs[..i]) + Blob(blobs[i]) == head + Tails(blobs[..i + 1])
  {
    assert blobs[..i + 1][..i] == blobs[..i];
  }

  lemma TwoTails(x: Buffer, y: Buffer)
    ensures Tails([x, y]) == Blob(x) + Blob(y)
  {
    assert [x, y][..1] == [x] && [x][..0] == [];
    assert Tails([]) == [];
  }

  function Tails(blobs: seq<Buffer>): Bytes {
    if blobs == [] then [] else Tails(blobs[..|blobs| - 1]) + Blob(blobs[|blobs| - 1])
  }

  /** One turn of the blob loop: length word, bytes, zero fill. */
  method AppendBlob(start: Bytes, blob: Buffer) returns (data: Bytes)
    ensures data == start + Blob(blob)
  {
    data := start + WordOf(|blob|);
    data := data + blob;
    data := data + Zeros(Pad32(|blob|) - |blob|);
  }

  method EncodeHead(a: Args, offAuth: Uint64, offCdj: Uint64) returns (data: Bytes)
    requires offAuth == OFFSET_AUTH && offCdj == OffsetCdj(a.authenticatorData)
    ensures data == Words(HeadWords(a))
  {
    ghost var ws := HeadWords(a);
    forall k | 0 <= k < 9 ensures Words(ws[..k + 1]) == Words(ws[..k]) + ws[k] {
      WordsStep(ws, k);
    }
    data := [];
    data := data + a.challenge;
    assert data == Words(ws[..1]);
    data := data + a.rpIdHash;
    assert data == Words(ws[..2]);
    data := data + WordOf(offAuth);
    assert data == Words(ws[..3]);
    data := data + WordOf(offCdj);
    assert data == Words(ws[..4]);
    data := data + WordOf(a.challengeLocation);
    assert data == Words(ws[..5]);
    data := data + a.r;
    assert data == Words(ws[..6]);
    data := data + a.s;
    assert data == Words(ws[..7]);
    data := data + a.pubX;
    assert data == Words(ws[..8]);
    data := data + a.pubY;
    assert ws[..9] == ws;
  }

  // ---------------------------------------------------------------- reading by head offsets

  /** `word_at`: word `i`, or the error for a short input. */
  function WordAt(raw: Bytes, i: nat): (w: Option<Word>)
    ensures w.Some? <==> 32 * (i + 1) <= |raw|
  {
    if |raw| < 32 * i + 32 then None else Some(raw[32 * i..32 * i + 32])
  }

  /** `abi_u64`: a word whose upper 24 bytes are zero. */
  function AbiU64(raw: Bytes, i: nat): Option<Uint64> {
    match WordAt(raw, i)
    case None => None
    case Some(w) => U64OfWord(w)
  }

  function U64OfWord(w: Word): (n: Option<Uint64>)
  {
    if exists j | 0 <= j < 24 :: w[j] != 0 then None else
      ValueBound(w[24..]);
      Pow256Widths();
      Some(Value(w[24..]))
  }

  lemma U64OfWordExact(w: Word, n: Uint64)
    ensures U64OfWord(w) == Some(n) <==> w == WordOf(n)
  {
    if U64OfWord(w) == Some(n) {
      Pow256Widths();
      ValueInjective(w[24..], BigEndian(n, 8));
      assert w == w[..24] + w[24..];
      assert w[..24] == Zeros(24);
    }
    if w == WordOf(n) {
      Pow256Widths();
      assert w[24..] == BigEndian(n, 8);
      assert forall j | 0 <= j < 24 :: w[j] == Zeros(24)[j];
    }
  }

  /** A dynamic `bytes` value: the length word at `off`, the bytes, zero padding to a full word. */
  function BytesAt(raw: Bytes, off: nat): (b: Option<Buffer>)
    requires off % 32 == 0
  {
    match AbiU64(raw, off / 32)
    case None => None
    case Some(n) =>
      if n >= 0x8000_0000_0000_0000 || off + 32 + Pad32(n) > |raw| then None
      else if raw[off + 32 + n..off + 32 + Pad32(n)] != Zeros(Pad32(n) - n) then None
      else Some(raw[off + 32..off + 32 + n])
  }

  /** Reads all nine arguments, following the two head offsets wherever they point. */
  function ReadArgs(raw: Bytes): Option<(Args, nat, nat)> {
    if |raw| < 32 * HEAD_WORDS then None
    else
      match (AbiU64(raw, 2), AbiU64(raw, 3), AbiU64(raw, 4))
      case (Some(offAuth), Some(offCdj), Some(location)) =>
        if offAuth % 32 != 0 || offCdj % 32 != 0 then None
        else (match (BytesAt(raw, offAuth), BytesAt(raw, offCdj))
              case (Some(auth), Some(cdj)) =>
                Some((Args(WordAt(raw, 0).value, WordAt(raw, 1).value, auth, cdj, location, WordAt(raw, 5).value,
                           WordAt(raw, 6).value, WordAt(raw, 7).value, WordAt(raw, 8).value), offAuth, offCdj))
              case _ => None)
      case _ => None
  }

  /** The canonical layout: the tails follow the head in order, leave no gap and end the data. */
  predicate Canonical(raw: Bytes, a: Args, offAuth: nat, offCdj: nat) {
    && offAuth == OFFSET_AUTH
    && offCdj == offAuth + 32 + Pad32(|a.authenticatorData|)
    && |raw| == offCdj + 32 + Pad32(|a.clientDataJson|)
  }

  function Decode(raw: Bytes): Option<Args> {
    match ReadArgs(raw)
    case None => None
    case Some((a, offAuth, offCdj)) => if Canonical(raw, a, offAuth, offCdj) then Some(a) else None
  }

  lemma {:induction false} WordsAt(raw: Bytes, ws: seq<Word>)
    requires 32 * |ws| <= |raw|
    ensures raw[..32 * |ws|] == Words(ws) <==> forall i | 0 <= i < |ws| :: WordAt(raw, i) == Some(ws[i])
  {
    if ws != [] {
      var n := |ws| - 1;
      var front, last := ws[..n], ws[n];
      WordsAt(raw, front);
      assert raw[..32 * |ws|] == raw[..32 * n] + raw[32 * n..32 * n + 32];
      if raw[..32 * |ws|] == Words(ws) {
        assert raw[..32 * n] == Words(front) by {
          assert raw[..32 * |ws|][..32 * n] == Words(ws)[..32 * n];
        }
        assert raw[32 * n..32 * n + 32] == last by {
          assert raw[..32 * |ws|][32 * n..] == Words(ws)[32 * n..];
        }
        assert WordAt(raw, n) == Some(last);
        forall i | 0 <= i < |ws| ensures WordAt(raw, i) == Some(ws[i]) {
          if i < n {
            assert WordAt(raw, i) == Some(front[i]);
          }
        }
      }
      if forall i | 0 <= i < |ws| :: WordAt(raw, i) == Some(ws[i]) {
        assert WordAt(raw, n) == Some(last);
        forall i | 0 <= i < n ensures WordAt(raw, i) == Some(front[i]) {
          assert WordAt(raw, i) == Some(ws[i]);
        }
      }
    }
  }

  lemma SubSlice(raw: Bytes, off: nat, len: nat, i: nat, j: nat)
    requires off + len <= |raw| && i <= j <= len
    ensures raw[off..off + len][i..j] == raw[off + i..off + j]
  {
    var body := raw[off..off + len];
    forall k | 0 <= k < j - i ensures body[i..j][k] == raw[off + i..off + j][k] {
      assert body[i..j][k] == body[i + k] == raw[off + i + k];
    }
  }

  lemma BlobParts(b: Buffer)
    ensures var t, n, p := Blob(b), |b|, Pad32(|b|);
            t[0..32] == WordOf(n) && t[32..32 + n] == b && t[32 + n..32 + p] == Zeros(p - n)
  {
  }

  lemma BlobAtAccepts(raw: Bytes, off: nat, b: Buffer)
    requires off % 32 == 0 && off + |Blob(b)| <= |raw| && raw[off..off + |Blob(b)|] == Blob(b)
    ensures BytesAt(raw, off) == Some(b)
  {
    var n, p := |b|, Pad32(|b|);
    BlobParts(b);
    SubSlice(raw, off, 32 + p, 0, 32);
    SubSlice(raw, off, 32 + p, 32, 32 + n);
    SubSlice(raw, off, 32 + p, 32 + n, 32 + p);
    assert 32 * (off / 32) == off;
    U64OfWordExact(WordOf(n), n);
  }

  lemma BlobAtSound(raw: Bytes, off: nat, b: Buffer)
    requires off % 32 == 0 && BytesAt(raw, off) == Some(b)
    ensures off + |Blob(b)| <= |raw| && raw[off..off + |Blob(b)|] == Blob(b)
  {
    var n, p := |b|, Pad32(|b|);
    assert 32 * (off / 32) == off;
    U64OfWordExact(raw[off..off + 32], n);
    assert raw[off..off + 32 + p] == raw[off..off + 32] + raw[off + 32..off + 32 + n] + raw[off + 32 + n..off + 32 + p];
  }

  /** The strict reader accepts exactly what the encoder writes, and reads back all nine arguments. */
  lemma DecodeExact(raw: Bytes, a: Args)
    ensures Decode(raw) == Some(a) <==> raw == Encoding(a)
  {
    if Decode(raw) == Some(a) {
      DecodeSound(raw, a);
    }
    if raw == Encoding(a) {
      DecodeAccepts(raw, a);
    }
  }

  lemma HeadRead(raw: Bytes, a: Args)
    requires |raw| >= 288 && raw[..288] == Words(HeadWords(a))
    ensures AbiU64(raw, 2) == Some(OFFSET_AUTH) && AbiU64(raw, 3) == Some(OffsetCdj(a.authenticatorData))
    ensures AbiU64(raw, 4) == Some(a.challengeLocation)
    ensures WordAt(raw, 0) == Some(a.challenge) && WordAt(raw, 1) == Some(a.rpIdHash)
    ensures WordAt(raw, 5) == Some(a.r) && WordAt(raw, 6) == Some(a.s)
    ensures WordAt(raw, 7) == Some(a.pubX) && WordAt(raw, 8) == Some(a.pubY)
  {
    var ws := HeadWords(a);
    WordsAt(raw, ws);
    assert WordAt(raw, 0) == Some(ws[0]) && WordAt(raw, 1) == Some(ws[1]) && WordAt(raw, 2) == Some(ws[2]);
    assert WordAt(raw, 3) == Some(ws[3]) && WordAt(raw, 4) == Some(ws[4]) && WordAt(raw, 5) == Some(ws[5]);
    assert WordAt(raw, 6) == Some(ws[6]) && WordAt(raw, 7) == Some(ws[7]) && WordAt(raw, 8) == Some(ws[8]);
    U64OfWordExact(ws[2], OFFSET_AUTH);
    U64OfWordExact(ws[3], OffsetCdj(a.authenticatorData));
    U64OfWordExact(ws[4], a.challengeLocation);
  }

  /** The head says where the tails are, and each tail is there. */
  lemma ReadAccepts(raw: Bytes, a: Args)
    requires raw == Encoding(a)
    ensures ReadArgs(raw) == Some((a, OFFSET_AUTH, OffsetCdj(a.authenticatorData)))
  {
    var head, ta, tc := Words(HeadWords(a)), Blob(a.authenticatorData), Blob(a.clientDataJson);
    assert raw == head + ta + tc;
    assert raw[..288] == head;
    assert raw[288..288 + |ta|] == ta;
    assert raw[288 + |ta|..288 + |ta| + |tc|] == tc;
    HeadRead(raw, a);
    BlobAtAccepts(raw, 288, a.authenticatorData);
    BlobAtAccepts(raw, 288 + |ta|, a.clientDataJson);
  }

  lemma DecodeAccepts(raw: Bytes, a: Args)
    requires raw == Encoding(a)
    ensures Decode(raw) == Some(a)
  {
    ReadAccepts(raw, a);
  }

  lemma HeadSound(raw: Bytes, a: Args)
    requires ReadArgs(raw) == Some((a, OFFSET_AUTH, OffsetCdj(a.authenticatorData)))
    ensures raw[..288] == Words(HeadWords(a))
  {
    var ws := HeadWords(a);
    U64OfWordExact(WordAt(raw, 2).value, OFFSET_AUTH);
    U64OfWordExact(WordAt(raw, 3).value, OffsetCdj(a.authenticatorData));
    U64OfWordExact(WordAt(raw, 4).value, a.challengeLocation);
    forall i | 0 <= i < 9 ensures WordAt(raw, i) == Some(ws[i]) {
    }
    WordsAt(raw, ws);
  }

  lemma PartsSound(raw: Bytes, a: Args)
    requires ReadArgs(raw) == Some((a, OFFSET_AUTH, OffsetCdj(a.authenticatorData)))
    requires |raw| == OffsetCdj(a.authenticatorData) + 32 + Pad32(|a.clientDataJson|)
    ensures raw == Encoding(a)
  {
    var offCdj := OffsetCdj(a.authenticatorData);
    HeadSound(raw, a);
    BlobAtSound(raw, OFFSET_AUTH, a.authenticatorData);
    BlobAtSound(raw, offCdj, a.clientDataJson);
    ThreeParts(raw, 288, offCdj);
  }

  lemma DecodeSound(raw: Bytes, a: Args)
    requires Decode(raw) == Some(a)
    ensures raw == Encoding(a)
  {
    PartsSound(raw, a);
  }

  lemma ThreeParts(raw: Bytes, i: nat, j: nat)
    requires i <= j <= |raw|
    ensures raw == raw[..i] + raw[i..j] + raw[j..|raw|]
  {
  }

  /** Two calls with the same bytes have the same nine arguments. */
  lemma EncodingInjective(a: Args, b: Args)
    requires Encoding(a) == Encoding(b)
    ensures a == b
  {
    DecodeAccepts(Encoding(a), a);
    DecodeAccepts(Encoding(b), b);
  }

  lemma AlignedSum(x: nat, y: nat)
    requires x % 32 == 0 && y % 32 == 0
    ensures (x + 32 + y) % 32 == 0
  {
  }

  lemma EncodingLength(a: Args)
    ensures |Encoding(a)| == OffsetCdj(a.authenticatorData) + 32 + Pad32(|a.clientDataJson|)
  {
  }

  /** Head and tails are word-aligned, follow each other without gap or overlap, and cover the data. */
  lemma Layout(a: Args)
    ensures |Encoding(a)| % 32 == 0 && OFFSET_AUTH == 32 * HEAD_WORDS
    ensures OFFSET_AUTH + |Blob(a.authenticatorData)| == OffsetCdj(a.authenticatorData)
    ensures OffsetCdj(a.authenticatorData) + |Blob(a.clientDataJson)| == |Encoding(a)|
  {
    EncodingLength(a);
    AlignedSum(OffsetCdj(a.authenticatorData), Pad32(|a.clientDataJson|));
  }

  // ---------------------------------------------------------------- which passkey an assertion is checked against

  /** One decoded `signers(bytes32)` row; the old account layout has no generation. */
  datatype Row = Row(pubX: Word, pubY: Word, rpIdHash: Word, active: bool, generation: Option<Uint64>)
  datatype LiveSigner = LiveSigner(credentialHash: Word, pubX: Word, pubY: Word, rpIdHash: Word)

  datatype Error = BackendUnreachable | Unauthorized
  datatype Result<+T> = Ok(value: T) | Err(error: Error)

  /** What the node answers; every failure of transport or decoding is an error. */
  datatype Node = Node(signers: Word -> Result<Row>, generation: Word -> Result<Uint64>)

  predicate Blank(row: Row) {
    row.pubX == Zeros(32) && row.pubY == Zeros(32) && row.rpIdHash == Zeros(32)
  }

  /** `read_live_signer`. */
  method ReadLiveSigner(node: Node, cred: Word) returns (signer: Result<Option<LiveSigner>>)
    ensures signer == LiveSignerOf(node, cred)
  {
    var row := node.signers(cred);
    if row.Err? {
      return Err(row.error);
    }
    if !row.value.active {
      if row.value.pubX == Zeros(32) && row.value.pubY == Zeros(32) && row.value.rpIdHash == Zeros(32) {
        return Ok(None);
      }
      return Err(Unauthorized);
    }
    if row.value.generation.Some? {
      var current := node.generation(cred);
      if current.Err? {
        return Err(current.error);
      }
      if row.value.generation.value != current.value {
        return Err(Unauthorized);
      }
    }
    signer := Ok(Some(LiveSigner(cred, row.value.pubX, row.value.pubY, row.value.rpIdHash)));
  }

  /** A row may sign: it is active, and if the account counts generations it is of the current one. */
  predicate MaySign(node: Node, cred: Word) {
    && node.signers(cred).Ok? && node.signers(cred).value.active
    && (node.signers(cred).value.generation.Some? ==>
          node.generation(cred) == Ok(node.signers(cred).value.generation.value))
  }

  function LiveSignerOf(node: Node, cred: Word): Result<Option<LiveSigner>> {
    match node.signers(cred)
    case Err(e) => Err(e)
    case Ok(row) =>
      if MaySign(node, cred) then Ok(Some(LiveSigner(cred, row.pubX, row.pubY, row.rpIdHash)))
      else if !row.active then if Blank(row) then Ok(None) else Err(Unauthorized)
      else match node.generation(cred)
        case Err(e) => Err(e)
        case Ok(_) => Err(Unauthorized)
  }

  /** The legacy key never stands in for a credential the account knows: unless its row is wholly blank and
      inactive, the answer for the asserted credential is final. */
  lemma FallbackOnlyForUnknown(node: Node, cred: Word)
    ensures LiveSignerOf(node, cred) == Ok(None) <==>
            node.signers(cred).Ok? && !node.signers(cred).value.active && Blank(node.signers(cred).value)
  {
  }

  /** `resolve_assertion_signer` up to the signature check: the asserted credential, else the legacy one. */
  method ResolveAssertionSigner(node: Node, cred: Word, legacy: Word) returns (signer: Result<LiveSigner>)
    ensures signer.Ok? <==>
            MaySign(node, cred) || (LiveSignerOf(node, cred) == Ok(None) && MaySign(node, legacy))
    ensures signer.Ok? ==> MaySign(node, signer.value.credentialHash)
    ensures signer.Ok? ==> signer.value.credentialHash == if MaySign(node, cred) then cred else legacy
    ensures signer.Ok? ==> var row := node.signers(signer.value.credentialHash).value;
            signer.value.pubX == row.pubX && signer.value.pubY == row.pubY && signer.value.rpIdHash == row.rpIdHash
    ensures var row := node.signers(cred);
            signer.Ok? && signer.value.credentialHash != cred ==> row.Ok? && !row.value.active && Blank(row.value)
  {
    FallbackOnlyForUnknown(node, cred);
    var first := ReadLiveSigner(node, cred);
    if first.Err? {
      return Err(first.error);
    }
    if first.value.Some? {
      return Ok(first.value.value);
    }
    var second := ReadLiveSigner(node, legacy);
    if second.Err? {
      return Err(second.error);
    }
    if second.value.None? {
      return Err(Unauthorized);
    }
    signer := Ok(second.value.value);
  }
}
