/** Recursive Length Prefix encoding (Ethereum Yellow Paper, Appendix B) as the bundler writes it,
    and the strict reader it has to agree with. */
module Rlp {
  import opened Options
  import opened ByteStrings

  datatype Kind = Str | Lst

  /** `(len as u64).to_be_bytes()` without leading zeros; the cast keeps the low 64 bits. */
  ghost function LengthBytes(n: nat): (b: Bytes)
    ensures Minimal(b) && |b| <= 8
    ensures n < U64 ==> Value(b) == n
  {
    Pow256Widths();
    MinimalForm(AsU64(n), 8)
  }

  function ShortBase(kind: Kind): Byte { if kind.Str? then 0x80 else 0xc0 }

  ghost function Header(kind: Kind, n: nat): Bytes {
    if n <= 55 then [ShortBase(kind) + n]
    else [ShortBase(kind) + 55 + |LengthBytes(n)|] + LengthBytes(n)
  }

  /** One item: a string with its bytes, or a list with its already encoded payload. */
  ghost function Encode(kind: Kind, payload: Bytes): Bytes {
    if kind.Str? && |payload| == 1 && payload[0] < 0x80 then payload
    else Header(kind, |payload|) + payload
  }

  function Concat(items: seq<Bytes>): Bytes {
    if items == [] then [] else items[0] + Concat(items[1..])
  }

  /** `rlp_bytes`. */
  method RlpBytes(b: Bytes) returns (out: Bytes)
    ensures out == Encode(Str, b)
  {
    if |b| == 1 && b[0] < 0x80 {
      out := [b[0]];
    } else if |b| <= 55 {
      out := [0x80 + |b|];
      out := out + b;
    } else {
      Pow256Widths();
      var lenBe := MinimalBigEndian(AsU64(|b|), 8);
      out := [0xb7 + |lenBe|];
      out := out + lenBe;
      out := out + b;
    }
  }

  /** `rlp_list`: the items are already encoded. */
  method RlpList(items: seq<Bytes>) returns (out: Bytes)
    ensures out == Encode(Lst, Concat(items))
  {
    var payload := Concat(items);
    if |payload| <= 55 {
      out := [0xc0 + |payload|];
      out := out + payload;
    } else {
      Pow256Widths();
      var lenBe := MinimalBigEndian(AsU64(|payload|), 8);
      out := [0xf7 + |lenBe|];
      out := out + lenBe;
      out := out + payload;
    }
  }

  // ---------------------------------------------------------------- strict reader

  datatype Item = Item(kind: Kind, payload: Bytes, rest: Bytes)

  /** Reads one item off the front and rejects every non-canonical length form. */
  function Read(s: Bytes): Option<Item> {
    if s == [] then None
    else if s[0] < 0x80 then Some(Item(Str, s[..1], s[1..]))
    else
      var kind := if s[0] < 0xc0 then Str else Lst;
      var tag := s[0] - ShortBase(kind);
      if tag <= 55 then
        if |s| < 1 + tag then None
        else if kind.Str? && tag == 1 && s[1] < 0x80 then None
        else Some(Item(kind, s[1..1 + tag], s[1 + tag..]))
      else
        ReadLong(kind, tag - 55, s[1..])
  }

  /** The long form: `width` length bytes, then that many payload bytes. */
  function ReadLong(kind: Kind, width: nat, s: Bytes): Option<Item> {
    if |s| < width then None
    else
      var n := Value(s[..width]);
      if !Minimal(s[..width]) || n <= 55 || |s| < width + n then None
      else Some(Item(kind, s[width..width + n], s[width + n..]))
  }

  lemma Slices(a: Bytes, b: Bytes, c: Bytes)
    ensures (a + b + c)[..|a|] == a
    ensures (a + b + c)[|a|..|a| + |b|] == b
    ensures (a + b + c)[|a| + |b|..] == c
  {
  }

  lemma ReadLongAccepts(kind: Kind, len: Bytes, payload: Bytes, rest: Bytes)
    requires Minimal(len) && Value(len) == |payload| > 55
    ensures ReadLong(kind, |len|, len + payload + rest) == Some(Item(kind, payload, rest))
  {
    Slices(len, payload, rest);
  }

  lemma ReadAcceptsLong(kind: Kind, payload: Bytes, rest: Bytes)
    requires 55 < |payload| < U64
    ensures Read(Encode(kind, payload) + rest) == Some(Item(kind, payload, rest))
  {
    var len := LengthBytes(|payload|);
    assert |len| >= 1;
    ReadLongAccepts(kind, len, payload, rest);
    LongForm(kind, len, payload, rest);
  }

  lemma ReadAccepts(kind: Kind, payload: Bytes, rest: Bytes)
    requires |payload| < U64
    ensures Read(Encode(kind, payload) + rest) == Some(Item(kind, payload, rest))
  {
    if kind.Str? && |payload| == 1 && payload[0] < 0x80 {
      Slices([], payload, rest);
      assert [] + payload + rest == payload + rest;
    } else if |payload| <= 55 {
      Slices([ShortBase(kind) + |payload|], payload, rest);
    } else {
      ReadAcceptsLong(kind, payload, rest);
    }
  }

  lemma Reassemble(s: Bytes, i: nat, n: nat)
    requires i + n <= |s|
    ensures s == s[..i] + s[i..i + n] + s[i + n..]
  {
  }

  /** A minimal length field of at most eight bytes is the one the encoder writes. */
  lemma LengthFieldUnique(len: Bytes, n: nat)
    requires Minimal(len) && |len| <= 8 && Value(len) == n
    ensures n < U64 && LengthBytes(n) == len
  {
    ValueBelow64(len);
    SameLengthField(len, n);
  }

  lemma SameLengthField(len: Bytes, n: nat)
    requires Minimal(len) && Value(len) == n < U64
    ensures LengthBytes(n) == len
  {
    MinimalUnique(LengthBytes(n), len);
  }

  lemma ValueBelow64(b: Bytes)
    requires |b| <= 8
    ensures Value(b) < U64
  {
    ValueBound(b);
    Pow256Monotone(|b|, 8);
    Pow256Widths();
  }

  lemma ReadLongSound(kind: Kind, width: nat, s: Bytes, item: Item)
    requires 1 <= width <= 8 && ReadLong(kind, width, s) == Some(item)
    ensures 55 < |item.payload| < U64 && item.kind == kind
    ensures LengthBytes(|item.payload|) == s[..width]
    ensures s == s[..width] + item.payload + item.rest
  {
    LengthFieldUnique(s[..width], |item.payload|);
    Reassemble(s, width, Value(s[..width]));
  }

  lemma ReadSoundShort(s: Bytes, item: Item)
    requires Read(s) == Some(item) && s[0] >= 0x80 && s[0] - ShortBase(item.kind) <= 55
    ensures |item.payload| <= 55 && s == Encode(item.kind, item.payload) + item.rest
  {
    Reassemble(s, 1, s[0] - ShortBase(item.kind));
    assert s[..1] == [s[0]];
  }

  lemma LongForm(kind: Kind, len: Bytes, payload: Bytes, rest: Bytes)
    requires 55 < |payload| < U64 && len == LengthBytes(|payload|)
    ensures Encode(kind, payload) + rest == [ShortBase(kind) + 55 + |len|] + (len + payload + rest)
  {
    var first := [ShortBase(kind) + 55 + |len|];
    assert Encode(kind, payload) == first + len + payload;
    assert first + len + payload + rest == first + (len + payload + rest);
  }

  lemma ReadSoundLong(s: Bytes, item: Item)
    requires Read(s) == Some(item) && s[0] >= 0x80 && s[0] - ShortBase(item.kind) > 55
    ensures |item.payload| < U64 && s == Encode(item.kind, item.payload) + item.rest
  {
    var width := s[0] - ShortBase(item.kind) - 55;
    ReadLongSound(item.kind, width, s[1..], item);
    LongForm(item.kind, s[1..][..width], item.payload, item.rest);
    assert s == [s[0]] + s[1..];
  }

  lemma ReadSound(s: Bytes, item: Item)
    requires Read(s) == Some(item)
    ensures |item.payload| < U64 && s == Encode(item.kind, item.payload) + item.rest
  {
    if s[0] < 0x80 {
      assert s == s[..1] + s[1..];
    } else if s[0] - ShortBase(item.kind) <= 55 {
      ReadSoundShort(s, item);
    } else {
      ReadSoundLong(s, item);
    }
  }

  /** Unique readability: the reader returns an item exactly when the input starts with the
      bytes the encoder writes for it. */
  lemma ReadExact(s: Bytes, item: Item)
    ensures Read(s) == Some(item)
       <==> |item.payload| < U64 && s == Encode(item.kind, item.payload) + item.rest
  {
    if Read(s) == Some(item) {
      ReadSound(s, item);
    }
    if |item.payload| < U64 && s == Encode(item.kind, item.payload) + item.rest {
      ReadAccepts(item.kind, item.payload, item.rest);
    }
  }

  // ---------------------------------------------------------------- whole documents

  /** An RLP document: a string, or a list of documents. */
  datatype Tree = Leaf(bytes: Bytes) | Node(items: seq<Tree>)

  ghost function EncodeTree(t: Tree): Bytes {
    match t
    case Leaf(b) => Encode(Str, b)
    case Node(items) => Encode(Lst, EncodeForest(items))
  }

  ghost function EncodeForest(f: seq<Tree>): Bytes {
    if f == [] then [] else EncodeTree(f[0]) + EncodeForest(f[1..])
  }

  /** Every length in the document fits the 64-bit length field. */
  ghost predicate Sized(f: seq<Tree>) {
    f == [] ||
    (&& (match f[0]
         case Leaf(b) => |b| < U64
         case Node(items) => Sized(items) && |EncodeForest(items)| < U64)
     && Sized(f[1..]))
  }

  function DecodeForest(s: Bytes): Option<seq<Tree>>
    decreases |s|
  {
    if s == [] then Some([]) else
      match Read(s)
      case None => None
      case Some(item) =>
        ReadSound(s, item);
        var rest := DecodeForest(item.rest);
        if rest.None? then None
        else if item.kind.Str? then Some([Leaf(item.payload)] + rest.value)
        else
          var items := DecodeForest(item.payload);
          if items.None? then None else Some([Node(items.value)] + rest.value)
  }

  /** The decoder takes one item off the front and goes on with the rest. */
  lemma DecodeStep(s: Bytes, item: Item, head: Tree, tail: seq<Tree>)
    requires s != [] && Read(s) == Some(item) && DecodeForest(item.rest) == Some(tail)
    requires match head
             case Leaf(b) => item.kind.Str? && b == item.payload
             case Node(items) => item.kind.Lst? && |item.payload| < |s| && DecodeForest(item.payload) == Some(items)
    ensures DecodeForest(s) == Some([head] + tail)
  {
  }

  lemma EncodedFront(s: Bytes, kind: Kind, payload: Bytes, rest: Bytes)
    requires |payload| < U64 && s == Encode(kind, payload) + rest
    ensures s != [] && |payload| < |s| + (if kind.Str? then 1 else 0) && Read(s) == Some(Item(kind, payload, rest))
  {
    ReadAccepts(kind, payload, rest);
  }

  /** One document at the front of a forest, from the parts its item is made of. */
  lemma FrontAccepted(head: Tree, kind: Kind, payload: Bytes, rest: Bytes, tail: seq<Tree>)
    requires |payload| < U64 && DecodeForest(rest) == Some(tail)
    requires match head
             case Leaf(b) => kind.Str? && b == payload
             case Node(items) => kind.Lst? && DecodeForest(payload) == Some(items)
    ensures DecodeForest(Encode(kind, payload) + rest) == Some([head] + tail)
  {
    var s := Encode(kind, payload) + rest;
    EncodedFront(s, kind, payload, rest);
    DecodeStep(s, Item(kind, payload, rest), head, tail);
  }

  lemma ForestParts(f: seq<Tree>)
    requires f != [] && Sized(f)
    ensures Sized(f[1..]) && EncodeForest(f) == EncodeTree(f[0]) + EncodeForest(f[1..]) && f == [f[0]] + f[1..]
    ensures match f[0]
            case Leaf(b) => |b| < U64 && EncodeTree(f[0]) == Encode(Str, b)
            case Node(items) => Sized(items) && |EncodeForest(items)| < U64
                                && EncodeTree(f[0]) == Encode(Lst, EncodeForest(items))
  {
  }

  lemma {:induction false} DecodeAccepts(f: seq<Tree>)
    requires Sized(f)
    ensures DecodeForest(EncodeForest(f)) == Some(f)
  {
    if f != [] {
      ForestParts(f);
      var rest := EncodeForest(f[1..]);
      DecodeAccepts(f[1..]);
      match f[0] {
        case Leaf(b) =>
          FrontAccepted(f[0], Str, b, rest, f[1..]);
        case Node(items) =>
          DecodeAccepts(items);
          FrontAccepted(f[0], Lst, EncodeForest(items), rest, f[1..]);
      }
    }
  }

  lemma {:induction false} DecodeSound(s: Bytes, f: seq<Tree>)
    requires DecodeForest(s) == Some(f)
    ensures Sized(f) && EncodeForest(f) == s
    decreases |s|
  {
    if s != [] {
      var item := Read(s).value;
      ReadSound(s, item);
      DecodeSound(item.rest, f[1..]);
      if item.kind.Lst? {
        DecodeSound(item.payload, f[0].items);
      }
    }
  }

  /** Decoding and encoding whole documents are inverse to each other, at any nesting depth:
      a byte string is accepted exactly when it is what the encoder writes. */
  lemma DecodeExact(s: Bytes, f: seq<Tree>)
    ensures DecodeForest(s) == Some(f) <==> Sized(f) && s == EncodeForest(f)
  {
    if DecodeForest(s) == Some(f) {
      DecodeSound(s, f);
    }
    if Sized(f) && s == EncodeForest(f) {
      DecodeAccepts(f);
    }
  }

  lemma OneTree(t: Tree)
    ensures EncodeForest([t]) == EncodeTree(t)
  {
    assert [t][1..] == [];
    assert EncodeForest([]) == [];
  }

  /** No document's encoding starts another document's encoding. */
  lemma PrefixFree(a: Tree, b: Tree, x: Bytes, y: Bytes)
    requires Sized([a]) && Sized([b])
    requires EncodeTree(a) + x == EncodeTree(b) + y
    ensures a == b && x == y
  {
    var s := EncodeTree(a) + x;
    var pa := if a.Leaf? then Item(Str, a.bytes, x) else Item(Lst, EncodeForest(a.items), x);
    var pb := if b.Leaf? then Item(Str, b.bytes, y) else Item(Lst, EncodeForest(b.items), y);
    ReadExact(s, pa);
    ReadExact(s, pb);
    if a.Node? {
      DecodeAccepts(a.items);
      DecodeAccepts(b.items);
    }
  }

  /** Handing `rlp_list` the encodings of documents builds the encoding of their list. */
  lemma {:induction false} ConcatOfEncodings(f: seq<Tree>, items: seq<Bytes>)
    requires |items| == |f| && forall i | 0 <= i < |f| :: items[i] == EncodeTree(f[i])
    ensures Concat(items) == EncodeForest(f)
  {
    if f != [] {
      ConcatOfEncodings(f[1..], items[1..]);
    }
  }

  lemma EncodeLength(kind: Kind, payload: Bytes)
    ensures |Encode(kind, payload)| <= |payload| + 9
  {
  }
}
