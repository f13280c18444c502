/** The console's byte texts: unpadded base64url (section 5 of RFC 4648) on top of the browser's `btoa` and
    forgiving `atob`, and hex. */
module WebAuthn {
  import opened Options
  import opened ByteStrings
  import opened Hex
  import opened Text

  type Sextet = n: int | 0 <= n < 64

  // ---------------------------------------------------------------- bits, six at a time

  /** Three bytes as four sextets, and back. */
  function Cut(a: Byte, b: Byte, c: Byte): (q: (Sextet, Sextet, Sextet, Sextet)) {
    (a / 4, a % 4 * 16 + b / 16, b % 16 * 4 + c / 64, c % 64)
  }

  function Join(w: Sextet, x: Sextet, y: Sextet, z: Sextet): (t: (Byte, Byte, Byte)) {
    var a: int := w; var b: int := x; var c: int := y; var d: int := z;
    (a * 4 + b / 16, b % 16 * 16 + c / 4, c % 4 * 64 + d)
  }

  lemma Mix4(p: nat, q: nat)
    requires q < 4
    ensures (p * 4 + q) / 4 == p && (p * 4 + q) % 4 == q
  {
  }

  lemma Mix16(p: nat, q: nat)
    requires q < 16
    ensures (p * 16 + q) / 16 == p && (p * 16 + q) % 16 == q
  {
  }

  lemma Mix64(p: nat, q: nat)
    requires q < 64
    ensures (p * 64 + q) / 64 == p && (p * 64 + q) % 64 == q
  {
  }

  lemma JoinCut(a: Byte, b: Byte, c: Byte)
    ensures var q := Cut(a, b, c); Join(q.0, q.1, q.2, q.3) == (a, b, c)
  {
    Mix16(a % 4, b / 16);
    Mix4(b % 16, c / 64);
  }

  lemma CutJoin(w: Sextet, x: Sextet, y: Sextet, z: Sextet)
    ensures var t := Join(w, x, y, z); Cut(t.0, t.1, t.2) == (w, x, y, z)
  {
    Mix4(w, x / 16);
    Mix16(x % 16, y / 4);
    Mix64(y % 4, z);
  }

  /** The bytes of `b` cut into sextets, the last one filled with zero bits. */
  function Sextets(b: Bytes): (s: seq<Sextet>)
    ensures |s| == (4 * |b| + 2) / 3
  {
    if |b| == 0 then []
    else if |b| == 1 then var q := Cut(b[0], 0, 0); [q.0, q.1]
    else if |b| == 2 then var q := Cut(b[0], b[1], 0); [q.0, q.1, q.2]
    else var q := Cut(b[0], b[1], b[2]); [q.0, q.1, q.2, q.3] + Sextets(b[3..])
  }

  lemma ByFour(a: int, k: int, m: int)
    requires a == 4 * k + m && 0 <= m < 4
    ensures a / 4 == k && a % 4 == m
  {
  }

  lemma QuadLength(n: int)
    ensures (n - 4) % 4 == n % 4 && 3 * n / 4 == 3 + 3 * (n - 4) / 4
  {
    var short := 3 * (n - 4);
    ByFour(n, (n - 4) / 4 + 1, (n - 4) % 4);
    ByFour(3 * n, short / 4 + 3, short % 4);
  }

  /** The whole bytes in a row of sextets; left-over bits are discarded. */
  function Octets(s: seq<Sextet>): (b: Bytes)
    requires |s| % 4 != 1
    ensures |b| == 3 * |s| / 4
  {
    if |s| == 0 then []
    else if |s| == 2 then [Join(s[0], s[1], 0, 0).0]
    else if |s| == 3 then var t := Join(s[0], s[1], s[2], 0); [t.0, t.1]
    else
      QuadLength(|s|);
      var t := Join(s[0], s[1], s[2], s[3]);
      [t.0, t.1, t.2] + Octets(s[4..])
  }

  /** No left-over bit is set. */
  predicate TailClear(s: seq<Sextet>) {
    && |s| % 4 != 1
    && (|s| % 4 == 2 ==> s[|s| - 1] % 16 == 0)
    && (|s| % 4 == 3 ==> s[|s| - 1] % 4 == 0)
  }

  lemma TailOfQuad(s: seq<Sextet>)
    requires |s| >= 4
    ensures TailClear(s) <==> TailClear(s[4..])
  {
    var rest := s[4..];
    assert |s| % 4 == |rest| % 4;
    assert rest != [] ==> s[|s| - 1] == rest[|rest| - 1];
  }

  lemma OctetsStep(s: seq<Sextet>, t: (Byte, Byte, Byte))
    requires |s| >= 4 && |s| % 4 != 1 && t == Join(s[0], s[1], s[2], s[3])
    ensures |s[4..]| % 4 != 1 && Octets(s) == [t.0, t.1, t.2] + Octets(s[4..])
  {
  }

  lemma SextetsOfTriple(a: Byte, b: Byte, c: Byte, rest: Bytes)
    ensures var q := Cut(a, b, c); Sextets([a, b, c] + rest) == [q.0, q.1, q.2, q.3] + Sextets(rest)
  {
    assert ([a, b, c] + rest)[3..] == rest;
  }

  lemma {:induction false} OctetsOfSextets(b: Bytes)
    ensures TailClear(Sextets(b)) && Octets(Sextets(b)) == b
  {
    if |b| > 2 {
      var q := Cut(b[0], b[1], b[2]);
      OctetsOfSextets(b[3..]);
      JoinCut(b[0], b[1], b[2]);
      var rest, s := Sextets(b[3..]), Sextets(b);
      TailOfQuad(s);
      assert s[4..] == rest;
      OctetsStep(s, (b[0], b[1], b[2]));
      assert b == [b[0], b[1], b[2]] + b[3..];
    } else if |b| == 2 {
      JoinCut(b[0], b[1], 0);
    } else if |b| == 1 {
      JoinCut(b[0], 0, 0);
    }
  }

  lemma {:induction false} SextetsOfOctets(s: seq<Sextet>)
    requires TailClear(s)
    ensures Sextets(Octets(s)) == s
  {
    if |s| > 3 {
      var t := Join(s[0], s[1], s[2], s[3]);
      assert s == [s[0], s[1], s[2], s[3]] + s[4..];
      TailOfQuad(s);
      OctetsStep(s, t);
      SextetsOfOctets(s[4..]);
      CutJoin(s[0], s[1], s[2], s[3]);
      SextetsOfTriple(t.0, t.1, t.2, Octets(s[4..]));
    } else if |s| == 3 {
      CutJoin(s[0], s[1], s[2], 0);
    } else if |s| == 2 {
      CutJoin(s[0], s[1], 0, 0);
    }
  }

  // ---------------------------------------------------------------- alphabets

  /** The standard alphabet; the URL-safe one has `-` for `+` and `_` for `/`. */
  function StandardChar(n: Sextet): char {
    if n < 26 then 'A' + n as char
    else if n < 52 then 'a' + (n - 26) as char
    else if n < 62 then '0' + (n - 52) as char
    else if n == 62 then '+' else '/'
  }

  function StandardIndex(c: char): Option<Sextet> {
    if 'A' <= c <= 'Z' then Some((c - 'A') as int)
    else if 'a' <= c <= 'z' then Some((c - 'a') as int + 26)
    else if '0' <= c <= '9' then Some((c - '0') as int + 52)
    else if c == '+' then Some(62)
    else if c == '/' then Some(63)
    else None
  }

  function Replaced(s: string, from: char, to: char): (t: string)
    ensures |t| == |s|
  {
    seq(|s|, i requires 0 <= i < |s| => if s[i] == from then to else s[i])
  }

  function UrlChar(n: Sextet): (c: char) {
    if n == 62 then '-' else if n == 63 then '_' else StandardChar(n)
  }

  function UrlIndex(c: char): Option<Sextet> {
    if c == '-' then Some(62) else if c == '_' then Some(63)
    else if c == '+' || c == '/' then None else StandardIndex(c)
  }

  predicate UrlText(s: string) { forall i | 0 <= i < |s| :: UrlIndex(s[i]).Some? }

  function StandardText(s: seq<Sextet>): string { seq(|s|, i requires 0 <= i < |s| => StandardChar(s[i])) }

  function UrlTextOf(s: seq<Sextet>): (t: string)
    ensures |t| == |s|
  {
    seq(|s|, i requires 0 <= i < |s| => UrlChar(s[i]))
  }

  function SextetsAt(s: string): seq<Sextet>
    requires UrlText(s)
  {
    seq(|s|, i requires 0 <= i < |s| => UrlIndex(s[i]).value)
  }

  // ---------------------------------------------------------------- btoa and atob

  function Pads(n: nat): string
    ensures |Pads(n)| == n && forall i | 0 <= i < n :: Pads(n)[i] == '='
  {
    seq(n, _ => '=')
  }

  /** The number of characters a length lacks to a multiple of four. */
  function Lack(n: nat): (k: nat)
    ensures k < 4 && (n + k) % 4 == 0
  {
    (4 - n % 4) % 4
  }

  function Btoa(b: Bytes): string { StandardText(Sextets(b)) + Pads(Lack(|Sextets(b)|)) }

  function WithoutBlanks(s: string): string {
    if s == "" then ""
    else if s[0] in {' ', '\t', '\n', '\r', 12 as char} then WithoutBlanks(s[1..])
    else [s[0]] + WithoutBlanks(s[1..])
  }

  /** Up to two trailing pads go, but only from a length that is a multiple of four. */
  function Unpadded(s: string): string {
    if |s| % 4 != 0 then s
    else if |s| >= 2 && s[|s| - 1] == '=' && s[|s| - 2] == '=' then s[..|s| - 2]
    else if |s| >= 1 && s[|s| - 1] == '=' then s[..|s| - 1]
    else s
  }

  predicate StandardOnly(s: string) { forall i | 0 <= i < |s| :: StandardIndex(s[i]).Some? }

  function Indices(s: string): seq<Sextet>
    requires StandardOnly(s)
  {
    seq(|s|, i requires 0 <= i < |s| => StandardIndex(s[i]).value)
  }

  /** The forgiving decoder: blanks are skipped, padding is optional, left-over bits are dropped. */
  function Atob(s: string): Option<Bytes> {
    var t := Unpadded(WithoutBlanks(s));
    if |t| % 4 == 1 || !StandardOnly(t) then None else Some(Octets(Indices(t)))
  }

  // ---------------------------------------------------------------- the console's functions

  function StripPads(s: string): string {
    if s != "" && s[|s| - 1] == '=' then StripPads(s[..|s| - 1]) else s
  }

  function Encode(b: Bytes): string { Replaced(Replaced(StripPads(Btoa(b)), '+', '-'), '/', '_') }

  function Decode(s: string): Option<Bytes> {
    Atob(Replaced(Replaced(s + Pads(Lack(|s|)), '-', '+'), '_', '/'))
  }

  function CharCodes(b: Bytes): (s: string)
    ensures |s| == |b| && forall i | 0 <= i < |b| :: s[i] == b[i] as char
  {
    seq(|b|, i requires 0 <= i < |b| => b[i] as char)
  }

  function Codes(s: string): Bytes
    requires forall i | 0 <= i < |s| :: s[i] < 256 as char
  {
    seq(|s|, i requires 0 <= i < |s| => s[i] as int)
  }

  method Base64UrlEncode(bytes: Bytes) returns (text: string)
    ensures text == Encode(bytes) == UrlTextOf(Sextets(bytes))
  {
    var bin: string := "";
    for i := 0 to |bytes|
      invariant bin == CharCodes(bytes)[..i]
    {
      bin := bin + [bytes[i] as char];
    }
    assert Codes(bin) == bytes;
    text := Replaced(Replaced(StripPads(Btoa(Codes(bin))), '+', '-'), '/', '_');
    EncodeIsUrlText(bytes);
  }

  /** None: `atob` throws. */
  method Base64UrlDecode(s: string) returns (out: Option<array<Byte>>)
    ensures out.Some? <==> Decode(s).Some?
    ensures out.Some? ==> fresh(out.value) && out.value[..] == Decode(s).value
  {
    var padded := Replaced(Replaced(s + Pads(Lack(|s|)), '-', '+'), '_', '/');
    var decoded := Atob(padded);
    if decoded.None? {
      return None;
    }
    var bin := CharCodes(decoded.value);
    var bytes := new Byte[|bin|];
    for i := 0 to |bin|
      invariant forall k | 0 <= k < i :: bytes[k] == decoded.value[k]
    {
      bytes[i] := bin[i] as int;
    }
    out := Some(bytes);
  }

  // ---------------------------------------------------------------- what the encoder writes

  lemma CharIndex(n: Sextet)
    ensures StandardIndex(StandardChar(n)) == Some(n) && UrlIndex(UrlChar(n)) == Some(n)
    ensures StandardChar(n) != '='
  {
  }

  lemma IndexChar(c: char)
    requires UrlIndex(c).Some?
    ensures UrlChar(UrlIndex(c).value) == c
  {
  }

  lemma {:induction false} StripPadsExactly(s: string, n: nat)
    requires s == "" || s[|s| - 1] != '='
    ensures StripPads(s + Pads(n)) == s
    decreases n
  {
    if n == 0 {
      assert s + Pads(0) == s;
    } else {
      assert (s + Pads(n))[..|s| + n - 1] == s + Pads(n - 1);
      StripPadsExactly(s, n - 1);
    }
  }

  /** The encoder writes the sextets in the URL-safe alphabet, and nothing else. */
  lemma EncodeIsUrlText(b: Bytes)
    ensures Encode(b) == UrlTextOf(Sextets(b))
  {
    var s := Sextets(b);
    var t := StandardText(s);
    if s != [] {
      CharIndex(s[|s| - 1]);
    }
    StripPadsExactly(t, Lack(|s|));
    forall i | 0 <= i < |s|
      ensures Replaced(Replaced(t, '+', '-'), '/', '_')[i] == UrlChar(s[i])
    {
      ReplaceBoth(s[i]);
    }
    assert Replaced(Replaced(t, '+', '-'), '/', '_') == UrlTextOf(s);
  }

  lemma ReplaceBoth(n: Sextet)
    ensures var c := StandardChar(n);
      var d := if c == '+' then '-' else c;
      (if d == '/' then '_' else d) == UrlChar(n)
  {
  }

  // ---------------------------------------------------------------- what the decoder reads

  lemma {:induction false} NoBlanks(s: string)
    requires forall i | 0 <= i < |s| :: StandardIndex(s[i]).Some? || s[i] == '='
    ensures WithoutBlanks(s) == s
  {
    if s != "" {
      NoBlanks(s[1..]);
      assert s == [s[0]] + s[1..];
    }
  }

  /** One URL-safe character, in the standard alphabet. */
  function Standard(c: char): char { if c == '-' then '+' else if c == '_' then '/' else c }

  lemma StandardOfUrl(c: char)
    requires UrlIndex(c).Some?
    ensures StandardIndex(Standard(c)) == UrlIndex(c) && Standard(c) != '='
  {
  }

  /** Text in the URL-safe alphabet decodes unless one character is left over; the bytes are its whole octets. */
  lemma DecodeUrlText(s: string)
    requires UrlText(s)
    ensures Decode(s) == if |s| % 4 == 1 then None else Some(Octets(SextetsAt(s)))
  {
    var k := Lack(|s|);
    var t := Replaced(Replaced(s + Pads(k), '-', '+'), '_', '/');
    forall i | 0 <= i < |s|
      ensures t[i] == Standard(s[i]) && StandardIndex(t[i]) == UrlIndex(s[i]) && t[i] != '='
    {
      StandardOfUrl(s[i]);
    }
    assert forall i | |s| <= i < |t| :: t[i] == '=';
    NoBlanks(t);
    UnpaddedExactly(t, |s|);
    if |s| % 4 != 1 {
      assert Indices(t[..|s|]) == SextetsAt(s);
    }
  }

  /** Padding to a multiple of four is taken off again, unless three pads were needed. */
  lemma UnpaddedExactly(t: string, n: nat)
    requires |t| == n + Lack(n)
    requires forall i | 0 <= i < n :: t[i] != '=' && StandardIndex(t[i]).Some?
    requires forall i | n <= i < |t| :: t[i] == '='
    ensures n % 4 != 1 ==> Unpadded(t) == t[..n] && StandardOnly(t[..n])
    ensures n % 4 == 1 ==> !StandardOnly(Unpadded(t))
  {
    if n % 4 == 1 {
      assert Unpadded(t) == t[..n + 1] && t[..n + 1][n] == '=';
    } else if n % 4 == 0 {
      assert t[..n] == t;
    }
  }

  // ---------------------------------------------------------------- the promises

  /** Decoding gives back every byte string; the text uses the URL-safe alphabet only and has ceil(4n/3)
      characters. */
  lemma DecodeEncode(b: Bytes)
    ensures Decode(Encode(b)) == Some(b)
    ensures UrlText(Encode(b)) && |Encode(b)| == (4 * |b| + 2) / 3
  {
    EncodeIsUrlText(b);
    var s := Sextets(b);
    OctetsOfSextets(b);
    forall i | 0 <= i < |s| ensures UrlIndex(Encode(b)[i]) == Some(s[i]) {
      CharIndex(s[i]);
    }
    assert SextetsAt(Encode(b)) == s;
    DecodeUrlText(Encode(b));
  }

  lemma EncodeInjective(a: Bytes, b: Bytes)
    requires Encode(a) == Encode(b)
    ensures a == b
  {
    DecodeEncode(a);
    DecodeEncode(b);
  }

  /** The canonical texts: URL-safe characters, no lone last one, no left-over bit set. */
  predicate Canonical(s: string) { UrlText(s) && TailClear(SextetsAt(s)) }

  /** Encoding what was decoded gives the text back exactly when the text is canonical; other texts the forgiving
      decoder accepts (blanks, `+` and `/`, padding, stray bits) come back changed. */
  lemma EncodeDecodeExactly(s: string)
    ensures Decode(s).Some? && Encode(Decode(s).value) == s <==> Canonical(s)
  {
    if Canonical(s) {
      var x := SextetsAt(s);
      DecodeUrlText(s);
      SextetsOfOctets(x);
      EncodeIsUrlText(Octets(x));
      forall i | 0 <= i < |s| ensures UrlTextOf(x)[i] == s[i] {
        IndexChar(s[i]);
      }
      assert UrlTextOf(x) == s;
    }
    if Decode(s).Some? && Encode(Decode(s).value) == s {
      var b := Decode(s).value;
      EncodeIsUrlText(b);
      OctetsOfSextets(b);
      forall i | 0 <= i < |s| ensures UrlIndex(s[i]) == Some(Sextets(b)[i]) {
        CharIndex(Sextets(b)[i]);
      }
      assert SextetsAt(s) == Sextets(b);
    }
  }

  // ---------------------------------------------------------------- hex

  function HexValue(c: char): Option<nat> {
    if '0' <= c <= '9' then Some((c - '0') as nat)
    else if 'a' <= c <= 'f' then Some((c - 'a') as nat + 10)
    else if 'A' <= c <= 'F' then Some((c - 'A') as nat + 10)
    else None
  }

  function SkipBlanks(s: string): string {
    if s != "" && s[0] in {' ', '\t', '\n', '\r'} then SkipBlanks(s[1..]) else s
  }

  /** The number the leading hex digits spell, read after `acc`. */
  function HexRun(s: string, acc: nat): nat
    decreases |s|
  {
    if s == "" || HexValue(s[0]).None? then acc else HexRun(s[1..], 16 * acc + HexValue(s[0]).value)
  }

  /** `parseInt(s, 16)`: blanks, a sign and `0x` may precede the digits, and what follows them is ignored;
      None is NaN. */
  function ParseInt16(s: string): Option<int> {
    var t := SkipBlanks(s);
    var negative := t != "" && t[0] == '-';
    var t := if negative || (t != "" && t[0] == '+') then t[1..] else t;
    var t := if StartsWith(t, "0x") || StartsWith(t, "0X") then t[2..] else t;
    if t == "" || HexValue(t[0]).None? then None
    else
      var n: int := HexRun(t, 0);
      Some(if negative then -n else n)
  }

  /** What storing a number in a `Uint8Array` keeps. */
  function ToUint8(n: Option<int>): Byte { if n.None? then 0 else n.value % 256 }

  function ByteOfPair(pair: string): Byte { ToUint8(ParseInt16(pair)) }

  function WithoutPrefix(hex: string): string { if StartsWith(hex, "0x") then hex[2..] else hex }

  function BytesOfHex(h: string): (b: Bytes)
    ensures |b| == |h| / 2
  {
    seq(|h| / 2, i requires 0 <= i < |h| / 2 => ByteOfPair(h[i * 2..i * 2 + 2]))
  }

  method HexToBytes(hex: string) returns (out: array<Byte>)
    ensures fresh(out) && out[..] == BytesOfHex(WithoutPrefix(hex))
  {
    var h := WithoutPrefix(hex);
    out := new Byte[|h| / 2];
    for i := 0 to |h| / 2
      invariant forall k | 0 <= k < i :: out[k] == BytesOfHex(h)[k]
    {
      out[i] := ByteOfPair(h[i * 2..i * 2 + 2]);
    }
  }

  lemma DigitValue(n: nat)
    requires n < 16
    ensures HexValue(HexDigit(n)) == Some(n) && HexDigit(n) !in {' ', '\t', '\n', '\r', '-', '+', 'x', 'X'}
  {
  }

  lemma PairValue(x: Byte, pair: string)
    requires pair == [HexDigit(x / 16), HexDigit(x % 16)]
    ensures ParseInt16(pair) == Some(x)
  {
    DigitValue(x / 16);
    DigitValue(x % 16);
    assert SkipBlanks(pair) == pair;
    assert pair[1] != 'x' && pair[1] != 'X';
    assert pair[1..] == [HexDigit(x % 16)] && pair[1..][1..] == "";
    assert HexRun("", x) == x;
    assert HexRun(pair[1..], x / 16) == 16 * (x / 16) + x % 16;
  }

  lemma {:induction false} HexDigitsAt(b: Bytes, i: nat)
    requires i < |b|
    ensures HexDigits(b)[i * 2..i * 2 + 2] == [HexDigit(b[i] / 16), HexDigit(b[i] % 16)]
  {
    if i > 0 {
      HexDigitsAt(b[1..], i - 1);
      assert HexDigits(b)[2..] == HexDigits(b[1..]);
      assert HexDigits(b)[i * 2..i * 2 + 2] == HexDigits(b)[2..][(i - 1) * 2..(i - 1) * 2 + 2];
    }
  }

  lemma PrefixesOfText(b: Bytes)
    ensures WithoutPrefix(HexText(b)) == HexDigits(b) == WithoutPrefix(HexDigits(b))
  {
    var h := HexDigits(b);
    assert HexText(b)[2..] == h;
    if b != [] {
      DigitValue(b[0] % 16);
      assert h[1] == HexDigit(b[0] % 16);
    }
  }

  /** Reading hex gives back every byte string it was written from, with or without the prefix. */
  lemma HexRoundTrip(b: Bytes)
    ensures BytesOfHex(WithoutPrefix(HexText(b))) == b
    ensures BytesOfHex(WithoutPrefix(HexDigits(b))) == b
  {
    PrefixesOfText(b);
    HexBytes(b, HexDigits(b));
  }

  lemma PairByte(x: Byte, pair: string)
    requires pair == [HexDigit(x / 16), HexDigit(x % 16)]
    ensures ByteOfPair(pair) == x
  {
    PairValue(x, pair);
  }

  lemma PairAt(h: string, i: nat, pair: string, read: Byte)
    requires i < |h| / 2 && pair == h[i * 2..i * 2 + 2] && ByteOfPair(pair) == read
    ensures BytesOfHex(h)[i] == read
  {
  }

  lemma HexBytes(b: Bytes, h: string)
    requires h == HexDigits(b)
    ensures BytesOfHex(h) == b
  {
    forall i: nat | i < |b| ensures BytesOfHex(h)[i] == b[i] {
      var pair := [HexDigit(b[i] / 16), HexDigit(b[i] % 16)];
      HexDigitsAt(b, i);
      PairByte(b[i], pair);
      PairAt(h, i, pair, b[i]);
    }
  }
}
