/**
 The AAF stream frame of section 7 of IEEE 1722-2016 as the design uses it: VLAN
 tagged, 32-bit integer samples, 8 channels, 6 blocks, 234 octets.
 */
module AafFrame {
  import opened Bytes

  const CHANNELS := 8
  const BLOCKS := 6
  const HDR_LEN := 42
  const TOTAL := 234
  const N_WORDS := 59

  /** One sample per channel. */
  type Block = b: seq<Word> | |b| == 8
    witness [ZERO_WORD, ZERO_WORD, ZERO_WORD, ZERO_WORD, ZERO_WORD, ZERO_WORD, ZERO_WORD, ZERO_WORD]

  const ZERO_BLOCK: Block :=
    [ZERO_WORD, ZERO_WORD, ZERO_WORD, ZERO_WORD, ZERO_WORD, ZERO_WORD, ZERO_WORD, ZERO_WORD]

  type Group = g: seq<Block> | |g| == 6
    witness [ZERO_BLOCK, ZERO_BLOCK, ZERO_BLOCK, ZERO_BLOCK, ZERO_BLOCK, ZERO_BLOCK]

  /** The stream binding as the firmware leaves it in the gateware registers. */
  datatype Binding = Binding(
    srcMacHi: nat, srcMacLo: Word32, dstMacHi: nat, dstMacLo: Word32,
    streamIdHi: Word32, streamIdLo: Word32, vlanTci: nat, presOffset: Word32)
  {
    predicate Valid() { srcMacHi < 0x1_0000 && dstMacHi < 0x1_0000 && vlanTci < 0x1_0000 }
  }

  /** Big-endian octet k of a sample: k = 0 is the most significant. */
  function BeByte(w: Word, k: nat): Byte
    requires k < 4
  {
    if k == 0 then w.b3 else if k == 1 then w.b2 else if k == 2 then w.b1 else w.b0
  }

  function FromBe(b0: Byte, b1: Byte, b2: Byte, b3: Byte): Word { Word(b3, b2, b1, b0) }

  /** A 48-bit address and a 64-bit identifier as octets, most significant first. */
  function MacOctets(hi: nat, lo: Word32): (m: seq<Byte>)
    requires hi < 0x1_0000
    ensures |m| == 6
  {
    Be16(hi) + Be32(lo)
  }

  function IdOctets(hi: Word32, lo: Word32): (m: seq<Byte>)
    ensures |m| == 8
  {
    Be32(hi) + Be32(lo)
  }

  /** Octet i of the Ethernet, VLAN and AVTP headers. */
  function HeaderByte(b: Binding, seqNum: Byte, pres: Word32, i: nat): Byte
    requires b.Valid() && i < HDR_LEN
  {
    if i < 6 then MacOctets(b.dstMacHi, b.dstMacLo)[i]
    else if i < 12 then MacOctets(b.srcMacHi, b.srcMacLo)[i - 6]
    else if i == 12 then 0x81                                    // TPID
    else if i == 13 then 0x00
    else if i < 16 then Be16(b.vlanTci)[i - 14]
    else if i == 16 then 0x22                                    // EtherType AVTP
    else if i == 17 then 0xF0
    else if i == 18 then 0x02                                    // subtype AAF
    else if i == 19 then 0x81                                    // stream id and timestamp valid
    else if i == 20 then seqNum
    else if i == 21 then 0x00
    else if i < 30 then IdOctets(b.streamIdHi, b.streamIdLo)[i - 22]
    else if i < 34 then Be32(pres)[i - 30]
    else if i == 34 then 0x02                                    // format INT_32BIT
    else if i == 35 then 0x50                                    // 48 kHz
    else if i == 36 then 0x08                                    // 8 channels
    else if i == 37 then 0x20                                    // bit depth 32
    else if i == 38 then 0x00                                    // stream data length
    else if i == 39 then 0xC0
    else 0x00
  }

  function Header(b: Binding, seqNum: Byte, pres: Word32): (h: seq<Byte>)
    requires b.Valid()
    ensures |h| == HDR_LEN
  {
    seq(HDR_LEN, i requires 0 <= i < HDR_LEN => HeaderByte(b, seqNum, pres, i))
  }

  /** Sample octets, block by block, channel by channel, big-endian. */
  function Payload(g: Group): (p: seq<Byte>)
    ensures |p| == 192
  {
    seq(192, i requires 0 <= i < 192 => BeByte(g[i / 32][i / 4 % 8], i % 4))
  }

  function Frame(b: Binding, seqNum: Byte, pres: Word32, g: Group): (f: seq<Byte>)
    requires b.Valid()
    ensures |f| == TOTAL
  {
    Header(b, seqNum, pres) + Payload(g)
  }

  /** Presentation time: gPTP now plus the offset, low 32 bits of nanoseconds. */
  function PresentationTime(sec: nat, ns: nat, offset: Word32): Word32 {
    U32(sec * 1_000_000_000 + ns + offset)
  }

  // ---------------------------------------------------------------------------
  // Octets on a 32-bit bus
  // ---------------------------------------------------------------------------

  function Padded(bs: seq<Byte>, i: nat): Byte {
    if i < |bs| then bs[i] else 0
  }

  function WordAt(bs: seq<Byte>, w: nat): Word {
    Word(Padded(bs, 4 * w), Padded(bs, 4 * w + 1), Padded(bs, 4 * w + 2), Padded(bs, 4 * w + 3))
  }

  /** First octet in bits 7:0; the last word is padded with zeros. */
  function Words(bs: seq<Byte>): (ws: seq<Word>)
    ensures |ws| == (|bs| + 3) / 4
  {
    seq((|bs| + 3) / 4, w requires 0 <= w => WordAt(bs, w))
  }

  function Lane(w: Word, k: nat): Byte
    requires k < 4
  {
    if k == 0 then w.b0 else if k == 1 then w.b1 else if k == 2 then w.b2 else w.b3
  }

  function ByteOf(ws: seq<Word>, i: nat): Byte
    requires i / 4 < |ws|
  {
    Lane(ws[i / 4], i % 4)
  }

  lemma ByteOfWords(bs: seq<Byte>, i: nat)
    requires i < |bs|
    ensures i / 4 < |Words(bs)| && ByteOf(Words(bs), i) == bs[i]
  {
    assert i == 4 * (i / 4) + i % 4;
  }

  // ---------------------------------------------------------------------------
  // The simple byte-level decode of a received frame
  // ---------------------------------------------------------------------------

  predicate Tagged(ws: seq<Word>)
    requires |ws| >= 8
  {
    ByteOf(ws, 12) == 0x81 && ByteOf(ws, 13) == 0x00
  }

  /** Offset of the first audio octet: 38 untagged, 42 tagged. */
  function AudioOffset(tagged: bool): nat { if tagged then 42 else 38 }

  /** Words a frame needs so that all 48 samples lie inside it. */
  function FullSize(tagged: bool): nat { if tagged then 59 else 58 }

  function SampleAt(ws: seq<Word>, off: nat, j: nat): Word
    requires off + 4 * j + 3 < 4 * |ws|
  {
    FromBe(ByteOf(ws, off + 4 * j), ByteOf(ws, off + 4 * j + 1),
           ByteOf(ws, off + 4 * j + 2), ByteOf(ws, off + 4 * j + 3))
  }

  function Decode(ws: seq<Word>, tagged: bool): (s: seq<Word>)
    requires |ws| >= FullSize(tagged)
    ensures |s| == 48
  {
    seq(48, j requires 0 <= j < 48 => SampleAt(ws, AudioOffset(tagged), j))
  }

  function MacOf(ws: seq<Word>): seq<Byte>
    requires |ws| >= 8
  {
    [ByteOf(ws, 0), ByteOf(ws, 1), ByteOf(ws, 2), ByteOf(ws, 3), ByteOf(ws, 4), ByteOf(ws, 5)]
  }

  function SubtypeOf(ws: seq<Word>): Byte
    requires |ws| >= 8
  {
    ByteOf(ws, if Tagged(ws) then 18 else 14)
  }

  function StreamIdOf(ws: seq<Word>): seq<Byte>
    requires |ws| >= 8
  {
    var off: nat := if Tagged(ws) then 22 else 18;
    [ByteOf(ws, off), ByteOf(ws, off + 1), ByteOf(ws, off + 2), ByteOf(ws, off + 3),
     ByteOf(ws, off + 4), ByteOf(ws, off + 5), ByteOf(ws, off + 6), ByteOf(ws, off + 7)]
  }

  /** Samples in wire order, block after block. */
  function Flatten(bs: seq<Block>): (s: seq<Word>)
    ensures |s| == 8 * |bs|
  {
    if bs == [] then [] else bs[0] + Flatten(bs[1..])
  }

  lemma {:induction false} FlattenAt(bs: seq<Block>, j: nat)
    requires j < 8 * |bs|
    ensures Flatten(bs)[j] == bs[j / 8][j % 8]
    decreases |bs|
  {
    if j >= 8 {
      FlattenAt(bs[1..], j - 8);
      assert (j - 8) / 8 == j / 8 - 1 && (j - 8) % 8 == j % 8;
    }
  }

  // ---------------------------------------------------------------------------
  // Printer and parser are inverse
  // ---------------------------------------------------------------------------

  lemma FrameByteOf(b: Binding, seqNum: Byte, pres: Word32, g: Group, i: nat)
    requires b.Valid() && i < TOTAL
    ensures |Words(Frame(b, seqNum, pres, g))| == N_WORDS
    ensures ByteOf(Words(Frame(b, seqNum, pres, g)), i) ==
              if i < HDR_LEN then HeaderByte(b, seqNum, pres, i) else Payload(g)[i - HDR_LEN]
  {
    ByteOfWords(Frame(b, seqNum, pres, g), i);
  }

  lemma PayloadByte(g: Group, j: nat, k: nat)
    requires j < 48 && k < 4
    ensures Payload(g)[4 * j + k] == BeByte(g[j / 8][j % 8], k)
  {
    assert (4 * j + k) / 32 == j / 8 && (4 * j + k) / 4 == j && (4 * j + k) % 4 == k;
  }

  lemma AudioByteOf(b: Binding, seqNum: Byte, pres: Word32, g: Group, j: nat, k: nat)
    requires b.Valid() && j < 48 && k < 4
    ensures |Words(Frame(b, seqNum, pres, g))| == N_WORDS
    ensures ByteOf(Words(Frame(b, seqNum, pres, g)), 42 + 4 * j + k) == BeByte(g[j / 8][j % 8], k)
  {
    FrameByteOf(b, seqNum, pres, g, 42 + 4 * j + k);
    PayloadByte(g, j, k);
  }

  lemma SampleFromOctets(ws: seq<Word>, off: nat, j: nat, w: Word)
    requires off + 4 * j + 3 < 4 * |ws|
    requires ByteOf(ws, off + 4 * j) == BeByte(w, 0) && ByteOf(ws, off + 4 * j + 1) == BeByte(w, 1)
    requires ByteOf(ws, off + 4 * j + 2) == BeByte(w, 2) && ByteOf(ws, off + 4 * j + 3) == BeByte(w, 3)
    ensures SampleAt(ws, off, j) == w
  {
  }

  lemma SampleOfFrame(b: Binding, seqNum: Byte, pres: Word32, g: Group, j: nat)
    requires b.Valid() && j < 48
    ensures |Words(Frame(b, seqNum, pres, g))| == N_WORDS
    ensures SampleAt(Words(Frame(b, seqNum, pres, g)), 42, j) == g[j / 8][j % 8]
  {
    var ws := Words(Frame(b, seqNum, pres, g));
    var w := g[j / 8][j % 8];
    AudioByteOf(b, seqNum, pres, g, j, 0);
    AudioByteOf(b, seqNum, pres, g, j, 1);
    AudioByteOf(b, seqNum, pres, g, j, 2);
    AudioByteOf(b, seqNum, pres, g, j, 3);
    SampleFromOctets(ws, 42, j, w);
  }

  /** The samples decoded from a transmitted frame are exactly its blocks, in order. */
  lemma DecodeInvertsFrame(b: Binding, seqNum: Byte, pres: Word32, g: Group)
    requires b.Valid()
    ensures |Words(Frame(b, seqNum, pres, g))| == N_WORDS
    ensures Decode(Words(Frame(b, seqNum, pres, g)), true) == Flatten(g)
  {
    var ws := Words(Frame(b, seqNum, pres, g));
    forall j | 0 <= j < 48
      ensures |ws| == N_WORDS && Decode(ws, true)[j] == Flatten(g)[j]
    {
      SampleOfFrame(b, seqNum, pres, g, j);
      FlattenAt(g, j);
    }
    assert |ws| == N_WORDS;
  }

  /** A receiver sees in the frame the keys the binding put there. */
  lemma KeysOfFrame(b: Binding, seqNum: Byte, pres: Word32, g: Group)
    requires b.Valid()
    ensures var ws := Words(Frame(b, seqNum, pres, g));
            && |ws| == N_WORDS && Tagged(ws) && SubtypeOf(ws) == 0x02
            && MacOf(ws) == MacOctets(b.dstMacHi, b.dstMacLo)
            && StreamIdOf(ws) == IdOctets(b.streamIdHi, b.streamIdLo)
  {
    var ws := Words(Frame(b, seqNum, pres, g));
    forall i | 0 <= i < HDR_LEN
      ensures |ws| == N_WORDS && ByteOf(ws, i) == HeaderByte(b, seqNum, pres, i)
    {
      FrameByteOf(b, seqNum, pres, g, i);
    }
    assert ByteOf(ws, 12) == 0x81 && ByteOf(ws, 13) == 0x00;
    KeysFromHeader(ws, b, seqNum, pres);
  }

  lemma KeysFromHeader(ws: seq<Word>, b: Binding, seqNum: Byte, pres: Word32)
    requires b.Valid() && |ws| == N_WORDS && Tagged(ws)
    requires forall i :: 0 <= i < HDR_LEN ==> ByteOf(ws, i) == HeaderByte(b, seqNum, pres, i)
    ensures SubtypeOf(ws) == 0x02
    ensures MacOf(ws) == MacOctets(b.dstMacHi, b.dstMacLo)
    ensures StreamIdOf(ws) == IdOctets(b.streamIdHi, b.streamIdLo)
  {
    assert forall k :: 0 <= k < 6 ==> MacOf(ws)[k] == ByteOf(ws, k);
    assert forall k :: 0 <= k < 8 ==> StreamIdOf(ws)[k] == ByteOf(ws, 22 + k);
  }

  // ---------------------------------------------------------------------------
  // What the keys are, octet by octet
  // ---------------------------------------------------------------------------

  /** The number that octets i .. i + n - 1 spell, most significant first. */
  function Number(ws: seq<Word>, i: nat, n: nat): nat
    requires i + n <= 4 * |ws|
  {
    if n == 0 then 0 else 256 * Number(ws, i, n - 1) + ByteOf(ws, i + n - 1)
  }

  lemma NumberOfTwo(ws: seq<Word>, i: nat)
    requires i + 2 <= 4 * |ws|
    ensures Number(ws, i, 2) == FromBe16([ByteOf(ws, i), ByteOf(ws, i + 1)])
  {
    assert Number(ws, i, 1) == 256 * Number(ws, i, 0) + ByteOf(ws, i);
  }

  lemma {:induction false} NumberSplits(ws: seq<Word>, i: nat, m: nat, n: nat)
    requires i + m + n <= 4 * |ws|
    ensures Number(ws, i, m + n) == Number(ws, i, m) * Power(n) + Number(ws, i + m, n)
  {
    if n > 0 {
      NumberSplits(ws, i, m, n - 1);
      Distribute(Number(ws, i, m), Power(n - 1), Number(ws, i + m, n - 1));
    }
  }

  function Power(n: nat): nat { if n == 0 then 1 else 256 * Power(n - 1) }

  lemma PowerOfFour()
    ensures Power(4) == 0x1_0000_0000
  {
    assert Power(1) == 256 && Power(2) == 0x1_0000 && Power(3) == 0x100_0000;
  }

  lemma Distribute(a: nat, p: nat, b: nat)
    ensures 256 * (a * p + b) == a * (256 * p) + 256 * b
  {
  }

  lemma NumberOfFour(ws: seq<Word>, i: nat, s: seq<Byte>)
    requires i + 4 <= 4 * |ws| && s == [ByteOf(ws, i), ByteOf(ws, i + 1), ByteOf(ws, i + 2), ByteOf(ws, i + 3)]
    ensures Number(ws, i, 4) == FromBe32(s)
  {
    NumberSplits(ws, i, 2, 2);
    assert Power(1) == 256 && Power(2) == 0x1_0000;
    NumberOfTwo(ws, i);
    NumberOfTwo(ws, i + 2);
    assert s[..2] == [ByteOf(ws, i), ByteOf(ws, i + 1)];
    assert s[2..] == [ByteOf(ws, i + 2), ByteOf(ws, i + 3)];
  }

  lemma Same32(v: Word32, s: seq<Byte>)
    requires |s| == 4
    ensures Be32(v) == s <==> v == FromBe32(s)
  {
    Be32RoundTrip(v);
    Be32Inverse(s);
  }

  lemma Same16(v: nat, s: seq<Byte>)
    requires |s| == 2 && v < 0x1_0000
    ensures Be16(v) == s <==> v == FromBe16(s)
  {
    Be16RoundTrip(v);
    Be16Inverse(s);
  }

  lemma SameParts(a: seq<Byte>, b: seq<Byte>, c: seq<Byte>, d: seq<Byte>)
    requires |a| == |c|
    ensures a + b == c + d <==> a == c && b == d
  {
    if a + b == c + d {
      assert a == (a + b)[..|a|] && c == (c + d)[..|a|];
      assert b == (a + b)[|a|..] && d == (c + d)[|a|..];
    }
  }

  lemma SplitEqual(hi: nat, lo: nat, m: nat, n: nat)
    requires lo < 0x1_0000_0000 && n < 0x1_0000_0000
    ensures hi * 0x1_0000_0000 + lo == m * 0x1_0000_0000 + n <==> hi == m && lo == n
  {
  }

  /** The address registers hold the number that octets 0 to 5 spell. */
  lemma MacIsNumber(hi: nat, lo: Word32, ws: seq<Word>)
    requires hi < 0x1_0000 && |ws| >= 8
    ensures MacOctets(hi, lo) == MacOf(ws) <==> Number(ws, 0, 6) == hi * 0x1_0000_0000 + lo
  {
    var a, b := [ByteOf(ws, 0), ByteOf(ws, 1)], [ByteOf(ws, 2), ByteOf(ws, 3), ByteOf(ws, 4), ByteOf(ws, 5)];
    assert MacOf(ws) == a + b;
    SameParts(Be16(hi), Be32(lo), a, b);
    Same16(hi, a);
    Same32(lo, b);
    NumberSplits(ws, 0, 2, 4);
    PowerOfFour();
    NumberOfTwo(ws, 0);
    NumberOfFour(ws, 2, b);
    SplitEqual(hi, lo, FromBe16(a), FromBe32(b));
  }

  lemma EightIsNumber(hi: Word32, lo: Word32, ws: seq<Word>, i: nat, a: seq<Byte>, b: seq<Byte>)
    requires i + 8 <= 4 * |ws|
    requires a == [ByteOf(ws, i), ByteOf(ws, i + 1), ByteOf(ws, i + 2), ByteOf(ws, i + 3)]
    requires b == [ByteOf(ws, i + 4), ByteOf(ws, i + 5), ByteOf(ws, i + 6), ByteOf(ws, i + 7)]
    ensures IdOctets(hi, lo) == a + b <==> Number(ws, i, 8) == hi * 0x1_0000_0000 + lo
  {
    SameParts(Be32(hi), Be32(lo), a, b);
    Same32(hi, a);
    Same32(lo, b);
    NumberSplits(ws, i, 4, 4);
    PowerOfFour();
    NumberOfFour(ws, i, a);
    NumberOfFour(ws, i + 4, b);
    SplitEqual(hi, lo, FromBe32(a), FromBe32(b));
  }

  /** The identifier registers hold the number that its eight octets spell. */
  lemma IdIsNumber(hi: Word32, lo: Word32, ws: seq<Word>, i: nat)
    requires |ws| >= 8 && i == if Tagged(ws) then 22 else 18
    ensures IdOctets(hi, lo) == StreamIdOf(ws) <==> Number(ws, i, 8) == hi * 0x1_0000_0000 + lo
  {
    var a := [ByteOf(ws, i), ByteOf(ws, i + 1), ByteOf(ws, i + 2), ByteOf(ws, i + 3)];
    var b := [ByteOf(ws, i + 4), ByteOf(ws, i + 5), ByteOf(ws, i + 6), ByteOf(ws, i + 7)];
    assert StreamIdOf(ws) == a + b;
    EightIsNumber(hi, lo, ws, i, a, b);
  }

  /**
   Octet by octet: an AAF frame (subtype 2) to the address in the registers, of the stream in the
   registers. The AVTP header begins at octet 14, or at 18 if octets 12 and 13 are 81 00.
   */
  predicate Addressed(macHi: nat, macLo: Word32, sidHi: Word32, sidLo: Word32, ws: seq<Word>)
    requires |ws| >= 8
  {
    var avtp: nat := if ByteOf(ws, 12) == 0x81 && ByteOf(ws, 13) == 0x00 then 18 else 14;
    && Number(ws, 0, 6) == macHi * 0x1_0000_0000 + macLo
    && ByteOf(ws, avtp) == 2
    && Number(ws, avtp + 4, 8) == sidHi * 0x1_0000_0000 + sidLo
  }

  // ---------------------------------------------------------------------------
  // Without a VLAN tag
  // ---------------------------------------------------------------------------

  /** The same frame as a bridge forwards it untagged: octets 12 to 15 are gone. */
  function Untagged(f: seq<Byte>): seq<Byte>
    requires |f| >= 16
  {
    f[..12] + f[16..]
  }

  lemma UntaggedByteOf(b: Binding, seqNum: Byte, pres: Word32, g: Group, i: nat)
    requires b.Valid() && i < TOTAL - 4
    ensures var ws := Words(Untagged(Frame(b, seqNum, pres, g)));
            && |ws| == 58
            && ByteOf(ws, i) == Frame(b, seqNum, pres, g)[if i < 12 then i else i + 4]
  {
    ByteOfWords(Untagged(Frame(b, seqNum, pres, g)), i);
  }

  lemma UntaggedSample(b: Binding, seqNum: Byte, pres: Word32, g: Group, j: nat)
    requires b.Valid() && j < 48
    ensures |Words(Untagged(Frame(b, seqNum, pres, g)))| == 58
    ensures SampleAt(Words(Untagged(Frame(b, seqNum, pres, g))), 38, j) == g[j / 8][j % 8]
  {
    var ws := Words(Untagged(Frame(b, seqNum, pres, g)));
    forall k: nat | k < 4
      ensures |ws| == 58 && ByteOf(ws, 38 + 4 * j + k) == BeByte(g[j / 8][j % 8], k)
    {
      UntaggedByteOf(b, seqNum, pres, g, 38 + 4 * j + k);
      PayloadByte(g, j, k);
    }
    assert ByteOf(ws, 38 + 4 * j + 0) == BeByte(g[j / 8][j % 8], 0);
    SampleFromOctets(ws, 38, j, g[j / 8][j % 8]);
  }

  /** Without the tag the listener finds the same samples four octets earlier. */
  lemma DecodeInvertsUntagged(b: Binding, seqNum: Byte, pres: Word32, g: Group)
    requires b.Valid()
    ensures |Words(Untagged(Frame(b, seqNum, pres, g)))| == 58
    ensures Decode(Words(Untagged(Frame(b, seqNum, pres, g))), false) == Flatten(g)
  {
    var ws := Words(Untagged(Frame(b, seqNum, pres, g)));
    forall j | 0 <= j < 48
      ensures |ws| == 58 && Decode(ws, false)[j] == Flatten(g)[j]
    {
      UntaggedSample(b, seqNum, pres, g, j);
      FlattenAt(g, j);
    }
    assert |ws| == 58;
  }

  /** And the same keys: the AVTP EtherType in octets 12 and 13 does not pass for a tag. */
  lemma KeysOfUntagged(b: Binding, seqNum: Byte, pres: Word32, g: Group)
    requires b.Valid()
    ensures var ws := Words(Untagged(Frame(b, seqNum, pres, g)));
            && |ws| == 58 && !Tagged(ws) && SubtypeOf(ws) == 0x02
            && MacOf(ws) == MacOctets(b.dstMacHi, b.dstMacLo)
            && StreamIdOf(ws) == IdOctets(b.streamIdHi, b.streamIdLo)
  {
    var ws := Words(Untagged(Frame(b, seqNum, pres, g)));
    forall i: nat | i < HDR_LEN - 4
      ensures |ws| == 58 && ByteOf(ws, i) == HeaderByte(b, seqNum, pres, if i < 12 then i else i + 4)
    {
      UntaggedByteOf(b, seqNum, pres, g, i);
    }
    assert ByteOf(ws, 12) == 0x22;
    KeysFromShortHeader(ws, b, seqNum, pres);
  }

  lemma KeysFromShortHeader(ws: seq<Word>, b: Binding, seqNum: Byte, pres: Word32)
    requires b.Valid() && |ws| == 58 && !Tagged(ws)
    requires forall i: nat :: i < HDR_LEN - 4 ==>
               ByteOf(ws, i) == HeaderByte(b, seqNum, pres, if i < 12 then i else i + 4)
    ensures SubtypeOf(ws) == 0x02
    ensures MacOf(ws) == MacOctets(b.dstMacHi, b.dstMacLo)
    ensures StreamIdOf(ws) == IdOctets(b.streamIdHi, b.streamIdLo)
  {
    assert forall k :: 0 <= k < 6 ==> MacOf(ws)[k] == ByteOf(ws, k);
    assert forall k :: 0 <= k < 8 ==> StreamIdOf(ws)[k] == ByteOf(ws, 18 + k);
  }
}
