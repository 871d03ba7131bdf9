/**
 The firmware talker that the gateware replaces: the transmit ring, the packet
 builder that writes octets in place, the USB drain and the binding push.
 */
module AafFirmware {
  import opened Bytes
  import opened AafFrame
  import Assembler

  const RING := 512
  const PRESENTATION_OFFSET := 2_000_000
  const DRAIN_GUARD := 1024

  /** Stream identity as the firmware keeps it: octets in wire order. */
  datatype Identity = Identity(
    srcMac: seq<Byte>, destMac: seq<Byte>, streamId: seq<Byte>, pcp: nat, vid: nat)
  {
    predicate Valid() { |srcMac| == 6 && |destMac| == 6 && |streamId| == 8 }
  }

  function Tci(pcp: nat, vid: nat): (t: nat)
    ensures t < 0x1_0000
  {
    pcp % 8 * 0x2000 + vid % 0x1000
  }

  /** What the binding push writes into the gateware registers. */
  function PushBinding(id: Identity): (b: Binding)
    requires id.Valid()
    ensures b.Valid()
  {
    Binding(FromBe16(id.srcMac[..2]), FromBe32(id.srcMac[2..]),
            FromBe16(id.destMac[..2]), FromBe32(id.destMac[2..]),
            FromBe32(id.streamId[..4]), FromBe32(id.streamId[4..]),
            Tci(id.pcp, id.vid), PRESENTATION_OFFSET)
  }

  /** The registers give the octets back unchanged, and the tag its priority and VLAN, with the DEI bit clear. */
  lemma BindingKeepsOctets(id: Identity)
    requires id.Valid()
    ensures var b := PushBinding(id);
            && MacOctets(b.dstMacHi, b.dstMacLo) == id.destMac
            && MacOctets(b.srcMacHi, b.srcMacLo) == id.srcMac
            && IdOctets(b.streamIdHi, b.streamIdLo) == id.streamId
            && b.vlanTci / 0x2000 == id.pcp % 8 && b.vlanTci / 0x1000 % 2 == 0 && b.vlanTci % 0x1000 == id.vid % 0x1000
  {
    TagFields(id.pcp, id.vid);
    MacInverse(id.destMac);
    MacInverse(id.srcMac);
    Be32Inverse(id.streamId[..4]);
    Be32Inverse(id.streamId[4..]);
    assert id.streamId[..4] + id.streamId[4..] == id.streamId;
  }

  lemma TagFields(pcp: nat, vid: nat)
    ensures Tci(pcp, vid) / 0x2000 == pcp % 8 && Tci(pcp, vid) / 0x1000 % 2 == 0
    ensures Tci(pcp, vid) % 0x1000 == vid % 0x1000
  {
  }

  lemma MacInverse(m: seq<Byte>)
    requires |m| == 6
    ensures MacOctets(FromBe16(m[..2]), FromBe32(m[2..])) == m
  {
    Be16Inverse(m[..2]);
    Be32Inverse(m[2..]);
    assert m[..2] + m[2..] == m;
  }

  /** The firmware adds in 64 bits and keeps 32; the gateware adds in 32. */
  lemma PresentationTimesAgree(sec: nat, ns: nat)
    ensures U32((sec * 1_000_000_000 + ns) % 0x1_0000_0000_0000_0000 + PRESENTATION_OFFSET)
         == PresentationTime(sec, ns, PRESENTATION_OFFSET)
         == U32(sec * 1_000_000_000 + ns + 2_000_000)
  {
    var n := sec * 1_000_000_000 + ns;
    var q := n / 0x1_0000_0000_0000_0000;
    assert n == q * 0x1_0000_0000_0000_0000 + n % 0x1_0000_0000_0000_0000;
    assert q * 0x1_0000_0000_0000_0000 == (q * 0x1_0000_0000) * 0x1_0000_0000;
    DropMultiple(n % 0x1_0000_0000_0000_0000 + PRESENTATION_OFFSET, q * 0x1_0000_0000);
  }

  lemma DropMultiple(x: nat, k: nat)
    ensures U32(x + k * 0x1_0000_0000) == U32(x)
  {
    var q, r := x / 0x1_0000_0000, x % 0x1_0000_0000;
    assert x + k * 0x1_0000_0000 == (q + k) * 0x1_0000_0000 + r;
  }

  // ---------------------------------------------------------------------------
  // Octets in place
  // ---------------------------------------------------------------------------

  /** The frame written so far: its first n octets are those of `f`. */
  predicate Written(frame: seq<Byte>, f: seq<Byte>, n: nat) {
    n <= |f| && n <= |frame| && frame[..n] == f[..n]
  }

  /** Write the next octets of a frame; `f` is the frame being written. */
  method Put(frame: array<Byte>, off: nat, bs: seq<Byte>, ghost f: seq<Byte>)
    requires off + |bs| <= frame.Length && off + |bs| <= |f|
    requires Written(frame[..], f, off) && f[off..off + |bs|] == bs
    modifies frame
    ensures Written(frame[..], f, off + |bs|)
  {
    for k := 0 to |bs|
      invariant Written(frame[..], f, off + k)
    {
      frame[off + k] := bs[k];
      assert f[off + k] == f[off..off + |bs|][k];
      assert frame[..off + k + 1] == frame[..off + k] + [bs[k]];
    }
  }

  function BeBytes(w: Word): seq<Byte> { [w.b3, w.b2, w.b1, w.b0] }

  /** Block s of the frame holds these eight samples. */
  ghost predicate BlockAt(f: seq<Byte>, s: nat, block: Block) {
    && HDR_LEN + 32 * (s + 1) <= |f|
    && forall ch :: 0 <= ch < CHANNELS ==> SampleBytes(f, HDR_LEN + 32 * s + 4 * ch) == BeBytes(block[ch])
  }

  function SampleBytes(f: seq<Byte>, off: nat): seq<Byte>
    requires off + 4 <= |f|
  {
    f[off..off + 4]
  }

  /** One block of the payload: eight big-endian samples. */
  method PutBlock(frame: array<Byte>, block: Block, s: nat, ghost f: seq<Byte>)
    requires s < BLOCKS && frame.Length >= TOTAL
    requires BlockAt(f, s, block) && Written(frame[..], f, HDR_LEN + 32 * s)
    modifies frame
    ensures Written(frame[..], f, HDR_LEN + 32 * (s + 1))
  {
    for ch := 0 to CHANNELS
      invariant Written(frame[..], f, HDR_LEN + 32 * s + 4 * ch)
    {
      assert SampleBytes(f, HDR_LEN + 32 * s + 4 * ch) == BeBytes(block[ch]);
      Put(frame, HDR_LEN + 32 * s + 4 * ch, BeBytes(block[ch]), f);
    }
  }

  lemma PayloadWord(g: Group, s: nat, ch: nat)
    requires s < BLOCKS && ch < CHANNELS
    ensures Payload(g)[32 * s + 4 * ch..32 * s + 4 * ch + 4] == BeBytes(g[s][ch])
  {
    var off := 32 * s + 4 * ch;
    forall k | 0 <= k < 4
      ensures Payload(g)[off..off + 4][k] == BeBytes(g[s][ch])[k]
    {
      PayloadByteAt(g, s, ch, k);
    }
  }

  lemma PayloadByteAt(g: Group, s: nat, ch: nat, k: nat)
    requires s < BLOCKS && ch < CHANNELS && k < 4
    ensures Payload(g)[32 * s + 4 * ch + k] == BeByte(g[s][ch], k)
  {
    var j := 8 * s + ch;
    PayloadByte(g, j, k);
    assert j / 8 == s && j % 8 == ch && 4 * j + k == 32 * s + 4 * ch + k;
  }

  lemma FrameParts(b: Binding, seqNum: Byte, pres: Word32, g: Group, s: nat)
    requires b.Valid() && s < BLOCKS
    ensures Written(Header(b, seqNum, pres), Frame(b, seqNum, pres, g), HDR_LEN)
    ensures BlockAt(Frame(b, seqNum, pres, g), s, g[s])
  {
    var f := Frame(b, seqNum, pres, g);
    forall ch | 0 <= ch < CHANNELS
      ensures SampleBytes(f, HDR_LEN + 32 * s + 4 * ch) == BeBytes(g[s][ch])
    {
      PayloadWord(g, s, ch);
      var off := 32 * s + 4 * ch;
      assert f[HDR_LEN + off..HDR_LEN + off + 4] == Payload(g)[off..off + 4];
    }
  }

  /** Where each field of the header stands. */
  lemma AddressFields(id: Identity, seqNum: Byte, pres: Word32)
    requires id.Valid()
    ensures var h := Header(PushBinding(id), seqNum, pres);
            && h[0..6] == id.destMac && h[6..12] == id.srcMac && h[22..30] == id.streamId
  {
    BindingKeepsOctets(id);
  }

  lemma FixedFields(b: Binding, seqNum: Byte, pres: Word32)
    requires b.Valid()
    ensures var h := Header(b, seqNum, pres);
            && h[12..14] == Be16(0x8100) && h[14..16] == Be16(b.vlanTci) && h[16..18] == Be16(0x22F0)
            && h[18..22] == [0x02, 0x81, seqNum, 0x00]
            && h[30..34] == Be32(pres)
  {
  }

  lemma FormatFields(b: Binding, seqNum: Byte, pres: Word32)
    requires b.Valid()
    ensures var h := Header(b, seqNum, pres);
            && h[34..35] == [0x02] && h[35..37] == Be16(0x5008) && h[37..38] == [0x20]
            && h[38..40] == Be16(192) && h[40..42] == [0x00, 0x00]
  {
  }

  // ---------------------------------------------------------------------------
  // Talker state
  // ---------------------------------------------------------------------------

  class AafState {
    const id: Identity
    const txBuf: array2<Word>
    var txEnabled: bool
    var txWriteIdx: Word32
    var txReadIdx: Word32
    var txSeq: Byte
    var txPacketCount: Word32
    var txUnderrunCount: Word32
    ghost var pushed: seq<Block>          // every block ever pushed

    ghost predicate Valid() {
      id.Valid() && txBuf.Length0 == CHANNELS && txBuf.Length1 == RING
    }

    /** The block in a ring slot. */
    ghost function SlotBlock(slot: nat): Block
      requires txBuf.Length0 == CHANNELS && txBuf.Length1 == RING && slot < RING
      reads txBuf
    {
      [txBuf[0, slot], txBuf[1, slot], txBuf[2, slot], txBuf[3, slot],
       txBuf[4, slot], txBuf[5, slot], txBuf[6, slot], txBuf[7, slot]]
    }

    function Level(): nat
      reads this`txWriteIdx, this`txReadIdx
    {
      U32(txWriteIdx - txReadIdx)
    }

    ghost function Slots(): (r: Ring)
      requires Valid()
      reads txBuf
      ensures forall j: nat :: j < RING ==> r[j] == SlotBlock(j)
    {
      seq(RING, (j: nat) requires j < RING && Valid() reads txBuf => SlotBlock(j))
    }

    /** The queued blocks, oldest first. */
    ghost function Queue(): seq<Block>
      requires Valid()
      reads this`txWriteIdx, this`txReadIdx, txBuf
    {
      QueueOf(Slots(), txReadIdx, Level())
    }

    constructor (identity: Identity)
      requires identity.Valid()
      ensures Valid() && id == identity && fresh(txBuf)
      ensures !txEnabled && Level() == 0 && txSeq == 0
    {
      id := identity;
      txBuf := new Word[CHANNELS, RING]((i, j) => ZERO_WORD);
      txEnabled := false;
      txWriteIdx, txReadIdx, txSeq, txPacketCount, txUnderrunCount := 0, 0, 0, 0, 0;
      pushed := [];
    }

    method StoreBlock(slot: nat, block: Block)
      requires Valid() && slot < RING
      modifies txBuf
      ensures Slots() == old(Slots())[slot := block]
    {
      for ch := 0 to CHANNELS
        invariant forall c, j :: 0 <= c < CHANNELS && 0 <= j < RING ==>
                    txBuf[c, j] == if j == slot && c < ch then block[c] else old(txBuf[c, j])
      {
        txBuf[ch, slot] := block[ch];
      }
      assert SlotBlock(slot) == block;
      forall j: nat | j < RING
        ensures Slots()[j] == if j == slot then block else old(Slots())[j]
      {
        assert j != slot ==> SlotBlock(j) == old(SlotBlock(j));
      }
    }

    /**
     Append one block. Below 512 queued blocks the queue grows by exactly this block;
     at 512 and above a queued block is overwritten, which the source does not prevent.
     */
    method TxPush(block: Block)
      requires Valid()
      modifies this`txWriteIdx, this`pushed, txBuf
      ensures Valid() && txWriteIdx == U32(old(txWriteIdx) + 1)
      ensures pushed == old(pushed) + [block]
      ensures old(Level()) < RING ==> Queue() == old(Queue()) + [block]
    {
      ghost var level, slots := Level(), Slots();
      pushed := pushed + [block];
      StoreBlock(txWriteIdx % RING, block);
      txWriteIdx := U32(txWriteIdx + 1);
      if level < RING {
        RingSlots(txReadIdx, level, old(txWriteIdx));
        QueuePush(slots, txReadIdx, level, level, block);
      }
    }

    method PutHeader(frame: array<Byte>, sec: nat, ns: nat)
      requires Valid() && frame.Length >= TOTAL && frame as object != txBuf
      modifies frame
      ensures Written(frame[..], Header(PushBinding(id), txSeq, PresentationTime(sec, ns, PRESENTATION_OFFSET)),
          HDR_LEN)
    {
      var now := (sec * 1_000_000_000 + ns) % 0x1_0000_0000_0000_0000;
      var presTs := U32(now + PRESENTATION_OFFSET);
      PresentationTimesAgree(sec, ns);
      ghost var h := Header(PushBinding(id), txSeq, presTs);
      AddressFields(id, txSeq, presTs);
      FixedFields(PushBinding(id), txSeq, presTs);
      FormatFields(PushBinding(id), txSeq, presTs);
      PutEthernet(frame, h);
      Put(frame, 18, [0x02, 0x81, txSeq, 0x00], h);
      Put(frame, 22, id.streamId, h);
      Put(frame, 30, Be32(presTs), h);
      PutFormat(frame, h);
    }

    /** Destination, source, VLAN tag and EtherType. */
    method PutEthernet(frame: array<Byte>, ghost h: seq<Byte>)
      requires id.Valid() && frame.Length >= TOTAL && |h| == HDR_LEN
      requires h[0..6] == id.destMac && h[6..12] == id.srcMac && h[12..14] == Be16(0x8100)
      requires h[14..16] == Be16(Tci(id.pcp, id.vid)) && h[16..18] == Be16(0x22F0)
      modifies frame
      ensures Written(frame[..], h, 18)
    {
      Put(frame, 0, id.destMac, h);
      Put(frame, 6, id.srcMac, h);
      Put(frame, 12, Be16(0x8100), h);
      Put(frame, 14, Be16(id.pcp % 8 * 0x2000 + id.vid % 0x1000), h);
      Put(frame, 16, Be16(0x22F0), h);
    }

    /** Sample format, rate and channel count, bit depth, payload length, flags. */
    method PutFormat(frame: array<Byte>, ghost h: seq<Byte>)
      requires frame.Length >= TOTAL && |h| == HDR_LEN && Written(frame[..], h, 34)
      requires h[34..35] == [0x02] && h[35..37] == Be16(0x5008) && h[37..38] == [0x20]
      requires h[38..40] == Be16(192) && h[40..42] == [0x00, 0x00]
      modifies frame
      ensures Written(frame[..], h, HDR_LEN)
    {
      Put(frame, 34, [0x02], h);
      Put(frame, 35, Be16(5 * 0x1000 + 8), h);
      Put(frame, 37, [0x20], h);
      Put(frame, 38, Be16(6 * 8 * 4), h);
      Put(frame, 40, [0x00, 0x00], h);
    }

    /** The oldest queued block, or silence and a counted underrun. */
    method PopOrSilence() returns (block: Block)
      requires Valid()
      modifies this`txReadIdx, this`txUnderrunCount
      ensures block == PadAt(old(Queue()), 0)
      ensures Queue() == Drop(old(Queue()), 1)
      ensures txUnderrunCount == if old(Queue()) == [] then U32(old(txUnderrunCount) + 1) else old(txUnderrunCount)
    {
      EmptyLevel(txReadIdx, txWriteIdx);
      if txReadIdx == txWriteIdx {
        block := ZERO_BLOCK;
        txUnderrunCount := U32(txUnderrunCount + 1);
      } else {
        var slot := txReadIdx % RING;
        block := [txBuf[0, slot], txBuf[1, slot], txBuf[2, slot], txBuf[3, slot],
                  txBuf[4, slot], txBuf[5, slot], txBuf[6, slot], txBuf[7, slot]];
        txReadIdx := U32(txReadIdx + 1);
        NextLevel(old(txReadIdx), txWriteIdx);
        QueuePop(Slots(), old(txReadIdx), Level());
      }
    }

    /** Six blocks of eight samples, each sample big-endian. */
    method PutAudio(frame: array<Byte>, ghost f: seq<Byte>, ghost q: seq<Block>)
      requires Valid() && frame.Length >= TOTAL && |f| == TOTAL && q == Queue()
      requires Written(frame[..], f, HDR_LEN)
      requires forall s :: 0 <= s < BLOCKS ==> BlockAt(f, s, PadAt(q, s))
      modifies this`txReadIdx, this`txUnderrunCount, frame
      ensures Written(frame[..], f, TOTAL)
      ensures Queue() == Drop(q, 6) && txUnderrunCount == U32(old(txUnderrunCount) + Missing(q, 6))
    {
      ghost var under := txUnderrunCount;
      for s := 0 to BLOCKS
        invariant Written(frame[..], f, HDR_LEN + 32 * s)
        invariant Queue() == Drop(q, s)
        invariant txUnderrunCount == U32(under + Missing(q, s))
      {
        var block := PopOrSilence();
        DropOne(q, s, under);
        PutBlock(frame, block, s, f);
      }
    }

    /**
     One AAF packet in place: the reference frame for this identity, sequence number,
     time and the next six queued blocks.
     */
    method SendPacket(frame: array<Byte>, sec: nat, ns: nat)
      requires Valid() && frame.Length >= TOTAL
      modifies this`txReadIdx, this`txUnderrunCount, this`txSeq, this`txPacketCount, frame
      ensures frame[..TOTAL] == PacketFor(id, old(txSeq), sec, ns, old(Queue()))
      ensures txSeq == U8(old(txSeq) + 1) && txPacketCount == U32(old(txPacketCount) + 1)
      ensures Queue() == Drop(old(Queue()), 6)
      ensures txUnderrunCount == U32(old(txUnderrunCount) + Missing(old(Queue()), 6))
    {
      ghost var q, b, pres := Queue(), PushBinding(id), PresentationTime(sec, ns, PRESENTATION_OFFSET);
      ghost var f := PacketFor(id, txSeq, sec, ns, q);
      PutHeader(frame, sec, ns);
      forall s | 0 <= s < BLOCKS
        ensures Written(frame[..], f, HDR_LEN) && BlockAt(f, s, PadAt(q, s))
      {
        FrameParts(b, txSeq, pres, NextSix(q), s);
      }
      PutAudio(frame, f, q);
      txSeq := U8(txSeq + 1);
      txPacketCount := U32(txPacketCount + 1);
    }
  }

  // ---------------------------------------------------------------------------
  // USB drain
  // ---------------------------------------------------------------------------

  class UsbBridge {
    const aaf: AafState
    var block: Block
    var have: bool
    var frames: Word32

    constructor (talker: AafState)
      ensures aaf == talker && Assembler.State(block, have) == Assembler.EMPTY && frames == 0
    {
      aaf := talker;
      block, have, frames := ZERO_BLOCK, false, 0;
    }

    /** One sample: flush the previous frame at a marker, then fill the lane. */
    method Take(v: Assembler.Sample)
      requires aaf.Valid()
      modifies this, aaf, aaf.txBuf
      ensures Assembler.State(block, have) == Assembler.Accept(old(Assembler.State(block, have)), v)
      ensures aaf.txEnabled == old(aaf.txEnabled)
      ensures frames == if Assembler.Closes(old(Assembler.State(block, have)), v) then U32(old(frames) + 1)
                        else old(frames)
      ensures aaf.pushed == old(aaf.pushed) +
                if old(aaf.txEnabled) && Assembler.Closes(old(Assembler.State(block, have)), v)
                then [old(block)] else []
    {
      if v.first && have {
        if aaf.txEnabled {
          aaf.TxPush(block);
        }
        block := ZERO_BLOCK;
        frames := U32(frames + 1);
      }
      block := block[v.ch := Word(0, v.lo, v.mid, v.hi)];
      have := true;
    }

    /**
     Drain at most 1024 samples, oldest first. While the talker is enabled the blocks
     pushed are exactly those the assembler closes, in order.
     */
    method Drain(fifo: seq<Assembler.Sample>) returns (rest: seq<Assembler.Sample>)
      requires aaf.Valid()
      modifies this, aaf, aaf.txBuf
      ensures var n := Min(1024, |fifo|);
              var a := old(Assembler.State(block, have));
              && rest == fifo[n..]
              && Assembler.State(block, have) == Assembler.Final(a, fifo[..n])
              && frames == U32(old(frames) + |Assembler.Blocks(a, fifo[..n])|)
              && aaf.pushed == old(aaf.pushed) +
                   if old(aaf.txEnabled) then Assembler.Blocks(a, fifo[..n]) else []
    {
      rest := fifo;
      var guard := DRAIN_GUARD;
      ghost var a, before, n := Assembler.State(block, have), aaf.pushed, 0;
      while guard > 0 && rest != []
        invariant n == DRAIN_GUARD - guard && 0 <= guard && n <= |fifo| && rest == fifo[n..]
        invariant Assembler.State(block, have) == Assembler.Final(a, fifo[..n])
        invariant aaf.txEnabled == old(aaf.txEnabled)
        invariant frames == U32(old(frames) + |Assembler.Blocks(a, fifo[..n])|)
        invariant aaf.pushed == before + if aaf.txEnabled then Assembler.Blocks(a, fifo[..n]) else []
      {
        guard := guard - 1;
        Assembler.TakeOneMore(a, fifo[..n], rest[0]);
        assert fifo[..n] + [rest[0]] == fifo[..n + 1];
        Wrap32(old(frames) + |Assembler.Blocks(a, fifo[..n])|);
        Take(rest[0]);
        rest := rest[1..];
        n := n + 1;
      }
    }
  }

  function PadAt(q: seq<Block>, k: nat): Block { if k < |q| then q[k] else ZERO_BLOCK }

  function Drop(q: seq<Block>, n: nat): seq<Block> { if n < |q| then q[n..] else [] }

  /** The next six blocks, silence past the end of the queue. */
  function NextSix(q: seq<Block>): Group {
    [PadAt(q, 0), PadAt(q, 1), PadAt(q, 2), PadAt(q, 3), PadAt(q, 4), PadAt(q, 5)]
  }

  lemma DropOne(q: seq<Block>, s: nat, under: nat)
    ensures PadAt(Drop(q, s), 0) == PadAt(q, s) && Drop(Drop(q, s), 1) == Drop(q, s + 1)
    ensures U32(under + Missing(q, s + 1)) ==
              if Drop(q, s) == [] then U32(U32(under + Missing(q, s)) + 1) else U32(under + Missing(q, s))
  {
    Wrap32(under + Missing(q, s));
  }

  /** How many of the next n blocks are silence. */
  function Missing(q: seq<Block>, n: nat): nat { if n <= |q| then 0 else n - |q| }

  /** The blocks of n packets, one after the other, from a queue that is not refilled. */
  function Sixes(q: seq<Block>, n: nat): (s: seq<Block>)
    ensures |s| == 6 * n
    decreases n
  {
    if n == 0 then [] else NextSix(q) + Sixes(Drop(q, 6), n - 1)
  }

  /** Packet after packet the queue goes out in order and to its last block, then silence. */
  lemma {:induction false} PacketsDrainQueue(q: seq<Block>, n: nat, k: nat)
    requires k < 6 * n
    ensures Sixes(q, n)[k] == if k < |q| then q[k] else ZERO_BLOCK
    decreases n
  {
    if k >= 6 {
      PacketsDrainQueue(Drop(q, 6), n - 1, k - 6);
    }
  }

  /** The frame the firmware writes for a packet. */
  function PacketFor(id: Identity, seqNum: Byte, sec: nat, ns: nat, q: seq<Block>): (f: seq<Byte>)
    requires id.Valid()
    ensures |f| == TOTAL
  {
    Frame(PushBinding(id), seqNum, PresentationTime(sec, ns, PRESENTATION_OFFSET), NextSix(q))
  }

  lemma EmptyLevel(read: Word32, write: Word32)
    ensures U32(write - read) == 0 <==> read == write
  {
  }

  lemma NextLevel(read: Word32, write: Word32)
    requires read != write
    ensures U32(write - U32(read + 1)) == U32(write - read) - 1
  {
  }

  lemma NextSlot(read: Word32, k: nat)
    ensures (U32(read + 1) + k) % RING == (read + (k + 1)) % RING
  {
  }

  // ---------------------------------------------------------------------------
  // The ring as a queue
  // ---------------------------------------------------------------------------

  type Ring = r: seq<Block> | |r| == 512 witness seq(512, _ => ZERO_BLOCK)

  /** The n blocks from a read index, oldest first. */
  function QueueOf(r: Ring, read: Word32, n: nat): (q: seq<Block>)
    ensures |q| == n
  {
    if n == 0 then [] else QueueOf(r, read, n - 1) + [r[(read + n - 1) % RING]]
  }

  /** Storing `level` places past the read index leaves the nearer slots alone. */
  lemma {:induction false} QueuePush(r: Ring, read: Word32, level: nat, n: nat, block: Block)
    requires n <= level < RING
    ensures var s := r[(read + level) % RING := block];
            && QueueOf(s, read, n) == QueueOf(r, read, n)
            && (n == level ==> QueueOf(s, read, n + 1) == QueueOf(r, read, n) + [block])
  {
    if n > 0 {
      QueuePush(r, read, level, n - 1, block);
      RingDistinct(read, n - 1, level);
    }
  }

  /** Moving the read index on by one, with its 32-bit wrap, drops the oldest block. */
  lemma {:induction false} QueuePop(r: Ring, read: Word32, n: nat)
    ensures QueueOf(r, read, n + 1) == [r[read % RING]] + QueueOf(r, U32(read + 1), n)
  {
    if n > 0 {
      var next := U32(read + 1);
      var last := r[(read + n) % RING];
      calc {
        QueueOf(r, read, n + 1);
        QueueOf(r, read, n) + [last];
        { QueuePop(r, read, n - 1); }
        ([r[read % RING]] + QueueOf(r, next, n - 1)) + [last];
        [r[read % RING]] + (QueueOf(r, next, n - 1) + [last]);
        { NextSlot(read, n - 1); }
        [r[read % RING]] + QueueOf(r, next, n);
      }
    } else {
      assert QueueOf(r, read, 0) == [];
    }
  }

  /** A ring index and the slot `level` places further on. */
  lemma RingSlots(read: Word32, level: nat, write: Word32)
    requires level == U32(write - read) && level < RING
    ensures write % RING == (read + level) % RING
    ensures U32(U32(write + 1) - read) == level + 1
  {
  }

  lemma RingDistinct(read: Word32, k: nat, level: nat)
    requires k < level < RING
    ensures (read + k) % RING != (read + level) % RING
  {
  }
}
