/**
 The gateware AAF talker, one clock per step: USB ingress into the block FIFO,
 media-clock-paced reads into the ping-pong payload buffer, and the builder that
 turns a full half into a frame and streams it out.
 */
module Packetizer {
  import opened Bytes
  import opened AafFrame
  import Assembler

  const FIFO_DEPTH := 64

  type Half = h: nat | h < 2

  type PayBuffer = p: seq<Block> | |p| == 16
    witness [ZERO_BLOCK, ZERO_BLOCK, ZERO_BLOCK, ZERO_BLOCK, ZERO_BLOCK, ZERO_BLOCK, ZERO_BLOCK, ZERO_BLOCK,
             ZERO_BLOCK, ZERO_BLOCK, ZERO_BLOCK, ZERO_BLOCK, ZERO_BLOCK, ZERO_BLOCK, ZERO_BLOCK, ZERO_BLOCK]

  /** Ping-pong buffer: `pay` is addressed half * 8 + blk. */
  datatype Feed = Feed(pay: PayBuffer, fill: Half, send: Half, blk: nat, req: bool, underruns: Word32)

  datatype Phase = IDLE | BUILD | STREAM

  datatype Builder = Builder(
    phase: Phase, pres: Word32, byteIdx: nat, wacc: (Byte, Byte, Byte),
    rdIdx: nat, seqNum: Byte, ram: seq<Word>, packets: Word32, overruns: Word32)

  predicate BuilderWf(bld: Builder) {
    bld.byteIdx < TOTAL && bld.rdIdx < N_WORDS && |bld.ram| == N_WORDS
  }

  datatype Regs = Regs(asm: Assembler.State, fifo: seq<Block>, feed: Feed, bld: Builder)
  {
    predicate Wf() { feed.blk < BLOCKS && BuilderWf(bld) }
  }

  /** One clock of input; `strobe` is the raw media-clock strobe. */
  datatype Input = Input(
    usb: Option<Assembler.Sample>, enable: bool, strobe: bool, sec: nat, ns: nat, ready: bool)

  // -- ingress -----------------------------------------------------------------

  predicate Writable(fifo: seq<Block>) { |fifo| < FIFO_DEPTH }

  predicate NeedPush(r: Regs, i: Input) { i.usb.Some? && Assembler.Closes(r.asm, i.usb.value) }

  /** usb_pop: take the sample unless it would close a block the FIFO has no room for. */
  predicate DoPop(r: Regs, i: Input) {
    i.enable && i.usb.Some? && (!NeedPush(r, i) || Writable(r.fifo))
  }

  predicate DoPush(r: Regs, i: Input) { DoPop(r, i) && NeedPush(r, i) }

  // -- paced read --------------------------------------------------------------

  predicate Strobe(i: Input) { i.strobe && i.enable }

  predicate DoRead(r: Regs, i: Input) { Strobe(i) && r.fifo != [] }

  function NextFifo(r: Regs, i: Input): seq<Block> {
    (if DoRead(r, i) then r.fifo[1..] else r.fifo) + if DoPush(r, i) then [r.asm.cur] else []
  }

  /** Slot `blk` of a half of the payload buffer. */
  function PayAt(pay: PayBuffer, half: Half, blk: nat): Block
    requires blk < 8
  {
    pay[half * 8 + blk]
  }

  function NextFeed(f: Feed, strobe: bool, fifo: seq<Block>): Feed
    requires f.blk < BLOCKS
  {
    if !strobe then f.(req := false)
    else
      var stored := f.pay[f.fill * 8 + f.blk := if fifo != [] then fifo[0] else ZERO_BLOCK];
      var under := if fifo != [] then f.underruns else U32(f.underruns + 1);
      if f.blk == BLOCKS - 1 then Feed(stored, 1 - f.fill, f.fill, 0, true, under)
      else f.(pay := stored, blk := f.blk + 1, req := false, underruns := under)
  }

  // -- builder -----------------------------------------------------------------

  /** 10^9 has these bits set; the gateware multiplies by shifting and adding. */
  function ShiftAdd1e9(x: nat): nat {
    x * 0x2000_0000 + x * 0x1000_0000 + x * 0x800_0000 + x * 0x200_0000 + x * 0x100_0000
    + x * 0x80_0000 + x * 0x10_0000 + x * 0x8_0000 + x * 0x2_0000 + x * 0x8000 + x * 0x4000
    + x * 0x800 + x * 0x200
  }

  lemma ShiftAddIsMultiply(x: nat)
    ensures ShiftAdd1e9(x) == x * 1_000_000_000
  {
  }

  /** The octet the builder produces for a byte index: header, else a payload lane. */
  function CurByte(b: Binding, f: Feed, bld: Builder): Byte
    requires b.Valid() && bld.byteIdx < TOTAL
  {
    if bld.byteIdx < HDR_LEN then HeaderByte(b, bld.seqNum, bld.pres, bld.byteIdx)
    else
      var pi := bld.byteIdx - HDR_LEN;
      var n := pi / 4;
      BeByte(PayAt(f.pay, f.send, n / 8)[n % 8], pi % 4)
  }

  function NextWacc(w: (Byte, Byte, Byte), lane: nat, cur: Byte): (Byte, Byte, Byte) {
    if lane == 0 then (cur, w.1, w.2)
    else if lane == 1 then (w.0, cur, w.2)
    else if lane == 2 then (w.0, w.1, cur)
    else w
  }

  function BuildStep(bld: Builder, cur: Byte): Builder
    requires bld.byteIdx < TOTAL && |bld.ram| == N_WORDS
  {
    var lane, w := bld.byteIdx % 4, bld.wacc;
    var ram := if lane == 3 then bld.ram[bld.byteIdx / 4 := Word(w.0, w.1, w.2, cur)] else bld.ram;
    if bld.byteIdx == TOTAL - 1 then
      bld.(wacc := NextWacc(w, lane, cur), ram := ram[N_WORDS - 1 := Word(w.0, cur, 0, 0)],
           rdIdx := 0, phase := STREAM)
    else
      bld.(wacc := NextWacc(w, lane, cur), ram := ram, byteIdx := bld.byteIdx + 1)
  }

  function StreamStep(bld: Builder): Builder {
    if bld.rdIdx == N_WORDS - 1 then
      bld.(packets := U32(bld.packets + 1), seqNum := U8(bld.seqNum + 1), phase := IDLE)
    else
      bld.(rdIdx := bld.rdIdx + 1)
  }

  function PresNow(b: Binding, i: Input): Word32 { U32(ShiftAdd1e9(i.sec) + i.ns + b.presOffset) }

  /** One clock of the builder, given the octet and presentation time on its inputs. */
  function NextBuilder(bld: Builder, req: bool, cur: Byte, pres: Word32, ready: bool): Builder
    requires bld.byteIdx < TOTAL && |bld.ram| == N_WORDS
  {
    var next :=
      match bld.phase
      case IDLE => if req then bld.(pres := pres, byteIdx := 0, phase := BUILD) else bld
      case BUILD => BuildStep(bld, cur)
      case STREAM => if ready then StreamStep(bld) else bld;
    if req && bld.phase != IDLE then next.(overruns := U32(next.overruns + 1)) else next
  }

  /** The stream output: valid exactly while streaming. */
  function Output(bld: Builder): Option<Beat>
    requires bld.rdIdx < N_WORDS && |bld.ram| == N_WORDS
  {
    if bld.phase.STREAM? then
      Some(Beat(bld.ram[bld.rdIdx], if bld.rdIdx == N_WORDS - 1 then 3 else 0xF, 0, bld.rdIdx == N_WORDS - 1))
    else None
  }

  function Next(b: Binding, r: Regs, i: Input): (n: Regs)
    requires b.Valid() && r.Wf()
    ensures n.Wf()
  {
    Regs(if DoPop(r, i) then Assembler.Accept(r.asm, i.usb.value) else r.asm,
         NextFifo(r, i),
         NextFeed(r.feed, Strobe(i), r.fifo),
         NextBuilder(r.bld, r.feed.req, CurByte(b, r.feed, r.bld), PresNow(b, i), i.ready))
  }

  const RESET := Regs(
    Assembler.EMPTY, [],
    Feed([ZERO_BLOCK, ZERO_BLOCK, ZERO_BLOCK, ZERO_BLOCK, ZERO_BLOCK, ZERO_BLOCK, ZERO_BLOCK, ZERO_BLOCK,
          ZERO_BLOCK, ZERO_BLOCK, ZERO_BLOCK, ZERO_BLOCK, ZERO_BLOCK, ZERO_BLOCK, ZERO_BLOCK, ZERO_BLOCK],
         0, 0, 0, false, 0),
    Builder(IDLE, 0, 0, (0, 0, 0), 0, 0, seq(N_WORDS, _ => ZERO_WORD), 0, 0))

  // ---------------------------------------------------------------------------
  // The registers, updated in place
  // ---------------------------------------------------------------------------

  /** The scalar registers of the feed and of the builder, beside their memories. */
  datatype FeedRegs = FeedRegs(fill: Half, send: Half, blk: nat, req: bool, underruns: Word32)

  datatype BuilderRegs = BuilderRegs(
    phase: Phase, pres: Word32, byteIdx: nat, wacc: (Byte, Byte, Byte),
    rdIdx: nat, seqNum: Byte, packets: Word32, overruns: Word32)

  class AAFPacketizer {
    const binding: Binding
    var asm: Assembler.State
    var blockFifo: seq<Block>
    const pay: array<Block>
    var feed: FeedRegs
    const frameRam: array<Word>
    var bld: BuilderRegs

    ghost predicate Valid()
      reads this, pay, frameRam
    {
      && binding.Valid()
      && pay.Length == 16 && frameRam.Length == N_WORDS
      && feed.blk < BLOCKS && bld.byteIdx < TOTAL && bld.rdIdx < N_WORDS
    }

    ghost function FeedState(): Feed
      requires pay.Length == 16
      reads this`feed, pay
    {
      Feed(pay[..], feed.fill, feed.send, feed.blk, feed.req, feed.underruns)
    }

    ghost function BuilderState(): Builder
      requires frameRam.Length == N_WORDS
      reads this`bld, frameRam
    {
      Builder(bld.phase, bld.pres, bld.byteIdx, bld.wacc, bld.rdIdx, bld.seqNum, frameRam[..], bld.packets,
              bld.overruns)
    }

    ghost function Registers(): Regs
      requires pay.Length == 16 && frameRam.Length == N_WORDS
      reads this, pay, frameRam
    {
      Regs(asm, blockFifo, FeedState(), BuilderState())
    }

    constructor (b: Binding)
      requires b.Valid()
      ensures Valid() && binding == b && Registers() == RESET
      ensures fresh(pay) && fresh(frameRam)
    {
      binding := b;
      asm, blockFifo := Assembler.State(ZERO_BLOCK, false), [];
      pay := new Block[16](_ => ZERO_BLOCK);
      feed := FeedRegs(0, 0, 0, false, 0);
      bld := BuilderRegs(IDLE, 0, 0, (0, 0, 0), 0, 0, 0, 0);
      frameRam := new Word[N_WORDS](_ => ZERO_WORD);
      new;
      assert frameRam[..] == RESET.bld.ram;
    }

    /**
     Ingress and both ports of the block FIFO in one clock; the FIFO level and head
     are the ones before the clock. Returns whether the USB sample is popped.
     */
    method Ingress(i: Input, re: bool) returns (pop: bool)
      requires re ==> blockFifo != []
      modifies this`asm, this`blockFifo
      ensures var a := old(asm);
              var needPush := i.usb.Some? && Assembler.Closes(a, i.usb.value);
              && pop == (i.enable && i.usb.Some? && (!needPush || Writable(old(blockFifo))))
              && asm == (if pop then Assembler.Accept(a, i.usb.value) else a)
              && blockFifo == (if re then old(blockFifo)[1..] else old(blockFifo)) +
                              (if pop && needPush then [a.cur] else [])
    {
      var needPush := i.usb.Some? && i.usb.value.first && asm.have;
      pop := i.enable && i.usb.Some? && (!needPush || |blockFifo| < FIFO_DEPTH);
      if re {
        blockFifo := blockFifo[1..];
      }
      if pop {
        if needPush {
          blockFifo := blockFifo + [asm.cur];
          asm := asm.(cur := ZERO_BLOCK);
        }
        var lane := Word(0, i.usb.value.lo, i.usb.value.mid, i.usb.value.hi);
        asm := Assembler.State(asm.cur[i.usb.value.ch := lane], true);
      }
    }

    /** Paced read: one block, real or silent, per enabled media-clock strobe. */
    method PacedRead(strobe: bool) returns (re: bool)
      requires pay.Length == 16 && feed.blk < BLOCKS
      modifies this`feed, pay
      ensures re == (strobe && blockFifo != [])
      ensures FeedState() == NextFeed(old(FeedState()), strobe, blockFifo)
    {
      re := strobe && blockFifo != [];
      feed := feed.(req := false);
      if strobe {
        if blockFifo != [] {
          pay[feed.fill * 8 + feed.blk] := blockFifo[0];
        } else {
          pay[feed.fill * 8 + feed.blk] := ZERO_BLOCK;
          feed := feed.(underruns := U32(feed.underruns + 1));
        }
        assert pay[..] == old(pay[..])[feed.fill * 8 + feed.blk := if re then blockFifo[0] else ZERO_BLOCK];
        if feed.blk == BLOCKS - 1 {
          feed := feed.(blk := 0, send := feed.fill, fill := 1 - feed.fill, req := true);
        } else {
          feed := feed.(blk := feed.blk + 1);
        }
      }
    }

    method CurrentByte() returns (v: Byte)
      requires Valid()
      ensures v == CurByte(binding, FeedState(), BuilderState())
    {
      if bld.byteIdx < HDR_LEN {
        v := HeaderByte(binding, bld.seqNum, bld.pres, bld.byteIdx);
      } else {
        var pi := bld.byteIdx - HDR_LEN;
        var n, k := pi / 4, pi % 4;
        var blkWord := pay[feed.send * 8 + n / 8];
        v := BeByte(blkWord[n % 8], k);
      }
    }

    /** BUILD: one octet into the word accumulator, a word every fourth octet. */
    method Build(v: Byte)
      requires frameRam.Length == N_WORDS && bld.byteIdx < TOTAL
      modifies this`bld, frameRam
      ensures BuilderState() == BuildStep(old(BuilderState()), v)
    {
      var lane, w := bld.byteIdx % 4, bld.wacc;
      if lane == 3 {
        frameRam[bld.byteIdx / 4] := Word(w.0, w.1, w.2, v);
      }
      if lane == 0 {
        bld := bld.(wacc := (v, w.1, w.2));
      } else if lane == 1 {
        bld := bld.(wacc := (w.0, v, w.2));
      } else if lane == 2 {
        bld := bld.(wacc := (w.0, w.1, v));
      }
      if bld.byteIdx == TOTAL - 1 {
        frameRam[N_WORDS - 1] := Word(w.0, v, 0, 0);
        bld := bld.(rdIdx := 0, phase := STREAM);
      } else {
        bld := bld.(byteIdx := bld.byteIdx + 1);
      }
    }

    /** STREAM: drive the current word; move on when the MAC takes it. */
    method Stream(ready: bool) returns (out: Option<Beat>)
      requires frameRam.Length == N_WORDS && bld.rdIdx < N_WORDS && bld.phase == STREAM
      modifies this`bld
      ensures out == Output(old(BuilderState()))
      ensures BuilderState() == if ready then StreamStep(old(BuilderState())) else old(BuilderState())
    {
      var last := bld.rdIdx == N_WORDS - 1;
      out := Some(Beat(frameRam[bld.rdIdx], if last then 3 else 0xF, 0, last));
      if ready {
        if last {
          bld := bld.(packets := U32(bld.packets + 1), seqNum := U8(bld.seqNum + 1), phase := IDLE);
        } else {
          bld := bld.(rdIdx := bld.rdIdx + 1);
        }
      }
    }

    method BuilderClock(i: Input) returns (out: Option<Beat>)
      requires Valid()
      modifies this`bld, frameRam
      ensures out == Output(old(BuilderState()))
      ensures BuilderState() ==
                NextBuilder(old(BuilderState()), feed.req, CurByte(binding, FeedState(), old(BuilderState())),
                            PresNow(binding, i), i.ready)
    {
      out := None;
      var busy := bld.phase != IDLE;
      match bld.phase {
        case IDLE =>
          if feed.req {
            var pres := U32(ShiftAdd1e9(i.sec) + i.ns + binding.presOffset);
            bld := bld.(pres := pres, byteIdx := 0, phase := BUILD);
          }
        case BUILD =>
          var v := CurrentByte();
          Build(v);
        case STREAM =>
          out := Stream(i.ready);
      }
      if feed.req && busy {
        bld := bld.(overruns := U32(bld.overruns + 1));
      }
    }

    /** One clock of the whole talker. */
    method Clock(i: Input) returns (usbPop: bool, out: Option<Beat>)
      requires Valid()
      modifies this, pay, frameRam
      ensures Valid()
      ensures usbPop == DoPop(old(Registers()), i)
      ensures out == Output(old(BuilderState()))
      ensures Registers() == Next(binding, old(Registers()), i)
    {
      ghost var after := Next(binding, Registers(), i);
      out := BuilderClock(i);
      var re := PacedRead(i.strobe && i.enable);
      usbPop := Ingress(i, re);
      assert FeedState() == after.feed && BuilderState() == after.bld;
    }
  }
}
