/**
 The I2S transmitter that takes its bit clock, word clock and bit index straight
 from the oscillator phase, and an observer on its pins.
 */
module I2s {
  import opened Bytes
  import Nco

  /** A 24-bit signal, index 0 the least significant bit. */
  type Sample24 = s: seq<bool> | |s| == 24 witness seq(24, _ => false)

  const SILENCE: Sample24 := seq(24, _ => false)

  const HALF_SLOT := 0x200_0000       // 2^25: half a bit-clock period of phase

  datatype Pair = Pair(l: Sample24, r: Sample24)

  datatype Regs = Regs(nco: Nco.State, shift: Pair, underruns: Word32)

  /** One clock of input: the increment in force and the sample offered, if any. */
  datatype Input = Input(inc: Word32, audio: Option<Pair>)

  const RESET := Regs(Nco.RESET, Pair(SILENCE, SILENCE), 0)

  /** The pair in the shift registers after a strobe clock. */
  function Latched(shift: Pair, audio: Option<Pair>): Pair {
    if audio.Some? then audio.value else shift
  }

  function NextShift(strobe: bool, shift: Pair, audio: Option<Pair>): Pair {
    if strobe then Latched(shift, audio) else shift
  }

  function NextUnderruns(strobe: bool, underruns: Word32, audio: Option<Pair>): Word32 {
    if strobe && audio.None? then U32(underruns + 1) else underruns
  }

  function Next(r: Regs, i: Input): Regs {
    Regs(Nco.Next(r.nco, i.inc),
         NextShift(r.nco.strobe, r.shift, i.audio),
         NextUnderruns(r.nco.strobe, r.underruns, i.audio))
  }

  // Pins as pure functions of the registers.

  predicate Bck(phase: Word32) { phase / 0x200_0000 % 2 == 1 }

  predicate Lrck(phase: Word32) { phase / 0x8000_0000 == 1 }

  function BitIdx(phase: Word32): (b: nat)
    ensures b < 32
  {
    phase / 0x400_0000 % 32
  }

  /** Bit `i` of the 32-bit wire pattern: delay, data most significant bit first, padding. */
  predicate PatternBit(active: Sample24, i: nat) {
    1 <= i <= 24 && active[24 - i]
  }

  predicate Dout(r: Regs) {
    var active := if Lrck(r.nco.phase) then r.shift.r else r.shift.l;
    PatternBit(active, BitIdx(r.nco.phase))
  }

  class MCRI2STx {
    var shiftL: Sample24
    var shiftR: Sample24
    var underruns: Word32

    constructor ()
      ensures shiftL == SILENCE && shiftR == SILENCE && underruns == 0
    {
      shiftL, shiftR, underruns := SILENCE, SILENCE, 0;
    }

    /** One clock beside an oscillator `nco`, before the oscillator itself advances. */
    method Clock(nco: Nco.MCRNco, audio: Option<Pair>) returns (audioReady: bool)
      modifies this
      ensures audioReady == (nco.sampleStrobe && audio.Some?)
      ensures Pair(shiftL, shiftR) == NextShift(nco.sampleStrobe, old(Pair(shiftL, shiftR)), audio)
      ensures underruns == NextUnderruns(nco.sampleStrobe, old(underruns), audio)
    {
      audioReady := nco.sampleStrobe && audio.Some?;
      if nco.sampleStrobe {
        if audio.Some? {
          shiftL, shiftR := audio.value.l, audio.value.r;
        } else {
          underruns := U32(underruns + 1);
        }
      }
    }

    /** The pins, all combinational on the oscillator phase and the shift registers. */
    method Pins(nco: Nco.MCRNco) returns (bck: bool, lrck: bool, dout: bool)
      ensures bck == Bck(nco.phase) && lrck == Lrck(nco.phase)
      ensures dout == Dout(Regs(nco.Regs(), Pair(shiftL, shiftR), underruns))
    {
      bck := nco.phase / 0x200_0000 % 2 == 1;
      lrck := nco.phase / 0x8000_0000 == 1;
      var bitIdx := nco.phase / 0x400_0000 % 32;
      var active := if lrck then shiftR else shiftL;
      var reversed := seq(24, j requires 0 <= j < 24 => active[23 - j]);
      var pattern := [false] + reversed + seq(7, _ => false);
      dout := pattern[bitIdx];
    }
  }

  // ---------------------------------------------------------------------------
  // The observer: a DAC that samples dout on every rising edge of the bit clock
  // ---------------------------------------------------------------------------

  /** What the DAC reads at one rising edge of the bit clock. */
  datatype Slot = Slot(lrck: bool, bit: bool)

  /** What was latched so far, in order, and what the DAC has sampled so far. */
  datatype Trace = Trace(pairs: seq<Pair>, seen: seq<Slot>)

  const START := Trace([Pair(SILENCE, SILENCE)], [])

  function Sampled(r: Regs): Slot { Slot(Lrck(r.nco.phase), Dout(r)) }

  function Observe(t: Trace, r: Regs, i: Input): Trace {
    var n := Next(r, i);
    Trace(if r.nco.strobe then t.pairs + [n.shift] else t.pairs,
          if !Bck(r.nco.phase) && Bck(n.nco.phase) then t.seen + [Sampled(n)] else t.seen)
  }

  function RunRegs(r: Regs, ins: seq<Input>): Regs
    decreases |ins|
  {
    if ins == [] then r else RunRegs(Next(r, ins[0]), ins[1..])
  }

  function RunTrace(t: Trace, r: Regs, ins: seq<Input>): Trace
    decreases |ins|
  {
    if ins == [] then t else RunTrace(Observe(t, r, ins[0]), Next(r, ins[0]), ins[1..])
  }

  /** The 32 bit slots of one channel: delay bit, 24 bits MSB first, 7 zeros. */
  function ChannelBits(lrck: bool, s: Sample24): (b: seq<Slot>)
    ensures |b| == 32
  {
    seq(32, i => Slot(lrck, 1 <= i <= 24 && s[24 - i]))
  }

  function FrameBits(p: Pair): (b: seq<Slot>)
    ensures |b| == 64
  {
    ChannelBits(false, p.l) + ChannelBits(true, p.r)
  }

  function Wire(ps: seq<Pair>): (b: seq<Slot>)
    ensures |b| == 64 * |ps|
  {
    if ps == [] then [] else Wire(ps[..|ps| - 1]) + FrameBits(ps[|ps| - 1])
  }

  /** Bit slots whose rising edge lies behind a given phase. */
  function SlotsDone(phase: Word32): (n: nat)
    ensures n <= 64
  {
    (phase / HALF_SLOT + 1) / 2
  }

  /**
   Everything the DAC has seen is the frames of the pairs already shifted out
   followed by the finished slots of the pair now in the registers.
   */
  ghost predicate Inv(r: Regs, t: Trace) {
    && t.pairs != []
    && (r.nco.strobe ==>
          && r.nco.phase < Nco.MAX_INCREMENT
          && t.seen == Wire(t.pairs))
    && (!r.nco.strobe ==>
          && t.pairs[|t.pairs| - 1] == r.shift
          && t.seen == Wire(t.pairs[..|t.pairs| - 1]) + FrameBits(r.shift)[..SlotsDone(r.nco.phase)])
  }

  predicate Bounded(ins: seq<Input>) {
    forall k :: 0 <= k < |ins| ==> ins[k].inc <= Nco.MAX_INCREMENT
  }

  /** A rising edge shows exactly the next slot of the frame. */
  lemma EdgeShowsSlot(r: Regs)
    requires Bck(r.nco.phase)
    ensures var k := SlotsDone(r.nco.phase);
            1 <= k <= 64 && Sampled(r) == FrameBits(r.shift)[k - 1]
  {
    var h := r.nco.phase / HALF_SLOT;
    var m := h / 2;
    assert h == 2 * m + 1 && m < 64;
    assert r.nco.phase / 0x400_0000 == m;
    assert r.nco.phase / 0x8000_0000 == m / 32;
  }

  /** Half-slot arithmetic of one clock that does not wrap. */
  lemma PhaseAdvances(phase: Word32, inc: Word32)
    requires inc <= Nco.MAX_INCREMENT && phase + inc < 0x1_0000_0000
    ensures (!Bck(phase) && Bck(phase + inc)) ==> SlotsDone(phase + inc) == SlotsDone(phase) + 1
    ensures !(!Bck(phase) && Bck(phase + inc)) ==> SlotsDone(phase + inc) == SlotsDone(phase)
  {
    var h, h' := phase / HALF_SLOT, (phase + inc) / HALF_SLOT;
    assert h' == h || h' == h + 1;
  }

  /** A wrap only happens when all 64 slots are behind, and starts again at slot 0. */
  lemma PhaseWraps(phase: Word32, inc: Word32)
    requires inc <= Nco.MAX_INCREMENT && phase + inc >= 0x1_0000_0000
    ensures SlotsDone(phase) == 64 && Bck(phase)
    ensures U32(phase + inc) < Nco.MAX_INCREMENT
  {
    assert phase / HALF_SLOT == 127;
    assert U32(phase + inc) == phase + inc - 0x1_0000_0000;
  }

  /** The slots of one frame, one clock on: a rising edge adds the next one, a wrap finds all 64 there. */
  lemma SlotsAdvance(front: seq<Slot>, bits: seq<Slot>, phase: Word32, inc: Word32, next: Word32, seen: seq<Slot>,
      shown: Slot)
    requires |bits| == 64 && inc <= Nco.MAX_INCREMENT && next == U32(phase + inc)
    requires seen == front + bits[..SlotsDone(phase)]
    requires Bck(next) ==> SlotsDone(next) > 0 && shown == bits[SlotsDone(next) - 1]
    ensures var seen' := if !Bck(phase) && Bck(next) then seen + [shown] else seen;
            if phase + inc >= 0x1_0000_0000 then seen' == front + bits && next < Nco.MAX_INCREMENT
            else seen' == front + bits[..SlotsDone(next)]
  {
    if phase + inc >= 0x1_0000_0000 {
      PhaseWraps(phase, inc);
      assert bits[..64] == bits;
    } else {
      PhaseAdvances(phase, inc);
      var k := SlotsDone(phase);
      if !Bck(phase) && Bck(next) {
        assert bits[..k + 1] == bits[..k] + [bits[k]];
      }
    }
  }

  lemma NoSlotsYet(phase: Word32)
    requires phase < Nco.MAX_INCREMENT
    ensures SlotsDone(phase) == 0
  {
  }

  /** Before and after a strobe alike: whole frames, then the slots of the pair that shifts next. */
  lemma SlotsSoFar(r: Regs, t: Trace, i: Input, u: Trace)
    requires Inv(r, t) && u == Observe(t, r, i)
    ensures u.pairs != [] && u.pairs[|u.pairs| - 1] == Next(r, i).shift
    ensures t.seen == Wire(u.pairs[..|u.pairs| - 1]) + FrameBits(Next(r, i).shift)[..SlotsDone(r.nco.phase)]
  {
    if r.nco.strobe {
      assert u.pairs[..|u.pairs| - 1] == t.pairs;
      NoSlotsYet(r.nco.phase);
      assert t.seen == t.seen + [];
    }
  }

  lemma InvKept(r: Regs, t: Trace, i: Input)
    requires Inv(r, t) && i.inc <= Nco.MAX_INCREMENT
    ensures Inv(Next(r, i), Observe(t, r, i))
  {
    var n, u := Next(r, i), Observe(t, r, i);
    var front, bits := Wire(u.pairs[..|u.pairs| - 1]), FrameBits(n.shift);
    SlotsSoFar(r, t, i, u);
    if Bck(n.nco.phase) {
      EdgeShowsSlot(n);
    }
    SlotsAdvance(front, bits, r.nco.phase, i.inc, n.nco.phase, t.seen, Sampled(n));
  }

  lemma {:induction false} InvOnRuns(r: Regs, t: Trace, ins: seq<Input>)
    requires Inv(r, t) && Bounded(ins)
    ensures Inv(RunRegs(r, ins), RunTrace(t, r, ins))
    decreases |ins|
  {
    if ins != [] {
      InvKept(r, t, ins[0]);
      InvOnRuns(Next(r, ins[0]), Observe(t, r, ins[0]), ins[1..]);
    }
  }

  lemma {:induction false} WireAt(ps: seq<Pair>, f: nat, k: nat)
    requires f < |ps| && k < 64
    ensures Wire(ps)[64 * f + k] == FrameBits(ps[f])[k]
    decreases |ps|
  {
    var m := |ps| - 1;
    if f < m {
      WireAt(ps[..m], f, k);
    }
  }

  lemma SeenAt(r: Regs, t: Trace, f: nat, k: nat)
    requires Inv(r, t)
    requires k < 64 && 64 * f + k < |t.seen|
    ensures f < |t.pairs| && t.seen[64 * f + k] == FrameBits(t.pairs[f])[k]
  {
    if r.nco.strobe {
      WireAt(t.pairs, f, k);
    } else {
      var last := |t.pairs| - 1;
      if f < last {
        WireAt(t.pairs[..last], f, k);
      }
    }
  }

  /**
   For every run of increments the servo can write, from reset: whatever slot the
   DAC has sampled carries the bit the I2S format puts there, taken from one
   latched pair, and no slot is skipped.
   */
  lemma EverySlotRecovered(ins: seq<Input>, f: nat, k: nat)
    requires Bounded(ins)
    requires k < 64 && 64 * f + k < |RunTrace(START, RESET, ins).seen|
    ensures var t := RunTrace(START, RESET, ins);
            && f < |t.pairs|
            && t.seen[64 * f + k] == FrameBits(t.pairs[f])[k]
  {
    InvOnRuns(RESET, START, ins);
    SeenAt(RunRegs(RESET, ins), RunTrace(START, RESET, ins), f, k);
  }

  /** The samples themselves: bits 1..24 of a channel, read MSB first, give back the sample. */
  function Recover(slots: seq<Slot>): (s: Sample24)
    requires |slots| == 32
  {
    seq(24, i requires 0 <= i < 24 => slots[24 - i].bit)
  }

  lemma ChannelDecodes(lrck: bool, s: Sample24)
    ensures Recover(ChannelBits(lrck, s)) == s
    ensures forall k :: 0 <= k < 32 ==> ChannelBits(lrck, s)[k].lrck == lrck
    ensures forall k :: 0 <= k < 32 && !(1 <= k <= 24) ==> !ChannelBits(lrck, s)[k].bit
  {
    assert Recover(ChannelBits(lrck, s)) == s;
  }

  /** What 64 consecutive slots say about a pair. */
  ghost predicate Carries(frame: seq<Slot>, p: Pair) {
    && |frame| == 64
    && Recover(frame[..32]) == p.l && Recover(frame[32..]) == p.r
    && (forall k :: 0 <= k < 64 ==> frame[k].lrck == (k >= 32))
    && (forall k :: 0 <= k < 64 && !(1 <= k % 32 <= 24) ==> !frame[k].bit)
  }

  lemma FrameDecodes(p: Pair)
    ensures Carries(FrameBits(p), p)
  {
    ChannelDecodes(false, p.l);
    ChannelDecodes(true, p.r);
    var frame := FrameBits(p);
    assert frame[..32] == ChannelBits(false, p.l) && frame[32..] == ChannelBits(true, p.r);
    assert forall k :: 0 <= k < 32 ==> frame[k] == ChannelBits(false, p.l)[k];
    assert forall k :: 32 <= k < 64 ==> frame[k] == ChannelBits(true, p.r)[k - 32];
  }

  /**
   A DAC that reads 64 slots from a frame boundary recovers the left and right
   sample of exactly one latched pair, framed by zeros.
   */
  lemma FrameRecovered(ins: seq<Input>, f: nat)
    requires Bounded(ins)
    requires 64 * f + 64 <= |RunTrace(START, RESET, ins).seen|
    ensures var t := RunTrace(START, RESET, ins);
            f < |t.pairs| && Carries(t.seen[64 * f..64 * f + 64], t.pairs[f])
  {
    var t := RunTrace(START, RESET, ins);
    var frame := t.seen[64 * f..64 * f + 64];
    EverySlotRecovered(ins, f, 0);
    forall k | 0 <= k < 64
      ensures frame[k] == FrameBits(t.pairs[f])[k]
    {
      EverySlotRecovered(ins, f, k);
    }
    assert frame == FrameBits(t.pairs[f]);
    FrameDecodes(t.pairs[f]);
  }

  /** What is offered in the strobe clocks of a run, one entry per strobe. */
  ghost function Offered(r: Regs, ins: seq<Input>): (os: seq<Option<Pair>>)
    decreases |ins|
  {
    if ins == [] then []
    else (if r.nco.strobe then [ins[0].audio] else []) + Offered(Next(r, ins[0]), ins[1..])
  }

  /** One pair per strobe: the sample offered there, or at an empty strobe the pair before it again. */
  function Shown(last: Pair, os: seq<Option<Pair>>): (ps: seq<Pair>)
    ensures |ps| == |os|
    decreases |os|
  {
    if os == [] then []
    else
      var p := if os[0].Some? then os[0].value else last;
      [p] + Shown(p, os[1..])
  }

  /** Strobes that find no sample. */
  function Empty(os: seq<Option<Pair>>): nat {
    if os == [] then 0 else (if os[0].None? then 1 else 0) + Empty(os[1..])
  }

  lemma ShownOne(last: Pair, os: seq<Option<Pair>>, p: Pair, before: seq<Pair>)
    requires os != [] && p == if os[0].Some? then os[0].value else last
    ensures before + Shown(last, os) == (before + [p]) + Shown(p, os[1..])
  {
  }

  /**
   For any run: the pairs shown are, strobe by strobe, the sample offered in that clock with its
   left as left, or at an empty strobe the pair shown before; the counter counts the empty strobes.
   */
  lemma {:induction false} PairsAreOffered(t: Trace, r: Regs, ins: seq<Input>)
    ensures RunTrace(t, r, ins).pairs == t.pairs + Shown(r.shift, Offered(r, ins))
    ensures RunRegs(r, ins).underruns == U32(r.underruns + Empty(Offered(r, ins)))
    decreases |ins|
  {
    if ins != [] {
      var n, u := Next(r, ins[0]), Observe(t, r, ins[0]);
      PairsAreOffered(u, n, ins[1..]);
      var os, more := Offered(r, ins), Offered(n, ins[1..]);
      if r.nco.strobe {
        assert os[1..] == more;
        ShownOne(r.shift, os, n.shift, t.pairs);
        WrapAdd32(r.underruns + (if ins[0].audio.None? then 1 else 0), Empty(more));
      } else {
        assert os == more;
      }
    }
  }

  /** Entry by entry. */
  lemma {:induction false} ShownAt(last: Pair, os: seq<Option<Pair>>, k: nat)
    requires k < |os|
    ensures os[k].Some? ==> Shown(last, os)[k] == os[k].value
    ensures os[k].None? ==> Shown(last, os)[k] == if k == 0 then last else Shown(last, os)[k - 1]
    decreases |os|
  {
    if k > 0 {
      ShownAt(Shown(last, os)[0], os[1..], k - 1);
    }
  }

  /**
   From the samples offered to the DAC: from reset, frame f on the wire carries the sample offered
   at strobe f - 1, left in the left half and right in the right half, or what the frame before it
   carried if none was offered; frame 0 is silent.
   */
  lemma DacHearsOffered(ins: seq<Input>, f: nat)
    requires Bounded(ins)
    requires 64 * f + 64 <= |RunTrace(START, RESET, ins).seen|
    ensures var frame, os := RunTrace(START, RESET, ins).seen[64 * f..64 * f + 64], Offered(RESET, ins);
            var silent := Pair(SILENCE, SILENCE);
            && f <= |os|
            && (f == 0 ==> Carries(frame, silent))
            && (f > 0 && os[f - 1].Some? ==> Carries(frame, os[f - 1].value))
            && (f == 1 && os[0].None? ==> Carries(frame, silent))
            && (f > 1 && os[f - 1].None? ==> Carries(frame, Shown(silent, os)[f - 2]))
  {
    FrameRecovered(ins, f);
    PairsAreOffered(START, RESET, ins);
    if f > 0 {
      ShownAt(Pair(SILENCE, SILENCE), Offered(RESET, ins), f - 1);
    }
  }
}
