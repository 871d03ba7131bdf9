/**
 The decoder of the AES3 receiver: what each classified interval between two edges does to its
 registers, and what it therefore makes of a stream of subframes. How clock counts become
 intervals is the business of Aes3Rx.
 */
module Aes3Decode {
  import opened Aes3Line

  /** SHORT, LONG, VLONG and anything else. */
  datatype Interval = S | L | V | E

  /** SPARE is the fourth code of the two-bit state register. */
  datatype State = HUNT | SYNC | DATA | SPARE

  /** The registers that follow the line. Index 0 of `sr` is its least significant bit. */
  datatype Fsm = Fsm(state: State, syncCnt: nat, phase: bool, bitCnt: nat, sr: Bits28,
                     preZ: bool, preX: bool, preY: bool, chB: bool)

  /** The audio outputs and the frame counter. */
  datatype Audio = Audio(left: seq<bool>, right: seq<bool>, sub: seq<bool>, valid: bool, subValid: bool, frameNum: nat)

  /** The channel-status accumulator and the last complete block. */
  datatype Channel = Channel(acc: Status, cnt: nat, block: Status, valid: bool)

  datatype Lock = Lock(cnt: nat, errors: nat, locked: bool, is96k: bool)

  /** The registers that report what was decoded. */
  datatype Report = Report(audio: Audio, status: Channel, lock: Lock)

  /** The subframe is complete; the receiver acts on it in the following clock. */
  predicate Done(f: Fsm) { f.state == DATA && f.bitCnt == BITS }

  // ---------------------------------------------------------------------------
  // One interval
  // ---------------------------------------------------------------------------

  function EdgeFsm(f: Fsm, t: Interval): Fsm {
    match f.state
    case HUNT => if t == V then f.(state := SYNC, syncCnt := 0) else f
    case SYNC =>
      if f.syncCnt == 0 then
        var g := f.(preZ := t == S, preY := t == L, preX := t == V);
        if t == E then g.(state := HUNT) else g.(syncCnt := 1)
      else if f.syncCnt == 1 then f.(syncCnt := 2)
      else f.(state := DATA, phase := false, bitCnt := 0, chB := !(f.preZ || f.preX))
    case DATA =>
      if t == V then f.(state := SYNC, syncCnt := 0)
      else if t == E then f.(state := HUNT)
      else if !f.phase && t == S then f.(phase := true)
      else if f.phase && t == S then f.(phase := false, sr := f.sr[1..] + [true], bitCnt := (f.bitCnt + 1) % 32)
      else if !f.phase && t == L then f.(sr := f.sr[1..] + [false], bitCnt := (f.bitCnt + 1) % 32)
      else f.(state := HUNT)
    case SPARE => f.(state := HUNT)
  }

  function QuietAudio(a: Audio): Audio { a.(valid := false, subValid := false) }

  function QuietStatus(c: Channel): Channel { c.(valid := false) }

  /** Pulses last one clock. */
  function Quiet(o: Report): Report { Report(QuietAudio(o.audio), QuietStatus(o.status), o.lock) }

  function Forget(lockCnt: nat): nat { if lockCnt > 8 then lockCnt - 8 else 0 }

  /** An interval inside a subframe that does not fit costs eight points of lock. */
  predicate Misfit(f: Fsm, t: Interval) { f.state == DATA && (t == V || t == E || (f.phase && t == L)) }

  /** The interval that ends the preamble of a block start. */
  predicate BlockStarts(f: Fsm) { f.state == SYNC && f.syncCnt >= 2 && f.preZ }

  function EdgeAudio(f: Fsm, a: Audio): Audio { if BlockStarts(f) then QuietAudio(a).(frameNum := 0)
      else QuietAudio(a) }

  function EdgeStatus(f: Fsm, c: Channel): Channel { if BlockStarts(f) then QuietStatus(c).(cnt := 0)
      else QuietStatus(c) }

  function EdgeLock(f: Fsm, l: Lock, t: Interval): Lock { if Misfit(f, t) then l.(cnt := Forget(l.cnt)) else l }

  function EdgeReport(f: Fsm, o: Report, t: Interval): Report {
    Report(EdgeAudio(f, o.audio), EdgeStatus(f, o.status), EdgeLock(f, o.lock, t))
  }

  // ---------------------------------------------------------------------------
  // A completed subframe
  // ---------------------------------------------------------------------------

  /** `chained`: a VLONG arrived in the same clock. */
  function FinishFsm(f: Fsm, chained: bool): Fsm {
    if chained then f.(state := SYNC, syncCnt := 0, bitCnt := 0) else f.(state := HUNT, bitCnt := 0)
  }

  /** Both channels: the audio, and on channel B the pair. */
  function FinishAudio(sr: Bits28, chB: bool, a: Audio): Audio {
    var word := sr[..AUDIO_BITS];
    if chB then Audio(a.left, word, word, true, true, if a.frameNum < FRAMES - 1 then a.frameNum + 1 else a.frameNum)
    else Audio(word, a.right, word, false, true, a.frameNum)
  }

  /** Channel A only: its C bit enters at the top of the accumulator. */
  function FinishStatus(sr: Bits28, chB: bool, c: Channel): Channel {
    if chB then QuietStatus(c)
    else
      var acc := c.acc[1..] + [sr[26]];
      if c.cnt == FRAMES - 1 then Channel(acc, 0, acc, true) else Channel(acc, (c.cnt + 1) % 256, c.block, false)
  }

  /** Parity, lock and rate. */
  function FinishLock(sr: Bits28, l: Lock, narrow: bool): Lock {
    if Odd(sr) then Lock(Forget(l.cnt), if l.errors < 15 then l.errors + 1 else l.errors, l.cnt > 32, narrow)
    else Lock(if l.cnt < 255 then l.cnt + 1 else l.cnt, if l.errors > 0 then l.errors - 1 else 0, l.cnt > 32, narrow)
  }

  function FinishReport(sr: Bits28, chB: bool, o: Report, narrow: bool): Report {
    Report(FinishAudio(sr, chB, o.audio), FinishStatus(sr, chB, o.status), FinishLock(sr, o.lock, narrow))
  }

  // ---------------------------------------------------------------------------
  // What an observer of the outputs keeps
  // ---------------------------------------------------------------------------

  /** A pulse of `sub_valid`: what `audio_sub` shows then, all the bits just shifted in, and the channel. */
  datatype Heard = Heard(sub: seq<bool>, bits: Bits28, chB: bool)

  /** A pulse of `audio_valid`: the two audio words. */
  datatype Pair = Pair(left: seq<bool>, right: seq<bool>)

  datatype Hist = Hist(subs: seq<Heard>, pairs: seq<Pair>, blocks: seq<Status>)

  function Record(h: Hist, f: Fsm, o: Report): Hist {
    Hist(if o.audio.subValid then h.subs + [Heard(o.audio.sub, f.sr, f.chB)] else h.subs,
         if o.audio.valid then h.pairs + [Pair(o.audio.left, o.audio.right)] else h.pairs,
         if o.status.valid then h.blocks + [o.status.block] else h.blocks)
  }

  // ---------------------------------------------------------------------------
  // The decoder on intervals
  // ---------------------------------------------------------------------------

  datatype Dec = Dec(f: Fsm, o: Report, h: Hist)

  /** The clock after an interval: a completed subframe is reported, and the pulses end. */
  function Close(d: Dec): Dec {
    if Done(d.f) then
      var o := FinishReport(d.f.sr, d.f.chB, d.o, false);
      Dec(FinishFsm(d.f, false), Quiet(o), Record(d.h, d.f, o))
    else d
  }

  function Feed(d: Dec, t: Interval): Dec {
    Close(Dec(EdgeFsm(d.f, t), EdgeReport(d.f, d.o, t), d.h))
  }

  /** What an interval of so many cells is. */
  function TypeOf(cells: nat): Interval {
    if cells == 1 then S else if cells == 2 then L else if cells == 3 then V else E
  }

  /** The decoder, and the number of cells since the last edge. */
  datatype Rig = Rig(d: Dec, run: nat)

  function CellFeed(r: Rig, flag: bool): Rig {
    if flag then Rig(Feed(r.d, TypeOf(r.run)), 1) else Rig(r.d, r.run + 1)
  }

  function CellsFeed(r: Rig, flags: seq<bool>): Rig
    decreases |flags|
  {
    if flags == [] then r else CellFeed(CellsFeed(r, flags[..|flags| - 1]), flags[|flags| - 1])
  }
}
