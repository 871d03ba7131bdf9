/**
 The AES3 receiver (rtl/_aes3_backup/aes3_rx.v): synchroniser, edge detector, interval timer,
 leaky-minimum cell tracker and interval classifier in front of the decoder of Aes3Decode.
 CLK_FREQ is 50 MHz, the module's default.
 */
module Aes3Rx {
  import opened Aes3Line
  import opened Aes3Decode

  const NOMINAL := 8
  const DECAY := 4096

  /** Everything behind the synchroniser. `prev` is the level seen in the clock before. */
  datatype Core = Core(prev: bool, timer: nat, interval: nat, iv: bool, cellW: nat, decay: nat,
                       f: Fsm, o: Report)

  /** `s2` is the oldest of the three synchroniser stages. */
  datatype Regs = Regs(s0: bool, s1: bool, s2: bool, core: Core)

  // ---------------------------------------------------------------------------
  // One clock
  // ---------------------------------------------------------------------------

  /** Below 1.5, 2.5 and 4 cell widths, in the register widths of the source. */
  function Classify(interval: nat, cellW: nat): Interval {
    if interval < cellW + cellW / 2 then S
    else if interval < (2 * cellW + cellW / 2) % 512 then L
    else if interval < 4 * (cellW % 64) then V
    else E
  }

  function NextCellW(c: Core): nat {
    if c.decay == DECAY - 1 && c.cellW < 40 then c.cellW + 1
    else if c.iv && c.interval >= 3 && c.interval < c.cellW then c.interval
    else c.cellW
  }

  function Silenced(o: Report): Report {
    Report(QuietAudio(o.audio), QuietStatus(o.status), o.lock.(locked := false, cnt := 0))
  }

  function NextFsm(c: Core): Fsm {
    if c.timer >= 128 then c.f.(state := HUNT)
    else if Done(c.f) then FinishFsm(c.f, c.iv && Classify(c.interval, c.cellW) == V)
    else if c.iv then EdgeFsm(c.f, Classify(c.interval, c.cellW))
    else c.f
  }

  function NextReport(c: Core): Report {
    if c.timer >= 128 then Silenced(c.o)
    else if Done(c.f) then FinishReport(c.f.sr, c.f.chB, c.o, c.cellW < NOMINAL - 2)
    else if c.iv then EdgeReport(c.f, c.o, Classify(c.interval, c.cellW))
    else Quiet(c.o)
  }

  function ResetFsm(f: Fsm): Fsm { f.(state := HUNT, bitCnt := 0, chB := false, phase := false, sr := Zeros(BITS)) }

  function ResetReport(o: Report): Report {
    var zero := Zeros(AUDIO_BITS);
    Report(Audio(zero, zero, zero, false, false, 0), QuietStatus(o.status).(cnt := 0), Lock(0, 0, false, false))
  }

  function NextTimer(c: Core, level: bool): nat {
    if level != c.prev then 1 else if c.timer < 128 then c.timer + 1 else c.timer
  }

  /** An edge less than three clocks after the last one is a glitch. */
  predicate Measured(c: Core, level: bool) { level != c.prev && c.timer >= 3 }

  function NextCore(c: Core, rst: bool, level: bool): Core {
    if rst then Core(false, 0, c.interval, false, NOMINAL, 0, ResetFsm(c.f), ResetReport(c.o))
    else
      Core(level, NextTimer(c, level), if Measured(c, level) then c.timer else c.interval, Measured(c, level),
           NextCellW(c), (c.decay + 1) % DECAY, NextFsm(c), NextReport(c))
  }

  function Next(r: Regs, rst: bool, line: bool): Regs {
    if rst then Regs(false, false, false, NextCore(r.core, true, r.s2))
    else Regs(line, r.s0, r.s1, NextCore(r.core, false, r.s2))
  }

  /** The registers of the decoder are kept in the groups Aes3Decode gives them. */
  class AES3Rx {
    var inSync0: bool
    var inSync1: bool
    var inSync2: bool
    var aes3D: bool
    var edgeTimer: nat
    var interval: nat
    var iv: bool
    var cellW: nat
    var decayCnt: nat
    var fsm: Fsm
    var audio: Audio
    var status: Channel
    var lock: Lock

    function CoreOf(): Core
      reads this
    {
      Core(aes3D, edgeTimer, interval, iv, cellW, decayCnt, fsm, Report(audio, status, lock))
    }

    function Registers(): Regs
      reads this
    {
      Regs(inSync0, inSync1, inSync2, CoreOf())
    }

    /** The interval classifier is combinational. */
    function Itype(): Interval
      reads this
    {
      Classify(interval, cellW)
    }

    constructor (r: Regs)
      ensures Registers() == r
    {
      var c := r.core;
      inSync0, inSync1, inSync2 := r.s0, r.s1, r.s2;
      aes3D, edgeTimer, interval, iv, cellW, decayCnt := c.prev, c.timer, c.interval, c.iv, c.cellW, c.decay;
      fsm, audio, status, lock := c.f, c.o.audio, c.o.status, c.o.lock;
    }

    method LoseLock()
      modifies this`lock
      ensures lock == old(lock).(cnt := Forget(old(lock).cnt))
    {
      if lock.cnt > 8 {
        lock := lock.(cnt := lock.cnt - 8);
      } else {
        lock := lock.(cnt := 0);
      }
    }

    /** One interval in SYNC. */
    method CollectPreamble()
      requires fsm.state == SYNC && audio == QuietAudio(audio) && status == QuietStatus(status)
      modifies this`fsm, this`audio, this`status
      ensures fsm == EdgeFsm(old(fsm), Itype())
      ensures audio == EdgeAudio(old(fsm), old(audio)) && status == EdgeStatus(old(fsm), old(status))
    {
      var t := Itype();
      if fsm.syncCnt == 0 {
        fsm := fsm.(preZ := t == S, preY := t == L, preX := t == V);
        if t == E {
          fsm := fsm.(state := HUNT);
        } else {
          fsm := fsm.(syncCnt := 1);
        }
      } else if fsm.syncCnt == 1 {
        fsm := fsm.(syncCnt := 2);
      } else {
        fsm := fsm.(state := DATA, phase := false, bitCnt := 0);
        if fsm.preZ {
          fsm, audio, status := fsm.(chB := false), audio.(frameNum := 0), status.(cnt := 0);
        } else if fsm.preX {
          fsm := fsm.(chB := false);
        } else {
          fsm := fsm.(chB := true);
        }
      }
    }

    /** A bit is complete: it enters at the top, the oldest leaves at the bottom. */
    method ShiftIn(bit: bool)
      modifies this`fsm
      ensures fsm == old(fsm).(sr := old(fsm).sr[1..] + [bit], bitCnt := (old(fsm).bitCnt + 1) % 32)
    {
      fsm := fsm.(sr := fsm.sr[1..] + [bit], bitCnt := (fsm.bitCnt + 1) % 32);
    }

    /** One interval in DATA. */
    method DecodeBit()
      requires fsm.state == DATA
      modifies this`fsm, this`lock
      ensures fsm == EdgeFsm(old(fsm), Itype()) && lock == EdgeLock(old(fsm), old(lock), Itype())
    {
      var t := Itype();
      if t == V {
        fsm := fsm.(state := SYNC, syncCnt := 0);
        LoseLock();
      } else if t == E {
        fsm := fsm.(state := HUNT);
        LoseLock();
      } else if !fsm.phase && t == S {
        fsm := fsm.(phase := true);
      } else if fsm.phase && t == S {
        fsm := fsm.(phase := false);
        ShiftIn(true);
      } else if !fsm.phase && t == L {
        ShiftIn(false);
      } else {
        fsm := fsm.(state := HUNT);
        LoseLock();
      }
    }

    /** The audio of a completed subframe. */
    method Deliver()
      requires audio == QuietAudio(audio)
      modifies this`audio
      ensures audio == FinishAudio(fsm.sr, fsm.chB, old(audio))
    {
      audio := audio.(sub := fsm.sr[..AUDIO_BITS], subValid := true);
      if fsm.chB {
        audio := audio.(right := fsm.sr[..AUDIO_BITS], valid := true);
        if audio.frameNum < FRAMES - 1 {
          audio := audio.(frameNum := audio.frameNum + 1);
        }
      } else {
        audio := audio.(left := fsm.sr[..AUDIO_BITS]);
      }
    }

    /** Its C bit. */
    method Accumulate()
      requires status == QuietStatus(status)
      modifies this`status
      ensures status == FinishStatus(fsm.sr, fsm.chB, old(status))
    {
      if !fsm.chB {
        status := status.(acc := status.acc[1..] + [fsm.sr[26]]);
        if status.cnt == FRAMES - 1 {
          status := status.(block := status.acc, valid := true, cnt := 0);
        } else {
          status := status.(cnt := (status.cnt + 1) % 256);
        }
      }
    }

    /** Its parity, the lock and the rate. */
    method Judge()
      modifies this`lock
      ensures lock == FinishLock(fsm.sr, old(lock), cellW < NOMINAL - 2)
    {
      lock := lock.(locked := lock.cnt > 32, is96k := cellW < NOMINAL - 2);
      if !Odd(fsm.sr) {
        if lock.cnt < 255 {
          lock := lock.(cnt := lock.cnt + 1);
        }
        if lock.errors > 0 {
          lock := lock.(errors := lock.errors - 1);
        }
      } else {
        if lock.errors < 15 {
          lock := lock.(errors := lock.errors + 1);
        }
        LoseLock();
      }
    }

    /** Lost signal, completed subframe, edge: in this order of priority. */
    method Decode()
      modifies this`fsm, this`audio, this`status, this`lock
      ensures fsm == NextFsm(old(CoreOf())) && Report(audio, status, lock) == NextReport(old(CoreOf()))
    {
      audio, status := QuietAudio(audio), QuietStatus(status);
      if edgeTimer >= 128 {
        fsm, lock := fsm.(state := HUNT), lock.(locked := false, cnt := 0);
      } else if fsm.state == DATA && fsm.bitCnt == BITS {
        Deliver();
        Accumulate();
        Judge();
        if iv && Itype() == V {
          fsm := fsm.(state := SYNC, syncCnt := 0, bitCnt := 0);
        } else {
          fsm := fsm.(state := HUNT, bitCnt := 0);
        }
      } else if iv {
        match fsm.state
        case HUNT =>
          if Itype() == V {
            fsm := fsm.(state := SYNC, syncCnt := 0);
          }
        case SYNC => CollectPreamble();
        case DATA => DecodeBit();
        case SPARE => fsm := fsm.(state := HUNT);
      }
    }

    method TrackCell()
      modifies this`cellW, this`decayCnt
      ensures cellW == NextCellW(old(CoreOf())) && decayCnt == (old(decayCnt) + 1) % DECAY
    {
      var was := cellW;
      if iv && interval >= 3 && interval < cellW {
        cellW := interval;
      }
      if decayCnt == DECAY - 1 && was < 40 {
        cellW := was + 1;
      }
      decayCnt := (decayCnt + 1) % DECAY;
    }

    method Measure()
      modifies this`edgeTimer, this`interval, this`iv, this`aes3D
      ensures edgeTimer == NextTimer(old(CoreOf()), inSync2)
      ensures iv == Measured(old(CoreOf()), inSync2)
      ensures interval == (if iv then old(edgeTimer) else old(interval))
      ensures aes3D == inSync2
    {
      iv := false;
      if inSync2 != aes3D {
        if edgeTimer >= 3 {
          interval, iv := edgeTimer, true;
        }
        edgeTimer := 1;
      } else if edgeTimer < 128 {
        edgeTimer := edgeTimer + 1;
      }
      aes3D := inSync2;
    }

    method Reset()
      modifies this
      ensures !inSync0 && !inSync1 && !inSync2
      ensures !aes3D && edgeTimer == 0 && interval == old(interval) && !iv && cellW == NOMINAL && decayCnt == 0
      ensures fsm == ResetFsm(old(fsm)) && Report(audio, status, lock) == ResetReport(old(CoreOf()).o)
    {
      inSync0, inSync1, inSync2, aes3D := false, false, false, false;
      edgeTimer, iv, cellW, decayCnt := 0, false, NOMINAL, 0;
      fsm := fsm.(state := HUNT, bitCnt := 0, chB := false, phase := false, sr := Zeros(BITS));
      audio := Audio(Zeros(AUDIO_BITS), Zeros(AUDIO_BITS), Zeros(AUDIO_BITS), false, false, 0);
      status := status.(valid := false, cnt := 0);
      lock := Lock(0, 0, false, false);
    }

    /** One rising edge of the clock. Every block reads the registers of the clock before. */
    method Clock(rst: bool, line: bool)
      modifies this
      ensures Registers() == Next(old(Registers()), rst, line)
    {
      if rst {
        Reset();
        assert CoreOf() == NextCore(old(CoreOf()), true, old(inSync2));
      } else {
        Decode();
        TrackCell();
        Measure();
        assert CoreOf() == NextCore(old(CoreOf()), false, old(inSync2));
        inSync0, inSync1, inSync2 := line, inSync0, inSync1;
      }
    }
  }
}
