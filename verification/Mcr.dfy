/**
 Media clock recovery: the PI servo that writes the NCO increment, its lock
 hysteresis, the stale-stream watchdog and the drain of the hardware timestamp
 FIFO.
 */
module Mcr {
  import opened Bytes

  const INTEGRAL_CLAMP := 1000000
  const INCREMENT_MAX_DELTA := 0x100_0000
  const LOCK_ENTER_NS := 2000
  const LOCK_EXIT_NS := 10000
  const LOCK_ENTER_STREAK := 1
  const LOCK_EXIT_STREAK := 4
  const STALE_THRESHOLD_MS := 1000
  const PUMP_GUARD := 64

  /** Offsets for which the servo's signed 64-bit arithmetic cannot overflow. */
  predicate OffsetInRange(off: int) {
    -0x2000_0000_0000_0000 <= off <= 0x2000_0000_0000_0000
  }

  /** The latest sample and whether the servo has seen it. */
  datatype Feed = Feed(bound: bool, consumed: bool, offset: int)

  datatype Loop = Loop(havePrev: bool, prev: int, integral: int)

  /** Nominal and current increment, and what was last written to the oscillator. */
  datatype Osc = Osc(base: Word32, inc: Word32, nco: Word32)

  datatype Lock = Lock(locked: bool, streak: nat, steps: Word32)

  datatype Watch = Watch(rxCount: Word32, hwRxCount: Word32, snapshot: Word32, checkMs: Word32, resetActive: bool)

  datatype Servo = Servo(feed: Feed, pi: Loop, osc: Osc, lock: Lock, watch: Watch)

  /** One (AVTP time, local receive time) pair of the timestamp FIFO. */
  datatype Pair = Pair(avtp: nat, sec: nat, ns: nat)

  function Clamp(x: int, bound: int): (r: int)
    requires bound >= 0
    ensures -bound <= r <= bound
    ensures -bound <= x <= bound ==> r == x
  {
    if x > bound then bound else if x < -bound then -bound else x
  }

  /** fs * 2^32 / sysClk, rounded to nearest. */
  function NominalIncrement(sysClk: nat, fs: nat): nat
    requires sysClk > 0
  {
    var n := fs * 0x1_0000_0000;
    n / sysClk + if n % sysClk > sysClk / 2 then 1 else 0
  }

  function Correction(delta: int, integral: int): int {
    Clamp(-(TruncDiv(delta, 1) + TruncDiv(integral, 32)), INCREMENT_MAX_DELTA)
  }

  function TunedIncrement(base: Word32, correction: int): Word32 {
    var inc := base + correction;
    if inc < 1 then 1 else if inc > 0xFFFF_FFFF then 0xFFFF_FFFF else inc
  }

  /** Lock fast, unlock slowly: the new (locked, streak) after one sample. */
  function LockStep(locked: bool, streak: nat, absDelta: int): (next: (bool, int))
    ensures next.1 >= 0
  {
    if locked then
      if absDelta > LOCK_EXIT_NS then
        var n := if streak < LOCK_EXIT_STREAK then streak + 1 else streak;
        if n >= LOCK_EXIT_STREAK then (false, 0) else (true, n)
      else (true, 0)
    else if absDelta < LOCK_ENTER_NS then
      var n := if streak < LOCK_ENTER_STREAK then streak + 1 else streak;
      if n >= LOCK_ENTER_STREAK then (true, 0) else (false, n)
    else (false, 0)
  }

  function NextLock(l: Lock, absDelta: int): Lock {
    var (locked, streak) := LockStep(l.locked, l.streak, absDelta);
    Lock(locked, streak, U32(l.steps + 1))
  }

  function NextLoop(pi: Loop, delta: int, offset: int): Loop {
    Loop(true, offset, Clamp(pi.integral + delta, INTEGRAL_CLAMP))
  }

  function Written(osc: Osc, inc: Word32): Osc { Osc(osc.base, inc, inc) }

  /** One sample in the loop. */
  function Steered(s: Servo, delta: int): Servo {
    var pi := NextLoop(s.pi, delta, s.feed.offset);
    Servo(s.feed.(consumed := true), pi,
          Written(s.osc, TunedIncrement(s.osc.base, Correction(delta, pi.integral))),
          NextLock(s.lock, Abs(delta)), s.watch)
  }

  function ServoUpdate(s: Servo): Servo {
    if !s.feed.bound || s.feed.consumed then s
    else if !s.pi.havePrev then
      s.(feed := s.feed.(consumed := true), pi := Loop(true, s.feed.offset, s.pi.integral))
    else Steered(s, s.feed.offset - s.pi.prev)
  }

  /** A sample drained from the hardware FIFO, run through the servo at once. */
  function Sample(s: Servo, off: int): Servo {
    if !s.feed.bound then s
    else
      ServoUpdate(s.(feed := Feed(true, false, off),
                     watch := s.watch.(rxCount := U32(s.watch.rxCount + 1),
                                       hwRxCount := U32(s.watch.hwRxCount + 1))))
  }

  /** A sample taken from a frame the CPU received; the servo sees it when it is next run. */
  function Received(s: Servo, off: int): Servo {
    if !s.feed.bound then s
    else s.(feed := Feed(true, false, off), watch := s.watch.(rxCount := U32(s.watch.rxCount + 1)))
  }

  function Watchdog(s: Servo, now: Word32): Servo {
    if !s.feed.bound then
      if s.watch.resetActive then s
      else s.(osc := Written(s.osc, s.osc.base), watch := s.watch.(resetActive := true))
    else if s.watch.rxCount != s.watch.snapshot then
      s.(watch := s.watch.(snapshot := s.watch.rxCount, checkMs := now, resetActive := false))
    else if U32(now - s.watch.checkMs) > STALE_THRESHOLD_MS && !s.watch.resetActive then
      Servo(s.feed, Loop(false, s.pi.prev, 0), Written(s.osc, s.osc.base), Lock(false, 0, s.lock.steps),
            s.watch.(resetActive := true))
    else s
  }

  function Bind(s: Servo): Servo {
    Servo(Feed(true, true, s.feed.offset), Loop(false, s.pi.prev, 0), s.osc, Lock(false, s.lock.streak, 0),
          s.watch.(rxCount := 0, hwRxCount := 0))
  }

  function Unbind(s: Servo): Servo {
    s.(feed := Feed(false, true, s.feed.offset), osc := Written(s.osc, s.osc.base),
       lock := Lock(false, 0, s.lock.steps), watch := s.watch.(resetActive := true))
  }

  function Initial(base: Word32): Servo {
    Servo(Feed(false, false, 0), Loop(false, 0, 0), Osc(base, base, base), Lock(false, 0, 0), Watch(0, 0, 0, 0, true))
  }

  function PairOffset(p: Pair): int { S64(p.avtp - (p.sec * 1_000_000_000 + p.ns)) }

  function Samples(s: Servo, offs: seq<int>): Servo
    decreases |offs|
  {
    if offs == [] then s else Samples(Sample(s, offs[0]), offs[1..])
  }

  function Pump(s: Servo, fifo: seq<Pair>): Servo
    decreases |fifo|
  {
    if fifo == [] then s else Pump(Sample(s, PairOffset(fifo[0])), fifo[1..])
  }

  lemma {:induction false} PumpAppend(s: Servo, fifo: seq<Pair>, p: Pair)
    ensures Pump(s, fifo + [p]) == Sample(Pump(s, fifo), PairOffset(p))
    decreases |fifo|
  {
    if fifo == [] {
      assert [p][1..] == [];
    } else {
      assert (fifo + [p])[1..] == fifo[1..] + [p];
      PumpAppend(Sample(s, PairOffset(fifo[0])), fifo[1..], p);
    }
  }

  // ---------------------------------------------------------------------------
  // The firmware object
  // ---------------------------------------------------------------------------

  /** The fields of the firmware object, in the groups above. */
  class McrState {
    var feed: Feed
    var pi: Loop
    var osc: Osc
    var lock: Lock
    var watch: Watch

    function State(): Servo
      reads this
    {
      Servo(feed, pi, osc, lock, watch)
    }

    constructor (sysClk: nat, fs: nat)
      requires sysClk > 0
      ensures State() == Initial(U32(NominalIncrement(sysClk, fs)))
    {
      var shifted := fs * 0x1_0000_0000;
      var inc := shifted / sysClk;
      if shifted % sysClk > sysClk / 2 {
        inc := inc + 1;
      }
      feed, pi := Feed(false, false, 0), Loop(false, 0, 0);
      osc := Osc(U32(inc), U32(inc), U32(inc));
      lock, watch := Lock(false, 0, 0), Watch(0, 0, 0, 0, true);
    }

    method WriteIncrement(inc: Word32)
      modifies this`osc
      ensures osc == old(osc).(nco := inc)
    {
      osc := osc.(nco := inc);
    }

    /** The asymmetric hysteresis at the end of the servo update. */
    method UpdateLock(absDelta: int)
      modifies this`lock
      ensures (lock.locked, lock.streak) == LockStep(old(lock.locked), old(lock.streak), absDelta)
      ensures lock.steps == old(lock.steps)
    {
      if lock.locked {
        if absDelta > LOCK_EXIT_NS {
          if lock.streak < LOCK_EXIT_STREAK { lock := lock.(streak := lock.streak + 1); }
          if lock.streak >= LOCK_EXIT_STREAK {
            lock := lock.(locked := false, streak := 0);
          }
        } else {
          lock := lock.(streak := 0);
        }
      } else {
        if absDelta < LOCK_ENTER_NS {
          if lock.streak < LOCK_ENTER_STREAK { lock := lock.(streak := lock.streak + 1); }
          if lock.streak >= LOCK_ENTER_STREAK {
            lock := lock.(locked := true, streak := 0);
          }
        } else {
          lock := lock.(streak := 0);
        }
      }
    }

    /** Proportional-integral step with anti-windup, output and range clamps. */
    method Tune(delta: int)
      modifies this`pi, this`osc
      ensures pi == old(pi).(integral := Clamp(old(pi.integral) + delta, INTEGRAL_CLAMP))
      ensures osc == old(osc).(inc := TunedIncrement(old(osc.base), Correction(delta, pi.integral)))
    {
      var integral := pi.integral + delta;
      if integral > INTEGRAL_CLAMP { integral := INTEGRAL_CLAMP; }
      if integral < -INTEGRAL_CLAMP { integral := -INTEGRAL_CLAMP; }
      pi := pi.(integral := integral);

      var pTerm := TruncDiv(delta, 1);
      var iTerm := TruncDiv(integral, 32);
      var correction := -(pTerm + iTerm);
      if correction > INCREMENT_MAX_DELTA { correction := INCREMENT_MAX_DELTA; }
      if correction < -INCREMENT_MAX_DELTA { correction := -INCREMENT_MAX_DELTA; }

      var inc := osc.base + correction;
      if inc < 1 { inc := 1; }
      if inc > 0xFFFF_FFFF { inc := 0xFFFF_FFFF; }
      osc := osc.(inc := inc);
    }

    method Update()
      modifies this
      requires OffsetInRange(feed.offset) && OffsetInRange(pi.prev)
      ensures State() == ServoUpdate(old(State()))
    {
      if !feed.bound || feed.consumed {
        return;
      }
      feed := feed.(consumed := true);
      var off := feed.offset;
      if !pi.havePrev {
        pi := pi.(prev := off, havePrev := true);
        return;
      }
      var delta := off - pi.prev;
      pi := pi.(prev := off);

      Tune(delta);
      WriteIncrement(osc.inc);

      var absDelta := if delta < 0 then -delta else delta;
      UpdateLock(absDelta);
      lock := lock.(steps := U32(lock.steps + 1));
    }

    method WatchdogTick(now: Word32)
      modifies this
      ensures State() == Watchdog(old(State()), now)
    {
      if !feed.bound {
        if !watch.resetActive {
          osc := osc.(inc := osc.base);
          WriteIncrement(osc.base);
          watch := watch.(resetActive := true);
        }
        return;
      }
      if watch.rxCount != watch.snapshot {
        watch := watch.(snapshot := watch.rxCount, checkMs := now, resetActive := false);
        return;
      }
      var age := U32(now - watch.checkMs);
      if age > STALE_THRESHOLD_MS {
        if !watch.resetActive {
          osc := osc.(inc := osc.base);
          WriteIncrement(osc.base);
          pi := pi.(integral := 0, havePrev := false);
          lock := lock.(locked := false, streak := 0);
          watch := watch.(resetActive := true);
        }
      }
    }

    method BindStream()
      modifies this
      ensures State() == Bind(old(State()))
    {
      feed := feed.(bound := true);
      watch := watch.(rxCount := 0);
      pi := pi.(havePrev := false);
      feed := feed.(consumed := true);
      pi := pi.(integral := 0);
      lock := lock.(locked := false, steps := 0);
      watch := watch.(hwRxCount := 0);
    }

    method UnbindStream()
      modifies this
      ensures State() == Unbind(old(State()))
    {
      feed := feed.(bound := false);
      lock := lock.(locked := false, streak := 0);
      feed := feed.(consumed := true);
      osc := osc.(inc := osc.base);
      WriteIncrement(osc.base);
      watch := watch.(resetActive := true);
    }

    /** The sample of an accepted CRF frame: its last timestamp against the local receive time. */
    method ProcessRx(p: Pair)
      modifies this
      ensures State() == Received(old(State()), PairOffset(p))
    {
      if !feed.bound {
        return;
      }
      feed := feed.(offset := S64(p.avtp - (p.sec * 1_000_000_000 + p.ns)));
      feed := feed.(consumed := false);
      watch := watch.(rxCount := U32(watch.rxCount + 1));
    }

    /** One pair off the head of the hardware FIFO. */
    method FeedPair(p: Pair)
      requires feed.bound && OffsetInRange(pi.prev) && OffsetInRange(PairOffset(p))
      modifies this
      ensures State() == Sample(old(State()), PairOffset(p))
    {
      feed := feed.(offset := S64(p.avtp - (p.sec * 1_000_000_000 + p.ns)));
      feed := feed.(consumed := false);
      watch := watch.(hwRxCount := U32(watch.hwRxCount + 1));
      watch := watch.(rxCount := U32(watch.rxCount + 1));
      Update();
    }

    /** Drain at most PUMP_GUARD pairs, oldest first; the rest stays queued. */
    method PumpHw(fifo: seq<Pair>) returns (rest: seq<Pair>)
      requires OffsetInRange(pi.prev)
      requires forall p :: p in fifo ==> OffsetInRange(PairOffset(p))
      modifies this
      ensures !old(feed.bound) ==> rest == fifo && State() == old(State())
      ensures old(feed.bound) ==> var n := Min(64, |fifo|);
                rest == fifo[n..] && State() == Pump(old(State()), fifo[..n])
    {
      rest := fifo;
      if !feed.bound {
        return;
      }
      var guard := PUMP_GUARD;
      ghost var done := 0;
      while rest != [] && guard > 0
        invariant feed.bound && OffsetInRange(pi.prev)
        invariant done == PUMP_GUARD - guard && 0 <= guard && done <= |fifo|
        invariant rest == fifo[done..]
        invariant State() == Pump(old(State()), fifo[..done])
      {
        guard := guard - 1;
        var p := rest[0];
        assert p in fifo;
        rest := rest[1..];
        FeedPair(p);
        PumpAppend(old(State()), fifo[..done], p);
        assert fifo[..done] + [p] == fifo[..done + 1];
        done := done + 1;
      }
    }
  }

  // ---------------------------------------------------------------------------
  // Whole runs
  // ---------------------------------------------------------------------------

  /**
   What can happen: hardware samples (drained and run at once), samples of frames the CPU received, the
   servo run of the main loop that consumes the latest of those, and the rest.
   */
  datatype Event = BindEvent | UnbindEvent | SampleEvent(off: int) | ReceivedEvent(off: int) | ServoEvent
    | WatchdogEvent(now: Word32)

  function Step(s: Servo, e: Event): Servo {
    match e
    case BindEvent => Bind(s)
    case UnbindEvent => Unbind(s)
    case SampleEvent(off) => Sample(s, off)
    case ReceivedEvent(off) => Received(s, off)
    case ServoEvent => ServoUpdate(s)
    case WatchdogEvent(now) => Watchdog(s, now)
  }

  function Run(s: Servo, es: seq<Event>): Servo
    decreases |es|
  {
    if es == [] then s else Run(Step(s, es[0]), es[1..])
  }

  predicate IncrementBounded(s: Servo) {
    && s.osc.nco == s.osc.inc
    && 1 <= s.osc.inc <= s.osc.base + INCREMENT_MAX_DELTA
  }

  /** What the servo leaves in the NCO never escapes [1, base + 2^24], whatever happens. */
  lemma {:induction false} IncrementStaysBounded(s: Servo, es: seq<Event>)
    requires s.osc.base >= 1 && IncrementBounded(s)
    ensures IncrementBounded(Run(s, es)) && Run(s, es).osc.base == s.osc.base
    decreases |es|
  {
    if es != [] {
      IncrementStaysBounded(Step(s, es[0]), es[1..]);
    }
  }

  /** The deployed clocks: 48 kHz from 50 MHz, hence the largest increment ever written. */
  lemma DeployedIncrements()
    ensures NominalIncrement(50_000_000, 48_000) == 4_123_169
    ensures U32(NominalIncrement(50_000_000, 48_000)) + INCREMENT_MAX_DELTA == 20_900_385
  {
    assert 48_000 * 0x1_0000_0000 == 4_123_168 * 50_000_000 + 30_208_000;
  }

  /** The nominal increment is the nearest one: off by at most half a clock count. */
  lemma NominalIncrementIsNearest(sysClk: nat, fs: nat)
    requires sysClk > 0
    ensures 2 * Abs(NominalIncrement(sysClk, fs) * sysClk - fs * 0x1_0000_0000) <= sysClk
  {
    var n := fs * 0x1_0000_0000;
    var q, r := n / sysClk, n % sysClk;
    assert n == q * sysClk + r;
    assert (q + 1) * sysClk == q * sysClk + sysClk;
  }

  /** After every prefix of the samples the integral is the drift since `origin`. */
  ghost predicate Tracks(s: Servo, origin: int, offs: seq<int>)
    decreases |offs|
  {
    && s.pi.integral == s.pi.prev - origin
    && (offs == [] || Tracks(Sample(s, offs[0]), origin, offs[1..]))
  }

  ghost predicate WithinClamp(origin: int, offs: seq<int>) {
    forall k :: 0 <= k < |offs| ==> Abs(offs[k] - origin) <= 1_000_000
  }

  /** The first sample after a bind (or a stale reset) fixes the origin. */
  lemma BaselineSample(s: Servo, off: int)
    requires s.feed.bound && !s.pi.havePrev && s.pi.integral == 0
    ensures var t := Sample(s, off);
            t.feed.bound && t.pi.havePrev && t.pi.integral == 0 && t.pi.prev == off && t.osc == s.osc
  {
  }

  /**
   The integral telescopes to "offset now minus offset at baseline" for as long
   as, and only as long as, no sample strays further than the clamp.
   */
  lemma {:induction false} IntegralTelescopes(s: Servo, origin: int, offs: seq<int>)
    requires s.feed.bound && s.pi.havePrev
    requires s.pi.integral == s.pi.prev - origin && Abs(s.pi.integral) <= INTEGRAL_CLAMP
    ensures Tracks(s, origin, offs) <==> WithinClamp(origin, offs)
    ensures WithinClamp(origin, offs) && offs != [] ==>
              Samples(s, offs).pi.integral == offs[|offs| - 1] - origin
    decreases |offs|
  {
    if offs != [] {
      var t := Sample(s, offs[0]);
      assert t.pi.prev == offs[0];
      if Abs(offs[0] - origin) <= INTEGRAL_CLAMP {
        assert t.pi.integral == offs[0] - origin;
        IntegralTelescopes(t, origin, offs[1..]);
        assert forall k :: 1 <= k < |offs| ==> offs[k] == offs[1..][k - 1];
        assert offs[1..] == [] ==> Samples(t, offs[1..]) == t;
      } else {
        assert t.pi.integral != t.pi.prev - origin;
      }
    }
  }

  // ---------------------------------------------------------------------------
  // What the servo writes
  // ---------------------------------------------------------------------------

  /** The largest and the smallest increment the servo can write. */
  function Highest(base: Word32): int { Min(0xFFFF_FFFF, base + 16_777_216) }

  function Lowest(base: Word32): int { if base > 16_777_216 then base - 16_777_216 else 1 }

  /**
   32 (base - nco) is 32 times the rate error plus the integral, cut to a multiple of 32 towards zero
   in its integral part; an increment at a limit stands for every error beyond it.
   */
  ghost predicate Answers(base: Word32, nco: Word32, delta: int, integral: int) {
    var rest := 32 * delta + integral - 32 * (base - nco);
    && Lowest(base) <= nco <= Highest(base)
    && (nco < Highest(base) ==> if integral >= 0 then 0 <= rest else -32 < rest)
    && (Lowest(base) < nco ==> if integral >= 0 then rest < 32 else rest <= 0)
  }

  lemma Quotient(integral: int)
    ensures var rest := integral - 32 * TruncDiv(integral, 32);
            if integral >= 0 then 0 <= rest < 32 else -32 < rest <= 0
  {
  }

  lemma WrittenAnswers(base: Word32, delta: int, integral: int)
    requires base >= 1
    ensures Answers(base, TunedIncrement(base, Correction(delta, integral)), delta, integral)
  {
    Quotient(integral);
  }

  /** A state in which the next sample moves the servo. */
  predicate Running(s: Servo) {
    && s.feed.bound && s.pi.havePrev && s.osc.base >= 1 && Abs(s.pi.integral) <= 1_000_000
  }

  /**
   One sample: the integral gains the rate error, up to its clamp, and the increment written is the
   nominal one minus the rate error minus a 32nd of the integral. A source that runs late slows the
   oscillator, one that runs early speeds it up, and the limits are reached only by errors beyond them.
   */
  lemma ServoAnswers(s: Servo, off: int)
    requires Running(s)
    ensures var t, delta := Sample(s, off), off - s.pi.prev;
            && Running(t) && t.pi.prev == off && t.osc.base == s.osc.base
            && (Abs(s.pi.integral + delta) <= 1_000_000 ==> t.pi.integral == s.pi.integral + delta)
            && (s.pi.integral + delta > 1_000_000 ==> t.pi.integral == 1_000_000)
            && (s.pi.integral + delta < -1_000_000 ==> t.pi.integral == -1_000_000)
            && Answers(t.osc.base, t.osc.nco, delta, t.pi.integral)
            && (delta > 0 && t.pi.integral >= 0 && t.osc.base > 1 ==> t.osc.nco < t.osc.base)
            && (delta < 0 && t.pi.integral <= 0 && t.osc.base < 0xFFFF_FFFF ==> t.osc.nco > t.osc.base)
  {
    var t := Sample(s, off);
    WrittenAnswers(s.osc.base, off - s.pi.prev, t.pi.integral);
  }

  /** The counters have gone n samples further. */
  predicate CountedOn(s: Servo, n: nat, t: Servo) {
    && t.lock.steps == U32(s.lock.steps + n)
    && t.watch.rxCount == U32(s.watch.rxCount + n)
    && t.watch.hwRxCount == U32(s.watch.hwRxCount + n)
  }

  lemma OneCounted(s: Servo, off: int, n: nat, t: Servo)
    requires s.feed.bound && s.pi.havePrev && CountedOn(Sample(s, off), n, t)
    ensures Sample(s, off).feed.bound && Sample(s, off).pi.havePrev && CountedOn(s, n + 1, t)
  {
    WrapAdd32(s.lock.steps + 1, n);
    WrapAdd32(s.watch.rxCount + 1, n);
    WrapAdd32(s.watch.hwRxCount + 1, n);
  }

  /** Every sample after a baseline is one servo step and one received packet. */
  lemma {:induction false} SamplesAreCounted(s: Servo, offs: seq<int>)
    requires s.feed.bound && s.pi.havePrev
    ensures CountedOn(s, |offs|, Samples(s, offs))
    decreases |offs|
  {
    if offs != [] {
      SamplesAreCounted(Sample(s, offs[0]), offs[1..]);
      OneCounted(s, offs[0], |offs| - 1, Samples(s, offs));
    }
  }

  lemma QuotientGrows(i: int, j: int)
    requires i <= j
    ensures TruncDiv(i, 32) <= TruncDiv(j, 32)
  {
  }

  /** The later the sample, the slower the oscillator, whatever is clamped. */
  lemma ServoIsMonotone(s: Servo, off: int, later: int)
    requires Running(s) && off <= later
    ensures Sample(s, later).osc.nco <= Sample(s, off).osc.nco
  {
    QuotientGrows(Sample(s, off).pi.integral, Sample(s, later).pi.integral);
  }

  lemma {:induction false} SamplesKeepRunning(s: Servo, offs: seq<int>)
    requires Running(s)
    ensures Running(Samples(s, offs)) && Samples(s, offs).osc.base == s.osc.base
    ensures offs != [] ==> Samples(s, offs).pi.prev == offs[|offs| - 1]
    decreases |offs|
  {
    if offs != [] {
      ServoAnswers(s, offs[0]);
      SamplesKeepRunning(Sample(s, offs[0]), offs[1..]);
      if offs[1..] == [] {
        assert Samples(Sample(s, offs[0]), offs[1..]) == Sample(s, offs[0]);
      }
    }
  }

  lemma {:induction false} SamplesAppend(s: Servo, offs: seq<int>, off: int)
    ensures Samples(s, offs + [off]) == Sample(Samples(s, offs), off)
    decreases |offs|
  {
    if offs == [] {
      assert ([] + [off])[1..] == [];
      assert Samples(s, [] + [off]) == Samples(Sample(s, off), []);
    } else {
      assert (offs + [off])[1..] == offs[1..] + [off];
      SamplesAppend(Sample(s, offs[0]), offs[1..], off);
    }
  }

  /** The same from the baseline on. */
  lemma DriftFromBaseline(b: Servo, origin: int, offs: seq<int>, off: int)
    requires Running(b) && b.pi.integral == 0 && b.pi.prev == origin
    requires WithinClamp(origin, offs + [off])
    ensures var t := Samples(b, offs + [off]);
            && t.pi.integral == off - origin && t.osc.base == b.osc.base
            && Answers(b.osc.base, t.osc.nco, off - (if offs == [] then origin else offs[|offs| - 1]), off - origin)
  {
    SamplesKeepRunning(b, offs);
    IntegralTelescopes(b, origin, offs + [off]);
    SamplesAppend(b, offs, off);
    ServoAnswers(Samples(b, offs), off);
  }

  /**
   Over a whole run: bound afresh, with `origin` the first sample, after any further samples that stay
   within the integral's clamp the increment is the nominal one minus the last step minus a 32nd of the
   whole drift since `origin`, to within one count of truncation and within its limits.
   */
  lemma IncrementFollowsDrift(s: Servo, origin: int, offs: seq<int>, off: int, all: seq<int>)
    requires s.feed.bound && !s.pi.havePrev && s.pi.integral == 0 && s.osc.base >= 1
    requires WithinClamp(origin, offs + [off]) && all == [origin] + (offs + [off])
    ensures var t := Samples(s, all);
            && t.pi.integral == off - origin && t.osc.base == s.osc.base
            && Answers(s.osc.base, t.osc.nco, off - (if offs == [] then origin else offs[|offs| - 1]), off - origin)
  {
    BaselineSample(s, origin);
    assert all[1..] == offs + [off];
    DriftFromBaseline(Sample(s, origin), origin, offs, off);
  }

  /** The rate error the servo acts on in an event, if it acts. */
  function RateError(s: Servo, e: Event): Option<int> {
    if !s.feed.bound || !s.pi.havePrev then None
    else if e.SampleEvent? then Some(e.off - s.pi.prev)
    else if e.ServoEvent? && !s.feed.consumed then Some(s.feed.offset - s.pi.prev)
    else None
  }

  predicate BadSample(s: Servo, e: Event) {
    RateError(s, e).Some? && Bad(RateError(s, e).value)
  }

  /** The servo itself, not a bind, an unbind or the watchdog, gives up the lock. */
  predicate Unlocks(s: Servo, e: Event) {
    (e.SampleEvent? || e.ServoEvent?) && s.lock.locked && !Step(s, e).lock.locked
  }

  /** Servo-driven lock losses of a run. */
  ghost function UnlockCount(s: Servo, es: seq<Event>): nat
    decreases |es|
  {
    if es == [] then 0 else (if Unlocks(s, es[0]) then 1 else 0) + UnlockCount(Step(s, es[0]), es[1..])
  }

  /** Samples of a run whose rate error exceeds the exit threshold. */
  ghost function BadSamples(s: Servo, es: seq<Event>): nat
    decreases |es|
  {
    if es == [] then 0 else (if BadSample(s, es[0]) then 1 else 0) + BadSamples(Step(s, es[0]), es[1..])
  }

  ghost function Credit(s: Servo): int { if s.lock.locked then s.lock.streak else 0 }

  /** One event: a bad sample earns one credit, a lock loss costs four. */
  lemma CreditStep(s: Servo, e: Event)
    requires s.lock.locked ==> s.lock.streak < LOCK_EXIT_STREAK
    ensures var t := Step(s, e);
            && (t.lock.locked ==> t.lock.streak < LOCK_EXIT_STREAK)
            && 4 * (if Unlocks(s, e) then 1 else 0) + Credit(t) <= (if BadSample(s, e) then 1 else 0) + Credit(s)
  {
  }

  /** Every lock loss is paid for by four samples beyond the exit threshold. */
  lemma {:induction false} UnlocksArePaidFor(s: Servo, es: seq<Event>)
    requires s.lock.locked ==> s.lock.streak < LOCK_EXIT_STREAK
    ensures 4 * UnlockCount(s, es) + Credit(Run(s, es)) <= BadSamples(s, es) + Credit(s)
    ensures Credit(Run(s, es)) >= 0
    decreases |es|
  {
    if es != [] {
      CreditStep(s, es[0]);
      UnlocksArePaidFor(Step(s, es[0]), es[1..]);
    }
  }

  /** From power-up: unlock transitions number at most a quarter of the bad samples. */
  lemma UnlocksAtMostAQuarter(base: Word32, es: seq<Event>)
    ensures 4 * UnlockCount(Initial(base), es) <= BadSamples(Initial(base), es)
  {
    UnlocksArePaidFor(Initial(base), es);
  }

  /** Up to three bad samples in a row, whatever their size, never cost the lock. */
  lemma {:induction false} ThreeBadSamplesKeepLock(s: Servo, offs: seq<int>)
    requires s.feed.bound && s.pi.havePrev && s.lock.locked
    requires s.lock.streak + |offs| <= 3
    ensures Samples(s, offs).lock.locked
    decreases |offs|
  {
    if offs != [] {
      ThreeBadSamplesKeepLock(Sample(s, offs[0]), offs[1..]);
    }
  }

  // ---------------------------------------------------------------------------
  // Exactly when the servo is locked
  // ---------------------------------------------------------------------------

  /** The rate errors of samples after one at `prev`. */
  function RateErrors(prev: int, offs: seq<int>): (ds: seq<int>)
    ensures |ds| == |offs|
    decreases |offs|
  {
    if offs == [] then [] else [offs[0] - prev] + RateErrors(offs[0], offs[1..])
  }

  predicate Bad(d: int) { Abs(d) > 10_000 }

  predicate Good(d: int) { Abs(d) < 2_000 }

  /** The last `n` rate errors were all bad. */
  ghost predicate BadTail(ds: seq<int>, n: int) {
    0 <= n <= |ds| && forall k :: |ds| - n <= k < |ds| ==> Bad(ds[k])
  }

  predicate FourBad(ds: seq<int>, k: nat)
    requires k + 4 <= |ds|
  {
    Bad(ds[k]) && Bad(ds[k + 1]) && Bad(ds[k + 2]) && Bad(ds[k + 3])
  }

  /** Four bad ones in a row, the first of them at index i or later. */
  ghost predicate FourBadFrom(ds: seq<int>, i: nat) {
    exists k: nat :: i <= k <= |ds| - 4 && FourBad(ds, k)
  }

  /** Some good rate error has not been followed by four bad ones in a row. */
  ghost predicate EnteredAndKept(ds: seq<int>) {
    exists j: nat :: j < |ds| && Good(ds[j]) && !FourBadFrom(ds, j + 1)
  }

  lemma FourBadGrows(ds: seq<int>, d: int, i: nat)
    requires i <= |ds|
    ensures FourBadFrom(ds + [d], i) <==> FourBadFrom(ds, i) || (BadTail(ds + [d], 4) && i <= |ds| - 3)
  {
    var es := ds + [d];
    if FourBadFrom(es, i) {
      var k: nat :| i <= k <= |es| - 4 && FourBad(es, k);
      if k <= |ds| - 4 {
        assert FourBad(ds, k);
      }
    }
    if FourBadFrom(ds, i) {
      var k: nat :| i <= k <= |ds| - 4 && FourBad(ds, k);
      assert FourBad(es, k);
    }
    if BadTail(es, 4) && i <= |ds| - 3 {
      assert FourBad(es, |ds| - 3);
    }
  }

  /** The index at which the lock was entered, and the bad ones since the last that was not. */
  ghost predicate LockAt(l: Lock, ds: seq<int>, j: nat) {
    && j < |ds| && Good(ds[j]) && !FourBadFrom(ds, j + 1)
    && l.streak < LOCK_EXIT_STREAK && BadTail(ds, l.streak)
    && l.streak < |ds| - j && !Bad(ds[|ds| - 1 - l.streak])
  }

  ghost predicate LockInv(l: Lock, ds: seq<int>) {
    if l.locked then exists j: nat :: LockAt(l, ds, j) else !EnteredAndKept(ds)
  }

  /** Four bad ones at the end come after the last that was not. */
  lemma TailIsShort(l: Lock, ds: seq<int>, d: int, j: nat)
    requires LockAt(l, ds, j)
    ensures BadTail(ds + [d], 4) <==> l.streak == 3 && Bad(d)
  {
    var es := ds + [d];
    assert es[|ds| - 1 - l.streak] == ds[|ds| - 1 - l.streak];
    if BadTail(es, 4) {
      assert |ds| - 1 - l.streak < |es| - 4;
      assert Bad(es[|ds|]);
    }
    if l.streak == 3 && Bad(d) {
      forall k | |es| - 4 <= k < |es|
        ensures Bad(es[k])
      {
        assert k < |ds| ==> es[k] == ds[k] && Bad(ds[k]);
      }
      assert BadTail(es, 4);
    }
  }

  lemma LockedStays(l: Lock, ds: seq<int>, d: int, j: nat)
    requires l.locked && LockAt(l, ds, j)
    ensures LockInv(NextLock(l, Abs(d)), ds + [d])
  {
    var es, m := ds + [d], NextLock(l, Abs(d));
    TailIsShort(l, ds, d, j);
    if m.locked {
      FourBadGrows(ds, d, j + 1);
      assert LockAt(m, es, j);
    } else {
      forall i: nat | i < |es| && Good(es[i])
        ensures FourBadFrom(es, i + 1)
      {
        assert !Bad(es[i]) && i < |es| - 4;
        FourBadGrows(ds, d, i + 1);
      }
    }
  }

  lemma UnlockedStep(l: Lock, ds: seq<int>, d: int)
    requires !l.locked && !EnteredAndKept(ds)
    ensures LockInv(NextLock(l, Abs(d)), ds + [d])
  {
    var es, m := ds + [d], NextLock(l, Abs(d));
    if m.locked {
      assert LockAt(m, es, |ds|);
    } else {
      forall i: nat | i < |es| && Good(es[i])
        ensures FourBadFrom(es, i + 1)
      {
        assert i < |ds| && es[i] == ds[i];
        FourBadGrows(ds, d, i + 1);
      }
    }
  }

  lemma {:induction false} ErrorsAppend(prev: int, offs: seq<int>, off: int)
    ensures RateErrors(prev, offs + [off]) ==
              RateErrors(prev, offs) + [off - (if offs == [] then prev else offs[|offs| - 1])]
    decreases |offs|
  {
    if offs != [] {
      assert (offs + [off])[1..] == offs[1..] + [off];
      ErrorsAppend(offs[0], offs[1..], off);
    }
  }

  lemma {:induction false} LockFollows(s: Servo, offs: seq<int>)
    requires Running(s) && !s.lock.locked
    ensures LockInv(Samples(s, offs).lock, RateErrors(s.pi.prev, offs))
    decreases |offs|
  {
    if offs != [] {
      var n := |offs| - 1;
      LockFollows(s, offs[..n]);
      SamplesKeepRunning(s, offs[..n]);
      assert offs == offs[..n] + [offs[n]];
      SamplesAppend(s, offs[..n], offs[n]);
      ErrorsAppend(s.pi.prev, offs[..n], offs[n]);
      var m, ds := Samples(s, offs[..n]), RateErrors(s.pi.prev, offs[..n]);
      LockMoves(m, offs[n], ds);
    }
  }

  lemma LockMoves(m: Servo, off: int, ds: seq<int>)
    requires Running(m) && LockInv(m.lock, ds)
    ensures LockInv(Sample(m, off).lock, ds + [off - m.pi.prev])
  {
    var d := off - m.pi.prev;
    assert Sample(m, off).lock == NextLock(m.lock, Abs(d));
    if m.lock.locked {
      var j :| LockAt(m.lock, ds, j);
      LockedStays(m.lock, ds, d, j);
    } else {
      UnlockedStep(m.lock, ds, d);
    }
  }

  /**
   Over any samples from an unlocked servo: it is locked now if and only if some rate error below
   2,000 ns has not been followed by four in a row beyond 10,000 ns.
   */
  lemma LockedExactly(s: Servo, offs: seq<int>)
    requires Running(s) && !s.lock.locked
    ensures Samples(s, offs).lock.locked <==> EnteredAndKept(RateErrors(s.pi.prev, offs))
  {
    LockFollows(s, offs);
    var l, ds := Samples(s, offs).lock, RateErrors(s.pi.prev, offs);
    if l.locked {
      var j :| LockAt(l, ds, j);
    }
  }

  // ---------------------------------------------------------------------------
  // Bind, unbind and the watchdog over runs
  // ---------------------------------------------------------------------------

  /**
   A bind starts afresh: whatever the servo held, the drift counts from the first sample on, and until
   the second one the oscillator keeps the rate it had.
   */
  lemma BindStartsAfresh(s: Servo, origin: int, offs: seq<int>, off: int, all: seq<int>)
    requires s.osc.base >= 1 && WithinClamp(origin, offs + [off]) && all == [origin] + (offs + [off])
    ensures Sample(Bind(s), origin).osc == s.osc
    ensures var t := Samples(Bind(s), all);
            && t.pi.integral == off - origin
            && Answers(s.osc.base, t.osc.nco, off - (if offs == [] then origin else offs[|offs| - 1]), off - origin)
            && (t.lock.locked <==> EnteredAndKept(RateErrors(origin, offs + [off])))
  {
    IncrementFollowsDrift(Bind(s), origin, offs, off, all);
    assert all[1..] == offs + [off];
    LockedExactly(Sample(Bind(s), origin), offs + [off]);
  }

  /** After an unbind, and until a bind, nothing moves the oscillator off its nominal rate. */
  lemma {:induction false} UnboundStaysNominal(s: Servo, es: seq<Event>)
    requires !s.feed.bound && s.osc.nco == s.osc.base && s.osc.inc == s.osc.base && !s.lock.locked
    requires forall k :: 0 <= k < |es| ==> !es[k].BindEvent?
    ensures var t := Run(s, es); !t.feed.bound && t.osc == s.osc && !t.lock.locked
    decreases |es|
  {
    if es != [] {
      UnboundStaysNominal(Step(s, es[0]), es[1..]);
    }
  }

  lemma UnbindReturns(s: Servo, es: seq<Event>)
    requires forall k :: 0 <= k < |es| ==> !es[k].BindEvent?
    ensures var t := Run(Unbind(s), es);
            !t.feed.bound && t.osc.nco == s.osc.base && t.osc.base == s.osc.base && !t.lock.locked
  {
    UnboundStaysNominal(Unbind(s), es);
  }

  function Ticks(s: Servo, nows: seq<Word32>): Servo
    decreases |nows|
  {
    if nows == [] then s else Ticks(Watchdog(s, nows[0]), nows[1..])
  }

  /** Some tick comes more than a second after `mark`. */
  ghost predicate Late(mark: Word32, nows: seq<Word32>) {
    exists k :: 0 <= k < |nows| && U32(nows[k] - mark) > 1000
  }

  /** The stale stream is dropped: nominal rate, no lock, and the next sample fixes a new origin. */
  predicate Dropped(s: Servo, t: Servo) {
    && t.feed.bound && t.osc.base == s.osc.base && t.osc.nco == s.osc.base && t.osc.inc == s.osc.base
    && !t.lock.locked && !t.pi.havePrev && t.pi.integral == 0
  }

  /** The servo itself is left alone. */
  predicate LeftAlone(s: Servo, t: Servo) {
    t.feed == s.feed && t.osc == s.osc && t.pi == s.pi && t.lock == s.lock
  }

  lemma LateSplits(mark: Word32, nows: seq<Word32>)
    requires nows != []
    ensures Late(mark, nows) <==> U32(nows[0] - mark) > 1000 || Late(mark, nows[1..])
  {
    if Late(mark, nows[1..]) {
      var k :| 0 <= k < |nows[1..]| && U32(nows[1..][k] - mark) > 1000;
      assert U32(nows[k + 1] - mark) > 1000;
    }
    if Late(mark, nows) {
      var k :| 0 <= k < |nows| && U32(nows[k] - mark) > 1000;
      if k > 0 {
        assert U32(nows[1..][k - 1] - mark) > 1000;
      }
    }
  }

  /** Ticks that find the count they saw before. */
  lemma {:induction false} QuietTicks(s: Servo, nows: seq<Word32>)
    requires s.feed.bound && s.watch.rxCount == s.watch.snapshot
    ensures var t := Ticks(s, nows);
            if !s.watch.resetActive && Late(s.watch.checkMs, nows) then Dropped(s, t) else LeftAlone(s, t)
    decreases |nows|
  {
    if nows != [] {
      LateSplits(s.watch.checkMs, nows);
      QuietTicks(Watchdog(s, nows[0]), nows[1..]);
    }
  }

  /**
   After the last sample of a stream: if the first tick finds a new count, the stream is dropped if and
   only if a later tick comes more than a second after that one. A count that equals the one seen last
   goes unnoticed: then only a reset still pending since an earlier tick can drop it.
   */
  lemma StaleExactly(s: Servo, first: Word32, nows: seq<Word32>)
    requires s.feed.bound
    ensures var t := Ticks(s, [first] + nows);
            if s.watch.rxCount != s.watch.snapshot then
              if Late(first, nows) then Dropped(s, t) else LeftAlone(s, t)
            else if !s.watch.resetActive && Late(s.watch.checkMs, [first] + nows) then Dropped(s, t)
            else LeftAlone(s, t)
  {
    var all := [first] + nows;
    assert all[1..] == nows;
    if s.watch.rxCount != s.watch.snapshot {
      QuietTicks(Watchdog(s, first), nows);
    } else {
      QuietTicks(s, all);
    }
  }

  const FIRST_STREAM := [BindEvent, SampleEvent(0), SampleEvent(0), WatchdogEvent(0)]

  const SECOND_STREAM := [UnbindEvent, BindEvent, SampleEvent(0), SampleEvent(3200)]

  function AfterFirst(): Servo {
    Servo(Feed(true, true, 0), Loop(true, 0, 0), Osc(4_123_169, 4_123_169, 4_123_169), Lock(true, 0, 1),
          Watch(2, 2, 2, 0, false))
  }

  /**
   An input: two samples, a tick, unbind, bind and two samples again. The count is 2 as at the tick, so
   however long the second stream is silent, the oscillator keeps the rate of its last sample.
   */
  lemma RestartGoesUnnoticed(nows: seq<Word32>)
    ensures var s := Run(Initial(4_123_169), FIRST_STREAM + SECOND_STREAM);
            && s.osc.base == 4_123_169 && s.osc.nco == 4_119_869
            && Ticks(s, nows).osc.nco == 4_119_869
  {
    var es := FIRST_STREAM + SECOND_STREAM;
    var s4 := AfterFirst();
    var s8 := Servo(Feed(true, true, 3200), Loop(true, 3200, 3200), Osc(4_123_169, 4_119_869, 4_119_869),
        Lock(false, 0, 1), Watch(2, 2, 2, 0, true));
    AfterFirstSteps();
    AfterSecondSteps(s8);
    RunFour(Initial(4_123_169), es, s4);
    assert es[4..] == SECOND_STREAM && SECOND_STREAM[4..] == [];
    RunFour(s4, SECOND_STREAM, s8);
    QuietTicks(s8, nows);
  }

  lemma AfterFirstSteps()
    ensures Step(Step(Step(Step(Initial(4_123_169), BindEvent), SampleEvent(0)), SampleEvent(0)), WatchdogEvent(0)) ==
              AfterFirst()
  {
  }

  lemma AfterSecondSteps(t: Servo)
    requires t == Servo(Feed(true, true, 3200), Loop(true, 3200, 3200), Osc(4_123_169, 4_119_869, 4_119_869),
                        Lock(false, 0, 1), Watch(2, 2, 2, 0, true))
    ensures Step(Step(Step(Step(AfterFirst(), UnbindEvent), BindEvent), SampleEvent(0)), SampleEvent(3200)) == t
  {
  }

  lemma RunTail(s: Servo, es: seq<Event>)
    requires es != []
    ensures Run(s, es) == Run(Step(s, es[0]), es[1..])
  {
  }

  lemma RunFour(s: Servo, es: seq<Event>, t: Servo)
    requires |es| >= 4 && t == Step(Step(Step(Step(s, es[0]), es[1]), es[2]), es[3])
    ensures Run(s, es) == Run(t, es[4..])
  {
    var s1 := Step(s, es[0]);
    var s2 := Step(s1, es[1]);
    var s3 := Step(s2, es[2]);
    RunTail(s, es);
    RunTail(s1, es[1..]);
    RunTail(s2, es[2..]);
    RunTail(s3, es[3..]);
    assert es[1..][1..] == es[2..] && es[2..][1..] == es[3..] && es[3..][1..] == es[4..];
  }

  /** A bind restarts the counters; the first sample is counted as received but is no servo step. */
  lemma BindCountsFromZero(s: Servo, offs: seq<int>)
    requires offs != []
    ensures var t := Samples(Bind(s), offs);
            t.watch.rxCount == U32(|offs|) && t.watch.hwRxCount == U32(|offs|) && t.lock.steps == U32(|offs| - 1)
  {
    SamplesAreCounted(Sample(Bind(s), offs[0]), offs[1..]);
  }

  // ---------------------------------------------------------------------------
  // Two sources of samples
  // ---------------------------------------------------------------------------

  /** A sample the CPU received and the servo run after it: the same but for the hardware's counter. */
  lemma PathsAgree(s: Servo, off: int)
    ensures ServoUpdate(Received(s, off)) ==
              if s.feed.bound then Sample(s, off).(watch := Sample(s, off).watch.(hwRxCount := s.watch.hwRxCount))
              else s
  {
  }

  function Offsets(fifo: seq<Pair>): (offs: seq<int>)
    ensures |offs| == |fifo|
  {
    seq(|fifo|, k requires 0 <= k < |fifo| => PairOffset(fifo[k]))
  }

  /** Draining the FIFO is running the servo on its offsets in order. */
  lemma {:induction false} PumpIsSamples(s: Servo, fifo: seq<Pair>)
    ensures Pump(s, fifo) == Samples(s, Offsets(fifo))
    decreases |fifo|
  {
    if fifo != [] {
      assert Offsets(fifo)[1..] == Offsets(fifo[1..]);
      PumpIsSamples(Sample(s, PairOffset(fifo[0])), fifo[1..]);
    }
  }

  /** The offset is the 64-bit difference of AVTP time and receive time, as a signed number. */
  lemma OffsetIsDifference(p: Pair)
    ensures -0x8000_0000_0000_0000 <= PairOffset(p) < 0x8000_0000_0000_0000
    ensures (p.avtp - 1_000_000_000 * p.sec - p.ns - PairOffset(p)) % 0x1_0000_0000_0000_0000 == 0
  {
  }
}
