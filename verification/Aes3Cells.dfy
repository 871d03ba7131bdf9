/**
 From clocks to cells: at 50 MHz and 48 kHz a cell lasts eight or nine clocks. As long as no two
 neighbouring cells last nine, the tracked cell width stays eight or nine for ever, every run of
 one, two or three cells is classified as SHORT, LONG or VLONG, and the receiver behaves, clock by
 clock, as the decoder of Aes3Streams does cell by cell.
 */
module Aes3Cells {
  import opened Aes3Line
  import opened Aes3Decode
  import opened Aes3Rx

  // ---------------------------------------------------------------------------
  // Runs behind the synchroniser
  // ---------------------------------------------------------------------------

  /** `widths` collects every value the tracked cell width has had. */
  datatype Sys = Sys(c: Core, h: Hist, widths: set<nat>)

  function Step(s: Sys, level: bool): Sys {
    var c := NextCore(s.c, false, level);
    Sys(c, Record(s.h, c.f, c.o), s.widths + {c.cellW})
  }

  function CoreRun(s: Sys, levels: seq<bool>): Sys
    decreases |levels|
  {
    if levels == [] then s else Step(CoreRun(s, levels[..|levels| - 1]), levels[|levels| - 1])
  }

  lemma RunOne(s: Sys, levels: seq<bool>, v: bool)
    ensures CoreRun(s, levels + [v]) == Step(CoreRun(s, levels), v)
  {
    assert (levels + [v])[..|levels|] == levels;
  }

  lemma LastOfConcat(a: seq<bool>, b: seq<bool>)
    requires b != []
    ensures a + b == (a + b[..|b| - 1]) + [b[|b| - 1]]
  {
  }

  lemma {:induction false} RunSplits(s: Sys, a: seq<bool>, b: seq<bool>)
    ensures CoreRun(s, a + b) == CoreRun(CoreRun(s, a), b)
    decreases |b|
  {
    if b == [] {
      assert a + b == a;
    } else {
      RunSplits(s, a, b[..|b| - 1]);
      LastOfConcat(a, b);
      RunOne(s, a + b[..|b| - 1], b[|b| - 1]);
    }
  }

  lemma HoldOne(s: Sys, v: bool, n: nat)
    ensures CoreRun(s, Hold(v, n + 1)) == Step(CoreRun(s, Hold(v, n)), v)
  {
    assert Hold(v, n + 1) == Hold(v, n) + [v];
    RunOne(s, Hold(v, n), v);
  }

  /** The decoder inside the receiver, pulses aside. */
  function View(s: Sys): Dec { Dec(s.c.f, Quiet(s.c.o), s.h) }

  /** No interval and no completed subframe is waiting to be acted on. */
  predicate Rest(c: Core) { !c.iv && !Done(c.f) }

  // ---------------------------------------------------------------------------
  // The cell width
  // ---------------------------------------------------------------------------

  /**
   The tracked width is 8, or it is 9 since at most `age` clocks: the decay counter restarts when
   the width grows, and the next eight-clock interval takes it back.
   */
  predicate WidthOk(c: Core, age: nat) {
    && c.decay < DECAY
    && (c.cellW == 8 || (c.cellW == 9 && c.decay <= age))
  }

  lemma WidthKept(c: Core, age: nat, v: bool)
    requires WidthOk(c, age) && age < DECAY - 1
    requires c.iv ==> c.interval >= 8
    ensures WidthOk(NextCore(c, false, v), if c.iv && c.interval == 8 then 0 else age + 1)
  {
  }

  /** Intervals of one, two and three cells of eight or nine clocks are told apart by both widths. */
  lemma RunsClassify(n: nat, interval: nat, cellW: nat)
    requires 1 <= n <= 3 && 8 * n <= interval <= 9 * n && 8 <= cellW <= 9
    ensures Classify(interval, cellW) == TypeOf(n)
  {
  }

  /** The limits of SHORT, LONG and VLONG at a width of 4 or 5 clocks (96 kHz) and of 8 or 9 (48 kHz). */
  lemma IntervalsToldApart(n: nat)
    ensures Classify(n, 4) == if n < 6 then S else if n < 10 then L else if n < 16 then V else E
    ensures Classify(n, 5) == if n < 7 then S else if n < 12 then L else if n < 20 then V else E
    ensures Classify(n, 8) == if n < 12 then S else if n < 20 then L else if n < 32 then V else E
    ensures Classify(n, 9) == if n < 13 then S else if n < 22 then L else if n < 36 then V else E
  {
  }

  // ---------------------------------------------------------------------------
  // The clocks of a cell
  // ---------------------------------------------------------------------------

  lemma IdleClock(s: Sys, age: nat, t: Sys)
    requires t == Step(s, s.c.prev)
    requires Rest(s.c) && s.c.timer < 128 && WidthOk(s.c, age) && age < DECAY - 1
    ensures Rest(t.c) && t.c.prev == s.c.prev && t.c.timer == s.c.timer + 1
    ensures View(t) == View(s) && WidthOk(t.c, age + 1) && t.widths <= s.widths + {8, 9}
  {
    WidthKept(s.c, age, s.c.prev);
  }

  /** First clock after a change: the interval is measured. */
  lemma EdgeClock(s: Sys, age: nat, t: Sys)
    requires t == Step(s, !s.c.prev)
    requires Rest(s.c) && 3 <= s.c.timer < 128 && WidthOk(s.c, age) && age < DECAY - 1
    ensures t.c.prev == !s.c.prev && t.c.timer == 1 && t.c.iv && t.c.interval == s.c.timer && !Done(t.c.f)
    ensures View(t) == View(s) && WidthOk(t.c, age + 1) && t.widths <= s.widths + {8, 9}
  {
    WidthKept(s.c, age, !s.c.prev);
  }

  /** Second clock: it is classified and acted on. */
  lemma FeedClock(s: Sys, age: nat, n: nat, t: Sys)
    requires t == Step(s, s.c.prev)
    requires s.c.iv && !Done(s.c.f) && s.c.timer == 1 && WidthOk(s.c, age) && age < DECAY - 1
    requires 1 <= n <= 3 && 8 * n <= s.c.interval <= 9 * n
    ensures t.c.prev == s.c.prev && t.c.timer == 2 && !t.c.iv
    ensures View(t) == Dec(EdgeFsm(s.c.f, TypeOf(n)), EdgeReport(s.c.f, Quiet(s.c.o), TypeOf(n)), s.h)
    ensures WidthOk(t.c, if s.c.interval == 8 then 0 else age + 1) && t.widths <= s.widths + {8, 9}
  {
    WidthKept(s.c, age, s.c.prev);
    RunsClassify(n, s.c.interval, s.c.cellW);
  }

  /** Third clock: a subframe it completed is reported. */
  lemma CloseClock(s: Sys, age: nat, t: Sys)
    requires t == Step(s, s.c.prev)
    requires !s.c.iv && s.c.timer == 2 && WidthOk(s.c, age) && age < DECAY - 1
    ensures Rest(t.c) && t.c.prev == s.c.prev && t.c.timer == 3
    ensures View(t) == Close(View(s)) && WidthOk(t.c, age + 1) && t.widths <= s.widths + {8, 9}
  {
    WidthKept(s.c, age, s.c.prev);
  }

  lemma {:induction false} IdleClocks(s: Sys, age: nat, n: nat, t: Sys)
    requires t == CoreRun(s, Hold(s.c.prev, n))
    requires Rest(s.c) && s.c.timer + n <= 128 && WidthOk(s.c, age) && age + n < DECAY
    ensures Rest(t.c) && t.c.prev == s.c.prev && t.c.timer == s.c.timer + n
    ensures View(t) == View(s) && WidthOk(t.c, age + n) && t.widths <= s.widths + {8, 9}
    decreases n
  {
    if n == 0 {
      assert Hold(s.c.prev, 0) == [];
    } else {
      var m := CoreRun(s, Hold(s.c.prev, n - 1));
      IdleClocks(s, age, n - 1, m);
      HoldOne(s, s.c.prev, n - 1);
      IdleClock(m, age + n - 1, t);
    }
  }

  lemma HoldThree(s: Sys, v: bool)
    ensures CoreRun(s, Hold(v, 3)) == Step(Step(Step(s, v), v), v)
  {
    assert Hold(v, 0) == [];
    HoldOne(s, v, 0);
    HoldOne(s, v, 1);
    HoldOne(s, v, 2);
  }

  /** What the second and third clock make of an interval. */
  lemma FeedCloses(f: Fsm, o: Report, h: Hist, t: Interval, d: Dec)
    requires d == Dec(EdgeFsm(f, t), EdgeReport(f, o, t), h)
    ensures Close(d) == Feed(Dec(f, o, h), t)
  {
  }

  /** The three clocks s to a to b to t after a change. */
  lemma ThreeClocks(s: Sys, v: bool, a: Sys, b: Sys, t: Sys, age: nat, n: nat)
    requires v == !s.c.prev && a == Step(s, v) && b == Step(a, v) && t == Step(b, v)
    requires Rest(s.c) && 1 <= n <= 3 && 8 * n <= s.c.timer <= 9 * n && WidthOk(s.c, age) && age < DECAY - 4
    ensures Rest(t.c) && t.c.prev == v && t.c.timer == 3
    ensures View(t) == Feed(View(s), TypeOf(n))
    ensures WidthOk(t.c, if s.c.timer == 8 then 1 else age + 3) && t.widths <= s.widths + {8, 9}
  {
    EdgeClock(s, age, a);
    FeedClock(a, age + 1, n, b);
    CloseClock(b, if s.c.timer == 8 then 0 else age + 2, t);
    FeedCloses(a.c.f, Quiet(a.c.o), a.h, TypeOf(n), View(b));
  }

  // ---------------------------------------------------------------------------
  // Whole cells
  // ---------------------------------------------------------------------------

  /** The interval timer, and the clocks since an eight-clock interval took the width back to 8. */
  datatype Meter = Meter(timer: nat, age: nat)

  function MeterStep(m: Meter, flag: bool, clocks: nat): Meter {
    if flag then Meter(clocks, if m.timer == 8 then clocks else m.age + clocks)
    else Meter(m.timer + clocks, m.age + clocks)
  }

  /** The receiver between two cells, n cells after the last edge. */
  predicate Between(s: Sys, n: nat, m: Meter) {
    && Rest(s.c) && s.c.timer == m.timer && WidthOk(s.c, m.age)
    && 1 <= n <= 3 && 8 * n <= m.timer <= 9 * n
  }

  lemma HoldSplits(s: Sys, v: bool, n: nat, e: Sys)
    requires e == Step(Step(Step(s, v), v), v)
    ensures CoreRun(s, Hold(v, n + 3)) == CoreRun(e, Hold(v, n))
  {
    assert Hold(v, n + 3) == Hold(v, 3) + Hold(v, n);
    RunSplits(s, Hold(v, 3), Hold(v, n));
    HoldThree(s, v);
  }

  lemma WidthWidens(c: Core, age: nat, age': nat)
    requires WidthOk(c, age) && age <= age'
    ensures WidthOk(c, age')
  {
  }

  /** The rest of a cell whose first three clocks have dealt with the change. */
  lemma RestOfCell(e: Sys, v: bool, age: nat, rest: nat, t: Sys)
    requires Rest(e.c) && e.c.timer == 3 && e.c.prev == v && 5 <= rest <= 6
    requires WidthOk(e.c, age) && age < 4010
    requires t == CoreRun(e, Hold(v, rest))
    ensures Rest(t.c) && t.c.timer == rest + 3 && WidthOk(t.c, age + rest) && t.c.prev == v
    ensures View(t) == View(e) && t.widths <= e.widths + {8, 9}
  {
    IdleClocks(e, age, rest, t);
  }

  /** The state e after the first three clocks of a longer cell. */
  lemma FirstThree(s: Sys, v: bool, age: nat, n: nat, rest: nat) returns (e: Sys)
    requires v == !s.c.prev
    requires Rest(s.c) && 1 <= n <= 3 && 8 * n <= s.c.timer <= 9 * n && WidthOk(s.c, age) && age < DECAY - 4
    ensures CoreRun(s, Hold(v, rest + 3)) == CoreRun(e, Hold(v, rest))
    ensures Rest(e.c) && e.c.prev == v && e.c.timer == 3
    ensures View(e) == Feed(View(s), TypeOf(n))
    ensures WidthOk(e.c, if s.c.timer == 8 then 1 else age + 3) && e.widths <= s.widths + {8, 9}
  {
    var a := Step(s, v);
    var b := Step(a, v);
    e := Step(b, v);
    HoldSplits(s, v, rest, e);
    ThreeClocks(s, v, a, b, e, age, n);
  }

  lemma EdgeCellPasses(s: Sys, v: bool, age: nat, n: nat, rest: nat, t: Sys) returns (late: nat)
    requires Rest(s.c) && 1 <= n <= 3 && 8 * n <= s.c.timer <= 9 * n && WidthOk(s.c, age) && age < 4000
    requires 5 <= rest <= 6 && v == !s.c.prev
    requires t == CoreRun(s, Hold(v, rest + 3))
    ensures Rest(t.c) && t.c.timer == rest + 3 && t.c.prev == v
    ensures View(t) == Feed(View(s), TypeOf(n)) && t.widths <= s.widths + {8, 9}
    ensures late == (if s.c.timer == 8 then 1 else age + 3) && WidthOk(t.c, late + rest)
  {
    var e := FirstThree(s, v, age, n, rest);
    late := if s.c.timer == 8 then 1 else age + 3;
    RestOfCell(e, v, late, rest, t);
  }

  lemma CellPasses(s: Sys, n: nat, m: Meter, flag: bool, clocks: nat, t: Sys)
    requires Between(s, n, m) && 8 <= clocks <= 9 && m.age < 4000 && (!flag ==> n < 3)
    requires t == CoreRun(s, Hold(s.c.prev != flag, clocks))
    ensures Between(t, if flag then 1 else n + 1, MeterStep(m, flag, clocks))
    ensures t.c.prev == (s.c.prev != flag)
    ensures Rig(View(t), if flag then 1 else n + 1) == CellFeed(Rig(View(s), n), flag)
    ensures t.widths <= s.widths + {8, 9}
  {
    if flag {
      var rest: nat := if clocks == 8 then 5 else 6;
      var late := EdgeCellPasses(s, !s.c.prev, m.age, n, rest, t);
      WidthWidens(t.c, late + rest, MeterStep(m, true, clocks).age);
    } else {
      IdleClocks(s, m.age, clocks, t);
    }
  }

  function RunAfter(n: nat, flags: seq<bool>): nat
    decreases |flags|
  {
    if flags == [] then n else if flags[|flags| - 1] then 1 else RunAfter(n, flags[..|flags| - 1]) + 1
  }

  function MeterAfter(m: Meter, flags: seq<bool>, clocks: seq<nat>): Meter
    requires |clocks| == |flags|
    decreases |flags|
  {
    if flags == [] then m
    else
      var n := |flags| - 1;
      MeterStep(MeterAfter(m, flags[..n], clocks[..n]), flags[n], clocks[n])
  }

  /** No run is longer than three cells. */
  predicate TameRuns(n: nat, flags: seq<bool>)
    decreases |flags|
  {
    RunAfter(n, flags) <= 3 && (flags != [] ==> TameRuns(n, flags[..|flags| - 1]))
  }

  /** Eight-clock intervals never stay away for long. */
  predicate TameAges(m: Meter, flags: seq<bool>, clocks: seq<nat>)
    requires |clocks| == |flags|
    decreases |flags|
  {
    && MeterAfter(m, flags, clocks).age < 4000
    && (flags != [] ==> TameAges(m, flags[..|flags| - 1], clocks[..|flags| - 1]))
  }

  /** The refinement: clocks against cells, over streams of any length. */
  lemma {:induction false} CellsPass(s: Sys, n: nat, m: Meter, flags: seq<bool>, clocks: seq<nat>, t: Sys)
    requires Between(s, n, m) && |clocks| == |flags| && EightOrNine(clocks)
    requires TameRuns(n, flags) && TameAges(m, flags, clocks)
    requires t == CoreRun(s, Wave(s.c.prev, flags, clocks))
    ensures Between(t, RunAfter(n, flags), MeterAfter(m, flags, clocks))
    ensures t.c.prev == LevelAfter(s.c.prev, flags)
    ensures Rig(View(t), RunAfter(n, flags)) == CellsFeed(Rig(View(s), n), flags)
    ensures t.widths <= s.widths + {8, 9}
    decreases |flags|
  {
    if flags != [] {
      var k := |flags| - 1;
      var w := Wave(s.c.prev, flags[..k], clocks[..k]);
      var u := CoreRun(s, w);
      CellsPass(s, n, m, flags[..k], clocks[..k], u);
      var v := LevelAfter(s.c.prev, flags);
      RunSplits(s, w, Hold(v, clocks[k]));
      CellPasses(u, RunAfter(n, flags[..k]), MeterAfter(m, flags[..k], clocks[..k]), flags[k], clocks[k], t);
    }
  }

  // ---------------------------------------------------------------------------
  // A dead line
  // ---------------------------------------------------------------------------

  lemma {:induction false} TimerClimbs(s: Sys, v: bool, n: nat, t: Sys)
    requires n > 0 && t == CoreRun(s, Hold(v, n))
    ensures t.c.prev == v && (t.c.timer >= n || t.c.timer >= 128)
    decreases n
  {
    HoldOne(s, v, n - 1);
    if n > 1 {
      TimerClimbs(s, v, n - 1, CoreRun(s, Hold(v, n - 1)));
    }
  }

  /** From an edge on, the timer counts the clocks, up to 128. */
  lemma {:induction false} TimerCounts(s: Sys, v: bool, n: nat, t: Sys)
    requires n > 0 && v != s.c.prev && t == CoreRun(s, Hold(v, n))
    ensures t.c.prev == v && t.c.timer == if n < 128 then n else 128
    decreases n
  {
    HoldOne(s, v, n - 1);
    if n == 1 {
      assert Hold(v, 0) == [];
    } else {
      TimerCounts(s, v, n - 1, CoreRun(s, Hold(v, n - 1)));
    }
  }

  lemma SecondEdge(t: Sys, v: bool, u: Sys)
    requires v != t.c.prev && u == Step(t, v)
    ensures u.c.timer == 1 && u.c.iv == (t.c.timer >= 3) && u.c.interval == if u.c.iv then t.c.timer else t.c.interval
  {
  }

  /**
   What is measured, in every state: after a level held for n clocks between two edges, the second edge
   gives an interval of n clocks, 128 at most, if and only if n is three or more; a shorter pulse only
   restarts the timer.
   */
  lemma PulseMeasured(s: Sys, v: bool, n: nat, t: Sys, u: Sys)
    requires n > 0 && v != s.c.prev && t == CoreRun(s, Hold(v, n)) && u == Step(t, !v)
    ensures u.c.timer == 1 && u.c.iv == (n >= 3)
    ensures u.c.iv ==> u.c.interval == if n < 128 then n else 128
  {
    TimerCounts(s, v, n, t);
    SecondEdge(t, !v, u);
  }

  /**
   The tracked width at any cell length: every 4096 clocks it grows by one, up to 40; in every other
   clock a shorter interval of three clocks or more is taken over, and nothing else moves it.
   */
  lemma WidthMoves(s: Sys, v: bool, t: Sys)
    requires t == Step(s, v)
    ensures s.c.decay == 4095 && s.c.cellW < 40 ==> t.c.cellW == s.c.cellW + 1
    ensures s.c.decay != 4095 || s.c.cellW >= 40 ==>
              t.c.cellW == if s.c.iv && 3 <= s.c.interval < s.c.cellW then s.c.interval else s.c.cellW
    ensures t.c.decay == (s.c.decay + 1) % 4096
  {
  }

  /** The rate told with each subframe: 96 kHz cells last four or five clocks, 48 kHz cells eight or nine. */
  lemma RateTold(s: Sys, v: bool, t: Sys)
    requires Done(s.c.f) && s.c.timer < 128 && t == Step(s, v)
    ensures t.c.o.audio.subValid
    ensures 4 <= s.c.cellW <= 5 ==> t.c.o.lock.is96k
    ensures 6 <= s.c.cellW <= 9 ==> !t.c.o.lock.is96k
  {
  }

  /** An interval has just been measured, or a subframe completed, but not both. */
  predicate Apart(c: Core) { (c.iv ==> c.timer == 1) && !(c.iv && Done(c.f)) }

  /**
   A subframe is never completed in the clock in which an interval waits, so no VLONG is ever chained to
   the end of a subframe: completion follows an interval by one clock, intervals are three apart.
   */
  lemma {:induction false} NeverChained(s: Sys, levels: seq<bool>)
    requires Apart(s.c)
    ensures Apart(CoreRun(s, levels).c)
    decreases |levels|
  {
    if levels != [] {
      NeverChained(s, levels[..|levels| - 1]);
      StaysApart(CoreRun(s, levels[..|levels| - 1]).c, levels[|levels| - 1]);
    }
  }

  lemma StaysApart(c: Core, v: bool)
    requires Apart(c)
    ensures Apart(NextCore(c, false, v))
  {
  }

  /** Hunting without lock, and no pulse. */
  predicate Dead(c: Core) { c.f.state == HUNT && !c.o.lock.locked && c.o.lock.cnt == 0 && c.o == Quiet(c.o) }

  lemma DeadClock(s: Sys, v: bool, t: Sys)
    requires s.c.timer >= 128 && t == Step(s, v)
    ensures Dead(t.c) && (Dead(s.c) ==> t.h == s.h)
  {
  }

  lemma DeadAfter(s: Sys, v: bool, n: nat, w: Sys, t: Sys)
    requires n >= 128 && w == CoreRun(s, Hold(v, n)) && t == CoreRun(s, Hold(v, n + 1))
    ensures Dead(t.c) && (Dead(w.c) ==> t.h == w.h)
  {
    TimerClimbs(s, v, n, w);
    HoldOne(s, v, n);
    DeadClock(w, v, t);
  }

  /**
   A line without an edge for 129 clocks, whatever came before: the decoder hunts, the lock and all its
   points are gone, and until the next edge nothing more is reported.
   */
  lemma {:induction false} SilenceUnlocks(s: Sys, v: bool, n: nat, t: Sys, u: Sys)
    requires n >= 128 && t == CoreRun(s, Hold(v, 129)) && u == CoreRun(s, Hold(v, n + 1))
    ensures Dead(u.c) && u.h == t.h
    decreases n
  {
    var w := CoreRun(s, Hold(v, n));
    DeadAfter(s, v, n, w, u);
    if n > 128 {
      SilenceUnlocks(s, v, n - 1, t, w);
    }
  }
}
