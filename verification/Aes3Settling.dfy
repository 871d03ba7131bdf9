/**
 Self-stabilisation in clocks: a receiver that may hold anything at all - tracked cell width, timers,
 pending interval, decoder - on a line that carries subframes. The tracked width finds its way to the
 width of the cells, and from then on every subframe is reported exactly.
 */
module Aes3Settling {
  import opened Aes3Line
  import opened Aes3Decode
  import opened Aes3Rx
  import opened Aes3Cells
  import opened Aes3Timing
  import S = Aes3Streams

  /** Clocks in which a width of zero has decayed up to eight. */
  const CLIMB := 8 * DECAY

  // ---------------------------------------------------------------------------
  // The cell width, clock by clock
  // ---------------------------------------------------------------------------

  /**
   Where the width can be `t` clocks after some first edge, the last eight-clock interval lying no
   more than `age` clocks back: settled; still climbing from below; above and not yet snapped down; or
   above because a decay coincided with the snap.
   */
  predicate OnItsWay(c: Core, age: nat, t: nat) {
    && c.decay < DECAY
    && (|| WidthOk(c, age)
        || (c.cellW < 8 && t + (8 - c.cellW) * DECAY <= CLIMB + c.decay)
        || (c.cellW > 8 && t <= age)
        || (c.cellW > 8 && c.decay <= age && t <= age + DECAY))
  }

  lemma AnyWidthIsOnItsWay(c: Core, age: nat)
    requires c.decay < DECAY
    ensures OnItsWay(c, age, 0)
  {
  }

  lemma WayWidens(c: Core, age: nat, age': nat, t: nat, t': nat)
    requires OnItsWay(c, age, t) && age <= age' && t' <= t
    ensures OnItsWay(c, age', t')
  {
  }

  /** One clock, as long as intervals take eight clocks or more. */
  lemma WayKept(c: Core, age: nat, t: nat, v: bool)
    requires OnItsWay(c, age, t) && age < 4090 && (c.iv ==> c.interval >= 8)
    ensures OnItsWay(NextCore(c, false, v), if c.iv && c.interval == 8 then 0 else age + 1, t + 1)
  {
  }

  lemma WayEnds(c: Core, age: nat, t: nat)
    requires OnItsWay(c, age, t) && age < 4090 && t >= CLIMB
    ensures WidthOk(c, age)
  {
    assert c.cellW < 8 ==> (8 - c.cellW) * DECAY >= DECAY;
  }

  // ---------------------------------------------------------------------------
  // The clocks of a cell
  // ---------------------------------------------------------------------------

  lemma StillClock(s: Sys, age: nat, at: nat, t: Sys)
    requires t == Step(s, s.c.prev) && !s.c.iv && s.c.timer < 128 && OnItsWay(s.c, age, at) && age < 4090
    ensures Rest(t.c) && t.c.prev == s.c.prev && t.c.timer == s.c.timer + 1 && OnItsWay(t.c, age + 1, at + 1)
  {
    WayKept(s.c, age, at, s.c.prev);
  }

  lemma {:induction false} StillClocks(s: Sys, age: nat, at: nat, n: nat, t: Sys)
    requires t == CoreRun(s, Hold(s.c.prev, n)) && n > 0
    requires !s.c.iv && s.c.timer + n <= 128 && OnItsWay(s.c, age, at) && age + n < 4090
    ensures Rest(t.c) && t.c.prev == s.c.prev && t.c.timer == s.c.timer + n && OnItsWay(t.c, age + n, at + n)
    decreases n
  {
    HoldOne(s, s.c.prev, n - 1);
    if n == 1 {
      assert Hold(s.c.prev, 0) == [];
      StillClock(s, age, at, t);
    } else {
      var m := CoreRun(s, Hold(s.c.prev, n - 1));
      StillClocks(s, age, at, n - 1, m);
      StillClock(m, age + (n - 1), at + (n - 1), t);
    }
  }

  /** The change, and the clock in which the tracker sees the interval it ended. */
  lemma EdgeClocks(s: Sys, v: bool, age: nat, at: nat, a: Sys, b: Sys)
    requires v == !s.c.prev && a == Step(s, v) && b == Step(a, v)
    requires !s.c.iv && 8 <= s.c.timer < 128 && OnItsWay(s.c, age, at) && age < 4000
    ensures !b.c.iv && b.c.prev == v && b.c.timer == 2
    ensures OnItsWay(b.c, if s.c.timer == 8 then 0 else age + 2, at + 2)
  {
    WayKept(s.c, age, at, v);
    WayKept(a.c, age + 1, at + 1, v);
  }

  lemma HoldTwo(s: Sys, v: bool, n: nat, a: Sys, b: Sys)
    requires a == Step(s, v) && b == Step(a, v)
    ensures CoreRun(s, Hold(v, n + 2)) == CoreRun(b, Hold(v, n))
  {
    assert Hold(v, n + 2) == Hold(v, 2) + Hold(v, n);
    RunSplits(s, Hold(v, 2), Hold(v, n));
    assert Hold(v, 0) == [];
    HoldOne(s, v, 0);
    HoldOne(s, v, 1);
  }

  /** The clocks s to b deal with the change, those to t only pass. */
  lemma EdgeCell(s: Sys, v: bool, age: nat, at: nat, rest: nat, now: nat, t: Sys)
    requires v == !s.c.prev && 6 <= rest <= 7 && t == CoreRun(s, Hold(v, rest + 2))
    requires !s.c.iv && 8 <= s.c.timer < 128 && OnItsWay(s.c, age, at) && age < 4000
    requires now == if s.c.timer == 8 then 0 else age + 2
    ensures Rest(t.c) && t.c.prev == v && t.c.timer == rest + 2 && OnItsWay(t.c, now + rest, at + 2 + rest)
  {
    var a := Step(s, v);
    var b := Step(a, v);
    HoldTwo(s, v, rest, a, b);
    EdgeClocks(s, v, age, at, a, b);
    StillClocks(b, now, at + 2, rest, t);
  }

  /** Between two cells, n after the last edge and `at` clocks after the first one. */
  predicate Amid(s: Sys, n: nat, m: Meter, at: nat) {
    && Rest(s.c) && s.c.timer == m.timer && OnItsWay(s.c, m.age, at)
    && 1 <= n <= 3 && 8 * n <= m.timer <= 9 * n
  }

  lemma EdgeCellOn(s: Sys, n: nat, m: Meter, at: nat, rest: nat, now: nat, clocks: nat, next: Meter, t: Sys)
    requires Amid(s, n, m, at) && 6 <= rest <= 7 && clocks == rest + 2 && m.age < 4000
    requires now == (if m.timer == 8 then 0 else m.age + 2) && next == MeterStep(m, true, clocks)
    requires t == CoreRun(s, Hold(!s.c.prev, clocks))
    ensures Amid(t, 1, next, at + 8) && t.c.prev == !s.c.prev
  {
    EdgeCell(s, !s.c.prev, m.age, at, rest, now, t);
    WayWidens(t.c, now + rest, next.age, at + 2 + rest, at + 8);
  }

  lemma StillCellOn(s: Sys, n: nat, m: Meter, at: nat, clocks: nat, t: Sys)
    requires Amid(s, n, m, at) && n < 3 && 8 <= clocks <= 9 && m.age < 4000
    requires t == CoreRun(s, Hold(s.c.prev, clocks))
    ensures Amid(t, n + 1, MeterStep(m, false, clocks), at + 8) && t.c.prev == s.c.prev
  {
    StillClocks(s, m.age, at, clocks, t);
    WayWidens(t.c, m.age + clocks, m.age + clocks, at + clocks, at + 8);
  }

  lemma OneCellOn(s: Sys, n: nat, m: Meter, at: nat, flag: bool, clocks: nat, t: Sys)
    requires Amid(s, n, m, at) && 8 <= clocks <= 9 && (!flag ==> n < 3)
    requires m.age < 4000 && t == CoreRun(s, Hold(s.c.prev != flag, clocks))
    ensures Amid(t, if flag then 1 else n + 1, MeterStep(m, flag, clocks), at + 8)
    ensures t.c.prev == (s.c.prev != flag)
  {
    if flag {
      EdgeCellOn(s, n, m, at, clocks - 2, if m.timer == 8 then 0 else m.age + 2, clocks, MeterStep(m, true, clocks), t);
    } else {
      StillCellOn(s, n, m, at, clocks, t);
    }
  }

  /** One more cell at the end. */
  lemma {:induction false} LastCellOn(s: Sys, n: nat, m: Meter, flags: seq<bool>, clocks: seq<nat>, k: nat, u: Sys, t: Sys)
    requires |flags| == |clocks| == k + 1 && 8 <= clocks[k] <= 9
    requires TameRuns(n, flags) && TameAges(m, flags, clocks)
    requires u == CoreRun(s, Wave(s.c.prev, flags[..k], clocks[..k])) && t == CoreRun(s, Wave(s.c.prev, flags, clocks))
    requires Amid(u, RunAfter(n, flags[..k]), MeterAfter(m, flags[..k], clocks[..k]), 8 * k)
    requires u.c.prev == LevelAfter(s.c.prev, flags[..k])
    ensures Amid(t, RunAfter(n, flags), MeterAfter(m, flags, clocks), 8 * k + 8)
    ensures t.c.prev == LevelAfter(s.c.prev, flags)
  {
    RunSplits(s, Wave(s.c.prev, flags[..k], clocks[..k]), Hold(LevelAfter(s.c.prev, flags), clocks[k]));
    OneCellOn(u, RunAfter(n, flags[..k]), MeterAfter(m, flags[..k], clocks[..k]), 8 * k, flags[k], clocks[k], t);
  }

  lemma {:induction false} CellsOn(s: Sys, n: nat, m: Meter, flags: seq<bool>, clocks: seq<nat>, t: Sys)
    requires Amid(s, n, m, 0) && |clocks| == |flags| && EightOrNine(clocks)
    requires TameRuns(n, flags) && TameAges(m, flags, clocks)
    requires t == CoreRun(s, Wave(s.c.prev, flags, clocks))
    ensures Amid(t, RunAfter(n, flags), MeterAfter(m, flags, clocks), 8 * |flags|)
    ensures t.c.prev == LevelAfter(s.c.prev, flags)
    decreases |flags|
  {
    if flags != [] {
      var k := |flags| - 1;
      var u := CoreRun(s, Wave(s.c.prev, flags[..k], clocks[..k]));
      CellsOn(s, n, m, flags[..k], clocks[..k], u);
      LastCellOn(s, n, m, flags, clocks, k, u, t);
    }
  }

  // ---------------------------------------------------------------------------
  // From anywhere
  // ---------------------------------------------------------------------------

  /** The first cell after a change, whatever was before. */
  lemma FirstClocksAnywhere(s: Sys, v: bool, a: Sys, b: Sys)
    requires v == !s.c.prev && a == Step(s, v) && b == Step(a, v) && s.c.decay < DECAY
    ensures !b.c.iv && b.c.prev == v && b.c.timer == 2 && b.c.decay < DECAY
  {
  }

  lemma FirstCellAnywhere(s: Sys, v: bool, rest: nat, clocks: nat, m: Meter, t: Sys)
    requires v == !s.c.prev && s.c.decay < DECAY && 6 <= rest <= 7 && clocks == rest + 2
    requires t == CoreRun(s, Hold(v, clocks)) && m.timer == clocks
    ensures Amid(t, 1, m, 0) && t.c.prev == v
  {
    var a := Step(s, v);
    var b := Step(a, v);
    HoldTwo(s, v, rest, a, b);
    FirstClocksAnywhere(s, v, a, b);
    AnyWidthIsOnItsWay(b.c, 0);
    StillClocks(b, 0, 0, rest, t);
    AnyWidthIsOnItsWay(t.c, m.age);
  }

  /** Subframes that give any width the time to settle. */
  const SETTLING := 64

  /** The cells of `before` after its first, and the first cell of what follows. */
  function HeadOf(before: seq<Subframe>): seq<bool>
    requires before != []
  {
    AllFlags(before)[1..] + [true]
  }

  lemma Rearrange(a: seq<bool>, b: seq<bool>, q: seq<bool>)
    requires a != [] && a[0] && b + [true] == [true] + q
    ensures (a + b) + [true] == [true] + ((a[1..] + [true]) + q)
  {
    assert a == [true] + a[1..];
    assert (a + b) + [true] == a + (b + [true]);
    assert a + ([true] + q) == (a + [true]) + q;
  }

  lemma StreamParts(before: seq<Subframe>, first: Subframe, later: seq<Subframe>)
    requires before != []
    ensures AllFlags(before + ([first] + later)) + [true] == [true] + (HeadOf(before) + TailOf(first, later))
    ensures AllFlags(before) + [true] == [true] + HeadOf(before)
  {
    var rest := [first] + later;
    FlagsConcat(before, rest);
    TailFollows(first, later, AllFlags(rest) + [true]);
    assert before == [before[0]] + before[1..];
    StartsWithEdge(before[0], before[1..]);
    Rearrange(AllFlags(before), AllFlags(rest), TailOf(first, later));
    Rearrange(AllFlags(before), [], []);
    assert AllFlags(before) + [] == AllFlags(before) && HeadOf(before) + [] == HeadOf(before);
  }

  /** The whole stream is tame, cut after the first cell and where `before` ends. */
  lemma PartsAreTame(before: seq<Subframe>, first: Subframe, later: seq<Subframe>, c: nat, head: seq<nat>,
      tail: seq<nat>, m: Meter)
    requires before != [] && Alternates(before + ([first] + later)) && m == MeterStep(Meter(9, 500), true, c)
    requires |head| == |HeadOf(before)| && |tail| == |TailOf(first, later)|
    requires EightOrNine([c] + (head + tail)) && NoTwoNines([c] + (head + tail))
    ensures TameRuns(1, HeadOf(before)) && TameAges(m, HeadOf(before), head) && RunAfter(1, HeadOf(before)) == 1
    ensures TameRuns(1, TailOf(first, later))
    ensures TameAges(MeterAfter(m, HeadOf(before), head), TailOf(first, later), tail)
  {
    var ss, clocks := before + ([first] + later), [c] + (head + tail);
    var flags := AllFlags(ss) + [true];
    StreamParts(before, first, later);
    StreamIsTame(ss, clocks);
    TailIsTame(flags, clocks);
    assert flags[1..] == HeadOf(before) + TailOf(first, later) && clocks[1..] == head + tail;
    RunsSplit(1, HeadOf(before), TailOf(first, later));
    MetersSplit(m, HeadOf(before), head, TailOf(first, later), tail);
  }

  /** The waves of a stream from after its first cell. */
  lemma AfterFirstCell(s: Sys, rest: seq<bool>, c: nat, clocks: seq<nat>, g: Sys)
    requires |clocks| == |rest| && g == CoreRun(s, Hold(!s.c.prev, c))
    ensures CoreRun(s, Wave(s.c.prev, [true] + rest, [c] + clocks)) == CoreRun(g, Wave(!s.c.prev, rest, clocks))
  {
    WaveHead(s.c.prev, rest, [c] + clocks);
    assert ([c] + clocks)[1..] == clocks;
    RunSplits(s, Hold(!s.c.prev, c), Wave(!s.c.prev, rest, clocks));
  }

  /** After `before` the width is settled: the receiver is between cells as Aes3Cells has it. */
  lemma Settles(s: Sys, before: seq<Subframe>, c: nat, head: seq<nat>, m: Meter, n: Meter, u: Sys)
    requires s.c.decay < DECAY && |before| >= SETTLING && 8 <= c <= 9 && m.timer == c
    requires |head| == |HeadOf(before)| && EightOrNine(head) && n == MeterAfter(m, HeadOf(before), head)
    requires TameRuns(1, HeadOf(before)) && TameAges(m, HeadOf(before), head) && RunAfter(1, HeadOf(before)) == 1
    requires u == CoreRun(s, Wave(s.c.prev, [true] + HeadOf(before), [c] + head))
    ensures Between(u, 1, n) && u.c.prev == LevelAfter(!s.c.prev, HeadOf(before))
  {
    var g := CoreRun(s, Hold(!s.c.prev, c));
    FirstCellAnywhere(s, !s.c.prev, c - 2, c, m, g);
    AfterFirstCell(s, HeadOf(before), c, head, g);
    CellsOn(g, 1, m, HeadOf(before), head, u);
    WayEnds(u.c, n.age, 8 * |HeadOf(before)|);
  }

  lemma CutWave(s: Sys, a: seq<bool>, ca: seq<nat>, b: seq<bool>, cb: seq<nat>, c: nat, u: Sys, t: Sys)
    requires |ca| == |a| && |cb| == |b|
    requires u == CoreRun(s, Wave(s.c.prev, [true] + a, [c] + ca))
    requires t == CoreRun(s, Wave(s.c.prev, [true] + (a + b), [c] + (ca + cb)))
    ensures t == CoreRun(u, Wave(LevelAfter(!s.c.prev, a), b, cb))
  {
    var g := CoreRun(s, Hold(!s.c.prev, c));
    AfterFirstCell(s, a, c, ca, g);
    AfterFirstCell(s, a + b, c, ca + cb, g);
    WaveSplits(!s.c.prev, a, ca, b, cb);
    RunSplits(g, Wave(!s.c.prev, a, ca), Wave(LevelAfter(!s.c.prev, a), b, cb));
  }

  lemma AllEightOrNine(c: nat, head: seq<nat>, tail: seq<nat>)
    requires EightOrNine([c] + (head + tail))
    ensures 8 <= c <= 9 && EightOrNine(head) && EightOrNine(tail)
  {
    var all := [c] + (head + tail);
    assert all[0] == c;
    assert forall k :: 0 <= k < |head| ==> head[k] == all[k + 1];
    assert forall k :: 0 <= k < |tail| ==> tail[k] == all[k + 1 + |head|];
  }

  /** Where `before` ends, and what is left. */
  lemma SettledThere(s: Sys, before: seq<Subframe>, first: Subframe, later: seq<Subframe>, c: nat, head: seq<nat>,
      tail: seq<nat>, u: Sys) returns (n: Meter)
    requires s.c.decay < DECAY && |before| >= SETTLING && Alternates(before + ([first] + later))
    requires |head| == |HeadOf(before)| && |tail| == |TailOf(first, later)|
    requires EightOrNine([c] + (head + tail)) && NoTwoNines([c] + (head + tail))
    requires u == CoreRun(s, Wave(s.c.prev, [true] + HeadOf(before), [c] + head))
    ensures Between(u, 1, n) && u.c.prev == LevelAfter(!s.c.prev, HeadOf(before))
    ensures EightOrNine(tail) && TameRuns(1, TailOf(first, later)) && TameAges(n, TailOf(first, later), tail)
  {
    var m := MeterStep(Meter(9, 500), true, c);
    n := MeterAfter(m, HeadOf(before), head);
    PartsAreTame(before, first, later, c, head, tail, m);
    AllEightOrNine(c, head, tail);
    Settles(s, before, c, head, m, n, u);
  }

  /** From u on the receiver follows the decoder cell by cell. */
  lemma FollowsOn(s: Sys, a: seq<bool>, ca: seq<nat>, b: seq<bool>, cb: seq<nat>, c: nat, n: Meter, u: Sys, t: Sys)
    requires |ca| == |a| && |cb| == |b|
    requires Between(u, 1, n) && u.c.prev == LevelAfter(!s.c.prev, a)
    requires EightOrNine(cb) && TameRuns(1, b) && TameAges(n, b, cb)
    requires u == CoreRun(s, Wave(s.c.prev, [true] + a, [c] + ca))
    requires t == CoreRun(s, Wave(s.c.prev, [true] + (a + b), [c] + (ca + cb)))
    ensures View(t) == CellsFeed(Rig(View(u), 1), b).d && 8 <= t.c.cellW <= 9
  {
    CutWave(s, a, ca, b, cb, c, u, t);
    CellsPass(u, 1, n, b, cb, t);
  }

  /** The clocks of the first cell, of the next k - 1, and of the rest. */
  lemma CutClocks(clocks: seq<nat>, k: nat, c: nat, head: seq<nat>, tail: seq<nat>)
    requires 0 < k <= |clocks| && c == clocks[0] && head == clocks[1..k] && tail == clocks[k..]
    ensures clocks == [c] + (head + tail) && clocks[..k] == [c] + head
  {
  }

  /** The receiver t after the subframes ss and the first cell of the next one, from s. */
  ghost predicate Fed(s: Sys, ss: seq<Subframe>, clocks: seq<nat>, t: Sys) {
    && |clocks| == CELLS * |ss| + 1 && EightOrNine(clocks) && NoTwoNines(clocks)
    && t == CoreRun(s, Wave(s.c.prev, AllFlags(ss) + [true], clocks))
  }

  lemma FedInParts(s: Sys, before: seq<Subframe>, first: Subframe, later: seq<Subframe>, clocks: seq<nat>, k: nat,
      head: seq<nat>, tail: seq<nat>, t: Sys)
    requires before != [] && Fed(s, before + ([first] + later), clocks, t) && k == CELLS * |before| + 1 <= |clocks|
    requires head == clocks[1..k] && tail == clocks[k..]
    ensures |head| == |HeadOf(before)| && |tail| == |TailOf(first, later)|
    ensures AllFlags(before) + [true] == [true] + HeadOf(before)
    ensures t == CoreRun(s, Wave(s.c.prev, [true] + (HeadOf(before) + TailOf(first, later)), clocks))
  {
    StreamParts(before, first, later);
    assert |AllFlags(before + ([first] + later)) + [true]| == |clocks|;
  }

  /** A stream in the pieces above. */
  lemma FollowsStreamOn(s: Sys, before: seq<Subframe>, first: Subframe, later: seq<Subframe>, clocks: seq<nat>,
      k: nat, u: Sys, t: Sys)
    requires s.c.decay < DECAY && |before| >= SETTLING && Alternates(before + ([first] + later))
    requires Fed(s, before + ([first] + later), clocks, t)
    requires k == CELLS * |before| + 1 <= |clocks|
    requires u == CoreRun(s, Wave(s.c.prev, AllFlags(before) + [true], clocks[..k]))
    ensures View(t) == CellsFeed(Rig(View(u), 1), TailOf(first, later)).d && 8 <= t.c.cellW <= 9
  {
    var c, head, tail := clocks[0], clocks[1..k], clocks[k..];
    CutClocks(clocks, k, c, head, tail);
    FedInParts(s, before, first, later, clocks, k, head, tail, t);
    var n := SettledThere(s, before, first, later, c, head, tail, u);
    FollowsOn(s, HeadOf(before), head, TailOf(first, later), tail, c, n, u, t);
  }

  lemma OneMoreFirst(before: seq<Subframe>, first: Subframe, later: seq<Subframe>)
    requires Alternates(before + ([first] + later))
    ensures Alternates(before + ([first] + []))
  {
    var a, b := before + ([first] + []), before + ([first] + later);
    assert forall k :: 0 <= k < |a| ==> a[k] == b[k];
  }

  /** Both ends of `later`, from where `before` ends. */
  lemma ReportsLater(g: Rig, first: Subframe, later: seq<Subframe>, e: Sys, t: Sys)
    requires View(e) == CellsFeed(g, TailOf(first, [])).d && View(t) == CellsFeed(g, TailOf(first, later)).d
    ensures t.h.subs == e.h.subs + S.HeardOf(later)
    ensures t.h == S.TakeAll(S.Told(S.Settle(e.c.f, e.c.o), e.h), later).h
  {
    DecodedStream(g, first, later, View(e), View(t));
    SettleQuiets(e.c.f, e.c.o);
  }

  /**
   From anything: start the receiver in any state whatever, on either line level. After 64 subframes
   the tracked cell width has settled; one more, and it reports exactly the subframes sent after that.
   */
  lemma AnyReceiverLocksOn(s: Sys, before: seq<Subframe>, first: Subframe, later: seq<Subframe>, clocks: seq<nat>,
      short: seq<nat>, e: Sys, t: Sys)
    requires s.c.decay < DECAY && |before| >= SETTLING && Alternates(before + ([first] + later))
    requires Fed(s, before + ([first] + []), short, e) && short <= clocks
    requires Fed(s, before + ([first] + later), clocks, t)
    ensures t.h.subs == e.h.subs + S.HeardOf(later)
    ensures t.h == S.TakeAll(S.Told(S.Settle(e.c.f, e.c.o), e.h), later).h
    ensures 8 <= e.c.cellW <= 9 && 8 <= t.c.cellW <= 9
  {
    var k := CELLS * |before| + 1;
    assert short[..k] == clocks[..k];
    var u := CoreRun(s, Wave(s.c.prev, AllFlags(before) + [true], clocks[..k]));
    OneMoreFirst(before, first, later);
    FollowsStreamOn(s, before, first, later, clocks, k, u, t);
    FollowsStreamOn(s, before, first, [], short, k, u, e);
    ReportsLater(Rig(View(u), 1), first, later, e, t);
  }
}
