/**
 A receiver on a line that carries subframes: whatever its decoder holds, with any mixture of eight-
 and nine-clock cells that never puts two nines together, for streams of any length.
 */
module Aes3Timing {
  import opened Aes3Line
  import opened Aes3Decode
  import opened Aes3Rx
  import opened Aes3Cells
  import S = Aes3Streams

  /** Channels A and B take turns. */
  predicate Alternates(ss: seq<Subframe>) {
    forall k :: 0 <= k && k + 1 < |ss| ==> (ss[k].kind == Y) != (ss[k + 1].kind == Y)
  }

  // ---------------------------------------------------------------------------
  // Runs of cells
  // ---------------------------------------------------------------------------

  lemma {:induction false} RunsSplit(n: nat, a: seq<bool>, b: seq<bool>)
    requires n <= 3
    ensures TameRuns(n, a + b) <==> TameRuns(n, a) && TameRuns(RunAfter(n, a), b)
    ensures RunAfter(n, a + b) == RunAfter(RunAfter(n, a), b)
    decreases |b|
  {
    if b == [] {
      assert a + b == a;
    } else {
      var k := |b| - 1;
      RunsSplit(n, a, b[..k]);
      assert (a + b)[..|a| + k] == a + b[..k];
    }
  }

  function Longer(n: nat, flag: bool): nat { if flag then 1 else n + 1 }

  lemma RunsGrow(n: nat, flags: seq<bool>, flag: bool)
    requires TameRuns(n, flags) && Longer(RunAfter(n, flags), flag) <= 3
    ensures TameRuns(n, flags + [flag])
    ensures RunAfter(n, flags + [flag]) == Longer(RunAfter(n, flags), flag)
  {
    assert (flags + [flag])[..|flags|] == flags;
  }

  lemma TwoRuns(n: nat, a: bool, b: bool)
    requires n <= 3 && Longer(n, a) <= 3 && Longer(Longer(n, a), b) <= 3
    ensures TameRuns(n, [a, b]) && RunAfter(n, [a, b]) == Longer(Longer(n, a), b)
  {
    RunsGrow(n, [], a);
    RunsGrow(n, [a], b);
    assert [] + [a] == [a] && [a] + [b] == [a, b];
  }

  lemma FourRuns(n: nat, f: seq<bool>, m: nat)
    requires |f| == 4 && n <= 3 && Longer(n, f[0]) <= 3
    requires m == Longer(Longer(n, f[0]), f[1]) && m <= 3
    requires Longer(m, f[2]) <= 3 && Longer(Longer(m, f[2]), f[3]) <= 3
    ensures TameRuns(n, f) && RunAfter(n, f) == Longer(Longer(m, f[2]), f[3])
  {
    TwoRuns(n, f[0], f[1]);
    TwoRuns(m, f[2], f[3]);
    RunsSplit(n, [f[0], f[1]], [f[2], f[3]]);
    assert f == [f[0], f[1]] + [f[2], f[3]];
  }

  lemma PreambleRuns(n: nat, k: Kind)
    requires n <= 3
    ensures TameRuns(n, PreambleFlags(k)) && RunAfter(n, PreambleFlags(k)) <= 3
  {
    var p := PreambleFlags(k);
    assert p == p[..4] + p[4..];
    FourRuns(n, p[..4], 2);
    FourRuns(1, p[4..], if k == X then 3 else if k == Y then 1 else 1);
    RunsSplit(n, p[..4], p[4..]);
  }

  lemma {:induction false} DataRuns(n: nat, bits: seq<bool>)
    requires 1 <= n <= 3
    ensures TameRuns(n, DataFlags(bits))
    ensures RunAfter(n, DataFlags(bits)) <= if bits == [] then 3 else 2
    decreases |bits|
  {
    if bits != [] {
      var k := |bits| - 1;
      var d := DataFlags(bits[..k]);
      DataRuns(n, bits[..k]);
      RunsGrow(n, d, true);
      RunsGrow(n, d + [true], bits[k]);
      assert d + [true, bits[k]] == (d + [true]) + [bits[k]];
    }
  }

  lemma SubframeRuns(n: nat, s: Subframe)
    requires 1 <= n <= 3
    ensures TameRuns(n, FlagsOf(s)) && 1 <= RunAfter(n, FlagsOf(s)) <= 2
  {
    PreambleRuns(n, s.kind);
    RunPositive(n, PreambleFlags(s.kind));
    DataRuns(RunAfter(n, PreambleFlags(s.kind)), s.bits);
    RunsSplit(n, PreambleFlags(s.kind), DataFlags(s.bits));
    RunPositive(n, FlagsOf(s));
  }

  lemma RunPositive(n: nat, flags: seq<bool>)
    requires n >= 1
    ensures RunAfter(n, flags) >= 1
  {
  }

  lemma {:induction false} StreamRuns(n: nat, ss: seq<Subframe>)
    requires 1 <= n <= 3
    ensures TameRuns(n, AllFlags(ss)) && 1 <= RunAfter(n, AllFlags(ss)) <= 3
    decreases |ss|
  {
    if ss != [] {
      var k := |ss| - 1;
      StreamRuns(n, ss[..k]);
      SubframeRuns(RunAfter(n, AllFlags(ss[..k])), ss[k]);
      RunsSplit(n, AllFlags(ss[..k]), FlagsOf(ss[k]));
    }
  }

  // ---------------------------------------------------------------------------
  // Eight-clock intervals
  // ---------------------------------------------------------------------------

  lemma {:induction false} MetersSplit(m: Meter, a: seq<bool>, ca: seq<nat>, b: seq<bool>, cb: seq<nat>)
    requires |ca| == |a| && |cb| == |b|
    ensures MeterAfter(m, a + b, ca + cb) == MeterAfter(MeterAfter(m, a, ca), b, cb)
    ensures TameAges(m, a + b, ca + cb) <==> TameAges(m, a, ca) && TameAges(MeterAfter(m, a, ca), b, cb)
    decreases |b|
  {
    if b == [] {
      assert a + b == a && ca + cb == ca;
    } else {
      var k := |b| - 1;
      MetersSplit(m, a, ca, b[..k], cb[..k]);
      assert (a + b)[..|a| + k] == a + b[..k] && (ca + cb)[..|a| + k] == ca + cb[..k];
    }
  }

  /** The age grows by no more than nine clocks a cell. */
  lemma {:induction false} AgesGrow(m: Meter, flags: seq<bool>, clocks: seq<nat>)
    requires |clocks| == |flags| && EightOrNine(clocks)
    ensures MeterAfter(m, flags, clocks).age <= m.age + 9 * |flags|
    ensures m.age + 9 * |flags| < 4000 ==> TameAges(m, flags, clocks)
    decreases |flags|
  {
    if flags != [] {
      var k := |flags| - 1;
      AgesGrow(m, flags[..k], clocks[..k]);
    }
  }

  /** Three edges in a row leave an eight-clock interval behind, less than 19 clocks ago. */
  lemma ShortPair(m: Meter, x: nat, y: nat, z: nat)
    requires x == 8 || y == 8
    requires x <= 9 && y <= 9 && z <= 9
    ensures MeterAfter(m, [true, true, true], [x, y, z]).age <= 18
  {
    assert [true, true, true][..2] == [true, true] && [x, y, z][..2] == [x, y];
    assert [true, true][..1] == [true] && [x, y][..1] == [x];
    assert MeterAfter(m, [true], [x]) == MeterStep(m, true, x);
    assert MeterAfter(m, [true, true], [x, y]) == MeterStep(MeterStep(m, true, x), true, y);
  }

  /** Every A subframe brings one: the two single-cell runs of its preamble cannot both last nine. */
  lemma ChannelARefreshes(m: Meter, s: Subframe, clocks: seq<nat>)
    requires |clocks| == CELLS && EightOrNine(clocks) && NoTwoNines(clocks) && s.kind != Y
    ensures MeterAfter(m, FlagsOf(s), clocks).age <= 576
  {
    var f := FlagsOf(s);
    var at := if s.kind == Z then 3 else 6;
    FirstDataFlag(s);
    assert f[at..at + 3] == [true, true, true];
    assert clocks[at..at + 3] == [clocks[at], clocks[at + 1], clocks[at + 2]];
    assert f == f[..at] + (f[at..at + 3] + f[at + 3..]);
    assert clocks == clocks[..at] + (clocks[at..at + 3] + clocks[at + 3..]);
    var m0 := MeterAfter(m, f[..at], clocks[..at]);
    MetersSplit(m, f[..at], clocks[..at], f[at..at + 3] + f[at + 3..], clocks[at..at + 3] + clocks[at + 3..]);
    MetersSplit(m0, f[at..at + 3], clocks[at..at + 3], f[at + 3..], clocks[at + 3..]);
    ShortPair(m0, clocks[at], clocks[at + 1], clocks[at + 2]);
    AgesGrow(MeterAfter(m0, f[at..at + 3], clocks[at..at + 3]), f[at + 3..], clocks[at + 3..]);
  }

  lemma FirstDataFlag(s: Subframe)
    ensures FlagsOf(s)[PREAMBLE_CELLS]
  {
    BitFlags(s.bits, 0);
  }

  lemma {:induction false} BitFlags(bits: seq<bool>, j: nat)
    requires j < |bits|
    ensures DataFlags(bits)[2 * j] && DataFlags(bits)[2 * j + 1] == bits[j]
    decreases |bits|
  {
    var k := |bits| - 1;
    if j < k {
      BitFlags(bits[..k], j);
    }
  }

  function MaxAge(ss: seq<Subframe>): nat { if ss != [] && ss[|ss| - 1].kind == Y then 1152 else 576 }

  lemma {:induction false} StreamAges(m: Meter, ss: seq<Subframe>, clocks: seq<nat>)
    requires m.age <= 576 && Alternates(ss)
    requires |clocks| == CELLS * |ss| && EightOrNine(clocks) && NoTwoNines(clocks)
    ensures TameAges(m, AllFlags(ss), clocks) && MeterAfter(m, AllFlags(ss), clocks).age <= MaxAge(ss)
    decreases |ss|
  {
    if ss != [] {
      var k := |ss| - 1;
      var c, d := clocks[..CELLS * k], clocks[CELLS * k..];
      assert clocks == c + d;
      StreamAges(m, ss[..k], c);
      var n := MeterAfter(m, AllFlags(ss[..k]), c);
      MetersSplit(m, AllFlags(ss[..k]), c, FlagsOf(ss[k]), d);
      AgesGrow(n, FlagsOf(ss[k]), d);
      if ss[k].kind != Y {
        ChannelARefreshes(n, ss[k], d);
      }
    }
  }

  // ---------------------------------------------------------------------------
  // Locking on
  // ---------------------------------------------------------------------------

  /**
   A receiver that may hold anything in its decoder. Its line has been quiet for at least eight
   clocks (or it has just been reset), and the tracked cell width is a settled one.
   */
  predicate Listening(s: Sys) {
    && !s.c.iv && (s.c.timer < 3 || s.c.timer >= 8)
    && WidthOk(s.c, 500)
  }

  /** The first change, with whatever it makes of the unknown state. */
  lemma FirstClocks(s: Sys, v: bool, a: Sys, b: Sys, t: Sys)
    requires Listening(s) && v == !s.c.prev && a == Step(s, v) && b == Step(a, v) && t == Step(b, v)
    ensures Rest(t.c) && t.c.prev == v && t.c.timer == 3 && WidthOk(t.c, 503) && t.widths <= s.widths + {8, 9}
  {
    WidthKept(s.c, 500, v);
    WidthKept(a.c, 501, v);
    var age := if a.c.iv && a.c.interval == 8 then 0 else 502;
    WidthKept(b.c, age, v);
  }

  lemma FirstThreeClocks(s: Sys, v: bool, rest: nat) returns (e: Sys)
    requires Listening(s) && v == !s.c.prev
    ensures CoreRun(s, Hold(v, rest + 3)) == CoreRun(e, Hold(v, rest))
    ensures Rest(e.c) && e.c.prev == v && e.c.timer == 3 && WidthOk(e.c, 503) && e.widths <= s.widths + {8, 9}
  {
    var a := Step(s, v);
    var b := Step(a, v);
    e := Step(b, v);
    HoldSplits(s, v, rest, e);
    FirstClocks(s, v, a, b, e);
  }

  lemma FirstCell(s: Sys, v: bool, rest: nat, clocks: nat, t: Sys)
    requires Listening(s) && v == !s.c.prev && 5 <= rest <= 6 && clocks == rest + 3
    requires t == CoreRun(s, Hold(v, clocks))
    ensures Between(t, 1, MeterStep(Meter(9, 500), true, clocks)) && t.c.prev == v && t.widths <= s.widths + {8, 9}
  {
    var e := FirstThreeClocks(s, v, rest);
    RestOfCell(e, v, 503, rest, t);
  }

  lemma OneCell(v: bool, clocks: nat)
    ensures Wave(v, [true], [clocks]) == Hold(!v, clocks) && LevelAfter(v, [true]) == !v
  {
    assert [true][..0] == [] && [clocks][..0] == [];
  }

  /** The states after a first cell of so many clocks. */
  ghost predicate Started(s: Sys, clocks: nat, g: Sys) {
    && Between(g, 1, MeterStep(Meter(9, 500), true, clocks)) && g.c.prev == !s.c.prev
      && g.widths <= s.widths + {8, 9} && g == CoreRun(s, Hold(!s.c.prev, clocks))
  }

  /** The state g after the first cell, from which the receiver follows the decoder cell by cell. */
  lemma FollowsFrom(s: Sys, clocks: nat) returns (g: Sys)
    requires Listening(s) && 8 <= clocks <= 9
    ensures Started(s, clocks, g)
  {
    g := CoreRun(s, Hold(!s.c.prev, clocks));
    var rest: nat := if clocks == 8 then 5 else 6;
    FirstCell(s, !s.c.prev, rest, clocks, g);
  }

  lemma WaveHead(v: bool, rest: seq<bool>, clocks: seq<nat>)
    requires |clocks| == |rest| + 1
    ensures Wave(v, [true] + rest, clocks) == Hold(!v, clocks[0]) + Wave(!v, rest, clocks[1..])
  {
    assert clocks == [clocks[0]] + clocks[1..];
    OneCell(v, clocks[0]);
    WaveSplits(v, [true], [clocks[0]], rest, clocks[1..]);
  }

  /** The cells after the first, from g. */
  lemma Follows(s: Sys, g: Sys, rest: seq<bool>, clocks: seq<nat>, t: Sys)
    requires |clocks| == |rest| + 1 && EightOrNine(clocks)
    requires Started(s, clocks[0], g)
    requires t == CoreRun(s, Wave(s.c.prev, [true] + rest, clocks))
    requires TameRuns(1, rest) && TameAges(MeterStep(Meter(9, 500), true, clocks[0]), rest, clocks[1..])
    ensures View(t) == CellsFeed(Rig(View(g), 1), rest).d && t.widths <= s.widths + {8, 9}
  {
    WaveHead(s.c.prev, rest, clocks);
    RunSplits(s, Hold(!s.c.prev, clocks[0]), Wave(!s.c.prev, rest, clocks[1..]));
    CellsPass(g, 1, MeterStep(Meter(9, 500), true, clocks[0]), rest, clocks[1..], t);
  }

  /** The cells of some subframes and the first cell of the next are tame, with or without their first. */
  lemma StreamIsTame(ss: seq<Subframe>, clocks: seq<nat>)
    requires ss != [] && Alternates(ss)
    requires |clocks| == CELLS * |ss| + 1 && EightOrNine(clocks) && NoTwoNines(clocks)
    ensures var flags := AllFlags(ss) + [true];
            && TameRuns(1, flags) && TameAges(Meter(9, 500), flags, clocks)
  {
    var n := CELLS * |ss|;
    assert clocks == clocks[..n] + [clocks[n]];
    StreamRuns(1, ss);
    RunsGrow(1, AllFlags(ss), true);
    StreamAges(Meter(9, 500), ss, clocks[..n]);
    MetersSplit(Meter(9, 500), AllFlags(ss), clocks[..n], [true], [clocks[n]]);
    AgesGrow(MeterAfter(Meter(9, 500), AllFlags(ss), clocks[..n]), [true], [clocks[n]]);
  }

  lemma TailIsTame(flags: seq<bool>, clocks: seq<nat>)
    requires |flags| == |clocks| > 0 && flags[0]
    requires TameRuns(1, flags) && TameAges(Meter(9, 500), flags, clocks)
    ensures TameRuns(1, flags[1..]) && TameAges(MeterStep(Meter(9, 500), true, clocks[0]), flags[1..], clocks[1..])
  {
    assert flags == [true] + flags[1..] && clocks == [clocks[0]] + clocks[1..];
    assert MeterAfter(Meter(9, 500), [true], [clocks[0]]) == MeterStep(Meter(9, 500), true, clocks[0]);
    RunsSplit(1, [true], flags[1..]);
    MetersSplit(Meter(9, 500), [true], [clocks[0]], flags[1..], clocks[1..]);
  }

  lemma {:induction false} StartsWithEdge(first: Subframe, later: seq<Subframe>)
    ensures AllFlags([first] + later)[0]
    ensures AllFlags([first] + later)[1..] == FlagsOf(first)[1..] + AllFlags(later)
  {
    FlagsConcat([first], later);
    assert [first][..0] == [];
    assert AllFlags([first]) == FlagsOf(first);
    assert (FlagsOf(first) + AllFlags(later))[1..] == FlagsOf(first)[1..] + AllFlags(later);
  }

  /** Everything after the first cell of a stream, up to the first cell of the next subframe. */
  function TailOf(first: Subframe, later: seq<Subframe>): seq<bool> { FlagsOf(first)[1..] + AllFlags(later) + [true] }

  lemma TailFollows(first: Subframe, later: seq<Subframe>, flags: seq<bool>)
    requires flags == AllFlags([first] + later) + [true]
    ensures |flags| > 0 && flags[0] && flags[1..] == TailOf(first, later) && flags == [true] + TailOf(first, later)
  {
    StartsWithEdge(first, later);
  }

  lemma StreamTail(first: Subframe, later: seq<Subframe>, clocks: seq<nat>)
    requires Alternates([first] + later)
    requires |clocks| == CELLS * (1 + |later|) + 1 && EightOrNine(clocks) && NoTwoNines(clocks)
    ensures AllFlags([first] + later) + [true] == [true] + TailOf(first, later)
    ensures TameRuns(1, TailOf(first, later))
    ensures TameAges(MeterStep(Meter(9, 500), true, clocks[0]), TailOf(first, later), clocks[1..])
  {
    var flags := AllFlags([first] + later) + [true];
    TailFollows(first, later, flags);
    StreamIsTame([first] + later, clocks);
    TailIsTame(flags, clocks);
  }

  /** The state t after a stream, as the decoder's state on its cells. */
  lemma FollowsStream(s: Sys, g: Sys, first: Subframe, later: seq<Subframe>, clocks: seq<nat>, t: Sys)
    requires Alternates([first] + later)
    requires |clocks| == CELLS * (1 + |later|) + 1 && EightOrNine(clocks) && NoTwoNines(clocks)
    requires Started(s, clocks[0], g)
    requires t == CoreRun(s, Wave(s.c.prev, AllFlags([first] + later) + [true], clocks))
    ensures View(t) == CellsFeed(Rig(View(g), 1), TailOf(first, later)).d
    ensures t.widths <= s.widths + {8, 9}
  {
    StreamTail(first, later, clocks);
    Follows(s, g, TailOf(first, later), clocks, t);
  }

  lemma DecodedStream(g: Rig, first: Subframe, later: seq<Subframe>, e: Dec, t: Dec)
    requires e == CellsFeed(g, TailOf(first, [])).d && t == CellsFeed(g, TailOf(first, later)).d
    ensures t.h.subs == e.h.subs + S.HeardOf(later)
    ensures t.h == S.TakeAll(S.Told(S.Settle(e.f, e.o), e.h), later).h
    ensures later != [] ==> t.o.lock == S.TakeAll(S.Told(S.Settle(e.f, e.o), e.h), later).o.lock
  {
    var f := FlagsOf(first)[1..];
    assert f + AllFlags([]) == f;
    S.FeedOne(g, f, true);
    S.FeedOne(g, f + AllFlags(later), true);
    S.SelfStabilises(g, first, later);
  }

  lemma SettleQuiets(f: Fsm, o: Report)
    ensures S.Settle(f, Quiet(o)) == S.Settle(f, o)
  {
  }

  lemma FollowsFirst(s: Sys, g: Sys, first: Subframe, clocks: seq<nat>, e: Sys)
    requires |clocks| > CELLS && EightOrNine(clocks) && NoTwoNines(clocks)
    requires Started(s, clocks[0], g)
    requires e == CoreRun(s, Wave(s.c.prev, FlagsOf(first) + [true], clocks[..CELLS + 1]))
    ensures View(e) == CellsFeed(Rig(View(g), 1), TailOf(first, [])).d
  {
    OneAlone(first);
    FollowsStream(s, g, first, [], clocks[..CELLS + 1], e);
  }

  lemma OneAlone(first: Subframe)
    ensures Alternates([first] + []) && AllFlags([first] + []) == FlagsOf(first)
  {
    assert [first] + [] == [first] && [first][..0] == [];
  }

  /**
   The receiver in clocks: start it in any listening state, whatever its decoder holds, on either
   line level. One subframe later it reports exactly the subframes sent after that one, and the
   tracked cell width has never been anything but eight or nine clocks.
   */
  lemma ReceiverLocksOn(s: Sys, first: Subframe, later: seq<Subframe>, clocks: seq<nat>, e: Sys, t: Sys)
    requires Listening(s) && Alternates([first] + later)
    requires |clocks| == CELLS * (1 + |later|) + 1 && EightOrNine(clocks) && NoTwoNines(clocks)
    requires e == CoreRun(s, Wave(s.c.prev, FlagsOf(first) + [true], clocks[..CELLS + 1]))
    requires t == CoreRun(s, Wave(s.c.prev, AllFlags([first] + later) + [true], clocks))
    ensures t.h.subs == e.h.subs + S.HeardOf(later)
    ensures t.h == S.TakeAll(S.Told(S.Settle(e.c.f, e.c.o), e.h), later).h
    ensures later != [] ==> t.c.o.lock == S.TakeAll(S.Told(S.Settle(e.c.f, e.c.o), e.h), later).o.lock
    ensures t.widths <= s.widths + {8, 9}
  {
    var g := FollowsFrom(s, clocks[0]);
    FollowsStream(s, g, first, later, clocks, t);
    FollowsFirst(s, g, first, clocks, e);
    DecodedStream(Rig(View(g), 1), first, later, View(e), View(t));
    SettleQuiets(e.c.f, e.c.o);
  }

  lemma {:induction false} LockedByThen(f: Fsm, o: Report, h: Hist, later: seq<Subframe>, lock: Lock)
    requires lock == S.TakeAll(S.Told(S.Settle(f, o), h), later).o.lock
    requires o.lock.cnt <= 255 && |later| >= 34 && forall k :: 0 <= k < |later| ==> !Odd(later[k].bits)
    ensures lock.locked && (o.lock.errors <= |later| ==> lock.errors == 0)
  {
    S.GoodParityLocks(S.Told(S.Settle(f, o), h), later);
  }

  /** So it locks: 34 subframes with even parity are enough, whatever its lock counter held. */
  lemma ReceiverLocks(s: Sys, first: Subframe, later: seq<Subframe>, clocks: seq<nat>, e: Sys, t: Sys)
    requires Listening(s) && Alternates([first] + later)
    requires |clocks| == CELLS * (1 + |later|) + 1 && EightOrNine(clocks) && NoTwoNines(clocks)
    requires e == CoreRun(s, Wave(s.c.prev, FlagsOf(first) + [true], clocks[..CELLS + 1]))
    requires t == CoreRun(s, Wave(s.c.prev, AllFlags([first] + later) + [true], clocks))
    requires e.c.o.lock.cnt <= 255 && |later| >= 34 && forall k :: 0 <= k < |later| ==> !Odd(later[k].bits)
    ensures t.c.o.lock.locked
    ensures e.c.o.lock.errors <= |later| ==> t.c.o.lock.errors == 0
  {
    ReceiverLocksOn(s, first, later, clocks, e, t);
    LockedByThen(e.c.f, e.c.o, e.h, later, t.c.o.lock);
  }

  // ---------------------------------------------------------------------------
  // Hunting from the start
  // ---------------------------------------------------------------------------

  /** Looking for a preamble, on a line that has been quiet for no time that reads as VLONG. */
  predicate Hunting(s: Sys) { s.c.f.state == HUNT && 8 <= s.c.timer <= 19 }

  lemma ShortSilence(timer: nat, cellW: nat)
    requires 8 <= timer <= 19 && 8 <= cellW <= 9
    ensures Classify(timer, cellW) == S || Classify(timer, cellW) == L
  {
  }

  /** The silence before the first edge is no preamble: the decoder goes on hunting. */
  lemma HuntGoesOn(s: Sys, v: bool, a: Sys, b: Sys, t: Sys)
    requires Listening(s) && Hunting(s) && v == !s.c.prev && a == Step(s, v) && b == Step(a, v) && t == Step(b, v)
    ensures View(t) == View(s)
  {
    WidthKept(s.c, 500, v);
    ShortSilence(a.c.interval, a.c.cellW);
    assert a.c.f == s.c.f && View(a) == View(s) && a.c.iv;
    assert View(b) == View(s) && !b.c.iv;
  }

  lemma HuntingCell(s: Sys, v: bool, rest: nat, clocks: nat, t: Sys)
    requires Listening(s) && Hunting(s) && v == !s.c.prev && 5 <= rest <= 6 && clocks == rest + 3
    requires t == CoreRun(s, Hold(v, clocks))
    ensures View(t) == View(s)
  {
    var a := Step(s, v);
    var b := Step(a, v);
    var e := Step(b, v);
    HoldSplits(s, v, rest, e);
    FirstClocks(s, v, a, b, e);
    HuntGoesOn(s, v, a, b, e);
    RestOfCell(e, v, 503, rest, t);
  }

  /** A hunting decoder that has not begun is as good as one that has heard a whole subframe. */
  lemma HuntingDecodes(d: Dec, first: Subframe, later: seq<Subframe>, t: Dec)
    requires d.f.state == HUNT && d.o == Quiet(d.o) && t == CellsFeed(Rig(d, 1), TailOf(first, later)).d
    ensures t.h == S.TakeAll(S.Told(d.o, d.h), [first] + later).h
    ensures t.o.lock == S.TakeAll(S.Told(d.o, d.h), [first] + later).o.lock
  {
    var r := Rig(d, 1);
    assert S.Opened(r) == r;
    StartsWithEdge(first, later);
    var all := AllFlags([first] + later);
    var tail := FlagsOf(first)[1..] + AllFlags(later);
    assert all == [true] + tail && [true] == [] + [true];
    S.FeedSplits(r, [true], tail);
    S.FeedOne(r, [], true);
    S.FeedOne(r, tail, true);
    S.StreamDecodes(r, [first] + later);
  }

  /**
   From a hunting decoder, as reset leaves it, nothing is lost: every subframe is reported, the first
   included.
   */
  lemma HuntingHearsAll(s: Sys, first: Subframe, later: seq<Subframe>, clocks: seq<nat>, t: Sys)
    requires Listening(s) && Hunting(s) && Alternates([first] + later)
    requires |clocks| == CELLS * (1 + |later|) + 1 && EightOrNine(clocks) && NoTwoNines(clocks)
    requires t == CoreRun(s, Wave(s.c.prev, AllFlags([first] + later) + [true], clocks))
    ensures t.h == S.TakeAll(S.Told(Quiet(s.c.o), s.h), [first] + later).h
    ensures t.c.o.lock == S.TakeAll(S.Told(Quiet(s.c.o), s.h), [first] + later).o.lock
  {
    var g := FollowsFrom(s, clocks[0]);
    HuntingCell(s, !s.c.prev, if clocks[0] == 8 then 5 else 6, clocks[0], g);
    FollowsStream(s, g, first, later, clocks, t);
    HuntingDecodes(View(g), first, later, View(t));
  }

  /** What reset leaves: a hunting decoder without lock points, errors or output. */
  lemma ResetClears(c: Core, level: bool)
    ensures var n := NextCore(c, true, level);
            && n.f.state == HUNT && n.cellW == 8 && n.decay == 0 && n.timer == 0 && !n.iv && !n.prev
            && n.o.lock == Lock(0, 0, false, false) && n.o.audio.frameNum == 0 && n.o == Quiet(n.o)
            && Zero(n.o.audio.left) && Zero(n.o.audio.right) && Zero(n.o.audio.sub)
  {
  }

  predicate Zero(bits: seq<bool>) { |bits| == 24 && forall k :: 0 <= k < 24 ==> !bits[k] }

  lemma {:induction false} LockedWhen(o: Report, h: Hist, ss: seq<Subframe>, lock: Lock)
    requires ss != [] && lock == S.TakeAll(S.Told(Quiet(o), h), ss).o.lock
    requires o.lock.cnt == 0 && o.lock.errors == 0 && forall k :: 0 <= k < |ss| ==> !Odd(ss[k].bits)
    ensures lock.errors == 0 && (lock.locked <==> |ss| >= 34)
  {
    S.GoodParityLocks(S.Told(Quiet(o), h), ss);
  }

  /** Without points, as after reset, a clean stream locks with its 34th subframe, neither before nor after. */
  lemma {:induction false} LocksAtThirtyFour(s: Sys, first: Subframe, later: seq<Subframe>, clocks: seq<nat>, t: Sys)
    requires Listening(s) && Hunting(s) && Alternates([first] + later)
    requires |clocks| == CELLS * (1 + |later|) + 1 && EightOrNine(clocks) && NoTwoNines(clocks)
    requires t == CoreRun(s, Wave(s.c.prev, AllFlags([first] + later) + [true], clocks))
    requires s.c.o.lock.cnt == 0 && s.c.o.lock.errors == 0
    requires forall k :: 0 <= k < |[first] + later| ==> !Odd(([first] + later)[k].bits)
    ensures t.c.o.lock.errors == 0 && (t.c.o.lock.locked <==> 1 + |later| >= 34)
  {
    HuntingHearsAll(s, first, later, clocks, t);
    LockedWhen(s.c.o, s.h, [first] + later, t.c.o.lock);
  }
}
