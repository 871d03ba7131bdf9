/**
 The AES3 transmitter wired to the receiver, both in the same 50 MHz clock: from any state of the
 receiver's decoder, and for runs of any length, what comes out is what was sent.
 */
module Aes3Link {
  import opened Aes3Line
  import D = Aes3Decode
  import S = Aes3Streams
  import R = Aes3Rx
  import C = Aes3Cells
  import T = Aes3Timing
  import A = Aes3Settling
  import Tx = Aes3Tx
  import N = Aes3Sent

  // ---------------------------------------------------------------------------
  // The synchroniser
  // ---------------------------------------------------------------------------

  datatype Receiver = Receiver(s0: bool, s1: bool, s2: bool, sys: C.Sys) {
    function Regs(): R.Regs { R.Regs(s0, s1, s2, sys.c) }
  }

  function RxStep(x: Receiver, line: bool): (y: Receiver)
    ensures y.Regs() == R.Next(x.Regs(), false, line)
  {
    Receiver(line, x.s0, x.s1, C.Step(x.sys, x.s2))
  }

  function RxRun(x: Receiver, line: seq<bool>): Receiver
    decreases |line|
  {
    if line == [] then x else RxStep(RxRun(x, line[..|line| - 1]), line[|line| - 1])
  }

  /** The levels on their way to the core. */
  function Pipe(x: Receiver, line: seq<bool>): seq<bool> { [x.s2, x.s1, x.s0] + line }

  lemma PipeStep(s: C.Sys, seen: seq<bool>, waiting: seq<bool>, m: Receiver, level: bool, y: Receiver)
    requires m.sys == C.CoreRun(s, seen) && waiting == [m.s2, m.s1, m.s0] && y == RxStep(m, level)
    ensures y.sys == C.CoreRun(s, seen + [waiting[0]])
    ensures [y.s2, y.s1, y.s0] == waiting[1..] + [level]
  {
    C.RunOne(s, seen, waiting[0]);
  }

  /** The receivers whose core has seen the line as it was three clocks ago. */
  ghost predicate Delayed(x: Receiver, line: seq<bool>, y: Receiver) {
    && y.sys == C.CoreRun(x.sys, Pipe(x, line)[..|line|])
      && [y.s2, y.s1, y.s0] == Pipe(x, line)[|line|..]
  }

  lemma DelayKept(x: Receiver, line: seq<bool>, p: seq<bool>, m: Receiver, y: Receiver)
    requires line != [] && p == Pipe(x, line[..|line| - 1])
    requires Delayed(x, line[..|line| - 1], m) && y == RxStep(m, line[|line| - 1])
    ensures Delayed(x, line, y)
  {
    var n := |line|;
    PipeGrows(x, line);
    PipeStep(x.sys, p[..n - 1], p[n - 1..], m, line[n - 1], y);
  }

  lemma {:induction false} CoreSeesDelayed(x: Receiver, line: seq<bool>)
    ensures Delayed(x, line, RxRun(x, line))
    decreases |line|
  {
    if line == [] {
      assert Pipe(x, line)[..0] == [];
    } else {
      CoreSeesDelayed(x, line[..|line| - 1]);
      DelayKept(x, line, Pipe(x, line[..|line| - 1]), RxRun(x, line[..|line| - 1]), RxRun(x, line));
    }
  }

  lemma PipeGrows(x: Receiver, line: seq<bool>)
    requires line != []
    ensures var n := |line|;
            var p, q := Pipe(x, line), Pipe(x, line[..n - 1]);
            && p[..n] == q[..n - 1] + [q[n - 1..][0]]
            && p[n..] == q[n - 1..][1..] + [line[n - 1]]
  {
    var n := |line|;
    assert Pipe(x, line) == Pipe(x, line[..n - 1]) + [line[n - 1]];
    Shifts(Pipe(x, line[..n - 1]), line[n - 1], n - 1);
  }

  lemma Shifts(q: seq<bool>, v: bool, k: nat)
    requires |q| == k + 3
    ensures (q + [v])[..k + 1] == q[..k] + [q[k..][0]] && (q + [v])[k + 1..] == q[k..][1..] + [v]
  {
  }

  // ---------------------------------------------------------------------------
  // The wire
  // ---------------------------------------------------------------------------

  /** What the receiver samples: in every clock the level the transmitter's register had before it. */
  function LineOf(s: N.Sys, ins: seq<Tx.Input>): (line: seq<bool>)
    requires s.r.Valid()
    ensures |line| == |ins|
    decreases |ins|
  {
    if ins == [] then [] else LineOf(s, ins[..|ins| - 1]) + [N.Run(s, ins[..|ins| - 1]).r.enc.out]
  }

  lemma OneMore(v: bool, levels: seq<bool>, line: seq<bool>, x: bool)
    requires [v] + levels == line
    ensures [v] + (levels + [x]) == line + [x]
  {
  }

  lemma {:induction false} LineIsLevels(s: N.Sys, ins: seq<Tx.Input>)
    requires s.r.Valid() && s.h.levels == []
    ensures [s.r.enc.out] + N.Run(s, ins).h.levels == LineOf(s, ins) + [N.Run(s, ins).r.enc.out]
    decreases |ins|
  {
    if ins != [] {
      var m := N.Run(s, ins[..|ins| - 1]);
      LineIsLevels(s, ins[..|ins| - 1]);
      OneLevel(m, ins[|ins| - 1]);
      OneMore(s.r.enc.out, m.h.levels, LineOf(s, ins), N.Run(s, ins).r.enc.out);
    }
  }

  lemma OneLevel(m: N.Sys, i: Tx.Input)
    requires m.r.Valid()
    ensures var t := N.Step(m, i); t.h.levels == m.h.levels + [t.r.enc.out]
  {
  }

  /** What the receiver has sampled by clock k. */
  lemma {:induction false} LineUntil(s: N.Sys, ins: seq<Tx.Input>, k: nat)
    requires s.r.Valid() && k < |ins|
    ensures LineOf(s, ins)[..k] == LineOf(s, ins[..k]) && LineOf(s, ins)[k] == N.Run(s, ins[..k]).r.enc.out
    decreases |ins|
  {
    var n := |ins| - 1;
    if k < n {
      LineUntil(s, ins[..n], k);
      assert ins[..n][..k] == ins[..k];
    }
  }

  lemma Joins(line: seq<bool>, k: nat, before: seq<bool>, out: bool, v: bool, levels: seq<bool>, p: seq<bool>)
    requires k < |line| && line[..k] == before && line[k] == out && [v] + levels == before + [out] && |p| == 3
    ensures k + 4 <= |p + line| && (p + line)[..k + 4] == (p + [v]) + levels
  {
    assert line[..k + 1] == line[..k] + [line[k]];
    assert (p + line)[..k + 4] == p + line[..k + 1];
  }

  /** Four clocks after the transmitter: one register and three synchroniser stages. */
  lemma SeenByCore(x: Receiver, s: N.Sys, ins: seq<Tx.Input>, k: nat, out: bool, levels: seq<bool>)
    requires s.r.Valid() && s.h.levels == [] && |ins| == k + 4
    requires out == N.Run(s, ins[..k]).r.enc.out && levels == N.Run(s, ins[..k]).h.levels
    ensures Pipe(x, LineOf(s, ins))[..k + 4] == ([x.s2, x.s1, x.s0] + [s.r.enc.out]) + levels
  {
    LineUntil(s, ins, k);
    LineIsLevels(s, ins[..k]);
    Joins(LineOf(s, ins), k, LineOf(s, ins[..k]), out, s.r.enc.out, levels, [x.s2, x.s1, x.s0]);
  }

  // ---------------------------------------------------------------------------
  // Before the first edge
  // ---------------------------------------------------------------------------

  /** The line has been at level v for some clocks. The decoder behind it may hold anything. */
  predicate Quiet(x: Receiver, v: bool) {
    && x.s0 == v && x.s1 == v && x.s2 == v && x.sys.c.prev == v
    && !x.sys.c.iv && x.sys.c.timer >= 4 && C.WidthOk(x.sys.c, 496)
  }

  lemma QuietClock(s: C.Sys, age: nat, t: C.Sys)
    requires !s.c.iv && C.WidthOk(s.c, age) && age < 500 && t == C.Step(s, s.c.prev)
    ensures !t.c.iv && C.WidthOk(t.c, age + 1) && t.c.prev == s.c.prev && t.widths <= s.widths + {8, 9}
    ensures t.c.timer == if s.c.timer < 128 then s.c.timer + 1 else s.c.timer
  {
    C.WidthKept(s.c, age, s.c.prev);
  }

  lemma {:induction false} QuietClocks(s: C.Sys, n: nat, t: C.Sys)
    requires !s.c.iv && C.WidthOk(s.c, 496) && n <= 4 && t == C.CoreRun(s, Hold(s.c.prev, n))
    ensures !t.c.iv && C.WidthOk(t.c, 496 + n) && t.c.prev == s.c.prev && t.widths <= s.widths + {8, 9}
    ensures t.c.timer >= s.c.timer + n || t.c.timer >= 128
    decreases n
  {
    if n == 0 {
      assert Hold(s.c.prev, 0) == [];
    } else {
      var m := C.CoreRun(s, Hold(s.c.prev, n - 1));
      QuietClocks(s, n - 1, m);
      C.HoldOne(s, s.c.prev, n - 1);
      QuietClock(m, 496 + (n - 1), t);
    }
  }

  // ---------------------------------------------------------------------------
  // The transmitter from the start of a subframe
  // ---------------------------------------------------------------------------

  /** A subframe is about to begin; nothing is recorded yet. */
  predicate AtSubframe(s: N.Sys) {
    s.r.Valid() && N.Due(s.r) && s.r.enc.symbolCount == 0 && s.r.enc.bmc == s.r.enc.out && s.h == N.EMPTY
  }

  lemma StartsInFormat(s: N.Sys)
    requires AtSubframe(s)
    ensures N.Format(s.r.enc, s.h) && N.InOrder(N.Place(s.r.enc), s.r.enc, s.h.sent)
  {
  }

  lemma WholeSubframes(e: Tx.Encoder, h: N.Hist, m: nat)
    requires e.Valid() && N.Format(e, h) && |h.flags| == CELLS * m + 1
    ensures |h.sent| == m && h.flags == AllFlags(h.sent) + [true]
  {
    assert |N.Partial(e, h.bits)| == e.symbolCount;
    assert CELLS * |h.sent| + e.symbolCount == CELLS * m + 1;
    assert |h.sent| == m && e.symbolCount == 1;
    assert N.Partial(e, h.bits) == [true];
  }

  lemma TakesTurns(p0: nat, e: Tx.Encoder, sent: seq<Subframe>)
    requires N.InOrder(p0, e, sent)
    ensures T.Alternates(sent)
  {
    forall k | 0 <= k && k + 1 < |sent|
      ensures (sent[k].kind == Y) != (sent[k + 1].kind == Y)
    {
      assert sent[k].kind == N.KindAt(p0 + k) && sent[k + 1].kind == N.KindAt(p0 + (k + 1));
      KindsAlternate(p0 + k, p0 + (k + 1));
    }
  }

  lemma KindsAlternate(p: nat, q: nat)
    requires q == p + 1
    ensures (N.KindAt(p) == Y) != (N.KindAt(q) == Y)
  {
    assert p % 2 == 1 <==> q % 2 == 0;
  }

  /** After 64 m + 1 cells: m subframes and the first cell of the next. */
  lemma SentAfter(s: N.Sys, m: nat, cells: seq<Tx.Input>, t: N.Sys)
    requires AtSubframe(s) && |cells| == N.Total(s.r.acc, CELLS * m + 1) && t == N.Run(s, cells)
    ensures |t.h.sent| == m && t.h.flags == AllFlags(t.h.sent) + [true]
    ensures N.InOrder(N.Place(s.r.enc), t.r.enc, t.h.sent) && T.Alternates(t.h.sent)
    ensures t.h.levels == Wave(s.r.enc.out, t.h.flags, N.Lengths(s.r.acc, CELLS * m + 1))
  {
    StartsInFormat(s);
    N.CellsSent(s, CELLS * m + 1, cells);
    N.FormatOnRuns(s, cells);
    N.OrderOnRuns(N.Place(s.r.enc), s, cells);
    WholeSubframes(t.r.enc, t.h, m);
    TakesTurns(N.Place(s.r.enc), t.r.enc, t.h.sent);
  }

  // ---------------------------------------------------------------------------
  // Transmitter to receiver
  // ---------------------------------------------------------------------------

  /** The core when it has seen what was in the synchroniser and the level before the first edge. */
  function Primed(x: Receiver, v: bool): C.Sys { C.CoreRun(x.sys, [x.s2, x.s1, x.s0, v]) }

  lemma QuietPrimes(x: Receiver, v: bool)
    requires Quiet(x, v)
    ensures Primed(x, v) == C.CoreRun(x.sys, Hold(v, 4))
  {
    assert [v, v, v, v] == Hold(v, 4);
  }

  lemma PrimedLevel(x: Receiver, v: bool)
    ensures Primed(x, v).c.prev == v && Primed(x, v).c.decay < R.DECAY
  {
    var p := [x.s2, x.s1, x.s0];
    assert [x.s2, x.s1, x.s0, v] == p + [v];
    C.RunOne(x.sys, p, v);
  }

  /** The receiver, whatever it holds, after the first m subframes, one cell and the four clocks of delay. */
  lemma ReceiverSees(x: Receiver, s: N.Sys, m: nat, cells: seq<Tx.Input>, more: seq<Tx.Input>, t: N.Sys)
    requires AtSubframe(s) && |more| == 4
    requires |cells| == N.Total(s.r.acc, CELLS * m + 1) && t == N.Run(s, cells)
    ensures |t.h.sent| == m && T.Alternates(t.h.sent)
    ensures RxRun(x, LineOf(s, cells + more)).sys ==
              C.CoreRun(Primed(x, s.r.enc.out),
                        Wave(s.r.enc.out, AllFlags(t.h.sent) + [true], N.Lengths(s.r.acc, CELLS * m + 1)))
  {
    var before := [x.s2, x.s1, x.s0, s.r.enc.out];
    SentAfter(s, m, cells, t);
    assert (cells + more)[..|cells|] == cells && before == [x.s2, x.s1, x.s0] + [s.r.enc.out];
    SeenByCore(x, s, cells + more, |cells|, t.r.enc.out, t.h.levels);
    CoreSeesDelayed(x, LineOf(s, cells + more));
    C.RunSplits(x.sys, before, t.h.levels);
  }

  lemma QuietListens(x: Receiver, v: bool, q: C.Sys)
    requires Quiet(x, v) && q == C.CoreRun(x.sys, Hold(v, 4))
    ensures T.Listening(q) && q.c.prev == v && q.widths <= x.sys.widths + {8, 9}
  {
    QuietClocks(x.sys, 4, q);
  }

  lemma {:induction false} LengthsPrefix(acc: nat, n: nat, k: nat)
    requires acc < Tx.INCREMENT && k <= n
    ensures N.Lengths(acc, n)[..k] == N.Lengths(acc, k) && N.Total(acc, k) <= N.Total(acc, n)
    decreases n
  {
    if k < n {
      LengthsPrefix(acc, n - 1, k);
    }
  }

  lemma LengthsTame(acc: nat, n: nat)
    requires acc < Tx.INCREMENT
    ensures EightOrNine(N.Lengths(acc, n)) && NoTwoNines(N.Lengths(acc, n))
  {
    N.LengthsAreTame(acc, n);
  }

  /** What the receiver reports after state e, up to state t. */
  ghost predicate Reported(q: C.Sys, e: C.Sys, later: seq<Subframe>, t: C.Sys) {
    && t.h.subs == e.h.subs + S.HeardOf(later)
      && t.h == S.TakeAll(S.Told(S.Settle(e.c.f, e.c.o), e.h), later).h
      && t.widths <= q.widths + {8, 9}
  }

  lemma HeadTail(ss: seq<Subframe>)
    requires ss != []
    ensures ss == [ss[0]] + ss[1..]
  {
  }

  lemma InStepWith(q: C.Sys, ss: seq<Subframe>, clocks: seq<nat>, short: seq<nat>, e: C.Sys, t: C.Sys)
    requires T.Listening(q) && ss != [] && T.Alternates(ss)
    requires |clocks| == CELLS * |ss| + 1 && EightOrNine(clocks) && NoTwoNines(clocks)
    requires short == clocks[..CELLS + 1]
    requires e == C.CoreRun(q, Wave(q.c.prev, FlagsOf(ss[0]) + [true], short))
    requires t == C.CoreRun(q, Wave(q.c.prev, AllFlags(ss) + [true], clocks))
    ensures Reported(q, e, ss[1..], t)
  {
    HeadTail(ss);
    T.ReceiverLocksOn(q, ss[0], ss[1..], clocks, e, t);
  }

  /** The receiver in step with a stream of subframes that the line carries in the transmitter's cells. */
  lemma InStep(q: C.Sys, ss: seq<Subframe>, acc: nat, e: C.Sys, t: C.Sys)
    requires T.Listening(q) && ss != [] && T.Alternates(ss) && acc < Tx.INCREMENT
    requires e == C.CoreRun(q, Wave(q.c.prev, FlagsOf(ss[0]) + [true], N.Lengths(acc, CELLS + 1)))
    requires t == C.CoreRun(q, Wave(q.c.prev, AllFlags(ss) + [true], N.Lengths(acc, CELLS * |ss| + 1)))
    ensures Reported(q, e, ss[1..], t)
  {
    LengthsTame(acc, CELLS * |ss| + 1);
    LengthsPrefix(acc, CELLS * |ss| + 1, CELLS + 1);
    InStepWith(q, ss, N.Lengths(acc, CELLS * |ss| + 1), N.Lengths(acc, CELLS + 1), e, t);
  }

  lemma OnlyFirst(a: seq<Subframe>, b: seq<Subframe>)
    requires a <= b && |a| == 1
    ensures a == [b[0]] && b == [b[0]] + b[1..] && AllFlags(a) == FlagsOf(b[0])
  {
    assert a[..0] == [];
  }

  /** The first subframe of a longer run. */
  lemma FirstOfRun(s: N.Sys, m: nat, cells: seq<Tx.Input>, k: nat, a: N.Sys, t: N.Sys)
    requires AtSubframe(s) && m >= 1 && |cells| == N.Total(s.r.acc, CELLS * m + 1) && t == N.Run(s, cells)
    requires k == N.Total(s.r.acc, CELLS + 1) && k <= |cells| && a == N.Run(s, cells[..k])
    ensures a.h.sent <= t.h.sent && |a.h.sent| == 1
  {
    SentAfter(s, 1, cells[..k], a);
    N.RunCut(s, cells, k);
    N.SentGrows(a, cells[k..]);
  }

  lemma Slices(ins: seq<Tx.Input>, n: nat, k: nat)
    requires k <= n && |ins| == n + 4
    ensures ins == ins[..n] + ins[n..] && |ins[n..]| == 4
    ensures ins[..n][..k] == ins[..k] && ins[..k + 4] == ins[..k] + ins[k..k + 4]
  {
  }

  /** What the receiver, whatever it holds, has seen at the end. */
  lemma LastCut(x: Receiver, s: N.Sys, m: nat, ins: seq<Tx.Input>, n: nat, q: C.Sys, a: N.Sys)
    requires AtSubframe(s) && q == Primed(x, s.r.enc.out)
    requires n == N.Total(s.r.acc, CELLS * m + 1) && |ins| == n + 4 && a == N.Run(s, ins[..n])
    ensures |a.h.sent| == m && T.Alternates(a.h.sent)
    ensures RxRun(x, LineOf(s, ins)).sys ==
              C.CoreRun(q, Wave(s.r.enc.out, AllFlags(a.h.sent) + [true], N.Lengths(s.r.acc, CELLS * m + 1)))
  {
    Slices(ins, n, 0);
    ReceiverSees(x, s, m, ins[..n], ins[n..], a);
  }

  /** What it has seen after the first subframe, the transmitter being at b. */
  lemma FirstCut(x: Receiver, s: N.Sys, ins: seq<Tx.Input>, k: nat, q: C.Sys, b: N.Sys, first: Subframe)
    requires AtSubframe(s) && q == Primed(x, s.r.enc.out)
    requires k == N.Total(s.r.acc, CELLS + 1) && |ins| == k + 4 && b == N.Run(s, ins[..k]) && b.h.sent == [first]
    ensures RxRun(x, LineOf(s, ins)).sys ==
              C.CoreRun(q, Wave(s.r.enc.out, FlagsOf(first) + [true], N.Lengths(s.r.acc, CELLS + 1)))
  {
    LastCut(x, s, 1, ins, k, q, b);
    OnlyFirst(b.h.sent, b.h.sent);
  }

  /** The run of the receiver, cut where it has seen the first subframe (e) and at its end (t). */
  lemma TwoCuts(x: Receiver, s: N.Sys, m: nat, ins: seq<Tx.Input>, n: nat, k: nat, q: C.Sys, a: N.Sys)
    requires AtSubframe(s) && m >= 1 && q == Primed(x, s.r.enc.out)
    requires n == N.Total(s.r.acc, CELLS * m + 1) && k == N.Total(s.r.acc, CELLS + 1) <= n
    requires |ins| == n + 4 && a == N.Run(s, ins[..n])
    ensures |a.h.sent| == m && T.Alternates(a.h.sent)
    ensures RxRun(x, LineOf(s, ins)).sys ==
              C.CoreRun(q, Wave(s.r.enc.out, AllFlags(a.h.sent) + [true], N.Lengths(s.r.acc, CELLS * m + 1)))
    ensures RxRun(x, LineOf(s, ins[..k + 4])).sys ==
              C.CoreRun(q, Wave(s.r.enc.out, FlagsOf(a.h.sent[0]) + [true], N.Lengths(s.r.acc, CELLS + 1)))
  {
    LastCut(x, s, m, ins, n, q, a);
    Slices(ins, n, k);
    var b := N.Run(s, ins[..k]);
    FirstOfRun(s, m, ins[..n], k, b, a);
    OnlyFirst(b.h.sent, a.h.sent);
    assert ins[..k + 4][..k] == ins[..k];
    FirstCut(x, s, ins[..k + 4], k, q, b, a.h.sent[0]);
  }

  /**
   The experiment: the transmitter s starts a subframe while the line of the receiver x is quiet; m
   subframes and one cell (n clocks) of inputs follow, and four more clocks. State a is the
   transmitter after those cells, e the receiver when it has seen the first subframe (k clocks and
   the same four), t the receiver at the end.
   */
  ghost predicate Wired(x: Receiver, s: N.Sys, m: nat, ins: seq<Tx.Input>, n: nat, k: nat, a: N.Sys, e: C.Sys,
      t: C.Sys) {
    && AtSubframe(s) && Quiet(x, s.r.enc.out) && m >= 1
    && n == N.Total(s.r.acc, CELLS * m + 1) && k == N.Total(s.r.acc, CELLS + 1) <= n
    && |ins| == n + 4 && a == N.Run(s, ins[..n])
    && e == RxRun(x, LineOf(s, ins[..k + 4])).sys && t == RxRun(x, LineOf(s, ins)).sys
  }

  lemma Delivers(x: Receiver, s: N.Sys, m: nat, ins: seq<Tx.Input>, n: nat, k: nat, a: N.Sys, e: C.Sys, t: C.Sys,
      q: C.Sys)
    requires Wired(x, s, m, ins, n, k, a, e, t) && q == C.CoreRun(x.sys, Hold(s.r.enc.out, 4))
    ensures |a.h.sent| == m && Reported(q, e, a.h.sent[1..], t)
  {
    QuietListens(x, s.r.enc.out, q);
    QuietPrimes(x, s.r.enc.out);
    TwoCuts(x, s, m, ins, n, k, q, a);
    InStep(q, a.h.sent, s.r.acc, e, t);
  }

  /**
   Across the wire, with anything in the receiver's decoder and samples loaded at any time: for
   every m, the receiver reports after its first subframe exactly the other m - 1, the bits as they
   were sampled, the channel, the pairs and the channel-status blocks. The tracked cell width never
   leaves {8, 9}.
   */
  lemma AudioCrossesTheWire(x: Receiver, s: N.Sys, m: nat, ins: seq<Tx.Input>, n: nat, k: nat, a: N.Sys, e: C.Sys,
      t: C.Sys)
    requires Wired(x, s, m, ins, n, k, a, e, t)
    ensures |a.h.sent| == m
    ensures t.h.subs == e.h.subs + S.HeardOf(a.h.sent[1..])
    ensures t.h == S.TakeAll(S.Told(S.Settle(e.c.f, e.c.o), e.h), a.h.sent[1..]).h
    ensures t.widths <= x.sys.widths + {8, 9}
  {
    var q := C.CoreRun(x.sys, Hold(s.r.enc.out, 4));
    QuietListens(x, s.r.enc.out, q);
    Delivers(x, s, m, ins, n, k, a, e, t, q);
    Opened(x.sys.widths, q, e, a.h.sent[1..], t);
  }

  lemma Opened(widths: set<nat>, q: C.Sys, e: C.Sys, later: seq<Subframe>, t: C.Sys)
    requires Reported(q, e, later, t) && q.widths <= widths + {8, 9}
    ensures t.h.subs == e.h.subs + S.HeardOf(later)
    ensures t.h == S.TakeAll(S.Told(S.Settle(e.c.f, e.c.o), e.h), later).h
    ensures t.widths <= widths + {8, 9}
  {
  }

  // ---------------------------------------------------------------------------
  // From any state at all
  // ---------------------------------------------------------------------------

  /** Subframes after which every receiver is in step. */
  const IN_STEP := A.SETTLING + 1

  /** The first j subframes of a longer run. */
  lemma StartOfRun(s: N.Sys, m: nat, j: nat, cells: seq<Tx.Input>, k: nat, a: N.Sys, t: N.Sys)
    requires AtSubframe(s) && m >= j && |cells| == N.Total(s.r.acc, CELLS * m + 1) && t == N.Run(s, cells)
    requires k == N.Total(s.r.acc, CELLS * j + 1) && k <= |cells| && a == N.Run(s, cells[..k])
    ensures a.h.sent <= t.h.sent && |a.h.sent| == j
  {
    SentAfter(s, j, cells[..k], a);
    N.RunCut(s, cells, k);
    N.SentGrows(a, cells[k..]);
  }

  /** A stretch of the run, as the core is fed. */
  lemma CoreIsFed(x: Receiver, s: N.Sys, m: nat, ins: seq<Tx.Input>, n: nat, q: C.Sys, a: N.Sys, t: C.Sys)
    requires AtSubframe(s) && q == Primed(x, s.r.enc.out)
    requires n == N.Total(s.r.acc, CELLS * m + 1) && |ins| == n + 4 && a == N.Run(s, ins[..n])
    requires t == RxRun(x, LineOf(s, ins)).sys
    ensures |a.h.sent| == m && T.Alternates(a.h.sent)
    ensures A.Fed(q, a.h.sent, N.Lengths(s.r.acc, CELLS * m + 1), t)
  {
    LastCut(x, s, m, ins, n, q, a);
    LengthsTame(s.r.acc, CELLS * m + 1);
    PrimedLevel(x, s.r.enc.out);
  }

  /** All but the last subframe of the start, that one, and the rest. */
  lemma ThreeParts(ss: seq<Subframe>, start: seq<Subframe>)
      returns (before: seq<Subframe>, first: Subframe, later: seq<Subframe>)
    requires start <= ss && start != []
    ensures ss == before + ([first] + later) && start == before + ([first] + [])
    ensures |before| == |start| - 1 && later == ss[|start|..]
  {
    var i := |start| - 1;
    before, first, later := ss[..i], ss[i], ss[i + 1..];
  }

  /**
   The experiment without any hypothesis on the receiver: m subframes and one cell (n clocks) and four
   more clocks of inputs; k clocks and the same four end where the receiver e has seen the first j.
   */
  ghost predicate Joined(x: Receiver, s: N.Sys, m: nat, j: nat, ins: seq<Tx.Input>, n: nat, k: nat, a: N.Sys,
      e: C.Sys, t: C.Sys) {
    && AtSubframe(s) && IN_STEP <= j <= m
    && n == N.Total(s.r.acc, CELLS * m + 1) && k == N.Total(s.r.acc, CELLS * j + 1) <= n
    && |ins| == n + 4 && a == N.Run(s, ins[..n])
    && e == RxRun(x, LineOf(s, ins[..k + 4])).sys && t == RxRun(x, LineOf(s, ins)).sys
  }

  lemma PrefixOfLengths(acc: nat, n: nat, k: nat, clocks: seq<nat>, short: seq<nat>)
    requires acc < Tx.INCREMENT && k <= n && clocks == N.Lengths(acc, n) && short == N.Lengths(acc, k)
    ensures short <= clocks
  {
    LengthsPrefix(acc, n, k);
    assert clocks[..k] == short;
  }

  /** Both ends of the experiment, as the core is fed; b is the transmitter after the first j. */
  lemma BothFed(x: Receiver, s: N.Sys, m: nat, j: nat, ins: seq<Tx.Input>, n: nat, k: nat, a: N.Sys, e: C.Sys,
      t: C.Sys, q: C.Sys) returns (b: N.Sys)
    requires Joined(x, s, m, j, ins, n, k, a, e, t) && q == Primed(x, s.r.enc.out)
    ensures |a.h.sent| == m && T.Alternates(a.h.sent) && b.h.sent <= a.h.sent && |b.h.sent| == j
    ensures A.Fed(q, a.h.sent, N.Lengths(s.r.acc, CELLS * m + 1), t)
    ensures A.Fed(q, b.h.sent, N.Lengths(s.r.acc, CELLS * j + 1), e)
    ensures q.c.decay < R.DECAY && s.r.acc < Tx.INCREMENT
  {
    b := N.Run(s, ins[..k]);
    PrimedLevel(x, s.r.enc.out);
    Slices(ins, n, k);
    assert ins[..k + 4][..k] == ins[..k];
    CoreIsFed(x, s, m, ins, n, q, a, t);
    CoreIsFed(x, s, j, ins[..k + 4], k, q, b, e);
    StartOfRun(s, m, j, ins[..n], k, b, a);
  }

  /**
   Across the wire, whatever the receiver holds when a subframe begins - synchroniser, timers, tracked
   cell width, decoder - and whatever is loaded when: for every m and every j from 65 on, what the
   receiver reports after its first j subframes are exactly the other m - j, the bits as they were
   sampled, the channel, the pairs and the channel-status blocks.
   */
  lemma AnyReceiverHears(x: Receiver, s: N.Sys, m: nat, j: nat, ins: seq<Tx.Input>, n: nat, k: nat, a: N.Sys,
      e: C.Sys, t: C.Sys)
    requires Joined(x, s, m, j, ins, n, k, a, e, t)
    ensures |a.h.sent| == m
    ensures t.h.subs == e.h.subs + S.HeardOf(a.h.sent[j..])
    ensures t.h == S.TakeAll(S.Told(S.Settle(e.c.f, e.c.o), e.h), a.h.sent[j..]).h
    ensures 8 <= t.c.cellW <= 9
  {
    var q := Primed(x, s.r.enc.out);
    var b := BothFed(x, s, m, j, ins, n, k, a, e, t, q);
    InStepFrom(q, a.h.sent, b.h.sent, s.r.acc, e, t, a.h.sent[j..]);
  }

  lemma InStepFrom(q: C.Sys, ss: seq<Subframe>, start: seq<Subframe>, acc: nat, e: C.Sys, t: C.Sys,
      later: seq<Subframe>)
    requires q.c.decay < R.DECAY && T.Alternates(ss) && acc < Tx.INCREMENT
    requires |start| >= IN_STEP && start <= ss && later == ss[|start|..]
    requires A.Fed(q, start, N.Lengths(acc, CELLS * |start| + 1), e)
    requires A.Fed(q, ss, N.Lengths(acc, CELLS * |ss| + 1), t)
    ensures t.h.subs == e.h.subs + S.HeardOf(later)
    ensures t.h == S.TakeAll(S.Told(S.Settle(e.c.f, e.c.o), e.h), later).h
    ensures 8 <= t.c.cellW <= 9
  {
    var clocks, short := N.Lengths(acc, CELLS * |ss| + 1), N.Lengths(acc, CELLS * |start| + 1);
    PrefixOfLengths(acc, CELLS * |ss| + 1, CELLS * |start| + 1, clocks, short);
    InStepInParts(q, ss, start, clocks, short, e, t, later);
  }

  lemma InStepInParts(q: C.Sys, ss: seq<Subframe>, start: seq<Subframe>, clocks: seq<nat>, short: seq<nat>,
      e: C.Sys, t: C.Sys, later: seq<Subframe>)
    requires q.c.decay < R.DECAY && T.Alternates(ss) && short <= clocks
    requires |start| >= IN_STEP && start <= ss && later == ss[|start|..]
    requires A.Fed(q, start, short, e) && A.Fed(q, ss, clocks, t)
    ensures t.h.subs == e.h.subs + S.HeardOf(later)
    ensures t.h == S.TakeAll(S.Told(S.Settle(e.c.f, e.c.o), e.h), later).h
    ensures 8 <= t.c.cellW <= 9
  {
    var before, first, rest := ThreeParts(ss, start);
    InStepAtLast(q, before, first, later, clocks, short, ss, start, e, t);
  }

  /** In parts: all but the last subframe of the start, that one, and the rest. */
  lemma InStepAtLast(q: C.Sys, before: seq<Subframe>, first: Subframe, later: seq<Subframe>, clocks: seq<nat>,
      short: seq<nat>, ss: seq<Subframe>, start: seq<Subframe>, e: C.Sys, t: C.Sys)
    requires q.c.decay < R.DECAY && T.Alternates(ss) && |before| >= A.SETTLING && short <= clocks
    requires ss == before + ([first] + later) && start == before + ([first] + [])
    requires A.Fed(q, start, short, e) && A.Fed(q, ss, clocks, t)
    ensures t.h.subs == e.h.subs + S.HeardOf(later)
    ensures t.h == S.TakeAll(S.Told(S.Settle(e.c.f, e.c.o), e.h), later).h
    ensures 8 <= t.c.cellW <= 9
  {
    A.AnyReceiverLocksOn(q, before, first, later, clocks, short, e, t);
  }

  // ---------------------------------------------------------------------------
  // From reset
  // ---------------------------------------------------------------------------

  /** The transmitter's registers after a clock in reset. */
  function ResetTx(ready: bool): Tx.Regs {
    Tx.Regs(0, false, Tx.Encoder(0, false, 0, false, false), Tx.Buffer(Tx.ZERO24, Tx.ZERO24, false, ready))
  }

  /** A receiver k clocks after reset, on a line that has stayed low. */
  predicate Idle(x: Receiver, k: nat) {
    && x.sys.c.f.state == D.HUNT
    && !x.s0 && !x.s1 && !x.s2 && !x.sys.c.prev && !x.sys.c.iv
    && x.sys.c.timer == k && x.sys.c.cellW == 8 && x.sys.c.decay == k
  }

  lemma IdleClock(x: Receiver, k: nat, y: Receiver)
    requires Idle(x, k) && k < 100 && y == RxStep(x, false)
    ensures Idle(y, k + 1) && y.sys.h == x.sys.h
  {
  }

  lemma {:induction false} IdleClocks(x: Receiver, line: seq<bool>)
    requires Idle(x, 0) && |line| <= 100 && forall k :: 0 <= k < |line| ==> !line[k]
    ensures Idle(RxRun(x, line), |line|) && RxRun(x, line).sys.h == x.sys.h
    decreases |line|
  {
    if line != [] {
      IdleClocks(x, line[..|line| - 1]);
      IdleClock(RxRun(x, line[..|line| - 1]), |line| - 1, RxRun(x, line));
    }
  }

  lemma {:induction false} LineStaysLow(s: N.Sys, ins: seq<Tx.Input>)
    requires s.r.Valid() && !s.r.tick && !s.r.enc.out && s.r.acc + |ins| * Tx.INCREMENT < Tx.MODULUS + Tx.INCREMENT
    ensures forall k :: 0 <= k < |LineOf(s, ins)| ==> !LineOf(s, ins)[k]
    decreases |ins|
  {
    if ins != [] {
      var n := |ins| - 1;
      LineStaysLow(s, ins[..n]);
      N.QuietClocks(s, ins[..n], N.Run(s, ins[..n]));
    }
  }

  /**
   Reset establishes the hypotheses above: nine clocks after both ends have been reset, the first
   subframe of a block begins and the receiver's line is quiet.
   */
  lemma ResetLeadsToStart(x: Receiver, ready: bool, ins: seq<Tx.Input>)
    requires |ins| == 9 && x.Regs() == R.Next(x.Regs(), true, false)
    ensures var s := N.Sys(ResetTx(ready), N.EMPTY);
            && AtSubframe(N.Sys(N.Run(s, ins).r, N.EMPTY)) && N.Place(N.Run(s, ins).r.enc) == 0
            && Quiet(RxRun(x, LineOf(s, ins)), N.Run(s, ins).r.enc.out)
            && Idle(RxRun(x, LineOf(s, ins)), 9) && RxRun(x, LineOf(s, ins)).sys.h == x.sys.h
  {
    var s := N.Sys(ResetTx(ready), N.EMPTY);
    var m := N.Run(s, ins[..8]);
    N.QuietClocks(s, ins[..8], m);
    N.OverflowClock(m, ins[8], N.Run(s, ins));
    LineStaysLow(s, ins);
    IdleClocks(x, LineOf(s, ins));
  }

  lemma QuietHunts(x: Receiver, v: bool, q: C.Sys)
    requires Quiet(x, v) && Idle(x, 9) && q == C.CoreRun(x.sys, Hold(v, 4))
    ensures T.Listening(q) && T.Hunting(q) && q.c.prev == v && C.View(q) == C.View(x.sys)
  {
    QuietListens(x, v, q);
    C.IdleClocks(x.sys, 496, 4, q);
  }

  /** A hunting receiver: the first subframe is reported like every other. */
  lemma HuntingHears(q: C.Sys, ss: seq<Subframe>, acc: nat, t: C.Sys)
    requires T.Listening(q) && T.Hunting(q) && ss != [] && T.Alternates(ss) && acc < Tx.INCREMENT
    requires t == C.CoreRun(q, Wave(q.c.prev, AllFlags(ss) + [true], N.Lengths(acc, CELLS * |ss| + 1)))
    ensures t.h == S.TakeAll(S.Told(D.Quiet(q.c.o), q.h), ss).h
  {
    LengthsTame(acc, CELLS * |ss| + 1);
    HeadTail(ss);
    T.HuntingHearsAll(q, ss[0], ss[1..], N.Lengths(acc, CELLS * |ss| + 1), t);
  }

  /**
   Out of reset: both ends have been reset (x0, and a transmitter with nothing recorded), nine clocks
   of inputs `start` later they are x and s, and m subframes and one cell follow as in Wired.
   */
  ghost predicate OutOfReset(x0: Receiver, ready: bool, start: seq<Tx.Input>, x: Receiver, s: N.Sys, m: nat,
      ins: seq<Tx.Input>, n: nat, a: N.Sys, t: C.Sys) {
    var s0 := N.Sys(ResetTx(ready), N.EMPTY);
    && x0.Regs() == R.Next(x0.Regs(), true, false) && |start| == 9
    && x == RxRun(x0, LineOf(s0, start)) && s == N.Sys(N.Run(s0, start).r, N.EMPTY)
    && m >= 1 && n == N.Total(s.r.acc, CELLS * m + 1) && |ins| == n + 4
    && a == N.Run(s, ins[..n]) && t == RxRun(x, LineOf(s, ins)).sys
  }

  /** From reset every subframe is reported, from the very first on, whatever is loaded when. */
  lemma AllHeardFromReset(x0: Receiver, ready: bool, start: seq<Tx.Input>, x: Receiver, s: N.Sys, m: nat,
      ins: seq<Tx.Input>, n: nat, a: N.Sys, t: C.Sys)
    requires OutOfReset(x0, ready, start, x, s, m, ins, n, a, t)
    ensures AtSubframe(s) && N.Place(s.r.enc) == 0 && |a.h.sent| == m
    ensures t.h == S.TakeAll(S.Told(D.Quiet(x.sys.c.o), x0.sys.h), a.h.sent).h
    ensures t.h.subs == x0.sys.h.subs + S.HeardOf(a.h.sent)
  {
    ResetLeadsToStart(x0, ready, start);
    var q := C.CoreRun(x.sys, Hold(s.r.enc.out, 4));
    QuietHunts(x, s.r.enc.out, q);
    QuietPrimes(x, s.r.enc.out);
    LastCut(x, s, m, ins, n, q, a);
    HuntingHears(q, a.h.sent, s.r.acc, t);
    S.TakeAllHears(S.Told(D.Quiet(q.c.o), q.h), a.h.sent);
  }

  // ---------------------------------------------------------------------------
  // Blocks
  // ---------------------------------------------------------------------------

  /** Consecutive subframes as frames. */
  function FramesOf(ss: seq<Subframe>): (fs: seq<S.Frame>)
    ensures |fs| == |ss| / 2
  {
    seq(|ss| / 2, k requires 0 <= k < |ss| / 2 => S.Frame(ss[2 * k].bits, ss[2 * k + 1].bits))
  }

  predicate FromBlockStart(ss: seq<Subframe>) { forall k :: 0 <= k < |ss| ==> ss[k].kind == N.KindAt(k) }

  lemma CutTwo(ss: seq<Subframe>, n: nat)
    requires |ss| == n + 2 && n % 2 == 0
    ensures ss == ss[..n] + [ss[n], ss[n + 1]] && FramesOf(ss)[..n / 2] == FramesOf(ss[..n])
  {
  }

  lemma {:induction false} FramesRoundTrip(ss: seq<Subframe>)
    requires |ss| % 2 == 0 && |ss| <= N.PLACES && FromBlockStart(ss)
    ensures S.BlockStream(FramesOf(ss)) == ss
    decreases |ss|
  {
    if ss != [] {
      var n := |ss| - 2;
      FramesRoundTrip(ss[..n]);
      CutTwo(ss, n);
      LastFrame(ss, n / 2);
    }
  }

  lemma LastFrame(ss: seq<Subframe>, i: nat)
    requires |ss| == 2 * i + 2 <= N.PLACES
    requires ss[2 * i].kind == N.KindAt(2 * i) && ss[2 * i + 1].kind == N.KindAt(2 * i + 1)
    ensures FramesOf(ss)[i] == S.Frame(ss[2 * i].bits, ss[2 * i + 1].bits)
    ensures ss[2 * i] == Subframe(S.FrameKind(i), ss[2 * i].bits) && ss[2 * i + 1] == Subframe(Y, ss[2 * i + 1].bits)
  {
  }

  /** Whole blocks of 384 subframes, the last one at the end. */
  function BlocksOf(ss: seq<Subframe>): (bs: seq<seq<S.Frame>>)
    ensures forall k :: 0 <= k < |bs| ==> |bs[k]| == FRAMES
    decreases |ss|
  {
    if |ss| < N.PLACES then []
    else
      var n := |ss| - N.PLACES;
      BlocksOf(ss[..n]) + [FramesOf(ss[n..])]
  }

  lemma KindRepeats(n: nat, k: nat)
    requires n % N.PLACES == 0
    ensures N.KindAt(n + k) == N.KindAt(k)
  {
    N.HalfOfPlaces(n + k);
    N.HalfOfPlaces(k);
    SamePlace(n, k);
  }

  lemma SamePlace(n: nat, k: nat)
    requires n % N.PLACES == 0
    ensures (n + k) % N.PLACES == k % N.PLACES
  {
  }

  lemma OneBlockMore(bs: seq<seq<S.Frame>>, b: seq<S.Frame>)
    ensures S.BlocksStream(bs + [b]) == S.BlocksStream(bs) + S.BlockStream(b)
  {
    assert (bs + [b])[..|bs|] == bs;
  }

  lemma BlocksOfGrows(ss: seq<Subframe>)
    requires |ss| >= N.PLACES
    ensures BlocksOf(ss) == BlocksOf(ss[..|ss| - N.PLACES]) + [FramesOf(ss[|ss| - N.PLACES..])]
  {
  }

  lemma LastBlockJoins(bs: seq<seq<S.Frame>>, b: seq<S.Frame>, ss: seq<Subframe>, n: nat)
    requires n <= |ss| && S.BlocksStream(bs) == ss[..n] && S.BlockStream(b) == ss[n..]
    ensures S.BlocksStream(bs + [b]) == ss
  {
    OneBlockMore(bs, b);
    assert ss == ss[..n] + ss[n..];
  }

  lemma OneBlockLess(n: nat)
    requires n % N.PLACES == 0 && n > 0
    ensures n >= N.PLACES && (n - N.PLACES) % N.PLACES == 0
  {
  }

  lemma {:induction false} BlocksRoundTrip(ss: seq<Subframe>)
    requires |ss| % N.PLACES == 0 && FromBlockStart(ss)
    ensures S.BlocksStream(BlocksOf(ss)) == ss
    decreases |ss|
  {
    if ss != [] {
      var n := |ss| - N.PLACES;
      OneBlockLess(|ss|);
      BlocksRoundTrip(ss[..n]);
      LastBlockStarts(ss, n);
      FramesRoundTrip(ss[n..]);
      BlocksOfGrows(ss);
      LastBlockJoins(BlocksOf(ss[..n]), FramesOf(ss[n..]), ss, n);
    }
  }

  lemma LastBlockStarts(ss: seq<Subframe>, n: nat)
    requires n <= |ss| && n % N.PLACES == 0 && FromBlockStart(ss)
    ensures FromBlockStart(ss[n..])
  {
    forall k | 0 <= k < |ss[n..]|
      ensures ss[n..][k].kind == N.KindAt(k)
    {
      KindRepeats(n, k);
    }
  }

  lemma BlocksReported(o: S.Told, later: seq<Subframe>, h: D.Hist)
    requires |later| % N.PLACES == 0 && FromBlockStart(later) && h == S.TakeAll(o, later).h
    ensures h.pairs == o.h.pairs + S.AllPairs(BlocksOf(later))
    ensures h.blocks == o.h.blocks + S.AllStatus(BlocksOf(later))
  {
    BlocksRoundTrip(later);
    S.BlocksDecode(o, BlocksOf(later));
  }

  /**
   Block by block: when the first subframe seen was the last of a block, every pair of samples and
   every channel-status block of the blocks after it arrives, in order, for any number of blocks.
   */
  lemma BlocksCrossTheWire(x: Receiver, s: N.Sys, m: nat, ins: seq<Tx.Input>, n: nat, k: nat, a: N.Sys, e: C.Sys,
      t: C.Sys,
                           later: seq<Subframe>)
    requires Wired(x, s, m, ins, n, k, a, e, t) && N.Place(s.r.enc) == N.PLACES - 1
    requires |a.h.sent| > 0 && later == a.h.sent[1..] && |later| % N.PLACES == 0
    ensures t.h.pairs == e.h.pairs + S.AllPairs(BlocksOf(later))
    ensures t.h.blocks == e.h.blocks + S.AllStatus(BlocksOf(later))
  {
    AudioCrossesTheWire(x, s, m, ins, n, k, a, e, t);
    LaterFromBlockStart(s, m, ins[..n], a);
    BlocksReported(S.Told(S.Settle(e.c.f, e.c.o), e.h), later, t.h);
  }

  lemma LaterFromBlockStart(s: N.Sys, m: nat, cells: seq<Tx.Input>, a: N.Sys)
    requires AtSubframe(s) && N.Place(s.r.enc) == N.PLACES - 1 && m >= 1
    requires |cells| == N.Total(s.r.acc, CELLS * m + 1) && a == N.Run(s, cells)
    ensures |a.h.sent| == m && FromBlockStart(a.h.sent[1..])
  {
    SentAfter(s, m, cells, a);
    AfterLastOfBlock(a.r.enc, a.h.sent);
  }

  lemma AfterLastOfBlock(e: Tx.Encoder, sent: seq<Subframe>)
    requires sent != [] && N.InOrder(N.PLACES - 1, e, sent)
    ensures FromBlockStart(sent[1..])
  {
    forall k | 0 <= k < |sent[1..]|
      ensures sent[1..][k].kind == N.KindAt(k)
    {
      assert sent[1..][k] == sent[k + 1];
      assert sent[k + 1].kind == N.KindAt(N.PLACES - 1 + (k + 1));
      KindRepeats(N.PLACES, k);
    }
  }

  lemma FrameOfPlace(j: nat, i: nat)
    requires i < FRAMES
    ensures (N.PLACES * j + 2 * i) % N.PLACES / 2 == i
  {
  }

  lemma StatusOfBlock(later: seq<Subframe>, cs: Status, j: nat)
    requires |later| % N.PLACES == 0 && j < |BlocksOf(later)|
    requires forall k :: 0 <= k < |later| ==> later[k].C() == cs[k % N.PLACES / 2]
    ensures S.StatusBits(BlocksOf(later)[j]) == cs
  {
    BlockAt(later, j);
    StatusOfSubframes(later[N.PLACES * j..N.PLACES * (j + 1)], later, cs, j);
  }

  lemma StatusOfSubframes(block: seq<Subframe>, later: seq<Subframe>, cs: Status, j: nat)
    requires N.PLACES * (j + 1) <= |later| && block == later[N.PLACES * j..N.PLACES * (j + 1)]
    requires forall k :: 0 <= k < |later| ==> later[k].C() == cs[k % N.PLACES / 2]
    ensures |block| == N.PLACES && S.StatusBits(FramesOf(block)) == cs
  {
    var c := S.StatusBits(FramesOf(block));
    forall i | 0 <= i < FRAMES
      ensures c[i] == cs[i]
    {
      assert block[2 * i] == later[N.PLACES * j + 2 * i];
      FrameOfPlace(j, i);
    }
  }

  ghost predicate Constant(ins: seq<Tx.Input>, cs: Status) {
    forall k :: 0 <= k < |ins| ==> ins[k].channelStatus == cs
  }

  /** With a constant channel status, each of those blocks is that channel status, bit for bit. */
  lemma StatusCrossesTheWire(s: N.Sys, ins: seq<Tx.Input>, cs: Status, sent: seq<Subframe>, j: nat)
    requires AtSubframe(s) && N.Place(s.r.enc) == N.PLACES - 1 && sent == N.Run(s, ins).h.sent
    requires Constant(ins, cs)
    requires sent != [] && |sent[1..]| % N.PLACES == 0 && j < |BlocksOf(sent[1..])|
    ensures S.StatusBits(BlocksOf(sent[1..])[j]) == cs
  {
    StartsInFormat(s);
    N.StatusOnRuns(N.PLACES - 1, s, ins, cs);
    StatusOfLater(sent, sent[1..], cs, j);
  }

  lemma StatusOfLater(sent: seq<Subframe>, later: seq<Subframe>, cs: Status, j: nat)
    requires sent != [] && later == sent[1..] && |later| % N.PLACES == 0 && j < |BlocksOf(later)|
    requires forall k :: 0 <= k < |sent| ==> sent[k].C() == cs[(N.PLACES - 1 + k) % N.PLACES / 2]
    ensures S.StatusBits(BlocksOf(later)[j]) == cs
  {
    forall k | 0 <= k < |later|
      ensures later[k].C() == cs[k % N.PLACES / 2]
    {
      assert later[k] == sent[k + 1];
      assert sent[k + 1].C() == cs[(N.PLACES - 1 + (k + 1)) % N.PLACES / 2];
      SamePlace(N.PLACES, k);
    }
    StatusOfBlock(later, cs, j);
  }

  lemma {:induction false} BlockAt(ss: seq<Subframe>, j: nat)
    requires |ss| % N.PLACES == 0 && j < |BlocksOf(ss)|
    ensures N.PLACES * |BlocksOf(ss)| == |ss|
    ensures N.PLACES * (j + 1) <= |ss|
    ensures BlocksOf(ss)[j] == FramesOf(ss[N.PLACES * j..N.PLACES * (j + 1)])
    decreases |ss|
  {
    OneBlockLess(|ss|);
    var n := |ss| - N.PLACES;
    var k := |BlocksOf(ss[..n])|;
    if k > 0 {
      BlockAt(ss[..n], if j < k then j else 0);
    } else {
      OneBlockOnly(ss, n);
    }
    if j < k {
      SlicePrefix(ss, n, N.PLACES * j, N.PLACES * (j + 1));
    } else {
      assert ss[n..] == ss[N.PLACES * j..N.PLACES * (j + 1)];
    }
  }

  lemma OneBlockOnly(ss: seq<Subframe>, n: nat)
    requires |ss| == n + N.PLACES && n % N.PLACES == 0 && |BlocksOf(ss[..n])| == 0
    ensures n == 0
  {
  }

  lemma SlicePrefix(ss: seq<Subframe>, n: nat, a: nat, b: nat)
    requires a <= b <= n <= |ss|
    ensures ss[..n][a..b] == ss[a..b]
  {
  }

  lemma FirstOfBlock(e: Tx.Encoder, sent: seq<Subframe>)
    requires N.InOrder(0, e, sent)
    ensures FromBlockStart(sent)
  {
    forall k | 0 <= k < |sent|
      ensures sent[k].kind == N.KindAt(k)
    {
      assert sent[k].kind == N.KindAt(0 + k);
    }
  }

  /**
   From reset, block by block: every pair and every channel-status block of the run, from the first
   block on, arrives in order, for any number of blocks.
   */
  lemma BlocksFromReset(x0: Receiver, ready: bool, start: seq<Tx.Input>, x: Receiver, s: N.Sys, m: nat,
      ins: seq<Tx.Input>, n: nat, a: N.Sys, t: C.Sys)
    requires OutOfReset(x0, ready, start, x, s, m, ins, n, a, t) && m % N.PLACES == 0
    ensures |a.h.sent| == m
    ensures t.h.pairs == x0.sys.h.pairs + S.AllPairs(BlocksOf(a.h.sent))
    ensures t.h.blocks == x0.sys.h.blocks + S.AllStatus(BlocksOf(a.h.sent))
  {
    AllHeardFromReset(x0, ready, start, x, s, m, ins, n, a, t);
    SentAfter(s, m, ins[..n], a);
    FirstOfBlock(a.r.enc, a.h.sent);
    BlocksReported(S.Told(D.Quiet(x.sys.c.o), x0.sys.h), a.h.sent, t.h);
  }

  lemma {:induction false} BlockCount(ss: seq<Subframe>)
    requires |ss| % N.PLACES == 0
    ensures |BlocksOf(ss)| == |ss| / N.PLACES
    decreases |ss|
  {
    if ss != [] {
      OneBlockLess(|ss|);
      BlockCount(ss[..|ss| - N.PLACES]);
    }
  }

  /** Each of these blocks is that channel status. */
  ghost predicate AllBlocks(bs: seq<seq<S.Frame>>, cs: Status) {
    forall j :: 0 <= j < |bs| ==> S.StatusBits(bs[j]) == cs
  }

  lemma StatusOfSent(s: N.Sys, ins: seq<Tx.Input>, cs: Status, sent: seq<Subframe>)
    requires AtSubframe(s) && N.Place(s.r.enc) == 0 && sent == N.Run(s, ins).h.sent && |sent| % N.PLACES == 0
    requires Constant(ins, cs)
    ensures AllBlocks(BlocksOf(sent), cs)
  {
    StartsInFormat(s);
    N.StatusOnRuns(0, s, ins, cs);
    forall j | 0 <= j < |BlocksOf(sent)|
      ensures S.StatusBits(BlocksOf(sent)[j]) == cs
    {
      StatusOfBlock(sent, cs, j);
    }
  }

  /** Exactly so many more status blocks, each of them that channel status. */
  ghost predicate Raised(before: seq<Status>, count: nat, cs: Status, after: seq<Status>) {
    && |after| == |before| + count && before <= after
    && forall j :: |before| <= j < |after| ==> after[j] == cs
  }

  lemma BlocksRaise(before: seq<Status>, bs: seq<seq<S.Frame>>, cs: Status, after: seq<Status>)
    requires AllBlocks(bs, cs) && after == before + S.AllStatus(bs)
    ensures Raised(before, |bs|, cs, after)
  {
    forall j | |before| <= j < |after|
      ensures after[j] == cs
    {
      assert after[j] == S.StatusBits(bs[j - |before|]);
    }
  }

  /** With a constant channel status, every 192 frames from reset raise it once, bit for bit. */
  lemma StatusFromReset(x0: Receiver, ready: bool, start: seq<Tx.Input>, x: Receiver, s: N.Sys, m: nat,
      ins: seq<Tx.Input>, n: nat, a: N.Sys, t: C.Sys, cs: Status)
    requires OutOfReset(x0, ready, start, x, s, m, ins, n, a, t) && m % N.PLACES == 0
    requires Constant(ins[..n], cs)
    ensures Raised(x0.sys.h.blocks, m / N.PLACES, cs, t.h.blocks)
  {
    AllHeardFromReset(x0, ready, start, x, s, m, ins, n, a, t);
    BlocksFromReset(x0, ready, start, x, s, m, ins, n, a, t);
    BlockCount(a.h.sent);
    StatusOfSent(s, ins[..n], cs, a.h.sent);
    BlocksRaise(x0.sys.h.blocks, BlocksOf(a.h.sent), cs, t.h.blocks);
  }
}
