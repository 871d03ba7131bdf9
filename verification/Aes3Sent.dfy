/**
 Runs of the AES3 transmitter: what it puts on the line is a sequence of complete subframes in
 cells of eight or nine clocks, with Z, X and Y preambles in block order.
 */
module Aes3Sent {
  import opened Aes3Line
  import opened Aes3Tx

  /**
   The line after every clock; whether the level changed at each tick; the data bits of the current
   subframe and the complete subframes.
   */
  datatype Hist = Hist(levels: seq<bool>, flags: seq<bool>, bits: seq<bool>, sent: seq<Subframe>)

  datatype Sys = Sys(r: Regs, h: Hist)

  const EMPTY := Hist([], [], [], [])

  /** What a tick adds to the record. */
  function NoteTick(h: Hist, e: Encoder, bit: bool, out: bool): Hist
    requires e.Valid()
  {
    var bits := if e.symbolCount >= PREAMBLE_CELLS && e.symbolCount % 2 == 1 then h.bits + [bit] else h.bits;
    var g := h.(flags := h.flags + [out != e.out]);
    if e.symbolCount == CELLS - 1 && |bits| == BITS then g.(bits := [], sent := h.sent + [Subframe(e.Kind(), bits)])
    else g.(bits := bits)
  }

  function Note(h: Hist, r: Regs, i: Input, n: Regs): Hist
    requires r.Valid()
  {
    var g := h.(levels := h.levels + [n.enc.out]);
    if r.tick then NoteTick(g, r.enc, r.enc.symbolCount >= PREAMBLE_CELLS && SampledBit(r, i), n.enc.out) else g
  }

  function Step(s: Sys, i: Input): (t: Sys)
    requires s.r.Valid()
    ensures t.r.Valid()
  {
    var n := Next(s.r, false, i);
    Sys(n, Note(s.h, s.r, i, n))
  }

  function Run(s: Sys, ins: seq<Input>): (t: Sys)
    requires s.r.Valid()
    ensures t.r.Valid()
    decreases |ins|
  {
    if ins == [] then s else Step(Run(s, ins[..|ins| - 1]), ins[|ins| - 1])
  }

  lemma RunOne(s: Sys, ins: seq<Input>, i: Input)
    requires s.r.Valid()
    ensures Run(s, ins + [i]) == Step(Run(s, ins), i)
  {
    assert (ins + [i])[..|ins|] == ins;
  }

  lemma {:induction false} RunSplits(s: Sys, a: seq<Input>, b: seq<Input>)
    requires s.r.Valid()
    ensures Run(s, a + b) == Run(Run(s, a), b)
    decreases |b|
  {
    if b == [] {
      assert a + b == a;
    } else {
      RunSplits(s, a, b[..|b| - 1]);
      AppendOne(a, b);
      RunOne(s, a + b[..|b| - 1], b[|b| - 1]);
    }
  }

  lemma RunCut(s: Sys, ins: seq<Input>, k: nat)
    requires s.r.Valid() && k <= |ins|
    ensures Run(s, ins) == Run(Run(s, ins[..k]), ins[k..])
  {
    assert ins == ins[..k] + ins[k..];
    RunSplits(s, ins[..k], ins[k..]);
  }

  // ---------------------------------------------------------------------------
  // The format
  // ---------------------------------------------------------------------------

  /** The cells of the current subframe so far. */
  function Partial(e: Encoder, bits: seq<bool>): seq<bool>
    requires e.Valid()
  {
    if e.symbolCount <= PREAMBLE_CELLS then PreambleFlags(e.Kind())[..e.symbolCount]
    else PreambleFlags(e.Kind()) + DataFlags(bits) + if e.symbolCount % 2 == 1 then [true] else []
  }

  /** The level in relation to the level before the subframe. */
  predicate LevelOk(e: Encoder)
    requires e.Valid()
  {
    if 0 < e.symbolCount < PREAMBLE_CELLS then e.out == (e.bmc != Pattern(e.Kind())[e.symbolCount - 1])
    else e.out == e.bmc
  }

  predicate CountOk(e: Encoder, bits: seq<bool>)
    requires e.Valid()
  {
    |bits| == if e.symbolCount <= PREAMBLE_CELLS then 0 else (e.symbolCount - PREAMBLE_CELLS) / 2
  }

  /** The line carries the complete subframes, then the current one as far as it got. */
  predicate Format(e: Encoder, h: Hist)
    requires e.Valid()
  {
    LevelOk(e) && CountOk(e, h.bits) && h.flags == AllFlags(h.sent) + Partial(e, h.bits)
  }

  /** One more cell of the preamble. */
  lemma PreambleGrows(e: Encoder, n: Encoder, flag: bool)
    requires e.Valid() && e.symbolCount < PREAMBLE_CELLS && flag == PreambleFlags(e.Kind())[e.symbolCount]
    requires n.Valid() && n.Kind() == e.Kind() && n.symbolCount == e.symbolCount + 1
    ensures Partial(n, []) == Partial(e, []) + [flag]
  {
    var p, k := PreambleFlags(e.Kind()), e.symbolCount;
    assert p[..k] + [p[k]] == p[..k + 1];
  }

  lemma PreambleTick(e: Encoder, h: Hist, bit: bool)
    requires e.Valid() && Format(e, h) && e.symbolCount < PREAMBLE_CELLS
    ensures var n := Symbol(e, bit); Format(n, NoteTick(h, e, bit, n.out))
  {
    FlagsArePatternChanges(e.Kind(), e.symbolCount);
    var k := e.symbolCount;
    assert k + 1 == PREAMBLE_CELLS ==> !Pattern(e.Kind())[k];
    var n := e.(out := e.bmc != Pattern(e.Kind())[k], symbolCount := k + 1);
    assert n == Symbol(e, bit) && h.bits == [];
    PreambleGrows(e, n, n.out != e.out);
    Regroup(AllFlags(h.sent), Partial(e, []), [n.out != e.out]);
  }

  lemma DataBegins(e: Encoder, bits: seq<bool>)
    requires e.Valid() && e.symbolCount >= PREAMBLE_CELLS && e.symbolCount % 2 == 0 && CountOk(e, bits)
    ensures Partial(e, bits) == PreambleFlags(e.Kind()) + DataFlags(bits)
  {
    var p := PreambleFlags(e.Kind());
    if e.symbolCount == PREAMBLE_CELLS {
      assert p[..PREAMBLE_CELLS] == p && DataFlags(bits) == [] && p + [] == p;
    } else {
      assert p + DataFlags(bits) + [] == p + DataFlags(bits);
    }
  }

  /** The first cell of a data bit. */
  lemma BoundaryTick(e: Encoder, h: Hist, bit: bool)
    requires e.Valid() && Format(e, h) && e.symbolCount >= PREAMBLE_CELLS && e.symbolCount % 2 == 0
    ensures var n := Symbol(e, bit); Format(n, NoteTick(h, e, bit, n.out))
  {
    var n := e.(out := !e.out, bmc := !e.out, symbolCount := e.symbolCount + 1);
    assert n == Symbol(e, bit);
    DataBegins(e, h.bits);
    Regroup(AllFlags(h.sent), PreambleFlags(e.Kind()) + DataFlags(h.bits), [true]);
  }

  lemma DataGrow(bits: seq<bool>, bit: bool)
    ensures DataFlags(bits + [bit]) == DataFlags(bits) + [true, bit]
  {
    assert (bits + [bit])[..|bits|] == bits;
  }

  lemma BitAppends(a: seq<bool>, p: seq<bool>, bits: seq<bool>, bit: bool)
    ensures (a + (p + DataFlags(bits) + [true])) + [bit] == a + (p + DataFlags(bits + [bit]))
  {
    DataGrow(bits, bit);
    FourPieces(a, p, DataFlags(bits), bit);
  }

  lemma FourPieces(a: seq<bool>, p: seq<bool>, d: seq<bool>, bit: bool)
    ensures (a + (p + d + [true])) + [bit] == a + (p + (d + [true, bit]))
  {
  }

  /** The second cell of a data bit, whatever comes next. */
  lemma SecondCell(e: Encoder, h: Hist, bit: bool, n: Encoder)
    requires e.Valid() && Format(e, h) && e.symbolCount >= PREAMBLE_CELLS && e.symbolCount % 2 == 1
    requires n == Symbol(e, bit)
    ensures n.out == n.bmc == (e.out != bit) && |h.bits| == (e.symbolCount - PREAMBLE_CELLS) / 2
    ensures h.flags + [n.out != e.out] == AllFlags(h.sent) + (PreambleFlags(e.Kind()) + DataFlags(h.bits + [bit]))
  {
    BitAppends(AllFlags(h.sent), PreambleFlags(e.Kind()), h.bits, bit);
  }

  lemma MiddleTick(e: Encoder, h: Hist, bit: bool)
    requires e.Valid() && Format(e, h)
    requires PREAMBLE_CELLS <= e.symbolCount < CELLS - 1 && e.symbolCount % 2 == 1
    ensures var n := Symbol(e, bit); Format(n, NoteTick(h, e, bit, n.out))
  {
    var n := Symbol(e, bit);
    SecondCell(e, h, bit, n);
    assert n.symbolCount == e.symbolCount + 1 && n.Kind() == e.Kind();
    DataBegins(n, h.bits + [bit]);
  }

  /** The last cell completes the subframe. */
  lemma LastTick(e: Encoder, h: Hist, bit: bool)
    requires e.Valid() && Format(e, h) && e.symbolCount == CELLS - 1
    ensures var n := Symbol(e, bit); Format(n, NoteTick(h, e, bit, n.out))
  {
    var n := Symbol(e, bit);
    var whole := h.bits + [bit];
    SecondCell(e, h, bit, n);
    FlagsGrow(h.sent, Subframe(e.Kind(), whole));
    StartsFresh(n, NoteTick(h, e, bit, n.out), h.sent + [Subframe(e.Kind(), whole)]);
  }

  lemma StartsFresh(n: Encoder, g: Hist, sent: seq<Subframe>)
    requires n.Valid() && n.symbolCount == 0 && n.out == n.bmc
    requires g.bits == [] && g.sent == sent && g.flags == AllFlags(sent)
    ensures Format(n, g)
  {
    assert Partial(n, []) == [];
    assert AllFlags(sent) + [] == AllFlags(sent);
  }

  lemma FormatKept(s: Sys, i: Input)
    requires s.r.Valid() && Format(s.r.enc, s.h)
    ensures var t := Step(s, i); Format(t.r.enc, t.h)
  {
    if s.r.tick {
      var e := s.r.enc;
      var h := s.h.(levels := s.h.levels + [Step(s, i).r.enc.out]);
      var bit := e.symbolCount >= PREAMBLE_CELLS && SampledBit(s.r, i);
      if e.symbolCount < PREAMBLE_CELLS {
        PreambleTick(e, h, bit);
      } else if e.symbolCount % 2 == 0 {
        BoundaryTick(e, h, bit);
      } else if e.symbolCount < CELLS - 1 {
        MiddleTick(e, h, bit);
      } else {
        LastTick(e, h, bit);
      }
    }
  }

  /** At every clock of every run. */
  lemma {:induction false} FormatOnRuns(s: Sys, ins: seq<Input>)
    requires s.r.Valid() && Format(s.r.enc, s.h)
    ensures var t := Run(s, ins); Format(t.r.enc, t.h)
    decreases |ins|
  {
    if ins != [] {
      FormatOnRuns(s, ins[..|ins| - 1]);
      FormatKept(Run(s, ins[..|ins| - 1]), ins[|ins| - 1]);
    }
  }

  // ---------------------------------------------------------------------------
  // Block order
  // ---------------------------------------------------------------------------

  const PLACES := 2 * FRAMES

  /** Subframes since the start of the block. */
  function Place(e: Encoder): nat { 2 * e.frameCount + if e.subframeB then 1 else 0 }

  function KindAt(place: nat): Kind {
    if place % 2 == 1 then Y else if place % PLACES == 0 then Z else X
  }

  /** The subframes sent since place p0 carry the preambles of p0, p0 + 1, ... */
  predicate InOrder(p0: nat, e: Encoder, sent: seq<Subframe>) {
    && Place(e) == (p0 + |sent|) % PLACES
    && forall k :: 0 <= k < |sent| ==> sent[k].kind == KindAt(p0 + k)
  }

  lemma KindOfPlace(e: Encoder, p: nat)
    requires e.Valid() && Place(e) == p % PLACES
    ensures e.Kind() == KindAt(p)
  {
    HalfOfPlaces(p);
  }

  lemma EvenShift(a: nat, r: nat)
    ensures (2 * a + r) % 2 == r % 2
  {
  }

  lemma HalfOfPlaces(p: nat)
    ensures p % PLACES % 2 == p % 2
  {
    var q, r := p / PLACES, p % PLACES;
    assert p == 2 * (FRAMES * q) + r;
    EvenShift(FRAMES * q, r);
  }

  lemma NextPlace(p: nat)
    ensures (p + 1) % PLACES == if p % PLACES == PLACES - 1 then 0 else p % PLACES + 1
  {
  }

  lemma OrderGrows(p0: nat, e: Encoder, sent: seq<Subframe>, bits: Bits28, n: Encoder)
    requires e.Valid() && InOrder(p0, e, sent) && n.Valid()
    requires Place(n) == if Place(e) == PLACES - 1 then 0 else Place(e) + 1
    ensures InOrder(p0, n, sent + [Subframe(e.Kind(), bits)])
  {
    KindOfPlace(e, p0 + |sent|);
    NextPlace(p0 + |sent|);
  }

  lemma OrderKept(p0: nat, s: Sys, i: Input)
    requires s.r.Valid() && Format(s.r.enc, s.h) && InOrder(p0, s.r.enc, s.h.sent)
    ensures var t := Step(s, i); InOrder(p0, t.r.enc, t.h.sent)
  {
    if s.r.tick && s.r.enc.symbolCount == CELLS - 1 {
      OrderGrows(p0, s.r.enc, s.h.sent, s.h.bits + [SampledBit(s.r, i)], Step(s, i).r.enc);
    }
  }

  /** Preambles follow the block structure for ever: Z, Y, then 191 times X, Y. */
  lemma {:induction false} OrderOnRuns(p0: nat, s: Sys, ins: seq<Input>)
    requires s.r.Valid() && Format(s.r.enc, s.h) && InOrder(p0, s.r.enc, s.h.sent)
    ensures var t := Run(s, ins); InOrder(p0, t.r.enc, t.h.sent)
    decreases |ins|
  {
    if ins != [] {
      OrderOnRuns(p0, s, ins[..|ins| - 1]);
      FormatOnRuns(s, ins[..|ins| - 1]);
      OrderKept(p0, Run(s, ins[..|ins| - 1]), ins[|ins| - 1]);
    }
  }

  // ---------------------------------------------------------------------------
  // The length of a cell
  // ---------------------------------------------------------------------------

  /** A tick is due; the next cell begins in this clock. */
  predicate Due(r: Regs) { r.tick && r.acc < INCREMENT }

  /** Clocks from one tick to the next, by the accumulator's remainder at the first. */
  function CellLength(acc: nat): nat { if acc + 8 * INCREMENT < MODULUS then 9 else 8 }

  function NextPhase(acc: nat): (next: nat)
    ensures acc < INCREMENT ==> next < INCREMENT
  {
    acc + CellLength(acc) * INCREMENT - MODULUS
  }

  function PhaseAfter(acc: nat, n: nat): (a: nat)
    ensures acc < INCREMENT ==> a < INCREMENT
  {
    if n == 0 then acc else NextPhase(PhaseAfter(acc, n - 1))
  }

  /** The lengths of the next n cells. */
  function Lengths(acc: nat, n: nat): (c: seq<nat>)
    ensures |c| == n
  {
    if n == 0 then [] else Lengths(acc, n - 1) + [CellLength(PhaseAfter(acc, n - 1))]
  }

  function Total(acc: nat, n: nat): nat {
    if n == 0 then 0 else Total(acc, n - 1) + CellLength(PhaseAfter(acc, n - 1))
  }

  /** Every cell lasts eight or nine clocks and no two neighbours nine. */
  lemma {:induction false} LengthsAreTame(acc: nat, n: nat)
    requires acc < INCREMENT
    ensures forall k :: 0 <= k < n ==> Lengths(acc, n)[k] == CellLength(PhaseAfter(acc, k))
    ensures forall k :: 0 <= k < n ==> 8 <= Lengths(acc, n)[k] <= 9
    ensures forall k :: 0 <= k && k + 1 < n ==> Lengths(acc, n)[k] == 8 || Lengths(acc, n)[k + 1] == 8
  {
    if n > 0 {
      LengthsAreTame(acc, n - 1);
      if n > 1 {
        assert PhaseAfter(acc, n - 1) == NextPhase(PhaseAfter(acc, n - 2));
      }
    }
  }

  /** Longer runs of cells keep their average: two cells last 16 or 17 clocks, three 24 or 25. */
  lemma ThreeCells(acc: nat)
    requires acc < INCREMENT
    ensures 16 <= Total(acc, 2) <= 17 && 24 <= Total(acc, 3) <= 25
  {
    assert PhaseAfter(acc, 1) == NextPhase(PhaseAfter(acc, 0));
    assert PhaseAfter(acc, 2) == NextPhase(PhaseAfter(acc, 1));
    assert Total(acc, 1) == CellLength(acc);
    assert Total(acc, 2) == Total(acc, 1) + CellLength(PhaseAfter(acc, 1));
    assert Total(acc, 3) == Total(acc, 2) + CellLength(PhaseAfter(acc, 2));
  }

  // ---------------------------------------------------------------------------
  // From clocks to cells
  // ---------------------------------------------------------------------------

  lemma QuietClock(m: Sys, i: Input, t: Sys)
    requires m.r.Valid() && !m.r.tick && m.r.acc + INCREMENT < MODULUS && t == Step(m, i)
    ensures !t.r.tick && t.r.acc == m.r.acc + INCREMENT && t.r.enc == m.r.enc
    ensures t.h == m.h.(levels := m.h.levels + [m.r.enc.out])
  {
  }

  lemma HoldGrows(levels: seq<bool>, v: bool, n: nat)
    ensures (levels + Hold(v, n)) + [v] == levels + Hold(v, n + 1)
  {
  }

  /** Clocks without a tick only move the accumulator and hold the line. */
  lemma {:induction false} QuietClocks(s: Sys, ins: seq<Input>, t: Sys)
    requires s.r.Valid() && !s.r.tick && s.r.acc + |ins| * INCREMENT < MODULUS
    requires t == Run(s, ins)
    ensures !t.r.tick && t.r.acc == s.r.acc + |ins| * INCREMENT && t.r.enc == s.r.enc
    ensures t.h == s.h.(levels := s.h.levels + Hold(s.r.enc.out, |ins|))
    decreases |ins|
  {
    if ins != [] {
      var k := |ins| - 1;
      var m := Run(s, ins[..k]);
      QuietClocks(s, ins[..k], m);
      QuietClock(m, ins[k], t);
      HoldGrows(s.h.levels, s.r.enc.out, k);
    } else {
      assert s.h.levels + Hold(s.r.enc.out, 0) == s.h.levels;
    }
  }

  lemma TickClock(s: Sys, i: Input, a: Sys)
    requires s.r.Valid() && Due(s.r) && a == Step(s, i)
    ensures !a.r.tick && a.r.acc == s.r.acc + INCREMENT
    ensures a.r.enc == Ticked(s.r, i)
    ensures a.h.flags == s.h.flags + [a.r.enc.out != s.r.enc.out] && a.h.levels == s.h.levels + [a.r.enc.out]
  {
  }

  lemma OverflowClock(m: Sys, i: Input, t: Sys)
    requires m.r.Valid() && !m.r.tick && m.r.acc + INCREMENT >= MODULUS && t == Step(m, i)
    ensures Due(t.r) && t.r.acc == m.r.acc + INCREMENT - MODULUS && t.r.enc == m.r.enc
    ensures t.h == m.h.(levels := m.h.levels + [m.r.enc.out])
  {
  }

  lemma HoldPieces(levels: seq<bool>, v: bool, n: nat)
    requires n >= 2
    ensures ((levels + [v]) + Hold(v, n - 2)) + [v] == levels + Hold(v, n)
  {
  }

  lemma FirstAndLast(s: Sys, first: Input, mid: seq<Input>, last: Input)
    requires s.r.Valid()
    ensures Run(s, [first] + mid + [last]) == Step(Run(Step(s, first), mid), last)
  {
    RunOne(s, [], first);
    assert [] + [first] == [first];
    RunSplits(s, [first], mid);
    RunOne(s, [first] + mid, last);
  }

  lemma PhaseSteps(acc: nat, n: nat)
    requires acc < INCREMENT && n == CellLength(acc)
    ensures acc + INCREMENT + (n - 2) * INCREMENT < MODULUS <= acc + n * INCREMENT
    ensures NextPhase(acc) == acc + INCREMENT + (n - 2) * INCREMENT + INCREMENT - MODULUS
    ensures n == 8 || n == 9
  {
  }

  /** The clocks of a cell: s to a carries the tick, a to m is quiet, m to t ends with the next tick due. */
  lemma CellClocks(s: Sys, v: bool, mid: seq<Input>, last: Input, a: Sys, m: Sys, t: Sys, next: nat)
    requires s.r.Valid() && a.r.Valid() && m.r.Valid()
    requires !a.r.tick && a.h.levels == s.h.levels + [v] && a.r.enc.out == v
    requires a.r.acc + |mid| * INCREMENT < MODULUS && a.r.acc + |mid| * INCREMENT + INCREMENT == MODULUS + next
    requires next < INCREMENT
    requires m == Run(a, mid) && t == Step(m, last)
    ensures Due(t.r) && t.r.acc == next && t.r.enc == a.r.enc
    ensures t.h == a.h.(levels := s.h.levels + Hold(v, |mid| + 2))
  {
    QuietClocks(a, mid, m);
    OverflowClock(m, last, t);
    HoldPieces(s.h.levels, v, |mid| + 2);
  }

  /** One cell: the symbol is formed in its first clock and held for the others. */
  lemma CellSent(s: Sys, ins: seq<Input>, a: Sys, t: Sys)
    requires s.r.Valid() && Due(s.r) && |ins| == CellLength(s.r.acc)
    requires a == Step(s, ins[0]) && t == Run(s, ins)
    ensures Due(t.r) && t.r.acc == NextPhase(s.r.acc) && t.r.enc == a.r.enc
    ensures t.h == a.h.(levels := s.h.levels + Hold(a.r.enc.out, CellLength(s.r.acc)))
  {
    var k := |ins| - 1;
    var mid := ins[1..k];
    assert ins == [ins[0]] + mid + [ins[k]];
    FirstAndLast(s, ins[0], mid, ins[k]);
    TickClock(s, ins[0], a);
    PhaseSteps(s.r.acc, |ins|);
    CellClocks(s, a.r.enc.out, mid, ins[k], a, Run(a, mid), t, NextPhase(s.r.acc));
  }

  /** Where n cells lead from a tick that is due, in clocks and in changes of level. */
  ghost predicate AfterCells(s: Sys, n: nat, t: Sys) {
    && t.r.Valid() && Due(t.r) && t.r.acc == PhaseAfter(s.r.acc, n)
      && |t.h.flags| == n && t.h.levels == Wave(s.r.enc.out, t.h.flags, Lengths(s.r.acc, n))
      && t.r.enc.out == LevelAfter(s.r.enc.out, t.h.flags)
  }

  lemma OneMoreCell(s: Sys, n: nat, m: Sys, ins: seq<Input>)
    requires s.r.acc < INCREMENT && AfterCells(s, n, m) && |ins| == CellLength(PhaseAfter(s.r.acc, n))
    ensures AfterCells(s, n + 1, Run(m, ins))
  {
    var a, t := Step(m, ins[0]), Run(m, ins);
    CellSent(m, ins, a, t);
    TickClock(m, ins[0], a);
    NextCell(s.r.enc.out, m.h.flags, Lengths(s.r.acc, n), m.r.enc.out, a.r.enc.out, CellLength(m.r.acc));
  }

  /** A tick is due and nothing is recorded yet. */
  ghost predicate Fresh(s: Sys) { s.r.Valid() && Due(s.r) && s.h.flags == [] && s.h.levels == [] }

  lemma NoCells(s: Sys, ins: seq<Input>)
    requires Fresh(s) && |ins| == Total(s.r.acc, 0)
    ensures AfterCells(s, 0, Run(s, ins))
  {
  }

  lemma CutBeforeLast(s: Sys, n: nat, ins: seq<Input>, before: seq<Input>)
    requires n > 0 && Fresh(s) && |ins| == Total(s.r.acc, n)
    requires before == ins[..Total(s.r.acc, n - 1)] && AfterCells(s, n - 1, Run(s, before))
    ensures AfterCells(s, n, Run(s, ins))
  {
    RunCut(s, ins, |before|);
    OneMoreCell(s, n - 1, Run(s, before), ins[|before|..]);
  }

  lemma {:induction false} CellsSent(s: Sys, n: nat, ins: seq<Input>)
    requires Fresh(s) && |ins| == Total(s.r.acc, n)
    ensures AfterCells(s, n, Run(s, ins))
    decreases n
  {
    if n == 0 {
      NoCells(s, ins);
    } else {
      var before := ins[..Total(s.r.acc, n - 1)];
      CellsSent(s, n - 1, before);
      CutBeforeLast(s, n, ins, before);
    }
  }

  lemma NextCell(v: bool, flags: seq<bool>, clocks: seq<nat>, was: bool, now: bool, length: nat)
    requires |clocks| == |flags| && was == LevelAfter(v, flags)
    ensures Wave(v, flags + [now != was], clocks + [length]) == Wave(v, flags, clocks) + Hold(now, length)
    ensures now == LevelAfter(v, flags + [now != was])
  {
    var f, c := flags + [now != was], clocks + [length];
    assert f[..|flags|] == flags && c[..|flags|] == clocks;
  }

  // ---------------------------------------------------------------------------
  // The payload
  // ---------------------------------------------------------------------------

  lemma BitOfPayload(audio: Word24, c: bool, j: nat)
    requires j < BITS
    ensures DataBit(j, audio, c) == Payload(audio, c)[j]
  {
    var p := Payload(audio, c);
    if j < AUDIO_BITS {
      assert p[..AUDIO_BITS][j] == p[j];
    }
  }

  /** No sample is loaded and the channel status stands still. */
  predicate Undisturbed(ins: seq<Input>, cs: Status) {
    forall k :: 0 <= k < |ins| ==> !ins[k].audioValid && ins[k].channelStatus == cs
  }

  /** The subframe under way keeps its position and its sample. */
  predicate SameSubframe(a: Regs, b: Regs) {
    && a.enc.frameCount == b.enc.frameCount && a.enc.subframeB == b.enc.subframeB
    && CurrentAudio(a) == CurrentAudio(b)
  }

  /** What the subframe under way becomes if nothing disturbs it. */
  function Completed(bits: seq<bool>, audio: Word24, c: bool): (b: Bits28)
    requires |bits| <= BITS
  {
    bits + Payload(audio, c)[|bits|..]
  }

  lemma CompletedGrows(bits: seq<bool>, audio: Word24, c: bool)
    requires |bits| < BITS
    ensures Completed(bits + [DataBit(|bits|, audio, c)], audio, c) == Completed(bits, audio, c)
  {
    BitOfPayload(audio, c, |bits|);
  }

  /** One undisturbed clock inside a subframe, or the one that completes it. */
  lemma UndisturbedClock(s: Sys, i: Input, audio: Word24, c: bool, t: Sys)
    requires s.r.Valid() && Format(s.r.enc, s.h) && t == Step(s, i) && !i.audioValid
    requires audio == CurrentAudio(s.r) && c == i.channelStatus[s.r.enc.frameCount]
    ensures if |t.h.sent| == |s.h.sent|
            then SameSubframe(s.r, t.r) && |t.h.bits| <= BITS && t.h.sent == s.h.sent
                 && Completed(t.h.bits, audio, c) == Completed(s.h.bits, audio, c)
            else t.h.sent == s.h.sent + [Subframe(s.r.enc.Kind(), Completed(s.h.bits, audio, c))]
  {
    var e := s.r.enc;
    if s.r.tick && e.symbolCount >= PREAMBLE_CELLS && e.symbolCount % 2 == 1 {
      assert e.BitIndex() == |s.h.bits|;
      CompletedGrows(s.h.bits, audio, c);
      if e.symbolCount == CELLS - 1 {
        assert Payload(audio, c)[BITS..] == [];
      }
    }
  }

  lemma {:induction false} SentGrows(s: Sys, ins: seq<Input>)
    requires s.r.Valid()
    ensures s.h.sent <= Run(s, ins).h.sent
    decreases |ins|
  {
    if ins != [] {
      SentGrows(s, ins[..|ins| - 1]);
    }
  }

  /** Where undisturbed clocks may lead from s. */
  ghost predicate Continued(s: Sys, audio: Word24, c: bool, t: Sys) {
    |s.h.bits| <= BITS &&
      if |t.h.sent| == |s.h.sent|
      then SameSubframe(s.r, t.r) && |t.h.bits| <= BITS && t.h.sent == s.h.sent
           && Completed(t.h.bits, audio, c) == Completed(s.h.bits, audio, c)
      else t.h.sent == s.h.sent + [Subframe(s.r.enc.Kind(), Completed(s.h.bits, audio, c))]
  }

  lemma ContinuesFurther(s: Sys, m: Sys, i: Input, audio: Word24, c: bool, t: Sys)
    requires Continued(s, audio, c, m) && |m.h.sent| == |s.h.sent|
    requires s.r.enc.Valid() && audio == CurrentAudio(s.r) && c == i.channelStatus[s.r.enc.frameCount]
    requires m.r.Valid() && Format(m.r.enc, m.h) && t == Step(m, i) && !i.audioValid
    ensures Continued(s, audio, c, t)
  {
    UndisturbedClock(m, i, audio, c, t);
  }

  /**
   As long as nothing is loaded and the channel status stands still, the rest of the subframe under
   way is the rest of the payload of the buffered sample, parity included.
   */
  lemma {:induction false} RestOfSubframe(s: Sys, ins: seq<Input>, cs: Status, t: Sys)
    requires s.r.Valid() && Format(s.r.enc, s.h) && Undisturbed(ins, cs)
    requires t == Run(s, ins) && |t.h.sent| <= |s.h.sent| + 1
    ensures Continued(s, CurrentAudio(s.r), cs[s.r.enc.frameCount], t)
    decreases |ins|
  {
    if ins != [] {
      var k := |ins| - 1;
      var m := Run(s, ins[..k]);
      SentGrows(s, ins[..k]);
      OneSent(m, ins[k], t);
      RestOfSubframe(s, ins[..k], cs, m);
      if |m.h.sent| == |s.h.sent| {
        FormatOnRuns(s, ins[..k]);
        ContinuesFurther(s, m, ins[k], CurrentAudio(s.r), cs[s.r.enc.frameCount], t);
      }
    }
  }

  lemma OneSent(m: Sys, i: Input, t: Sys)
    requires m.r.Valid() && t == Step(m, i)
    ensures m.h.sent <= t.h.sent
  {
  }

  /** An undisturbed subframe carries its sample, its C bit and even parity. */
  lemma SubframeCarriesSample(s: Sys, ins: seq<Input>, cs: Status, t: Sys)
    requires s.r.Valid() && Format(s.r.enc, s.h) && s.r.enc.symbolCount == 0 && Undisturbed(ins, cs)
    requires t == Run(s, ins) && |t.h.sent| == |s.h.sent| + 1
    ensures t.h.sent == s.h.sent + [Subframe(s.r.enc.Kind(), Payload(CurrentAudio(s.r), cs[s.r.enc.frameCount]))]
  {
    RestOfSubframe(s, ins, cs, t);
    var p := Payload(CurrentAudio(s.r), cs[s.r.enc.frameCount]);
    assert s.h.bits == [] && [] + p[0..] == p;
  }

  lemma {:induction false} OddConcat(a: seq<bool>, b: seq<bool>)
    ensures Odd(a + b) == (Odd(a) != Odd(b))
    decreases |b|
  {
    if b == [] {
      assert a + b == a;
    } else {
      assert (a + b)[..|a + b| - 1] == a + b[..|b| - 1];
      OddConcat(a, b[..|b| - 1]);
    }
  }

  /**
   `audio_valid` is not held back during a subframe. After a load the subframe is completed from the
   new sample: it is the new sample's payload exactly when the bits already sent agree with it, and
   its parity is even exactly when they have the parity of the new sample's first bits.
   */
  lemma LoadMidSubframe(s: Sys, ins: seq<Input>, cs: Status, t: Sys)
    requires s.r.Valid() && Format(s.r.enc, s.h) && Undisturbed(ins, cs)
    requires t == Run(s, ins) && |t.h.sent| == |s.h.sent| + 1
    ensures |s.h.bits| <= BITS
    ensures var p := Payload(CurrentAudio(s.r), cs[s.r.enc.frameCount]);
            var j := |s.h.bits|;
            && (t.h.sent[|s.h.sent|].bits == p <==> s.h.bits == p[..j])
            && (!Odd(t.h.sent[|s.h.sent|].bits) <==> Odd(s.h.bits) == Odd(p[..j]))
  {
    RestOfSubframe(s, ins, cs, t);
    var p := Payload(CurrentAudio(s.r), cs[s.r.enc.frameCount]);
    var j := |s.h.bits|;
    var q := t.h.sent[|s.h.sent|].bits;
    assert p == p[..j] + p[j..] && q == s.h.bits + p[j..];
    assert q[..j] == s.h.bits;
    OddConcat(p[..j], p[j..]);
    OddConcat(s.h.bits, p[j..]);
  }

  lemma LoadClock(s: Sys, i: Input, a: Sys)
    requires s.r.Valid() && Format(s.r.enc, s.h) && a == Step(s, i)
    requires s.r.tick && s.r.enc.symbolCount == PREAMBLE_CELLS + 1 && !CurrentAudio(s.r)[0]
    requires i.audioValid && i.audioL[0] && i.audioR[0]
    ensures a.h.bits == [false] && a.h.sent == s.h.sent && CurrentAudio(a.r)[0]
  {
    assert s.h.bits == [] && s.r.enc.BitIndex() == 0;
  }

  /** An instance: a load while bit 0 is sent, which it would have changed. The parity comes out odd. */
  lemma LoadTearsSubframe(s: Sys, i: Input, ins: seq<Input>, cs: Status, t: Sys)
    requires s.r.Valid() && Format(s.r.enc, s.h)
    requires s.r.tick && s.r.enc.symbolCount == PREAMBLE_CELLS + 1 && !CurrentAudio(s.r)[0]
    requires i.audioValid && i.audioL[0] && i.audioR[0] && Undisturbed(ins, cs)
    requires t == Run(Step(s, i), ins) && |t.h.sent| == |s.h.sent| + 1
    ensures Odd(t.h.sent[|s.h.sent|].bits)
  {
    var a := Step(s, i);
    FormatKept(s, i);
    LoadClock(s, i, a);
    LoadMidSubframe(a, ins, cs, t);
    FirstPayloadBit(CurrentAudio(a.r), cs[a.r.enc.frameCount]);
    OneBitOdd(false);
    OneBitOdd(true);
  }

  lemma FirstPayloadBit(audio: Word24, c: bool)
    ensures Payload(audio, c)[..1] == [audio[0]]
  {
    assert Payload(audio, c)[..AUDIO_BITS][0] == audio[0];
  }

  lemma OneBitOdd(b: bool)
    ensures Odd([b]) == b
  {
    assert [b][..0] == [];
  }

  // ---------------------------------------------------------------------------
  // Loading samples
  // ---------------------------------------------------------------------------

  /** A pair of samples as the source offers it. */
  datatype Pair = Pair(left: Word24, right: Word24)

  /** The pair loaded last. */
  function LastLoad(was: Pair, ins: seq<Input>): Pair
    decreases |ins|
  {
    if ins == [] then was
    else
      var i := ins[|ins| - 1];
      if i.audioValid then Pair(i.audioL, i.audioR) else LastLoad(was, ins[..|ins| - 1])
  }

  lemma {:induction false} BufferHoldsLastLoad(s: Sys, ins: seq<Input>)
    requires s.r.Valid()
    ensures var t := Run(s, ins).r.buf;
            Pair(t.left, t.right) == LastLoad(Pair(s.r.buf.left, s.r.buf.right), ins)
    decreases |ins|
  {
    if ins != [] {
      BufferHoldsLastLoad(s, ins[..|ins| - 1]);
    }
  }

  /** An undisturbed A subframe carries the left sample of the pair loaded last, a B subframe the right one. */
  lemma SubframeCarriesLastLoad(s0: Sys, before: seq<Input>, ins: seq<Input>, cs: Status, s: Sys, t: Sys)
    requires s0.r.Valid() && Format(s0.r.enc, s0.h) && s == Run(s0, before) && t == Run(s, ins)
    requires s.r.enc.symbolCount == 0 && Undisturbed(ins, cs) && |t.h.sent| == |s.h.sent| + 1
    ensures var p, x := LastLoad(Pair(s0.r.buf.left, s0.r.buf.right), before), t.h.sent[|s.h.sent|];
            && t.h.sent == s.h.sent + [x]
            && x.bits == Payload(if x.kind == Y then p.right else p.left, cs[s.r.enc.frameCount])
  {
    FormatOnRuns(s0, before);
    BufferHoldsLastLoad(s0, before);
    SubframeCarriesSample(s, ins, cs, t);
  }

  /** A subframes among those sent. */
  function LeftSent(sent: seq<Subframe>): nat
    decreases |sent|
  {
    if sent == [] then 0 else LeftSent(sent[..|sent| - 1]) + if sent[|sent| - 1].kind != Y then 1 else 0
  }

  lemma LeftGrows(sent: seq<Subframe>, x: Subframe)
    ensures LeftSent(sent + [x]) == LeftSent(sent) + if x.kind != Y then 1 else 0
  {
    assert (sent + [x])[..|sent|] == sent;
  }

  /** The clock that completes an A subframe, and only that one, clears the buffer. */
  lemma PendingStep(m: Sys, i: Input, t: Sys)
    requires m.r.Valid() && Format(m.r.enc, m.h) && t == Step(m, i)
    ensures LeftSent(m.h.sent) <= LeftSent(t.h.sent)
    ensures t.r.buf.valid <==> LeftSent(t.h.sent) == LeftSent(m.h.sent) && (i.audioValid || m.r.buf.valid)
  {
    var e := m.r.enc;
    if m.r.tick && e.symbolCount == CELLS - 1 {
      LeftGrows(m.h.sent, Subframe(e.Kind(), m.h.bits + [SampledBit(m.r, i)]));
    }
  }

  /** A subframes completed before clock k. */
  function LeftBy(s: Sys, ins: seq<Input>, k: nat): nat
    requires s.r.Valid() && k <= |ins|
  {
    LeftSent(Run(s, ins[..k]).h.sent)
  }

  /** The load in clock k has not been followed by the end of an A subframe. */
  ghost predicate LoadPending(s: Sys, ins: seq<Input>, k: nat, now: nat)
    requires s.r.Valid()
  {
    k < |ins| && ins[k].audioValid && LeftBy(s, ins, k) == now
  }

  ghost predicate Pending(s: Sys, ins: seq<Input>)
    requires s.r.Valid()
  {
    var now := LeftBy(s, ins, |ins|);
    (s.r.buf.valid && LeftBy(s, ins, 0) == now) || exists k: nat :: LoadPending(s, ins, k, now)
  }

  /** One clock more, as the buffer and as the record see it. */
  lemma OneClockMore(s: Sys, ins: seq<Input>, n: nat)
    requires s.r.Valid() && Format(s.r.enc, s.h) && |ins| == n + 1
    ensures LeftBy(s, ins, n) <= LeftBy(s, ins, n + 1)
    ensures Run(s, ins).r.buf.valid <==>
              LeftBy(s, ins, n + 1) == LeftBy(s, ins, n) && (ins[n].audioValid || Run(s, ins[..n]).r.buf.valid)
  {
    assert ins[..n + 1] == ins;
    FormatOnRuns(s, ins[..n]);
    PendingStep(Run(s, ins[..n]), ins[n], Run(s, ins));
  }

  lemma SamePrefix(s: Sys, ins: seq<Input>, front: seq<Input>, k: nat)
    requires s.r.Valid() && k <= |front| <= |ins| && front == ins[..|front|]
    ensures LeftBy(s, front, k) == LeftBy(s, ins, k)
  {
    assert front[..k] == ins[..k];
  }

  lemma {:induction false} LeftNeverShrinks(s: Sys, ins: seq<Input>, k: nat, n: nat)
    requires s.r.Valid() && Format(s.r.enc, s.h) && k <= n <= |ins|
    ensures LeftBy(s, ins, k) <= LeftBy(s, ins, n)
    decreases n
  {
    if k < n {
      LeftNeverShrinks(s, ins, k, n - 1);
      var front := ins[..n];
      OneClockMore(s, front, n - 1);
      SamePrefix(s, ins, front, n);
      SamePrefix(s, ins, front, n - 1);
    }
  }

  /** What is pending after n + 1 clocks was pending after n or is the last load. */
  lemma PendingWas(s: Sys, ins: seq<Input>, front: seq<Input>, k: nat)
    requires s.r.Valid() && Format(s.r.enc, s.h) && |ins| == |front| + 1 && front == ins[..|front|]
    requires LoadPending(s, ins, k, LeftBy(s, ins, |ins|))
    ensures LeftBy(s, ins, |ins|) == LeftBy(s, ins, |front|)
    ensures k == |front| || LoadPending(s, front, k, LeftBy(s, front, |front|))
  {
    LeftNeverShrinks(s, ins, k, |front|);
    LeftNeverShrinks(s, ins, |front|, |ins|);
    SamePrefix(s, ins, front, |front|);
    if k < |front| {
      SamePrefix(s, ins, front, k);
    }
  }

  lemma PendingNow(s: Sys, ins: seq<Input>, front: seq<Input>)
    requires s.r.Valid() && |ins| == |front| + 1 && front == ins[..|front|]
    requires LeftBy(s, ins, |ins|) == LeftBy(s, ins, |front|)
    ensures ins[|front|].audioValid || Pending(s, front) ==> Pending(s, ins)
  {
    var n, now := |front|, LeftBy(s, ins, |ins|);
    SamePrefix(s, ins, front, n);
    SamePrefix(s, ins, front, 0);
    if ins[n].audioValid {
      assert LoadPending(s, ins, n, now);
    } else if k: nat :| LoadPending(s, front, k, LeftBy(s, front, n)) {
      SamePrefix(s, ins, front, k);
      assert LoadPending(s, ins, k, now);
    }
  }

  lemma PendingMoves(s: Sys, ins: seq<Input>, front: seq<Input>)
    requires s.r.Valid() && Format(s.r.enc, s.h) && |ins| == |front| + 1 && front == ins[..|front|]
    ensures Pending(s, ins) <==>
              LeftBy(s, ins, |ins|) == LeftBy(s, ins, |front|) && (ins[|front|].audioValid || Pending(s, front))
  {
    var n, now := |front|, LeftBy(s, ins, |ins|);
    if Pending(s, ins) {
      SamePrefix(s, ins, front, n);
      SamePrefix(s, ins, front, 0);
      LeftNeverShrinks(s, ins, 0, n);
      LeftNeverShrinks(s, ins, n, |ins|);
      if k: nat :| LoadPending(s, ins, k, now) {
        PendingWas(s, ins, front, k);
      }
    }
    if LeftBy(s, ins, |ins|) == LeftBy(s, ins, n) {
      PendingNow(s, ins, front);
    }
  }

  lemma NothingPending(s: Sys)
    requires s.r.Valid()
    ensures Pending(s, []) <==> s.r.buf.valid
  {
  }

  /** On every run a sample counts as pending from its load to the end of the next A subframe. */
  lemma {:induction false} PendingExactly(s: Sys, ins: seq<Input>)
    requires s.r.Valid() && Format(s.r.enc, s.h)
    ensures Run(s, ins).r.buf.valid <==> Pending(s, ins)
    decreases |ins|
  {
    if ins == [] {
      NothingPending(s);
    } else {
      var n := |ins| - 1;
      PendingExactly(s, ins[..n]);
      OneClockMore(s, ins, n);
      PendingMoves(s, ins, ins[..n]);
    }
  }

  /** The handshake: `audio_ready` says, one clock later, whether no sample is pending. */
  lemma ReadyExactly(s: Sys, ins: seq<Input>, i: Input, m: Sys)
    requires s.r.Valid() && Format(s.r.enc, s.h) && m == Run(s, ins)
    ensures Step(m, i).r.buf.ready <==> !Pending(s, ins)
  {
    PendingExactly(s, ins);
  }

  /** After the next subframe: one place further on. */
  lemma AfterA(p0: nat, s: Sys, a: seq<Input>, m: Sys)
    requires s.r.Valid() && Format(s.r.enc, s.h) && InOrder(p0, s.r.enc, s.h.sent) && !s.r.enc.subframeB
    requires m == Run(s, a) && |m.h.sent| == |s.h.sent| + 1
    ensures m.r.Valid() && m.r.enc.subframeB && m.r.enc.frameCount == s.r.enc.frameCount
  {
    OrderOnRuns(p0, s, a);
    NextPlace(p0 + |s.h.sent|);
  }

  /** The end of an A subframe raises `audio_ready`. */
  lemma ReadyAfterA(s: Sys, a: seq<Input>, cs: Status, m: Sys, i: Input)
    requires s.r.Valid() && Format(s.r.enc, s.h) && s.r.enc.symbolCount == 0 && !s.r.enc.subframeB
    requires Undisturbed(a, cs) && m == Run(s, a) && |m.h.sent| == |s.h.sent| + 1
    ensures m.r.Valid() && Step(m, i).r.buf.ready
  {
    SubframeCarriesSample(s, a, cs, m);
    LeftGrows(s.h.sent, m.h.sent[|s.h.sent|]);
    ReadyExactly(s, a, i, m);
    assert a[..|a|] == a;
  }

  /**
   What the handshake makes of a prompt source. `audio_ready` rises when the A subframe ends, not the
   frame: a pair loaded then, before the first cell of B, goes out as its right sample beside the left
   sample of the pair before it.
   */
  lemma PromptLoadSplitsPair(p0: nat, s: Sys, a: seq<Input>, load: Input, b: seq<Input>, cs: Status, m: Sys, n: Sys,
      t: Sys)
    requires s.r.Valid() && Format(s.r.enc, s.h) && InOrder(p0, s.r.enc, s.h.sent)
    requires s.r.enc.symbolCount == 0 && !s.r.enc.subframeB
    requires Undisturbed(a, cs) && m == Run(s, a) && |m.h.sent| == |s.h.sent| + 1
    requires load.audioValid && m.r.Valid() && n == Step(m, load) && n.r.enc.symbolCount == 0 && n.h.sent == m.h.sent
    requires Undisturbed(b, cs) && t == Run(n, b) && |t.h.sent| == |n.h.sent| + 1
    ensures Step(m, load).r.buf.ready
    ensures exists x, y :: t.h.sent == s.h.sent + [x] + [y] && x.kind != Y && y.kind == Y
              && x.bits == Payload(s.r.buf.left, cs[s.r.enc.frameCount])
              && y.bits == Payload(load.audioR, cs[s.r.enc.frameCount])
  {
    ReadyAfterA(s, a, cs, m, load);
    SubframeCarriesSample(s, a, cs, m);
    AfterA(p0, s, a, m);
    FormatOnRuns(s, a);
    FormatKept(m, load);
    LoadBeforeB(m, load, n);
    SubframeCarriesSample(n, b, cs, t);
    var x := Subframe(s.r.enc.Kind(), Payload(s.r.buf.left, cs[s.r.enc.frameCount]));
    var y := Subframe(Y, Payload(load.audioR, cs[s.r.enc.frameCount]));
    assert t.h.sent == s.h.sent + [x] + [y];
  }

  lemma LoadBeforeB(m: Sys, load: Input, n: Sys)
    requires m.r.Valid() && m.r.enc.subframeB && load.audioValid && n == Step(m, load) && Format(m.r.enc, m.h)
    requires n.r.enc.symbolCount == 0 && n.h.sent == m.h.sent
    ensures n.r.enc.subframeB && n.r.enc.frameCount == m.r.enc.frameCount && CurrentAudio(n.r) == load.audioR
  {
  }

  // ---------------------------------------------------------------------------
  // Channel status
  // ---------------------------------------------------------------------------

  /** The C bit of every subframe is the channel-status bit of its frame. */
  predicate CarriesStatus(p0: nat, e: Encoder, h: Hist, cs: Status) {
    && (forall k :: 0 <= k < |h.sent| ==> h.sent[k].C() == cs[(p0 + k) % PLACES / 2])
    && (|h.bits| > 26 && e.Valid() ==> h.bits[26] == cs[e.frameCount])
  }

  lemma HalfPlace(e: Encoder)
    requires e.Valid()
    ensures Place(e) / 2 == e.frameCount
  {
  }

  lemma StatusGrows(p0: nat, e: Encoder, h: Hist, cs: Status, s: Subframe)
    requires e.Valid() && InOrder(p0, e, h.sent) && CarriesStatus(p0, e, h, cs) && s.C() == cs[e.frameCount]
    ensures forall k :: 0 <= k < |h.sent + [s]| ==> (h.sent + [s])[k].C() == cs[(p0 + k) % PLACES / 2]
  {
    HalfPlace(e);
  }

  lemma StatusKept(p0: nat, s: Sys, i: Input, cs: Status)
    requires s.r.Valid() && Format(s.r.enc, s.h) && InOrder(p0, s.r.enc, s.h.sent)
    requires CarriesStatus(p0, s.r.enc, s.h, cs) && i.channelStatus == cs
    ensures var t := Step(s, i); CarriesStatus(p0, t.r.enc, t.h, cs)
  {
    var e := s.r.enc;
    if s.r.tick && e.symbolCount >= PREAMBLE_CELLS && e.symbolCount % 2 == 1 {
      assert e.BitIndex() == |s.h.bits|;
      if e.symbolCount == CELLS - 1 {
        StatusGrows(p0, e, s.h, cs, Subframe(e.Kind(), s.h.bits + [SampledBit(s.r, i)]));
      }
    }
  }

  /** With a constant channel status, on every run and whatever is loaded when. */
  lemma {:induction false} StatusOnRuns(p0: nat, s: Sys, ins: seq<Input>, cs: Status)
    requires s.r.Valid() && Format(s.r.enc, s.h) && InOrder(p0, s.r.enc, s.h.sent)
    requires CarriesStatus(p0, s.r.enc, s.h, cs) && forall k :: 0 <= k < |ins| ==> ins[k].channelStatus == cs
    ensures var t := Run(s, ins); CarriesStatus(p0, t.r.enc, t.h, cs)
    decreases |ins|
  {
    if ins != [] {
      var k := |ins| - 1;
      StatusOnRuns(p0, s, ins[..k], cs);
      FormatOnRuns(s, ins[..k]);
      OrderOnRuns(p0, s, ins[..k]);
      StatusKept(p0, Run(s, ins[..k]), ins[k], cs);
    }
  }
}
