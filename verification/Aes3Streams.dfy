/**
 What the AES3 decoder makes of a stream of subframes: it falls into step within one subframe from
 any state, and from then on every subframe, pair and channel-status block is decoded exactly.
 */
module Aes3Streams {
  import opened Aes3Line
  import opened Aes3Decode

  // ---------------------------------------------------------------------------
  // Feeding cells
  // ---------------------------------------------------------------------------

  lemma FeedOne(r: Rig, flags: seq<bool>, flag: bool)
    ensures CellsFeed(r, flags + [flag]) == CellFeed(CellsFeed(r, flags), flag)
  {
    assert (flags + [flag])[..|flags|] == flags;
  }

  lemma {:induction false} FeedSplits(r: Rig, a: seq<bool>, b: seq<bool>)
    ensures CellsFeed(r, a + b) == CellsFeed(CellsFeed(r, a), b)
    decreases |b|
  {
    if b == [] {
      assert a + b == a;
    } else {
      var n := |b| - 1;
      FeedSplits(r, a, b[..n]);
      FeedOne(r, a + b[..n], b[n]);
      assert a + b == (a + b[..n]) + [b[n]];
    }
  }

  lemma FeedFour(r: Rig, a: bool, b: bool, c: bool, d: bool)
    ensures CellsFeed(r, [a, b, c, d]) == CellFeed(CellFeed(CellFeed(CellFeed(r, a), b), c), d)
  {
    FeedOne(r, [a, b, c], d);
    FeedOne(r, [a, b], c);
    FeedOne(r, [a], b);
    FeedOne(r, [], a);
    assert [a, b, c, d] == [a, b, c] + [d] && [a, b, c] == [a, b] + [c] && [a, b] == [a] + [b] && [a] == [] + [a];
  }

  /** The rig once the edge that begins the next subframe has arrived. */
  function Opened(r: Rig): Rig { CellFeed(r, true) }

  // ---------------------------------------------------------------------------
  // One subframe
  // ---------------------------------------------------------------------------

  /** Neither inside a preamble nor about to report. */
  predicate Ready(f: Fsm) { (f.state == HUNT || f.state == DATA) && !Done(f) }

  /** Being inside a misaligned subframe when the preamble comes costs lock. */
  function Settle(f: Fsm, o: Report): Report {
    if f.state == DATA then Quiet(o).(lock := o.lock.(cnt := Forget(o.lock.cnt))) else Quiet(o)
  }

  /** The preamble of a block start restarts both frame counters. */
  function Start(k: Kind, o: Report): Report {
    if k == Z then Report(o.audio.(frameNum := 0), o.status.(cnt := 0), o.lock) else o
  }

  /** What a decoded subframe does to the reports and the observer. */
  datatype Told = Told(o: Report, h: Hist)

  function Take(t: Told, s: Subframe): Told {
    var chB := s.kind == Y;
    var o := FinishReport(s.bits, chB, Start(s.kind, Quiet(t.o)), false);
    Told(Quiet(o), Hist(t.h.subs + [Heard(o.audio.sub, s.bits, chB)],
                        if chB then t.h.pairs + [Pair(o.audio.left, o.audio.right)] else t.h.pairs,
                        if o.status.valid then t.h.blocks + [o.status.block] else t.h.blocks))
  }

  function TakeAll(t: Told, ss: seq<Subframe>): Told
    decreases |ss|
  {
    if ss == [] then t else Take(TakeAll(t, ss[..|ss| - 1]), ss[|ss| - 1])
  }

  /** The decoder at the first bit boundary of a subframe of the given kind. */
  predicate AtData(g: Dec, k: Kind, o: Report, h: Hist) {
    && g.f.state == DATA && !g.f.phase && g.f.bitCnt == 0 && g.f.chB == (k == Y)
    && g.o == Start(k, o) && g.h == h
  }

  /** The three intervals after the first VLONG of each preamble. */
  function Second(k: Kind): Interval { match k case Z => S case X => V case Y => L }

  function Fourth(k: Kind): Interval { match k case Z => V case X => S case Y => L }

  lemma SyncBegins(d: Dec)
    requires Ready(d.f)
    ensures Feed(d, V) == Dec(d.f.(state := SYNC, syncCnt := 0), Settle(d.f, d.o), d.h)
  {
  }

  lemma SyncIdentifies(d: Dec, k: Kind)
    requires d.f.state == SYNC && d.f.syncCnt == 0 && d.o == Quiet(d.o)
    ensures Feed(d, Second(k)) == Dec(d.f.(syncCnt := 1, preZ := k == Z, preY := k == Y, preX := k == X), d.o, d.h)
  {
  }

  lemma SyncCounts(d: Dec, t: Interval)
    requires d.f.state == SYNC && d.f.syncCnt == 1 && d.o == Quiet(d.o)
    ensures Feed(d, t) == Dec(d.f.(syncCnt := 2), d.o, d.h)
  {
  }

  lemma SyncEnds(d: Dec, k: Kind, t: Interval)
    requires d.f.state == SYNC && d.f.syncCnt == 2 && d.o == Quiet(d.o)
    requires d.f.preZ == (k == Z) && d.f.preX == (k == X)
    ensures AtData(Feed(d, t), k, d.o, d.h)
  {
  }

  lemma SyncProceeds(d: Dec, k: Kind, t: Interval, u: Interval)
    requires d.f.state == SYNC && d.f.syncCnt == 0 && d.o == Quiet(d.o)
    ensures AtData(Feed(Feed(Feed(d, Second(k)), t), u), k, d.o, d.h)
  {
    SyncIdentifies(d, k);
    SyncCounts(Feed(d, Second(k)), t);
    SyncEnds(Feed(Feed(d, Second(k)), t), k, u);
  }

  /** The eight cells of a preamble and the edge after them, as the intervals they make. */
  lemma PreambleIntervals(r: Rig, k: Kind)
    ensures Opened(CellsFeed(r, PreambleFlags(k))) ==
              Rig(Feed(Feed(Feed(Feed(Opened(r).d, V), Second(k)), S), Fourth(k)), 1)
  {
    var p := PreambleFlags(k);
    var a := [p[0], p[1], p[2], p[3]];
    assert p == a + [p[4], p[5], p[6], p[7]];
    FeedSplits(r, a, [p[4], p[5], p[6], p[7]]);
    FeedFour(r, p[0], p[1], p[2], p[3]);
    var m := CellsFeed(r, a);
    assert m == Rig(Feed(Opened(r).d, V), 1);
    FeedFour(m, p[4], p[5], p[6], p[7]);
  }

  lemma PreambleLeadsToData(r: Rig, k: Kind)
    requires Ready(Opened(r).d.f)
    ensures var d := Opened(r).d;
            var g := Opened(CellsFeed(r, PreambleFlags(k)));
            g.run == 1 && AtData(g.d, k, Settle(d.f, d.o), d.h)
  {
    var d := Opened(r).d;
    PreambleIntervals(r, k);
    SyncBegins(d);
    SyncProceeds(Feed(d, V), k, S, Fourth(k));
  }

  /** After j bits. */
  function InBits(f: Fsm, bits: Bits28, j: nat): Fsm
    requires j <= BITS
  {
    f.(bitCnt := j, sr := f.sr[j..] + bits[..j])
  }

  lemma ShiftIn(f: Fsm, bits: Bits28, j: nat)
    requires j < BITS
    ensures var g := InBits(f, bits, j);
            g.(bitCnt := j + 1, sr := g.sr[1..] + [bits[j]]) == InBits(f, bits, j + 1)
  {
    assert (f.sr[j..] + bits[..j])[1..] + [bits[j]] == f.sr[j + 1..] + bits[..j + 1];
  }

  /** A one is two SHORT intervals and a zero one LONG. */
  function BitFeed(d: Dec, bit: bool): Dec { if bit then Feed(Feed(d, S), S) else Feed(d, L) }

  lemma BitShiftsIn(d: Dec, bit: bool)
    requires d.f.state == DATA && !d.f.phase && d.f.bitCnt < BITS && d.o == Quiet(d.o)
    ensures BitFeed(d, bit) == Close(Dec(d.f.(bitCnt := d.f.bitCnt + 1, sr := d.f.sr[1..] + [bit]), d.o, d.h))
  {
    if bit {
      assert Feed(d, S) == Dec(d.f.(phase := true), d.o, d.h);
    }
  }

  lemma BitCells(x: Rig, bit: bool)
    requires x.run == 1
    ensures Opened(CellFeed(x, bit)) == Rig(BitFeed(x.d, bit), 1)
  {
  }

  /** Bit by bit; a bit is complete when the edge after it arrives, the last one with the next preamble. */
  lemma {:induction false} BitsShiftIn(x: Rig, d: Dec, bits: Bits28, j: nat)
    requires j <= BITS
    requires Opened(x) == Rig(d, 1)
    requires d.f.state == DATA && !d.f.phase && d.f.bitCnt == 0 && d.o == Quiet(d.o)
    ensures Opened(CellsFeed(x, DataFlags(bits[..j]))) == Rig(Close(Dec(InBits(d.f, bits, j), d.o, d.h)), 1)
    decreases j
  {
    if j == 0 {
      assert d.f.sr[0..] + bits[..0] == d.f.sr;
    } else {
      BitsShiftIn(x, d, bits, j - 1);
      OneBit(x, bits, j - 1);
      var y := Opened(CellsFeed(x, DataFlags(bits[..j - 1])));
      assert y == Rig(Dec(InBits(d.f, bits, j - 1), d.o, d.h), 1);
      BitCells(y, bits[j - 1]);
      BitShiftsIn(y.d, bits[j - 1]);
      ShiftIn(d.f, bits, j - 1);
    }
  }

  /** The two cells of bit j. */
  lemma OneBit(x: Rig, bits: Bits28, j: nat)
    requires j < BITS
    ensures CellsFeed(x, DataFlags(bits[..j + 1])) == CellFeed(Opened(CellsFeed(x, DataFlags(bits[..j]))), bits[j])
  {
    var d := DataFlags(bits[..j]);
    assert bits[..j + 1][..j] == bits[..j];
    assert d + [true, bits[j]] == (d + [true]) + [bits[j]];
    FeedOne(x, d + [true], bits[j]);
    FeedOne(x, d, true);
  }

  /** From Ready, a subframe and the edge after it are one Take, and leave the decoder hunting. */
  lemma SubframeDecodes(r: Rig, s: Subframe)
    requires Ready(Opened(r).d.f)
    ensures var d := Opened(r).d;
            var e := Opened(CellsFeed(r, FlagsOf(s)));
            && e.run == 1 && e.d.f.state == HUNT
            && Told(e.d.o, e.d.h) == Take(Told(Settle(d.f, d.o), d.h), s)
  {
    var d := Opened(r).d;
    var x := CellsFeed(r, PreambleFlags(s.kind));
    FeedSplits(r, PreambleFlags(s.kind), DataFlags(s.bits));
    PreambleLeadsToData(r, s.kind);
    BitsShiftIn(x, Opened(x).d, s.bits, BITS);
    assert s.bits[..BITS] == s.bits;
    LastBitCloses(Opened(x).d, s, Settle(d.f, d.o), d.h);
  }

  lemma LastBitCloses(g: Dec, s: Subframe, o: Report, h: Hist)
    requires AtData(g, s.kind, o, h) && o == Quiet(o)
    ensures var e := Close(Dec(InBits(g.f, s.bits, BITS), g.o, g.h));
            e.f.state == HUNT && Told(e.o, e.h) == Take(Told(o, h), s)
  {
    assert g.f.sr[BITS..] + s.bits[..BITS] == s.bits;
  }

  // ---------------------------------------------------------------------------
  // Falling into step
  // ---------------------------------------------------------------------------

  /** Intervals the decoder may still spend inside what it takes for a preamble. */
  function Left(f: Fsm): nat { if f.state == SYNC then (if f.syncCnt < 2 then 3 - f.syncCnt else 1) else 0 }

  /** SHORT and LONG intervals lead out of a preamble and never into one. */
  lemma DataNeverSyncs(d: Dec, t: Interval)
    requires t == S || t == L
    ensures var f := Feed(d, t).f;
            && !Done(f) && f.state != SPARE
            && (Left(d.f) > 0 ==> Left(f) < Left(d.f)) && (Left(d.f) == 0 ==> Left(f) == 0)
  {
  }

  lemma BitLeads(d: Dec, bit: bool)
    ensures var f := BitFeed(d, bit).f;
            && !Done(f) && f.state != SPARE
            && (Left(d.f) > 0 ==> Left(f) < Left(d.f)) && (Left(d.f) == 0 ==> Left(f) == 0)
  {
    if bit {
      DataNeverSyncs(d, S);
      DataNeverSyncs(Feed(d, S), S);
    } else {
      DataNeverSyncs(d, L);
    }
  }

  /** After j bits: at most so many intervals are left inside a preamble. */
  ghost predicate LedOut(y: Rig, j: nat) {
    && y.run == 1 && Left(y.d.f) <= (if j < 3 then 3 - j else 0)
    && (j > 0 ==> y.d.f.state != SPARE && !Done(y.d.f))
  }

  lemma OneBitLeads(y: Rig, bit: bool, j: nat, z: Rig)
    requires LedOut(y, j) && z == Opened(CellFeed(y, bit))
    ensures LedOut(z, j + 1)
  {
    BitCells(y, bit);
    BitLeads(y.d, bit);
  }

  lemma AnyLedOut(x: Rig)
    ensures LedOut(Opened(x), 0)
  {
  }

  lemma {:induction false} BitsLeadOut(x: Rig, bits: Bits28, j: nat, y: Rig)
    requires j <= BITS && y == CellsFeed(x, DataFlags(bits[..j]))
    ensures LedOut(Opened(y), j)
    decreases j
  {
    if j == 0 {
      AnyLedOut(y);
    } else {
      var w := CellsFeed(x, DataFlags(bits[..j - 1]));
      BitsLeadOut(x, bits, j - 1, w);
      OneBit(x, bits, j - 1);
      OneBitLeads(Opened(w), bits[j - 1], j - 1, Opened(y));
    }
  }

  /**
   One complete subframe brings every decoder into step, whatever its registers hold once the
   first edge of that subframe has passed.
   */
  lemma AnyStateBecomesReady(g: Rig, s: Subframe)
    ensures Ready(Opened(CellsFeed(g, FlagsOf(s)[1..])).d.f)
  {
    var p := PreambleFlags(s.kind)[1..];
    assert FlagsOf(s)[1..] == p + DataFlags(s.bits);
    FeedSplits(g, p, DataFlags(s.bits));
    assert s.bits[..BITS] == s.bits;
    BitsLeadOut(CellsFeed(g, p), s.bits, BITS, CellsFeed(g, FlagsOf(s)[1..]));
  }

  /** From Ready, any number of subframes is decoded exactly. */
  lemma {:induction false} StreamDecodes(r: Rig, ss: seq<Subframe>)
    requires Ready(Opened(r).d.f)
    ensures var d := Opened(r).d;
            var e := Opened(CellsFeed(r, AllFlags(ss))).d;
            && Ready(e.f) && (ss != [] ==> e.f.state == HUNT)
            && Told(Settle(e.f, e.o), e.h) == TakeAll(Told(Settle(d.f, d.o), d.h), ss)
    decreases |ss|
  {
    if ss != [] {
      var n := |ss| - 1;
      StreamDecodes(r, ss[..n]);
      FeedSplits(r, AllFlags(ss[..n]), FlagsOf(ss[n]));
      SubframeDecodes(CellsFeed(r, AllFlags(ss[..n])), ss[n]);
    }
  }

  /** One report per subframe: its 24 audio bits at the output, all its 28 bits, and its channel. */
  function HeardOf(ss: seq<Subframe>): (hs: seq<Heard>)
    ensures |hs| == |ss|
  {
    seq(|ss|, k requires 0 <= k < |ss| => Heard(ss[k].bits[..AUDIO_BITS], ss[k].bits, ss[k].kind == Y))
  }

  lemma {:induction false} TakeAllHears(t: Told, ss: seq<Subframe>)
    ensures TakeAll(t, ss).h.subs == t.h.subs + HeardOf(ss)
    decreases |ss|
  {
    if ss != [] {
      var n := |ss| - 1;
      TakeAllHears(t, ss[..n]);
      assert HeardOf(ss) == HeardOf(ss[..n]) + [Heard(ss[n].bits[..AUDIO_BITS], ss[n].bits, ss[n].kind == Y)];
    }
  }

  /**
   Self-stabilisation: let the decoder hold anything when the first edge of some subframe has
   passed. Once that subframe and the edge that begins the next one have passed too, the subframes
   reported are exactly the later ones: all 28 bits and the channel, none missing, none invented.
   */
  lemma SelfStabilises(g: Rig, first: Subframe, later: seq<Subframe>)
    ensures var e0 := Opened(CellsFeed(g, FlagsOf(first)[1..])).d;
            var e := Opened(CellsFeed(g, FlagsOf(first)[1..] + AllFlags(later))).d;
            && Ready(e0.f)
            && e.h.subs == e0.h.subs + HeardOf(later)
            && (later != [] ==> e.f.state == HUNT)
            && Told(Settle(e.f, e.o), e.h) == TakeAll(Told(Settle(e0.f, e0.o), e0.h), later)
  {
    FeedSplits(g, FlagsOf(first)[1..], AllFlags(later));
    var r0 := CellsFeed(g, FlagsOf(first)[1..]);
    AnyStateBecomesReady(g, first);
    StreamDecodes(r0, later);
    var d := Opened(r0).d;
    TakeAllHears(Told(Settle(d.f, d.o), d.h), later);
  }

  // ---------------------------------------------------------------------------
  // Pairs, channel status and lock
  // ---------------------------------------------------------------------------

  /** A frame: the bits of its A and of its B subframe. */
  datatype Frame = Frame(a: Bits28, b: Bits28)

  function FrameKind(i: nat): Kind { if i == 0 then Z else X }

  /** The subframes of frames i.. of a block. */
  function BlockStream(fs: seq<Frame>): (ss: seq<Subframe>)
    ensures |ss| == 2 * |fs|
    decreases |fs|
  {
    if fs == [] then []
    else
      var n := |fs| - 1;
      BlockStream(fs[..n]) + [Subframe(FrameKind(n), fs[n].a), Subframe(Y, fs[n].b)]
  }

  function PairsOf(fs: seq<Frame>): (ps: seq<Pair>)
    ensures |ps| == |fs|
  {
    seq(|fs|, k requires 0 <= k < |fs| => Pair(fs[k].a[..AUDIO_BITS], fs[k].b[..AUDIO_BITS]))
  }

  function StatusBits(fs: seq<Frame>): (c: seq<bool>)
    ensures |c| == |fs|
  {
    seq(|fs|, k requires 0 <= k < |fs| => fs[k].a[26])
  }

  lemma TakeOne(t: Told, ss: seq<Subframe>, a: Subframe)
    ensures TakeAll(t, ss + [a]) == Take(TakeAll(t, ss), a)
  {
    assert (ss + [a])[..|ss|] == ss;
  }

  lemma TakeTwo(t: Told, ss: seq<Subframe>, a: Subframe, b: Subframe, m: Told)
    requires m == TakeAll(t, ss)
    ensures TakeAll(t, ss + [a, b]) == Take(Take(m, a), b)
  {
    assert (ss + [a]) + [b] == ss + [a, b];
    TakeOne(t, ss, a);
    TakeOne(t, ss + [a], b);
  }

  /** One frame of a block: the pair, and its C bit on top of the accumulator. */
  lemma FrameTaken(t: Told, f: Frame, i: nat)
    requires i < FRAMES && (i > 0 ==> t.o.status.cnt == i && t.o.audio.frameNum == i)
    ensures var e := Take(Take(t, Subframe(FrameKind(i), f.a)), Subframe(Y, f.b));
            && e.h.pairs == t.h.pairs + [Pair(f.a[..AUDIO_BITS], f.b[..AUDIO_BITS])]
            && e.o.status.acc == t.o.status.acc[1..] + [f.a[26]]
            && e.o.status.cnt == (i + 1) % FRAMES
            && e.o.audio.frameNum == (if i == FRAMES - 1 then i else i + 1)
            && e.h.blocks == if i == FRAMES - 1 then t.h.blocks + [e.o.status.acc] else t.h.blocks
  {
  }

  lemma AccFills(acc: Status, acc': Status, fs: seq<Frame>)
    requires 0 < |fs| <= FRAMES
    requires acc[FRAMES - (|fs| - 1)..] == StatusBits(fs[..|fs| - 1])
    requires acc' == acc[1..] + [fs[|fs| - 1].a[26]]
    ensures acc'[FRAMES - |fs|..] == StatusBits(fs)
  {
    var n := |fs| - 1;
    assert StatusBits(fs) == StatusBits(fs[..n]) + [fs[n].a[26]];
    assert acc'[FRAMES - |fs|..] == acc[FRAMES - n..] + [fs[n].a[26]];
  }

  lemma PairsGrow(ps: seq<Pair>, fs: seq<Frame>)
    requires fs != []
    ensures var f := fs[|fs| - 1];
            ps + PairsOf(fs) == (ps + PairsOf(fs[..|fs| - 1])) + [Pair(f.a[..AUDIO_BITS], f.b[..AUDIO_BITS])]
  {
  }

  lemma FrameAppends(t: Told, fs: seq<Frame>, m: Told)
    requires fs != [] && m == TakeAll(t, BlockStream(fs[..|fs| - 1]))
    ensures var f := fs[|fs| - 1];
            TakeAll(t, BlockStream(fs)) == Take(Take(m, Subframe(FrameKind(|fs| - 1), f.a)), Subframe(Y, f.b))
  {
    var n := |fs| - 1;
    TakeTwo(t, BlockStream(fs[..n]), Subframe(FrameKind(n), fs[n].a), Subframe(Y, fs[n].b), m);
  }

  /** Where the first frames of a block lead. */
  ghost predicate AfterFrames(t: Told, fs: seq<Frame>, e: Told)
    requires |fs| <= FRAMES
  {
    && e.h.pairs == t.h.pairs + PairsOf(fs)
      && (0 < |fs| < FRAMES ==> e.o.status.cnt == |fs| && e.o.audio.frameNum == |fs|)
      && e.o.status.acc[FRAMES - |fs|..] == StatusBits(fs)
      && e.h.blocks == if |fs| == FRAMES then t.h.blocks + [e.o.status.acc] else t.h.blocks
  }

  lemma {:induction false} FramesTaken(t: Told, fs: seq<Frame>)
    requires |fs| <= FRAMES
    ensures AfterFrames(t, fs, TakeAll(t, BlockStream(fs)))
    decreases |fs|
  {
    if fs != [] {
      var n := |fs| - 1;
      FramesTaken(t, fs[..n]);
      FrameAppends(t, fs, TakeAll(t, BlockStream(fs[..n])));
      OneMoreFrame(t, TakeAll(t, BlockStream(fs[..n])), TakeAll(t, BlockStream(fs)), fs, fs[n]);
    }
  }

  lemma OneMoreFrame(t: Told, m: Told, e: Told, fs: seq<Frame>, f: Frame)
    requires 0 < |fs| <= FRAMES && f == fs[|fs| - 1] && AfterFrames(t, fs[..|fs| - 1], m)
    requires e == Take(Take(m, Subframe(FrameKind(|fs| - 1), f.a)), Subframe(Y, f.b))
    ensures AfterFrames(t, fs, e)
  {
    FrameTaken(m, f, |fs| - 1);
    FactsJoin(t, m, e, fs, f);
  }

  lemma FactsJoin(t: Told, m: Told, e: Told, fs: seq<Frame>, f: Frame)
    requires 0 < |fs| <= FRAMES && f == fs[|fs| - 1] && AfterFrames(t, fs[..|fs| - 1], m)
    requires e.h.pairs == m.h.pairs + [Pair(f.a[..AUDIO_BITS], f.b[..AUDIO_BITS])]
    requires e.o.status.acc == m.o.status.acc[1..] + [f.a[26]] && e.o.status.cnt == |fs| % FRAMES
    requires |fs| < FRAMES ==> e.o.audio.frameNum == |fs|
    requires e.h.blocks == if |fs| == FRAMES then m.h.blocks + [e.o.status.acc] else m.h.blocks
    ensures AfterFrames(t, fs, e)
  {
    AccFills(m.o.status.acc, e.o.status.acc, fs);
    PairsGrow(t.h.pairs, fs);
  }

  /** Whole blocks, one after another. */
  function BlocksStream(bs: seq<seq<Frame>>): seq<Subframe>
    decreases |bs|
  {
    if bs == [] then [] else BlocksStream(bs[..|bs| - 1]) + BlockStream(bs[|bs| - 1])
  }

  function AllPairs(bs: seq<seq<Frame>>): seq<Pair>
    decreases |bs|
  {
    if bs == [] then [] else AllPairs(bs[..|bs| - 1]) + PairsOf(bs[|bs| - 1])
  }

  function AllStatus(bs: seq<seq<Frame>>): (cs: seq<seq<bool>>)
    ensures |cs| == |bs|
  {
    seq(|bs|, k requires 0 <= k < |bs| => StatusBits(bs[k]))
  }

  lemma {:induction false} TakeSplits(t: Told, a: seq<Subframe>, b: seq<Subframe>)
    ensures TakeAll(t, a + b) == TakeAll(TakeAll(t, a), b)
    decreases |b|
  {
    if b == [] {
      assert a + b == a;
    } else {
      var c, x := b[..|b| - 1], b[|b| - 1];
      TakeSplits(t, a, c);
      AppendOne(a, b);
      TakeOne(t, a + c, x);
    }
  }

  /**
   From the first block-start preamble decoded in step: every frame gives its pair, and every block
   of 192 frames raises `cs_valid` once, with the C bits of its A subframes in frame order.
   */
  lemma {:induction false} BlocksDecode(t: Told, bs: seq<seq<Frame>>)
    requires forall k :: 0 <= k < |bs| ==> |bs[k]| == FRAMES
    ensures var e := TakeAll(t, BlocksStream(bs)).h;
            && e.pairs == t.h.pairs + AllPairs(bs)
            && e.blocks == t.h.blocks + AllStatus(bs)
    decreases |bs|
  {
    if bs != [] {
      var n := |bs| - 1;
      BlocksDecode(t, bs[..n]);
      TakeSplits(t, BlocksStream(bs[..n]), BlockStream(bs[n]));
      var m := TakeAll(t, BlocksStream(bs[..n]));
      FramesTaken(m, bs[n]);
      var e := TakeAll(m, BlockStream(bs[n]));
      assert e.o.status.acc[0..] == e.o.status.acc;
      OneMoreBlock(t.h.blocks, bs, e.o.status.acc);
      Regroup(t.h.pairs, AllPairs(bs[..n]), PairsOf(bs[n]));
    }
  }

  lemma OneMoreBlock(blocks: seq<seq<bool>>, bs: seq<seq<Frame>>, c: seq<bool>)
    requires bs != [] && c == StatusBits(bs[|bs| - 1])
    ensures (blocks + AllStatus(bs[..|bs| - 1])) + [c] == blocks + AllStatus(bs)
  {
  }

  /**
   Lock: after n subframes with even parity the lock counter has gained n (up to 255), the error
   counter has lost n, and the receiver is locked as soon as the counter had passed 32 one
   subframe earlier: 34 are always enough.
   */
  lemma {:induction false} GoodParityLocks(t: Told, ss: seq<Subframe>)
    requires forall k :: 0 <= k < |ss| ==> !Odd(ss[k].bits)
    requires t.o.lock.cnt <= 255
    ensures var e := TakeAll(t, ss).o;
            && e.lock.cnt == (if t.o.lock.cnt + |ss| <= 255 then t.o.lock.cnt + |ss| else 255)
            && e.lock.errors == (if t.o.lock.errors >= |ss| then t.o.lock.errors - |ss| else 0)
            && (ss != [] ==> (e.lock.locked <==> t.o.lock.cnt + |ss| > 33))
    decreases |ss|
  {
    if ss != [] {
      var n := |ss| - 1;
      GoodParityLocks(t, ss[..n]);
      GoodParityCounts(TakeAll(t, ss[..n]), ss[n]);
    }
  }

  lemma GoodParityCounts(t: Told, s: Subframe)
    requires !Odd(s.bits)
    ensures var o, e := t.o, Take(t, s).o;
            && e.lock.cnt == (if o.lock.cnt < 255 then o.lock.cnt + 1 else o.lock.cnt)
            && e.lock.errors == (if o.lock.errors > 0 then o.lock.errors - 1 else 0)
            && e.lock.locked == (o.lock.cnt > 32)
  {
  }

  /**
   And the loss of it: every subframe with odd parity costs eight points and counts one error, up to
   15; with less than 33 + 8 points n such subframes in a row unlock, from 255 points it takes 29.
   */
  lemma {:induction false} BadParityUnlocks(t: Told, ss: seq<Subframe>)
    requires forall k :: 0 <= k < |ss| ==> Odd(ss[k].bits)
    requires t.o.lock.errors <= 15
    ensures var e, n := TakeAll(t, ss).o, |ss|;
            && e.lock.cnt == (if t.o.lock.cnt >= 8 * n then t.o.lock.cnt - 8 * n else 0)
            && e.lock.errors == (if t.o.lock.errors + n <= 15 then t.o.lock.errors + n else 15)
            && (ss != [] ==> (e.lock.locked <==> t.o.lock.cnt > 32 + 8 * (n - 1)))
    decreases |ss|
  {
    if ss != [] {
      var n := |ss| - 1;
      BadParityUnlocks(t, ss[..n]);
      BadParityCounts(TakeAll(t, ss[..n]), ss[n]);
    }
  }

  lemma BadParityCounts(t: Told, s: Subframe)
    requires Odd(s.bits)
    ensures var o, e := t.o, Take(t, s).o;
            && e.lock.cnt == (if o.lock.cnt >= 8 then o.lock.cnt - 8 else 0)
            && e.lock.errors == (if o.lock.errors < 15 then o.lock.errors + 1 else o.lock.errors)
            && e.lock.locked == (o.lock.cnt > 32)
  {
  }

  // ---------------------------------------------------------------------------
  // Any intervals at all
  // ---------------------------------------------------------------------------

  function FeedAll(d: Dec, ts: seq<Interval>): Dec
    decreases |ts|
  {
    if ts == [] then d else Feed(FeedAll(d, ts[..|ts| - 1]), ts[|ts| - 1])
  }

  /** A one is two SHORT intervals and a zero one LONG. */
  function BitIntervals(bits: seq<bool>): seq<Interval>
    decreases |bits|
  {
    if bits == [] then []
    else BitIntervals(bits[..|bits| - 1]) + if bits[|bits| - 1] then [S, S] else [L]
  }

  lemma BitAppends(bits: seq<bool>, bit: bool)
    ensures BitIntervals(bits + [bit]) == BitIntervals(bits) + if bit then [S, S] else [L]
  {
    assert (bits + [bit])[..|bits|] == bits;
  }

  /** The intervals since the last VLONG that began a preamble, and the bits they have made. */
  datatype Since = Since(preamble: seq<Interval>, bits: seq<bool>, half: bool) {
    function Intervals(): seq<Interval> { preamble + BitIntervals(bits) + if half then [S] else [] }

    /** The second interval of the preamble names the channel; one that is no run of cells is refused. */
    predicate Sound() {
      && 1 <= |preamble| <= 4 && preamble[0] == V && (|preamble| > 1 ==> preamble[1] != E)
      && (|preamble| < 4 ==> bits == [] && !half) && |bits| <= BITS
    }

    predicate IsB()
      requires |preamble| > 1
    {
      preamble[1] == L
    }
  }

  /** What the registers say about the intervals so far. */
  predicate Mirrors(f: Fsm, x: Since) {
    && x.Sound()
    && (f.state == SYNC ==> |x.preamble| == f.syncCnt + 1 && f.syncCnt < 3)
    && (f.state == DATA ==>
          && |x.preamble| == 4 && f.phase == x.half && f.bitCnt == |x.bits| && f.chB == x.IsB()
          && f.sr[BITS - |x.bits|..] == x.bits)
    && (f.state == SYNC && f.syncCnt > 0 ==> f.preZ == (x.preamble[1] == S) && f.preX == (x.preamble[1] == V))
  }

  predicate EndsWith<T(==)>(ts: seq<T>, us: seq<T>) { |us| <= |ts| && ts[|ts| - |us|..] == us }

  /** Hunting, or inside what was so far a sound subframe. */
  ghost predicate Explained(f: Fsm, ts: seq<Interval>) {
    && !Done(f) && f.state != SPARE
    && (f.state == HUNT || exists x: Since :: Mirrors(f, x) && EndsWith(ts, x.Intervals()))
  }

  /** A whole subframe: a preamble with a valid second interval, then 28 bits without a violation. */
  ghost predicate WholeSubframe(ts: seq<Interval>, h: Heard) {
    exists a, b, c ::
      && a != E && EndsWith(ts, [V, a, b, c] + BitIntervals(h.bits))
      && h.sub == h.bits[..AUDIO_BITS] && h.chB == (a == L)
  }

  /** After one more interval: nothing is reported, or one whole subframe that has just ended. */
  ghost predicate Follows(d: Dec, ts: seq<Interval>, e: Dec) {
    && Explained(e.f, ts)
    && (e.h != d.h ==>
          && |e.h.subs| == |d.h.subs| + 1 && e.h.subs[..|d.h.subs|] == d.h.subs
          && WholeSubframe(ts, e.h.subs[|d.h.subs|]))
  }

  lemma Extends(ts: seq<Interval>, us: seq<Interval>, t: Interval)
    requires EndsWith(ts, us)
    ensures EndsWith(ts + [t], us + [t])
  {
  }

  lemma BeginsWithV(f: Fsm, ts: seq<Interval>, t: Interval)
    requires t == V && f.state == SYNC && f.syncCnt == 0
    ensures Explained(f, ts + [t])
  {
    var x := Since([V], [], false);
    assert x.Intervals() == [V];
    assert Mirrors(f, x) && EndsWith(ts + [t], x.Intervals());
  }

  lemma PreambleGoesOn(d: Dec, ts: seq<Interval>, t: Interval, x: Since)
    requires d.f.state == SYNC && Mirrors(d.f, x) && EndsWith(ts, x.Intervals())
    ensures Explained(Feed(d, t).f, ts + [t]) && Feed(d, t).h == d.h
  {
    var y := Since(x.preamble + [t], [], false);
    assert x.Intervals() == x.preamble && y.Intervals() == x.preamble + [t];
    Extends(ts, x.Intervals(), t);
    var f := Feed(d, t).f;
    if f.state != HUNT {
      assert f.sr[BITS..] == [];
      assert Mirrors(f, y) && EndsWith(ts + [t], y.Intervals());
    }
  }

  /** Half a bit, or a whole one that is not the last. */
  lemma HalfGoesOn(f: Fsm, ts: seq<Interval>, x: Since, n: Fsm)
    requires f.state == DATA && !f.phase && Mirrors(f, x) && |x.bits| < BITS && EndsWith(ts, x.Intervals())
    requires n == f.(phase := true)
    ensures Explained(n, ts + [S])
  {
    var y := x.(half := true);
    assert y.Intervals() == x.Intervals() + [S];
    Extends(ts, x.Intervals(), S);
    assert Mirrors(n, y) && EndsWith(ts + [S], y.Intervals());
  }

  lemma BitComplete(f: Fsm, ts: seq<Interval>, x: Since, bit: bool, t: Interval, n: Fsm)
    requires f.state == DATA && Mirrors(f, x) && |x.bits| < BITS && EndsWith(ts, x.Intervals())
    requires if bit then x.half && t == S else !x.half && t == L
    requires n == f.(phase := false, sr := f.sr[1..] + [bit], bitCnt := f.bitCnt + 1)
    ensures var y := Since(x.preamble, x.bits + [bit], false); Mirrors(n, y) && EndsWith(ts + [t], y.Intervals())
  {
    var y := Since(x.preamble, x.bits + [bit], false);
    BitAppends(x.bits, bit);
    Extends(ts, x.Intervals(), t);
    assert x.Intervals() + [t] == y.Intervals();
    assert n.sr[BITS - |y.bits|..] == f.sr[BITS - |x.bits|..] + [bit];
  }

  /** The 28th bit: what is reported is what the intervals spell. */
  lemma LastBitReports(d: Dec, ts: seq<Interval>, y: Since, n: Fsm, o: Report)
    requires Mirrors(n, y) && n.state == DATA && |y.bits| == BITS && !y.half && EndsWith(ts, y.Intervals())
    requires !o.audio.subValid
    ensures var e := Close(Dec(n, o, d.h));
            && e.f.state == HUNT && |e.h.subs| == |d.h.subs| + 1 && e.h.subs[..|d.h.subs|] == d.h.subs
            && WholeSubframe(ts, e.h.subs[|d.h.subs|])
  {
    var p := y.preamble;
    assert p == [V, p[1], p[2], p[3]];
    assert n.sr[0..] == n.sr == y.bits;
    assert y.Intervals() == [V, p[1], p[2], p[3]] + BitIntervals(y.bits);
  }

  lemma BitFed(d: Dec, t: Interval, n: Fsm)
    requires d.f.state == DATA && d.f.bitCnt < BITS
    requires (t == S && d.f.phase) || (t == L && !d.f.phase)
    requires n == d.f.(phase := false, sr := d.f.sr[1..] + [t == S], bitCnt := d.f.bitCnt + 1)
    ensures Feed(d, t) == Close(Dec(n, Quiet(d.o), d.h))
  {
  }

  lemma BitCloses(d: Dec, ts: seq<Interval>, y: Since, n: Fsm, o: Report, e: Dec)
    requires Mirrors(n, y) && n.state == DATA && !y.half && EndsWith(ts, y.Intervals()) && !o.audio.subValid
    requires e == Close(Dec(n, o, d.h))
    ensures Follows(d, ts, e)
  {
    if n.bitCnt == BITS {
      LastBitReports(d, ts, y, n, o);
    }
  }

  lemma BitGoesOn(d: Dec, ts: seq<Interval>, t: Interval, x: Since, y: Since, n: Fsm)
    requires d.f.state == DATA && !Done(d.f) && Mirrors(d.f, x) && EndsWith(ts, x.Intervals())
    requires (t == S && d.f.phase) || (t == L && !d.f.phase)
    requires n == d.f.(phase := false, sr := d.f.sr[1..] + [t == S], bitCnt := d.f.bitCnt + 1)
    requires y == Since(x.preamble, x.bits + [t == S], false)
    ensures Follows(d, ts + [t], Feed(d, t))
  {
    BitComplete(d.f, ts, x, t == S, t, n);
    BitFed(d, t, n);
    BitCloses(d, ts + [t], y, n, Quiet(d.o), Feed(d, t));
  }

  lemma DataGoesOn(d: Dec, ts: seq<Interval>, t: Interval, x: Since)
    requires d.f.state == DATA && !Done(d.f) && Mirrors(d.f, x) && EndsWith(ts, x.Intervals())
    ensures Follows(d, ts + [t], Feed(d, t))
  {
    var f := d.f;
    if t == V {
      BeginsWithV(Feed(d, t).f, ts, t);
    } else if t == S && !f.phase {
      HalfGoesOn(f, ts, x, f.(phase := true));
    } else if (t == S && f.phase) || (t == L && !f.phase) {
      BitGoesOn(d, ts, t, x, Since(x.preamble, x.bits + [t == S], false),
                f.(phase := false, sr := f.sr[1..] + [t == S], bitCnt := f.bitCnt + 1));
    }
  }

  lemma NextExplained(d: Dec, ts: seq<Interval>, t: Interval)
    requires Explained(d.f, ts)
    ensures Follows(d, ts + [t], Feed(d, t))
  {
    if d.f.state == HUNT {
      if t == V {
        BeginsWithV(Feed(d, t).f, ts, t);
      }
    } else {
      var x: Since :| Mirrors(d.f, x) && EndsWith(ts, x.Intervals());
      if d.f.state == SYNC {
        PreambleGoesOn(d, ts, t, x);
      } else {
        DataGoesOn(d, ts, t, x);
      }
    }
  }

  lemma StaysExplained(d: Dec, ts: seq<Interval>, t: Interval, f: Fsm)
    requires Explained(d.f, ts) && f == Feed(d, t).f
    ensures Explained(f, ts + [t])
  {
    NextExplained(d, ts, t);
  }

  lemma {:induction false} FeedLast(d: Dec, ts: seq<Interval>)
    requires ts != []
    ensures FeedAll(d, ts) == Feed(FeedAll(d, ts[..|ts| - 1]), ts[|ts| - 1])
    ensures ts[..|ts| - 1] + [ts[|ts| - 1]] == ts
  {
  }

  lemma {:induction false} AlwaysExplained(d: Dec, ts: seq<Interval>, f: Fsm)
    requires d.f.state == HUNT && f == FeedAll(d, ts).f
    ensures Explained(f, ts)
    decreases |ts|
  {
    if ts != [] {
      var n := |ts| - 1;
      var m := FeedAll(d, ts[..n]);
      AlwaysExplained(d, ts[..n], m.f);
      FeedLast(d, ts);
      StaysExplained(m, ts[..n], ts[n], f);
    }
  }

  /**
   Nothing is made up. Over any intervals at all, from a hunting decoder: an interval is followed by a
   report only if it ends a whole subframe - a VLONG, a second interval that is a run of cells, two more,
   and 28 bits without a violation - and the report is that subframe.
   */
  lemma OnlyWholeSubframes(d: Dec, ts: seq<Interval>, t: Interval)
    requires d.f.state == HUNT
    ensures var e, n := FeedAll(d, ts), FeedAll(d, ts + [t]);
            n.h == e.h || (|n.h.subs| == |e.h.subs| + 1 && WholeSubframe(ts + [t], n.h.subs[|e.h.subs|]))
  {
    assert (ts + [t])[..|ts|] == ts;
    AlwaysExplained(d, ts, FeedAll(d, ts).f);
    NextExplained(FeedAll(d, ts), ts, t);
  }

  /** A violation inside a subframe - VLONG, no run of cells, or LONG in the middle of a one - costs eight points. */
  lemma ViolationCosts(d: Dec, t: Interval)
    requires d.f.state == DATA && !Done(d.f) && d.f.bitCnt < BITS
    ensures var o, e, bad := d.o.lock, Feed(d, t), t == V || t == E || (t == L && d.f.phase);
            && (bad ==> e.o.lock == o.(cnt := if o.cnt < 8 then 0 else o.cnt - 8) && e.f.state != DATA)
            && (!bad && d.f.bitCnt < BITS - 1 ==> e.o.lock == o && e.f.state == DATA)
  {
  }
}
