/**
 Whole runs of the talker paced by the oscillator: what has been taken from USB,
 handed out per strobe, framed and put on the wire, at every clock.
 */
module TalkerRuns {
  import opened Bytes
  import opened AafFrame
  import Assembler
  import Nco
  import P = Packetizer

  /** A frame the builder accepted: which six strobes it covers and how it was labelled. */
  datatype Sent = Sent(group: nat, blocks: Group, seqNum: Byte, pres: Word32)

  /** Everything observed since reset. */
  datatype Hist = Hist(
    samples: seq<Assembler.Sample>,     // popped from USB
    pushed: seq<Block>,                 // written to the block FIFO
    taken: seq<Option<Block>>,          // one entry per enabled strobe; None is an underrun
    groups: nat,                        // halves filled, six strobes each
    sent: seq<Sent>,                    // frames accepted by the builder
    skipped: nat,                       // send requests that found the builder busy
    done: nat,                          // frames streamed to the last beat
    out: seq<Beat>,                     // beats the MAC took
    since: nat)                         // clocks since the last strobe

  datatype Sys = Sys(nco: Nco.State, r: P.Regs, h: Hist)

  datatype Input = Input(
    inc: Word32, usb: Option<Assembler.Sample>, enable: bool, sec: nat, ns: nat, ready: bool)

  const RESET := Sys(Nco.RESET, P.RESET, Hist([], [], [], 0, [], 0, 0, [], 0))

  function Clocked(s: Sys, i: Input): P.Input {
    P.Input(i.usb, i.enable, s.nco.strobe, i.sec, i.ns, i.ready)
  }

  function BlockOf(o: Option<Block>): Block {
    if o.Some? then o.value else ZERO_BLOCK
  }

  /** The six blocks of strobes 6k .. 6k+5. */
  function GroupAt(taken: seq<Option<Block>>, k: nat): (g: Group)
    requires 6 * k + 6 <= |taken|
  {
    [BlockOf(taken[6 * k]), BlockOf(taken[6 * k + 1]), BlockOf(taken[6 * k + 2]),
     BlockOf(taken[6 * k + 3]), BlockOf(taken[6 * k + 4]), BlockOf(taken[6 * k + 5])]
  }

  function Head(fifo: seq<Block>): Option<Block> {
    if fifo != [] then Some(fifo[0]) else None
  }

  predicate Starts(r: P.Regs) { r.bld.phase.IDLE? && r.feed.req }

  /** The MAC takes a beat. */
  predicate Fires(r: P.Regs, i: Input)
    requires r.Wf()
  {
    P.Output(r.bld).Some? && i.ready
  }

  function Record(b: Binding, s: Sys, i: Input): Hist
    requires b.Valid() && s.r.Wf()
  {
    var r, h, c := s.r, s.h, Clocked(s, i);
    var strobed := s.nco.strobe && i.enable;
    var start := Starts(r) && 6 <= 6 * h.groups <= |h.taken|;
    h.(samples := if P.DoPop(r, c) then h.samples + [i.usb.value] else h.samples,
       pushed := if P.DoPush(r, c) then h.pushed + [r.asm.cur] else h.pushed,
       taken := if strobed then h.taken + [Head(r.fifo)] else h.taken,
       groups := if strobed && r.feed.blk == BLOCKS - 1 then h.groups + 1 else h.groups,
       sent := if start then
                 var g := h.groups - 1;
                 h.sent + [Sent(g, GroupAt(h.taken, g), r.bld.seqNum, PresentationTime(i.sec, i.ns, b.presOffset))]
               else h.sent,
       skipped := if r.feed.req && !r.bld.phase.IDLE? then h.skipped + 1 else h.skipped,
       done := if Fires(r, i) && r.bld.rdIdx == N_WORDS - 1 then h.done + 1 else h.done,
       out := if Fires(r, i) then h.out + [P.Output(r.bld).value] else h.out,
       since := if Nco.Next(s.nco, i.inc).strobe then 0 else h.since + 1)
  }

  function Step(b: Binding, s: Sys, i: Input): (t: Sys)
    requires b.Valid() && s.r.Wf()
    ensures t.r.Wf()
  {
    Sys(Nco.Next(s.nco, i.inc), P.Next(b, s.r, Clocked(s, i)), Record(b, s, i))
  }

  function Run(b: Binding, s: Sys, ins: seq<Input>): (t: Sys)
    requires b.Valid() && s.r.Wf()
    ensures t.r.Wf()
    decreases |ins|
  {
    if ins == [] then s else Run(b, Step(b, s, ins[0]), ins[1..])
  }

  // ---------------------------------------------------------------------------
  // Frames as beats
  // ---------------------------------------------------------------------------

  function BeatsOf(ws: seq<Word>): (bs: seq<Beat>)
    ensures |bs| == |ws|
  {
    seq(|ws|, k requires 0 <= k < |ws| =>
      Beat(ws[k], if k == N_WORDS - 1 then 3 else 0xF, 0, k == N_WORDS - 1))
  }

  function FrameOf(b: Binding, s: Sent): seq<Byte>
    requires b.Valid()
  {
    Frame(b, s.seqNum, s.pres, s.blocks)
  }

  /** The wire image of a list of frames: each one whole, one after the other. */
  function Wire(b: Binding, sent: seq<Sent>): seq<Beat>
    requires b.Valid()
    decreases |sent|
  {
    if sent == [] then []
    else Wire(b, sent[..|sent| - 1]) + BeatsOf(Words(FrameOf(b, sent[|sent| - 1])))
  }

  function Popped(taken: seq<Option<Block>>): seq<Block>
    decreases |taken|
  {
    if taken == [] then []
    else Popped(taken[..|taken| - 1]) + if taken[|taken| - 1].Some? then [taken[|taken| - 1].value] else []
  }

  function Underruns(taken: seq<Option<Block>>): nat
    decreases |taken|
  {
    if taken == [] then 0
    else Underruns(taken[..|taken| - 1]) + if taken[|taken| - 1].None? then 1 else 0
  }

  lemma TakenAppend(taken: seq<Option<Block>>, o: Option<Block>)
    ensures Popped(taken + [o]) == Popped(taken) + if o.Some? then [o.value] else []
    ensures Underruns(taken + [o]) == Underruns(taken) + if o.None? then 1 else 0
  {
    assert (taken + [o])[..|taken|] == taken;
  }

  // ---------------------------------------------------------------------------
  // The invariant, part by part
  // ---------------------------------------------------------------------------

  ghost predicate InvIngress(asm: Assembler.State, fifo: seq<Block>, h: Hist) {
    && asm == Assembler.Final(Assembler.EMPTY, h.samples)
    && h.pushed == Assembler.Blocks(Assembler.EMPTY, h.samples)
    && h.pushed == Popped(h.taken) + fifo
    && |fifo| <= P.FIFO_DEPTH
  }

  ghost predicate InvFeed(f: P.Feed, taken: seq<Option<Block>>, g: nat) {
    && f.blk < BLOCKS
    && |taken| == 6 * g + f.blk
    && f.send == (if g == 0 then 0 else 1 - f.fill)
    && (forall k :: 0 <= k < f.blk ==> P.PayAt(f.pay, f.fill, k) == BlockOf(taken[6 * g + k]))
    && (g > 0 ==> forall k :: 0 <= k < 6 ==> P.PayAt(f.pay, f.send, k) == BlockOf(taken[6 * (g - 1) + k]))
    && f.underruns == U32(Underruns(taken))
    && (f.req ==> g > 0 && f.blk == 0)
  }

  ghost predicate InvCount(bld: P.Builder, req: bool, h: Hist) {
    && h.groups == |h.sent| + h.skipped + (if req then 1 else 0)
    && h.done == |h.sent| - (if bld.phase.IDLE? then 0 else 1)
    && bld.packets == U32(h.done)
    && bld.overruns == U32(h.skipped)
    && bld.seqNum == U8(h.done)
  }

  /** The k-th frame and the six strobes it covers. */
  ghost predicate SentFrom(s: Sent, k: nat, groups: nat, taken: seq<Option<Block>>) {
    && s.seqNum == U8(k)
    && s.group < groups && 6 * s.group + 6 <= |taken|
    && s.blocks == GroupAt(taken, s.group)
  }

  /** Frames carry consecutive sequence numbers and ever later groups of strobes. */
  ghost predicate InvSent(req: bool, h: Hist) {
    && (forall k :: 0 <= k < |h.sent| ==> SentFrom(h.sent[k], k, h.groups, h.taken))
    && (forall k :: 0 < k < |h.sent| ==> h.sent[k - 1].group < h.sent[k].group)
    && (req && h.sent != [] ==> h.sent[|h.sent| - 1].group < h.groups - 1)
  }

  /** A pending strobe counts as taken. */
  function Pending(s: Sys): nat { if s.nco.strobe then 1 else 0 }

  /** While a frame is built, time bounds how far the feed can have moved on. */
  ghost predicate InvPace(s: Sys) {
    && Nco.Paced(s.nco, s.h.since)
    && (s.r.feed.req ==> s.h.since == 1 && s.r.feed.blk == 0)
    && (s.r.bld.phase.BUILD? ==>
          && !s.r.feed.req
          && Nco.MIN_STROBE_GAP * (s.r.feed.blk + Pending(s)) + s.h.since <= s.r.bld.byteIdx + 2)
  }

  ghost predicate Built(bld: P.Builder, f: seq<Byte>)
    requires |f| == TOTAL && |bld.ram| == N_WORDS && bld.byteIdx < TOTAL
  {
    var w, lane := bld.byteIdx / 4, bld.byteIdx % 4;
    && (forall k :: 0 <= k < w ==> bld.ram[k] == WordAt(f, k))
    && (lane > 0 ==> bld.wacc.0 == f[4 * w])
    && (lane > 1 ==> bld.wacc.1 == f[4 * w + 1])
    && (lane > 2 ==> bld.wacc.2 == f[4 * w + 2])
  }

  ghost predicate InvBuild(b: Binding, bld: P.Builder, h: Hist)
    requires b.Valid() && bld.byteIdx < TOTAL && |bld.ram| == N_WORDS
  {
    bld.phase.BUILD? ==>
      && h.sent != []
      && var last := h.sent[|h.sent| - 1];
         && last.group == h.groups - 1
         && last.seqNum == bld.seqNum && last.pres == bld.pres
         && Built(bld, FrameOf(b, last))
  }

  ghost predicate InvOut(b: Binding, bld: P.Builder, h: Hist)
    requires b.Valid() && |bld.ram| == N_WORDS && bld.rdIdx < N_WORDS
  {
    && h.done <= |h.sent|
    && (!bld.phase.STREAM? ==> h.out == Wire(b, h.sent[..h.done]))
    && (bld.phase.STREAM? ==>
          && h.done < |h.sent|
          && bld.ram == Words(FrameOf(b, h.sent[h.done]))
          && h.out == Wire(b, h.sent[..h.done]) + BeatsOf(bld.ram)[..bld.rdIdx])
  }

  ghost predicate Inv(b: Binding, s: Sys)
    requires b.Valid()
  {
    && s.r.Wf()
    && InvIngress(s.r.asm, s.r.fifo, s.h)
    && InvFeed(s.r.feed, s.h.taken, s.h.groups)
    && InvCount(s.r.bld, s.r.feed.req, s.h)
    && InvSent(s.r.feed.req, s.h)
    && InvPace(s)
    && InvBuild(b, s.r.bld, s.h)
    && InvOut(b, s.r.bld, s.h)
  }

  // -- one clock keeps each part -------------------------------------------------

  /** A queue that is filled at the back stays what was pushed but not popped, whether or not its head leaves. */
  lemma QueueKept(pushed: seq<Block>, popped: seq<Block>, fifo: seq<Block>, added: seq<Block>)
    requires pushed == popped + fifo
    ensures pushed + added == popped + (fifo + added)
    ensures fifo != [] ==> pushed + added == (popped + [fifo[0]]) + (fifo[1..] + added)
  {
  }

  lemma IngressKept(r: P.Regs, c: P.Input, h: Hist, t: Hist)
    requires InvIngress(r.asm, r.fifo, h)
    requires t.samples == if P.DoPop(r, c) then h.samples + [c.usb.value] else h.samples
    requires t.pushed == if P.DoPush(r, c) then h.pushed + [r.asm.cur] else h.pushed
    requires t.taken == if P.Strobe(c) then h.taken + [Head(r.fifo)] else h.taken
    ensures InvIngress(if P.DoPop(r, c) then Assembler.Accept(r.asm, c.usb.value) else r.asm,
                       P.NextFifo(r, c), t)
  {
    if P.DoPop(r, c) {
      Assembler.TakeOneMore(Assembler.EMPTY, h.samples, c.usb.value);
    }
    if P.Strobe(c) {
      TakenAppend(h.taken, Head(r.fifo));
    }
    QueueKept(h.pushed, Popped(h.taken), r.fifo, if P.DoPush(r, c) then [r.asm.cur] else []);
  }

  lemma StoreAt(pay: P.PayBuffer, half: P.Half, blk: nat, x: Block, h: P.Half, k: nat)
    requires blk < 8 && k < 8
    ensures P.PayAt(pay[half * 8 + blk := x], h, k) == if h == half && k == blk then x else P.PayAt(pay, h, k)
  {
  }

  lemma {:induction false} FeedKept(f: P.Feed, taken: seq<Option<Block>>, g: nat, fifo: seq<Block>)
    requires InvFeed(f, taken, g)
    ensures InvFeed(P.NextFeed(f, true, fifo), taken + [Head(fifo)], if f.blk == BLOCKS - 1 then g + 1 else g)
  {
    var o, t := Head(fifo), taken + [Head(fifo)];
    var n := P.NextFeed(f, true, fifo);
    TakenAppend(taken, o);
    Wrap32(Underruns(taken));
    HalvesKept(f, taken, g, o, n.pay);
    if f.blk < BLOCKS - 1 && g > 0 {
      forall k | 0 <= k < 6
        ensures P.PayAt(n.pay, n.send, k) == BlockOf(t[6 * (g - 1) + k])
      {
        assert P.PayAt(n.pay, f.send, k) == P.PayAt(f.pay, f.send, k);
      }
    }
  }

  lemma FeedMoves(f: P.Feed, strobe: bool, fifo: seq<Block>, taken: seq<Option<Block>>, g: nat,
      taken': seq<Option<Block>>, g': nat)
    requires InvFeed(f, taken, g)
    requires taken' == if strobe then taken + [Head(fifo)] else taken
    requires g' == if strobe && f.blk == BLOCKS - 1 then g + 1 else g
    ensures InvFeed(P.NextFeed(f, strobe, fifo), taken', g')
  {
    if strobe {
      FeedKept(f, taken, g, fifo);
    }
  }

  lemma HalvesKept(f: P.Feed, taken: seq<Option<Block>>, g: nat, o: Option<Block>, pay: P.PayBuffer)
    requires f.blk < BLOCKS && |taken| == 6 * g + f.blk
    requires pay == f.pay[f.fill * 8 + f.blk := BlockOf(o)]
    requires forall k :: 0 <= k < f.blk ==> P.PayAt(f.pay, f.fill, k) == BlockOf(taken[6 * g + k])
    ensures forall k :: 0 <= k < f.blk + 1 ==> P.PayAt(pay, f.fill, k) == BlockOf((taken + [o])[6 * g + k])
    ensures forall h: P.Half, k: nat :: h != f.fill && k < 6 ==> P.PayAt(pay, h, k) == P.PayAt(f.pay, h, k)
  {
    forall h: P.Half, k: nat | k < 6
      ensures P.PayAt(pay, h, k) == if h == f.fill && k == f.blk then BlockOf(o) else P.PayAt(f.pay, h, k)
    {
      StoreAt(f.pay, f.fill, f.blk, BlockOf(o), h, k);
    }
  }

  lemma PaceKept(b: Binding, s: Sys, i: Input)
    requires b.Valid() && s.r.Wf() && InvPace(s) && i.inc <= Nco.MAX_INCREMENT
    ensures InvPace(Step(b, s, i))
    ensures s.r.bld.phase.BUILD? ==> s.r.feed.blk + Pending(s) <= 1
  {
    Nco.PaceKept(s.nco, s.h.since, i.inc);
  }

  lemma CountKept(bld: P.Builder, req: bool, cur: Byte, pres: Word32, ready: bool, req': bool, h: Hist, t: Hist)
    requires bld.byteIdx < TOTAL && |bld.ram| == N_WORDS
    requires InvCount(bld, req, h)
    requires t.groups == h.groups + if req' then 1 else 0
    requires |t.sent| == |h.sent| + if bld.phase.IDLE? && req then 1 else 0
    requires t.skipped == h.skipped + if req && !bld.phase.IDLE? then 1 else 0
    requires t.done == h.done + if bld.phase.STREAM? && ready && bld.rdIdx == N_WORDS - 1 then 1 else 0
    ensures InvCount(P.NextBuilder(bld, req, cur, pres, ready), req', t)
  {
    Wrap32(h.done);
    Wrap8(h.done);
    Wrap32(h.skipped);
  }

  lemma GroupGrows(taken: seq<Option<Block>>, o: Option<Block>, k: nat)
    requires 6 * k + 6 <= |taken|
    ensures GroupAt(taken + [o], k) == GroupAt(taken, k)
  {
  }

  lemma OneSentKept(s: Sent, k: nat, groups: nat, taken: seq<Option<Block>>, o: Option<Block>, groups': nat,
      taken': seq<Option<Block>>)
    requires SentFrom(s, k, groups, taken) && groups' >= groups && (taken' == taken || taken' == taken + [o])
    ensures SentFrom(s, k, groups', taken')
  {
    GroupGrows(taken, o, s.group);
  }

  /** What one clock adds to the list of frames. */
  ghost predicate OneMoreSent(h: Hist, t: Hist) {
    && |t.sent| == |h.sent| + 1 && t.sent[..|h.sent|] == h.sent
    && h.groups > 0
    && t.sent[|h.sent|].group == h.groups - 1
    && SentFrom(t.sent[|h.sent|], |h.sent|, h.groups, h.taken)
  }

  lemma SentKept(h: Hist, o: Option<Block>, t: Hist)
    requires InvSent(false, h) && t.groups >= h.groups
    requires t.taken == h.taken || t.taken == h.taken + [o]
    requires t.sent == h.sent || (InvSent(true, h) && OneMoreSent(h, t))
    ensures InvSent(false, t)
    ensures t.groups > h.groups ==> InvSent(true, t)
  {
    forall k | 0 <= k < |t.sent|
      ensures SentFrom(t.sent[k], k, t.groups, t.taken)
    {
      assert k < |h.sent| ==> t.sent[k] == h.sent[k];
      OneSentKept(t.sent[k], k, h.groups, h.taken, o, t.groups, t.taken);
    }
    forall k | 0 < k < |t.sent|
      ensures t.sent[k - 1].group < t.sent[k].group
    {
      assert t.sent[k - 1] == h.sent[k - 1] && (k < |h.sent| ==> t.sent[k] == h.sent[k]);
    }
    assert h.sent != [] ==> h.sent[|h.sent| - 1].group < h.groups;
  }

  /** The builder reads a stable half: the octet it produces is the frame's. */
  lemma CurByteIsFrameByte(b: Binding, f: P.Feed, bld: P.Builder, taken: seq<Option<Block>>, g: nat, s: Sent)
    requires b.Valid() && InvFeed(f, taken, g) && bld.byteIdx < TOTAL
    requires s.group == g - 1 && s.blocks == GroupAt(taken, s.group)
    requires s.seqNum == bld.seqNum && s.pres == bld.pres
    ensures P.CurByte(b, f, bld) == FrameOf(b, s)[bld.byteIdx]
  {
    forall k | 0 <= k < 6
      ensures s.blocks[k] == P.PayAt(f.pay, f.send, k)
    {
      assert P.PayAt(f.pay, f.send, k) == BlockOf(taken[6 * (g - 1) + k]);
    }
    CurByteOfStableHalf(b, f, bld, s.blocks);
  }

  lemma CurByteOfStableHalf(b: Binding, f: P.Feed, bld: P.Builder, g: Group)
    requires b.Valid() && bld.byteIdx < TOTAL
    requires forall k :: 0 <= k < 6 ==> g[k] == P.PayAt(f.pay, f.send, k)
    ensures P.CurByte(b, f, bld) == Frame(b, bld.seqNum, bld.pres, g)[bld.byteIdx]
  {
    if bld.byteIdx >= HDR_LEN {
      var pi := bld.byteIdx - HDR_LEN;
      assert pi / 4 / 8 == pi / 32 < 6;
      assert Payload(g)[pi] == BeByte(g[pi / 32][pi / 4 % 8], pi % 4);
    }
  }

  lemma BuildStepKept(bld: P.Builder, f: seq<Byte>, v: Byte)
    requires |f| == TOTAL && |bld.ram| == N_WORDS && bld.byteIdx < TOTAL
    requires Built(bld, f) && v == f[bld.byteIdx]
    ensures bld.byteIdx < TOTAL - 1 ==> Built(P.BuildStep(bld, v), f)
    ensures bld.byteIdx == TOTAL - 1 ==> P.BuildStep(bld, v).ram == Words(f)
  {
    var w, lane := bld.byteIdx / 4, bld.byteIdx % 4;
    var n := P.BuildStep(bld, v);
    if bld.byteIdx == TOTAL - 1 {
      assert w == 58 && lane == 1;
      assert n.ram[58] == WordAt(f, 58);
      forall k | 0 <= k < N_WORDS
        ensures n.ram[k] == Words(f)[k]
      {
      }
    } else if lane == 3 {
      assert n.byteIdx / 4 == w + 1 && n.byteIdx % 4 == 0;
      assert n.ram[w] == WordAt(f, w);
    } else {
      assert n.byteIdx / 4 == w && n.byteIdx % 4 == lane + 1;
    }
  }

  lemma WireGrows(b: Binding, sent: seq<Sent>, done: nat, ram: seq<Word>)
    requires b.Valid() && done < |sent| && ram == Words(FrameOf(b, sent[done]))
    ensures Wire(b, sent[..done + 1]) == Wire(b, sent[..done]) + BeatsOf(ram)
  {
    assert sent[..done + 1][..done] == sent[..done];
  }

  lemma NextBeat(out: seq<Beat>, wire: seq<Beat>, beats: seq<Beat>, k: nat)
    requires k < |beats| && out == wire + beats[..k]
    ensures out + [beats[k]] == wire + beats[..k + 1]
    ensures k + 1 == |beats| ==> out + [beats[k]] == wire + beats
  {
    assert beats[..k] + [beats[k]] == beats[..k + 1];
    assert beats[..|beats|] == beats;
  }

  lemma StreamedBeat(b: Binding, bld: P.Builder, h: Hist)
    requires b.Valid() && |bld.ram| == N_WORDS && bld.rdIdx < N_WORDS && InvOut(b, bld, h) && bld.phase.STREAM?
    ensures var out := h.out + [P.Output(bld).value];
            if bld.rdIdx == N_WORDS - 1 then out == Wire(b, h.sent[..h.done + 1])
            else out == Wire(b, h.sent[..h.done]) + BeatsOf(bld.ram)[..bld.rdIdx + 1]
  {
    NextBeat(h.out, Wire(b, h.sent[..h.done]), BeatsOf(bld.ram), bld.rdIdx);
    WireGrows(b, h.sent, h.done, bld.ram);
  }

  /** Effect of one clock on the frame under construction and on the wire, phase by phase. */
  lemma IdleKept(b: Binding, bld: P.Builder, req: bool, cur: Byte, pres: Word32, ready: bool, h: Hist, t: Hist)
    requires b.Valid() && P.BuilderWf(bld) && bld.phase.IDLE?
    requires h.done == |h.sent| && InvOut(b, bld, h)
    requires t.out == h.out && t.done == h.done
    requires if req then
               && |t.sent| == |h.sent| + 1 && t.sent[..|h.sent|] == h.sent && t.groups == h.groups
               && var x := t.sent[|h.sent|];
                  x.group == h.groups - 1 && x.seqNum == bld.seqNum && x.pres == pres
             else t.sent == h.sent
    ensures var n := P.NextBuilder(bld, req, cur, pres, ready);
            P.BuilderWf(n) && InvBuild(b, n, t) && InvOut(b, n, t)
  {
    assert t.sent[..h.done] == h.sent[..h.done];
  }

  lemma BuildingKept(b: Binding, bld: P.Builder, cur: Byte, pres: Word32, ready: bool, h: Hist, t: Hist)
    requires b.Valid() && P.BuilderWf(bld) && bld.phase.BUILD?
    requires h.done == |h.sent| - 1 && InvBuild(b, bld, h) && InvOut(b, bld, h)
    requires cur == FrameOf(b, h.sent[|h.sent| - 1])[bld.byteIdx]
    requires t.out == h.out && t.done == h.done && t.sent == h.sent && t.groups == h.groups
    ensures var n := P.NextBuilder(bld, false, cur, pres, ready);
            P.BuilderWf(n) && InvBuild(b, n, t) && InvOut(b, n, t)
  {
    BuildStepKept(bld, FrameOf(b, h.sent[|h.sent| - 1]), cur);
    assert BeatsOf(P.BuildStep(bld, cur).ram)[..0] == [];
  }

  /** The registers of the builder after a clock of STREAM. */
  lemma StreamedRegs(bld: P.Builder, req: bool, cur: Byte, pres: Word32, ready: bool, n: P.Builder)
    requires P.BuilderWf(bld) && bld.phase.STREAM? && n == P.NextBuilder(bld, req, cur, pres, ready)
    ensures P.BuilderWf(n) && n.ram == bld.ram && !n.phase.BUILD?
    ensures !ready ==> n.phase.STREAM? && n.rdIdx == bld.rdIdx
    ensures ready && bld.rdIdx == N_WORDS - 1 ==> n.phase.IDLE?
    ensures ready && bld.rdIdx < N_WORDS - 1 ==> n.phase.STREAM? && n.rdIdx == bld.rdIdx + 1
  {
  }

  lemma BeatTaken(b: Binding, bld: P.Builder, h: Hist, t: Hist, n: P.Builder)
    requires b.Valid() && P.BuilderWf(bld) && bld.phase.STREAM? && InvOut(b, bld, h)
    requires t.out == h.out + [P.Output(bld).value] && t.sent == h.sent
    requires t.done == h.done + if bld.rdIdx == N_WORDS - 1 then 1 else 0
    requires P.BuilderWf(n) && n.ram == bld.ram
    requires if bld.rdIdx == N_WORDS - 1 then n.phase.IDLE? else n.phase.STREAM? && n.rdIdx == bld.rdIdx + 1
    ensures InvOut(b, n, t)
  {
    StreamedBeat(b, bld, h);
  }

  lemma StreamingKept(b: Binding, bld: P.Builder, req: bool, cur: Byte, pres: Word32, ready: bool, h: Hist, t: Hist,
      n: P.Builder)
    requires b.Valid() && P.BuilderWf(bld) && bld.phase.STREAM?
    requires InvOut(b, bld, h)
    requires t.out == (if ready then h.out + [P.Output(bld).value] else h.out)
    requires t.done == h.done + (if ready && bld.rdIdx == N_WORDS - 1 then 1 else 0) && t.sent == h.sent
    requires n == P.NextBuilder(bld, req, cur, pres, ready)
    ensures P.BuilderWf(n) && InvBuild(b, n, t) && InvOut(b, n, t)
  {
    StreamedRegs(bld, req, cur, pres, ready, n);
    if ready {
      BeatTaken(b, bld, h, t, n);
    }
  }

  lemma StepIngress(b: Binding, s: Sys, i: Input)
    requires b.Valid() && s.r.Wf() && InvIngress(s.r.asm, s.r.fifo, s.h)
    ensures var t := Step(b, s, i);
            InvIngress(t.r.asm, t.r.fifo, t.h)
  {
    IngressKept(s.r, Clocked(s, i), s.h, Record(b, s, i));
  }

  lemma StepFeed(b: Binding, s: Sys, i: Input)
    requires b.Valid() && s.r.Wf() && InvFeed(s.r.feed, s.h.taken, s.h.groups)
    ensures var t := Step(b, s, i);
            InvFeed(t.r.feed, t.h.taken, t.h.groups)
  {
    var t := Step(b, s, i);
    FeedMoves(s.r.feed, P.Strobe(Clocked(s, i)), s.r.fifo, s.h.taken, s.h.groups, t.h.taken, t.h.groups);
  }

  /** The numbers that change in one clock, apart from the frames themselves. */
  lemma StepCounts(b: Binding, s: Sys, i: Input)
    requires b.Valid() && s.r.Wf() && InvFeed(s.r.feed, s.h.taken, s.h.groups)
    ensures var r, h, t := s.r, s.h, Record(b, s, i);
            var req' := P.NextFeed(r.feed, P.Strobe(Clocked(s, i)), r.fifo).req;
            && t.groups == h.groups + (if req' then 1 else 0)
            && (t.taken == h.taken || t.taken == h.taken + [Head(r.fifo)])
            && t.skipped == h.skipped + (if r.feed.req && !r.bld.phase.IDLE? then 1 else 0)
            && t.done == h.done + (if Fires(r, i) && r.bld.rdIdx == N_WORDS - 1 then 1 else 0)
            && (!Starts(r) ==> t.sent == h.sent)
            && (Starts(r) ==>
                  && |t.sent| == |h.sent| + 1 && t.sent[..|h.sent|] == h.sent
                  && 0 < h.groups && 6 * h.groups <= |h.taken|
                  && var x := t.sent[|h.sent|];
                     && x.group == h.groups - 1 && x.blocks == GroupAt(h.taken, x.group)
                     && x.seqNum == r.bld.seqNum
                     && x.pres == PresentationTime(i.sec, i.ns, b.presOffset))
  {
  }

  lemma StepCount(b: Binding, s: Sys, i: Input)
    requires b.Valid() && s.r.Wf() && InvFeed(s.r.feed, s.h.taken, s.h.groups)
    requires InvCount(s.r.bld, s.r.feed.req, s.h)
    ensures var t := Step(b, s, i);
            InvCount(t.r.bld, t.r.feed.req, t.h)
  {
    StepCounts(b, s, i);
    var c := Clocked(s, i);
    CountKept(s.r.bld, s.r.feed.req, P.CurByte(b, s.r.feed, s.r.bld), P.PresNow(b, c), i.ready,
              P.NextFeed(s.r.feed, P.Strobe(c), s.r.fifo).req, s.h, Record(b, s, i));
  }

  lemma StepSent(b: Binding, s: Sys, i: Input)
    requires b.Valid() && s.r.Wf() && InvFeed(s.r.feed, s.h.taken, s.h.groups)
    requires InvCount(s.r.bld, s.r.feed.req, s.h) && InvSent(s.r.feed.req, s.h)
    ensures var t := Step(b, s, i);
            InvSent(t.r.feed.req, t.h)
  {
    StepCounts(b, s, i);
    SentKept(s.h, Head(s.r.fifo), Record(b, s, i));
  }

  /** What one clock brings to the builder: the octet of its frame, or a new frame to start. */
  ghost predicate BuilderFed(b: Binding, r: P.Regs, h: Hist, t: Hist, cur: Byte, pres: Word32)
    requires b.Valid() && r.Wf()
  {
    && (r.bld.phase.BUILD? ==>
          && h.sent != [] && !r.feed.req && t.groups == h.groups
          && cur == FrameOf(b, h.sent[|h.sent| - 1])[r.bld.byteIdx])
    && (Starts(r) ==>
          && |t.sent| == |h.sent| + 1 && t.sent[..|h.sent|] == h.sent && t.groups == h.groups
          && var x := t.sent[|h.sent|];
             x.group == h.groups - 1 && x.seqNum == r.bld.seqNum && x.pres == pres)
    && (!Starts(r) ==> t.sent == h.sent)
  }

  lemma StepFeeds(b: Binding, s: Sys, i: Input)
    requires b.Valid() && s.r.Wf() && InvFeed(s.r.feed, s.h.taken, s.h.groups)
    requires InvSent(s.r.feed.req, s.h) && InvPace(s) && InvBuild(b, s.r.bld, s.h) && i.inc <= Nco.MAX_INCREMENT
    ensures BuilderFed(b, s.r, s.h, Record(b, s, i), P.CurByte(b, s.r.feed, s.r.bld), P.PresNow(b, Clocked(s, i)))
  {
    var r, h := s.r, s.h;
    StepCounts(b, s, i);
    P.ShiftAddIsMultiply(i.sec);
    if r.bld.phase.BUILD? {
      PaceKept(b, s, i);
      CurByteIsFrameByte(b, r.feed, r.bld, h.taken, h.groups, h.sent[|h.sent| - 1]);
    }
  }

  /** The builder part of one clock, for whatever the ingress and the feed do. */
  lemma BuilderKept(b: Binding, r: P.Regs, h: Hist, t: Hist, cur: Byte, pres: Word32, ready: bool, n: P.Builder)
    requires b.Valid() && r.Wf() && BuilderFed(b, r, h, t, cur, pres)
    requires InvCount(r.bld, r.feed.req, h) && InvBuild(b, r.bld, h) && InvOut(b, r.bld, h)
    requires t.out == if r.bld.phase.STREAM? && ready then h.out + [P.Output(r.bld).value] else h.out
    requires t.done == h.done + if r.bld.phase.STREAM? && ready && r.bld.rdIdx == N_WORDS - 1 then 1 else 0
    requires n == P.NextBuilder(r.bld, r.feed.req, cur, pres, ready)
    ensures P.BuilderWf(n) && InvBuild(b, n, t) && InvOut(b, n, t)
  {
    match r.bld.phase {
      case IDLE => IdleKept(b, r.bld, r.feed.req, cur, pres, ready, h, t);
      case BUILD => BuildingKept(b, r.bld, cur, pres, ready, h, t);
      case STREAM => StreamingKept(b, r.bld, r.feed.req, cur, pres, ready, h, t, n);
    }
  }

  lemma InvKept(b: Binding, s: Sys, i: Input)
    requires b.Valid() && Inv(b, s) && i.inc <= Nco.MAX_INCREMENT
    ensures Inv(b, Step(b, s, i))
  {
    StepIngress(b, s, i);
    StepFeed(b, s, i);
    StepCount(b, s, i);
    StepSent(b, s, i);
    PaceKept(b, s, i);
    StepFeeds(b, s, i);
    var t := Step(b, s, i);
    BuilderKept(b, s.r, s.h, t.h, P.CurByte(b, s.r.feed, s.r.bld), P.PresNow(b, Clocked(s, i)), i.ready, t.r.bld);
  }

  predicate Bounded(ins: seq<Input>) {
    forall k :: 0 <= k < |ins| ==> ins[k].inc <= Nco.MAX_INCREMENT
  }

  lemma {:induction false} InvOnRuns(b: Binding, s: Sys, ins: seq<Input>)
    requires b.Valid() && Inv(b, s) && Bounded(ins)
    ensures Inv(b, Run(b, s, ins))
    decreases |ins|
  {
    if ins != [] {
      InvKept(b, s, ins[0]);
      InvOnRuns(b, Step(b, s, ins[0]), ins[1..]);
    }
  }

  lemma ResetInv(b: Binding)
    requires b.Valid()
    ensures Inv(b, RESET)
  {
  }

  // ---------------------------------------------------------------------------
  // What every run from reset shows
  // ---------------------------------------------------------------------------

  lemma {:induction false} TakenSplits(taken: seq<Option<Block>>)
    ensures |taken| == |Popped(taken)| + Underruns(taken)
    decreases |taken|
  {
    if taken != [] {
      TakenSplits(taken[..|taken| - 1]);
    }
  }

  /** Beats of the frame being streamed that the MAC already has. */
  function InProgress(s: Sys): seq<Beat>
    requires s.r.Wf()
  {
    if s.r.bld.phase.STREAM? then BeatsOf(s.r.bld.ram)[..s.r.bld.rdIdx] else []
  }

  /**
   Enabled strobes are six per frame sent, skipped, in flight or requested, plus the
   slots of the half being filled; they are also the blocks popped plus the underruns;
   and what was pushed was popped or is still queued.
   */
  ghost predicate Conserved(s: Sys) {
    var inFlight := if s.r.bld.phase.IDLE? then 0 else 1;
    var requested := if s.r.feed.req then 1 else 0;
    && |s.h.taken| == 6 * (s.h.done + s.h.skipped + inFlight + requested) + s.r.feed.blk
    && |s.h.taken| == |Popped(s.h.taken)| + Underruns(s.h.taken)
    && |s.h.pushed| == |Popped(s.h.taken)| + |s.r.fifo|
    && s.r.bld.packets == U32(s.h.done) && s.r.bld.overruns == U32(s.h.skipped)
    && s.r.feed.underruns == U32(Underruns(s.h.taken))
  }

  /**
   The wire carries whole frames one after the other, each with the next sequence
   number and the six consecutive media-clock blocks of one half, and groups go missing
   only by counted overruns.
   */
  ghost predicate WholeFrames(b: Binding, s: Sys)
    requires b.Valid()
  {
    && s.r.Wf()
    && s.h.done <= |s.h.sent|
    && s.h.out == Wire(b, s.h.sent[..s.h.done]) + InProgress(s)
    && (s.r.bld.phase.STREAM? ==>
          s.h.done < |s.h.sent| && s.r.bld.ram == Words(FrameOf(b, s.h.sent[s.h.done])))
    && (forall k :: 0 <= k < |s.h.sent| ==> Labelled(s.h.sent[k], k, s.h))
    && (forall k :: 0 < k < |s.h.sent| ==> s.h.sent[k - 1].group < s.h.sent[k].group)
  }

  ghost predicate Labelled(x: Sent, k: nat, h: Hist) {
    && x.seqNum == U8(k)
    && 6 * x.group + 6 <= |h.taken|
    && x.blocks == GroupAt(h.taken, x.group)
    && k <= x.group <= k + h.skipped
  }

  lemma {:induction false} GroupsSpread(sent: seq<Sent>, k: nat)
    requires forall j :: 0 < j < |sent| ==> sent[j - 1].group < sent[j].group
    requires k < |sent|
    ensures k <= sent[k].group <= sent[|sent| - 1].group - (|sent| - 1 - k)
    decreases |sent|
  {
    if k == |sent| - 1 {
      if k > 0 {
        GroupsSpread(sent[..k], k - 1);
      }
    } else {
      GroupsSpread(sent[..|sent| - 1], k);
      assert sent[|sent| - 2].group < sent[|sent| - 1].group;
    }
  }

  lemma InvConserves(b: Binding, s: Sys)
    requires b.Valid() && InvIngress(s.r.asm, s.r.fifo, s.h) && InvFeed(s.r.feed, s.h.taken, s.h.groups)
    requires InvCount(s.r.bld, s.r.feed.req, s.h)
    ensures Conserved(s)
  {
    TakenSplits(s.h.taken);
  }

  lemma InvFramesWhole(b: Binding, s: Sys)
    requires b.Valid() && s.r.Wf()
    requires InvCount(s.r.bld, s.r.feed.req, s.h) && InvSent(s.r.feed.req, s.h) && InvOut(b, s.r.bld, s.h)
    ensures WholeFrames(b, s)
  {
    forall k | 0 <= k < |s.h.sent|
      ensures Labelled(s.h.sent[k], k, s.h)
    {
      OneLabelled(s.r.bld, s.r.feed.req, s.h, k);
    }
  }

  lemma OneLabelled(bld: P.Builder, req: bool, h: Hist, k: nat)
    requires InvCount(bld, req, h) && InvSent(req, h) && k < |h.sent|
    ensures Labelled(h.sent[k], k, h)
  {
    GroupsSpread(h.sent, k);
    assert SentFrom(h.sent[k], k, h.groups, h.taken);
    assert SentFrom(h.sent[|h.sent| - 1], |h.sent| - 1, h.groups, h.taken);
  }

  /** Conservation at every clock of every run from reset. */
  lemma Conservation(b: Binding, ins: seq<Input>)
    requires b.Valid() && Bounded(ins)
    ensures Conserved(Run(b, RESET, ins))
  {
    ResetInv(b);
    InvOnRuns(b, RESET, ins);
    InvConserves(b, Run(b, RESET, ins));
  }

  /** No torn packet, at every clock of every run from reset. */
  lemma NoTornPacket(b: Binding, ins: seq<Input>)
    requires b.Valid() && Bounded(ins)
    ensures WholeFrames(b, Run(b, RESET, ins))
  {
    ResetInv(b);
    InvOnRuns(b, RESET, ins);
    InvFramesWhole(b, Run(b, RESET, ins));
  }

  /**
   While a frame is built at most one later strobe has been taken, so the half it reads
   is five strobes away from being handed back to the feed.
   */
  lemma BuildOutrunsTheFeed(b: Binding, ins: seq<Input>)
    requires b.Valid() && Bounded(ins)
    ensures var s := Run(b, RESET, ins);
            s.r.bld.phase.BUILD? ==> s.r.feed.blk + Pending(s) <= 1
  {
    ResetInv(b);
    InvOnRuns(b, RESET, ins);
    var s := Run(b, RESET, ins);
    assert InvPace(s);
  }

  /** The blocks handed out are the assembled USB blocks in order, silence at underruns only. */
  lemma BlocksComeFromUsb(b: Binding, ins: seq<Input>)
    requires b.Valid() && Bounded(ins)
    ensures var s := Run(b, RESET, ins);
            && Popped(s.h.taken) + s.r.fifo == Assembler.Blocks(Assembler.EMPTY, s.h.samples)
            && |s.r.fifo| <= P.FIFO_DEPTH
  {
    ResetInv(b);
    InvOnRuns(b, RESET, ins);
  }

  lemma {:induction false} HasTaken(a: Assembler.State, ss: seq<Assembler.Sample>)
    ensures Assembler.Final(a, ss).have <==> a.have || ss != []
    decreases |ss|
  {
    if ss != [] {
      HasTaken(Assembler.Accept(a, ss[0]), ss[1..]);
    }
  }

  /**
   A USB sample is popped exactly when the talker is enabled, one is offered, and it does not close a
   block while the 64 blocks pushed last are all still queued: nothing is dropped, and nothing waits for
   any other reason.
   */
  lemma PopsExactly(b: Binding, ins: seq<Input>, i: Input)
    requires b.Valid() && Bounded(ins)
    ensures var s := Run(b, RESET, ins);
            P.DoPop(s.r, Clocked(s, i)) <==>
              && i.enable && i.usb.Some?
              && (i.usb.value.first && s.h.samples != [] ==> |s.h.pushed| < |Popped(s.h.taken)| + 64)
  {
    ResetInv(b);
    InvOnRuns(b, RESET, ins);
    HasTaken(Assembler.EMPTY, Run(b, RESET, ins).h.samples);
  }

  ghost predicate Untouched(s: Sys) { s.h.samples == [] && s.h.taken == [] }

  lemma {:induction false} NothingTaken(b: Binding, s: Sys, ins: seq<Input>)
    requires b.Valid() && s.r.Wf() && Untouched(s) && forall k :: 0 <= k < |ins| ==> !ins[k].enable
    ensures Untouched(Run(b, s, ins))
    decreases |ins|
  {
    if ins != [] {
      NothingTaken(b, Step(b, s, ins[0]), ins[1..]);
    }
  }

  /** While the firmware owns the stream, the gateware talker takes no sample and keeps off the wire. */
  lemma DisabledIsSilent(b: Binding, ins: seq<Input>)
    requires b.Valid() && Bounded(ins) && forall k :: 0 <= k < |ins| ==> !ins[k].enable
    ensures var s := Run(b, RESET, ins);
            s.h.samples == [] && s.h.out == [] && P.Output(s.r.bld).None?
  {
    var s := Run(b, RESET, ins);
    NothingTaken(b, RESET, ins);
    Conservation(b, ins);
    NoTornPacket(b, ins);
    assert s.h.sent[..0] == [];
  }
}
