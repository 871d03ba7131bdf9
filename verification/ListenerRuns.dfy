/**
 Whole runs of the extractor: which frames are hidden from the CPU, which are replayed,
 and what the replay pushes, for every beat stream of at most one beat per clock.
 */
module ListenerRuns {
  import opened Bytes
  import opened AafFrame
  import opened Extractor

  /** Clocks the replay machine is busy: prime, warm, 48 samples. */
  const BUSY := 50

  /** An end of frame: whether it matched, the buffer and the tag as they were then. */
  datatype Mark = Mark(hit: bool, buf: FrameBuf, tagged: bool)

  /** What completed frames leave behind: neither the buffer nor the header shadow is ever cleared. */
  datatype Left = Left(buf: FrameBuf, hdr: HdrWords)

  /** The words of f over those of `old`. */
  function Over(was: seq<Word>, f: seq<Word>): (s: seq<Word>)
    ensures |s| == |was|
  {
    seq(|was|, j requires 0 <= j < |was| => if j < |f| then f[j] else was[j])
  }

  function AfterFrame(l: Left, f: seq<Word>): Left { Left(Over(l.buf, f), Over(l.hdr, f)) }

  /** One sample FIFO: what went in, what the CPU took out, and whether there was always room. */
  datatype Stored = Stored(pushed: seq<Word>, popped: seq<Word>, roomy: bool)

  /** Everything observed since reset. */
  datatype Hist = Hist(
    clock: nat,                     // clocks since reset
    cur: seq<Word>,                 // words of the frame in progress
    frames: seq<seq<Word>>,         // completed frames
    ends: seq<nat>,                 // the clock in which each of them ended
    hid: seq<bool>,                 // whether match_at_eof was high then: the CPU does not get the frame
    left: Left,                     // what they left behind
    discards: nat,                  // clocks in which match_at_eof was high
    e1: Mark, e2: Mark,             // match_at_eof one and two clocks ago
    snap: Mark,                     // the frame being replayed, or replayed last
    since: nat,                     // clocks since its replay began; BUSY or more: idle
    started: nat, missed: nat,      // registered matches that found the machine idle, or busy
    decoded: seq<Word>,             // decode of every frame whose replay began
    offered: seq<Word>,             // samples offered to the FIFOs, all wire channels
    ch0: Stored, ch1: Stored)

  datatype Sys = Sys(r: Regs, h: Hist)

  const NOTHING_LEFT := Left(RESET.cap.buf, RESET.cap.hdr)

  const NO_MARK := Mark(false, RESET.cap.buf, false)

  const RESET_SYS := Sys(RESET, Hist(0, [], [], [], [], NOTHING_LEFT, 0, NO_MARK, NO_MARK, NO_MARK, BUSY, 0, 0, [], [],
                                     Stored([], [], true), Stored([], [], true)))

  /** A registered match that finds the machine idle starts a replay. */
  predicate Starts(r: Regs) { r.pipe.eofC && r.pipe.matchC && r.rep.phase.IDLE? }

  predicate Misses(r: Regs) { r.pipe.eofC && r.pipe.matchC && !r.rep.phase.IDLE? }

  /** There is room if every replay began with six free places: one per block. */
  function NextStored(x: Stored, fifo: seq<Word>, r: Regs, ch: nat, pop: bool): Stored {
    Stored(if Offers(r.rep, ch) && |fifo| < FIFO_DEPTH then x.pushed + [SampleNow(r.rep)] else x.pushed,
           if pop && fifo != [] then x.popped + [fifo[0]] else x.popped,
           x.roomy && (Starts(r) ==> |fifo| <= FIFO_DEPTH - 6))
  }

  function Record(slot: Slot, s: Sys, i: Input): Hist
    requires slot.Valid()
  {
    var r, h := s.r, s.h;
    var m := MatchAtEof(slot, r.cap, i);
    h.(clock := h.clock + 1,
       cur := if !i.valid then h.cur else if i.last then [] else h.cur + [i.data],
       frames := if Eof(i) then h.frames + [h.cur + [i.data]] else h.frames,
       ends := if Eof(i) then h.ends + [h.clock] else h.ends,
       hid := if Eof(i) then h.hid + [m] else h.hid,
       left := if Eof(i) then AfterFrame(h.left, h.cur + [i.data]) else h.left,
       discards := if m then h.discards + 1 else h.discards,
       e1 := Mark(m, NextCapture(r.cap, i).buf, Tagged(r.cap.hdr)),
       e2 := h.e1,
       snap := if Starts(r) then h.e2 else h.snap,
       since := if Starts(r) then 0 else h.since + 1,
       started := if Starts(r) then h.started + 1 else h.started,
       missed := if Misses(r) then h.missed + 1 else h.missed,
       decoded := if Starts(r) then h.decoded + Decode(h.e2.buf, h.e2.tagged) else h.decoded,
       offered := if r.rep.phase.STREAM? then h.offered + [SampleNow(r.rep)] else h.offered,
       ch0 := NextStored(h.ch0, r.fifo0, r, 0, i.pop0),
       ch1 := NextStored(h.ch1, r.fifo1, r, 1, i.pop1))
  }

  function Step(slot: Slot, s: Sys, i: Input): Sys
    requires slot.Valid()
  {
    Sys(Next(slot, s.r, i), Record(slot, s, i))
  }

  function Run(slot: Slot, s: Sys, ins: seq<Input>): Sys
    requires slot.Valid()
    decreases |ins|
  {
    if ins == [] then s else Run(slot, Step(slot, s, ins[0]), ins[1..])
  }

  // ---------------------------------------------------------------------------
  // The invariant
  // ---------------------------------------------------------------------------

  /** The buffers hold the words of the frame in progress over those of earlier frames. */
  ghost predicate InvCapture(c: Capture, h: Hist) {
    && c.beatIdx == Min(|h.cur|, BUF_BEATS)
    && |h.cur| <= h.since + 2
    && c.buf == Over(h.left.buf, h.cur)
    && c.hdr == Over(h.left.hdr, h.cur)
  }

  /** The registered match is the combinational one, two clocks late; so is what it refers to. */
  ghost predicate InvPipe(slot: Slot, c: Capture, p: Pipe, h: Hist)
    requires slot.Valid()
  {
    && (p.eofB && Matches(slot, p.keysB) <==> h.e1.hit)
    && (p.eofC && p.matchC <==> h.e2.hit)
    && (h.e1.hit ==> p.keysB.tagged == h.e1.tagged && h.cur == [] && c.buf == h.e1.buf)
    && (h.e2.hit ==>
          && p.taggedC == h.e2.tagged && |h.cur| <= 1
          && forall j :: 1 <= j < BUF_BEATS ==> c.buf[j] == h.e2.buf[j])
  }

  /** Where the replay machine is, as a function of time. */
  ghost predicate InvPhase(r: Replay, h: Hist) {
    var t, start := h.since, StartWord(h.snap.tagged);
    && (r.phase.IDLE? <==> t >= BUSY)
    && (r.phase.PRIME? <==> t == 0)
    && (r.phase.WARM? <==> t == 1)
    && (t < BUSY ==> r.addr == start + t && r.n == if t < 2 then 0 else t - 2)
  }

  /** The words in the replay registers, and the buffer it has yet to read. */
  ghost predicate InvWords(c: Capture, r: Replay, h: Hist) {
    var t, start := h.since, StartWord(h.snap.tagged);
    && (1 <= t < BUSY ==> r.datR == h.snap.buf[start + t - 1])
    && (2 <= t < BUSY ==> r.prev == h.snap.buf[start + t - 2])
    && (t < BUSY ==> forall j :: t + 2 <= j < BUF_BEATS ==> c.buf[j] == h.snap.buf[j])
  }

  /** Samples of the running replay not offered yet. */
  function Outstanding(h: Hist): seq<Word> {
    if h.since < 2 then Decode(h.snap.buf, h.snap.tagged)
    else if h.since < BUSY then Decode(h.snap.buf, h.snap.tagged)[h.since - 2..]
    else []
  }

  ghost predicate InvOffered(h: Hist) {
    && h.decoded == h.offered + Outstanding(h)
    && |h.decoded| == SAMPLES * h.started
  }

  ghost predicate InvCount(h: Hist) {
    h.discards == h.started + h.missed + (if h.e1.hit then 1 else 0) + (if h.e2.hit then 1 else 0)
  }

  /** Every eighth sample, starting with the one of channel `ch`. */
  function Lane(s: seq<Word>, ch: nat): seq<Word>
    decreases |s|
  {
    if s == [] then []
    else Lane(s[..|s| - 1], ch) + if (|s| - 1) % CHANNELS == ch then [s[|s| - 1]] else []
  }

  /** Samples of channel `ch` among the first n of a frame. */
  function LaneCount(n: nat, ch: nat): nat
    requires ch < CHANNELS
  {
    (n + 7 - ch) / CHANNELS
  }

  /** Most samples a FIFO can hold `since` clocks into a replay that began with six free places. */
  function Limit(since: nat, ch: nat): nat
    requires ch < CHANNELS
  {
    FIFO_DEPTH - 6 + LaneCount(if since < 2 then 0 else since - 2, ch)
  }

  ghost predicate InvStored(fifo: seq<Word>, x: Stored, h: Hist, ch: nat)
    requires ch < CHANNELS
  {
    && x.pushed == x.popped + fifo
    && |fifo| <= FIFO_DEPTH
    && (x.roomy ==> x.pushed == Lane(h.offered, ch))
    && (x.roomy && h.since < BUSY ==> |fifo| <= Limit(h.since, ch))
  }

  ghost predicate Inv(slot: Slot, s: Sys)
    requires slot.Valid()
  {
    && InvCapture(s.r.cap, s.h)
    && InvPipe(slot, s.r.cap, s.r.pipe, s.h)
    && InvPhase(s.r.rep, s.h)
    && InvWords(s.r.cap, s.r.rep, s.h)
    && InvOffered(s.h)
    && InvCount(s.h)
    && InvStored(s.r.fifo0, s.h.ch0, s.h, 0)
    && InvStored(s.r.fifo1, s.h.ch1, s.h, 1)
  }

  lemma OverGrows(was: seq<Word>, f: seq<Word>, w: Word)
    ensures Over(was, f + [w]) == if |f| < |was| then Over(was, f)[|f| := w] else Over(was, f)
    ensures Over(was, []) == was
  {
  }

  lemma CaptureKept(slot: Slot, s: Sys, i: Input, c: Capture, t: Hist)
    requires slot.Valid() && InvCapture(s.r.cap, s.h) && InvPipe(slot, s.r.cap, s.r.pipe, s.h)
    requires c == NextCapture(s.r.cap, i) && t == Record(slot, s, i)
    ensures InvCapture(c, t)
  {
    OverGrows(s.h.left.buf, s.h.cur, i.data);
    OverGrows(s.h.left.hdr, s.h.cur, i.data);
    OverGrows(t.left.buf, s.h.cur, i.data);
    OverGrows(t.left.hdr, s.h.cur, i.data);
  }

  lemma PipeKept(slot: Slot, s: Sys, i: Input, c: Capture, p: Pipe, t: Hist)
    requires slot.Valid() && InvPipe(slot, s.r.cap, s.r.pipe, s.h) && InvCapture(s.r.cap, s.h)
    requires c == NextCapture(s.r.cap, i) && t == Record(slot, s, i)
    requires p == NextPipe(slot, s.r.pipe, KeysOf(s.r.cap.hdr), i)
    ensures InvPipe(slot, c, p, t)
  {
    if t.e2.hit {
      assert s.h.cur == [] && s.r.cap.beatIdx == 0;
    }
  }

  /**
   Hazard freedom: the read port never returns a word that a later frame has overwritten
   or is overwriting, whatever traffic follows.
   */
  lemma ReadIsStable(c: Capture, r: Replay, h: Hist, i: Input)
    requires InvCapture(c, h) && InvPhase(r, h) && InvWords(c, r, h) && h.since < BUSY
    ensures r.addr < BUF_BEATS && ReadPort(c, r.addr, i) == h.snap.buf[r.addr]
    ensures !(Writes(c, i) && c.beatIdx == r.addr)
  {
    assert c.beatIdx <= h.since + 2 < r.addr;
  }

  lemma PhaseKept(r: Replay, h: Hist, start: bool, tagged: bool, read: Word, n: Replay, t: Hist)
    requires InvPhase(r, h) && n == NextReplay(r, start, tagged, read)
    requires start && r.phase.IDLE? ==> t.since == 0 && t.snap.tagged == tagged
    requires !(start && r.phase.IDLE?) ==> t.since == h.since + 1 && t.snap == h.snap
    ensures InvPhase(n, t)
  {
  }

  lemma CountKept(slot: Slot, s: Sys, i: Input, t: Hist)
    requires slot.Valid() && InvCount(s.h) && InvPipe(slot, s.r.cap, s.r.pipe, s.h) && t == Record(slot, s, i)
    ensures InvCount(t)
  {
  }

  lemma WordsKept(slot: Slot, s: Sys, i: Input, c: Capture, r: Replay, t: Hist)
    requires slot.Valid() && InvCapture(s.r.cap, s.h) && InvPipe(slot, s.r.cap, s.r.pipe, s.h)
    requires InvPhase(s.r.rep, s.h) && InvWords(s.r.cap, s.r.rep, s.h)
    requires c == NextCapture(s.r.cap, i) && t == Record(slot, s, i)
    requires r == NextReplay(s.r.rep, s.r.pipe.eofC && s.r.pipe.matchC, s.r.pipe.taggedC,
                             ReadPort(s.r.cap, s.r.rep.addr, i))
    ensures InvWords(c, r, t)
  {
    if s.h.since < BUSY {
      ReadIsStable(s.r.cap, s.r.rep, s.h, i);
    }
  }

  /** Sixteen bits of one word and sixteen of the next are the decoded sample. */
  lemma SampleIsDecoded(c: Capture, r: Replay, h: Hist)
    requires InvWords(c, r, h) && 2 <= h.since < BUSY
    ensures SampleNow(r) == Decode(h.snap.buf, h.snap.tagged)[h.since - 2]
  {
    var k, start := h.since - 2, StartWord(h.snap.tagged);
    assert AudioOffset(h.snap.tagged) + 4 * k == 4 * (start + k) + 2;
  }

  lemma OfferedKept(slot: Slot, s: Sys, i: Input, t: Hist)
    requires slot.Valid() && InvOffered(s.h) && InvPhase(s.r.rep, s.h) && InvWords(s.r.cap, s.r.rep, s.h)
    requires t == Record(slot, s, i)
    ensures InvOffered(t)
  {
    var h := s.h;
    if s.r.rep.phase.STREAM? {
      SampleIsDecoded(s.r.cap, s.r.rep, h);
      OneMore(h.offered, Decode(h.snap.buf, h.snap.tagged), h.since - 2);
    }
  }

  lemma OneMore(offered: seq<Word>, d: seq<Word>, k: nat)
    requires k < |d|
    ensures offered + d[k..] == (offered + [d[k]]) + d[k + 1..]
  {
    assert d[k..] == [d[k]] + d[k + 1..];
  }

  lemma LaneGrows(s: seq<Word>, w: Word, ch: nat)
    ensures Lane(s + [w], ch) == Lane(s, ch) + if |s| % CHANNELS == ch then [w] else []
  {
    assert (s + [w])[..|s|] == s;
  }

  lemma LimitGrows(since: nat, ch: nat)
    requires ch < CHANNELS && since < BUSY
    ensures var offers := since >= 2 && (since - 2) % CHANNELS == ch;
            && Limit(since, ch) <= FIFO_DEPTH
            && (offers ==> Limit(since, ch) < FIFO_DEPTH)
            && Limit(since + 1, ch) == Limit(since, ch) + if offers then 1 else 0
    ensures Limit(0, ch) == FIFO_DEPTH - 6
  {
  }

  lemma StoredKept(r: Regs, fifo: seq<Word>, x: Stored, h: Hist, ch: nat, pop: bool, t: Hist)
    requires ch < CHANNELS && InvStored(fifo, x, h, ch) && InvPhase(r.rep, h) && InvOffered(h)
    requires t.offered == if r.rep.phase.STREAM? then h.offered + [SampleNow(r.rep)] else h.offered
    requires t.since == if Starts(r) then 0 else h.since + 1
    ensures InvStored(NextFifo(fifo, pop, Offers(r.rep, ch), SampleNow(r.rep)),
                      NextStored(x, fifo, r, ch, pop), t, ch)
  {
    var phase := r.rep.phase;
    assert phase.STREAM? <==> 2 <= h.since < BUSY;
    if h.since < BUSY {
      LimitGrows(h.since, ch);
    }
    LimitGrows(0, ch);
    if phase.STREAM? {
      WholeFrames(|h.offered|, h.started - 1, r.rep.n);
    }
    LaneGrows(h.offered, SampleNow(r.rep), ch);
    QueueKept(fifo, x, Offers(r.rep, ch), SampleNow(r.rep), pop, NextStored(x, fifo, r, ch, pop));
  }

  lemma QueueKept(fifo: seq<Word>, x: Stored, we: bool, w: Word, pop: bool, y: Stored)
    requires x.pushed == x.popped + fifo && |fifo| <= FIFO_DEPTH
    requires y.pushed == if we && |fifo| < FIFO_DEPTH then x.pushed + [w] else x.pushed
    requires y.popped == if pop && fifo != [] then x.popped + [fifo[0]] else x.popped
    ensures y.pushed == y.popped + NextFifo(fifo, pop, we, w) && |NextFifo(fifo, pop, we, w)| <= FIFO_DEPTH
  {
    var more := if we && |fifo| < FIFO_DEPTH then [w] else [];
    assert y.pushed == (x.popped + fifo) + more;
    if pop && fifo != [] {
      HeadSplit(x.popped, fifo, more);
    } else {
      assert (x.popped + fifo) + more == x.popped + (fifo + more);
    }
  }

  lemma HeadSplit(a: seq<Word>, b: seq<Word>, c: seq<Word>)
    requires b != []
    ensures (a + b) + c == (a + [b[0]]) + (b[1..] + c)
  {
    assert b == [b[0]] + b[1..];
  }

  lemma WholeFrames(total: nat, frames: int, n: nat)
    requires total == SAMPLES * frames + n
    ensures total % CHANNELS == n % CHANNELS
  {
  }

  lemma InvKept(slot: Slot, s: Sys, i: Input)
    requires slot.Valid() && Inv(slot, s)
    ensures Inv(slot, Step(slot, s, i))
  {
    var r, h, n, t := s.r, s.h, Next(slot, s.r, i), Record(slot, s, i);
    assert Step(slot, s, i) == Sys(n, t);
    CaptureKept(slot, s, i, n.cap, t);
    PipeKept(slot, s, i, n.cap, n.pipe, t);
    PhaseKept(r.rep, h, r.pipe.eofC && r.pipe.matchC, r.pipe.taggedC, ReadPort(r.cap, r.rep.addr, i), n.rep, t);
    WordsKept(slot, s, i, n.cap, n.rep, t);
    OfferedKept(slot, s, i, t);
    CountKept(slot, s, i, t);
    StoredKept(r, r.fifo0, h.ch0, h, 0, i.pop0, t);
    StoredKept(r, r.fifo1, h.ch1, h, 1, i.pop1, t);
  }

  lemma {:induction false} InvOnRuns(slot: Slot, s: Sys, ins: seq<Input>)
    requires slot.Valid() && Inv(slot, s)
    ensures Inv(slot, Run(slot, s, ins))
    decreases |ins|
  {
    if ins != [] {
      InvKept(slot, s, ins[0]);
      InvOnRuns(slot, Step(slot, s, ins[0]), ins[1..]);
    }
  }

  lemma ResetInv(slot: Slot)
    requires slot.Valid()
    ensures Inv(slot, RESET_SYS)
  {
  }

  // ---------------------------------------------------------------------------
  // Frame by frame: what is hidden, what is replayed, and when
  // ---------------------------------------------------------------------------

  function LeftBy(l: Left, frames: seq<seq<Word>>): Left
    decreases |frames|
  {
    if frames == [] then l else AfterFrame(LeftBy(l, frames[..|frames| - 1]), frames[|frames| - 1])
  }

  /**
   How the end of frame f is judged after earlier frames: on the header words captured before its
   last beat. A frame of nine words or more is judged by its own; a shorter one by its own words
   but the last, and for the rest by the words earlier frames left.
   */
  function MarkOf(slot: Slot, l: Left, f: seq<Word>): Mark
    requires slot.Valid() && f != []
  {
    Mark(Matches(slot, KeysOf(Over(l.hdr, f[..|f| - 1]))), Over(l.buf, f), Tagged(Over(l.hdr, f[..|f| - 1])))
  }

  /** A frame hidden from the CPU, and the clock in which it ended. */
  datatype Entry = Entry(frame: seq<Word>, mark: Mark, end: nat)

  function IfHidden(m: Mark, f: seq<Word>, end: nat): seq<Entry> { if m.hit then [Entry(f, m, end)] else [] }

  ghost predicate AllWords(frames: seq<seq<Word>>) { forall k :: 0 <= k < |frames| ==> frames[k] != [] }

  /** Those frames whose end matched, in order. */
  ghost function Hidden(slot: Slot, l: Left, frames: seq<seq<Word>>, ends: seq<nat>): seq<Entry>
    requires slot.Valid() && |ends| == |frames| && AllWords(frames)
    decreases |frames|
  {
    if frames == [] then []
    else
      Hidden(slot, l, frames[..|frames| - 1], ends[..|frames| - 1]) +
      IfHidden(MarkOf(slot, LeftBy(l, frames[..|frames| - 1]), frames[|frames| - 1]), frames[|frames| - 1],
               ends[|frames| - 1])
  }

  /** Samples that lie wholly inside a frame of n words. */
  function OwnCount(n: nat, tagged: bool): (k: nat)
    ensures k <= SAMPLES && (k == SAMPLES <==> n >= FullSize(tagged))
  {
    if n <= StartWord(tagged) then 0 else Min(SAMPLES, n - StartWord(tagged) - 1)
  }

  /** What becomes of hidden frames: samples replayed, own samples among them, replays, losses, last replay. */
  datatype Outcome = Outcome(samples: seq<Word>, own: nat, started: nat, missed: nat, last: Option<nat>)

  /** A hidden frame is replayed if the one replayed last ended more than BUSY clocks before it. */
  function NextOutcome(o: Outcome, e: Entry): Outcome {
    if o.last.None? || e.end > o.last.value + BUSY then
      Outcome(o.samples + Decode(e.mark.buf, e.mark.tagged), o.own + OwnCount(|e.frame|, e.mark.tagged),
              o.started + 1, o.missed, Some(e.end))
    else o.(missed := o.missed + 1)
  }

  function OutcomeOf(es: seq<Entry>): Outcome
    decreases |es|
  {
    if es == [] then Outcome([], 0, 0, 0, None)
    else NextOutcome(OutcomeOf(es[..|es| - 1]), es[|es| - 1])
  }

  lemma LeftGrows(l: Left, frames: seq<seq<Word>>, f: seq<Word>)
    ensures LeftBy(l, frames + [f]) == AfterFrame(LeftBy(l, frames), f)
  {
    assert (frames + [f])[..|frames|] == frames;
  }

  lemma HiddenGrows(slot: Slot, l: Left, frames: seq<seq<Word>>, ends: seq<nat>, f: seq<Word>, end: nat)
    requires slot.Valid() && |ends| == |frames| && AllWords(frames) && f != []
    ensures AllWords(frames + [f])
    ensures Hidden(slot, l, frames + [f], ends + [end]) ==
              Hidden(slot, l, frames, ends) + IfHidden(MarkOf(slot, LeftBy(l, frames), f), f, end)
  {
    assert (frames + [f])[..|frames|] == frames;
    assert (ends + [end])[..|frames|] == ends;
  }

  lemma OutcomeGrows(es: seq<Entry>, e: Entry)
    ensures OutcomeOf(es + [e]) == NextOutcome(OutcomeOf(es), e)
    ensures OutcomeOf(es + []) == OutcomeOf(es)
  {
    assert (es + [e])[..|es|] == es;
    assert es + [] == es;
  }

  /** Frames follow each other at no more than one beat per clock. */
  ghost predicate InOrder(frames: seq<seq<Word>>, ends: seq<nat>) {
    && |ends| == |frames|
    && AllWords(frames)
    && forall k :: 0 < k < |ends| ==> ends[k] >= ends[k - 1] + |frames[k]|
  }

  ghost predicate InvTime(h: Hist) {
    && InOrder(h.frames, h.ends)
    && h.left == LeftBy(NOTHING_LEFT, h.frames)
    && (h.ends != [] ==> h.clock > h.ends[|h.ends| - 1] + |h.cur|)
  }

  lemma OrderGrows(frames: seq<seq<Word>>, ends: seq<nat>, f: seq<Word>, end: nat)
    requires InOrder(frames, ends) && f != [] && (ends != [] ==> end >= ends[|ends| - 1] + |f|)
    ensures InOrder(frames + [f], ends + [end])
  {
  }

  lemma TimeKept(slot: Slot, s: Sys, i: Input, t: Hist)
    requires slot.Valid() && InvTime(s.h) && t == Record(slot, s, i)
    ensures InvTime(t)
  {
    var h, f := s.h, s.h.cur + [i.data];
    if Eof(i) {
      LeftGrows(NOTHING_LEFT, h.frames, f);
      OrderGrows(h.frames, h.ends, f, h.clock);
      assert t.frames == h.frames + [f] && t.ends == h.ends + [h.clock];
    } else {
      assert t.frames == h.frames && t.ends == h.ends && |t.cur| <= |h.cur| + 1 && t.clock == h.clock + 1;
    }
  }

  /** The match two clocks ago finds the replay machine idle now; the one before will in the next clock. */
  predicate Second(h: Hist) { h.e2.hit && h.since >= BUSY }

  predicate First(h: Hist) { h.e1.hit && !Second(h) && h.since + 1 >= BUSY }

  /** Samples of replays that are about to begin. */
  function Coming(h: Hist): seq<Word> {
    (if Second(h) then Decode(h.e2.buf, h.e2.tagged) else []) +
    (if First(h) then Decode(h.e1.buf, h.e1.tagged) else [])
  }

  function Ones(b: bool, c: bool): nat { (if b then 1 else 0) + if c then 1 else 0 }

  ghost predicate Settled(h: Hist, o: Outcome) {
    && o.samples == h.decoded + Coming(h)
    && o.started == h.started + Ones(Second(h), First(h))
    && o.missed == h.missed + Ones(h.e2.hit && !Second(h), h.e1.hit && !First(h))
    && (h.e1.hit ==> h.clock >= 1)
    && (h.e2.hit ==> h.clock >= 2)
    && (if h.started == 0 then h.since >= BUSY else h.clock >= h.since + 3)
    && o.last == if First(h) then Some(h.clock - 1) else if Second(h) then Some(h.clock - 2)
                 else if h.started == 0 then None else Some(h.clock - h.since - 3)
  }

  ghost predicate InvOutcome(slot: Slot, h: Hist)
    requires slot.Valid() && InvTime(h)
  {
    && h.discards == |Hidden(slot, NOTHING_LEFT, h.frames, h.ends)|
    && Settled(h, OutcomeOf(Hidden(slot, NOTHING_LEFT, h.frames, h.ends)))
  }

  /** The mark set at the end of a frame is the judgement of that frame. */
  lemma MarkAtEof(slot: Slot, c: Capture, h: Hist, i: Input)
    requires slot.Valid() && InvCapture(c, h) && Eof(i)
    ensures var m := MarkOf(slot, h.left, h.cur + [i.data]);
            m == Mark(MatchAtEof(slot, c, i), NextCapture(c, i).buf, Tagged(c.hdr))
  {
    assert (h.cur + [i.data])[..|h.cur|] == h.cur;
    OverGrows(h.left.buf, h.cur, i.data);
  }

  /** One clock: marks move on, and a match `m` ends a frame. */
  lemma SettledKept(h: Hist, o: Outcome, t: Hist, e: Entry)
    requires Settled(h, o) && t.e2 == h.e1 && t.clock == h.clock + 1
    requires Second(h) ==>
               && t.since == 0 && t.started == h.started + 1 && t.missed == h.missed
               && t.decoded == h.decoded + Decode(h.e2.buf, h.e2.tagged)
    requires !Second(h) ==>
               && t.since == h.since + 1 && t.started == h.started && t.decoded == h.decoded
               && t.missed == h.missed + if h.e2.hit then 1 else 0
    requires e.mark == t.e1 && e.end == h.clock
    ensures Settled(t, if t.e1.hit then NextOutcome(o, e) else o)
  {
    assert Second(t) == First(h);
    var d := if Second(h) then Decode(h.e2.buf, h.e2.tagged) else [];
    var d' := if First(h) then Decode(h.e1.buf, h.e1.tagged) else [];
    assert t.decoded == h.decoded + d;
    assert h.decoded + (d + d') == (h.decoded + d) + d';
    var d'' := if First(t) then Decode(t.e1.buf, t.e1.tagged) else [];
    assert (t.decoded + d') + d'' == t.decoded + (d' + d'');
  }

  lemma OutcomeKept(slot: Slot, s: Sys, i: Input, t: Hist)
    requires slot.Valid() && InvCapture(s.r.cap, s.h) && InvPipe(slot, s.r.cap, s.r.pipe, s.h)
    requires InvPhase(s.r.rep, s.h) && InvTime(s.h) && InvOutcome(slot, s.h) && t == Record(slot, s, i)
    ensures InvTime(t) && InvOutcome(slot, t)
  {
    var h, f := s.h, s.h.cur + [i.data];
    var es := Hidden(slot, NOTHING_LEFT, h.frames, h.ends);
    TimeKept(slot, s, i, t);
    assert Starts(s.r) == Second(h) && Misses(s.r) == (h.e2.hit && !Second(h));
    var e := Entry(f, t.e1, h.clock);
    SettledKept(h, OutcomeOf(es), t, e);
    OutcomeGrows(es, e);
    if Eof(i) {
      MarkAtEof(slot, s.r.cap, h, i);
      HiddenGrows(slot, NOTHING_LEFT, h.frames, h.ends, f, h.clock);
    }
  }

  /** What the CPU does not get are the frames whose end is judged a match. */
  ghost predicate Judged(slot: Slot, frames: seq<seq<Word>>, hid: seq<bool>)
    requires slot.Valid()
  {
    && |hid| == |frames| && AllWords(frames)
    && forall k :: 0 <= k < |frames| ==> hid[k] == MarkOf(slot, LeftBy(NOTHING_LEFT, frames[..k]), frames[k]).hit
  }

  lemma {:induction false} OneMoreJudged(slot: Slot, frames: seq<seq<Word>>, hid: seq<bool>, f: seq<Word>, hit: bool)
    requires slot.Valid() && Judged(slot, frames, hid) && f != []
    requires hit == MarkOf(slot, LeftBy(NOTHING_LEFT, frames), f).hit
    ensures Judged(slot, frames + [f], hid + [hit])
  {
    var fs, hs := frames + [f], hid + [hit];
    forall k | 0 <= k < |fs|
      ensures hs[k] == MarkOf(slot, LeftBy(NOTHING_LEFT, fs[..k]), fs[k]).hit
    {
      assert fs[..k] == frames[..k];
      assert frames[..|frames|] == frames;
    }
  }

  lemma HidKept(slot: Slot, s: Sys, i: Input, t: Hist)
    requires slot.Valid() && InvCapture(s.r.cap, s.h) && InvTime(s.h) && Judged(slot, s.h.frames, s.h.hid)
    requires t == Record(slot, s, i)
    ensures Judged(slot, t.frames, t.hid)
  {
    if Eof(i) {
      MarkAtEof(slot, s.r.cap, s.h, i);
      OneMoreJudged(slot, s.h.frames, s.h.hid, s.h.cur + [i.data], MatchAtEof(slot, s.r.cap, i));
    }
  }

  lemma {:induction false} OutcomeOnRuns(slot: Slot, s: Sys, ins: seq<Input>)
    requires slot.Valid() && Sound(slot, s)
    ensures Sound(slot, Run(slot, s, ins))
    decreases |ins|
  {
    if ins != [] {
      SoundKept(slot, s, ins[0]);
      OutcomeOnRuns(slot, Step(slot, s, ins[0]), ins[1..]);
    }
  }

  /** All that is known of the states that can be reached. */
  ghost predicate Sound(slot: Slot, s: Sys)
    requires slot.Valid()
  {
    Inv(slot, s) && InvTime(s.h) && InvOutcome(slot, s.h) && Judged(slot, s.h.frames, s.h.hid)
  }

  lemma SoundKept(slot: Slot, s: Sys, i: Input)
    requires slot.Valid() && Sound(slot, s)
    ensures Sound(slot, Step(slot, s, i))
  {
    InvKept(slot, s, i);
    OutcomeKept(slot, s, i, Step(slot, s, i).h);
    HidKept(slot, s, i, Step(slot, s, i).h);
  }

  lemma RunsAreSound(slot: Slot, ins: seq<Input>)
    requires slot.Valid()
    ensures Sound(slot, Run(slot, RESET_SYS, ins))
  {
    ResetInv(slot);
    OutcomeOnRuns(slot, RESET_SYS, ins);
  }

  // ---------------------------------------------------------------------------
  // Which of the replayed samples are the frame's own
  // ---------------------------------------------------------------------------

  /** Octet i of a frame captured over what was left. */
  lemma OctetOver(was: seq<Word>, f: seq<Word>, i: nat)
    requires i < 4 * |was|
    ensures ByteOf(Over(was, f), i) == if i < 4 * |f| then ByteOf(f, i) else ByteOf(was, i)
  {
  }

  lemma OwnOffset(n: nat, tagged: bool, j: nat)
    requires j < SAMPLES
    ensures j < OwnCount(n, tagged) <==> AudioOffset(tagged) + 4 * j + 3 < 4 * n
    ensures AudioOffset(tagged) + 4 * j + 3 < 4 * BUF_BEATS
  {
  }

  lemma BeOfDecode(ws: seq<Word>, tagged: bool, j: nat, k: nat)
    requires |ws| >= FullSize(tagged) && j < SAMPLES && k < 4
    ensures BeByte(Decode(ws, tagged)[j], k) == ByteOf(ws, AudioOffset(tagged) + 4 * j + k)
  {
  }

  /** Octet k of sample j of the replay: the frame's if the frame is that long, else an earlier frame's. */
  lemma ReplayedOctet(buf: FrameBuf, f: seq<Word>, tagged: bool, j: nat, k: nat)
    requires j < SAMPLES && k < 4
    ensures var i := AudioOffset(tagged) + 4 * j + k;
            && i < 4 * BUF_BEATS
            && BeByte(Decode(Over(buf, f), tagged)[j], k) == if i < 4 * |f| then ByteOf(f, i) else ByteOf(buf, i)
  {
    OctetOver(buf, f, AudioOffset(tagged) + 4 * j + k);
    BeOfDecode(Over(buf, f), tagged, j, k);
  }

  lemma OwnSample(buf: FrameBuf, f: seq<Word>, tagged: bool, j: nat)
    requires j < OwnCount(|f|, tagged)
    ensures AudioOffset(tagged) + 4 * j + 3 < 4 * |f|
    ensures Decode(Over(buf, f), tagged)[j] == SampleAt(f, AudioOffset(tagged), j)
  {
    OwnOffset(|f|, tagged, j);
    OctetOver(buf, f, AudioOffset(tagged) + 4 * j);
    OctetOver(buf, f, AudioOffset(tagged) + 4 * j + 1);
    OctetOver(buf, f, AudioOffset(tagged) + 4 * j + 2);
    OctetOver(buf, f, AudioOffset(tagged) + 4 * j + 3);
  }

  /** Two contents of the buffer that differ in every octet. */
  function Filled(w: Word): (b: FrameBuf)
    ensures forall j :: 0 <= j < |b| ==> b[j] == w
  {
    seq(64, _ => w)
  }

  ghost predicate FrameAlone(f: seq<Word>, tagged: bool, j: nat)
    requires j < SAMPLES
  {
    forall x: FrameBuf, y: FrameBuf :: Decode(Over(x, f), tagged)[j] == Decode(Over(y, f), tagged)[j]
  }

  /**
   Sample j of a replay is determined by the frame alone if and only if all its octets lie inside the
   frame: exactly the first OwnCount samples are the frame's own, whatever earlier frames left.
   */
  lemma OwnSamplesExactly(f: seq<Word>, tagged: bool, j: nat)
    requires j < SAMPLES
    ensures FrameAlone(f, tagged, j) <==> j < OwnCount(|f|, tagged)
    ensures j < OwnCount(|f|, tagged) ==>
              && AudioOffset(tagged) + 4 * j + 3 < 4 * |f|
              && forall x: FrameBuf :: Decode(Over(x, f), tagged)[j] == SampleAt(f, AudioOffset(tagged), j)
  {
    if j < OwnCount(|f|, tagged) {
      OwnOffset(|f|, tagged, j);
      forall x: FrameBuf
        ensures Decode(Over(x, f), tagged)[j] == SampleAt(f, AudioOffset(tagged), j)
      {
        OwnSample(x, f, tagged, j);
      }
    } else {
      var x, y := Filled(ZERO_WORD), Filled(Word(1, 1, 1, 1));
      OwnOffset(|f|, tagged, j);
      ReplayedOctet(x, f, tagged, j, 3);
      ReplayedOctet(y, f, tagged, j, 3);
      assert BeByte(Decode(Over(x, f), tagged)[j], 3) != BeByte(Decode(Over(y, f), tagged)[j], 3);
    }
  }

  /** A replay is the decode of the frame if the frame has full size. */
  lemma FullFrameDecodes(buf: FrameBuf, f: seq<Word>, tagged: bool)
    requires |f| >= FullSize(tagged)
    ensures Decode(Over(buf, f), tagged) == Decode(f, tagged)
  {
    forall j | 0 <= j < SAMPLES
      ensures Decode(Over(buf, f), tagged)[j] == Decode(f, tagged)[j]
    {
      OwnSample(buf, f, tagged, j);
    }
  }

  // ---------------------------------------------------------------------------
  // Exactly when every hidden frame is replayed, and with its own samples
  // ---------------------------------------------------------------------------

  /** Hidden frames end more than BUSY clocks apart. */
  ghost predicate Spaced(es: seq<Entry>) {
    forall k :: 0 < k < |es| ==> es[k].end > es[k - 1].end + BUSY
  }

  ghost predicate AllFull(es: seq<Entry>) {
    forall k :: 0 <= k < |es| ==> |es[k].frame| >= FullSize(es[k].mark.tagged)
  }

  /** The replayed samples of a list of hidden frames, none lost. */
  function Replays(es: seq<Entry>): seq<Word>
    decreases |es|
  {
    if es == [] then [] else Replays(es[..|es| - 1]) + Decode(es[|es| - 1].mark.buf, es[|es| - 1].mark.tagged)
  }

  lemma {:induction false} SpacedAreReplayed(es: seq<Entry>)
    ensures var o := OutcomeOf(es);
            && o.started + o.missed == |es|
            && (o.missed == 0 <==> Spaced(es))
            && (Spaced(es) ==>
                  o.samples == Replays(es) && o.last == if es == [] then None else Some(es[|es| - 1].end))
    decreases |es|
  {
    if es != [] {
      var n := |es| - 1;
      SpacedAreReplayed(es[..n]);
      assert Spaced(es) <==> Spaced(es[..n]) && (n > 0 ==> es[n].end > es[n - 1].end + BUSY);
    }
  }

  lemma {:induction false} OwnIsBounded(es: seq<Entry>)
    ensures var o := OutcomeOf(es);
            && o.own <= SAMPLES * o.started
            && |o.samples| == SAMPLES * o.started
            && (o.missed == 0 ==> (o.own == SAMPLES * o.started <==> AllFull(es)))
    decreases |es|
  {
    if es != [] {
      var n := |es| - 1;
      OwnIsBounded(es[..n]);
      assert AllFull(es) <==> AllFull(es[..n]) && |es[n].frame| >= FullSize(es[n].mark.tagged);
    }
  }

  /**
   The hidden frames get out all 48 samples of their own each if and only if they end more than 50
   clocks apart and have full size.
   */
  lemma AllOwnExactly(es: seq<Entry>)
    ensures OutcomeOf(es).own == SAMPLES * |es| <==> Spaced(es) && AllFull(es)
  {
    SpacedAreReplayed(es);
    OwnIsBounded(es);
  }

  /** What an entry says about its frame. */
  ghost predicate Faithful(slot: Slot, e: Entry)
    requires slot.Valid()
  {
    && (|e.frame| >= 9 ==> e.mark.tagged == Tagged(e.frame) && Matches(slot, KeysOf(e.frame)))
    && (|e.frame| >= FullSize(e.mark.tagged) ==>
          Decode(e.mark.buf, e.mark.tagged) == Decode(e.frame, e.mark.tagged))
  }

  /** A frame of nine words or more is judged by its own header, whatever earlier frames left. */
  lemma JudgedByItself(slot: Slot, l: Left, f: seq<Word>)
    requires slot.Valid() && |f| >= 9
    ensures MarkOf(slot, l, f).hit == Matches(slot, KeysOf(f)) && MarkOf(slot, l, f).tagged == Tagged(f)
  {
    assert Over(l.hdr, f[..|f| - 1]) == f[..8];
    assert KeysOf(f[..8]) == KeysOf(f);
  }

  /**
   A shorter one by its words but the last and what is left of earlier headers: a frame of one word
   that follows a frame of ours is hidden and replayed.
   */
  lemma RuntFollowsOurs(slot: Slot, l: Left, g: seq<Word>, f: seq<Word>)
    requires slot.Valid() && IsOurs(slot, g) && |f| == 1
    ensures MarkOf(slot, AfterFrame(l, g), f).hit && MarkOf(slot, AfterFrame(l, g), f).tagged == Tagged(g)
    ensures MarkOf(slot, AfterFrame(l, g), f).buf == Over(l.buf, g)[0 := f[0]]
  {
    MatchesOurs(slot, g);
    assert Over(AfterFrame(l, g).hdr, f[..0]) == g[..8];
    assert KeysOf(g[..8]) == KeysOf(g);
  }

  lemma MarkIsFaithful(slot: Slot, l: Left, f: seq<Word>, end: nat)
    requires slot.Valid() && f != [] && MarkOf(slot, l, f).hit
    ensures Faithful(slot, Entry(f, MarkOf(slot, l, f), end))
  {
    if |f| >= 9 {
      JudgedByItself(slot, l, f);
    }
    if |f| >= FullSize(MarkOf(slot, l, f).tagged) {
      FullFrameDecodes(l.buf, f, MarkOf(slot, l, f).tagged);
    }
  }

  /** No entry ends before the frame it describes could have arrived after the entry before it. */
  ghost predicate Paced(es: seq<Entry>) {
    forall k :: 0 < k < |es| ==> es[k].end >= es[k - 1].end + |es[k].frame|
  }

  ghost predicate AllFaithful(slot: Slot, es: seq<Entry>)
    requires slot.Valid()
  {
    forall k :: 0 <= k < |es| ==> Faithful(slot, es[k])
  }

  /** The hidden ones among frames of which the last ended in clock `last`. */
  ghost predicate Listed(slot: Slot, es: seq<Entry>, last: nat)
    requires slot.Valid()
  {
    AllFaithful(slot, es) && Paced(es) && (es != [] ==> es[|es| - 1].end <= last)
  }

  function LastEnd(ends: seq<nat>): nat { if ends == [] then 0 else ends[|ends| - 1] }

  lemma OneMoreListed(slot: Slot, l: Left, es: seq<Entry>, last: nat, f: seq<Word>, end: nat)
    requires slot.Valid() && f != [] && Listed(slot, es, last) && (es != [] ==> end >= last + |f|)
    ensures Listed(slot, es + IfHidden(MarkOf(slot, l, f), f, end), end)
  {
    if MarkOf(slot, l, f).hit {
      MarkIsFaithful(slot, l, f, end);
    } else {
      assert es + [] == es;
    }
  }

  lemma NoneHidden(slot: Slot, l: Left)
    requires slot.Valid()
    ensures Hidden(slot, l, [], []) == []
  {
  }

  lemma {:induction false} HiddenSound(slot: Slot, l: Left, frames: seq<seq<Word>>, ends: seq<nat>)
    requires slot.Valid() && InOrder(frames, ends)
    ensures Listed(slot, Hidden(slot, l, frames, ends), LastEnd(ends))
    decreases |frames|
  {
    if frames == [] {
      NoneHidden(slot, l);
    } else {
      var n := |frames| - 1;
      var fs, xs, f := frames[..n], ends[..n], frames[n];
      FirstInOrder(frames, ends, n);
      HiddenSound(slot, l, fs, xs);
      NoneHidden(slot, l);
      OneMoreListed(slot, LeftBy(l, fs), Hidden(slot, l, fs, xs), LastEnd(xs), f, ends[n]);
    }
  }

  lemma FirstInOrder(frames: seq<seq<Word>>, ends: seq<nat>, n: nat)
    requires InOrder(frames, ends) && |frames| == n + 1
    ensures InOrder(frames[..n], ends[..n]) && (n > 0 ==> ends[n] >= LastEnd(ends[..n]) + |frames[n]|)
  {
  }

  // ---------------------------------------------------------------------------
  // What every run from reset shows
  // ---------------------------------------------------------------------------

  /** Samples of frames whose end has been seen but not offered yet. */
  function InFlight(h: Hist): seq<Word> { Outstanding(h) + Coming(h) }

  /** The frames of a run whose end matched. */
  ghost function HiddenIn(slot: Slot, h: Hist): seq<Entry>
    requires slot.Valid() && InOrder(h.frames, h.ends)
  {
    Hidden(slot, NOTHING_LEFT, h.frames, h.ends)
  }

  /**
   For every beat stream, whatever the frames, gaps and sizes: the frames hidden from the CPU are
   those judged ours, and the samples offered, with those on their way, are the replays of exactly
   those hidden frames that ended more than 50 clocks after the one replayed before.
   */
  lemma ReplayIsDecode(slot: Slot, ins: seq<Input>)
    requires slot.Valid()
    ensures var h := Run(slot, RESET_SYS, ins).h;
            && InOrder(h.frames, h.ends)
            && h.discards == |HiddenIn(slot, h)|
            && h.offered + InFlight(h) == OutcomeOf(HiddenIn(slot, h)).samples
  {
    RunsAreSound(slot, ins);
    var h := Run(slot, RESET_SYS, ins).h;
    Regroup(h.offered, Outstanding(h), Coming(h));
  }

  lemma Regroup(a: seq<Word>, b: seq<Word>, c: seq<Word>)
    ensures (a + b) + c == a + (b + c)
  {
  }

  /** The simple byte-level decode of frames of full size. */
  ghost function DecodeAll(es: seq<Entry>): seq<Word>
    requires AllFull(es)
    decreases |es|
  {
    if es == [] then []
    else DecodeAll(es[..|es| - 1]) + Decode(es[|es| - 1].frame, es[|es| - 1].mark.tagged)
  }

  lemma {:induction false} ReplaysDecode(slot: Slot, es: seq<Entry>)
    requires slot.Valid() && AllFull(es) && AllFaithful(slot, es)
    ensures Replays(es) == DecodeAll(es)
    decreases |es|
  {
    if es != [] {
      ReplaysDecode(slot, es[..|es| - 1]);
      assert Faithful(slot, es[|es| - 1]);
    }
  }

  /** Frames that take longer than a replay are never too close. */
  lemma LongFramesAreSpaced(es: seq<Entry>)
    requires Paced(es) && forall k :: 0 < k < |es| ==> |es[k].frame| > BUSY
    ensures Spaced(es)
  {
  }

  /**
   Discard iff extracted, exactly: every frame hidden from the CPU has its own 48 samples extracted if
   and only if the hidden frames end more than 50 clocks apart and have full size. Then what the replay
   offers, with what is on its way, is the byte-level decode of the hidden frames, in order.
   */
  lemma DiscardIffExtracted(slot: Slot, ins: seq<Input>)
    requires slot.Valid()
    ensures var h := Run(slot, RESET_SYS, ins).h;
            && InOrder(h.frames, h.ends)
            && var es := HiddenIn(slot, h);
               && h.discards == |es|
               && (OutcomeOf(es).own == SAMPLES * |es| <==> Spaced(es) && AllFull(es))
               && (Spaced(es) && AllFull(es) ==> h.missed == 0 && h.offered + InFlight(h) == DecodeAll(es))
  {
    RunsAreSound(slot, ins);
    ReplayIsDecode(slot, ins);
    var h := Run(slot, RESET_SYS, ins).h;
    var es := HiddenIn(slot, h);
    AllOwnExactly(es);
    SpacedAreReplayed(es);
    HiddenSound(slot, NOTHING_LEFT, h.frames, h.ends);
    if AllFull(es) {
      ReplaysDecode(slot, es);
    }
  }

  /** With hidden frames of full size alone, whatever the gaps: none is too close to the one before. */
  lemma FullFramesAreExtracted(slot: Slot, ins: seq<Input>)
    requires slot.Valid()
    requires var h := Run(slot, RESET_SYS, ins).h;
             InOrder(h.frames, h.ends) && AllFull(HiddenIn(slot, h))
    ensures var h := Run(slot, RESET_SYS, ins).h;
            && h.discards == |HiddenIn(slot, h)| && h.missed == 0
            && h.offered + InFlight(h) == DecodeAll(HiddenIn(slot, h))
  {
    var h := Run(slot, RESET_SYS, ins).h;
    HiddenSound(slot, NOTHING_LEFT, h.frames, h.ends);
    LongFramesAreSpaced(HiddenIn(slot, h));
    DiscardIffExtracted(slot, ins);
  }

  function FramesOf(es: seq<Entry>): (fs: seq<seq<Word>>)
    ensures |fs| == |es|
  {
    seq(|es|, k requires 0 <= k < |es| => es[k].frame)
  }

  lemma FramesGrow(es: seq<Entry>, m: Mark, f: seq<Word>, end: nat)
    ensures FramesOf(es + IfHidden(m, f, end)) == FramesOf(es) + if m.hit then [f] else []
  {
  }

  /** No frame is too short to be judged by its own header. */
  ghost predicate NoRunts(frames: seq<seq<Word>>) { forall k :: 0 <= k < |frames| ==> |frames[k]| >= 9 }

  /** A frame that is not a runt and carries, octet by octet, what the slot asks for. */
  predicate IsOurs(slot: Slot, f: seq<Word>) {
    |f| >= 9 && slot.enabled && Addressed(slot.macHi, slot.macLo, slot.sidHi, slot.sidLo, f)
  }

  /** The match logic takes exactly the frames of nine words or more that are ours. */
  lemma MatchesOurs(slot: Slot, f: seq<Word>)
    requires slot.Valid() && |f| >= 9
    ensures Matches(slot, KeysOf(f)) <==> IsOurs(slot, f)
  {
    MacIsNumber(slot.macHi, slot.macLo, f);
    IdIsNumber(slot.sidHi, slot.sidLo, f, if Tagged(f) then 22 else 18);
  }

  /**
   On every run: a frame of nine words or more is hidden from the CPU if and only if the slot is
   enabled, octets 0 to 5 are its address, the subtype octet is 2, and the eight octets four further on
   are its stream id; subtype and stream id lie four octets later behind a VLAN tag.
   */
  lemma HiddenExactly(slot: Slot, ins: seq<Input>, k: nat, h: Hist)
    requires slot.Valid() && h == Run(slot, RESET_SYS, ins).h
    requires k < |h.frames| && |h.frames[k]| >= 9
    ensures |h.hid| == |h.frames| && (h.hid[k] <==> IsOurs(slot, h.frames[k]))
  {
    RunsAreSound(slot, ins);
    JudgedByItself(slot, LeftBy(NOTHING_LEFT, h.frames[..k]), h.frames[k]);
    MatchesOurs(slot, h.frames[k]);
  }

  lemma KeysDecide(slot: Slot, b: Binding, ws: seq<Word>)
    requires slot.Valid() && b.Valid() && |ws| >= 9 && SubtypeOf(ws) == 0x02
    requires MacOf(ws) == MacOctets(b.dstMacHi, b.dstMacLo) && StreamIdOf(ws) == IdOctets(b.streamIdHi, b.streamIdLo)
    ensures IsOurs(slot, ws) <==>
              && slot.enabled && slot.macHi == b.dstMacHi && slot.macLo == b.dstMacLo
              && slot.sidHi == b.streamIdHi && slot.sidLo == b.streamIdLo
  {
    MacIsNumber(b.dstMacHi, b.dstMacLo, ws);
    IdIsNumber(b.streamIdHi, b.streamIdLo, ws, if Tagged(ws) then 22 else 18);
    SplitEqual(slot.macHi, slot.macLo, b.dstMacHi, b.dstMacLo);
    SplitEqual(slot.sidHi, slot.sidLo, b.streamIdHi, b.streamIdLo);
  }

  /** The frames of a talker are hidden if and only if the slot is bound to its stream, tagged or not. */
  lemma TalkerIsOurs(slot: Slot, b: Binding, seqNum: Byte, pres: Word32, g: Group, tagged: bool, ws: seq<Word>)
    requires slot.Valid() && b.Valid()
    requires ws == Words(if tagged then Frame(b, seqNum, pres, g) else AafFrame.Untagged(Frame(b, seqNum, pres, g)))
    ensures |ws| == (if tagged then N_WORDS else 58)
    ensures IsOurs(slot, ws) <==>
              && slot.enabled && slot.macHi == b.dstMacHi && slot.macLo == b.dstMacLo
              && slot.sidHi == b.streamIdHi && slot.sidLo == b.streamIdLo
  {
    if tagged {
      KeysOfFrame(b, seqNum, pres, g);
    } else {
      KeysOfUntagged(b, seqNum, pres, g);
    }
    KeysDecide(slot, b, ws);
  }

  /** Those of our frames among frames of which none is a runt. */
  ghost function Ours(slot: Slot, frames: seq<seq<Word>>): seq<seq<Word>>
    decreases |frames|
  {
    if frames == [] then []
    else
      Ours(slot, frames[..|frames| - 1]) +
      if IsOurs(slot, frames[|frames| - 1]) then [frames[|frames| - 1]] else []
  }

  /** Without runts the hidden frames are exactly those that carry the keys of the slot. */
  lemma {:induction false} HiddenAreOurs(slot: Slot, l: Left, frames: seq<seq<Word>>, ends: seq<nat>)
    requires slot.Valid() && |ends| == |frames| && NoRunts(frames)
    ensures FramesOf(Hidden(slot, l, frames, ends)) == Ours(slot, frames)
    decreases |frames|
  {
    if frames != [] {
      var n := |frames| - 1;
      HiddenAreOurs(slot, l, frames[..n], ends[..n]);
      JudgedByItself(slot, LeftBy(l, frames[..n]), frames[n]);
      MatchesOurs(slot, frames[n]);
      FramesGrow(Hidden(slot, l, frames[..n], ends[..n]), MarkOf(slot, LeftBy(l, frames[..n]), frames[n]), frames[n],
                 ends[n]);
    }
  }

  /**
   Hazard freedom on every run: while a replay runs, the read port returns the word that was in the
   buffer when the replayed frame ended, and the capture side is not writing that word.
   */
  lemma ReadIsSafe(slot: Slot, ins: seq<Input>, i: Input)
    requires slot.Valid()
    ensures var s := Run(slot, RESET_SYS, ins);
            var r := s.r.rep;
            !r.phase.IDLE? ==>
              && r.addr < BUF_BEATS && ReadPort(s.r.cap, r.addr, i) == s.h.snap.buf[r.addr]
              && !(Writes(s.r.cap, i) && s.r.cap.beatIdx == r.addr)
  {
    RunsAreSound(slot, ins);
    var s := Run(slot, RESET_SYS, ins);
    if s.h.since < BUSY {
      ReadIsStable(s.r.cap, s.r.rep, s.h, i);
    }
  }

  /**
   A hidden frame reaches the replay machine exactly two clocks later, and is replayed if and only if
   the last replay began 50 or more clocks before that.
   */
  lemma MissedExactlyWhenBusy(slot: Slot, ins: seq<Input>)
    requires slot.Valid()
    ensures var s := Run(slot, RESET_SYS, ins);
            && (Starts(s.r) <==> s.h.e2.hit && s.h.since >= BUSY)
            && (Misses(s.r) <==> s.h.e2.hit && s.h.since < BUSY)
            && s.h.discards == s.h.started + s.h.missed
                 + (if s.h.e1.hit then 1 else 0) + (if s.h.e2.hit then 1 else 0)
  {
    RunsAreSound(slot, ins);
  }

  /** The counters: registered matches, replayed or not, and blocks, as samples offered on channel 0. */
  ghost predicate Counted(s: Sys) {
    && s.r.cnt.matches == U32(s.h.started + s.h.missed)
    && s.r.cnt.blocks == U32(|Lane(s.h.offered, 0)|)
  }

  /** Sample n of a running replay is the next one of its channel. */
  lemma OfferedSoFar(r: Replay, h: Hist)
    requires InvPhase(r, h) && InvOffered(h) && r.phase.STREAM?
    ensures |h.offered| % CHANNELS == r.n % CHANNELS
  {
    WholeFrames(|h.offered|, h.started - 1, r.n);
  }

  lemma BlocksCounted(offered: seq<Word>, w: Word, streams: bool, first: bool, blocks: Word32)
    requires blocks == U32(|Lane(offered, 0)|) && first == (streams && |offered| % CHANNELS == 0)
    ensures U32(|Lane(if streams then offered + [w] else offered, 0)|) == if first then U32(blocks + 1) else blocks
  {
    LaneGrows(offered, w, 0);
    Wrap32(|Lane(offered, 0)|);
  }

  lemma MatchesCounted(slot: Slot, s: Sys, i: Input, t: Hist)
    requires slot.Valid() && t == Record(slot, s, i)
    ensures t.started + t.missed == s.h.started + s.h.missed + if s.r.pipe.eofC && s.r.pipe.matchC then 1 else 0
    ensures t.offered == if s.r.rep.phase.STREAM? then s.h.offered + [SampleNow(s.r.rep)] else s.h.offered
  {
  }

  lemma CountingKept(slot: Slot, s: Sys, i: Input, n: Regs, t: Hist)
    requires slot.Valid() && InvPhase(s.r.rep, s.h) && InvOffered(s.h) && Counted(s)
    requires n == Next(slot, s.r, i) && t == Record(slot, s, i)
    ensures Counted(Sys(n, t))
  {
    var r, h := s.r, s.h;
    Wrap32(h.started + h.missed);
    MatchesCounted(slot, s, i, t);
    if r.rep.phase.STREAM? {
      OfferedSoFar(r.rep, h);
    }
    BlocksCounted(h.offered, SampleNow(r.rep), r.rep.phase.STREAM?, Offers(r.rep, 0), r.cnt.blocks);
  }

  lemma {:induction false} CountersKept(slot: Slot, s: Sys, ins: seq<Input>)
    requires slot.Valid() && Inv(slot, s) && Counted(s)
    ensures Counted(Run(slot, s, ins))
    decreases |ins|
  {
    if ins != [] {
      CountingKept(slot, s, ins[0], Next(slot, s.r, ins[0]), Record(slot, s, ins[0]));
      InvKept(slot, s, ins[0]);
      CountersKept(slot, Step(slot, s, ins[0]), ins[1..]);
    }
  }

  lemma CountersTell(slot: Slot, ins: seq<Input>)
    requires slot.Valid()
    ensures Counted(Run(slot, RESET_SYS, ins))
  {
    ResetInv(slot);
    CountersKept(slot, RESET_SYS, ins);
  }

  /**
   Each FIFO receives its channel of the decoded frames, complete and in order, as long as every
   replay began with six free places; the CPU pops exactly what was pushed.
   */
  lemma StoredSamples(slot: Slot, ins: seq<Input>)
    requires slot.Valid()
    ensures var s := Run(slot, RESET_SYS, ins);
            && s.h.ch0.popped + s.r.fifo0 == s.h.ch0.pushed
            && s.h.ch1.popped + s.r.fifo1 == s.h.ch1.pushed
            && (s.h.ch0.roomy ==> s.h.ch0.pushed == Lane(s.h.offered, 0))
            && (s.h.ch1.roomy ==> s.h.ch1.pushed == Lane(s.h.offered, 1))
  {
    RunsAreSound(slot, ins);
  }

  // ---------------------------------------------------------------------------
  // Frames that are too short: an input
  // ---------------------------------------------------------------------------

  function BeatIn(w: Word, last: bool): Input { Input(true, w, last, false, false, ZERO_WORD) }

  const GAP := Input(false, ZERO_WORD, false, false, false, ZERO_WORD)

  /** The words of a frame from word k on, in consecutive clocks, and what follows. */
  function FrameIn(f: seq<Word>, k: nat, rest: seq<Input>): seq<Input>
    requires k < |f|
    decreases |f| - k
  {
    if k == |f| - 1 then [BeatIn(f[k], true)] + rest else [BeatIn(f[k], false)] + FrameIn(f, k + 1, rest)
  }

  lemma RunCons(slot: Slot, s: Sys, i: Input, rest: seq<Input>)
    requires slot.Valid()
    ensures Run(slot, s, [i] + rest) == Run(slot, Step(slot, s, i), rest)
  {
    assert ([i] + rest)[1..] == rest;
  }

  /** Frame f has arrived after h, its last word in clock `end`. */
  ghost predicate Arrived(h: Hist, f: seq<Word>, end: nat, t: Hist) {
    t.frames == h.frames + [f] && t.ends == h.ends + [end] && t.clock == end + 1 && t.cur == []
  }

  lemma OneBeat(slot: Slot, s: Sys, f: seq<Word>, k: nat, t: Hist)
    requires slot.Valid() && k < |f| && s.h.cur == f[..k] && t == Record(slot, s, BeatIn(f[k], k == |f| - 1))
    ensures if k == |f| - 1 then Arrived(s.h, f, s.h.clock, t)
            else t.frames == s.h.frames && t.ends == s.h.ends && t.clock == s.h.clock + 1 && t.cur == f[..k + 1]
  {
    assert s.h.cur + [f[k]] == f[..k + 1];
    if k == |f| - 1 {
      assert f[..k + 1] == f;
    }
  }

  lemma {:induction false} FrameArrives(slot: Slot, s: Sys, f: seq<Word>, k: nat, rest: seq<Input>, end: nat)
      returns (t: Sys)
    requires slot.Valid() && k < |f| && s.h.cur == f[..k] && end == s.h.clock + |f| - 1 - k
    ensures Run(slot, s, FrameIn(f, k, rest)) == Run(slot, t, rest)
    ensures Arrived(s.h, f, end, t.h)
    decreases |f| - k
  {
    var i := BeatIn(f[k], k == |f| - 1);
    var n := Step(slot, s, i);
    OneBeat(slot, s, f, k, n.h);
    if k == |f| - 1 {
      RunCons(slot, s, i, rest);
      t := n;
    } else {
      RunCons(slot, s, i, FrameIn(f, k + 1, rest));
      t := FrameArrives(slot, n, f, k + 1, rest, end);
    }
  }

  lemma TwoGaps(slot: Slot, s: Sys) returns (t: Sys)
    requires slot.Valid()
    ensures t == Run(slot, s, [GAP] + ([GAP] + []))
    ensures t.h.frames == s.h.frames && t.h.ends == s.h.ends && !t.h.e1.hit && !t.h.e2.hit
  {
    var n := Step(slot, s, GAP);
    t := Step(slot, n, GAP);
    RunCons(slot, s, GAP, [GAP] + []);
    RunCons(slot, n, GAP, []);
  }

  /** Two frames back to back, then two idle clocks. */
  function BackToBack(f: seq<Word>, g: seq<Word>): seq<Input>
    requires f != [] && g != []
  {
    FrameIn(f, 0, FrameIn(g, 0, [GAP] + ([GAP] + [])))
  }

  /** The next hidden frame, replayed or not. */
  lemma OursIsHidden(slot: Slot, frames: seq<seq<Word>>, ends: seq<nat>, f: seq<Word>, end: nat) returns (e: Entry)
    requires slot.Valid() && |ends| == |frames| && AllWords(frames) && IsOurs(slot, f)
    ensures e.end == end && e.frame == f && e.mark.tagged == Tagged(f)
    ensures AllWords(frames + [f])
    ensures Hidden(slot, NOTHING_LEFT, frames + [f], ends + [end]) == Hidden(slot, NOTHING_LEFT, frames, ends) + [e]
  {
    e := Entry(f, MarkOf(slot, LeftBy(NOTHING_LEFT, frames), f), end);
    JudgedByItself(slot, LeftBy(NOTHING_LEFT, frames), f);
    MatchesOurs(slot, f);
    HiddenGrows(slot, NOTHING_LEFT, frames, ends, f, end);
  }

  /** Both frames, as the list of hidden frames has them. */
  lemma BothAreHidden(slot: Slot, s: Sys, f: seq<Word>, g: seq<Word>, t: Sys) returns (x: Entry, y: Entry)
    requires slot.Valid() && InOrder(s.h.frames, s.h.ends) && IsOurs(slot, f) && IsOurs(slot, g) && s.h.cur == []
    requires t == Run(slot, s, BackToBack(f, g)) && InOrder(t.h.frames, t.h.ends)
    ensures !t.h.e1.hit && !t.h.e2.hit
    ensures HiddenIn(slot, t.h) == HiddenIn(slot, s.h) + [x] + [y]
    ensures x.frame == f && x.mark.tagged == Tagged(f) && x.end == s.h.clock + |f| - 1
    ensures y.frame == g && y.mark.tagged == Tagged(g) && y.end == x.end + |g|
  {
    var tail := [GAP] + ([GAP] + []);
    var endF := s.h.clock + |f| - 1;
    var endG := endF + |g|;
    var a := FrameArrives(slot, s, f, 0, FrameIn(g, 0, tail), endF);
    var b := FrameArrives(slot, a, g, 0, tail, endG);
    var u := TwoGaps(slot, b);
    x := OursIsHidden(slot, s.h.frames, s.h.ends, f, endF);
    y := OursIsHidden(slot, a.h.frames, a.h.ends, g, endG);
  }

  /** From an idle machine the first is replayed, and the second if it ends late enough. */
  lemma OutcomeOfTwo(h: Hist, o: Outcome, x: Entry, y: Entry, p: Outcome)
    requires Settled(h, o) && h.since >= BUSY && !h.e1.hit && !h.e2.hit && x.end >= h.clock
    requires p == NextOutcome(NextOutcome(o, x), y)
    ensures var late := y.end > x.end + BUSY;
            && p.started == h.started + (if late then 2 else 1)
            && p.missed == h.missed + (if late then 0 else 1)
            && p.own == o.own + OwnCount(|x.frame|, x.mark.tagged) +
                        (if late then OwnCount(|y.frame|, y.mark.tagged) else 0)
  {
  }

  /**
   Two matching frames in consecutive clocks, from an idle machine between frames: both are hidden
   from the CPU, but the second is replayed if and only if it has at least 51 words, and of the
   samples of each replay only the first OwnCount are the frame's own.
   */
  lemma ShortFrameIsLost(slot: Slot, s: Sys, f: seq<Word>, g: seq<Word>, h: Hist)
    requires slot.Valid() && Sound(slot, s) && IsOurs(slot, f) && IsOurs(slot, g)
    requires s.h.since >= BUSY && !s.h.e1.hit && !s.h.e2.hit && s.h.cur == []
    requires h == Run(slot, s, BackToBack(f, g)).h
    ensures InOrder(h.frames, h.ends)
    ensures h.discards == s.h.discards + 2
    ensures h.started == s.h.started + (if |g| >= 51 then 2 else 1)
    ensures h.missed == s.h.missed + (if |g| >= 51 then 0 else 1)
    ensures OutcomeOf(HiddenIn(slot, h)).own == OutcomeOf(HiddenIn(slot, s.h)).own
              + OwnCount(|f|, Tagged(f)) + (if |g| >= 51 then OwnCount(|g|, Tagged(g)) else 0)
  {
    OutcomeOnRuns(slot, s, BackToBack(f, g));
    var x, y := BothAreHidden(slot, s, f, g, Run(slot, s, BackToBack(f, g)));
    var es := HiddenIn(slot, s.h);
    OutcomeGrows(es, x);
    OutcomeGrows(es + [x], y);
    OutcomeOfTwo(s.h, OutcomeOf(es), x, y, OutcomeOf(HiddenIn(slot, h)));
  }
}
