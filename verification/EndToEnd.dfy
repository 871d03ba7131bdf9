/**
 From the USB samples of the talker to the sample FIFOs of the listener, and the
 gateware talker against the firmware one.
 */
module EndToEnd {
  import opened Bytes
  import opened AafFrame
  import Assembler
  import T = TalkerRuns
  import L = ListenerRuns
  import X = Extractor
  import Fw = AafFirmware
  import Nco

  // ---------------------------------------------------------------------------
  // Two talkers, one frame
  // ---------------------------------------------------------------------------

  /**
   For the binding the firmware pushes, every frame the gateware accepts is, octet for octet,
   the packet the firmware would write with the same sequence number, time and blocks; the two
   octets that fill up its last word are zero.
   */
  lemma TalkersAgree(id: Fw.Identity, x: T.Sent, sec: nat, ns: nat, q: seq<Block>, i: nat)
    requires id.Valid()
    requires x.pres == PresentationTime(sec, ns, Fw.PushBinding(id).presOffset)
    requires x.blocks == Fw.NextSix(q)
    requires i < 4 * N_WORDS
    ensures var ws := Words(T.FrameOf(Fw.PushBinding(id), x));
            && |ws| == N_WORDS
            && ByteOf(ws, i) == if i < TOTAL then Fw.PacketFor(id, x.seqNum, sec, ns, q)[i] else 0
  {
    var f := T.FrameOf(Fw.PushBinding(id), x);
    if i < TOTAL {
      ByteOfWords(f, i);
    } else {
      assert i / 4 == 58 && (i % 4 == 2 || i % 4 == 3);
    }
  }

  // ---------------------------------------------------------------------------
  // From beats to frames
  // ---------------------------------------------------------------------------

  /** What an observer keeps of a beat. */
  datatype Seen = Seen(data: Word, last: bool)

  datatype Parse = Parse(frames: seq<seq<Word>>, cur: seq<Word>)

  function ParseOne(p: Parse, s: Seen): Parse {
    if s.last then Parse(p.frames + [p.cur + [s.data]], []) else Parse(p.frames, p.cur + [s.data])
  }

  function ParseAll(p: Parse, ss: seq<Seen>): Parse
    decreases |ss|
  {
    if ss == [] then p else ParseOne(ParseAll(p, ss[..|ss| - 1]), ss[|ss| - 1])
  }

  lemma {:induction false} ParseSplits(p: Parse, a: seq<Seen>, b: seq<Seen>)
    ensures ParseAll(p, a + b) == ParseAll(ParseAll(p, a), b)
    decreases |b|
  {
    if b == [] {
      assert a + b == a;
    } else {
      var n := |b| - 1;
      assert (a + b)[..|a| + n] == a + b[..n];
      ParseSplits(p, a, b[..n]);
    }
  }

  /** The beats of a listener run, gaps removed. */
  function SeenBy(ins: seq<X.Input>): seq<Seen>
    decreases |ins|
  {
    if ins == [] then []
    else (if ins[0].valid then [Seen(ins[0].data, ins[0].last)] else []) + SeenBy(ins[1..])
  }

  lemma {:induction false} ListenerParses(slot: X.Slot, s: L.Sys, ins: seq<X.Input>)
    requires slot.Valid()
    ensures var t := L.Run(slot, s, ins).h;
            Parse(t.frames, t.cur) == ParseAll(Parse(s.h.frames, s.h.cur), SeenBy(ins))
    decreases |ins|
  {
    if ins != [] {
      var i := ins[0];
      var p := Parse(s.h.frames, s.h.cur);
      var now := if i.valid then [Seen(i.data, i.last)] else [];
      ListenerParses(slot, L.Step(slot, s, i), ins[1..]);
      ParseSplits(p, now, SeenBy(ins[1..]));
      if i.valid {
        OneSeen(p, now[0]);
      }
    }
  }

  lemma OneSeen(p: Parse, s: Seen)
    ensures ParseAll(p, [s]) == ParseOne(p, s)
  {
    assert [s][..0] == [];
  }

  function Sights(bs: seq<Beat>): (ss: seq<Seen>)
    ensures |ss| == |bs|
  {
    seq(|bs|, k requires 0 <= k < |bs| => Seen(bs[k].data, bs[k].last))
  }

  lemma SightsConcat(a: seq<Beat>, b: seq<Beat>)
    ensures Sights(a + b) == Sights(a) + Sights(b)
  {
  }

  /** The first k beats of a frame leave its first k words; the last one completes it. */
  lemma {:induction false} ParseFrame(frames: seq<seq<Word>>, ws: seq<Word>, k: nat)
    requires |ws| == N_WORDS && k <= N_WORDS
    ensures ParseAll(Parse(frames, []), Sights(T.BeatsOf(ws)[..k])) ==
              if k == N_WORDS then Parse(frames + [ws], []) else Parse(frames, ws[..k])
  {
    if k > 0 {
      ParseFrame(frames, ws, k - 1);
      var ss := Sights(T.BeatsOf(ws)[..k]);
      assert ss[..k - 1] == Sights(T.BeatsOf(ws)[..k - 1]);
      assert ss[k - 1] == Seen(ws[k - 1], k == N_WORDS);
      assert ws[..k - 1] + [ws[k - 1]] == ws[..k];
      assert ws[..N_WORDS] == ws;
    }
  }

  /** The word images of the talker's frames. */
  function FrameWords(b: Binding, sent: seq<T.Sent>): (fs: seq<seq<Word>>)
    requires b.Valid()
    ensures |fs| == |sent|
    decreases |sent|
  {
    if sent == [] then []
    else FrameWords(b, sent[..|sent| - 1]) + [Words(T.FrameOf(b, sent[|sent| - 1]))]
  }

  lemma {:induction false} ParseWire(b: Binding, sent: seq<T.Sent>)
    requires b.Valid()
    ensures ParseAll(Parse([], []), Sights(T.Wire(b, sent))) == Parse(FrameWords(b, sent), [])
    decreases |sent|
  {
    if sent != [] {
      var n := |sent| - 1;
      var ws := Words(T.FrameOf(b, sent[n]));
      var beats := T.BeatsOf(ws);
      ParseWire(b, sent[..n]);
      SightsConcat(T.Wire(b, sent[..n]), beats);
      ParseSplits(Parse([], []), Sights(T.Wire(b, sent[..n])), Sights(beats));
      assert beats[..N_WORDS] == beats;
      ParseFrame(FrameWords(b, sent[..n]), ws, N_WORDS);
    }
  }

  // ---------------------------------------------------------------------------
  // Inversion
  // ---------------------------------------------------------------------------

  /** The listener's slot is bound to the talker's stream. */
  predicate BoundTo(slot: X.Slot, b: Binding) {
    && slot.enabled
    && slot.macHi == b.dstMacHi && slot.macLo == b.dstMacLo
    && slot.sidHi == b.streamIdHi && slot.sidLo == b.streamIdLo
  }

  lemma TalkerFrameIsOurs(slot: X.Slot, b: Binding, x: T.Sent, ws: seq<Word>)
    requires slot.Valid() && b.Valid() && BoundTo(slot, b)
    requires ws == Words(T.FrameOf(b, x))
    ensures |ws| == N_WORDS && L.IsOurs(slot, ws) && Tagged(ws)
    ensures Decode(ws, true) == Flatten(x.blocks)
  {
    KeysOfFrame(b, x.seqNum, x.pres, x.blocks);
    L.TalkerIsOurs(slot, b, x.seqNum, x.pres, x.blocks, true, ws);
    DecodeInvertsFrame(b, x.seqNum, x.pres, x.blocks);
  }

  /** The blocks of a list of frames, in order. */
  function BlocksOf(sent: seq<T.Sent>): seq<Block>
    decreases |sent|
  {
    if sent == [] then [] else BlocksOf(sent[..|sent| - 1]) + sent[|sent| - 1].blocks
  }

  lemma {:induction false} FlattenConcat(a: seq<Block>, b: seq<Block>)
    ensures Flatten(a + b) == Flatten(a) + Flatten(b)
    decreases |a|
  {
    if a == [] {
      assert a + b == b;
    } else {
      assert (a + b)[1..] == a[1..] + b;
      FlattenConcat(a[1..], b);
    }
  }

  lemma FrameWordsAt(b: Binding, sent: seq<T.Sent>, k: nat)
    requires b.Valid() && k < |sent|
    ensures FrameWords(b, sent)[k] == Words(T.FrameOf(b, sent[k]))
    decreases |sent|
  {
    if k < |sent| - 1 {
      FrameWordsAt(b, sent[..|sent| - 1], k);
    }
  }

  /** The hidden frames are the talker's. */
  ghost predicate Delivered(slot: X.Slot, b: Binding, es: seq<L.Entry>, sent: seq<T.Sent>)
    requires slot.Valid() && b.Valid()
  {
    L.AllFaithful(slot, es) && L.FramesOf(es) == FrameWords(b, sent)
  }

  lemma OneDelivered(slot: X.Slot, b: Binding, es: seq<L.Entry>, sent: seq<T.Sent>, k: nat)
    requires slot.Valid() && b.Valid() && BoundTo(slot, b) && Delivered(slot, b, es, sent) && k < |es|
    ensures |sent| == |es| && es[k].mark.tagged && |es[k].frame| == N_WORDS
    ensures Decode(es[k].frame, true) == Flatten(sent[k].blocks)
  {
    assert L.FramesOf(es)[k] == es[k].frame;
    FrameWordsAt(b, sent, k);
    TalkerFrameIsOurs(slot, b, sent[k], es[k].frame);
    assert L.Faithful(slot, es[k]);
  }

  lemma DeliveredAreFull(slot: X.Slot, b: Binding, es: seq<L.Entry>, sent: seq<T.Sent>)
    requires slot.Valid() && b.Valid() && BoundTo(slot, b) && Delivered(slot, b, es, sent)
    ensures L.AllFull(es)
  {
    forall k | 0 <= k < |es|
      ensures |es[k].frame| >= FullSize(es[k].mark.tagged)
    {
      OneDelivered(slot, b, es, sent, k);
    }
  }

  lemma FrontDelivered(slot: X.Slot, b: Binding, es: seq<L.Entry>, sent: seq<T.Sent>)
    requires slot.Valid() && b.Valid() && Delivered(slot, b, es, sent) && es != []
    ensures |sent| == |es| && Delivered(slot, b, es[..|es| - 1], sent[..|es| - 1])
  {
    assert |sent| == |es|;
    assert L.FramesOf(es[..|es| - 1]) == L.FramesOf(es)[..|es| - 1];
  }

  lemma {:induction false} DecodeOfTalker(slot: X.Slot, b: Binding, es: seq<L.Entry>, sent: seq<T.Sent>)
    requires slot.Valid() && b.Valid() && BoundTo(slot, b) && Delivered(slot, b, es, sent) && L.AllFull(es)
    ensures L.DecodeAll(es) == Flatten(BlocksOf(sent)) && |es| == |sent|
    decreases |es|
  {
    assert |sent| == |L.FramesOf(es)|;
    if es != [] {
      var n := |es| - 1;
      FrontDelivered(slot, b, es, sent);
      DecodeOfTalker(slot, b, es[..n], sent[..n]);
      OneDelivered(slot, b, es, sent, n);
      FlattenConcat(BlocksOf(sent[..n]), sent[n].blocks);
    }
  }

  /** One lane of a list of blocks. */
  function LaneOf(bs: seq<Block>, ch: nat): (s: seq<Word>)
    requires ch < CHANNELS
    ensures |s| == |bs| && forall k :: 0 <= k < |bs| ==> s[k] == bs[k][ch]
  {
    seq(|bs|, k requires 0 <= k < |bs| => bs[k][ch])
  }

  lemma NextLane(n: nat, k: nat)
    requires n % CHANNELS == 0 && k < CHANNELS
    ensures (n + k) % CHANNELS == k
  {
  }

  lemma OneMoreWord(s: seq<Word>, b: Block, k: nat)
    requires k < CHANNELS
    ensures s + b[..k + 1] == (s + b[..k]) + [b[k]]
  {
  }

  lemma {:induction false} LaneOfPrefix(s: seq<Word>, b: Block, ch: nat, k: nat)
    requires ch < CHANNELS && |s| % CHANNELS == 0 && k <= CHANNELS
    ensures L.Lane(s + b[..k], ch) == L.Lane(s, ch) + if k > ch then [b[ch]] else []
  {
    if k == 0 {
      assert s + b[..0] == s;
    } else {
      LaneOfPrefix(s, b, ch, k - 1);
      OneMoreWord(s, b, k - 1);
      NextLane(|s|, k - 1);
      L.LaneGrows(s + b[..k - 1], b[k - 1], ch);
    }
  }

  lemma {:induction false} LaneOfFlatten(bs: seq<Block>, ch: nat)
    requires ch < CHANNELS
    ensures L.Lane(Flatten(bs), ch) == LaneOf(bs, ch)
    decreases |bs|
  {
    if bs != [] {
      var n := |bs| - 1;
      LaneOfFlatten(bs[..n], ch);
      FlattenConcat(bs[..n], [bs[n]]);
      OneBlock(bs[n]);
      assert bs[..n] + [bs[n]] == bs;
      LaneOfPrefix(Flatten(bs[..n]), bs[n], ch, CHANNELS);
      assert bs[n][..CHANNELS] == bs[n];
    }
  }

  lemma OneBlock(b: Block)
    ensures Flatten([b]) == b
  {
    assert [b][1..] == [];
  }

  // ---------------------------------------------------------------------------
  // Between the two
  // ---------------------------------------------------------------------------

  /** The whole frames among the beats the talker's MAC took. */
  function FramesOut(out: seq<Beat>): seq<seq<Word>> { ParseAll(Parse([], []), Sights(out)).frames }

  /**
   Whatever else the listener receives - frames of other streams and protocols, runts, gaps - the
   frames its match logic takes are those the talker sent, in order.
   */
  ghost predicate Connected(slot: X.Slot, out: seq<Beat>, h: L.Hist)
    requires slot.Valid()
  {
    L.InOrder(h.frames, h.ends) && L.FramesOf(L.HiddenIn(slot, h)) == FramesOut(out)
  }

  lemma TalkerFrames(b: Binding, s: T.Sys)
    requires b.Valid() && T.WholeFrames(b, s)
    ensures FramesOut(s.h.out) == FrameWords(b, s.h.sent[..s.h.done])
  {
    var sent := s.h.sent[..s.h.done];
    var part := T.InProgress(s);
    SightsConcat(T.Wire(b, sent), part);
    ParseSplits(Parse([], []), Sights(T.Wire(b, sent)), Sights(part));
    ParseWire(b, sent);
    if s.r.bld.phase.STREAM? {
      ParseFrame(FrameWords(b, sent), s.r.bld.ram, s.r.bld.rdIdx);
    }
  }

  /** Mixed traffic without runts: it suffices that the frames with our keys are the talker's. */
  lemma MixedTrafficConnects(slot: X.Slot, out: seq<Beat>, listener: seq<X.Input>, received: seq<seq<Word>>)
    requires slot.Valid()
    requires received == ParseAll(Parse([], []), SeenBy(listener)).frames
    requires L.NoRunts(received) && L.Ours(slot, received) == FramesOut(out)
    ensures Connected(slot, out, L.Run(slot, L.RESET_SYS, listener).h)
  {
    var h := L.Run(slot, L.RESET_SYS, listener).h;
    ListenerParses(slot, L.RESET_SYS, listener);
    L.ReplayIsDecode(slot, listener);
    L.HiddenAreOurs(slot, L.NOTHING_LEFT, h.frames, h.ends);
  }

  lemma OneMoreOurs(slot: X.Slot, fs: seq<seq<Word>>, f: seq<Word>, all: seq<seq<Word>>)
    requires slot.Valid() && L.IsOurs(slot, f) && L.NoRunts(fs) && L.Ours(slot, fs) == fs && all == fs + [f]
    ensures L.NoRunts(all) && L.Ours(slot, all) == all
  {
    assert all[..|fs|] == fs;
  }

  lemma {:induction false} AllOurs(slot: X.Slot, b: Binding, sent: seq<T.Sent>)
    requires slot.Valid() && b.Valid() && BoundTo(slot, b)
    ensures L.NoRunts(FrameWords(b, sent)) && L.Ours(slot, FrameWords(b, sent)) == FrameWords(b, sent)
    decreases |sent|
  {
    if sent == [] {
      assert L.Ours(slot, []) == [];
    } else {
      var front, x := sent[..|sent| - 1], sent[|sent| - 1];
      var ws := Words(T.FrameOf(b, x));
      AllOurs(slot, b, front);
      TalkerFrameIsOurs(slot, b, x, ws);
      OneMoreOurs(slot, FrameWords(b, front), ws, FrameWords(b, sent));
    }
  }

  /** A wire from one to the other: the listener sees the talker's beats, with any gaps. */
  lemma WireConnects(slot: X.Slot, b: Binding, s: T.Sys, listener: seq<X.Input>)
    requires slot.Valid() && b.Valid() && BoundTo(slot, b) && T.WholeFrames(b, s)
    requires SeenBy(listener) == Sights(s.h.out)
    ensures Connected(slot, s.h.out, L.Run(slot, L.RESET_SYS, listener).h)
  {
    TalkerFrames(b, s);
    AllOurs(slot, b, s.h.sent[..s.h.done]);
    MixedTrafficConnects(slot, s.h.out, listener, FramesOut(s.h.out));
  }

  // ---------------------------------------------------------------------------
  // From end to end
  // ---------------------------------------------------------------------------

  /**
   For every run of the talker and every run of a listener bound to its stream, whatever other
   traffic the listener receives: every transmitted frame is hidden from the CPU, none is missed, and
   the samples the replay offers are, in order, those of the six-block groups transmitted.
   */
  lemma SamplesArrive(slot: X.Slot, b: Binding, talker: seq<T.Input>, listener: seq<X.Input>, t: T.Hist, l: L.Hist)
    requires slot.Valid() && b.Valid() && BoundTo(slot, b) && T.Bounded(talker)
    requires t == T.Run(b, T.RESET, talker).h && l == L.Run(slot, L.RESET_SYS, listener).h
    requires Connected(slot, t.out, l)
    ensures t.done <= |t.sent| && l.discards == t.done && l.missed == 0
    ensures l.offered + L.InFlight(l) == Flatten(BlocksOf(t.sent[..t.done]))
  {
    T.NoTornPacket(b, talker);
    TalkerFrames(b, T.Run(b, T.RESET, talker));
    var es, sent := L.HiddenIn(slot, l), t.sent[..t.done];
    L.HiddenSound(slot, L.NOTHING_LEFT, l.frames, l.ends);
    DeliveredAreFull(slot, b, es, sent);
    L.FullFramesAreExtracted(slot, listener);
    DecodeOfTalker(slot, b, es, sent);
  }

  /** What a listener has stored or handed to the CPU of channel `ch`. */
  function Received(s: L.Sys, ch: nat): seq<Word>
    requires ch < 2
  {
    if ch == 0 then s.h.ch0.popped + s.r.fifo0 else s.h.ch1.popped + s.r.fifo1
  }

  /** The last replay has drained, and every replay began with six free places per FIFO. */
  predicate Drained(s: L.Sys) { L.InFlight(s.h) == [] && s.h.ch0.roomy && s.h.ch1.roomy }

  lemma LaneStored(slot: X.Slot, listener: seq<X.Input>, l: L.Sys, ch: nat)
    requires slot.Valid() && l == L.Run(slot, L.RESET_SYS, listener) && Drained(l) && ch < 2
    ensures Received(l, ch) == L.Lane(l.h.offered + L.InFlight(l.h), ch)
  {
    L.StoredSamples(slot, listener);
    assert l.h.offered + [] == l.h.offered;
  }

  /** Channels 0 and 1, popped and still queued, are exactly those lanes of the transmitted blocks. */
  lemma ChannelsArrive(slot: X.Slot, b: Binding, talker: seq<T.Input>, listener: seq<X.Input>, t: T.Hist, l: L.Sys,
      ch: nat)
    requires slot.Valid() && b.Valid() && BoundTo(slot, b) && T.Bounded(talker)
    requires t == T.Run(b, T.RESET, talker).h && l == L.Run(slot, L.RESET_SYS, listener)
    requires Connected(slot, t.out, l.h) && Drained(l) && ch < 2
    ensures t.done <= |t.sent| && Received(l, ch) == LaneOf(BlocksOf(t.sent[..t.done]), ch)
  {
    SamplesArrive(slot, b, talker, listener, t, l.h);
    LaneStored(slot, listener, l, ch);
    LaneOfFlatten(BlocksOf(t.sent[..t.done]), ch);
  }

  /** Slot i of frame k, as the talker's feed handed it out: a block from the FIFO, or silence at an underrun. */
  function SlotOf(t: T.Hist, k: nat, i: nat): Option<Block>
    requires k < |t.sent| && i < 6 && 6 * t.sent[k].group + 6 <= |t.taken|
  {
    t.taken[6 * t.sent[k].group + i]
  }

  lemma {:induction false} BlocksOfAt(t: T.Hist, n: nat, k: nat, i: nat)
    requires k < n <= |t.sent| && i < 6 && T.Labelled(t.sent[k], k, t)
    ensures |BlocksOf(t.sent[..n])| == 6 * n
    ensures BlocksOf(t.sent[..n])[6 * k + i] == T.BlockOf(SlotOf(t, k, i))
    decreases n
  {
    assert t.sent[..n][..n - 1] == t.sent[..n - 1];
    BlocksOfLength(t.sent[..n - 1]);
    if k < n - 1 {
      BlocksOfAt(t, n - 1, k, i);
    }
  }

  lemma {:induction false} BlocksOfLength(sent: seq<T.Sent>)
    ensures |BlocksOf(sent)| == 6 * |sent|
    decreases |sent|
  {
    if sent != [] {
      BlocksOfLength(sent[..|sent| - 1]);
    }
  }

  /** The frames took strictly later groups of six strobes each, falling behind by counted overruns only. */
  ghost predicate GroupsAdvance(t: T.Hist) {
    && (forall k :: 0 < k < |t.sent| ==> t.sent[k - 1].group < t.sent[k].group)
    && (forall k :: 0 <= k < |t.sent| ==>
          k <= t.sent[k].group <= k + t.skipped && 6 * t.sent[k].group + 6 <= |t.taken|)
  }

  /** Sample 6 k + i is that lane of what strobe i of the k-th transmitted group found. */
  ghost predicate LaneOfSlots(t: T.Hist, ch: nat, lane: seq<Word>)
    requires GroupsAdvance(t) && t.done <= |t.sent| && ch < CHANNELS
  {
    && |lane| == 6 * t.done
    && forall k, i :: 0 <= k < t.done && 0 <= i < 6 ==> lane[6 * k + i] == T.BlockOf(SlotOf(t, k, i))[ch]
  }

  lemma SlotsFill(t: T.Hist, ch: nat, lane: seq<Word>)
    requires GroupsAdvance(t) && t.done <= |t.sent| && ch < CHANNELS
    requires forall k :: 0 <= k < |t.sent| ==> T.Labelled(t.sent[k], k, t)
    requires lane == LaneOf(BlocksOf(t.sent[..t.done]), ch)
    ensures LaneOfSlots(t, ch, lane)
  {
    BlocksOfLength(t.sent[..t.done]);
    forall k, i | 0 <= k < t.done && 0 <= i < 6
      ensures lane[6 * k + i] == T.BlockOf(SlotOf(t, k, i))[ch]
    {
      BlocksOfAt(t, t.done, k, i);
    }
  }

  /** The talker's side: what its strobes found, and what became of it. */
  ghost predicate Drains(s: T.Sys) {
    && T.Popped(s.h.taken) + s.r.fifo == Assembler.Blocks(Assembler.EMPTY, s.h.samples)
    && s.r.feed.underruns == U32(T.Underruns(s.h.taken))
    && s.r.bld.overruns == U32(s.h.skipped)
    && GroupsAdvance(s.h) && s.h.done <= |s.h.sent|
  }

  lemma TalkerDrains(b: Binding, talker: seq<T.Input>, s: T.Sys)
    requires b.Valid() && T.Bounded(talker) && s == T.Run(b, T.RESET, talker)
    ensures Drains(s)
    ensures forall k :: 0 <= k < |s.h.sent| ==> T.Labelled(s.h.sent[k], k, s.h)
  {
    T.NoTornPacket(b, talker);
    T.Conservation(b, talker);
    T.BlocksComeFromUsb(b, talker);
  }

  /**
   From USB to the sample FIFOs. The strobes drained the assembled USB blocks in order, some still
   queued, and found nothing at the counted underruns. Sample 6 k + i of channel 0 or 1 at the listener
   is that lane of what strobe i of the k-th transmitted group found: the block, or zero at an
   underrun. Groups are missing only at counted overruns.
   */
  lemma UsbReachesTheFifos(slot: X.Slot, b: Binding, talker: seq<T.Input>, listener: seq<X.Input>, s: T.Sys, l: L.Sys,
      ch: nat)
    requires slot.Valid() && b.Valid() && BoundTo(slot, b) && T.Bounded(talker)
    requires s == T.Run(b, T.RESET, talker) && l == L.Run(slot, L.RESET_SYS, listener)
    requires Connected(slot, s.h.out, l.h) && Drained(l) && ch < 2
    ensures Drains(s) && LaneOfSlots(s.h, ch, Received(l, ch))
  {
    TalkerDrains(b, talker, s);
    ChannelsArrive(slot, b, talker, listener, s.h, l, ch);
    SlotsFill(s.h, ch, Received(l, ch));
  }

  lemma {:induction false} NoUnderruns(taken: seq<Option<Block>>)
    requires T.Underruns(taken) == 0
    ensures |T.Popped(taken)| == |taken|
    ensures forall k :: 0 <= k < |taken| ==> taken[k] == Some(T.Popped(taken)[k])
    decreases |taken|
  {
    if taken != [] {
      NoUnderruns(taken[..|taken| - 1]);
    }
  }

  /** Without underruns and overruns, group k is the k-th six blocks. */
  lemma CleanSlots(t: T.Hist, ch: nat, lane: seq<Word>, fifo: seq<Block>, blocks: seq<Block>)
    requires GroupsAdvance(t) && t.done <= |t.sent| && ch < CHANNELS && LaneOfSlots(t, ch, lane)
    requires T.Underruns(t.taken) == 0 && t.skipped == 0 && T.Popped(t.taken) + fifo == blocks
    ensures 6 * t.done <= |blocks| && lane == LaneOf(blocks[..6 * t.done], ch)
  {
    NoUnderruns(t.taken);
    var n := t.done;
    assert n > 0 ==> 6 * t.sent[n - 1].group + 6 <= |t.taken|;
    forall j | 0 <= j < 6 * n
      ensures lane[j] == blocks[j][ch]
    {
      var k, i := j / 6, j % 6;
      assert lane[6 * k + i] == T.BlockOf(SlotOf(t, k, i))[ch];
      assert t.taken[j] == Some(blocks[j]);
    }
  }

  /**
   A clean stream: without underruns and overruns, what the listener has of channel 0 or 1 is that
   lane of the first 6 n blocks the host sent, n the number of frames transmitted.
   */
  lemma CleanStreamArrives(slot: X.Slot, b: Binding, talker: seq<T.Input>, listener: seq<X.Input>, s: T.Sys, l: L.Sys,
      ch: nat, blocks: seq<Block>)
    requires slot.Valid() && b.Valid() && BoundTo(slot, b) && T.Bounded(talker)
    requires s == T.Run(b, T.RESET, talker) && l == L.Run(slot, L.RESET_SYS, listener)
    requires Connected(slot, s.h.out, l.h) && Drained(l) && ch < 2
    requires T.Underruns(s.h.taken) == 0 && s.h.skipped == 0
    requires blocks == Assembler.Blocks(Assembler.EMPTY, s.h.samples)
    ensures 6 * s.h.done <= |blocks| && Received(l, ch) == LaneOf(blocks[..6 * s.h.done], ch)
  {
    UsbReachesTheFifos(slot, b, talker, listener, s, l, ch);
    CleanSlots(s.h, ch, Received(l, ch), s.r.fifo, blocks);
  }
}
