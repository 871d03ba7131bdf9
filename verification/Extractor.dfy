/**
 The gateware sample extractor (one slot, two stored channels, eight wire channels):
 frame capture, the registered match pipeline and the replay machine, one clock per step.
 */
module Extractor {
  import opened Bytes
  import opened AafFrame

  const BUF_BEATS := 64
  const SAMPLES := 48
  const FIFO_DEPTH := 256
  const SUBTYPE_AAF := 0x02

  type FrameBuf = b: seq<Word> | |b| == 64 witness seq(64, _ => ZERO_WORD)

  type HdrWords = b: seq<Word> | |b| == 8
    witness [ZERO_WORD, ZERO_WORD, ZERO_WORD, ZERO_WORD, ZERO_WORD, ZERO_WORD, ZERO_WORD, ZERO_WORD]

  /** The slot configuration registers. */
  datatype Slot = Slot(enabled: bool, macHi: nat, macLo: Word32, sidHi: Word32, sidLo: Word32)
  {
    predicate Valid() { macHi < 0x1_0000 }
  }

  /** The header keys a match is decided on. */
  datatype Keys = Keys(tagged: bool, subtype: Byte, mac: seq<Byte>, sid: seq<Byte>)

  function KeysOf(ws: seq<Word>): Keys
    requires |ws| >= 8
  {
    Keys(Tagged(ws), SubtypeOf(ws), MacOf(ws), StreamIdOf(ws))
  }

  predicate Matches(slot: Slot, k: Keys)
    requires slot.Valid()
  {
    && slot.enabled
    && MacOctets(slot.macHi, slot.macLo) == k.mac
    && IdOctets(slot.sidHi, slot.sidLo) == k.sid
    && k.subtype == SUBTYPE_AAF
  }

  datatype Capture = Capture(beatIdx: nat, buf: FrameBuf, hdr: HdrWords)

  datatype Pipe = Pipe(eofB: bool, keysB: Keys, eofC: bool, matchC: bool, taggedC: bool)

  datatype Phase = IDLE | PRIME | WARM | STREAM

  datatype Replay = Replay(phase: Phase, n: nat, addr: nat, prev: Word, datR: Word)

  datatype Counters = Counters(matches: Word32, blocks: Word32)

  datatype Regs = Regs(cap: Capture, pipe: Pipe, rep: Replay, fifo0: seq<Word>, fifo1: seq<Word>, cnt: Counters)

  /**
   One clock: the beat observed (the observer is always ready), which FIFO the CPU pops,
   and what the memory would return on a same-address read and write.
   */
  datatype Input = Input(valid: bool, data: Word, last: bool, pop0: bool, pop1: bool, clash: Word)

  predicate Eof(i: Input) { i.valid && i.last }

  predicate Writes(c: Capture, i: Input) { i.valid && c.beatIdx < BUF_BEATS }

  function NextCapture(c: Capture, i: Input): Capture {
    if !i.valid then c
    else
      Capture(if i.last then 0 else if c.beatIdx < BUF_BEATS then c.beatIdx + 1 else c.beatIdx,
              if c.beatIdx < BUF_BEATS then c.buf[c.beatIdx := i.data] else c.buf,
              if c.beatIdx < 8 then c.hdr[c.beatIdx := i.data] else c.hdr)
  }

  /** `k` are the keys the captured header words show in this clock. */
  function NextPipe(slot: Slot, p: Pipe, k: Keys, i: Input): Pipe
    requires slot.Valid()
  {
    Pipe(Eof(i), if Eof(i) then k else p.keysB,
         p.eofB, if p.eofB then Matches(slot, p.keysB) else p.matchC, if p.eofB then p.keysB.tagged else p.taggedC)
  }

  /** Combinational match on the last beat: tells the MAC to hide the frame from the CPU. */
  predicate MatchAtEof(slot: Slot, c: Capture, i: Input)
    requires slot.Valid()
  {
    Eof(i) && Matches(slot, KeysOf(c.hdr))
  }

  /** The synchronous read port. */
  function ReadPort(c: Capture, addr: nat, i: Input): Word {
    if Writes(c, i) && c.beatIdx == addr % BUF_BEATS then i.clash else c.buf[addr % BUF_BEATS]
  }

  /** First word that holds audio. */
  function StartWord(tagged: bool): nat { if tagged then 10 else 9 }

  function NextReplay(r: Replay, start: bool, tagged: bool, read: Word): Replay {
    var clocked := r.(datR := read);
    match r.phase
    case IDLE => if start then clocked.(phase := PRIME, addr := StartWord(tagged), n := 0) else clocked
    case PRIME => clocked.(phase := WARM, addr := r.addr + 1)
    case WARM => clocked.(phase := STREAM, addr := r.addr + 1, prev := r.datR)
    case STREAM =>
      if r.n == SAMPLES - 1 then clocked.(phase := IDLE, addr := r.addr + 1, prev := r.datR)
      else clocked.(n := r.n + 1, addr := r.addr + 1, prev := r.datR)
  }

  /** A sample straddles the previous and the current word. */
  function SampleNow(r: Replay): Word { FromBe(r.prev.b2, r.prev.b3, r.datR.b0, r.datR.b1) }

  predicate Offers(r: Replay, ch: nat) { r.phase.STREAM? && r.n % CHANNELS == ch }

  function NextFifo(fifo: seq<Word>, pop: bool, we: bool, din: Word): seq<Word> {
    (if pop && fifo != [] then fifo[1..] else fifo) + (if we && |fifo| < FIFO_DEPTH then [din] else [])
  }

  function Next(slot: Slot, r: Regs, i: Input): Regs
    requires slot.Valid()
  {
    var start := r.pipe.eofC && r.pipe.matchC;
    Regs(NextCapture(r.cap, i),
         NextPipe(slot, r.pipe, KeysOf(r.cap.hdr), i),
         NextReplay(r.rep, start, r.pipe.taggedC, ReadPort(r.cap, r.rep.addr, i)),
         NextFifo(r.fifo0, i.pop0, Offers(r.rep, 0), SampleNow(r.rep)),
         NextFifo(r.fifo1, i.pop1, Offers(r.rep, 1), SampleNow(r.rep)),
         Counters(if start then U32(r.cnt.matches + 1) else r.cnt.matches,
                  if Offers(r.rep, 0) then U32(r.cnt.blocks + 1) else r.cnt.blocks))
  }

  const NO_KEYS := Keys(false, 0, [0, 0, 0, 0, 0, 0], [0, 0, 0, 0, 0, 0, 0, 0])

  function ZeroBuf(): (b: FrameBuf)
    ensures forall j :: 0 <= j < |b| ==> b[j] == ZERO_WORD
  {
    seq(64, _ => ZERO_WORD)
  }

  const RESET := Regs(
    Capture(0, ZeroBuf(), [ZERO_WORD, ZERO_WORD, ZERO_WORD, ZERO_WORD, ZERO_WORD, ZERO_WORD,
        ZERO_WORD, ZERO_WORD]),
    Pipe(false, NO_KEYS, false, false, false),
    Replay(IDLE, 0, 0, ZERO_WORD, ZERO_WORD), [], [], Counters(0, 0))

  // ---------------------------------------------------------------------------
  // The registers, updated in place
  // ---------------------------------------------------------------------------

  /** The registers of the pipeline and of the replay machine are kept in the groups above. */
  class AVTPSampleExtractor {
    const slot: Slot
    var beatIdx: nat
    const frameBuf: array<Word>
    const hdrWords: array<Word>
    var pipe: Pipe
    var rep: Replay
    var fifo0: seq<Word>
    var fifo1: seq<Word>
    var cnt: Counters

    ghost predicate Valid() {
      slot.Valid() && frameBuf.Length == BUF_BEATS && hdrWords.Length == 8 && frameBuf != hdrWords
    }

    ghost function CaptureRegs(): Capture
      requires Valid()
      reads this`beatIdx, frameBuf, hdrWords
    {
      Capture(beatIdx, frameBuf[..], hdrWords[..])
    }

    ghost function Registers(): Regs
      requires Valid()
      reads this, frameBuf, hdrWords
    {
      Regs(CaptureRegs(), pipe, rep, fifo0, fifo1, cnt)
    }

    constructor (s: Slot)
      requires s.Valid()
      ensures Valid() && slot == s && Registers() == RESET && fresh(frameBuf) && fresh(hdrWords)
    {
      slot := s;
      beatIdx := 0;
      frameBuf := new Word[64](_ => ZERO_WORD);
      hdrWords := new Word[8](_ => ZERO_WORD);
      pipe, rep := Pipe(false, NO_KEYS, false, false, false), Replay(IDLE, 0, 0, ZERO_WORD, ZERO_WORD);
      fifo0, fifo1, cnt := [], [], Counters(0, 0);
      new;
      assert frameBuf[..] == RESET.cap.buf;
    }

    method CaptureBeat(i: Input)
      requires Valid()
      modifies this`beatIdx, frameBuf, hdrWords
      ensures CaptureRegs() == NextCapture(old(CaptureRegs()), i)
    {
      if i.valid {
        if beatIdx < 8 {
          hdrWords[beatIdx] := i.data;
        }
        if beatIdx < BUF_BEATS {
          frameBuf[beatIdx] := i.data;
          beatIdx := beatIdx + 1;
        }
        if i.last {
          beatIdx := 0;
        }
      }
    }

    /** Stage C: compare the latched keys. */
    method Compare()
      requires Valid()
      modifies this`pipe
      ensures var p := old(pipe);
              pipe == p.(eofC := p.eofB, matchC := if p.eofB then Matches(slot, p.keysB) else p.matchC,
                         taggedC := if p.eofB then p.keysB.tagged else p.taggedC)
    {
      if pipe.eofB {
        var k := pipe.keysB;
        var slotMatch := slot.enabled
                         && MacOctets(slot.macHi, slot.macLo) == k.mac
                         && IdOctets(slot.sidHi, slot.sidLo) == k.sid
                         && k.subtype == SUBTYPE_AAF;
        pipe := pipe.(matchC := slotMatch, taggedC := k.tagged);
      }
      pipe := pipe.(eofC := pipe.eofB);
    }

    /** Stages B and C; stage C first, since it reads stage B's old keys `k` replaces. */
    method MatchPipeline(i: Input, k: Keys) returns (matchAtEof: bool)
      requires Valid()
      modifies this`pipe
      ensures pipe == NextPipe(slot, old(pipe), k, i)
      ensures matchAtEof == (Eof(i) && Matches(slot, k))
    {
      Compare();
      var eof := i.valid && i.last;
      pipe := pipe.(eofB := eof);
      if eof {
        pipe := pipe.(keysB := k);
      }
      matchAtEof := eof && Matches(slot, k);
    }

    /** What the read port returns for the current address. */
    method Read(i: Input) returns (w: Word)
      requires Valid()
      ensures w == ReadPort(CaptureRegs(), rep.addr, i)
    {
      var adr := rep.addr % BUF_BEATS;
      w := if i.valid && beatIdx < BUF_BEATS && beatIdx == adr then i.clash else frameBuf[adr];
    }

    method ReplayStep(start: bool, read: Word)
      modifies this`rep
      ensures rep == NextReplay(old(rep), start, pipe.taggedC, read)
    {
      var datR := rep.datR;
      rep := rep.(datR := read);
      match rep.phase {
        case IDLE =>
          if start {
            rep := rep.(phase := PRIME, addr := if pipe.taggedC then 10 else 9, n := 0);
          }
        case PRIME =>
          rep := rep.(phase := WARM, addr := rep.addr + 1);
        case WARM =>
          rep := rep.(prev := datR, phase := STREAM, addr := rep.addr + 1);
        case STREAM =>
          rep := rep.(prev := datR, addr := rep.addr + 1);
          if rep.n == SAMPLES - 1 {
            rep := rep.(phase := IDLE);
          } else {
            rep := rep.(n := rep.n + 1);
          }
      }
    }

    method Store(i: Input)
      modifies this`fifo0, this`fifo1, this`cnt
      ensures fifo0 == NextFifo(old(fifo0), i.pop0, Offers(rep, 0), SampleNow(rep))
      ensures fifo1 == NextFifo(old(fifo1), i.pop1, Offers(rep, 1), SampleNow(rep))
      ensures cnt == old(cnt).(blocks := if Offers(rep, 0) then U32(old(cnt).blocks + 1) else old(cnt).blocks)
    {
      var sample := FromBe(rep.prev.b2, rep.prev.b3, rep.datR.b0, rep.datR.b1);
      var ch := rep.n % CHANNELS;
      var write := rep.phase == STREAM;
      var we0, we1 := write && ch == 0 && |fifo0| < FIFO_DEPTH, write && ch == 1 && |fifo1| < FIFO_DEPTH;
      fifo0 := (if i.pop0 && fifo0 != [] then fifo0[1..] else fifo0) + if we0 then [sample] else [];
      fifo1 := (if i.pop1 && fifo1 != [] then fifo1[1..] else fifo1) + if we1 then [sample] else [];
      if write && ch == 0 {
        cnt := cnt.(blocks := U32(cnt.blocks + 1));
      }
    }

    /** The replay side of a clock: stores, read port, replay machine, match counter. */
    method ReplayClock(i: Input)
      requires Valid()
      modifies this`fifo0, this`fifo1, this`cnt, this`rep
      ensures var r, c, start := old(rep), old(cnt), pipe.eofC && pipe.matchC;
              && rep == NextReplay(r, start, pipe.taggedC, ReadPort(CaptureRegs(), r.addr, i))
              && fifo0 == NextFifo(old(fifo0), i.pop0, Offers(r, 0), SampleNow(r))
              && fifo1 == NextFifo(old(fifo1), i.pop1, Offers(r, 1), SampleNow(r))
              && cnt.matches == (if start then U32(c.matches + 1) else c.matches)
              && cnt.blocks == if Offers(r, 0) then U32(c.blocks + 1) else c.blocks
    {
      Store(i);
      var read := Read(i);
      var start := pipe.eofC && pipe.matchC;
      ReplayStep(start, read);
      if start {
        cnt := cnt.(matches := U32(cnt.matches + 1));
      }
    }

    /** The capture side: match pipeline on the header as it was, then the beat itself. */
    method CaptureClock(i: Input) returns (matchAtEof: bool)
      requires Valid()
      modifies this`pipe, this`beatIdx, frameBuf, hdrWords
      ensures pipe == NextPipe(slot, old(pipe), KeysOf(old(CaptureRegs()).hdr), i)
      ensures CaptureRegs() == NextCapture(old(CaptureRegs()), i)
      ensures matchAtEof == MatchAtEof(slot, old(CaptureRegs()), i)
    {
      var keys := KeysOf(hdrWords[..]);
      matchAtEof := MatchPipeline(i, keys);
      CaptureBeat(i);
    }

    /** One clock. Every step reads registers as they were, so readers go before writers. */
    method Clock(i: Input) returns (matchAtEof: bool)
      requires Valid()
      modifies this, frameBuf, hdrWords
      ensures Valid() && matchAtEof == MatchAtEof(slot, old(CaptureRegs()), i)
      ensures Registers() == Next(slot, old(Registers()), i)
    {
      ghost var after := Next(slot, Registers(), i);
      ReplayClock(i);
      assert rep == after.rep && fifo0 == after.fifo0 && fifo1 == after.fifo1 && cnt == after.cnt;
      matchAtEof := CaptureClock(i);
    }
  }
}
