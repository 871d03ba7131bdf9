/**
 The AES3 transmitter (rtl/_aes3_backup/aes3_tx.v) with CLK_FREQ = 50 MHz, FS = 48000 and the
 internal phase accumulator: sample buffering, subframe construction and biphase-mark encoder.
 */
module Aes3Tx {
  import opened Aes3Line

  const MODULUS := 16_777_216

  /** The increment of the 24-bit phase accumulator, 128 fs over the clock. */
  const INCREMENT: nat := 2_061_584

  lemma IncrementIsNominal()
    ensures INCREMENT == 128 * 48_000 * MODULUS / 50_000_000
  {
  }

  type Word24 = s: seq<bool> | |s| == AUDIO_BITS witness Zeros(AUDIO_BITS)

  datatype Input = Input(audioValid: bool, audioL: Word24, audioR: Word24, channelStatus: Status)

  /** The encoder. `bmc` is the level at the end of the last data cell. */
  datatype Encoder = Encoder(frameCount: nat, subframeB: bool, symbolCount: nat, bmc: bool, out: bool) {
    predicate Valid() { frameCount < FRAMES && symbolCount < CELLS }

    function Kind(): Kind { if subframeB then Y else if frameCount == 0 then Z else X }

    /** Which of the 28 bits the current symbol belongs to. */
    function BitIndex(): nat
      requires PREAMBLE_CELLS <= symbolCount < CELLS
    {
      (symbolCount - PREAMBLE_CELLS) / 2
    }
  }

  datatype Buffer = Buffer(left: Word24, right: Word24, valid: bool, ready: bool)

  datatype Regs = Regs(acc: nat, tick: bool, enc: Encoder, buf: Buffer) {
    predicate Valid() { acc < MODULUS && enc.Valid() }
  }

  // ---------------------------------------------------------------------------
  // One clock
  // ---------------------------------------------------------------------------

  function CurrentAudio(r: Regs): Word24 { if r.enc.subframeB then r.buf.right else r.buf.left }

  /** The bit under way, recomputed in every clock from the buffer and the channel-status input. */
  function DataBit(index: nat, audio: Word24, c: bool): bool
    requires index < BITS
  {
    if index == 24 || index == 25 then false
    else if index == 26 then c
    else if index == 27 then Odd(audio + [false, false, c])
    else audio[index]
  }

  function SampledBit(r: Regs, i: Input): bool
    requires r.enc.Valid() && r.enc.symbolCount >= PREAMBLE_CELLS
  {
    DataBit(r.enc.BitIndex(), CurrentAudio(r), i.channelStatus[r.enc.frameCount])
  }

  function Advance(e: Encoder): Encoder
    requires e.Valid()
  {
    if e.symbolCount < CELLS - 1 then e.(symbolCount := e.symbolCount + 1)
    else if !e.subframeB then e.(symbolCount := 0, subframeB := true)
    else e.(symbolCount := 0, subframeB := false,
            frameCount := if e.frameCount == FRAMES - 1 then 0 else e.frameCount + 1)
  }

  function Symbol(e: Encoder, bit: bool): Encoder
    requires e.Valid()
  {
    if e.symbolCount < PREAMBLE_CELLS then
      Advance(e.(out := e.bmc != Pattern(e.Kind())[e.symbolCount]))
    else if e.symbolCount % 2 == 0 || bit then
      Advance(e.(out := !e.out, bmc := !e.out))
    else
      Advance(e)
  }

  function NextBuffer(r: Regs, i: Input): Buffer {
    var clear := r.tick && r.enc.symbolCount == CELLS - 1 && !r.enc.subframeB;
    Buffer(if i.audioValid then i.audioL else r.buf.left,
           if i.audioValid then i.audioR else r.buf.right,
           !clear && (i.audioValid || r.buf.valid),
           !r.buf.valid)
  }

  /** What the encoder does in a clock that carries a tick. */
  function Ticked(r: Regs, i: Input): Encoder
    requires r.Valid()
  {
    Symbol(r.enc, r.enc.symbolCount >= PREAMBLE_CELLS && SampledBit(r, i))
  }

  const ZERO24: Word24 := Zeros(AUDIO_BITS)

  function Next(r: Regs, rst: bool, i: Input): (n: Regs)
    requires r.Valid()
    ensures n.Valid()
  {
    if rst then Regs(0, false, Encoder(0, false, 0, false, false), Buffer(ZERO24, ZERO24, false, !r.buf.valid))
    else
      var sum := r.acc + INCREMENT;
      Regs(sum % MODULUS, sum >= MODULUS, if r.tick then Ticked(r, i) else r.enc, NextBuffer(r, i))
  }

  class AES3Tx {
    var biphaseAcc: nat
    var biphaseTick: bool
    var frameCount: nat
    var subframeB: bool
    var symbolCount: nat
    var bmcLevel: bool
    var aes3Out: bool
    var pendingL: Word24
    var pendingR: Word24
    var pendingValid: bool
    var audioReady: bool

    predicate Valid()
      reads this
    {
      biphaseAcc < MODULUS && frameCount < FRAMES && symbolCount < CELLS
    }

    function EncoderOf(): Encoder
      reads this
    {
      Encoder(frameCount, subframeB, symbolCount, bmcLevel, aes3Out)
    }

    function BufferOf(): Buffer
      reads this
    {
      Buffer(pendingL, pendingR, pendingValid, audioReady)
    }

    function Registers(): (r: Regs)
      reads this
      ensures Valid() ==> r.Valid()
    {
      Regs(biphaseAcc, biphaseTick, EncoderOf(), BufferOf())
    }

    constructor ()
      ensures Valid() && Registers() == Regs(0, false, Encoder(0, false, 0, false, false), Buffer(ZERO24, ZERO24,
          false, false))
    {
      biphaseAcc, biphaseTick := 0, false;
      frameCount, subframeB, symbolCount, bmcLevel, aes3Out := 0, false, 0, false, false;
      pendingL, pendingR, pendingValid, audioReady := ZERO24, ZERO24, false, false;
    }

    /** The next position: symbol, subframe, frame. */
    method Count()
      requires Valid()
      modifies this`symbolCount, this`subframeB, this`frameCount
      ensures Valid() && EncoderOf() == Advance(old(EncoderOf()))
    {
      if symbolCount == CELLS - 1 {
        symbolCount := 0;
        if subframeB {
          subframeB := false;
          if frameCount == FRAMES - 1 {
            frameCount := 0;
          } else {
            frameCount := frameCount + 1;
          }
        } else {
          subframeB := true;
        }
      } else {
        symbolCount := symbolCount + 1;
      }
    }

    /** One symbol; `bit` is the data bit under way. */
    method Encode(bit: bool)
      requires Valid()
      modifies this`symbolCount, this`subframeB, this`frameCount, this`bmcLevel, this`aes3Out
      ensures Valid() && EncoderOf() == Symbol(old(EncoderOf()), bit)
    {
      if symbolCount < PREAMBLE_CELLS {
        aes3Out := bmcLevel != Pattern(EncoderOf().Kind())[symbolCount];
      } else if symbolCount % 2 == 0 {
        aes3Out, bmcLevel := !aes3Out, !aes3Out;
      } else if bit {
        aes3Out, bmcLevel := !aes3Out, !aes3Out;
      }
      Count();
    }

    /** The sample buffer; the clear wins over a load in the same clock. */
    method BufferSamples(i: Input)
      requires Valid()
      modifies this`pendingL, this`pendingR, this`pendingValid, this`audioReady
      ensures BufferOf() == NextBuffer(old(Registers()), i)
    {
      audioReady := !pendingValid;
      if i.audioValid {
        pendingL, pendingR, pendingValid := i.audioL, i.audioR, true;
      }
      if biphaseTick && symbolCount == CELLS - 1 && !subframeB {
        pendingValid := false;
      }
    }

    method Reset()
      modifies this
      ensures biphaseAcc == 0 && !biphaseTick && EncoderOf() == Encoder(0, false, 0, false, false)
      ensures BufferOf() == Buffer(ZERO24, ZERO24, false, !old(pendingValid))
    {
      audioReady := !pendingValid;
      biphaseAcc, biphaseTick := 0, false;
      frameCount, subframeB, symbolCount, bmcLevel, aes3Out := 0, false, 0, false, false;
      pendingL, pendingR, pendingValid := ZERO24, ZERO24, false;
    }

    /** The phase accumulator; its carry is the tick. */
    method Accumulate()
      requires Valid()
      modifies this`biphaseAcc, this`biphaseTick
      ensures Valid()
      ensures biphaseAcc == (old(biphaseAcc) + INCREMENT) % MODULUS
      ensures biphaseTick == (old(biphaseAcc) + INCREMENT >= MODULUS)
    {
      var sum := biphaseAcc + INCREMENT;
      biphaseAcc, biphaseTick := sum % MODULUS, sum >= MODULUS;
    }

    /** One rising edge of the clock. */
    method Clock(rst: bool, i: Input)
      requires Valid()
      modifies this
      ensures Valid() && Registers() == Next(old(Registers()), rst, i)
    {
      if rst {
        Reset();
      } else {
        var bit := symbolCount >= PREAMBLE_CELLS && SampledBit(Registers(), i);
        BufferSamples(i);
        if biphaseTick {
          Encode(bit);
        }
        assert EncoderOf() == if old(biphaseTick) then Ticked(old(Registers()), i) else old(EncoderOf());
        Accumulate();
      }
    }
  }
}
