/**
 The media-clock oscillator: a 32-bit phase accumulator whose carry-out,
 registered, is the sample strobe.
 */
module Nco {
  import opened Bytes
  import Mcr

  /** Largest increment the servo ever writes: 48 kHz from 50 MHz, plus 2^24. */
  const MAX_INCREMENT: Word32 := 20_900_385

  /** Fewest clocks between two strobes at increments up to MAX_INCREMENT. */
  const MIN_STROBE_GAP := 205

  datatype State = State(phase: Word32, strobe: bool, count: Word32)

  const RESET := State(0, false, 0)

  function Next(n: State, inc: Word32): State {
    State(U32(n.phase + inc), n.phase + inc >= 0x1_0000_0000, U32(n.count + if n.strobe then 1 else 0))
  }

  function Run(n: State, incs: seq<Word32>): State
    decreases |incs|
  {
    if incs == [] then n else Run(Next(n, incs[0]), incs[1..])
  }

  class MCRNco {
    var phase: Word32
    var sampleStrobe: bool
    var sampleCount: Word32

    ghost function Regs(): State
      reads this
    {
      State(phase, sampleStrobe, sampleCount)
    }

    constructor ()
      ensures Regs() == RESET
    {
      phase, sampleStrobe, sampleCount := 0, false, 0;
    }

    method Clock(increment: Word32)
      modifies this
      ensures Regs() == Next(old(Regs()), increment)
    {
      var nextPhase := phase + increment;
      if sampleStrobe {
        sampleCount := U32(sampleCount + 1);
      }
      phase := nextPhase % 0x1_0000_0000;
      sampleStrobe := nextPhase / 0x1_0000_0000 == 1;
    }
  }

  predicate Bounded(incs: seq<Word32>) {
    forall k :: 0 <= k < |incs| ==> incs[k] <= MAX_INCREMENT
  }

  /**
   `since` clocks after the last strobe the phase has had no time to travel
   further than (since + 1) increments.
   */
  predicate Paced(n: State, since: nat) {
    && n.phase <= (since + 1) * MAX_INCREMENT
    && (n.strobe ==> since == 0)
  }

  /** One clock keeps the pace, and a strobe is never early. */
  lemma PaceKept(n: State, since: nat, inc: Word32)
    requires inc <= MAX_INCREMENT && Paced(n, since)
    ensures Next(n, inc).strobe ==> since + 1 >= MIN_STROBE_GAP
    ensures Paced(Next(n, inc), if Next(n, inc).strobe then 0 else since + 1)
  {
    assert (since + 2) * MAX_INCREMENT == (since + 1) * MAX_INCREMENT + MAX_INCREMENT;
  }

  /** The phase after k clocks, without a wrap as long as k increments do not reach 2^32. */
  lemma {:induction false} NoEarlyStrobe(n: State, since: nat, incs: seq<Word32>)
    requires Paced(n, since) && Bounded(incs)
    requires since + |incs| < MIN_STROBE_GAP && incs != []
    ensures !Run(n, incs).strobe
    decreases |incs|
  {
    PaceKept(n, since, incs[0]);
    if |incs| > 1 {
      NoEarlyStrobe(Next(n, incs[0]), since + 1, incs[1..]);
    } else {
      assert Run(Next(n, incs[0]), incs[1..]) == Next(n, incs[0]);
    }
  }

  /** Two strobes of any run the servo can cause are at least 205 clocks apart. */
  lemma StrobesAreSpaced(n: State, inc: Word32, incs: seq<Word32>)
    requires inc <= MAX_INCREMENT && Bounded(incs) && incs != []
    requires Next(n, inc).strobe && Run(Next(n, inc), incs).strobe
    ensures |incs| >= MIN_STROBE_GAP
  {
    if |incs| < MIN_STROBE_GAP {
      NoEarlyStrobe(Next(n, inc), 0, incs);
    }
  }

  // ---------------------------------------------------------------------------
  // How many strobes
  // ---------------------------------------------------------------------------

  function Sum(incs: seq<Word32>): nat {
    if incs == [] then 0 else incs[0] + Sum(incs[1..])
  }

  /** Strobes raised by the clocks of a run. */
  function Strobes(n: State, incs: seq<Word32>): nat
    decreases |incs|
  {
    if incs == [] then 0
    else (if Next(n, incs[0]).strobe then 1 else 0) + Strobes(Next(n, incs[0]), incs[1..])
  }

  lemma OneClock(n: State, inc: Word32, m: State)
    requires m == Next(n, inc)
    ensures n.phase + inc == 0x1_0000_0000 * (if m.strobe then 1 else 0) + m.phase
  {
  }

  /**
   No phase is lost: what the increments add is the phase left over and 2^32 for every strobe. The
   sample counter has counted every strobe but the one now shown.
   */
  lemma {:induction false} PhaseConserved(n: State, incs: seq<Word32>)
    ensures n.phase + Sum(incs) == 0x1_0000_0000 * Strobes(n, incs) + Run(n, incs).phase
    ensures U32(Run(n, incs).count + (if Run(n, incs).strobe then 1 else 0)) ==
              U32(n.count + (if n.strobe then 1 else 0) + Strobes(n, incs))
    decreases |incs|
  {
    if incs != [] {
      var m := Next(n, incs[0]);
      PhaseConserved(m, incs[1..]);
      OneClock(n, incs[0], m);
      WrapAdd32(n.count + (if n.strobe then 1 else 0), (if m.strobe then 1 else 0) + Strobes(m, incs[1..]));
    }
  }

  lemma {:induction false} SumConstant(inc: Word32, clocks: nat)
    ensures Sum(seq(clocks, _ => inc)) == clocks * inc
  {
    if clocks > 0 {
      SumConstant(inc, clocks - 1);
      assert seq(clocks, _ => inc)[1..] == seq(clocks - 1, _ => inc);
    }
  }

  /** The rate: at a constant increment, N clocks from reset raise floor(N inc / 2^32) strobes. */
  lemma StrobeRate(inc: Word32, clocks: nat)
    ensures Strobes(RESET, seq(clocks, _ => inc)) == clocks * inc / 0x1_0000_0000
  {
    PhaseConserved(RESET, seq(clocks, _ => inc));
    SumConstant(inc, clocks);
  }

  // ---------------------------------------------------------------------------
  // Paced by the servo
  // ---------------------------------------------------------------------------

  /** The servo at power-up with the deployed clocks. */
  function PowerUp(): Mcr.Servo { Mcr.Initial(U32(Mcr.NominalIncrement(50_000_000, 48_000))) }

  /** An increment the servo can have left in the oscillator. */
  ghost predicate FromServo(inc: Word32) {
    exists es: seq<Mcr.Event> :: inc == Mcr.Run(PowerUp(), es).osc.nco
  }

  /** Whatever happens to the servo, the oscillator never gets more than MAX_INCREMENT. */
  lemma ServoIncrementsFit(es: seq<Mcr.Event>)
    ensures 1 <= Mcr.Run(PowerUp(), es).osc.nco <= MAX_INCREMENT
  {
    Mcr.DeployedIncrements();
    Mcr.IncrementStaysBounded(PowerUp(), es);
  }

  /** So the strobes of the deployed media clock are at least 205 clocks apart. */
  lemma ServoStrobesAreSpaced(n: State, inc: Word32, incs: seq<Word32>)
    requires FromServo(inc) && (forall k :: 0 <= k < |incs| ==> FromServo(incs[k])) && incs != []
    requires Next(n, inc).strobe && Run(Next(n, inc), incs).strobe
    ensures |incs| >= MIN_STROBE_GAP
  {
    forall i: Word32 | FromServo(i)
      ensures i <= MAX_INCREMENT
    {
      var es: seq<Mcr.Event> :| i == Mcr.Run(PowerUp(), es).osc.nco;
      ServoIncrementsFit(es);
    }
    StrobesAreSpaced(n, inc, incs);
  }
}
