/**
 What travels on an AES3 line (section 4 of IEC 60958-1): subframes of an eight-cell preamble and
 28 biphase-mark bits, described by whether the level changes at the start of each cell.
 */
module Aes3Line {
  const PREAMBLE_CELLS := 8
  const BITS := 28
  const AUDIO_BITS := 24
  const CELLS := 64
  const FRAMES := 192

  /** Z opens a block, X any other frame; both carry channel A. Y carries channel B. */
  datatype Kind = Z | X | Y

  function Zeros(n: nat): (s: seq<bool>)
    ensures |s| == n && forall k :: 0 <= k < n ==> !s[k]
  {
    seq(n, _ => false)
  }

  type Bits28 = s: seq<bool> | |s| == BITS witness Zeros(BITS)

  /** A channel-status block; index i is the bit of frame i. */
  type Status = s: seq<bool> | |s| == FRAMES witness Zeros(FRAMES)

  datatype Subframe = Subframe(kind: Kind, bits: Bits28) {
    /** 28 bits in the order of transmission: audio LSB first, V, U, C, P. */
    function Audio(): seq<bool> { bits[..AUDIO_BITS] }

    function C(): bool { bits[26] }
  }

  /** The level of each preamble cell when the line was low before it (most significant bit first). */
  function Pattern(k: Kind): (p: seq<bool>)
    ensures |p| == PREAMBLE_CELLS
  {
    match k
    case Z => [true, true, true, false, true, false, false, false]
    case X => [true, true, true, false, false, false, true, false]
    case Y => [true, true, true, false, false, true, false, false]
  }

  /** Where those levels change. */
  function PreambleFlags(k: Kind): (p: seq<bool>)
    ensures |p| == PREAMBLE_CELLS
  {
    match k
    case Z => [true, false, false, true, true, true, false, false]
    case X => [true, false, false, true, false, false, true, true]
    case Y => [true, false, false, true, false, true, true, false]
  }

  lemma FlagsArePatternChanges(k: Kind, j: nat)
    requires j < PREAMBLE_CELLS
    ensures PreambleFlags(k)[j] == (Pattern(k)[j] != if j == 0 then false else Pattern(k)[j - 1])
  {
    if j == 0 { } else if j == 1 { } else if j == 2 { } else if j == 3 { } else if j == 4 { }
    else if j == 5 { } else if j == 6 { } else { assert j == 7; }
  }

  /** Biphase mark: a change at every bit boundary, another in the middle of a one. */
  function DataFlags(bits: seq<bool>): (p: seq<bool>)
    ensures |p| == 2 * |bits|
    decreases |bits|
  {
    if bits == [] then [] else DataFlags(bits[..|bits| - 1]) + [true, bits[|bits| - 1]]
  }

  function FlagsOf(s: Subframe): (p: seq<bool>)
    ensures |p| == CELLS
  {
    PreambleFlags(s.kind) + DataFlags(s.bits)
  }

  function AllFlags(ss: seq<Subframe>): (p: seq<bool>)
    ensures |p| == CELLS * |ss|
    decreases |ss|
  {
    if ss == [] then [] else AllFlags(ss[..|ss| - 1]) + FlagsOf(ss[|ss| - 1])
  }

  function Odd(bits: seq<bool>): bool
    decreases |bits|
  {
    if bits == [] then false else Odd(bits[..|bits| - 1]) != bits[|bits| - 1]
  }

  /** The 28 bits for a sample: valid, no user data, and a parity bit that makes the number of ones even. */
  function Payload(audio: seq<bool>, c: bool): (bits: seq<bool>)
    requires |audio| == AUDIO_BITS
    ensures |bits| == BITS && bits[..AUDIO_BITS] == audio && !bits[24] && !bits[25] && bits[26] == c
    ensures !Odd(bits)
  {
    var body := audio + [false, false, c];
    var bits := body + [Odd(body)];
    assert bits[..27] == body;
    bits
  }

  // ---------------------------------------------------------------------------
  // Clocks
  // ---------------------------------------------------------------------------

  /** A level held for n clocks. */
  function Hold(v: bool, n: nat): (s: seq<bool>)
    ensures |s| == n
  {
    seq(n, _ => v)
  }

  /** The level after some cells. */
  function LevelAfter(v: bool, flags: seq<bool>): bool { v != Odd(flags) }

  /** The levels of a stream of cells, clock by clock. */
  function Wave(v: bool, flags: seq<bool>, clocks: seq<nat>): seq<bool>
    requires |clocks| == |flags|
    decreases |flags|
  {
    if flags == [] then []
    else
      var n := |flags| - 1;
      Wave(v, flags[..n], clocks[..n]) + Hold(LevelAfter(v, flags), clocks[n])
  }

  predicate EightOrNine(clocks: seq<nat>) { forall k :: 0 <= k < |clocks| ==> 8 <= clocks[k] <= 9 }

  predicate NoTwoNines(clocks: seq<nat>) {
    forall k :: 0 <= k && k + 1 < |clocks| ==> clocks[k] == 8 || clocks[k + 1] == 8
  }

  lemma {:induction false} WaveSplits(v: bool, a: seq<bool>, ca: seq<nat>, b: seq<bool>, cb: seq<nat>)
    requires |ca| == |a| && |cb| == |b|
    ensures Wave(v, a + b, ca + cb) == Wave(v, a, ca) + Wave(LevelAfter(v, a), b, cb)
    ensures LevelAfter(v, a + b) == LevelAfter(LevelAfter(v, a), b)
    decreases |b|
  {
    if b == [] {
      assert a + b == a && ca + cb == ca;
    } else {
      var k := |b| - 1;
      WaveSplits(v, a, ca, b[..k], cb[..k]);
      assert (a + b)[..|a| + k] == a + b[..k] && (ca + cb)[..|a| + k] == ca + cb[..k];
    }
  }

  // ---------------------------------------------------------------------------
  // Sequences
  // ---------------------------------------------------------------------------

  lemma Regroup<T>(a: seq<T>, b: seq<T>, c: seq<T>)
    ensures (a + b) + c == a + (b + c)
  {
  }

  lemma AppendOne<T>(a: seq<T>, b: seq<T>)
    requires b != []
    ensures a + b == (a + b[..|b| - 1]) + [b[|b| - 1]]
  {
  }

  lemma FlagsGrow(ss: seq<Subframe>, s: Subframe)
    ensures AllFlags(ss + [s]) == AllFlags(ss) + FlagsOf(s)
  {
    assert (ss + [s])[..|ss|] == ss;
  }

  lemma {:induction false} FlagsConcat(a: seq<Subframe>, b: seq<Subframe>)
    ensures AllFlags(a + b) == AllFlags(a) + AllFlags(b)
    decreases |b|
  {
    if b == [] {
      assert a + b == a;
    } else {
      var c, x := b[..|b| - 1], b[|b| - 1];
      FlagsConcat(a, c);
      AppendOne(a, b);
      FlagsGrow(a + c, x);
      Regroup(AllFlags(a), AllFlags(c), FlagsOf(x));
    }
  }
}
