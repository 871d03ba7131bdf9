/**
 USB samples, one channel at a time with a first-of-frame marker, assembled into
 8-channel blocks. The gateware talker and the firmware talker both run this.
 */
module Assembler {
  import opened Bytes
  import opened AafFrame

  type Channel = c: nat | c < 8

  /** One entry of the USB sample FIFO: lane, frame marker, 24 bits of audio. */
  datatype Sample = Sample(ch: Channel, first: bool, lo: Byte, mid: Byte, hi: Byte)

  /** The 24 bits aligned to the top of a 32-bit sample. */
  function Aligned(s: Sample): Word { Word(0, s.lo, s.mid, s.hi) }

  /** The block under construction and whether it holds anything. */
  datatype State = State(cur: Block, have: bool)

  const EMPTY := State(ZERO_BLOCK, false)

  /** A `first` sample closes the block before it. */
  predicate Closes(a: State, s: Sample) { s.first && a.have }

  function Accept(a: State, s: Sample): State {
    State((if Closes(a, s) then ZERO_BLOCK else a.cur)[s.ch := Aligned(s)], true)
  }

  function Final(a: State, ss: seq<Sample>): State
    decreases |ss|
  {
    if ss == [] then a else Final(Accept(a, ss[0]), ss[1..])
  }

  /** The blocks closed while `ss` is taken, in order. */
  function Blocks(a: State, ss: seq<Sample>): seq<Block>
    decreases |ss|
  {
    if ss == [] then []
    else (if Closes(a, ss[0]) then [a.cur] else []) + Blocks(Accept(a, ss[0]), ss[1..])
  }

  lemma {:induction false} TakeOneMore(a: State, ss: seq<Sample>, s: Sample)
    ensures Final(a, ss + [s]) == Accept(Final(a, ss), s)
    ensures Blocks(a, ss + [s]) ==
              Blocks(a, ss) + if Closes(Final(a, ss), s) then [Final(a, ss).cur] else []
    decreases |ss|
  {
    if ss == [] {
      assert [s][1..] == [];
    } else {
      assert (ss + [s])[1..] == ss[1..] + [s];
      TakeOneMore(Accept(a, ss[0]), ss[1..], s);
    }
  }

  // ---------------------------------------------------------------------------
  // What the assembled blocks mean
  // ---------------------------------------------------------------------------

  /** A host frame of n channels as it comes over USB: channel 0 carries the marker. */
  function Serialize(b: Block, n: nat): seq<Sample>
    requires n <= 8
  {
    if n == 0 then []
    else Serialize(b, n - 1) + [Sample(n - 1, n == 1, b[n - 1].b1, b[n - 1].b2, b[n - 1].b3)]
  }

  function SerializeAll(bs: seq<Block>, n: nat): seq<Sample>
    requires n <= 8
    decreases |bs|
  {
    if bs == [] then [] else Serialize(bs[0], n) + SerializeAll(bs[1..], n)
  }

  /** Lanes the host did not send are zero; the low octet of a 24-bit sample is zero. */
  function Sent(b: Block, n: nat): Block
    requires n <= 8
    ensures forall i :: 0 <= i < 8 ==>
              Sent(b, n)[i] == if i < n then Word(0, b[i].b1, b[i].b2, b[i].b3) else ZERO_WORD
  {
    if n == 0 then ZERO_BLOCK
    else Sent(b, n - 1)[n - 1 := Word(0, b[n - 1].b1, b[n - 1].b2, b[n - 1].b3)]
  }

  function AllSent(bs: seq<Block>, n: nat): seq<Block>
    requires n <= 8
  {
    if bs == [] then [] else [Sent(bs[0], n)] + AllSent(bs[1..], n)
  }

  lemma {:induction false} SplitBlocks(a: State, x: seq<Sample>, y: seq<Sample>)
    ensures Final(a, x + y) == Final(Final(a, x), y)
    ensures Blocks(a, x + y) == Blocks(a, x) + Blocks(Final(a, x), y)
    decreases |y|
  {
    if y == [] {
      assert x + y == x;
    } else {
      assert x + y == (x + [y[0]]) + y[1..];
      SplitBlocks(a, x + [y[0]], y[1..]);
      TakeOneMore(a, x, y[0]);
    }
  }

  /** Taking one host frame closes whatever was open and leaves exactly its lanes. */
  lemma {:induction false} TakeHostFrame(a: State, b: Block, n: nat)
    requires 1 <= n <= 8
    requires !a.have ==> a.cur == ZERO_BLOCK
    ensures Final(a, Serialize(b, n)) == State(Sent(b, n), true)
    ensures Blocks(a, Serialize(b, n)) == if a.have then [a.cur] else []
    decreases n
  {
    var s := Sample(n - 1, n == 1, b[n - 1].b1, b[n - 1].b2, b[n - 1].b3);
    if n == 1 {
      assert Serialize(b, 1) == [s];
      assert Blocks(Accept(a, s), []) == [];
      assert Accept(a, s).cur == Sent(b, 1);
      assert Final(Accept(a, s), [s][1..]) == Accept(a, s);
    } else {
      TakeHostFrame(a, b, n - 1);
      TakeOneMore(a, Serialize(b, n - 1), s);
      assert Sent(b, n - 1)[n - 1 := Aligned(s)] == Sent(b, n);
    }
  }

  /**
   Round trip: every host frame but the last (which is still open) comes out as
   one block, in order, whether the host sends 1 or all 8 channels.
   */
  lemma {:induction false} HostFramesBecomeBlocks(a: State, bs: seq<Block>, n: nat)
    requires 1 <= n <= 8 && bs != []
    requires !a.have ==> a.cur == ZERO_BLOCK
    ensures Final(a, SerializeAll(bs, n)) == State(Sent(bs[|bs| - 1], n), true)
    ensures Blocks(a, SerializeAll(bs, n)) ==
              (if a.have then [a.cur] else []) + AllSent(bs[..|bs| - 1], n)
    decreases |bs|
  {
    var x, y := Serialize(bs[0], n), SerializeAll(bs[1..], n);
    TakeHostFrame(a, bs[0], n);
    SplitBlocks(a, x, y);
    if |bs| > 1 {
      HostFramesBecomeBlocks(State(Sent(bs[0], n), true), bs[1..], n);
      assert bs[..|bs| - 1][1..] == bs[1..][..|bs| - 2];
    } else {
      assert y == [];
    }
  }
}
