/**
 The frame-atomic transmit arbiter in front of the MAC, and the transmit-timestamp
 latch behind it.
 */
module Arbiter {
  import opened Bytes

  /** A beat on the MAC side, tagged with the source that supplied it. */
  datatype Tagged = Tagged(src: nat, beat: Beat)

  /** `sel` and `busy` of the arbiter, `tx_sof` and `tx_active` of the timestamp logic. */
  datatype Regs = Regs(sel: nat, busy: bool, sof: bool, active: bool)

  const RESET := Regs(0, false, false, false)

  /** One clock: what each source drives (None: valid low) and whether the MAC is ready. */
  datatype Input = Input(offers: seq<Option<Beat>>, ready: bool)

  predicate AnyValid(offers: seq<Option<Beat>>) {
    exists k :: 0 <= k < |offers| && offers[k].Some?
  }

  /** The source that wins an idle arbiter: the first valid one in list order. */
  ghost predicate Wins(offers: seq<Option<Beat>>, w: nat) {
    && w < |offers| && offers[w].Some?
    && forall k :: 0 <= k < w ==> offers[k].None?
  }

  function FirstValid(offers: seq<Option<Beat>>, k: nat): (w: nat)
    requires k <= |offers|
    requires forall j :: 0 <= j < k ==> offers[j].None?
    ensures AnyValid(offers) ==> Wins(offers, w)
    decreases |offers| - k
  {
    if k == |offers| then 0
    else if offers[k].Some? then k else FirstValid(offers, k + 1)
  }

  predicate Granted(r: Regs, j: nat) { r.busy && r.sel == j }

  /** The combinational output towards the MAC. */
  function Output(r: Regs, i: Input): Option<Beat> {
    if r.busy && r.sel < |i.offers| then i.offers[r.sel] else None
  }

  /** `ready` as source j sees it. */
  predicate ReadyOf(r: Regs, i: Input, j: nat) { Granted(r, j) && i.ready }

  /** The beat that crosses to the MAC in this clock, if any. */
  function Transfer(r: Regs, i: Input): Option<Tagged> {
    if i.ready && Output(r, i).Some? then Some(Tagged(r.sel, Output(r, i).value)) else None
  }

  function Next(r: Regs, i: Input): Regs {
    var t := Transfer(r, i);
    var ends := t.Some? && t.value.beat.last;
    Regs(
      if !r.busy && AnyValid(i.offers) then FirstValid(i.offers, 0) else r.sel,
      if !r.busy then AnyValid(i.offers) else !ends,
      t.Some? && !r.active,
      if t.None? then r.active else !ends)
  }

  /** tx_latch: start of frame, gated to source 0. */
  predicate Latch(r: Regs) { r.sof && Granted(r, 0) }

  class TXFrameArbiter {
    var sel: nat
    var busy: bool
    var txSof: bool
    var txActive: bool

    ghost function Registers(): Regs
      reads this
    {
      Regs(sel, busy, txSof, txActive)
    }

    constructor ()
      ensures Registers() == RESET
    {
      sel, busy, txSof, txActive := 0, false, false, false;
    }

    /** One clock. `out` is what the MAC sees, `readies` what each source sees, `latch` the timestamp strobe. */
    method Clock(offers: seq<Option<Beat>>, ready: bool) returns (out: Option<Beat>, readies: seq<bool>, latch: bool)
      modifies this
      ensures |readies| == |offers|
      ensures forall j :: 0 <= j < |offers| ==> readies[j] == ReadyOf(old(Registers()), Input(offers, ready), j)
      ensures out == Output(old(Registers()), Input(offers, ready))
      ensures latch == Latch(old(Registers()))
      ensures Registers() == Next(old(Registers()), Input(offers, ready))
    {
      latch := txSof && busy && sel == 0;
      out := None;
      if busy && sel < |offers| {
        out := offers[sel];
      }
      var granted, holds := sel, busy;
      readies := seq(|offers|, j => holds && granted == j && ready);

      // Priority encoder: walk high to low so that the lowest valid index is left.
      var nextSel, anyValid := 0, false;
      for k := |offers| downto 0
        invariant anyValid <==> exists j :: k <= j < |offers| && offers[j].Some?
        invariant anyValid ==> k <= nextSel < |offers| && offers[nextSel].Some?
        invariant anyValid ==> forall j :: k <= j < nextSel ==> offers[j].None?
      {
        if offers[k].Some? {
          nextSel, anyValid := k, true;
        }
      }

      var fire := out.Some? && ready;
      if fire {
        if !txActive {
          txSof, txActive := true, true;
        } else {
          txSof := false;
        }
        if out.value.last {
          txActive := false;
        }
      } else {
        txSof := false;
      }

      if !busy {
        if anyValid {
          assert Wins(offers, nextSel) && Wins(offers, FirstValid(offers, 0));
          sel, busy := nextSel, true;
        }
      } else if fire && out.value.last {
        busy := false;
      }
    }
  }

  // ---------------------------------------------------------------------------
  // Whole runs
  // ---------------------------------------------------------------------------

  function RunRegs(r: Regs, ins: seq<Input>): Regs
    decreases |ins|
  {
    if ins == [] then r else RunRegs(Next(r, ins[0]), ins[1..])
  }

  function Opt<T>(o: Option<T>): seq<T> {
    if o.Some? then [o.value] else []
  }

  /** Every beat the MAC took, in order. */
  function RunLog(log: seq<Tagged>, r: Regs, ins: seq<Input>): seq<Tagged>
    decreases |ins|
  {
    if ins == [] then log else RunLog(log + Opt(Transfer(r, ins[0])), Next(r, ins[0]), ins[1..])
  }

  /** What source j hands over in one clock. */
  function Taken(r: Regs, i: Input, j: nat): seq<Beat> {
    if j < |i.offers| && ReadyOf(r, i, j) then Opt(i.offers[j]) else []
  }

  /** Every beat source j handed over on its own valid/ready handshake, in order. */
  function RunAccepted(acc: seq<Beat>, r: Regs, ins: seq<Input>, j: nat): seq<Beat>
    decreases |ins|
  {
    if ins == [] then acc else RunAccepted(acc + Taken(r, ins[0], j), Next(r, ins[0]), ins[1..], j)
  }

  function RunLatches(count: nat, r: Regs, ins: seq<Input>): nat
    decreases |ins|
  {
    if ins == [] then count
    else RunLatches(count + if Latch(r) then 1 else 0, Next(r, ins[0]), ins[1..])
  }

  /** The beats of one source, in the order they crossed. */
  function Select(log: seq<Tagged>, j: nat): seq<Beat>
    decreases |log|
  {
    if log == [] then []
    else Select(log[..|log| - 1], j) + if log[|log| - 1].src == j then [log[|log| - 1].beat] else []
  }

  lemma SelectAppend(log: seq<Tagged>, t: Tagged, j: nat)
    ensures Select(log + [t], j) == Select(log, j) + if t.src == j then [t.beat] else []
  {
    assert (log + [t])[..|log|] == log;
  }

  /** One clock moves on the bus what the selected source hands over, and nothing else. */
  lemma TransferIsTaken(log: seq<Tagged>, r: Regs, i: Input, j: nat)
    ensures Select(log + Opt(Transfer(r, i)), j) == Select(log, j) + Taken(r, i, j)
  {
    var t := Transfer(r, i);
    if t.Some? {
      SelectAppend(log, t.value, j);
    } else {
      assert log + [] == log;
    }
  }

  /** No source loses, duplicates or reorders a beat: the MAC sees exactly what was handed over. */
  lemma {:induction false} NothingLost(log: seq<Tagged>, acc: seq<Beat>, r: Regs, ins: seq<Input>, j: nat)
    requires Select(log, j) == acc
    ensures Select(RunLog(log, r, ins), j) == RunAccepted(acc, r, ins, j)
    decreases |ins|
  {
    if ins != [] {
      TransferIsTaken(log, r, ins[0], j);
      NothingLost(log + Opt(Transfer(r, ins[0])), acc + Taken(r, ins[0], j), Next(r, ins[0]), ins[1..], j);
    }
  }

  predicate MidFrame(log: seq<Tagged>) { log != [] && !log[|log| - 1].beat.last }

  /** A beat that is not the last of its frame is followed by a beat of the same source. */
  ghost predicate FrameAtomic(log: seq<Tagged>) {
    forall k :: 0 < k < |log| && !log[k - 1].beat.last ==> log[k].src == log[k - 1].src
  }

  /** Frames of source 0 that have more than one beat, counted when they start. */
  ghost function FirmwareStarts(log: seq<Tagged>): nat
    decreases |log|
  {
    if log == [] then 0
    else
      var prefix, t := log[..|log| - 1], log[|log| - 1];
      FirmwareStarts(prefix) + if !MidFrame(prefix) && t.src == 0 && !t.beat.last then 1 else 0
  }

  ghost predicate Inv(r: Regs, log: seq<Tagged>, latches: nat) {
    && FrameAtomic(log)
    && (MidFrame(log) ==> r.busy && r.sel == log[|log| - 1].src)
    && (r.active <==> MidFrame(log))
    && (r.sof && r.busy ==> MidFrame(log))
    && latches + (if Latch(r) then 1 else 0) == FirmwareStarts(log)
  }

  lemma InvKept(r: Regs, log: seq<Tagged>, latches: nat, i: Input)
    requires Inv(r, log, latches)
    ensures Inv(Next(r, i), log + Opt(Transfer(r, i)), latches + if Latch(r) then 1 else 0)
  {
    var t := Transfer(r, i);
    if t.Some? {
      assert (log + [t.value])[..|log|] == log;
    } else {
      assert log + [] == log;
    }
  }

  lemma {:induction false} InvOnRuns(r: Regs, log: seq<Tagged>, latches: nat, ins: seq<Input>)
    requires Inv(r, log, latches)
    ensures Inv(RunRegs(r, ins), RunLog(log, r, ins), RunLatches(latches, r, ins))
    decreases |ins|
  {
    if ins != [] {
      InvKept(r, log, latches, ins[0]);
      InvOnRuns(Next(r, ins[0]), log + Opt(Transfer(r, ins[0])),
                latches + (if Latch(r) then 1 else 0), ins[1..]);
    }
  }

  /** From reset, under any offers and any back-pressure, frames are never interleaved. */
  lemma FramesStayWhole(ins: seq<Input>)
    ensures FrameAtomic(RunLog([], RESET, ins))
  {
    InvOnRuns(RESET, [], 0, ins);
  }

  /**
   From reset: the timestamp latch has fired once for every firmware frame of two
   or more beats, the one started in the previous clock still pending, and for
   nothing else - neither an AAF frame nor a one-beat firmware frame.
   */
  lemma OneLatchPerFirmwareFrame(ins: seq<Input>)
    ensures var r := RunRegs(RESET, ins);
            RunLatches(0, RESET, ins) + (if Latch(r) then 1 else 0) == FirmwareStarts(RunLog([], RESET, ins))
  {
    InvOnRuns(RESET, [], 0, ins);
  }

  // ---------------------------------------------------------------------------
  // Latency of source 0
  // ---------------------------------------------------------------------------

  /** Source 0 holds valid high throughout. */
  ghost predicate Waiting(ins: seq<Input>) {
    forall k :: 0 <= k < |ins| ==> ins[k].offers != [] && ins[k].offers[0].Some?
  }

  ghost function FramesEnded(log: seq<Tagged>): nat
    decreases |log|
  {
    if log == [] then 0
    else FramesEnded(log[1..]) + if log[0].beat.last then 1 else 0
  }

  ghost function Log(r: Regs, ins: seq<Input>): seq<Tagged>
    decreases |ins|
  {
    if ins == [] then [] else Opt(Transfer(r, ins[0])) + Log(Next(r, ins[0]), ins[1..])
  }

  lemma {:induction false} LogIsRunLog(log: seq<Tagged>, r: Regs, ins: seq<Input>)
    ensures RunLog(log, r, ins) == log + Log(r, ins)
    decreases |ins|
  {
    if ins != [] {
      LogIsRunLog(log + Opt(Transfer(r, ins[0])), Next(r, ins[0]), ins[1..]);
    }
  }

  /**
   While source 0 waits and has not moved a beat, at most the one frame in flight
   when it began to wait can end; an idle arbiter lets no other frame in.
   */
  lemma {:induction false} FirmwareWaitsForOneFrame(r: Regs, ins: seq<Input>)
    requires Waiting(ins)
    requires forall t :: t in Log(r, ins) ==> t.src != 0
    ensures FramesEnded(Log(r, ins)) <= if r.busy && r.sel != 0 then 1 else 0
    ensures !r.busy || r.sel == 0 ==> Log(r, ins) == []
    decreases |ins|
  {
    if ins != [] {
      var i, n := ins[0], Next(r, ins[0]);
      var t := Transfer(r, i);
      var rest := Log(n, ins[1..]);
      assert Log(r, ins) == Opt(t) + rest;
      forall u | u in rest
        ensures u.src != 0
      {
        assert u in Log(r, ins);
      }
      if !r.busy {
        assert Wins(i.offers, 0) && Wins(i.offers, FirstValid(i.offers, 0));
        assert n.busy && n.sel == 0;
      }
      if t.Some? {
        assert t.value in Log(r, ins);
        assert ([t.value] + rest)[1..] == rest;
      } else {
        assert Opt(t) + rest == rest;
      }
      FirmwareWaitsForOneFrame(n, ins[1..]);
      assert FramesEnded([]) == 0;
    }
  }

  /** An idle arbiter grants the first source in list order that has something, at once. */
  lemma IdleGrantsFirst(r: Regs, i: Input, j: nat)
    requires !r.busy && j < |i.offers| && i.offers[j].Some?
    ensures var n := Next(r, i); n.busy && n.sel <= j && i.offers[n.sel].Some?
    ensures forall k :: 0 <= k < Next(r, i).sel ==> i.offers[k].None?
  {
    assert Wins(i.offers, FirstValid(i.offers, 0));
  }

  /** In the clock after it is granted, source 0 moves as soon as the MAC is ready. */
  lemma GrantedFirmwareMoves(r: Regs, i: Input)
    requires i.offers != [] && i.offers[0].Some?
    ensures !r.busy ==> Granted(Next(r, i), 0)
    ensures Granted(r, 0) && i.ready ==> Transfer(r, i) == Some(Tagged(0, i.offers[0].value))
  {
    if !r.busy {
      assert Wins(i.offers, 0) && Wins(i.offers, FirstValid(i.offers, 0));
    }
  }
}
