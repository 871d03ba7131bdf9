/**
 The listener side of ACMP in firmware/avdecc.c: immediate and deferred CONNECT_RX (section 8.2.2 of
 IEEE 1722.1-2013), the answer of the talker, and the timeout of the poll.
 */
module Acmp {
  import opened Bytes

  type EntityId = Eui64

  const ZERO_ID: EntityId := [0, 0, 0, 0, 0, 0, 0, 0]
  const ZERO_MAC: Mac := [0, 0, 0, 0, 0, 0]

  const LISTENERS := 2
  const TIMEOUT := 1500
  const WRAP_GUARD := 2_000_000_000

  const SUCCESS := 0
  const LISTENER_UNKNOWN_ID := 1
  const TALKER_UNKNOWN_ID := 2
  const LISTENER_TALKER_TIMEOUT := 7

  const FAST_CONNECT_AND_SAVED_STATE := 6
  const DEFAULT_VLAN := 2

  /** The fields of an ACMPDU. */
  datatype Pdu = Pdu(status: nat, streamId: EntityId, controller: EntityId, talker: EntityId, listener: EntityId,
                     tuid: nat, luid: nat, destMac: Mac, connCount: nat, seqId: nat, flags: nat, vlan: nat)

  /** What this endpoint sends. */
  datatype Message =
    | ConnectTxCommand(pdu: Pdu)
    | ConnectRxResponse(pdu: Pdu)
    | DisconnectRxResponse(pdu: Pdu)

  /** A connection waiting for the talker. */
  datatype Resolve = Resolve(active: bool, luid: nat, ourSeq: nat, controller: EntityId, ctrlSeq: nat,
                             talker: EntityId, tuid: nat, start: Word32)

  datatype Stream = Stream(connected: bool, talker: EntityId, tuid: nat, streamId: EntityId, destMac: Mac,
                           count: nat, vlan: nat)

  type Resolves = s: seq<Resolve> | |s| == LISTENERS witness NoResolves()

  type Streams = s: seq<Stream> | |s| == LISTENERS witness NoStreams()

  function NoResolves(): seq<Resolve> {
    var r := Resolve(false, 0, 0, ZERO_ID, 0, ZERO_ID, 0, 0);
    [r, r]
  }

  function NoStreams(): seq<Stream> {
    var l := Stream(false, ZERO_ID, 0, ZERO_ID, ZERO_MAC, 0, 0);
    [l, l]
  }

  datatype State = State(resolves: Resolves, streams: Streams, nextSeq: nat)

  datatype Effect = Effect(st: State, sent: seq<Message>)

  // ---------------------------------------------------------------------------
  // Operations
  // ---------------------------------------------------------------------------

  /** A response to a command on a listener: its connection count, and the binding while connected. */
  function Echo(streams: Streams, cmd: Pdu, status: nat): Pdu {
    if cmd.luid >= LISTENERS then cmd.(status := status)
    else
      var l := streams[cmd.luid];
      if !l.connected then cmd.(status := status, connCount := l.count)
      else cmd.(status := status, connCount := l.count, talker := l.talker, tuid := l.tuid, streamId := l.streamId,
                destMac := l.destMac, vlan := if l.vlan != 0 then l.vlan else DEFAULT_VLAN,
                flags := FAST_CONNECT_AND_SAVED_STATE)
  }

  /** The controller named a talker but neither the stream nor its address. */
  predicate Deferred(cmd: Pdu) {
    cmd.luid < LISTENERS && cmd.streamId == ZERO_ID && cmd.destMac == ZERO_MAC && cmd.talker != ZERO_ID
  }

  function Query(self: EntityId, r: Resolve): Message {
    ConnectTxCommand(Pdu(SUCCESS, ZERO_ID, self, r.talker, self, r.tuid, r.luid, ZERO_MAC, 0, r.ourSeq, 0, 0))
  }

  function Bind(l: Stream, talker: EntityId, tuid: nat, streamId: EntityId, destMac: Mac): Stream {
    l.(connected := true, talker := talker, tuid := tuid, streamId := streamId, destMac := destMac,
        count := U16(l.count + 1))
  }

  function ConnectRx(self: EntityId, st: State, cmd: Pdu, now: Word32): Effect {
    if cmd.luid >= LISTENERS then Effect(st, [ConnectRxResponse(Echo(st.streams, cmd, LISTENER_UNKNOWN_ID))])
    else if Deferred(cmd) then
      var r := Resolve(true, cmd.luid, st.nextSeq, cmd.controller, cmd.seqId, cmd.talker, cmd.tuid, now);
      Effect(st.(resolves := st.resolves[cmd.luid := r], nextSeq := U16(st.nextSeq + 1)), [Query(self, r)])
    else if cmd.talker == ZERO_ID then
      Effect(st, [ConnectRxResponse(Echo(st.streams, cmd, TALKER_UNKNOWN_ID))])
    else
      var l := Bind(st.streams[cmd.luid], cmd.talker, cmd.tuid, cmd.streamId, cmd.destMac);
      var streams := st.streams[cmd.luid := l];
      Effect(st.(streams := streams), [ConnectRxResponse(Echo(streams, cmd, SUCCESS))])
  }

  /** The deferred answer to the controller that asked. */
  function Answer(self: EntityId, r: Resolve, streams: Streams, status: nat, streamId: EntityId, destMac: Mac,
      vlan: nat): Message
    requires r.luid < LISTENERS
  {
    ConnectRxResponse(Pdu(status, streamId, r.controller, r.talker, self, r.tuid, r.luid, destMac,
                          streams[r.luid].count, r.ctrlSeq, 0, vlan))
  }

  predicate Awaits(r: Resolve, seqId: nat) { r.active && r.ourSeq == seqId }

  /** The first resolve, from index i, that awaits a response with this sequence id. */
  function MatchFrom(rs: Resolves, seqId: nat, i: nat): (k: nat)
    requires i <= LISTENERS
    ensures i <= k <= LISTENERS && (k < LISTENERS ==> Awaits(rs[k], seqId))
    ensures forall j :: i <= j < k ==> !Awaits(rs[j], seqId)
    decreases LISTENERS - i
  {
    if i == LISTENERS || Awaits(rs[i], seqId) then i else MatchFrom(rs, seqId, i + 1)
  }

  /** Every active resolve is kept at the index of its listener. */
  predicate Placed(rs: Resolves) { forall i :: 0 <= i < LISTENERS && rs[i].active ==> rs[i].luid == i }

  function TxResponse(self: EntityId, st: State, pdu: Pdu): Effect
    requires Placed(st.resolves)
  {
    var k := MatchFrom(st.resolves, pdu.seqId, 0);
    if pdu.listener != self || k == LISTENERS then Effect(st, [])
    else
      var r := st.resolves[k];
      var bound := Bind(st.streams[k], r.talker, r.tuid, pdu.streamId, pdu.destMac).(vlan := pdu.vlan);
      var streams := if pdu.status == SUCCESS then st.streams[k := bound] else st.streams;
      Effect(st.(streams := streams, resolves := st.resolves[k := r.(active := false)]),
             [Answer(self, r, streams, pdu.status, pdu.streamId, pdu.destMac, pdu.vlan)])
  }

  /** A second and a half without an answer; a difference past the guard counts as a wrap. */
  predicate TimedOut(r: Resolve, now: Word32) { r.active && TIMEOUT <= U32(now - r.start) <= WRAP_GUARD }

  function Expire(self: EntityId, st: State, i: nat, now: Word32): Effect
    requires i < LISTENERS && Placed(st.resolves)
  {
    var r := st.resolves[i];
    if TimedOut(r, now) then
      Effect(st.(resolves := st.resolves[i := r.(active := false)]),
             [Answer(self, r, st.streams, LISTENER_TALKER_TIMEOUT, ZERO_ID, ZERO_MAC, 0)])
    else Effect(st, [])
  }

  /** The poll looks at the first n listeners in order. */
  function Poll(self: EntityId, st: State, now: Word32, n: nat): (e: Effect)
    requires n <= LISTENERS && Placed(st.resolves)
    ensures Placed(e.st.resolves)
  {
    if n == 0 then Effect(st, [])
    else
      var e := Poll(self, st, now, n - 1);
      var f := Expire(self, e.st, n - 1, now);
      Effect(f.st, e.sent + f.sent)
  }

  function DisconnectRx(st: State, cmd: Pdu): Effect {
    if cmd.luid >= LISTENERS then Effect(st, [DisconnectRxResponse(Echo(st.streams, cmd, SUCCESS))])
    else
      var l := st.streams[cmd.luid];
      var streams := st.streams[cmd.luid := l.(connected := false, count := if l.count > 0 then l.count - 1 else 0)];
      Effect(st.(streams := streams), [DisconnectRxResponse(Echo(streams, cmd, SUCCESS))])
  }

  // ---------------------------------------------------------------------------
  // In place
  // ---------------------------------------------------------------------------

  class AvdeccState {
    const entityId: EntityId
    const resolves: array<Resolve>
    const listeners: array<Stream>
    var nextAcmpSeq: nat
    /** Everything handed to the MAC so far. */
    var transmitted: seq<Message>

    predicate Valid()
      reads this, resolves, listeners
    {
      resolves.Length == LISTENERS && listeners.Length == LISTENERS && Placed(resolves[..])
    }

    function Snapshot(): State
      requires resolves.Length == LISTENERS && listeners.Length == LISTENERS
      reads this, resolves, listeners
    {
      State(resolves[..], listeners[..], nextAcmpSeq)
    }

    constructor (id: EntityId)
      ensures Valid() && fresh(resolves) && fresh(listeners) && entityId == id
      ensures Snapshot() == State(NoResolves(), NoStreams(), 0) && transmitted == []
    {
      entityId := id;
      resolves := new Resolve[LISTENERS](_ => Resolve(false, 0, 0, ZERO_ID, 0, ZERO_ID, 0, 0));
      listeners := new Stream[LISTENERS](_ => Stream(false, ZERO_ID, 0, ZERO_ID, ZERO_MAC, 0, 0));
      nextAcmpSeq, transmitted := 0, [];
      new;
      assert resolves[..] == NoResolves() && listeners[..] == NoStreams();
    }

    method Send(m: Message)
      modifies this`transmitted
      ensures transmitted == old(transmitted) + [m]
    {
      transmitted := transmitted + [m];
    }

    method HandleConnectRx(cmd: Pdu, now: Word32)
      requires Valid()
      modifies this`nextAcmpSeq, this`transmitted, resolves, listeners
      ensures Valid()
      ensures var e := ConnectRx(entityId, old(Snapshot()), cmd, now);
              Snapshot() == e.st && transmitted == old(transmitted) + e.sent
    {
      if cmd.luid >= LISTENERS {
        Send(ConnectRxResponse(Echo(listeners[..], cmd, LISTENER_UNKNOWN_ID)));
        return;
      }
      if cmd.streamId == ZERO_ID && cmd.destMac == ZERO_MAC && cmd.talker != ZERO_ID {
        var r := Resolve(true, cmd.luid, nextAcmpSeq, cmd.controller, cmd.seqId, cmd.talker, cmd.tuid, now);
        resolves[cmd.luid] := r;
        nextAcmpSeq := U16(nextAcmpSeq + 1);
        Send(Query(entityId, r));
        return;
      }
      if cmd.talker == ZERO_ID {
        Send(ConnectRxResponse(Echo(listeners[..], cmd, TALKER_UNKNOWN_ID)));
        return;
      }
      listeners[cmd.luid] := Bind(listeners[cmd.luid], cmd.talker, cmd.tuid, cmd.streamId, cmd.destMac);
      Send(ConnectRxResponse(Echo(listeners[..], cmd, SUCCESS)));
    }

    method HandleConnectTxResponse(pdu: Pdu)
      requires Valid()
      modifies this`transmitted, resolves, listeners
      ensures Valid()
      ensures var e := TxResponse(entityId, old(Snapshot()), pdu);
              Snapshot() == e.st && transmitted == old(transmitted) + e.sent
    {
      if pdu.listener != entityId {
        return;
      }
      ghost var rs: Resolves := resolves[..];
      var i := 0;
      while i < LISTENERS
        invariant 0 <= i <= LISTENERS && MatchFrom(rs, pdu.seqId, 0) == MatchFrom(rs, pdu.seqId, i)
        invariant Valid() && Snapshot() == old(Snapshot()) && transmitted == old(transmitted) && rs == resolves[..]
      {
        var r := resolves[i];
        if r.active && r.ourSeq == pdu.seqId {
          if pdu.status == SUCCESS {
            listeners[r.luid] := Bind(listeners[r.luid], r.talker, r.tuid, pdu.streamId,
                pdu.destMac).(vlan := pdu.vlan);
          }
          Send(Answer(entityId, r, listeners[..], pdu.status, pdu.streamId, pdu.destMac, pdu.vlan));
          resolves[i] := r.(active := false);
          return;
        }
        i := i + 1;
      }
    }

    /** The part of the poll that times out pending resolves. */
    method PollResolves(now: Word32)
      requires Valid()
      modifies this`transmitted, resolves
      ensures Valid()
      ensures var e := Poll(entityId, old(Snapshot()), now, LISTENERS);
              Snapshot() == e.st && transmitted == old(transmitted) + e.sent
    {
      for i := 0 to LISTENERS
        invariant Valid()
        invariant var e := Poll(entityId, old(Snapshot()), now, i);
                  Snapshot() == e.st && transmitted == old(transmitted) + e.sent
      {
        var r := resolves[i];
        if r.active {
          var age := U32(now - r.start);
          if age > WRAP_GUARD {
            age := 0;
          }
          if age >= TIMEOUT {
            Send(Answer(entityId, r, listeners[..], LISTENER_TALKER_TIMEOUT, ZERO_ID, ZERO_MAC, 0));
            resolves[i] := r.(active := false);
          }
        }
      }
    }

    method HandleDisconnectRx(cmd: Pdu)
      requires Valid()
      modifies this`transmitted, listeners
      ensures Valid()
      ensures var e := DisconnectRx(old(Snapshot()), cmd);
              Snapshot() == e.st && transmitted == old(transmitted) + e.sent
    {
      if cmd.luid < LISTENERS {
        var l := listeners[cmd.luid];
        listeners[cmd.luid] := l.(connected := false, count := if l.count > 0 then l.count - 1 else 0);
      }
      Send(DisconnectRxResponse(Echo(listeners[..], cmd, SUCCESS)));
    }

    /** The data-flow watchdog takes its sequence ids from the same counter. */
    method TakeSequenceId() returns (id: nat)
      requires Valid()
      modifies this`nextAcmpSeq
      ensures Valid() && id == old(nextAcmpSeq) && Snapshot() == old(Snapshot()).(nextSeq := U16(id + 1))
    {
      id := nextAcmpSeq;
      nextAcmpSeq := U16(nextAcmpSeq + 1);
    }
  }
}
