/**
 Runs of the ACMP listener: a ledger of deferred connections in which nothing is answered twice,
 forgotten or made up.
 */
module AcmpRuns {
  import opened Bytes
  import opened Acmp

  datatype Event =
    | GotConnectRx(cmd: Pdu, now: Word32)
    | GotTxResponse(pdu: Pdu)
    | GotDisconnectRx(cmd: Pdu)
    | Polled(now: Word32)
    | WatchdogCommand

  function Happens(self: EntityId, st: State, e: Event): Effect
    requires Placed(st.resolves)
  {
    match e
    case GotConnectRx(cmd, now) => ConnectRx(self, st, cmd, now)
    case GotTxResponse(pdu) => TxResponse(self, st, pdu)
    case GotDisconnectRx(cmd) => DisconnectRx(st, cmd)
    case Polled(now) => Poll(self, st, now, LISTENERS)
    case WatchdogCommand => Effect(st.(nextSeq := U16(st.nextSeq + 1)), [])
  }

  /** Who is to be answered: the controller, its own sequence id, and the listener it named. */
  datatype Origin = Origin(controller: EntityId, seqId: nat, luid: nat)

  function OfCommand(cmd: Pdu): Origin { Origin(cmd.controller, cmd.seqId, cmd.luid) }

  function OfResolve(r: Resolve): Origin { Origin(r.controller, r.ctrlSeq, r.luid) }

  function OfMessage(m: Message): Origin { Origin(m.pdu.controller, m.pdu.seqId, m.pdu.luid) }

  function OfMessages(ms: seq<Message>): multiset<Origin> {
    if ms == [] then multiset{} else OfMessages(ms[..|ms| - 1]) + multiset{OfMessage(ms[|ms| - 1])}
  }

  function PendingAt(r: Resolve): multiset<Origin> { if r.active then multiset{OfResolve(r)} else multiset{} }

  function Pending(rs: Resolves): multiset<Origin> { PendingAt(rs[0]) + PendingAt(rs[1]) }

  /**
   A query on the wire: the message sent, the command that made the listener send it and when it came,
   and the number of sequence ids taken before.
   */
  datatype Asked = Asked(query: Pdu, cmd: Pdu, at: Word32, serial: nat)

  /** What an observer of the traffic keeps about deferred connections. */
  datatype Ledger = Ledger(accepted: multiset<Origin>, superseded: multiset<Origin>, answered: multiset<Origin>,
                           asked: seq<Asked>, issued: nat)

  const OPENING := Ledger(multiset{}, multiset{}, multiset{}, [], 0)

  datatype Sys = Sys(st: State, h: Ledger)

  const START := Sys(State(NoResolves(), NoStreams(), 0), OPENING)

  /** A command is accepted for later when the listener sends a query to a talker instead of an answer. */
  predicate IsQuery(sent: seq<Message>) { |sent| == 1 && sent[0].ConnectTxCommand? }

  function Enter(h: Ledger, st: State, e: Event, sent: seq<Message>): Ledger {
    match e
    case GotConnectRx(cmd, now) =>
      if IsQuery(sent) then
        h.(accepted := h.accepted + multiset{OfCommand(cmd)},
           superseded := if cmd.luid < LISTENERS then h.superseded + PendingAt(st.resolves[cmd.luid])
                         else h.superseded,
           asked := h.asked + [Asked(sent[0].pdu, cmd, now, h.issued)], issued := h.issued + 1)
      else h
    case GotTxResponse(pdu) => h.(answered := h.answered + OfMessages(sent))
    case GotDisconnectRx(cmd) => h
    case Polled(now) => h.(answered := h.answered + OfMessages(sent))
    case WatchdogCommand => h.(issued := h.issued + 1)
  }

  function Step(self: EntityId, s: Sys, e: Event): Sys
    requires Placed(s.st.resolves)
  {
    var f := Happens(self, s.st, e);
    Sys(f.st, Enter(s.h, s.st, e, f.sent))
  }

  function Run(self: EntityId, es: seq<Event>): (s: Sys)
    ensures Placed(s.st.resolves)
    decreases |es|
  {
    if es == [] then START else Step(self, Run(self, es[..|es| - 1]), es[|es| - 1])
  }

  // ---------------------------------------------------------------------------
  // The books balance
  // ---------------------------------------------------------------------------

  predicate Balanced(h: Ledger, rs: Resolves) { h.accepted == h.answered + h.superseded + Pending(rs) }

  lemma PendingUpdate(rs: Resolves, i: nat, r: Resolve)
    requires i < LISTENERS
    ensures Pending(rs[i := r]) + PendingAt(rs[i]) == Pending(rs) + PendingAt(r)
  {
  }

  lemma OneMessage(m: Message)
    ensures OfMessages([m]) == multiset{OfMessage(m)}
  {
    assert [m][..0] == [];
  }

  lemma OneMessageMore(ms: seq<Message>, front: seq<Message>, m: Message)
    requires ms == front + [m]
    ensures OfMessages(ms) == OfMessages(front) + multiset{OfMessage(m)}
  {
    assert ms[..|ms| - 1] == front;
  }

  lemma Regroup(all: multiset<Origin>, a: multiset<Origin>, b: multiset<Origin>, c: multiset<Origin>,
      x: multiset<Origin>)
    requires all == (a + c) + x && b == c + x
    ensures all == a + b
  {
  }

  lemma LastOf(a: seq<Message>, b: seq<Message>)
    requires b != []
    ensures b == b[..|b| - 1] + [b[|b| - 1]] && a + b == (a + b[..|b| - 1]) + [b[|b| - 1]]
  {
  }

  lemma {:induction false} MessagesConcat(a: seq<Message>, b: seq<Message>)
    ensures OfMessages(a + b) == OfMessages(a) + OfMessages(b)
    decreases |b|
  {
    if b == [] {
      assert a + b == a;
    } else {
      var c, m := b[..|b| - 1], b[|b| - 1];
      LastOf(a, b);
      MessagesConcat(a, c);
      LastMessage(a, b, c, m);
    }
  }

  lemma LastMessage(a: seq<Message>, b: seq<Message>, c: seq<Message>, m: Message)
    requires a + b == (a + c) + [m] && b == c + [m] && OfMessages(a + c) == OfMessages(a) + OfMessages(c)
    ensures OfMessages(a + b) == OfMessages(a) + OfMessages(b)
  {
    OneMessageMore(a + b, a + c, m);
    OneMessageMore(b, c, m);
    Regroup(OfMessages(a + b), OfMessages(a), OfMessages(b), OfMessages(c), multiset{OfMessage(m)});
  }

  lemma Combine(a: multiset<Origin>, b: multiset<Origin>, c: multiset<Origin>, x: multiset<Origin>, y: multiset<Origin>)
    requires a == b + x && b == c + y
    ensures a == c + (x + y)
  {
  }

  /** What leaves the pending connections is answered. */
  lemma Settled(h: Ledger, g: Ledger, p: multiset<Origin>, q: multiset<Origin>, out: multiset<Origin>)
    requires h.accepted == h.answered + h.superseded + p && p == q + out
    requires g.accepted == h.accepted && g.superseded == h.superseded && g.answered == h.answered + out
    ensures g.accepted == g.answered + g.superseded + q
  {
  }

  /** What enters them is accepted, and what it pushes out is superseded. */
  lemma Entered(h: Ledger, g: Ledger, p: multiset<Origin>, q: multiset<Origin>, entry: multiset<Origin>,
      lost: multiset<Origin>)
    requires h.accepted == h.answered + h.superseded + p && q + lost == p + entry
    requires g.accepted == h.accepted + entry && g.superseded == h.superseded + lost && g.answered == h.answered
    ensures g.accepted == g.answered + g.superseded + q
  {
    assert g.answered + g.superseded + q == h.answered + h.superseded + (q + lost);
  }

  /** A time-out answers exactly the connection it drops. */
  lemma ExpireSettles(self: EntityId, st: State, i: nat, now: Word32)
    requires i < LISTENERS && Placed(st.resolves)
    ensures var e := Expire(self, st, i, now);
            Pending(st.resolves) == Pending(e.st.resolves) + OfMessages(e.sent)
  {
    var r := st.resolves[i];
    if TimedOut(r, now) {
      PendingUpdate(st.resolves, i, r.(active := false));
      OneMessage(Answer(self, r, st.streams, LISTENER_TALKER_TIMEOUT, ZERO_ID, ZERO_MAC, 0));
    }
  }

  lemma {:induction false} PollSettles(self: EntityId, st: State, now: Word32, n: nat)
    requires n <= LISTENERS && Placed(st.resolves)
    ensures var e := Poll(self, st, now, n);
            Pending(st.resolves) == Pending(e.st.resolves) + OfMessages(e.sent)
  {
    if n > 0 {
      PollSettles(self, st, now, n - 1);
      var e := Poll(self, st, now, n - 1);
      ExpireSettles(self, e.st, n - 1, now);
      var f := Expire(self, e.st, n - 1, now);
      MessagesConcat(e.sent, f.sent);
      Combine(Pending(st.resolves), Pending(e.st.resolves), Pending(f.st.resolves), OfMessages(e.sent),
          OfMessages(f.sent));
    }
  }

  /** A response of the talker settles exactly the connection whose query it answers, if there is one. */
  lemma ResponseSettles(self: EntityId, st: State, pdu: Pdu)
    requires Placed(st.resolves)
    ensures var e := TxResponse(self, st, pdu);
            Pending(st.resolves) == Pending(e.st.resolves) + OfMessages(e.sent)
  {
    var k := MatchFrom(st.resolves, pdu.seqId, 0);
    if pdu.listener == self && k < LISTENERS {
      PendingUpdate(st.resolves, k, st.resolves[k].(active := false));
      OneMessage(TxResponse(self, st, pdu).sent[0]);
    }
  }

  lemma AcceptKeepsBalance(self: EntityId, s: Sys, cmd: Pdu, now: Word32)
    requires Placed(s.st.resolves) && Balanced(s.h, s.st.resolves) && Deferred(cmd)
    ensures var t := Step(self, s, GotConnectRx(cmd, now)); Balanced(t.h, t.st.resolves)
  {
    var t := Step(self, s, GotConnectRx(cmd, now));
    var r := t.st.resolves[cmd.luid];
    PendingUpdate(s.st.resolves, cmd.luid, r);
    Entered(s.h, t.h, Pending(s.st.resolves), Pending(t.st.resolves), PendingAt(r), PendingAt(s.st.resolves[cmd.luid]));
  }

  lemma SettlingKeepsBalance(self: EntityId, s: Sys, e: Event, t: Sys)
    requires Placed(s.st.resolves) && Balanced(s.h, s.st.resolves) && t == Step(self, s, e)
    requires e.GotTxResponse? || e.Polled?
    requires Pending(s.st.resolves) == Pending(t.st.resolves) + OfMessages(Happens(self, s.st, e).sent)
    ensures Balanced(t.h, t.st.resolves)
  {
    Settled(s.h, t.h, Pending(s.st.resolves), Pending(t.st.resolves), OfMessages(Happens(self, s.st, e).sent));
  }

  /** Events that concern no deferred connection. */
  predicate Unrelated(e: Event) {
    match e
    case GotConnectRx(cmd, now) => !Deferred(cmd)
    case GotDisconnectRx(cmd) => true
    case WatchdogCommand => true
    case _ => false
  }

  lemma UnrelatedKeepsBooks(self: EntityId, s: Sys, e: Event, t: Sys)
    requires Placed(s.st.resolves) && Unrelated(e) && t == Step(self, s, e)
    ensures t.st.resolves == s.st.resolves
    ensures t.h.accepted == s.h.accepted && t.h.superseded == s.h.superseded && t.h.answered == s.h.answered
  {
  }

  lemma BalanceKept(self: EntityId, s: Sys, e: Event, t: Sys)
    requires Placed(s.st.resolves) && Balanced(s.h, s.st.resolves) && t == Step(self, s, e)
    ensures Balanced(t.h, t.st.resolves)
  {
    if Unrelated(e) {
      UnrelatedKeepsBooks(self, s, e, t);
    } else if e.GotConnectRx? {
      AcceptKeepsBalance(self, s, e.cmd, e.now);
    } else {
      if e.GotTxResponse? {
        ResponseSettles(self, s.st, e.pdu);
      } else {
        PollSettles(self, s.st, e.now, LISTENERS);
      }
      SettlingKeepsBalance(self, s, e, t);
    }
  }

  /**
   In every run: accepted = answered + superseded by a newer command on that listener + pending, as
   multisets of (controller, its sequence id, listener). Hence every answer carries the ids of a
   command that was accepted, and no command is answered more often than it was accepted.
   */
  lemma {:induction false} BooksBalance(self: EntityId, es: seq<Event>)
    ensures var s := Run(self, es);
            Balanced(s.h, s.st.resolves) && s.h.answered <= s.h.accepted
    decreases |es|
  {
    if es != [] {
      BooksBalance(self, es[..|es| - 1]);
      BalanceKept(self, Run(self, es[..|es| - 1]), es[|es| - 1], Run(self, es));
    }
  }

  // ---------------------------------------------------------------------------
  // What a command is answered
  // ---------------------------------------------------------------------------

  predicate AllZero(s: seq<Byte>) { forall k :: 0 <= k < |s| ==> s[k] == 0 }

  /** The status a connect command is answered with at once, if it is. */
  function StatusFor(cmd: Pdu): nat { if cmd.luid >= 2 then 1 else if AllZero(cmd.talker) then 2 else 0 }

  /** A listener is bound to what the command names. */
  predicate BoundTo(l: Stream, was: Stream, talker: EntityId, tuid: nat, streamId: EntityId, destMac: Mac) {
    && l.connected && l.talker == talker && l.tuid == tuid && l.streamId == streamId && l.destMac == destMac
    && l.count == (was.count + 1) % 65536
  }

  /** A response says what its listener is bound to, if it is, and how often it was connected. */
  predicate Reports(m: Message, cmd: Pdu, streams: Streams) {
    && OfMessage(m) == OfCommand(cmd) && m.pdu.listener == cmd.listener
    && (cmd.luid < 2 ==> m.pdu.connCount == streams[cmd.luid].count)
    && (cmd.luid < 2 && streams[cmd.luid].connected ==>
          var l := streams[cmd.luid];
          && m.pdu.talker == l.talker && m.pdu.tuid == l.tuid && m.pdu.streamId == l.streamId
          && m.pdu.destMac == l.destMac && m.pdu.vlan == (if l.vlan == 0 then 2 else l.vlan) && m.pdu.flags == 6)
    && (cmd.luid < 2 && !streams[cmd.luid].connected ==>
          && m.pdu.talker == cmd.talker && m.pdu.tuid == cmd.tuid && m.pdu.streamId == cmd.streamId
          && m.pdu.destMac == cmd.destMac && m.pdu.vlan == cmd.vlan && m.pdu.flags == cmd.flags)
  }

  lemma ZeroIds(cmd: Pdu)
    ensures AllZero(cmd.streamId) <==> cmd.streamId == ZERO_ID
    ensures AllZero(cmd.talker) <==> cmd.talker == ZERO_ID
    ensures AllZero(cmd.destMac) <==> cmd.destMac == ZERO_MAC
  {
  }

  /**
   A connect command causes exactly one message. It is a query to the talker if and only if the
   listener exists and of stream, address and talker only the talker is given. Otherwise it is the
   response, and on success, and only then, the listener is bound to what the command names.
   */
  lemma ConnectIsAnsweredOrAsked(self: EntityId, st: State, cmd: Pdu, now: Word32)
    ensures var f := ConnectRx(self, st, cmd, now);
            && |f.sent| == 1
            && (f.sent[0].ConnectTxCommand? <==>
                  cmd.luid < 2 && AllZero(cmd.streamId) && AllZero(cmd.destMac) && !AllZero(cmd.talker))
            && (f.sent[0].ConnectTxCommand? ==> f.st.streams == st.streams)
            && (!f.sent[0].ConnectTxCommand? ==>
                  && f.sent[0].ConnectRxResponse? && f.sent[0].pdu.status == StatusFor(cmd)
                  && Reports(f.sent[0], cmd, f.st.streams)
                  && f.st.resolves == st.resolves && f.st.nextSeq == st.nextSeq
                  && (StatusFor(cmd) != 0 ==> f.st.streams == st.streams)
                  && forall i :: 0 <= i < 2 ==>
                       if StatusFor(cmd) == 0 && i == cmd.luid
                       then BoundTo(f.st.streams[i], st.streams[i], cmd.talker, cmd.tuid, cmd.streamId, cmd.destMac)
                       else f.st.streams[i] == st.streams[i])
  {
    ZeroIds(cmd);
  }

  /** A disconnect is always answered; it frees the listener, if there is one, and no other. */
  lemma DisconnectIsAnswered(st: State, cmd: Pdu)
    ensures var f := DisconnectRx(st, cmd);
            && |f.sent| == 1 && f.sent[0].DisconnectRxResponse? && f.sent[0].pdu.status == 0
            && Reports(f.sent[0], cmd, f.st.streams)
            && f.st.resolves == st.resolves && f.st.nextSeq == st.nextSeq
            && forall i :: 0 <= i < 2 ==>
                 if i == cmd.luid
                 then f.st.streams[i] == st.streams[i].(connected := false,
                        count := if st.streams[i].count == 0 then 0 else st.streams[i].count - 1)
                 else f.st.streams[i] == st.streams[i]
  {
  }

  // ---------------------------------------------------------------------------
  // Whose answer
  // ---------------------------------------------------------------------------

  /** The query for a command asks its talker, in the listener's own name, under its serial number. */
  ghost predicate AsksFor(self: EntityId, q: Asked) {
    && q.query.seqId == q.serial % 65536
    && q.query.controller == self && q.query.listener == self
    && q.query.talker == q.cmd.talker && q.query.tuid == q.cmd.tuid && q.query.luid == q.cmd.luid
    && AllZero(q.query.streamId) && AllZero(q.query.destMac)
  }

  /** The last query sent for listener i. */
  ghost predicate Latest(qs: seq<Asked>, k: nat, i: nat) {
    && k < |qs| && qs[k].cmd.luid == i
    && forall j :: k < j < |qs| ==> qs[j].cmd.luid != i
  }

  /** A pending resolve keeps what is needed to recognise and hand on the talker's answer. */
  ghost predicate Keeps(r: Resolve, q: Asked) {
    && r.ourSeq == q.query.seqId && r.luid == q.cmd.luid
    && r.controller == q.cmd.controller && r.ctrlSeq == q.cmd.seqId
    && r.talker == q.cmd.talker && r.tuid == q.cmd.tuid && r.start == q.at
  }

  /** Queries carry the serial numbers in order. */
  ghost predicate Numbered(self: EntityId, qs: seq<Asked>, issued: nat) {
    && (forall k :: 0 <= k < |qs| ==> AsksFor(self, qs[k]) && qs[k].serial < issued && qs[k].cmd.luid < LISTENERS)
    && (forall j, k :: 0 <= j < k < |qs| ==> qs[j].serial < qs[k].serial)
  }

  /** Every pending connection belongs to the last query sent for its listener. */
  ghost predicate Tracked(self: EntityId, st: State, h: Ledger) {
    && st.nextSeq == h.issued % 65536
    && Numbered(self, h.asked, h.issued)
    && (forall i :: 0 <= i < LISTENERS && st.resolves[i].active ==> OnRecord(h.asked, st.resolves[i], i))
  }

  ghost predicate OnRecord(qs: seq<Asked>, r: Resolve, i: nat) {
    exists k: nat :: Latest(qs, k, i) && Keeps(r, qs[k])
  }

  lemma RecordGrows(qs: seq<Asked>, q: Asked, r: Resolve, i: nat)
    requires OnRecord(qs, r, i) && q.cmd.luid != i
    ensures OnRecord(qs + [q], r, i)
  {
    var k: nat :| Latest(qs, k, i) && Keeps(r, qs[k]);
    assert (qs + [q])[k] == qs[k];
    assert Latest(qs + [q], k, i);
  }

  lemma Wrap16(n: nat)
    ensures U16(U16(n) + 1) == U16(n + 1)
  {
  }

  lemma TrackingKept(self: EntityId, s: Sys, e: Event)
    requires Placed(s.st.resolves) && Tracked(self, s.st, s.h)
    ensures var t := Step(self, s, e); Tracked(self, t.st, t.h)
  {
    Wrap16(s.h.issued);
    match e
    case GotConnectRx(cmd, now) =>
      if Deferred(cmd) {
        QueryRecorded(self, s, cmd, now, Step(self, s, e));
      }
    case GotTxResponse(pdu) =>
    case GotDisconnectRx(cmd) =>
    case Polled(now) => PollExactly(self, s.st, now);
    case WatchdogCommand =>
  }

  lemma QueryRecorded(self: EntityId, s: Sys, cmd: Pdu, now: Word32, t: Sys)
    requires Placed(s.st.resolves) && Tracked(self, s.st, s.h) && Deferred(cmd)
    requires t == Step(self, s, GotConnectRx(cmd, now))
    ensures Tracked(self, t.st, t.h)
  {
    Wrap16(s.h.issued);
    var r := t.st.resolves[cmd.luid];
    var q := Asked(Query(self, r).pdu, cmd, now, s.h.issued);
    assert t.h.asked == s.h.asked + [q];
    assert AsksFor(self, q) && Keeps(r, q);
    forall i | 0 <= i < LISTENERS && t.st.resolves[i].active
      ensures OnRecord(t.h.asked, t.st.resolves[i], i)
    {
      if i == cmd.luid {
        assert Latest(t.h.asked, |s.h.asked|, i);
      } else {
        RecordGrows(s.h.asked, q, s.st.resolves[i], i);
      }
    }
  }

  /**
   In every run the queries on the wire are those of the accepted commands, under serial numbers that
   grow, and each pending connection waits for the answer to the last one sent for its listener.
   */
  lemma {:induction false} QueriesOnTheWire(self: EntityId, es: seq<Event>)
    ensures var s := Run(self, es); Tracked(self, s.st, s.h)
    decreases |es|
  {
    if es != [] {
      QueriesOnTheWire(self, es[..|es| - 1]);
      TrackingKept(self, Run(self, es[..|es| - 1]), es[|es| - 1]);
    }
  }

  lemma SameSerial(self: EntityId, qs: seq<Asked>, issued: nat, j: nat, k: nat)
    requires j < |qs| && k < |qs| && issued <= 65536 && Numbered(self, qs, issued)
    requires qs[j].query.seqId == qs[k].query.seqId
    ensures j == k
  {
    assert AsksFor(self, qs[j]) && AsksFor(self, qs[k]);
    assert qs[j].serial == qs[k].serial;
  }

  /** The k-th query is the last for its listener and its answer is still awaited. */
  ghost predicate Waiting(s: Sys, k: nat) {
    k < |s.h.asked| && s.h.asked[k].cmd.luid < LISTENERS && s.st.resolves[s.h.asked[k].cmd.luid].active
        && Latest(s.h.asked, k, s.h.asked[k].cmd.luid)
  }

  /** The talker's response answers the controller's command and, on success, binds the listener it named. */
  ghost predicate Settles(self: EntityId, st: State, pdu: Pdu, cmd: Pdu, f: Effect) {
    && cmd.luid < LISTENERS && |f.sent| == 1 && f.sent[0].ConnectRxResponse?
    && OfMessage(f.sent[0]) == OfCommand(cmd)
    && f.sent[0].pdu.talker == cmd.talker && f.sent[0].pdu.tuid == cmd.tuid && f.sent[0].pdu.listener == self
    && f.sent[0].pdu.status == pdu.status && f.sent[0].pdu.streamId == pdu.streamId
    && f.sent[0].pdu.destMac == pdu.destMac && f.sent[0].pdu.vlan == pdu.vlan
    && f.sent[0].pdu.connCount == f.st.streams[cmd.luid].count
    && !f.st.resolves[cmd.luid].active
    && (forall i :: 0 <= i < LISTENERS && i != cmd.luid ==>
          f.st.streams[i] == st.streams[i] && f.st.resolves[i] == st.resolves[i])
    && if pdu.status == 0 then
         var l := f.st.streams[cmd.luid];
         && BoundTo(l, st.streams[cmd.luid], cmd.talker, cmd.tuid, pdu.streamId, pdu.destMac) && l.vlan == pdu.vlan
       else f.st.streams == st.streams
  }

  /** A response is taken by the first resolve that awaits its sequence id. */
  lemma AnswerSettles(self: EntityId, st: State, pdu: Pdu, i: nat, q: Asked)
    requires Placed(st.resolves) && i < LISTENERS && pdu.listener == self && q.cmd.luid == i
    requires st.resolves[i].active && st.resolves[i].ourSeq == pdu.seqId && Keeps(st.resolves[i], q)
    requires forall j :: 0 <= j < LISTENERS && j != i && st.resolves[j].active ==> st.resolves[j].ourSeq != pdu.seqId
    ensures Settles(self, st, pdu, q.cmd, TxResponse(self, st, pdu))
  {
    var k := MatchFrom(st.resolves, pdu.seqId, 0);
    assert k == i;
  }

  /** Without a wrap, no two pending connections await the same sequence id. */
  lemma OneAwaits(self: EntityId, s: Sys, i: nat, j: nat)
    requires Tracked(self, s.st, s.h) && s.h.issued <= 65536 && i < LISTENERS && j < LISTENERS
    requires s.st.resolves[i].active && s.st.resolves[j].active && s.st.resolves[i].ourSeq == s.st.resolves[j].ourSeq
    ensures i == j
  {
    var a: nat :| Latest(s.h.asked, a, i) && Keeps(s.st.resolves[i], s.h.asked[a]);
    var b: nat :| Latest(s.h.asked, b, j) && Keeps(s.st.resolves[j], s.h.asked[b]);
    SameSerial(self, s.h.asked, s.h.issued, a, b);
  }

  /**
   While the 16-bit counter has not wrapped: a response makes the listener act if and only if it is
   addressed to it and carries the sequence id of a query on the wire whose answer is awaited. It then
   answers the controller whose command that query was sent for, under the controller's own sequence id,
   hands on the talker's status, stream, address and VLAN, and on success binds the listener to them.
   No other query carried that sequence id.
   */
  lemma AnswerBelongsToQuery(self: EntityId, es: seq<Event>, pdu: Pdu, s: Sys, f: Effect)
    requires s == Run(self, es) && s.h.issued <= 65536 && f == TxResponse(self, s.st, pdu)
    ensures f.sent != [] <==>
              pdu.listener == self && exists k: nat :: Waiting(s, k) && s.h.asked[k].query.seqId == pdu.seqId
    ensures f.sent == [] ==> f.st == s.st
    ensures forall k: nat :: pdu.listener == self && Waiting(s, k) && s.h.asked[k].query.seqId == pdu.seqId ==>
              && Settles(self, s.st, pdu, s.h.asked[k].cmd, f)
              && forall j :: 0 <= j < |s.h.asked| && s.h.asked[j].query.seqId == pdu.seqId ==> j == k
  {
    QueriesOnTheWire(self, es);
    forall k: nat | pdu.listener == self && Waiting(s, k) && s.h.asked[k].query.seqId == pdu.seqId
      ensures Settles(self, s.st, pdu, s.h.asked[k].cmd, f)
      ensures forall j :: 0 <= j < |s.h.asked| && s.h.asked[j].query.seqId == pdu.seqId ==> j == k
    {
      EchoSettles(self, s, pdu, k);
      forall j | 0 <= j < |s.h.asked| && s.h.asked[j].query.seqId == pdu.seqId
        ensures j == k
      {
        SameSerial(self, s.h.asked, s.h.issued, j, k);
      }
    }
    var i := MatchFrom(s.st.resolves, pdu.seqId, 0);
    if pdu.listener == self && i < LISTENERS {
      var k: nat :| Latest(s.h.asked, k, i) && Keeps(s.st.resolves[i], s.h.asked[k]);
      assert Waiting(s, k);
    }
  }

  /** A response that echoes the sequence id of an awaited query settles its command. */
  lemma EchoSettles(self: EntityId, s: Sys, pdu: Pdu, k: nat)
    requires Placed(s.st.resolves) && Tracked(self, s.st, s.h) && s.h.issued <= 65536
    requires pdu.listener == self && Waiting(s, k) && s.h.asked[k].query.seqId == pdu.seqId
    ensures Settles(self, s.st, pdu, s.h.asked[k].cmd, TxResponse(self, s.st, pdu))
  {
    var i := s.h.asked[k].cmd.luid;
    var a: nat :| Latest(s.h.asked, a, i) && Keeps(s.st.resolves[i], s.h.asked[a]);
    assert a == k;
    forall j | 0 <= j < LISTENERS && j != i && s.st.resolves[j].active
      ensures s.st.resolves[j].ourSeq != pdu.seqId
    {
      if s.st.resolves[j].ourSeq == pdu.seqId {
        OneAwaits(self, s, i, j);
      }
    }
    AnswerSettles(self, s.st, pdu, i, s.h.asked[k]);
  }

  // ---------------------------------------------------------------------------
  // Time-outs
  // ---------------------------------------------------------------------------

  /** Pending for 1.5 s or more; an age beyond two billion is a clock that ran backwards. */
  predicate Old(r: Resolve, now: Word32) {
    r.active && 1500 <= U32(now - r.start) && U32(now - r.start) <= 2_000_000_000
  }

  /** The time-out answers the controller of the resolve with status 7 and no stream. */
  predicate TimesOut(self: EntityId, m: Message, r: Resolve, st: State)
    requires r.luid < LISTENERS
  {
    && m.ConnectRxResponse? && OfMessage(m) == OfResolve(r) && m.pdu.status == 7 && m.pdu.listener == self
    && m.pdu.talker == r.talker && m.pdu.tuid == r.tuid && m.pdu.connCount == st.streams[r.luid].count
    && AllZero(m.pdu.streamId) && AllZero(m.pdu.destMac) && m.pdu.vlan == 0
  }

  /** A millisecond clock that wraps still gives the age, for the next 49 days. */
  lemma AgeIsElapsed(start: nat, now: nat)
    requires start <= now < start + 0x1_0000_0000
    ensures U32(U32(now) - U32(start)) == now - start
  {
    var d := now - start;
    var a, b := start / 0x1_0000_0000, now / 0x1_0000_0000;
    assert start == a * 0x1_0000_0000 + U32(start) && now == b * 0x1_0000_0000 + U32(now);
    assert U32(now) - U32(start) == d + (a - b) * 0x1_0000_0000;
    assert a == b || b == a + 1;
  }

  /**
   A poll clears exactly the resolves that are old and answers their controllers, in listener order;
   it changes nothing else.
   */
  lemma PollExactly(self: EntityId, st: State, now: Word32)
    requires Placed(st.resolves)
    ensures var f, rs := Poll(self, st, now, LISTENERS), st.resolves;
            && f.st.streams == st.streams && f.st.nextSeq == st.nextSeq
            && (forall i :: 0 <= i < LISTENERS ==>
                  f.st.resolves[i] == if Old(rs[i], now) then rs[i].(active := false) else rs[i])
            && |f.sent| == (if Old(rs[0], now) then 1 else 0) + (if Old(rs[1], now) then 1 else 0)
            && (Old(rs[0], now) ==> TimesOut(self, f.sent[0], rs[0], st))
            && (Old(rs[1], now) ==> TimesOut(self, f.sent[|f.sent| - 1], rs[1], st))
  {
    var a := Poll(self, st, now, 0);
    var b := Poll(self, st, now, 1);
    var c := Expire(self, a.st, 0, now);
    var d := Expire(self, b.st, 1, now);
    assert b == Effect(c.st, a.sent + c.sent);
    assert Poll(self, st, now, 2) == Effect(d.st, b.sent + d.sent);
  }

  /** Nothing pending survives a poll at an age of 1500 ms or more (and below the wrap guard). */
  lemma PollLeavesNothingOld(self: EntityId, st: State, now: Word32)
    requires Placed(st.resolves)
    ensures forall i :: 0 <= i < LISTENERS ==> !Old(Poll(self, st, now, LISTENERS).st.resolves[i], now)
  {
    PollExactly(self, st, now);
  }

  lemma PollEmpties(self: EntityId, st: State, now: Word32)
    requires Placed(st.resolves)
    requires forall i :: 0 <= i < LISTENERS && st.resolves[i].active ==> Old(st.resolves[i], now)
    ensures Pending(Poll(self, st, now, LISTENERS).st.resolves) == multiset{}
  {
    PollExactly(self, st, now);
    var rs := Poll(self, st, now, LISTENERS).st.resolves;
    assert !rs[0].active && !rs[1].active;
  }

  lemma AllOld(self: EntityId, s: Sys, now: Word32)
    requires Tracked(self, s.st, s.h)
    requires forall k: nat :: Waiting(s, k) ==> 1500 <= U32(now - s.h.asked[k].at) <= 2_000_000_000
    ensures forall i :: 0 <= i < LISTENERS && s.st.resolves[i].active ==> Old(s.st.resolves[i], now)
  {
    forall i | 0 <= i < LISTENERS && s.st.resolves[i].active
      ensures Old(s.st.resolves[i], now)
    {
      var k: nat :| Latest(s.h.asked, k, i) && Keeps(s.st.resolves[i], s.h.asked[k]);
      assert Waiting(s, k);
    }
  }

  /**
   Everything is settled in time: after a poll that comes at least 1500 ms after every command whose
   answer is awaited, each accepted command has been answered or superseded.
   */
  lemma EverythingSettles(self: EntityId, es: seq<Event>, now: Word32, s: Sys, t: Sys)
    requires s == Run(self, es) && t == Run(self, es + [Polled(now)])
    requires forall k: nat :: Waiting(s, k) ==> 1500 <= U32(now - s.h.asked[k].at) <= 2_000_000_000
    ensures t.h.accepted == t.h.answered + t.h.superseded
  {
    RunOne(self, es, Polled(now));
    BooksBalance(self, es + [Polled(now)]);
    QueriesOnTheWire(self, es);
    AllOld(self, s, now);
    PollEmpties(self, s.st, now);
  }

  lemma RunOne(self: EntityId, es: seq<Event>, e: Event)
    ensures Run(self, es + [e]) == Step(self, Run(self, es), e)
  {
    assert (es + [e])[..|es|] == es;
  }
}
