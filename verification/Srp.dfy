/**
 The MSRP endpoint of firmware/srp.c: the declarations it sends, written in place into the transmit
 buffer, and what a received PDU does to its state.
 */
module Srp {
  import opened Bytes
  import opened Mrpdu
  import opened Registrar

  const READY: Byte := 2
  const EVT_NEW: Byte := 0
  const EVT_JOIN_IN: Byte := 1

  const MCAST: Mac := [0x01, 0x80, 0xC2, 0x00, 0x00, 0x0E]
  const MIN_FRAME := 64
  const MAX_FRAME := 200

  // ---------------------------------------------------------------------------
  // FirstValues
  // ---------------------------------------------------------------------------

  predicate ValidAdvert(a: Advert) {
    a.vlanId < 0x1_0000 && a.maxFrameSize < 0x1_0000 && a.maxIntervalFrames < 0x1_0000 && a.latency < 0x1_0000_0000
  }

  /** The 25 octets of a TalkerAdvertise. */
  function AdvertBytes(a: Advert): (f: seq<Byte>)
    requires ValidAdvert(a)
    ensures |f| == 25
  {
    a.streamId + a.destMac + Be16(a.vlanId) + Be16(a.maxFrameSize) + Be16(a.maxIntervalFrames) +
    [a.priorityAndRank] + Be32(a.latency)
  }

  /** What the parser reads from them. */
  function AdvertOf(f: seq<Byte>): Advert
    requires |f| >= 25
  {
    Advert(f[..8], f[8..14], At16(f, 14), At16(f, 16), At16(f, 18), f[20], FromBe32(f[21..25]))
  }

  lemma At16OfBe16(f: seq<Byte>, i: nat, v: nat)
    requires i + 2 <= |f| && v < 0x1_0000 && f[i..i + 2] == Be16(v)
    ensures At16(f, i) == v
  {
    assert f[i] == Be16(v)[0] && f[i + 1] == Be16(v)[1];
  }

  lemma AdvertRoundTrip(a: Advert)
    requires ValidAdvert(a)
    ensures AdvertOf(AdvertBytes(a)) == a
  {
    var f := AdvertBytes(a);
    assert f[14..16] == Be16(a.vlanId) && f[16..18] == Be16(a.maxFrameSize) && f[18..20] == Be16(a.maxIntervalFrames);
    At16OfBe16(f, 14, a.vlanId);
    At16OfBe16(f, 16, a.maxFrameSize);
    At16OfBe16(f, 18, a.maxIntervalFrames);
    assert f[21..25] == Be32(a.latency);
    Be32RoundTrip(a.latency);
    assert f[..8] == a.streamId && f[8..14] == a.destMac && f[20] == a.priorityAndRank;
  }

  /** Where the fields of a TalkerAdvertise stand (section 35.2.2.8 of IEEE 802.1Q-2018), most significant octet first. */
  lemma AdvertLayout(f: seq<Byte>)
    requires |f| == 25
    ensures var a := AdvertOf(f);
            && (forall k :: 0 <= k < 8 ==> a.streamId[k] == f[k]) && (forall k :: 0 <= k < 6 ==> a.destMac[k] == f[8 + k])
            && a.vlanId == 256 * (f[14] as int) + f[15] && a.maxFrameSize == 256 * (f[16] as int) + f[17]
            && a.maxIntervalFrames == 256 * (f[18] as int) + f[19] && a.priorityAndRank == f[20]
            && a.latency == 0x100_0000 * (f[21] as int) + 0x1_0000 * (f[22] as int) + 256 * (f[23] as int) + f[24]
    ensures ValidAdvert(AdvertOf(f)) && AdvertBytes(AdvertOf(f)) == f
  {
    var a := AdvertOf(f);
    var l := f[21..25];
    assert l[0] == f[21] && l[1] == f[22] && l[2] == f[23] && l[3] == f[24];
    assert l[..2] == [f[21], f[22]] && l[2..] == [f[23], f[24]];
    Be16Inverse([f[14], f[15]]);
    Be16Inverse([f[16], f[17]]);
    Be16Inverse([f[18], f[19]]);
    Be32Inverse(l);
    assert f == f[..8] + f[8..14] + [f[14], f[15]] + [f[16], f[17]] + [f[18], f[19]] + [f[20]] + l;
  }

  function DomainBytes(srClass: Byte, srPrio: Byte, vid: nat): seq<Byte>
    requires vid < 0x1_0000
  {
    [srClass, srPrio] + Be16(vid)
  }

  // ---------------------------------------------------------------------------
  // Receiving
  // ---------------------------------------------------------------------------

  /** The part of the state that only the parser and the ageing write. */
  datatype Rx = Rx(domainReceived: bool, srClass: Byte, srPrio: Byte, srVid: nat,
                   talkerRegistered: bool, talkerLastSeen: Word32,
                   pdus: Word32, adverts: Word32, fails: Word32, listeners: Word32, domains: Word32, matches: Word32)

  datatype Listener = Listener(enabled: bool, streamId: StreamId, substate: Byte, newCount: nat)

  datatype State = State(rx: Rx, listener: Listener, table: Table)

  /** A TalkerAdvertise whose stream our listener wants. */
  predicate Wanted(l: Listener, a: Advert) { l.enabled && a.streamId == l.streamId }

  function HearDomain(x: Rx, f: seq<Byte>): Rx
    requires |f| >= 4
  {
    x.(domains := U32(x.domains + 1), domainReceived := true, srClass := f[0], srPrio := f[1], srVid := At16(f, 2))
  }

  function HearAdvert(s: State, a: Advert, now: Word32): State {
    var x := s.rx.(adverts := U32(s.rx.adverts + 1));
    var t := Upsert(s.table, a, now);
    if Wanted(s.listener, a) then
      State(x.(matches := U32(x.matches + 1), talkerRegistered := true, talkerLastSeen := now),
            s.listener.(substate := READY), t)
    else State(x, s.listener, t)
  }

  /** One vector. Attributes of other types or too short have no effect. */
  function Hear(s: State, v: Visit, now: Word32): State {
    if v.attrType == DOMAIN && |v.first| >= 4 then s.(rx := HearDomain(s.rx, v.first))
    else if v.attrType == TALKER_FAIL then s.(rx := s.rx.(fails := U32(s.rx.fails + 1)))
    else if v.attrType == LISTENER then s.(rx := s.rx.(listeners := U32(s.rx.listeners + 1)))
    else if v.attrType == TALKER_ADV && |v.first| >= 25 then HearAdvert(s, AdvertOf(v.first), now)
    else s
  }

  function HearAll(s: State, vs: seq<Visit>, now: Word32): State
    decreases |vs|
  {
    if vs == [] then s else HearAll(Hear(s, vs[0], now), vs[1..], now)
  }

  /** A received frame. */
  function Receive(s: State, frame: seq<Byte>, now: Word32): State {
    if Accepted(frame) then HearAll(s.(rx := s.rx.(pdus := U32(s.rx.pdus + 1))), FrameVisits(frame), now) else s
  }

  lemma {:induction false} HearAllSplits(s: State, a: seq<Visit>, b: seq<Visit>, now: Word32)
    ensures HearAll(s, a + b, now) == HearAll(HearAll(s, a, now), b, now)
    decreases |a|
  {
    if a == [] {
      assert a + b == b;
    } else {
      assert (a + b)[1..] == a[1..] + b;
      HearAllSplits(Hear(s, a[0], now), a[1..], b, now);
    }
  }

  // ---------------------------------------------------------------------------
  // Declaring
  // ---------------------------------------------------------------------------

  /** ThreePackedEvents of one event, FourPackedEvents of one declaration. */
  function Pack3(event: Byte): Byte { U8(event * 36) }

  function Pack4(substate: Byte): Byte { U8(substate * 64) }

  function VectorHeader(leaveAll: bool): nat { if leaveAll then 0x2001 else 1 }

  function One(attrType: Byte, leaveAll: bool, first: seq<Byte>, events: seq<Byte>): Message
    requires |first| < 256
  {
    Message(attrType, |first|, [Vector(if leaveAll then 1 else 0, 1, first, events)])
  }

  lemma OneIsValid(attrType: Byte, leaveAll: bool, first: seq<Byte>, events: seq<Byte>)
    requires attrType != 0 && |first| < 256 && |events| == Packed(attrType, 1)
    ensures var m := One(attrType, leaveAll, first, events);
            && ValidMessage(m) && |Body(m)| == 4 + |first| + |events|
            && Body(m) == Be16(VectorHeader(leaveAll)) + first + events + END_MARK
            && FirstValues(m) == [Visit(attrType, first)] && NoEndMark(m.vectors)
  {
    var m := One(attrType, leaveAll, first, events);
    assert EncodeVectors(attrType, m.attrLen, m.vectors[1..]) == [];
    assert Header(m.vectors[0]) == VectorHeader(leaveAll);
    assert Body(m) == EncodeVector(m.vectors[0]) + [] + END_MARK;
  }

  /** What one transmission declares. */
  datatype Declaration = Declaration(srClass: Byte, srPrio: Byte, vid: nat, domainEvent: Byte,
                                     talker: Option<Advert>, talkerEvent: Byte,
                                     listener: Option<Listener>, listenerEvent: Byte, leaveAll: bool) {
    predicate Valid() { vid < 0x1_0000 && (talker.Some? ==> ValidAdvert(talker.value)) }
  }

  function DomainPart(d: Declaration): Message
    requires d.Valid()
  {
    One(DOMAIN, d.leaveAll, DomainBytes(d.srClass, d.srPrio, d.vid), [Pack3(d.domainEvent)])
  }

  function TalkerPart(d: Declaration): seq<Message>
    requires d.Valid()
  {
    if d.talker.Some? then [One(TALKER_ADV, d.leaveAll, AdvertBytes(d.talker.value), [Pack3(d.talkerEvent)])] else []
  }

  function ListenerPart(d: Declaration): seq<Message> {
    if d.listener.Some? then
      var l := d.listener.value;
      [One(LISTENER, d.leaveAll, l.streamId, [Pack3(d.listenerEvent), Pack4(l.substate)])]
    else []
  }

  function Messages(d: Declaration): seq<Message>
    requires d.Valid()
  {
    [DomainPart(d)] + TalkerPart(d) + ListenerPart(d)
  }

  function DeclaredVisits(d: Declaration): seq<Visit>
    requires d.Valid()
  {
    [Visit(DOMAIN, DomainBytes(d.srClass, d.srPrio, d.vid))] +
    (if d.talker.Some? then [Visit(TALKER_ADV, AdvertBytes(d.talker.value))] else []) +
    (if d.listener.Some? then [Visit(LISTENER, d.listener.value.streamId)] else [])
  }

  lemma PartsAreValid(d: Declaration)
    requires d.Valid()
    ensures ValidMessage(DomainPart(d)) && NoEndMarks([DomainPart(d)])
    ensures FirstValues(DomainPart(d)) == [Visit(DOMAIN, DomainBytes(d.srClass, d.srPrio, d.vid))]
    ensures ValidPdu(TalkerPart(d)) && ValidPdu(ListenerPart(d))
    ensures NoEndMarks(TalkerPart(d)) && NoEndMarks(ListenerPart(d))
    ensures d.talker.Some? ==> FirstValues(TalkerPart(d)[0]) == [Visit(TALKER_ADV, AdvertBytes(d.talker.value))]
    ensures d.listener.Some? ==> FirstValues(ListenerPart(d)[0]) == [Visit(LISTENER, d.listener.value.streamId)]
  {
    OneIsValid(DOMAIN, d.leaveAll, DomainBytes(d.srClass, d.srPrio, d.vid), [Pack3(d.domainEvent)]);
    if d.talker.Some? {
      OneIsValid(TALKER_ADV, d.leaveAll, AdvertBytes(d.talker.value), [Pack3(d.talkerEvent)]);
    }
    if d.listener.Some? {
      var l := d.listener.value;
      OneIsValid(LISTENER, d.leaveAll, l.streamId, [Pack3(d.listenerEvent), Pack4(l.substate)]);
    }
  }

  lemma {:induction false} VisitsConcat(a: seq<Message>, b: seq<Message>)
    ensures AllFirstValues(a + b) == AllFirstValues(a) + AllFirstValues(b)
    decreases |a|
  {
    if a == [] {
      assert a + b == b;
    } else {
      assert (a + b)[1..] == a[1..] + b;
      VisitsConcat(a[1..], b);
    }
  }

  lemma OneVisited(m: Message)
    ensures AllFirstValues([m]) == FirstValues(m)
  {
    assert [m][1..] == [];
  }

  /** Every combination of declarations is well-formed and stands for the declared values. */
  lemma DeclarationIsValid(d: Declaration)
    requires d.Valid()
    ensures ValidPdu(Messages(d)) && NoEndMarks(Messages(d)) && AllFirstValues(Messages(d)) == DeclaredVisits(d)
  {
    PartsAreValid(d);
    VisitsConcat([DomainPart(d)] + TalkerPart(d), ListenerPart(d));
    VisitsConcat([DomainPart(d)], TalkerPart(d));
    OneVisited(DomainPart(d));
    if d.talker.Some? {
      OneVisited(TalkerPart(d)[0]);
    }
    if d.listener.Some? {
      OneVisited(ListenerPart(d)[0]);
    }
  }

  function EthernetHeader(src: Mac): (h: seq<Byte>)
    ensures |h| == 14
  {
    MCAST + src + Be16(MSRP_ETHERTYPE)
  }

  function ZeroBytes(n: nat): (z: seq<Byte>)
    ensures |z| == n && forall k :: 0 <= k < n ==> z[k] == 0
  {
    seq(n, _ => 0)
  }

  /** Zeros up to the minimum Ethernet frame. */
  function Padding(n: nat): seq<Byte> { ZeroBytes(if n < MIN_FRAME then MIN_FRAME - n else 0) }

  function Pdu(src: Mac, d: Declaration): seq<Byte>
    requires d.Valid()
  {
    DeclarationIsValid(d);
    EthernetHeader(src) + EncodePdu(Messages(d))
  }

  /** The whole frame. */
  function Frame(src: Mac, d: Declaration): seq<Byte>
    requires d.Valid()
  {
    Pdu(src, d) + Padding(|Pdu(src, d)|)
  }

  lemma DeclaredIsVisited(src: Mac, d: Declaration)
    requires d.Valid()
    ensures Accepted(Frame(src, d)) && FrameVisits(Frame(src, d)) == DeclaredVisits(d)
  {
    DeclarationIsValid(d);
    var h, f := EthernetHeader(src), Frame(src, d);
    assert h[12..14] == Be16(MSRP_ETHERTYPE);
    At16OfBe16(h, 12, MSRP_ETHERTYPE);
    ParserVisitsFirstValues(h, Messages(d), Padding(|Pdu(src, d)|));
    assert f[12] == h[12] && f[13] == h[13] && f[14] == EncodePdu(Messages(d))[0];
  }

  lemma OneHeard(s: State, v: Visit, now: Word32)
    ensures HearAll(s, [v], now) == Hear(s, v, now)
  {
    assert [v][1..] == [];
  }

  /** What a TalkerAdvertise does to a receiver: table and, if it is the wanted stream, listener. */
  ghost predicate TookAdvert(s: State, a: Advert, now: Word32, t: State) {
    && t.table == Upsert(s.table, a, now)
    && t.rx.adverts == U32(s.rx.adverts + 1)
    && if s.listener.enabled && s.listener.streamId == a.streamId then
         && t.listener == s.listener.(substate := 2)
         && t.rx.talkerRegistered && t.rx.talkerLastSeen == now && t.rx.matches == U32(s.rx.matches + 1)
       else
         && t.listener == s.listener && t.rx.talkerRegistered == s.rx.talkerRegistered
         && t.rx.talkerLastSeen == s.rx.talkerLastSeen && t.rx.matches == s.rx.matches
  }

  /** A peer that has taken over the declared values themselves. */
  ghost predicate Informed(s: State, d: Declaration, now: Word32, t: State) {
    && t.rx.domainReceived && t.rx.srClass == d.srClass && t.rx.srPrio == d.srPrio && t.rx.srVid == d.vid
    && t.rx.pdus == U32(s.rx.pdus + 1) && t.rx.domains == U32(s.rx.domains + 1) && t.rx.fails == s.rx.fails
    && t.rx.listeners == (if d.listener.Some? then U32(s.rx.listeners + 1) else s.rx.listeners)
    && (d.talker.Some? ==> TookAdvert(s, d.talker.value, now, t))
    && (d.talker.None? ==>
          && t.table == s.table && t.listener == s.listener && t.rx.adverts == s.rx.adverts
          && t.rx.matches == s.rx.matches && t.rx.talkerRegistered == s.rx.talkerRegistered
          && t.rx.talkerLastSeen == s.rx.talkerLastSeen)
  }

  lemma DomainHeard(s: State, d: Declaration, now: Word32)
    requires d.Valid()
    ensures Hear(s, Visit(DOMAIN, DomainBytes(d.srClass, d.srPrio, d.vid)), now) ==
              s.(rx := s.rx.(domains := U32(s.rx.domains + 1), domainReceived := true,
                             srClass := d.srClass, srPrio := d.srPrio, srVid := d.vid))
  {
    var f := DomainBytes(d.srClass, d.srPrio, d.vid);
    assert f[2..4] == Be16(d.vid);
    At16OfBe16(f, 2, d.vid);
  }

  lemma TalkerHeard(s: State, a: Advert, now: Word32)
    requires ValidAdvert(a)
    ensures Hear(s, Visit(TALKER_ADV, AdvertBytes(a)), now) == HearAdvert(s, a, now)
  {
    AdvertRoundTrip(a);
  }

  /** A receiver after the visits of a declaration, taken in three steps. */
  lemma HearDeclared(s: State, d: Declaration, now: Word32, s1: State, s2: State)
    requires d.Valid()
    requires s1 == Hear(s, Visit(DOMAIN, DomainBytes(d.srClass, d.srPrio, d.vid)), now)
    requires s2 == if d.talker.Some? then Hear(s1, Visit(TALKER_ADV, AdvertBytes(d.talker.value)), now) else s1
    ensures HearAll(s, DeclaredVisits(d), now) ==
              if d.listener.Some? then Hear(s2, Visit(LISTENER, d.listener.value.streamId), now) else s2
  {
    var a := [Visit(DOMAIN, DomainBytes(d.srClass, d.srPrio, d.vid))];
    var b := if d.talker.Some? then [Visit(TALKER_ADV, AdvertBytes(d.talker.value))] else [];
    var c := if d.listener.Some? then [Visit(LISTENER, d.listener.value.streamId)] else [];
    HearAllSplits(s, a + b, c, now);
    HearAllSplits(s, a, b, now);
    OneHeard(s, a[0], now);
    if d.talker.Some? {
      OneHeard(s1, b[0], now);
    }
    if d.listener.Some? {
      OneHeard(s2, c[0], now);
    }
  }

  lemma InformedInSteps(s: State, d: Declaration, now: Word32, s1: State, s2: State, t: State)
    requires d.Valid()
    requires s1 == s.(rx := s.rx.(pdus := U32(s.rx.pdus + 1), domains := U32(s.rx.domains + 1),
                                  domainReceived := true, srClass := d.srClass, srPrio := d.srPrio, srVid := d.vid))
    requires s2 == if d.talker.Some? then HearAdvert(s1, d.talker.value, now) else s1
    requires t == if d.listener.Some? then Hear(s2, Visit(LISTENER, d.listener.value.streamId), now) else s2
    ensures Informed(s, d, now, t)
  {
  }

  lemma InformedByDeclaration(s: State, d: Declaration, now: Word32, s0: State)
    requires d.Valid() && s0 == s.(rx := s.rx.(pdus := U32(s.rx.pdus + 1)))
    ensures Informed(s, d, now, HearAll(s0, DeclaredVisits(d), now))
  {
    var s1 := Hear(s0, Visit(DOMAIN, DomainBytes(d.srClass, d.srPrio, d.vid)), now);
    DomainHeard(s0, d, now);
    if d.talker.Some? {
      TalkerHeard(s1, d.talker.value, now);
    }
    var s2 := if d.talker.Some? then HearAdvert(s1, d.talker.value, now) else s1;
    HearDeclared(s0, d, now, s1, s2);
    InformedInSteps(s, d, now, s1, s2, HearAll(s0, DeclaredVisits(d), now));
  }

  /**
   Declarations parse back: a peer that receives any frame this endpoint can send takes over exactly
   the declared domain, registers exactly the declared talker, takes it for its own listener if that
   wants this stream, and counts the listener.
   */
  lemma DeclarationsParseBack(s: State, src: Mac, d: Declaration, now: Word32)
    requires d.Valid()
    ensures Informed(s, d, now, Receive(s, Frame(src, d), now))
  {
    DeclaredIsVisited(src, d);
    InformedByDeclaration(s, d, now, s.(rx := s.rx.(pdus := U32(s.rx.pdus + 1))));
  }

  // ---------------------------------------------------------------------------
  // Any frame at all
  // ---------------------------------------------------------------------------

  /** Visits of a type with at least so many octets. */
  function Those(vs: seq<Visit>, attrType: Byte, length: nat): (those: seq<seq<Byte>>)
    ensures forall k :: 0 <= k < |those| ==> |those[k]| >= length
    decreases |vs|
  {
    if vs == [] then []
    else
      Those(vs[..|vs| - 1], attrType, length) +
      if vs[|vs| - 1].attrType == attrType && |vs[|vs| - 1].first| >= length then [vs[|vs| - 1].first] else []
  }

  /** Advertisements entered one after another. */
  function Entered(t: Table, fs: seq<seq<Byte>>, now: Word32): Table
    requires forall k :: 0 <= k < |fs| ==> |fs[k]| >= 25
    decreases |fs|
  {
    if fs == [] then t else Upsert(Entered(t, fs[..|fs| - 1], now), AdvertOf(fs[|fs| - 1]), now)
  }

  /** The advertisements of one stream. */
  function Naming(fs: seq<seq<Byte>>, id: StreamId): (those: seq<seq<Byte>>)
    requires forall k :: 0 <= k < |fs| ==> |fs[k]| >= 25
    decreases |fs|
  {
    if fs == [] then []
    else
      Naming(fs[..|fs| - 1], id) + if fs[|fs| - 1][..8] == id then [fs[|fs| - 1]] else []
  }

  /** The advertisements of the stream our listener wants. */
  function Matching(l: Listener, fs: seq<seq<Byte>>): seq<seq<Byte>>
    requires forall k :: 0 <= k < |fs| ==> |fs[k]| >= 25
  {
    if l.enabled then Naming(fs, l.streamId) else []
  }

  /** What a receiver makes of any visits: each kind is counted, the last domain and every advert taken. */
  ghost predicate Took(s: State, vs: seq<Visit>, now: Word32, t: State) {
    TookCounts(s.rx, vs, t.rx) && TookDomain(s.rx, Those(vs, 4, 4), t.rx) && TookAdverts(s, Those(vs, 1, 25), now, t)
  }

  ghost predicate TookCounts(x: Rx, vs: seq<Visit>, y: Rx) {
    && y.pdus == x.pdus
    && y.adverts == U32(x.adverts + |Those(vs, 1, 25)|) && y.fails == U32(x.fails + |Those(vs, 2, 0)|)
    && y.listeners == U32(x.listeners + |Those(vs, 3, 0)|) && y.domains == U32(x.domains + |Those(vs, 4, 4)|)
  }

  ghost predicate TookDomain(x: Rx, domains: seq<seq<Byte>>, y: Rx)
    requires forall k :: 0 <= k < |domains| ==> |domains[k]| >= 4
  {
    if domains == [] then
      y.domainReceived == x.domainReceived && y.srClass == x.srClass && y.srPrio == x.srPrio && y.srVid == x.srVid
    else
      var f := domains[|domains| - 1];
      y.domainReceived && y.srClass == f[0] && y.srPrio == f[1] && y.srVid == 256 * (f[2] as int) + f[3]
  }

  ghost predicate TookAdverts(s: State, adverts: seq<seq<Byte>>, now: Word32, t: State)
    requires forall k :: 0 <= k < |adverts| ==> |adverts[k]| >= 25
  {
    var wanted := Matching(s.listener, adverts);
    && t.table == Entered(s.table, adverts, now)
    && t.rx.matches == U32(s.rx.matches + |wanted|)
    && t.listener == (if wanted == [] then s.listener else s.listener.(substate := 2))
    && t.rx.talkerRegistered == (s.rx.talkerRegistered || wanted != [])
    && t.rx.talkerLastSeen == if wanted == [] then s.rx.talkerLastSeen else now
  }

  lemma {:induction false} HearLast(s: State, vs: seq<Visit>, v: Visit, now: Word32)
    ensures HearAll(s, vs + [v], now) == Hear(HearAll(s, vs, now), v, now)
  {
    HearAllSplits(s, vs, [v], now);
    OneHeard(HearAll(s, vs, now), v, now);
  }

  lemma OneMoreOfThose(vs: seq<Visit>, v: Visit, ws: seq<Visit>, attrType: Byte, length: nat)
    requires ws == vs + [v]
    ensures Those(ws, attrType, length) ==
              Those(vs, attrType, length) + if v.attrType == attrType && |v.first| >= length then [v.first] else []
  {
    assert ws[..|vs|] == vs;
  }

  lemma MatchingGrows(l: Listener, fs: seq<seq<Byte>>, f: seq<Byte>)
    requires (forall k :: 0 <= k < |fs| ==> |fs[k]| >= 25) && |f| >= 25
    ensures Matching(l, fs + [f]) == Matching(l, fs) + if l.enabled && f[..8] == l.streamId then [f] else []
  {
    assert (fs + [f])[..|fs|] == fs;
  }

  lemma EnteredGrows(t: Table, fs: seq<seq<Byte>>, f: seq<Byte>, now: Word32)
    requires (forall k :: 0 <= k < |fs| ==> |fs[k]| >= 25) && |f| >= 25
    ensures Entered(t, fs + [f], now) == Upsert(Entered(t, fs, now), AdvertOf(f), now)
  {
    assert (fs + [f])[..|fs|] == fs;
  }

  lemma FailsCounted(x: Rx, vs: seq<Visit>, v: Visit, ws: seq<Visit>, m: State, now: Word32)
    requires TookCounts(x, vs, m.rx) && ws == vs + [v]
    ensures Hear(m, v, now).rx.fails == U32(x.fails + |Those(ws, 2, 0)|) && Hear(m, v, now).rx.pdus == x.pdus
  {
    OneMoreOfThose(vs, v, ws, 2, 0);
    Wrap32(x.fails + |Those(vs, 2, 0)|);
  }

  lemma ListenersCounted(x: Rx, vs: seq<Visit>, v: Visit, ws: seq<Visit>, m: State, now: Word32)
    requires TookCounts(x, vs, m.rx) && ws == vs + [v]
    ensures Hear(m, v, now).rx.listeners == U32(x.listeners + |Those(ws, 3, 0)|)
  {
    OneMoreOfThose(vs, v, ws, 3, 0);
    Wrap32(x.listeners + |Those(vs, 3, 0)|);
  }

  lemma DomainsCounted(x: Rx, vs: seq<Visit>, v: Visit, ws: seq<Visit>, m: State, now: Word32)
    requires TookCounts(x, vs, m.rx) && ws == vs + [v]
    ensures Hear(m, v, now).rx.domains == U32(x.domains + |Those(ws, 4, 4)|)
  {
    OneMoreOfThose(vs, v, ws, 4, 4);
    Wrap32(x.domains + |Those(vs, 4, 4)|);
  }

  lemma AdvertsCounted(x: Rx, vs: seq<Visit>, v: Visit, ws: seq<Visit>, m: State, now: Word32)
    requires TookCounts(x, vs, m.rx) && ws == vs + [v]
    ensures Hear(m, v, now).rx.adverts == U32(x.adverts + |Those(ws, 1, 25)|)
  {
    OneMoreOfThose(vs, v, ws, 1, 25);
    Wrap32(x.adverts + |Those(vs, 1, 25)|);
  }

  lemma OneMoreCounted(x: Rx, vs: seq<Visit>, v: Visit, ws: seq<Visit>, m: State, now: Word32)
    requires TookCounts(x, vs, m.rx) && ws == vs + [v]
    ensures TookCounts(x, ws, Hear(m, v, now).rx)
  {
    FailsCounted(x, vs, v, ws, m, now);
    ListenersCounted(x, vs, v, ws, m, now);
    DomainsCounted(x, vs, v, ws, m, now);
    AdvertsCounted(x, vs, v, ws, m, now);
  }

  lemma DomainTaken(x: Rx, domains: seq<seq<Byte>>, f: seq<Byte>, y: Rx)
    requires (forall k :: 0 <= k < |domains| ==> |domains[k]| >= 4) && |f| >= 4
    ensures TookDomain(x, domains + [f], HearDomain(y, f))
  {
  }

  lemma NoDomainHeard(m: State, v: Visit, now: Word32, t: State)
    requires !(v.attrType == DOMAIN && |v.first| >= 4) && t == Hear(m, v, now)
    ensures t.rx.domainReceived == m.rx.domainReceived && t.rx.srClass == m.rx.srClass
    ensures t.rx.srPrio == m.rx.srPrio && t.rx.srVid == m.rx.srVid
  {
  }

  lemma OneMoreDomain(x: Rx, vs: seq<Visit>, v: Visit, ws: seq<Visit>, m: State, now: Word32, t: State)
    requires TookDomain(x, Those(vs, 4, 4), m.rx) && ws == vs + [v] && t == Hear(m, v, now)
    ensures TookDomain(x, Those(ws, 4, 4), t.rx)
  {
    OneMoreOfThose(vs, v, ws, 4, 4);
    if v.attrType == DOMAIN && |v.first| >= 4 {
      DomainTaken(x, Those(vs, 4, 4), v.first, m.rx);
    } else {
      assert Those(ws, 4, 4) == Those(vs, 4, 4);
      NoDomainHeard(m, v, now, t);
    }
  }

  /** Another advertisement, wanted or not. */
  lemma WantedTaken(l: Listener, fs: seq<seq<Byte>>, f: seq<Byte>, wanted: bool, n: Word32)
    requires (forall k :: 0 <= k < |fs| ==> |fs[k]| >= 25) && |f| >= 25
    requires wanted == (l.enabled && f[..8] == l.streamId)
    ensures U32(n + |Matching(l, fs + [f])|) == if wanted then U32(U32(n + |Matching(l, fs)|) + 1)
                                                else U32(n + |Matching(l, fs)|)
    ensures Matching(l, fs + [f]) == [] <==> Matching(l, fs) == [] && !wanted
  {
    Wrap32(n + |Matching(l, fs)|);
    MatchingGrows(l, fs, f);
  }

  lemma AdvertHeard(m: State, a: Advert, now: Word32, wanted: bool, h: State)
    requires h == HearAdvert(m, a, now) && wanted == (m.listener.enabled && a.streamId == m.listener.streamId)
    ensures h.table == Upsert(m.table, a, now)
    ensures h.listener == (if wanted then m.listener.(substate := 2) else m.listener)
    ensures h.rx.matches == if wanted then U32(m.rx.matches + 1) else m.rx.matches
    ensures h.rx.talkerRegistered == (m.rx.talkerRegistered || wanted)
    ensures h.rx.talkerLastSeen == if wanted then now else m.rx.talkerLastSeen
  {
  }

  lemma AdvertTaken(s: State, fs: seq<seq<Byte>>, f: seq<Byte>, m: State, now: Word32, gs: seq<seq<Byte>>, wanted: bool,
      h: State)
    requires (forall k :: 0 <= k < |fs| ==> |fs[k]| >= 25) && |f| >= 25 && TookAdverts(s, fs, now, m)
    requires gs == fs + [f] && wanted == (s.listener.enabled && f[..8] == s.listener.streamId)
    requires h.table == Upsert(m.table, AdvertOf(f), now)
    requires h.listener == if wanted then m.listener.(substate := 2) else m.listener
    requires h.rx.matches == if wanted then U32(m.rx.matches + 1) else m.rx.matches
    requires h.rx.talkerRegistered == (m.rx.talkerRegistered || wanted)
    requires h.rx.talkerLastSeen == if wanted then now else m.rx.talkerLastSeen
    ensures TookAdverts(s, gs, now, h)
  {
    WantedTaken(s.listener, fs, f, wanted, s.rx.matches);
    EnteredGrows(s.table, fs, f, now);
  }

  lemma AdvertsApart(s: State, fs: seq<seq<Byte>>, m: State, t: State, now: Word32)
    requires (forall k :: 0 <= k < |fs| ==> |fs[k]| >= 25) && TookAdverts(s, fs, now, m)
    requires t.table == m.table && t.listener == m.listener && t.rx.matches == m.rx.matches
    requires t.rx.talkerRegistered == m.rx.talkerRegistered && t.rx.talkerLastSeen == m.rx.talkerLastSeen
    ensures TookAdverts(s, fs, now, t)
  {
  }

  lemma NoAdvertHeard(m: State, v: Visit, now: Word32, t: State)
    requires !(v.attrType == TALKER_ADV && |v.first| >= 25) && t == Hear(m, v, now)
    ensures t.table == m.table && t.listener == m.listener && t.rx.matches == m.rx.matches
    ensures t.rx.talkerRegistered == m.rx.talkerRegistered && t.rx.talkerLastSeen == m.rx.talkerLastSeen
  {
  }

  lemma OneMoreAdvert(s: State, vs: seq<Visit>, v: Visit, ws: seq<Visit>, m: State, now: Word32, t: State)
    requires TookAdverts(s, Those(vs, 1, 25), now, m) && ws == vs + [v] && t == Hear(m, v, now)
    ensures TookAdverts(s, Those(ws, 1, 25), now, t)
  {
    OneMoreOfThose(vs, v, ws, 1, 25);
    var adverts := Those(vs, 1, 25);
    if v.attrType == TALKER_ADV && |v.first| >= 25 {
      var wanted := s.listener.enabled && v.first[..8] == s.listener.streamId;
      AdvertHeard(m, AdvertOf(v.first), now, wanted, t);
      AdvertTaken(s, adverts, v.first, m, now, Those(ws, 1, 25), wanted, t);
    } else {
      assert Those(ws, 1, 25) == adverts;
      NoAdvertHeard(m, v, now, t);
      AdvertsApart(s, adverts, m, t, now);
    }
  }

  lemma OneMoreTaken(s: State, vs: seq<Visit>, v: Visit, now: Word32, m: State)
    requires Took(s, vs, now, m)
    ensures Took(s, vs + [v], now, Hear(m, v, now))
  {
    OneMoreCounted(s.rx, vs, v, vs + [v], m, now);
    OneMoreDomain(s.rx, vs, v, vs + [v], m, now, Hear(m, v, now));
    OneMoreAdvert(s, vs, v, vs + [v], m, now, Hear(m, v, now));
  }

  lemma {:induction false} VisitsTaken(s: State, vs: seq<Visit>, now: Word32)
    ensures Took(s, vs, now, HearAll(s, vs, now))
    decreases |vs|
  {
    if vs != [] {
      var n := |vs| - 1;
      VisitsTaken(s, vs[..n], now);
      assert vs == vs[..n] + [vs[n]];
      HearLast(s, vs[..n], vs[n], now);
      OneMoreTaken(s, vs[..n], vs[n], now, HearAll(s, vs[..n], now));
    }
  }

  /**
   Any octets at all: a frame that is not MSRP changes nothing; one that is is counted, and its
   attributes are taken as their types say, those too short for their type being skipped.
   */
  lemma AnyFrameTaken(s: State, frame: seq<Byte>, now: Word32)
    ensures var t, ours := Receive(s, frame, now),
                |frame| >= 16 && frame[12] == 0x22 && frame[13] == 0xEA && frame[14] == 0;
            if ours then Took(s.(rx := s.rx.(pdus := U32(s.rx.pdus + 1))), FrameVisits(frame), now, t) else t == s
  {
    VisitsTaken(s.(rx := s.rx.(pdus := U32(s.rx.pdus + 1))), FrameVisits(frame), now);
  }

  // ---------------------------------------------------------------------------
  // What is declared when
  // ---------------------------------------------------------------------------

  const SR_CLASS_A: Byte := 6
  const SR_CLASS_A_PRIO: Byte := 3
  const SR_CLASS_A_VID := 2

  /** The talker to declare, and how often talker and domain have been declared as new. */
  datatype Sender = Sender(talkerEnabled: bool, talker: Advert, talkerNewCount: nat, domainNewCount: nat)

  /** An attribute is new in its first two transmissions. */
  function EventFor(newCount: nat): Byte { if newCount < 2 then EVT_NEW else EVT_JOIN_IN }

  /** The counter of transmissions as a new attribute stops at two. */
  function Counted(n: nat): nat { if n < 2 then n + 1 else n }

  /** The talker takes over the declared priority and VLAN. */
  function Synced(a: Advert, prio: Byte, vid: nat): Advert {
    a.(priorityAndRank := U8(prio * 32 + 16), vlanId := vid)
  }

  function Prio(x: Rx): Byte { if x.domainReceived then x.srPrio else SR_CLASS_A_PRIO }

  function Vid(x: Rx): nat { if x.domainReceived then x.srVid else SR_CLASS_A_VID }

  /** What a transmission declares: the bridge's domain if one was heard, else the defaults. */
  function DeclarationOf(x: Rx, l: Listener, o: Sender, leaveAll: bool): Declaration {
    Declaration(if x.domainReceived then x.srClass else SR_CLASS_A, Prio(x), Vid(x), EventFor(o.domainNewCount),
                if o.talkerEnabled then Some(Synced(o.talker, Prio(x), Vid(x))) else None, EventFor(o.talkerNewCount),
                if l.enabled then Some(l) else None, EventFor(l.newCount), leaveAll)
  }

  function SenderAfter(x: Rx, o: Sender): Sender {
    if o.talkerEnabled then
      Sender(true, Synced(o.talker, Prio(x), Vid(x)), Counted(o.talkerNewCount), Counted(o.domainNewCount))
    else o.(domainNewCount := Counted(o.domainNewCount))
  }

  function ListenerAfter(l: Listener): Listener { if l.enabled then l.(newCount := Counted(l.newCount)) else l }

  /** One transmission: what had been heard by then, and whether it carries LeaveAll. */
  datatype Turn = Turn(heard: Rx, leaveAll: bool)

  function Declarations(l: Listener, o: Sender, turns: seq<Turn>): (ds: seq<Declaration>)
    ensures |ds| == |turns|
    decreases |turns|
  {
    if turns == [] then []
    else
      [DeclarationOf(turns[0].heard, l, o, turns[0].leaveAll)] +
      Declarations(ListenerAfter(l), SenderAfter(turns[0].heard, o), turns[1..])
  }

  /** The talker as declared: its own attributes, with the domain's priority, rank 1 and VLAN. */
  ghost predicate DeclaredAs(a: Advert, prio: Byte, vid: nat, declared: Advert) {
    && declared.streamId == a.streamId && declared.destMac == a.destMac && declared.latency == a.latency
    && declared.maxFrameSize == a.maxFrameSize && declared.maxIntervalFrames == a.maxIntervalFrames
    && declared.vlanId == vid && declared.priorityAndRank / 32 == prio % 8 && declared.priorityAndRank % 32 == 16
  }

  /** Declaration d is that of transmission k, when `x` had been heard. */
  ghost predicate TurnDeclares(l: Listener, o: Sender, k: nat, x: Rx, d: Declaration) {
    && (x.domainReceived ==> d.srClass == x.srClass && d.srPrio == x.srPrio && d.vid == x.srVid)
    && (!x.domainReceived ==> d.srClass == 6 && d.srPrio == 3 && d.vid == 2)
    && d.domainEvent == (if o.domainNewCount + k < 2 then 0 else 1)
    && (d.talker.Some? <==> o.talkerEnabled) && (d.listener.Some? <==> l.enabled)
    && (o.talkerEnabled ==>
          && d.talkerEvent == (if o.talkerNewCount + k < 2 then 0 else 1)
          && DeclaredAs(o.talker, d.srPrio, d.vid, d.talker.value))
    && (l.enabled ==>
          && d.listenerEvent == (if l.newCount + k < 2 then 0 else 1)
          && d.listener.value.streamId == l.streamId && d.listener.value.substate == l.substate)
  }

  lemma FirstTurn(l: Listener, o: Sender, x: Rx, leaveAll: bool)
    ensures TurnDeclares(l, o, 0, x, DeclarationOf(x, l, o, leaveAll))
  {
    RankOf(Prio(x));
  }

  lemma RankOf(prio: Byte)
    ensures U8(prio * 32 + 16) / 32 == prio % 8 && U8(prio * 32 + 16) % 32 == 16
  {
    LowOctet(prio / 8, 32 * (prio % 8) + 16);
  }

  lemma LowOctet(q: nat, x: Byte)
    ensures U8(256 * q + x) == x
  {
  }

  lemma LaterTurn(l: Listener, o: Sender, k: nat, x0: Rx, x: Rx, d: Declaration)
    requires k > 0 && TurnDeclares(ListenerAfter(l), SenderAfter(x0, o), k - 1, x, d)
    ensures TurnDeclares(l, o, k, x, d)
  {
  }

  /**
   Over any run of transmissions: the k-th declares the domain heard last, class A, priority 3 and VLAN 2
   if none was; talker and listener as they are enabled; and each attribute as new (event 0) until it
   has been so twice, then as JoinIn (event 1).
   */
  lemma {:induction false} NewTwiceThenJoined(l: Listener, o: Sender, turns: seq<Turn>, k: nat)
    requires k < |turns|
    ensures var d := Declarations(l, o, turns)[k];
            d.leaveAll == turns[k].leaveAll && TurnDeclares(l, o, k, turns[k].heard, d)
    decreases k
  {
    var x0 := turns[0].heard;
    if k == 0 {
      FirstTurn(l, o, x0, turns[0].leaveAll);
    } else {
      NewTwiceThenJoined(ListenerAfter(l), SenderAfter(x0, o), turns[1..], k - 1);
      LaterTurn(l, o, k, x0, turns[k].heard, Declarations(l, o, turns)[k]);
    }
  }

  /** An event below 6, alone in its octet of three, and a substate below 4, alone in its octet of four. */
  predicate ThreePacked(octet: Byte, event: Byte) { octet / 36 == event && octet / 6 % 6 == 0 && octet % 6 == 0 }

  predicate FourPacked(octet: Byte, substate: Byte) { octet / 64 == substate && octet % 64 == 0 }

  lemma OneOnTheWire(attrType: Byte, leaveAll: bool, first: seq<Byte>, events: seq<Byte>, b: seq<Byte>, p: nat,
      rest: seq<Byte>)
    requires attrType != 0 && |first| < 256 && |events| == Packed(attrType, 1) && |events| <= 2
    requires p <= |b| && b[p..] == EncodeMessage(OneChecked(attrType, leaveAll, first, events)) + rest
    ensures |b| == p + 8 + |first| + |events| + |rest| && b[p + 8 + |first| + |events|..] == rest
    ensures b[p] == attrType && b[p + 1] == |first|
    ensures b[p + 4] == (if leaveAll then 0x20 else 0) && b[p + 5] == 1
    ensures |events| >= 1 && b[p + 6 + |first|] == events[0]
    ensures |events| == 2 ==> b[p + 7 + |first|] == events[1]
  {
    OneIsValid(attrType, leaveAll, first, events);
    var m := One(attrType, leaveAll, first, events);
    var x, hdr := b[p..], Be16(VectorHeader(leaveAll));
    var len := Be16(|Body(m)|);
    assert x == ([attrType, |first|] + len + hdr + first) + events + (END_MARK + rest);
    assert x[0] == attrType && x[1] == |first| && x[4] == hdr[0] && x[5] == hdr[1];
    assert x[6 + |first|] == events[0];
    assert |events| == 2 ==> x[7 + |first|] == events[1];
    assert x[8 + |first| + |events|..] == rest;
  }

  /**
   The octets of a transmission: each message has one value, the LeaveAll bit, and events that a peer
   unpacks to those declared. The domain begins at octet 15, the talker follows it, the listener comes last.
   */
  lemma EventsOnTheWire(src: Mac, d: Declaration)
    requires d.Valid() && d.domainEvent < 6 && d.talkerEvent < 6 && d.listenerEvent < 6
    requires d.listener.Some? ==> d.listener.value.substate < 4
    ensures var f, la, at := Frame(src, d), if d.leaveAll then 0x20 else 0, if d.talker.Some? then 62 else 28;
            && |f| >= 64
            && f[..6] == [0x01, 0x80, 0xC2, 0x00, 0x00, 0x0E] && f[6..12] == src && f[12..15] == [0x22, 0xEA, 0x00]
            && f[15] == 4 && f[19] == la && f[20] == 1 && ThreePacked(f[25], d.domainEvent)
            && (d.talker.Some? ==>
                  f[28] == 1 && f[32] == la && f[33] == 1 && ThreePacked(f[59], d.talkerEvent))
            && (d.listener.Some? ==>
                  && |f| >= at + 20 && f[at] == 3 && f[at + 4] == la && f[at + 5] == 1
                  && ThreePacked(f[at + 14], d.listenerEvent) && FourPacked(f[at + 15], d.listener.value.substate))
  {
    PartsAreValid(d);
    var f := Frame(src, d);
    var tail := END_MARK + Padding(|Pdu(src, d)|);
    var rest := EncodeMessages(ListenerPart(d)) + tail;
    FrameLaidOut(src, d, tail, rest);
    HeaderOctets(src, f);
    DomainOctets(d, f, rest);
    var at := TalkerOctets(d, f, rest);
    ListenerOctets(d, f, at, tail);
  }

  lemma PacksRead(event: Byte, substate: Byte)
    requires event < 6 && substate < 4
    ensures ThreePacked(Pack3(event), event) && FourPacked(Pack4(substate), substate)
  {
    EventReads(event);
    SubstateReads(substate);
  }

  lemma EventReads(event: Byte)
    requires event < 6
    ensures ThreePacked(Pack3(event), event)
  {
    OctetReads(36 * event, event);
    assert Pack3(event) == 36 * event;
  }

  lemma OctetReads(octet: Byte, event: Byte)
    requires event < 6 && octet == 36 * event
    ensures ThreePacked(octet, event)
  {
    assert octet == 0 || octet == 36 || octet == 72 || octet == 108 || octet == 144 || octet == 180;
  }

  lemma SubstateReads(substate: Byte)
    requires substate < 4
    ensures FourPacked(Pack4(substate), substate)
  {
    assert Pack4(substate) == 64 * substate;
  }

  lemma DomainOctets(d: Declaration, f: seq<Byte>, rest: seq<Byte>)
    requires d.Valid() && d.domainEvent < 6 && |f| >= 64 && ValidMessage(DomainPart(d)) && ValidPdu(TalkerPart(d))
    requires f[15..] == EncodeMessage(DomainPart(d)) + (EncodeMessages(TalkerPart(d)) + rest)
    ensures f[15] == 4 && f[19] == (if d.leaveAll then 0x20 else 0) && f[20] == 1
    ensures ThreePacked(f[25], d.domainEvent) && f[28..] == EncodeMessages(TalkerPart(d)) + rest
  {
    var first := DomainBytes(d.srClass, d.srPrio, d.vid);
    PacksRead(d.domainEvent, 0);
    OneOnTheWire(DOMAIN, d.leaveAll, first, [Pack3(d.domainEvent)], f, 15, EncodeMessages(TalkerPart(d)) + rest);
  }

  lemma TalkerOctets(d: Declaration, f: seq<Byte>, rest: seq<Byte>) returns (at: nat)
    requires d.Valid() && d.talkerEvent < 6 && |f| >= 28 && ValidPdu(TalkerPart(d))
    requires f[28..] == EncodeMessages(TalkerPart(d)) + rest
    ensures at == (if d.talker.Some? then 62 else 28) && at <= |f| && f[at..] == rest
    ensures d.talker.Some? ==>
              && f[28] == 1 && f[32] == (if d.leaveAll then 0x20 else 0) && f[33] == 1
              && ThreePacked(f[59], d.talkerEvent)
  {
    if d.talker.Some? {
      OneEncoded(TalkerPart(d)[0]);
      PacksRead(d.talkerEvent, 0);
      OneOnTheWire(TALKER_ADV, d.leaveAll, AdvertBytes(d.talker.value), [Pack3(d.talkerEvent)], f, 28, rest);
      at := 62;
    } else {
      at := 28;
    }
  }

  lemma ListenerOctets(d: Declaration, f: seq<Byte>, at: nat, tail: seq<Byte>)
    requires d.Valid() && d.listenerEvent < 6 && (d.listener.Some? ==> d.listener.value.substate < 4)
    requires at <= |f| && ValidPdu(ListenerPart(d)) && f[at..] == EncodeMessages(ListenerPart(d)) + tail && |tail| >= 2
    ensures d.listener.Some? ==>
              && |f| >= at + 20 && f[at] == 3 && f[at + 4] == (if d.leaveAll then 0x20 else 0) && f[at + 5] == 1
              && ThreePacked(f[at + 14], d.listenerEvent) && FourPacked(f[at + 15], d.listener.value.substate)
  {
    if d.listener.Some? {
      var l := d.listener.value;
      OneEncoded(ListenerPart(d)[0]);
      PacksRead(d.listenerEvent, l.substate);
      OneOnTheWire(LISTENER, d.leaveAll, l.streamId, [Pack3(d.listenerEvent), Pack4(l.substate)], f, at, tail);
    }
  }

  lemma HeaderOctets(src: Mac, f: seq<Byte>)
    requires |f| >= 15 && f[..15] == EthernetHeader(src) + [0]
    ensures f[..6] == [0x01, 0x80, 0xC2, 0x00, 0x00, 0x0E] && f[6..12] == src && f[12..15] == [0x22, 0xEA, 0x00]
  {
    var h := f[..15];
    assert f[..6] == h[..6] && f[6..12] == h[6..12] && f[12..15] == h[12..15];
    assert Be16(MSRP_ETHERTYPE) == [0x22, 0xEA];
  }

  lemma FrameLaidOut(src: Mac, d: Declaration, tail: seq<Byte>, rest: seq<Byte>)
    requires d.Valid() && tail == END_MARK + Padding(|Pdu(src, d)|)
    requires ValidMessage(DomainPart(d)) && ValidPdu(TalkerPart(d)) && ValidPdu(ListenerPart(d))
    requires rest == EncodeMessages(ListenerPart(d)) + tail
    ensures |Frame(src, d)| >= 64 && Frame(src, d)[..15] == EthernetHeader(src) + [0]
    ensures Frame(src, d)[15..] == EncodeMessage(DomainPart(d)) + (EncodeMessages(TalkerPart(d)) + rest)
  {
    DeclarationIsValid(d);
    OneEncoded(DomainPart(d));
    EncodeConcat([DomainPart(d)], TalkerPart(d));
    EncodeConcat([DomainPart(d)] + TalkerPart(d), ListenerPart(d));
    var a, b, c := EncodeMessage(DomainPart(d)), EncodeMessages(TalkerPart(d)), EncodeMessages(ListenerPart(d));
    Unrolled(EthernetHeader(src), [0], a, b, c, END_MARK, Padding(|Pdu(src, d)|));
  }

  lemma Unrolled<T>(h: seq<T>, z: seq<T>, a: seq<T>, b: seq<T>, c: seq<T>, e: seq<T>, p: seq<T>)
    ensures ((h + (z + (a + b + c) + e)) + p)[|h| + |z|..] == a + (b + (c + (e + p)))
  {
  }

  function OneChecked(attrType: Byte, leaveAll: bool, first: seq<Byte>, events: seq<Byte>): (m: Message)
    requires attrType != 0 && |first| < 256 && |events| == Packed(attrType, 1)
    ensures ValidMessage(m)
  {
    OneIsValid(attrType, leaveAll, first, events);
    One(attrType, leaveAll, first, events)
  }

  // ---------------------------------------------------------------------------
  // The endpoint
  // ---------------------------------------------------------------------------

  lemma SameAdvert(f: seq<Byte>, g: seq<Byte>)
    requires |f| >= 25 && g == f[..25]
    ensures AdvertOf(f) == AdvertOf(g)
  {
    assert f[..8] == g[..8] && f[8..14] == g[8..14] && f[21..25] == g[21..25];
  }

  lemma Slices(b: seq<Byte>, at: nat, n: nat, lo: nat, hi: nat)
    requires at + n <= |b| && lo <= hi <= n
    ensures b[at..at + n][lo..hi] == b[at + lo..at + hi]
  {
    var c, d := b[at..at + n][lo..hi], b[at + lo..at + hi];
    assert forall k :: 0 <= k < hi - lo ==> c[k] == b[at + lo + k] && d[k] == b[at + lo + k];
  }

  lemma HearFirst(s: State, v: Visit, rest: seq<Visit>, now: Word32, t: State, final: State)
    requires HearAll(s, [v] + rest, now) == final && t == Hear(s, v, now)
    ensures HearAll(t, rest, now) == final
  {
    assert ([v] + rest)[1..] == rest;
  }

  lemma VisitNext(b: seq<Byte>, vp: nat, end: nat, attrType: Byte, attrLen: Byte, next: nat, v: Visit)
    requires vp + 2 + attrLen <= end <= |b| && At16(b, vp) != 0
    requires next == vp + 2 + attrLen + Packed(attrType, At16(b, vp) % 0x2000)
    requires v == Visit(attrType, b[vp + 2..vp + 2 + attrLen])
    ensures VectorVisits(b, vp, end, attrType, attrLen) == [v] + VectorVisits(b, next, end, attrType, attrLen)
  {
  }

  lemma MessageNext(b: seq<Byte>, p: nat, end: nat, s: State, now: Word32, final: State)
    requires ListEnd(b, p) == Some(end) && HearAll(s, MessageVisits(b, p), now) == final
    ensures HearAll(HearAll(s, VectorVisits(b, p + 4, end, b[p], b[p + 1]), now), MessageVisits(b, end), now) == final
  {
    HearAllSplits(s, VectorVisits(b, p + 4, end, b[p], b[p + 1]), MessageVisits(b, end), now);
  }

  lemma OneEncoded(m: Message)
    requires ValidMessage(m)
    ensures ValidPdu([m]) && EncodeMessages([m]) == EncodeMessage(m)
  {
    assert [m][1..] == [];
  }

  lemma EncodeFirst(ms: seq<Message>)
    requires ValidPdu(ms) && ms != []
    ensures EncodeMessages(ms) == EncodeMessage(ms[0]) + EncodeMessages(ms[1..])
  {
  }

  lemma Associate<T>(x: seq<T>, y: seq<T>, z: seq<T>)
    ensures x + (y + z) == (x + y) + z
  {
  }

  lemma {:induction false} EncodeConcat(a: seq<Message>, b: seq<Message>)
    requires ValidPdu(a) && ValidPdu(b)
    ensures ValidPdu(a + b) && EncodeMessages(a + b) == EncodeMessages(a) + EncodeMessages(b)
    decreases |a|
  {
    if a == [] {
      assert a + b == b;
    } else {
      var c := a + b;
      assert c[1..] == a[1..] + b && c[0] == a[0];
      EncodeConcat(a[1..], b);
      EncodeFirst(c);
      EncodeFirst(a);
      Associate(EncodeMessage(a[0]), EncodeMessages(a[1..]), EncodeMessages(b));
    }
  }

  /** The parts in order are the PDU up to its end mark. */
  lemma FrameWritten(src: Mac, d: Declaration, written: seq<Byte>)
    requires d.Valid() && ValidMessage(DomainPart(d)) && ValidPdu(TalkerPart(d)) && ValidPdu(ListenerPart(d))
    requires written == EthernetHeader(src) + [0] + EncodeMessage(DomainPart(d)) + EncodeMessages(TalkerPart(d)) +
                        EncodeMessages(ListenerPart(d))
    ensures written + END_MARK == Pdu(src, d)
  {
    DeclarationIsValid(d);
    OneEncoded(DomainPart(d));
    EncodeConcat([DomainPart(d)], TalkerPart(d));
    EncodeConcat([DomainPart(d)] + TalkerPart(d), ListenerPart(d));
    Gathered(EthernetHeader(src), [0], EncodeMessage(DomainPart(d)), EncodeMessages(TalkerPart(d)),
             EncodeMessages(ListenerPart(d)), END_MARK);
  }

  lemma Gathered<T>(a: seq<T>, b: seq<T>, c: seq<T>, d: seq<T>, e: seq<T>, f: seq<T>)
    ensures (a + b + c + d + e) + f == a + (b + (c + d + e) + f)
  {
  }

  /** Type, length, a gap, the content; then the gap filled and the end mark: one encoded message. */
  lemma MessageWritten(pre: seq<Byte>, gap: seq<Byte>, attrType: Byte, leaveAll: bool, first: seq<Byte>,
                       events: seq<Byte>, content: seq<Byte>, was: seq<Byte>, now: seq<Byte>)
    requires attrType != 0 && |first| < 256 && |events| == Packed(attrType, 1) && |events| <= 2 && |gap| == 2
    requires content == Be16(VectorHeader(leaveAll)) + first + events
    requires was == pre + [attrType, |first|] + gap + content
    requires var list := |pre| + 2;
             now == was[..list] + Be16(|was| - list) + was[list + 2..] + END_MARK
    ensures var m := One(attrType, leaveAll, first, events);
            ValidMessage(m) && now == pre + EncodeMessage(m)
  {
    var list := |pre| + 2;
    OneIsValid(attrType, leaveAll, first, events);
    assert was[..list] == pre + [attrType, |first|] && was[list + 2..] == content;
    Joined(pre, [attrType, |first|], Be16(2 + |content|), content, END_MARK);
  }

  lemma Joined<T>(a: seq<T>, b: seq<T>, c: seq<T>, d: seq<T>, e: seq<T>)
    ensures ((a + b) + c) + d + e == a + (b + c + (d + e))
  {
  }

  class SrpState {
    const srcMac: Mac
    var talkerEnabled: bool
    var talker: Advert
    var listener: Listener
    var joinCount: Word32
    var rx: Rx
    var talkerNewCount: nat
    var domainNewCount: nat
    const remoteTalkers: array<Entry>

    predicate Valid()
      reads this, remoteTalkers
    {
      remoteTalkers.Length == SLOTS && ValidAdvert(talker) && rx.srVid < 0x1_0000
    }

    function Snapshot(): State
      requires remoteTalkers.Length == SLOTS
      reads this, remoteTalkers
    {
      State(rx, listener, remoteTalkers[..])
    }

    constructor (mac: Mac)
      ensures Valid() && fresh(remoteTalkers) && srcMac == mac
      ensures Snapshot() == State(Rx(false, 0, 0, 0, false, 0, 0, 0, 0, 0, 0, 0), Listener(false,
          NO_ADVERT.streamId, 1, 0), Empty())
      ensures !talkerEnabled && talkerNewCount == domainNewCount == 0
    {
      srcMac := mac;
      talkerEnabled, talker := false, NO_ADVERT;
      listener := Listener(false, NO_ADVERT.streamId, 1, 0);
      joinCount := 0;
      rx := Rx(false, 0, 0, 0, false, 0, 0, 0, 0, 0, 0, 0);
      talkerNewCount, domainNewCount := 0, 0;
      remoteTalkers := new Entry[SLOTS](_ => Entry(false, NO_ADVERT, 0));
      new;
      assert remoteTalkers[..] == Empty();
    }

    // The table

    /** One pass: a match ends it, else the first free entry, else the oldest. */
    method FindSlot(id: StreamId) returns (slot: nat)
      requires Valid()
      ensures slot == SlotFor(remoteTalkers[..], id)
    {
      ghost var t := remoteTalkers[..];
      var found, oldest := SLOTS, 0;
      var oldestTime: nat := 0xFFFF_FFFF;
      var i := 0;
      while i < SLOTS
        invariant 0 <= i <= SLOTS && MatchFrom(t, id, 0) == MatchFrom(t, id, i)
        invariant if FreeFrom(t, 0) < i then found == FreeFrom(t, 0)
                  else found == SLOTS && FreeFrom(t, 0) == FreeFrom(t, i)
        invariant i == 0 ==> oldest == 0 && oldestTime == 0xFFFF_FFFF
        invariant found == SLOTS ==> forall j :: 0 <= j < i ==> t[j].valid && oldestTime <= t[j].lastSeen
        invariant found == SLOTS && i > 0 ==> oldest < i && t[oldest].lastSeen == oldestTime
        invariant found == SLOTS ==> forall j :: 0 <= j < oldest ==> oldestTime < t[j].lastSeen
      {
        if remoteTalkers[i].valid {
          if remoteTalkers[i].adv.streamId == id {
            return i;
          }
          if remoteTalkers[i].lastSeen < oldestTime {
            oldestTime, oldest := remoteTalkers[i].lastSeen, i;
          }
        } else if found == SLOTS {
          found := i;
        }
        i := i + 1;
      }
      slot := if found == SLOTS then oldest else found;
    }

    method Register(adv: Advert, now: Word32)
      requires Valid()
      modifies remoteTalkers
      ensures Valid() && remoteTalkers[..] == Upsert(old(remoteTalkers[..]), adv, now)
    {
      var slot := FindSlot(adv.streamId);
      remoteTalkers[slot] := Entry(true, adv, now);
    }

    method FindTalker(id: StreamId) returns (r: Option<Entry>)
      requires Valid()
      ensures r == Find(remoteTalkers[..], id)
    {
      ghost var t := remoteTalkers[..];
      for i := 0 to SLOTS
        invariant MatchFrom(t, id, 0) == MatchFrom(t, id, i)
      {
        if remoteTalkers[i].valid && remoteTalkers[i].adv.streamId == id {
          return Some(remoteTalkers[i]);
        }
      }
      r := None;
    }

    /** The part of the poll that ages the table. */
    method AgeTalkers(now: Word32)
      requires Valid()
      modifies remoteTalkers
      ensures Valid() && remoteTalkers[..] == Age(old(remoteTalkers[..]), now)
    {
      ghost var t := remoteTalkers[..];
      for i := 0 to SLOTS
        invariant forall k :: 0 <= k < i ==> remoteTalkers[k] == AgeEntry(t[k], now)
        invariant forall k :: i <= k < SLOTS ==> remoteTalkers[k] == t[k]
      {
        if remoteTalkers[i].valid {
          var age := U32(now - remoteTalkers[i].lastSeen);
          if age > WRAP_GUARD {
            age := 0;
          }
          if age >= TIMEOUT {
            remoteTalkers[i] := remoteTalkers[i].(valid := false);
          }
        }
      }
    }

    // Receiving

    /** A TalkerAdvertise at offset vp. */
    method HandleAdvert(frame: array<Byte>, vp: nat, now: Word32)
      requires Valid() && vp + 25 <= frame.Length
      modifies this`rx, this`listener, remoteTalkers
      ensures Valid() && Snapshot() == HearAdvert(old(Snapshot()), AdvertOf(old(frame[vp..vp + 25])), now)
    {
      ghost var f := frame[vp..vp + 25];
      var adv := Advert(frame[vp..vp + 8], frame[vp + 8..vp + 14], frame[vp + 14] as int * 256 + frame[vp + 15] as int,
                        frame[vp + 16] as int * 256 + frame[vp + 17] as int,
                        frame[vp + 18] as int * 256 + frame[vp + 19] as int,
                        frame[vp + 20], FromBe32(frame[vp + 21..vp + 25]));
      Slices(frame[..], vp, 25, 0, 8);
      Slices(frame[..], vp, 25, 8, 14);
      Slices(frame[..], vp, 25, 21, 25);
      assert adv == AdvertOf(f);
      rx := rx.(adverts := U32(rx.adverts + 1));
      Register(adv, now);
      if listener.enabled {
        if adv.streamId == listener.streamId {
          rx := rx.(matches := U32(rx.matches + 1), talkerRegistered := true, talkerLastSeen := now);
          listener := listener.(substate := READY);
        }
      }
    }

    /** One vector whose FirstValue is at offset vp. */
    method HandleVector(frame: array<Byte>, vp: nat, attrType: Byte, attrLen: Byte, now: Word32)
      requires Valid() && vp + attrLen <= frame.Length
      modifies this`rx, this`listener, remoteTalkers
      ensures Valid() && Snapshot() == Hear(old(Snapshot()), Visit(attrType, old(frame[vp..vp + attrLen])), now)
    {
      ghost var f := frame[vp..vp + attrLen];
      if attrType == DOMAIN && attrLen >= 4 {
        rx := rx.(domains := U32(rx.domains + 1), domainReceived := true, srClass := frame[vp], srPrio := frame[vp + 1],
                  srVid := frame[vp + 2] as int * 256 + frame[vp + 3] as int);
      }
      if attrType == TALKER_FAIL {
        rx := rx.(fails := U32(rx.fails + 1));
      }
      if attrType == LISTENER {
        rx := rx.(listeners := U32(rx.listeners + 1));
      }
      if attrType == TALKER_ADV && attrLen >= 25 {
        SameAdvert(f, frame[vp..vp + 25]);
        HandleAdvert(frame, vp, now);
      }
    }

    /** The vectors of one attribute list. */
    method HandleList(frame: array<Byte>, len: nat, start: nat, end: nat, attrType: Byte, attrLen: Byte, now: Word32)
      requires Valid() && start <= end <= len <= frame.Length
      modifies this`rx, this`listener, remoteTalkers
      ensures Valid()
      ensures Snapshot() == HearAll(old(Snapshot()), VectorVisits(old(frame[..len]), start, end, attrType,
          attrLen), now)
    {
      ghost var b, first := frame[..len], Snapshot();
      ghost var left := VectorVisits(b, start, end, attrType, attrLen);
      ghost var final := HearAll(first, left, now);
      var vp := start;
      while vp + 2 <= end
        invariant Valid() && frame[..len] == b
        invariant left == VectorVisits(b, vp, end, attrType, attrLen)
        invariant HearAll(Snapshot(), left, now) == final
        decreases end - vp
      {
        var hdr := frame[vp] as int * 256 + frame[vp + 1] as int;
        if hdr == 0 || vp + 2 + attrLen > end {
          return;
        }
        var at, numValues := vp + 2, hdr % 0x2000;
        ghost var v := Visit(attrType, frame[at..at + attrLen]);
        ghost var next := at + attrLen + Packed(attrType, numValues);
        VisitNext(b, vp, end, attrType, attrLen, next, v);
        ghost var rest := VectorVisits(b, next, end, attrType, attrLen);
        HandleOne(frame, at, attrType, attrLen, now, v, rest, final);
        left := rest;
        vp := at + attrLen + (numValues + 2) / 3;
        if attrType == LISTENER {
          vp := vp + (numValues + 3) / 4;
        }
        assert vp == next;
      }
    }

    /** One vector, with what is left to be done after it. */
    method HandleOne(frame: array<Byte>, at: nat, attrType: Byte, attrLen: Byte, now: Word32,
                     ghost v: Visit, ghost rest: seq<Visit>, ghost final: State)
      requires Valid() && at + attrLen <= frame.Length && v == Visit(attrType, frame[at..at + attrLen])
      requires HearAll(Snapshot(), [v] + rest, now) == final
      modifies this`rx, this`listener, remoteTalkers
      ensures Valid() && HearAll(Snapshot(), rest, now) == final
    {
      ghost var before := Snapshot();
      HandleVector(frame, at, attrType, attrLen, now);
      HearFirst(before, v, rest, now, Snapshot(), final);
    }

    /** One message, with what is left to be done after it. */
    method HandleMessage(frame: array<Byte>, len: nat, p: nat, end: nat, now: Word32, ghost final: State)
      requires Valid() && p + 4 <= end <= len <= frame.Length
      requires ListEnd(frame[..len], p) == Some(end) && HearAll(Snapshot(), MessageVisits(frame[..len], p),
          now) == final
      modifies this`rx, this`listener, remoteTalkers
      ensures Valid() && frame[..len] == old(frame[..len])
      ensures HearAll(Snapshot(), MessageVisits(frame[..len], end), now) == final
    {
      MessageNext(frame[..len], p, end, Snapshot(), now, final);
      HandleList(frame, len, p + 4, end, frame[p], frame[p + 1], now);
    }

    /** A received frame of `len` octets. */
    method ProcessRx(frame: array<Byte>, len: nat, now: Word32)
      requires Valid() && len <= frame.Length
      modifies this`rx, this`listener, remoteTalkers
      ensures Valid() && Snapshot() == Receive(old(Snapshot()), old(frame[..len]), now)
    {
      if len < 16 {
        return;
      }
      if frame[12] as int * 256 + frame[13] as int != MSRP_ETHERTYPE {
        return;
      }
      if frame[14] != 0 {
        return;
      }
      rx := rx.(pdus := U32(rx.pdus + 1));
      ParseMessages(frame, len, now);
    }

    /** The messages of an accepted frame. */
    method ParseMessages(frame: array<Byte>, len: nat, now: Word32)
      requires Valid() && 16 <= len <= frame.Length
      modifies this`rx, this`listener, remoteTalkers
      ensures Valid() && Snapshot() == HearAll(old(Snapshot()), MessageVisits(old(frame[..len]), 15), now)
    {
      ghost var final := HearAll(Snapshot(), MessageVisits(frame[..len], 15), now);
      var p := 15;
      while p + 4 <= len
        invariant Valid() && frame[..len] == old(frame[..len])
        invariant HearAll(Snapshot(), MessageVisits(frame[..len], p), now) == final
        decreases len - p
      {
        if frame[p] == 0 && frame[p + 1] == 0 {
          return;
        }
        var end := p + 4 + (frame[p + 2] as int * 256 + frame[p + 3] as int);
        if end > len {
          return;
        }
        HandleMessage(frame, len, p, end, now, final);
        p := end;
      }
    }

    // Sending

    function Own(): Sender
      reads this
    {
      Sender(talkerEnabled, talker, talkerNewCount, domainNewCount)
    }

    /** What a transmission now would declare. */
    function Declares(leaveAll: bool): (d: Declaration)
      requires Valid()
      reads this, remoteTalkers
      ensures d.Valid()
    {
      DeclarationOf(rx, listener, Own(), leaveAll)
    }

    /** Writes octets and advances. */
    method Put(buf: array<Byte>, p: nat, bytes: seq<Byte>) returns (q: nat)
      requires p + |bytes| <= buf.Length
      modifies buf
      ensures q == p + |bytes| && buf[..q] == old(buf[..p]) + bytes && buf[q..] == old(buf[q..])
    {
      forall i | 0 <= i < |bytes| {
        buf[p + i] := bytes[i];
      }
      q := p + |bytes|;
    }

    /** The end mark, and the length of the list, which starts at `list` and includes the mark. */
    method EndList(buf: array<Byte>, list: nat, p: nat) returns (q: nat)
      requires list + 2 <= p && p + 2 <= buf.Length && p - list < 0xFFFF
      modifies buf
      ensures q == p + 2
      ensures buf[..q] == old(buf[..list]) + Be16(p - list) + old(buf[list + 2..p]) + END_MARK
    {
      ghost var was := buf[..p];
      q := Put(buf, p, END_MARK);
      PutLength(buf, list, q);
      assert (was + END_MARK)[..list] == was[..list] && (was + END_MARK)[list + 2..] == was[list + 2..] + END_MARK;
    }

    /** The length of what follows it. */
    method PutLength(buf: array<Byte>, list: nat, q: nat)
      requires list + 2 <= q <= buf.Length && q - list - 2 < 0x1_0000
      modifies buf
      ensures buf[..q] == old(buf[..list]) + Be16(q - list - 2) + old(buf[list + 2..q])
    {
      var n := q - (list + 2);
      buf[list], buf[list + 1] := n / 256, n % 256;
      assert buf[list..list + 2] == Be16(n);
      assert buf[..q] == buf[..list] + buf[list..list + 2] + buf[list + 2..q];
    }

    /** Type and length of a message, and the gap for the length of its list. */
    method BeginMessage(buf: array<Byte>, at: nat, attrType: Byte, attrLen: Byte) returns (list: nat, p: nat)
      requires at + 4 <= buf.Length
      modifies buf
      ensures list == at + 2 && p == at + 4
      ensures buf[..p] == old(buf[..at]) + [attrType, attrLen] + old(buf[at + 2..p])
    {
      ghost var gap := buf[at + 2..at + 4];
      p := Put(buf, at, [attrType, attrLen]);
      list := p;
      p := p + 2;
      assert buf[list..][..2] == gap;
    }

    method EmitDomain(buf: array<Byte>, at: nat, srClass: Byte, srPrio: Byte, vid: nat, leaveAll: bool, event: Byte)
        returns (p: nat)
      requires at + 13 <= buf.Length && vid < 0x1_0000
      modifies buf
      ensures var m := One(DOMAIN, leaveAll, DomainBytes(srClass, srPrio, vid), [Pack3(event)]);
              ValidMessage(m) && p == at + 13 && buf[..p] == old(buf[..at]) + EncodeMessage(m)
    {
      ghost var pre, gap := buf[..at], buf[at + 2..at + 4];
      var list;
      list, p := BeginMessage(buf, at, DOMAIN, 4);
      ghost var head := buf[..p];
      ghost var hdr, first := Be16(VectorHeader(leaveAll)), DomainBytes(srClass, srPrio, vid);
      p := Put(buf, p, Be16(VectorHeader(leaveAll)));
      p := Put(buf, p, [srClass, srPrio]);
      p := Put(buf, p, Be16(vid));
      p := Put(buf, p, [Pack3(event)]);
      ghost var was := buf[..p];
      assert was == head + (hdr + first + [Pack3(event)]);
      p := EndList(buf, list, p);
      MessageWritten(pre, gap, DOMAIN, leaveAll, first, [Pack3(event)], hdr + first + [Pack3(event)], was, buf[..p]);
    }

    method EmitTalkerAdv(buf: array<Byte>, at: nat, a: Advert, leaveAll: bool, event: Byte) returns (p: nat)
      requires at + 34 <= buf.Length && ValidAdvert(a)
      modifies buf
      ensures var m := One(TALKER_ADV, leaveAll, AdvertBytes(a), [Pack3(event)]);
              ValidMessage(m) && p == at + 34 && buf[..p] == old(buf[..at]) + EncodeMessage(m)
    {
      ghost var pre, gap := buf[..at], buf[at + 2..at + 4];
      var list;
      list, p := BeginMessage(buf, at, TALKER_ADV, 25);
      ghost var head := buf[..p];
      ghost var hdr := Be16(VectorHeader(leaveAll));
      p := Put(buf, p, Be16(VectorHeader(leaveAll)));
      p := PutAdvert(buf, p, a);
      p := Put(buf, p, [Pack3(event)]);
      ghost var was := buf[..p];
      assert was == head + (hdr + AdvertBytes(a) + [Pack3(event)]);
      p := EndList(buf, list, p);
      MessageWritten(pre, gap, TALKER_ADV, leaveAll, AdvertBytes(a), [Pack3(event)],
                     hdr + AdvertBytes(a) + [Pack3(event)], was, buf[..p]);
    }

    /** The FirstValue of a TalkerAdvertise, field by field. */
    method PutAdvert(buf: array<Byte>, at: nat, a: Advert) returns (p: nat)
      requires at + 25 <= buf.Length && ValidAdvert(a)
      modifies buf
      ensures p == at + 25 && buf[..p] == old(buf[..at]) + AdvertBytes(a)
    {
      ghost var pre := buf[..at];
      p := Put(buf, at, a.streamId);
      p := Put(buf, p, a.destMac);
      p := Put(buf, p, Be16(a.vlanId));
      p := Put(buf, p, Be16(a.maxFrameSize));
      p := Put(buf, p, Be16(a.maxIntervalFrames));
      p := Put(buf, p, [a.priorityAndRank]);
      p := Put(buf, p, Be32(a.latency));
      assert buf[..p] == pre + AdvertBytes(a);
    }

    method EmitListener(buf: array<Byte>, at: nat, id: StreamId, substate: Byte, leaveAll: bool, event: Byte)
        returns (p: nat)
      requires at + 18 <= buf.Length
      modifies buf
      ensures var m := One(LISTENER, leaveAll, id, [Pack3(event), Pack4(substate)]);
              ValidMessage(m) && p == at + 18 && buf[..p] == old(buf[..at]) + EncodeMessage(m)
    {
      ghost var pre, gap := buf[..at], buf[at + 2..at + 4];
      var list;
      list, p := BeginMessage(buf, at, LISTENER, 8);
      ghost var head := buf[..p];
      ghost var hdr, events := Be16(VectorHeader(leaveAll)), [Pack3(event), Pack4(substate)];
      p := Put(buf, p, Be16(VectorHeader(leaveAll)));
      p := Put(buf, p, id);
      p := Put(buf, p, [Pack3(event)]);
      p := Put(buf, p, [Pack4(substate)]);
      ghost var was := buf[..p];
      assert was == head + (hdr + id + events);
      p := EndList(buf, list, p);
      MessageWritten(pre, gap, LISTENER, leaveAll, id, events, hdr + id + events, was, buf[..p]);
    }

    /** Ethernet header and protocol version. */
    method BeginFrame(buf: array<Byte>) returns (p: nat)
      requires buf.Length >= MAX_FRAME
      modifies buf
      ensures p == 15 && buf[..p] == EthernetHeader(srcMac) + [0]
    {
      p := Put(buf, 0, MCAST);
      p := Put(buf, p, srcMac);
      p := Put(buf, p, Be16(MSRP_ETHERTYPE));
      assert buf[..p] == EthernetHeader(srcMac);
      p := Put(buf, p, [0]);
    }

    /** The end mark of the PDU and the padding. */
    method EndFrame(buf: array<Byte>, at: nat) returns (len: nat)
      requires buf.Length >= MAX_FRAME && at <= 100
      modifies buf
      ensures var pdu := old(buf[..at]) + END_MARK;
              len <= MAX_FRAME && buf[..len] == pdu + Padding(|pdu|)
    {
      var p := Put(buf, at, END_MARK);
      len := p;
      if len < MIN_FRAME {
        len := Put(buf, p, ZeroBytes(MIN_FRAME - len));
      } else {
        assert buf[..len] == buf[..len] + ZeroBytes(0);
      }
    }

    /** The domain: a new attribute in the first two transmissions. */
    method DeclareDomain(buf: array<Byte>, at: nat, leaveAll: bool) returns (p: nat)
      requires Valid() && at + 13 <= buf.Length
      modifies buf, this`domainNewCount
      ensures Valid() && p == at + 13 && ValidMessage(DomainPart(old(Declares(leaveAll))))
      ensures buf[..p] == old(buf[..at]) + EncodeMessage(DomainPart(old(Declares(leaveAll))))
      ensures domainNewCount == Counted(old(domainNewCount))
    {
      var srClass, srPrio, vid := SR_CLASS_A, SR_CLASS_A_PRIO, SR_CLASS_A_VID;
      if rx.domainReceived {
        srClass, srPrio, vid := rx.srClass, rx.srPrio, rx.srVid;
      }
      var event := if domainNewCount < 2 then EVT_NEW else EVT_JOIN_IN;
      p := EmitDomain(buf, at, srClass, srPrio, vid, leaveAll, event);
      if domainNewCount < 2 {
        domainNewCount := domainNewCount + 1;
      }
    }

    /** The talker, if enabled: it first takes over the declared priority and VLAN. */
    method DeclareTalker(buf: array<Byte>, at: nat, leaveAll: bool, ghost d: Declaration) returns (p: nat)
      requires Valid() && at + 34 <= buf.Length && d.Valid() && d.leaveAll == leaveAll
      requires d.srPrio == Declares(leaveAll).srPrio && d.vid == Declares(leaveAll).vid
      requires d.talker == Declares(leaveAll).talker && d.talkerEvent == EventFor(talkerNewCount)
      modifies buf, this`talker, this`talkerNewCount
      ensures Valid() && at <= p <= at + 34 && ValidPdu(TalkerPart(d))
      ensures buf[..p] == old(buf[..at]) + EncodeMessages(TalkerPart(d))
      ensures talker == (if talkerEnabled then Synced(old(talker), d.srPrio, d.vid) else old(talker))
      ensures talkerNewCount == (if talkerEnabled then Counted(old(talkerNewCount)) else old(talkerNewCount))
    {
      p := at;
      if talkerEnabled {
        var prio, vid := SR_CLASS_A_PRIO, SR_CLASS_A_VID;
        if rx.domainReceived {
          prio, vid := rx.srPrio, rx.srVid;
        }
        talker := Synced(talker, prio, vid);
        p := EmitTalkerAdv(buf, at, talker, leaveAll, EventFor(talkerNewCount));
        OneEncoded(TalkerPart(d)[0]);
        if talkerNewCount < 2 {
          talkerNewCount := talkerNewCount + 1;
        }
      } else {
        assert buf[..p] + [] == buf[..p];
      }
    }

    /** The listener, if enabled. */
    method DeclareListener(buf: array<Byte>, at: nat, leaveAll: bool, ghost d: Declaration) returns (p: nat)
      requires at + 18 <= buf.Length && d.leaveAll == leaveAll
      requires d.listener == (if listener.enabled then Some(listener) else None)
          && d.listenerEvent == EventFor(listener.newCount)
      modifies buf, this`listener
      ensures at <= p <= at + 18 && ValidPdu(ListenerPart(d))
      ensures buf[..p] == old(buf[..at]) + EncodeMessages(ListenerPart(d))
      ensures listener == (if old(listener).enabled then old(listener).(newCount := Counted(old(listener).newCount))
                           else old(listener))
    {
      p := at;
      if listener.enabled {
        p := EmitListener(buf, at, listener.streamId, listener.substate, leaveAll, EventFor(listener.newCount));
        OneEncoded(ListenerPart(d)[0]);
        if listener.newCount < 2 {
          listener := listener.(newCount := listener.newCount + 1);
        }
      } else {
        assert buf[..p] + [] == buf[..p];
      }
    }

    /**
     One transmission: the frame of everything this endpoint has to declare, in place, with each
     attribute announced as new in its first two transmissions.
     */
    method SendDeclarations(buf: array<Byte>, leaveAll: bool) returns (len: nat)
      requires Valid() && buf.Length >= MAX_FRAME
      modifies buf, this`talker, this`talkerNewCount, this`domainNewCount, this`listener, this`joinCount
      ensures Valid() && len <= MAX_FRAME && buf[..len] == Frame(srcMac, old(Declares(leaveAll)))
      ensures Own() == SenderAfter(rx, old(Own())) && listener == ListenerAfter(old(listener))
      ensures joinCount == U32(old(joinCount) + 1)
    {
      ghost var d := Declares(leaveAll);
      var p := BeginFrame(buf);
      p := DeclareDomain(buf, p, leaveAll);
      p := DeclareTalker(buf, p, leaveAll, d);
      p := DeclareListener(buf, p, leaveAll, d);
      FrameWritten(srcMac, d, buf[..p]);
      len := EndFrame(buf, p);
      joinCount := U32(joinCount + 1);
    }
  }
}
