/**
 MRP data units (section 10.8 of IEEE 802.1Q-2018) as the firmware builds and reads them: the
 grammar, its encoding and the two-level parser of srp_process_rx.
 */
module Mrpdu {
  import opened Bytes

  const TALKER_ADV: Byte := 1
  const TALKER_FAIL: Byte := 2
  const LISTENER: Byte := 3
  const DOMAIN: Byte := 4

  const END_MARK: seq<Byte> := [0, 0]

  // ---------------------------------------------------------------------------
  // The grammar
  // ---------------------------------------------------------------------------

  /** `leaveAll` is the three-bit LeaveAllEvent, `events` the packed events that follow FirstValue. */
  datatype Vector = Vector(leaveAll: nat, numValues: nat, first: seq<Byte>, events: seq<Byte>)

  datatype Message = Message(attrType: Byte, attrLen: Byte, vectors: seq<Vector>)

  /** Octets of packed events: three values each, and for listeners four declarations each. */
  function Packed(attrType: Byte, numValues: nat): nat {
    (numValues + 2) / 3 + if attrType == LISTENER then (numValues + 3) / 4 else 0
  }

  /** Just enough octets: the last one is needed. */
  lemma PackedIsEnough(attrType: Byte, n: nat)
    ensures var p := Packed(attrType, n);
            if attrType == LISTENER then
              exists three: nat, four: nat :: p == three + four && JustEnough(three, 3, n) && JustEnough(four, 4, n)
            else JustEnough(p, 3, n)
  {
    assert JustEnough((n + 2) / 3, 3, n) && JustEnough((n + 3) / 4, 4, n);
  }

  predicate JustEnough(octets: nat, each: nat, n: nat) { octets * each >= n && (octets > 0 ==> (octets - 1) * each < n) }

  function Header(v: Vector): nat { v.leaveAll * 0x2000 + v.numValues }

  predicate ValidVector(attrType: Byte, attrLen: Byte, v: Vector) {
    && v.leaveAll < 8 && v.numValues < 0x2000
    && |v.first| == attrLen && |v.events| == Packed(attrType, v.numValues)
  }

  /** No header is zero: neither LeaveAll nor a value reads as an end mark. */
  predicate NoEndMark(vs: seq<Vector>) { forall k :: 0 <= k < |vs| ==> Header(vs[k]) != 0 }

  predicate ValidVectors(attrType: Byte, attrLen: Byte, vs: seq<Vector>) {
    forall k :: 0 <= k < |vs| ==> ValidVector(attrType, attrLen, vs[k])
  }

  function EncodeVector(v: Vector): seq<Byte>
    requires Header(v) < 0x1_0000
  {
    Be16(Header(v)) + v.first + v.events
  }

  function EncodeVectors(attrType: Byte, attrLen: Byte, vs: seq<Vector>): seq<Byte>
    requires ValidVectors(attrType, attrLen, vs)
  {
    if vs == [] then [] else EncodeVector(vs[0]) + EncodeVectors(attrType, attrLen, vs[1..])
  }

  /** The attribute list: the vectors and the end mark its length includes. */
  function Body(m: Message): seq<Byte>
    requires ValidVectors(m.attrType, m.attrLen, m.vectors)
  {
    EncodeVectors(m.attrType, m.attrLen, m.vectors) + END_MARK
  }

  predicate ValidMessage(m: Message) {
    && !(m.attrType == 0 && m.attrLen == 0)
    && ValidVectors(m.attrType, m.attrLen, m.vectors)
    && |Body(m)| < 0x1_0000
  }

  predicate ValidPdu(ms: seq<Message>) { forall k :: 0 <= k < |ms| ==> ValidMessage(ms[k]) }

  function EncodeMessage(m: Message): seq<Byte>
    requires ValidMessage(m)
  {
    [m.attrType, m.attrLen] + Be16(|Body(m)|) + Body(m)
  }

  function EncodeMessages(ms: seq<Message>): seq<Byte>
    requires ValidPdu(ms)
  {
    if ms == [] then [] else EncodeMessage(ms[0]) + EncodeMessages(ms[1..])
  }

  /** Protocol version 0, the messages, the end mark. */
  function EncodePdu(ms: seq<Message>): seq<Byte>
    requires ValidPdu(ms)
  {
    [0] + EncodeMessages(ms) + END_MARK
  }

  // ---------------------------------------------------------------------------
  // The parser
  // ---------------------------------------------------------------------------

  /** One vector as the parser acts on it. */
  datatype Visit = Visit(attrType: Byte, first: seq<Byte>)

  function At16(b: seq<Byte>, i: nat): (v: nat)
    requires i + 2 <= |b|
    ensures v < 0x1_0000
  {
    b[i] as int * 256 + b[i + 1] as int
  }

  /** The vectors of one attribute list, from offset vp to its end. */
  function VectorVisits(b: seq<Byte>, vp: nat, end: nat, attrType: Byte, attrLen: Byte): (vs: seq<Visit>)
    requires end <= |b|
    ensures forall k :: 0 <= k < |vs| ==> vs[k].attrType == attrType && |vs[k].first| == attrLen
    decreases if vp <= end then end - vp else 0
  {
    if vp + 2 > end then []
    else
      var hdr := At16(b, vp);
      if hdr == 0 || vp + 2 + attrLen > end then []
      else
        var next := vp + 2 + attrLen + Packed(attrType, hdr % 0x2000);
        [Visit(attrType, b[vp + 2..vp + 2 + attrLen])] + VectorVisits(b, next, end, attrType, attrLen)
  }

  /** Where the attribute list of the message at p ends, if there is such a message. */
  function ListEnd(b: seq<Byte>, p: nat): Option<nat> {
    if p + 4 > |b| then None
    else if b[p] == 0 && b[p + 1] == 0 then None
    else
      var end := p + 4 + At16(b, p + 2);
      if end > |b| then None else Some(end)
  }

  /** The messages from offset p. */
  function MessageVisits(b: seq<Byte>, p: nat): seq<Visit>
    decreases if p <= |b| then |b| - p else 0
  {
    match ListEnd(b, p)
    case None => []
    case Some(end) => VectorVisits(b, p + 4, end, b[p], b[p + 1]) + MessageVisits(b, end)
  }

  const MSRP_ETHERTYPE := 0x22EA

  /** Long enough, the right ethertype and protocol version 0. */
  predicate Accepted(frame: seq<Byte>) {
    |frame| >= 16 && At16(frame, 12) == MSRP_ETHERTYPE && frame[14] == 0
  }

  /** Everything the parser acts on in an Ethernet frame, in order. */
  function FrameVisits(frame: seq<Byte>): seq<Visit> {
    if Accepted(frame) then MessageVisits(frame, 15) else []
  }

  // ---------------------------------------------------------------------------
  // Parsing what was encoded
  // ---------------------------------------------------------------------------

  function FirstValues(m: Message): (vs: seq<Visit>)
    ensures |vs| == |m.vectors|
  {
    seq(|m.vectors|, k requires 0 <= k < |m.vectors| => Visit(m.attrType, m.vectors[k].first))
  }

  function AllFirstValues(ms: seq<Message>): seq<Visit> {
    if ms == [] then [] else FirstValues(ms[0]) + AllFirstValues(ms[1..])
  }

  /** A slice of b past an offset is the slice of the rest. */
  lemma SliceOfRest(b: seq<Byte>, p: nat, i: nat, j: nat)
    requires p <= |b| && i <= j <= |b| - p
    ensures b[p + i..p + j] == b[p..][i..j] && b[p + j..] == b[p..][j..]
  {
  }

  lemma PartsOf<T>(a: seq<T>, b: seq<T>, c: seq<T>, d: seq<T>)
    ensures var s := (a + b + c) + d;
            && s[..|a|] == a && s[|a|..|a| + |b|] == b && s[|a| + |b| + |c|..] == d
  {
  }

  lemma HeaderOf(b: seq<Byte>, vp: nat, v: Vector, rest: seq<Byte>)
    requires vp <= |b| && Header(v) < 0x1_0000 && b[vp..] == EncodeVector(v) + rest
    ensures vp + 2 + |v.first| + |v.events| <= |b|
    ensures At16(b, vp) == Header(v)
    ensures b[vp + 2..vp + 2 + |v.first|] == v.first
    ensures b[vp + 2 + |v.first| + |v.events|..] == rest
  {
    var h := Be16(Header(v));
    PartsOf(h, v.first, v.events, rest);
    assert b[vp..][..2] == h;
    assert b[vp] == h[0] && b[vp + 1] == h[1];
    SliceOfRest(b, vp, 2, 2 + |v.first|);
    SliceOfRest(b, vp, 2, 2 + |v.first| + |v.events|);
  }

  lemma NumValuesOf(v: Vector)
    requires v.leaveAll < 8 && v.numValues < 0x2000
    ensures Header(v) < 0x1_0000 && Header(v) % 0x2000 == v.numValues
  {
  }

  lemma FirstOfRest(m: Message)
    requires m.vectors != []
    ensures FirstValues(m) == [Visit(m.attrType, m.vectors[0].first)] + FirstValues(m.(vectors := m.vectors[1..]))
  {
  }

  /** The vectors before the first one that reads as an end mark. */
  function BeforeEndMark(vs: seq<Vector>): (before: seq<Vector>)
    ensures |before| <= |vs| && (NoEndMark(vs) <==> |before| == |vs|) && (NoEndMark(vs) ==> before == vs)
    decreases |vs|
  {
    if vs == [] || Header(vs[0]) == 0 then []
    else
      assert NoEndMark(vs) <==> NoEndMark(vs[1..]) by {
        assert forall k :: 0 < k < |vs| ==> vs[k] == vs[1..][k - 1];
      }
      [vs[0]] + BeforeEndMark(vs[1..])
  }

  /** The message as the parser takes it. */
  function Cut(m: Message): Message { m.(vectors := BeforeEndMark(m.vectors)) }

  function CutAll(ms: seq<Message>): (cs: seq<Message>)
    ensures |cs| == |ms|
  {
    if ms == [] then [] else [Cut(ms[0])] + CutAll(ms[1..])
  }

  lemma CutStep(m: Message, tail: Message)
    requires m.vectors != [] && Header(m.vectors[0]) != 0 && tail == m.(vectors := m.vectors[1..])
    ensures FirstValues(Cut(m)) == [Visit(m.attrType, m.vectors[0].first)] + FirstValues(Cut(tail))
  {
    FirstOfRest(Cut(m));
    assert Cut(m).vectors[1..] == Cut(tail).vectors;
  }

  lemma ListHead(m: Message, v: Vector, tail: Message, rest: seq<Byte>)
    requires ValidVectors(m.attrType, m.attrLen, m.vectors) && m.vectors != []
    requires v == m.vectors[0] && tail == m.(vectors := m.vectors[1..])
    ensures Body(m) + rest == EncodeVector(v) + (Body(tail) + rest)
    ensures |Body(m)| == 2 + |v.first| + |v.events| + |Body(tail)|
  {
  }

  /** One vector at offset vp, read. */
  lemma VectorRead(b: seq<Byte>, vp: nat, end: nat, v: Vector, attrType: Byte, attrLen: Byte, rest: seq<Byte>,
      next: nat)
    requires ValidVector(attrType, attrLen, v) && vp + 2 + |v.first| + |v.events| <= end <= |b|
    requires b[vp..] == EncodeVector(v) + rest && next == vp + 2 + |v.first| + |v.events|
    ensures next <= |b| && b[next..] == rest
    ensures VectorVisits(b, vp, end, attrType, attrLen) ==
              if Header(v) == 0 then []
              else [Visit(attrType, v.first)] + VectorVisits(b, next, end, attrType, attrLen)
  {
    HeaderOf(b, vp, v, rest);
    NumValuesOf(v);
  }

  lemma NoVectors(b: seq<Byte>, vp: nat, end: nat, attrType: Byte, attrLen: Byte, rest: seq<Byte>)
    requires vp + 2 <= end <= |b| && b[vp..] == END_MARK + rest
    ensures VectorVisits(b, vp, end, attrType, attrLen) == []
  {
    assert b[vp] == b[vp..][0] && b[vp + 1] == b[vp..][1];
  }

  /** Within one attribute list: the vectors up to the first that reads as an end mark. */
  lemma {:induction false} VectorsParse(b: seq<Byte>, vp: nat, end: nat, m: Message, rest: seq<Byte>)
    requires ValidVectors(m.attrType, m.attrLen, m.vectors)
    requires vp <= end <= |b| && b[vp..] == Body(m) + rest && end == vp + |Body(m)|
    ensures VectorVisits(b, vp, end, m.attrType, m.attrLen) == FirstValues(Cut(m))
    decreases |m.vectors|
  {
    if m.vectors == [] {
      assert Body(m) == END_MARK;
      NoVectors(b, vp, end, m.attrType, m.attrLen, rest);
    } else {
      var v, tail := m.vectors[0], m.(vectors := m.vectors[1..]);
      var next := vp + 2 + |v.first| + |v.events|;
      ListHead(m, v, tail, rest);
      VectorRead(b, vp, end, v, m.attrType, m.attrLen, Body(tail) + rest, next);
      if Header(v) != 0 {
        VectorsParse(b, next, end, tail, rest);
        CutStep(m, tail);
      }
    }
  }

  lemma MessageHead(b: seq<Byte>, p: nat, m: Message, rest: seq<Byte>)
    requires p <= |b| && ValidMessage(m) && b[p..] == EncodeMessage(m) + rest
    ensures p + 4 + |Body(m)| <= |b| && b[p] == m.attrType && b[p + 1] == m.attrLen
    ensures ListEnd(b, p) == Some(p + 4 + |Body(m)|)
    ensures b[p + 4..] == Body(m) + rest && b[p + 4 + |Body(m)|..] == rest
  {
    var s := b[p..];
    var l := Be16(|Body(m)|);
    assert s == [m.attrType, m.attrLen] + (l + (Body(m) + rest));
    assert b[p] == s[0] && b[p + 1] == s[1] && b[p + 2] == s[2] == l[0] && b[p + 3] == s[3] == l[1];
    assert b[p + 4..] == s[4..] && s[4..] == Body(m) + rest;
    assert b[p + 4 + |Body(m)|..] == s[4 + |Body(m)|..];
  }

  lemma Regroup<T>(a: seq<T>, b: seq<T>, c: seq<T>, d: seq<T>)
    ensures ((a + b) + c) + d == a + ((b + c) + d)
  {
  }

  /** The first message of what is left. */
  lemma MessageParses(b: seq<Byte>, p: nat, m: Message, rest: seq<Byte>, end: nat)
    requires p <= |b| && ValidMessage(m) && b[p..] == EncodeMessage(m) + rest && end == p + 4 + |Body(m)|
    ensures end <= |b| && b[end..] == rest && MessageVisits(b, p) == FirstValues(Cut(m)) + MessageVisits(b, end)
  {
    MessageHead(b, p, m, rest);
    VectorsParse(b, p + 4, end, m, rest);
  }

  lemma NoMessages(b: seq<Byte>, p: nat, padding: seq<Byte>)
    requires p <= |b| && b[p..] == END_MARK + padding
    ensures MessageVisits(b, p) == []
  {
    assert b[p] == b[p..][0] && b[p + 1] == b[p..][1];
  }

  /** Any number of messages, then an end mark and whatever pads the frame. */
  lemma {:induction false} MessagesParse(b: seq<Byte>, p: nat, ms: seq<Message>, padding: seq<Byte>)
    requires ValidPdu(ms) && p <= |b| && b[p..] == EncodeMessages(ms) + END_MARK + padding
    ensures MessageVisits(b, p) == AllFirstValues(CutAll(ms))
    decreases |ms|
  {
    if ms == [] {
      assert [] + END_MARK == END_MARK;
      NoMessages(b, p, padding);
    } else {
      var rest := EncodeMessages(ms[1..]) + END_MARK + padding;
      var end := p + 4 + |Body(ms[0])|;
      Regroup(EncodeMessage(ms[0]), EncodeMessages(ms[1..]), END_MARK, padding);
      MessageParses(b, p, ms[0], rest, end);
      MessagesParse(b, end, ms[1..], padding);
    }
  }

  lemma PduOffset(header: seq<Byte>, x: seq<Byte>, padding: seq<Byte>)
    requires |header| == 14
    ensures var b := header + ([0] + x + END_MARK) + padding;
            && |b| >= 17 && b[14] == 0 && b[15..] == x + END_MARK + padding
            && (forall k :: 0 <= k < 14 ==> b[k] == header[k])
  {
  }

  /**
   What the parser makes of any PDU in a frame with the right ethertype, whatever the MAC addresses
   and the padding: the FirstValues of each attribute list, in order, up to its first vector with a
   zero header. So every FirstValue is visited if and only if no header is zero.
   */
  lemma EmptyVectorHidesTheRest(header: seq<Byte>, ms: seq<Message>, padding: seq<Byte>)
    requires |header| == 14 && At16(header, 12) == MSRP_ETHERTYPE && ValidPdu(ms)
    ensures FrameVisits(header + EncodePdu(ms) + padding) == AllFirstValues(CutAll(ms))
    ensures FrameVisits(header + EncodePdu(ms) + padding) == AllFirstValues(ms) <==> NoEndMarks(ms)
  {
    var b := header + EncodePdu(ms) + padding;
    PduOffset(header, EncodeMessages(ms), padding);
    assert Accepted(b);
    MessagesParse(b, 15, ms, padding);
    CutLoses(ms);
  }

  predicate NoEndMarks(ms: seq<Message>) { forall k :: 0 <= k < |ms| ==> NoEndMark(ms[k].vectors) }

  /** Cutting keeps every FirstValue exactly when there is nothing to cut. */
  lemma {:induction false} CutLoses(ms: seq<Message>)
    ensures |AllFirstValues(CutAll(ms))| <= |AllFirstValues(ms)|
    ensures NoEndMarks(ms) <==> |AllFirstValues(CutAll(ms))| == |AllFirstValues(ms)|
    ensures NoEndMarks(ms) ==> CutAll(ms) == ms
    decreases |ms|
  {
    if ms != [] {
      CutLoses(ms[1..]);
      assert forall k :: 0 < k < |ms| ==> ms[k] == ms[1..][k - 1];
      assert NoEndMarks(ms) <==> NoEndMark(ms[0].vectors) && NoEndMarks(ms[1..]);
      assert CutAll(ms)[1..] == CutAll(ms[1..]);
    }
  }

  /** Round trip: without a zero header, the parser visits exactly the FirstValue of each vector, in order. */
  lemma ParserVisitsFirstValues(header: seq<Byte>, ms: seq<Message>, padding: seq<Byte>)
    requires |header| == 14 && At16(header, 12) == MSRP_ETHERTYPE && ValidPdu(ms) && NoEndMarks(ms)
    ensures FrameVisits(header + EncodePdu(ms) + padding) == AllFirstValues(ms)
  {
    EmptyVectorHidesTheRest(header, ms, padding);
  }

  // ---------------------------------------------------------------------------
  // Frames cut short
  // ---------------------------------------------------------------------------

  /** The leading messages that fit into n octets. */
  function Came(ms: seq<Message>, n: nat): (came: seq<Message>)
    requires ValidPdu(ms)
    ensures came <= ms
    decreases |ms|
  {
    if ms == [] || |EncodeMessage(ms[0])| > n then []
    else [ms[0]] + Came(ms[1..], n - |EncodeMessage(ms[0])|)
  }

  /** A message of which some octets are missing is skipped. */
  lemma PartMessage(b: seq<Byte>, p: nat, m: Message, rest: seq<Byte>, n: nat)
    requires ValidMessage(m) && n < |EncodeMessage(m)| && p <= |b| && b[p..] == (EncodeMessage(m) + rest)[..n]
    ensures MessageVisits(b, p) == []
  {
    if n >= 4 {
      var s, l := b[p..], Be16(|Body(m)|);
      assert s[0] == m.attrType && s[1] == m.attrLen && s[2] == l[0] && s[3] == l[1];
      assert b[p] == s[0] && b[p + 1] == s[1] && b[p + 2] == s[2] && b[p + 3] == s[3];
    }
  }

  lemma NothingLeft(b: seq<Byte>, p: nat, padding: seq<Byte>, n: nat)
    requires n <= 2 + |padding| && p <= |b| && b[p..] == (END_MARK + padding)[..n]
    ensures MessageVisits(b, p) == []
  {
    if n >= 2 {
      assert b[p] == b[p..][0] && b[p + 1] == b[p..][1];
    }
  }

  lemma FirstFits(x: seq<Byte>, y: seq<Byte>, n: nat)
    requires |x| <= n <= |x| + |y|
    ensures (x + y)[..n] == x + y[..n - |x|]
  {
  }

  lemma CutGrows(m: Message, ms: seq<Message>)
    ensures AllFirstValues(CutAll([m] + ms)) == FirstValues(Cut(m)) + AllFirstValues(CutAll(ms))
  {
    assert ([m] + ms)[1..] == ms;
    assert CutAll([m] + ms)[1..] == CutAll(ms);
  }

  /** The first of several messages has come whole. */
  lemma FirstCame(b: seq<Byte>, p: nat, ms: seq<Message>, rest: seq<Byte>, n: nat, end: nat)
    requires ValidPdu(ms) && ms != [] && p <= |b|
    requires |EncodeMessage(ms[0])| <= n <= |EncodeMessage(ms[0])| + |rest| && end == p + |EncodeMessage(ms[0])|
    requires b[p..] == (EncodeMessage(ms[0]) + rest)[..n]
    ensures end <= |b| && b[end..] == rest[..n - |EncodeMessage(ms[0])|]
    ensures MessageVisits(b, p) == FirstValues(Cut(ms[0])) + MessageVisits(b, end)
  {
    FirstFits(EncodeMessage(ms[0]), rest, n);
    MessageParses(b, p, ms[0], rest[..n - |EncodeMessage(ms[0])|], end);
  }

  /** The messages, the end mark and the padding. */
  function Stream(ms: seq<Message>, padding: seq<Byte>): seq<Byte>
    requires ValidPdu(ms)
  {
    EncodeMessages(ms) + END_MARK + padding
  }

  lemma StreamFirst(ms: seq<Message>, padding: seq<Byte>)
    requires ValidPdu(ms)
    ensures ms == [] ==> Stream(ms, padding) == END_MARK + padding
    ensures ms != [] ==> Stream(ms, padding) == EncodeMessage(ms[0]) + Stream(ms[1..], padding)
  {
    if ms == [] {
      assert [] + END_MARK == END_MARK;
    } else {
      Regroup(EncodeMessage(ms[0]), EncodeMessages(ms[1..]), END_MARK, padding);
    }
  }

  lemma OneCame(b: seq<Byte>, p: nat, ms: seq<Message>, n: nat, end: nat, left: nat)
    requires ValidPdu(ms) && ms != [] && n == |EncodeMessage(ms[0])| + left
    requires MessageVisits(b, p) == FirstValues(Cut(ms[0])) + MessageVisits(b, end)
    requires MessageVisits(b, end) == AllFirstValues(CutAll(Came(ms[1..], left)))
    ensures MessageVisits(b, p) == AllFirstValues(CutAll(Came(ms, n)))
  {
    CutGrows(ms[0], Came(ms[1..], left));
  }

  /** Messages of which only the first n octets have come. */
  lemma {:induction false} CutMessagesParse(b: seq<Byte>, p: nat, ms: seq<Message>, padding: seq<Byte>, n: nat)
    requires ValidPdu(ms) && p <= |b| && n <= |Stream(ms, padding)| && b[p..] == Stream(ms, padding)[..n]
    ensures MessageVisits(b, p) == AllFirstValues(CutAll(Came(ms, n)))
    decreases |ms|
  {
    StreamFirst(ms, padding);
    if ms == [] {
      NothingLeft(b, p, padding, n);
    } else if |EncodeMessage(ms[0])| > n {
      PartMessage(b, p, ms[0], Stream(ms[1..], padding), n);
    } else {
      var end, left := p + |EncodeMessage(ms[0])|, n - |EncodeMessage(ms[0])|;
      FirstCame(b, p, ms, Stream(ms[1..], padding), n, end);
      CutMessagesParse(b, end, ms[1..], padding, left);
      OneCame(b, p, ms, n, end, left);
    }
  }

  /**
   A frame cut short at any octet behind the protocol version: the parser takes exactly the messages
   that have come whole.
   */
  lemma TruncatedFrame(header: seq<Byte>, ms: seq<Message>, padding: seq<Byte>, n: nat)
    requires |header| == 14 && At16(header, 12) == MSRP_ETHERTYPE && ValidPdu(ms)
    requires 16 <= n <= |header + EncodePdu(ms) + padding|
    ensures FrameVisits((header + EncodePdu(ms) + padding)[..n]) == AllFirstValues(CutAll(Came(ms, n - 15)))
  {
    var whole := header + EncodePdu(ms) + padding;
    var b := whole[..n];
    PduOffset(header, EncodeMessages(ms), padding);
    assert b[12] == header[12] && b[13] == header[13] && b[14] == 0;
    assert b[15..] == whole[15..][..n - 15];
    CutMessagesParse(b, 15, ms, padding, n - 15);
  }
}
