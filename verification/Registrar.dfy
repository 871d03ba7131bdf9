/**
 The table of remote talkers in firmware/srp.c: eight entries, update or insert, oldest entry
 evicted, aged out by the poll. It refines a map without a size limit, as long as fewer than eight
 other streams have been seen since.
 */
module Registrar {
  import opened Bytes

  const SLOTS := 8
  const TIMEOUT := 30_000
  const WRAP_GUARD := 2_000_000_000

  type StreamId = Eui64

  /** The fields of a TalkerAdvertise. */
  datatype Advert = Advert(streamId: StreamId, destMac: Mac, vlanId: nat, maxFrameSize: nat,
                           maxIntervalFrames: nat, priorityAndRank: Byte, latency: nat)

  datatype Entry = Entry(valid: bool, adv: Advert, lastSeen: Word32)

  type Table = t: seq<Entry> | |t| == SLOTS witness Empty()

  const NO_ADVERT := Advert([0, 0, 0, 0, 0, 0, 0, 0], [0, 0, 0, 0, 0, 0], 0, 0, 0, 0, 0)

  function Empty(): seq<Entry> {
    var e := Entry(false, NO_ADVERT, 0);
    [e, e, e, e, e, e, e, e]
  }

  // ---------------------------------------------------------------------------
  // Operations
  // ---------------------------------------------------------------------------

  predicate Holds(e: Entry, id: StreamId) { e.valid && e.adv.streamId == id }

  /** First entry that holds the stream, from index i. */
  function MatchFrom(t: seq<Entry>, id: StreamId, i: nat): (k: nat)
    requires i <= |t|
    ensures i <= k <= |t| && (k < |t| ==> Holds(t[k], id)) && forall j :: i <= j < k ==> !Holds(t[j], id)
    decreases |t| - i
  {
    if i == |t| || Holds(t[i], id) then i else MatchFrom(t, id, i + 1)
  }

  /** First free entry, from index i. */
  function FreeFrom(t: seq<Entry>, i: nat): (k: nat)
    requires i <= |t|
    ensures i <= k <= |t| && (k < |t| ==> !t[k].valid) && forall j :: i <= j < k ==> t[j].valid
    decreases |t| - i
  {
    if i == |t| || !t[i].valid then i else FreeFrom(t, i + 1)
  }

  /** The oldest of the first n entries, the first of several. */
  function OldestOf(t: seq<Entry>, n: nat): (k: nat)
    requires 0 < n <= |t|
    ensures k < n && (forall j :: 0 <= j < n ==> t[k].lastSeen <= t[j].lastSeen)
    ensures forall j :: 0 <= j < k ==> t[k].lastSeen < t[j].lastSeen
  {
    if n == 1 then 0
    else
      var k := OldestOf(t, n - 1);
      if t[n - 1].lastSeen < t[k].lastSeen then n - 1 else k
  }

  /** Where an advertisement goes. */
  function SlotFor(t: Table, id: StreamId): (k: nat)
    ensures k < SLOTS
  {
    var m := MatchFrom(t, id, 0);
    var f := FreeFrom(t, 0);
    if m < SLOTS then m else if f < SLOTS then f else OldestOf(t, SLOTS)
  }

  function Upsert(t: Table, adv: Advert, now: Word32): Table {
    t[SlotFor(t, adv.streamId) := Entry(true, adv, now)]
  }

  /** Thirty seconds without an advertisement; a difference past the guard counts as a wrap. */
  predicate Expired(lastSeen: Word32, now: Word32) { TIMEOUT <= U32(now - lastSeen) <= WRAP_GUARD }

  function AgeEntry(e: Entry, now: Word32): Entry {
    if e.valid && Expired(e.lastSeen, now) then e.(valid := false) else e
  }

  function Age(t: Table, now: Word32): (r: Table)
    ensures forall k :: 0 <= k < SLOTS ==> r[k] == AgeEntry(t[k], now)
  {
    seq(SLOTS, k requires 0 <= k < SLOTS => AgeEntry(t[k], now))
  }

  function Find(t: Table, id: StreamId): Option<Entry> {
    var k := MatchFrom(t, id, 0);
    if k < SLOTS then Some(t[k]) else None
  }

  // ---------------------------------------------------------------------------
  // The map it stands for
  // ---------------------------------------------------------------------------

  datatype Event = Advertise(adv: Advert, now: Word32) | Poll(now: Word32)

  /** Not heard of for thirty seconds, and for no more than 23 days. */
  predicate Quiet(last: int, now: int) { last + 30_000 <= now <= last + 2_000_000_000 }

  /** A registrar without a size limit, and when each stream was last seen at all. */
  datatype Ideal = Ideal(live: map<StreamId, Entry>, seen: map<StreamId, Word32>)

  function IdealStep(r: Ideal, e: Event): Ideal {
    match e
    case Advertise(adv, now) => Ideal(r.live[adv.streamId := Entry(true, adv, now)], r.seen[adv.streamId := now])
    case Poll(now) => Ideal(map id | id in r.live && !Quiet(r.live[id].lastSeen, now) :: r.live[id], r.seen)
  }

  function TableStep(t: Table, e: Event): Table {
    match e
    case Advertise(adv, now) => Upsert(t, adv, now)
    case Poll(now) => Age(t, now)
  }

  function TableRun(es: seq<Event>): Table
    decreases |es|
  {
    if es == [] then Empty() else TableStep(TableRun(es[..|es| - 1]), es[|es| - 1])
  }

  function IdealRun(es: seq<Event>): Ideal
    decreases |es|
  {
    if es == [] then Ideal(map[], map[]) else IdealStep(IdealRun(es[..|es| - 1]), es[|es| - 1])
  }

  /** The clock does not run backwards. */
  predicate Ordered(es: seq<Event>) { forall i, j :: 0 <= i < j < |es| ==> es[i].now <= es[j].now }

  /** The other streams seen at or after a time. */
  function Others(seen: map<StreamId, Word32>, id: StreamId, time: nat): set<StreamId> {
    set x | x in seen && x != id && seen[x] >= time
  }

  // ---------------------------------------------------------------------------
  // The invariant
  // ---------------------------------------------------------------------------

  predicate NoDuplicates(t: Table) {
    forall i, j :: 0 <= i < j < SLOTS && t[i].valid && t[j].valid ==> t[i].adv.streamId != t[j].adv.streamId
  }

  /** Every entry is the last word on its stream. */
  predicate Current(t: Table, r: Ideal) {
    forall k :: 0 <= k < SLOTS && t[k].valid ==> t[k].adv.streamId in r.live && r.live[t[k].adv.streamId] == t[k]
  }

  predicate Has(t: Table, id: StreamId) { exists k :: 0 <= k < SLOTS && Holds(t[k], id) }

  /** A live stream that is not in the table has been crowded out. */
  ghost predicate CrowdedOnly(t: Table, r: Ideal) {
    forall id :: id in r.live ==> Has(t, id) || |Others(r.seen, id, r.live[id].lastSeen)| >= SLOTS
  }

  predicate Times(r: Ideal, now: nat) {
    && (forall id :: id in r.live ==> id in r.seen && r.seen[id] == r.live[id].lastSeen
                                      && r.live[id].valid && r.live[id].adv.streamId == id)
    && (forall id :: id in r.seen ==> r.seen[id] <= now)
  }

  ghost predicate Inv(t: Table, r: Ideal, now: nat) {
    NoDuplicates(t) && Current(t, r) && CrowdedOnly(t, r) && Times(r, now)
  }

  // ---------------------------------------------------------------------------
  // Counting
  // ---------------------------------------------------------------------------

  lemma {:induction false} SubsetSize<T>(a: set<T>, b: set<T>)
    requires a <= b
    ensures |a| <= |b|
    decreases |a|
  {
    if a != {} {
      var x :| x in a;
      SubsetSize(a - {x}, b - {x});
    }
  }

  /** The streams of the first n entries. */
  function Ids(t: seq<Entry>, n: nat): set<StreamId>
    requires n <= |t|
  {
    if n == 0 then {} else Ids(t, n - 1) + {t[n - 1].adv.streamId}
  }

  lemma {:induction false} IdsMember(t: seq<Entry>, n: nat, id: StreamId)
    requires n <= |t|
    ensures id in Ids(t, n) <==> exists k :: 0 <= k < n && t[k].adv.streamId == id
  {
    if n > 0 {
      IdsMember(t, n - 1, id);
      assert t[n - 1].adv.streamId == id ==> n - 1 < n;
    }
  }

  lemma {:induction false} IdsCount(t: Table, n: nat)
    requires n <= SLOTS && NoDuplicates(t) && forall k :: 0 <= k < SLOTS ==> t[k].valid
    ensures |Ids(t, n)| == n
  {
    if n > 0 {
      IdsCount(t, n - 1);
      IdsMember(t, n - 1, t[n - 1].adv.streamId);
    }
  }

  lemma OthersGrow(seen: map<StreamId, Word32>, id: StreamId, time: nat, x: StreamId, now: Word32)
    requires x in seen ==> seen[x] <= now
    ensures |Others(seen, id, time)| <= |Others(seen[x := now], id, time)|
  {
    SubsetSize(Others(seen, id, time), Others(seen[x := now], id, time));
  }

  // ---------------------------------------------------------------------------
  // Steps
  // ---------------------------------------------------------------------------

  /** A stream that loses its entry was the oldest of eight. */
  lemma EvictedIsOldest(t: Table, adv: Advert, now: Word32, id: StreamId)
    requires id != adv.streamId && Has(t, id) && !Has(Upsert(t, adv, now), id)
    ensures var s := SlotFor(t, adv.streamId);
            Holds(t[s], id) && forall j :: 0 <= j < SLOTS ==> t[j].valid && t[s].lastSeen <= t[j].lastSeen
  {
    var u := Upsert(t, adv, now);
    var k :| 0 <= k < SLOTS && Holds(t[k], id);
    assert !Holds(u[k], id);
    assert k == SlotFor(t, adv.streamId);
  }

  /** The streams the table holds afterwards are others, seen at or after the evicted one. */
  lemma HeldAreOthers(t: Table, r: Ideal, adv: Advert, now: Word32, s: nat, x: StreamId)
    requires Inv(t, r, now) && s == SlotFor(t, adv.streamId)
    requires forall j :: 0 <= j < SLOTS ==> t[j].valid && t[s].lastSeen <= t[j].lastSeen
    requires t[s].adv.streamId != adv.streamId && x in Ids(Upsert(t, adv, now), SLOTS)
    ensures x in Others(r.seen[adv.streamId := now], t[s].adv.streamId, t[s].lastSeen)
  {
    var u := Upsert(t, adv, now);
    IdsMember(u, SLOTS, x);
    var j :| 0 <= j < SLOTS && u[j].adv.streamId == x;
    assert j != s ==> u[j] == t[j];
    assert t[s].adv.streamId in r.live;
  }

  /** The evicted stream is outnumbered by the eight the table holds afterwards. */
  lemma EvictedIsCrowded(t: Table, r: Ideal, adv: Advert, now: Word32, id: StreamId)
    requires Inv(t, r, now)
    requires id in r.live && id != adv.streamId && Has(t, id) && !Has(Upsert(t, adv, now), id)
    ensures |Others(r.seen[adv.streamId := now], id, r.live[id].lastSeen)| >= SLOTS
  {
    var u, s := Upsert(t, adv, now), SlotFor(t, adv.streamId);
    EvictedIsOldest(t, adv, now, id);
    UpsertNoDuplicates(t, adv, now);
    IdsCount(u, SLOTS);
    var others := Others(r.seen[adv.streamId := now], id, r.live[id].lastSeen);
    forall x | x in Ids(u, SLOTS)
      ensures x in others
    {
      HeldAreOthers(t, r, adv, now, s, x);
    }
    SubsetSize(Ids(u, SLOTS), others);
  }

  lemma UpsertNoDuplicates(t: Table, adv: Advert, now: Word32)
    requires NoDuplicates(t)
    ensures NoDuplicates(Upsert(t, adv, now))
  {
    var m := MatchFrom(t, adv.streamId, 0);
    assert forall j :: 0 <= j < SLOTS && j != m ==> !Holds(t[j], adv.streamId);
  }

  lemma UpsertCurrent(t: Table, r: Ideal, adv: Advert, now: Word32)
    requires NoDuplicates(t) && Current(t, r)
    ensures Current(Upsert(t, adv, now), IdealStep(r, Advertise(adv, now)))
  {
    var u, s := Upsert(t, adv, now), SlotFor(t, adv.streamId);
    var m := MatchFrom(t, adv.streamId, 0);
    forall k | 0 <= k < SLOTS && u[k].valid
      ensures u[k].adv.streamId in r.live[adv.streamId := u[s]]
          && r.live[adv.streamId := u[s]][u[k].adv.streamId] == u[k]
    {
      if k != s {
        assert Holds(t[k], adv.streamId) ==> m == s;
      }
    }
  }

  lemma AdvertiseKeepsInv(t: Table, r: Ideal, adv: Advert, now: Word32, before: nat)
    requires Inv(t, r, before) && before <= now
    ensures Inv(Upsert(t, adv, now), IdealStep(r, Advertise(adv, now)), now)
  {
    var u, q := Upsert(t, adv, now), IdealStep(r, Advertise(adv, now));
    UpsertNoDuplicates(t, adv, now);
    UpsertCurrent(t, r, adv, now);
    forall id | id in q.live
      ensures Has(u, id) || |Others(q.seen, id, q.live[id].lastSeen)| >= SLOTS
    {
      if id == adv.streamId {
        assert Holds(u[SlotFor(t, adv.streamId)], id);
      } else if Has(t, id) && !Has(u, id) {
        EvictedIsCrowded(t, r, adv, now, id);
      } else {
        OthersGrow(r.seen, id, r.live[id].lastSeen, adv.streamId, now);
      }
    }
  }

  /** On a clock that does not run backwards the unsigned difference is the age. */
  lemma ExpiredIsQuiet(last: Word32, now: Word32)
    requires last <= now
    ensures Expired(last, now) <==> Quiet(last, now)
  {
  }

  lemma PollDrops(t: Table, r: Ideal, now: Word32, before: nat, id: StreamId)
    requires Inv(t, r, before) && before <= now && id in r.live
    ensures id in IdealStep(r, Poll(now)).live <==> !Expired(r.live[id].lastSeen, now)
  {
    ExpiredIsQuiet(r.live[id].lastSeen, now);
  }

  lemma PollKeepsInv(t: Table, r: Ideal, now: Word32, before: nat)
    requires Inv(t, r, before) && before <= now
    ensures Inv(Age(t, now), IdealStep(r, Poll(now)), now)
  {
    var u, q := Age(t, now), IdealStep(r, Poll(now));
    forall id | id in q.live
      ensures Has(u, id) || |Others(q.seen, id, q.live[id].lastSeen)| >= SLOTS
    {
      PollDrops(t, r, now, before, id);
      if Has(t, id) {
        var k :| 0 <= k < SLOTS && Holds(t[k], id);
        assert u[k] == t[k];
      }
    }
    PollKeepsCurrent(t, r, now, before);
  }

  lemma PollKeepsCurrent(t: Table, r: Ideal, now: Word32, before: nat)
    requires Inv(t, r, before) && before <= now
    ensures Current(Age(t, now), IdealStep(r, Poll(now)))
  {
    var u := Age(t, now);
    forall k | 0 <= k < SLOTS && u[k].valid
      ensures u[k].adv.streamId in IdealStep(r, Poll(now)).live
          && IdealStep(r, Poll(now)).live[u[k].adv.streamId] == u[k]
    {
      PollDrops(t, r, now, before, t[k].adv.streamId);
    }
  }

  lemma {:induction false} InvOnRuns(es: seq<Event>)
    requires Ordered(es)
    ensures Inv(TableRun(es), IdealRun(es), if es == [] then 0 else es[|es| - 1].now)
    decreases |es|
  {
    if es != [] {
      var n := |es| - 1;
      InvOnRuns(es[..n]);
      var t, r, before := TableRun(es[..n]), IdealRun(es[..n]), if n == 0 then 0 else es[n - 1].now;
      match es[n]
      case Advertise(adv, now) => AdvertiseKeepsInv(t, r, adv, now, before);
      case Poll(now) => PollKeepsInv(t, r, now, before);
    }
  }

  // ---------------------------------------------------------------------------
  // The theorem
  // ---------------------------------------------------------------------------

  lemma FindWhatItHas(t: Table, r: Ideal, id: StreamId)
    requires NoDuplicates(t) && Current(t, r)
    ensures Has(t, id) ==> id in r.live && Find(t, id) == Some(r.live[id])
    ensures !Has(t, id) ==> Find(t, id) == None
  {
    var k := MatchFrom(t, id, 0);
    assert k < SLOTS ==> Holds(t[k], id);
  }

  /**
   Over any run of advertisements and polls on a clock that does not run backwards: no stream has
   two entries; what a lookup finds is the last advertisement of a stream that has not aged out;
   and it finds that advertisement unless eight other streams have been seen at or after it.
   */
  lemma RegistrarRefinesMap(es: seq<Event>, id: StreamId)
    requires Ordered(es)
    ensures var t, r := TableRun(es), IdealRun(es);
            && NoDuplicates(t)
            && (Find(t, id).Some? ==> id in r.live && Find(t, id).value == r.live[id])
            && (id in r.live && |Others(r.seen, id, r.live[id].lastSeen)| < SLOTS ==> Find(t, id) == Some(r.live[id]))
  {
    InvOnRuns(es);
    FindWhatItHas(TableRun(es), IdealRun(es), id);
  }
}
