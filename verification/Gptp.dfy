/**
 The filters in front of the gPTP servo (firmware/gptp.c): the median of the last five offsets, the
 neighbour rate ratio and the mean path delay.
 */
module Gptp {
  import opened Bytes

  const DEPTH := 5
  const MAX_DELAY := 20_000
  const MAX_RATIO := 10_000
  const BILLION := 1_000_000_000

  // ---------------------------------------------------------------------------
  // Order statistics
  // ---------------------------------------------------------------------------

  function Below(s: seq<int>, v: int): nat {
    if s == [] then 0 else Below(s[..|s| - 1], v) + if s[|s| - 1] < v then 1 else 0
  }

  function AtMost(s: seq<int>, v: int): nat {
    if s == [] then 0 else AtMost(s[..|s| - 1], v) + if s[|s| - 1] <= v then 1 else 0
  }

  function Within(s: seq<int>, lo: int, hi: int): nat {
    if s == [] then 0 else Within(s[..|s| - 1], lo, hi) + if lo <= s[|s| - 1] <= hi then 1 else 0
  }

  /** v is the k-th smallest of s, counting from 0. */
  predicate IsKth(s: seq<int>, k: nat, v: int) { v in s && Below(s, v) <= k < AtMost(s, v) }

  lemma {:induction false} CountsOrdered(s: seq<int>, v: int, w: int)
    requires v < w
    ensures AtMost(s, v) <= Below(s, w)
  {
    if s != [] {
      CountsOrdered(s[..|s| - 1], v, w);
    }
  }

  /** There is only one k-th smallest value. */
  lemma KthUnique(s: seq<int>, k: nat, v: int, w: int)
    requires IsKth(s, k, v) && IsKth(s, k, w)
    ensures v == w
  {
    if v < w {
      CountsOrdered(s, v, w);
    } else if w < v {
      CountsOrdered(s, w, v);
    }
  }

  lemma {:induction false} AboveCounts(s: seq<int>, lo: int, hi: int, v: int)
    requires hi < v
    ensures Within(s, lo, hi) <= Below(s, v)
  {
    if s != [] {
      AboveCounts(s[..|s| - 1], lo, hi, v);
    }
  }

  lemma {:induction false} BelowCounts(s: seq<int>, lo: int, hi: int, v: int)
    requires v < lo
    ensures AtMost(s, v) + Within(s, lo, hi) <= |s|
  {
    if s != [] {
      BelowCounts(s[..|s| - 1], lo, hi, v);
    }
  }

  /**
   Outliers: as long as more than half of the values lie in a range, so does the middle one,
   whatever the others are. Of five, two may be arbitrary.
   */
  lemma MajorityBoundsMedian(s: seq<int>, lo: int, hi: int, v: int)
    requires IsKth(s, |s| / 2, v) && Within(s, lo, hi) > |s| / 2
    ensures lo <= v <= hi
  {
    if v > hi {
      AboveCounts(s, lo, hi, v);
    } else if v < lo {
      BelowCounts(s, lo, hi, v);
    }
  }

  lemma {:induction false} EqualsWithin(s: seq<int>, x: int)
    ensures Within(s, x, x) + Below(s, x) == AtMost(s, x)
  {
    if s != [] {
      EqualsWithin(s[..|s| - 1], x);
    }
  }

  /** And not three: a value that occurs in more than half of the places is the middle one. */
  lemma MajorityIsMedian(s: seq<int>, x: int, v: int)
    requires IsKth(s, |s| / 2, v) && Within(s, x, x) > |s| / 2
    ensures v == x
  {
    MajorityBoundsMedian(s, x, x, v);
  }

  // ---------------------------------------------------------------------------
  // Sorting
  // ---------------------------------------------------------------------------

  predicate Sorted(s: seq<int>) { forall i, j :: 0 <= i < j < |s| ==> s[i] <= s[j] }

  lemma {:induction false} SortedCounts(s: seq<int>, k: nat)
    requires Sorted(s) && k < |s|
    ensures Below(s, s[k]) <= k < AtMost(s, s[k])
    decreases |s|
  {
    var n := |s| - 1;
    var front := s[..n];
    if k < n {
      SortedCounts(front, k);
    } else {
      BelowAtMostLength(front, s[n]);
      AllAtMost(front, s[n]);
    }
  }

  lemma {:induction false} BelowAtMostLength(s: seq<int>, v: int)
    ensures Below(s, v) <= |s|
  {
    if s != [] {
      BelowAtMostLength(s[..|s| - 1], v);
    }
  }

  lemma {:induction false} AllAtMost(s: seq<int>, v: int)
    requires forall k :: 0 <= k < |s| ==> s[k] <= v
    ensures AtMost(s, v) == |s|
  {
    if s != [] {
      AllAtMost(s[..|s| - 1], v);
    }
  }

  lemma {:induction false} CountsConcat(a: seq<int>, b: seq<int>, v: int)
    ensures Below(a + b, v) == Below(a, v) + Below(b, v)
    ensures AtMost(a + b, v) == AtMost(a, v) + AtMost(b, v)
    decreases |b|
  {
    if b == [] {
      assert a + b == a;
    } else {
      CountsConcat(a, b[..|b| - 1], v);
      assert (a + b)[..|a + b| - 1] == a + b[..|b| - 1];
    }
  }

  lemma OneCounts(x: int, v: int)
    ensures Below([x], v) == (if x < v then 1 else 0) && AtMost([x], v) == (if x <= v then 1 else 0)
  {
    assert [x][..0] == [];
  }

  lemma RemoveAt(t: seq<int>, i: nat)
    requires i < |t|
    ensures multiset(t) == multiset(t[..i] + t[i + 1..]) + multiset{t[i]}
  {
    assert t == t[..i] + ([t[i]] + t[i + 1..]);
  }

  lemma Cancel(a: multiset<int>, b: multiset<int>, x: int)
    requires a + multiset{x} == b + multiset{x}
    ensures a == b
  {
    assert a == (a + multiset{x}) - multiset{x};
    assert b == (b + multiset{x}) - multiset{x};
  }

  lemma CountsWithout(t: seq<int>, i: nat, v: int)
    requires i < |t|
    ensures Below(t, v) == Below(t[..i] + t[i + 1..], v) + if t[i] < v then 1 else 0
    ensures AtMost(t, v) == AtMost(t[..i] + t[i + 1..], v) + if t[i] <= v then 1 else 0
  {
    assert t == t[..i] + ([t[i]] + t[i + 1..]);
    CountsConcat(t[..i], t[i + 1..], v);
    CountsConcat(t[..i], [t[i]] + t[i + 1..], v);
    CountsConcat([t[i]], t[i + 1..], v);
    OneCounts(t[i], v);
  }

  /** Counts do not depend on the order. */
  lemma {:induction false} SameCounts(s: seq<int>, t: seq<int>, v: int)
    requires multiset(s) == multiset(t)
    ensures Below(s, v) == Below(t, v) && AtMost(s, v) == AtMost(t, v)
    decreases |s|
  {
    if s == [] {
      assert |t| == |multiset(t)| == 0;
    } else {
      var n := |s| - 1;
      assert s[n] in multiset(t);
      var i :| 0 <= i < |t| && t[i] == s[n];
      RemoveAt(s, n);
      assert s[..n] + s[n + 1..] == s[..n];
      RemoveAt(t, i);
      Cancel(multiset(s[..n]), multiset(t[..i] + t[i + 1..]), s[n]);
      SameCounts(s[..n], t[..i] + t[i + 1..], v);
      CountsWithout(t, i, v);
    }
  }

  lemma MiddleOfSorted(s: seq<int>, t: seq<int>, k: nat)
    requires Sorted(s) && multiset(s) == multiset(t) && k < |s|
    ensures IsKth(t, k, s[k])
  {
    SortedCounts(s, k);
    SameCounts(s, t, s[k]);
    assert s[k] in multiset(t);
  }

  /** Element i has moved down to j, the ones between up by one. */
  predicate Moved(was: seq<int>, now: seq<int>, j: nat, i: nat) {
    && j <= i < |was| == |now|
    && (forall k :: 0 <= k < j ==> now[k] == was[k])
    && now[j] == was[i]
    && (forall k :: j < k <= i ==> now[k] == was[k - 1])
    && (forall k :: i < k < |was| ==> now[k] == was[k])
  }

  lemma MovedKeepsAll(was: seq<int>, now: seq<int>, j: nat, i: nat)
    requires Moved(was, now, j, i)
    ensures multiset(now) == multiset(was) && now[i + 1..] == was[i + 1..]
  {
    MovedPieces(was, now, j, i);
    Swapped(was[..j], [was[i]], was[j..i], was[i + 1..]);
    assert now[i + 1..] == was[i + 1..];
  }

  lemma MovedPieces(was: seq<int>, now: seq<int>, j: nat, i: nat)
    requires Moved(was, now, j, i)
    ensures now == was[..j] + [was[i]] + was[j..i] + was[i + 1..]
    ensures was == was[..j] + was[j..i] + [was[i]] + was[i + 1..]
  {
  }

  lemma Swapped(a: seq<int>, b: seq<int>, c: seq<int>, d: seq<int>)
    ensures multiset(a + b + c + d) == multiset(a + c + b + d)
  {
  }

  lemma MovedSorts(was: seq<int>, now: seq<int>, j: nat, i: nat)
    requires Moved(was, now, j, i) && Sorted(was[..i])
    requires j > 0 ==> was[j - 1] <= was[i]
    requires forall k :: j <= k < i ==> was[k] > was[i]
    ensures Sorted(now[..i + 1])
  {
    forall x, y | 0 <= x < y < i + 1
      ensures now[x] <= now[y]
    {
      var f := was[..i];
      assert x < i ==> f[x] == was[x];
      if y <= j {
        assert j > 0 ==> f[x] <= f[j - 1] || x == j - 1;
      } else if x < j {
        assert f[x] <= f[y - 1];
      } else if x > j {
        assert f[x - 1] <= f[y - 1];
      }
    }
  }

  /** The last five of a history. */
  function LastFive(s: seq<int>): seq<int> { if |s| <= DEPTH then s else s[|s| - DEPTH..] }

  lemma WindowStep(history: seq<int>, raw: int)
    ensures LastFive(LastFive(history) + [raw]) == LastFive(history + [raw])
  {
    if |history| > DEPTH {
      var w := history[|history| - DEPTH..];
      assert (w + [raw])[1..] == (history + [raw])[|history| + 1 - DEPTH..];
    }
  }

  /** The window after a run of offsets, each of which enters as in FilterOffset. */
  function WindowAfter(raws: seq<int>): (w: seq<int>)
    ensures |w| <= DEPTH
    decreases |raws|
  {
    if raws == [] then [] else LastFive(WindowAfter(raws[..|raws| - 1]) + [raws[|raws| - 1]])
  }

  /** Over any run the window is the last five of all raw offsets. */
  lemma {:induction false} WindowOfHistory(raws: seq<int>)
    ensures WindowAfter(raws) == LastFive(raws) && |WindowAfter(raws)| == Min(|raws|, DEPTH)
    decreases |raws|
  {
    if raws != [] {
      var front, raw := raws[..|raws| - 1], raws[|raws| - 1];
      WindowOfHistory(front);
      WindowStep(front, raw);
      assert front + [raw] == raws;
    }
  }

  /** The filled part of a circular buffer, oldest first. */
  function Window(buf: seq<int>, idx: nat, filled: nat): seq<int>
    requires |buf| == DEPTH && idx < DEPTH && filled <= DEPTH
  {
    if filled < DEPTH then buf[..filled] else buf[idx..] + buf[..idx]
  }

  lemma WindowMoves(buf: seq<int>, idx: nat, filled: nat, raw: int, idx': nat, filled': nat)
    requires |buf| == DEPTH && idx < DEPTH && filled <= DEPTH && (filled < DEPTH ==> idx == filled)
    requires idx' == (if idx == DEPTH - 1 then 0 else idx + 1) && filled' == if filled < DEPTH then filled + 1
        else DEPTH
    ensures Window(buf[idx := raw], idx', filled') == LastFive(Window(buf, idx, filled) + [raw])
  {
    var b := buf[idx := raw];
    if filled == DEPTH {
      assert (buf[idx..] + buf[..idx] + [raw])[1..] == buf[idx + 1..] + buf[..idx] + [raw];
      assert b[idx'..] + b[..idx'] == buf[idx + 1..] + buf[..idx] + [raw];
    } else if idx == DEPTH - 1 {
      assert b[0..] + b[..0] == buf[..filled] + [raw];
    } else {
      assert b[..filled'] == buf[..filled] + [raw];
    }
  }

  lemma WindowHoldsAll(buf: seq<int>, idx: nat, filled: nat)
    requires |buf| == DEPTH && idx < DEPTH && filled <= DEPTH
    ensures multiset(Window(buf, idx, filled)) == multiset(buf[..filled]) && |Window(buf, idx, filled)| == filled
  {
    if filled == DEPTH {
      assert buf[..DEPTH] == buf && buf == buf[..idx] + buf[idx..];
    }
  }

  // ---------------------------------------------------------------------------
  // Smoothing
  // ---------------------------------------------------------------------------

  lemma TruncBounds(a: int, b: int)
    requires b > 0
    ensures var q := TruncDiv(a, b);
            && (a >= 0 ==> 0 <= q && 0 <= a - b * q < b)
            && (a <= 0 ==> q <= 0 && -b < a - b * q <= 0)
  {
    var m := Abs(a);
    assert m == b * (m / b) + m % b;
  }

  /** An eighth of the way to a new value, cut towards zero. */
  function Smoothed(x: int, r: int): int { TruncDiv(7 * x + r, 8) }

  function Gap(mean: int, d: int): nat { Abs(mean - d) }

  /** On the same side as before, and no further away. */
  predicate Approaches(mean: int, next: int, d: int) {
    (mean <= d ==> mean <= next <= d) && (mean >= d ==> d <= next <= mean)
  }

  /** Same side as before, and the gap loses at least an eighth, rounded down. */
  lemma SmoothingApproaches(x: int, r: int)
    ensures Approaches(x, Smoothed(x, r), r)
    ensures Gap(Smoothed(x, r), r) <= Gap(x, r) - Gap(x, r) / 8
  {
    TruncBounds(7 * x + r, 8);
  }

  function Smoothings(x: int, r: int, n: nat): int {
    if n == 0 then x else Smoothed(Smoothings(x, r, n - 1), r)
  }

  lemma {:induction false} SmoothingsSplit(x: int, r: int, a: nat, b: nat)
    ensures Smoothings(x, r, a + b) == Smoothings(Smoothings(x, r, a), r, b)
    decreases b
  {
    if b > 0 {
      SmoothingsSplit(x, r, a, b - 1);
    }
  }

  lemma NextMultiple(j: nat, e: nat)
    requires j > 0
    ensures j * e == (j - 1) * e + e
  {
  }

  function Power(k: nat): (b: nat)
    ensures b > 0
  {
    if k == 0 then 1 else 2 * Power(k - 1)
  }

  lemma Powers()
    ensures Power(11) == 2_048
  {
    assert Power(3) == 8;
    assert Power(6) == 64;
    assert Power(9) == 512;
  }

  /** While the gap is 8 e or more, every step takes e off it. */
  lemma {:induction false} SmoothingsTakeOff(x: int, r: int, e: nat, j: nat)
    requires e > 0 && Gap(x, r) < 16 * e && j <= 8
    ensures var g := Gap(Smoothings(x, r, j), r); g <= Gap(x, r) && (g < 8 * e || g + j * e < 16 * e)
    decreases j
  {
    if j > 0 {
      SmoothingsTakeOff(x, r, e, j - 1);
      SmoothingApproaches(Smoothings(x, r, j - 1), r);
      NextMultiple(j, e);
    }
  }

  /** Rounds of eight steps halve the gap until it is below eight. */
  lemma {:induction false} SmoothingsClose(x: int, r: int, k: nat)
    requires Gap(x, r) < 16 * Power(k)
    ensures Gap(Smoothings(x, r, 8 * (k + 1)), r) < 8
    decreases k
  {
    SmoothingsTakeOff(x, r, Power(k), 8);
    if k > 0 {
      SmoothingsClose(Smoothings(x, r, 8), r, k - 1);
      SmoothingsSplit(x, r, 8, 8 * k);
    }
  }

  /** No overshoot, however long it lasts. */
  lemma {:induction false} SmoothingsApproach(x: int, r: int, n: nat)
    ensures Approaches(x, Smoothings(x, r, n), r) && Gap(Smoothings(x, r, n), r) <= Gap(x, r)
  {
    if n > 0 {
      SmoothingsApproach(x, r, n - 1);
      SmoothingApproaches(Smoothings(x, r, n - 1), r);
    }
  }

  /** From less than 2^15 away, 96 steps lead to within seven, and further ones keep it there. */
  lemma SmoothingsSettle(x: int, r: int, n: nat)
    requires Gap(x, r) < 0x8000 && n >= 96
    ensures Gap(Smoothings(x, r, n), r) <= 7
  {
    Powers();
    SmoothingsClose(x, r, 11);
    SmoothingsSplit(x, r, 96, n - 96);
    SmoothingsApproach(Smoothings(x, r, 96), r, n - 96);
  }

  // ---------------------------------------------------------------------------
  // The mean path delay
  // ---------------------------------------------------------------------------

  predicate Plausible(delay: int) { 0 <= delay < MAX_DELAY }

  /** Outliers leave it alone; zero means that there is none yet. */
  function NextMean(mean: int, delay: int): int {
    if !Plausible(delay) then mean
    else if mean == 0 then delay
    else Smoothed(mean, delay)
  }

  function Means(mean: int, delays: seq<int>): int {
    if delays == [] then mean else NextMean(Means(mean, delays[..|delays| - 1]), delays[|delays| - 1])
  }

  /** For every sequence of measurements. */
  lemma {:induction false} MeanStaysPlausible(mean: int, delays: seq<int>)
    requires 0 <= mean < 20_000
    ensures 0 <= Means(mean, delays) < 20_000
    decreases |delays|
  {
    if delays != [] {
      MeanStaysPlausible(mean, delays[..|delays| - 1]);
    }
  }

  /** n measurements of the same delay. */
  function Constant(mean: int, d: int, n: nat): int {
    if n == 0 then mean else NextMean(Constant(mean, d, n - 1), d)
  }

  /** One step above: it loses an eighth, rounded up. */
  lemma StepFromAbove(mean: int, d: int)
    requires d <= mean && Plausible(mean) && Plausible(d)
    ensures var next := NextMean(mean, d);
            d <= next <= mean && next - d == (mean - d) - (mean - d + 7) / 8
  {
  }

  /** A mean that is there, or a delay of zero, is smoothed like anything else. */
  lemma {:induction false} ConstantIsSmoothed(mean: int, d: int, n: nat)
    requires Plausible(mean) && Plausible(d) && (mean > 0 || d == 0)
    ensures var m := Constant(mean, d, n); m == Smoothings(mean, d, n) && Plausible(m) && (m > 0 || d == 0)
  {
    if n > 0 {
      ConstantIsSmoothed(mean, d, n - 1);
      SmoothingsApproach(mean, d, n);
    }
  }

  /** No overshoot, however long it lasts. */
  lemma NeverOvershoots(mean: int, d: int, n: nat)
    requires Plausible(mean) && Plausible(d) && (mean > 0 || d == 0)
    ensures var m := Constant(mean, d, n);
            Plausible(m) && (m > 0 || d == 0) && Approaches(mean, m, d) && Gap(m, d) <= Gap(mean, d)
  {
    ConstantIsSmoothed(mean, d, n);
    SmoothingsApproach(mean, d, n);
  }

  /** The first measurement is taken over as it is. */
  lemma {:induction false} FirstIsTaken(d: int, n: nat)
    requires Plausible(d) && n > 0
    ensures Constant(0, d, n) == d
  {
    if n == 1 {
      assert Constant(0, d, 1) == NextMean(Constant(0, d, 0), d);
    } else {
      FirstIsTaken(d, n - 1);
      SmoothingApproaches(d, d);
    }
  }

  /** Above, every step counts until the gap is gone. */
  lemma {:induction false} LastStepsFromAbove(mean: int, d: int, n: nat)
    requires Plausible(mean) && Plausible(d) && d <= mean
    ensures d <= Constant(mean, d, n) && Plausible(Constant(mean, d, n))
    ensures Gap(Constant(mean, d, n), d) <= if Gap(mean, d) >= n then Gap(mean, d) - n else 0
  {
    if n > 0 {
      LastStepsFromAbove(mean, d, n - 1);
      StepFromAbove(Constant(mean, d, n - 1), d);
    }
  }

  const SETTLING := 104

  /**
   Under a constant delay d the mean settles in at most 104 steps: at d itself if it came from
   above, and otherwise no more than seven below it, where rounding stops it.
   */
  lemma MeanSettles(mean: int, d: int, n: nat)
    requires Plausible(mean) && Plausible(d) && n >= SETTLING
    ensures d - 7 <= Constant(mean, d, n) <= d
    ensures mean >= d ==> Constant(mean, d, n) == d
  {
    if mean == 0 {
      FirstIsTaken(d, n);
    } else {
      ConstantIsSmoothed(mean, d, n);
      SmoothingsSettle(mean, d, n);
      SmoothingsApproach(mean, d, n);
      if mean >= d {
        SettlesFromAbove(mean, d, n);
      }
    }
  }

  lemma SettlesFromAbove(mean: int, d: int, n: nat)
    requires Plausible(mean) && Plausible(d) && d <= mean && 0 < mean && n >= SETTLING
    ensures Constant(mean, d, n) == d
  {
    var k: nat := n - 8;
    ConstantIsSmoothed(mean, d, k);
    SmoothingsSettle(mean, d, k);
    SmoothingsApproach(mean, d, k);
    ConstantIsSmoothed(mean, d, n);
    var m := Smoothings(mean, d, k);
    SmoothingsSplit(mean, d, k, 8);
    ConstantIsSmoothed(m, d, 8);
    LastStepsFromAbove(m, d, 8);
  }

  /** Measurements within the plausible range, in order. */
  function PlausibleOnes(delays: seq<int>): seq<int> {
    if delays == [] then []
    else
      PlausibleOnes(delays[..|delays| - 1]) +
      if 0 <= delays[|delays| - 1] < 20_000 then [delays[|delays| - 1]] else []
  }

  lemma MeansGrow(mean: int, delays: seq<int>, d: int)
    ensures Means(mean, delays + [d]) == NextMean(Means(mean, delays), d)
  {
    assert (delays + [d])[..|delays|] == delays;
  }

  /** Outliers might as well never have been measured. */
  lemma {:induction false} OutliersLeaveNoTrace(mean: int, delays: seq<int>)
    ensures Means(mean, delays) == Means(mean, PlausibleOnes(delays))
    decreases |delays|
  {
    if delays != [] {
      var n := |delays| - 1;
      OutliersLeaveNoTrace(mean, delays[..n]);
      MeansGrow(mean, PlausibleOnes(delays[..n]), delays[n]);
      assert PlausibleOnes(delays[..n]) + [] == PlausibleOnes(delays[..n]);
    }
  }

  // ---------------------------------------------------------------------------
  // The path delay of one exchange
  // ---------------------------------------------------------------------------

  /** Half of the rate-corrected round trip without the responder's share. */
  function Delay(t1: int, t2: int, t3: int, t4: int, ratio: int): int {
    TruncDiv((t4 - t1) + TruncDiv((t4 - t1) * ratio, BILLION) - (t3 - t2), 2)
  }

  lemma AtMostTimes(x: nat, a: nat, b: nat)
    requires a <= b
    ensures x * a <= x * b
  {
    assert x * b == x * a + x * (b - a);
  }

  lemma SignOut(x: nat, r: int)
    ensures Abs(x * r) == x * Abs(r)
  {
  }

  lemma ProductBound(path: nat, ratio: int)
    requires path <= 2 * MAX_DELAY && -MAX_RATIO < ratio < MAX_RATIO
    ensures Abs(path * ratio) <= 400_000_000
  {
    SignOut(path, ratio);
    AtMostTimes(path, Abs(ratio), MAX_RATIO);
  }

  /**
   What an exchange measures. The peer answers after `stay` local nanoseconds, which its own clock, fast
   by `ratio` parts in 10^9 and with any offset, shows as t3 - t2, to the nanosecond. Then the delay is
   the mean of the two directions, whatever the stay, to within one and a half nanoseconds.
   */
  lemma DelayMeasuresPath(t1: int, t2: int, t3: int, t4: int, out: nat, stay: nat, back: nat, ratio: int)
    requires out + back <= 2 * MAX_DELAY && -MAX_RATIO < ratio < MAX_RATIO
    requires t4 == t1 + out + stay + back
    requires Abs(BILLION * (t3 - t2) - (BILLION * stay + stay * ratio)) <= BILLION
    ensures Abs(2 * Delay(t1, t2, t3, t4, ratio) - (out + back)) <= 3
  {
    var path := out + back;
    ProductBound(path, ratio);
    ProductAdds(path, stay, ratio);
    var trip := (t4 - t1) * ratio;
    TruncBounds(trip, BILLION);
    CorrectionFits(stay, t3 - t2, TruncDiv(trip, BILLION), path * ratio, stay * ratio, trip);
    TruncBounds(t4 - t1 + TruncDiv(trip, BILLION) - (t3 - t2), 2);
  }

  lemma ProductAdds(path: int, stay: int, ratio: int)
    ensures (path + stay) * ratio == path * ratio + stay * ratio
  {
  }

  lemma CorrectionFits(stay: nat, share: int, c: int, x: int, y: int, trip: int)
    requires Abs(x) <= 400_000_000 && trip == x + y && Abs(trip - BILLION * c) < BILLION
    requires Abs(BILLION * share - (BILLION * stay + y)) <= BILLION
    ensures -2 <= stay + c - share <= 2
  {
  }

  /** With clocks at the same rate it is exactly that mean, rounded down. */
  lemma DelayIsExact(t1: int, t2: int, out: nat, stay: nat, back: nat)
    ensures Delay(t1, t2, t2 + stay, t1 + out + stay + back, 0) == (out + back) / 2
  {
  }

  // ---------------------------------------------------------------------------
  // The neighbour rate ratio
  // ---------------------------------------------------------------------------

  /** The smoothed neighbour rate ratio; a short interval or an implausible value changes nothing. */
  function NextRatio(ratio: int, dt3: int, dt4: int): int {
    if dt4 <= 100_000 then ratio
    else
      var inst := S32(TruncDiv((dt3 - dt4) * BILLION, dt4));
      if -MAX_RATIO < inst < MAX_RATIO then TruncDiv(ratio * 7 + inst, 8) else ratio
  }

  /** q is a / b, cut towards zero. */
  predicate IsQuotient(a: int, b: int, q: int) {
    if a >= 0 then 0 <= a - b * q < b else -b < a - b * q <= 0
  }

  lemma Apart(b: int, p: int, q: int)
    requires b > 0 && p > q
    ensures b * p >= b * q + b
  {
    var d := p - q;
    assert b * p == b * q + b * d by { ProductAdds(q, d, b); }
    AtLeastOnce(b, d);
  }

  lemma {:induction false} AtLeastOnce(b: nat, d: nat)
    requires d >= 1
    ensures b * d >= b
  {
    if d > 1 {
      AtLeastOnce(b, d - 1);
      NextMultiple(d, b);
    }
  }

  lemma OneQuotient(a: int, b: int, p: int, q: int)
    requires b > 0 && IsQuotient(a, b, p) && IsQuotient(a, b, q)
    ensures p == q
  {
    if p > q {
      Apart(b, p, q);
    } else if q > p {
      Apart(b, q, p);
    }
  }

  lemma QuotientUnique(a: int, b: int, q: int)
    requires b > 0 && IsQuotient(a, b, q)
    ensures TruncDiv(a, b) == q
  {
    TruncBounds(a, b);
    OneQuotient(a, b, TruncDiv(a, b), q);
  }

  /**
   Between exchanges more than 100 us apart the peer's clock gained `parts` in 10^9 on ours, as a 32-bit
   number: if that is below 10,000 either way the ratio moves an eighth of the way to it, else it stays.
   So it does when the exchanges are closer.
   */
  lemma RatioFollows(ratio: int, dt3: int, dt4: int, parts: int)
    requires dt4 > 100_000 ==> IsQuotient(BILLION * (dt3 - dt4), dt4, parts)
    ensures NextRatio(ratio, dt3, dt4) ==
              if dt4 > 100_000 && -10_000 < S32(parts) < 10_000 then Smoothed(ratio, S32(parts)) else ratio
  {
    if dt4 > 100_000 {
      QuotientUnique(BILLION * (dt3 - dt4), dt4, parts);
    }
  }

  /** `parts` is close to a multiple of 2^32 other than 0. */
  ghost predicate NearWrap(parts: int) { exists k :: k != 0 && Abs(parts - Wraps(k)) < MAX_RATIO }

  function Wraps(k: int): int { 0x1_0000_0000 * k }

  lemma LowBits(parts: int, k: int)
    requires Abs(parts - Wraps(k)) < MAX_RATIO
    ensures S32(parts) == parts - Wraps(k)
  {
  }

  lemma SmallLowBits(parts: int)
    requires Abs(parts) >= MAX_RATIO
    ensures -MAX_RATIO < S32(parts) < MAX_RATIO <==> NearWrap(parts)
    ensures -0x8000_0000 <= parts < 0x8000_0000 ==> S32(parts) == parts
  {
    var k := (parts - S32(parts)) / 0x1_0000_0000;
    assert parts == Wraps(k) + S32(parts);
    if -MAX_RATIO < S32(parts) < MAX_RATIO {
      assert k != 0 && Abs(parts - Wraps(k)) < MAX_RATIO;
    }
    if NearWrap(parts) {
      var j :| j != 0 && Abs(parts - Wraps(j)) < MAX_RATIO;
      LowBits(parts, j);
    }
  }

  /**
   A gain of 10,000 or more either way, which no clock has, is dropped if and only if it is not within
   10,000 of a multiple of 2^32 other than 0; a gain that fits 32 bits always is.
   */
  lemma GarbageTakenExactly(ratio: int, dt3: int, dt4: int, parts: int)
    requires dt4 > 100_000 && IsQuotient(BILLION * (dt3 - dt4), dt4, parts) && Abs(parts) >= MAX_RATIO
    ensures NextRatio(ratio, dt3, dt4) == if NearWrap(parts) then Smoothed(ratio, S32(parts)) else ratio
    ensures -0x8000_0000 <= parts < 0x8000_0000 ==> !NearWrap(parts)
  {
    RatioFollows(ratio, dt3, dt4, parts);
    SmallLowBits(parts);
  }

  /** An input: a peer clock that jumps 4.294967296 s in a second passes for one at exactly our rate. */
  lemma JumpPassesForEqualRates()
    ensures NextRatio(800, 5_294_967_296, 1_000_000_000) == 700
  {
    RatioFollows(800, 5_294_967_296, 1_000_000_000, 4_294_967_296);
  }

  /** An exchange whose interval is long enough and shows a gain of `parts`. */
  predicate Shows(dt3: int, dt4: int, parts: int) {
    dt4 > 100_000 && IsQuotient(BILLION * (dt3 - dt4), dt4, parts)
  }

  /** The ratio after intervals (dt3, dt4). */
  function Ratios(ratio: int, intervals: seq<(int, int)>): int {
    if intervals == [] then ratio
    else
      var last := intervals[|intervals| - 1];
      NextRatio(Ratios(ratio, intervals[..|intervals| - 1]), last.0, last.1)
  }

  lemma RatioTakes(ratio: int, interval: (int, int), parts: int)
    requires -MAX_RATIO < parts < MAX_RATIO && Shows(interval.0, interval.1, parts)
    ensures NextRatio(ratio, interval.0, interval.1) == Smoothed(ratio, parts)
  {
    RatioFollows(ratio, interval.0, interval.1, parts);
    SmallIsItself(parts);
  }

  lemma SmallIsItself(parts: int)
    requires -MAX_RATIO < parts < MAX_RATIO
    ensures S32(parts) == parts
  {
  }

  lemma {:induction false} RatioCloses(ratio: int, intervals: seq<(int, int)>, parts: int)
    requires -MAX_RATIO < parts < MAX_RATIO
    requires forall k :: 0 <= k < |intervals| ==> Shows(intervals[k].0, intervals[k].1, parts)
    ensures Approaches(ratio, Ratios(ratio, intervals), parts)
    ensures Ratios(ratio, intervals) == Smoothings(ratio, parts, |intervals|)
    decreases |intervals|
  {
    if intervals != [] {
      var n := |intervals| - 1;
      RatioCloses(ratio, intervals[..n], parts);
      RatioTakes(Ratios(ratio, intervals[..n]), intervals[n], parts);
      SmoothingApproaches(Ratios(ratio, intervals[..n]), parts);
    }
  }

  /**
   While the peer's clock keeps gaining `parts` in 10^9, in intervals of any length above 100 us, the ratio
   goes there without overshoot, and from 96 exchanges on it is within seven parts of it.
   */
  lemma RatioSettles(ratio: int, intervals: seq<(int, int)>, parts: int)
    requires -MAX_RATIO < ratio < MAX_RATIO && -MAX_RATIO < parts < MAX_RATIO
    requires forall k :: 0 <= k < |intervals| ==> Shows(intervals[k].0, intervals[k].1, parts)
    ensures Approaches(ratio, Ratios(ratio, intervals), parts)
    ensures |intervals| >= 96 ==> Gap(Ratios(ratio, intervals), parts) <= 7
  {
    RatioCloses(ratio, intervals, parts);
    if |intervals| >= 96 {
      SmoothingsSettle(ratio, parts, |intervals|);
    }
  }

  // ---------------------------------------------------------------------------
  // In place
  // ---------------------------------------------------------------------------

  class GptpFilters {
    const offMedianBuf: array<int>
    var offMedianIdx: nat
    var offMedianFilled: nat
    var offsetFromMaster: int
    var meanPathDelay: int
    var nrrPpb: int
    var prevT3: int
    var prevT4: int
    var pdelayPairCount: nat
    var outlierCount: Word32

    predicate Valid()
      reads this, offMedianBuf
    {
      && offMedianBuf.Length == DEPTH && offMedianIdx < DEPTH && offMedianFilled <= DEPTH
      && (offMedianFilled < DEPTH ==> offMedianIdx == offMedianFilled)
      && Plausible(meanPathDelay) && -MAX_RATIO < nrrPpb < MAX_RATIO
    }

    /** The offsets in the buffer, oldest first. */
    function Recent(): seq<int>
      requires Valid()
      reads this, offMedianBuf
    {
      Window(offMedianBuf[..], offMedianIdx, offMedianFilled)
    }

    constructor ()
      ensures Valid() && fresh(offMedianBuf) && Recent() == [] && meanPathDelay == 0 && nrrPpb == 0
    {
      offMedianBuf := new int[DEPTH](_ => 0);
      offMedianIdx, offMedianFilled, offsetFromMaster := 0, 0, 0;
      meanPathDelay, nrrPpb, prevT3, prevT4, pdelayPairCount, outlierCount := 0, 0, 0, 0, 0, 0;
    }

    /** Insertion sort of the filled part into a scratch array. */
    method SortedCopy() returns (sorted: array<int>)
      requires Valid()
      ensures fresh(sorted) && sorted.Length == offMedianFilled && Sorted(sorted[..])
      ensures multiset(sorted[..]) == multiset(offMedianBuf[..offMedianFilled])
    {
      var n := offMedianFilled;
      sorted := new int[n](i requires 0 <= i < n && n <= offMedianBuf.Length reads offMedianBuf => offMedianBuf[i]);
      assert sorted[..] == offMedianBuf[..n];
      var i := 1;
      while i < n
        invariant 1 <= i && (n > 0 ==> i <= n) && sorted.Length == n
        invariant n > 0 ==> Sorted(sorted[..i])
        invariant multiset(sorted[..]) == multiset(offMedianBuf[..n])
      {
        Insert(sorted, i);
        i := i + 1;
      }
      assert n > 0 ==> sorted[..n] == sorted[..];
    }

    /** Moves element i down to its place among those before it. */
    static method Insert(a: array<int>, i: nat)
      requires i < a.Length && Sorted(a[..i])
      modifies a
      ensures Sorted(a[..i + 1]) && multiset(a[..]) == multiset(old(a[..]))
      ensures a[i + 1..] == old(a[i + 1..])
    {
      var v := a[i];
      var j := i;
      while j > 0 && a[j - 1] > v
        invariant j <= i
        invariant forall k :: 0 <= k < j ==> a[k] == old(a[k])
        invariant forall k :: j < k <= i ==> a[k] == old(a[k - 1]) && a[k] > v
        invariant forall k :: i < k < a.Length ==> a[k] == old(a[k])
      {
        a[j] := a[j - 1];
        j := j - 1;
      }
      a[j] := v;
      ghost var was := old(a[..]);
      assert forall k :: j <= k < i ==> a[k + 1] == was[k];
      MovedSorts(was, a[..], j, i);
      MovedKeepsAll(was, a[..], j, i);
    }

    /** A raw offset enters the window. */
    method Enter(raw: int)
      requires Valid()
      modifies this`offMedianIdx, this`offMedianFilled, offMedianBuf
      ensures Valid() && Recent() == LastFive(old(Recent()) + [raw]) && offMedianFilled > 0
    {
      ghost var buf := offMedianBuf[..];
      offMedianBuf[offMedianIdx] := raw;
      offMedianIdx := (offMedianIdx + 1) % DEPTH;
      if offMedianFilled < DEPTH {
        offMedianFilled := offMedianFilled + 1;
      }
      assert offMedianBuf[..] == buf[old(offMedianIdx) := raw];
      WindowMoves(buf, old(offMedianIdx), old(offMedianFilled), raw, offMedianIdx, offMedianFilled);
    }

    /** The servo gets the middle of the last five offsets. */
    method FilterOffset(raw: int)
      requires Valid()
      modifies this`offMedianIdx, this`offMedianFilled, this`offsetFromMaster, offMedianBuf
      ensures Valid() && Recent() == LastFive(old(Recent()) + [raw])
      ensures IsKth(Recent(), |Recent()| / 2, offsetFromMaster)
    {
      Enter(raw);
      var sorted := SortedCopy();
      var middle := offMedianFilled / 2;
      WindowHoldsAll(offMedianBuf[..], offMedianIdx, offMedianFilled);
      assert offMedianBuf[..][..offMedianFilled] == offMedianBuf[..offMedianFilled];
      MiddleOfSorted(sorted[..], Recent(), middle);
      offsetFromMaster := sorted[middle];
    }

    /** A completed peer-delay exchange: rate ratio first, then the mean path delay. */
    method UpdateDelay(t1: int, t2: int, t3: int, t4: int)
      requires Valid()
      modifies this`meanPathDelay, this`nrrPpb, this`prevT3, this`prevT4, this`pdelayPairCount, this`outlierCount
      ensures Valid() && Recent() == old(Recent()) && prevT3 == t3 && prevT4 == t4
      ensures pdelayPairCount == old(pdelayPairCount) + 1
      ensures nrrPpb == if old(pdelayPairCount) > 0 then NextRatio(old(nrrPpb), t3 - old(prevT3),
          t4 - old(prevT4)) else old(nrrPpb)
      ensures meanPathDelay == NextMean(old(meanPathDelay), Delay(t1, t2, t3, t4, nrrPpb))
      ensures outlierCount == if Plausible(Delay(t1, t2, t3, t4, nrrPpb)) then old(outlierCount)
          else U32(old(outlierCount) + 1)
    {
      if pdelayPairCount > 0 {
        var dt3, dt4 := t3 - prevT3, t4 - prevT4;
        if dt4 > 100_000 {
          var inst := S32(TruncDiv((dt3 - dt4) * BILLION, dt4));
          if -MAX_RATIO < inst < MAX_RATIO {
            nrrPpb := TruncDiv(nrrPpb * 7 + inst, 8);
          }
        }
      }
      prevT3, prevT4 := t3, t4;
      pdelayPairCount := pdelayPairCount + 1;
      var roundTrip := t4 - t1;
      var corrected := roundTrip + TruncDiv(roundTrip * nrrPpb, BILLION);
      var delay := TruncDiv(corrected - (t3 - t2), 2);
      if delay >= 0 && delay < MAX_DELAY {
        if meanPathDelay == 0 {
          meanPathDelay := delay;
        } else {
          meanPathDelay := TruncDiv(meanPathDelay * 7 + delay, 8);
        }
      } else {
        outlierCount := U32(outlierCount + 1);
      }
    }
  }
}
