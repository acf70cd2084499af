// What a device's sliding window is: a fold of Pushed over its readings. How it
// relates to filtering the history by time, for readings in any order.
module SlidingWindow {
  import opened Prelude
  import opened Models

  datatype Entry = Entry(timestamp: int, temperature: real, batteryLevel: real)

  /** Expired entries are dropped from the front only. */
  function Trim(w: seq<Entry>, cutoff: int): seq<Entry> {
    if w != [] && w[0].timestamp < cutoff then Trim(w[1..], cutoff) else w
  }

  function Pushed(w: seq<Entry>, size: int, e: Entry): seq<Entry> {
    Trim(w, e.timestamp - size) + [e]
  }

  /** The window after pushing a device's whole history. */
  function Window(h: seq<Entry>, size: int): seq<Entry> {
    if h == [] then [] else Pushed(Window(Init(h), size), size, Last(h))
  }

  lemma {:induction false} TrimSplits(w: seq<Entry>, cutoff: int) returns (k: nat)
    ensures k <= |w| && Trim(w, cutoff) == w[k..]
    ensures forall i :: 0 <= i < k ==> w[i].timestamp < cutoff
    ensures k < |w| ==> w[k].timestamp >= cutoff
  {
    if w != [] && w[0].timestamp < cutoff {
      var j := TrimSplits(w[1..], cutoff);
      k := j + 1;
      forall i | 0 <= i < k
        ensures w[i].timestamp < cutoff
      {
        if i > 0 {
          assert w[i] == w[1..][i - 1];
        }
      }
    } else {
      k := 0;
    }
  }

  lemma TrimTo(w: seq<Entry>, cutoff: int, k: nat)
    requires k <= |w|
    requires forall i :: 0 <= i < k ==> w[i].timestamp < cutoff
    requires k < |w| ==> w[k].timestamp >= cutoff
    ensures Trim(w, cutoff) == w[k..]
  {
    var j := TrimSplits(w, cutoff);
  }

  /** The index in the history of the oldest retained reading. */
  function Start(h: seq<Entry>, size: int): int {
    |h| - |Window(h, size)|
  }

  /** Dropping twice and pushing is dropping from the longer history. */
  lemma DropDropSnoc(h: seq<Entry>, s: nat, k: nat, e: Entry)
    requires s + k <= |h|
    ensures h[s..][k..] + [e] == (h + [e])[s + k..]
  {
  }

  /** The window is a non-empty suffix of the history. */
  lemma {:induction false} WindowIsSuffix(h: seq<Entry>, size: int)
    ensures 0 <= Start(h, size) <= |h| && Window(h, size) == h[Start(h, size)..]
    ensures h != [] ==> Start(h, size) < |h|
  {
    if h == [] {
    } else {
      WindowIsSuffix(Init(h), size);
      var w, s := Window(Init(h), size), Start(Init(h), size);
      var k := TrimSplits(w, Last(h).timestamp - size);
      DropDropSnoc(Init(h), s, k, Last(h));
      assert Init(h) + [Last(h)] == h;
    }
  }

  function Latest(h: seq<Entry>): int
    requires h != []
  {
    if |h| == 1 || Last(h).timestamp >= Latest(Init(h)) then Last(h).timestamp else Latest(Init(h))
  }

  lemma {:induction false} LatestBounds(h: seq<Entry>)
    requires h != []
    ensures forall e :: e in h ==> e.timestamp <= Latest(h)
    ensures |h| > 1 ==> Latest(Init(h)) <= Latest(h)
  {
    assert h == Init(h) + [Last(h)];
    if |h| == 1 {
    } else {
      LatestBounds(Init(h));
    }
  }

  /** What one push drops, in terms of the history. */
  lemma StartMoves(h: seq<Entry>, size: int)
    requires h != []
    ensures 0 <= Start(Init(h), size) <= Start(h, size) < |h|
    ensures forall i :: Start(Init(h), size) <= i < Start(h, size) ==> h[i].timestamp < Last(h).timestamp - size
    ensures size >= 0 ==> h[Start(h, size)].timestamp >= Last(h).timestamp - size
  {
    WindowIsSuffix(Init(h), size);
    var w, s := Window(Init(h), size), Start(Init(h), size);
    var k := TrimSplits(w, Last(h).timestamp - size);
    assert Start(h, size) == s + k;
    forall i | s <= i < s + k
      ensures h[i].timestamp < Last(h).timestamp - size
    {
      assert h[i] == Init(h)[i] == w[i - s];
    }
    assert k < |w| ==> h[s + k] == Init(h)[s + k] == w[k];
  }

  /** Whatever the order of timestamps, the window starts no earlier than the
      pushed reading allows, and a reading is dropped only once it is older than
      the newest timestamp ever pushed allows. */
  lemma {:induction false} WindowBounds(h: seq<Entry>, size: nat)
    requires h != []
    ensures 0 <= Start(h, size) < |h|
    ensures h[Start(h, size)].timestamp >= Last(h).timestamp - size
    ensures forall i :: 0 <= i < Start(h, size) ==> h[i].timestamp < Latest(h) - size
  {
    StartMoves(h, size);
    LatestBounds(h);
    assert Last(h) in h;
    if |h| == 1 {
    } else {
      WindowBounds(Init(h), size);
      assert forall i :: 0 <= i < Start(Init(h), size) ==> h[i] == Init(h)[i];
    }
  }

  predicate NonDecreasing(h: seq<Entry>) {
    forall i, j :: 0 <= i < j < |h| ==> h[i].timestamp <= h[j].timestamp
  }

  function Since(t: int): Entry -> bool {
    (e: Entry) => e.timestamp >= t
  }

  lemma {:induction false} FilterNone(h: seq<Entry>, t: int)
    ensures Filter(Since(t), h) == [] <==> forall e :: e in h ==> e.timestamp < t
  {
    if h == [] {
    } else {
      assert h == Init(h) + [Last(h)];
      assert Last(h) in h;
      FilterNone(Init(h), t);
    }
  }

  lemma {:induction false} FilterAll(h: seq<Entry>, t: int)
    requires forall e :: e in h ==> e.timestamp >= t
    ensures Filter(Since(t), h) == h
  {
    if h == [] {
    } else {
      assert h == Init(h) + [Last(h)];
      assert Last(h) in h;
      FilterAll(Init(h), t);
    }
  }

  lemma FilterParts(a: seq<Entry>, b: seq<Entry>, t: int)
    ensures Filter(Since(t), a + b) == b <==>
      (forall e :: e in a ==> e.timestamp < t) && (forall e :: e in b ==> e.timestamp >= t)
  {
    FilterConcat(Since(t), a, b);
    FilterNone(a, t);
    if forall e :: e in b ==> e.timestamp >= t {
      FilterAll(b, t);
      assert Filter(Since(t), a + b) == b ==> |Filter(Since(t), a)| == 0;
    } else {
      var e :| e in b && e.timestamp < t;
      FilterMembers(Since(t), a + b, e);
    }
  }

  predicate OldBefore(h: seq<Entry>, k: nat, t: int) {
    forall i :: 0 <= i < k && i < |h| ==> h[i].timestamp < t
  }

  predicate RecentFrom(h: seq<Entry>, k: nat, t: int) {
    forall i :: k <= i < |h| ==> h[i].timestamp >= t
  }

  lemma PrefixMembers(h: seq<Entry>, k: nat, t: int)
    requires k <= |h|
    ensures (forall e :: e in h[..k] ==> e.timestamp < t) <==> OldBefore(h, k, t)
  {
    if forall e :: e in h[..k] ==> e.timestamp < t {
      assert forall i :: 0 <= i < k ==> h[i] in h[..k];
    }
  }

  lemma SuffixMembers(h: seq<Entry>, k: nat, t: int)
    requires k <= |h|
    ensures (forall e :: e in h[k..] ==> e.timestamp >= t) <==> RecentFrom(h, k, t)
  {
    if forall e :: e in h[k..] ==> e.timestamp >= t {
      assert forall i :: k <= i < |h| ==> h[i] in h[k..];
    }
  }

  /** Filtering by age leaves the suffix from k exactly when age splits there. */
  lemma FilterIsSuffixIff(h: seq<Entry>, t: int, k: nat)
    requires k <= |h|
    ensures Filter(Since(t), h) == h[k..] <==> OldBefore(h, k, t) && RecentFrom(h, k, t)
  {
    assert h == h[..k] + h[k..];
    FilterParts(h[..k], h[k..], t);
    PrefixMembers(h, k, t);
    SuffixMembers(h, k, t);
  }

  // ---- the exact window, for any timestamps ----

  /** Nothing pushed after h[k] would have expired it. */
  predicate NeverExpired(h: seq<Entry>, size: int, k: nat) {
    k < |h| && forall j :: k < j < |h| ==> h[j].timestamp - size <= h[k].timestamp
  }

  /** A reading that nothing pushed since would have expired is retained. */
  lemma {:induction false} NeverExpiredIsRetained(h: seq<Entry>, size: int, k: nat)
    requires NeverExpired(h, size, k)
    ensures Start(h, size) <= k
  {
    StartMoves(h, size);
    if k == |h| - 1 {
    } else {
      var g := Init(h);
      assert forall j :: 0 <= j < |g| ==> g[j] == h[j];
      NeverExpiredIsRetained(g, size, k);
      assert Last(h).timestamp - size <= h[k].timestamp;
    }
  }

  /** The oldest retained reading outlived all that were pushed after it. */
  lemma {:induction false} OldestWasNeverExpired(h: seq<Entry>, size: nat, j: nat)
    requires h != [] && Start(h, size) < j < |h|
    ensures 0 <= Start(h, size) && h[j].timestamp - size <= h[Start(h, size)].timestamp
  {
    StartMoves(h, size);
    if j == |h| - 1 {
    } else {
      var g := Init(h);
      assert forall i :: 0 <= i < |g| ==> g[i] == h[i];
      OldestWasNeverExpired(g, size, j);
      var was, now := Start(g, size), Start(h, size);
      assert was < now ==> h[was].timestamp < Last(h).timestamp - size;
    }
  }

  /** The window begins with the first reading that nothing pushed after it would
      have expired, and holds all that came since. */
  lemma WindowIsSinceNeverExpired(h: seq<Entry>, size: nat)
    requires h != []
    ensures 0 <= Start(h, size) && Window(h, size) == h[Start(h, size)..]
    ensures NeverExpired(h, size, Start(h, size))
    ensures forall k: nat :: k < Start(h, size) ==> !NeverExpired(h, size, k)
  {
    WindowIsSuffix(h, size);
    forall j | Start(h, size) < j < |h|
      ensures h[j].timestamp - size <= h[Start(h, size)].timestamp
    {
      OldestWasNeverExpired(h, size, j);
    }
    forall k: nat | NeverExpired(h, size, k)
      ensures Start(h, size) <= k
    {
      NeverExpiredIsRetained(h, size, k);
    }
  }

  lemma OnlyOneFirst(h: seq<Entry>, size: nat, k: nat)
    requires NeverExpired(h, size, k) && forall i: nat :: i < k ==> !NeverExpired(h, size, i)
    ensures Start(h, size) == k
  {
    WindowIsSinceNeverExpired(h, size);
    NeverExpiredIsRetained(h, size, k);
  }

  /** h[i] is ahead of a reading pushed after it. */
  predicate OutOfOrder(h: seq<Entry>, i: nat, j: nat) {
    i < j < |h| && h[i].timestamp > h[j].timestamp
  }

  lemma SuffixInOrderIff(h: seq<Entry>, s: nat)
    requires s <= |h|
    ensures NonDecreasing(h[s..]) <==> forall i: nat, j: nat :: s <= i ==> !OutOfOrder(h, i, j)
  {
    var w := h[s..];
    if NonDecreasing(w) {
      forall i: nat, j: nat | s <= i
        ensures !OutOfOrder(h, i, j)
      {
        assert i < j < |h| ==> w[i - s].timestamp <= w[j - s].timestamp;
      }
    } else {
      var i, j :| 0 <= i < j < |w| && w[i].timestamp > w[j].timestamp;
      assert OutOfOrder(h, s + i, s + j);
    }
  }

  /** The window is ordered by timestamp if and only if, for every two readings
      that came out of order, everything up to the first of them has been expired
      by something pushed since. */
  lemma WindowInOrderIff(h: seq<Entry>, size: nat)
    requires h != []
    ensures NonDecreasing(Window(h, size)) <==>
      forall i: nat, j: nat, k: nat :: OutOfOrder(h, i, j) && k <= i ==> !NeverExpired(h, size, k)
  {
    WindowIsSinceNeverExpired(h, size);
    var s := Start(h, size);
    SuffixInOrderIff(h, s);
    if NonDecreasing(Window(h, size)) {
      forall i: nat, j: nat, k: nat | OutOfOrder(h, i, j) && k <= i
        ensures !NeverExpired(h, size, k)
      {
        assert i < s;
      }
    }
  }

  // ---- when the window is the history filtered by age ----

  /** Timestamps alone: the readings that are too old for the last one come before
      all that are not, and no reading since h[k] came would have expired it. */
  predicate SplitsAt(h: seq<Entry>, size: int, k: nat)
    requires h != []
  {
    && NeverExpired(h, size, k)
    && OldBefore(h, k, Last(h).timestamp - size)
    && RecentFrom(h, k, Last(h).timestamp - size)
  }

  lemma SplitIsStart(h: seq<Entry>, size: nat, k: nat)
    requires h != [] && SplitsAt(h, size, k)
    ensures Start(h, size) == k
  {
    assert forall i: nat :: i < k ==> h[i].timestamp < Last(h).timestamp - size;
    OnlyOneFirst(h, size, k);
  }

  lemma StartSplitsIff(h: seq<Entry>, size: nat)
    requires h != []
    ensures 0 <= Start(h, size) < |h|
    ensures var t, k := Last(h).timestamp - size, Start(h, size);
      SplitsAt(h, size, k) <==> OldBefore(h, k, t) && RecentFrom(h, k, t)
  {
    WindowIsSinceNeverExpired(h, size);
  }

  /** The window is the history filtered by age exactly when the timestamps split. */
  lemma WindowIsFilterIff(h: seq<Entry>, size: nat)
    requires h != []
    ensures Window(h, size) == Filter(Since(Last(h).timestamp - size), h) <==> exists k :: SplitsAt(h, size, k)
  {
    WindowIsSuffix(h, size);
    StartSplitsIff(h, size);
    FilterIsSuffixIff(h, Last(h).timestamp - size, Start(h, size));
    if k :| SplitsAt(h, size, k) {
      SplitIsStart(h, size, k);
    }
  }

  /** Readings in time order split, so their window is the history filtered by age. */
  lemma WindowIsFilterInOrder(h: seq<Entry>, size: nat)
    requires h != [] && NonDecreasing(h)
    ensures Window(h, size) == Filter(Since(Last(h).timestamp - size), h)
  {
    WindowBounds(h, size);
    LatestInOrder(h);
    assert SplitsAt(h, size, Start(h, size));
    WindowIsFilterIff(h, size);
  }

  lemma {:induction false} LatestInOrder(h: seq<Entry>)
    requires h != [] && NonDecreasing(h)
    ensures Latest(h) == Last(h).timestamp
  {
    if |h| == 1 {
    } else {
      LatestInOrder(Init(h));
    }
  }

  /** Out of order the window may keep an expired reading behind a newer one, and
      is then not ordered by timestamp ... */
  lemma ExpiredReadingSurvives()
    ensures var h := [Entry(10, 0.0, 0.0), Entry(0, 0.0, 0.0), Entry(9, 0.0, 0.0)];
      Window(h, 5) == h && Filter(Since(4), h) != h && !NonDecreasing(Window(h, 5))
  {
    var a, b, c := Entry(10, 0.0, 0.0), Entry(0, 0.0, 0.0), Entry(9, 0.0, 0.0);
    assert Window([a], 5) == [a] by { assert Init([a]) == []; }
    assert Window([a, b], 5) == [a, b] by { assert Init([a, b]) == [a]; }
    assert Window([a, b, c], 5) == [a, b, c] by { assert Init([a, b, c]) == [a, b]; }
    FilterMembers(Since(4), [a, b, c], b);
    assert b == [a, b, c][1] && b in [a, b, c];
    assert [a, b, c][0].timestamp > [a, b, c][1].timestamp;
  }

  /** ... and a reading dropped earlier stays dropped when a late one arrives. */
  lemma DroppedReadingStaysDropped()
    ensures var h := [Entry(0, 0.0, 0.0), Entry(10, 0.0, 0.0), Entry(4, 0.0, 0.0)];
      Window(h, 5) == h[1..] && Filter(Since(-1), h) == h
  {
    var a, b, c := Entry(0, 0.0, 0.0), Entry(10, 0.0, 0.0), Entry(4, 0.0, 0.0);
    assert Window([a], 5) == [a] by { assert Init([a]) == []; }
    assert Window([a, b], 5) == [b] by {
      assert Init([a, b]) == [a];
      TrimTo([a], 5, 1);
    }
    assert Window([a, b, c], 5) == [b, c] by { assert Init([a, b, c]) == [a, b]; }
    FilterIsSuffixIff([a, b, c], -1, 0);
  }

  /** No reading lags the newest one before it by more than lag. */
  predicate BoundedLateness(h: seq<Entry>, lag: int) {
    forall i, j :: 0 <= i < j < |h| ==> h[j].timestamp >= h[i].timestamp - lag
  }

  /** With bounded lateness, eviction from the front only keeps nothing staler
      than the window size plus the lateness. */
  lemma BoundedStaleness(h: seq<Entry>, size: nat, lag: nat)
    requires h != [] && BoundedLateness(h, lag)
    ensures forall e :: e in Window(h, size) ==> e.timestamp >= Last(h).timestamp - size - lag
  {
    WindowIsSuffix(h, size);
    WindowBounds(h, size);
    var s := Start(h, size);
    forall e | e in Window(h, size)
      ensures e.timestamp >= Last(h).timestamp - size - lag
    {
      var i :| 0 <= i < |Window(h, size)| && Window(h, size)[i] == e;
      assert e == h[s + i];
    }
  }

  // ---- aggregates ----

  datatype WindowAggregate = WindowAggregate(
    deviceID: string,
    windowStart: int,
    windowEnd: int,
    avgTemp: real,
    maxTemp: real,
    minTemp: real,
    avgBattery: real,
    sampleCount: int)

  function Temperatures(w: seq<Entry>): seq<real> {
    seq(|w|, i requires 0 <= i < |w| => w[i].temperature)
  }

  function Batteries(w: seq<Entry>): seq<real> {
    seq(|w|, i requires 0 <= i < |w| => w[i].batteryLevel)
  }

  function Sum(xs: seq<real>): real {
    if xs == [] then 0.0 else Sum(Init(xs)) + Last(xs)
  }

  function Max(xs: seq<real>): real
    requires xs != []
  {
    if |xs| == 1 then xs[0]
    else if Last(xs) > Max(Init(xs)) then Last(xs) else Max(Init(xs))
  }

  function Min(xs: seq<real>): real
    requires xs != []
  {
    if |xs| == 1 then xs[0]
    else if Last(xs) < Min(Init(xs)) then Last(xs) else Min(Init(xs))
  }

  /** One step of a pass over the first i elements. */
  lemma PassStep(xs: seq<real>, i: nat)
    requires i < |xs|
    ensures Sum(xs[..i + 1]) == Sum(xs[..i]) + xs[i]
    ensures i > 0 ==> Max(xs[..i + 1]) == if xs[i] > Max(xs[..i]) then xs[i] else Max(xs[..i])
    ensures i > 0 ==> Min(xs[..i + 1]) == if xs[i] < Min(xs[..i]) then xs[i] else Min(xs[..i])
    ensures i == 0 ==> Max(xs[..1]) == Min(xs[..1]) == xs[0]
  {
    assert Init(xs[..i + 1]) == xs[..i];
  }

  function Aggregate(id: string, w: seq<Entry>): WindowAggregate
    requires w != []
  {
    var ts := Temperatures(w);
    WindowAggregate(id, w[0].timestamp, Last(w).timestamp,
                    Sum(ts) / |w| as real, Max(ts), Min(ts),
                    Sum(Batteries(w)) / |w| as real, |w|)
  }

  lemma {:induction false} ExtremesAreAttained(xs: seq<real>)
    requires xs != []
    ensures Max(xs) in xs && Min(xs) in xs
    ensures forall x :: x in xs ==> Min(xs) <= x <= Max(xs)
  {
    assert xs == Init(xs) + [Last(xs)];
    if |xs| == 1 {
    } else {
      ExtremesAreAttained(Init(xs));
    }
  }

  /** x added up n times. */
  function Times(n: nat, x: real): real {
    if n == 0 then 0.0 else Times(n - 1, x) + x
  }

  lemma AddOneTimes(n: real, x: real)
    ensures (n + 1.0) * x == n * x + x
  {
  }

  lemma {:induction false} TimesIsProduct(n: nat, x: real)
    ensures Times(n, x) == n as real * x
  {
    if n == 0 {
    } else {
      TimesIsProduct(n - 1, x);
      AddOneTimes((n - 1) as real, x);
      assert (n - 1) as real + 1.0 == n as real;
    }
  }

  lemma {:induction false} SumBetween(xs: seq<real>, lo: real, hi: real)
    requires forall x :: x in xs ==> lo <= x <= hi
    ensures Times(|xs|, lo) <= Sum(xs) <= Times(|xs|, hi)
  {
    if xs == [] {
    } else {
      assert xs == Init(xs) + [Last(xs)];
      assert Last(xs) in xs && forall x :: x in Init(xs) ==> x in xs;
      SumBetween(Init(xs), lo, hi);
    }
  }

  lemma AverageBounds(xs: seq<real>)
    requires xs != []
    ensures Min(xs) <= Sum(xs) / |xs| as real <= Max(xs)
  {
    ExtremesAreAttained(xs);
    SumBetween(xs, Min(xs), Max(xs));
    QuotientBetween(Sum(xs), |xs|, Min(xs), Max(xs));
  }

  lemma QuotientBetween(s: real, n: nat, lo: real, hi: real)
    requires n > 0 && Times(n, lo) <= s <= Times(n, hi)
    ensures lo <= s / n as real <= hi
  {
    TimesIsProduct(n, lo);
    TimesIsProduct(n, hi);
    QuotientBounds(s, n as real, lo, hi);
  }

  lemma QuotientBounds(s: real, n: real, lo: real, hi: real)
    requires n > 0.0 && n * lo <= s <= n * hi
    ensures lo <= s / n <= hi
  {
    var q := s / n;
    assert s == n * q;
    assert q < lo ==> n * q < n * lo;
    assert q > hi ==> n * q > n * hi;
  }

  /** Minimum and maximum are readings of the window, and the average of the
      temperatures lies between them. */
  lemma AggregateMeaning(id: string, w: seq<Entry>)
    requires w != []
    ensures var a := Aggregate(id, w);
      && (exists e :: e in w && e.temperature == a.maxTemp)
      && (exists e :: e in w && e.temperature == a.minTemp)
      && (forall e :: e in w ==> a.minTemp <= e.temperature <= a.maxTemp)
      && a.minTemp <= a.avgTemp <= a.maxTemp
      && (exists e :: e in w && e.batteryLevel <= a.avgBattery)
      && (exists e :: e in w && e.batteryLevel >= a.avgBattery)
  {
    var ts, bs := Temperatures(w), Batteries(w);
    ExtremesAreAttained(ts);
    ExtremesAreAttained(bs);
    AverageBounds(ts);
    AverageBounds(bs);
    var i :| 0 <= i < |ts| && ts[i] == Max(ts);
    assert w[i] in w && w[i].temperature == Max(ts);
    var j :| 0 <= j < |ts| && ts[j] == Min(ts);
    assert w[j] in w && w[j].temperature == Min(ts);
    var k :| 0 <= k < |bs| && bs[k] == Min(bs);
    assert w[k] in w && w[k].batteryLevel <= Aggregate(id, w).avgBattery;
    var l :| 0 <= l < |bs| && bs[l] == Max(bs);
    assert w[l] in w && w[l].batteryLevel >= Aggregate(id, w).avgBattery;
    forall e | e in w
      ensures Min(ts) <= e.temperature <= Max(ts)
    {
      var n :| 0 <= n < |w| && w[n] == e;
      assert ts[n] in ts;
    }
  }

  /** The aggregate of a single reading. */
  lemma AggregateOfOne(id: string, e: Entry)
    ensures Aggregate(id, [e]) ==
      WindowAggregate(id, e.timestamp, e.timestamp, e.temperature, e.temperature, e.temperature, e.batteryLevel, 1)
  {
    assert Temperatures([e]) == [e.temperature] && Batteries([e]) == [e.batteryLevel];
    SumSnoc([], e.temperature);
    SumSnoc([], e.batteryLevel);
    assert [] + [e.temperature] == [e.temperature] && [] + [e.batteryLevel] == [e.batteryLevel];
  }

  lemma SumSnoc(xs: seq<real>, x: real)
    ensures Sum(xs + [x]) == Sum(xs) + x
    ensures xs != [] ==> Max(xs + [x]) == if x > Max(xs) then x else Max(xs)
    ensures xs != [] ==> Min(xs + [x]) == if x < Min(xs) then x else Min(xs)
  {
    assert Init(xs + [x]) == xs;
  }

  lemma QuotientTimes(s: real, n: real)
    requires n > 0.0
    ensures (s / n) * n == s
  {
  }

  lemma MeanGrows(xs: seq<real>, x: real)
    requires xs != []
    ensures Sum(xs + [x]) / |xs + [x]| as real * (|xs| + 1) as real == Sum(xs) / |xs| as real * |xs| as real + x
  {
    SumSnoc(xs, x);
    assert |xs + [x]| == |xs| + 1;
    QuotientTimes(Sum(xs), |xs| as real);
    QuotientTimes(Sum(xs + [x]), (|xs| + 1) as real);
  }

  lemma AveragesGrow(id: string, v: seq<Entry>, e: Entry)
    requires v != []
    ensures var a, b := Aggregate(id, v), Aggregate(id, v + [e]);
      && b.avgTemp * (|v| + 1) as real == a.avgTemp * |v| as real + e.temperature
      && b.avgBattery * (|v| + 1) as real == a.avgBattery * |v| as real + e.batteryLevel
  {
    var ts, bs := Temperatures(v), Batteries(v);
    assert Temperatures(v + [e]) == ts + [e.temperature] && Batteries(v + [e]) == bs + [e.batteryLevel];
    MeanGrows(ts, e.temperature);
    MeanGrows(bs, e.batteryLevel);
  }

  /** What one more reading does to an aggregate. With AggregateOfOne this says
      what the aggregate of any window is. */
  lemma AggregateGrows(id: string, v: seq<Entry>, e: Entry)
    requires v != []
    ensures var a, b := Aggregate(id, v), Aggregate(id, v + [e]);
      && b.deviceID == id && b.windowStart == a.windowStart && b.windowEnd == e.timestamp
      && a.sampleCount == |v| && b.sampleCount == |v| + 1
      && b.avgTemp * (|v| + 1) as real == a.avgTemp * |v| as real + e.temperature
      && b.avgBattery * (|v| + 1) as real == a.avgBattery * |v| as real + e.batteryLevel
      && b.maxTemp == (if e.temperature > a.maxTemp then e.temperature else a.maxTemp)
      && b.minTemp == (if e.temperature < a.minTemp then e.temperature else a.minTemp)
  {
    AveragesGrow(id, v, e);
    assert Temperatures(v + [e]) == Temperatures(v) + [e.temperature];
    SumSnoc(Temperatures(v), e.temperature);
  }

  // ---- all devices ----

  type Windows = map<string, seq<Entry>>

  function WindowOf(ws: Windows, id: string): seq<Entry> {
    if id in ws then ws[id] else []
  }

  function EntryOf(m: DeviceMetric): Entry {
    Entry(m.timestamp, m.temperature, m.batteryLevel)
  }

  function PushMetric(ws: Windows, size: int, m: DeviceMetric): Windows {
    ws[m.deviceID := Pushed(WindowOf(ws, m.deviceID), size, EntryOf(m))]
  }
}
