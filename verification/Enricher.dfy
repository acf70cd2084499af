// The TTL cache in front of the device registry, with stale-on-error fallback,
// over whole call sequences.
module Enricher {
  import opened Prelude
  import opened Models

  datatype CacheEntry = CacheEntry(device: Device, expiresAt: int)

  type Cache = map<string, CacheEntry>

  /** One GetDevice call: the two clock readings it may take, the first at its
      expiry check, the second when it stores a row, and what the query answers
      if it is made. */
  datatype Call = Call(id: string, checkedAt: int, answer: Option<Device>, storedAt: int)

  predicate Hit(cache: Cache, call: Call) {
    call.id in cache && call.checkedAt < cache[call.id].expiresAt
  }

  /** The call queries the registry and stores the row it gets. */
  predicate Refreshes(cache: Cache, call: Call) {
    !Hit(cache, call) && call.answer.Some?
  }

  function Fetched(call: Call): Device
    requires call.answer.Some?
  {
    call.answer.value.(active := true)
  }

  function AfterCall(cache: Cache, ttl: int, call: Call): Cache {
    if Refreshes(cache, call) then cache[call.id := CacheEntry(Fetched(call), call.storedAt + ttl)] else cache
  }

  /** None is an error. */
  function ResultOf(cache: Cache, call: Call): Option<Device> {
    if Hit(cache, call) then Some(cache[call.id].device)
    else if call.answer.Some? then Some(Fetched(call))
    else if call.id in cache then Some(cache[call.id].device)
    else None
  }

  function CacheAfter(ttl: int, calls: seq<Call>): Cache {
    if calls == [] then map[] else AfterCall(CacheAfter(ttl, Init(calls)), ttl, Last(calls))
  }

  /** The calls for a device that refreshed its entry, in order. */
  function Refreshing(ttl: int, calls: seq<Call>, id: string): seq<Call> {
    if calls == [] then []
    else
      Refreshing(ttl, Init(calls), id)
      + if Last(calls).id == id && Refreshes(CacheAfter(ttl, Init(calls)), Last(calls)) then [Last(calls)] else []
  }

  /** Clock readings never decrease, within a call or between calls. */
  predicate ClockOk(calls: seq<Call>) {
    && (forall i :: 0 <= i < |calls| ==> calls[i].checkedAt <= calls[i].storedAt)
    && (forall i, j :: 0 <= i < j < |calls| ==> calls[i].storedAt <= calls[j].checkedAt)
  }

  /** The cache holds exactly each device's last successfully fetched row, and
      when it was stored. */
  lemma {:induction false} CacheIsLastRefresh(ttl: int, calls: seq<Call>, id: string)
    ensures var own, cache := Refreshing(ttl, calls, id), CacheAfter(ttl, calls);
      && (forall c :: c in own ==> c.answer.Some?)
      && (id in cache <==> own != [])
      && (own != [] ==> Last(own) in own && cache[id] == CacheEntry(Fetched(Last(own)), Last(own).storedAt + ttl))
  {
    if calls == [] {
    } else {
      CacheIsLastRefresh(ttl, Init(calls), id);
    }
  }

  /** A call without error returns the device's last successfully fetched row,
      counting its own query; it fails exactly when no row was ever fetched; and a
      row stored a whole ttl before is kept exactly when the call's query fails. */
  lemma ResultIsLastFetched(ttl: int, calls: seq<Call>, call: Call)
    ensures var r := ResultOf(CacheAfter(ttl, calls), call);
      var was, own := Refreshing(ttl, calls, call.id), Refreshing(ttl, calls + [call], call.id);
      && (r.Some? <==> own != [])
      && (own != [] ==> Last(own).answer.Some? && r == Some(Fetched(Last(own))))
      && (was != [] && call.checkedAt >= Last(was).storedAt + ttl ==> (own == was <==> call.answer.None?))
      && (was != [] && call.checkedAt < Last(was).storedAt + ttl ==> own == was)
  {
    assert Init(calls + [call]) == calls;
    CacheIsLastRefresh(ttl, calls, call.id);
    CacheIsLastRefresh(ttl, calls + [call], call.id);
    var was, own := Refreshing(ttl, calls, call.id), Refreshing(ttl, calls + [call], call.id);
    assert Refreshes(CacheAfter(ttl, calls), call) ==> |own| == |was| + 1;
  }

  /** No row of a device was ever fetched exactly if no call for it was answered. */
  lemma {:induction false} NeverFetchedIff(ttl: int, calls: seq<Call>, id: string)
    ensures Refreshing(ttl, calls, id) == [] <==> forall c :: c in calls && c.id == id ==> c.answer.None?
  {
    if calls == [] {
    } else {
      var before, last := Init(calls), Last(calls);
      assert calls == before + [last];
      NeverFetchedIff(ttl, before, id);
      CacheIsLastRefresh(ttl, before, id);
      assert forall c :: c in calls <==> c in before || c == last;
    }
  }

  /** Refreshes of a device are at least ttl apart. */
  lemma {:induction false} RefreshesAreSpaced(ttl: int, calls: seq<Call>, id: string)
    requires ttl > 0 && ClockOk(calls)
    ensures var own := Refreshing(ttl, calls, id);
      forall i :: 0 < i < |own| ==> own[i].storedAt - own[i - 1].storedAt >= ttl
  {
    if calls == [] {
    } else {
      var before := Init(calls);
      assert forall i :: 0 <= i < |before| ==> before[i] == calls[i];
      RefreshesAreSpaced(ttl, before, id);
      CacheIsLastRefresh(ttl, before, id);
      assert Last(calls) == calls[|before|];
    }
  }

  /** Within any span of time a device is fetched at most 1 + span / ttl times. */
  lemma {:induction false} RefreshCount(ttl: int, calls: seq<Call>, id: string, lo: nat, hi: nat, span: int)
    requires ttl > 0 && ClockOk(calls)
    requires var own := Refreshing(ttl, calls, id);
      lo <= hi < |own| && own[hi].storedAt - own[lo].storedAt <= span
    ensures hi - lo + 1 <= 1 + span / ttl
  {
    SpacingAddsUp(ttl, calls, id, lo, hi);
    assert (hi - lo) * ttl <= span;
    QuotientAtLeast(hi - lo, ttl, span);
  }

  lemma QuotientAtLeast(n: int, d: int, x: int)
    requires d > 0 && n * d <= x
    ensures n <= x / d
  {
    var q := x / d;
    assert x < (q + 1) * d;
    assert q + 1 <= n ==> (q + 1) * d <= n * d;
  }

  lemma {:induction false} SpacingAddsUp(ttl: int, calls: seq<Call>, id: string, lo: nat, hi: nat)
    requires ttl > 0 && ClockOk(calls) && lo <= hi < |Refreshing(ttl, calls, id)|
    ensures var own := Refreshing(ttl, calls, id); own[hi].storedAt - own[lo].storedAt >= (hi - lo) * ttl
    decreases hi
  {
    RefreshesAreSpaced(ttl, calls, id);
    if lo == hi {
    } else {
      SpacingAddsUp(ttl, calls, id, lo, hi - 1);
      assert (hi - lo) * ttl == (hi - 1 - lo) * ttl + ttl;
    }
  }

  /** The claim that an active device is never served stale data fails as soon as
      a query fails: the old row is served however long ago it was stored. */
  lemma StaleIsServed(d: Device, ttl: nat, late: nat)
    ensures var calls := [Call(d.deviceID, 0, Some(d), 0)];
      ResultOf(CacheAfter(ttl, calls), Call(d.deviceID, ttl + late, None, ttl + late)) == Some(d.(active := true))
  {
    var first := Call(d.deviceID, 0, Some(d), 0);
    assert Init([first]) == [] && CacheAfter(ttl, []) == map[];
    assert CacheAfter(ttl, [first]) == map[d.deviceID := CacheEntry(d.(active := true), ttl)];
  }

  class Enricher {
    const ttl: int
    var cache: Cache

    constructor (ttl: int)
      ensures this.ttl == ttl && cache == map[]
    {
      this.ttl, cache := ttl, map[];
    }

    method GetDevice(call: Call) returns (device: Option<Device>)
      modifies this
      ensures cache == AfterCall(old(cache), ttl, call)
      ensures device == ResultOf(old(cache), call)
    {
      var ok := call.id in cache;
      if ok && call.checkedAt < cache[call.id].expiresAt {
        return Some(cache[call.id].device);
      }
      if call.answer.None? {
        if ok {
          return Some(cache[call.id].device);
        }
        return None;
      }
      var d := call.answer.value.(active := true);
      cache := cache[call.id := CacheEntry(d, call.storedAt + ttl)];
      return Some(d);
    }
  }
}
