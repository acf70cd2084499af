// The window store as the program keeps it: a map of slices over backing arrays
// that are trimmed by re-slicing and appended to in place while capacity lasts.
module WindowStore {
  import opened Prelude
  import opened Models
  import opened SlidingWindow

  /** A slice header; its capacity is what the array has from off on. */
  datatype Slice = Slice(arr: array<Entry>, off: nat, len: nat) {
    predicate InBounds() {
      off + len <= arr.Length
    }

    ghost function View(): seq<Entry>
      requires InBounds()
      reads arr
    {
      arr[off..off + len]
    }
  }

  /** Appending to a slice: in place when there is room, else into a new array
      of some larger capacity. */
  method Append(s: Slice, e: Entry) returns (t: Slice)
    requires s.InBounds()
    modifies s.arr
    ensures t.InBounds() && t.View() == old(s.View()) + [e]
    ensures t.arr == s.arr || fresh(t.arr)
    ensures fresh(t.arr) ==> forall i :: 0 <= i < s.arr.Length ==> s.arr[i] == old(s.arr[i])
  {
    if s.off + s.len < s.arr.Length {
      s.arr[s.off + s.len] := e;
      t := Slice(s.arr, s.off, s.len + 1);
    } else {
      var capacity: nat := *;
      if capacity <= s.len {
        capacity := s.len + 1;
      }
      var grown := new Entry[capacity];
      forall i | 0 <= i < s.len {
        grown[i] := s.arr[s.off + i];
      }
      grown[s.len] := e;
      t := Slice(grown, 0, s.len + 1);
    }
  }

  class WindowStore {
    const windowSize: int
    var windows: map<string, Slice>
    ghost var contents: Windows

    ghost var arrays: set<object>     // backing arrays, live or outgrown

    /** Every slice shows its device's window; no two devices share an array. */
    ghost predicate Valid()
      reads this, arrays
    {
      ValidBut({})
    }

    /** Valid, with nothing said of the slices of some devices. */
    ghost predicate ValidBut(ids: set<string>)
      reads this, arrays
    {
      && windows.Keys == contents.Keys
      && this !in arrays
      && (forall id :: id in windows ==> windows[id].arr in arrays)
      && (forall id :: id in windows && id !in ids ==> windows[id].InBounds() && windows[id].View() == contents[id])
      && (forall a, b :: a in windows && b in windows && a != b ==> windows[a].arr != windows[b].arr)
    }

    constructor (windowSize: int)
      ensures Valid() && contents == map[] && arrays == {} && this.windowSize == windowSize
    {
      this.windowSize, windows, contents, arrays := windowSize, map[], map[], {};
    }

    /** The pushed device's window becomes Pushed of what it was, and no other
        device's window changes even though arrays are updated in place. */
    method Push(metric: DeviceMetric) returns (agg: WindowAggregate)
      requires Valid()
      modifies this, arrays
      ensures Valid() && fresh(arrays - old(arrays))
      ensures contents == PushMetric(old(contents), windowSize, metric)
      ensures agg == Aggregate(metric.deviceID, contents[metric.deviceID])
    {
      var entries := Slide(metric);
      agg := Summarize(metric.deviceID, entries, metric.timestamp, contents[metric.deviceID]);
    }

    /** Trims the device's slice, appends the new reading and stores the result. */
    method Slide(metric: DeviceMetric) returns (entries: Slice)
      requires Valid()
      modifies this, arrays
      ensures Valid() && fresh(arrays - old(arrays))
      ensures contents == PushMetric(old(contents), windowSize, metric)
      ensures entries.InBounds() && entries.View() == contents[metric.deviceID]
    {
      ghost var w: seq<Entry>;
      var rest;
      rest, w := Retained(metric);
      entries := AppendFor(metric.deviceID, rest, EntryOf(metric), w);
    }

    /** What is left of the device's slice, and the window w it is to become. */
    method Retained(metric: DeviceMetric) returns (rest: Slice, ghost w: seq<Entry>)
      requires Valid()
      ensures rest.InBounds() && w == rest.View() + [EntryOf(metric)]
      ensures PushMetric(contents, windowSize, metric) == contents[metric.deviceID := w]
      ensures if metric.deviceID in windows then rest.arr == windows[metric.deviceID].arr else fresh(rest.arr)
    {
      var entries := Lookup(metric.deviceID);
      rest := Evict(entries, metric.timestamp - windowSize);
      w := rest.View() + [EntryOf(metric)];
    }

    /** Appends to what is left of the device's slice and stores the result. */
    method AppendFor(id: string, rest: Slice, e: Entry, ghost w: seq<Entry>) returns (entries: Slice)
      requires Valid() && rest.InBounds() && rest.View() + [e] == w && rest.arr as object != this
      requires if id in windows then windows[id].arr == rest.arr else rest.arr !in arrays
      modifies this, rest.arr
      ensures Valid() && arrays == old(arrays) + {entries.arr} && (entries.arr == rest.arr || fresh(entries.arr))
      ensures entries.InBounds() && entries.View() == w
      ensures contents == old(contents)[id := w]
    {
      assert forall other :: other in windows && other != id ==> windows[other].arr != rest.arr;
      entries := Append(rest, e);
      Install(id, entries, w);
    }

    method Install(id: string, entries: Slice, ghost w: seq<Entry>)
      requires ValidBut({id}) && entries.InBounds() && entries.View() == w
      requires entries.arr as object != this
      requires forall other :: other in windows && other != id ==> windows[other].arr != entries.arr
      modifies this
      ensures Valid() && arrays == old(arrays) + {entries.arr} && contents == old(contents)[id := w]
    {
      windows := windows[id := entries];
      contents := contents[id := w];
      arrays := arrays + {entries.arr};
    }

    /** The device's slice, or an empty one that no device owns. */
    method Lookup(id: string) returns (entries: Slice)
      requires Valid()
      ensures entries.InBounds() && entries.View() == WindowOf(contents, id)
      ensures if id in windows then entries == windows[id] else fresh(entries.arr)
    {
      if id in windows {
        entries := windows[id];
      } else {
        var empty := new Entry[0];
        entries := Slice(empty, 0, 0);
      }
    }
  }

  /** Re-slices past the expired entries at the front. */
  method Evict(entries: Slice, cutoff: int) returns (rest: Slice)
    requires entries.InBounds()
    ensures rest.InBounds() && rest.arr == entries.arr && rest.View() == Trim(entries.View(), cutoff)
  {
    ghost var w := entries.View();
    var trim := 0;
    while trim < entries.len && entries.arr[entries.off + trim].timestamp < cutoff
      invariant 0 <= trim <= entries.len
      invariant forall i :: 0 <= i < trim ==> w[i].timestamp < cutoff
    {
      assert w[trim] == entries.arr[entries.off + trim];
      trim := trim + 1;
    }
    TrimTo(w, cutoff, trim);
    rest := Slice(entries.arr, entries.off + trim, entries.len - trim);
    assert rest.View() == w[trim..];
  }

  /** One pass over a window for its sums and extremes. */
  method Summarize(id: string, entries: Slice, windowEnd: int, ghost w: seq<Entry>) returns (agg: WindowAggregate)
    requires entries.InBounds() && entries.View() == w && w != [] && Last(w).timestamp == windowEnd
    ensures agg == Aggregate(id, w)
  {
    ghost var ts, bs := Temperatures(w), Batteries(w);
    var first := entries.arr[entries.off];
    var sumTemp, sumBattery := 0.0, 0.0;
    var maxTemp, minTemp := first.temperature, first.temperature;
    var i := 0;
    while i < entries.len
      invariant 0 <= i <= entries.len
      invariant sumTemp == Sum(ts[..i]) && sumBattery == Sum(bs[..i])
      invariant i == 0 ==> maxTemp == minTemp == ts[0]
      invariant i > 0 ==> maxTemp == Max(ts[..i]) && minTemp == Min(ts[..i])
    {
      var e := entries.arr[entries.off + i];
      assert e.temperature == ts[i] && e.batteryLevel == bs[i];
      PassStep(ts, i);
      PassStep(bs, i);
      sumTemp := sumTemp + e.temperature;
      sumBattery := sumBattery + e.batteryLevel;
      if e.temperature > maxTemp {
        maxTemp := e.temperature;
      }
      if e.temperature < minTemp {
        minTemp := e.temperature;
      }
      i := i + 1;
    }
    assert ts[..i] == ts && bs[..i] == bs;
    var n := entries.len as real;
    agg := WindowAggregate(id, first.timestamp, windowEnd,
                           sumTemp / n, maxTemp, minTemp, sumBattery / n, entries.len);
  }
}
