// The processor's two stateful operators composed: each reading is pushed into
// its device's window, and when the aggregate has been published the detector
// runs on it. Theorems that span the window and the detector, for streams that
// interleave any devices, and independence of devices and instances.
module Operators {
  import opened Prelude
  import opened Models
  import opened SlidingWindow
  import opened Anomaly

  datatype Settings = Settings(windowSize: int, th: Thresholds)

  datatype Ops = Ops(windows: Windows, active: Active)

  const FRESH := Ops(map[], map[])

  /** A reading and whether its aggregate was published. */
  datatype Item = Item(metric: DeviceMetric, published: bool)

  datatype Output = Output(agg: WindowAggregate, alerts: seq<DeviceAlert>)

  function AfterPush(cfg: Settings, ops: Ops, m: DeviceMetric): Ops {
    ops.(windows := PushMetric(ops.windows, cfg.windowSize, m))
  }

  function AggregateOf(cfg: Settings, ops: Ops, m: DeviceMetric): WindowAggregate {
    Aggregate(m.deviceID, AfterPush(cfg, ops, m).windows[m.deviceID])
  }

  function AfterItem(cfg: Settings, ops: Ops, item: Item): Ops {
    var pushed := AfterPush(cfg, ops, item.metric);
    if item.published then pushed.(active := NextActive(cfg.th, ops.active, AggregateOf(cfg, ops, item.metric)))
    else pushed
  }

  function OutputOf(cfg: Settings, ops: Ops, item: Item): Output {
    var agg := AggregateOf(cfg, ops, item.metric);
    Output(agg, if item.published then Emits(cfg.th, ops.active, agg) else [])
  }

  function OpsAfter(cfg: Settings, items: seq<Item>): Ops {
    if items == [] then FRESH else AfterItem(cfg, OpsAfter(cfg, Init(items)), Last(items))
  }

  function Outputs(cfg: Settings, items: seq<Item>): seq<Output> {
    if items == [] then []
    else Outputs(cfg, Init(items)) + [OutputOf(cfg, OpsAfter(cfg, Init(items)), Last(items))]
  }

  function ItemOf(id: string): Item -> bool {
    (item: Item) => item.metric.deviceID == id
  }

  function OutputFor(id: string): Output -> bool {
    (o: Output) => o.agg.deviceID == id
  }

  // ---- devices do not interfere ----

  /** What the operators hold for a device depends on its own items only. */
  lemma {:induction false} StateIsPerDevice(cfg: Settings, items: seq<Item>, id: string)
    ensures var all, own := OpsAfter(cfg, items), OpsAfter(cfg, Filter(ItemOf(id), items));
      WindowOf(all.windows, id) == WindowOf(own.windows, id) && ActiveOf(all.active, id) == ActiveOf(own.active, id)
  {
    if items == [] {
    } else {
      StateIsPerDevice(cfg, Init(items), id);
      if Last(items).metric.deviceID == id {
        assert Init(Filter(ItemOf(id), items)) == Filter(ItemOf(id), Init(items));
      } else {
        assert Filter(ItemOf(id), items) == Filter(ItemOf(id), Init(items));
      }
    }
  }

  /** A device's aggregates and alerts are those of a processor that is fed only
      that device's readings, however devices interleave and whichever aggregate
      publishes fail. */
  lemma {:induction false} DevicesDoNotInterfere(cfg: Settings, items: seq<Item>, id: string)
    ensures Filter(OutputFor(id), Outputs(cfg, items)) == Outputs(cfg, Filter(ItemOf(id), items))
  {
    if items == [] {
    } else {
      var before, item := Init(items), Last(items);
      var o := OutputOf(cfg, OpsAfter(cfg, before), item);
      DevicesDoNotInterfere(cfg, before, id);
      FilterSnoc(OutputFor(id), Outputs(cfg, before), o);
      if item.metric.deviceID == id {
        StateIsPerDevice(cfg, before, id);
        assert Init(Filter(ItemOf(id), items)) == Filter(ItemOf(id), before);
      } else {
        assert Filter(ItemOf(id), items) == Filter(ItemOf(id), before);
      }
    }
  }

  function Assigned(assign: string -> int, instance: int): Item -> bool {
    (item: Item) => assign(item.metric.deviceID) == instance
  }

  /** Sharding devices over any number of instances changes no device's outputs. */
  lemma ShardingIsTransparent(cfg: Settings, items: seq<Item>, assign: string -> int, id: string)
    ensures Filter(OutputFor(id), Outputs(cfg, Filter(Assigned(assign, assign(id)), items)))
      == Filter(OutputFor(id), Outputs(cfg, items))
  {
    DevicesDoNotInterfere(cfg, items, id);
    DevicesDoNotInterfere(cfg, Filter(Assigned(assign, assign(id)), items), id);
    FilterFilter(Assigned(assign, assign(id)), ItemOf(id), items);
  }

  // ---- the window inside the pipeline ----

  function Readings(items: seq<Item>, id: string): seq<Entry> {
    var own := Filter(ItemOf(id), items);
    seq(|own|, i requires 0 <= i < |own| => EntryOf(own[i].metric))
  }

  lemma ReadingsSnoc(items: seq<Item>, item: Item, id: string)
    ensures Readings(items + [item], id) ==
      Readings(items, id) + if item.metric.deviceID == id then [EntryOf(item.metric)] else []
  {
    FilterSnoc(ItemOf(id), items, item);
  }

  /** The stored window is the window of the device's own readings, published or not. */
  lemma {:induction false} WindowOfReadings(cfg: Settings, items: seq<Item>, id: string)
    ensures WindowOf(OpsAfter(cfg, items).windows, id) == Window(Readings(items, id), cfg.windowSize)
  {
    if items == [] {
    } else {
      WindowOfReadings(cfg, Init(items), id);
      ReadingsSnoc(Init(items), Last(items), id);
      assert Init(items) + [Last(items)] == items;
      var h, e := Readings(Init(items), id), EntryOf(Last(items).metric);
      assert Init(h + [e]) == h && Last(h + [e]) == e && h + [] == h;
    }
  }

  // ---- the aggregate in terms of the readings ----

  /** The device's readings, in order. */
  function MetricsOf(items: seq<Item>, id: string): seq<DeviceMetric> {
    var own := Filter(ItemOf(id), items);
    seq(|own|, i requires 0 <= i < |own| => own[i].metric)
  }

  function TotalTemperature(ms: seq<DeviceMetric>): real {
    if ms == [] then 0.0 else TotalTemperature(Init(ms)) + Last(ms).temperature
  }

  function TotalBattery(ms: seq<DeviceMetric>): real {
    if ms == [] then 0.0 else TotalBattery(Init(ms)) + Last(ms).batteryLevel
  }

  /** w holds the readings. */
  predicate Shows(w: seq<Entry>, ms: seq<DeviceMetric>) {
    |w| == |ms| && forall i :: 0 <= i < |w| ==> w[i] == EntryOf(ms[i])
  }

  /** a is the average of n values that add up to the total. */
  predicate Average(a: real, n: nat, total: real) {
    a * n as real == total
  }

  ghost predicate Extremes(agg: WindowAggregate, ms: seq<DeviceMetric>) {
    && (exists m :: m in ms && m.temperature == agg.maxTemp)
    && (exists m :: m in ms && m.temperature == agg.minTemp)
    && (forall m :: m in ms ==> agg.minTemp <= m.temperature <= agg.maxTemp)
  }

  /** agg says of the readings ms what it should: their number and ends, their
      averages, and their extremes. */
  ghost predicate Summarizes(agg: WindowAggregate, ms: seq<DeviceMetric>) {
    && ms != [] && agg.sampleCount == |ms|
    && agg.windowStart == ms[0].timestamp && agg.windowEnd == Last(ms).timestamp
    && Average(agg.avgTemp, |ms|, TotalTemperature(ms)) && Average(agg.avgBattery, |ms|, TotalBattery(ms))
    && Extremes(agg, ms)
  }

  lemma TotalsSnoc(ms: seq<DeviceMetric>, m: DeviceMetric)
    ensures TotalTemperature(ms + [m]) == TotalTemperature(ms) + m.temperature
    ensures TotalBattery(ms + [m]) == TotalBattery(ms) + m.batteryLevel
  {
    assert Init(ms + [m]) == ms;
  }

  lemma {:induction false} AveragesHold(id: string, w: seq<Entry>, ms: seq<DeviceMetric>)
    requires w != [] && Shows(w, ms)
    ensures Average(Aggregate(id, w).avgTemp, |ms|, TotalTemperature(ms))
    ensures Average(Aggregate(id, w).avgBattery, |ms|, TotalBattery(ms))
  {
    var v, rest := Init(w), Init(ms);
    assert v + [Last(w)] == w && rest + [Last(ms)] == ms;
    TotalsSnoc(rest, Last(ms));
    if |w| == 1 {
      assert w == [w[0]] && rest == [];
      AggregateOfOne(id, w[0]);
    } else {
      AveragesHold(id, v, rest);
      AverageGrows(id, v, Last(w), TotalTemperature(rest), TotalBattery(rest));
    }
  }

  lemma AverageGrows(id: string, v: seq<Entry>, e: Entry, temperature: real, battery: real)
    requires v != []
    requires Average(Aggregate(id, v).avgTemp, |v|, temperature)
    requires Average(Aggregate(id, v).avgBattery, |v|, battery)
    ensures Average(Aggregate(id, v + [e]).avgTemp, |v| + 1, temperature + e.temperature)
    ensures Average(Aggregate(id, v + [e]).avgBattery, |v| + 1, battery + e.batteryLevel)
  {
    AggregateGrows(id, v, e);
  }

  lemma ExtremesHold(id: string, w: seq<Entry>, ms: seq<DeviceMetric>)
    requires w != [] && Shows(w, ms)
    ensures Extremes(Aggregate(id, w), ms)
  {
    var agg := Aggregate(id, w);
    AggregateMeaning(id, w);
    var hi :| hi in w && hi.temperature == agg.maxTemp;
    var lo :| lo in w && lo.temperature == agg.minTemp;
    var i :| 0 <= i < |w| && w[i] == hi;
    var j :| 0 <= j < |w| && w[j] == lo;
    assert ms[i] in ms && ms[j] in ms;
    forall m | m in ms
      ensures agg.minTemp <= m.temperature <= agg.maxTemp
    {
      var n :| 0 <= n < |ms| && ms[n] == m;
      assert w[n] in w;
    }
  }

  /** The ends and the size of a window's aggregate, by adding its readings one by one. */
  lemma {:induction false} EndsHold(id: string, w: seq<Entry>)
    requires w != []
    ensures var agg := Aggregate(id, w);
      && agg.deviceID == id && agg.sampleCount == |w|
      && agg.windowStart == w[0].timestamp && agg.windowEnd == Last(w).timestamp
  {
    if |w| == 1 {
      assert w == [w[0]];
      AggregateOfOne(id, w[0]);
    } else {
      EndsHold(id, Init(w));
      assert Init(w) + [Last(w)] == w;
      AggregateGrows(id, Init(w), Last(w));
    }
  }

  lemma AggregateSummarizes(id: string, w: seq<Entry>, ms: seq<DeviceMetric>)
    requires w != [] && Shows(w, ms)
    ensures Aggregate(id, w).deviceID == id && Summarizes(Aggregate(id, w), ms)
  {
    EndsHold(id, w);
    AveragesHold(id, w, ms);
    ExtremesHold(id, w, ms);
  }

  /** The readings of which the first would not have been expired by any since. */
  predicate Unexpired(ms: seq<DeviceMetric>, size: int) {
    forall j :: 0 < j < |ms| ==> ms[j].timestamp - size <= ms[0].timestamp
  }

  /** The window after a push, over the device's readings. */
  lemma WindowAfterPush(cfg: Settings, items: seq<Item>, m: DeviceMetric) returns (h: seq<Entry>)
    ensures h != [] && Shows(h, MetricsOf(items, m.deviceID) + [m])
    ensures AfterPush(cfg, OpsAfter(cfg, items), m).windows[m.deviceID] == Window(h, cfg.windowSize)
  {
    h := Readings(items, m.deviceID) + [EntryOf(m)];
    WindowOfReadings(cfg, items, m.deviceID);
    assert Init(h) == Readings(items, m.deviceID) && Last(h) == EntryOf(m);
  }

  lemma WindowSummarizes(id: string, h: seq<Entry>, own: seq<DeviceMetric>, size: nat)
    requires h != [] && Shows(h, own)
    ensures var k := Start(h, size);
      && 0 <= k < |own| && Window(h, size) != [] && Aggregate(id, Window(h, size)).sampleCount == |own| - k
      && Summarizes(Aggregate(id, Window(h, size)), own[k..]) && Unexpired(own[k..], size)
      && forall i :: 0 <= i < k ==> !Unexpired(own[i..], size)
  {
    WindowIsSinceNeverExpired(h, size);
    var w, k := Window(h, size), Start(h, size);
    assert Shows(w, own[k..]);
    AggregateSummarizes(id, w, own[k..]);
    forall i | 0 <= i < |own|
      ensures Unexpired(own[i..], size) <==> NeverExpired(h, size, i)
    {
      UnexpiredIff(h, own, size, i);
    }
  }

  /** The aggregate computed for a reading summarizes the device's last readings,
      this one included: all from the first on that none since would have expired. */
  lemma AggregateOfReadings(cfg: Settings, items: seq<Item>, m: DeviceMetric)
    requires cfg.windowSize >= 0
    ensures var agg := AggregateOf(cfg, OpsAfter(cfg, items), m);
      var own := MetricsOf(items, m.deviceID) + [m];
      var k := |own| - agg.sampleCount;
      && agg.deviceID == m.deviceID && 0 <= k < |own| && Summarizes(agg, own[k..])
      && Unexpired(own[k..], cfg.windowSize)
      && (forall i :: 0 <= i < k ==> !Unexpired(own[i..], cfg.windowSize))
  {
    var h := WindowAfterPush(cfg, items, m);
    WindowSummarizes(m.deviceID, h, MetricsOf(items, m.deviceID) + [m], cfg.windowSize);
  }

  lemma UnexpiredIff(h: seq<Entry>, ms: seq<DeviceMetric>, size: int, i: nat)
    requires Shows(h, ms) && i < |h|
    ensures Unexpired(ms[i..], size) <==> NeverExpired(h, size, i)
  {
    if Unexpired(ms[i..], size) {
      forall j | i < j < |h|
        ensures h[j].timestamp - size <= h[i].timestamp
      {
        assert ms[i..][j - i] == ms[j] && ms[i..][0] == ms[i];
      }
    }
    if NeverExpired(h, size, i) {
      forall j | 0 < j < |ms[i..]|
        ensures ms[i..][j].timestamp - size <= ms[i..][0].timestamp
      {
        assert h[i + j].timestamp - size <= h[i].timestamp;
      }
    }
  }

  // ---- detection after failed publishes ----

  /** The items up to the device's last one whose aggregate was published, which is
      when the detector last ran for it; empty when it never did. */
  function UpToDetection(items: seq<Item>, id: string): seq<Item> {
    if items == [] || (Last(items).metric.deviceID == id && Last(items).published) then items
    else UpToDetection(Init(items), id)
  }

  /** The device's window when the detector last ran for it. */
  function DetectedWindow(cfg: Settings, items: seq<Item>, id: string): seq<Entry> {
    WindowOf(OpsAfter(cfg, UpToDetection(items, id)).windows, id)
  }

  /** What is active for a device is what fired when the detector last ran for it,
      whatever was pushed since. */
  lemma {:induction false} ActiveSinceDetection(cfg: Settings, items: seq<Item>, id: string)
    ensures var w := DetectedWindow(cfg, items, id);
      && (UpToDetection(items, id) == [] <==> w == [])
      && ActiveOf(OpsAfter(cfg, items).active, id) == if w == [] then {} else FiringTypes(cfg.th, Aggregate(id, w))
  {
    if items == [] {
    } else if Last(items).metric.deviceID == id && Last(items).published {
    } else {
      ActiveSinceDetection(cfg, Init(items), id);
    }
  }

  /** Nothing of the device's was pushed since the detector ran for it. */
  lemma {:induction false} DetectedWindowIsCurrent(cfg: Settings, items: seq<Item>, id: string)
    requires var own := Filter(ItemOf(id), items); own == [] || Last(own).published
    ensures DetectedWindow(cfg, items, id) == WindowOf(OpsAfter(cfg, items).windows, id)
  {
    if items == [] {
    } else if Last(items).metric.deviceID == id {
    } else {
      assert Filter(ItemOf(id), items) == Filter(ItemOf(id), Init(items));
      DetectedWindowIsCurrent(cfg, Init(items), id);
    }
  }

  /** For any history of failed publishes: an alert of a type is emitted if and
      only if its condition holds now and did not hold when the detector last ran
      for the device. */
  lemma AlertsSinceDetection(cfg: Settings, before: seq<Item>, m: DeviceMetric, t: AlertType)
    ensures var ops, w := OpsAfter(cfg, before), DetectedWindow(cfg, before, m.deviceID);
      t in AlertTypes(OutputOf(cfg, ops, Item(m, true)).alerts) <==>
        && Fires(cfg.th, AggregateOf(cfg, ops, m), t)
        && (w == [] || !Fires(cfg.th, Aggregate(m.deviceID, w), t))
  {
    var ops := OpsAfter(cfg, before);
    EmitsMeaning(cfg.th, ops.active, AggregateOf(cfg, ops, m));
    ActiveSinceDetection(cfg, before, m.deviceID);
  }

  /** The aggregates that were published, in order. */
  function PublishedAggregates(cfg: Settings, items: seq<Item>): seq<WindowAggregate> {
    if items == [] then []
    else
      PublishedAggregates(cfg, Init(items))
      + (if Last(items).published then [AggregateOf(cfg, OpsAfter(cfg, Init(items)), Last(items).metric)] else [])
  }

  /** The detector's state is that of detecting on each published aggregate. */
  lemma {:induction false} ActiveIsOfPublished(cfg: Settings, items: seq<Item>)
    ensures OpsAfter(cfg, items).active == ActiveAfter(cfg.th, PublishedAggregates(cfg, items))
  {
    if items == [] {
    } else {
      ActiveIsOfPublished(cfg, Init(items));
      var before := PublishedAggregates(cfg, Init(items));
      if Last(items).published {
        var agg := AggregateOf(cfg, OpsAfter(cfg, Init(items)), Last(items).metric);
        assert Init(before + [agg]) == before;
      } else {
        assert before + [] == before;
      }
    }
  }

  /** The alerts for a published aggregate are the rising edges of its device's
      conditions over the aggregates published before it. */
  lemma AlertsAreEdgesOfPublished(cfg: Settings, items: seq<Item>, m: DeviceMetric)
    ensures var ops := OpsAfter(cfg, items);
      var agg := AggregateOf(cfg, ops, m);
      var alerts := OutputOf(cfg, ops, Item(m, true)).alerts;
      var own := Filter(Of(m.deviceID), PublishedAggregates(cfg, items));
      && Distinct(AlertTypes(alerts))
      && forall t :: t in AlertTypes(alerts) <==> Fires(cfg.th, agg, t) && (own == [] || !Fires(cfg.th, Last(own), t))
  {
    ActiveIsOfPublished(cfg, items);
    AlertsAreRisingEdges(cfg.th, PublishedAggregates(cfg, items), AggregateOf(cfg, OpsAfter(cfg, items), m));
  }

  /** A device's published aggregates are those of its own items alone. */
  lemma {:induction false} PublishedPerDevice(cfg: Settings, items: seq<Item>, id: string)
    ensures Filter(Of(id), PublishedAggregates(cfg, items)) == PublishedAggregates(cfg, Filter(ItemOf(id), items))
  {
    if items == [] {
    } else {
      var before, item := Init(items), Last(items);
      var agg := AggregateOf(cfg, OpsAfter(cfg, before), item.metric);
      PublishedPerDevice(cfg, before, id);
      FilterSnoc(Of(id), PublishedAggregates(cfg, before), agg);
      assert PublishedAggregates(cfg, before) + [] == PublishedAggregates(cfg, before);
      if item.metric.deviceID == id {
        StateIsPerDevice(cfg, before, id);
        PublishedSnoc(cfg, Filter(ItemOf(id), before), item);
      } else {
        assert Filter(ItemOf(id), items) == Filter(ItemOf(id), before);
      }
    }
  }

  lemma PublishedSnoc(cfg: Settings, items: seq<Item>, item: Item)
    ensures PublishedAggregates(cfg, items + [item]) ==
      PublishedAggregates(cfg, items)
      + if item.published then [AggregateOf(cfg, OpsAfter(cfg, items), item.metric)] else []
  {
    assert Init(items + [item]) == items;
  }

  /** The alerts of the outputs, in order. */
  function AlertsOf(outputs: seq<Output>): seq<DeviceAlert> {
    if outputs == [] then [] else AlertsOf(Init(outputs)) + Last(outputs).alerts
  }

  function RaisedFor(id: string): DeviceAlert -> bool {
    (a: DeviceAlert) => a.deviceID == id
  }

  lemma {:induction false} FilterConstant<T>(p: T -> bool, s: seq<T>, keep: bool)
    requires forall x :: x in s ==> p(x) == keep
    ensures Filter(p, s) == if keep then s else []
  {
    if s == [] {
    } else {
      assert s == Init(s) + [Last(s)];
      FilterConstant(p, Init(s), keep);
    }
  }

  predicate NamesDevice(o: Output) {
    forall a :: a in o.alerts ==> a.deviceID == o.agg.deviceID
  }

  /** The alerts for a device are those of the outputs for it. */
  lemma {:induction false} AlertsPerDevice(outputs: seq<Output>, id: string)
    requires forall o :: o in outputs ==> NamesDevice(o)
    ensures Filter(RaisedFor(id), AlertsOf(outputs)) == AlertsOf(Filter(OutputFor(id), outputs))
  {
    if outputs == [] {
    } else {
      var before, o := Init(outputs), Last(outputs);
      assert outputs == before + [o];
      AlertsPerDevice(before, id);
      assert NamesDevice(o);
      FilterConstant(RaisedFor(id), o.alerts, o.agg.deviceID == id);
      FilterConcat(RaisedFor(id), AlertsOf(before), o.alerts);
      AlertsOfSnoc(Filter(OutputFor(id), before), o);
      var kept := Filter(RaisedFor(id), AlertsOf(before));
      assert kept + [] == kept && Filter(OutputFor(id), before) + [] == Filter(OutputFor(id), before);
    }
  }

  lemma {:induction false} OutputsNameDevices(cfg: Settings, items: seq<Item>)
    ensures forall o :: o in Outputs(cfg, items) ==> NamesDevice(o)
  {
    if items == [] {
    } else {
      OutputsNameDevices(cfg, Init(items));
      var ops := OpsAfter(cfg, Init(items));
      var agg := AggregateOf(cfg, ops, Last(items).metric);
      AlertsNameTheDevice(agg, Firing(cfg.th, agg), ActiveOf(ops.active, agg.deviceID));
    }
  }

  lemma AlertsOfSnoc(outputs: seq<Output>, o: Output)
    ensures AlertsOf(outputs + [o]) == AlertsOf(outputs) + o.alerts
  {
    assert Init(outputs + [o]) == outputs;
  }

  predicate Apart(x: real, y: real) {
    x - y > SPIKE_SPREAD || y - x > SPIKE_SPREAD
  }

  /** Two readings of the window are more than 20 apart. */
  ghost predicate Spread(w: seq<Entry>) {
    exists a, b :: a in w && b in w && Apart(a.temperature, b.temperature)
  }

  /** SPIKE fires exactly when two retained readings are more than 20 apart. */
  lemma SpikeFiresIff(th: Thresholds, id: string, w: seq<Entry>)
    requires w != []
    ensures Fires(th, Aggregate(id, w), Spike) <==> Spread(w)
  {
    AggregateMeaning(id, w);
    var agg := Aggregate(id, w);
    if Fires(th, agg, Spike) {
      var a :| a in w && a.temperature == agg.maxTemp;
      var b :| b in w && b.temperature == agg.minTemp;
      assert Apart(a.temperature, b.temperature);
    }
  }

  /** A high (low) temperature or low battery alert is backed by a retained
      reading beyond the threshold, and HIGH and LOW exclude each other. */
  lemma ThresholdAlertsAreBacked(th: Thresholds, id: string, w: seq<Entry>)
    requires w != []
    ensures var agg := Aggregate(id, w);
      && (Fires(th, agg, TempHigh) ==> exists e :: e in w && e.temperature > th.tempHigh)
      && (Fires(th, agg, TempLow) ==> exists e :: e in w && e.temperature < th.tempLow)
      && (Fires(th, agg, BatteryLow) ==> exists e :: e in w && e.batteryLevel < th.batteryLow)
      && (th.tempLow <= th.tempHigh ==> !(Fires(th, agg, TempHigh) && Fires(th, agg, TempLow)))
  {
    AggregateMeaning(id, w);
    var agg := Aggregate(id, w);
    var hi :| hi in w && hi.temperature == agg.maxTemp;
    var lo :| lo in w && lo.temperature == agg.minTemp;
    var b :| b in w && b.batteryLevel <= agg.avgBattery;
  }

  /** If all retained readings are beyond a threshold, its condition holds. */
  lemma AllBeyondFires(th: Thresholds, id: string, w: seq<Entry>)
    requires w != []
    ensures var agg := Aggregate(id, w);
      && ((forall e :: e in w ==> e.temperature > th.tempHigh) ==> Fires(th, agg, TempHigh))
      && ((forall e :: e in w ==> e.temperature < th.tempLow) ==> Fires(th, agg, TempLow))
      && ((forall e :: e in w ==> e.batteryLevel < th.batteryLow) ==> Fires(th, agg, BatteryLow))
  {
    AggregateMeaning(id, w);
    var agg := Aggregate(id, w);
    var hi :| hi in w && hi.temperature == agg.maxTemp;
    var lo :| lo in w && lo.temperature == agg.minTemp;
    var b :| b in w && b.batteryLevel >= agg.avgBattery;
  }

  /** The newest reading is more than 20 away from another retained one. */
  ghost predicate ApartFromNewest(w: seq<Entry>)
    requires w != []
  {
    exists e :: e in Init(w) && Apart(e.temperature, Last(w).temperature)
  }

  /** A window is spread without its newest reading or through it. */
  lemma SpreadIff(w: seq<Entry>)
    requires w != []
    ensures Spread(w) <==> Spread(Init(w)) || ApartFromNewest(w)
  {
    var v, e := Init(w), Last(w);
    assert w == v + [e];
    if Spread(w) {
      var a, b :| a in w && b in w && Apart(a.temperature, b.temperature);
      assert (a in v && b in v) || (a in v && b == e) || (b in v && a == e);
    }
    if ApartFromNewest(w) {
      var x :| x in v && Apart(x.temperature, e.temperature);
      assert x in w && e in w;
    }
    if Spread(v) {
      var a, b :| a in v && b in v && Apart(a.temperature, b.temperature);
      assert a in w && b in w;
    }
  }

  /** For any history of failed publishes: SPIKE is emitted if and only if the
      window is spread after the push and was not when the detector last ran. */
  lemma SpikeEmittedIff(cfg: Settings, before: seq<Item>, m: DeviceMetric)
    ensures var ops := OpsAfter(cfg, before);
      Spike in AlertTypes(OutputOf(cfg, ops, Item(m, true)).alerts) <==>
        Spread(AfterPush(cfg, ops, m).windows[m.deviceID]) && !Spread(DetectedWindow(cfg, before, m.deviceID))
  {
    var w := DetectedWindow(cfg, before, m.deviceID);
    AlertsSinceDetection(cfg, before, m, Spike);
    SpikeFiresIff(cfg.th, m.deviceID, AfterPush(cfg, OpsAfter(cfg, before), m).windows[m.deviceID]);
    if w != [] {
      SpikeFiresIff(cfg.th, m.deviceID, w);
    }
  }

  /** SPIKE is emitted though the reading just pushed is within 20 of every other
      retained one if and only if two of those others are apart already, and were
      not both there when the detector last ran: a spread it never got to see. */
  lemma SpikeWithoutCauseIff(cfg: Settings, before: seq<Item>, m: DeviceMetric)
    ensures var ops := OpsAfter(cfg, before);
      var now := AfterPush(cfg, ops, m).windows[m.deviceID];
      Spike in AlertTypes(OutputOf(cfg, ops, Item(m, true)).alerts) && !ApartFromNewest(now) <==>
        Spread(Init(now)) && !ApartFromNewest(now) && !Spread(DetectedWindow(cfg, before, m.deviceID))
  {
    SpikeEmittedIff(cfg, before, m);
    SpreadIff(AfterPush(cfg, OpsAfter(cfg, before), m).windows[m.deviceID]);
  }

  /** What is retained of a window that is not spread is not spread. */
  lemma RetainedIsNotSpread(w: seq<Entry>, cutoff: int)
    requires !Spread(w)
    ensures !Spread(Trim(w, cutoff))
  {
    var k := TrimSplits(w, cutoff);
    assert forall e :: e in w[k..] ==> e in w;
  }

  /** A push spreads a window that was not spread exactly through its reading. */
  lemma SpreadAfterPush(cfg: Settings, ops: Ops, m: DeviceMetric)
    requires !Spread(WindowOf(ops.windows, m.deviceID))
    ensures var now := AfterPush(cfg, ops, m).windows[m.deviceID];
      now != [] && (Spread(now) <==> ApartFromNewest(now))
  {
    InitAfterPush(cfg, ops, m);
    RetainedIsNotSpread(WindowOf(ops.windows, m.deviceID), m.timestamp - cfg.windowSize);
    SpreadIff(AfterPush(cfg, ops, m).windows[m.deviceID]);
  }

  lemma InitAfterPush(cfg: Settings, ops: Ops, m: DeviceMetric)
    ensures var now := AfterPush(cfg, ops, m).windows[m.deviceID];
      && now != [] && Last(now) == EntryOf(m)
      && Init(now) == Trim(WindowOf(ops.windows, m.deviceID), m.timestamp - cfg.windowSize)
  {
  }

  /** Window and detector together: if the device's previous push was followed by
      detection, a SPIKE alert is emitted if and only if the window held no two
      readings more than 20 apart before, and the reading just pushed is more than
      20 away from another retained one. */
  lemma SpikeCausality(cfg: Settings, before: seq<Item>, m: DeviceMetric)
    requires var own := Filter(ItemOf(m.deviceID), before); own == [] || Last(own).published
    ensures var ops := OpsAfter(cfg, before);
      var was, now := WindowOf(ops.windows, m.deviceID), AfterPush(cfg, ops, m).windows[m.deviceID];
      Spike in AlertTypes(OutputOf(cfg, ops, Item(m, true)).alerts) <==> !Spread(was) && ApartFromNewest(now)
  {
    DetectedWindowIsCurrent(cfg, before, m.deviceID);
    SpikeEmittedIff(cfg, before, m);
    if !Spread(WindowOf(OpsAfter(cfg, before).windows, m.deviceID)) {
      SpreadAfterPush(cfg, OpsAfter(cfg, before), m);
    }
  }

  lemma TwoPushes(cfg: Settings, a: DeviceMetric, b: DeviceMetric)
    requires a.deviceID == b.deviceID && a.timestamp == b.timestamp && cfg.windowSize >= 0
    ensures var items := [Item(a, true), Item(b, false)];
      && WindowOf(OpsAfter(cfg, items).windows, a.deviceID) == [EntryOf(a), EntryOf(b)]
      && DetectedWindow(cfg, items, a.deviceID) == [EntryOf(a)]
  {
    var items := [Item(a, true), Item(b, false)];
    assert Init([Item(a, true)]) == [] && Init(items) == [Item(a, true)];
    assert UpToDetection(items, a.deviceID) == [Item(a, true)];
    assert WindowOf(OpsAfter(cfg, [Item(a, true)]).windows, a.deviceID) == [EntryOf(a)];
  }

  /** Such a spread arises when detection is skipped: readings 0 and then, with its
      aggregate unpublished, 30 make 15 raise SPIKE though it is within 20 of both. */
  lemma SkippedDetectionMovesSpike(id: string, m: DeviceMetric)
    ensures var cfg := Settings(60, Thresholds(85.0, -10.0, 10.0));
      var at := (t: real) => m.(deviceID := id, timestamp := 0, temperature := t);
      var ops := OpsAfter(cfg, [Item(at(0.0), true), Item(at(30.0), false)]);
      && Spike in AlertTypes(OutputOf(cfg, ops, Item(at(15.0), true)).alerts)
      && forall e :: e in AfterPush(cfg, ops, at(15.0)).windows[id] ==> !Apart(e.temperature, 15.0)
  {
    var cfg := Settings(60, Thresholds(85.0, -10.0, 10.0));
    var a := m.(deviceID := id, timestamp := 0, temperature := 0.0);
    var b, c := a.(temperature := 30.0), a.(temperature := 15.0);
    var items := [Item(a, true), Item(b, false)];
    TwoPushes(cfg, a, b);
    var w := AfterPush(cfg, OpsAfter(cfg, items), c).windows[id];
    assert w == [EntryOf(a), EntryOf(b), EntryOf(c)];
    assert EntryOf(a) in w && EntryOf(b) in w && Apart(0.0, 30.0) && Spread(w);
    assert !Spread([EntryOf(a)]);
    SpikeEmittedIff(cfg, items, c);
  }
}
