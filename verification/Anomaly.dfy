// Rule evaluation and edge-triggered alerting, as functions and as the detector
// that updates a nested map in place. Over whole runs an alert is a rising edge.
module Anomaly {
  import opened Prelude
  import opened Models
  import opened SlidingWindow

  datatype Thresholds = Thresholds(tempHigh: real, tempLow: real, batteryLow: real)

  const SPIKE_SPREAD := 20.0
  const SECOND := 1_000_000_000

  /** The condition of each alert type on an aggregate. */
  predicate Fires(th: Thresholds, agg: WindowAggregate, t: AlertType) {
    match t
    case TempHigh => agg.avgTemp > th.tempHigh
    case TempLow => agg.avgTemp < th.tempLow
    case BatteryLow => agg.avgBattery < th.batteryLow
    case Spike => agg.maxTemp - agg.minTemp > SPIKE_SPREAD
    case Offline => false
  }

  function FiringTypes(th: Thresholds, agg: WindowAggregate): set<AlertType> {
    set t: AlertType | Fires(th, agg, t)
  }

  datatype Candidate = Candidate(alertType: AlertType, severity: Severity, metric: real, threshold: real)

  /** The candidates of the firing rules, in rule order. */
  function Firing(th: Thresholds, agg: WindowAggregate): seq<Candidate> {
    (if agg.avgTemp > th.tempHigh then [Candidate(TempHigh, High, agg.avgTemp, th.tempHigh)] else [])
    + (if agg.avgTemp < th.tempLow then [Candidate(TempLow, Medium, agg.avgTemp, th.tempLow)] else [])
    + (if agg.avgBattery < th.batteryLow then [Candidate(BatteryLow, High, agg.avgBattery, th.batteryLow)] else [])
    + (if agg.maxTemp - agg.minTemp > SPIKE_SPREAD then
         [Candidate(Spike, Critical, agg.maxTemp - agg.minTemp, SPIKE_SPREAD)] else [])
  }

  /** Whole seconds between the window's ends, truncated toward zero, at least 1. */
  function WindowSeconds(agg: WindowAggregate): int {
    var d := agg.windowEnd - agg.windowStart;
    var s := if d >= 0 then d / SECOND else -(-d / SECOND);
    if s < 1 then 1 else s
  }

  function AlertFor(agg: WindowAggregate, c: Candidate): DeviceAlert {
    DeviceAlert(agg.deviceID, c.alertType, c.severity, c.metric, c.threshold, WindowSeconds(agg))
  }

  /** Alerts for the candidates whose type is not active. */
  function NewAlerts(agg: WindowAggregate, cs: seq<Candidate>, active: set<AlertType>): seq<DeviceAlert> {
    if cs == [] then []
    else
      NewAlerts(agg, Init(cs), active)
      + (if Last(cs).alertType in active then [] else [AlertFor(agg, Last(cs))])
  }

  type Active = map<string, set<AlertType>>

  function ActiveOf(active: Active, id: string): set<AlertType> {
    if id in active then active[id] else {}
  }

  /** What one detect call emits and leaves behind. */
  function Emits(th: Thresholds, active: Active, agg: WindowAggregate): seq<DeviceAlert> {
    NewAlerts(agg, Firing(th, agg), ActiveOf(active, agg.deviceID))
  }

  function NextActive(th: Thresholds, active: Active, agg: WindowAggregate): Active {
    active[agg.deviceID := FiringTypes(th, agg)]
  }

  lemma FiringIsFires(th: Thresholds, agg: WindowAggregate)
    ensures forall t :: Fires(th, agg, t) <==> exists c :: c in Firing(th, agg) && c.alertType == t
    ensures forall i, j :: 0 <= i < j < |Firing(th, agg)| ==>
      Firing(th, agg)[i].alertType != Firing(th, agg)[j].alertType
  {
    var cs := Firing(th, agg);
    forall t | Fires(th, agg, t)
      ensures exists c :: c in cs && c.alertType == t
    {
      match t
      case TempHigh => assert Candidate(TempHigh, High, agg.avgTemp, th.tempHigh) in cs;
      case TempLow => assert Candidate(TempLow, Medium, agg.avgTemp, th.tempLow) in cs;
      case BatteryLow => assert Candidate(BatteryLow, High, agg.avgBattery, th.batteryLow) in cs;
      case Spike => assert Candidate(Spike, Critical, agg.maxTemp - agg.minTemp, SPIKE_SPREAD) in cs;
    }
  }

  function AlertTypes(alerts: seq<DeviceAlert>): seq<AlertType> {
    seq(|alerts|, i requires 0 <= i < |alerts| => alerts[i].alertType)
  }

  function TypesOf(cs: seq<Candidate>): seq<AlertType> {
    seq(|cs|, i requires 0 <= i < |cs| => cs[i].alertType)
  }

  lemma {:induction false} NewAlertsMeaning(agg: WindowAggregate, cs: seq<Candidate>, active: set<AlertType>)
    requires Distinct(TypesOf(cs))
    ensures var ts := AlertTypes(NewAlerts(agg, cs, active));
      && Distinct(ts)
      && (forall t :: t in ts <==> t in TypesOf(cs) && t !in active)
  {
    if cs == [] {
    } else {
      var init, t := TypesOf(Init(cs)), Last(cs).alertType;
      assert TypesOf(cs) == init + [t];
      DistinctSnoc(init, t);
      NewAlertsMeaning(agg, Init(cs), active);
      var before := AlertTypes(NewAlerts(agg, Init(cs), active));
      assert AlertTypes(NewAlerts(agg, cs, active)) == before + if t in active then [] else [t];
      DistinctSnoc(before, t);
    }
  }

  lemma FiringTypesOf(th: Thresholds, agg: WindowAggregate)
    ensures Distinct(TypesOf(Firing(th, agg)))
    ensures forall t :: t in TypesOf(Firing(th, agg)) <==> Fires(th, agg, t)
  {
    var cs := Firing(th, agg);
    FiringIsFires(th, agg);
    forall t
      ensures t in TypesOf(cs) <==> Fires(th, agg, t)
    {
      if t in TypesOf(cs) {
        var i :| 0 <= i < |cs| && TypesOf(cs)[i] == t;
        assert cs[i] in cs;
      }
      if Fires(th, agg, t) {
        var c :| c in cs && c.alertType == t;
        var i :| 0 <= i < |cs| && cs[i] == c;
        assert TypesOf(cs)[i] == t;
      }
    }
  }

  /** One call emits each type that fires and is not active, once. */
  lemma EmitsMeaning(th: Thresholds, active: Active, agg: WindowAggregate)
    ensures var ts := AlertTypes(Emits(th, active, agg));
      && Distinct(ts)
      && (forall t :: t in ts <==> Fires(th, agg, t) && t !in ActiveOf(active, agg.deviceID))
  {
    FiringTypesOf(th, agg);
    NewAlertsMeaning(agg, Firing(th, agg), ActiveOf(active, agg.deviceID));
  }

  /** An alert carries the reading that crossed its threshold, on the right side,
      with the severity of its type. */
  predicate Evidence(th: Thresholds, agg: WindowAggregate, a: DeviceAlert) {
    && a.deviceID == agg.deviceID
    && match a.alertType
       case TempHigh => a.severity == High && agg.avgTemp == a.metricValue > a.thresholdValue == th.tempHigh
       case TempLow => a.severity == Medium && agg.avgTemp == a.metricValue < a.thresholdValue == th.tempLow
       case BatteryLow => a.severity == High && agg.avgBattery == a.metricValue < a.thresholdValue == th.batteryLow
       case Spike => a.severity == Critical && agg.maxTemp - agg.minTemp == a.metricValue > a.thresholdValue == 20.0
       case Offline => false
  }

  lemma {:induction false} NewAlertsComeFromCandidates(agg: WindowAggregate, cs: seq<Candidate>, active: set<AlertType>)
    ensures forall a :: a in NewAlerts(agg, cs, active) ==> exists c :: c in cs && a == AlertFor(agg, c)
  {
    if cs == [] {
    } else {
      NewAlertsComeFromCandidates(agg, Init(cs), active);
      assert cs == Init(cs) + [Last(cs)];
      assert Last(cs) in cs;
    }
  }

  lemma AlertsCarryEvidence(th: Thresholds, active: Active, agg: WindowAggregate)
    ensures forall a :: a in Emits(th, active, agg) ==> Evidence(th, agg, a)
  {
    var cs := Firing(th, agg);
    NewAlertsComeFromCandidates(agg, cs, ActiveOf(active, agg.deviceID));
    forall a | a in Emits(th, active, agg)
      ensures Evidence(th, agg, a)
    {
      var c :| c in cs && a == AlertFor(agg, c);
    }
  }

  /** The reported length is that of the window in whole seconds, and never zero. */
  lemma WindowSecondsIs(agg: WindowAggregate)
    ensures var n, d := WindowSeconds(agg), agg.windowEnd - agg.windowStart;
      if d < 2_000_000_000 then n == 1 else n * 1_000_000_000 <= d < (n + 1) * 1_000_000_000
  {
  }

  /** The alert that the rules as documented raise for the type, if any. */
  function Documented(th: Thresholds, agg: WindowAggregate, t: AlertType): Option<DeviceAlert> {
    var seconds, spread := WindowSeconds(agg), agg.maxTemp - agg.minTemp;
    match t
    case TempHigh =>
      if th.tempHigh < agg.avgTemp then
        Some(DeviceAlert(agg.deviceID, TempHigh, High, agg.avgTemp, th.tempHigh, seconds)) else None
    case TempLow =>
      if th.tempLow > agg.avgTemp then
        Some(DeviceAlert(agg.deviceID, TempLow, Medium, agg.avgTemp, th.tempLow, seconds)) else None
    case BatteryLow =>
      if th.batteryLow > agg.avgBattery then
        Some(DeviceAlert(agg.deviceID, BatteryLow, High, agg.avgBattery, th.batteryLow, seconds)) else None
    case Spike =>
      if 20.0 < spread then Some(DeviceAlert(agg.deviceID, Spike, Critical, spread, 20.0, seconds)) else None
    case Offline => None
  }

  /** One call emits exactly the documented alerts whose type is not active. */
  lemma EmitsDocumented(th: Thresholds, active: Active, agg: WindowAggregate, a: DeviceAlert)
    ensures a in Emits(th, active, agg) <==>
      Documented(th, agg, a.alertType) == Some(a) && a.alertType !in ActiveOf(active, agg.deviceID)
  {
    NewAlertsMembers(agg, Firing(th, agg), ActiveOf(active, agg.deviceID), a);
    CandidatesAreDocumented(th, agg, a);
  }

  /** A call leaves active exactly the types for which there is a documented alert,
      and leaves other devices alone. */
  lemma DocumentedBecomeActive(th: Thresholds, active: Active, agg: WindowAggregate)
    ensures forall t :: t in ActiveOf(NextActive(th, active, agg), agg.deviceID) <==> Documented(th, agg, t).Some?
    ensures forall id :: id != agg.deviceID ==> ActiveOf(NextActive(th, active, agg), id) == ActiveOf(active, id)
  {
  }

  /** Alerts are emitted in the order of the rules. */
  lemma EmitsInRuleOrder(th: Thresholds, active: Active, agg: WindowAggregate)
    ensures Subsequence(AlertTypes(Emits(th, active, agg)), [TempHigh, TempLow, BatteryLow, Spike])
  {
    var cs := Firing(th, agg);
    var high := if agg.avgTemp > th.tempHigh then [TempHigh] else [];
    var low := if agg.avgTemp < th.tempLow then [TempLow] else [];
    var battery := if agg.avgBattery < th.batteryLow then [BatteryLow] else [];
    var spike := if agg.maxTemp - agg.minTemp > SPIKE_SPREAD then [Spike] else [];
    assert TypesOf(cs) == high + low + battery + spike;
    InRuleOrder(high, low, battery, spike);
    NewAlertsInOrder(agg, cs, ActiveOf(active, agg.deviceID));
    SubsequenceTransitive(AlertTypes(Emits(th, active, agg)), TypesOf(cs), [TempHigh, TempLow, BatteryLow, Spike]);
  }

  lemma InRuleOrder(a: seq<AlertType>, b: seq<AlertType>, c: seq<AlertType>, d: seq<AlertType>)
    requires (a == [] || a == [TempHigh]) && (b == [] || b == [TempLow])
    requires (c == [] || c == [BatteryLow]) && (d == [] || d == [Spike])
    ensures Subsequence(a + b + c + d, [TempHigh, TempLow, BatteryLow, Spike])
  {
    MaybeOneMore([], [], a, TempHigh);
    assert [] + a == a && [] + [TempHigh] == [TempHigh];
    MaybeOneMore(a, [TempHigh], b, TempLow);
    assert [TempHigh] + [TempLow] == [TempHigh, TempLow];
    MaybeOneMore(a + b, [TempHigh, TempLow], c, BatteryLow);
    assert [TempHigh, TempLow] + [BatteryLow] == [TempHigh, TempLow, BatteryLow];
    MaybeOneMore(a + b + c, [TempHigh, TempLow, BatteryLow], d, Spike);
    assert [TempHigh, TempLow, BatteryLow] + [Spike] == [TempHigh, TempLow, BatteryLow, Spike];
  }

  lemma MaybeOneMore<T>(s: seq<T>, all: seq<T>, more: seq<T>, x: T)
    requires Subsequence(s, all) && (more == [] || more == [x])
    ensures Subsequence(s + more, all + [x])
  {
    if more == [] {
      assert s + more == s;
      SubsequenceSkip(s, all, x);
    } else {
      SubsequenceTake(s, all, x);
    }
  }

  lemma {:induction false} NewAlertsInOrder(agg: WindowAggregate, cs: seq<Candidate>, active: set<AlertType>)
    ensures Subsequence(AlertTypes(NewAlerts(agg, cs, active)), TypesOf(cs))
  {
    if cs == [] {
    } else {
      var t, before := Last(cs).alertType, AlertTypes(NewAlerts(agg, Init(cs), active));
      NewAlertsInOrder(agg, Init(cs), active);
      assert TypesOf(cs) == TypesOf(Init(cs)) + [t];
      var more := if t in active then [] else [t];
      assert AlertTypes(NewAlerts(agg, cs, active)) == before + more;
      MaybeOneMore(before, TypesOf(Init(cs)), more, t);
    }
  }

  lemma {:induction false} NewAlertsMembers(
      agg: WindowAggregate, cs: seq<Candidate>, active: set<AlertType>, a: DeviceAlert)
    ensures a in NewAlerts(agg, cs, active) <==> exists c :: c in cs && c.alertType !in active && a == AlertFor(agg, c)
  {
    if cs == [] {
    } else {
      NewAlertsMembers(agg, Init(cs), active, a);
      assert cs == Init(cs) + [Last(cs)];
      assert Last(cs) in cs && forall c :: c in Init(cs) ==> c in cs;
    }
  }

  lemma CandidatesAreDocumented(th: Thresholds, agg: WindowAggregate, a: DeviceAlert)
    ensures (exists c :: c in Firing(th, agg) && a == AlertFor(agg, c)) <==> Documented(th, agg, a.alertType) == Some(a)
  {
    var cs := Firing(th, agg);
    if Documented(th, agg, a.alertType) == Some(a) {
      var c := Candidate(a.alertType, a.severity, a.metricValue, a.thresholdValue);
      assert c in cs && a == AlertFor(agg, c);
    }
  }

  /** The reported length of a window of the given size: whole seconds, rounded
      down, never less than one and never more than the size allows. */
  lemma WindowSecondsBounds(h: seq<Entry>, size: nat, id: string)
    requires h != []
    ensures Window(h, size) != []
    ensures var agg := Aggregate(id, Window(h, size));
      var n := WindowSeconds(agg);
      && agg.windowEnd == Last(h).timestamp && agg.windowEnd - agg.windowStart <= size
      && 1 <= n && agg.windowEnd - agg.windowStart < (n + 1) * SECOND
      && (n > 1 ==> n * SECOND <= agg.windowEnd - agg.windowStart <= size)
  {
    WindowIsSuffix(h, size);
    WindowBounds(h, size);
  }

  // ---- whole runs ----

  function ActiveAfter(th: Thresholds, calls: seq<WindowAggregate>): Active {
    if calls == [] then map[] else NextActive(th, ActiveAfter(th, Init(calls)), Last(calls))
  }

  /** The alerts emitted by a call that follows the given ones. */
  function Emitted(th: Thresholds, before: seq<WindowAggregate>, agg: WindowAggregate): seq<DeviceAlert> {
    Emits(th, ActiveAfter(th, before), agg)
  }

  function Of(id: string): WindowAggregate -> bool {
    (agg: WindowAggregate) => agg.deviceID == id
  }

  /** A device's active set is exactly what fired at its own last call. */
  lemma {:induction false} ActiveIsLastFiring(th: Thresholds, calls: seq<WindowAggregate>, id: string)
    ensures var own := Filter(Of(id), calls);
      ActiveOf(ActiveAfter(th, calls), id) == if own == [] then {} else FiringTypes(th, Last(own))
  {
    if calls == [] {
    } else {
      ActiveIsLastFiring(th, Init(calls), id);
    }
  }

  /** Each call emits exactly the conditions that hold now and did not hold at
      the same device's previous call, whatever other devices did in between. */
  lemma AlertsAreRisingEdges(th: Thresholds, before: seq<WindowAggregate>, agg: WindowAggregate)
    ensures var own := Filter(Of(agg.deviceID), before);
      forall t :: t in AlertTypes(Emitted(th, before, agg)) <==>
        Fires(th, agg, t) && (own == [] || !Fires(th, Last(own), t))
    ensures Distinct(AlertTypes(Emitted(th, before, agg)))
    ensures forall a :: a in Emitted(th, before, agg) ==> a.deviceID == agg.deviceID
  {
    EmitsMeaning(th, ActiveAfter(th, before), agg);
    ActiveIsLastFiring(th, before, agg.deviceID);
    AlertsNameTheDevice(agg, Firing(th, agg), ActiveOf(ActiveAfter(th, before), agg.deviceID));
  }

  lemma {:induction false} AlertsNameTheDevice(agg: WindowAggregate, cs: seq<Candidate>, active: set<AlertType>)
    ensures forall a :: a in NewAlerts(agg, cs, active) ==> a.deviceID == agg.deviceID
  {
    if cs == [] {
    } else {
      AlertsNameTheDevice(agg, Init(cs), active);
    }
  }

  /** Whether the condition held at each call of the device. */
  function History(th: Thresholds, calls: seq<WindowAggregate>, id: string, t: AlertType): seq<bool> {
    var own := Filter(Of(id), calls);
    seq(|own|, i requires 0 <= i < |own| => Fires(th, own[i], t))
  }

  function LeadingTrues(bs: seq<bool>): (n: nat)
    ensures n <= |bs| && (bs != [] && bs[0] ==> n > 0)
  {
    if bs != [] && bs[0] then 1 + LeadingTrues(bs[1..]) else 0
  }

  /** The number of maximal blocks of consecutive trues. */
  function Blocks(bs: seq<bool>): nat {
    if bs == [] then 0
    else if bs[0] then 1 + Blocks(bs[LeadingTrues(bs)..])
    else Blocks(bs[1..])
  }

  lemma {:induction false} LeadingTruesSnoc(bs: seq<bool>, b: bool)
    ensures LeadingTrues(bs + [b]) ==
      if LeadingTrues(bs) == |bs| && b then |bs| + 1 else LeadingTrues(bs)
    ensures forall i :: 0 <= i < LeadingTrues(bs) ==> bs[i]
    ensures LeadingTrues(bs) < |bs| ==> !bs[LeadingTrues(bs)]
  {
    if bs == [] {
    } else {
      LeadingTruesSnoc(bs[1..], b);
      assert (bs + [b])[1..] == bs[1..] + [b];
    }
  }

  /** Appending starts a new block exactly on a rising edge. */
  lemma {:induction false} BlocksSnoc(bs: seq<bool>, b: bool)
    ensures Blocks(bs + [b]) == Blocks(bs) + if b && (bs == [] || !Last(bs)) then 1 else 0
    decreases |bs|
  {
    if bs == [] {
      assert [] + [b] == [b] && [b][1..] == [];
      assert b ==> [b][LeadingTrues([b])..] == [];
    } else if bs[0] {
      var n := LeadingTrues(bs);
      LeadingTruesSnoc(bs, b);
      if n < |bs| {
        BlocksSnoc(bs[n..], b);
        assert (bs + [b])[n..] == bs[n..] + [b];
      } else if b {
        assert (bs + [b])[n + 1..] == [] == bs[n..];
        assert Last(bs);
      } else {
        assert (bs + [b])[n..] == [b] && bs[n..] == [] && [b][1..] == [];
      }
    } else {
      BlocksSnoc(bs[1..], b);
      assert (bs + [b])[1..] == bs[1..] + [b];
    }
  }

  function Count(alerts: seq<DeviceAlert>, id: string, t: AlertType): nat {
    if alerts == [] then 0
    else Count(Init(alerts), id, t) + if Last(alerts).deviceID == id && Last(alerts).alertType == t then 1 else 0
  }

  /** Alerts of a type for a device over a whole run of calls. */
  function AlertCount(th: Thresholds, calls: seq<WindowAggregate>, id: string, t: AlertType): nat {
    if calls == [] then 0
    else AlertCount(th, Init(calls), id, t) + Count(Emitted(th, Init(calls), Last(calls)), id, t)
  }

  lemma {:induction false} CountDistinct(alerts: seq<DeviceAlert>, id: string, own: string, t: AlertType)
    requires Distinct(AlertTypes(alerts)) && forall a :: a in alerts ==> a.deviceID == own
    ensures Count(alerts, id, t) == if id == own && t in AlertTypes(alerts) then 1 else 0
  {
    if alerts == [] {
    } else {
      var ts := AlertTypes(Init(alerts));
      assert AlertTypes(alerts) == ts + [Last(alerts).alertType];
      assert Last(alerts) in alerts && forall a :: a in Init(alerts) ==> a in alerts;
      DistinctSnoc(ts, Last(alerts).alertType);
      CountDistinct(Init(alerts), id, own, t);
    }
  }

  lemma CallCount(th: Thresholds, before: seq<WindowAggregate>, agg: WindowAggregate, t: AlertType)
    ensures var bs := History(th, before, agg.deviceID, t);
      Count(Emitted(th, before, agg), agg.deviceID, t) ==
        if Fires(th, agg, t) && (bs == [] || !Last(bs)) then 1 else 0
  {
    AlertsAreRisingEdges(th, before, agg);
    CountDistinct(Emitted(th, before, agg), agg.deviceID, agg.deviceID, t);
  }

  lemma OthersCount(th: Thresholds, before: seq<WindowAggregate>, agg: WindowAggregate, id: string, t: AlertType)
    requires agg.deviceID != id
    ensures Count(Emitted(th, before, agg), id, t) == 0
    ensures History(th, before + [agg], id, t) == History(th, before, id, t)
  {
    AlertsAreRisingEdges(th, before, agg);
    CountDistinct(Emitted(th, before, agg), id, agg.deviceID, t);
    FilterSnoc(Of(id), before, agg);
    assert Filter(Of(id), before + [agg]) == Filter(Of(id), before);
  }

  lemma HistorySnoc(th: Thresholds, before: seq<WindowAggregate>, agg: WindowAggregate, t: AlertType)
    ensures History(th, before + [agg], agg.deviceID, t) == History(th, before, agg.deviceID, t) + [Fires(th, agg, t)]
  {
    FilterSnoc(Of(agg.deviceID), before, agg);
  }

  /** Over any run of calls for any devices, a device gets exactly one alert of
      a type for each maximal block of its consecutive calls on which it fires. */
  lemma {:induction false} OneAlertPerBlock(th: Thresholds, calls: seq<WindowAggregate>, id: string, t: AlertType)
    ensures AlertCount(th, calls, id, t) == Blocks(History(th, calls, id, t))
  {
    if calls == [] {
    } else {
      var before, agg := Init(calls), Last(calls);
      assert calls == before + [agg];
      OneAlertPerBlock(th, before, id, t);
      if agg.deviceID == id {
        CallCount(th, before, agg, t);
        HistorySnoc(th, before, agg, t);
        BlocksSnoc(History(th, before, id, t), Fires(th, agg, t));
      } else {
        OthersCount(th, before, agg, id, t);
      }
    }
  }

  // ---- the detector ----

  class AnomalyDetector {
    const th: Thresholds
    var activeAlerts: Active

    constructor (th: Thresholds)
      ensures this.th == th && activeAlerts == map[]
    {
      this.th, activeAlerts := th, map[];
    }

    /** Types become active before their alerts are published, and types that
        stopped firing are cleared in whatever order the set is iterated. */
    method Detect(agg: WindowAggregate) returns (alerts: seq<DeviceAlert>)
      modifies this
      ensures activeAlerts == NextActive(th, old(activeAlerts), agg)
      ensures alerts == Emits(th, old(activeAlerts), agg)
    {
      var firing := Evaluate(agg);
      FiringTypesOf(th, agg);
      var currentlyFiring := Collect(firing);
      if agg.deviceID !in activeAlerts {
        activeAlerts := activeAlerts[agg.deviceID := {}];
      }
      var active := activeAlerts[agg.deviceID];
      alerts, active := EmitNew(agg, firing, active);
      active := ClearStale(active, currentlyFiring);
      assert active == FiringTypes(th, agg);
      activeAlerts := activeAlerts[agg.deviceID := active];
    }

    method Evaluate(agg: WindowAggregate) returns (firing: seq<Candidate>)
      ensures firing == Firing(th, agg)
    {
      firing := [];
      if agg.avgTemp > th.tempHigh {
        firing := firing + [Candidate(TempHigh, High, agg.avgTemp, th.tempHigh)];
      }
      if agg.avgTemp < th.tempLow {
        firing := firing + [Candidate(TempLow, Medium, agg.avgTemp, th.tempLow)];
      }
      if agg.avgBattery < th.batteryLow {
        firing := firing + [Candidate(BatteryLow, High, agg.avgBattery, th.batteryLow)];
      }
      var spread := agg.maxTemp - agg.minTemp;
      if spread > 20.0 {
        firing := firing + [Candidate(Spike, Critical, spread, 20.0)];
      }
    }

    method Collect(firing: seq<Candidate>) returns (types: set<AlertType>)
      ensures forall t :: t in types <==> t in TypesOf(firing)
    {
      types := {};
      var i := 0;
      while i < |firing|
        invariant 0 <= i <= |firing|
        invariant forall t :: t in types <==> t in TypesOf(firing)[..i]
      {
        assert TypesOf(firing)[i] == firing[i].alertType;
        types := types + {firing[i].alertType};
        i := i + 1;
      }
      assert TypesOf(firing)[..i] == TypesOf(firing);
    }

    method EmitNew(agg: WindowAggregate, firing: seq<Candidate>, active: set<AlertType>)
        returns (alerts: seq<DeviceAlert>, grown: set<AlertType>)
      requires Distinct(TypesOf(firing))
      ensures alerts == NewAlerts(agg, firing, active)
      ensures forall t :: t in grown <==> t in active || t in TypesOf(firing)
    {
      var windowSecs := WindowSeconds(agg);
      alerts, grown := [], active;
      var i := 0;
      while i < |firing|
        invariant 0 <= i <= |firing|
        invariant alerts == NewAlerts(agg, firing[..i], active)
        invariant forall t :: t in grown <==> t in active || t in TypesOf(firing)[..i]
      {
        var c := firing[i];
        assert Init(firing[..i + 1]) == firing[..i];
        assert c.alertType == TypesOf(firing)[i] && c.alertType !in TypesOf(firing)[..i];
        if c.alertType !in grown {
          alerts := alerts + [DeviceAlert(agg.deviceID, c.alertType, c.severity, c.metric, c.threshold, windowSecs)];
          grown := grown + {c.alertType};
        }
        i := i + 1;
      }
      assert firing[..i] == firing && TypesOf(firing)[..i] == TypesOf(firing);
    }

    method ClearStale(active: set<AlertType>, firing: set<AlertType>) returns (kept: set<AlertType>)
      ensures kept == active * firing
    {
      kept := active;
      var todo := active;
      while todo != {}
        invariant todo <= active
        invariant forall t :: t in kept <==> t in active && (t in todo || t in firing)
        decreases |todo|
      {
        var t :| t in todo;
        if t !in firing {
          kept := kept - {t};
        }
        todo := todo - {t};
      }
    }
  }
}
