// Runs without publish failures: what a process publishes for a device depends
// only on the readings it polled of that device, in their order. Splitting the
// devices over instances therefore changes no device's aggregates or alerts.
module ProcessorSharding {
  import opened Prelude
  import opened Models
  import opened Broker
  import opened Anomaly
  import opened Operators
  import opened ProcessorProtocol
  import opened ProcessorSafety
  import opened ProcessorOutputs

  /** No publish of an aggregate or alert fails; only undecodable records are refused. */
  predicate Smooth(cfg: Config, e: Event) {
    match e
    case Undecodable(r) => cfg.decode(r.value).None?
    case PublishAggregate(_, publish) => publish.Sent?
    case PublishAlert(_, publish) => publish.Sent?
    case _ => true
  }

  predicate SmoothEvents(cfg: Config, es: seq<Event>) {
    forall e :: e in es ==> Smooth(cfg, e)
  }

  function SentAlertsAfter(sent: seq<DeviceAlert>, e: Event): seq<DeviceAlert> {
    match e
    case PublishAlert(alert, publish) => sent + if publish.Sent? then [alert] else []
    case Restart => []
    case _ => sent
  }

  /** The alerts published since the last restart, in order. */
  function SentAlerts(es: seq<Event>): seq<DeviceAlert> {
    if es == [] then [] else SentAlertsAfter(SentAlerts(Init(es)), Last(es))
  }

  function ItemIn(decode: bytes -> Option<DeviceMetric>, r: Record): seq<Item> {
    match decode(r.value)
    case None => []
    case Some(m) => [Item(m, true)]
  }

  /** The items of the decodable records, all of them published. */
  function AllPublished(decode: bytes -> Option<DeviceMetric>, rs: seq<Record>): seq<Item> {
    if rs == [] then [] else AllPublished(decode, Init(rs)) + ItemIn(decode, Last(rs))
  }

  lemma AllPublishedSnoc(decode: bytes -> Option<DeviceMetric>, rs: seq<Record>, r: Record)
    ensures AllPublished(decode, rs + [r]) == AllPublished(decode, rs) + ItemIn(decode, r)
  {
    assert Init(rs + [r]) == rs;
  }

  // ---- what a smooth process has seen and published ----

  /** The polled records whose aggregate is published or that are refused for good. */
  function Settled(s: State): seq<Record> {
    s.handled + if s.phase.Alerting? && s.phase.inbox != [] then [s.phase.inbox[0]] else []
  }

  /** Everything settled was seen by the operators, and nothing else. */
  predicate SettledOk(cfg: Config, s: State, items: seq<Item>) {
    && items == AllPublished(cfg.decode, Settled(s))
    && (s.phase.Failing? ==> s.phase.inbox != [] && ItemIn(cfg.decode, s.phase.inbox[0]) == [])
  }

  lemma PublishAggregateSettles(cfg: Config, s: State, out: AggregateOut)
    requires Next(cfg, s, PublishAggregate(out, Sent)).Some?
    ensures var t := Next(cfg, s, PublishAggregate(out, Sent)).value;
      Settled(s) == s.handled && Settled(t) == s.handled + [out.source] && !t.phase.Failing?
  {
  }

  lemma PublishAggregateKeepsSettled(cfg: Config, s: State, items: seq<Item>, out: AggregateOut)
    requires SettledOk(cfg, s, items) && Next(cfg, s, PublishAggregate(out, Sent)).Some?
    ensures SettledOk(cfg, Next(cfg, s, PublishAggregate(out, Sent)).value, items + ItemIn(cfg.decode, out.source))
  {
    PublishAggregateSettles(cfg, s, out);
    AllPublishedSnoc(cfg.decode, s.handled, out.source);
  }

  lemma PublishAlertKeepsSettled(cfg: Config, s: State, items: seq<Item>, alert: DeviceAlert)
    requires SettledOk(cfg, s, items) && Next(cfg, s, PublishAlert(alert, Sent)).Some?
    ensures SettledOk(cfg, Next(cfg, s, PublishAlert(alert, Sent)).value, items)
  {
  }

  lemma CompleteKeepsSettled(cfg: Config, s: State, items: seq<Item>, r: Record)
    requires SettledOk(cfg, s, items) && Next(cfg, s, Complete(r)).Some?
    ensures SettledOk(cfg, Next(cfg, s, Complete(r)).value, items)
  {
    assert Settled(Next(cfg, s, Complete(r)).value) == s.handled + [r] == Settled(s);
  }

  lemma DeadLetterSettles(cfg: Config, s: State, r: Record, publish: Publish)
    requires Next(cfg, s, DeadLetter(r, publish)).Some?
    ensures var t := Next(cfg, s, DeadLetter(r, publish)).value;
      && s.phase.Failing? && Foremost(s.phase.inbox, r) && t.phase.Draining?
      && Settled(s) == s.handled && Settled(t) == s.handled + [r]
  {
  }

  lemma DeadLetterKeepsSettled(cfg: Config, s: State, items: seq<Item>, r: Record, publish: Publish)
    requires SettledOk(cfg, s, items) && Next(cfg, s, DeadLetter(r, publish)).Some?
    ensures SettledOk(cfg, Next(cfg, s, DeadLetter(r, publish)).value, items)
  {
    DeadLetterSettles(cfg, s, r, publish);
    AllPublishedSnoc(cfg.decode, s.handled, r);
    assert items + [] == items;
  }

  /** Apart from the events above nothing is handled and no publishing begins or ends. */
  lemma ControlSettlesNothing(cfg: Config, s: State, e: Event)
    requires Next(cfg, s, e).Some?
    requires e.Cancel? || e.Stop? || e.Poll? || e.Undecodable? || e.PushWindow? || e.EndOfPoll? || e.Commit?
    ensures var t := Next(cfg, s, e).value;
      && t.handled == s.handled && (t.phase == s.phase || (!s.phase.Alerting? && !t.phase.Alerting?))
      && (t.phase.Failing? ==> t.phase == s.phase || (e.Undecodable? && Foremost(t.phase.inbox, e.record)))
  {
  }

  lemma ControlKeepsSettled(cfg: Config, s: State, items: seq<Item>, e: Event)
    requires SettledOk(cfg, s, items) && Next(cfg, s, e).Some? && Smooth(cfg, e)
    requires e.Cancel? || e.Stop? || e.Poll? || e.Undecodable? || e.PushWindow? || e.EndOfPoll? || e.Commit?
    ensures SettledOk(cfg, Next(cfg, s, e).value, items)
  {
    ControlSettlesNothing(cfg, s, e);
    assert Settled(Next(cfg, s, e).value) == Settled(s);
  }

  lemma StepKeepsSettled(cfg: Config, s: State, items: seq<Item>, e: Event)
    requires SettledOk(cfg, s, items) && Next(cfg, s, e).Some? && Smooth(cfg, e)
    ensures SettledOk(cfg, Next(cfg, s, e).value, ItemsAfter(cfg.decode, items, e))
  {
    match e
    case PublishAggregate(out, _) => PublishAggregateKeepsSettled(cfg, s, items, out);
    case PublishAlert(alert, _) => PublishAlertKeepsSettled(cfg, s, items, alert);
    case Complete(r) => CompleteKeepsSettled(cfg, s, items, r);
    case DeadLetter(r, publish) => DeadLetterKeepsSettled(cfg, s, items, r, publish);
    case Restart =>
    case _ => ControlKeepsSettled(cfg, s, items, e);
  }

  lemma {:induction false} SettledHolds(cfg: Config, start: Offsets, es: seq<Event>, s: State)
    requires Run(cfg, start, es, s) && SmoothEvents(cfg, es)
    ensures SettledOk(cfg, s, Items(cfg.decode, es))
  {
    if es == [] {
    } else {
      var before, e := Init(es), Last(es);
      assert es == before + [e];
      var m := Exec(cfg, Initial(start), before).value;
      SettledHolds(cfg, start, before, m);
      StepKeepsSettled(cfg, m, Items(cfg.decode, before), e);
    }
  }

  /** The alerts published so far are those of the items, up to the one under way. */
  predicate AlertsOk(cfg: Config, s: State, items: seq<Item>, sent: seq<DeviceAlert>) {
    if s.phase.Alerting? then
      items != [] && SentUpTo(AlertsOf(Outputs(cfg.settings, Init(items))), s.phase.alerts, s.phase.k, sent)
    else sent == AlertsOf(Outputs(cfg.settings, items))
  }

  predicate SentUpTo(before: seq<DeviceAlert>, alerts: seq<DeviceAlert>, k: nat, sent: seq<DeviceAlert>) {
    k <= |alerts| && sent == before + alerts[..k]
  }

  lemma SentOneMore(before: seq<DeviceAlert>, alerts: seq<DeviceAlert>, k: nat, sent: seq<DeviceAlert>)
    requires SentUpTo(before, alerts, k, sent) && k < |alerts|
    ensures SentUpTo(before, alerts, k + 1, sent + [alerts[k]])
  {
    assert alerts[..k + 1] == alerts[..k] + [alerts[k]];
  }

  lemma PublishAlertAdvances(cfg: Config, s: State, alert: DeviceAlert)
    requires Next(cfg, s, PublishAlert(alert, Sent)).Some?
    ensures s.phase.Alerting? && s.phase.k < |s.phase.alerts| && s.phase.alerts[s.phase.k] == alert
    ensures Next(cfg, s, PublishAlert(alert, Sent)).value.phase == s.phase.(k := s.phase.k + 1)
  {
  }

  lemma PublishAggregateKeepsAlerts(
      cfg: Config, s: State, items: seq<Item>, sent: seq<DeviceAlert>, out: AggregateOut)
    requires OpsOk(cfg, s, items) && AlertsOk(cfg, s, items, sent)
    requires Next(cfg, s, PublishAggregate(out, Sent)).Some?
    ensures AlertsOk(cfg, Next(cfg, s, PublishAggregate(out, Sent)).value,
                     ItemsAfter(cfg.decode, items, PublishAggregate(out, Sent)), sent)
  {
    var item := Item(cfg.decode(out.source.value).value, true);
    assert Init(items + [item]) == items;
    assert forall alerts: seq<DeviceAlert> :: sent + alerts[..0] == sent;
  }

  lemma PublishAlertKeepsAlerts(
      cfg: Config, s: State, items: seq<Item>, sent: seq<DeviceAlert>, alert: DeviceAlert)
    requires AlertsOk(cfg, s, items, sent) && Next(cfg, s, PublishAlert(alert, Sent)).Some?
    ensures AlertsOk(cfg, Next(cfg, s, PublishAlert(alert, Sent)).value, items, sent + [alert])
  {
    PublishAlertAdvances(cfg, s, alert);
    SentOneMore(AlertsOf(Outputs(cfg.settings, Init(items))), s.phase.alerts, s.phase.k, sent);
  }

  lemma CompleteKeepsAlerts(cfg: Config, s: State, items: seq<Item>, sent: seq<DeviceAlert>, r: Record)
    requires OpsOk(cfg, s, items) && AlertsOk(cfg, s, items, sent) && Next(cfg, s, Complete(r)).Some?
    ensures AlertsOk(cfg, Next(cfg, s, Complete(r)).value, items, sent)
  {
    var o := Output(s.phase.agg, s.phase.alerts);
    AlertsOfSnoc(Outputs(cfg.settings, Init(items)), o);
    assert s.phase.alerts[..s.phase.k] == s.phase.alerts;
  }

  lemma QuietKeepsAlerts(cfg: Config, s: State, t: State, items: seq<Item>, sent: seq<DeviceAlert>)
    requires AlertsOk(cfg, s, items, sent)
    requires t.phase == s.phase || (!s.phase.Alerting? && !t.phase.Alerting?)
    ensures AlertsOk(cfg, t, items, sent)
  {
  }

  lemma DeadLetterKeepsAlerts(
      cfg: Config, s: State, items: seq<Item>, sent: seq<DeviceAlert>, r: Record, publish: Publish)
    requires AlertsOk(cfg, s, items, sent) && Next(cfg, s, DeadLetter(r, publish)).Some?
    ensures AlertsOk(cfg, Next(cfg, s, DeadLetter(r, publish)).value, items, sent)
  {
    QuietKeepsAlerts(cfg, s, Next(cfg, s, DeadLetter(r, publish)).value, items, sent);
  }

  lemma ControlKeepsAlerts(cfg: Config, s: State, items: seq<Item>, sent: seq<DeviceAlert>, e: Event)
    requires AlertsOk(cfg, s, items, sent) && Next(cfg, s, e).Some?
    requires e.Cancel? || e.Stop? || e.Poll? || e.Undecodable? || e.PushWindow? || e.EndOfPoll? || e.Commit?
    ensures AlertsOk(cfg, Next(cfg, s, e).value, items, sent)
  {
    ControlSettlesNothing(cfg, s, e);
    QuietKeepsAlerts(cfg, s, Next(cfg, s, e).value, items, sent);
  }

  lemma StepKeepsAlerts(cfg: Config, s: State, items: seq<Item>, sent: seq<DeviceAlert>, e: Event)
    requires OpsOk(cfg, s, items) && AlertsOk(cfg, s, items, sent) && Next(cfg, s, e).Some? && Smooth(cfg, e)
    ensures AlertsOk(cfg, Next(cfg, s, e).value, ItemsAfter(cfg.decode, items, e), SentAlertsAfter(sent, e))
  {
    match e
    case PublishAggregate(out, _) => PublishAggregateKeepsAlerts(cfg, s, items, sent, out);
    case PublishAlert(alert, _) => PublishAlertKeepsAlerts(cfg, s, items, sent, alert);
    case Complete(r) => CompleteKeepsAlerts(cfg, s, items, sent, r);
    case DeadLetter(r, publish) => DeadLetterKeepsAlerts(cfg, s, items, sent, r, publish);
    case Restart =>
    case _ => ControlKeepsAlerts(cfg, s, items, sent, e);
  }

  lemma {:induction false} AlertsHold(cfg: Config, start: Offsets, es: seq<Event>, s: State)
    requires Run(cfg, start, es, s) && SmoothEvents(cfg, es)
    ensures AlertsOk(cfg, s, Items(cfg.decode, es), SentAlerts(es))
  {
    if es == [] {
    } else {
      var before, e := Init(es), Last(es);
      assert es == before + [e];
      var m := Exec(cfg, Initial(start), before).value;
      AlertsHold(cfg, start, before, m);
      SeenHolds(cfg, start, before, m);
      StepKeepsAlerts(cfg, m, Items(cfg.decode, before), SentAlerts(before), e);
    }
  }

  /** With everything polled dealt with, the published aggregates and alerts are
      those of the decodable polled records. */
  lemma SmoothRunPublishes(cfg: Config, start: Offsets, es: seq<Event>, s: State)
    requires Run(cfg, start, es, s) && SmoothEvents(cfg, es) && Inbox(s) == []
    ensures var items := AllPublished(cfg.decode, Polled(es));
      && SentAggregates(es) == PublishedAggregates(cfg.settings, items)
      && SentAlerts(es) == AlertsOf(Outputs(cfg.settings, items))
  {
    SeenHolds(cfg, start, es, s);
    SettledHolds(cfg, start, es, s);
    AlertsHold(cfg, start, es, s);
    PushesFollowPolls(cfg, start, es, s);
    assert s.handled + [] == s.handled;
  }

  // ---- one device ----

  function ReadingOf(decode: bytes -> Option<DeviceMetric>, id: string): Record -> bool {
    (r: Record) => decode(r.value).Some? && decode(r.value).value.deviceID == id
  }

  lemma {:induction false} ItemsOfDevice(decode: bytes -> Option<DeviceMetric>, rs: seq<Record>, id: string)
    ensures Filter(ItemOf(id), AllPublished(decode, rs)) == AllPublished(decode, Filter(ReadingOf(decode, id), rs))
  {
    if rs == [] {
    } else {
      var before, r := Init(rs), Last(rs);
      var own := Filter(ReadingOf(decode, id), before);
      ItemsOfDevice(decode, before, id);
      FilterConcat(ItemOf(id), AllPublished(decode, before), ItemIn(decode, r));
      AllPublishedSnoc(decode, own, r);
      assert own + [] == own && AllPublished(decode, own) + [] == AllPublished(decode, own);
      FilterOne(decode, r, id);
    }
  }

  lemma FilterOne(decode: bytes -> Option<DeviceMetric>, r: Record, id: string)
    ensures Filter(ItemOf(id), ItemIn(decode, r)) == if ReadingOf(decode, id)(r) then ItemIn(decode, r) else []
  {
    if decode(r.value).Some? {
      FilterSnoc(ItemOf(id), [], Item(decode(r.value).value, true));
      assert [] + ItemIn(decode, r) == ItemIn(decode, r);
    }
  }

  /** What a device's share of the published aggregates and alerts is. */
  lemma DeviceShare(cfg: Config, start: Offsets, es: seq<Event>, s: State, id: string)
    requires Run(cfg, start, es, s) && SmoothEvents(cfg, es) && Inbox(s) == []
    ensures var own := AllPublished(cfg.decode, Filter(ReadingOf(cfg.decode, id), Polled(es)));
      && Filter(Of(id), SentAggregates(es)) == PublishedAggregates(cfg.settings, own)
      && Filter(RaisedFor(id), SentAlerts(es)) == AlertsOf(Outputs(cfg.settings, own))
  {
    var items := AllPublished(cfg.decode, Polled(es));
    SmoothRunPublishes(cfg, start, es, s);
    ItemsOfDevice(cfg.decode, Polled(es), id);
    PublishedPerDevice(cfg.settings, items, id);
    OutputsNameDevices(cfg.settings, items);
    AlertsPerDevice(Outputs(cfg.settings, items), id);
    DevicesDoNotInterfere(cfg.settings, items, id);
  }

  /** Two processes that polled the same readings of a device in the same order
      published the same aggregates and alerts for it, whatever else they polled,
      from whatever offsets and grouped into polls however. */
  lemma SameReadingsSameOutputs(
      cfg1: Config, start1: Offsets, es1: seq<Event>, s1: State,
      cfg2: Config, start2: Offsets, es2: seq<Event>, s2: State, id: string)
    requires Run(cfg1, start1, es1, s1) && SmoothEvents(cfg1, es1) && Inbox(s1) == []
    requires Run(cfg2, start2, es2, s2) && SmoothEvents(cfg2, es2) && Inbox(s2) == []
    requires cfg1.decode == cfg2.decode && cfg1.settings == cfg2.settings
    requires Filter(ReadingOf(cfg1.decode, id), Polled(es1)) == Filter(ReadingOf(cfg2.decode, id), Polled(es2))
    ensures Filter(Of(id), SentAggregates(es1)) == Filter(Of(id), SentAggregates(es2))
    ensures Filter(RaisedFor(id), SentAlerts(es1)) == Filter(RaisedFor(id), SentAlerts(es2))
  {
    DeviceShare(cfg1, start1, es1, s1, id);
    DeviceShare(cfg2, start2, es2, s2, id);
  }

  /** An instance that polls a share of the records publishes, for every device it
      has all readings of, what a process that polls them all publishes for it. */
  lemma ShardingRunsIsTransparent(
      all: Config, start1: Offsets, es1: seq<Event>, s1: State,
      one: Config, start2: Offsets, es2: seq<Event>, s2: State, share: Record -> bool, id: string)
    requires Run(all, start1, es1, s1) && SmoothEvents(all, es1) && Inbox(s1) == []
    requires Run(one, start2, es2, s2) && SmoothEvents(one, es2) && Inbox(s2) == []
    requires all.decode == one.decode && all.settings == one.settings
    requires Polled(es2) == Filter(share, Polled(es1))
    requires forall r :: ReadingOf(all.decode, id)(r) ==> share(r)
    ensures Filter(Of(id), SentAggregates(es2)) == Filter(Of(id), SentAggregates(es1))
    ensures Filter(RaisedFor(id), SentAlerts(es2)) == Filter(RaisedFor(id), SentAlerts(es1))
  {
    FilterFilter(share, ReadingOf(all.decode, id), Polled(es1));
    SameReadingsSameOutputs(all, start1, es1, s1, one, start2, es2, s2, id);
  }
}
