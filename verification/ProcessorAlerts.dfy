// An alert is handed to the publisher once per episode of its condition: what
// becomes of one whose publish fails.
module ProcessorAlerts {
  import opened Prelude
  import opened Models
  import opened Broker
  import opened SlidingWindow
  import opened Anomaly
  import opened ProcessorProtocol
  import opened ProcessorOutputs

  /** The type is active for the device and no such alert is waiting. */
  ghost predicate Marked(s: State, id: string, t: AlertType) {
    && t in ActiveOf(s.ops.active, id)
    && (s.phase.Alerting? ==> NoneWaiting(s.phase.alerts, s.phase.k, id, t))
  }

  predicate NoneWaiting(alerts: seq<DeviceAlert>, k: nat, id: string, t: AlertType) {
    forall i :: k <= i < |alerts| ==> !(alerts[i].deviceID == id && alerts[i].alertType == t)
  }

  /** The device's detector is seen to be past the condition, or forgets it. */
  predicate Releases(th: Thresholds, e: Event, id: string, t: AlertType) {
    || e.Restart?
    || (e.PublishAggregate? && e.publish.Sent? && e.out.agg.deviceID == id && !Fires(th, e.out.agg, t))
  }

  lemma DistinctNoneWaiting(alerts: seq<DeviceAlert>, k: nat)
    requires Distinct(AlertTypes(alerts)) && k < |alerts|
    ensures NoneWaiting(alerts, k + 1, alerts[k].deviceID, alerts[k].alertType)
  {
    var ts := AlertTypes(alerts);
    forall i | k < i < |alerts|
      ensures alerts[i].alertType != alerts[k].alertType
    {
      assert ts[k] != ts[i];
    }
  }

  lemma AfterPublishAlert(cfg: Config, s: State, alert: DeviceAlert, publish: Publish)
    requires Next(cfg, s, PublishAlert(alert, publish)).Some?
    ensures var t := Next(cfg, s, PublishAlert(alert, publish)).value;
      && s.phase.Alerting? && s.phase.k < |s.phase.alerts| && s.phase.alerts[s.phase.k] == alert
      && t.ops == s.ops && (t.phase.Failing? || t.phase == s.phase.(k := s.phase.k + 1))
  {
  }

  /** Handing an alert out marks it, whether its publish succeeds or not. */
  lemma PublishAlertMarks(cfg: Config, start: Offsets, es: seq<Event>, s: State, alert: DeviceAlert, publish: Publish)
    requires Run(cfg, start, es, s) && Next(cfg, s, PublishAlert(alert, publish)).Some?
    ensures Marked(Next(cfg, s, PublishAlert(alert, publish)).value, alert.deviceID, alert.alertType)
  {
    AfterPublishAlert(cfg, s, alert, publish);
    HandsOutAlert(cfg, s, alert, publish);
    AlertsAreEdges(cfg, start, es, s);
    SeenHolds(cfg, start, es, s);
    DistinctNoneWaiting(s.phase.alerts, s.phase.k);
    assert Fires(cfg.settings.th, s.phase.agg, alert.alertType);
  }

  lemma EmitsNoneActive(th: Thresholds, active: Active, agg: WindowAggregate, id: string, t: AlertType)
    requires t in ActiveOf(active, id)
    ensures NoneWaiting(Emits(th, active, agg), 0, id, t)
  {
    var alerts := Emits(th, active, agg);
    EmitsMeaning(th, active, agg);
    AlertsNameTheDevice(agg, Firing(th, agg), ActiveOf(active, agg.deviceID));
    forall i | 0 <= i < |alerts|
      ensures !(alerts[i].deviceID == id && alerts[i].alertType == t)
    {
      assert alerts[i] in alerts && AlertTypes(alerts)[i] == alerts[i].alertType;
    }
  }

  lemma PublishAggregateKeepsMarked(
      cfg: Config, s: State, out: AggregateOut, publish: Publish, id: string, t: AlertType)
    requires Marked(s, id, t) && Next(cfg, s, PublishAggregate(out, publish)).Some?
    requires !Releases(cfg.settings.th, PublishAggregate(out, publish), id, t)
    ensures Marked(Next(cfg, s, PublishAggregate(out, publish)).value, id, t)
  {
    EmitsNoneActive(cfg.settings.th, s.ops.active, out.agg, id, t);
  }

  lemma PublishAlertKeepsMarked(
      cfg: Config, s: State, alert: DeviceAlert, publish: Publish, id: string, t: AlertType)
    requires Marked(s, id, t) && Next(cfg, s, PublishAlert(alert, publish)).Some?
    ensures Marked(Next(cfg, s, PublishAlert(alert, publish)).value, id, t)
    ensures !(alert.deviceID == id && alert.alertType == t)
  {
    AfterPublishAlert(cfg, s, alert, publish);
  }

  /** The detector's memory is untouched and nothing waits that did not. */
  lemma QuietKeepsMarked(s: State, t: State, id: string, a: AlertType)
    requires Marked(s, id, a) && t.ops.active == s.ops.active
    requires t.phase == s.phase || !t.phase.Alerting?
    ensures Marked(t, id, a)
  {
  }

  lemma CompleteKeepsMarked(cfg: Config, s: State, r: Record, id: string, t: AlertType)
    requires Marked(s, id, t) && Next(cfg, s, Complete(r)).Some?
    ensures Marked(Next(cfg, s, Complete(r)).value, id, t)
  {
    QuietKeepsMarked(s, Next(cfg, s, Complete(r)).value, id, t);
  }

  lemma DeadLetterKeepsMarked(cfg: Config, s: State, r: Record, publish: Publish, id: string, t: AlertType)
    requires Marked(s, id, t) && Next(cfg, s, DeadLetter(r, publish)).Some?
    ensures Marked(Next(cfg, s, DeadLetter(r, publish)).value, id, t)
  {
    QuietKeepsMarked(s, Next(cfg, s, DeadLetter(r, publish)).value, id, t);
  }

  lemma ControlKeepsMarked(cfg: Config, s: State, e: Event, id: string, t: AlertType)
    requires Marked(s, id, t) && Next(cfg, s, e).Some?
    requires e.Cancel? || e.Stop? || e.Poll? || e.Undecodable? || e.PushWindow? || e.EndOfPoll? || e.Commit?
    ensures Marked(Next(cfg, s, e).value, id, t)
  {
    QuietKeepsMarked(s, Next(cfg, s, e).value, id, t);
  }

  lemma StepKeepsMarked(cfg: Config, s: State, e: Event, id: string, t: AlertType)
    requires Marked(s, id, t) && Next(cfg, s, e).Some? && !Releases(cfg.settings.th, e, id, t)
    ensures Marked(Next(cfg, s, e).value, id, t)
  {
    match e
    case PublishAggregate(out, publish) => PublishAggregateKeepsMarked(cfg, s, out, publish, id, t);
    case PublishAlert(alert, publish) => PublishAlertKeepsMarked(cfg, s, alert, publish, id, t);
    case Complete(r) => CompleteKeepsMarked(cfg, s, r, id, t);
    case DeadLetter(r, publish) => DeadLetterKeepsMarked(cfg, s, r, publish, id, t);
    case _ => ControlKeepsMarked(cfg, s, e, id, t);
  }

  lemma {:induction false} StaysMarked(cfg: Config, s: State, es: seq<Event>, u: State, id: string, t: AlertType)
    requires Marked(s, id, t) && Exec(cfg, s, es) == Some(u)
    requires forall e :: e in es ==> !Releases(cfg.settings.th, e, id, t)
    ensures Marked(u, id, t)
  {
    if es == [] {
    } else {
      assert es == Init(es) + [Last(es)];
      var m := Exec(cfg, s, Init(es)).value;
      StaysMarked(cfg, s, Init(es), m, id, t);
      StepKeepsMarked(cfg, m, Last(es), id, t);
    }
  }

  /** An alert is handed to the publisher once per episode of its condition,
      whether or not its publish succeeds, so one that fails is not tried again:
      between two alerts of a type for a device comes a published aggregate of the
      device on which the condition does not hold, or a restart. */
  lemma AlertIsNotRepeated(
      cfg: Config, start: Offsets, before: seq<Event>, a: DeviceAlert, p: Publish,
      between: seq<Event>, b: DeviceAlert, q: Publish, s: State)
    requires Run(cfg, start, before + [PublishAlert(a, p)] + between + [PublishAlert(b, q)], s)
    requires a.deviceID == b.deviceID && a.alertType == b.alertType
    ensures exists e :: e in between && Releases(cfg.settings.th, e, a.deviceID, a.alertType)
  {
    var first := before + [PublishAlert(a, p)];
    var s0 := Initial(start);
    RunParts(cfg, s0, first + between, [PublishAlert(b, q)]);
    RunParts(cfg, s0, first, between);
    RunParts(cfg, s0, before, [PublishAlert(a, p)]);
    var m := Exec(cfg, s0, before).value;
    ExecSnoc(cfg, s0, before, PublishAlert(a, p));
    PublishAlertMarks(cfg, start, before, m, a, p);
    var n := Exec(cfg, s0, first).value;
    var u := Exec(cfg, s0, first + between).value;
    ExecConcat(cfg, s0, first, between);
    ExecSnoc(cfg, s0, first + between, PublishAlert(b, q));
    if forall e :: e in between ==> !Releases(cfg.settings.th, e, a.deviceID, a.alertType) {
      StaysMarked(cfg, n, between, u, a.deviceID, a.alertType);
      PublishAlertKeepsMarked(cfg, u, b, q, a.deviceID, a.alertType);
    }
  }

  lemma RunParts(cfg: Config, s: State, a: seq<Event>, b: seq<Event>)
    requires Exec(cfg, s, a + b).Some?
    ensures Exec(cfg, s, a).Some?
  {
    RunPrefix(cfg, s, a + b, |a|);
    assert (a + b)[..|a|] == a;
  }
}
