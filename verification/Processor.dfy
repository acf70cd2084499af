// The processor's consumer as the program runs it: ordered effects on the window
// store, the enricher, the publisher and the detector, each recorded as an event
// of ProcessorProtocol.
module Processor {
  import opened Prelude
  import opened Models
  import opened Broker
  import SlidingWindow
  import opened Anomaly
  import opened Operators
  import opened ProcessorProtocol
  import opened ProcessorSafety
  import opened ProcessorGuarantees
  import opened ProcessorOutputs
  import opened ProcessorSharding
  import opened ProcessorLocations
  import WindowStore
  import Enricher

  /** Broker client, deserializer, publisher, dead-letter producer and context. */
  class Outside {
    const cfg: Config
    ghost const start: Offsets
    const world: World
    ghost var pushed: seq<Record>
    var position: Offsets
    var cancelled: bool
    var pollsLeft: nat            // the client is closed or cancelled eventually
    ghost var told: bool          // cancellation or a closed client has been seen
    ghost var trace: seq<Event>
    ghost var st: State

    ghost predicate Valid()
      reads this
    {
      && Run(cfg, start, trace, st) && position == st.position && cancelled == st.cancelled
      && WorldOk(world) && pushed == Pushed(trace) && HonestEvents(cfg, world, trace)
    }

    /** The calls of the enricher for the records pushed so far. */
    ghost function Calls(): seq<Enricher.Call>
      reads this
    {
      CallsOf(cfg.decode, world.queries, pushed)
    }

    constructor (cfg: Config, start: Offsets, world: World, polls: nat)
      requires LogOk(cfg.log) && WorldOk(world)
      ensures Valid() && this.cfg == cfg && this.start == start && this.world == world
      ensures trace == [] && pushed == [] && st == Initial(start)
    {
      this.cfg, this.start, this.world, this.pushed := cfg, start, world, [];
      this.position, this.cancelled, this.pollsLeft := start, false, polls;
      this.told, this.trace, this.st := false, [], Initial(start);
    }

    ghost method Emit(e: Event)
      requires Run(cfg, start, trace, st) && Next(cfg, st, e).Some?
      requires Next(cfg, st, e).value.position == position && Next(cfg, st, e).value.cancelled == cancelled
      requires WorldOk(world) && pushed == Pushed(trace)
      requires HonestEvents(cfg, world, trace) && Honest(cfg, world, pushed, e)
      requires !e.PushWindow? && !e.Restart?
      modifies this`trace, this`st
      ensures Valid() && trace == old(trace) + [e] && Next(cfg, old(st), e) == Some(st)
    {
      ExecSnoc(cfg, Initial(start), trace, e);
      HonestSnoc(cfg, world, trace, e);
      st := Next(cfg, st, e).value;
      trace := trace + [e];
    }

    ghost method EmitPush(record: Record)
      requires Valid() && Next(cfg, st, PushWindow(record)).Some? && Honest(cfg, world, pushed, PushWindow(record))
      requires Next(cfg, st, PushWindow(record)).value.position == position
      requires Next(cfg, st, PushWindow(record)).value.cancelled == cancelled
      modifies this`trace, this`st, this`pushed
      ensures Valid() && trace == old(trace) + [PushWindow(record)] && pushed == old(pushed) + [record]
      ensures Next(cfg, old(st), PushWindow(record)) == Some(st)
    {
      ExecSnoc(cfg, Initial(start), trace, PushWindow(record));
      HonestSnoc(cfg, world, trace, PushWindow(record));
      st := Next(cfg, st, PushWindow(record)).value;
      trace, pushed := trace + [PushWindow(record)], pushed + [record];
    }

    /** The context may be cancelled at any time and stays so. */
    method Cancelled() returns (now: bool)
      requires Valid()
      modifies this`trace, this`st, this`cancelled, this`told
      ensures Valid() && old(trace) <= trace && now == cancelled && told == (old(told) || now)
      ensures st == old(st).(cancelled := cancelled)
    {
      now := *;
      now := now || cancelled;
      cancelled := now;
      told := told || now;
      if now {
        Emit(Cancel);
      }
    }

    /** The context may be cancelled while the call waits for records. */
    method Poll() returns (closed: bool, batch: seq<Record>)
      requires Valid() && st.phase.Top? && !cancelled
      modifies this`trace, this`st, this`position, this`cancelled, this`pollsLeft, this`told
      ensures Valid() && old(trace) <= trace
      ensures closed ==> batch == [] && st == old(st) && told
      ensures !closed ==> pollsLeft < old(pollsLeft) && Next(cfg, old(st), Event.Poll(batch)).Some?
      ensures !closed ==> st == Next(cfg, old(st), Event.Poll(batch)).value.(cancelled := cancelled)
    {
      closed := *;
      batch := [];
      if closed || pollsLeft == 0 {
        told := true;
        return true, [];
      }
      batch := *;
      if !Fetch(cfg.log, position, batch) {
        batch := [];
      }
      position := AdvanceAll(position, batch);
      pollsLeft := pollsLeft - 1;
      Emit(Event.Poll(batch));
      var cancelledMeanwhile := Cancelled();
    }

    method PublishAggregate(message: AggregateOut) returns (ok: bool, ghost p: Publish)
      requires Valid() && st.phase.Publishing? && st.phase.agg == message.agg
      requires Foremost(st.phase.inbox, message.source) && message.location == LocationAfter(world.ttl, Calls())
      modifies this`trace, this`st
      ensures (world.sound ==> ok) && Valid() && trace == old(trace) + [Event.PublishAggregate(message, p)]
      ensures p.Sent? == ok && Next(cfg, old(st), Event.PublishAggregate(message, p)) == Some(st)
    {
      var landed: bool := *;
      ok := *;
      ok := ok || world.sound;
      p := if ok then Sent else PublishFailed(landed);
      Emit(Event.PublishAggregate(message, p));
    }

    method PublishAlert(alert: DeviceAlert) returns (ok: bool, ghost p: Publish)
      requires Valid() && st.phase.Alerting? && st.phase.inbox != []
      requires st.phase.k < |st.phase.alerts| && st.phase.alerts[st.phase.k] == alert
      modifies this`trace, this`st
      ensures (world.sound ==> ok) && Valid() && trace == old(trace) + [Event.PublishAlert(alert, p)]
      ensures p.Sent? == ok && Next(cfg, old(st), Event.PublishAlert(alert, p)) == Some(st)
    {
      var landed: bool := *;
      ok := *;
      ok := ok || world.sound;
      p := if ok then Sent else PublishFailed(landed);
      Emit(Event.PublishAlert(alert, p));
    }

    method PublishDeadLetter(record: Record) returns (ok: bool, ghost p: Publish)
      requires Valid() && st.phase.Failing? && Foremost(st.phase.inbox, record)
      modifies this`trace, this`st
      ensures Valid() && trace == old(trace) + [DeadLetter(record, p)]
      ensures p.Sent? == ok && Next(cfg, old(st), DeadLetter(record, p)) == Some(st)
    {
      var landed: bool := *;
      ok := *;
      p := if ok then Sent else PublishFailed(landed);
      Emit(DeadLetter(record, p));
    }

    method CommitOffsets(records: seq<Record>) returns (ok: bool, ghost c: CommitOutcome)
      requires Valid() && st.phase.Committing? && st.toCommit == records
      modifies this`trace, this`st
      ensures Valid() && trace == old(trace) + [Commit(c)]
      ensures c.Committed? == ok && Next(cfg, old(st), Commit(c)) == Some(st)
    {
      var partitions: set<int> := *;
      ok := *;
      c := if ok then Committed else CommitFailed(partitions);
      Emit(Commit(c));
    }
  }

  class ProcessorConsumer {
    const out: Outside
    const windows: WindowStore.WindowStore
    const detector: AnomalyDetector
    const enricher: Enricher.Enricher

    ghost predicate Valid()
      reads this, out, windows, windows.arrays, detector, enricher
    {
      OperatorsAgree() && CacheAgrees(out.Calls())
    }

    /** The enricher has made these calls, and no others. */
    ghost predicate CacheAgrees(calls: seq<Enricher.Call>)
      reads this, out, enricher
    {
      enricher.ttl == out.world.ttl && enricher.cache == Enricher.CacheAfter(out.world.ttl, calls)
    }

    /** The operators of the automaton are the contents of the real ones. */
    ghost predicate OperatorsAgree()
      reads this, out, windows, windows.arrays, detector
    {
      && out.Valid() && windows.Valid() && Apart()
      && windows.windowSize == out.cfg.settings.windowSize && detector.th == out.cfg.settings.th
      && out.st.ops == Ops(windows.contents, detector.activeAlerts)
    }

    ghost predicate Apart()
      reads this, windows
    {
      && out !in windows.arrays && detector !in windows.arrays
      && enricher !in windows.arrays && this !in windows.arrays
    }

    constructor (out: Outside, windows: WindowStore.WindowStore, detector: AnomalyDetector, enricher: Enricher.Enricher)
      requires out.Valid() && out.st.phase.Top? && out.st.ops == FRESH
      requires out.pushed == [] && enricher.ttl == out.world.ttl && enricher.cache == map[]
      requires windows.Valid() && windows.arrays == {} && windows.contents == map[] && detector.activeAlerts == map[]
      requires windows.windowSize == out.cfg.settings.windowSize && detector.th == out.cfg.settings.th
      ensures Valid() && this.out == out && this.windows == windows
    {
      this.out, this.windows, this.detector, this.enricher := out, windows, detector, enricher;
    }

    /** Commits once per poll, never under a cancelled context, and goes on when a
        commit fails. When it returns, a partition's committed offset lags exactly
        if its last poll was not committed. In a sound world it has published what
        the decodable records it polled determine, and nothing else. */
    method Run()
      requires Valid() && out.st.phase.Top?
      modifies this, out, windows, windows.arrays, detector, enricher
      ensures Valid() && old(out.trace) <= out.trace && out.st.phase.Returned? && out.told
      ensures forall p :: At(out.st.committed, p) == At(out.position, p) <==> p !in out.st.behind
      ensures HonestEvents(out.cfg, out.world, out.trace)
      ensures out.world.sound ==> PublishedFor(out.cfg, out.trace)
    {
      NothingToCommitAtTop(out.cfg, out.start, out.trace, out.st);
      while true
        invariant Valid() && out.st.phase.Top? && out.st.toCommit == [] && old(out.trace) <= out.trace
        invariant fresh(windows.arrays - old(windows.arrays))
        decreases out.pollsLeft
      {
        var more := PollOnce();
        if !more {
          break;
        }
      }
      out.Emit(Stop);
      AllCaughtUpIff(out.cfg, out.start, out.trace, out.st);
      HonestRefusals(out.cfg, out.world, out.trace);
      if out.world.sound {
        SmoothRunPublishes(out.cfg, out.start, out.trace, out.st);
      }
    }

    /** One turn of the loop; false when the context is cancelled or the client closed. */
    method PollOnce() returns (more: bool)
      requires Valid() && out.st.phase.Top? && out.st.toCommit == []
      modifies out, windows, windows.arrays, detector, enricher
      ensures Valid() && out.st.phase.Top? && out.st.toCommit == [] && old(out.trace) <= out.trace
      ensures fresh(windows.arrays - old(windows.arrays))
      ensures if more then out.pollsLeft < old(out.pollsLeft) else out.told
    {
      var cancelled := out.Cancelled();
      if cancelled {
        return false;
      }
      var closed, batch := out.Poll();
      if closed {
        return false;
      }
      ProcessPoll(batch);
      return true;
    }

    method ProcessPoll(batch: seq<Record>)
      requires Valid() && out.st.phase == Draining(batch) && out.st.toCommit == []
      modifies out, windows, windows.arrays, detector, enricher
      ensures Valid() && out.st.phase.Top? && out.st.toCommit == [] && old(out.trace) <= out.trace
      ensures fresh(windows.arrays - old(windows.arrays)) && out.pollsLeft == old(out.pollsLeft)
    {
      ProcessAll(batch);
      CommitPoll(batch);
    }

    /** Processes the fetched records in order; what fails goes to the dead-letter
        topic, and every record is to be committed. */
    method ProcessAll(batch: seq<Record>)
      requires Valid() && out.st.phase == Draining(batch) && out.st.toCommit == []
      modifies out`trace, out`st, out`pushed, windows, windows.arrays, detector, enricher
      ensures Valid() && old(out.trace) <= out.trace && fresh(windows.arrays - old(windows.arrays))
      ensures out.st.phase == Draining([]) && out.st.toCommit == batch
      ensures forall r :: r in batch ==> Accounted(out.st, r)
    {
      var i := 0;
      while i < |batch|
        invariant 0 <= i <= |batch|
        invariant Valid() && old(out.trace) <= out.trace
        invariant fresh(windows.arrays - old(windows.arrays))
        invariant out.st.phase == Draining(batch[i..]) && out.st.toCommit == batch[..i]
      {
        SliceStep(batch, i);
        HandleRecord(batch[i]);
        i := i + 1;
      }
      ToCommitIsAccounted(out.cfg, out.start, out.trace, out.st);
    }

    /** Processes one record, or sends it to the dead-letter topic. */
    method HandleRecord(record: Record)
      requires Valid() && out.st.phase.Draining? && Foremost(out.st.phase.inbox, record)
      modifies out`trace, out`st, out`pushed, windows, windows.arrays, detector, enricher
      ensures Valid() && old(out.trace) <= out.trace && fresh(windows.arrays - old(windows.arrays))
      ensures out.st.phase == Draining(old(out.st.phase).inbox[1..])
      ensures out.st.toCommit == old(out.st.toCommit) + [record]
      ensures |old(out.trace)| < |out.trace| && Accounted(out.st, record)
      ensures EndsWith(out.trace, Complete(record)) || exists p :: EndsWith(out.trace, DeadLetter(record, p))
      ensures match Deserialized(out.cfg.decode, out.world.answers, record)
        case None =>
          && out.pushed == old(out.pushed) && enricher.cache == old(enricher.cache)
          && out.st.aggregates == old(out.st.aggregates) && !EndsWith(out.trace, Complete(record))
        case Some(m) =>
          var call := CallFor(m, out.world.queries(record));
          && out.pushed == old(out.pushed) + [record]
          && enricher.cache == Enricher.AfterCall(old(enricher.cache), enricher.ttl, call)
          && (out.world.sound ==> EndsWith(out.trace, Complete(record)))
          && (EndsWith(out.trace, Complete(record)) ==>
                AddsOne(old(out.st.aggregates), out.st.aggregates, record,
                        LocationOf(Enricher.ResultOf(old(enricher.cache), call))))
    {
      var ok := ProcessRecord(record);
      if !ok {
        var published, p := out.PublishDeadLetter(record);
      }
      ToCommitIsAccounted(out.cfg, out.start, out.trace, out.st);
    }

    /** Under a valid context one commit of the poll's records is attempted. */
    method CommitPoll(toCommit: seq<Record>)
      requires out.Valid() && out.st.phase == Draining([]) && out.st.toCommit == toCommit
      modifies out`trace, out`st, out`cancelled, out`told
      ensures out.Valid() && old(out.trace) < out.trace && out.st.ops == old(out.st.ops)
      ensures out.st.phase.Top? && out.st.toCommit == []
      ensures if toCommit != [] && !out.cancelled then
                && Last(out.trace).Commit?
                && out.st.committed == CommitRecords(old(out.st.committed), toCommit, Last(out.trace).commit)
              else Last(out.trace) == EndOfPoll && out.st.committed == old(out.st.committed)
    {
      var cancelled := out.Cancelled();
      EndStep(out.cfg, out.st);
      out.Emit(EndOfPoll);
      if |toCommit| > 0 && !cancelled {
        var committed, c := out.CommitOffsets(toCommit);
      }
    }

    /** The per-record pipeline: deserialize, push, enrich, publish the aggregate,
        detect, publish the alerts. The window and the detector have changed
        before the publishes that may fail. A record that cannot be deserialized
        fails at once, and only then are the window and the enricher left alone. */
    method ProcessRecord(record: Record) returns (ok: bool)
      requires Valid() && out.st.phase.Draining? && Foremost(out.st.phase.inbox, record)
      modifies out`trace, out`st, out`pushed, windows, windows.arrays, detector, enricher
      ensures Valid() && old(out.trace) <= out.trace && fresh(windows.arrays - old(windows.arrays))
      ensures ok ==> record in out.st.completed && out.st.phase == Draining(old(out.st.phase).inbox[1..])
      ensures ok ==> EndsWith(out.trace, Complete(record))
      ensures ok ==> out.st.toCommit == old(out.st.toCommit) + [record]
      ensures !ok ==> out.st.phase == Failing(old(out.st.phase).inbox) && out.st.toCommit == old(out.st.toCommit)
      ensures |old(out.trace)| < |out.trace|
      ensures match Deserialized(out.cfg.decode, out.world.answers, record)
        case None =>
          && !ok && out.trace == old(out.trace) + [Undecodable(record)] && out.pushed == old(out.pushed)
          && enricher.cache == old(enricher.cache) && out.st.aggregates == old(out.st.aggregates)
        case Some(m) =>
          var call := CallFor(m, out.world.queries(record));
          && (out.world.sound ==> ok) && out.pushed == old(out.pushed) + [record]
          && enricher.cache == Enricher.AfterCall(old(enricher.cache), enricher.ttl, call)
          && (ok ==> AddsOne(old(out.st.aggregates), out.st.aggregates, record,
                             LocationOf(Enricher.ResultOf(old(enricher.cache), call))))
    {
      var metric := Deserialized(out.cfg.decode, out.world.answers, record);
      if metric.None? {
        out.Emit(Undecodable(record));
        return false;
      }
      ok := ProcessMetric(record, metric.value);
    }

    /** The pipeline from the push on. The aggregate is published with the location
        that the enricher gives for the reading's device. */
    method ProcessMetric(record: Record, metric: DeviceMetric) returns (ok: bool)
      requires Valid() && out.st.phase.Draining? && Foremost(out.st.phase.inbox, record)
      requires Deserialized(out.cfg.decode, out.world.answers, record) == Some(metric)
      modifies out`trace, out`st, out`pushed, windows, windows.arrays, detector, enricher
      ensures Valid() && old(out.trace) <= out.trace && fresh(windows.arrays - old(windows.arrays))
      ensures ok ==> record in out.st.completed && out.st.phase == Draining(old(out.st.phase).inbox[1..])
      ensures ok ==> EndsWith(out.trace, Complete(record))
      ensures ok ==> out.st.toCommit == old(out.st.toCommit) + [record]
      ensures !ok ==> out.st.phase == Failing(old(out.st.phase).inbox) && out.st.toCommit == old(out.st.toCommit)
      ensures |old(out.trace)| < |out.trace| && out.pushed == old(out.pushed) + [record] && (out.world.sound ==> ok)
      ensures var call := CallFor(metric, out.world.queries(record));
        && enricher.cache == Enricher.AfterCall(old(enricher.cache), enricher.ttl, call)
        && (ok ==> AddsOne(old(out.st.aggregates), out.st.aggregates, record,
                           LocationOf(Enricher.ResultOf(old(enricher.cache), call))))
    {
      ghost var before := out.st.aggregates;
      var agg, location := UpdateAndLocate(record, metric);
      ok := PublishOutputs(record, agg, location);
      AddedOne(before, AggregateOut(record, agg, location));
    }

    /** The window is updated and the enricher called, once each. */
    method UpdateAndLocate(record: Record, metric: DeviceMetric)
        returns (agg: SlidingWindow.WindowAggregate, location: string)
      requires Valid() && out.st.phase.Draining? && Foremost(out.st.phase.inbox, record)
      requires Deserialized(out.cfg.decode, out.world.answers, record) == Some(metric)
      modifies out`trace, out`st, out`pushed, windows, windows.arrays, enricher
      ensures Valid() && fresh(windows.arrays - old(windows.arrays))
      ensures out.trace == old(out.trace) + [PushWindow(record)] && out.pushed == old(out.pushed) + [record]
      ensures out.st.phase == Publishing(old(out.st.phase).inbox, agg) && out.st.toCommit == old(out.st.toCommit)
      ensures out.st.aggregates == old(out.st.aggregates) && location == LocationAfter(out.world.ttl, out.Calls())
      ensures var call := CallFor(metric, out.world.queries(record));
        && enricher.cache == Enricher.AfterCall(old(enricher.cache), enricher.ttl, call)
        && location == LocationOf(Enricher.ResultOf(old(enricher.cache), call))
    {
      NextCall(out.cfg.decode, out.world, out.pushed, record, metric);
      agg := UpdateWindow(record, metric);
      location := Locate(metric, out.world.queries(record));
    }

    method UpdateWindow(record: Record, metric: DeviceMetric) returns (agg: SlidingWindow.WindowAggregate)
      requires OperatorsAgree() && out.st.phase.Draining? && Foremost(out.st.phase.inbox, record)
      requires Deserialized(out.cfg.decode, out.world.answers, record) == Some(metric)
      modifies out`trace, out`st, out`pushed, windows, windows.arrays
      ensures OperatorsAgree() && fresh(windows.arrays - old(windows.arrays))
      ensures out.trace == old(out.trace) + [PushWindow(record)] && out.pushed == old(out.pushed) + [record]
      ensures out.st.phase == Publishing(old(out.st.phase).inbox, agg) && out.st.toCommit == old(out.st.toCommit)
      ensures out.st.aggregates == old(out.st.aggregates)
    {
      agg := windows.Push(metric);
      out.EmitPush(record);
    }

    method PublishOutputs(record: Record, agg: SlidingWindow.WindowAggregate, location: string) returns (ok: bool)
      requires OperatorsAgree() && out.st.phase.Publishing? && out.st.phase.agg == agg
      requires Foremost(out.st.phase.inbox, record) && location == LocationAfter(out.world.ttl, out.Calls())
      modifies out`trace, out`st, detector
      ensures OperatorsAgree() && old(out.trace) <= out.trace && (out.world.sound ==> ok)
      ensures ok ==> out.st.aggregates == old(out.st.aggregates) + [AggregateOut(record, agg, location)]
      ensures var alerts := AlertOuts(record, Emits(detector.th, old(detector.activeAlerts), agg));
        ok ==> out.st.alerts == old(out.st.alerts) + alerts
      ensures ok ==> record in out.st.completed && out.st.phase == Draining(old(out.st.phase).inbox[1..])
      ensures ok ==> EndsWith(out.trace, Complete(record))
      ensures ok ==> out.st.toCommit == old(out.st.toCommit) + [record]
      ensures !ok ==> out.st.phase == Failing(old(out.st.phase).inbox) && out.st.toCommit == old(out.st.toCommit)
    {
      var sent, p := out.PublishAggregate(AggregateOut(record, agg, location));
      if !sent {
        return false;
      }
      ok := DetectAndAlert(record, agg);
    }

    /** In the automaton the detector has already run on the published aggregate;
        here it runs, once, and that is all that happens to the operators. */
    method DetectAndAlert(record: Record, agg: SlidingWindow.WindowAggregate) returns (ok: bool)
      requires out.Valid() && windows.Valid() && Apart()
      requires windows.windowSize == out.cfg.settings.windowSize && detector.th == out.cfg.settings.th
      requires out.st.ops == Ops(windows.contents, NextActive(detector.th, detector.activeAlerts, agg))
      requires out.st.phase.Alerting? && Foremost(out.st.phase.inbox, record)
      requires out.st.phase.alerts == Emits(detector.th, detector.activeAlerts, agg) && out.st.phase.k == 0
      modifies out`trace, out`st, detector
      ensures OperatorsAgree() && old(out.trace) <= out.trace && (out.world.sound ==> ok)
      ensures out.st.ops == old(out.st.ops) && out.st.aggregates == old(out.st.aggregates)
      ensures var alerts := AlertOuts(record, Emits(detector.th, old(detector.activeAlerts), agg));
        ok ==> out.st.alerts == old(out.st.alerts) + alerts
      ensures ok ==> record in out.st.completed && out.st.phase == Draining(old(out.st.phase).inbox[1..])
      ensures ok ==> EndsWith(out.trace, Complete(record))
      ensures ok ==> out.st.toCommit == old(out.st.toCommit) + [record]
      ensures !ok ==> out.st.phase == Failing(old(out.st.phase).inbox) && out.st.toCommit == old(out.st.toCommit)
    {
      var alerts := detector.Detect(agg);
      ghost var sent: nat;
      ok, sent := PublishAll(record, alerts);
    }

    /** Best effort: the location stays empty when the registry cannot be reached
        and nothing is cached. */
    method Locate(metric: DeviceMetric, query: Query) returns (location: string)
      modifies enricher
      ensures var call := CallFor(metric, query);
        && enricher.cache == Enricher.AfterCall(old(enricher.cache), enricher.ttl, call)
        && location == LocationOf(Enricher.ResultOf(old(enricher.cache), call))
    {
      var device := enricher.GetDevice(CallFor(metric, query));
      location := if device.Some? then device.value.locationID else "";
    }

    /** Publishes the alerts in order, which completes the record; the first that
        fails ends it, and that one may have landed. */
    method PublishAll(record: Record, alerts: seq<DeviceAlert>) returns (ok: bool, ghost sent: nat)
      requires out.Valid() && out.st.phase.Alerting? && Foremost(out.st.phase.inbox, record)
      requires out.st.phase.alerts == alerts && out.st.phase.k == 0
      modifies out`trace, out`st
      ensures out.Valid() && old(out.trace) <= out.trace && (out.world.sound ==> ok)
      ensures sent <= |alerts| && (ok ==> sent == |alerts|)
      ensures out.st == if ok then Completed(old(out.st), record) else AlertsFailed(old(out.st), record, sent)
      ensures ok ==> EndsWith(out.trace, Complete(record))
    {
      ghost var s := out.st;
      var k := 0;
      sent := 0;
      assert s.alerts + AlertOuts(record, []) == s.alerts;
      while k < |alerts|
        invariant 0 <= k <= |alerts|
        invariant out.Valid() && old(out.trace) <= out.trace && out.st == AlertsSent(s, record, k)
      {
        var ready, p := out.PublishAlert(alerts[k]);
        AlertStep(out.cfg, s, record, k, p);
        if !ready {
          sent := if p.landed then k + 1 else k;
          return false, sent;
        }
        k := k + 1;
      }
      CompleteStep(out.cfg, s, record);
      out.Emit(Complete(record));
      return true, k;
    }
  }

  /** The call for a record that is pushed next. */
  lemma NextCall(decode: bytes -> Option<DeviceMetric>, w: World, pushed: seq<Record>, r: Record, m: DeviceMetric)
    requires Deserialized(decode, w.answers, r) == Some(m)
    ensures var calls, call := CallsOf(decode, w.queries, pushed), CallFor(m, w.queries(r));
      var more, cache := CallsOf(decode, w.queries, pushed + [r]), Enricher.CacheAfter(w.ttl, calls);
      && Enricher.CacheAfter(w.ttl, more) == Enricher.AfterCall(cache, w.ttl, call)
      && LocationAfter(w.ttl, more) == LocationOf(Enricher.ResultOf(cache, call))
  {
    var calls, call := CallsOf(decode, w.queries, pushed), CallFor(m, w.queries(r));
    CallsSnoc(decode, w.queries, pushed, r);
    assert Init(calls + [call]) == calls;
  }

  lemma EndStep(cfg: Config, s: State)
    requires s.phase == Draining([])
    ensures var t := Next(cfg, s, EndOfPoll);
      && t.Some? && t.value.committed == s.committed && t.value.position == s.position
      && t.value.cancelled == s.cancelled && t.value.ops == s.ops
      && if s.toCommit != [] && !s.cancelled then t.value.phase == Committing && t.value.toCommit == s.toCommit
         else t.value.phase == Top && t.value.toCommit == []
  {
  }

  /** One aggregate was added, for the record and with the location. */
  predicate AddsOne(before: seq<AggregateOut>, after: seq<AggregateOut>, record: Record, location: string) {
    && |after| == |before| + 1 && before <= after
    && Last(after).source == record && Last(after).location == location
  }

  lemma AddedOne(before: seq<AggregateOut>, out: AggregateOut)
    ensures AddsOne(before, before + [out], out.source, out.location)
  {
  }

  /** The aggregates and alerts published are those of the decodable polled records. */
  predicate PublishedFor(cfg: Config, es: seq<Event>) {
    var items := AllPublished(cfg.decode, Polled(es));
    && SentAggregates(es) == PublishedAggregates(cfg.settings, items)
    && SentAlerts(es) == AlertsOf(Outputs(cfg.settings, items))
  }

  predicate EndsWith(es: seq<Event>, e: Event) {
    es != [] && Last(es) == e
  }

  // ---- the states of publishing a record's alerts, from state s on ----

  function AlertOuts(record: Record, alerts: seq<DeviceAlert>): seq<AlertOut> {
    seq(|alerts|, i requires 0 <= i < |alerts| => AlertOut(record, alerts[i]))
  }

  function AlertsSent(s: State, record: Record, k: nat): State
    requires s.phase.Alerting? && k <= |s.phase.alerts|
  {
    s.(phase := s.phase.(k := k), alerts := s.alerts + AlertOuts(record, s.phase.alerts[..k]))
  }

  function AlertsFailed(s: State, record: Record, landed: nat): State
    requires s.phase.Alerting? && landed <= |s.phase.alerts|
  {
    s.(phase := Failing(s.phase.inbox), alerts := s.alerts + AlertOuts(record, s.phase.alerts[..landed]))
  }

  function Completed(s: State, record: Record): State
    requires s.phase.Alerting? && s.phase.inbox != []
  {
    s.(phase := Draining(s.phase.inbox[1..]),
       alerts := s.alerts + AlertOuts(record, s.phase.alerts),
       toCommit := s.toCommit + [record],
       handled := s.handled + [record],
       completed := s.completed[record := Output(s.phase.agg, s.phase.alerts)])
  }

  lemma AlertStep(cfg: Config, s: State, r: Record, k: nat, p: Publish)
    requires s.phase.Alerting? && Foremost(s.phase.inbox, r) && k < |s.phase.alerts|
    ensures Next(cfg, AlertsSent(s, r, k), PublishAlert(s.phase.alerts[k], p)) ==
      Some(if p.Sent? then AlertsSent(s, r, k + 1) else AlertsFailed(s, r, if p.landed then k + 1 else k))
  {
    var alerts := s.phase.alerts;
    var before, next := s.alerts + AlertOuts(r, alerts[..k]), AlertOut(r, alerts[k]);
    assert AlertOuts(r, alerts[..k + 1]) == AlertOuts(r, alerts[..k]) + [next];
    assert before + [next] == s.alerts + AlertOuts(r, alerts[..k + 1]) && before + [] == before;
  }

  lemma CompleteStep(cfg: Config, s: State, r: Record)
    requires s.phase.Alerting? && Foremost(s.phase.inbox, r)
    ensures Next(cfg, AlertsSent(s, r, |s.phase.alerts|), Complete(r)) == Some(Completed(s, r))
  {
    assert s.phase.alerts[..|s.phase.alerts|] == s.phase.alerts;
  }

  /** Killing the process after any of its effects, and restarting it, leaves a
      run in which no record below the committed offsets is unaccounted for. */
  lemma SafeAtEveryCrash(cfg: Config, start: Offsets, trace: seq<Event>, s: State, n: nat, r: Record)
    requires Run(cfg, start, trace, s) && n <= |trace| && r in cfg.log && !Below(start, r)
    ensures var m := Exec(cfg, Initial(start), trace[..n]);
      && m.Some?
      && (Below(m.value.committed, r) ==> Accounted(m.value, r))
      && Exec(cfg, Initial(start), trace[..n] + [Restart]) == Next(cfg, m.value, Restart)
      && Next(cfg, m.value, Restart).value.position == m.value.committed
      && Next(cfg, m.value, Restart).value.ops == FRESH
  {
    RunPrefix(cfg, Initial(start), trace, n);
    AtLeastOnce(cfg, start, trace[..n], Exec(cfg, Initial(start), trace[..n]).value, r);
    ExecSnoc(cfg, Initial(start), trace[..n], Restart);
  }
}
