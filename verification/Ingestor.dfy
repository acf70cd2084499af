// The ingestor's consumer as the program runs it: fields appended to in nested
// loops and cleared when flush returns. Every effect on the outside world is
// recorded as an event, and each method is proved to drive the automaton of
// IngestorProtocol, so the theorems about runs are theorems about this code.
module Ingestor {
  import opened Prelude
  import opened Models
  import opened Broker
  import opened IngestorProtocol
  import opened IngestorSafety
  import opened IngestorOnce
  import opened IngestorBatching
  import opened IngestorLoss

  /** What the world answers to one process: the schema registry, by record. When
      it is sound nothing fails while the process lives. */
  datatype World = World(answers: Record -> bool, sound: bool)

  ghost predicate WorldOk(w: World) {
    w.sound ==> forall r :: w.answers(r)
  }

  /** A record is given up as undecodable only if it cannot be deserialized, and
      nothing fails that cannot. */
  predicate Honest(cfg: Config, w: World, e: Event) {
    && (e.Poison? ==> Deserialized(cfg.decode, w.answers, e.record) == None)
    && (w.sound ==> Smooth(cfg, e))
  }

  predicate HonestEvents(cfg: Config, w: World, es: seq<Event>) {
    es == [] || (HonestEvents(cfg, w, Init(es)) && Honest(cfg, w, Last(es)))
  }

  lemma HonestSnoc(cfg: Config, w: World, es: seq<Event>, e: Event)
    requires HonestEvents(cfg, w, es) && Honest(cfg, w, e)
    ensures HonestEvents(cfg, w, es + [e])
  {
    assert Init(es + [e]) == es;
  }

  /** Of every event: a record is poisoned only if it cannot be deserialized, and in
      a sound world the run is free of failures. */
  lemma {:induction false} HonestPoisons(cfg: Config, w: World, es: seq<Event>)
    requires HonestEvents(cfg, w, es)
    ensures forall e :: e in es && e.Poison? ==> Deserialized(cfg.decode, w.answers, e.record) == None
    ensures w.sound ==> SmoothEvents(cfg, es)
  {
    if es == [] {
    } else {
      HonestPoisons(cfg, w, Init(es));
      assert es == Init(es) + [Last(es)];
    }
  }

  /** Broker client, deserializer, database, dead-letter producer, clock and
      context. Answers are arbitrary; what they did is in the ghost state. */
  class Outside {
    const cfg: Config
    ghost const start: Offsets
    const world: World
    var clock: int
    var position: Offsets
    var cancelled: bool           // the current context
    var pollsLeft: nat            // the client is closed or cancelled eventually
    ghost var told: bool          // cancellation or a closed client has been seen
    ghost var trace: seq<Event>
    ghost var st: State

    ghost predicate Valid()
      reads this
    {
      && Run(cfg, start, trace, st) && position == st.position && cancelled == st.cancelled
      && WorldOk(world) && HonestEvents(cfg, world, trace)
    }

    constructor (cfg: Config, start: Offsets, world: World, clock: int, polls: nat)
      requires LogOk(cfg.log) && WorldOk(world)
      ensures Valid() && this.cfg == cfg && this.start == start && this.world == world
      ensures trace == [] && st == Initial(start)
    {
      this.cfg, this.start, this.world, this.clock := cfg, start, world, clock;
      this.position, this.cancelled, this.pollsLeft := start, false, polls;
      this.told, this.trace, this.st := false, [], Initial(start);
    }

    ghost method Emit(e: Event)
      requires Run(cfg, start, trace, st) && WorldOk(world)
      requires HonestEvents(cfg, world, trace) && Honest(cfg, world, e)
      requires Next(cfg, st, e).Some?
      requires Next(cfg, st, e).value.position == position && Next(cfg, st, e).value.cancelled == cancelled
      modifies this`trace, this`st
      ensures Valid() && trace == old(trace) + [e] && Next(cfg, old(st), e) == Some(st)
    {
      ExecSnoc(cfg, Initial(start), trace, e);
      HonestSnoc(cfg, world, trace, e);
      st := Next(cfg, st, e).value;
      trace := trace + [e];
    }

    /** The clock does not go back. */
    method Now() returns (now: int)
      modifies this`clock
      ensures now == clock && old(clock) <= clock
    {
      var reading: int := *;
      clock := if reading > clock then reading else clock;
      now := clock;
    }

    /** The context may be cancelled at any time and stays so. */
    method Cancelled() returns (now: bool)
      requires Valid()
      modifies this`trace, this`st, this`cancelled, this`told
      ensures Valid() && old(trace) <= trace && now == cancelled && told == (old(told) || now)
      ensures st == old(st).(cancelled := cancelled)
    {
      now := *;
      now := now || cancelled;
      cancelled := now;
      told := told || now;
      if now {
        Emit(Cancel);
      }
    }

    /** The last flush is given a context of its own. */
    method FreshContext()
      requires Valid() && st.phase.Returned?
      modifies this`trace, this`st, this`cancelled
      ensures Valid() && !cancelled && trace == old(trace) + [Shutdown]
      ensures Next(cfg, old(st), Shutdown) == Some(st)
    {
      cancelled := false;
      Emit(Shutdown);
    }

    /** The context may be cancelled while the call waits for records. */
    method Poll() returns (closed: bool, batch: seq<Record>)
      requires Valid() && st.phase.Top? && !cancelled
      modifies this
      ensures Valid() && old(trace) <= trace && old(clock) <= clock
      ensures closed ==> batch == [] && st == old(st) && told
      ensures !closed ==> pollsLeft < old(pollsLeft) && Next(cfg, old(st), Event.Poll(batch)).Some?
      ensures !closed ==> st == Next(cfg, old(st), Event.Poll(batch)).value.(cancelled := cancelled)
    {
      closed := *;
      batch := [];
      if closed || pollsLeft == 0 {
        told := true;
        return true, [];
      }
      batch := *;
      if !Fetch(cfg.log, position, batch) {
        batch := [];
      }
      position := AdvanceAll(position, batch);
      pollsLeft := pollsLeft - 1;
      Emit(Event.Poll(batch));
      var cancelledMeanwhile := Cancelled();
      var later := Now();
    }

    method WriteBatch(metrics: seq<DeviceMetric>) returns (ok: bool)
      requires Valid() && st.phase.Writing? && st.pendingMetrics == metrics
      modifies this`trace, this`st, this`clock
      ensures (world.sound ==> ok) && old(clock) <= clock
      ensures Valid() && |trace| == |old(trace)| + 1 && old(trace) < trace
      ensures Last(trace).WriteBatch? && Last(trace).write.Written? == ok
      ensures Next(cfg, old(st), Last(trace)) == Some(st)
    {
      var landed: seq<bool> := *;
      ok := *;
      ok := ok || world.sound;
      var later := Now();
      GoodsHold(cfg, start, trace, st);
      Emit(Event.WriteBatch(if ok then Written else WriteFailed(landed)));
    }

    /** Used for undecodable records and for the records of a failed write. */
    method PublishDeadLetter(record: Record) returns (ok: bool, ghost publish: Publish)
      requires Valid()
      requires (st.phase.Draining? && st.phase.inbox != [] && st.phase.inbox[0] == record
                && Deserialized(cfg.decode, world.answers, record) == None)
        || (!world.sound && st.phase.DeadLettering?
            && st.phase.k < |st.pendingRecords| && st.pendingRecords[st.phase.k] == record)
      modifies this`trace, this`st
      ensures Valid() && publish.Sent? == ok && (world.sound ==> ok)
      ensures var e := if old(st.phase).Draining? then Poison(record, publish) else DeadLetter(record, publish);
        trace == old(trace) + [e]
      ensures Next(cfg, old(st), Last(trace)) == Some(st)
    {
      var landed: bool := *;
      ok := *;
      ok := ok || world.sound;
      publish := if ok then Sent else PublishFailed(landed);
      Emit(if st.phase.Draining? then Poison(record, publish) else DeadLetter(record, publish));
    }

    method CommitOffsets(records: seq<Record>) returns (ok: bool)
      requires Valid() && st.phase.Committing? && st.pendingRecords == records
      modifies this`trace, this`st, this`clock
      ensures (world.sound ==> ok) && old(clock) <= clock
      ensures Valid() && |trace| == |old(trace)| + 1 && old(trace) < trace
      ensures Last(trace).Commit? && Last(trace).commit.Committed? == ok
      ensures Next(cfg, old(st), Last(trace)) == Some(st)
    {
      var partitions: set<int> := *;
      ok := *;
      ok := ok || world.sound;
      var later := Now();
      Emit(Commit(if ok then Committed else CommitFailed(partitions)));
    }
  }

  class IngestorConsumer {
    const out: Outside
    const batchSize: int
    const flushInterval: int
    var pendingMetrics: seq<DeviceMetric>
    var pendingRecords: seq<Record>

    ghost predicate Valid()
      reads this, out
    {
      && out.Valid()
      && batchSize == out.cfg.batchSize && flushInterval == out.cfg.flushInterval
      && pendingMetrics == out.st.pendingMetrics && pendingRecords == out.st.pendingRecords
    }

    constructor (out: Outside, batchSize: int, flushInterval: int)
      requires out.Valid() && out.st.phase.Starting? && out.st.pendingMetrics == [] && out.st.pendingRecords == []
      requires batchSize == out.cfg.batchSize && flushInterval == out.cfg.flushInterval
      ensures Valid() && this.out == out
    {
      this.out, this.batchSize, this.flushInterval := out, batchSize, flushInterval;
      pendingMetrics, pendingRecords := [], [];
    }

    /** Returns false when a commit failed, as Run then returns its error, and true
        only when told to stop. It polls under a valid context only. */
    method Run() returns (ok: bool)
      requires Valid() && out.st.phase.Starting?
      modifies this, out
      ensures Valid() && old(out.trace) <= out.trace
      ensures out.st.phase.Returned? && out.st.runOk == ok
      ensures ok ==> out.told
      ensures out.world.sound ==> ok
    {
      ControlHolds(out.cfg, out.start, out.trace, out.st);
      var lastFlush := out.Now();
      out.Emit(Begin(lastFlush));
      ok := true;
      var more := true;
      while more
        invariant Valid() && old(out.trace) <= out.trace && (out.world.sound ==> ok)
        invariant more ==> ok && out.st.phase.Top? && out.st.runOk && !out.st.final && out.st.lastFlush == lastFlush
        invariant !more ==> out.st.phase.Returned? && out.st.runOk == ok && (ok ==> out.told)
        decreases more, out.pollsLeft
      {
        more, ok, lastFlush := Turn(lastFlush);
      }
    }

    /** One turn of the loop; more is false when Run is to return. */
    method Turn(lastFlush: int) returns (more: bool, ok: bool, flushedAt: int)
      requires Valid() && out.st.phase.Top? && out.st.runOk && !out.st.final && out.st.lastFlush == lastFlush
      modifies this, out
      ensures Valid() && old(out.trace) <= out.trace && (out.world.sound ==> ok)
      ensures more ==> ok && out.st.phase.Top? && out.st.runOk && !out.st.final && out.st.lastFlush == flushedAt
      ensures more ==> out.pollsLeft < old(out.pollsLeft)
      ensures !more ==> out.st.phase.Returned? && out.st.runOk == ok && (ok ==> out.told)
    {
      var cancelled := out.Cancelled();
      if cancelled {
        out.Emit(Stop);
        return false, true, lastFlush;
      }
      var closed, batch := out.Poll();
      if closed {
        out.Emit(Stop);
        return false, true, lastFlush;
      }
      Drain(batch);
      ghost var end;
      ok, flushedAt, end := FlushIfDue(lastFlush);
      more := ok;
    }

    /** The end of Run's loop body: flush a full or overdue batch, unless the
        context is already cancelled. Whether it is overdue is decided by a reading
        of the clock taken now, and the flush time by one taken after the flush. */
    method FlushIfDue(lastFlush: int) returns (ok: bool, flushedAt: int, ghost end: Event)
      requires Valid() && out.st.phase == Draining([]) && out.st.lastFlush == lastFlush
      requires out.st.runOk && !out.st.final
      modifies this, out`trace, out`st, out`cancelled, out`told, out`clock
      ensures Valid() && old(out.trace) <= out.trace && (out.world.sound ==> ok)
      ensures !out.st.final && out.st.runOk == ok && out.st.phase == if ok then Top else Returned
      ensures ok ==> out.st.lastFlush == flushedAt
      ensures end.EndOfFetch? && end in out.trace[|old(out.trace)|..] && old(out.clock) <= end.now <= out.clock
      ensures if ShouldFlush(out.cfg, old(out.st), end.now) && !end.cancelled then
          && pendingRecords == [] && pendingMetrics == [] && (ok ==> flushedAt == out.clock)
          && (forall r :: r in old(pendingRecords) ==> Accounted(out.st, r))
          && (ok && old(pendingRecords) != [] ==> out.st.committed == out.st.position)
        else
          ok && flushedAt == lastFlush && pendingRecords == old(pendingRecords) && pendingMetrics == old(pendingMetrics)
    {
      var now := out.Now();
      var shouldFlush := |pendingMetrics| >= batchSize
        || (|pendingRecords| > 0 && now - lastFlush >= flushInterval);
      var cancelled := out.Cancelled();
      NoRecordsNoMetrics(out.cfg, out.start, out.trace, out.st);
      end := EndOfFetch(now, cancelled);
      ghost var n := |out.trace|;
      out.Emit(end);
      assert out.trace[n] == end;
      if !shouldFlush || cancelled {
        return true, lastFlush, end;
      }
      ok, flushedAt := FlushNow();
    }

    method FlushNow() returns (ok: bool, flushedAt: int)
      requires Valid() && out.st.runOk && !out.st.final
      requires pendingRecords == [] ==> out.st.phase == Flushed
      requires pendingRecords != [] ==> out.st.phase == if |pendingMetrics| > 0 then Writing else Committing
      modifies this, out`trace, out`st, out`clock
      ensures Valid() && old(out.trace) <= out.trace && (out.world.sound ==> ok)
      ensures !out.st.final && out.st.runOk == ok && out.st.phase == if ok then Top else Returned
      ensures ok ==> out.st.lastFlush == flushedAt == out.clock
      ensures old(out.clock) <= out.clock
      ensures pendingRecords == [] && pendingMetrics == []
      ensures forall r :: r in old(pendingRecords) ==> Accounted(out.st, r)
      ensures ok && old(pendingRecords) != [] ==> out.st.committed == out.st.position
    {
      ok := Flush();
      flushedAt := 0;
      if ok {
        flushedAt := out.Now();
        out.Emit(Tick(flushedAt));
      }
    }

    /** Deserializes a fetch into the pending batch; what fails goes to the
        dead-letter topic and is still tracked for commit. */
    method Drain(batch: seq<Record>)
      requires Valid() && out.st.phase == Draining(batch)
      modifies this, out`trace, out`st
      ensures Valid() && old(out.trace) <= out.trace && |out.trace| == |old(out.trace)| + |batch|
      ensures out.st.phase == Draining([]) && pendingRecords == old(pendingRecords) + batch
      ensures pendingMetrics == old(pendingMetrics) + MetricsIn(out.cfg.decode, out.world.answers, batch)
      ensures out.st.runOk == old(out.st.runOk) && out.st.final == old(out.st.final)
      ensures out.st.lastFlush == old(out.st.lastFlush)
    {
      var i := 0;
      while i < |batch|
        invariant 0 <= i <= |batch|
        invariant Valid() && old(out.trace) <= out.trace && |out.trace| == |old(out.trace)| + i
        invariant out.st.phase == Draining(batch[i..])
        invariant pendingRecords == old(pendingRecords) + batch[..i]
        invariant pendingMetrics == old(pendingMetrics) + MetricsIn(out.cfg.decode, out.world.answers, batch[..i])
        invariant out.st.runOk == old(out.st.runOk) && out.st.final == old(out.st.final)
        invariant out.st.lastFlush == old(out.st.lastFlush)
      {
        ghost var before := pendingMetrics;
        SliceStep(batch, i);
        DrainOne(batch[i]);
        DrainedOne(out.cfg.decode, out.world.answers, batch, i, old(pendingMetrics), before, pendingMetrics);
        i := i + 1;
      }
      assert batch[..i] == batch;
    }

    /** One event: the metric is appended if the record can be deserialized, and
        otherwise, only, the record is dead-lettered. */
    method DrainOne(record: Record)
      requires Valid() && out.st.phase.Draining? && out.st.phase.inbox != [] && out.st.phase.inbox[0] == record
      modifies this, out`trace, out`st
      ensures Valid() && old(out.trace) < out.trace && |out.trace| == |old(out.trace)| + 1
      ensures out.st.phase == Draining(old(out.st.phase).inbox[1..]) && pendingRecords == old(pendingRecords) + [record]
      ensures match Deserialized(out.cfg.decode, out.world.answers, record)
        case Some(metric) => Last(out.trace) == Decoded && pendingMetrics == old(pendingMetrics) + [metric]
        case None =>
          && Last(out.trace).Poison? && Last(out.trace).record == record
          && pendingMetrics == old(pendingMetrics)
      ensures out.st.runOk == old(out.st.runOk) && out.st.final == old(out.st.final)
      ensures out.st.lastFlush == old(out.st.lastFlush)
    {
      var metric := Deserialized(out.cfg.decode, out.world.answers, record);
      if metric.None? {
        var published, publish := out.PublishDeadLetter(record);
        pendingRecords := pendingRecords + [record];
      } else {
        pendingMetrics := pendingMetrics + [metric.value];
        pendingRecords := pendingRecords + [record];
        out.Emit(Decoded);
      }
    }

    /** Writes the pending metrics, dead-letters everything if that fails, and
        commits either way; the pending batch is cleared whatever happens. */
    method Flush() returns (ok: bool)
      requires Valid()
      requires pendingRecords == [] ==> out.st.phase == if out.st.final then Closed(true) else Flushed
      requires pendingRecords != [] ==> out.st.phase == if |pendingMetrics| > 0 then Writing else Committing
      modifies this, out`trace, out`st, out`clock
      ensures Valid() && old(out.trace) <= out.trace && old(out.clock) <= out.clock && (out.world.sound ==> ok)
      ensures pendingRecords == [] && pendingMetrics == []
      ensures out.st.phase == if out.st.final then Closed(ok) else if ok then Flushed else Returned
      ensures out.st.final == old(out.st.final)
      ensures out.st.runOk == (old(out.st.runOk) && (ok || out.st.final))
      ensures forall r :: r in old(pendingRecords) ==> Accounted(out.st, r)
      ensures ok && old(pendingRecords) != [] ==> out.st.committed == out.st.position
    {
      if |pendingRecords| == 0 {
        NoRecordsNoMetrics(out.cfg, out.start, out.trace, out.st);
        return true;
      }
      WritePending();
      CommitReachesClient(out.cfg, out.start, out.trace, out.st);
      BatchAccountedBeforeCommit(out.cfg, out.start, out.trace, out.st);
      ok := out.CommitOffsets(pendingRecords);
      pendingMetrics := [];
      pendingRecords := [];
    }

    /** The part of flush before its commit. */
    method WritePending()
      requires Valid() && pendingRecords != []
      requires out.st.phase == if |pendingMetrics| > 0 then Writing else Committing
      modifies out`trace, out`st, out`clock
      ensures Valid() && old(out.trace) <= out.trace && old(out.clock) <= out.clock
      ensures out.st.phase.Committing?
      ensures out.st.final == old(out.st.final) && out.st.runOk == old(out.st.runOk)
    {
      if |pendingMetrics| > 0 {
        var written := out.WriteBatch(pendingMetrics);
        if !written {
          var publishes := DeadLetterAll();
        }
      }
    }

    /** One dead-letter publish for every pending record, in order. */
    method DeadLetterAll() returns (ghost publishes: seq<Publish>)
      requires Valid() && out.st.phase == DeadLettering(0) && pendingRecords != [] && !out.world.sound
      modifies out`trace, out`st
      ensures Valid() && out.st.phase.Committing?
      ensures |publishes| == |pendingRecords|
      ensures out.trace == old(out.trace) + DeadLetters(pendingRecords, publishes)
      ensures out.st.final == old(out.st.final) && out.st.runOk == old(out.st.runOk)
    {
      publishes := [];
      var k := 0;
      while k < |pendingRecords|
        invariant 0 <= k <= |pendingRecords| && |publishes| == k
        invariant Valid() && out.trace == old(out.trace) + DeadLetters(pendingRecords, publishes)
        invariant out.st.phase == if k == |pendingRecords| then Committing else DeadLettering(k)
        invariant out.st.final == old(out.st.final) && out.st.runOk == old(out.st.runOk)
      {
        ghost var before := DeadLetters(pendingRecords, publishes);
        var published, publish := out.PublishDeadLetter(pendingRecords[k]);
        publishes := publishes + [publish];
        assert Init(publishes) == publishes[..k];
        assert DeadLetters(pendingRecords, publishes) == before + [DeadLetter(pendingRecords[k], publish)];
        k := k + 1;
      }
    }

    method Shutdown() returns (ok: bool)
      requires Valid() && out.st.phase.Returned?
      modifies this, out`trace, out`st, out`cancelled, out`clock
      ensures Valid() && old(out.trace) <= out.trace && (out.world.sound ==> ok)
      ensures out.st.phase == Closed(ok) && out.st.runOk == old(out.st.runOk)
      ensures pendingRecords == []
    {
      ControlHolds(out.cfg, out.start, out.trace, out.st);
      NoRecordsNoMetrics(out.cfg, out.start, out.trace, out.st);
      out.FreshContext();
      ok := Flush();
    }

    /** The life of a process: Run, then Shutdown whatever Run returned. When
        both succeed the group resumes exactly where this process stopped. */
    method Serve() returns (ok: bool)
      requires Valid() && out.st.phase.Starting?
      modifies this, out
      ensures Valid() && old(out.trace) <= out.trace && out.st.phase.Closed?
      ensures ok <==> CleanStop(out.st)
      ensures ok ==> out.st.committed == out.st.position
      ensures (forall r :: out.world.answers(r)) ==> PoisonsOnlyUndecodable(out.cfg, out.trace)
      ensures out.world.sound ==> ok && HoldsPolled(out.cfg, out.st, Polled(out.trace))
    {
      var ran := Run();
      var closed := Shutdown();
      ok := ran && closed;
      if ok {
        CleanShutdownCommitsEverything(out.cfg, out.start, out.trace, out.st);
      }
      HonestPoisons(out.cfg, out.world, out.trace);
      if out.world.sound {
        FailureFreeContents(out.cfg, out.start, out.trace, out.st);
      }
    }
  }

  /** The metrics that deserializing the records gives, in order. */
  function MetricsIn(decode: bytes -> Option<DeviceMetric>, answers: Record -> bool, rs: seq<Record>):
      seq<DeviceMetric> {
    if rs == [] then []
    else
      MetricsIn(decode, answers, Init(rs))
      + match Deserialized(decode, answers, Last(rs)) case None => [] case Some(metric) => [metric]
  }

  lemma DrainedOne(
      decode: bytes -> Option<DeviceMetric>, answers: Record -> bool, rs: seq<Record>, i: nat,
      first: seq<DeviceMetric>, before: seq<DeviceMetric>, after: seq<DeviceMetric>)
    requires i < |rs| && before == first + MetricsIn(decode, answers, rs[..i])
    requires match Deserialized(decode, answers, rs[i])
      case None => after == before
      case Some(metric) => after == before + [metric]
    ensures after == first + MetricsIn(decode, answers, rs[..i + 1])
  {
    assert Init(rs[..i + 1]) == rs[..i];
  }

  /** The database holds the decodable records and the dead-letter topic the others,
      each once and in order. */
  ghost predicate HoldsPolled(cfg: Config, s: State, polled: seq<Record>) {
    var good := Filter(Decodable(cfg.decode), polled);
    && (forall r :: r in good ==> cfg.decode(r.value).Some?)
    && s.db == RowsFor(cfg.decode, good) && s.dlq == Filter(Undecodable(cfg.decode), polled)
  }

  /** Killing the process after any of its effects, and restarting it, leaves a
      run in which no record below the committed offsets is unaccounted for. */
  lemma SafeAtEveryCrash(cfg: Config, start: Offsets, trace: seq<Event>, s: State, n: nat, r: Record)
    requires Run(cfg, start, trace, s) && n <= |trace| && r in cfg.log && !Below(start, r)
    ensures var m := Exec(cfg, Initial(start), trace[..n]);
      && m.Some?
      && (Below(m.value.committed, r) ==> Accounted(m.value, r))
      && Exec(cfg, Initial(start), trace[..n] + [Restart]) == Next(cfg, m.value, Restart)
      && Next(cfg, m.value, Restart).Some?
      && Next(cfg, m.value, Restart).value.position == m.value.committed
  {
    RunPrefix(cfg, Initial(start), trace, n);
    AtLeastOnce(cfg, start, trace[..n], Exec(cfg, Initial(start), trace[..n]).value, r);
    ExecSnoc(cfg, Initial(start), trace[..n], Restart);
  }
}
