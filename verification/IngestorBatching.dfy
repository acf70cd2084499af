// What batching may and may not change: in a run without failures the batch
// size, the flush interval, the clock and the grouping into polls have no effect
// on the database. What is pending at any time, and when it is flushed.
module IngestorBatching {
  import opened Prelude
  import opened Models
  import opened Broker
  import opened IngestorProtocol
  import opened IngestorSafety
  import opened IngestorOnce

  // ---- failure-free runs ----

  /** Event e is not a failure; only what cannot be decoded is dead-lettered. */
  predicate Smooth(cfg: Config, e: Event) {
    match e
    case Poison(record, publish) => publish.Sent? && cfg.decode(record.value).None?
    case WriteBatch(write) => write.Written?
    case DeadLetter(_, _) => false
    case Commit(outcome) => outcome.Committed?
    case Restart => false
    case _ => true
  }

  predicate SmoothEvents(cfg: Config, es: seq<Event>) {
    forall e :: e in es ==> Smooth(cfg, e)
  }

  function Decodable(decode: bytes -> Option<DeviceMetric>): Record -> bool {
    (r: Record) => decode(r.value).Some?
  }

  function Undecodable(decode: bytes -> Option<DeviceMetric>): Record -> bool {
    (r: Record) => decode(r.value).None?
  }

  /** The table contents that storing each of the records once gives. */
  function RowsFor(decode: bytes -> Option<DeviceMetric>, rs: seq<Record>): seq<Row>
    requires forall r :: r in rs ==> decode(r.value).Some?
  {
    if rs == [] then []
    else
      assert Last(rs) in rs;
      RowsFor(decode, Init(rs)) + [Row(Last(rs), decode(Last(rs).value).value)]
  }

  /** Goods that are in no row yet. */
  function Unwritten(s: State): seq<Record> {
    if s.phase.Committing? then [] else s.goods
  }

  predicate Transparent(cfg: Config, s: State) {
    && Sources(s.db) + Unwritten(s) == Filter(Decodable(cfg.decode), s.handled)
    && s.dlq == Filter(Undecodable(cfg.decode), s.handled)
    && !s.phase.DeadLettering?
  }

  /** Nothing relevant changed. */
  lemma QuietKeepsTransparent(cfg: Config, s: State, t: State)
    requires Transparent(cfg, s) && !t.phase.DeadLettering?
    requires t.db == s.db && t.dlq == s.dlq && t.handled == s.handled && Unwritten(t) == Unwritten(s)
    ensures Transparent(cfg, t)
  {
  }

  /** One more record was iterated over: pending if decodable, dead-lettered if not. */
  lemma HandlingKeepsTransparent(cfg: Config, s: State, t: State, r: Record)
    requires Transparent(cfg, s) && s.phase.Draining? && t.phase.Draining?
    requires t.db == s.db && t.handled == s.handled + [r]
    requires t.goods == s.goods + if cfg.decode(r.value).Some? then [r] else []
    requires t.dlq == s.dlq + if cfg.decode(r.value).Some? then [] else [r]
    ensures Transparent(cfg, t)
  {
    FilterSnoc(Decodable(cfg.decode), s.handled, r);
    FilterSnoc(Undecodable(cfg.decode), s.handled, r);
    ConcatAssociative(Sources(s.db), s.goods, if cfg.decode(r.value).Some? then [r] else []);
  }

  lemma ConcatAssociative<T>(a: seq<T>, b: seq<T>, c: seq<T>)
    ensures a + (b + c) == (a + b) + c
  {
  }

  /** The goods moved from memory to the table. */
  lemma StoringKeepsTransparent(cfg: Config, s: State, t: State)
    requires Transparent(cfg, s) && s.phase.Writing? && t.phase.Committing?
    requires Sources(t.db) == Sources(s.db) + s.goods && t.dlq == s.dlq && t.handled == s.handled
    ensures Transparent(cfg, t)
  {
    assert Sources(t.db) + [] == Sources(t.db);
  }

  lemma DrainKeepsTransparent(cfg: Config, s: State, e: Event)
    requires Transparent(cfg, s) && Next(cfg, s, e).Some? && Smooth(cfg, e)
    requires e.Decoded? || e.Poison?
    ensures Transparent(cfg, Next(cfg, s, e).value)
  {
    var t := Next(cfg, s, e).value;
    assert s.goods + [] == s.goods && s.dlq + [] == s.dlq;
    HandlingKeepsTransparent(cfg, s, t, Inbox(s)[0]);
  }

  lemma WriteKeepsTransparent(cfg: Config, s: State)
    requires BatchOk(cfg, s) && Transparent(cfg, s) && Next(cfg, s, WriteBatch(Written)).Some?
    ensures Transparent(cfg, Next(cfg, s, WriteBatch(Written)).value)
  {
    WritesRows(cfg, s, Written);
    WritesOnly(cfg, s, Written);
    LandedRows(cfg, s, Written);
    StoringKeepsTransparent(cfg, s, Next(cfg, s, WriteBatch(Written)).value);
  }

  /** Without pending records there are no pending metrics. */
  lemma NoRecordsNoGoods(s: State)
    requires GoodsOk(s) && s.pendingRecords == []
    ensures s.goods == []
  {
    EmptyOrInhabited(s.goods);
  }

  lemma EnterFlushKeepsTransparent(cfg: Config, s: State)
    requires BatchOk(cfg, s) && GoodsOk(s) && Transparent(cfg, s) && !s.phase.Committing?
    ensures Transparent(cfg, EnterFlush(s))
  {
    var t := EnterFlush(s);
    if s.pendingRecords == [] {
      NoRecordsNoGoods(s);
    }
    assert Unwritten(t) == Unwritten(s);
    QuietKeepsTransparent(cfg, s, t);
  }

  lemma EndOfFetchKeepsTransparent(cfg: Config, s: State, e: Event)
    requires BatchOk(cfg, s) && GoodsOk(s) && Transparent(cfg, s) && Next(cfg, s, e).Some? && e.EndOfFetch?
    ensures Transparent(cfg, Next(cfg, s, e).value)
  {
    if ShouldFlush(cfg, s, e.now) && !e.cancelled {
      EnterFlushKeepsTransparent(cfg, s);
    } else {
      QuietKeepsTransparent(cfg, s, s.(phase := Top));
    }
  }

  lemma ShutdownKeepsTransparent(cfg: Config, s: State)
    requires BatchOk(cfg, s) && GoodsOk(s) && Transparent(cfg, s) && Next(cfg, s, Shutdown).Some?
    ensures Transparent(cfg, Next(cfg, s, Shutdown).value)
  {
    var t := s.(final := true, cancelled := false);
    QuietKeepsTransparent(cfg, s, t);
    EnterFlushKeepsTransparent(cfg, t);
  }

  lemma ControlKeepsTransparent(cfg: Config, s: State, e: Event)
    requires Transparent(cfg, s) && Next(cfg, s, e).Some?
    requires e.Begin? || e.Cancel? || e.Stop? || e.Poll? || e.Tick? || (e.Commit? && e.commit.Committed?)
    ensures Transparent(cfg, Next(cfg, s, e).value)
  {
    QuietKeepsTransparent(cfg, s, Next(cfg, s, e).value);
  }

  lemma StepKeepsTransparent(cfg: Config, s: State, e: Event)
    requires BatchOk(cfg, s) && GoodsOk(s) && Transparent(cfg, s)
    requires Next(cfg, s, e).Some? && Smooth(cfg, e)
    ensures Transparent(cfg, Next(cfg, s, e).value)
  {
    match e
    case Decoded => DrainKeepsTransparent(cfg, s, e);
    case Poison(_, _) => DrainKeepsTransparent(cfg, s, e);
    case WriteBatch(_) => WriteKeepsTransparent(cfg, s);
    case EndOfFetch(_, _) => EndOfFetchKeepsTransparent(cfg, s, e);
    case Shutdown => ShutdownKeepsTransparent(cfg, s);
    case _ => ControlKeepsTransparent(cfg, s, e);
  }

  lemma {:induction false} TransparentHolds(cfg: Config, start: Offsets, es: seq<Event>, s: State)
    requires Run(cfg, start, es, s) && SmoothEvents(cfg, es)
    ensures Transparent(cfg, s)
  {
    if es == [] {
      assert Sources([]) + [] == [];
    } else {
      var m := Exec(cfg, Initial(start), Init(es)).value;
      assert es == Init(es) + [Last(es)];
      TransparentHolds(cfg, start, Init(es), m);
      GoodsHold(cfg, start, Init(es), m);
      StepKeepsTransparent(cfg, m, Last(es));
    }
  }

  /** All records this process polled, in order. */
  function Polled(es: seq<Event>): seq<Record> {
    if es == [] then []
    else
      match Last(es)
      case Poll(batch) => Polled(Init(es)) + batch
      case Restart => []
      case _ => Polled(Init(es))
  }

  lemma StepKeepsPolled(cfg: Config, s: State, e: Event, polled: seq<Record>)
    requires polled == s.handled + Inbox(s) && Next(cfg, s, e).Some?
    requires !e.Poll? && !e.Restart?
    ensures polled == Next(cfg, s, e).value.handled + Inbox(Next(cfg, s, e).value)
  {
    if e.Decoded? || e.Poison? {
      HeadMoves(s.handled, Inbox(s));
    }
  }

  /** The loop iterates over everything it polls. */
  lemma {:induction false} PolledIsHandled(cfg: Config, start: Offsets, es: seq<Event>, s: State)
    requires Run(cfg, start, es, s)
    ensures Polled(es) == s.handled + Inbox(s)
  {
    if es == [] {
    } else {
      var m, e := Exec(cfg, Initial(start), Init(es)).value, Last(es);
      PolledIsHandled(cfg, start, Init(es), m);
      if !e.Poll? && !e.Restart? {
        StepKeepsPolled(cfg, m, e, Polled(Init(es)));
      } else if e.Poll? {
        assert Inbox(m) == [] && m.handled + [] == m.handled;
      }
    }
  }

  lemma RowsForSnoc(decode: bytes -> Option<DeviceMetric>, rs: seq<Record>, r: Record)
    requires decode(r.value).Some? && forall q :: q in rs ==> decode(q.value).Some?
    ensures forall q :: q in rs + [r] ==> decode(q.value).Some?
    ensures RowsFor(decode, rs + [r]) == RowsFor(decode, rs) + [Row(r, decode(r.value).value)]
  {
    assert Init(rs + [r]) == rs && Last(rs + [r]) == r;
  }

  lemma {:induction false} RowsAreDetermined(cfg: Config, rows: seq<Row>)
    requires RowsOk(cfg, rows)
    ensures forall r :: r in Sources(rows) ==> cfg.decode(r.value).Some?
    ensures rows == RowsFor(cfg.decode, Sources(rows))
  {
    if rows == [] {
    } else {
      var init, row := Init(rows), Last(rows);
      assert rows == init + [row];
      assert row in rows && forall q :: q in init ==> q in rows;
      RowsAreDetermined(cfg, init);
      RowsForSnoc(cfg.decode, Sources(init), row.source);
    }
  }

  lemma DecodableMembers(cfg: Config, rs: seq<Record>)
    ensures forall r :: r in Filter(Decodable(cfg.decode), rs) ==> cfg.decode(r.value).Some?
  {
    forall r | r in Filter(Decodable(cfg.decode), rs)
      ensures cfg.decode(r.value).Some?
    {
      FilterMembers(Decodable(cfg.decode), rs, r);
    }
  }

  /** After a failure-free run and Shutdown the database holds the decodable
      polled records and the dead-letter topic the others, each once and in the
      order they were polled. */
  lemma FailureFreeContents(cfg: Config, start: Offsets, es: seq<Event>, s: State)
    requires Run(cfg, start, es, s) && SmoothEvents(cfg, es) && s.phase.Closed?
    ensures forall r :: r in Filter(Decodable(cfg.decode), Polled(es)) ==> cfg.decode(r.value).Some?
    ensures s.db == RowsFor(cfg.decode, Filter(Decodable(cfg.decode), Polled(es)))
    ensures s.dlq == Filter(Undecodable(cfg.decode), Polled(es))
  {
    TransparentHolds(cfg, start, es, s);
    LedgerHolds(cfg, start, es, s);
    AlignedHolds(cfg, start, es, s);
    PolledIsHandled(cfg, start, es, s);
    assert Sources(s.db) + [] == Sources(s.db) && s.handled + [] == s.handled;
    RowsAreDetermined(cfg, s.db);
    DecodableMembers(cfg, Polled(es));
  }

  /** Batching is transparent: two failure-free runs that poll the same records
      in the same order end with the same database and dead-letter topic, whatever
      their batch sizes, flush intervals, clocks and groupings into polls. */
  lemma BatchingIsTransparent(
      cfg1: Config, start1: Offsets, es1: seq<Event>, s1: State,
      cfg2: Config, start2: Offsets, es2: seq<Event>, s2: State)
    requires Run(cfg1, start1, es1, s1) && SmoothEvents(cfg1, es1) && s1.phase.Closed?
    requires Run(cfg2, start2, es2, s2) && SmoothEvents(cfg2, es2) && s2.phase.Closed?
    requires cfg1.decode == cfg2.decode && Polled(es1) == Polled(es2)
    ensures s1.db == s2.db && s1.dlq == s2.dlq
  {
    FailureFreeContents(cfg1, start1, es1, s1);
    FailureFreeContents(cfg2, start2, es2, s2);
  }

  // ---- what is pending ----

  /** Only records that stand for no metric were dead-lettered when drained. */
  predicate PoisonsOnlyUndecodable(cfg: Config, es: seq<Event>) {
    forall e :: e in es && e.Poison? ==> cfg.decode(e.record.value).None?
  }

  predicate GoodsAreWellFormed(cfg: Config, s: State) {
    s.goods == Filter(Decodable(cfg.decode), s.pendingRecords)
  }

  lemma DrainKeepsWellFormed(cfg: Config, s: State, e: Event)
    requires GoodsAreWellFormed(cfg, s) && Next(cfg, s, e).Some? && (e.Decoded? || e.Poison?)
    requires e.Poison? ==> cfg.decode(e.record.value).None?
    ensures GoodsAreWellFormed(cfg, Next(cfg, s, e).value)
  {
    FilterSnoc(Decodable(cfg.decode), s.pendingRecords, Inbox(s)[0]);
    assert s.goods + [] == s.goods;
  }

  /** The pending batch stays, or is forgotten. */
  predicate KeepsOrForgets(s: State, t: State) {
    (t.goods == s.goods && t.pendingRecords == s.pendingRecords) || (t.goods == [] && t.pendingRecords == [])
  }

  lemma FlushKeepsOrForgets(cfg: Config, s: State, e: Event)
    requires Next(cfg, s, e).Some? && (e.WriteBatch? || e.DeadLetter? || e.Commit? || e.Restart?)
    ensures KeepsOrForgets(s, Next(cfg, s, e).value)
  {
  }

  lemma FlushKeepsWellFormed(cfg: Config, s: State, e: Event)
    requires GoodsAreWellFormed(cfg, s) && Next(cfg, s, e).Some?
    requires e.WriteBatch? || e.DeadLetter? || e.Commit? || e.Restart?
    ensures GoodsAreWellFormed(cfg, Next(cfg, s, e).value)
  {
    FlushKeepsOrForgets(cfg, s, e);
  }

  lemma ControlKeepsWellFormed(cfg: Config, s: State, e: Event)
    requires GoodsAreWellFormed(cfg, s) && Next(cfg, s, e).Some?
    requires e.Begin? || e.Cancel? || e.Stop? || e.Poll? || e.EndOfFetch? || e.Tick? || e.Shutdown?
    ensures GoodsAreWellFormed(cfg, Next(cfg, s, e).value)
  {
  }

  lemma StepKeepsWellFormed(cfg: Config, s: State, e: Event)
    requires GoodsAreWellFormed(cfg, s) && Next(cfg, s, e).Some?
    requires e.Poison? ==> cfg.decode(e.record.value).None?
    ensures GoodsAreWellFormed(cfg, Next(cfg, s, e).value)
  {
    if e.Decoded? || e.Poison? {
      DrainKeepsWellFormed(cfg, s, e);
    } else if e.WriteBatch? || e.DeadLetter? || e.Commit? || e.Restart? {
      FlushKeepsWellFormed(cfg, s, e);
    } else {
      ControlKeepsWellFormed(cfg, s, e);
    }
  }

  lemma {:induction false} WellFormedHolds(cfg: Config, start: Offsets, es: seq<Event>, s: State)
    requires Run(cfg, start, es, s) && PoisonsOnlyUndecodable(cfg, es)
    ensures GoodsAreWellFormed(cfg, s)
  {
    if es == [] {
    } else {
      assert es == Init(es) + [Last(es)];
      var m := Exec(cfg, Initial(start), Init(es)).value;
      WellFormedHolds(cfg, start, Init(es), m);
      StepKeepsWellFormed(cfg, m, Last(es));
    }
  }

  /** With failing writes, publishes and commits, and restarts, as long as only
      undecodable records are dead-lettered when drained: the pending metrics are
      the decodings of exactly the well-formed pending records, in order. */
  lemma PendingMetricsAreWellFormed(cfg: Config, start: Offsets, es: seq<Event>, s: State)
    requires Run(cfg, start, es, s) && PoisonsOnlyUndecodable(cfg, es)
    ensures var good := Filter(Decodable(cfg.decode), s.pendingRecords);
      && |s.pendingMetrics| == |good|
      && forall i :: 0 <= i < |good| ==> cfg.decode(good[i].value) == Some(s.pendingMetrics[i])
  {
    WellFormedHolds(cfg, start, es, s);
    LedgerHolds(cfg, start, es, s);
  }

  // ---- when a batch is flushed ----

  /** The batch stays below its size between polls and grows by one poll at most. */
  predicate BatchBounded(cfg: Config, s: State, n: nat) {
    match s.phase
    case Starting => s.pendingMetrics == []
    case Top => |s.pendingMetrics| < cfg.batchSize
    case Flushed => s.pendingMetrics == []
    case Draining(inbox) => |s.pendingMetrics| + |inbox| < cfg.batchSize + n
    case _ => |s.pendingMetrics| < cfg.batchSize + n
  }

  /** Event e is no cancelled end of a fetch and fetches at most n records. */
  predicate Regular(e: Event, n: nat) {
    (e.EndOfFetch? ==> !e.cancelled) && (e.Poll? ==> |e.batch| <= n)
  }

  lemma StepKeepsBatchBounded(cfg: Config, s: State, e: Event, n: nat)
    requires cfg.batchSize > 0 && BatchBounded(cfg, s, n) && Regular(e, n) && Next(cfg, s, e).Some?
    ensures BatchBounded(cfg, Next(cfg, s, e).value, n)
  {
    if e.Poll? || e.Decoded? || e.Poison? || e.EndOfFetch? {
      FetchKeepsBatchBounded(cfg, s, e, n);
    }
  }

  lemma FetchKeepsBatchBounded(cfg: Config, s: State, e: Event, n: nat)
    requires cfg.batchSize > 0 && BatchBounded(cfg, s, n) && Regular(e, n) && Next(cfg, s, e).Some?
    requires e.Poll? || e.Decoded? || e.Poison? || e.EndOfFetch?
    ensures BatchBounded(cfg, Next(cfg, s, e).value, n)
  {
  }

  /** While the context is not cancelled, at most one poll's records are pending
      beyond the batch size, and no full batch is left pending between polls. */
  lemma {:induction false} PendingIsBounded(cfg: Config, start: Offsets, es: seq<Event>, s: State, n: nat)
    requires Run(cfg, start, es, s) && cfg.batchSize > 0
    requires forall e :: e in es ==> Regular(e, n)
    ensures |s.pendingMetrics| < cfg.batchSize + n
    ensures s.phase.Top? ==> |s.pendingMetrics| < cfg.batchSize
    ensures BatchBounded(cfg, s, n)
  {
    if es == [] {
    } else {
      assert es == Init(es) + [Last(es)];
      var m := Exec(cfg, Initial(start), Init(es)).value;
      PendingIsBounded(cfg, start, Init(es), m, n);
      StepKeepsBatchBounded(cfg, m, Last(es), n);
    }
  }

  /** The clock reading that the flush interval is measured from. */
  function LastFlushAt(es: seq<Event>): Option<int> {
    if es == [] then None
    else
      match Last(es)
      case Begin(now) => Some(now)
      case Tick(now) => Some(now)
      case Restart => None
      case _ => LastFlushAt(Init(es))
  }

  /** The clock is not read, and the loop has begun if it had before. */
  predicate SameClock(s: State, t: State) {
    t.lastFlush == s.lastFlush && (t.phase.Starting? <==> s.phase.Starting?)
  }

  lemma DrainKeepsLastFlush(cfg: Config, s: State, e: Event)
    requires Next(cfg, s, e).Some? && (e.Poll? || e.Decoded? || e.Poison? || e.EndOfFetch?)
    ensures SameClock(s, Next(cfg, s, e).value)
  {
  }

  lemma StepKeepsLastFlush(cfg: Config, s: State, e: Event)
    requires Next(cfg, s, e).Some? && !e.Begin? && !e.Tick? && !e.Restart?
    ensures SameClock(s, Next(cfg, s, e).value)
  {
    if e.Poll? || e.Decoded? || e.Poison? || e.EndOfFetch? {
      DrainKeepsLastFlush(cfg, s, e);
    }
  }

  lemma {:induction false} LastFlushIsRemembered(cfg: Config, start: Offsets, es: seq<Event>, s: State)
    requires Run(cfg, start, es, s)
    ensures if s.phase.Starting? then LastFlushAt(es) == None else LastFlushAt(es) == Some(s.lastFlush)
  {
    if es == [] {
    } else {
      var m, e := Exec(cfg, Initial(start), Init(es)).value, Last(es);
      LastFlushIsRemembered(cfg, start, Init(es), m);
      if !e.Begin? && !e.Tick? && !e.Restart? {
        StepKeepsLastFlush(cfg, m, e);
      }
    }
  }

  /** When the loop goes on to its next poll without a flush and the context is
      valid, the batch is not full, and it is empty or the flush interval has not
      elapsed since the loop began or last flushed. */
  lemma NoDueBatchIsLeft(cfg: Config, start: Offsets, es: seq<Event>, s: State, now: int)
    requires Run(cfg, start, es, s) && s.phase.Top? && es != [] && Last(es) == EndOfFetch(now, false)
    ensures |s.pendingMetrics| < cfg.batchSize
    ensures LastFlushAt(es).Some?
    ensures s.pendingRecords == [] || now - LastFlushAt(es).value < cfg.flushInterval
  {
    LastFlushIsRemembered(cfg, start, es, s);
  }

  lemma EndOfFetchKeepsPending(cfg: Config, s: State, now: int, cancelled: bool)
    requires |s.goods| == |s.pendingMetrics| && (s.pendingRecords == [] ==> s.pendingMetrics == [])
    requires Next(cfg, s, EndOfFetch(now, cancelled)).Some?
    ensures var t := Next(cfg, s, EndOfFetch(now, cancelled)).value;
      && t.pendingMetrics == s.pendingMetrics && t.pendingRecords == s.pendingRecords
      && (t.phase.Top? <==> cancelled || !ShouldFlush(cfg, s, now))
  {
  }

  /** After a fetch, the loop flushes if and only if the context is valid and the
      batch is full, or some record is pending and the interval has elapsed. */
  lemma FlushesIffDue(cfg: Config, start: Offsets, es: seq<Event>, s: State, now: int, cancelled: bool)
    requires Run(cfg, start, es, s) && es != [] && Last(es) == EndOfFetch(now, cancelled)
    ensures LastFlushAt(es).Some?
    ensures !s.phase.Top? <==>
      && !cancelled
      && (|s.pendingMetrics| >= cfg.batchSize
          || (|s.pendingRecords| > 0 && now - LastFlushAt(es).value >= cfg.flushInterval))
  {
    var m := Exec(cfg, Initial(start), Init(es)).value;
    GoodsHold(cfg, start, Init(es), m);
    NoRecordsNoMetrics(cfg, start, Init(es), m);
    LastFlushIsRemembered(cfg, start, es, s);
    LastFlushIsRemembered(cfg, start, Init(es), m);
    EndOfFetchKeepsPending(cfg, m, now, cancelled);
  }
}
