// At-least-once delivery of the ingestor, over every run.
module IngestorSafety {
  import opened Prelude
  import opened Models
  import opened Broker
  import opened IngestorProtocol

  function Sources(rows: seq<Row>): seq<Record> {
    if rows == [] then [] else Sources(Init(rows)) + [Last(rows).source]
  }

  /** The record reached the database or the dead-letter topic. */
  predicate Delivered(s: State, r: Record) {
    r in Sources(s.db) || r in s.dlq
  }

  /** ... or a dead-letter publish of it was logged as failed. */
  predicate Accounted(s: State, r: Record) {
    Delivered(s, r) || r in s.reported
  }

  function Inbox(s: State): seq<Record> {
    if s.phase.Draining? then s.phase.inbox else []
  }

  /** pendingMetrics is the decoding of goods; the other pending records were dead-lettered. */
  predicate BatchOk(cfg: Config, s: State) {
    && |s.goods| == |s.pendingMetrics|
    && (forall i :: 0 <= i < |s.goods| ==> cfg.decode(s.goods[i].value) == Some(s.pendingMetrics[i]))
    && (forall r :: r in s.pendingRecords ==> r in s.goods || r in s.dlq || r in s.reported)
  }

  /** The good pending records are pending records, in the same order. */
  predicate InOrder(s: State) {
    Subsequence(s.goods, s.pendingRecords)
  }

  /** Rows hold the decoding of the record they came from. */
  predicate RowsOk(cfg: Config, rows: seq<Row>) {
    forall row :: row in rows ==> cfg.decode(row.source.value) == Some(row.metric)
  }

  /** Inside flush: which pending records are accounted for already. */
  predicate FlushOk(s: State) {
    match s.phase
    case Writing => s.pendingRecords != []
    case DeadLettering(k) => k < |s.pendingRecords| && forall i :: 0 <= i < k ==> Accounted(s, s.pendingRecords[i])
    case Committing => s.pendingRecords != [] && forall r :: r in s.pendingRecords ==> Accounted(s, r)
    case _ => true
  }

  ghost predicate Ledger(cfg: Config, start: Offsets, s: State) {
    && BatchOk(cfg, s)
    && InOrder(s)
    && RowsOk(cfg, s.db)
    && FlushOk(s)
    && (forall r :: r in s.pendingRecords + Inbox(s) ==> Below(s.position, r))
    && (forall r :: r in cfg.log && !Below(start, r) && Below(s.position, r) ==>
          r in Inbox(s) || r in s.pendingRecords || Accounted(s, r))
    && (forall r :: r in cfg.log && !Below(start, r) && Below(s.committed, r) ==> Accounted(s, r))
  }

  lemma {:induction false} SourcesConcat(a: seq<Row>, b: seq<Row>)
    ensures Sources(a + b) == Sources(a) + Sources(b)
  {
    if b == [] {
      assert a + b == a;
    } else {
      SourcesConcat(a, Init(b));
      assert Init(a + b) == a + Init(b);
    }
  }

  lemma {:induction false} ZipProperties(cfg: Config, rs: seq<Record>, ms: seq<DeviceMetric>)
    requires |rs| == |ms|
    requires forall i :: 0 <= i < |rs| ==> cfg.decode(rs[i].value) == Some(ms[i])
    ensures Sources(Zip(rs, ms)) == rs && RowsOk(cfg, Zip(rs, ms))
  {
    if rs == [] {
    } else {
      ZipProperties(cfg, Init(rs), Init(ms));
    }
  }

  lemma {:induction false} MaskedMembers(rows: seq<Row>, mask: seq<bool>)
    ensures forall row :: row in Masked(rows, mask) ==> row in rows
  {
    if rows == [] {
    } else {
      MaskedMembers(Init(rows), mask);
      assert rows == Init(rows) + [Last(rows)];
    }
  }

  lemma LandedRows(cfg: Config, s: State, write: Write)
    requires BatchOk(cfg, s)
    ensures var rows := Landed(Zip(s.goods, s.pendingMetrics), write);
      && RowsOk(cfg, rows)
      && Sources(s.db + rows) == Sources(s.db) + Sources(rows)
      && (write.Written? ==> Sources(rows) == s.goods)
  {
    var all := Zip(s.goods, s.pendingMetrics);
    ZipProperties(cfg, s.goods, s.pendingMetrics);
    SourcesConcat(s.db, Landed(all, write));
    if write.WriteFailed? {
      MaskedMembers(all, write.landed);
    }
  }

  /** What a commit newly passes was accounted for before it. */
  lemma CommitIsCovered(cfg: Config, start: Offsets, s: State, outcome: CommitOutcome)
    requires Ledger(cfg, start, s) && s.phase.Committing?
    ensures var c := CommitRecords(s.committed, s.pendingRecords, outcome);
      forall r :: r in cfg.log && !Below(start, r) && Below(c, r) ==> Accounted(s, r)
  {
    var c := CommitRecords(s.committed, s.pendingRecords, outcome);
    forall r | r in cfg.log && !Below(start, r) && Below(c, r)
      ensures Accounted(s, r)
    {
      CommitPassesRecord(s.committed, s.pendingRecords, outcome, r.partition);
      if At(c, r.partition) != At(s.committed, r.partition) {
        var q :| q in s.pendingRecords && q.partition == r.partition && q.offset + 1 == At(c, r.partition);
        assert q in s.pendingRecords + Inbox(s);
        assert Below(s.position, r);
      }
    }
  }

  lemma PublishAccounts(s: State, r: Record, publish: Publish)
    ensures var t := Publishes(s, r, publish);
      Accounted(t, r) && forall q :: Accounted(s, q) ==> Accounted(t, q)
  {
  }

  lemma PollKeepsLedger(cfg: Config, start: Offsets, s: State, batch: seq<Record>)
    requires LogOk(cfg.log) && Ledger(cfg, start, s) && Next(cfg, s, Poll(batch)).Some?
    ensures Ledger(cfg, start, Next(cfg, s, Poll(batch)).value)
  {
    FetchMoves(cfg.log, s.position, batch);
  }

  /** The head of the inbox moves to the pending records. */
  lemma MovingKeepsLedger(cfg: Config, start: Offsets, s: State, t: State)
    requires Ledger(cfg, start, s) && BatchOk(cfg, t) && InOrder(t) && Inbox(s) != []
    requires t.phase == Draining(Inbox(s)[1..]) && t.pendingRecords == s.pendingRecords + [Inbox(s)[0]]
    requires t.position == s.position && t.committed == s.committed && t.db == s.db
    requires forall r :: Accounted(s, r) ==> Accounted(t, r)
    ensures Ledger(cfg, start, t)
  {
    assert Inbox(s) == [Inbox(s)[0]] + Inbox(t);
    assert forall r :: r in t.pendingRecords + Inbox(t) ==> r in s.pendingRecords + Inbox(s);
  }

  lemma DecodedKeepsBatch(cfg: Config, s: State)
    requires BatchOk(cfg, s) && InOrder(s) && Next(cfg, s, Decoded).Some?
    ensures BatchOk(cfg, Next(cfg, s, Decoded).value) && InOrder(Next(cfg, s, Decoded).value)
  {
    SubsequenceTake(s.goods, s.pendingRecords, Inbox(s)[0]);
  }

  lemma DecodedKeepsLedger(cfg: Config, start: Offsets, s: State)
    requires Ledger(cfg, start, s) && Next(cfg, s, Decoded).Some?
    ensures Ledger(cfg, start, Next(cfg, s, Decoded).value)
  {
    DecodedKeepsBatch(cfg, s);
    MovingKeepsLedger(cfg, start, s, Next(cfg, s, Decoded).value);
  }

  lemma PoisonKeepsLedger(cfg: Config, start: Offsets, s: State, r: Record, publish: Publish)
    requires Ledger(cfg, start, s) && Next(cfg, s, Poison(r, publish)).Some?
    ensures Ledger(cfg, start, Next(cfg, s, Poison(r, publish)).value)
  {
    SubsequenceSkip(s.goods, s.pendingRecords, r);
    PublishAccounts(s, r, publish);
    MovingKeepsLedger(cfg, start, s, Next(cfg, s, Poison(r, publish)).value);
  }

  lemma GrowingDbKeepsLedger(cfg: Config, start: Offsets, s: State, rows: seq<Row>)
    requires Ledger(cfg, start, s) && RowsOk(cfg, rows)
    ensures Ledger(cfg, start, s.(db := s.db + rows))
  {
    var t := s.(db := s.db + rows);
    SourcesConcat(s.db, rows);
    assert forall r :: Accounted(s, r) ==> Accounted(t, r);
  }

  lemma WriteKeepsLedger(cfg: Config, start: Offsets, s: State, write: Write)
    requires Ledger(cfg, start, s) && Next(cfg, s, WriteBatch(write)).Some?
    ensures Ledger(cfg, start, Next(cfg, s, WriteBatch(write)).value)
  {
    LandedRows(cfg, s, write);
    var rows := Landed(Zip(s.goods, s.pendingMetrics), write);
    GrowingDbKeepsLedger(cfg, start, s, rows);
    LeavingWriteKeepsLedger(cfg, start, s.(db := s.db + rows), write.Written?);
  }

  lemma LeavingWriteKeepsLedger(cfg: Config, start: Offsets, s: State, written: bool)
    requires Ledger(cfg, start, s) && s.phase.Writing?
    requires written ==> forall r :: r in s.goods ==> r in Sources(s.db)
    ensures Ledger(cfg, start, s.(phase := if written then Committing else DeadLettering(0)))
  {
    var t := s.(phase := if written then Committing else DeadLettering(0));
    assert forall r :: Accounted(s, r) <==> Accounted(t, r);
  }

  lemma DeadLetterKeepsLedger(cfg: Config, start: Offsets, s: State, r: Record, publish: Publish)
    requires Ledger(cfg, start, s) && Next(cfg, s, DeadLetter(r, publish)).Some?
    ensures Ledger(cfg, start, Next(cfg, s, DeadLetter(r, publish)).value)
  {
    var t := Next(cfg, s, DeadLetter(r, publish)).value;
    PublishAccounts(s, r, publish);
    assert forall r :: Accounted(s, r) ==> Accounted(t, r);
    assert FlushOk(t);
  }

  lemma CommitKeepsLedger(cfg: Config, start: Offsets, s: State, outcome: CommitOutcome)
    requires Ledger(cfg, start, s) && Next(cfg, s, Commit(outcome)).Some?
    ensures Ledger(cfg, start, Next(cfg, s, Commit(outcome)).value)
  {
    CommitIsCovered(cfg, start, s, outcome);
  }

  /** Nothing is delivered, and the pending batch stays or is forgotten empty. */
  lemma EnteringKeepsLedger(cfg: Config, start: Offsets, s: State, t: State)
    requires Ledger(cfg, start, s) && Inbox(s) == [] && Inbox(t) == [] && BatchOk(cfg, t) && FlushOk(t)
    requires t.goods == s.goods || t.goods == []
    requires t.pendingRecords == s.pendingRecords
    requires t.position == s.position && t.committed == s.committed
    requires t.db == s.db && t.dlq == s.dlq && t.reported == s.reported
    ensures Ledger(cfg, start, t)
  {
    assert forall r :: Accounted(s, r) <==> Accounted(t, r);
  }

  lemma EnterFlushKeepsLedger(cfg: Config, start: Offsets, s: State)
    requires Ledger(cfg, start, s) && Inbox(s) == []
    ensures Ledger(cfg, start, EnterFlush(s))
  {
    EnteringKeepsLedger(cfg, start, s, EnterFlush(s));
  }

  lemma RestartKeepsLedger(cfg: Config, start: Offsets, s: State)
    requires Ledger(cfg, start, s)
    ensures Ledger(cfg, start, Next(cfg, s, Restart).value)
  {
    var t := Next(cfg, s, Restart).value;
    assert forall r :: Accounted(s, r) <==> Accounted(t, r);
  }

  /** Moving between phases that are not inside flush. */
  lemma PhaseKeepsLedger(cfg: Config, start: Offsets, s: State, t: State)
    requires Ledger(cfg, start, s) && t == s.(phase := t.phase, lastFlush := t.lastFlush, cancelled := t.cancelled)
    requires t.phase == s.phase || (Inbox(s) == [] && (t.phase.Top? || t.phase.Returned?))
    ensures Ledger(cfg, start, t)
  {
    assert forall r :: Accounted(s, r) <==> Accounted(t, r);
  }

  lemma EndOfFetchKeepsLedger(cfg: Config, start: Offsets, s: State, e: Event)
    requires Ledger(cfg, start, s) && Next(cfg, s, e).Some? && e.EndOfFetch?
    ensures Ledger(cfg, start, Next(cfg, s, e).value)
  {
    if Next(cfg, s, e).value.phase.Top? {
      PhaseKeepsLedger(cfg, start, s, Next(cfg, s, e).value);
    } else {
      EnterFlushKeepsLedger(cfg, start, s);
    }
  }

  lemma ShutdownKeepsLedger(cfg: Config, start: Offsets, s: State)
    requires Ledger(cfg, start, s) && Next(cfg, s, Shutdown).Some?
    ensures Ledger(cfg, start, Next(cfg, s, Shutdown).value)
  {
    var t := s.(final := true, cancelled := false);
    assert forall r :: Accounted(s, r) <==> Accounted(t, r);
    EnterFlushKeepsLedger(cfg, start, t);
  }

  lemma ControlKeepsLedger(cfg: Config, start: Offsets, s: State, e: Event)
    requires Ledger(cfg, start, s) && Next(cfg, s, e).Some? && (e.Begin? || e.Cancel? || e.Stop? || e.Tick?)
    ensures Ledger(cfg, start, Next(cfg, s, e).value)
  {
    PhaseKeepsLedger(cfg, start, s, Next(cfg, s, e).value);
  }

  lemma StepKeepsLedger(cfg: Config, start: Offsets, s: State, e: Event)
    requires LogOk(cfg.log) && Ledger(cfg, start, s) && Next(cfg, s, e).Some?
    ensures Ledger(cfg, start, Next(cfg, s, e).value)
  {
    match e
    case Poll(batch) => PollKeepsLedger(cfg, start, s, batch);
    case Decoded => DecodedKeepsLedger(cfg, start, s);
    case Poison(record, publish) => PoisonKeepsLedger(cfg, start, s, record, publish);
    case EndOfFetch(_, _) => EndOfFetchKeepsLedger(cfg, start, s, e);
    case Shutdown => ShutdownKeepsLedger(cfg, start, s);
    case WriteBatch(write) => WriteKeepsLedger(cfg, start, s, write);
    case DeadLetter(record, publish) => DeadLetterKeepsLedger(cfg, start, s, record, publish);
    case Commit(outcome) => CommitKeepsLedger(cfg, start, s, outcome);
    case Restart => RestartKeepsLedger(cfg, start, s);
    case _ => ControlKeepsLedger(cfg, start, s, e);
  }

  lemma {:induction false} LedgerHolds(cfg: Config, start: Offsets, es: seq<Event>, s: State)
    requires Run(cfg, start, es, s)
    ensures Ledger(cfg, start, s)
  {
    if es == [] {
    } else {
      var m := Exec(cfg, Initial(start), Init(es)).value;
      LedgerHolds(cfg, start, Init(es), m);
      StepKeepsLedger(cfg, start, m, Last(es));
    }
  }

  /** No record is skipped: at every step of every run, a record below its
      partition's committed offset (and not below where the group started) is in
      the database, in the dead-letter topic, or was reported as a failed
      dead-letter publish; a record merely fetched may instead still be pending. */
  lemma AtLeastOnce(cfg: Config, start: Offsets, es: seq<Event>, s: State, r: Record)
    requires Run(cfg, start, es, s) && r in cfg.log && !Below(start, r)
    ensures Below(s.committed, r) ==> Accounted(s, r)
    ensures Below(s.position, r) ==> r in Inbox(s) || r in s.pendingRecords || Accounted(s, r)
    ensures forall row :: row in s.db ==> cfg.decode(row.source.value) == Some(row.metric)
  {
    LedgerHolds(cfg, start, es, s);
  }

  /** When flush reaches its commit, the whole batch is accounted for. */
  lemma BatchAccountedBeforeCommit(cfg: Config, start: Offsets, es: seq<Event>, s: State)
    requires Run(cfg, start, es, s) && s.phase.Committing?
    ensures s.pendingRecords != [] && forall r :: r in s.pendingRecords ==> Accounted(s, r)
  {
    LedgerHolds(cfg, start, es, s);
  }

  /** In every run the pending metrics are the decodings, in order, of a
      subsequence of the pending records; every other pending record was
      dead-lettered when it was drained. */
  lemma PendingMetricsInOrder(cfg: Config, start: Offsets, es: seq<Event>, s: State)
    requires Run(cfg, start, es, s)
    ensures Subsequence(s.goods, s.pendingRecords) && |s.goods| == |s.pendingMetrics|
    ensures forall i :: 0 <= i < |s.goods| ==> cfg.decode(s.goods[i].value) == Some(s.pendingMetrics[i])
    ensures forall r :: r in s.pendingRecords ==> r in s.goods || r in s.dlq || r in s.reported
  {
    LedgerHolds(cfg, start, es, s);
  }
}
