// Dead-letter publishes that fail only because the context was cancelled. Run
// goes on to track such a record for commit, and Shutdown commits it under a
// fresh context: which records are lost that way, exactly.
module IngestorCancel {
  import opened Prelude
  import opened Models
  import opened Broker
  import opened IngestorProtocol
  import opened IngestorSafety
  import opened IngestorOnce
  import opened IngestorLoss

  // ---- runs whose dead-letter publishes fail only under cancellation ----

  predicate PublishFails(e: Event) {
    (e.Poison? || e.DeadLetter?) && e.publish.PublishFailed?
  }

  /** Under a valid context publishes succeed; under a cancelled one no commit lands. */
  predicate Ordinary(s: State, e: Event) {
    && (PublishFails(e) ==> s.cancelled)
    && (e.Commit? && s.cancelled ==> e.commit == CommitFailed({}))
  }

  ghost predicate OrdinaryEvents(cfg: Config, start: Offsets, es: seq<Event>)
    requires Exec(cfg, Initial(start), es).Some?
  {
    es == []
    || (OrdinaryEvents(cfg, start, Init(es)) && Ordinary(Exec(cfg, Initial(start), Init(es)).value, Last(es)))
  }

  /** The state in which the running process started. */
  function AtStart(cfg: Config, start: Offsets, es: seq<Event>): State
    requires Exec(cfg, Initial(start), es).Some?
  {
    if es == [] then Initial(start)
    else if Last(es).Restart? then Exec(cfg, Initial(start), es).value
    else AtStart(cfg, start, Init(es))
  }

  function DroppedAfter(dropped: set<Record>, e: Event): set<Record> {
    match e
    case Poison(r, publish) => if PublishLanded(publish) then dropped else dropped + {r}
    case DeadLetter(r, publish) => if PublishLanded(publish) then dropped - {r} else dropped
    case Restart => {}
    case _ => dropped
  }

  /** The records the running process could not decode and whose dead-letter
      publishes have all failed to land. */
  function Dropped(es: seq<Event>): set<Record> {
    if es == [] then {} else DroppedAfter(Dropped(Init(es)), Last(es))
  }

  // ---- one process drains each record once ----

  ghost predicate HandledOk(cfg: Config, s: State, from: Offsets) {
    Fetch(cfg.log, from, s.handled + Inbox(s)) && s.position == AdvanceAll(from, s.handled + Inbox(s))
  }

  lemma DrainKeepsHandled(cfg: Config, s: State, e: Event, from: Offsets)
    requires HandledOk(cfg, s, from) && Next(cfg, s, e).Some? && (e.Decoded? || e.Poison?)
    ensures HandledOk(cfg, Next(cfg, s, e).value, from)
  {
    HeadMoves(s.handled, Inbox(s));
  }

  lemma PollKeepsHandled(cfg: Config, s: State, batch: seq<Record>, from: Offsets)
    requires HandledOk(cfg, s, from) && Next(cfg, s, Poll(batch)).Some?
    ensures HandledOk(cfg, Next(cfg, s, Poll(batch)).value, from)
  {
    assert Inbox(s) == [] && s.handled + [] == s.handled;
    FetchConcat(cfg.log, from, s.handled, batch);
    AdvanceAllConcat(from, s.handled, batch);
  }

  /** Nothing is fetched or drained. */
  predicate SameWork(s: State, t: State) {
    t.handled == s.handled && Inbox(t) == Inbox(s) && t.position == s.position
  }

  lemma FlushKeepsWork(cfg: Config, s: State, e: Event)
    requires Next(cfg, s, e).Some? && (e.WriteBatch? || e.DeadLetter? || e.Commit?)
    ensures SameWork(s, Next(cfg, s, e).value)
  {
  }

  lemma ControlKeepsWork(cfg: Config, s: State, e: Event)
    requires Next(cfg, s, e).Some?
    requires e.Begin? || e.Cancel? || e.Stop? || e.EndOfFetch? || e.Tick? || e.Shutdown?
    ensures SameWork(s, Next(cfg, s, e).value)
  {
  }

  lemma OthersKeepHandled(cfg: Config, s: State, e: Event, from: Offsets)
    requires HandledOk(cfg, s, from) && Next(cfg, s, e).Some?
    requires !e.Decoded? && !e.Poison? && !e.Poll? && !e.Restart?
    ensures HandledOk(cfg, Next(cfg, s, e).value, from)
  {
    if e.WriteBatch? || e.DeadLetter? || e.Commit? {
      FlushKeepsWork(cfg, s, e);
    } else {
      ControlKeepsWork(cfg, s, e);
    }
  }

  lemma {:induction false} HandledHolds(cfg: Config, start: Offsets, es: seq<Event>, s: State)
    requires Run(cfg, start, es, s)
    ensures HandledOk(cfg, s, AtStart(cfg, start, es).position)
  {
    if es == [] {
    } else {
      var m, e := Exec(cfg, Initial(start), Init(es)).value, Last(es);
      var from := AtStart(cfg, start, Init(es)).position;
      HandledHolds(cfg, start, Init(es), m);
      match e
      case Poll(batch) => PollKeepsHandled(cfg, m, batch, from);
      case Decoded => DrainKeepsHandled(cfg, m, e, from);
      case Poison(_, _) => DrainKeepsHandled(cfg, m, e, from);
      case Restart =>
      case _ => OthersKeepHandled(cfg, m, e, from);
    }
  }

  lemma HandledOnce(cfg: Config, start: Offsets, es: seq<Event>, s: State, r: Record)
    requires Run(cfg, start, es, s) && r in Inbox(s)
    ensures r !in s.handled
  {
    HandledHolds(cfg, start, es, s);
    FetchExact(cfg.log, AtStart(cfg, start, es).position, s.handled + Inbox(s));
    var i :| 0 <= i < |Inbox(s)| && Inbox(s)[i] == r;
    var all, n := s.handled + Inbox(s), |s.handled|;
    assert all[n + i] == r && forall j :: 0 <= j < n ==> all[j] == s.handled[j];
  }

  // ---- what becomes of one record inside a process ----

  /** Of record r: whether it was delivered when the process started and whether
      it is dropped. */
  predicate FateOk(s: State, before: bool, dropped: bool, r: Record) {
    && (dropped || r in s.pendingRecords ==> r in s.handled)
    && (r in s.goods ==> r in s.pendingRecords && !dropped)
    && (before ==> Delivered(s, r))
    && (Delivered(s, r) && (dropped || r !in s.handled) ==> before)
    && (r in s.pendingRecords && r !in s.goods ==> dropped || Delivered(s, r))
  }

  lemma DecodedKeepsFate(cfg: Config, s: State, before: bool, dropped: bool, r: Record)
    requires FateOk(s, before, dropped, r) && Next(cfg, s, Decoded).Some? && Inbox(s)[0] !in s.handled
    ensures FateOk(Next(cfg, s, Decoded).value, before, dropped, r)
  {
  }

  lemma PoisonKeepsFate(cfg: Config, s: State, x: Record, publish: Publish, before: bool, dropped: bool, r: Record)
    requires FateOk(s, before, dropped, r) && Next(cfg, s, Poison(x, publish)).Some? && x !in s.handled
    ensures FateOk(Next(cfg, s, Poison(x, publish)).value, before,
                   if x == r && !PublishLanded(publish) then true else dropped, r)
  {
  }

  lemma DeadLetterKeepsFate(
      cfg: Config, s: State, x: Record, publish: Publish, before: bool, dropped: bool, r: Record)
    requires FateOk(s, before, dropped, r) && Next(cfg, s, DeadLetter(x, publish)).Some?
    ensures FateOk(Next(cfg, s, DeadLetter(x, publish)).value, before,
                   if x == r && PublishLanded(publish) then false else dropped, r)
  {
    assert x in s.pendingRecords;
  }

  lemma LandedSources(cfg: Config, s: State, write: Write, r: Record)
    requires BatchOk(cfg, s)
    ensures r in Sources(Landed(Zip(s.goods, s.pendingMetrics), write)) ==> r in s.goods
  {
    var all := Zip(s.goods, s.pendingMetrics);
    ZipProperties(cfg, s.goods, s.pendingMetrics);
    if write.WriteFailed? {
      MaskedCount(all, write.landed);
      assert multiset(Sources(Masked(all, write.landed)))[r] <= multiset(s.goods)[r];
    }
  }

  lemma RowsKeepFate(s: State, t: State, rows: seq<Row>, before: bool, dropped: bool, r: Record)
    requires FateOk(s, before, dropped, r) && (r in Sources(rows) ==> r in s.goods)
    requires t.db == s.db + rows && t.dlq == s.dlq
    requires t.goods == s.goods && t.pendingRecords == s.pendingRecords && t.handled == s.handled
    ensures FateOk(t, before, dropped, r)
  {
    DeliveryGrows(s, t, rows, [], r);
  }

  lemma WriteKeepsFate(cfg: Config, s: State, write: Write, before: bool, dropped: bool, r: Record)
    requires BatchOk(cfg, s) && FateOk(s, before, dropped, r) && Next(cfg, s, WriteBatch(write)).Some?
    ensures FateOk(Next(cfg, s, WriteBatch(write)).value, before, dropped, r)
  {
    WritesRows(cfg, s, write);
    WritesOnly(cfg, s, write);
    LandedSources(cfg, s, write, r);
    RowsKeepFate(s, Next(cfg, s, WriteBatch(write)).value,
                 Landed(Zip(s.goods, s.pendingMetrics), write), before, dropped, r);
  }

  /** Nothing is delivered, and what is pending stays so or is forgotten. */
  lemma QuietKeepsFate(s: State, t: State, before: bool, dropped: bool, r: Record)
    requires FateOk(s, before, dropped, r) && t.db == s.db && t.dlq == s.dlq && t.handled == s.handled
    requires (t.goods == s.goods && t.pendingRecords == s.pendingRecords) || (t.goods == [] && t.pendingRecords == [])
    ensures FateOk(t, before, dropped, r)
  {
  }

  lemma LeavingKeepsFate(cfg: Config, s: State, e: Event, before: bool, dropped: bool, r: Record)
    requires FateOk(s, before, dropped, r) && Next(cfg, s, e).Some? && (e.Commit? || e.EndOfFetch? || e.Shutdown?)
    ensures FateOk(Next(cfg, s, e).value, before, dropped, r)
  {
    QuietKeepsFate(s, Next(cfg, s, e).value, before, dropped, r);
  }

  lemma ControlKeepsFate(cfg: Config, s: State, e: Event, before: bool, dropped: bool, r: Record)
    requires FateOk(s, before, dropped, r) && Next(cfg, s, e).Some?
    requires e.Begin? || e.Cancel? || e.Stop? || e.Poll? || e.Tick?
    ensures FateOk(Next(cfg, s, e).value, before, dropped, r)
  {
    QuietKeepsFate(s, Next(cfg, s, e).value, before, dropped, r);
  }

  /** One step, when the record being drained was not drained before. */
  lemma StepKeepsFate(cfg: Config, s: State, e: Event, before: bool, dropped: set<Record>, r: Record)
    requires BatchOk(cfg, s) && FateOk(s, before, r in dropped, r) && Next(cfg, s, e).Some? && !e.Restart?
    requires forall x :: x in Inbox(s) ==> x !in s.handled
    ensures FateOk(Next(cfg, s, e).value, before, r in DroppedAfter(dropped, e), r)
  {
    match e
    case Decoded =>
      assert Inbox(s)[0] in Inbox(s);
      DecodedKeepsFate(cfg, s, before, r in dropped, r);
    case Poison(x, publish) =>
      assert x in Inbox(s);
      PoisonKeepsFate(cfg, s, x, publish, before, r in dropped, r);
    case DeadLetter(x, publish) => DeadLetterKeepsFate(cfg, s, x, publish, before, r in dropped, r);
    case WriteBatch(write) => WriteKeepsFate(cfg, s, write, before, r in dropped, r);
    case Commit(_) => LeavingKeepsFate(cfg, s, e, before, r in dropped, r);
    case EndOfFetch(_, _) => LeavingKeepsFate(cfg, s, e, before, r in dropped, r);
    case Shutdown => LeavingKeepsFate(cfg, s, e, before, r in dropped, r);
    case _ => ControlKeepsFate(cfg, s, e, before, r in dropped, r);
  }

  lemma RestartKeepsFate(cfg: Config, s: State, r: Record)
    ensures var t := Next(cfg, s, Restart).value; FateOk(t, Delivered(t, r), false, r)
  {
  }

  lemma {:induction false} FateHolds(cfg: Config, start: Offsets, es: seq<Event>, s: State, r: Record)
    requires Run(cfg, start, es, s)
    ensures FateOk(s, Delivered(AtStart(cfg, start, es), r), r in Dropped(es), r)
  {
    if es == [] {
    } else {
      var m, e := Exec(cfg, Initial(start), Init(es)).value, Last(es);
      if e.Restart? {
        RestartKeepsFate(cfg, m, r);
      } else {
        FateHolds(cfg, start, Init(es), m, r);
        LedgerHolds(cfg, start, Init(es), m);
        forall x | x in Inbox(m)
          ensures x !in m.handled
        {
          HandledOnce(cfg, start, Init(es), m, x);
        }
        StepKeepsFate(cfg, m, e, Delivered(AtStart(cfg, start, Init(es)), r), Dropped(Init(es)), r);
      }
    }
  }

  // ---- a valid context delivers what it can ----

  /** Under a valid context flush delivers each record before it commits it, and
      only a cancelled context drops records before the last flush. */
  predicate ValidOk(s: State, dropped: set<Record>) {
    && (dropped != {} ==> s.cancelled || s.final)
    && (!s.cancelled ==>
          match s.phase
          case DeadLettering(k) =>
            k <= |s.pendingRecords| && forall i :: 0 <= i < k ==> Delivered(s, s.pendingRecords[i])
          case Committing => forall r :: r in s.goods ==> Delivered(s, r)
          case _ => true)
  }

  lemma DeadLetterKeepsValid(cfg: Config, s: State, x: Record, publish: Publish, dropped: set<Record>)
    requires ValidOk(s, dropped) && Next(cfg, s, DeadLetter(x, publish)).Some?
    requires forall r :: r in s.goods ==> r in s.pendingRecords
    requires publish.PublishFailed? ==> s.cancelled
    ensures ValidOk(Next(cfg, s, DeadLetter(x, publish)).value, DroppedAfter(dropped, DeadLetter(x, publish)))
  {
    var t := Next(cfg, s, DeadLetter(x, publish)).value;
    assert forall r :: Delivered(s, r) ==> Delivered(t, r);
    assert publish.Sent? ==> Delivered(t, x);
  }

  lemma WriteKeepsValid(cfg: Config, s: State, write: Write, dropped: set<Record>)
    requires BatchOk(cfg, s) && ValidOk(s, dropped) && Next(cfg, s, WriteBatch(write)).Some?
    ensures ValidOk(Next(cfg, s, WriteBatch(write)).value, dropped)
  {
    WritesRows(cfg, s, write);
    WritesOnly(cfg, s, write);
    LandedRows(cfg, s, write);
  }

  lemma PoisonKeepsValid(cfg: Config, s: State, x: Record, publish: Publish, dropped: set<Record>)
    requires ValidOk(s, dropped) && Next(cfg, s, Poison(x, publish)).Some?
    requires publish.PublishFailed? ==> s.cancelled
    ensures ValidOk(Next(cfg, s, Poison(x, publish)).value, DroppedAfter(dropped, Poison(x, publish)))
  {
  }

  lemma EnterKeepsValid(cfg: Config, s: State, e: Event, dropped: set<Record>)
    requires |s.goods| == |s.pendingMetrics| && ValidOk(s, dropped)
    requires Next(cfg, s, e).Some? && (e.EndOfFetch? || e.Shutdown?)
    ensures ValidOk(Next(cfg, s, e).value, dropped)
  {
  }

  lemma ControlKeepsValid(cfg: Config, s: State, e: Event, dropped: set<Record>)
    requires ValidOk(s, dropped) && Next(cfg, s, e).Some?
    requires e.Begin? || e.Cancel? || e.Stop? || e.Poll? || e.Decoded? || e.Tick? || e.Commit?
    ensures ValidOk(Next(cfg, s, e).value, dropped)
  {
  }

  lemma StepKeepsValid(cfg: Config, s: State, e: Event, dropped: set<Record>)
    requires BatchOk(cfg, s) && ValidOk(s, dropped) && Next(cfg, s, e).Some? && Ordinary(s, e)
    requires forall r :: r in s.goods ==> r in s.pendingRecords
    ensures ValidOk(Next(cfg, s, e).value, DroppedAfter(dropped, e))
  {
    match e
    case DeadLetter(x, publish) => DeadLetterKeepsValid(cfg, s, x, publish, dropped);
    case WriteBatch(write) => WriteKeepsValid(cfg, s, write, dropped);
    case Poison(x, publish) => PoisonKeepsValid(cfg, s, x, publish, dropped);
    case EndOfFetch(_, _) => EnterKeepsValid(cfg, s, e, dropped);
    case Shutdown => EnterKeepsValid(cfg, s, e, dropped);
    case Restart =>
    case _ => ControlKeepsValid(cfg, s, e, dropped);
  }

  lemma {:induction false} ValidHolds(cfg: Config, start: Offsets, es: seq<Event>, s: State)
    requires Run(cfg, start, es, s) && OrdinaryEvents(cfg, start, es)
    ensures ValidOk(s, Dropped(es))
  {
    if es == [] {
    } else {
      var m, e := Exec(cfg, Initial(start), Init(es)).value, Last(es);
      ValidHolds(cfg, start, Init(es), m);
      GoodsHold(cfg, start, Init(es), m);
      StepKeepsValid(cfg, m, e, Dropped(Init(es)));
    }
  }

  // ---- what a commit loses ----

  /** When flush commits under a valid context, a pending record is undelivered
      exactly if this process dropped it and no earlier one had delivered it. */
  lemma UndeliveredIffDropped(cfg: Config, start: Offsets, es: seq<Event>, s: State, r: Record)
    requires Run(cfg, start, es, s) && OrdinaryEvents(cfg, start, es)
    requires s.phase.Committing? && !s.cancelled && r in s.pendingRecords
    ensures !Delivered(s, r) <==> r in Dropped(es) && !Delivered(AtStart(cfg, start, es), r)
  {
    FateHolds(cfg, start, es, s, r);
    ValidHolds(cfg, start, es, s);
  }

  /** The process that has run before loses r by the commit: it is Shutdown's, it
      lands on r's partition, and r is pending though this process dropped it and
      no earlier one had delivered it. */
  ghost predicate Loses(cfg: Config, start: Offsets, before: seq<Event>, commit: CommitOutcome, r: Record) {
    var s := Exec(cfg, Initial(start), before);
    && s.Some? && s.value.phase.Committing? && s.value.final
    && r in s.value.pendingRecords && LandedOn(commit, r.partition)
    && r in Dropped(before) && !Delivered(AtStart(cfg, start, before), r)
  }

  ghost predicate LosesAt(cfg: Config, start: Offsets, es: seq<Event>, n: nat, r: Record) {
    n < |es| && es[n].Commit? && Loses(cfg, start, es[..n], es[n].commit, r)
  }

  /** Committed, undelivered, and out of the process's memory: gone for good. */
  predicate Gone(s: State, r: Record) {
    && Below(s.committed, r) && Below(s.position, r) && !Delivered(s, r)
    && r !in s.pendingRecords && r !in Inbox(s)
  }

  lemma LosingCommit(cfg: Config, start: Offsets, before: seq<Event>, m: State, commit: CommitOutcome, r: Record)
    requires Run(cfg, start, before, m) && Loses(cfg, start, before, commit, r)
    ensures Gone(Next(cfg, m, Commit(commit)).value, r)
  {
    FateHolds(cfg, start, before, m, r);
    LedgerHolds(cfg, start, before, m);
    FlushIsFetch(cfg, start, before, m);
    PassedIff(cfg.log, m.committed, m.pendingRecords, commit, r);
    CommitStep(cfg, m, commit);
    assert r in m.pendingRecords + Inbox(m);
    LeavesNothing(cfg, m, commit);
  }

  lemma LeavesNothing(cfg: Config, s: State, commit: CommitOutcome)
    requires s.phase.Committing?
    ensures var t := Next(cfg, s, Commit(commit)).value;
      t.pendingRecords == [] && Inbox(t) == [] && t.position == s.position
  {
  }

  // ---- gone for good ----

  lemma PollKeepsGone(cfg: Config, s: State, batch: seq<Record>, r: Record)
    requires LogOk(cfg.log) && Gone(s, r) && Next(cfg, s, Poll(batch)).Some?
    ensures Gone(Next(cfg, s, Poll(batch)).value, r)
  {
    FetchExact(cfg.log, s.position, batch);
    FetchMoves(cfg.log, s.position, batch);
  }

  lemma DecodedKeepsGone(cfg: Config, s: State, r: Record)
    requires Gone(s, r) && Next(cfg, s, Decoded).Some?
    ensures Gone(Next(cfg, s, Decoded).value, r)
  {
    assert Inbox(s) == [Inbox(s)[0]] + Inbox(Next(cfg, s, Decoded).value);
  }

  lemma PoisonKeepsGone(cfg: Config, s: State, x: Record, publish: Publish, r: Record)
    requires Gone(s, r) && Next(cfg, s, Poison(x, publish)).Some?
    ensures Gone(Next(cfg, s, Poison(x, publish)).value, r)
  {
    assert Inbox(s) == [x] + Inbox(Next(cfg, s, Poison(x, publish)).value);
  }

  lemma DeadLetterKeepsGone(cfg: Config, s: State, x: Record, publish: Publish, r: Record)
    requires Gone(s, r) && Next(cfg, s, DeadLetter(x, publish)).Some?
    ensures Gone(Next(cfg, s, DeadLetter(x, publish)).value, r)
  {
    assert x in s.pendingRecords;
  }

  lemma WriteKeepsGone(cfg: Config, s: State, write: Write, r: Record)
    requires BatchOk(cfg, s) && (r in s.goods ==> r in s.pendingRecords)
    requires Gone(s, r) && Next(cfg, s, WriteBatch(write)).Some?
    ensures Gone(Next(cfg, s, WriteBatch(write)).value, r)
  {
    var t := Next(cfg, s, WriteBatch(write)).value;
    WritesRows(cfg, s, write);
    WritesOnly(cfg, s, write);
    LandedSources(cfg, s, write, r);
    DeliveryGrows(s, t, Landed(Zip(s.goods, s.pendingMetrics), write), [], r);
    FlushKeepsWork(cfg, s, WriteBatch(write));
    OnlyCommitsCommit(cfg, s, WriteBatch(write));
  }

  lemma DrainCommitsNothing(cfg: Config, s: State, e: Event)
    requires Next(cfg, s, e).Some? && (e.Poll? || e.Decoded? || e.Poison?)
    ensures Next(cfg, s, e).value.committed == s.committed
  {
  }

  lemma EnteringCommitsNothing(cfg: Config, s: State, e: Event)
    requires Next(cfg, s, e).Some? && (e.EndOfFetch? || e.Shutdown? || e.WriteBatch? || e.DeadLetter?)
    ensures Next(cfg, s, e).value.committed == s.committed
  {
  }

  lemma OnlyCommitsCommit(cfg: Config, s: State, e: Event)
    requires Next(cfg, s, e).Some? && !e.Commit?
    ensures Next(cfg, s, e).value.committed == s.committed
  {
    if e.Poll? || e.Decoded? || e.Poison? {
      DrainCommitsNothing(cfg, s, e);
    } else if e.EndOfFetch? || e.Shutdown? || e.WriteBatch? || e.DeadLetter? {
      EnteringCommitsNothing(cfg, s, e);
    }
  }

  lemma CommitKeepsGone(cfg: Config, s: State, commit: CommitOutcome, r: Record)
    requires LogOk(cfg.log) && Fetch(cfg.log, s.committed, s.pendingRecords)
    requires Gone(s, r) && Next(cfg, s, Commit(commit)).Some?
    ensures Gone(Next(cfg, s, Commit(commit)).value, r)
  {
    CommitAdvancesIff(cfg.log, s.committed, s.pendingRecords, commit, r.partition);
    CommitStep(cfg, s, commit);
    LeavesNothing(cfg, s, commit);
  }

  lemma EnteringKeepsGone(cfg: Config, s: State, e: Event, r: Record)
    requires Gone(s, r) && Next(cfg, s, e).Some? && (e.EndOfFetch? || e.Shutdown?)
    ensures Gone(Next(cfg, s, e).value, r)
  {
    ControlKeepsWork(cfg, s, e);
    EnteringCommitsNothing(cfg, s, e);
    FlushWritesNothing(cfg, s, e);
    EnteringForgets(cfg, s, e);
    QuietKeepsGone(s, Next(cfg, s, e).value, r);
  }

  lemma EnteringForgets(cfg: Config, s: State, e: Event)
    requires Next(cfg, s, e).Some? && (e.EndOfFetch? || e.Shutdown?)
    ensures var t := Next(cfg, s, e).value;
      t.dlq == s.dlq && (t.pendingRecords == s.pendingRecords || t.pendingRecords == [])
  {
  }

  lemma QuietKeepsGone(s: State, t: State, r: Record)
    requires Gone(s, r) && SameWork(s, t) && t.committed == s.committed && t.db == s.db && t.dlq == s.dlq
    requires t.pendingRecords == s.pendingRecords || t.pendingRecords == []
    ensures Gone(t, r)
  {
  }

  lemma ControlKeepsGone(cfg: Config, s: State, e: Event, r: Record)
    requires Gone(s, r) && Next(cfg, s, e).Some?
    requires e.Begin? || e.Cancel? || e.Stop? || e.Tick? || e.Restart?
    ensures Gone(Next(cfg, s, e).value, r)
  {
  }

  lemma StepKeepsGone(cfg: Config, start: Offsets, es: seq<Event>, s: State, e: Event, r: Record)
    requires Run(cfg, start, es, s) && Gone(s, r) && Next(cfg, s, e).Some?
    ensures Gone(Next(cfg, s, e).value, r)
  {
    match e
    case Poll(batch) => PollKeepsGone(cfg, s, batch, r);
    case Decoded => DecodedKeepsGone(cfg, s, r);
    case Poison(x, publish) => PoisonKeepsGone(cfg, s, x, publish, r);
    case DeadLetter(x, publish) => DeadLetterKeepsGone(cfg, s, x, publish, r);
    case WriteBatch(write) =>
      GoodsHold(cfg, start, es, s);
      WriteKeepsGone(cfg, s, write, r);
    case Commit(commit) =>
      FlushIsFetch(cfg, start, es, s);
      CommitKeepsGone(cfg, s, commit, r);
    case EndOfFetch(_, _) => EnteringKeepsGone(cfg, s, e, r);
    case Shutdown => EnteringKeepsGone(cfg, s, e, r);
    case _ => ControlKeepsGone(cfg, s, e, r);
  }

  lemma {:induction false} LostStaysLost(cfg: Config, start: Offsets, es: seq<Event>, s: State, n: nat, r: Record)
    requires Run(cfg, start, es, s) && LosesAt(cfg, start, es, n, r)
    ensures Gone(s, r)
  {
    var m, e := Exec(cfg, Initial(start), Init(es)).value, Last(es);
    if n == |es| - 1 {
      LosingCommit(cfg, start, Init(es), m, e.commit, r);
    } else {
      assert Init(es)[..n] == es[..n] && Init(es)[n] == es[n];
      LostStaysLost(cfg, start, Init(es), m, n, r);
      StepKeepsGone(cfg, start, Init(es), m, e, r);
    }
  }

  // ---- exactly which records are lost ----

  lemma DeliveredStays(cfg: Config, s: State, e: Event, r: Record)
    requires Next(cfg, s, e).Some? && Delivered(s, r)
    ensures Delivered(Next(cfg, s, e).value, r)
  {
    if e.WriteBatch? {
      WritesRows(cfg, s, e.write);
      WritesOnly(cfg, s, e.write);
      DeliveryGrows(s, Next(cfg, s, e).value, Landed(Zip(s.goods, s.pendingMetrics), e.write), [], r);
    } else {
      OnlyWritesGrowDb(cfg, s, e);
      TopicGrows(cfg, s, e, r);
    }
  }

  lemma TopicStays(cfg: Config, s: State, e: Event)
    requires Next(cfg, s, e).Some? && !e.WriteBatch? && !e.Poison? && !e.DeadLetter?
    ensures Next(cfg, s, e).value.dlq == s.dlq
  {
  }

  lemma TopicGrows(cfg: Config, s: State, e: Event, r: Record)
    requires Next(cfg, s, e).Some? && !e.WriteBatch?
    ensures r in s.dlq ==> r in Next(cfg, s, e).value.dlq
  {
    if !e.Poison? && !e.DeadLetter? {
      TopicStays(cfg, s, e);
    }
  }

  /** A commit that newly covers an undelivered record loses it. */
  lemma CommitLoses(cfg: Config, start: Offsets, before: seq<Event>, m: State, commit: CommitOutcome, r: Record)
    requires Run(cfg, start, before, m) && OrdinaryEvents(cfg, start, before) && m.phase.Committing?
    requires Ordinary(m, Commit(commit)) && r in cfg.log && !Below(m.committed, r) && !Delivered(m, r)
    requires Below(CommitRecords(m.committed, m.pendingRecords, commit), r)
    ensures Loses(cfg, start, before, commit, r)
  {
    FlushIsFetch(cfg, start, before, m);
    CommitAdvancesIff(cfg.log, m.committed, m.pendingRecords, commit, r.partition);
    CommitCovers(cfg.log, m.committed, m.pendingRecords, commit, r);
    assert !m.cancelled;
    UndeliveredIffDropped(cfg, start, before, m, r);
    ValidHolds(cfg, start, before, m);
  }

  /** A commit covers no record beyond those passed to it. */
  lemma CommitCovers(log: set<Record>, committed: Offsets, rs: seq<Record>, commit: CommitOutcome, r: Record)
    requires LogOk(log) && Fetch(log, committed, rs) && r in log && !Below(committed, r)
    requires Below(CommitRecords(committed, rs, commit), r)
    ensures r in rs && LandedOn(commit, r.partition)
  {
    CommitReachesPosition(log, committed, rs);
    CommitOverwrites(committed, rs, commit, r.partition);
    CommitOverwrites(committed, rs, Committed, r.partition);
    FetchExact(log, committed, rs);
  }

  lemma {:induction false} LostWasLosing(cfg: Config, start: Offsets, es: seq<Event>, s: State, r: Record)
      returns (n: nat)
    requires Run(cfg, start, es, s) && OrdinaryEvents(cfg, start, es) && r in cfg.log && !Below(start, r)
    requires Below(s.committed, r) && !Delivered(s, r)
    ensures LosesAt(cfg, start, es, n, r)
  {
    var before, e := Init(es), Last(es);
    var m := Exec(cfg, Initial(start), before).value;
    if Delivered(m, r) {
      DeliveredStays(cfg, m, e, r);
    } else if Below(m.committed, r) {
      n := LostWasLosing(cfg, start, before, m, r);
      assert before[..n] == es[..n] && before[n] == es[n];
    } else {
      n := |es| - 1;
      if e.Commit? {
        CommitStep(cfg, m, e.commit);
        CommitLoses(cfg, start, before, m, e.commit, r);
      } else {
        OnlyCommitsCommit(cfg, m, e);
      }
    }
  }

  /** When dead-letter publishes fail only under a cancelled context, and no commit
      lands under one: exactly those committed records are lost that a process
      dropped, with no landed publish or row by it or an earlier one, and then
      committed in Shutdown's flush. */
  lemma LostIff(cfg: Config, start: Offsets, es: seq<Event>, s: State, r: Record)
    requires Run(cfg, start, es, s) && OrdinaryEvents(cfg, start, es) && r in cfg.log && !Below(start, r)
    ensures Below(s.committed, r) && !Delivered(s, r) <==> exists n :: LosesAt(cfg, start, es, n, r)
  {
    if Below(s.committed, r) && !Delivered(s, r) {
      var n := LostWasLosing(cfg, start, es, s, r);
    }
    if n :| LosesAt(cfg, start, es, n, r) {
      LostStaysLost(cfg, start, es, s, n, r);
    }
  }

  // ---- a run that loses a record ----

  /** A run of the first process, from the start of the log. */
  ghost predicate FirstRun(cfg: Config, es: seq<Event>, s: State) {
    && Run(cfg, map[], es, s) && OrdinaryEvents(cfg, map[], es)
    && AtStart(cfg, map[], es) == Initial(map[])
  }

  lemma FirstRunSnoc(cfg: Config, es: seq<Event>, s: State, e: Event, t: State)
    requires FirstRun(cfg, es, s) && Next(cfg, s, e) == Some(t) && Ordinary(s, e) && !e.Restart?
    ensures FirstRun(cfg, es + [e], t) && Dropped(es + [e]) == DroppedAfter(Dropped(es), e)
  {
    assert Init(es + [e]) == es;
  }

  lemma PollsAlone(cfg: Config, r: Record) returns (s: State)
    requires cfg.log == {r} && r.offset >= 0
    ensures FirstRun(cfg, [Begin(0)] + [Poll([r])], s) && Dropped([Begin(0)] + [Poll([r])]) == {}
    ensures s == Initial(map[]).(phase := Draining([r]), position := AdvanceAll(map[], [r]))
  {
    assert NextUp(cfg.log, map[], r) && Init([r]) == [] && AdvanceAll(map[], []) == map[];
    assert Fetch(cfg.log, map[], []) && Fetch(cfg.log, map[], [r]);
    var s0 := Initial(map[]);
    var s1 := s0.(phase := Top);
    FirstRunSnoc(cfg, [], s0, Begin(0), s1);
    assert [] + [Begin(0)] == [Begin(0)];
    s := s1.(phase := Draining([r]), position := AdvanceAll(map[], [r]));
    FirstRunSnoc(cfg, [Begin(0)], s1, Poll([r]), s);
  }

  /** The process is cancelled, cannot decode r and cannot dead-letter it. */
  lemma DropsInFetch(cfg: Config, es: seq<Event>, s: State, r: Record) returns (t: State)
    requires FirstRun(cfg, es, s) && Dropped(es) == {}
    requires s.phase == Draining([r]) && s.pendingRecords == [] && s.runOk && s.pendingMetrics == []
    ensures var es' := es + [Cancel] + [Poison(r, PublishFailed(false))];
      FirstRun(cfg, es', t) && Dropped(es') == {r}
    ensures t.phase == Draining([]) && t.cancelled && t.runOk
    ensures t.pendingRecords == [r] && t.pendingMetrics == []
  {
    var m := s.(cancelled := true);
    FirstRunSnoc(cfg, es, s, Cancel, m);
    assert [r][1..] == [] && [] + [r] == [r];
    t := Next(cfg, m, Poison(r, PublishFailed(false))).value;
    FirstRunSnoc(cfg, es + [Cancel], m, Poison(r, PublishFailed(false)), t);
  }

  /** It stops, and Shutdown goes straight to its commit. */
  lemma ShutsDownWithDropped(cfg: Config, es: seq<Event>, s: State, r: Record) returns (t: State)
    requires FirstRun(cfg, es, s) && s.phase == Draining([]) && s.cancelled && s.runOk
    requires s.pendingRecords == [r] && s.pendingMetrics == []
    ensures var es' := es + [EndOfFetch(0, true)] + [Stop] + [Shutdown];
      FirstRun(cfg, es', t) && Dropped(es') == Dropped(es)
    ensures t.phase.Committing? && t.final && t.runOk && !t.cancelled && t.pendingRecords == [r]
  {
    var s1, s2 := s.(phase := Top), s.(phase := Returned);
    FirstRunSnoc(cfg, es, s, EndOfFetch(0, true), s1);
    FirstRunSnoc(cfg, es + [EndOfFetch(0, true)], s1, Stop, s2);
    t := s.(phase := Committing, final := true, cancelled := false);
    FirstRunSnoc(cfg, es + [EndOfFetch(0, true)] + [Stop], s2, Shutdown, t);
  }

  lemma CommitsDropped(cfg: Config, es: seq<Event>, s: State, r: Record) returns (t: State)
    requires FirstRun(cfg, es, s) && r in Dropped(es)
    requires s.phase.Committing? && s.final && s.runOk && !s.cancelled && s.pendingRecords == [r]
    ensures FirstRun(cfg, es + [Commit(Committed)], t)
    ensures CleanStop(t) && Gone(t, r)
  {
    assert !Delivered(Initial(map[]), r);
    assert Loses(cfg, map[], es, Committed, r);
    t := Next(cfg, s, Commit(Committed)).value;
    FirstRunSnoc(cfg, es, s, Commit(Committed), t);
    LosingCommit(cfg, map[], es, s, Committed, r);
  }

  /** The comment that a record that cannot be decoded has been handled by its dead
      letter, and so may be committed, fails for every record: in a run without any
      failure but that of a publish under a cancelled context, the process shuts
      down cleanly, r is committed, and r is nowhere. */
  lemma CancelledPublishLoses(cfg: Config, r: Record) returns (es: seq<Event>, s: State)
    requires cfg.log == {r} && r.offset >= 0
    ensures Run(cfg, map[], es, s) && OrdinaryEvents(cfg, map[], es)
    ensures CleanStop(s) && Below(s.committed, r) && !Delivered(s, r)
  {
    s := PollsAlone(cfg, r);
    es := [Begin(0)] + [Poll([r])];
    s := DropsInFetch(cfg, es, s, r);
    es := es + [Cancel] + [Poison(r, PublishFailed(false))];
    s := ShutsDownWithDropped(cfg, es, s, r);
    es := es + [EndOfFetch(0, true)] + [Stop] + [Shutdown];
    s := CommitsDropped(cfg, es, s, r);
    es := es + [Commit(Committed)];
  }
}
