// How often a record is written: positions, committed offsets and the pending
// batch move in step, so each process writes a record at most once and a clean
// shutdown leaves nothing to be written again.
module IngestorOnce {
  import opened Prelude
  import opened Models
  import opened Broker
  import opened IngestorProtocol
  import opened IngestorSafety

  /** No commit has failed in this process. */
  predicate Healthy(s: State) {
    s.runOk && s.phase != Closed(false)
  }

  /** A process that failed a commit does nothing but shut down. */
  predicate ControlOk(s: State) {
    match s.phase
    case Returned => !s.final
    case Closed(_) => s.final
    case Writing => s.runOk
    case DeadLettering(_) => s.runOk
    case Committing => s.runOk
    case _ => !s.final && s.runOk
  }

  function Held(s: State): seq<Record> {
    s.pendingRecords + Inbox(s)
  }

  /** In a healthy process the records in memory are a legal fetch from the
      committed offsets that ends at the position; after a failed commit the
      process holds nothing. */
  ghost predicate Aligned(cfg: Config, s: State) {
    && ControlOk(s)
    && (s.phase.Closed? ==> Held(s) == [] && s.goods == [])
    && (if Healthy(s) then Fetch(cfg.log, s.committed, Held(s)) && s.position == AdvanceAll(s.committed, Held(s))
        else Held(s) == [] && s.goods == [])
  }

  lemma PollKeepsAligned(cfg: Config, s: State, batch: seq<Record>)
    requires Aligned(cfg, s) && Next(cfg, s, Poll(batch)).Some?
    ensures Aligned(cfg, Next(cfg, s, Poll(batch)).value)
  {
    var t := Next(cfg, s, Poll(batch)).value;
    assert Held(s) == s.pendingRecords && Held(t) == Held(s) + batch;
    FetchConcat(cfg.log, s.committed, Held(s), batch);
    AdvanceAllConcat(s.committed, Held(s), batch);
  }

  lemma CommitKeepsAligned(cfg: Config, s: State, outcome: CommitOutcome)
    requires LogOk(cfg.log) && Aligned(cfg, s) && Next(cfg, s, Commit(outcome)).Some?
    ensures Aligned(cfg, Next(cfg, s, Commit(outcome)).value)
  {
    var t := Next(cfg, s, Commit(outcome)).value;
    assert Held(s) == s.pendingRecords && Held(t) == [];
    CommitReachesPosition(cfg.log, s.committed, Held(s));
  }

  /** What is held, where the client stands and whether it is healthy decide. */
  lemma SameHeldKeepsAligned(cfg: Config, s: State, t: State)
    requires Aligned(cfg, s) && ControlOk(t) && Healthy(s) == Healthy(t)
    requires Held(s) == Held(t) && s.position == t.position && s.committed == t.committed
    requires t.goods == [] || (Healthy(t) && !t.phase.Closed?)
    requires t.phase.Closed? ==> Held(t) == []
    ensures Aligned(cfg, t)
  {
  }

  lemma DrainKeepsHeld(cfg: Config, s: State, e: Event)
    requires Next(cfg, s, e).Some? && (e.Decoded? || e.Poison?)
    ensures Held(Next(cfg, s, e).value) == Held(s)
  {
    HeadMoves(s.pendingRecords, Inbox(s));
  }

  lemma EnterFlushKeepsAligned(cfg: Config, s: State, t: State)
    requires Aligned(cfg, s) && Inbox(s) == [] && t == EnterFlush(s.(final := t.final, cancelled := t.cancelled))
    requires (s.phase.Draining? && !t.final) || (s.phase.Returned? && t.final)
    ensures Aligned(cfg, t)
  {
    assert Held(s) == s.pendingRecords == Held(t);
    if s.pendingRecords != [] {
      SameHeldKeepsAligned(cfg, s, t);
    }
  }

  lemma DrainKeepsAligned(cfg: Config, s: State, e: Event)
    requires Aligned(cfg, s) && Next(cfg, s, e).Some? && (e.Decoded? || e.Poison?)
    ensures Aligned(cfg, Next(cfg, s, e).value)
  {
    DrainKeepsHeld(cfg, s, e);
    SameHeldKeepsAligned(cfg, s, Next(cfg, s, e).value);
  }

  lemma WriteKeepsAligned(cfg: Config, s: State, write: Write)
    requires Aligned(cfg, s) && Next(cfg, s, WriteBatch(write)).Some?
    ensures Aligned(cfg, Next(cfg, s, WriteBatch(write)).value)
  {
    SameHeldKeepsAligned(cfg, s, Next(cfg, s, WriteBatch(write)).value);
  }

  lemma DeadLetterKeepsAligned(cfg: Config, s: State, r: Record, publish: Publish)
    requires Aligned(cfg, s) && Next(cfg, s, DeadLetter(r, publish)).Some?
    ensures Aligned(cfg, Next(cfg, s, DeadLetter(r, publish)).value)
  {
    SameHeldKeepsAligned(cfg, s, Next(cfg, s, DeadLetter(r, publish)).value);
  }

  lemma ControlKeepsAligned(cfg: Config, s: State, e: Event)
    requires Aligned(cfg, s) && Next(cfg, s, e).Some?
    requires e.Begin? || e.Cancel? || e.Stop? || e.EndOfFetch? || e.Tick? || e.Shutdown?
    ensures Aligned(cfg, Next(cfg, s, e).value)
  {
    var t := Next(cfg, s, e).value;
    if e.Shutdown? || (e.EndOfFetch? && !t.phase.Top?) {
      EnterFlushKeepsAligned(cfg, s, t);
    } else {
      assert Held(t) == Held(s);
      SameHeldKeepsAligned(cfg, s, t);
    }
  }

  lemma StepKeepsAligned(cfg: Config, s: State, e: Event)
    requires LogOk(cfg.log) && Aligned(cfg, s) && Next(cfg, s, e).Some?
    ensures Aligned(cfg, Next(cfg, s, e).value)
  {
    match e
    case Poll(batch) => PollKeepsAligned(cfg, s, batch);
    case Commit(outcome) => CommitKeepsAligned(cfg, s, outcome);
    case Restart => assert Held(Next(cfg, s, e).value) == [];
    case Decoded => DrainKeepsAligned(cfg, s, e);
    case Poison(_, _) => DrainKeepsAligned(cfg, s, e);
    case WriteBatch(write) => WriteKeepsAligned(cfg, s, write);
    case DeadLetter(r, publish) => DeadLetterKeepsAligned(cfg, s, r, publish);
    case _ => ControlKeepsAligned(cfg, s, e);
  }

  lemma {:induction false} AlignedHolds(cfg: Config, start: Offsets, es: seq<Event>, s: State)
    requires Run(cfg, start, es, s)
    ensures Aligned(cfg, s)
  {
    if es == [] {
      assert Held(s) == [];
    } else {
      var m := Exec(cfg, Initial(start), Init(es)).value;
      AlignedHolds(cfg, start, Init(es), m);
      StepKeepsAligned(cfg, m, Last(es));
    }
  }

  /** When Run and Shutdown both return nil, every partition's committed offset
      is the client's position, and a restart resumes exactly there. */
  lemma CleanShutdownCommitsEverything(cfg: Config, start: Offsets, es: seq<Event>, s: State)
    requires Run(cfg, start, es, s) && CleanStop(s)
    ensures s.committed == s.position
    ensures Next(cfg, s, Restart).value.position == s.position
  {
    AlignedHolds(cfg, start, es, s);
  }

  /** Every successful commit brings the committed offsets to the position. */
  lemma CommitReachesClient(cfg: Config, start: Offsets, es: seq<Event>, s: State)
    requires Run(cfg, start, es, s) && s.phase.Committing?
    ensures CommitRecords(s.committed, s.pendingRecords, Committed) == s.position
  {
    AlignedHolds(cfg, start, es, s);
    assert Held(s) == s.pendingRecords;
    CommitReachesPosition(cfg.log, s.committed, s.pendingRecords);
  }

  lemma ControlHolds(cfg: Config, start: Offsets, es: seq<Event>, s: State)
    requires Run(cfg, start, es, s)
    ensures ControlOk(s)
  {
    AlignedHolds(cfg, start, es, s);
  }

  // ---- multiplicity in the database ----

  function Copies(s: State, r: Record): nat {
    multiset(Sources(s.db))[r]
  }

  /** This process may still write r: it has yet to fetch, drain or flush it. */
  predicate Writable(s: State, r: Record) {
    || !Below(s.position, r)
    || r in Inbox(s)
    || (r in s.goods && !s.phase.DeadLettering? && !s.phase.Committing?)
  }

  /** goods is drawn from the pending records without repetition. */
  predicate GoodsOk(s: State) {
    && Distinct(s.goods)
    && (forall r :: r in s.goods ==> r in s.pendingRecords)
  }

  /** The copies of r in the database, plus one this process may still add. */
  predicate WithinBudget(s: State, r: Record, limit: nat) {
    Copies(s, r) + (if Writable(s, r) then 1 else 0) <= limit
  }

  lemma AlignedIsDistinct(cfg: Config, s: State)
    requires LogOk(cfg.log) && Aligned(cfg, s)
    ensures Distinct(Held(s)) && forall r :: r in Held(s) ==> Below(s.position, r)
  {
    if Healthy(s) {
      FetchExact(cfg.log, s.committed, Held(s));
    }
  }

  lemma {:induction false} DistinctCount<T>(s: seq<T>, x: T)
    requires Distinct(s)
    ensures multiset(s)[x] <= 1
  {
    if s == [] {
    } else {
      DistinctCount(Init(s), x);
      assert s == Init(s) + [Last(s)];
      assert multiset(s) == multiset(Init(s)) + multiset{Last(s)};
      assert Last(s) !in Init(s);
    }
  }

  lemma {:induction false} MaskedCount(rows: seq<Row>, mask: seq<bool>)
    ensures multiset(Sources(Masked(rows, mask))) <= multiset(Sources(rows))
  {
    if rows == [] {
    } else {
      MaskedCount(Init(rows), mask);
      SourcesConcat(Masked(Init(rows), mask), [Last(rows)]);
      assert Sources([Last(rows)]) == [] + [Last(rows).source];
      assert Masked(Init(rows), mask) + [] == Masked(Init(rows), mask);
    }
  }

  /** One write adds at most one copy of a record, and only of pending ones. */
  lemma WriteAddsOnce(cfg: Config, s: State, write: Write, r: Record)
    requires BatchOk(cfg, s) && Distinct(s.goods)
    ensures var t := s.(db := s.db + Landed(Zip(s.goods, s.pendingMetrics), write));
      Copies(t, r) <= Copies(s, r) + if r in s.goods then 1 else 0
  {
    var all := Zip(s.goods, s.pendingMetrics);
    var rows := Landed(all, write);
    LandedRows(cfg, s, write);
    ZipProperties(cfg, s.goods, s.pendingMetrics);
    if write.WriteFailed? {
      MaskedCount(all, write.landed);
    }
    DistinctCount(s.goods, r);
    assert multiset(Sources(rows)) <= multiset(s.goods);
    assert multiset(Sources(s.db) + Sources(rows)) == multiset(Sources(s.db)) + multiset(Sources(rows));
  }

  lemma PollRevivesNothing(cfg: Config, s: State, batch: seq<Record>, r: Record)
    requires LogOk(cfg.log) && Next(cfg, s, Poll(batch)).Some? && r in cfg.log
    requires Writable(Next(cfg, s, Poll(batch)).value, r)
    ensures Writable(s, r)
  {
    FetchExact(cfg.log, s.position, batch);
    FetchMoves(cfg.log, s.position, batch);
  }

  lemma DrainRevivesNothing(cfg: Config, s: State, e: Event, r: Record)
    requires Next(cfg, s, e).Some? && (e.Decoded? || e.Poison?)
    requires Writable(Next(cfg, s, e).value, r)
    ensures Writable(s, r)
  {
    assert Inbox(s) == [Inbox(s)[0]] + Inbox(Next(cfg, s, e).value);
  }

  lemma WritingUsesBudget(s: State, t: State, r: Record, limit: nat)
    requires WithinBudget(s, r, limit) && s.phase.Writing?
    requires t.phase.Committing? || t.phase.DeadLettering?
    requires t.position == s.position && (r in s.goods ==> Below(s.position, r))
    requires Copies(t, r) <= Copies(s, r) + if r in s.goods then 1 else 0
    ensures WithinBudget(t, r, limit)
  {
  }

  lemma WritesRows(cfg: Config, s: State, write: Write)
    requires Next(cfg, s, WriteBatch(write)).Some?
    ensures var t := Next(cfg, s, WriteBatch(write)).value;
      && s.phase.Writing? && (t.phase.Committing? || t.phase.DeadLettering?) && t.position == s.position
      && t.db == s.db + Landed(Zip(s.goods, s.pendingMetrics), write)
  {
  }

  lemma WritesOnly(cfg: Config, s: State, write: Write)
    requires Next(cfg, s, WriteBatch(write)).Some?
    ensures var t := Next(cfg, s, WriteBatch(write)).value;
      && t.goods == s.goods && t.pendingRecords == s.pendingRecords && t.handled == s.handled && t.dlq == s.dlq
      && t.cancelled == s.cancelled && t.final == s.final
      && t.phase == if write.Written? then Committing else DeadLettering(0)
  {
  }

  lemma WriteKeepsBudget(cfg: Config, s: State, write: Write, r: Record, limit: nat)
    requires BatchOk(cfg, s) && Distinct(s.goods) && WithinBudget(s, r, limit)
    requires r in s.goods ==> Below(s.position, r)
    requires Next(cfg, s, WriteBatch(write)).Some?
    ensures WithinBudget(Next(cfg, s, WriteBatch(write)).value, r, limit)
  {
    WriteAddsOnce(cfg, s, write, r);
    WritesRows(cfg, s, write);
    WritingUsesBudget(s, Next(cfg, s, WriteBatch(write)).value, r, limit);
  }

  lemma ControlRevivesNothing(cfg: Config, s: State, e: Event, r: Record)
    requires Next(cfg, s, e).Some?
    requires !e.Poll? && !e.Decoded? && !e.Poison? && !e.WriteBatch? && !e.Restart?
    requires Writable(Next(cfg, s, e).value, r)
    ensures Writable(s, r)
  {
  }

  lemma NothingRevived(cfg: Config, s: State, e: Event, r: Record)
    requires LogOk(cfg.log) && r in cfg.log && Next(cfg, s, e).Some? && !e.WriteBatch? && !e.Restart?
    requires Writable(Next(cfg, s, e).value, r)
    ensures Writable(s, r)
  {
    match e
    case Poll(batch) => PollRevivesNothing(cfg, s, batch, r);
    case Decoded => DrainRevivesNothing(cfg, s, e, r);
    case Poison(_, _) => DrainRevivesNothing(cfg, s, e, r);
    case _ => ControlRevivesNothing(cfg, s, e, r);
  }

  lemma DrainWritesNothing(cfg: Config, s: State, e: Event)
    requires Next(cfg, s, e).Some? && (e.Poll? || e.Decoded? || e.Poison?)
    ensures Next(cfg, s, e).value.db == s.db && Next(cfg, s, e).value.unclean == s.unclean
  {
  }

  lemma FlushWritesNothing(cfg: Config, s: State, e: Event)
    requires Next(cfg, s, e).Some? && (e.EndOfFetch? || e.Shutdown? || e.DeadLetter? || e.Commit?)
    ensures Next(cfg, s, e).value.db == s.db && Next(cfg, s, e).value.unclean == s.unclean
  {
  }

  lemma OnlyWritesGrowDb(cfg: Config, s: State, e: Event)
    requires Next(cfg, s, e).Some? && !e.WriteBatch?
    ensures Next(cfg, s, e).value.db == s.db
  {
    if e.Poll? || e.Decoded? || e.Poison? {
      DrainWritesNothing(cfg, s, e);
    } else if e.EndOfFetch? || e.Shutdown? || e.DeadLetter? || e.Commit? {
      FlushWritesNothing(cfg, s, e);
    }
  }

  lemma GoodsAreBelow(cfg: Config, s: State, r: Record)
    requires LogOk(cfg.log) && Aligned(cfg, s) && GoodsOk(s) && r in s.goods
    ensures Below(s.position, r)
  {
    AlignedIsDistinct(cfg, s);
    assert r in Held(s);
  }

  /** Within one process the budget of every record is kept. */
  lemma StepKeepsBudget(cfg: Config, s: State, e: Event, r: Record, limit: nat)
    requires LogOk(cfg.log) && BatchOk(cfg, s) && Aligned(cfg, s) && GoodsOk(s) && WithinBudget(s, r, limit)
    requires Next(cfg, s, e).Some? && !e.Restart? && r in cfg.log
    ensures WithinBudget(Next(cfg, s, e).value, r, limit)
  {
    var t := Next(cfg, s, e).value;
    if e.WriteBatch? {
      if r in s.goods {
        GoodsAreBelow(cfg, s, r);
      }
      WriteKeepsBudget(cfg, s, e.write, r, limit);
    } else {
      OnlyWritesGrowDb(cfg, s, e);
      assert Copies(t, r) == Copies(s, r);
      if Writable(t, r) {
        NothingRevived(cfg, s, e, r);
      }
    }
  }

  /** A restart makes nothing writable that a clean process had dealt with. */
  lemma CleanRestartRevivesNothing(cfg: Config, s: State, r: Record)
    requires s.committed == s.position && Writable(Next(cfg, s, Restart).value, r)
    ensures Writable(s, r)
  {
  }

  lemma RestartKeepsDb(cfg: Config, s: State, r: Record)
    ensures Copies(Next(cfg, s, Restart).value, r) == Copies(s, r)
  {
  }

  /** A clean restart costs nothing; any other costs one copy. */
  lemma RestartKeepsBudget(cfg: Config, s: State, r: Record, limit: nat)
    requires CleanStop(s) ==> s.committed == s.position
    requires WithinBudget(s, r, limit)
    ensures WithinBudget(Next(cfg, s, Restart).value, r, limit + if CleanStop(s) then 0 else 1)
  {
    RestartKeepsDb(cfg, s, r);
    if CleanStop(s) && Writable(Next(cfg, s, Restart).value, r) {
      CleanRestartRevivesNothing(cfg, s, r);
    }
  }

  lemma GoodsHold(cfg: Config, start: Offsets, es: seq<Event>, s: State)
    requires Run(cfg, start, es, s)
    ensures BatchOk(cfg, s) && Aligned(cfg, s) && GoodsOk(s)
  {
    LedgerHolds(cfg, start, es, s);
    AlignedHolds(cfg, start, es, s);
    AlignedIsDistinct(cfg, s);
    assert forall i :: 0 <= i < |s.pendingRecords| ==> Held(s)[i] == s.pendingRecords[i];
    SubsequenceMembers(s.goods, s.pendingRecords);
  }

  lemma NoRecordsNoMetrics(cfg: Config, start: Offsets, es: seq<Event>, s: State)
    requires Run(cfg, start, es, s)
    ensures s.pendingRecords == [] ==> s.pendingMetrics == []
  {
    GoodsHold(cfg, start, es, s);
    assert s.goods == [] || s.goods[0] in s.pendingRecords;
  }

  lemma InitialBudget(start: Offsets, r: Record)
    ensures WithinBudget(Initial(start), r, 1)
  {
  }

  lemma {:induction false} BudgetHolds(cfg: Config, start: Offsets, es: seq<Event>, s: State, r: Record)
    requires Run(cfg, start, es, s) && r in cfg.log
    ensures WithinBudget(s, r, 1 + s.unclean)
  {
    if es == [] {
      InitialBudget(start, r);
    } else {
      var m := Exec(cfg, Initial(start), Init(es)).value;
      BudgetHolds(cfg, start, Init(es), m, r);
      GoodsHold(cfg, start, Init(es), m);
      UncleanGrows(cfg, m, Last(es));
      if Last(es).Restart? {
        if CleanStop(m) {
          CleanShutdownCommitsEverything(cfg, start, Init(es), m);
        }
        RestartKeepsBudget(cfg, m, r, 1 + m.unclean);
      } else {
        StepKeepsBudget(cfg, m, Last(es), r, 1 + m.unclean);
      }
    }
  }

  lemma UncleanGrows(cfg: Config, s: State, e: Event)
    requires Next(cfg, s, e).Some?
    ensures Next(cfg, s, e).value.unclean == s.unclean + if e.Restart? && !CleanStop(s) then 1 else 0
  {
    if e.Poll? || e.Decoded? || e.Poison? {
      DrainWritesNothing(cfg, s, e);
    } else if e.EndOfFetch? || e.Shutdown? || e.DeadLetter? || e.Commit? {
      FlushWritesNothing(cfg, s, e);
    }
  }

  /** One process writes a record at most once, whatever was written before it. */
  lemma {:induction false} OncePerProcess(
      cfg: Config, start: Offsets, before: seq<Event>, m: State, es: seq<Event>, s: State, r: Record)
    requires Run(cfg, start, before, m) && m.phase.Starting? && Exec(cfg, m, es) == Some(s)
    requires r in cfg.log && forall e :: e in es ==> !e.Restart?
    ensures Copies(s, r) <= Copies(m, r) + 1
    ensures WithinBudget(s, r, Copies(m, r) + 1)
  {
    if es == [] {
    } else {
      var n := Exec(cfg, m, Init(es)).value;
      assert es == Init(es) + [Last(es)];
      OncePerProcess(cfg, start, before, m, Init(es), n, r);
      ExecConcat(cfg, Initial(start), before, Init(es));
      GoodsHold(cfg, start, before + Init(es), n);
      StepKeepsBudget(cfg, n, Last(es), r, Copies(m, r) + 1);
    }
  }

  /** Duplicates come only from restarts that were not preceded by a clean
      shutdown: each such restart can add at most one copy of a record. In
      particular a single process, or any number of processes that all stop
      cleanly, write every record at most once. */
  lemma DuplicationBound(cfg: Config, start: Offsets, es: seq<Event>, s: State, r: Record)
    requires Run(cfg, start, es, s) && r in cfg.log
    ensures Copies(s, r) <= 1 + s.unclean
  {
    BudgetHolds(cfg, start, es, s, r);
  }

  function Restarts(es: seq<Event>): nat {
    if es == [] then 0 else Restarts(Init(es)) + if Last(es).Restart? then 1 else 0
  }

  /** A fortiori the bound counts restarts of any kind. */
  lemma {:induction false} UncleanRestartsAreRestarts(cfg: Config, start: Offsets, es: seq<Event>, s: State)
    requires Run(cfg, start, es, s)
    ensures s.unclean <= Restarts(es)
  {
    if es == [] {
    } else {
      var m := Exec(cfg, Initial(start), Init(es)).value;
      UncleanRestartsAreRestarts(cfg, start, Init(es), m);
      UncleanGrows(cfg, m, Last(es));
    }
  }
}
