// At-least-once delivery of the processor over every run.
module ProcessorSafety {
  import opened Prelude
  import opened Models
  import opened Broker
  import opened ProcessorProtocol

  /** The aggregate and every alert of the record's processing were published. */
  ghost predicate Done(s: State, r: Record) {
    && r in s.completed
    && (exists out :: out in s.aggregates && out.source == r && out.agg == s.completed[r].agg)
    && (forall a :: a in s.completed[r].alerts ==> AlertOut(r, a) in s.alerts)
  }

  ghost predicate Delivered(s: State, r: Record) {
    Done(s, r) || r in s.dlq
  }

  ghost predicate Accounted(s: State, r: Record) {
    Delivered(s, r) || r in s.reported
  }

  function Inbox(s: State): seq<Record> {
    match s.phase
    case Draining(inbox) => inbox
    case Publishing(inbox, _) => inbox
    case Alerting(inbox, _, _, _) => inbox
    case Failing(inbox) => inbox
    case _ => []
  }

  /** What has been published so far for the record being processed. */
  ghost predicate ProgressOk(s: State) {
    match s.phase
    case Alerting(inbox, agg, alerts, k) =>
      && inbox != [] && k <= |alerts|
      && (exists out :: out in s.aggregates && out.source == inbox[0] && out.agg == agg)
      && (forall i :: 0 <= i < k ==> AlertOut(inbox[0], alerts[i]) in s.alerts)
    case _ => true
  }

  ghost predicate Ledger(cfg: Config, start: Offsets, s: State) {
    && ProgressOk(s)
    && (forall r :: r in s.completed ==> Done(s, r))
    && (forall r :: r in s.toCommit ==> Accounted(s, r) && Below(s.position, r))
    && (forall r :: r in cfg.log && !Below(start, r) && Below(s.position, r) ==> r in Inbox(s) || Accounted(s, r))
    && (forall r :: r in cfg.log && !Below(start, r) && Below(s.committed, r) ==> Accounted(s, r))
  }

  /** Outputs are only ever added to. */
  predicate Grows(s: State, t: State) {
    && s.aggregates <= t.aggregates && s.alerts <= t.alerts && s.dlq <= t.dlq
    && s.reported <= t.reported
  }

  lemma GrowthKeeps(s: State, t: State, r: Record)
    requires Grows(s, t) && (r in s.completed ==> r in t.completed && t.completed[r] == s.completed[r])
    ensures Delivered(s, r) ==> Delivered(t, r)
    ensures Accounted(s, r) ==> Accounted(t, r)
    ensures Done(s, r) ==> Done(t, r)
  {
    if Done(s, r) {
      var out :| out in s.aggregates && out.source == r && out.agg == s.completed[r].agg;
      assert out in t.aggregates;
    }
  }

  /** Work on the current record that only adds outputs. */
  lemma WorkKeepsLedger(cfg: Config, start: Offsets, s: State, t: State)
    requires Ledger(cfg, start, s) && Grows(s, t) && ProgressOk(t) && Inbox(t) == Inbox(s)
    requires t == s.(phase := t.phase, cancelled := t.cancelled, ops := t.ops,
                     aggregates := t.aggregates, alerts := t.alerts)
    ensures Ledger(cfg, start, t)
  {
    forall r
      ensures Done(s, r) ==> Done(t, r)
      ensures Accounted(s, r) ==> Accounted(t, r)
    {
      GrowthKeeps(s, t, r);
    }
  }

  lemma PublishAggregateKeepsLedger(cfg: Config, start: Offsets, s: State, e: Event)
    requires Ledger(cfg, start, s) && Next(cfg, s, e).Some? && e.PublishAggregate?
    ensures Ledger(cfg, start, Next(cfg, s, e).value)
  {
    var t := Next(cfg, s, e).value;
    if e.publish.Sent? {
      assert Last(t.aggregates) in t.aggregates;
    }
    WorkKeepsLedger(cfg, start, s, t);
  }

  lemma PublishAlertProgresses(cfg: Config, s: State, alert: DeviceAlert, publish: Publish)
    requires ProgressOk(s) && Next(cfg, s, PublishAlert(alert, publish)).Some?
    ensures var t := Next(cfg, s, PublishAlert(alert, publish)).value;
      && ProgressOk(t) && Grows(s, t) && Inbox(t) == Inbox(s)
      && t == s.(phase := t.phase, alerts := t.alerts)
  {
  }

  lemma PublishAlertKeepsLedger(cfg: Config, start: Offsets, s: State, alert: DeviceAlert, publish: Publish)
    requires Ledger(cfg, start, s) && Next(cfg, s, PublishAlert(alert, publish)).Some?
    ensures Ledger(cfg, start, Next(cfg, s, PublishAlert(alert, publish)).value)
  {
    PublishAlertProgresses(cfg, s, alert, publish);
    WorkKeepsLedger(cfg, start, s, Next(cfg, s, PublishAlert(alert, publish)).value);
  }

  /** Leaving the current record, now accounted for, behind. */
  lemma FinishKeepsLedger(cfg: Config, start: Offsets, s: State, t: State)
    requires Ledger(cfg, start, s) && Grows(s, t) && Inbox(s) != []
    requires t.phase == Draining(Inbox(s)[1..]) && t.toCommit == s.toCommit + [Inbox(s)[0]]
    requires Below(s.position, Inbox(s)[0]) && Accounted(t, Inbox(s)[0])
    requires t.position == s.position && t.committed == s.committed
    requires forall r :: r in t.completed ==> Done(t, r)
    requires forall r :: r != Inbox(s)[0] && r in s.completed ==> r in t.completed && t.completed[r] == s.completed[r]
    ensures Ledger(cfg, start, t)
  {
    var x := Inbox(s)[0];
    assert Inbox(s) == [x] + Inbox(t);
    forall r | Accounted(s, r)
      ensures Accounted(t, r)
    {
      if r != x {
        GrowthKeeps(s, t, r);
      }
    }
  }

  /** Everything fetched but not finished lies below the position. */
  predicate InboxOk(s: State) {
    forall r :: r in Inbox(s) ==> Below(s.position, r)
  }

  lemma CompleteKeepsLedger(cfg: Config, start: Offsets, s: State, r: Record)
    requires Ledger(cfg, start, s) && InboxOk(s) && Next(cfg, s, Complete(r)).Some?
    ensures Ledger(cfg, start, Next(cfg, s, Complete(r)).value)
  {
    var t := Next(cfg, s, Complete(r)).value;
    var x := Inbox(s)[0];
    assert Done(t, x) by {
      var out :| out in s.aggregates && out.source == x && out.agg == s.phase.agg;
      assert out in t.aggregates;
    }
    forall r | r in t.completed
      ensures Done(t, r)
    {
      if r != x {
        GrowthKeeps(s, t, r);
      }
    }
    FinishKeepsLedger(cfg, start, s, t);
  }

  lemma DeadLetterKeepsLedger(cfg: Config, start: Offsets, s: State, r: Record, publish: Publish)
    requires Ledger(cfg, start, s) && InboxOk(s) && Next(cfg, s, DeadLetter(r, publish)).Some?
    ensures Ledger(cfg, start, Next(cfg, s, DeadLetter(r, publish)).value)
  {
    var t := Next(cfg, s, DeadLetter(r, publish)).value;
    forall r | r in t.completed
      ensures Done(t, r)
    {
      GrowthKeeps(s, t, r);
    }
    FinishKeepsLedger(cfg, start, s, t);
  }

  lemma PollKeepsLedger(cfg: Config, start: Offsets, s: State, batch: seq<Record>)
    requires LogOk(cfg.log) && Ledger(cfg, start, s) && Next(cfg, s, Poll(batch)).Some?
    ensures Ledger(cfg, start, Next(cfg, s, Poll(batch)).value)
  {
    var t := Next(cfg, s, Poll(batch)).value;
    FetchMoves(cfg.log, s.position, batch);
    assert forall r :: (Done(s, r) <==> Done(t, r)) && (Accounted(s, r) <==> Accounted(t, r));
  }

  lemma CommitKeepsLedger(cfg: Config, start: Offsets, s: State, outcome: CommitOutcome)
    requires Ledger(cfg, start, s) && Next(cfg, s, Commit(outcome)).Some?
    ensures Ledger(cfg, start, Next(cfg, s, Commit(outcome)).value)
  {
    var t := Next(cfg, s, Commit(outcome)).value;
    assert forall r :: (Done(s, r) <==> Done(t, r)) && (Accounted(s, r) <==> Accounted(t, r));
    forall r | r in cfg.log && !Below(start, r) && Below(t.committed, r)
      ensures Accounted(t, r)
    {
      CommitPassesRecord(s.committed, s.toCommit, outcome, r.partition);
      if At(t.committed, r.partition) != At(s.committed, r.partition) {
        var q :| q in s.toCommit && q.partition == r.partition && q.offset + 1 == At(t.committed, r.partition);
        assert Below(s.position, r);
      }
    }
  }

  lemma ControlKeepsLedger(cfg: Config, start: Offsets, s: State, e: Event)
    requires Ledger(cfg, start, s) && Next(cfg, s, e).Some?
    requires e.Cancel? || e.Stop? || e.Undecodable? || e.PushWindow?
    ensures Ledger(cfg, start, Next(cfg, s, e).value)
  {
    WorkKeepsLedger(cfg, start, s, Next(cfg, s, e).value);
  }

  /** Nothing published, fetched or committed changed and nothing is in progress. */
  lemma IdleKeepsLedger(cfg: Config, start: Offsets, s: State, t: State)
    requires Ledger(cfg, start, s) && Inbox(s) == [] && (t.phase.Top? || t.phase.Committing?)
    requires t == s.(phase := t.phase, toCommit := t.toCommit, behind := t.behind, polledFrom := t.polledFrom)
    requires t.toCommit == [] || t.toCommit == s.toCommit
    ensures Ledger(cfg, start, t)
  {
    assert forall r :: (Done(s, r) <==> Done(t, r)) && (Accounted(s, r) <==> Accounted(t, r));
  }

  lemma EndKeepsLedger(cfg: Config, start: Offsets, s: State)
    requires Ledger(cfg, start, s) && Next(cfg, s, EndOfPoll).Some?
    ensures Ledger(cfg, start, Next(cfg, s, EndOfPoll).value)
  {
    IdleKeepsLedger(cfg, start, s, Next(cfg, s, EndOfPoll).value);
  }

  lemma RestartKeepsLedger(cfg: Config, start: Offsets, s: State)
    requires Ledger(cfg, start, s)
    ensures Ledger(cfg, start, Next(cfg, s, Restart).value)
  {
    var t := Next(cfg, s, Restart).value;
    assert forall r :: (Done(s, r) <==> Done(t, r)) && (Accounted(s, r) <==> Accounted(t, r));
  }

  /** The inbox may lose records from its front while the position stays. */
  predicate Moves(s: State, t: State) {
    && t.position == s.position
    && (Inbox(t) == Inbox(s) || (Inbox(s) != [] && Inbox(t) == Inbox(s)[1..]))
  }

  lemma CompleteMoves(cfg: Config, s: State, r: Record)
    requires Next(cfg, s, Complete(r)).Some?
    ensures Moves(s, Next(cfg, s, Complete(r)).value)
  {
  }

  lemma DeadLetterMoves(cfg: Config, s: State, r: Record, publish: Publish)
    requires Next(cfg, s, DeadLetter(r, publish)).Some?
    ensures Moves(s, Next(cfg, s, DeadLetter(r, publish)).value)
  {
  }

  lemma PublishAggregateMoves(cfg: Config, s: State, out: AggregateOut, publish: Publish)
    requires Next(cfg, s, PublishAggregate(out, publish)).Some?
    ensures Moves(s, Next(cfg, s, PublishAggregate(out, publish)).value)
  {
  }

  lemma PublishAlertMoves(cfg: Config, s: State, alert: DeviceAlert, publish: Publish)
    requires Next(cfg, s, PublishAlert(alert, publish)).Some?
    ensures Moves(s, Next(cfg, s, PublishAlert(alert, publish)).value)
  {
  }

  lemma ControlMoves(cfg: Config, s: State, e: Event)
    requires Next(cfg, s, e).Some?
    requires e.Cancel? || e.Stop? || e.Undecodable? || e.PushWindow? || e.EndOfPoll? || e.Commit?
    ensures Moves(s, Next(cfg, s, e).value)
  {
  }

  lemma StepKeepsInbox(cfg: Config, s: State, e: Event)
    requires LogOk(cfg.log) && InboxOk(s) && Next(cfg, s, e).Some?
    ensures InboxOk(Next(cfg, s, e).value)
  {
    match e
    case Poll(batch) => FetchMoves(cfg.log, s.position, batch);
    case PublishAggregate(out, publish) => PublishAggregateMoves(cfg, s, out, publish);
    case PublishAlert(alert, publish) => PublishAlertMoves(cfg, s, alert, publish);
    case Complete(r) => CompleteMoves(cfg, s, r);
    case DeadLetter(r, publish) => DeadLetterMoves(cfg, s, r, publish);
    case Restart =>
    case _ => ControlMoves(cfg, s, e);
  }

  lemma StepKeepsLedger(cfg: Config, start: Offsets, s: State, e: Event)
    requires LogOk(cfg.log) && Ledger(cfg, start, s) && InboxOk(s) && Next(cfg, s, e).Some?
    ensures Ledger(cfg, start, Next(cfg, s, e).value)
  {
    match e
    case Poll(batch) => PollKeepsLedger(cfg, start, s, batch);
    case PublishAggregate(_, _) => PublishAggregateKeepsLedger(cfg, start, s, e);
    case PublishAlert(alert, publish) => PublishAlertKeepsLedger(cfg, start, s, alert, publish);
    case Complete(r) => CompleteKeepsLedger(cfg, start, s, r);
    case DeadLetter(r, publish) => DeadLetterKeepsLedger(cfg, start, s, r, publish);
    case Commit(outcome) => CommitKeepsLedger(cfg, start, s, outcome);
    case EndOfPoll => EndKeepsLedger(cfg, start, s);
    case Restart => RestartKeepsLedger(cfg, start, s);
    case _ => ControlKeepsLedger(cfg, start, s, e);
  }

  lemma {:induction false} LedgerHolds(cfg: Config, start: Offsets, es: seq<Event>, s: State)
    requires Run(cfg, start, es, s)
    ensures Ledger(cfg, start, s) && InboxOk(s)
  {
    if es == [] {
    } else {
      var m := Exec(cfg, Initial(start), Init(es)).value;
      LedgerHolds(cfg, start, Init(es), m);
      StepKeepsLedger(cfg, start, m, Last(es));
      StepKeepsInbox(cfg, m, Last(es));
    }
  }

  /** No record is skipped: at every step of every run, with failures, failed
      commits the loop goes on after, cancellation and crashes, a record below its
      partition's committed offset was processed with its aggregate and every
      alert published, or is in the dead-letter topic, or its dead-letter publish
      was reported as failed. */
  lemma AtLeastOnce(cfg: Config, start: Offsets, es: seq<Event>, s: State, r: Record)
    requires Run(cfg, start, es, s) && r in cfg.log && !Below(start, r)
    ensures Below(s.committed, r) ==> Accounted(s, r)
    ensures Below(s.position, r) ==> r in Inbox(s) || Accounted(s, r)
  {
    LedgerHolds(cfg, start, es, s);
  }

  lemma ToCommitIsAccounted(cfg: Config, start: Offsets, es: seq<Event>, s: State)
    requires Run(cfg, start, es, s)
    ensures forall r :: r in s.toCommit ==> Accounted(s, r)
  {
    LedgerHolds(cfg, start, es, s);
  }
}
