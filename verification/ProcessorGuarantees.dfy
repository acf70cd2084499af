// Stronger guarantees of the processor: no loss when dead-letter publishes fail
// only under a cancelled context, and exactly when a partition's committed offset
// lags, with a run in which a failed commit is not retried.
module ProcessorGuarantees {
  import opened Prelude
  import opened Models
  import opened Broker
  import opened Operators
  import opened ProcessorProtocol
  import opened ProcessorSafety

  // ---- no loss ----

  /** Every failed dead-letter publish of the run happened after cancellation. */
  ghost predicate DlqFailsOnlyWhenCancelled(cfg: Config, start: Offsets, es: seq<Event>)
    requires Exec(cfg, Initial(start), es).Some?
  {
    es == [] ||
    (&& DlqFailsOnlyWhenCancelled(cfg, start, Init(es))
     && (Last(es).DeadLetter? && Last(es).publish.PublishFailed? ==>
           Exec(cfg, Initial(start), Init(es)).value.cancelled))
  }

  predicate Handled(s: State, r: Record) {
    r in s.completed || r in s.dlq
  }

  /** As long as a commit is still possible, what it would pass is handled. */
  ghost predicate Strict(cfg: Config, start: Offsets, s: State) {
    && (forall r :: r in cfg.log && !Below(start, r) && Below(s.committed, r) ==> Handled(s, r))
    && (!s.cancelled || s.phase.Committing? ==>
          forall r :: r in cfg.log && !Below(start, r) && Below(s.position, r) ==> r in Inbox(s) || Handled(s, r))
  }

  lemma CommitKeepsStrict(cfg: Config, start: Offsets, s: State, outcome: CommitOutcome)
    requires Ledger(cfg, start, s) && Strict(cfg, start, s) && Next(cfg, s, Commit(outcome)).Some?
    ensures Strict(cfg, start, Next(cfg, s, Commit(outcome)).value)
  {
    var t := Next(cfg, s, Commit(outcome)).value;
    forall r | r in cfg.log && !Below(start, r) && Below(t.committed, r)
      ensures Handled(t, r)
    {
      CommitPassesRecord(s.committed, s.toCommit, outcome, r.partition);
      if At(t.committed, r.partition) != At(s.committed, r.partition) {
        var q :| q in s.toCommit && q.partition == r.partition && q.offset + 1 == At(t.committed, r.partition);
        assert Below(s.position, r);
      }
    }
  }

  /** The current record is handled, or no commit can follow any more. */
  lemma FinishKeepsStrict(cfg: Config, start: Offsets, s: State, t: State)
    requires Strict(cfg, start, s) && Inbox(s) != [] && t.phase == Draining(Inbox(s)[1..])
    requires t.position == s.position && t.committed == s.committed && t.cancelled == s.cancelled
    requires forall r :: Handled(s, r) ==> Handled(t, r)
    requires s.cancelled || Handled(t, Inbox(s)[0])
    ensures Strict(cfg, start, t)
  {
    assert Inbox(s) == [Inbox(s)[0]] + Inbox(s)[1..];
  }

  lemma CompleteKeepsStrict(cfg: Config, start: Offsets, s: State, r: Record)
    requires Strict(cfg, start, s) && Next(cfg, s, Complete(r)).Some?
    ensures Strict(cfg, start, Next(cfg, s, Complete(r)).value)
  {
    FinishKeepsStrict(cfg, start, s, Next(cfg, s, Complete(r)).value);
  }

  lemma DeadLetterKeepsStrict(cfg: Config, start: Offsets, s: State, r: Record, publish: Publish)
    requires Strict(cfg, start, s) && Next(cfg, s, DeadLetter(r, publish)).Some?
    requires publish.PublishFailed? ==> s.cancelled
    ensures Strict(cfg, start, Next(cfg, s, DeadLetter(r, publish)).value)
  {
    FinishKeepsStrict(cfg, start, s, Next(cfg, s, DeadLetter(r, publish)).value);
  }

  lemma QuietKeepsStrict(cfg: Config, start: Offsets, s: State, t: State)
    requires Strict(cfg, start, s) && Inbox(t) == Inbox(s)
    requires t.position == s.position && t.committed == s.committed
    requires t.completed == s.completed && t.dlq == s.dlq
    requires !t.cancelled || t.phase.Committing? ==> !s.cancelled || s.phase.Committing?
    ensures Strict(cfg, start, t)
  {
  }

  lemma PublishAggregateKeepsStrict(cfg: Config, start: Offsets, s: State, out: AggregateOut, publish: Publish)
    requires Strict(cfg, start, s) && Next(cfg, s, PublishAggregate(out, publish)).Some?
    ensures Strict(cfg, start, Next(cfg, s, PublishAggregate(out, publish)).value)
  {
    QuietKeepsStrict(cfg, start, s, Next(cfg, s, PublishAggregate(out, publish)).value);
  }

  lemma PublishAlertKeepsStrict(cfg: Config, start: Offsets, s: State, alert: DeviceAlert, publish: Publish)
    requires Strict(cfg, start, s) && Next(cfg, s, PublishAlert(alert, publish)).Some?
    ensures Strict(cfg, start, Next(cfg, s, PublishAlert(alert, publish)).value)
  {
    QuietKeepsStrict(cfg, start, s, Next(cfg, s, PublishAlert(alert, publish)).value);
  }

  lemma ControlKeepsStrict(cfg: Config, start: Offsets, s: State, e: Event)
    requires Strict(cfg, start, s) && Next(cfg, s, e).Some?
    requires e.Cancel? || e.Stop? || e.Undecodable? || e.PushWindow? || e.EndOfPoll?
    ensures Strict(cfg, start, Next(cfg, s, e).value)
  {
    QuietKeepsStrict(cfg, start, s, Next(cfg, s, e).value);
  }

  lemma PollKeepsStrict(cfg: Config, start: Offsets, s: State, batch: seq<Record>)
    requires LogOk(cfg.log) && Strict(cfg, start, s) && Next(cfg, s, Poll(batch)).Some?
    ensures Strict(cfg, start, Next(cfg, s, Poll(batch)).value)
  {
    FetchMoves(cfg.log, s.position, batch);
  }

  lemma RestartKeepsStrict(cfg: Config, start: Offsets, s: State)
    requires Strict(cfg, start, s)
    ensures Strict(cfg, start, Next(cfg, s, Restart).value)
  {
  }

  lemma {:induction false} StrictHolds(cfg: Config, start: Offsets, es: seq<Event>, s: State)
    requires Run(cfg, start, es, s) && DlqFailsOnlyWhenCancelled(cfg, start, es)
    ensures Strict(cfg, start, s)
  {
    if es == [] {
    } else {
      var m, e := Exec(cfg, Initial(start), Init(es)).value, Last(es);
      StrictHolds(cfg, start, Init(es), m);
      LedgerHolds(cfg, start, Init(es), m);
      match e
      case Poll(batch) => PollKeepsStrict(cfg, start, m, batch);
      case PublishAggregate(out, publish) => PublishAggregateKeepsStrict(cfg, start, m, out, publish);
      case PublishAlert(alert, publish) => PublishAlertKeepsStrict(cfg, start, m, alert, publish);
      case Complete(r) => CompleteKeepsStrict(cfg, start, m, r);
      case DeadLetter(r, publish) => DeadLetterKeepsStrict(cfg, start, m, r, publish);
      case Commit(outcome) => CommitKeepsStrict(cfg, start, m, outcome);
      case Restart => RestartKeepsStrict(cfg, start, m);
      case _ => ControlKeepsStrict(cfg, start, m, e);
    }
  }

  /** If dead-letter publishes fail only under a cancelled context, nothing is
      ever lost: such a failure is never followed by a commit, and after a restart
      the record is delivered again. Every committed record was processed with
      all its outputs published or is in the dead-letter topic. */
  lemma NoLoss(cfg: Config, start: Offsets, es: seq<Event>, s: State, r: Record)
    requires Run(cfg, start, es, s) && DlqFailsOnlyWhenCancelled(cfg, start, es)
    requires r in cfg.log && !Below(start, r) && Below(s.committed, r)
    ensures Delivered(s, r)
  {
    StrictHolds(cfg, start, es, s);
    LedgerHolds(cfg, start, es, s);
  }

  // ---- commit lag ----

  function Held(s: State): seq<Record> {
    s.toCommit + Inbox(s)
  }

  ghost predicate LagOk(cfg: Config, s: State) {
    && Fetch(cfg.log, s.polledFrom, Held(s))
    && s.position == AdvanceAll(s.polledFrom, Held(s))
    && (s.phase.Top? || s.phase.Returned? ==> Held(s) == [])
    && (forall p :: if p in s.behind then At(s.committed, p) < At(s.polledFrom, p)
                    else At(s.committed, p) == At(s.polledFrom, p))
  }

  lemma PollKeepsLag(cfg: Config, s: State, batch: seq<Record>)
    requires LagOk(cfg, s) && Next(cfg, s, Poll(batch)).Some?
    ensures LagOk(cfg, Next(cfg, s, Poll(batch)).value)
  {
    assert s.toCommit == [] by {
      assert |Held(s)| == |s.toCommit|;
    }
    assert s.polledFrom == s.position;
    assert Held(Next(cfg, s, Poll(batch)).value) == batch;
  }

  lemma SameHeldKeepsLag(cfg: Config, s: State, t: State)
    requires LagOk(cfg, s) && Held(t) == Held(s) && (t.phase.Top? || t.phase.Returned? ==> Held(t) == [])
    requires t.polledFrom == s.polledFrom && t.position == s.position
    requires t.committed == s.committed && t.behind == s.behind
    ensures LagOk(cfg, t)
  {
  }

  lemma FinishKeepsLag(cfg: Config, s: State, t: State)
    requires LagOk(cfg, s) && Inbox(s) != [] && t.phase == Draining(Inbox(s)[1..])
    requires t.toCommit == s.toCommit + [Inbox(s)[0]]
    requires t.polledFrom == s.polledFrom && t.position == s.position
    requires t.committed == s.committed && t.behind == s.behind
    ensures LagOk(cfg, t)
  {
    HeadMoves(s.toCommit, Inbox(s));
    SameHeldKeepsLag(cfg, s, t);
  }

  lemma CompleteKeepsLag(cfg: Config, s: State, r: Record)
    requires LagOk(cfg, s) && Next(cfg, s, Complete(r)).Some?
    ensures LagOk(cfg, Next(cfg, s, Complete(r)).value)
  {
    FinishKeepsLag(cfg, s, Next(cfg, s, Complete(r)).value);
  }

  lemma DeadLetterKeepsLag(cfg: Config, s: State, r: Record, publish: Publish)
    requires LagOk(cfg, s) && Next(cfg, s, DeadLetter(r, publish)).Some?
    ensures LagOk(cfg, Next(cfg, s, DeadLetter(r, publish)).value)
  {
    FinishKeepsLag(cfg, s, Next(cfg, s, DeadLetter(r, publish)).value);
  }

  lemma PublishAggregateKeepsLag(cfg: Config, s: State, out: AggregateOut, publish: Publish)
    requires LagOk(cfg, s) && Next(cfg, s, PublishAggregate(out, publish)).Some?
    ensures LagOk(cfg, Next(cfg, s, PublishAggregate(out, publish)).value)
  {
    SameHeldKeepsLag(cfg, s, Next(cfg, s, PublishAggregate(out, publish)).value);
  }

  lemma PublishAlertKeepsLag(cfg: Config, s: State, alert: DeviceAlert, publish: Publish)
    requires LagOk(cfg, s) && Next(cfg, s, PublishAlert(alert, publish)).Some?
    ensures LagOk(cfg, Next(cfg, s, PublishAlert(alert, publish)).value)
  {
    SameHeldKeepsLag(cfg, s, Next(cfg, s, PublishAlert(alert, publish)).value);
  }

  lemma ControlKeepsLag(cfg: Config, s: State, e: Event)
    requires LagOk(cfg, s) && Next(cfg, s, e).Some?
    requires e.Cancel? || e.Stop? || e.Undecodable? || e.PushWindow?
    ensures LagOk(cfg, Next(cfg, s, e).value)
  {
    SameHeldKeepsLag(cfg, s, Next(cfg, s, e).value);
  }

  /** The poll ends: with its commit, or without one when cancelled. */
  lemma PollEndKeepsLag(cfg: Config, s: State, t: State, landed: set<int>)
    requires LogOk(cfg.log) && LagOk(cfg, s) && Inbox(s) == [] && Held(t) == []
    requires t.position == s.position && t.polledFrom == s.position
    requires t.committed == CommitRecords(s.committed, s.toCommit, CommitFailed(landed))
    requires t.behind == StillBehind(s.behind, s.toCommit, CommitFailed(landed))
    ensures LagOk(cfg, t)
  {
    assert Held(s) == s.toCommit;
    HeadsPartitions(s.toCommit);
    CommitReachesPosition(cfg.log, s.polledFrom, s.toCommit);
    forall p
      ensures if p in t.behind then At(t.committed, p) < At(t.polledFrom, p)
              else At(t.committed, p) == At(t.polledFrom, p)
    {
      FetchMovesPartitions(cfg.log, s.polledFrom, s.toCommit, p);
      assert p in Heads(s.toCommit) ==> At(s.polledFrom + Heads(s.toCommit), p) == Heads(s.toCommit)[p];
    }
  }

  lemma EndKeepsLag(cfg: Config, s: State)
    requires LogOk(cfg.log) && LagOk(cfg, s) && Next(cfg, s, EndOfPoll).Some?
    ensures LagOk(cfg, Next(cfg, s, EndOfPoll).value)
  {
    var t := Next(cfg, s, EndOfPoll).value;
    if t.phase.Committing? {
      SameHeldKeepsLag(cfg, s, t);
    } else {
      assert CommitRecords(s.committed, s.toCommit, CommitFailed({})) == s.committed;
      PollEndKeepsLag(cfg, s, t, {});
    }
  }

  lemma CommitKeepsLag(cfg: Config, s: State, outcome: CommitOutcome)
    requires LogOk(cfg.log) && LagOk(cfg, s) && Next(cfg, s, Commit(outcome)).Some?
    ensures LagOk(cfg, Next(cfg, s, Commit(outcome)).value)
  {
    var t := Next(cfg, s, Commit(outcome)).value;
    var landed := if outcome.Committed? then Partitions(s.toCommit) else outcome.landed;
    CommitLandingEverywhere(s.committed, s.toCommit);
    assert StillBehind(s.behind, s.toCommit, outcome) == StillBehind(s.behind, s.toCommit, CommitFailed(landed));
    PollEndKeepsLag(cfg, s, t, landed);
  }

  lemma {:induction false} LagHolds(cfg: Config, start: Offsets, es: seq<Event>, s: State)
    requires Run(cfg, start, es, s)
    ensures LagOk(cfg, s)
  {
    if es == [] {
      assert Held(s) == [];
    } else {
      var m, e := Exec(cfg, Initial(start), Init(es)).value, Last(es);
      LagHolds(cfg, start, Init(es), m);
      match e
      case Poll(batch) => PollKeepsLag(cfg, m, batch);
      case PublishAggregate(out, publish) => PublishAggregateKeepsLag(cfg, m, out, publish);
      case PublishAlert(alert, publish) => PublishAlertKeepsLag(cfg, m, alert, publish);
      case Complete(r) => CompleteKeepsLag(cfg, m, r);
      case DeadLetter(r, publish) => DeadLetterKeepsLag(cfg, m, r, publish);
      case EndOfPoll => EndKeepsLag(cfg, m);
      case Commit(outcome) => CommitKeepsLag(cfg, m, outcome);
      case Restart => assert Held(s) == [];
      case _ => ControlKeepsLag(cfg, m, e);
    }
  }

  /** Between polls a partition's committed offset equals the client's position
      exactly when the last poll that delivered from it was followed by a commit
      that landed there. */
  lemma CaughtUpIff(cfg: Config, start: Offsets, es: seq<Event>, s: State, p: int)
    requires Run(cfg, start, es, s) && (s.phase.Top? || s.phase.Returned?)
    ensures At(s.committed, p) <= At(s.position, p)
    ensures At(s.committed, p) == At(s.position, p) <==> p !in s.behind
  {
    LagHolds(cfg, start, es, s);
  }

  lemma AllCaughtUpIff(cfg: Config, start: Offsets, es: seq<Event>, s: State)
    requires Run(cfg, start, es, s) && (s.phase.Top? || s.phase.Returned?)
    ensures forall p :: At(s.committed, p) == At(s.position, p) <==> p !in s.behind
  {
    forall p
      ensures At(s.committed, p) == At(s.position, p) <==> p !in s.behind
    {
      CaughtUpIff(cfg, start, es, s, p);
    }
  }

  lemma NothingToCommitAtTop(cfg: Config, start: Offsets, es: seq<Event>, s: State)
    requires Run(cfg, start, es, s) && s.phase.Top?
    ensures s.toCommit == []
  {
    LagHolds(cfg, start, es, s);
    assert |Held(s)| >= |s.toCommit|;
  }

  /** A failed commit is not retried by the next poll, as the comment in the loop
      has it: a successful commit catches up the partitions it has records of, and
      a partition left behind earlier stays behind unless it is one of them. */
  lemma SuccessfulCommitCatchesUpIff(cfg: Config, start: Offsets, es: seq<Event>, s: State, p: int)
    requires Run(cfg, start, es, s) && s.phase.Committing?
    ensures var t := Next(cfg, s, Commit(Committed)).value;
      At(t.committed, p) == At(t.position, p) <==> p in Partitions(s.toCommit) || p !in s.behind
  {
    ExecSnoc(cfg, Initial(start), es, Commit(Committed));
    CaughtUpIff(cfg, start, es + [Commit(Committed)], Next(cfg, s, Commit(Committed)).value, p);
  }

  /** A poll of one record, which is dead-lettered. */
  function LonePoll(r: Record, commit: CommitOutcome): seq<Event> {
    [Poll([r]), Undecodable(r), DeadLetter(r, Sent), EndOfPoll, Commit(commit)]
  }

  lemma LoneRecordFails(cfg: Config, s: State, r: Record)
    requires s.phase.Top? && Fetch(cfg.log, s.position, [r])
    ensures var es := [Poll([r]), Undecodable(r)];
      Exec(cfg, s, es) == Some(s.(phase := Failing([r]), polledFrom := s.position,
                                 position := AdvanceAll(s.position, [r])))
  {
    ExecSnoc(cfg, s, [], Poll([r]));
    ExecSnoc(cfg, s, [Poll([r])], Undecodable(r));
    assert [] + [Poll([r])] == [Poll([r])] && [Poll([r])] + [Undecodable(r)] == [Poll([r]), Undecodable(r)];
  }

  lemma LoneDeadLetter(cfg: Config, s: State, r: Record)
    requires s.phase == Failing([r]) && s.toCommit == []
    ensures Next(cfg, s, DeadLetter(r, Sent)) ==
      Some(s.(phase := Draining([]), toCommit := [r], handled := s.handled + [r], dlq := s.dlq + [r]))
  {
    assert s.toCommit + [r] == [r] && [r][1..] == [];
  }

  lemma LoneRecordIsCommitted(cfg: Config, s: State, r: Record, commit: CommitOutcome) returns (t: State)
    requires s.phase == Draining([]) && s.toCommit == [r] && !s.cancelled
    ensures Exec(cfg, s, [EndOfPoll, Commit(commit)]) == Some(t)
    ensures t.phase.Top? && t.toCommit == [] && !t.cancelled && t.position == s.position
    ensures t.behind == StillBehind(s.behind, [r], commit)
  {
    LoneCommit(cfg, s, r, commit);
    ExecSnoc(cfg, s, [], EndOfPoll);
    ExecSnoc(cfg, s, [EndOfPoll], Commit(commit));
    assert [] + [EndOfPoll] == [EndOfPoll] && [EndOfPoll] + [Commit(commit)] == [EndOfPoll, Commit(commit)];
    t := Exec(cfg, s, [EndOfPoll, Commit(commit)]).value;
  }

  lemma LoneCommit(cfg: Config, s: State, r: Record, commit: CommitOutcome)
    requires s.phase == Draining([]) && s.toCommit == [r] && !s.cancelled
    ensures var m := s.(phase := Committing);
      && Next(cfg, s, EndOfPoll) == Some(m)
      && Next(cfg, m, Commit(commit)) ==
           Some(m.(phase := Top, toCommit := [], committed := CommitRecords(s.committed, [r], commit),
                   behind := StillBehind(s.behind, [r], commit), polledFrom := s.position))
  {
  }

  lemma LonePollRuns(cfg: Config, s: State, r: Record, commit: CommitOutcome) returns (t: State)
    requires s.phase.Top? && s.toCommit == [] && !s.cancelled && Fetch(cfg.log, s.position, [r])
    ensures Exec(cfg, s, LonePoll(r, commit)) == Some(t)
    ensures t.phase.Top? && t.toCommit == [] && !t.cancelled && t.position == AdvanceAll(s.position, [r])
    ensures t.behind == StillBehind(s.behind, [r], commit)
  {
    LoneRecordFails(cfg, s, r);
    var es := [Poll([r]), Undecodable(r)];
    var m := Exec(cfg, s, es).value;
    LoneDeadLetter(cfg, m, r);
    ExecSnoc(cfg, s, es, DeadLetter(r, Sent));
    var n := Exec(cfg, s, es + [DeadLetter(r, Sent)]).value;
    t := LoneRecordIsCommitted(cfg, n, r, commit);
    ExecConcat(cfg, s, es + [DeadLetter(r, Sent)], [EndOfPoll, Commit(commit)]);
    assert es + [DeadLetter(r, Sent)] + [EndOfPoll, Commit(commit)] == LonePoll(r, commit);
  }

  lemma LoneFetch(log: set<Record>, pos: Offsets, r: Record)
    requires NextUp(log, pos, r)
    ensures Fetch(log, pos, [r]) && AdvanceAll(pos, [r]) == Advance(pos, r)
  {
    assert Init([r]) == [] && Last([r]) == r;
  }

  /** The comment fails for any two records of different partitions: the commit of
      the first record's poll fails, the next poll's commit succeeds, and the
      first record's partition still lags. */
  lemma FailedCommitIsNotRetried(q: Record, r: Record, decode: bytes -> Option<DeviceMetric>, settings: Settings)
      returns (s: State)
    requires q.offset >= 0 && r.offset >= 0 && q.partition != r.partition
    ensures Run(Config({q, r}, decode, settings), map[], LonePoll(q, CommitFailed({})) + LonePoll(r, Committed), s)
    ensures s.phase.Top? && At(s.committed, q.partition) < At(s.position, q.partition)
  {
    var cfg, s0 := Config({q, r}, decode, settings), Initial(map[]);
    LoneFetch(cfg.log, map[], q);
    var s1 := LonePollRuns(cfg, s0, q, CommitFailed({}));
    LoneFetch(cfg.log, s1.position, r);
    s := LonePollRuns(cfg, s1, r, Committed);
    ExecConcat(cfg, s0, LonePoll(q, CommitFailed({})), LonePoll(r, Committed));
    assert Partitions([q]) == {q.partition} && Partitions([r]) == {r.partition};
    CaughtUpIff(cfg, map[], LonePoll(q, CommitFailed({})) + LonePoll(r, Committed), s, q.partition);
  }
}
