// When a committed record can be missing from both the database and the
// dead-letter topic. The type comment of the ingestor promises that a failed
// database write commits no offsets; flush commits all the same, so what saves a
// record of a failed write is its dead-letter publish, or a row that landed anyway.
module IngestorLoss {
  import opened Prelude
  import opened Models
  import opened Broker
  import opened IngestorProtocol
  import opened IngestorSafety
  import opened IngestorOnce

  predicate PublishLanded(publish: Publish) {
    publish.Sent? || publish.landed
  }

  predicate NoFailedPublish(es: seq<Event>) {
    forall e :: e in es ==>
      (e.Poison? ==> e.publish.Sent?) && (e.DeadLetter? ==> e.publish.Sent?)
  }

  lemma OnlyFailedPublishesReport(cfg: Config, s: State, e: Event)
    requires Next(cfg, s, e).Some?
    requires e.Poison? || e.DeadLetter? ==> e.publish.Sent?
    ensures Next(cfg, s, e).value.reported == s.reported
  {
  }

  lemma {:induction false} NothingReported(cfg: Config, start: Offsets, es: seq<Event>, s: State)
    requires Run(cfg, start, es, s) && NoFailedPublish(es)
    ensures s.reported == {}
  {
    if es == [] {
    } else {
      assert es == Init(es) + [Last(es)];
      var m := Exec(cfg, Initial(start), Init(es)).value;
      NothingReported(cfg, start, Init(es), m);
      OnlyFailedPublishesReport(cfg, m, Last(es));
    }
  }

  /** As long as no dead-letter publish fails, nothing is lost: database failures,
      commit failures, cancellations and crashes at any step notwithstanding,
      every committed record is in the database or in the dead-letter topic. */
  lemma NoLossWhileDeadLettersSucceed(cfg: Config, start: Offsets, es: seq<Event>, s: State, r: Record)
    requires Run(cfg, start, es, s) && NoFailedPublish(es)
    requires r in cfg.log && !Below(start, r) && Below(s.committed, r)
    ensures Delivered(s, r)
  {
    NothingReported(cfg, start, es, s);
    AtLeastOnce(cfg, start, es, s, r);
  }

  // ---- one failing flush, exactly ----

  function DeadLetters(rs: seq<Record>, ps: seq<Publish>): seq<Event>
    requires |ps| <= |rs|
  {
    if ps == [] then [] else DeadLetters(rs, Init(ps)) + [DeadLetter(rs[|ps| - 1], Last(ps))]
  }

  /** The events of a flush of the records whose database write fails. */
  function FailedFlush(rs: seq<Record>, landed: seq<bool>, ps: seq<Publish>, commit: CommitOutcome): seq<Event>
    requires |ps| <= |rs|
  {
    [WriteBatch(WriteFailed(landed))] + DeadLetters(rs, ps) + [Commit(commit)]
  }

  /** The records whose publish landed. */
  function Saved(rs: seq<Record>, ps: seq<Publish>): seq<Record>
    requires |ps| <= |rs|
  {
    if ps == [] then []
    else Saved(rs, Init(ps)) + if PublishLanded(Last(ps)) then [rs[|ps| - 1]] else []
  }

  lemma {:induction false} SavedMembers(rs: seq<Record>, ps: seq<Publish>, r: Record)
    requires |ps| <= |rs|
    ensures r in Saved(rs, ps) <==> exists i :: 0 <= i < |ps| && rs[i] == r && PublishLanded(ps[i])
  {
    if ps == [] {
    } else {
      SavedMembers(rs, Init(ps), r);
      forall i | 0 <= i < |ps| && rs[i] == r && PublishLanded(ps[i])
        ensures r in Saved(rs, ps)
      {
        if i < |ps| - 1 {
          assert Init(ps)[i] == ps[i];
        }
      }
      if r in Saved(rs, Init(ps)) {
        var i :| 0 <= i < |Init(ps)| && rs[i] == r && PublishLanded(Init(ps)[i]);
        assert PublishLanded(ps[i]);
      }
    }
  }

  lemma DeadLetterStep(cfg: Config, s: State, publish: Publish)
    requires s.phase.DeadLettering? && s.phase.k < |s.pendingRecords|
    ensures var k, r := s.phase.k, s.pendingRecords[s.phase.k];
      var t := Next(cfg, s, DeadLetter(r, publish));
      && t.Some?
      && t.value.dlq == s.dlq + (if PublishLanded(publish) then [r] else [])
      && t.value == s.(phase := t.value.phase, dlq := t.value.dlq, reported := t.value.reported)
      && t.value.phase == if k + 1 == |s.pendingRecords| then Committing else DeadLettering(k + 1)
  {
  }

  lemma {:induction false} DeadLettersRun(cfg: Config, s: State, ps: seq<Publish>)
    requires s.phase == DeadLettering(0) && |ps| <= |s.pendingRecords| && s.pendingRecords != []
    ensures var t := Exec(cfg, s, DeadLetters(s.pendingRecords, ps));
      && t.Some?
      && t.value.dlq == s.dlq + Saved(s.pendingRecords, ps)
      && t.value == s.(phase := t.value.phase, dlq := t.value.dlq, reported := t.value.reported)
      && t.value.phase == if |ps| == |s.pendingRecords| then Committing else DeadLettering(|ps|)
  {
    var rs := s.pendingRecords;
    if ps == [] {
    } else {
      DeadLettersRun(cfg, s, Init(ps));
      ExecSnoc(cfg, s, DeadLetters(rs, Init(ps)), DeadLetter(rs[|ps| - 1], Last(ps)));
      var m := Exec(cfg, s, DeadLetters(rs, Init(ps))).value;
      DeadLetterStep(cfg, m, Last(ps));
    }
  }

  /** The rows of the pending metrics that the failed write left behind. */
  function LeftBehind(s: State, landed: seq<bool>): seq<Row>
    requires |s.goods| == |s.pendingMetrics|
  {
    Masked(Zip(s.goods, s.pendingMetrics), landed)
  }

  lemma CommitStep(cfg: Config, s: State, commit: CommitOutcome)
    requires s.phase.Committing?
    ensures var t := Next(cfg, s, Commit(commit));
      && t.Some?
      && t.value.db == s.db && t.value.dlq == s.dlq
      && t.value.committed == CommitRecords(s.committed, s.pendingRecords, commit)
  {
  }

  lemma FailedFlushRuns(cfg: Config, s: State, landed: seq<bool>, ps: seq<Publish>, commit: CommitOutcome)
    requires s.phase.Writing? && |s.goods| == |s.pendingMetrics|
    requires |ps| == |s.pendingRecords| && s.pendingRecords != []
    ensures var t := Exec(cfg, s, FailedFlush(s.pendingRecords, landed, ps, commit));
      && t.Some?
      && t.value.db == s.db + LeftBehind(s, landed)
      && t.value.dlq == s.dlq + Saved(s.pendingRecords, ps)
      && t.value.committed == CommitRecords(s.committed, s.pendingRecords, commit)
  {
    var w := WriteBatch(WriteFailed(landed));
    var m := Next(cfg, s, w).value;
    var dead := DeadLetters(s.pendingRecords, ps);
    ExecSnoc(cfg, s, [], w);
    assert [] + [w] == [w];
    DeadLettersRun(cfg, m, ps);
    ExecConcat(cfg, s, [w], dead);
    ExecSnoc(cfg, s, [w] + dead, Commit(commit));
    CommitStep(cfg, Exec(cfg, m, dead).value, commit);
  }

  lemma DeliveryGrows(s: State, t: State, rows: seq<Row>, saved: seq<Record>, r: Record)
    requires t.db == s.db + rows && t.dlq == s.dlq + saved
    ensures Delivered(t, r) <==> Delivered(s, r) || r in Sources(rows) || r in saved
  {
    SourcesConcat(s.db, rows);
  }

  /** Of distinct records exactly those whose own publish landed are saved. */
  lemma SavedIff(rs: seq<Record>, ps: seq<Publish>, i: nat)
    requires |ps| == |rs| && i < |rs| && Distinct(rs)
    ensures rs[i] in Saved(rs, ps) <==> PublishLanded(ps[i])
  {
    SavedMembers(rs, ps, rs[i]);
  }

  lemma PassedIff(log: set<Record>, committed: Offsets, rs: seq<Record>, commit: CommitOutcome, r: Record)
    requires LogOk(log) && Fetch(log, committed, rs) && r in rs
    ensures Below(CommitRecords(committed, rs, commit), r) <==> LandedOn(commit, r.partition)
  {
    HeadsBounds(rs);
    FetchExact(log, committed, rs);
  }

  /** When the database write of a flush fails, a pending record ends up below the
      committed offsets if and only if the commit landed on its partition, and it
      is delivered if and only if it was before, its row landed anyway, or its own
      dead-letter publish landed. */
  lemma FailedFlushDeliversExactly(
      cfg: Config, start: Offsets, es: seq<Event>, s: State,
      landed: seq<bool>, ps: seq<Publish>, commit: CommitOutcome, i: nat)
    requires Run(cfg, start, es, s) && s.phase.Writing?
    requires |ps| == |s.pendingRecords| && i < |ps|
    ensures |s.goods| == |s.pendingMetrics| && Exec(cfg, s, FailedFlush(s.pendingRecords, landed, ps, commit)).Some?
    ensures var t := Exec(cfg, s, FailedFlush(s.pendingRecords, landed, ps, commit)).value;
      var r := s.pendingRecords[i];
      && (Below(t.committed, r) <==> LandedOn(commit, r.partition))
      && (Delivered(t, r) <==>
            Delivered(s, r) || r in Sources(LeftBehind(s, landed)) || PublishLanded(ps[i]))
  {
    var r := s.pendingRecords[i];
    FlushIsFetch(cfg, start, es, s);
    FetchExact(cfg.log, s.committed, s.pendingRecords);
    FailedFlushRuns(cfg, s, landed, ps, commit);
    var t := Exec(cfg, s, FailedFlush(s.pendingRecords, landed, ps, commit)).value;
    PassedIff(cfg.log, s.committed, s.pendingRecords, commit, r);
    DeliveryGrows(s, t, LeftBehind(s, landed), Saved(s.pendingRecords, ps), r);
    SavedIff(s.pendingRecords, ps, i);
  }

  /** Inside flush the pending records are what was fetched since the last commit. */
  lemma FlushIsFetch(cfg: Config, start: Offsets, es: seq<Event>, s: State)
    requires Run(cfg, start, es, s) && (s.phase.Writing? || s.phase.Committing?)
    ensures |s.goods| == |s.pendingMetrics| && s.pendingRecords != []
    ensures Fetch(cfg.log, s.committed, s.pendingRecords)
  {
    GoodsHold(cfg, start, es, s);
    LedgerHolds(cfg, start, es, s);
    assert Held(s) == s.pendingRecords;
  }

  /** The promise of the type comment, that a failed write commits no offsets,
      is kept exactly when the commit fails too and lands on no partition of the
      batch: for each partition, its committed offset changes if and only if the
      batch has a record of it and the commit landed there. */
  lemma FailedWriteCommitsNothingIff(
      cfg: Config, start: Offsets, es: seq<Event>, s: State,
      landed: seq<bool>, ps: seq<Publish>, commit: CommitOutcome)
    requires Run(cfg, start, es, s) && s.phase.Writing? && |ps| == |s.pendingRecords|
    ensures Exec(cfg, s, FailedFlush(s.pendingRecords, landed, ps, commit)).Some?
    ensures var t := Exec(cfg, s, FailedFlush(s.pendingRecords, landed, ps, commit)).value;
      (forall p :: At(t.committed, p) == At(s.committed, p)) <==>
        commit.CommitFailed? && commit.landed !! Partitions(s.pendingRecords)
  {
    var rs := s.pendingRecords;
    FlushIsFetch(cfg, start, es, s);
    FailedFlushRuns(cfg, s, landed, ps, commit);
    var t := Exec(cfg, s, FailedFlush(rs, landed, ps, commit)).value;
    forall p
      ensures At(t.committed, p) == At(s.committed, p) <==> !(p in Partitions(rs) && LandedOn(commit, p))
    {
      CommitAdvancesIff(cfg.log, s.committed, rs, commit, p);
    }
    assert rs[0].partition in Partitions(rs);
    if commit.CommitFailed? && !(commit.landed !! Partitions(rs)) {
      var p :| p in commit.landed && p in Partitions(rs);
      assert At(t.committed, p) != At(s.committed, p);
    }
  }

  /** A run that polls one decodable record and enters the flush. */
  lemma ReachesWriting(r: Record, decode: bytes -> Option<DeviceMetric>) returns (s: State)
    requires r.offset >= 0 && decode(r.value).Some?
    ensures Run(Config({r}, decode, 1, 0), map[], [Begin(0), Poll([r]), Decoded, EndOfFetch(0, false)], s)
    ensures s.phase.Writing? && s.pendingRecords == [r] && s.goods == [r] && |s.pendingMetrics| == 1
    ensures s.db == [] && s.dlq == []
  {
    var cfg, s0 := Config({r}, decode, 1, 0), Initial(map[]);
    assert Init([r]) == [] && AdvanceAll(map[], []) == map[] && NextUp(cfg.log, map[], r);
    assert Fetch(cfg.log, map[], []) && Fetch(cfg.log, map[], [r]);
    ExecSnoc(cfg, s0, [], Begin(0));
    assert [] + [Begin(0)] == [Begin(0)];
    ExecSnoc(cfg, s0, [Begin(0)], Poll([r]));
    assert [Begin(0)] + [Poll([r])] == [Begin(0), Poll([r])];
    ExecSnoc(cfg, s0, [Begin(0), Poll([r])], Decoded);
    assert [Begin(0), Poll([r])] + [Decoded] == [Begin(0), Poll([r]), Decoded];
    ExecSnoc(cfg, s0, [Begin(0), Poll([r]), Decoded], EndOfFetch(0, false));
    assert [Begin(0), Poll([r]), Decoded] + [EndOfFetch(0, false)]
        == [Begin(0), Poll([r]), Decoded, EndOfFetch(0, false)];
    s := Exec(cfg, s0, [Begin(0), Poll([r]), Decoded, EndOfFetch(0, false)]).value;
  }

  /** The promise of the type comment fails for every decodable record: its write
      and its dead-letter publish fail, its offset is committed, and it is
      neither in the database nor in the dead-letter topic. */
  lemma FailedWriteStillCommits(r: Record, decode: bytes -> Option<DeviceMetric>)
    requires r.offset >= 0 && decode(r.value).Some?
    ensures exists es, s ::
      && Run(Config({r}, decode, 1, 0), map[], es, s)
      && WriteBatch(WriteFailed([])) in es
      && Below(s.committed, r) && !Delivered(s, r)
  {
    var cfg, s0 := Config({r}, decode, 1, 0), Initial(map[]);
    var s4 := ReachesWriting(r, decode);
    var before := [Begin(0), Poll([r]), Decoded, EndOfFetch(0, false)];
    var flush := FailedFlush([r], [], [PublishFailed(false)], Committed);
    FailedFlushDeliversExactly(cfg, map[], before, s4, [], [PublishFailed(false)], Committed, 0);
    ExecConcat(cfg, s0, before, flush);
    assert s4.goods == [r] && LeftBehind(s4, []) == Masked(Init(Zip(s4.goods, s4.pendingMetrics)), []) + [];
    assert Init(Zip(s4.goods, s4.pendingMetrics)) == [];
    assert WriteBatch(WriteFailed([])) == (before + flush)[4];
    assert Run(cfg, map[], before + flush, Exec(cfg, s4, flush).value);
  }
}
