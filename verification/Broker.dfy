// The consumer-group view of a partitioned log: what a fetch may return, how
// fetching moves the client's position, and what a commit stores.
module Broker {
  import opened Prelude
  import opened Models

  /** Next offset to read or, for committed offsets, to resume from, by partition. */
  type Offsets = map<int, int>

  /** A partition without an entry is read from its start. */
  function At(m: Offsets, p: int): int {
    if p in m then m[p] else 0
  }

  /** Offsets identify a record within its partition. */
  ghost predicate LogOk(log: set<Record>) {
    && (forall r :: r in log ==> r.offset >= 0)
    && (forall q, r :: q in log && r in log && q.partition == r.partition && q.offset == r.offset ==> q == r)
  }

  predicate Below(m: Offsets, r: Record) {
    r.offset < At(m, r.partition)
  }

  function Advance(m: Offsets, r: Record): Offsets {
    m[r.partition := r.offset + 1]
  }

  function AdvanceAll(m: Offsets, rs: seq<Record>): Offsets {
    if rs == [] then m else Advance(AdvanceAll(m, Init(rs)), Last(rs))
  }

  /** r is the first record of its partition at or after the position. */
  predicate NextUp(log: set<Record>, pos: Offsets, r: Record) {
    && r in log
    && !Below(pos, r)
    && (forall q | q in log :: q.partition == r.partition && !Below(pos, q) ==> r.offset <= q.offset)
  }

  /** rs can be delivered from pos: partitions interleave freely, none skips a record. */
  predicate Fetch(log: set<Record>, pos: Offsets, rs: seq<Record>) {
    rs == [] || (Fetch(log, pos, Init(rs)) && NextUp(log, AdvanceAll(pos, Init(rs)), Last(rs)))
  }

  /** Per partition, one past the highest offset among the records. */
  function Heads(rs: seq<Record>): Offsets {
    if rs == [] then map[]
    else
      var h, r := Heads(Init(rs)), Last(rs);
      if r.partition in h && h[r.partition] > r.offset then h else Advance(h, r)
  }

  function Partitions(rs: seq<Record>): set<int> {
    set r | r in rs :: r.partition
  }

  /** A publish that reports failure may still have landed. */
  datatype Publish = Sent | PublishFailed(landed: bool)

  datatype CommitOutcome = Committed | CommitFailed(landed: set<int>)

  /** Committing the records overwrites the offset of every partition they touch;
      a commit that reports failure may still have landed on some partitions. */
  function CommitRecords(committed: Offsets, rs: seq<Record>, outcome: CommitOutcome): Offsets {
    match outcome
    case Committed => committed + Heads(rs)
    case CommitFailed(landed) => committed + (map p | p in Heads(rs) && p in landed :: Heads(rs)[p])
  }

  lemma {:induction false} HeadsBounds(rs: seq<Record>)
    ensures forall r :: r in rs ==> r.partition in Heads(rs) && r.offset < Heads(rs)[r.partition]
    ensures forall p :: p in Heads(rs) ==>
      exists r :: r in rs && r.partition == p && r.offset + 1 == Heads(rs)[p]
  {
    if rs == [] {
    } else {
      var h, x := Heads(Init(rs)), Last(rs);
      HeadsBounds(Init(rs));
      assert rs == Init(rs) + [x];
      forall p | p in Heads(rs)
        ensures exists r :: r in rs && r.partition == p && r.offset + 1 == Heads(rs)[p]
      {
        if p in h && Heads(rs)[p] == h[p] {
          var r :| r in Init(rs) && r.partition == p && r.offset + 1 == h[p];
          assert r in rs;
        } else {
          assert x in rs;
        }
      }
    }
  }

  /** Where a commit landed, some passed record sits just below the new offset. */
  lemma CommitPassesRecord(committed: Offsets, rs: seq<Record>, outcome: CommitOutcome, p: int)
    ensures var c := CommitRecords(committed, rs, outcome);
      At(c, p) == At(committed, p) || exists r :: r in rs && r.partition == p && r.offset + 1 == At(c, p)
  {
    HeadsBounds(rs);
  }

  lemma {:induction false} AdvanceAllConcat(m: Offsets, a: seq<Record>, b: seq<Record>)
    ensures AdvanceAll(m, a + b) == AdvanceAll(AdvanceAll(m, a), b)
  {
    if b == [] {
      assert a + b == a;
    } else {
      AdvanceAllConcat(m, a, Init(b));
      assert Init(a + b) == a + Init(b);
    }
  }

  lemma {:induction false} FetchConcat(log: set<Record>, pos: Offsets, a: seq<Record>, b: seq<Record>)
    requires Fetch(log, pos, a) && Fetch(log, AdvanceAll(pos, a), b)
    ensures Fetch(log, pos, a + b)
  {
    if b == [] {
      assert a + b == a;
    } else {
      FetchConcat(log, pos, a, Init(b));
      AdvanceAllConcat(pos, a, Init(b));
      assert Init(a + b) == a + Init(b);
    }
  }

  /** Fetching never moves a position back. */
  lemma {:induction false} FetchMonotone(log: set<Record>, pos: Offsets, rs: seq<Record>, p: int)
    requires Fetch(log, pos, rs)
    ensures At(pos, p) <= At(AdvanceAll(pos, rs), p)
  {
    if rs == [] {
    } else {
      FetchMonotone(log, pos, Init(rs), p);
    }
  }

  /** A fetch delivers every record it moves past, only those, and each once:
      the delivered records are exactly the log between the two positions. */
  lemma {:induction false} FetchExact(log: set<Record>, pos: Offsets, rs: seq<Record>)
    requires LogOk(log) && Fetch(log, pos, rs)
    ensures forall r :: r in rs <==> r in log && !Below(pos, r) && Below(AdvanceAll(pos, rs), r)
    ensures Distinct(rs)
  {
    if rs == [] {
    } else {
      var x, mid := Last(rs), AdvanceAll(pos, Init(rs));
      FetchExact(log, pos, Init(rs));
      FetchMonotone(log, pos, Init(rs), x.partition);
      assert rs == Init(rs) + [x];
      assert x !in Init(rs);
      forall r | r in log && !Below(pos, r) && Below(AdvanceAll(pos, rs), r)
        ensures r in rs
      {
        if !Below(mid, r) {
          assert r.partition == x.partition && r.offset == x.offset;
        }
      }
    }
  }

  lemma FetchMoves(log: set<Record>, pos: Offsets, rs: seq<Record>)
    requires LogOk(log) && Fetch(log, pos, rs)
    ensures forall r :: r in rs ==> Below(AdvanceAll(pos, rs), r)
    ensures forall r :: Below(pos, r) ==> Below(AdvanceAll(pos, rs), r)
    ensures forall r :: r in log && Below(AdvanceAll(pos, rs), r) ==> Below(pos, r) || r in rs
  {
    FetchExact(log, pos, rs);
    forall r | Below(pos, r)
      ensures Below(AdvanceAll(pos, rs), r)
    {
      FetchMonotone(log, pos, rs, r.partition);
    }
  }

  /** Committing what was fetched since the last commit brings the committed
      offsets to the client's position. */
  lemma {:induction false} CommitReachesPosition(log: set<Record>, committed: Offsets, rs: seq<Record>)
    requires LogOk(log) && Fetch(log, committed, rs)
    ensures CommitRecords(committed, rs, Committed) == AdvanceAll(committed, rs)
  {
    if rs == [] {
    } else {
      var h, x := Heads(Init(rs)), Last(rs);
      CommitReachesPosition(log, committed, Init(rs));
      assert !Below(AdvanceAll(committed, Init(rs)), x);
      assert x.partition in h ==> h[x.partition] == At(committed + h, x.partition);
      assert Heads(rs) == Advance(h, x);
    }
  }

  lemma {:induction false} HeadsPartitions(rs: seq<Record>)
    ensures forall p :: p in Heads(rs) <==> p in Partitions(rs)
  {
    HeadsBounds(rs);
    forall p | p in Partitions(rs)
      ensures p in Heads(rs)
    {
      var r :| r in rs && r.partition == p;
    }
  }

  predicate LandedOn(outcome: CommitOutcome, p: int) {
    outcome.Committed? || p in outcome.landed
  }

  /** A commit overwrites exactly the offsets it landed on. */
  lemma CommitOverwrites(committed: Offsets, rs: seq<Record>, outcome: CommitOutcome, p: int)
    ensures At(CommitRecords(committed, rs, outcome), p) ==
      if p in Heads(rs) && LandedOn(outcome, p) then Heads(rs)[p] else At(committed, p)
  {
  }

  /** A commit of records fetched since the last one advances exactly the
      partitions of the records on which it landed. */
  lemma CommitAdvancesIff(log: set<Record>, committed: Offsets, rs: seq<Record>, outcome: CommitOutcome, p: int)
    requires LogOk(log) && Fetch(log, committed, rs)
    ensures var c := CommitRecords(committed, rs, outcome);
      if p in Partitions(rs) && LandedOn(outcome, p) then At(committed, p) < At(c, p)
      else At(committed, p) == At(c, p)
  {
    HeadsBounds(rs);
    HeadsPartitions(rs);
    CommitOverwrites(committed, rs, outcome, p);
    FetchExact(log, committed, rs);
    if p in Partitions(rs) {
      var r :| r in rs && r.partition == p;
      assert !Below(committed, r) && r.offset < Heads(rs)[p];
    }
  }

  lemma CommitLandingEverywhere(committed: Offsets, rs: seq<Record>)
    ensures CommitRecords(committed, rs, Committed) == CommitRecords(committed, rs, CommitFailed(Partitions(rs)))
  {
    HeadsPartitions(rs);
    var h, all := Heads(rs), Partitions(rs);
    var landed := map p | p in h && p in all :: h[p];
    forall p | p in h
      ensures p in landed
    {
      assert p in all;
    }
    assert landed == h;
    assert CommitRecords(committed, rs, CommitFailed(all)) == committed + landed;
  }

  /** A fetch moves exactly the partitions it delivers from. */
  lemma {:induction false} FetchMovesPartitions(log: set<Record>, pos: Offsets, rs: seq<Record>, p: int)
    requires LogOk(log) && Fetch(log, pos, rs)
    ensures p in Partitions(rs) ==> At(pos, p) < At(AdvanceAll(pos, rs), p)
    ensures p !in Partitions(rs) ==> At(pos, p) == At(AdvanceAll(pos, rs), p)
  {
    if p in Partitions(rs) {
      var r :| r in rs && r.partition == p;
      FetchExact(log, pos, rs);
      assert !Below(pos, r) && Below(AdvanceAll(pos, rs), r);
    } else {
      OthersStay(pos, rs, p);
    }
  }

  lemma {:induction false} OthersStay(pos: Offsets, rs: seq<Record>, p: int)
    requires forall r :: r in rs ==> r.partition != p
    ensures At(AdvanceAll(pos, rs), p) == At(pos, p)
  {
    if rs == [] {
    } else {
      assert Last(rs) in rs && forall r :: r in Init(rs) ==> r in rs;
      OthersStay(pos, Init(rs), p);
    }
  }
}
