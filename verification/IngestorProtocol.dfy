// The ingestor's poll-batch-flush-commit loop as an event automaton. An event is
// one effect of the process or one answer of its environment; a run is any
// sequence of events the automaton accepts. Every deserialization, database
// write, dead-letter publish and commit may fail, and Restart may follow any
// event: it forgets the process's memory and resumes from the committed offsets.
module IngestorProtocol {
  import opened Prelude
  import opened Models
  import opened Broker

  datatype Config = Config(
    log: set<Record>,
    decode: bytes -> Option<DeviceMetric>,
    batchSize: int,
    flushInterval: int)

  /** A write that reports failure may have landed any subset of its rows. */
  datatype Write = Written | WriteFailed(landed: seq<bool>)

  datatype Event =
    | Begin(now: int)
    | Cancel
    | Stop
    | Poll(batch: seq<Record>)
    | Decoded
    | Poison(record: Record, publish: Publish)   // record did not decode
    | EndOfFetch(now: int, cancelled: bool)
    | WriteBatch(write: Write)
    | DeadLetter(record: Record, publish: Publish)
    | Commit(commit: CommitOutcome)
    | Tick(now: int)
    | Shutdown
    | Restart

  datatype Phase =
    | Starting
    | Top                             // head of the poll loop
    | Draining(inbox: seq<Record>)    // iterating over a fetch
    | Writing                         // inside flush, from here ...
    | DeadLettering(k: nat)
    | Committing                      // ... to here
    | Flushed                         // flush returned nil inside Run
    | Returned                        // Run returned
    | Closed(ok: bool)                // Shutdown returned

  /** A database row with the record it came from; the table holds the metric. */
  datatype Row = Row(source: Record, metric: DeviceMetric)

  datatype State = State(
    // process memory
    phase: Phase,
    runOk: bool,                      // false once Run has returned an error
    final: bool,                      // the flush in progress is Shutdown's
    cancelled: bool,                  // the context; Shutdown is given a fresh one
    pendingMetrics: seq<DeviceMetric>,
    pendingRecords: seq<Record>,
    goods: seq<Record>,               // sources of pendingMetrics
    lastFlush: int,
    position: Offsets,
    handled: seq<Record>,             // polled records the loop has iterated over
    // the outside world
    committed: Offsets,
    db: seq<Row>,
    dlq: seq<Record>,
    reported: set<Record>,            // dead-letter publishes reported as failed
    unclean: nat)                     // restarts not preceded by a clean shutdown

  function Initial(committed: Offsets): State {
    State(Starting, true, false, false, [], [], [], 0, committed, [], committed, [], [], {}, 0)
  }

  function Zip(rs: seq<Record>, ms: seq<DeviceMetric>): seq<Row>
    requires |rs| == |ms|
  {
    if rs == [] then [] else Zip(Init(rs), Init(ms)) + [Row(Last(rs), Last(ms))]
  }

  /** The rows a write leaves behind. A mask shorter than the batch means false. */
  function Landed(rows: seq<Row>, write: Write): seq<Row> {
    match write
    case Written => rows
    case WriteFailed(mask) => Masked(rows, mask)
  }

  function Masked(rows: seq<Row>, mask: seq<bool>): seq<Row> {
    if rows == [] then []
    else
      Masked(Init(rows), mask)
      + (if |rows| <= |mask| && mask[|rows| - 1] then [Last(rows)] else [])
  }

  function Publishes(s: State, r: Record, publish: Publish): State {
    match publish
    case Sent => s.(dlq := s.dlq + [r])
    case PublishFailed(landed) =>
      s.(dlq := s.dlq + (if landed then [r] else []), reported := s.reported + {r})
  }

  function EnterFlush(s: State): State {
    if s.pendingRecords == [] then LeaveFlush(s, true)
    else s.(phase := if |s.pendingMetrics| > 0 then Writing else Committing)
  }

  function LeaveFlush(s: State, ok: bool): State {
    s.(pendingMetrics := [],
       pendingRecords := [],
       goods := [],
       runOk := s.runOk && (s.final || ok),
       phase := if s.final then Closed(ok) else if ok then Flushed else Returned)
  }

  predicate ShouldFlush(cfg: Config, s: State, now: int) {
    || |s.pendingMetrics| >= cfg.batchSize
    || (|s.pendingRecords| > 0 && now - s.lastFlush >= cfg.flushInterval)
  }

  predicate CleanStop(s: State) {
    s.phase == Closed(true) && s.runOk
  }

  function OnPoll(cfg: Config, s: State, batch: seq<Record>): Option<State> {
    if s.phase.Top? && Fetch(cfg.log, s.position, batch) then
      Some(s.(phase := Draining(batch),
              position := AdvanceAll(s.position, batch)))
    else None
  }

  function OnDecoded(cfg: Config, s: State): Option<State> {
    if s.phase.Draining? && s.phase.inbox != [] && cfg.decode(s.phase.inbox[0].value).Some? then
      var r := s.phase.inbox[0];
      Some(s.(phase := Draining(s.phase.inbox[1..]),
              handled := s.handled + [r],
              pendingMetrics := s.pendingMetrics + [cfg.decode(r.value).value],
              pendingRecords := s.pendingRecords + [r],
              goods := s.goods + [r]))
    else None
  }

  function OnPoison(s: State, r: Record, publish: Publish): Option<State> {
    if s.phase.Draining? && s.phase.inbox != [] && s.phase.inbox[0] == r then
      Some(Publishes(s, r, publish).(phase := Draining(s.phase.inbox[1..]),
                                     handled := s.handled + [r],
                                     pendingRecords := s.pendingRecords + [r]))
    else None
  }

  function OnEndOfFetch(cfg: Config, s: State, now: int, cancelled: bool): Option<State> {
    if !(s.phase.Draining? && s.phase.inbox == [] && cancelled == s.cancelled) then None
    else if ShouldFlush(cfg, s, now) && !cancelled then Some(EnterFlush(s))
    else Some(s.(phase := Top))
  }

  function OnWriteBatch(s: State, write: Write): Option<State> {
    if s.phase.Writing? && |s.goods| == |s.pendingMetrics| then
      Some(s.(db := s.db + Landed(Zip(s.goods, s.pendingMetrics), write),
              phase := if write.Written? then Committing else DeadLettering(0)))
    else None
  }

  function OnDeadLetter(s: State, r: Record, publish: Publish): Option<State> {
    if s.phase.DeadLettering? && s.phase.k < |s.pendingRecords| && s.pendingRecords[s.phase.k] == r then
      var k := s.phase.k;
      Some(Publishes(s, r, publish).(
           phase := if k + 1 == |s.pendingRecords| then Committing else DeadLettering(k + 1)))
    else None
  }

  function OnCommit(s: State, outcome: CommitOutcome): Option<State> {
    if s.phase.Committing? then
      Some(LeaveFlush(s, outcome.Committed?).(committed := CommitRecords(s.committed, s.pendingRecords, outcome)))
    else None
  }

  /** The state after event e, or None when e cannot happen in s. */
  function Next(cfg: Config, s: State, e: Event): Option<State> {
    match e
    case Begin(now) => if s.phase.Starting? then Some(s.(phase := Top, lastFlush := now)) else None
    case Cancel => Some(s.(cancelled := true))
    case Stop => if s.phase.Top? then Some(s.(phase := Returned)) else None
    case Poll(batch) => OnPoll(cfg, s, batch)
    case Decoded => OnDecoded(cfg, s)
    case Poison(record, publish) => OnPoison(s, record, publish)
    case EndOfFetch(now, cancelled) => OnEndOfFetch(cfg, s, now, cancelled)
    case WriteBatch(write) => OnWriteBatch(s, write)
    case DeadLetter(record, publish) => OnDeadLetter(s, record, publish)
    case Commit(outcome) => OnCommit(s, outcome)
    case Tick(now) => if s.phase.Flushed? then Some(s.(phase := Top, lastFlush := now)) else None
    case Shutdown => if s.phase.Returned? then Some(EnterFlush(s.(final := true, cancelled := false))) else None
    case Restart =>
      Some(Initial(s.committed).(db := s.db, dlq := s.dlq, reported := s.reported,
                                 unclean := s.unclean + if CleanStop(s) then 0 else 1))
  }

  /** The state a sequence of events leads to, or None when it is not a run. */
  function Stepper(cfg: Config): (State, Event) -> Option<State> {
    (s: State, e: Event) => Next(cfg, s, e)
  }

  function Exec(cfg: Config, s: State, es: seq<Event>): Option<State> {
    Fold(Stepper(cfg), s, es)
  }

  ghost predicate Run(cfg: Config, start: Offsets, es: seq<Event>, s: State) {
    LogOk(cfg.log) && Exec(cfg, Initial(start), es) == Some(s)
  }

  lemma ExecSnoc(cfg: Config, s: State, es: seq<Event>, e: Event)
    requires Exec(cfg, s, es).Some?
    ensures Exec(cfg, s, es + [e]) == Next(cfg, Exec(cfg, s, es).value, e)
  {
    FoldSnoc(Stepper(cfg), s, es, e);
  }

  lemma ExecConcat(cfg: Config, s: State, a: seq<Event>, b: seq<Event>)
    requires Exec(cfg, s, a).Some?
    ensures Exec(cfg, s, a + b) == Exec(cfg, Exec(cfg, s, a).value, b)
  {
    FoldConcat(Stepper(cfg), s, a, b);
  }

  /** Cutting a run anywhere leaves a run: every theorem below about the last
      state of a run holds at every step of it, in particular at a crash. */
  lemma RunPrefix(cfg: Config, s: State, es: seq<Event>, n: nat)
    requires n <= |es| && Exec(cfg, s, es).Some?
    ensures Exec(cfg, s, es[..n]).Some?
  {
    FoldPrefix(Stepper(cfg), s, es, n);
  }
}
