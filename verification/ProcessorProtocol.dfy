// The processor's poll-process-publish-commit loop as an event automaton, with
// the window and the detector as part of its memory. It commits once per poll,
// goes on after a failed commit, and never commits under a cancelled context.
module ProcessorProtocol {
  import opened Prelude
  import opened Models
  import opened Broker
  import opened SlidingWindow
  import opened Anomaly
  import opened Operators

  datatype Config = Config(
    log: set<Record>,
    decode: bytes -> Option<DeviceMetric>,
    settings: Settings)

  datatype Event =
    | Cancel
    | Stop
    | Poll(batch: seq<Record>)
    | Undecodable(record: Record)
    | PushWindow(record: Record)
    | PublishAggregate(out: AggregateOut, publish: Publish)
    | PublishAlert(alert: DeviceAlert, publish: Publish)
    | Complete(record: Record)
    | DeadLetter(record: Record, publish: Publish)
    | EndOfPoll
    | Commit(commit: CommitOutcome)
    | Restart

  /** The inbox starts with the record being processed. */
  datatype Phase =
    | Top
    | Draining(inbox: seq<Record>)
    | Publishing(inbox: seq<Record>, agg: WindowAggregate)
    | Alerting(inbox: seq<Record>, agg: WindowAggregate, alerts: seq<DeviceAlert>, k: nat)
    | Failing(inbox: seq<Record>)
    | Committing
    | Returned

  datatype AggregateOut = AggregateOut(source: Record, agg: WindowAggregate, location: string)

  datatype AlertOut = AlertOut(source: Record, alert: DeviceAlert)

  datatype State = State(
    // process memory
    phase: Phase,
    cancelled: bool,
    ops: Ops,
    handled: seq<Record>,             // polled records this process is done with
    toCommit: seq<Record>,
    position: Offsets,
    polledFrom: Offsets,              // position before the current poll
    behind: set<int>,                 // partitions whose last poll was not committed
    // the outside world
    committed: Offsets,
    aggregates: seq<AggregateOut>,
    alerts: seq<AlertOut>,
    completed: map<Record, Output>,   // records processed without error, and what for
    dlq: seq<Record>,
    reported: set<Record>)

  function Initial(committed: Offsets): State {
    State(Top, false, FRESH, [], [], committed, committed, {}, committed, [], [], map[], [], {})
  }

  /** The partitions left behind once the commit of rs has ended. */
  function StillBehind(behind: set<int>, rs: seq<Record>, outcome: CommitOutcome): set<int> {
    match outcome
    case Committed => behind - Partitions(rs)
    case CommitFailed(landed) => (behind - (Partitions(rs) * landed)) + (Partitions(rs) - landed)
  }

  function Finish(s: State, inbox: seq<Record>): State
    requires inbox != []
  {
    s.(phase := Draining(inbox[1..]), toCommit := s.toCommit + [inbox[0]], handled := s.handled + [inbox[0]])
  }

  function OnPoll(cfg: Config, s: State, batch: seq<Record>): Option<State> {
    if s.phase.Top? && Fetch(cfg.log, s.position, batch) then
      Some(s.(phase := Draining(batch), polledFrom := s.position, position := AdvanceAll(s.position, batch)))
    else None
  }

  /** r is the record that comes next. */
  predicate Foremost(inbox: seq<Record>, r: Record) {
    inbox != [] && inbox[0] == r
  }

  function OnUndecodable(s: State, r: Record): Option<State> {
    if s.phase.Draining? && Foremost(s.phase.inbox, r) then Some(s.(phase := Failing(s.phase.inbox))) else None
  }

  function OnPushWindow(cfg: Config, s: State, r: Record): Option<State> {
    if s.phase.Draining? && Foremost(s.phase.inbox, r) && cfg.decode(r.value).Some? then
      var m := cfg.decode(r.value).value;
      Some(s.(phase := Publishing(s.phase.inbox, AggregateOf(cfg.settings, s.ops, m)),
              ops := AfterPush(cfg.settings, s.ops, m)))
    else None
  }

  function OnPublishAggregate(cfg: Config, s: State, out: AggregateOut, publish: Publish): Option<State> {
    if s.phase.Publishing? && Foremost(s.phase.inbox, out.source) && out.agg == s.phase.agg then
      var Publishing(inbox, agg) := s.phase;
      match publish
      case Sent =>
        Some(s.(phase := Alerting(inbox, agg, Emits(cfg.settings.th, s.ops.active, agg), 0),
                aggregates := s.aggregates + [out],
                ops := s.ops.(active := NextActive(cfg.settings.th, s.ops.active, agg))))
      case PublishFailed(landed) =>
        Some(s.(phase := Failing(inbox), aggregates := s.aggregates + if landed then [out] else []))
    else None
  }

  function OnPublishAlert(s: State, alert: DeviceAlert, publish: Publish): Option<State> {
    if s.phase.Alerting? && s.phase.inbox != []
       && s.phase.k < |s.phase.alerts| && s.phase.alerts[s.phase.k] == alert then
      var Alerting(inbox, agg, alerts, k) := s.phase;
      var out := AlertOut(inbox[0], alert);
      match publish
      case Sent => Some(s.(phase := Alerting(inbox, agg, alerts, k + 1), alerts := s.alerts + [out]))
      case PublishFailed(landed) =>
        Some(s.(phase := Failing(inbox), alerts := s.alerts + if landed then [out] else []))
    else None
  }

  function OnComplete(s: State, r: Record): Option<State> {
    if s.phase.Alerting? && Foremost(s.phase.inbox, r) && s.phase.k == |s.phase.alerts| then
      Some(Finish(s, s.phase.inbox).(completed := s.completed[r := Output(s.phase.agg, s.phase.alerts)]))
    else None
  }

  function OnDeadLetter(s: State, r: Record, publish: Publish): Option<State> {
    if s.phase.Failing? && Foremost(s.phase.inbox, r) then
      match publish
      case Sent => Some(Finish(s, s.phase.inbox).(dlq := s.dlq + [r]))
      case PublishFailed(landed) =>
        Some(Finish(s, s.phase.inbox).(dlq := s.dlq + (if landed then [r] else []), reported := s.reported + {r}))
    else None
  }

  function OnEndOfPoll(s: State): Option<State> {
    if !(s.phase.Draining? && s.phase.inbox == []) then None
    else if s.toCommit != [] && !s.cancelled then Some(s.(phase := Committing))
    else Some(s.(phase := Top, toCommit := [], behind := s.behind + Partitions(s.toCommit), polledFrom := s.position))
  }

  function OnCommit(s: State, outcome: CommitOutcome): Option<State> {
    if s.phase.Committing? then
      Some(s.(phase := Top,
              toCommit := [],
              committed := CommitRecords(s.committed, s.toCommit, outcome),
              behind := StillBehind(s.behind, s.toCommit, outcome),
              polledFrom := s.position))
    else None
  }

  /** The state after event e, or None when e cannot happen in s. */
  function Next(cfg: Config, s: State, e: Event): Option<State> {
    match e
    case Cancel => Some(s.(cancelled := true))
    case Stop => if s.phase.Top? then Some(s.(phase := Returned)) else None
    case Poll(batch) => OnPoll(cfg, s, batch)
    case Undecodable(r) => OnUndecodable(s, r)
    case PushWindow(r) => OnPushWindow(cfg, s, r)
    case PublishAggregate(out, publish) => OnPublishAggregate(cfg, s, out, publish)
    case PublishAlert(alert, publish) => OnPublishAlert(s, alert, publish)
    case Complete(r) => OnComplete(s, r)
    case DeadLetter(r, publish) => OnDeadLetter(s, r, publish)
    case EndOfPoll => OnEndOfPoll(s)
    case Commit(outcome) => OnCommit(s, outcome)
    case Restart =>
      Some(Initial(s.committed).(aggregates := s.aggregates, alerts := s.alerts, completed := s.completed,
                                 dlq := s.dlq, reported := s.reported))
  }

  function Stepper(cfg: Config): (State, Event) -> Option<State> {
    (s: State, e: Event) => Next(cfg, s, e)
  }

  function Exec(cfg: Config, s: State, es: seq<Event>): Option<State> {
    Fold(Stepper(cfg), s, es)
  }

  ghost predicate Run(cfg: Config, start: Offsets, es: seq<Event>, s: State) {
    LogOk(cfg.log) && Exec(cfg, Initial(start), es) == Some(s)
  }

  lemma ExecSnoc(cfg: Config, s: State, es: seq<Event>, e: Event)
    requires Exec(cfg, s, es).Some?
    ensures Exec(cfg, s, es + [e]) == Next(cfg, Exec(cfg, s, es).value, e)
  {
    FoldSnoc(Stepper(cfg), s, es, e);
  }

  lemma ExecConcat(cfg: Config, s: State, a: seq<Event>, b: seq<Event>)
    requires Exec(cfg, s, a).Some?
    ensures Exec(cfg, s, a + b) == Exec(cfg, Exec(cfg, s, a).value, b)
  {
    FoldConcat(Stepper(cfg), s, a, b);
  }

  /** Cutting a run anywhere leaves a run. */
  lemma RunPrefix(cfg: Config, s: State, es: seq<Event>, n: nat)
    requires n <= |es| && Exec(cfg, s, es).Some?
    ensures Exec(cfg, s, es[..n]).Some?
  {
    FoldPrefix(Stepper(cfg), s, es, n);
  }
}
