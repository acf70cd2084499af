// What the processor publishes, read off the events of a run: what its operators
// have seen, what each record was completed for, which alerts it hands to the
// publisher, and how often a record's aggregate can be repeated.
module ProcessorOutputs {
  import opened Prelude
  import opened Models
  import opened Broker
  import opened SlidingWindow
  import opened Anomaly
  import opened Operators
  import opened ProcessorProtocol
  import opened ProcessorSafety
  import opened ProcessorGuarantees

  // ---- what the running process has done since its start ----

  function PolledAfter(polled: seq<Record>, e: Event): seq<Record> {
    match e
    case Poll(batch) => polled + batch
    case Restart => []
    case _ => polled
  }

  /** The records polled since the last restart, in order. */
  function Polled(es: seq<Event>): seq<Record> {
    if es == [] then [] else PolledAfter(Polled(Init(es)), Last(es))
  }

  function PushedAfter(pushed: seq<Record>, e: Event): seq<Record> {
    match e
    case PushWindow(r) => pushed + [r]
    case Restart => []
    case _ => pushed
  }

  /** The records pushed into the window since the last restart, in order. */
  function Pushed(es: seq<Event>): seq<Record> {
    if es == [] then [] else PushedAfter(Pushed(Init(es)), Last(es))
  }

  function SentAfter(sent: seq<WindowAggregate>, e: Event): seq<WindowAggregate> {
    match e
    case PublishAggregate(out, publish) => sent + if publish.Sent? then [out.agg] else []
    case Restart => []
    case _ => sent
  }

  /** The aggregates published since the last restart, in order. */
  function SentAggregates(es: seq<Event>): seq<WindowAggregate> {
    if es == [] then [] else SentAfter(SentAggregates(Init(es)), Last(es))
  }

  function ItemsAfter(decode: bytes -> Option<DeviceMetric>, items: seq<Item>, e: Event): seq<Item> {
    match e
    case PublishAggregate(out, publish) =>
      items + (match decode(out.source.value)
               case None => []
               case Some(m) => [Item(m, publish.Sent?)])
    case Restart => []
    case _ => items
  }

  /** The readings whose aggregate publish was attempted since the last restart,
      and whether it succeeded. */
  function Items(decode: bytes -> Option<DeviceMetric>, es: seq<Event>): seq<Item> {
    if es == [] then [] else ItemsAfter(decode, Items(decode, Init(es)), Last(es))
  }

  // ---- the operators have seen exactly the pushed records ----

  /** The window and the detector hold what the items determine. */
  ghost predicate OpsOk(cfg: Config, s: State, items: seq<Item>) {
    var ops := OpsAfter(cfg.settings, items);
    match s.phase
    case Publishing(inbox, agg) =>
      && inbox != [] && cfg.decode(inbox[0].value).Some?
      && var m := cfg.decode(inbox[0].value).value;
         s.ops == AfterPush(cfg.settings, ops, m) && agg == AggregateOf(cfg.settings, ops, m)
    case Alerting(inbox, agg, alerts, k) =>
      inbox != [] && s.ops == ops && OutputFrom(cfg, items, inbox[0], Output(agg, alerts))
    case _ => s.ops == ops
  }

  /** o is the output for the last item, which decodes r, after those before it. */
  ghost predicate OutputFrom(cfg: Config, items: seq<Item>, r: Record, o: Output) {
    && items != [] && Last(items).published && cfg.decode(r.value) == Some(Last(items).metric)
    && o == OutputOf(cfg.settings, OpsAfter(cfg.settings, Init(items)), Last(items))
  }

  predicate Decodings(decode: bytes -> Option<DeviceMetric>, rs: seq<Record>, items: seq<Item>) {
    |items| == |rs| && forall i :: 0 <= i < |rs| ==> decode(rs[i].value) == Some(items[i].metric)
  }

  /** The items decode the pushed records, but for one still to be published. */
  predicate PushedOk(cfg: Config, s: State, pushed: seq<Record>, items: seq<Item>) {
    match s.phase
    case Publishing(inbox, _) =>
      pushed != [] && Foremost(inbox, Last(pushed)) && Decodings(cfg.decode, Init(pushed), items)
    case Alerting(inbox, _, _, _) =>
      pushed != [] && Foremost(inbox, Last(pushed)) && Decodings(cfg.decode, pushed, items)
    case _ => Decodings(cfg.decode, pushed, items)
  }

  ghost predicate SeenOk(cfg: Config, s: State, es: seq<Event>) {
    && OpsOk(cfg, s, Items(cfg.decode, es))
    && PushedOk(cfg, s, Pushed(es), Items(cfg.decode, es))
    && SentAggregates(es) == PublishedAggregates(cfg.settings, Items(cfg.decode, es))
  }

  lemma PushWindowKeepsSeen(cfg: Config, s: State, es: seq<Event>, r: Record)
    requires SeenOk(cfg, s, es) && Next(cfg, s, PushWindow(r)).Some?
    ensures SeenOk(cfg, Next(cfg, s, PushWindow(r)).value, es + [PushWindow(r)])
  {
    var pushed := Pushed(es);
    assert Init(es + [PushWindow(r)]) == es;
    assert Init(pushed + [r]) == pushed;
  }

  lemma PublishAggregateKeepsOps(
      cfg: Config, s: State, out: AggregateOut, publish: Publish, items: seq<Item>, item: Item)
    requires OpsOk(cfg, s, items) && Next(cfg, s, PublishAggregate(out, publish)).Some?
    requires cfg.decode(out.source.value) == Some(item.metric) && item.published == publish.Sent?
    ensures OpsOk(cfg, Next(cfg, s, PublishAggregate(out, publish)).value, items + [item])
    ensures out.agg == AggregateOf(cfg.settings, OpsAfter(cfg.settings, items), item.metric)
  {
    assert Init(items + [item]) == items && Last(items + [item]) == item;
  }

  /** The attempted record's item joins those of the records pushed before it. */
  lemma DecodingsSnoc(decode: bytes -> Option<DeviceMetric>, pushed: seq<Record>, items: seq<Item>, item: Item)
    requires pushed != [] && Decodings(decode, Init(pushed), items)
    requires decode(Last(pushed).value) == Some(item.metric)
    ensures Decodings(decode, pushed, items + [item])
  {
    assert forall i :: 0 <= i < |items| ==> Init(pushed)[i] == pushed[i];
  }

  lemma AttemptedItem(
      cfg: Config, es: seq<Event>, out: AggregateOut, publish: Publish, items: seq<Item>, item: Item)
    requires items == Items(cfg.decode, es) && SentAggregates(es) == PublishedAggregates(cfg.settings, items)
    requires cfg.decode(out.source.value) == Some(item.metric) && item.published == publish.Sent?
    requires out.agg == AggregateOf(cfg.settings, OpsAfter(cfg.settings, items), item.metric)
    ensures var es' := es + [PublishAggregate(out, publish)];
      && Items(cfg.decode, es') == items + [item] && Pushed(es') == Pushed(es)
      && SentAggregates(es') == PublishedAggregates(cfg.settings, items + [item])
  {
    assert Init(es + [PublishAggregate(out, publish)]) == es;
    assert Init(items + [item]) == items && Last(items + [item]) == item;
  }

  lemma PublishAggregateLeaves(cfg: Config, s: State, out: AggregateOut, publish: Publish)
    requires Next(cfg, s, PublishAggregate(out, publish)).Some?
    ensures s.phase.Publishing? && Foremost(s.phase.inbox, out.source)
    ensures var t := Next(cfg, s, PublishAggregate(out, publish)).value;
      (t.phase.Alerting? || t.phase.Failing?) && Inbox(t) == s.phase.inbox
  {
  }

  lemma PublishAggregateKeepsSeen(cfg: Config, s: State, es: seq<Event>, out: AggregateOut, publish: Publish)
    requires SeenOk(cfg, s, es) && Next(cfg, s, PublishAggregate(out, publish)).Some?
    ensures SeenOk(cfg, Next(cfg, s, PublishAggregate(out, publish)).value, es + [PublishAggregate(out, publish)])
  {
    PublishAggregateLeaves(cfg, s, out, publish);
    var items, item := Items(cfg.decode, es), Item(cfg.decode(out.source.value).value, publish.Sent?);
    PublishAggregateKeepsOps(cfg, s, out, publish, items, item);
    DecodingsSnoc(cfg.decode, Pushed(es), items, item);
    AttemptedItem(cfg, es, out, publish, items, item);
  }

  /** An event that neither pushes nor publishes an aggregate. */
  lemma OtherEvent(cfg: Config, es: seq<Event>, e: Event)
    requires !e.PushWindow? && !e.PublishAggregate? && !e.Restart?
    ensures Items(cfg.decode, es + [e]) == Items(cfg.decode, es)
    ensures Pushed(es + [e]) == Pushed(es) && SentAggregates(es + [e]) == SentAggregates(es)
  {
    assert Init(es + [e]) == es;
  }

  lemma PublishAlertKeepsSeen(cfg: Config, s: State, es: seq<Event>, alert: DeviceAlert, publish: Publish)
    requires SeenOk(cfg, s, es) && Next(cfg, s, PublishAlert(alert, publish)).Some?
    ensures SeenOk(cfg, Next(cfg, s, PublishAlert(alert, publish)).value, es + [PublishAlert(alert, publish)])
  {
    OtherEvent(cfg, es, PublishAlert(alert, publish));
  }

  /** The operators are untouched, and the phase too or it promises nothing. */
  lemma QuietKeepsSeen(cfg: Config, s: State, t: State, es: seq<Event>, e: Event)
    requires SeenOk(cfg, s, es) && t.ops == s.ops && !e.PushWindow? && !e.PublishAggregate? && !e.Restart?
    requires t.phase == s.phase || !(s.phase.Publishing? || t.phase.Publishing? || t.phase.Alerting?)
    ensures SeenOk(cfg, t, es + [e])
  {
    OtherEvent(cfg, es, e);
  }

  lemma CompleteKeepsSeen(cfg: Config, s: State, es: seq<Event>, r: Record)
    requires SeenOk(cfg, s, es) && Next(cfg, s, Complete(r)).Some?
    ensures SeenOk(cfg, Next(cfg, s, Complete(r)).value, es + [Complete(r)])
  {
    QuietKeepsSeen(cfg, s, Next(cfg, s, Complete(r)).value, es, Complete(r));
  }

  lemma DeadLetterKeepsSeen(cfg: Config, s: State, es: seq<Event>, r: Record, publish: Publish)
    requires SeenOk(cfg, s, es) && Next(cfg, s, DeadLetter(r, publish)).Some?
    ensures SeenOk(cfg, Next(cfg, s, DeadLetter(r, publish)).value, es + [DeadLetter(r, publish)])
  {
    QuietKeepsSeen(cfg, s, Next(cfg, s, DeadLetter(r, publish)).value, es, DeadLetter(r, publish));
  }

  lemma ControlKeepsSeen(cfg: Config, s: State, es: seq<Event>, e: Event)
    requires SeenOk(cfg, s, es) && Next(cfg, s, e).Some?
    requires e.Cancel? || e.Stop? || e.Poll? || e.Undecodable? || e.EndOfPoll? || e.Commit?
    ensures SeenOk(cfg, Next(cfg, s, e).value, es + [e])
  {
    QuietKeepsSeen(cfg, s, Next(cfg, s, e).value, es, e);
  }

  lemma RestartKeepsSeen(cfg: Config, s: State, es: seq<Event>)
    ensures SeenOk(cfg, Next(cfg, s, Restart).value, es + [Restart])
  {
  }

  lemma StepKeepsSeen(cfg: Config, s: State, es: seq<Event>, e: Event)
    requires SeenOk(cfg, s, es) && Next(cfg, s, e).Some?
    ensures SeenOk(cfg, Next(cfg, s, e).value, es + [e])
  {
    match e
    case PushWindow(r) => PushWindowKeepsSeen(cfg, s, es, r);
    case PublishAggregate(out, publish) => PublishAggregateKeepsSeen(cfg, s, es, out, publish);
    case PublishAlert(alert, publish) => PublishAlertKeepsSeen(cfg, s, es, alert, publish);
    case Complete(r) => CompleteKeepsSeen(cfg, s, es, r);
    case DeadLetter(r, publish) => DeadLetterKeepsSeen(cfg, s, es, r, publish);
    case Restart => RestartKeepsSeen(cfg, s, es);
    case _ => ControlKeepsSeen(cfg, s, es, e);
  }

  lemma {:induction false} SeenHolds(cfg: Config, start: Offsets, es: seq<Event>, s: State)
    requires Run(cfg, start, es, s)
    ensures SeenOk(cfg, s, es)
  {
    if es == [] {
    } else {
      var m, before, e := Exec(cfg, Initial(start), Init(es)).value, Init(es), Last(es);
      assert es == before + [e];
      SeenHolds(cfg, start, before, m);
      StepKeepsSeen(cfg, m, before, e);
    }
  }

  /** Between records, the window and the detector of the running process hold
      what the readings it pushed since its start determine, in the order pushed:
      one item per pushed record, which decodes it. */
  lemma OperatorsHoldPushed(cfg: Config, start: Offsets, es: seq<Event>, s: State)
    requires Run(cfg, start, es, s) && !s.phase.Publishing?
    ensures s.ops == OpsAfter(cfg.settings, Items(cfg.decode, es))
    ensures Decodings(cfg.decode, Pushed(es), Items(cfg.decode, es))
  {
    SeenHolds(cfg, start, es, s);
  }

  /** Every attempted aggregate, published or not, is the aggregate of the window
      after the push of its record, the last one pushed, and the operators had seen
      exactly the records pushed before it. */
  lemma AttemptedAggregate(cfg: Config, start: Offsets, es: seq<Event>, s: State, out: AggregateOut, publish: Publish)
    requires Run(cfg, start, es, s) && es != [] && Last(es) == PublishAggregate(out, publish)
    ensures var items := Items(cfg.decode, es);
      && items != [] && Last(items).published == publish.Sent?
      && cfg.decode(out.source.value) == Some(Last(items).metric)
      && out.agg == AggregateOf(cfg.settings, OpsAfter(cfg.settings, Init(items)), Last(items).metric)
    ensures Pushed(es) != [] && Last(Pushed(es)) == out.source
    ensures Decodings(cfg.decode, Pushed(es), Items(cfg.decode, es))
  {
    var m, before := Exec(cfg, Initial(start), Init(es)).value, Init(es);
    assert es == before + [PublishAggregate(out, publish)];
    SeenHolds(cfg, start, before, m);
    PublishAggregateLeaves(cfg, m, out, publish);
    var items, item := Items(cfg.decode, before), Item(cfg.decode(out.source.value).value, publish.Sent?);
    PublishAggregateKeepsOps(cfg, m, out, publish, items, item);
    DecodingsSnoc(cfg.decode, Pushed(before), items, item);
    AttemptedItem(cfg, before, out, publish, items, item);
    assert Init(items + [item]) == items;
  }

  // ---- pushes follow polls ----

  /** The record being worked on, once it has been taken up. */
  function TakenUp(s: State): seq<Record> {
    if Inbox(s) != [] && !s.phase.Draining? then [Inbox(s)[0]] else []
  }

  predicate OrderOk(s: State, es: seq<Event>) {
    && Polled(es) == s.handled + Inbox(s)
    && Subsequence(Pushed(es), s.handled + TakenUp(s))
  }

  /** Which records an event takes up and which it is done with. */
  predicate Forward(s: State, t: State, e: Event) {
    && s.handled + Inbox(s) == t.handled + Inbox(t)
    && if e.Undecodable? || e.PushWindow? then
         s.phase.Draining? && Foremost(Inbox(s), e.record) && t.handled == s.handled && TakenUp(t) == [e.record]
       else t.handled + TakenUp(t) == s.handled + TakenUp(s)
  }

  lemma FinishIsForward(s: State, t: State, e: Event)
    requires Inbox(s) != [] && !s.phase.Draining? && t.phase == Draining(Inbox(s)[1..])
    requires t.handled == s.handled + [Inbox(s)[0]] && !e.Undecodable? && !e.PushWindow?
    ensures Forward(s, t, e)
  {
    HeadMoves(s.handled, Inbox(s));
    assert TakenUp(s) == [Inbox(s)[0]] && TakenUp(t) == [];
  }

  lemma CompleteIsForward(cfg: Config, s: State, r: Record)
    requires Next(cfg, s, Complete(r)).Some?
    ensures Forward(s, Next(cfg, s, Complete(r)).value, Complete(r))
  {
    FinishIsForward(s, Next(cfg, s, Complete(r)).value, Complete(r));
  }

  lemma DeadLetterIsForward(cfg: Config, s: State, r: Record, publish: Publish)
    requires Next(cfg, s, DeadLetter(r, publish)).Some?
    ensures Forward(s, Next(cfg, s, DeadLetter(r, publish)).value, DeadLetter(r, publish))
  {
    FinishIsForward(s, Next(cfg, s, DeadLetter(r, publish)).value, DeadLetter(r, publish));
  }

  lemma PublishAggregateIsForward(cfg: Config, s: State, out: AggregateOut, publish: Publish)
    requires Next(cfg, s, PublishAggregate(out, publish)).Some?
    ensures Forward(s, Next(cfg, s, PublishAggregate(out, publish)).value, PublishAggregate(out, publish))
  {
  }

  lemma PublishAlertIsForward(cfg: Config, s: State, alert: DeviceAlert, publish: Publish)
    requires Next(cfg, s, PublishAlert(alert, publish)).Some?
    ensures Forward(s, Next(cfg, s, PublishAlert(alert, publish)).value, PublishAlert(alert, publish))
  {
  }

  lemma ControlIsForward(cfg: Config, s: State, e: Event)
    requires Next(cfg, s, e).Some?
    requires e.Cancel? || e.Stop? || e.Undecodable? || e.PushWindow? || e.EndOfPoll? || e.Commit?
    ensures Forward(s, Next(cfg, s, e).value, e)
  {
  }

  lemma StepIsForward(cfg: Config, s: State, e: Event)
    requires Next(cfg, s, e).Some? && !e.Poll? && !e.Restart?
    ensures Forward(s, Next(cfg, s, e).value, e)
  {
    match e
    case PublishAggregate(out, publish) => PublishAggregateIsForward(cfg, s, out, publish);
    case PublishAlert(alert, publish) => PublishAlertIsForward(cfg, s, alert, publish);
    case Complete(r) => CompleteIsForward(cfg, s, r);
    case DeadLetter(r, publish) => DeadLetterIsForward(cfg, s, r, publish);
    case _ => ControlIsForward(cfg, s, e);
  }

  lemma ForwardKeepsOrder(s: State, t: State, es: seq<Event>, e: Event)
    requires OrderOk(s, es) && Forward(s, t, e) && !e.Poll? && !e.Restart?
    ensures OrderOk(t, es + [e])
  {
    assert Init(es + [e]) == es;
    if e.Undecodable? || e.PushWindow? {
      assert s.handled + [] == s.handled;
      SubsequenceSkip(Pushed(es), s.handled, e.record);
      SubsequenceTake(Pushed(es), s.handled, e.record);
    }
  }

  lemma PollKeepsOrder(cfg: Config, s: State, es: seq<Event>, batch: seq<Record>)
    requires OrderOk(s, es) && Next(cfg, s, Poll(batch)).Some?
    ensures OrderOk(Next(cfg, s, Poll(batch)).value, es + [Poll(batch)])
  {
    assert Init(es + [Poll(batch)]) == es;
    assert s.handled + [] == s.handled;
  }

  lemma {:induction false} OrderHolds(cfg: Config, start: Offsets, es: seq<Event>, s: State)
    requires Run(cfg, start, es, s)
    ensures OrderOk(s, es)
  {
    if es == [] {
    } else {
      var m, e := Exec(cfg, Initial(start), Init(es)).value, Last(es);
      OrderHolds(cfg, start, Init(es), m);
      assert es == Init(es) + [e];
      if e.Poll? {
        PollKeepsOrder(cfg, m, Init(es), e.batch);
      } else if !e.Restart? {
        StepIsForward(cfg, m, e);
        ForwardKeepsOrder(m, s, Init(es), e);
      }
    }
  }

  lemma {:induction false} SubsequenceGrows<T>(a: seq<T>, b: seq<T>, c: seq<T>)
    requires Subsequence(a, b)
    ensures Subsequence(a, b + c)
  {
    if c == [] {
      assert b + c == b;
    } else {
      SubsequenceGrows(a, b, Init(c));
      SubsequenceSkip(a, b + Init(c), Last(c));
      assert b + c == (b + Init(c)) + [Last(c)];
    }
  }

  lemma TakenUpFirst(pushed: seq<Record>, s: State)
    requires Subsequence(pushed, s.handled + TakenUp(s))
    ensures Subsequence(pushed, s.handled + Inbox(s))
  {
    var rest := if TakenUp(s) == [] then Inbox(s) else Inbox(s)[1..];
    assert s.handled + TakenUp(s) + rest == s.handled + Inbox(s);
    SubsequenceGrows(pushed, s.handled + TakenUp(s), rest);
  }

  /** A process pushes what it polled, in the order polled. */
  lemma PushesFollowPolls(cfg: Config, start: Offsets, es: seq<Event>, s: State)
    requires Run(cfg, start, es, s)
    ensures Polled(es) == s.handled + Inbox(s)
    ensures Subsequence(Pushed(es), Polled(es))
  {
    OrderHolds(cfg, start, es, s);
    TakenUpFirst(Pushed(es), s);
  }

  // ---- what records are completed for ----

  /** The events end with the completion of r, the record pushed last, and o is the
      output of operators that have seen the pushed records up to and with r. */
  ghost predicate CompletesWith(cfg: Config, es: seq<Event>, r: Record, o: Output) {
    && es != [] && Last(es) == Complete(r)
    && Pushed(es) != [] && Last(Pushed(es)) == r
    && Decodings(cfg.decode, Pushed(es), Items(cfg.decode, es))
    && OutputFrom(cfg, Items(cfg.decode, es), r, o)
  }

  lemma CompletingRecords(cfg: Config, s: State, r: Record)
    requires Next(cfg, s, Complete(r)).Some?
    ensures s.phase.Alerting? && Foremost(s.phase.inbox, r) && s.phase.k == |s.phase.alerts|
    ensures Next(cfg, s, Complete(r)).value.completed == s.completed[r := Output(s.phase.agg, s.phase.alerts)]
  {
  }

  /** Each completion records what the window and the detector output for the
      record after exactly the records this process pushed before it. */
  lemma EachCompletion(cfg: Config, start: Offsets, es: seq<Event>, s: State, r: Record)
    requires Run(cfg, start, es, s) && es != [] && Last(es) == Complete(r)
    ensures r in s.completed && CompletesWith(cfg, es, r, s.completed[r])
  {
    var m, before := Exec(cfg, Initial(start), Init(es)).value, Init(es);
    assert es == before + [Complete(r)];
    OtherEvent(cfg, before, Complete(r));
    SeenHolds(cfg, start, before, m);
    CompletingRecords(cfg, m, r);
  }

  lemma PublishAggregateCompletesNothing(cfg: Config, s: State, out: AggregateOut, publish: Publish)
    requires Next(cfg, s, PublishAggregate(out, publish)).Some?
    ensures Next(cfg, s, PublishAggregate(out, publish)).value.completed == s.completed
  {
  }

  lemma PublishAlertCompletesNothing(cfg: Config, s: State, alert: DeviceAlert, publish: Publish)
    requires Next(cfg, s, PublishAlert(alert, publish)).Some?
    ensures Next(cfg, s, PublishAlert(alert, publish)).value.completed == s.completed
  {
  }

  lemma DeadLetterCompletesNothing(cfg: Config, s: State, r: Record, publish: Publish)
    requires Next(cfg, s, DeadLetter(r, publish)).Some?
    ensures Next(cfg, s, DeadLetter(r, publish)).value.completed == s.completed
  {
  }

  lemma OthersCompleteNothing(cfg: Config, s: State, e: Event)
    requires Next(cfg, s, e).Some? && !e.Complete?
    ensures Next(cfg, s, e).value.completed == s.completed
  {
    match e
    case PublishAggregate(out, publish) => PublishAggregateCompletesNothing(cfg, s, out, publish);
    case PublishAlert(alert, publish) => PublishAlertCompletesNothing(cfg, s, alert, publish);
    case DeadLetter(r, publish) => DeadLetterCompletesNothing(cfg, s, r, publish);
    case _ =>
  }

  /** n events in is the last completion of r, and it was for o. */
  ghost predicate LastCompletedAt(cfg: Config, es: seq<Event>, n: nat, r: Record, o: Output) {
    && 0 < n <= |es| && CompletesWith(cfg, es[..n], r, o)
    && Complete(r) !in es[n..]
  }

  lemma OtherCompletion(cfg: Config, s: State, e: Event, r: Record)
    requires Next(cfg, s, e).Some? && e != Complete(r) && r in Next(cfg, s, e).value.completed
    ensures r in s.completed && Next(cfg, s, e).value.completed[r] == s.completed[r]
  {
    if e.Complete? {
      CompletingRecords(cfg, s, e.record);
    } else {
      OthersCompleteNothing(cfg, s, e);
    }
  }

  lemma StaysLastCompleted(cfg: Config, es: seq<Event>, e: Event, n: nat, r: Record, o: Output)
    requires LastCompletedAt(cfg, es, n, r, o) && e != Complete(r)
    ensures LastCompletedAt(cfg, es + [e], n, r, o)
  {
    assert (es + [e])[..n] == es[..n] && (es + [e])[n..] == es[n..] + [e];
  }

  lemma {:induction false} LastCompletion(cfg: Config, start: Offsets, es: seq<Event>, s: State, r: Record)
      returns (n: nat)
    requires Run(cfg, start, es, s) && r in s.completed
    ensures LastCompletedAt(cfg, es, n, r, s.completed[r])
  {
    var m, e := Exec(cfg, Initial(start), Init(es)).value, Last(es);
    assert es == Init(es) + [e];
    if e == Complete(r) {
      EachCompletion(cfg, start, es, s, r);
      n := |es|;
      assert es[..n] == es;
    } else {
      OtherCompletion(cfg, m, e, r);
      n := LastCompletion(cfg, start, Init(es), m, r);
      StaysLastCompleted(cfg, Init(es), e, n, r, s.completed[r]);
    }
  }

  /** In every run, restarts included, what a record is completed for is what the
      operators output for it after exactly the records pushed before it by the
      process that completed it last, and all of that output was published. */
  lemma PublishedIsGenuine(cfg: Config, start: Offsets, es: seq<Event>, s: State, r: Record)
    requires Run(cfg, start, es, s) && r in s.completed
    ensures Done(s, r) && exists n :: LastCompletedAt(cfg, es, n, r, s.completed[r])
  {
    LedgerHolds(cfg, start, es, s);
    var n := LastCompletion(cfg, start, es, s, r);
  }

  // ---- alerts are the rising edges of the published aggregates ----

  /** t holds on the last of the aggregates and did not on its device's previous one. */
  ghost predicate IsEdge(th: Thresholds, sent: seq<WindowAggregate>, t: AlertType) {
    && sent != [] && Fires(th, Last(sent), t)
    && var own := Filter(Of(Last(sent).deviceID), Init(sent));
       own == [] || !Fires(th, Last(own), t)
  }

  /** The alerts about to be published for a record are, each once, the rising
      edges of what this process has successfully published. */
  lemma AlertsAreEdges(cfg: Config, start: Offsets, es: seq<Event>, s: State)
    requires Run(cfg, start, es, s) && s.phase.Alerting?
    ensures SentAggregates(es) != [] && Last(SentAggregates(es)) == s.phase.agg
    ensures Distinct(AlertTypes(s.phase.alerts))
    ensures forall t :: t in AlertTypes(s.phase.alerts) <==> IsEdge(cfg.settings.th, SentAggregates(es), t)
    ensures forall a :: a in s.phase.alerts ==> Evidence(cfg.settings.th, s.phase.agg, a)
  {
    SeenHolds(cfg, start, es, s);
    var items := Items(cfg.decode, es);
    var before := PublishedAggregates(cfg.settings, Init(items));
    assert Last(items) == Item(Last(items).metric, true);
    assert SentAggregates(es) == before + [s.phase.agg];
    assert Init(SentAggregates(es)) == before;
    AlertsAreEdgesOfPublished(cfg.settings, Init(items), Last(items).metric);
    AlertsCarryEvidence(cfg.settings.th, OpsAfter(cfg.settings, Init(items)).active, s.phase.agg);
  }

  /** Every alert handed to the publisher is a rising edge of the aggregates that
      the process has published since its start. */
  lemma HandedAlertIsEdge(cfg: Config, start: Offsets, es: seq<Event>, s: State, alert: DeviceAlert, publish: Publish)
    requires Run(cfg, start, es, s) && es != [] && Last(es) == PublishAlert(alert, publish)
    ensures IsEdge(cfg.settings.th, SentAggregates(es), alert.alertType)
    ensures Evidence(cfg.settings.th, Last(SentAggregates(es)), alert)
  {
    var m, before := Exec(cfg, Initial(start), Init(es)).value, Init(es);
    assert es == before + [PublishAlert(alert, publish)];
    OtherEvent(cfg, before, PublishAlert(alert, publish));
    HandsOutAlert(cfg, m, alert, publish);
    AlertsAreEdges(cfg, start, before, m);
  }

  lemma HandsOutAlert(cfg: Config, s: State, alert: DeviceAlert, publish: Publish)
    requires Next(cfg, s, PublishAlert(alert, publish)).Some?
    ensures s.phase.Alerting? && alert in s.phase.alerts && alert.alertType in AlertTypes(s.phase.alerts)
  {
    assert AlertTypes(s.phase.alerts)[s.phase.k] == alert.alertType;
  }

  /** When a record is completed, every rising edge is in the alerts topic. */
  lemma CompletedHandsAllEdges(cfg: Config, start: Offsets, es: seq<Event>, s: State, r: Record, t: AlertType)
    requires Run(cfg, start, es, s) && es != [] && Last(es) == Complete(r)
    requires IsEdge(cfg.settings.th, SentAggregates(es), t)
    ensures exists a :: AlertOut(r, a) in s.alerts && a.alertType == t
                        && Evidence(cfg.settings.th, Last(SentAggregates(es)), a)
  {
    var m := Exec(cfg, Initial(start), Init(es)).value;
    assert es == Init(es) + [Complete(r)];
    OtherEvent(cfg, Init(es), Complete(r));
    CompletingRecords(cfg, m, r);
    AlertsAreEdges(cfg, start, Init(es), m);
    LedgerHolds(cfg, start, es, s);
    var alerts := m.phase.alerts;
    var i :| 0 <= i < |alerts| && AlertTypes(alerts)[i] == t;
    assert alerts[i] in s.completed[r].alerts;
  }

  // ---- how often an aggregate is published ----

  function Copies(outs: seq<AggregateOut>, r: Record): nat {
    if outs == [] then 0 else Copies(Init(outs), r) + if Last(outs).source == r then 1 else 0
  }

  lemma CopiesSnoc(outs: seq<AggregateOut>, out: AggregateOut, r: Record)
    ensures Copies(outs + [out], r) == Copies(outs, r) + if out.source == r then 1 else 0
  {
    assert Init(outs + [out]) == outs;
  }

  /** What this process may still publish an aggregate for. */
  function Unpublished(s: State): seq<Record> {
    if Inbox(s) == [] || s.phase.Draining? || s.phase.Publishing? then Inbox(s) else Inbox(s)[1..]
  }

  predicate Publishable(s: State, r: Record) {
    !Below(s.position, r) || r in Unpublished(s)
  }

  function Budget(s: State, r: Record): nat {
    Copies(s.aggregates, r) + if Publishable(s, r) then 1 else 0
  }

  /** Nothing is published and nothing becomes publishable. */
  predicate NoMore(s: State, t: State) {
    && t.aggregates == s.aggregates && t.position == s.position
    && forall r :: r in Unpublished(t) ==> r in Unpublished(s)
  }

  lemma FinishPublishesNoMore(s: State, t: State)
    requires t.aggregates == s.aggregates && t.position == s.position
    requires Inbox(s) != [] && !s.phase.Draining? && !s.phase.Publishing? && t.phase == Draining(Inbox(s)[1..])
    ensures NoMore(s, t)
  {
  }

  lemma CompletePublishesNoMore(cfg: Config, s: State, r: Record)
    requires Next(cfg, s, Complete(r)).Some?
    ensures NoMore(s, Next(cfg, s, Complete(r)).value)
  {
    FinishPublishesNoMore(s, Next(cfg, s, Complete(r)).value);
  }

  lemma DeadLetterPublishesNoMore(cfg: Config, s: State, r: Record, publish: Publish)
    requires Next(cfg, s, DeadLetter(r, publish)).Some?
    ensures NoMore(s, Next(cfg, s, DeadLetter(r, publish)).value)
  {
    FinishPublishesNoMore(s, Next(cfg, s, DeadLetter(r, publish)).value);
  }

  lemma PublishAlertPublishesNoMore(cfg: Config, s: State, alert: DeviceAlert, publish: Publish)
    requires Next(cfg, s, PublishAlert(alert, publish)).Some?
    ensures NoMore(s, Next(cfg, s, PublishAlert(alert, publish)).value)
  {
  }

  lemma ControlPublishesNoMore(cfg: Config, s: State, e: Event)
    requires Next(cfg, s, e).Some?
    requires e.Cancel? || e.Stop? || e.Undecodable? || e.PushWindow? || e.EndOfPoll? || e.Commit?
    ensures NoMore(s, Next(cfg, s, e).value)
  {
  }

  lemma PollKeepsBudget(cfg: Config, s: State, batch: seq<Record>, r: Record)
    requires LogOk(cfg.log) && Next(cfg, s, Poll(batch)).Some?
    ensures Budget(Next(cfg, s, Poll(batch)).value, r) <= Budget(s, r)
  {
    FetchExact(cfg.log, s.position, batch);
    FetchMoves(cfg.log, s.position, batch);
  }

  lemma PublishAggregatePublishes(cfg: Config, s: State, out: AggregateOut, publish: Publish)
    requires Next(cfg, s, PublishAggregate(out, publish)).Some?
    ensures var t := Next(cfg, s, PublishAggregate(out, publish)).value;
      && Inbox(s) != [] && Inbox(s)[0] == out.source && t.position == s.position
      && Unpublished(s) == Inbox(s) && Unpublished(t) == Inbox(s)[1..]
      && (t.aggregates == s.aggregates || t.aggregates == s.aggregates + [out])
  {
  }

  /** The published record cannot be published again by this process. */
  lemma PublishAggregateKeepsBudget(cfg: Config, s: State, out: AggregateOut, publish: Publish, r: Record)
    requires LagOk(cfg, s) && InboxOk(s) && LogOk(cfg.log) && Next(cfg, s, PublishAggregate(out, publish)).Some?
    ensures Budget(Next(cfg, s, PublishAggregate(out, publish)).value, r) <= Budget(s, r)
  {
    PublishAggregatePublishes(cfg, s, out, publish);
    InboxIsDistinct(cfg, s);
    SpendsBudget(s, Next(cfg, s, PublishAggregate(out, publish)).value, out, r);
  }

  lemma SpendsBudget(s: State, t: State, out: AggregateOut, r: Record)
    requires InboxOk(s) && Inbox(s) != [] && Inbox(s)[0] == out.source && out.source !in Inbox(s)[1..]
    requires t.position == s.position && Unpublished(s) == Inbox(s) && Unpublished(t) == Inbox(s)[1..]
    requires t.aggregates == s.aggregates || t.aggregates == s.aggregates + [out]
    ensures Budget(t, r) <= Budget(s, r)
  {
    assert out.source in Inbox(s);
    assert forall q :: q in Inbox(s)[1..] ==> q in Inbox(s);
    CopiesSnoc(s.aggregates, out, r);
  }

  lemma InboxIsDistinct(cfg: Config, s: State)
    requires LagOk(cfg, s) && LogOk(cfg.log) && Inbox(s) != []
    ensures Inbox(s)[0] !in Inbox(s)[1..]
  {
    FetchExact(cfg.log, s.polledFrom, Held(s));
    var n := |s.toCommit|;
    assert forall i :: 0 <= i < |Inbox(s)| ==> Held(s)[n + i] == Inbox(s)[i];
  }

  lemma NoMoreKeepsBudget(s: State, t: State, r: Record)
    requires NoMore(s, t)
    ensures Budget(t, r) <= Budget(s, r)
  {
  }

  lemma StepKeepsBudget(cfg: Config, s: State, e: Event, r: Record)
    requires LagOk(cfg, s) && InboxOk(s) && LogOk(cfg.log) && Next(cfg, s, e).Some? && !e.Restart?
    ensures Budget(Next(cfg, s, e).value, r) <= Budget(s, r)
  {
    var t := Next(cfg, s, e).value;
    match e
    case Poll(batch) => PollKeepsBudget(cfg, s, batch, r);
    case PublishAggregate(out, publish) => PublishAggregateKeepsBudget(cfg, s, out, publish, r);
    case PublishAlert(alert, publish) =>
      PublishAlertPublishesNoMore(cfg, s, alert, publish);
      NoMoreKeepsBudget(s, t, r);
    case Complete(q) =>
      CompletePublishesNoMore(cfg, s, q);
      NoMoreKeepsBudget(s, t, r);
    case DeadLetter(q, publish) =>
      DeadLetterPublishesNoMore(cfg, s, q, publish);
      NoMoreKeepsBudget(s, t, r);
    case _ =>
      ControlPublishesNoMore(cfg, s, e);
      NoMoreKeepsBudget(s, t, r);
  }

  lemma RestartBudget(cfg: Config, s: State, r: Record)
    ensures Budget(Next(cfg, s, Restart).value, r) <= Copies(s.aggregates, r) + if Below(s.committed, r) then 0 else 1
  {
  }

  /** The restarts of the run that came before r was committed. */
  function RedeliveringRestarts(cfg: Config, start: Offsets, es: seq<Event>, r: Record): nat
    requires Exec(cfg, Initial(start), es).Some?
  {
    if es == [] then 0
    else
      RedeliveringRestarts(cfg, start, Init(es), r)
      + if Last(es).Restart? && !Below(Exec(cfg, Initial(start), Init(es)).value.committed, r) then 1 else 0
  }

  lemma {:induction false} BudgetHolds(cfg: Config, start: Offsets, es: seq<Event>, s: State, r: Record)
    requires Run(cfg, start, es, s)
    ensures Budget(s, r) <= 1 + RedeliveringRestarts(cfg, start, es, r)
  {
    if es == [] {
    } else {
      var m := Exec(cfg, Initial(start), Init(es)).value;
      BudgetHolds(cfg, start, Init(es), m, r);
      if Last(es).Restart? {
        RestartBudget(cfg, m, r);
      } else {
        LagHolds(cfg, start, Init(es), m);
        LedgerHolds(cfg, start, Init(es), m);
        StepKeepsBudget(cfg, m, Last(es), r);
      }
    }
  }

  /** A record's aggregate is in the topic at most once, and once more for every
      restart that came before the record was committed; failed publishes that
      landed are counted. */
  lemma AggregateBound(cfg: Config, start: Offsets, es: seq<Event>, s: State, r: Record)
    requires Run(cfg, start, es, s)
    ensures Copies(s.aggregates, r) <= 1 + RedeliveringRestarts(cfg, start, es, r)
  {
    BudgetHolds(cfg, start, es, s, r);
  }

  /** One process publishes at most one aggregate per record, whatever was
      published before it started. */
  lemma {:induction false} OneAggregatePerProcess(
      cfg: Config, start: Offsets, before: seq<Event>, m: State, es: seq<Event>, s: State, r: Record)
    requires Run(cfg, start, before, m) && Exec(cfg, m, es) == Some(s) && forall e :: e in es ==> !e.Restart?
    ensures Copies(s.aggregates, r) <= Copies(m.aggregates, r) + 1
    ensures Budget(s, r) <= Budget(m, r)
  {
    if es == [] {
    } else {
      var n := Exec(cfg, m, Init(es)).value;
      assert es == Init(es) + [Last(es)];
      OneAggregatePerProcess(cfg, start, before, m, Init(es), n, r);
      ExecConcat(cfg, Initial(start), before, Init(es));
      LagHolds(cfg, start, before + Init(es), n);
      LedgerHolds(cfg, start, before + Init(es), n);
      StepKeepsBudget(cfg, n, Last(es), r);
    }
  }
}
