// Where the location of a published aggregate comes from: the enricher's calls of
// a process are those for the records it pushed, in order.
module ProcessorLocations {
  import opened Prelude
  import opened Models
  import opened Broker
  import opened ProcessorProtocol
  import opened ProcessorOutputs
  import opened ProcessorSharding
  import opened Enricher

  /** The clock readings that a record's call of the enricher takes, and what the
      device registry answers to its query if it makes one. */
  datatype Query = Query(checkedAt: int, row: Option<Device>, storedAt: int)

  /** The call made for a reading of the record. */
  function CallFor(m: DeviceMetric, query: Query): Call {
    Call(m.deviceID, query.checkedAt, query.row, query.storedAt)
  }

  function CallsIn(decode: bytes -> Option<DeviceMetric>, queries: Record -> Query, r: Record): seq<Call> {
    match decode(r.value)
    case None => []
    case Some(m) => [CallFor(m, queries(r))]
  }

  /** The calls for the records, in order. */
  function CallsOf(decode: bytes -> Option<DeviceMetric>, queries: Record -> Query, rs: seq<Record>): seq<Call> {
    if rs == [] then [] else CallsOf(decode, queries, Init(rs)) + CallsIn(decode, queries, Last(rs))
  }

  lemma CallsSnoc(decode: bytes -> Option<DeviceMetric>, queries: Record -> Query, rs: seq<Record>, r: Record)
    ensures CallsOf(decode, queries, rs + [r]) == CallsOf(decode, queries, rs) + CallsIn(decode, queries, r)
  {
    assert Init(rs + [r]) == rs;
  }

  /** The location of a device, empty when there is none to tell. */
  function LocationOf(device: Option<Device>): string {
    match device
    case None => ""
    case Some(d) => d.locationID
  }

  /** The location that the last of the calls yields. */
  function LocationAfter(ttl: int, calls: seq<Call>): string {
    if calls == [] then "" else LocationOf(ResultOf(CacheAfter(ttl, Init(calls)), Last(calls)))
  }

  /** What the world answers to one process: the schema registry and the device
      registry, by record. When it is sound no publish fails. */
  datatype World = World(answers: Record -> bool, queries: Record -> Query, ttl: int, sound: bool)

  ghost predicate WorldOk(w: World) {
    w.sound ==> forall r :: w.answers(r)
  }

  /** Event e agrees with the world after the pushes: a record is pushed only if it
      can be deserialized and refused only if not, an aggregate is published with
      the location of the last pushed record's call, and nothing fails that cannot. */
  predicate Honest(cfg: Config, w: World, pushed: seq<Record>, e: Event) {
    && (e.Undecodable? ==> Deserialized(cfg.decode, w.answers, e.record) == None)
    && (e.PushWindow? ==> Deserialized(cfg.decode, w.answers, e.record).Some?)
    && (e.PublishAggregate? ==> e.out.location == LocationAfter(w.ttl, CallsOf(cfg.decode, w.queries, pushed)))
    && (w.sound ==> Smooth(cfg, e))
  }

  predicate HonestEvents(cfg: Config, w: World, es: seq<Event>) {
    es == [] || (HonestEvents(cfg, w, Init(es)) && Honest(cfg, w, Pushed(Init(es)), Last(es)))
  }

  lemma HonestSnoc(cfg: Config, w: World, es: seq<Event>, e: Event)
    requires HonestEvents(cfg, w, es) && Honest(cfg, w, Pushed(es), e)
    ensures HonestEvents(cfg, w, es + [e])
    ensures Pushed(es + [e]) == PushedAfter(Pushed(es), e)
  {
    assert Init(es + [e]) == es;
  }

  /** Of every event: a record is refused only if it cannot be deserialized, and in
      a sound world the run is smooth. */
  lemma {:induction false} HonestRefusals(cfg: Config, w: World, es: seq<Event>)
    requires HonestEvents(cfg, w, es)
    ensures forall r :: Undecodable(r) in es ==> Deserialized(cfg.decode, w.answers, r) == None
    ensures w.sound ==> SmoothEvents(cfg, es)
  {
    if es == [] {
    } else {
      HonestRefusals(cfg, w, Init(es));
      assert es == Init(es) + [Last(es)];
    }
  }

  /** The location that a device's last call yields is that of its last fetched row. */
  lemma LastFetchedLocation(ttl: int, calls: seq<Call>, call: Call)
    ensures var fetched := Refreshing(ttl, calls + [call], call.id);
      if fetched == [] then
        && LocationAfter(ttl, calls + [call]) == ""
        && forall c :: c in calls + [call] && c.id == call.id ==> c.answer.None?
      else
        && Last(fetched).answer.Some?
        && LocationAfter(ttl, calls + [call]) == Last(fetched).answer.value.locationID
  {
    assert Init(calls + [call]) == calls;
    ResultIsLastFetched(ttl, calls, call);
    NeverFetchedIff(ttl, calls + [call], call.id);
  }

  /** An attempted aggregate is that of the last pushed record, whose call was made. */
  lemma CallBehind(cfg: Config, start: Offsets, w: World, es: seq<Event>, s: State, out: AggregateOut, publish: Publish)
      returns (calls: seq<Call>, call: Call)
    requires Run(cfg, start, es, s) && HonestEvents(cfg, w, es)
    requires es != [] && Last(es) == PublishAggregate(out, publish)
    ensures CallsOf(cfg.decode, w.queries, Pushed(es)) == calls + [call] && call.id == out.agg.deviceID
    ensures out.location == LocationAfter(w.ttl, calls + [call])
  {
    AttemptedAggregate(cfg, start, es, s, out, publish);
    var rs, m := Pushed(es), cfg.decode(out.source.value).value;
    calls, call := CallsOf(cfg.decode, w.queries, Init(rs)), CallFor(m, w.queries(out.source));
    assert Pushed(Init(es)) == rs;
  }

  /** Each published aggregate, also one whose publish failed, carries the location
      of its device's last successfully fetched row, the fetch for its own record
      included; it is empty only if that row's is, or if no query made for the
      device since the process started was ever answered. */
  lemma PublishedLocation(
      cfg: Config, start: Offsets, w: World, es: seq<Event>, s: State, out: AggregateOut, publish: Publish)
    requires Run(cfg, start, es, s) && HonestEvents(cfg, w, es)
    requires es != [] && Last(es) == PublishAggregate(out, publish)
    ensures var calls := CallsOf(cfg.decode, w.queries, Pushed(es));
      var fetched := Refreshing(w.ttl, calls, out.agg.deviceID);
      if fetched == [] then
        out.location == "" && forall c :: c in calls && c.id == out.agg.deviceID ==> c.answer.None?
      else
        Last(fetched).answer.Some? && out.location == Last(fetched).answer.value.locationID
  {
    var calls, call := CallBehind(cfg, start, w, es, s, out, publish);
    LastFetchedLocation(w.ttl, calls, call);
  }
}
