// The ingestor together with the wire format, the schema registry and the
// dead-letter topic.
module EndToEnd {
  import opened Prelude
  import opened Models
  import opened Broker
  import opened IngestorProtocol
  import opened IngestorSafety
  import opened IngestorBatching
  import opened IngestorCancel
  import SchemaCache
  import opened Deserializer
  import opened DeadLetterQueue
  import Frame

  /** What the deserializer makes of a message when the registry can be reached. */
  function Decoder(w: SchemaCache.World, codec: Codec): bytes -> Option<DeviceMetric> {
    (data: bytes) => DecodeMetric(w, codec, data)
  }

  lemma {:induction false} RowsForMember(decode: bytes -> Option<DeviceMetric>, rs: seq<Record>, r: Record)
    requires forall q :: q in rs ==> decode(q.value).Some?
    requires r in rs
    ensures Row(r, decode(r.value).value) in RowsFor(decode, rs)
  {
    assert rs == Init(rs) + [Last(rs)];
    assert Last(rs) in rs;
    if r == Last(rs) {
    } else {
      RowsForMember(decode, Init(rs), r);
    }
  }

  /** A metric sent with a registered schema is, once polled in a failure-free run
      that shuts down, a row of the table, and the same metric. */
  lemma SerializedMetricIsStored(
      w: SchemaCache.World, codec: Codec, id: int, schema: SchemaCache.Schema, m: DeviceMetric,
      cfg: Config, start: Offsets, es: seq<Event>, s: State, r: Record)
    requires CodecOk(codec) && 0 <= id < Frame.TWO_32
    requires w.Meaning(id) == Some(schema) && codec.marshal(schema, m).Some?
    requires cfg.decode == Decoder(w, codec)
    requires Run(cfg, start, es, s) && SmoothEvents(cfg, es) && s.phase.Closed?
    requires r in Polled(es) && r.value == Frame.Encode(id, codec.marshal(schema, m).value)
    ensures Row(r, m) in s.db
  {
    DeserializeUndoesSerialize(w, codec, id, schema, m);
    assert cfg.decode(r.value) == Some(m);
    FailureFreeContents(cfg, start, es, s);
    FilterMembers(Decodable(cfg.decode), Polled(es), r);
    RowsForMember(cfg.decode, Filter(Decodable(cfg.decode), Polled(es)), r);
  }

  /** The dead-letter topic holds what Publish built from each dead-lettered record. */
  predicate TopicOf(topic: seq<Record>, dlq: seq<Record>, hops: seq<Hop>) {
    && |topic| == |dlq| == |hops|
    && forall i :: 0 <= i < |topic| ==>
         topic[i] == DeadLetterQueue.DeadLetter(dlq[i], hops[i].dlqTopic, hops[i].reason, hops[i].failedAt,
                                                hops[i].partition, hops[i].offset)
  }

  /** In every run, a committed record has a row that decodes it, or can be
      recovered exactly by replaying a record of the dead-letter topic, or its
      dead-letter publish was reported as failed. */
  lemma CommittedIsStoredOrReplayable(
      cfg: Config, start: Offsets, es: seq<Event>, s: State, topic: seq<Record>, hops: seq<Hop>, r: Record)
    requires Run(cfg, start, es, s) && TopicOf(topic, s.dlq, hops)
    requires r in cfg.log && !Below(start, r) && Below(s.committed, r)
    ensures || (exists row :: row in s.db && row.source == r && cfg.decode(r.value) == Some(row.metric))
            || (exists dead :: dead in topic && Replay(dead) == Some(r))
            || r in s.reported
  {
    AtLeastOnce(cfg, start, es, s, r);
    if r in Sources(s.db) {
      SourceHasRow(s.db, r);
    } else if r in s.dlq {
      var i :| 0 <= i < |s.dlq| && s.dlq[i] == r;
      var h := hops[i];
      ReplayInvertsPublish(r, h.dlqTopic, h.reason, h.failedAt, h.partition, h.offset);
      assert topic[i] in topic;
    }
  }

  lemma {:induction false} SourceHasRow(rows: seq<Row>, r: Record)
    requires r in Sources(rows)
    ensures exists row :: row in rows && row.source == r
  {
    assert rows == Init(rows) + [Last(rows)];
    if Last(rows).source == r {
      assert Last(rows) in rows;
    } else {
      SourceHasRow(Init(rows), r);
      var row :| row in Init(rows) && row.source == r;
      assert row in rows;
    }
  }

  lemma PolledIsLogged(cfg: Config, start: Offsets, es: seq<Event>, s: State)
    requires Run(cfg, start, es, s)
    ensures forall r :: r in Polled(es) ==> r in cfg.log
  {
    PolledIsHandled(cfg, start, es, s);
    HandledHolds(cfg, start, es, s);
    FetchExact(cfg.log, AtStart(cfg, start, es).position, s.handled + Inbox(s));
  }

  /** With a dead-letter topic of its own, the dead letters of a run are not in the
      log it consumes, and it never polls them. */
  lemma DeadLettersAreNotPolled(
      cfg: Config, start: Offsets, es: seq<Event>, s: State,
      consumed: bytes, dlqTopic: bytes, topic: seq<Record>, hops: seq<Hop>, dead: Record)
    requires Run(cfg, start, es, s) && TopicOf(topic, s.dlq, hops) && dead in topic
    requires (forall r :: r in cfg.log ==> r.topic == consumed) && (forall h :: h in hops ==> h.dlqTopic == dlqTopic)
    requires dlqTopic != consumed
    ensures dead.topic == dlqTopic && dead !in cfg.log && dead !in Polled(es)
  {
    var i :| 0 <= i < |topic| && topic[i] == dead;
    var h := hops[i];
    assert DeadLetterAll(s.dlq[i], []) == s.dlq[i] && Init([h]) == [];
    Passage(s.dlq[i], [h]);
    PolledIsLogged(cfg, start, es, s);
  }
}
