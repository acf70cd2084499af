// The registry client and the deserializer as the program keeps them, each cache
// under its own lock. Between two lock regions other callers may run any steps;
// together with the steps taken here they are an interleaving of SchemaCache.
module Deserializer {
  import opened Prelude
  import opened Models
  import opened SchemaCache
  import Frame

  /** Avro encoding and decoding of a metric under a schema. */
  datatype Codec = Codec(
    marshal: (Schema, DeviceMetric) -> Option<bytes>,
    unmarshal: (Schema, bytes) -> Option<DeviceMetric>)

  /** The payload codec undoes itself. */
  ghost predicate CodecOk(codec: Codec) {
    forall s, m :: codec.marshal(s, m).Some? ==> codec.unmarshal(s, codec.marshal(s, m).value) == Some(m)
  }

  /** The metric that a message stands for. */
  function DecodeMetric(w: World, codec: Codec, data: bytes): Option<DeviceMetric> {
    match Frame.Decode(data)
    case Err(_) => None
    case Ok(f) =>
      match w.Meaning(f.schemaID)
      case None => None
      case Some(schema) => codec.unmarshal(schema, f.payload)
  }

  /** What Serialize sends for a metric with a registered schema whose id fits in
      32 bits, Deserialize turns back into that metric. */
  lemma DeserializeUndoesSerialize(w: World, codec: Codec, id: int, schema: Schema, m: DeviceMetric)
    requires CodecOk(codec) && 0 <= id < Frame.TWO_32
    requires w.Meaning(id) == Some(schema) && codec.marshal(schema, m).Some?
    ensures DecodeMetric(w, codec, Frame.Encode(id, codec.marshal(schema, m).value)) == Some(m)
  {
    Frame.DecodeEncode(id, codec.marshal(schema, m).value);
  }

  datatype DeserializeError = BadFrame(frame: Frame.FrameError) | NoSchema(failure: Failure) | BadPayload

  class RegistryClient {
    const world: World
    var cache: Raw

    constructor (world: World)
      ensures this.world == world && cache == map[]
    {
      this.world, cache := world, map[];
    }

    /** A cached id needs no request, an answer is in the cache on return, and there
        is none only if the registry does not hold the id or did not answer. */
    method GetSchemaByID(id: int, callers: Callers) returns (text: Result<string, Failure>)
      requires callers.registry == this && callers.Valid() && callers.At(LookRaw(id))
      modifies this, callers, callers.deserializer
      ensures callers.Valid() && old(callers.trace) <= callers.trace && Grows(old(callers.Now()), callers.Now())
      ensures callers.At(if text.Ok? then Parsing(id, text.value) else Returned(id, Err(text.error)))
      ensures text.Ok? ==> id in cache && cache[id] == text.value
      ensures text.Err? ==> text.error == Unreachable && id !in old(cache)
      ensures text.Err? ==> id !in world.registry || callers.Refused(|old(callers.trace)|)
      ensures id in old(cache) ==> callers.trace == old(callers.trace) + [Advance(callers.me)]
    {
      ghost var s := callers.Now();
      if id in cache {
        callers.Log(s, Advance(callers.me), Parsing(id, cache[id]));
        return Ok(cache[id]);
      }
      callers.Log(s, Advance(callers.me), Fetching(id));
      callers.Others();
      s := callers.Now();
      if !callers.answers(callers.steps) {
        callers.Log(s, RequestFails(callers.me), Returned(id, Err(Unreachable)));
        return Err(Unreachable);
      }
      if id !in world.registry {
        callers.Log(s, Advance(callers.me), Returned(id, Err(Unreachable)));
        return Err(Unreachable);
      }
      var fetched := world.registry[id];
      callers.Log(s, Advance(callers.me), StoreRaw(id, fetched));
      callers.Others();
      s := callers.Now();
      cache := cache[id := fetched];
      callers.Log(s, Advance(callers.me), Parsing(id, fetched));
      return Ok(fetched);
    }
  }

  /** The callers that share the two caches, one of which is followed. */
  class Callers {
    const registry: RegistryClient
    const deserializer: Deserializer
    const me: nat
    const answers: nat -> bool        // whether the registry answers a request made at that step
    var at: map<nat, Caller>          // where each caller stands
    var steps: nat
    ghost var trace: seq<Event>

    ghost function Now(): State
      reads this, registry, deserializer
    {
      State(registry.cache, deserializer.schemas, at)
    }

    /** The caches and the callers are where the trace leads. */
    ghost predicate Valid()
      reads this, registry, deserializer
    {
      && deserializer.registry == registry && steps == |trace|
      && Exec(registry.world, EMPTY, trace) == Some(Now())
    }

    /** A request of this caller, from that step on, was not answered. */
    ghost predicate Refused(from: nat)
      reads this
    {
      exists k :: from <= k < |trace| && trace[k] == RequestFails(me) && !answers(k)
    }

    ghost predicate At(c: Caller)
      reads this
    {
      me in at && at[me] == c
    }

    predicate Idle()
      reads this
    {
      me in at ==> at[me].Returned?
    }

    constructor (deserializer: Deserializer, me: nat, answers: nat -> bool)
      requires deserializer.registry.cache == map[] && deserializer.schemas == map[]
      ensures Valid() && Idle() && trace == [] && this.deserializer == deserializer && this.answers == answers
    {
      this.registry, this.deserializer, this.me := deserializer.registry, deserializer, me;
      this.answers, at, steps, trace := answers, map[], 0, [];
    }

    /** The step from s that this caller has just taken on the caches. */
    method Log(ghost s: State, e: Event, c: Caller)
      requires deserializer.registry == registry && steps == |trace|
      requires e == RequestFails(me) ==> !answers(steps)
      requires Exec(registry.world, EMPTY, trace) == Some(s) && s.callers == at
      requires Next(registry.world, s, e) == Some(State(registry.cache, deserializer.schemas, at[me := c]))
      modifies this
      ensures Valid() && trace == old(trace) + [e] && at == old(at)[me := c]
      ensures Grows(s, Now())
    {
      ExecSnoc(registry.world, EMPTY, trace, e);
      InvHolds(registry.world, EMPTY, trace, s);
      NextKeepsInv(registry.world, s, e);
      at, steps := at[me := c], steps + 1;
      trace := trace + [e];
    }

    /** Other callers take any steps. */
    method Others()
      requires Valid() && me in at
      modifies this, registry, deserializer
      ensures Valid() && old(trace) <= trace && Grows(old(Now()), Now())
      ensures me in at && at[me] == old(at)[me]
    {
      ghost var s := Now();
      var es: seq<Event> := *;
      var after := Exec(registry.world, State(registry.cache, deserializer.schemas, at), es);
      if after.Some? && forall e | e in es :: e.caller != me {
        ExecConcat(registry.world, EMPTY, trace, es);
        CachesOnlyGrow(registry.world, trace, s, es, after.value);
        OthersStay(registry.world, s, es, after.value, me);
        registry.cache, deserializer.schemas, at := after.value.raw, after.value.parsed, after.value.callers;
        steps := steps + |es|;
        trace := trace + es;
      }
    }
  }

  class Deserializer {
    const registry: RegistryClient
    const codec: Codec
    var schemas: Parsed

    constructor (registry: RegistryClient, codec: Codec)
      ensures this.registry == registry && this.codec == codec && schemas == map[]
    {
      this.registry, this.codec, schemas := registry, codec, map[];
    }

    /** The schema the id stands for, or why it cannot be had: the id was cached by
        neither level and the registry does not hold it or did not answer, or its
        answer does not parse. */
    method GetOrParseSchema(id: int, callers: Callers) returns (schema: Result<Schema, Failure>)
      requires callers.deserializer == this && callers.Valid() && callers.Idle()
      modifies this, registry, callers
      ensures callers.Valid() && old(callers.trace) <= callers.trace && callers.At(Returned(id, schema))
      ensures schema.Ok? ==> registry.world.Meaning(id) == Some(schema.value) && id in schemas
      ensures schema.Err? && schema.error == Unparsable ==> registry.world.Meaning(id) == None
      ensures schema.Err? && schema.error == Unreachable ==> id !in old(schemas) && id !in old(registry.cache)
      ensures schema.Err? && schema.error == Unreachable ==>
        id !in registry.world.registry || callers.Refused(|old(callers.trace)|)
    {
      callers.Log(callers.Now(), Call(callers.me, id), LookParsed(id));
      callers.Others();
      schema := Lookup(id, callers);
      EveryReturnIsRight(registry.world, callers.trace, callers.Now());
    }

    /** The call from its first lock region on. */
    method Lookup(id: int, callers: Callers) returns (schema: Result<Schema, Failure>)
      requires callers.deserializer == this && callers.Valid() && callers.At(LookParsed(id))
      modifies this, registry, callers
      ensures id in old(schemas) ==> callers.trace == old(callers.trace) + [Advance(callers.me)]
      ensures callers.Valid() && old(callers.trace) <= callers.trace && callers.At(Returned(id, schema))
      ensures schema.Ok? ==> id in schemas
      ensures schema.Err? && schema.error == Unreachable ==> id !in old(schemas) && id !in old(registry.cache)
      ensures schema.Err? && schema.error == Unreachable ==>
        id !in registry.world.registry || callers.Refused(|old(callers.trace)|)
    {
      ghost var s := callers.Now();
      if id in schemas {
        schema := Ok(schemas[id]);
        callers.Log(s, Advance(callers.me), Returned(id, schema));
        return;
      }
      callers.Log(s, Advance(callers.me), LookRaw(id));
      callers.Others();
      var text := registry.GetSchemaByID(id, callers);
      if text.Err? {
        return Err(text.error);
      }
      schema := ParseAndStore(id, text.value, callers);
    }

    method ParseAndStore(id: int, text: string, callers: Callers) returns (schema: Result<Schema, Failure>)
      requires callers.deserializer == this && callers.Valid() && callers.At(Parsing(id, text))
      modifies this, registry, callers
      ensures callers.Valid() && old(callers.trace) <= callers.trace && callers.At(Returned(id, schema))
      ensures schema.Ok? ==> id in schemas
      ensures schema.Err? ==> schema.error == Unparsable
    {
      ghost var s := callers.Now();
      var parsed := registry.world.parse(text);
      if parsed.None? {
        callers.Log(s, Advance(callers.me), Returned(id, Err(Unparsable)));
        return Err(Unparsable);
      }
      callers.Log(s, Advance(callers.me), StoreParsed(id, parsed.value));
      callers.Others();
      s := callers.Now();
      schemas := schemas[id := parsed.value];
      callers.Log(s, Advance(callers.me), Returned(id, Ok(parsed.value)));
      return Ok(parsed.value);
    }

    /** A metric is returned exactly for messages that stand for one, unless the
        frame is good, its id is not cached, and the registry did not answer. */
    method Deserialize(data: bytes, callers: Callers) returns (metric: Result<DeviceMetric, DeserializeError>)
      requires callers.deserializer == this && callers.Valid() && callers.Idle()
      modifies this, registry, callers
      ensures callers.Valid() && old(callers.trace) <= callers.trace && callers.Idle()
      ensures metric.Ok? ==> DecodeMetric(registry.world, codec, data) == Some(metric.value)
      ensures metric.Err? && metric.error != NoSchema(Unreachable) ==>
        DecodeMetric(registry.world, codec, data) == None
      ensures metric == Err(NoSchema(Unreachable)) ==>
        var frame := Frame.Decode(data);
        && frame.Ok? && frame.value.schemaID !in old(schemas) && frame.value.schemaID !in old(registry.cache)
        && (frame.value.schemaID !in registry.world.registry || callers.Refused(|old(callers.trace)|))
      ensures metric == Err(NoSchema(Unparsable)) ==>
        Frame.Decode(data).Ok? && registry.world.Meaning(Frame.Decode(data).value.schemaID) == None
      ensures metric == Err(BadPayload) ==>
        Frame.Decode(data).Ok? && registry.world.Meaning(Frame.Decode(data).value.schemaID).Some?
      ensures metric.Err? && metric.error.BadFrame? <==> Frame.Decode(data).Err?
      ensures Frame.Decode(data).Err? ==> metric == Err(BadFrame(Frame.Decode(data).error))
      ensures (forall k :: callers.answers(k)) ==>
        (metric.Ok? <==> DecodeMetric(registry.world, codec, data).Some?)
    {
      var frame := Frame.Decode(data);
      if frame.Err? {
        return Err(BadFrame(frame.error));
      }
      var schema := GetOrParseSchema(frame.value.schemaID, callers);
      if schema.Err? {
        return Err(NoSchema(schema.error));
      }
      var decoded := codec.unmarshal(schema.value, frame.value.payload);
      if decoded.None? {
        return Err(BadPayload);
      }
      return Ok(decoded.value);
    }

    /** What the serializer puts in its buffer under a registered schema is read
        back, as long as the schema is cached or the registry answers. */
    method SerializeAndDeserialize(id: int, schema: Schema, m: DeviceMetric, callers: Callers)
        returns (metric: Result<DeviceMetric, DeserializeError>)
      requires callers.deserializer == this && callers.Valid() && callers.Idle()
      requires CodecOk(codec) && 0 <= id < Frame.TWO_32
      requires registry.world.Meaning(id) == Some(schema) && codec.marshal(schema, m).Some?
      modifies this, registry, callers
      ensures metric == Ok(m) || metric == Err(NoSchema(Unreachable))
      ensures id in old(schemas) || id in old(registry.cache) || (forall k :: callers.answers(k)) ==> metric == Ok(m)
    {
      var payload := codec.marshal(schema, m).value;
      var buf := Frame.Serialize(id, payload);
      DeserializeUndoesSerialize(registry.world, codec, id, schema, m);
      Frame.DecodeEncode(id, payload);
      metric := Deserialize(buf[..], callers);
    }
  }
}
