// The two-level schema cache under any interleaving of concurrent callers. Each
// lock region, the HTTP exchange and the parse are one atomic step of a caller;
// the registry is immutable, requests to it may fail at any time.
module SchemaCache {
  import opened Prelude

  datatype Schema = Schema(definition: string)

  /** The schema registry's contents and the Avro parser. */
  datatype World = World(registry: map<int, string>, parse: string -> Option<Schema>) {
    /** The schema that an id stands for. */
    function Meaning(id: int): Option<Schema> {
      if id in registry then parse(registry[id]) else None
    }
  }

  datatype Failure = Unreachable | Unparsable

  /** Where a call of getOrParseSchema stands. */
  datatype Caller =
    | LookParsed(id: int)                  // about to read the parsed cache
    | LookRaw(id: int)                     // about to read the registry client's cache
    | Fetching(id: int)                    // request to the registry under way
    | StoreRaw(id: int, text: string)      // about to store what it answered
    | Parsing(id: int, text: string)
    | StoreParsed(id: int, schema: Schema)
    | Returned(id: int, result: Result<Schema, Failure>)

  type Raw = map<int, string>
  type Parsed = map<int, Schema>

  datatype State = State(raw: Raw, parsed: Parsed, callers: map<nat, Caller>)

  datatype Event =
    | Call(caller: nat, id: int)           // a new call, by a caller not in one
    | Advance(caller: nat)
    | RequestFails(caller: nat)

  /** The atomic step of a caller: its next phase and the caches it leaves. */
  function Step(w: World, raw: Raw, parsed: Parsed, c: Caller): (Caller, Raw, Parsed) {
    match c
    case LookParsed(id) => (if id in parsed then Returned(id, Ok(parsed[id])) else LookRaw(id), raw, parsed)
    case LookRaw(id) => (if id in raw then Parsing(id, raw[id]) else Fetching(id), raw, parsed)
    case Fetching(id) =>
      (if id in w.registry then StoreRaw(id, w.registry[id]) else Returned(id, Err(Unreachable)), raw, parsed)
    case StoreRaw(id, text) => (Parsing(id, text), raw[id := text], parsed)
    case Parsing(id, text) =>
      var p := w.parse(text);
      (if p.Some? then StoreParsed(id, p.value) else Returned(id, Err(Unparsable)), raw, parsed)
    case StoreParsed(id, schema) => (Returned(id, Ok(schema)), raw, parsed[id := schema])
    case Returned(_, _) => (c, raw, parsed)
  }

  function Next(w: World, s: State, e: Event): Option<State> {
    match e
    case Call(t, id) =>
      if t !in s.callers || s.callers[t].Returned? then Some(s.(callers := s.callers[t := LookParsed(id)])) else None
    case Advance(t) =>
      if t in s.callers && !s.callers[t].Returned? then
        var (c, raw, parsed) := Step(w, s.raw, s.parsed, s.callers[t]);
        Some(State(raw, parsed, s.callers[t := c]))
      else None
    case RequestFails(t) =>
      if t in s.callers && s.callers[t].Fetching? then
        Some(s.(callers := s.callers[t := Returned(s.callers[t].id, Err(Unreachable))]))
      else None
  }

  function Stepper(w: World): (State, Event) -> Option<State> {
    (s: State, e: Event) => Next(w, s, e)
  }

  function Exec(w: World, s: State, es: seq<Event>): Option<State> {
    Fold(Stepper(w), s, es)
  }

  const EMPTY := State(map[], map[], map[])

  lemma ExecSnoc(w: World, s: State, es: seq<Event>, e: Event)
    requires Exec(w, s, es).Some?
    ensures Exec(w, s, es + [e]) == Next(w, Exec(w, s, es).value, e)
  {
    FoldSnoc(Stepper(w), s, es, e);
  }

  lemma ExecConcat(w: World, s: State, a: seq<Event>, b: seq<Event>)
    requires Exec(w, s, a).Some?
    ensures Exec(w, s, a + b) == Exec(w, Exec(w, s, a).value, b)
  {
    FoldConcat(Stepper(w), s, a, b);
  }

  /** What other callers do leaves this one where it is. */
  lemma {:induction false} OthersStay(w: World, s: State, es: seq<Event>, t: State, me: nat)
    requires Exec(w, s, es) == Some(t) && me in s.callers && forall e :: e in es ==> e.caller != me
    ensures me in t.callers && t.callers[me] == s.callers[me]
  {
    if es == [] {
    } else {
      assert es == Init(es) + [Last(es)];
      OthersStay(w, s, Init(es), Exec(w, s, Init(es)).value, me);
    }
  }

  // ---- safety ----

  /** Both caches are sub-maps of what the registry means, and a parsed entry has
      a raw entry beneath it. */
  ghost predicate CachesOk(w: World, raw: Raw, parsed: Parsed) {
    && (forall id :: id in raw ==> id in w.registry && raw[id] == w.registry[id])
    && (forall id :: id in parsed ==> id in raw && w.Meaning(id) == Some(parsed[id]))
  }

  /** What a caller carries between its steps agrees with the registry. */
  predicate CallerOk(w: World, raw: Raw, c: Caller) {
    match c
    case StoreRaw(id, text) => id in w.registry && text == w.registry[id]
    case Parsing(id, text) => id in raw && id in w.registry && text == w.registry[id]
    case StoreParsed(id, schema) => id in raw && w.Meaning(id) == Some(schema)
    case Returned(id, Ok(schema)) => id in raw && w.Meaning(id) == Some(schema)
    case Returned(id, Err(Unparsable)) => id in w.registry && w.Meaning(id) == None
    case _ => true
  }

  ghost predicate Inv(w: World, s: State) {
    CachesOk(w, s.raw, s.parsed) && forall t :: t in s.callers ==> CallerOk(w, s.raw, s.callers[t])
  }

  predicate Grows(s: State, t: State) {
    && (forall id :: id in s.raw ==> id in t.raw && t.raw[id] == s.raw[id])
    && (forall id :: id in s.parsed ==> id in t.parsed && t.parsed[id] == s.parsed[id])
  }

  lemma StepKeepsCaches(w: World, raw: Raw, parsed: Parsed, c: Caller)
    requires CachesOk(w, raw, parsed) && CallerOk(w, raw, c)
    ensures var (c', raw', parsed') := Step(w, raw, parsed, c);
      && CachesOk(w, raw', parsed') && CallerOk(w, raw', c')
      && (forall id :: id in raw ==> id in raw' && raw'[id] == raw[id])
      && (forall id :: id in parsed ==> id in parsed' && parsed'[id] == parsed[id])
  {
  }

  lemma NextKeepsInv(w: World, s: State, e: Event)
    requires Inv(w, s) && Next(w, s, e).Some?
    ensures Inv(w, Next(w, s, e).value) && Grows(s, Next(w, s, e).value)
  {
    if e.Advance? {
      StepKeepsCaches(w, s.raw, s.parsed, s.callers[e.caller]);
    }
  }

  lemma {:induction false} InvHolds(w: World, s: State, es: seq<Event>, t: State)
    requires Inv(w, s) && Exec(w, s, es) == Some(t)
    ensures Inv(w, t) && Grows(s, t)
  {
    if es == [] {
    } else {
      var m := Exec(w, s, Init(es)).value;
      InvHolds(w, s, Init(es), m);
      NextKeepsInv(w, m, Last(es));
    }
  }

  /** Under every interleaving a call that succeeds returns what the registry means
      by the id, one that fails to parse was told the truth, and both caches hold
      only such answers. */
  lemma EveryReturnIsRight(w: World, es: seq<Event>, s: State)
    requires Exec(w, EMPTY, es) == Some(s)
    ensures CachesOk(w, s.raw, s.parsed)
    ensures forall t :: t in s.callers && s.callers[t].Returned? && s.callers[t].result.Ok? ==>
      w.Meaning(s.callers[t].id) == Some(s.callers[t].result.value)
    ensures forall t :: t in s.callers && s.callers[t].Returned? && s.callers[t].result == Err(Unparsable) ==>
      w.Meaning(s.callers[t].id) == None
  {
    InvHolds(w, EMPTY, es, s);
  }

  /** A cached answer never changes or disappears. */
  lemma CachesOnlyGrow(w: World, es1: seq<Event>, s: State, es2: seq<Event>, t: State)
    requires Exec(w, EMPTY, es1) == Some(s) && Exec(w, s, es2) == Some(t)
    ensures Grows(s, t)
  {
    InvHolds(w, EMPTY, es1, s);
    InvHolds(w, s, es2, t);
  }

  /** The callers that missed the parsed cache for the id and are not past it. */
  function Missed(s: State, id: int): set<nat> {
    set t | t in s.callers && s.callers[t] == LookRaw(id)
  }

  /** Once an id is parsed no caller goes past the parsed cache for it any more. */
  lemma {:induction false} ParsedIdsAreNotLookedUp(w: World, s: State, es: seq<Event>, t: State, id: int)
    requires Inv(w, s) && id in s.parsed && Exec(w, s, es) == Some(t)
    ensures Missed(t, id) <= Missed(s, id)
  {
    if es == [] {
    } else {
      var m, e := Exec(w, s, Init(es)).value, Last(es);
      ParsedIdsAreNotLookedUp(w, s, Init(es), m, id);
      InvHolds(w, s, Init(es), m);
      assert e.Advance? ==> Step(w, m.raw, m.parsed, m.callers[e.caller]).0 != LookRaw(id);
      forall c | c in Missed(t, id)
        ensures c in Missed(m, id)
      {
      }
    }
  }

  // ---- no further requests ----

  function Fetchers(s: State, id: int): set<nat> {
    set t | t in s.callers && s.callers[t] == Fetching(id)
  }

  /** Once an id is cached no caller starts a request for it: the callers with a
      request under way can only become fewer. */
  lemma {:induction false} CachedIdsAreNotFetched(w: World, s: State, es: seq<Event>, t: State, id: int)
    requires Inv(w, s) && id in s.raw && Exec(w, s, es) == Some(t)
    ensures Fetchers(t, id) <= Fetchers(s, id)
  {
    if es == [] {
    } else {
      var m, e := Exec(w, s, Init(es)).value, Last(es);
      CachedIdsAreNotFetched(w, s, Init(es), m, id);
      InvHolds(w, s, Init(es), m);
      assert e.Advance? ==> Step(w, m.raw, m.parsed, m.callers[e.caller]).0 != Fetching(id);
      forall c | c in Fetchers(t, id)
        ensures c in Fetchers(m, id)
      {
      }
    }
  }
}
