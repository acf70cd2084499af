// Dead-letter records: what Publish builds from a record, and that the record is
// recoverable from it, also after being dead-lettered any number of times.
module DeadLetterQueue {
  import opened Prelude
  import opened Models

  // ---- decimal numbers ----

  const ZERO: byte := 48
  const MINUS: byte := 45

  function PrintNat(n: nat): (s: bytes)
    ensures s != []
    ensures forall i :: 0 <= i < |s| ==> ZERO <= s[i] <= ZERO + 9
  {
    if n < 10 then [ZERO + n as byte] else PrintNat(n / 10) + [ZERO + (n % 10) as byte]
  }

  /** The decimal form of an integer, as strconv prints it. */
  function Print(n: int): bytes {
    if n < 0 then [MINUS] + PrintNat(-n) else PrintNat(n)
  }

  function ParseNat(s: bytes): Option<nat> {
    if s == [] then None
    else if !(ZERO <= Last(s) <= ZERO + 9) then None
    else
      var d := (Last(s) - ZERO) as nat;
      if |s| == 1 then Some(d)
      else
        match ParseNat(Init(s))
        case None => None
        case Some(n) => Some(10 * n + d)
  }

  function Parse(s: bytes): Option<int> {
    if s != [] && s[0] == MINUS then
      match ParseNat(s[1..])
      case None => None
      case Some(n) => Some(-(n as int))
    else ParseNat(s)
  }

  lemma {:induction false} ParsePrintNat(n: nat)
    ensures ParseNat(PrintNat(n)) == Some(n)
  {
    if n < 10 {
    } else {
      ParsePrintNat(n / 10);
      assert Init(PrintNat(n)) == PrintNat(n / 10);
    }
  }

  lemma ParseSigned(digits: bytes, n: nat)
    requires digits != [] && digits[0] != MINUS && ParseNat(digits) == Some(n)
    ensures Parse([MINUS] + digits) == Some(-(n as int)) && Parse(digits) == Some(n)
  {
    assert ([MINUS] + digits)[1..] == digits;
  }

  lemma ParsePrint(n: int)
    ensures Parse(Print(n)) == Some(n)
  {
    var size: nat := if n < 0 then -n else n;
    ParsePrintNat(size);
    ParseSigned(PrintNat(size), size);
  }

  // ---- headers ----

  function Ascii(s: string): bytes
    requires forall i :: 0 <= i < |s| ==> s[i] < 128 as char
  {
    seq(|s|, i requires 0 <= i < |s| => s[i] as byte)
  }

  const ERROR_REASON := Ascii("error_reason")
  const FAILED_AT := Ascii("failed_at")
  const ORIGINAL_TOPIC := Ascii("original_topic")
  const ORIGINAL_PARTITION := Ascii("original_partition")
  const ORIGINAL_OFFSET := Ascii("original_offset")

  /** The keys of the metadata headers differ. */
  lemma KeysDiffer()
    ensures Distinct([ERROR_REASON, FAILED_AT, ORIGINAL_TOPIC, ORIGINAL_PARTITION, ORIGINAL_OFFSET])
  {
    assert |ERROR_REASON| == 12 && |FAILED_AT| == 9 && |ORIGINAL_TOPIC| == 14;
    assert |ORIGINAL_PARTITION| == 18 && |ORIGINAL_OFFSET| == 15;
  }

  function Metadata(original: Record, reason: bytes, failedAt: bytes): seq<Header> {
    [Header(ERROR_REASON, reason),
     Header(FAILED_AT, failedAt),
     Header(ORIGINAL_TOPIC, original.topic),
     Header(ORIGINAL_PARTITION, Print(original.partition)),
     Header(ORIGINAL_OFFSET, Print(original.offset))]
  }

  /** The record that Publish produces. The broker assigns its partition and offset. */
  function DeadLetter(
      original: Record, dlqTopic: bytes, reason: bytes, failedAt: bytes, partition: int, offset: int): Record {
    Record(dlqTopic, partition, offset, original.key, original.value,
           Metadata(original, reason, failedAt) + original.headers)
  }

  /** The first value under a key. */
  function Lookup(hs: seq<Header>, key: bytes): Option<bytes> {
    if hs == [] then None
    else if hs[0].key == key then Some(hs[0].value)
    else Lookup(hs[1..], key)
  }

  /** What a replay tool does: look the metadata up by key and drop it. */
  function Replay(dead: Record): Option<Record> {
    if |dead.headers| < 5 then None
    else
      match Lookup(dead.headers, ORIGINAL_TOPIC)
      case None => None
      case Some(topic) =>
        match (Lookup(dead.headers, ORIGINAL_PARTITION), Lookup(dead.headers, ORIGINAL_OFFSET))
        case (Some(p), Some(o)) =>
          if Parse(p).Some? && Parse(o).Some? then
            Some(Record(topic, Parse(p).value, Parse(o).value, dead.key, dead.value, dead.headers[5..]))
          else None
        case _ => None
  }

  /** The metadata is found whatever the original headers are, even when they use
      the same keys. */
  lemma MetadataIsFound(original: Record, reason: bytes, failedAt: bytes)
    ensures var hs := Metadata(original, reason, failedAt) + original.headers;
      && Lookup(hs, ERROR_REASON) == Some(reason)
      && Lookup(hs, FAILED_AT) == Some(failedAt)
      && Lookup(hs, ORIGINAL_TOPIC) == Some(original.topic)
      && Lookup(hs, ORIGINAL_PARTITION) == Some(Print(original.partition))
      && Lookup(hs, ORIGINAL_OFFSET) == Some(Print(original.offset))
  {
    KeysDiffer();
    var hs := Metadata(original, reason, failedAt) + original.headers;
    var keys := [ERROR_REASON, FAILED_AT, ORIGINAL_TOPIC, ORIGINAL_PARTITION, ORIGINAL_OFFSET];
    assert forall i :: 0 <= i < 5 ==> hs[i].key == keys[i];
    FirstOfKey(hs, 0);
    FirstOfKey(hs, 1);
    FirstOfKey(hs, 2);
    FirstOfKey(hs, 3);
    FirstOfKey(hs, 4);
  }

  lemma {:induction false} FirstOfKey(hs: seq<Header>, k: nat)
    requires k < |hs| && forall i :: 0 <= i < k ==> hs[i].key != hs[k].key
    ensures Lookup(hs, hs[k].key) == Some(hs[k].value)
  {
    if k == 0 {
    } else {
      assert hs[1..][k - 1] == hs[k];
      assert forall i :: 0 <= i < k - 1 ==> hs[1..][i] == hs[i + 1];
      FirstOfKey(hs[1..], k - 1);
    }
  }

  /** Replay recovers the dead-lettered record exactly. */
  lemma ReplayInvertsPublish(
      original: Record, dlqTopic: bytes, reason: bytes, failedAt: bytes, partition: int, offset: int)
    ensures Replay(DeadLetter(original, dlqTopic, reason, failedAt, partition, offset)) == Some(original)
  {
    var dead := DeadLetter(original, dlqTopic, reason, failedAt, partition, offset);
    MetadataIsFound(original, reason, failedAt);
    ParsePrint(original.partition);
    ParsePrint(original.offset);
    assert dead.headers[5..] == original.headers;
  }

  /** One passage of a record through a dead-letter topic. */
  datatype Hop = Hop(dlqTopic: bytes, reason: bytes, failedAt: bytes, partition: int, offset: int)

  function DeadLetterAll(original: Record, hops: seq<Hop>): Record {
    if hops == [] then original
    else
      var h := Last(hops);
      DeadLetter(DeadLetterAll(original, Init(hops)), h.dlqTopic, h.reason, h.failedAt, h.partition, h.offset)
  }

  function ReplayTimes(dead: Record, n: nat): Option<Record>
    decreases n
  {
    if n == 0 then Some(dead)
    else
      match Replay(dead)
      case None => None
      case Some(r) => ReplayTimes(r, n - 1)
  }

  /** A record dead-lettered any number of times, each time with all the metadata
      of the times before among its own headers, is recovered by as many replays. */
  lemma {:induction false} ReplaysInvertPublishes(original: Record, hops: seq<Hop>)
    ensures ReplayTimes(DeadLetterAll(original, hops), |hops|) == Some(original)
  {
    if hops == [] {
    } else {
      var h := Last(hops);
      var before := DeadLetterAll(original, Init(hops));
      ReplayInvertsPublish(before, h.dlqTopic, h.reason, h.failedAt, h.partition, h.offset);
      ReplaysInvertPublishes(original, Init(hops));
    }
  }

  // ---- what is in the dead-letter topic, said without Replay ----

  /** b is the text s in ASCII. */
  predicate Spells(b: bytes, s: string) {
    |b| == |s| && forall i :: 0 <= i < |s| ==> b[i] as int == s[i] as int
  }

  /** The number that a string of digits stands for. */
  function Numeral(s: string): int {
    if s == [] then 0 else 10 * Numeral(Init(s)) + (Last(s) as int - '0' as int)
  }

  predicate IsDigits(s: string) {
    s != [] && forall c :: c in s ==> '0' <= c <= '9'
  }

  /** s is the decimal form of n: digits without leading zeros, after a minus sign
      when n is negative. */
  predicate IsDecimal(s: string, n: int) {
    if n < 0 then |s| > 1 && s[0] == '-' && IsDigits(s[1..]) && s[1] != '0' && Numeral(s[1..]) == -n
    else IsDigits(s) && (s[0] == '0' ==> |s| == 1) && Numeral(s) == n
  }

  lemma {:induction false} PrintNatIsDecimal(n: nat) returns (s: string)
    ensures Spells(PrintNat(n), s) && IsDecimal(s, n)
  {
    var digit := ('0' as int + n % 10) as char;
    if n < 10 {
      s := [digit];
      assert Init(s) == [];
    } else {
      var t := PrintNatIsDecimal(n / 10);
      s := t + [digit];
      assert Init(s) == t && Last(s) == digit;
    }
  }

  /** Numbers are printed in decimal. */
  lemma PrintIsDecimal(n: int)
    ensures exists s :: Spells(Print(n), s) && IsDecimal(s, n)
  {
    var size: nat := if n < 0 then -n else n;
    var t := PrintNatIsDecimal(size);
    if n < 0 {
      var s := "-" + t;
      assert s[1..] == t;
      assert Spells(Print(n), s) && IsDecimal(s, n);
    }
  }

  /** A header of that name is found first, and its value is v. */
  predicate Finds(hs: seq<Header>, name: string, v: bytes) {
    exists i :: 0 <= i < |hs| && Spells(hs[i].key, name) && hs[i].value == v
                && forall j :: 0 <= j < i ==> !Spells(hs[j].key, name)
  }

  lemma SpellsOnce(b: bytes, s: string, t: string)
    requires Spells(b, s)
    ensures Spells(b, t) ==> s == t
  {
    if Spells(b, t) {
      assert forall i :: 0 <= i < |s| ==> s[i] == t[i];
    }
  }

  lemma FoundAt(hs: seq<Header>, names: seq<string>, i: nat)
    requires |names| <= |hs| && i < |names|
    requires forall j :: 0 <= j < |names| ==> Spells(hs[j].key, names[j])
    requires forall j, k :: 0 <= j < k < |names| ==> names[j] != names[k]
    ensures Finds(hs, names[i], hs[i].value)
  {
    forall j | 0 <= j < i
      ensures !Spells(hs[j].key, names[i])
    {
      SpellsOnce(hs[j].key, names[j], names[i]);
    }
  }

  /** The first headers tell where and why the record failed; they come before
      whatever headers it had. */
  lemma MetadataByName(original: Record, dlqTopic: bytes, reason: bytes, failedAt: bytes, partition: int, offset: int)
    ensures var hs := DeadLetter(original, dlqTopic, reason, failedAt, partition, offset).headers;
      && Finds(hs, "error_reason", reason)
      && Finds(hs, "failed_at", failedAt)
      && Finds(hs, "original_topic", original.topic)
      && Finds(hs, "original_partition", Print(original.partition))
      && Finds(hs, "original_offset", Print(original.offset))
  {
    var hs := DeadLetter(original, dlqTopic, reason, failedAt, partition, offset).headers;
    var names := ["error_reason", "failed_at", "original_topic", "original_partition", "original_offset"];
    assert |names[0]| == 12 && |names[1]| == 9 && |names[2]| == 14 && |names[3]| == 18 && |names[4]| == 15;
    FoundAt(hs, names, 0);
    FoundAt(hs, names, 1);
    FoundAt(hs, names, 2);
    FoundAt(hs, names, 3);
    FoundAt(hs, names, 4);
  }

  /** Where a record was consumed before its last hop: the topic of the hop before,
      or its own for the first. */
  function TakenFrom(original: Record, hops: seq<Hop>): bytes
    requires hops != []
  {
    if |hops| == 1 then original.topic else hops[|hops| - 2].dlqTopic
  }

  lemma {:induction false} PassageKeeps(original: Record, hops: seq<Hop>)
    ensures var dead := DeadLetterAll(original, hops);
      && dead.key == original.key && dead.value == original.value
      && |dead.headers| == |original.headers| + 5 * |hops| && dead.headers[5 * |hops|..] == original.headers
  {
    if hops == [] {
    } else {
      PassageKeeps(original, Init(hops));
      var dead, before := DeadLetterAll(original, hops), DeadLetterAll(original, Init(hops));
      assert dead.headers[5..] == before.headers;
      assert dead.headers[5..][5 * |Init(hops)|..] == dead.headers[5 * |hops|..];
    }
  }

  lemma TopicBefore(original: Record, hops: seq<Hop>)
    requires hops != []
    ensures DeadLetterAll(original, Init(hops)).topic == TakenFrom(original, hops)
  {
    if |hops| == 1 {
      assert Init(hops) == [];
    } else {
      assert Last(Init(hops)) == hops[|hops| - 2];
    }
  }

  /** A header of that name is found first, and it is n in decimal. */
  ghost predicate FindsNumber(hs: seq<Header>, name: string, n: int) {
    exists v, s :: Finds(hs, name, v) && Spells(v, s) && IsDecimal(s, n)
  }

  /** After any number of passages the record is in the topic of the last one, with
      its key, its value and, at the end, its headers as they were; the metadata of
      the last passage comes first and says which record of which topic it took. */
  lemma Passage(original: Record, hops: seq<Hop>)
    requires hops != []
    ensures var dead, before := DeadLetterAll(original, hops), DeadLetterAll(original, Init(hops));
      && dead.topic == Last(hops).dlqTopic && dead.key == original.key && dead.value == original.value
      && |dead.headers| == |original.headers| + 5 * |hops| && dead.headers[5 * |hops|..] == original.headers
      && Finds(dead.headers, "error_reason", Last(hops).reason)
      && Finds(dead.headers, "failed_at", Last(hops).failedAt)
      && Finds(dead.headers, "original_topic", TakenFrom(original, hops))
      && FindsNumber(dead.headers, "original_partition", before.partition)
      && FindsNumber(dead.headers, "original_offset", before.offset)
  {
    var h, before := Last(hops), DeadLetterAll(original, Init(hops));
    MetadataByName(before, h.dlqTopic, h.reason, h.failedAt, h.partition, h.offset);
    PrintIsDecimal(before.partition);
    PrintIsDecimal(before.offset);
    TopicBefore(original, hops);
    PassageKeeps(original, hops);
  }
}
