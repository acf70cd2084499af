// The Confluent wire format: a zero byte, a big-endian 32-bit schema id and an
// Avro payload.
module Frame {
  import opened Prelude

  const MAGIC_BYTE: byte := 0
  const TWO_32 := 0x1_0000_0000

  datatype FrameError = TooShort(length: nat) | BadMagic(found: byte)

  datatype Framed = Framed(schemaID: int, payload: bytes)

  /** The conversion of a Go int to uint32. */
  function Uint32(n: int): int {
    n % TWO_32
  }

  function BigEndian(n: int): bytes
    requires 0 <= n < TWO_32
  {
    [(n / 0x100_0000) as byte, (n / 0x1_0000 % 0x100) as byte, (n / 0x100 % 0x100) as byte, (n % 0x100) as byte]
  }

  function FromBigEndian(b: bytes): int
    requires |b| == 4
  {
    b[0] as int * 0x100_0000 + b[1] as int * 0x1_0000 + b[2] as int * 0x100 + b[3] as int
  }

  function Encode(schemaID: int, payload: bytes): bytes {
    [MAGIC_BYTE] + BigEndian(Uint32(schemaID)) + payload
  }

  function Decode(data: bytes): Result<Framed, FrameError> {
    if |data| < 5 then Err(TooShort(|data|))
    else if data[0] != MAGIC_BYTE then Err(BadMagic(data[0]))
    else Ok(Framed(FromBigEndian(data[1..5]), data[5..]))
  }

  lemma BigEndianRoundTrip(n: int)
    requires 0 <= n < TWO_32
    ensures FromBigEndian(BigEndian(n)) == n
  {
    var a, b, c := n / 0x100, n / 0x1_0000, n / 0x100_0000;
    assert b == a / 0x100 && c == b / 0x100;
    assert n == a * 0x100 + n % 0x100 && a == b * 0x100 + a % 0x100 && b == c * 0x100 + b % 0x100;
  }

  lemma FromBigEndianRoundTrip(b: bytes)
    requires |b| == 4
    ensures 0 <= FromBigEndian(b) < TWO_32 && BigEndian(FromBigEndian(b)) == b
  {
    var n := FromBigEndian(b);
    assert n / 0x100_0000 == b[0] as int;
    assert n / 0x1_0000 == b[0] as int * 0x100 + b[1] as int;
    assert n / 0x100 == (b[0] as int * 0x100 + b[1] as int) * 0x100 + b[2] as int;
  }

  /** Decoding undoes encoding up to the 32 bits an id is sent in, so the id is
      recovered if and only if it fits. */
  lemma DecodeEncode(schemaID: int, payload: bytes)
    ensures Decode(Encode(schemaID, payload)) == Ok(Framed(Uint32(schemaID), payload))
    ensures Decode(Encode(schemaID, payload)) == Ok(Framed(schemaID, payload)) <==> 0 <= schemaID < TWO_32
  {
    var data := Encode(schemaID, payload);
    assert data[1..5] == BigEndian(Uint32(schemaID)) && data[5..] == payload;
    BigEndianRoundTrip(Uint32(schemaID));
  }

  /** The frame byte by byte: a zero, four bytes that are the id modulo 2^32 with
      the most significant first, and the payload. */
  lemma WireFormat(schemaID: int, payload: bytes)
    ensures var d := Encode(schemaID, payload);
      && |d| == 5 + |payload| && d[0] as int == 0 && d[5..] == payload
      && d[1] as int * 16_777_216 + d[2] as int * 65_536 + d[3] as int * 256 + d[4] as int == schemaID % 4_294_967_296
  {
    BigEndianRoundTrip(Uint32(schemaID));
  }

  /** Which header check a string fails: it is too short, or else its first byte is
      not zero. */
  lemma HeaderErrors(data: bytes)
    ensures Decode(data) == Err(TooShort(|data|)) <==> |data| < 5
    ensures |data| >= 5 ==> (Decode(data) == Err(BadMagic(data[0])) <==> data[0] as int != 0)
  {
  }

  /** A byte string passes the header checks exactly when it is the encoding of
      an id and a payload, and then of only one. */
  lemma DecodesIff(data: bytes, f: Framed)
    ensures Decode(data) == Ok(f) <==> 0 <= f.schemaID < TWO_32 && data == Encode(f.schemaID, f.payload)
  {
    if Decode(data).Ok? {
      FromBigEndianRoundTrip(data[1..5]);
      var g := Decode(data).value;
      assert data == [data[0]] + data[1..5] + data[5..];
      assert data == Encode(g.schemaID, g.payload);
    }
    if 0 <= f.schemaID < TWO_32 && data == Encode(f.schemaID, f.payload) {
      DecodeEncode(f.schemaID, f.payload);
    }
  }

  /** The serializer's buffer, filled in place. */
  method Serialize(schemaID: int, payload: bytes) returns (buf: array<byte>)
    ensures fresh(buf) && buf[..] == Encode(schemaID, payload)
  {
    buf := new byte[5 + |payload|];
    buf[0] := MAGIC_BYTE;
    PutUint32(buf, 1, Uint32(schemaID));
    forall i | 0 <= i < |payload| {
      buf[5 + i] := payload[i];
    }
    var data := Encode(schemaID, payload);
    assert forall i :: 0 <= i < |data| ==> buf[i] == data[i];
  }

  method PutUint32(buf: array<byte>, at: nat, n: int)
    requires at + 4 <= buf.Length && 0 <= n < TWO_32
    modifies buf
    ensures buf[at..at + 4] == BigEndian(n)
    ensures forall i :: 0 <= i < buf.Length && !(at <= i < at + 4) ==> buf[i] == old(buf[i])
  {
    buf[at] := (n / 0x100_0000) as byte;
    buf[at + 1] := (n / 0x1_0000 % 0x100) as byte;
    buf[at + 2] := (n / 0x100 % 0x100) as byte;
    buf[at + 3] := (n % 0x100) as byte;
  }
}
