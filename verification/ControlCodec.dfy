/** The version-1 control ABI: fixed 280-byte requests, 276-byte responses. */
module ControlCodec {
  import opened Bytes
  import opened Lists

  const MAGIC: nat := 0x32434354
  const VERSION: nat := 1
  const MAX_PAYLOAD: nat := 256
  const REQUEST_SIZE: nat := 280
  const RESPONSE_SIZE: nat := 276

  datatype Request = Request(operation: int, handle: int, arg0: int, arg1: int, data: seq<Byte>)

  datatype Response = Response(operation: nat, status: int, handle: int, data: seq<Byte>)

  datatype ProtocolError = BadSize | BadMagic(magic: nat) | BadVersion(version: nat) | BadOperation(operation: nat) | BadLength(length: nat)

  datatype Decoded<T> = Ok(value: T) | Bad(error: ProtocolError)

  // ----- words -----

  /** Two's complement in 32 bits. */
  function Unsigned(n: int): nat
    requires -0x8000_0000 <= n < 0x8000_0000
  {
    if n < 0 then n + 0x1_0000_0000 else n
  }

  function Signed(n: nat): int {
    if n >= 0x8000_0000 then n - 0x1_0000_0000 else n
  }

  lemma Powers()
    ensures Power256(2) == 0x1_0000 && Power256(4) == 0x1_0000_0000
  {
    assert Power256(0) == 1 && Power256(1) == 256 && Power256(3) == 0x100_0000;
  }

  lemma Word(n: nat)
    requires n < 0x1_0000_0000
    ensures FromLittle(Little(n, 4)) == n
  {
    Powers();
    LittleRoundTrip(n, 4);
  }

  lemma HalfWord(n: nat)
    requires n < 0x1_0000
    ensures FromLittle(Little(n, 2)) == n
  {
    Powers();
    LittleRoundTrip(n, 2);
  }

  function Zeros(n: nat): seq<Byte> {
    seq(n, _ => 0)
  }

  // ----- requests -----

  predicate InRange(r: Request) {
    && 1 <= r.operation <= 0xffff && -0x8000_0000 <= r.handle < 0x8000_0000
    && 0 <= r.arg0 < 0x1_0000_0000 && 0 <= r.arg1 < 0x1_0000_0000 && |r.data| <= MAX_PAYLOAD
  }

  function RequestHead(r: Request): (s: seq<Byte>)
    requires InRange(r)
    ensures |s| == 24
  {
    Little(MAGIC, 4) + Little(VERSION, 2) + Little(r.operation, 2) + Little(Unsigned(r.handle), 4)
    + Little(r.arg0, 4) + Little(r.arg1, 4) + Little(|r.data|, 4)
  }

  /** encode_request: None stands for the validation errors. */
  function EncodeRequest(r: Request): (s: Option<seq<Byte>>)
    ensures s.Some? <==> InRange(r)
    ensures s.Some? ==> |s.value| == REQUEST_SIZE
  {
    if InRange(r) then Some(RequestHead(r) + r.data + Zeros(MAX_PAYLOAD - |r.data|)) else None
  }

  function Field(s: seq<Byte>, from: nat, width: nat): nat
    requires from + width <= |s|
  {
    FromLittle(s[from..from + width])
  }

  /** The record as the other side of the pipe lays it out. */
  function DecodeRequest(s: seq<Byte>): Decoded<Request> {
    if |s| != REQUEST_SIZE then Bad(BadSize)
    else if Field(s, 0, 4) != MAGIC then Bad(BadMagic(Field(s, 0, 4)))
    else if Field(s, 4, 2) != VERSION then Bad(BadVersion(Field(s, 4, 2)))
    else if Field(s, 20, 4) > MAX_PAYLOAD then Bad(BadLength(Field(s, 20, 4)))
    else Ok(Request(Field(s, 6, 2), Signed(Field(s, 8, 4)), Field(s, 12, 4), Field(s, 16, 4), s[24..24 + Field(s, 20, 4)]))
  }

  lemma RequestSlices(r: Request, tail: seq<Byte>)
    requires InRange(r)
    ensures var s := RequestHead(r) + tail;
            && s[0..4] == Little(MAGIC, 4)
            && s[4..6] == Little(VERSION, 2)
            && s[6..8] == Little(r.operation, 2)
            && s[8..12] == Little(Unsigned(r.handle), 4)
            && s[12..16] == Little(r.arg0, 4)
            && s[16..20] == Little(r.arg1, 4)
            && s[20..24] == Little(|r.data|, 4)
  {
    hide Little, Unsigned;
  }

  lemma RequestFields(r: Request, tail: seq<Byte>)
    requires InRange(r)
    ensures var s := RequestHead(r) + tail;
            && Field(s, 0, 4) == MAGIC && Field(s, 4, 2) == VERSION && Field(s, 6, 2) == r.operation
            && Field(s, 8, 4) == Unsigned(r.handle) && Field(s, 12, 4) == r.arg0 && Field(s, 16, 4) == r.arg1
            && Field(s, 20, 4) == |r.data|
  {
    RequestSlices(r, tail);
    hide RequestHead;
    hide Little, FromLittle;
    Word(MAGIC);
    HalfWord(VERSION);
    HalfWord(r.operation);
    Word(Unsigned(r.handle));
    Word(r.arg0);
    Word(r.arg1);
    Word(|r.data|);
  }

  lemma SignedRoundTrip(n: int)
    requires -0x8000_0000 <= n < 0x8000_0000
    ensures Signed(Unsigned(n)) == n
  {
  }

  /** Every request in range decodes from its 280-byte record to the same
      fields. */
  lemma RequestRoundTrip(r: Request)
    requires InRange(r)
    ensures DecodeRequest(EncodeRequest(r).value) == Ok(r)
  {
    var padding := Zeros(MAX_PAYLOAD - |r.data|);
    var s := EncodeRequest(r).value;
    assert s == RequestHead(r) + (r.data + padding);
    assert s[24..24 + |r.data|] == r.data;
    hide RequestHead, Field;
    RequestFields(r, r.data + padding);
    SignedRoundTrip(r.handle);
  }

  // ----- responses -----

  /** decode_response and the checks of tcpcc_control_transact. */
  function DecodeResponse(s: seq<Byte>, expected: nat): (r: Decoded<Response>)
    ensures r.Ok? ==> |s| == RESPONSE_SIZE && r.value.operation == expected && |r.value.data| <= MAX_PAYLOAD
  {
    if |s| != RESPONSE_SIZE then Bad(BadSize)
    else if Field(s, 0, 4) != MAGIC then Bad(BadMagic(Field(s, 0, 4)))
    else if Field(s, 4, 2) != VERSION then Bad(BadVersion(Field(s, 4, 2)))
    else if Field(s, 6, 2) != expected then Bad(BadOperation(Field(s, 6, 2)))
    else if Field(s, 16, 4) > MAX_PAYLOAD then Bad(BadLength(Field(s, 16, 4)))
    else Ok(Response(expected, Signed(Field(s, 8, 4)), Signed(Field(s, 12, 4)), s[20..20 + Field(s, 16, 4)]))
  }

  predicate Sendable(r: Response) {
    && r.operation <= 0xffff && -0x8000_0000 <= r.status < 0x8000_0000 && -0x8000_0000 <= r.handle < 0x8000_0000
    && |r.data| <= MAX_PAYLOAD
  }

  function ResponseHead(r: Response): (s: seq<Byte>)
    requires Sendable(r)
    ensures |s| == 20
  {
    Little(MAGIC, 4) + Little(VERSION, 2) + Little(r.operation, 2) + Little(Unsigned(r.status), 4)
    + Little(Unsigned(r.handle), 4) + Little(|r.data|, 4)
  }

  /** A response record as the hosted side writes it; the bytes after the
      payload may be anything. */
  ghost predicate IsRecordOf(s: seq<Byte>, r: Response) {
    Sendable(r) && |s| == RESPONSE_SIZE && ResponseHead(r) + r.data <= s
  }

  lemma ResponseSlices(r: Response, tail: seq<Byte>)
    requires Sendable(r)
    ensures var s := ResponseHead(r) + tail;
            && s[0..4] == Little(MAGIC, 4)
            && s[4..6] == Little(VERSION, 2)
            && s[6..8] == Little(r.operation, 2)
            && s[8..12] == Little(Unsigned(r.status), 4)
            && s[12..16] == Little(Unsigned(r.handle), 4)
            && s[16..20] == Little(|r.data|, 4)
  {
    hide Little, Unsigned;
  }

  lemma ResponseFields(r: Response, tail: seq<Byte>)
    requires Sendable(r)
    ensures var s := ResponseHead(r) + tail;
            && Field(s, 0, 4) == MAGIC && Field(s, 4, 2) == VERSION && Field(s, 6, 2) == r.operation
            && Field(s, 8, 4) == Unsigned(r.status) && Field(s, 12, 4) == Unsigned(r.handle) && Field(s, 16, 4) == |r.data|
  {
    ResponseSlices(r, tail);
    hide ResponseHead;
    hide Little, FromLittle;
    Word(MAGIC);
    HalfWord(VERSION);
    HalfWord(r.operation);
    Word(Unsigned(r.status));
    Word(Unsigned(r.handle));
    Word(|r.data|);
  }

  lemma ResponseReadsBack(s: seq<Byte>, r: Response)
    requires IsRecordOf(s, r)
    ensures DecodeResponse(s, r.operation) == Ok(r)
  {
    var tail := s[20..];
    assert s == ResponseHead(r) + tail by {
      assert s[..20] == ResponseHead(r);
    }
    assert s[20..20 + |r.data|] == r.data;
    hide ResponseHead, Field;
    ResponseFields(r, tail);
    SignedRoundTrip(r.status);
    SignedRoundTrip(r.handle);
  }

  lemma LittleField(s: seq<Byte>, from: nat, width: nat)
    requires from + width <= |s|
    ensures Field(s, from, width) < Power256(width) && Little(Field(s, from, width), width) == s[from..from + width]
  {
    FromLittleRoundTrip(s[from..from + width]);
  }

  lemma UnsignedRoundTrip(n: nat)
    requires n < 0x1_0000_0000
    ensures -0x8000_0000 <= Signed(n) < 0x8000_0000 && Unsigned(Signed(n)) == n
  {
  }

  lemma HeadOfFields(s: seq<Byte>, r: Response)
    requires |s| == RESPONSE_SIZE && Sendable(r)
    requires Little(MAGIC, 4) == s[0..4] && Little(VERSION, 2) == s[4..6] && Little(r.operation, 2) == s[6..8]
    requires Little(Unsigned(r.status), 4) == s[8..12] && Little(Unsigned(r.handle), 4) == s[12..16]
    requires Little(|r.data|, 4) == s[16..20]
    ensures ResponseHead(r) == s[..20]
  {
    hide Little;
    assert s[..20] == s[0..4] + s[4..6] + s[6..8] + s[8..12] + s[12..16] + s[16..20];
  }

  lemma FieldsOfRecord(s: seq<Byte>, expected: nat)
    requires DecodeResponse(s, expected).Ok?
    ensures var r := DecodeResponse(s, expected).value;
            && Sendable(r) && Unsigned(r.status) == Field(s, 8, 4) && Unsigned(r.handle) == Field(s, 12, 4)
            && Field(s, 0, 4) == MAGIC && Field(s, 4, 2) == VERSION && Field(s, 6, 2) == r.operation
            && Field(s, 16, 4) == |r.data| && r.data == s[20..20 + |r.data|]
  {
    Powers();
    LittleField(s, 6, 2);
    LittleField(s, 8, 4);
    LittleField(s, 12, 4);
    hide Little, Field, Power256;
    UnsignedRoundTrip(Field(s, 8, 4));
    UnsignedRoundTrip(Field(s, 12, 4));
  }

  lemma DecodedIsRecord(s: seq<Byte>, expected: nat)
    requires DecodeResponse(s, expected).Ok?
    ensures IsRecordOf(s, DecodeResponse(s, expected).value)
  {
    var r := DecodeResponse(s, expected).value;
    FieldsOfRecord(s, expected);
    hide Little, Field, Power256, DecodeResponse, Unsigned, Sendable;
    LittleField(s, 0, 4);
    LittleField(s, 4, 2);
    LittleField(s, 6, 2);
    LittleField(s, 8, 4);
    LittleField(s, 12, 4);
    LittleField(s, 16, 4);
    HeadOfFields(s, r);
    hide ResponseHead;
    assert s[..20] + s[20..20 + |r.data|] == s[..20 + |r.data|];
  }

  /** A record is accepted exactly when it is the record of a response to the
      expected operation, and that response is what is returned. */
  lemma ResponseExactly(s: seq<Byte>, expected: nat, r: Response)
    ensures DecodeResponse(s, expected) == Ok(r) <==> IsRecordOf(s, r) && r.operation == expected
  {
    hide DecodeResponse, IsRecordOf;
    if DecodeResponse(s, expected) == Ok(r) {
      DecodedIsRecord(s, expected);
    }
    if IsRecordOf(s, r) {
      ResponseReadsBack(s, r);
    }
  }
}
