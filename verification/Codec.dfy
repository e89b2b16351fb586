/** Length-prefixed frames on a byte stream. */
module Codec {
  import opened Prelude
  import opened Protocol

  type byte = x: int | 0 <= x < 256

  /** Big-endian, as written by `write_u32`. */
  function U32Bytes(n: nat): (bytes: seq<byte>)
    requires n < 0x1_0000_0000
  {
    [n / 0x100 / 0x100 / 0x100, n / 0x100 / 0x100 % 0x100, n / 0x100 % 0x100, n % 0x100]
  }

  function U32Value(bytes: seq<byte>): (n: nat)
    requires |bytes| == 4
    ensures n < 0x1_0000_0000
  {
    ((bytes[0] as int * 0x100 + bytes[1]) * 0x100 + bytes[2]) * 0x100 + bytes[3]
  }

  /** The cast that keeps the low 32 bits. */
  function AsU32(n: nat): (r: nat)
    ensures r < 0x1_0000_0000
  {
    n % 0x1_0000_0000
  }

  /** The bytes of one frame. */
  function Frame(payload: seq<byte>): seq<byte> {
    U32Bytes(AsU32(|payload|)) + payload
  }

  datatype Reading = Reading(result: Result<seq<byte>, Error>, rest: seq<byte>)

  const END_OF_STREAM: Error := Io(Other)

  /** What a read that needs more bytes than there are reports; `failure` is how the stream ends. */
  function EndError(failure: Option<Error>): Error {
    if failure.Some? then failure.value else END_OF_STREAM
  }

  /** What one read takes from a stream that holds `input` and then ends, cleanly or with a failure. */
  function ReadOne(input: seq<byte>, failure: Option<Error>): Reading {
    if |input| < 4 then Reading(Err(EndError(failure)), [])
    else
      var len := U32Value(input[..4]);
      if len > MAX_FRAME then Reading(Err(FrameTooLarge), input[4..])
      else if |input| - 4 < len then Reading(Err(EndError(failure)), [])
      else Reading(Ok(input[4..4 + len]), input[4 + len..])
  }

  /** One read and the parsing of what it yields. */
  function ReadValue<T>(input: seq<byte>, failure: Option<Error>, parse: seq<byte> -> Option<T>)
    : (Result<T, Error>, seq<byte>)
  {
    match ReadOne(input, failure)
    case Reading(Err(e), rest) => (Err(e), rest)
    case Reading(Ok(payload), rest) =>
      match parse(payload)
      case None => (Err(BadMessage), rest)
      case Some(value) => (Ok(value), rest)
  }

  /** Reads `n` messages; the first error ends it. */
  function ReadMany<T>(input: seq<byte>, failure: Option<Error>, parse: seq<byte> -> Option<T>, n: nat)
    : (Result<seq<T>, Error>, seq<byte>)
  {
    if n == 0 then (Ok([]), input)
    else match ReadValue(input, failure, parse)
      case (Err(e), rest) => (Err(e), rest)
      case (Ok(value), rest) =>
        var (tail, left) := ReadMany(rest, failure, parse, n - 1);
        match tail
        case Err(e) => (Err(e), left)
        case Ok(values) => (Ok([value] + values), left)
  }

  // ---------------------------------------------------------------- streams

  /** A stream to read from; each read yields some of what is there. Behind that it ends, or fails. */
  class Source {
    var pending: seq<byte>
    const failure: Option<Error>

    constructor (bytes: seq<byte>, failure: Option<Error>)
      ensures pending == bytes && this.failure == failure
    {
      pending := bytes;
      this.failure := failure;
    }

    /** At least one byte unless the stream has ended, at most `limit`. */
    method Read(limit: nat) returns (result: Result<seq<byte>, Error>)
      modifies this
      ensures result.Ok? ==>
        && |result.value| <= limit
        && old(pending) == result.value + pending
        && (result.value == [] ==> limit == 0 || (old(pending) == [] && failure.None?))
      ensures result.Err? ==> old(pending) == pending == [] && failure == Some(result.error)
    {
      if limit > 0 && pending == [] && failure.Some? {
        return Err(failure.value);
      }
      var n: nat := Min(limit, |pending|);
      if n > 0 {
        n :| 1 <= n <= Min(limit, |pending|);
      }
      var chunk := pending[..n];
      pending := pending[n..];
      return Ok(chunk);
    }
  }

  /** A stream to write to; it breaks for good after accepting `room` more bytes. */
  class Sink {
    var sent: seq<byte>
    var room: nat
    const flushes: bool

    constructor (room: nat, flushes: bool)
      ensures sent == [] && this.room == room && this.flushes == flushes
    {
      sent := [];
      this.room := room;
      this.flushes := flushes;
    }

    method WriteAll(bytes: seq<byte>) returns (ok: bool)
      modifies this
      ensures ok == (|bytes| <= old(room))
      ensures sent == old(sent) + bytes[..Min(|bytes|, old(room))]
      ensures room == old(room) - Min(|bytes|, old(room))
    {
      var n := Min(|bytes|, room);
      ok := |bytes| <= room;
      sent := sent + bytes[..n];
      room := room - n;
    }
  }

  /** Fills the buffer, or fails because the stream ends first. */
  method ReadExact(source: Source, buffer: array<byte>) returns (result: Result<(), Error>)
    modifies source, buffer
    ensures result.Ok? <==> buffer.Length <= |old(source.pending)|
    ensures result.Ok? ==> old(source.pending) == buffer[..] + source.pending
    ensures result.Err? ==> source.pending == [] && result.error == EndError(source.failure)
  {
    var filled := 0;
    while filled < buffer.Length
      invariant filled <= buffer.Length
      invariant old(source.pending) == buffer[..filled] + source.pending
      decreases buffer.Length - filled
    {
      var read := source.Read(buffer.Length - filled);
      if read.Err? {
        return Err(read.error);
      }
      var chunk := read.value;
      if chunk == [] {
        return Err(END_OF_STREAM);
      }
      ghost var before := buffer[..filled];
      forall i | 0 <= i < |chunk| {
        buffer[filled + i] := chunk[i];
      }
      filled := filled + |chunk|;
      assert buffer[..filled] == before + chunk;
    }
    assert buffer[..filled] == buffer[..];
    return Ok(());
  }

  method ReadFrame(source: Source) returns (result: Result<seq<byte>, Error>)
    modifies source
    ensures Reading(result, source.pending) == ReadOne(old(source.pending), source.failure)
  {
    var header := new byte[4];
    var read := ReadExact(source, header);
    if read.Err? {
      return Err(read.error);
    }
    ghost var rest := source.pending;
    assert header[..] == old(source.pending)[..4] && rest == old(source.pending)[4..];
    var len := U32Value(header[..]);
    if len > MAX_FRAME {
      return Err(FrameTooLarge);
    }
    var bytes := new byte[len];
    read := ReadExact(source, bytes);
    if read.Err? {
      return Err(read.error);
    }
    assert rest == bytes[..] + source.pending;
    ghost var input := old(source.pending);
    assert input[4..4 + len] == rest[..len] == bytes[..];
    assert input[4 + len..] == rest[len..] == source.pending;
    return Ok(bytes[..]);
  }

  /** Reads one frame and parses its payload. */
  method ReadMessage<T>(source: Source, parse: seq<byte> -> Option<T>) returns (result: Result<T, Error>)
    modifies source
    ensures (result, source.pending) == ReadValue(old(source.pending), source.failure, parse)
  {
    var frame := ReadFrame(source);
    if frame.Err? {
      return Err(frame.error);
    }
    var value := parse(frame.value);
    if value.None? {
      return Err(BadMessage);
    }
    return Ok(value.value);
  }

  /** Refuses before the first byte, or writes the frame as far as the stream takes it. */
  method WriteFrame(sink: Sink, payload: seq<byte>) returns (result: Result<(), Error>)
    modifies sink
    ensures |payload| > MAX_FRAME ==>
      result == Err(FrameTooLarge) && sink.sent == old(sink.sent) && sink.room == old(sink.room)
    ensures |payload| <= MAX_FRAME ==>
      && (result.Ok? <==> |Frame(payload)| <= old(sink.room) && sink.flushes)
      && (result.Err? ==> result.error == Io(ConnectionLost))
      && sink.sent == old(sink.sent) + Frame(payload)[..Min(|Frame(payload)|, old(sink.room))]
  {
    if |payload| > MAX_FRAME {
      return Err(FrameTooLarge);
    }
    var header := U32Bytes(AsU32(|payload|));
    var ok := sink.WriteAll(header);
    if !ok {
      assert Frame(payload)[..old(sink.room)] == header[..old(sink.room)];
      return Err(Io(ConnectionLost));
    }
    ok := sink.WriteAll(payload);
    var n := Min(|payload|, old(sink.room) - 4);
    assert Frame(payload)[..4 + n] == header + payload[..n];
    if !ok || !sink.flushes {
      return Err(Io(ConnectionLost));
    }
    return Ok(());
  }

  /** What the writer sends for one message: its frame, or nothing if it is refused. */
  function Written<T>(value: T, encode: T -> Option<seq<byte>>): seq<byte> {
    match encode(value)
    case None => []
    case Some(payload) => if |payload| > MAX_FRAME then [] else Frame(payload)
  }

  /** Encodes a message and writes it as one frame; what cannot be encoded sends nothing. */
  method WriteMessage<T>(sink: Sink, encode: T -> Option<seq<byte>>, value: T) returns (result: Result<(), Error>)
    modifies sink
    ensures encode(value).None? ==> result == Err(BadMessage)
    ensures encode(value).Some? && |encode(value).value| > MAX_FRAME ==> result == Err(FrameTooLarge)
    ensures encode(value).Some? && |encode(value).value| <= MAX_FRAME ==>
      (result.Ok? <==> |Written(value, encode)| <= old(sink.room) && sink.flushes)
    ensures var sent := Written(value, encode);
            sink.sent == old(sink.sent) + sent[..Min(|sent|, old(sink.room))]
  {
    var payload := encode(value);
    if payload.None? {
      return Err(BadMessage);
    }
    result := WriteFrame(sink, payload.value);
  }

  // ---------------------------------------------------------------- theorems

  lemma SplitByte(high: nat, low: byte)
    ensures (high * 0x100 + low) / 0x100 == high
    ensures (high * 0x100 + low) % 0x100 == low
  {}

  lemma U32RoundTrip(n: nat)
    requires n < 0x1_0000_0000
    ensures U32Value(U32Bytes(n)) == n
  {
    var n1 := n / 0x100;
    var n2 := n1 / 0x100;
    assert n == n1 * 0x100 + n % 0x100;
    assert n1 == n2 * 0x100 + n1 % 0x100;
    assert n2 == n2 / 0x100 * 0x100 + n2 % 0x100;
  }

  lemma U32Injective(bytes: seq<byte>)
    requires |bytes| == 4
    ensures U32Bytes(U32Value(bytes)) == bytes
  {
    var n2 := bytes[0] as int * 0x100 + bytes[1];
    var n1 := n2 * 0x100 + bytes[2];
    SplitByte(n1, bytes[3]);
    SplitByte(n2, bytes[2]);
    SplitByte(bytes[0], bytes[1]);
  }

  lemma FrameReadsBack(payload: seq<byte>, rest: seq<byte>, failure: Option<Error>)
    requires |payload| <= MAX_FRAME
    ensures ReadOne(Frame(payload) + rest, failure) == Reading(Ok(payload), rest)
  {
    var input := Frame(payload) + rest;
    U32RoundTrip(|payload|);
    assert input[..4] == U32Bytes(|payload|);
    assert input[4..] == payload + rest;
  }

  lemma ReadIsFrame(input: seq<byte>, payload: seq<byte>, rest: seq<byte>, failure: Option<Error>)
    requires ReadOne(input, failure) == Reading(Ok(payload), rest)
    ensures |payload| <= MAX_FRAME && input == Frame(payload) + rest
  {
    U32Injective(input[..4]);
    assert input == input[..4] + input[4..4 + |payload|] + input[4 + |payload|..];
  }

  /** Exactly the frames of admissible payloads are read, with the remainder untouched. */
  lemma ReadsExactlyFrames(input: seq<byte>, payload: seq<byte>, rest: seq<byte>, failure: Option<Error>)
    ensures ReadOne(input, failure) == Reading(Ok(payload), rest) <==>
            |payload| <= MAX_FRAME && input == Frame(payload) + rest
  {
    if |payload| <= MAX_FRAME && input == Frame(payload) + rest {
      FrameReadsBack(payload, rest, failure);
    }
    if ReadOne(input, failure) == Reading(Ok(payload), rest) {
      ReadIsFrame(input, payload, rest, failure);
    }
  }

  /** Every way a read can end: with a message, with one that does not parse, too long, or cut short. */
  lemma EveryReadEnds<T>(input: seq<byte>, failure: Option<Error>, parse: seq<byte> -> Option<T>)
    ensures var len := if |input| >= 4 then U32Value(input[..4]) else 0;
            ReadValue(input, failure, parse) ==
            if |input| >= 4 && len > 4194304 then (Err(FrameTooLarge), input[4..])
            else if |input| < 4 + len then (Err(if failure.Some? then failure.value else END_OF_STREAM), [])
            else (if parse(input[4..4 + len]).Some? then Ok(parse(input[4..4 + len]).value) else Err(BadMessage),
                  input[4 + len..])
  {}

  /** This message can be written, and its encoding parses back. */
  ghost predicate Faithful<T>(value: T, encode: T -> Option<seq<byte>>, parse: seq<byte> -> Option<T>) {
    && encode(value).Some?
    && |encode(value).value| <= MAX_FRAME
    && parse(encode(value).value) == Some(value)
  }

  /** ... and for a list of messages, one after the other. */
  function AllWritten<T>(values: seq<T>, encode: T -> Option<seq<byte>>): seq<byte> {
    if values == [] then [] else Written(values[0], encode) + AllWritten(values[1..], encode)
  }

  /** Reading back what the writer produced gives the same messages and leaves the rest. */
  lemma {:induction false} StreamRoundTrip<T>(
      values: seq<T>, encode: T -> Option<seq<byte>>, parse: seq<byte> -> Option<T>,
      rest: seq<byte>, failure: Option<Error>)
    requires forall v :: v in values ==> Faithful(v, encode, parse)
    ensures ReadMany(AllWritten(values, encode) + rest, failure, parse, |values|) == (Ok(values), rest)
  {
    if values == [] {
      assert AllWritten(values, encode) + rest == rest;
    } else {
      assert Faithful(values[0], encode, parse);
      var payload, tail := encode(values[0]).value, AllWritten(values[1..], encode) + rest;
      assert AllWritten(values, encode) + rest == Frame(payload) + tail;
      FrameReadsBack(payload, tail, failure);
      StreamRoundTrip(values[1..], encode, parse, rest, failure);
      assert [values[0]] + values[1..] == values;
    }
  }

  /** A frame cut short anywhere is an error, never a value. */
  lemma ProperPrefixFails(payload: seq<byte>, n: nat, failure: Option<Error>)
    requires |payload| <= MAX_FRAME && n < |Frame(payload)|
    ensures ReadOne(Frame(payload)[..n], failure) == Reading(Err(EndError(failure)), [])
  {
    U32RoundTrip(|payload|);
    if n >= 4 {
      assert Frame(payload)[..n][..4] == U32Bytes(|payload|);
    }
  }

  /** A declared length over the limit is refused with nothing but the header consumed. */
  lemma OversizedConsumesHeader(len: nat, rest: seq<byte>, failure: Option<Error>)
    requires MAX_FRAME < len < 0x1_0000_0000
    ensures ReadOne(U32Bytes(len) + rest, failure) == Reading(Err(FrameTooLarge), rest)
  {
    U32RoundTrip(len);
    assert (U32Bytes(len) + rest)[..4] == U32Bytes(len);
  }
}
