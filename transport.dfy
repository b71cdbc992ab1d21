/**
 * The gRPC-Web transport of the client (app/src/utils/grpc/transport.ts):
 * the length-prefixed framing of an outgoing message, the choice of the
 * first message chunk of a response, the decision between the error and the
 * data callback, and the process-wide metadata headers.
 *
 * The framing follows the Length-Prefixed-Message rule of the gRPC over
 * HTTP/2 protocol ("Requests" section), which gRPC-Web reuses: a one-byte
 * compressed flag, a four-byte big-endian message length, then the message.
 */
module Transport {
  import opened Wrappers

  newtype byte = x: int | 0 <= x < 256

  /** 2^32: `DataView.setUint32` stores its argument modulo this. */
  const TwoTo32: int := 0x1_0000_0000

  /** The gRPC status code OK of the `Status` enum. */
  const StatusOK: int := 0

  // ---------------------------------------------------------------------------
  // Framing

  /** The four big-endian bytes of `n`, for `0 <= n < 2^32`. */
  function BigEndian32(n: int): (bs: seq<byte>)
    requires 0 <= n < TwoTo32
    ensures |bs| == 4
  {
    [(n / 0x100_0000) as byte, (n / 0x1_0000 % 0x100) as byte, (n / 0x100 % 0x100) as byte, (n % 0x100) as byte]
  }

  /** The number that four big-endian bytes denote. */
  function FromBigEndian32(bs: seq<byte>): (n: int)
    requires |bs| == 4
    ensures 0 <= n < TwoTo32
  {
    ((bs[0] as int * 0x100 + bs[1] as int) * 0x100 + bs[2] as int) * 0x100 + bs[3] as int
  }

  lemma BigEndian32RoundTrip(n: int)
    requires 0 <= n < TwoTo32
    ensures FromBigEndian32(BigEndian32(n)) == n
  {
    var bs := BigEndian32(n);
    assert (bs[0] as int * 0x100 + bs[1] as int) == n / 0x1_0000;
    assert (bs[0] as int * 0x100 + bs[1] as int) * 0x100 + bs[2] as int == n / 0x100;
  }

  /** The frame of a message: flag 0, the length modulo 2^32, the message. */
  function Frame(payload: seq<byte>): seq<byte>
  {
    [0] + BigEndian32(|payload| % TwoTo32) + payload
  }

  /** Reads a frame back: its message when the flag is 0 and the length field equals the message length. */
  function Unframe(frame: seq<byte>): Option<seq<byte>>
  {
    if |frame| < 5 || frame[0] != 0 then None
    else if FromBigEndian32(frame[1..5]) != |frame| - 5 then None
    else Some(frame[5..])
  }

  /** The frame is five bytes longer than the message; byte 0 is 0; bytes 1-4 hold the length; the rest is the message. */
  lemma FrameLayout(payload: seq<byte>)
    ensures |Frame(payload)| == |payload| + 5
    ensures Frame(payload)[0] == 0
    ensures FromBigEndian32(Frame(payload)[1..5]) == |payload| % TwoTo32
    ensures Frame(payload)[5..] == payload
  {
    var f := Frame(payload);
    assert f[1..5] == BigEndian32(|payload| % TwoTo32);
    BigEndian32RoundTrip(|payload| % TwoTo32);
  }

  /** Every message shorter than 2^32 bytes is recovered from its frame. */
  lemma UnframeFrame(payload: seq<byte>)
    requires |payload| < TwoTo32
    ensures Unframe(Frame(payload)) == Some(payload)
  {
    FrameLayout(payload);
  }

  /**
   * `frameRequest`: a zero-filled buffer five bytes longer than the message,
   * the length written big-endian at offset 1, the message copied from offset 5.
   */
  method FrameRequest(bytes: array<byte>) returns (frame: array<byte>)
    ensures fresh(frame)
    ensures frame[..] == Frame(bytes[..])
  {
    ghost var spec := Frame(bytes[..]);
    frame := new byte[bytes.Length + 5](_ => 0);
    var header := BigEndian32(bytes.Length % TwoTo32);
    frame[1], frame[2], frame[3], frame[4] := header[0], header[1], header[2], header[3];
    var i := 0;
    while i < bytes.Length
      invariant 0 <= i <= bytes.Length
      invariant forall k :: 0 <= k < 5 + i ==> frame[k] == spec[k]
    {
      frame[5 + i] := bytes[i];
      i := i + 1;
    }
  }

  // ---------------------------------------------------------------------------
  // Response handling

  datatype ChunkType = MessageChunk | TrailersChunk

  /** A chunk of a gRPC-Web response body, as the chunk parser yields it. */
  datatype Chunk = Chunk(chunkType: ChunkType, data: seq<byte>)

  /** The first message chunk of `chunks`, if any (`find` on the parser's output). */
  function FirstMessage(chunks: seq<Chunk>): (c: Option<Chunk>)
    ensures c.Some? <==> exists i :: 0 <= i < |chunks| && chunks[i].chunkType == MessageChunk
    ensures c.Some? ==> c.value.chunkType == MessageChunk && c.value in chunks
    decreases |chunks|
  {
    if |chunks| == 0 then None
    else if chunks[0].chunkType == MessageChunk then Some(chunks[0])
    else
      var rest := FirstMessage(chunks[1..]);
      assert forall i :: 1 <= i < |chunks| ==> chunks[i] == chunks[1..][i - 1];
      rest
  }

  /** `find` returns the earliest message chunk. */
  lemma {:induction false} FirstMessageIsFirst(chunks: seq<Chunk>, j: int)
    requires 0 <= j < |chunks| && chunks[j].chunkType == MessageChunk
    requires forall i :: 0 <= i < j ==> chunks[i].chunkType != MessageChunk
    ensures FirstMessage(chunks) == Some(chunks[j])
    decreases |chunks|
  {
    if j > 0 {
      FirstMessageIsFirst(chunks[1..], j - 1);
    }
  }

  /**
   * `parseChunk`: null for an empty buffer, otherwise the first message chunk
   * the parser finds. The chunk parser is not part of this model; its output
   * on `buffer` is the parameter `parsed`.
   */
  function ParseChunk(buffer: seq<byte>, parsed: seq<Chunk>): (c: Option<Chunk>)
    ensures |buffer| == 0 ==> c.None?
    ensures |buffer| > 0 ==> c == FirstMessage(parsed)
  {
    if |buffer| == 0 then None else FirstMessage(parsed)
  }

  /** The `grpc-status` response header after lodash `parseInt`: absent, a number, or NaN. */
  datatype StatusHeader = Absent | Number(n: int) | NotANumber

  /** The callback a completed request makes. */
  datatype Outcome = ErrorCallback(message: Option<string>) | DataCallback(data: seq<byte>)

  /** Whether the parsed status differs from OK; an absent header reads as 0 and NaN differs from every number. */
  predicate StatusNotOK(h: StatusHeader)
  {
    match h
    case Absent => false
    case Number(n) => n != StatusOK
    case NotANumber => true
  }

  /**
   * The decision of a 200 response: a status other than OK calls back with an
   * error carrying `grpc-message`; OK calls back with the data of the first
   * message chunk, or with no bytes when there is none.
   */
  function Decide(status: StatusHeader, message: Option<string>, buffer: seq<byte>, parsed: seq<Chunk>): (o: Outcome)
    ensures o.ErrorCallback? <==> StatusNotOK(status)
    ensures o.ErrorCallback? ==> o.message == message
    ensures o.DataCallback? && |buffer| == 0 ==> o.data == []
    ensures o.DataCallback? && |buffer| > 0 ==>
      o.data == (if FirstMessage(parsed).Some? then FirstMessage(parsed).value.data else [])
  {
    if StatusNotOK(status) then ErrorCallback(message)
    else
      match ParseChunk(buffer, parsed)
      case None => DataCallback([])
      case Some(chunk) => DataCallback(chunk.data)
  }

  // ---------------------------------------------------------------------------
  // Metadata

  /**
   * The common request headers; a header set to `undefined` is present with
   * value `None`.
   */
  type Headers = map<string, Option<string>>

  /** `setMetadata(key, value)`: sets one common header. */
  function SetMetadata(headers: Headers, key: string, value: Option<string>): (h: Headers)
    ensures key in h && h[key] == value
    ensures forall k :: k != key ==> (k in h <==> k in headers) && (k in h ==> h[k] == headers[k])
  {
    headers[key := value]
  }
}
