/** The shared frame codec: `internal/frame/frame.go`.

    A frame is `type:u8 | stream_id:u24 | payload_length:u32 | payload`, all integers big-endian.
    `Encode` and `ParseAll` are given twice: as functions, which the theorems are about, and as
    methods that fill a buffer and walk the input in place, as the program does. */
module Frames {

  type byte = x: int | 0 <= x < 256
  type Bytes = seq<byte>

  const HEADER_SIZE := 8
  const MAX_PAYLOAD := 1024 * 1024
  const INITIAL_STREAM_WINDOW := 4 * 1024 * 1024
  const DATA_CHUNK := 64 * 1024
  const MAX_STREAM_ID := 0xFFFFFF
  const MAX_BATCH_FRAMES := 4096
  const TWO32 := 0x1_0000_0000
  const MAX_UINT32 := 0xFFFF_FFFF

  const OPEN: byte := 0x01
  const DATA: byte := 0x02
  const CLOSE: byte := 0x03
  const WINDOW: byte := 0x04
  const PONG: byte := 0x06
  const HELLO: byte := 0x10

  /** `frame.Frame`. */
  datatype Frame = Frame(typeCode: byte, streamID: nat, payload: Bytes)

  datatype ParseError = TooManyFrames | Incomplete | PayloadTooLarge | EmptyBatch

  datatype ParseResult = Parsed(frames: seq<Frame>) | ParseFailed(error: ParseError)

  // ---------------------------------------------------------------- integers

  /** The `count` low bytes of `n`, most significant first. */
  function BigEndian(n: nat, count: nat): (r: Bytes)
    ensures |r| == count
  {
    if count == 0 then [] else BigEndian(n / 256, count - 1) + [n % 256]
  }

  function FromBigEndian(b: Bytes): (n: nat) {
    if b == [] then 0 else FromBigEndian(b[..|b| - 1]) * 256 + b[|b| - 1]
  }

  function Power256(count: nat): (p: nat)
    ensures p > 0
  {
    if count == 0 then 1 else Power256(count - 1) * 256
  }

  lemma {:induction false} BigEndianRoundTrip(n: nat, count: nat)
    requires n < Power256(count)
    ensures FromBigEndian(BigEndian(n, count)) == n
  {
    if count > 0 {
      BigEndianRoundTrip(n / 256, count - 1);
      var b := BigEndian(n, count);
      assert b[..|b| - 1] == BigEndian(n / 256, count - 1);
    }
  }

  lemma {:induction false} FromBigEndianRoundTrip(b: Bytes)
    ensures BigEndian(FromBigEndian(b), |b|) == b
    ensures FromBigEndian(b) < Power256(|b|)
  {
    if b != [] {
      var head := b[..|b| - 1];
      FromBigEndianRoundTrip(head);
      assert FromBigEndian(b) / 256 == FromBigEndian(head);
      assert b == head + [b[|b| - 1]];
    }
  }

  function Be32(n: nat): (r: Bytes)
    ensures |r| == 4
  {
    BigEndian(n, 4)
  }

  lemma Powers()
    ensures Power256(3) == MAX_STREAM_ID + 1 && Power256(4) == TWO32
  {
    assert Power256(1) == 256;
    assert Power256(2) == 0x1_0000;
  }

  function FromBe32(b: Bytes): (n: nat)
    requires |b| == 4
    ensures n < TWO32
  {
    FromBigEndianRoundTrip(b);
    Powers();
    FromBigEndian(b)
  }

  lemma Be32RoundTrip(n: nat)
    requires n < TWO32
    ensures FromBe32(Be32(n)) == n
  {
    Powers();
    BigEndianRoundTrip(n, 4);
  }

  lemma FromBe32RoundTrip(b: Bytes)
    requires |b| == 4
    ensures Be32(FromBe32(b)) == b
  {
    FromBigEndianRoundTrip(b);
  }

  // ----------------------------------------------------------------- encoding

  function Header(typeCode: byte, streamID: nat, length: nat): (r: Bytes)
    ensures |r| == HEADER_SIZE
  {
    [typeCode] + BigEndian(streamID, 3) + Be32(length % TWO32)
  }

  /** What `frame.Encode` returns; ids above 24 bits make the program panic. */
  function Encode(f: Frame): (r: Bytes)
    ensures |r| == HEADER_SIZE + |f.payload|
    ensures r[HEADER_SIZE..] == f.payload
  {
    Header(f.typeCode, f.streamID, |f.payload|) + f.payload
  }

  function EncodeAll(frames: seq<Frame>): Bytes {
    if frames == [] then [] else Encode(frames[0]) + EncodeAll(frames[1..])
  }

  /** A frame the wire format can carry within a payload limit. */
  predicate Encodable(f: Frame, limit: nat) {
    f.streamID <= MAX_STREAM_ID && |f.payload| <= limit
  }

  predicate AllEncodable(frames: seq<Frame>, limit: nat) {
    forall i :: 0 <= i < |frames| ==> Encodable(frames[i], limit)
  }

  // ------------------------------------------------------------------ parsing

  /** Go's zero or oversized `maxPayload` means the protocol maximum. */
  function EffectiveLimit(maxPayload: int): (r: nat)
    ensures 0 < r <= MAX_PAYLOAD
  {
    if maxPayload <= 0 || maxPayload > MAX_PAYLOAD then MAX_PAYLOAD else maxPayload
  }

  function HeadLength(input: Bytes): nat
    requires |input| >= HEADER_SIZE
  {
    HEADER_SIZE + FromBe32(input[4..8])
  }

  function HeadFrame(input: Bytes): Frame
    requires |input| >= HEADER_SIZE && HeadLength(input) <= |input|
  {
    Frame(input[0], FromBigEndian(input[1..4]), input[HEADER_SIZE..HeadLength(input)])
  }

  /** The frames of `input`, of which at most `room` more are allowed. */
  function ParseFrom(input: Bytes, limit: nat, room: nat): ParseResult
    decreases |input|
  {
    if input == [] then Parsed([])
    else if room == 0 then ParseFailed(TooManyFrames)
    else if |input| < HEADER_SIZE then ParseFailed(Incomplete)
    else if FromBe32(input[4..8]) > limit then ParseFailed(PayloadTooLarge)
    else if HeadLength(input) > |input| then ParseFailed(Incomplete)
    else
      match ParseFrom(input[HeadLength(input)..], limit, room - 1)
      case Parsed(rest) => Parsed([HeadFrame(input)] + rest)
      case ParseFailed(error) => ParseFailed(error)
  }

  /** What `frame.ParseAll` returns. */
  function ParseBody(input: Bytes, maxPayload: int): ParseResult {
    if input == [] then ParseFailed(EmptyBatch)
    else ParseFrom(input, EffectiveLimit(maxPayload), MAX_BATCH_FRAMES)
  }

  // ------------------------------------------------------------ codec theorems

  lemma HeaderFields(f: Frame, rest: Bytes)
    requires f.streamID <= MAX_STREAM_ID && |f.payload| < TWO32
    ensures var input := Encode(f) + rest;
      && HeadLength(input) == HEADER_SIZE + |f.payload|
      && HeadFrame(input) == f
      && input[HeadLength(input)..] == rest
      && FromBe32(input[4..8]) == |f.payload|
  {
    var input := Encode(f) + rest;
    assert input[1..4] == BigEndian(f.streamID, 3);
    assert input[4..8] == Be32(|f.payload|);
    Powers();
    BigEndianRoundTrip(f.streamID, 3);
    Be32RoundTrip(|f.payload|);
    assert input[HEADER_SIZE..HeadLength(input)] == f.payload;
  }

  lemma {:induction false} ParseEncoded(frames: seq<Frame>, limit: nat, room: nat)
    requires limit <= MAX_PAYLOAD && |frames| <= room && AllEncodable(frames, limit)
    ensures ParseFrom(EncodeAll(frames), limit, room) == Parsed(frames)
  {
    if frames == [] {
    } else {
      HeaderFields(frames[0], EncodeAll(frames[1..]));
      ParseEncoded(frames[1..], limit, room - 1);
      assert frames == [frames[0]] + frames[1..];
    }
  }

  /** The bytes of the first frame are exactly its encoding. */
  lemma HeadIsEncoding(input: Bytes)
    requires |input| >= HEADER_SIZE && HeadLength(input) <= |input|
    ensures Encode(HeadFrame(input)) == input[..HeadLength(input)]
    ensures HeadFrame(input).streamID <= MAX_STREAM_ID
    ensures |HeadFrame(input).payload| == FromBe32(input[4..8])
  {
    var f, n := HeadFrame(input), HeadLength(input);
    Powers();
    FromBigEndianRoundTrip(input[1..4]);
    FromBe32RoundTrip(input[4..8]);
    assert |f.payload| % TWO32 == |f.payload|;
    assert input[..n] == [input[0]] + input[1..4] + input[4..8] + input[8..n];
  }

  lemma {:induction false} ParseThenEncode(input: Bytes, limit: nat, room: nat)
    requires ParseFrom(input, limit, room).Parsed?
    ensures var frames := ParseFrom(input, limit, room).frames;
      && EncodeAll(frames) == input
      && |frames| <= room
      && AllEncodable(frames, limit)
      && (input != [] ==> frames != [])
    decreases |input|
  {
    if input != [] {
      var n := HeadLength(input);
      HeadIsEncoding(input);
      ParseThenEncode(input[n..], limit, room - 1);
      var rest := ParseFrom(input[n..], limit, room - 1).frames;
      assert ([HeadFrame(input)] + rest)[1..] == rest;
      assert input == input[..n] + input[n..];
    }
  }

  /** A body of 1 to 4096 encodings within the limit parses to exactly those frames, and whenever a
      body parses, its frames encode back to it byte for byte. */
  lemma CodecRoundTrip(input: Bytes, frames: seq<Frame>, maxPayload: int)
    ensures ParseBody(input, maxPayload) == Parsed(frames) <==>
      && EncodeAll(frames) == input
      && 1 <= |frames| <= MAX_BATCH_FRAMES
      && AllEncodable(frames, EffectiveLimit(maxPayload))
  {
    var limit := EffectiveLimit(maxPayload);
    if ParseBody(input, maxPayload) == Parsed(frames) {
      ParseThenEncode(input, limit, MAX_BATCH_FRAMES);
    }
    if EncodeAll(frames) == input && 1 <= |frames| <= MAX_BATCH_FRAMES && AllEncodable(frames, limit) {
      ParseEncoded(frames, limit, MAX_BATCH_FRAMES);
    }
  }

  lemma {:induction false} EncodeAllConcat(a: seq<Frame>, b: seq<Frame>)
    ensures EncodeAll(a + b) == EncodeAll(a) + EncodeAll(b)
  {
    if a == [] {
      assert a + b == b;
    } else {
      assert (a + b)[1..] == a[1..] + b;
      EncodeAllConcat(a[1..], b);
      var first := Encode(a[0]);
      assert first + (EncodeAll(a[1..]) + EncodeAll(b)) == (first + EncodeAll(a[1..])) + EncodeAll(b);
    }
  }

  /** Parsing is compositional: the frames of a concatenation are the frames of its complete parts. */
  lemma ParseConcat(a: Bytes, b: Bytes, limit: nat, roomA: nat, roomB: nat)
    requires limit <= MAX_PAYLOAD
    requires ParseFrom(a, limit, roomA).Parsed? && ParseFrom(b, limit, roomB).Parsed?
    ensures ParseFrom(a + b, limit, roomA + roomB)
         == Parsed(ParseFrom(a, limit, roomA).frames + ParseFrom(b, limit, roomB).frames)
  {
    ParseThenEncode(a, limit, roomA);
    ParseThenEncode(b, limit, roomB);
    var fa, fb := ParseFrom(a, limit, roomA).frames, ParseFrom(b, limit, roomB).frames;
    EncodeAllConcat(fa, fb);
    ParseEncoded(fa + fb, limit, roomA + roomB);
  }

  lemma {:induction false} EncodedSize(frames: seq<Frame>)
    ensures |EncodeAll(frames)| >= 8 * |frames|
  {
    if frames != [] {
      EncodedSize(frames[1..]);
    }
  }

  // --------------------------------------------------- WINDOW and client checks

  /** `frame.WindowAmount`; 0 stands for either of its errors, whose amount the callers then use. */
  function WindowAmount(payload: Bytes): (n: nat)
    ensures n <= MAX_UINT32
  {
    if |payload| != 4 then 0 else FromBe32(payload)
  }

  function WindowPayload(amount: nat): Bytes {
    Be32(amount % TWO32)
  }

  lemma WindowRoundTrip(amount: nat)
    requires amount <= MAX_UINT32
    ensures WindowAmount(WindowPayload(amount)) == amount
  {
    assert amount % TWO32 == amount;
    Be32RoundTrip(amount);
  }

  /** `frame.ValidateClientShape` accepts the frame. */
  predicate ClientShape(f: Frame) {
    if f.streamID == 0 then f.typeCode == PONG && |f.payload| <= 64
    else if f.typeCode == OPEN || f.typeCode == CLOSE then |f.payload| == 0
    else if f.typeCode == DATA then |f.payload| != 0
    else if f.typeCode == WINDOW then WindowAmount(f.payload) != 0
    else false
  }

  /** What stops the parser after some whole frames, `room` more of which would have been allowed: one frame
      too many, a header that is cut short, a length over the limit, or a payload that is cut short. */
  predicate Stuck(rest: Bytes, limit: nat, room: nat, error: ParseError) {
    && rest != []
    && match error
       case TooManyFrames => room == 0
       case PayloadTooLarge => room > 0 && |rest| >= 8 && FromBe32(rest[4..8]) > limit
       case Incomplete => room > 0 && (|rest| < 8 || |rest| - 8 < FromBe32(rest[4..8]) <= limit)
       case EmptyBatch => false
  }

  /** The body is some whole frames within the limit and then what stops the parser. */
  ghost predicate StuckAfter(input: Bytes, limit: nat, room: nat, error: ParseError, frames: seq<Frame>) {
    && |frames| <= room && AllEncodable(frames, limit)
    && |EncodeAll(frames)| <= |input| && input[..|EncodeAll(frames)|] == EncodeAll(frames)
    && Stuck(input[|EncodeAll(frames)|..], limit, room - |frames|, error)
  }

  lemma {:induction false} FailureIsStuck(input: Bytes, limit: nat, room: nat) returns (frames: seq<Frame>)
    requires limit <= MAX_PAYLOAD && ParseFrom(input, limit, room).ParseFailed?
    ensures StuckAfter(input, limit, room, ParseFrom(input, limit, room).error, frames)
    decreases |input|
  {
    hide Stuck, Encode, HeadFrame;
    frames := [];
    if room > 0 && |input| >= HEADER_SIZE && FromBe32(input[4..8]) <= limit && HeadLength(input) <= |input| {
      var n := HeadLength(input);
      HeadIsEncoding(input);
      var later := FailureIsStuck(input[n..], limit, room - 1);
      frames := [HeadFrame(input)] + later;
      assert frames[1..] == later;
      var m := |EncodeAll(later)|;
      assert input[..n + m] == input[..n] + input[n..][..m];
      assert input[n + m..] == input[n..][m..];
    } else {
      assert input[0..] == input;
      StuckHere(input, limit, room);
    }
  }

  lemma StuckHere(input: Bytes, limit: nat, room: nat)
    requires ParseFrom(input, limit, room).ParseFailed?
    requires !(room > 0 && |input| >= HEADER_SIZE && FromBe32(input[4..8]) <= limit && HeadLength(input) <= |input|)
    ensures Stuck(input, limit, room, ParseFrom(input, limit, room).error)
  {
  }

  lemma EncodableFields(f: Frame, rest: Bytes, limit: nat)
    requires limit <= MAX_PAYLOAD && Encodable(f, limit)
    ensures var input := Encode(f) + rest;
      && |input| >= HEADER_SIZE && FromBe32(input[4..8]) <= limit && HeadLength(input) <= |input|
      && input[HeadLength(input)..] == rest
  {
    HeaderFields(f, rest);
  }

  /** An error behind a whole frame is the error of the body. */
  lemma PastHead(input: Bytes, limit: nat, room: nat)
    requires |input| >= HEADER_SIZE && FromBe32(input[4..8]) <= limit && HeadLength(input) <= |input| && room > 0
    ensures var later := ParseFrom(input[HeadLength(input)..], limit, room - 1);
      later.ParseFailed? ==> ParseFrom(input, limit, room) == later
  {
  }

  lemma EncodeThen(frames: seq<Frame>, rest: Bytes)
    requires frames != []
    ensures EncodeAll(frames) + rest == Encode(frames[0]) + (EncodeAll(frames[1..]) + rest)
  {
    hide Encode;
  }

  lemma StuckAtOnce(frames: seq<Frame>, rest: Bytes, limit: nat, room: nat, error: ParseError)
    requires frames == [] && Stuck(rest, limit, room, error)
    ensures ParseFrom(EncodeAll(frames) + rest, limit, room) == ParseFailed(error)
  {
    assert EncodeAll(frames) + rest == rest;
  }

  lemma {:induction false} StuckFails(frames: seq<Frame>, rest: Bytes, limit: nat, room: nat, error: ParseError)
    requires limit <= MAX_PAYLOAD && |frames| <= room && AllEncodable(frames, limit)
    requires Stuck(rest, limit, room - |frames|, error)
    ensures ParseFrom(EncodeAll(frames) + rest, limit, room) == ParseFailed(error)
  {
    hide Stuck, Encode, FromBe32, ParseFrom, EncodeAll, HeadLength;
    if frames == [] {
      StuckAtOnce(frames, rest, limit, room, error);
    } else {
      var tail := EncodeAll(frames[1..]) + rest;
      EncodeThen(frames, rest);
      assert Encodable(frames[0], limit);
      EncodableFields(frames[0], tail, limit);
      PastHead(Encode(frames[0]) + tail, limit, room);
      StuckFails(frames[1..], rest, limit, room - 1, error);
    }
  }

  /** Which error a body gets, and when: it is empty, or after whole frames within the limit comes one frame
      too many, a length over the limit, or the end of the body in the middle of a frame. */
  lemma FailsExactly(input: Bytes, maxPayload: int, error: ParseError)
    ensures var limit: nat := if 1 <= maxPayload <= 1048576 then maxPayload else 1048576;
      ParseBody(input, maxPayload) == ParseFailed(error) <==>
        if input == [] then error == EmptyBatch
        else exists frames :: StuckAfter(input, limit, 4096, error, frames)
  {
    var limit := EffectiveLimit(maxPayload);
    hide Stuck, ParseFrom, EncodeAll;
    if input != [] {
      if ParseBody(input, maxPayload) == ParseFailed(error) {
        var frames := FailureIsStuck(input, limit, MAX_BATCH_FRAMES);
      }
      forall frames | StuckAfter(input, limit, 4096, error, frames)
        ensures ParseBody(input, maxPayload) == ParseFailed(error)
      {
        var n := |EncodeAll(frames)|;
        assert input == EncodeAll(frames) + input[n..];
        StuckFails(frames, input[n..], limit, MAX_BATCH_FRAMES, error);
      }
    }
  }

  /** What a client may say: open and close a stream, send bytes on it, grant credit for it, and answer a
      ping. */
  datatype Saying = SaysOpen(id: nat) | SaysData(id: nat, data: Bytes) | SaysWindow(id: nat,
      amount: nat) | SaysClose(id: nat)
    | SaysPong(data: Bytes)

  predicate Sayable(m: Saying) {
    match m
    case SaysOpen(id) => id != 0
    case SaysData(id, data) => id != 0 && data != []
    case SaysWindow(id, amount) => id != 0 && 1 <= amount < TWO32
    case SaysClose(id) => id != 0
    case SaysPong(data) => |data| <= 64
  }

  function Said(m: Saying): Frame {
    match m
    case SaysOpen(id) => Frame(OPEN, id, [])
    case SaysData(id, data) => Frame(DATA, id, data)
    case SaysWindow(id, amount) => Frame(WINDOW, id, Be32(amount))
    case SaysClose(id) => Frame(CLOSE, id, [])
    case SaysPong(data) => Frame(PONG, 0, data)
  }

  /** The frames accepted from a client are exactly these. */
  lemma ClientShapes(f: Frame)
    ensures ClientShape(f) <==> exists m :: Sayable(m) && Said(m) == f
  {
    if m :| Sayable(m) && Said(m) == f {
      if m.SaysWindow? {
        Be32RoundTrip(m.amount);
      }
    }
    if ClientShape(f) {
      SomethingSaid(f);
    }
  }

  lemma SomethingSaid(f: Frame)
    requires ClientShape(f)
    ensures exists m :: Sayable(m) && Said(m) == f
  {
    var m :=
      if f.typeCode == PONG then SaysPong(f.payload)
      else if f.typeCode == OPEN then SaysOpen(f.streamID)
      else if f.typeCode == CLOSE then SaysClose(f.streamID)
      else if f.typeCode == DATA then SaysData(f.streamID, f.payload)
      else SaysWindow(f.streamID, WindowAmount(f.payload));
    if f.typeCode == WINDOW {
      FromBe32RoundTrip(f.payload);
    }
    assert Sayable(m) && Said(m) == f;
  }

  // -------------------------------------------------------- the program's loops

  lemma ThreeBytes(n: nat)
    ensures BigEndian(n, 3) == [n / 0x1_0000 % 256, n / 0x100 % 256, n % 256]
  {
    assert n / 256 / 256 == n / 0x1_0000;
    assert BigEndian(n / 0x1_0000, 1) == [n / 0x1_0000 % 256];
    assert BigEndian(n / 256, 2) == BigEndian(n / 0x1_0000, 1) + [n / 256 % 256];
  }

  lemma FourBytes(n: nat)
    ensures Be32(n) == [n / 0x100_0000 % 256, n / 0x1_0000 % 256, n / 0x100 % 256, n % 256]
  {
    ThreeBytes(n / 256);
    assert n / 256 / 0x1_0000 == n / 0x100_0000;
    assert n / 256 / 0x100 == n / 0x1_0000;
  }

  /** `frame.Encode`: allocate the buffer and fill it. */
  method EncodeFrame(f: Frame) returns (result: array<byte>)
    requires f.streamID <= MAX_STREAM_ID
    ensures fresh(result) && result[..] == Encode(f)
  {
    var size := HEADER_SIZE + |f.payload|;
    result := new byte[size](_ => 0);
    result[0] := f.typeCode;
    result[1] := f.streamID / 0x1_0000 % 256;
    result[2] := f.streamID / 0x100 % 256;
    result[3] := f.streamID % 256;
    ThreeBytes(f.streamID);
    PutUint32(result, 4, |f.payload| % TWO32);
    ghost var header := result[..8];
    for i := 0 to |f.payload|
      invariant result[..8] == header
      invariant forall j :: 0 <= j < i ==> result[8 + j] == f.payload[j]
    {
      result[8 + i] := f.payload[i];
    }
    assert result[8..] == f.payload;
    assert result[..] == result[..8] + result[8..];
  }

  /** `binary.BigEndian.PutUint32`. */
  method PutUint32(buffer: array<byte>, at: nat, value: nat)
    requires at + 4 <= buffer.Length && value < TWO32
    modifies buffer
    ensures buffer[..] == old(buffer[..at]) + Be32(value) + old(buffer[at + 4..])
  {
    FourBytes(value);
    buffer[at], buffer[at + 1] := value / 0x100_0000 % 256, value / 0x1_0000 % 256;
    buffer[at + 2], buffer[at + 3] := value / 0x100 % 256, value % 256;
  }

  /** The frames already read, followed by what the rest of the input holds. */
  function Continued(frames: seq<Frame>, rest: ParseResult): ParseResult {
    if rest.Parsed? then Parsed(frames + rest.frames) else rest
  }

  lemma ContinuedStep(frames: seq<Frame>, input: Bytes, limit: nat, room: nat)
    requires room > 0 && |input| >= HEADER_SIZE
    requires FromBe32(input[4..8]) <= limit && HeadLength(input) <= |input|
    ensures Continued(frames, ParseFrom(input, limit, room))
         == Continued(frames + [HeadFrame(input)], ParseFrom(input[HeadLength(input)..], limit, room - 1))
  {
    var rest := ParseFrom(input[HeadLength(input)..], limit, room - 1);
    if rest.Parsed? {
      assert frames + ([HeadFrame(input)] + rest.frames) == (frames + [HeadFrame(input)]) + rest.frames;
    }
  }

  /** `frame.ParseAll`. */
  method ParseAll(body: Bytes, maxPayload: int) returns (r: ParseResult)
    ensures r == ParseBody(body, maxPayload)
  {
    var limit := EffectiveLimit(maxPayload);
    var frames: seq<Frame> := [];
    var input := body;
    while |input| != 0
      invariant |frames| <= MAX_BATCH_FRAMES
      invariant (frames == [] ==> input == body) && (body == [] ==> frames == [])
      invariant ParseFrom(body, limit, MAX_BATCH_FRAMES)
             == Continued(frames, ParseFrom(input, limit, MAX_BATCH_FRAMES - |frames|))
      decreases |input|
    {
      if |frames| == MAX_BATCH_FRAMES {
        return ParseFailed(TooManyFrames);
      }
      if |input| < HEADER_SIZE {
        return ParseFailed(Incomplete);
      }
      var length := FromBe32(input[4..8]);
      if length > limit {
        return ParseFailed(PayloadTooLarge);
      }
      var full := HEADER_SIZE + length;
      if full > |input| {
        return ParseFailed(Incomplete);
      }
      ContinuedStep(frames, input, limit, MAX_BATCH_FRAMES - |frames|);
      frames := frames + [HeadFrame(input)];
      input := input[full..];
    }
    if |frames| == 0 {
      return ParseFailed(EmptyBatch);
    }
    assert frames + [] == frames;
    return Parsed(frames);
  }
}
