/**
 Length-prefixed framing: the chunked decoder of node/compat-host/src/protocol.ts, the
 encoder beside it, and the whole-buffer codec of crates/tessivum-node-bridge/src/protocol.rs.
 Printing and parsing of a frame body are parameters.
 */
module FrameDecoding {
  import opened Slices
  import opened Wrappers

  const U32_LIMIT := 0x1_0000_0000

  datatype ProtocolError = FrameTooLarge | EmptyFrame | Malformed(code: nat) | LengthMismatch

  type Parser<!F> = seq<byte> -> Result<F, ProtocolError>

  /** Four bytes, most significant first. */
  function BigEndian(h: seq<byte>): nat
    requires |h| == 4
  {
    ((h[0] as nat * 0x100 + h[1]) * 0x100 + h[2]) * 0x100 + h[3]
  }

  function ToBigEndian(n: nat): (h: seq<byte>)
    requires n < U32_LIMIT
    ensures |h| == 4 && BigEndian(h) == n
  {
    var high, low := n / 0x1_0000, n % 0x1_0000;
    [high / 0x100, high % 0x100, low / 0x100, low % 0x100]
  }

  // ----- the decoder, one byte at a time

  /** What the decoder has buffered: part of a header, or part of a body of known size. */
  datatype Buffered = Header(bytes: seq<byte>) | Body(size: nat, bytes: seq<byte>)

  ghost predicate Bounded(max: nat, s: Buffered) {
    match s
    case Header(h) => |h| < 4
    case Body(n, b) => |b| < n <= max
  }

  /** The frames completed so far; after an error the decoder has dropped what it buffered. */
  datatype Progress<F> = Progress(state: Buffered, frames: seq<F>, error: Option<ProtocolError>)

  const START := Header([])

  function FeedByte<F>(max: nat, parse: Parser<F>, s: Buffered, b: byte): (p: Progress<F>)
    requires Bounded(max, s)
    ensures Bounded(max, p.state)
  {
    match s
    case Header(h) =>
      var h' := h + [b];
      if |h'| < 4 then Progress(Header(h'), [], None)
      else if BigEndian(h') > max then Progress(START, [], Some(FrameTooLarge))
      else if BigEndian(h') == 0 then Progress(START, [], Some(EmptyFrame))
      else Progress(Body(BigEndian(h'), []), [], None)
    case Body(n, body) =>
      var body' := body + [b];
      if |body'| < n then Progress(Body(n, body'), [], None)
      else
        match parse(body')
        case Ok(frame) => Progress(START, [frame], None)
        case Err(error) => Progress(START, [], Some(error))
  }

  function Feed<F>(max: nat, parse: Parser<F>, s: Buffered, bytes: seq<byte>): (p: Progress<F>)
    requires Bounded(max, s)
    ensures Bounded(max, p.state)
    decreases |bytes|
  {
    if bytes == [] then Progress(s, [], None)
    else
      var first := FeedByte(max, parse, s, bytes[0]);
      if first.error.Some? then first
      else
        var rest := Feed(max, parse, first.state, bytes[1..]);
        rest.(frames := first.frames + rest.frames)
  }

  /** Feeding two pieces one after the other is feeding them joined. */
  lemma {:induction false} FeedJoins<F>(max: nat, parse: Parser<F>, s: Buffered, a: seq<byte>, b: seq<byte>)
    requires Bounded(max, s)
    ensures var first := Feed(max, parse, s, a);
      Feed(max, parse, s, a + b) ==
        if first.error.Some? then first
        else
          var rest := Feed(max, parse, first.state, b);
          rest.(frames := first.frames + rest.frames)
    decreases |a|
  {
    if a == [] {
      assert a + b == b;
    } else {
      var step := FeedByte(max, parse, s, a[0]);
      assert (a + b)[0] == a[0] && (a + b)[1..] == a[1..] + b;
      if step.error.None? {
        FeedJoins(max, parse, step.state, a[1..], b);
        var first := Feed(max, parse, step.state, a[1..]);
        if first.error.None? {
          var rest := Feed(max, parse, first.state, b);
          assert step.frames + (first.frames + rest.frames) == (step.frames + first.frames) + rest.frames;
        }
      }
    }
  }

  lemma {:induction false} FeedBuffers<F>(max: nat, parse: Parser<F>, s: Buffered, bytes: seq<byte>)
    requires Bounded(max, s)
    requires s.Header? ==> |s.bytes| + |bytes| < 4
    requires s.Body? ==> |s.bytes| + |bytes| < s.size
    ensures Feed(max, parse, s, bytes) == Progress(s.(bytes := s.bytes + bytes), [], None)
    decreases |bytes|
  {
    if bytes == [] {
      assert s.bytes + bytes == s.bytes;
    } else {
      var next := s.(bytes := s.bytes + [bytes[0]]);
      assert next.bytes + bytes[1..] == s.bytes + bytes;
      FeedBuffers(max, parse, next, bytes[1..]);
    }
  }

  /** What completing a header or a body does. */
  function Complete<F>(max: nat, parse: Parser<F>, inHeader: bool, whole: seq<byte>): Progress<F>
    requires inHeader ==> |whole| == 4
  {
    if inHeader then
      if BigEndian(whole) > max then Progress(START, [], Some(FrameTooLarge))
      else if BigEndian(whole) == 0 then Progress(START, [], Some(EmptyFrame))
      else Progress(Body(BigEndian(whole), []), [], None)
    else
      match parse(whole)
      case Ok(frame) => Progress(START, [frame], None)
      case Err(error) => Progress(START, [], Some(error))
  }

  function Missing(s: Buffered): int {
    (if s.Header? then 4 else s.size) - |s.bytes|
  }

  /** The last byte of a header or body decides; the ones before it are only buffered. */
  lemma FeedCompletes<F>(max: nat, parse: Parser<F>, s: Buffered, bytes: seq<byte>)
    requires Bounded(max, s) && |bytes| == Missing(s)
    ensures Feed(max, parse, s, bytes) == Complete(max, parse, s.Header?, s.bytes + bytes)
  {
    hide Feed, FeedByte, Complete;
    var n := |bytes| - 1;
    var mid := s.(bytes := s.bytes + bytes[..n]);
    FeedBuffers(max, parse, s, bytes[..n]);
    FeedJoins(max, parse, s, bytes[..n], [bytes[n]]);
    assert bytes[..n] + [bytes[n]] == bytes;
    assert mid.bytes + [bytes[n]] == s.bytes + bytes;
    FeedOne(max, parse, mid, bytes[n]);
    var last := Feed(max, parse, mid, [bytes[n]]);
    assert [] + last.frames == last.frames;
  }

  lemma FeedOne<F>(max: nat, parse: Parser<F>, s: Buffered, b: byte)
    requires Bounded(max, s) && Missing(s) == 1
    ensures Feed(max, parse, s, [b]) == Complete(max, parse, s.Header?, s.bytes + [b])
  {
    var p := FeedByte(max, parse, s, b);
    assert p == Complete(max, parse, s.Header?, s.bytes + [b]);
    assert p.frames + [] == p.frames;
  }

  // ----- encoded streams

  /** A frame whose printed body fits the limit and parses back to it. */
  ghost predicate Encodable<F(!new)>(max: nat, parse: Parser<F>, body: F -> seq<byte>, frame: F) {
    && 0 < |body(frame)| <= max < U32_LIMIT
    && parse(body(frame)) == Ok(frame)
  }

  function Encoded<F>(body: F -> seq<byte>, frame: F): seq<byte>
    requires |body(frame)| < U32_LIMIT
  {
    ToBigEndian(|body(frame)|) + body(frame)
  }

  ghost function EncodedAll<F(!new)>(max: nat, parse: Parser<F>, body: F -> seq<byte>, frames: seq<F>): seq<byte>
    requires forall i :: 0 <= i < |frames| ==> Encodable(max, parse, body, frames[i])
  {
    if frames == [] then []
    else
      assert Encodable(max, parse, body, frames[0]);
      Encoded(body, frames[0]) + EncodedAll(max, parse, body, frames[1..])
  }

  lemma OneFrame<F(!new)>(max: nat, parse: Parser<F>, body: F -> seq<byte>, frame: F)
    requires Encodable(max, parse, body, frame)
    ensures Feed(max, parse, START, Encoded(body, frame)) == Progress(START, [frame], None)
  {
    var h, b := ToBigEndian(|body(frame)|), body(frame);
    FeedCompletes(max, parse, START, h);
    assert START.bytes + h == h;
    FeedCompletes(max, parse, Body(|b|, []), b);
    assert [] + b == b;
    FeedJoins(max, parse, START, h, b);
  }

  lemma {:induction false} AllFrames<F(!new)>(max: nat, parse: Parser<F>, body: F -> seq<byte>, frames: seq<F>)
    requires forall i :: 0 <= i < |frames| ==> Encodable(max, parse, body, frames[i])
    ensures Feed(max, parse, START, EncodedAll(max, parse, body, frames)) == Progress(START, frames, None)
  {
    if frames != [] {
      assert Encodable(max, parse, body, frames[0]);
      OneFrame(max, parse, body, frames[0]);
      AllFrames(max, parse, body, frames[1..]);
      FeedJoins(max, parse, START, Encoded(body, frames[0]), EncodedAll(max, parse, body, frames[1..]));
    }
  }

  function Joined(chunks: seq<seq<byte>>): seq<byte> {
    if chunks == [] then [] else Joined(chunks[..|chunks| - 1]) + chunks[|chunks| - 1]
  }

  /** Successive pushes, as long as none of them fails. */
  function FeedChunks<F>(max: nat, parse: Parser<F>, chunks: seq<seq<byte>>): (p: Progress<F>)
    ensures Bounded(max, p.state)
  {
    if chunks == [] then Progress(START, [], None)
    else
      var before := FeedChunks(max, parse, chunks[..|chunks| - 1]);
      if before.error.Some? then before
      else
        var last := Feed(max, parse, before.state, chunks[|chunks| - 1]);
        last.(frames := before.frames + last.frames)
  }

  lemma {:induction false} ChunksDoNotMatter<F>(max: nat, parse: Parser<F>, chunks: seq<seq<byte>>)
    ensures FeedChunks(max, parse, chunks) == Feed(max, parse, START, Joined(chunks))
  {
    if chunks != [] {
      var rest, last := chunks[..|chunks| - 1], chunks[|chunks| - 1];
      ChunksDoNotMatter(max, parse, rest);
      FeedJoins(max, parse, START, Joined(rest), last);
    }
  }

  datatype Receipt<F> = Receipt(frames: seq<F>, error: Option<ProtocolError>)

  /** What the caller of successive pushes gets: a push that fails throws away the frames it has decoded, and is the last. */
  function Received<F>(max: nat, parse: Parser<F>, chunks: seq<seq<byte>>): Receipt<F> {
    if chunks == [] then Receipt([], None)
    else
      var n := |chunks| - 1;
      var before := Received(max, parse, chunks[..n]);
      if before.error.Some? then before
      else
        var last := Feed(max, parse, FeedChunks(max, parse, chunks[..n]).state, chunks[n]);
        if last.error.Some? then Receipt(before.frames, last.error) else Receipt(before.frames + last.frames, None)
  }

  /** The frames decoded in the push that failed, if one did. */
  function Dropped<F>(max: nat, parse: Parser<F>, chunks: seq<seq<byte>>): seq<F> {
    if chunks == [] then []
    else
      var n := |chunks| - 1;
      var before := FeedChunks(max, parse, chunks[..n]);
      if before.error.Some? then Dropped(max, parse, chunks[..n])
      else
        var last := Feed(max, parse, before.state, chunks[n]);
        if last.error.Some? then last.frames else []
  }

  /**
   The error of a stream does not depend on how it is cut into chunks, and without one neither do the frames. With one,
   the caller gets the frames decoded before the error, but for those of the chunk that fails.
   */
  lemma {:induction false} CallersReceive<F>(max: nat, parse: Parser<F>, chunks: seq<seq<byte>>)
    ensures var whole := Feed(max, parse, START, Joined(chunks));
      var got := Received(max, parse, chunks);
      && got.error == whole.error
      && whole.frames == got.frames + Dropped(max, parse, chunks)
      && (whole.error.None? ==> got.frames == whole.frames)
  {
    ChunksDoNotMatter(max, parse, chunks);
    ReceivedOfFed(max, parse, chunks);
  }

  lemma {:induction false} ReceivedOfFed<F>(max: nat, parse: Parser<F>, chunks: seq<seq<byte>>)
    ensures var fed := FeedChunks(max, parse, chunks);
      var got := Received(max, parse, chunks);
      && got.error == fed.error
      && fed.frames == got.frames + Dropped(max, parse, chunks)
      && (fed.error.None? ==> got.frames == fed.frames)
  {
    if chunks != [] {
      ReceivedOfFed(max, parse, chunks[..|chunks| - 1]);
    }
  }

  /**
   However the bytes of any list of encodable frames are cut into chunks, pushing them one
   after the other yields exactly those frames and leaves nothing buffered.
   */
  lemma DecoderIsChunkIndependent<F(!new)>(
    max: nat, parse: Parser<F>, body: F -> seq<byte>, frames: seq<F>, chunks: seq<seq<byte>>)
    requires forall i :: 0 <= i < |frames| ==> Encodable(max, parse, body, frames[i])
    requires Joined(chunks) == EncodedAll(max, parse, body, frames)
    ensures FeedChunks(max, parse, chunks) == Progress(START, frames, None)
  {
    ChunksDoNotMatter(max, parse, chunks);
    AllFrames(max, parse, body, frames);
  }

  // ----- the decoder, a chunk at a time

  method CopyInto(target: array<byte>, at: nat, source: seq<byte>)
    requires at + |source| <= target.Length
    modifies target
    ensures target[..] == old(target[..at]) + source + old(target[at + |source|..])
  {
    for i := 0 to |source|
      invariant forall k :: 0 <= k < target.Length ==>
        target[k] == if at <= k < at + i then source[k - at] else old(target[k])
    {
      target[at + i] := source[i];
    }
  }

  class FrameDecoder<F> {
    const maxFrameBytes: nat
    const parse: Parser<F>
    const header: array<byte>
    var headerLength: nat
    var body: array?<byte>
    var bodyLength: nat

    /** Less than a header is buffered between pushes, and no body beyond the limit is allocated. */
    ghost predicate Valid()
      reads this, header, body
    {
      && header.Length == 4 && headerLength < 4 && body != header
      && (body != null ==> headerLength == 0 && bodyLength < body.Length <= maxFrameBytes)
      && (body == null ==> bodyLength == 0)
    }

    ghost function State(): (s: Buffered)
      requires Valid()
      reads this, header, body
      ensures Bounded(maxFrameBytes, s)
    {
      if body == null then Header(header[..headerLength]) else Body(body.Length, body[..bodyLength])
    }

    constructor (maxFrameBytes: nat, parse: Parser<F>)
      ensures Valid() && State() == START && fresh(header) && body == null
      ensures this.maxFrameBytes == maxFrameBytes && this.parse == parse
    {
      this.maxFrameBytes := maxFrameBytes;
      this.parse := parse;
      header := new byte[4](_ => 0);
      headerLength, body, bodyLength := 0, null, 0;
      new;
      assert header[..0] == [];
    }

    /** Adds a piece of the header; a complete one sizes the body, within the limit. */
    method FillHeader(piece: seq<byte>) returns (r: Option<ProtocolError>)
      requires Valid() && body == null && 0 < |piece| <= 4 - headerLength
      modifies this, header
      ensures Valid() && (body == null || fresh(body))
      ensures var p := Feed(maxFrameBytes, parse, old(State()), piece);
        State() == p.state && r == p.error && p.frames == []
    {
      ghost var before := State();
      CopyInto(header, headerLength, piece);
      headerLength := headerLength + |piece|;
      assert header[..headerLength] == before.bytes + piece;
      if headerLength < 4 {
        FeedBuffers(maxFrameBytes, parse, before, piece);
        return None;
      }
      FeedCompletes(maxFrameBytes, parse, before, piece);
      assert header[..] == before.bytes + piece;
      var size := BigEndian(header[..]);
      headerLength := 0;
      assert header[..0] == [];
      if size > maxFrameBytes {
        return Some(FrameTooLarge);
      }
      if size == 0 {
        return Some(EmptyFrame);
      }
      body, bodyLength := new byte[size](_ => 0), 0;
      assert body[..0] == [];
      r := None;
    }

    /** Adds a piece of the body; a complete one is parsed and released. */
    method FillBody(piece: seq<byte>) returns (r: Result<Option<F>, ProtocolError>)
      requires Valid() && body != null && 0 < |piece| <= body.Length - bodyLength
      modifies this, body
      ensures Valid() && (body == null || body == old(body))
      ensures var p := Feed(maxFrameBytes, parse, old(State()), piece);
        && State() == p.state
        && match r {
          case Ok(None) => p.error == None && p.frames == []
          case Ok(Some(frame)) => p.error == None && p.frames == [frame]
          case Err(error) => p.error == Some(error)
        }
    {
      ghost var before := State();
      CopyInto(body, bodyLength, piece);
      bodyLength := bodyLength + |piece|;
      assert body[..bodyLength] == before.bytes + piece;
      if bodyLength != body.Length {
        FeedBuffers(maxFrameBytes, parse, before, piece);
        return Ok(None);
      }
      FeedCompletes(maxFrameBytes, parse, before, piece);
      assert body[..] == before.bytes + piece;
      var parsed := parse(body[..]);
      body, bodyLength := null, 0;
      assert header[..0] == [];
      match parsed
      case Ok(frame) => r := Ok(Some(frame));
      case Err(error) => r := Err(error);
    }

    /** One turn of the loop: a piece that does not go beyond the current header or body. */
    method Absorb(piece: seq<byte>) returns (r: Result<seq<F>, ProtocolError>)
      requires Valid() && 0 < |piece| <= Missing(State())
      modifies this, header, body
      ensures Valid() && (body == old(body) || body == null || fresh(body))
      ensures var p := Feed(maxFrameBytes, parse, old(State()), piece);
        State() == p.state && r == if p.error.Some? then Err(p.error.value) else Ok(p.frames)
    {
      if body == null {
        var error := FillHeader(piece);
        r := if error.Some? then Err(error.value) else Ok([]);
      } else {
        var filled := FillBody(piece);
        match filled
        case Err(error) => r := Err(error);
        case Ok(None) => r := Ok([]);
        case Ok(Some(frame)) => r := Ok([frame]);
      }
    }

    /** The next turn of `Push` on `chunk`, of which the first `offset` bytes fed `s0` up to here. */
    method Turn(chunk: seq<byte>, offset: nat, ghost s0: Buffered, ghost frames: seq<F>)
      returns (next: nat, r: Result<seq<F>, ProtocolError>)
      requires Valid() && offset < |chunk| && Bounded(maxFrameBytes, s0)
      requires Feed(maxFrameBytes, parse, s0, chunk[..offset]) == Progress(State(), frames, None)
      modifies this, header, body
      ensures Valid() && (body == old(body) || body == null || fresh(body)) && offset < next <= |chunk|
      ensures r.Ok? ==> Feed(maxFrameBytes, parse, s0, chunk[..next]) == Progress(State(), frames + r.value, None)
      ensures r.Err? ==>
        var p := Feed(maxFrameBytes, parse, s0, chunk); State() == p.state && p.error == Some(r.error)
    {
      hide Feed, FeedByte;
      var missing := if body == null then 4 - headerLength else body.Length - bodyLength;
      next := offset + if missing < |chunk| - offset then missing else |chunk| - offset;
      FeedNext(maxFrameBytes, parse, s0, chunk, offset, next, frames, State());
      r := Absorb(chunk[offset..next]);
    }

    /** Consumes one chunk; when it throws, the frames of this chunk are lost with it. */
    method Push(chunk: seq<byte>) returns (r: Result<seq<F>, ProtocolError>)
      requires Valid()
      modifies this, header, body
      ensures Valid() && (body == old(body) || body == null || fresh(body))
      ensures var p := Feed(maxFrameBytes, parse, old(State()), chunk);
        State() == p.state && r == if p.error.Some? then Err(p.error.value) else Ok(p.frames)
    {
      ghost var s0 := State();
      var frames: seq<F> := [];
      var offset := 0;
      while offset < |chunk|
        invariant offset <= |chunk|
        invariant Valid() && (body == old(body) || body == null || fresh(body))
        invariant Feed(maxFrameBytes, parse, s0, chunk[..offset]) == Progress(State(), frames, None)
      {
        var absorbed;
        offset, absorbed := Turn(chunk, offset, s0, frames);
        if absorbed.Err? {
          return Err(absorbed.error);
        }
        frames := frames + absorbed.value;
      }
      assert chunk[..|chunk|] == chunk;
      r := Ok(frames);
    }
  }

  /** One more piece of a chunk: what the whole chunk feeds once the piece fails or is absorbed. */
  lemma FeedNext<F>(max: nat, parse: Parser<F>, s0: Buffered, chunk: seq<byte>, start: nat, end: nat, frames: seq<F>, s: Buffered)
    requires Bounded(max, s0) && Bounded(max, s) && start <= end <= |chunk|
    requires Feed(max, parse, s0, chunk[..start]) == Progress(s, frames, None)
    ensures var p := Feed(max, parse, s, chunk[start..end]);
      && Feed(max, parse, s0, chunk[..end]) == p.(frames := frames + p.frames)
      && (p.error.Some? ==> Feed(max, parse, s0, chunk).state == p.state && Feed(max, parse, s0, chunk).error == p.error)
  {
    assert chunk[..start] + chunk[start..end] == chunk[..end];
    FeedJoins(max, parse, s0, chunk[..start], chunk[start..end]);
    assert chunk[..end] + chunk[end..] == chunk;
    FeedJoins(max, parse, s0, chunk[..end], chunk[end..]);
  }

  // ----- the encoder, and the other end of the pipe

  /** `encodeFrame` and `FrameCodec::encode`, given the printed body. */
  method Encode(body: seq<byte>, max: nat) returns (r: Result<array<byte>, ProtocolError>)
    requires max < U32_LIMIT
    ensures r.Ok? <==> |body| <= max
    ensures r.Err? ==> r.error == FrameTooLarge
    ensures r.Ok? ==> fresh(r.value) && r.value[..] == ToBigEndian(|body|) + body
  {
    if |body| > max {
      return Err(FrameTooLarge);
    }
    var output := new byte[4 + |body|](_ => 0);
    CopyInto(output, 0, ToBigEndian(|body|));
    CopyInto(output, 4, body);
    assert output[..4] == ToBigEndian(|body|) && output[4..] == body;
    assert output[..] == output[..4] + output[4..];
    r := Ok(output);
  }

  /** `FrameCodec::decode`: one whole frame and nothing else. */
  function DecodeWhole<F>(max: nat, parse: Parser<F>, bytes: seq<byte>): Result<F, ProtocolError> {
    if |bytes| < 4 then Err(LengthMismatch)
    else if BigEndian(bytes[..4]) > max then Err(FrameTooLarge)
    else if |bytes| != BigEndian(bytes[..4]) + 4 then Err(LengthMismatch)
    else parse(bytes[4..])
  }

  /** A frame is refused for its announced size first, then for its length; otherwise its body decides. */
  lemma WholeFrameErrors<F>(max: nat, parse: Parser<F>, header: seq<byte>, body: seq<byte>)
    requires |header| <= 4 && (body != [] ==> |header| == 4)
    ensures |header| < 4 ==> DecodeWhole(max, parse, header) == Err(LengthMismatch)
    ensures |header| == 4 ==>
      DecodeWhole(max, parse, header + body) ==
        if BigEndian(header) > max then Err(FrameTooLarge)
        else if |body| != BigEndian(header) then Err(LengthMismatch)
        else parse(body)
  {
    if |header| == 4 {
      assert (header + body)[..4] == header && (header + body)[4..] == body;
    }
  }

  /** How many bytes of the current frame are buffered. */
  function Position(s: Buffered): nat {
    (if s.Header? then 0 else 4) + |s.bytes|
  }

  /** Without a completed frame, every byte is still in the buffer. */
  lemma {:induction false} NothingIsLost<F>(max: nat, parse: Parser<F>, s: Buffered, bytes: seq<byte>)
    requires Bounded(max, s)
    requires Feed(max, parse, s, bytes).error.None? && Feed(max, parse, s, bytes).frames == []
    ensures Position(Feed(max, parse, s, bytes).state) == Position(s) + |bytes|
    decreases |bytes|
  {
    if bytes != [] {
      NothingIsLost(max, parse, FeedByte(max, parse, s, bytes[0]).state, bytes[1..]);
    }
  }

  /** Exactly one frame, decoded from a header and the body it announces. */
  lemma FeedOneFrame<F>(max: nat, parse: Parser<F>, h: seq<byte>, b: seq<byte>)
    requires |h| == 4 && 0 < BigEndian(h) <= max && |b| == BigEndian(h)
    ensures Feed(max, parse, START, h + b) == Complete(max, parse, false, b)
  {
    assert START.bytes + h == h && [] + b == b;
    FeedCompletes(max, parse, START, h);
    FeedCompletes(max, parse, Body(|b|, []), b);
    FeedJoins(max, parse, START, h, b);
    var p := Complete(max, parse, false, b);
    assert [] + p.frames == p.frames;
  }

  /** A stream that yields one frame and leaves nothing buffered is a header and the body it announces. */
  lemma OneFrameOnly<F>(max: nat, parse: Parser<F>, bytes: seq<byte>, frame: F)
    requires Feed(max, parse, START, bytes) == Progress(START, [frame], None)
    ensures 4 <= |bytes| && 0 < BigEndian(bytes[..4]) <= max && |bytes| == BigEndian(bytes[..4]) + 4
  {
    if |bytes| < 4 {
      FeedBuffers(max, parse, START, bytes);
    } else {
      var h, b := bytes[..4], bytes[4..];
      assert h + b == bytes && START.bytes + h == h;
      FeedCompletes(max, parse, START, h);
      FeedJoins(max, parse, START, h, b);
      var n := BigEndian(h);
      if 0 < n <= max {
        var p := Feed(max, parse, Body(n, []), b);
        assert [] + p.frames == p.frames;
        if |b| < n {
          FeedBuffers(max, parse, Body(n, []), b);
        } else {
          FeedOneFrame(max, parse, h, b[..n]);
          assert (h + b[..n]) + b[n..] == bytes;
          FeedJoins(max, parse, START, h + b[..n], b[n..]);
          NothingIsLost(max, parse, START, b[n..]);
        }
      }
    }
  }

  /**
   The whole-buffer codec accepts exactly the byte strings that the chunked decoder turns
   into one frame with nothing left over, and yields the same frame; no body is empty.
   */
  lemma CodecsAgree<F(!new)>(max: nat, parse: Parser<F>, bytes: seq<byte>, frame: F)
    requires parse([]).Err?
    ensures DecodeWhole(max, parse, bytes) == Ok(frame) <==>
            Feed(max, parse, START, bytes) == Progress(START, [frame], None)
  {
    if Feed(max, parse, START, bytes) == Progress(START, [frame], None) {
      OneFrameOnly(max, parse, bytes, frame);
    }
    if 4 <= |bytes| && 0 < BigEndian(bytes[..4]) <= max && |bytes| == BigEndian(bytes[..4]) + 4 {
      assert bytes[..4] + bytes[4..] == bytes;
      FeedOneFrame(max, parse, bytes[..4], bytes[4..]);
    } else if |bytes| == 4 {
      assert bytes[4..] == [];
    }
  }

  /** Every encoded frame is decoded to itself by the other end. */
  lemma CodecRoundTrip<F(!new)>(max: nat, parse: Parser<F>, body: F -> seq<byte>, frame: F)
    requires Encodable(max, parse, body, frame)
    ensures DecodeWhole(max, parse, Encoded(body, frame)) == Ok(frame)
  {
    var bytes := Encoded(body, frame);
    assert bytes[..4] == ToBigEndian(|body(frame)|) && bytes[4..] == body(frame);
  }

  /** Drives a fresh decoder over a chunked stream of encodable frames. */
  method DecodeStream<F(!new)>(decoder: FrameDecoder<F>, chunks: seq<seq<byte>>, ghost body: F -> seq<byte>, ghost frames: seq<F>)
    returns (decoded: seq<F>)
    requires decoder.Valid() && decoder.State() == START
    requires forall i :: 0 <= i < |frames| ==> Encodable(decoder.maxFrameBytes, decoder.parse, body, frames[i])
    requires Joined(chunks) == EncodedAll(decoder.maxFrameBytes, decoder.parse, body, frames)
    modifies decoder, decoder.header, decoder.body
    ensures decoded == frames && decoder.Valid() && decoder.State() == START
  {
    var max, parse := decoder.maxFrameBytes, decoder.parse;
    DecoderIsChunkIndependent(max, parse, body, frames, chunks);
    decoded := [];
    var k := 0;
    while k < |chunks|
      invariant k <= |chunks| && decoder.Valid()
      invariant decoder.body == old(decoder.body) || decoder.body == null || fresh(decoder.body)
      invariant FeedChunks(max, parse, chunks[..k]) == Progress(decoder.State(), decoded, None)
    {
      assert chunks[..k + 1][..k] == chunks[..k];
      FailureLasts(max, parse, chunks, k + 1);
      var pushed := decoder.Push(chunks[k]);
      decoded := decoded + pushed.value;
      k := k + 1;
    }
    assert chunks[..k] == chunks;
  }

  lemma {:induction false} FailureLasts<F>(max: nat, parse: Parser<F>, chunks: seq<seq<byte>>, k: nat)
    requires k <= |chunks| && FeedChunks(max, parse, chunks).error.None?
    ensures FeedChunks(max, parse, chunks[..k]).error.None?
  {
    if k == |chunks| {
      assert chunks[..k] == chunks;
    } else {
      FailureLasts(max, parse, chunks[..|chunks| - 1], k);
      assert chunks[..|chunks| - 1][..k] == chunks[..k];
    }
  }
}
