/** The server's incremental, fused decoding of a streamed request body. */
module ServerStream {
  import opened Basics
  import opened TextLists
  import opened Framing
  import opened RequestBodies
  import opened ClientStream

  type Output<T> = Result<T, StreamError>

  /** Everything the stream will yield from a state of its decoder that is not done. */
  function ServerRun<T>(f: Framing, decode: Decoder<T>, max: nat, buf: Text, eof: bool, events: seq<Event>)
    : seq<Output<T>>
    decreases |events|, if eof then 0 else 1, |buf|
  {
    match DeframeLimited(f, buf, eof, max)
    case Framed(cut) =>
      (match decode(cut.item)
       case Ok(v) => [Ok(v)] + ServerRun(f, decode, max, cut.rest, eof, events)
       case Err(message) => [Err(Undecodable(message))])
    case Failed(e) => [Err(e)]
    case NeedMore =>
      if eof then []
      else if events == [] then ServerRun(f, decode, max, buf, true, events)
      else
        match events[0]
        case Ok(chunk) => ServerRun(f, decode, max, buf + chunk, false, events[1..])
        case Err(message) => [Err(Transport(message))]
  }

  class StreamDecoder<T(!new)> {
    const f: Framing
    const decode: Decoder<T>
    const body: BodyStream
    const buf: FrameBuffer
    var eof: bool
    var done: bool

    constructor (f: Framing, decode: Decoder<T>, frames: Body)
      ensures fresh(buf) && fresh(body)
      ensures Rest() == ServerRun(f, decode, DEFAULT_MAX_BYTES, [], false, Chunks(frames))
    {
      this.f := f;
      this.decode := decode;
      body := new BodyStream(frames);
      buf := new FrameBuffer([]);
      eof := false;
      done := false;
    }

    ghost function Rest(): seq<Output<T>>
      reads this, body, buf
    {
      if done then [] else ServerRun(f, decode, DEFAULT_MAX_BYTES, buf.bytes, eof, body.Rest())
    }

    method Next() returns (out: Option<Output<T>>)
      modifies this, body, buf
      ensures match out
        case None => old(Rest()) == []
        case Some(o) => old(Rest()) == [o] + Rest()
      ensures out.Some? && out.value.Err? ==> done
    {
      while true
        invariant Rest() == old(Rest())
        invariant done ==> old(done)
        decreases body.Remaining(), if eof then 0 else 1
      {
        if done {
          return None;
        }
        var frame := buf.TakeLimited(f, eof, DEFAULT_MAX_BYTES);
        match frame
        case Err(e) =>
          done := true;
          return Some(Err(e));
        case Ok(Some(item)) =>
          match decode(item) {
            case Ok(v) => return Some(Ok(v));
            case Err(message) =>
              done := true;
              return Some(Err(Undecodable(message)));
          }
        case Ok(None) =>
          if eof {
            return None;
          }
          ghost var pending := body.Rest();
          var chunk := body.Next();
          match chunk {
            case Some(Ok(bytes)) =>
              AfterFirst<Event>(Ok(bytes), body.Rest());
              buf.Extend(bytes);
            case Some(Err(message)) =>
              done := true;
              return Some(Err(Transport(message)));
            case None => eof := true;
          }
      }
    }
  }

  // ----- every run is items, at most one error, and then the end

  ghost predicate ErrorOnlyLast<T>(outs: seq<Output<T>>) {
    forall i :: 0 <= i < |outs| - 1 ==> outs[i].Ok?
  }

  lemma {:induction false} ItemInFront<T>(v: T, outs: seq<Output<T>>)
    requires ErrorOnlyLast(outs)
    ensures ErrorOnlyLast([Ok(v)] + outs)
  {}

  lemma {:induction false} ItemsThenAtMostOneError<T>(f: Framing, decode: Decoder<T>, max: nat, buf: Text,
        eof: bool, events: seq<Event>)
    ensures ErrorOnlyLast(ServerRun(f, decode, max, buf, eof, events))
    decreases |events|, if eof then 0 else 1, |buf|
  {
    match DeframeLimited(f, buf, eof, max)
    case Framed(cut) =>
      if decode(cut.item).Ok? {
        ItemsThenAtMostOneError(f, decode, max, cut.rest, eof, events);
        ItemInFront(decode(cut.item).value, ServerRun(f, decode, max, cut.rest, eof, events));
      }
    case Failed(_) =>
    case NeedMore =>
      if !eof && events == [] {
        ItemsThenAtMostOneError(f, decode, max, buf, true, events);
      } else if !eof && events[0].Ok? {
        ItemsThenAtMostOneError(f, decode, max, buf + events[0].value, false, events[1..]);
      }
  }

  // ----- how a stream ends

  /** At the end what waits is an item of its own, and with netstrings an error. */
  lemma {:induction false} ServerEnds<T>(f: Framing, decode: Decoder<T>, max: nat, buf: Text, events: seq<Event>)
    requires DeframeLimited(f, buf, false, max).NeedMore?
    ensures var outs := ServerRun(f, decode, max, buf, true, events);
      if buf == [] then outs == []
      else if f == Netstring then
        outs == [Err(MalformedFrame(if ':' as int in buf then IncompleteFrame else NoColon))]
      else
        match decode(buf)
        case Ok(item) => outs == [Ok(item)]
        case Err(message) => outs == [Err(Undecodable(message))]
  {
    if f != Netstring {
      OtherVerdict(f, buf, false, max);
      OtherVerdict(f, buf, true, max);
      OtherVerdict(f, [], true, max);
      assert Deframe(f, [], true).None?;
    }
  }

  /** A transport error is the last thing reported: what waits is dropped. */
  lemma {:induction false} ServerBreaksOff<T>(f: Framing, decode: Decoder<T>, max: nat, buf: Text, message: Text,
        more: seq<Event>)
    requires DeframeLimited(f, buf, false, max).NeedMore?
    ensures ServerRun(f, decode, max, buf, false, [Err(message)] + more) == [Err(Transport(message))]
  {}

  /** An item that does not decode is the last thing reported: the items after it do not come. */
  lemma {:induction false} BadItemEnds<T>(f: Framing, decode: Decoder<T>, max: nat, buf: Text, eof: bool,
        events: seq<Event>)
    requires var cut := DeframeLimited(f, buf, eof, max); cut.Framed? && decode(cut.cut.item).Err?
    ensures ServerRun(f, decode, max, buf, eof, events)
         == [Err(Undecodable(decode(DeframeLimited(f, buf, eof, max).cut.item).error))]
  {}

  // ----- chunk independence

  /** What is decided before the end of the stream stays decided whatever follows. */
  predicate Stable(f: Framing, buf: Text, more: Text, max: nat) {
    match DeframeLimited(f, buf, false, max)
    case NeedMore => true
    case Failed(e) => DeframeLimited(f, buf + more, false, max) == Failed(e)
    case Framed(cut) => DeframeLimited(f, buf + more, false, max) == Framed(Cut(cut.item, cut.rest + more))
  }

  lemma {:induction false} NetstringDataStable(buf: Text, more: Text, start: nat, len: nat, max: nat)
    ensures var short := NetstringData(buf, start, len, false, max);
      var long := NetstringData(buf + more, start, len, false, max);
      && (short.Failed? ==> long == short)
      && (short.Framed? ==> long == Framed(Cut(short.cut.item, short.cut.rest + more)))
  {
    if start + len < |buf| {
      CutAtStable(buf, more, start, len);
    }
  }

  lemma {:induction false} NetstringLimitedStable(buf: Text, more: Text, max: nat)
    requires COLON in buf
    ensures Stable(Netstring, buf, more, max)
  {
    FindStable(buf, more, COLON);
    var colon := Find(buf, COLON).value;
    SlicesOfConcat(buf, more, 0, colon);
    var len := ParseLength(buf[..colon]);
    if len.Ok? {
      NetstringDataStable(buf, more, colon + 1, len.value, max);
    }
  }

  lemma {:induction false} OtherLimitedStable(f: Framing, buf: Text, more: Text, max: nat)
    requires f != Netstring && |buf + more| <= max
    ensures Stable(f, buf, more, max)
  {
    if Deframe(f, buf, false).Some? {
      DeframeStable(f, buf, more, false);
    }
  }

  /** Digits, leading zeros and all, that stand for a length beyond the limit. */
  predicate TooLargeAnyway(raw: Text, max: nat) {
    AllDigits(raw) && max < Decimal(raw) <= USIZE_MAX
  }

  /**
   Every length prefix longer than the limit, at the frame starts that are reached, stands for
   a length beyond the limit: it is refused as too large whether or not its colon has arrived.
   */
  predicate Steady<T>(decode: Decoder<T>, body: Text, max: nat)
    decreases |body|
  {
    match Find(body, COLON)
    case None => true
    case Some(colon) =>
      var cut := DeframeLimited(Netstring, body, false, max);
      if colon > max then TooLargeAnyway(body[..colon], max)
      else cut.Framed? && decode(cut.cut.item).Ok? ==> Steady(decode, cut.cut.rest, max)
  }

  /** The prefixes that are refused as too large on the whole body too. */
  lemma {:induction false} TooLargeIff(body: Text, max: nat)
    requires Find(body, COLON).Some?
    ensures TooLargeAnyway(body[..Find(body, COLON).value], max)
      <==> DeframeLimited(Netstring, body, false, max) == Failed(FrameTooLarge(max))
  {
    var raw := body[..Find(body, COLON).value];
    if AllDigits(raw) && raw != [] {
      assert IsDigit(raw[0]);
      assert ParseUsize(raw) == DecimalUsize(raw);
    }
  }

  /** For the other framings it is enough that the body fits the limit. */
  ghost predicate Independent<T>(f: Framing, decode: Decoder<T>, body: Text, max: nat) {
    if f == Netstring then Steady(decode, body, max) else |body| <= max
  }

  lemma {:induction false} ServerChunks<T>(f: Framing, decode: Decoder<T>, max: nat, buf: Text, chunks: seq<Text>,
        ending: seq<Event>)
    requires Independent(f, decode, buf + Flatten(chunks), max)
    requires Ending(ending)
    ensures ServerRun(f, decode, max, buf, false, DataEvents(chunks) + ending)
         == ServerRun(f, decode, max, buf + Flatten(chunks), false, ending)
    decreases |chunks|, |buf| + 1
  {
    var more := Flatten(chunks);
    var whole := buf + more;
    if chunks == [] {
      assert DataEvents(chunks) + ending == ending;
      assert whole == buf;
    } else if f == Netstring && COLON !in buf {
      if |buf| > max {
        OverlongPrefix(buf, more, max);
        if COLON in whole {
          TooLargeIff(whole, max);
        }
      } else {
        AbsorbChunk(f, decode, max, buf, chunks, ending);
      }
    } else {
      if f == Netstring { NetstringLimitedStable(buf, more, max); } else { OtherLimitedStable(f, buf, more, max); }
      match DeframeLimited(f, buf, false, max)
      case Failed(_) =>
      case NeedMore => AbsorbChunk(f, decode, max, buf, chunks, ending);
      case Framed(cut) =>
        if decode(cut.item).Ok? {
          FrameLeavesIndependent(f, decode, max, buf, more);
          ServerChunks(f, decode, max, cut.rest, chunks, ending);
        }
    }
  }

  lemma {:induction false} AbsorbChunk<T>(f: Framing, decode: Decoder<T>, max: nat, buf: Text, chunks: seq<Text>,
        ending: seq<Event>)
    requires chunks != []
    requires Independent(f, decode, buf + Flatten(chunks), max)
    requires Ending(ending)
    requires DeframeLimited(f, buf, false, max) == NeedMore
    ensures ServerRun(f, decode, max, buf, false, DataEvents(chunks) + ending)
         == ServerRun(f, decode, max, buf + Flatten(chunks), false, ending)
    decreases |chunks|, 0
  {
    FeedServer(f, decode, max, buf, chunks, ending);
    Assoc(buf, chunks[0], Flatten(chunks[1..]));
    ServerChunks(f, decode, max, buf + chunks[0], chunks[1..], ending);
  }

  lemma {:induction false} FrameLeavesIndependent<T>(f: Framing, decode: Decoder<T>, max: nat, buf: Text, more: Text)
    requires Independent(f, decode, buf + more, max) && Stable(f, buf, more, max)
    requires var cut := DeframeLimited(f, buf, false, max); cut.Framed? && decode(cut.cut.item).Ok?
    ensures Independent(f, decode, DeframeLimited(f, buf, false, max).cut.rest + more, max)
  {
    if f == Netstring {
      FindStable(buf, more, COLON);
    }
  }

  /** More than `max` bytes without a colon are refused with or without what follows, if nothing cuts in. */
  lemma {:induction false} OverlongPrefix(buf: Text, more: Text, max: nat)
    requires COLON !in buf && |buf| > max
    ensures DeframeLimited(Netstring, buf, false, max) == Failed(FrameTooLarge(max))
    ensures COLON !in buf + more ==> DeframeLimited(Netstring, buf + more, false, max) == Failed(FrameTooLarge(max))
    ensures COLON in buf + more ==> Find(buf + more, COLON).value >= |buf|
  {
    assert forall k :: 0 <= k < |buf| ==> (buf + more)[k] == buf[k];
  }

  // ----- for netstrings the condition is exact

  ghost predicate ChunkIndependent<T>(decode: Decoder<T>, body: Text, max: nat) {
    forall chunks: seq<Text> :: Flatten(chunks) == body ==>
      ServerRun(Netstring, decode, max, [], false, DataEvents(chunks))
        == ServerRun(Netstring, decode, max, body, false, [])
  }

  /** The bytes of a frame, on their own, are that frame. */
  lemma {:induction false} FrameAlone(body: Text, max: nat)
    requires DeframeLimited(Netstring, body, false, max).Framed?
    ensures var cut := DeframeLimited(Netstring, body, false, max).cut;
      var frame := body[..|body| - |cut.rest|];
      && frame + cut.rest == body
      && DeframeLimited(Netstring, frame, false, max) == Framed(Cut(cut.item, []))
  {
    var cut := DeframeLimited(Netstring, body, false, max).cut;
    var frame := body[..|body| - |cut.rest|];
    var colon := Find(body, COLON).value;
    var len := ParseLength(body[..colon]).value;
    assert frame[..colon] == body[..colon];
    FindIs(frame, COLON, colon);
    FrameDataAlone(body, colon + 1, len);
  }

  lemma {:induction false} FrameDataAlone(body: Text, start: nat, len: nat)
    requires start + len < |body|
    ensures var frame := body[..start + len + 1];
      CutAt(frame, start, len) == Cut(CutAt(body, start, len).item, []) && frame[start + len] == body[start + len]
  {}

  /** Cutting just before a late colon has the prefix refused as too large. */
  lemma {:induction false} LateColonCut<T>(decode: Decoder<T>, body: Text, max: nat)
    requires Find(body, COLON).Some? && Find(body, COLON).value > max
    requires DeframeLimited(Netstring, body, false, max) != Failed(FrameTooLarge(max))
    ensures var colon := Find(body, COLON).value;
      var chunks := [body[..colon], body[colon..]];
      && Flatten(chunks) == body
      && ServerRun(Netstring, decode, max, [], false, DataEvents(chunks))
          != ServerRun(Netstring, decode, max, body, false, [])
  {
    var colon := Find(body, COLON).value;
    var head, tail := body[..colon], body[colon..];
    FlattenTwo(head, tail);
    FirstChunk(decode, max, head, [tail]);
    assert [head] + [tail] == [head, tail];
    assert ServerRun(Netstring, decode, max, head, false, DataEvents([tail])) == [Err(FrameTooLarge(max))];
    WholeDiffers(decode, body, max);
  }

  lemma {:induction false} WholeDiffers<T>(decode: Decoder<T>, body: Text, max: nat)
    requires COLON in body
    requires DeframeLimited(Netstring, body, false, max) != Failed(FrameTooLarge(max))
    ensures ServerRun(Netstring, decode, max, body, false, []) != [Err(FrameTooLarge(max))]
  {
    var now := DeframeLimited(Netstring, body, false, max);
    if now.NeedMore? {
      assert DeframeLimited(Netstring, body, true, max) == Failed(MalformedFrame(IncompleteFrame));
    } else if now.Framed? {
      var outs := ServerRun(Netstring, decode, max, body, false, []);
      assert outs[0] != Err(FrameTooLarge(max));
    }
  }

  /** A body that is not steady can be cut so that the outputs differ. */
  lemma {:induction false} UnsteadyCut<T>(decode: Decoder<T>, body: Text, max: nat) returns (chunks: seq<Text>)
    requires !Steady(decode, body, max)
    ensures Flatten(chunks) == body
    ensures ServerRun(Netstring, decode, max, [], false, DataEvents(chunks))
         != ServerRun(Netstring, decode, max, body, false, [])
    decreases |body|
  {
    var colon := Find(body, COLON).value;
    TooLargeIff(body, max);
    if colon > max {
      LateColonCut(decode, body, max);
      chunks := [body[..colon], body[colon..]];
    } else {
      var cut := DeframeLimited(Netstring, body, false, max).cut;
      var frame := body[..|body| - |cut.rest|];
      FrameAlone(body, max);
      var rest := UnsteadyCut(decode, cut.rest, max);
      chunks := [frame] + rest;
      AfterFirst(frame, rest);
      FirstChunk(decode, max, frame, rest);
      var one: seq<Output<T>> := [Ok(decode(cut.item).value)];
      SameTail(one, ServerRun(Netstring, decode, max, [], false, DataEvents(rest)),
               ServerRun(Netstring, decode, max, cut.rest, false, []));
    }
  }

  lemma {:induction false} SameTail<T>(front: seq<T>, a: seq<T>, b: seq<T>)
    ensures front + a == front + b <==> a == b
  {
    assert (front + a)[|front|..] == a;
    assert (front + b)[|front|..] == b;
  }

  lemma {:induction false} FirstChunk<T>(decode: Decoder<T>, max: nat, first: Text, rest: seq<Text>)
    ensures ServerRun(Netstring, decode, max, [], false, DataEvents([first] + rest))
         == ServerRun(Netstring, decode, max, first, false, DataEvents(rest))
  {
    AfterFirst(first, rest);
    AfterFirst<Event>(Ok(first), DataEvents(rest));
    assert [] + first == first;
  }

  /** The outcome of a netstring body is independent of its chunking exactly when it is steady. */
  lemma {:induction false} ChunkIndependentIffSteady<T>(decode: Decoder<T>, body: Text, max: nat)
    ensures ChunkIndependent(decode, body, max) <==> Steady(decode, body, max)
  {
    if Steady(decode, body, max) {
      forall chunks: seq<Text> | Flatten(chunks) == body
        ensures ServerRun(Netstring, decode, max, [], false, DataEvents(chunks))
             == ServerRun(Netstring, decode, max, body, false, [])
      {
        assert [] + Flatten(chunks) == body;
        ServerChunks(Netstring, decode, max, [], chunks, []);
        assert DataEvents(chunks) + [] == DataEvents(chunks);
      }
    } else {
      var chunks := UnsteadyCut(decode, body, max);
    }
  }

  // ----- a body that depends on its chunking

  const ZERO: byte := 48

  function Zeros(n: nat): (s: Text)
    ensures |s| == n && AllDigits(s) && Decimal(s) == 0 && COLON !in s
  {
    if n == 0 then []
    else
      assert (Zeros(n - 1) + [ZERO])[..n - 1] == Zeros(n - 1);
      Zeros(n - 1) + [ZERO]
  }

  /** An empty item behind more leading zeros than the limit. */
  function Padded(max: nat): Text {
    Zeros(max + 1) + ([COLON] + [COMMA])
  }

  lemma {:induction false} PaddedUnsteady<T>(decode: Decoder<T>, max: nat)
    ensures Find(Padded(max), COLON) == Some(max + 1)
    ensures !Steady(decode, Padded(max), max)
  {
    FindInConcat(Zeros(max + 1), COLON, [COMMA]);
    AroundSeparator(Zeros(max + 1), COLON, [COMMA]);
  }

  lemma {:induction false} ZerosParse(n: nat)
    requires n > 0
    ensures ParseLength(Zeros(n)) == Ok(0)
  {
    var s := Zeros(n);
    assert IsDigit(s[0]);
    assert ParseUsize(s) == DecimalUsize(s);
  }

  /** Once its length is read, the data decides about a frame. */
  lemma {:induction false} LimitedFrom(body: Text, colon: nat, len: nat, max: nat)
    requires Find(body, COLON) == Some(colon) && ParseLength(body[..colon]) == Ok(len)
    ensures NetstringLimited(body, false, max) == NetstringData(body, colon + 1, len, false, max)
  {}

  lemma {:induction false} EmptyFrame(body: Text, start: nat, max: nat)
    requires |body| == start + 1 && body[start] == COMMA && start + 1 <= USIZE_MAX
    ensures NetstringData(body, start, 0, false, max) == Framed(Cut([], []))
  {}

  lemma {:induction false} PaddedFrame(max: nat)
    requires max + 3 <= USIZE_MAX
    ensures DeframeLimited(Netstring, Padded(max), false, max) == Framed(Cut([], []))
  {
    var body := Padded(max);
    FindInConcat(Zeros(max + 1), COLON, [COMMA]);
    AroundSeparator(Zeros(max + 1), COLON, [COMMA]);
    ZerosParse(max + 1);
    LimitedFrom(body, max + 1, 0, max);
    EmptyFrame(body, max + 2, max);
  }

  /** In one piece the item arrives; cut before the colon its length is refused as too large. */
  lemma {:induction false} PaddedTwoWays<T>(decode: Decoder<T>, max: nat)
    requires max + 3 <= USIZE_MAX
    ensures var chunks := [Zeros(max + 1), [COLON] + [COMMA]];
      && Flatten(chunks) == Padded(max)
      && ServerRun(Netstring, decode, max, Padded(max), false, []) == Values(decode, [[]])
      && ServerRun(Netstring, decode, max, [], false, DataEvents(chunks)) == [Err(FrameTooLarge(max))]
  {
    var head, tail := Zeros(max + 1), [COLON] + [COMMA];
    FlattenTwo(head, tail);
    FirstChunk(decode, max, head, [tail]);
    assert [head] + [tail] == [head, tail];
    OverlongPrefix(head, [], max);
    PaddedFrame(max);
    var items: seq<Text> := [[]];
    assert items[1..] == [];
    assert DeframeLimited(Netstring, [], false, max) == NeedMore;
    assert DeframeLimited(Netstring, [], true, max) == NeedMore;
    assert ServerRun(Netstring, decode, max, [], false, []) == [];
  }

  /** So it is at the server's own limit. */
  lemma {:induction false} PaddedDependsOnChunking<T>(decode: Decoder<T>)
    ensures !ChunkIndependent(decode, Padded(DEFAULT_MAX_BYTES), DEFAULT_MAX_BYTES)
  {
    PaddedUnsteady(decode, DEFAULT_MAX_BYTES);
    var chunks := UnsteadyCut(decode, Padded(DEFAULT_MAX_BYTES), DEFAULT_MAX_BYTES);
  }

  // ----- the other framings: when a longer body depends on its chunking

  ghost predicate ServerIndependent<T>(f: Framing, decode: Decoder<T>, body: Text, max: nat, ending: seq<Event>) {
    forall chunks1: seq<Text>, chunks2: seq<Text> :: Flatten(chunks1) == body && Flatten(chunks2) == body ==>
      ServerRun(f, decode, max, [], false, DataEvents(chunks1) + ending)
        == ServerRun(f, decode, max, [], false, DataEvents(chunks2) + ending)
  }

  /** Feeding one more chunk to a buffer that needs more. */
  lemma {:induction false} FeedServer<T>(f: Framing, decode: Decoder<T>, max: nat, buf: Text, chunks: seq<Text>,
      ending: seq<Event>)
    requires DeframeLimited(f, buf, false, max) == NeedMore && chunks != []
    ensures ServerRun(f, decode, max, buf, false, DataEvents(chunks) + ending)
         == ServerRun(f, decode, max, buf + chunks[0], false, DataEvents(chunks[1..]) + ending)
  {
    var tail := DataEvents(chunks[1..]) + ending;
    assert DataEvents(chunks) + ending == [Ok(chunks[0])] + tail;
    AfterFirst<Event>(Ok(chunks[0]), tail);
  }

  lemma {:induction false} AlwaysTooLarge<T>(f: Framing, decode: Decoder<T>, max: nat, buf: Text, chunks: seq<Text>,
      ending: seq<Event>)
    requires f != Netstring && |buf| <= max < |buf + Flatten(chunks)|
    requires Deframe(f, (buf + Flatten(chunks))[..max], false).None?
    ensures ServerRun(f, decode, max, buf, false, DataEvents(chunks) + ending) == [Err(FrameTooLarge(max))]
    decreases |chunks|
  {
    var whole := buf + Flatten(chunks);
    assert whole[..max] == buf + Flatten(chunks)[..max - |buf|];
    PrefixHoldsNone(f, buf, Flatten(chunks)[..max - |buf|]);
    FeedServer(f, decode, max, buf, chunks, ending);
    Assoc(buf, chunks[0], Flatten(chunks[1..]));
    if |buf + chunks[0]| <= max {
      AlwaysTooLarge(f, decode, max, buf + chunks[0], chunks[1..], ending);
    }
  }

  lemma {:induction false} FrameServed<T>(f: Framing, decode: Decoder<T>, max: nat, buf: Text, events: seq<Event>)
    requires f != Netstring && |buf| <= max && Deframe(f, buf, false).Some?
    ensures ServerRun(f, decode, max, buf, false, events) != [Err(FrameTooLarge(max))]
  {
    var cut := Deframe(f, buf, false).value;
    var outs: seq<Output<T>> := ServerRun(f, decode, max, buf, false, events);
    assert |cut.item| <= |buf|;
    assert outs[0] == (match decode(cut.item) case Ok(v) => Ok(v) case Err(message) => Err(Undecodable(message)));
  }

  lemma {:induction false} TooLongServed<T>(f: Framing, decode: Decoder<T>, max: nat, buf: Text, events: seq<Event>)
    requires f != Netstring && |buf| > max
    ensures ServerRun(f, decode, max, buf, false, events) == [Err(FrameTooLarge(max))]
  {}

  lemma {:induction false} LongBodyServedTwoWays<T>(f: Framing, decode: Decoder<T>, max: nat, body: Text,
      ending: seq<Event>)
    requires f != Netstring && |body| > max && Deframe(f, body[..max], false).Some?
    ensures var one, two := [body], [body[..max], body[max..]];
      && Flatten(one) == body && Flatten(two) == body
      && ServerRun(f, decode, max, [], false, DataEvents(one) + ending)
          != ServerRun(f, decode, max, [], false, DataEvents(two) + ending)
  {
    var head, tail := body[..max], body[max..];
    var one, two := [body], [head, tail];
    FlattenOne(body);
    FlattenTwo(head, tail);
    assert head + tail == body;
    NothingInFront(body);
    NothingInFront(head);
    assert DeframeLimited(f, [], false, max) == NeedMore;
    FeedServer(f, decode, max, [], one, ending);
    FeedServer(f, decode, max, [], two, ending);
    TooLongServed(f, decode, max, body, DataEvents(one[1..]) + ending);
    FrameServed(f, decode, max, head, DataEvents(two[1..]) + ending);
  }

  /** As for the client: the body is within the limit, or its first frame is not complete within it. */
  lemma {:induction false} ServerIndependentIff<T>(f: Framing, decode: Decoder<T>, body: Text, max: nat,
      ending: seq<Event>)
    requires f != Netstring && Ending(ending)
    ensures ServerIndependent(f, decode, body, max, ending)
       <==> |body| <= max || Deframe(f, body[..max], false).None?
  {
    NothingInFront(body);
    if |body| <= max {
      forall chunks: seq<Text> | Flatten(chunks) == body
        ensures ServerRun(f, decode, max, [], false, DataEvents(chunks) + ending)
             == ServerRun(f, decode, max, body, false, ending)
      {
        ServerChunks(f, decode, max, [], chunks, ending);
      }
    } else if Deframe(f, body[..max], false).None? {
      forall chunks: seq<Text> | Flatten(chunks) == body
        ensures ServerRun(f, decode, max, [], false, DataEvents(chunks) + ending) == [Err(FrameTooLarge(max))]
      {
        AlwaysTooLarge(f, decode, max, [], chunks, ending);
      }
    } else {
      LongBodyServedTwoWays(f, decode, max, body, ending);
    }
  }

  // ----- netstring delivery

  function Frames(items: seq<Text>): Text {
    if items == [] then [] else FrameItem(Netstring, items[0]) + Frames(items[1..])
  }

  /** An item that fits: its size and the digits of its size are within the limit, its frame in memory. */
  predicate Fits<T>(decode: Decoder<T>, item: Text, max: nat) {
    && |item| <= max && |Digits(|item|)| <= max
    && |Digits(|item|)| + |item| + 2 <= USIZE_MAX
    && decode(item).Ok?
  }

  function Values<T>(decode: Decoder<T>, items: seq<Text>): seq<Output<T>> {
    if items == [] then []
    else
      [match decode(items[0]) case Ok(v) => Ok(v) case Err(message) => Err(Undecodable(message))]
        + Values(decode, items[1..])
  }

  lemma {:induction false} ParseDigits(n: nat)
    requires n <= USIZE_MAX
    ensures ParseLength(Digits(n)) == Ok(n)
    ensures COLON !in Digits(n)
  {
    var s := Digits(n);
    assert s[0] != PLUS_SIGN;
  }

  lemma {:induction false} FrameShape(item: Text, more: Text)
    ensures FrameItem(Netstring, item) + more
         == Digits(|item|) + ([COLON] + (item + ([COMMA] + more)))
  {
    Assoc(Digits(|item|), [COLON] + (item + [COMMA]), more);
    Assoc([COLON], item + [COMMA], more);
    Assoc(item, [COMMA], more);
  }

  /** `s` is a front part, a separator, a middle part, a closing mark and the rest. */
  ghost predicate Laid<T>(s: seq<T>, front: seq<T>, sep: T, middle: seq<T>, close: T, rest: seq<T>) {
    var start := |front| + 1;
    && |s| == start + |middle| + 1 + |rest|
    && s[..|front|] == front
    && s[|front|] == sep
    && s[start..start + |middle|] == middle
    && s[start + |middle|] == close
    && s[start + |middle| + 1..] == rest
  }

  lemma {:induction false} LaidOut<T>(front: seq<T>, sep: T, middle: seq<T>, close: T, rest: seq<T>)
    ensures Laid(front + ([sep] + (middle + ([close] + rest))), front, sep, middle, close, rest)
  {
    var tail := middle + ([close] + rest);
    AroundSeparator(front, sep, tail);
    AroundSeparator(middle, close, rest);
    var s, start := front + ([sep] + tail), |front| + 1;
    SliceOfTail(s, start, 0, |middle|);
    SliceOfTail(s, start, |middle|, |middle| + 1);
    assert s[start..][|middle|] == tail[|middle|];
  }

  lemma {:induction false} FrontPartsOf(body: Text, item: Text, more: Text)
    requires |item| <= USIZE_MAX
    requires Laid(body, Digits(|item|), COLON, item, COMMA, more)
    ensures FrontParts(body, item, more)
  {
    ParseDigits(|item|);
    FindIs(body, COLON, |Digits(|item|)|);
  }

  /** Where the length, the item and the rest stand in a body that starts with a frame. */
  ghost predicate FrontParts(body: Text, item: Text, more: Text) {
    var n := |Digits(|item|)|;
    && Find(body, COLON) == Some(n)
    && ParseLength(body[..n]) == Ok(|item|)
    && n + 1 + |item| < |body|
    && body[n + 1 + |item|] == COMMA
    && CutAt(body, n + 1, |item|) == Cut(item, more)
  }

  lemma {:induction false} FrameInFront(item: Text, more: Text)
    requires |item| <= USIZE_MAX
    ensures FrontParts(FrameItem(Netstring, item) + more, item, more)
  {
    FrameShape(item, more);
    LaidOut(Digits(|item|), COLON, item, COMMA, more);
    FrontPartsOf(FrameItem(Netstring, item) + more, item, more);
  }

  /** The limit tests on a body whose first frame is known. */
  lemma {:induction false} FrontLimited(body: Text, item: Text, more: Text, max: nat)
    requires FrontParts(body, item, more)
    requires |item| <= max && |Digits(|item|)| + |item| + 2 <= USIZE_MAX
    ensures DeframeLimited(Netstring, body, false, max) == Framed(Cut(item, more))
  {
    LimitedFrom(body, |Digits(|item|)|, |item|, max);
  }

  lemma {:induction false} FrontFrame(item: Text, more: Text, max: nat)
    requires |item| <= max && |Digits(|item|)| <= max && |Digits(|item|)| + |item| + 2 <= USIZE_MAX
    ensures var body := FrameItem(Netstring, item) + more;
      && Find(body, COLON) == Some(|Digits(|item|)|)
      && DeframeLimited(Netstring, body, false, max) == Framed(Cut(item, more))
  {
    var body := FrameItem(Netstring, item) + more;
    FrameInFront(item, more);
    FrontLimited(body, item, more, max);
  }

  lemma {:induction false} FramesDeliver<T>(decode: Decoder<T>, items: seq<Text>, max: nat)
    requires forall item <- items :: Fits(decode, item, max)
    ensures Steady(decode, Frames(items), max)
    ensures ServerRun(Netstring, decode, max, Frames(items), false, []) == Values(decode, items)
  {
    if items != [] {
      assert items[0] in items;
      FrontFrame(items[0], Frames(items[1..]), max);
      FramesDeliver(decode, items[1..], max);
    }
  }

  /** Framed items arrive exactly, in order and complete, under every chunking of their bytes. */
  lemma {:induction false} NetstringDelivers<T>(decode: Decoder<T>, items: seq<Text>, chunks: seq<Text>, max: nat)
    requires forall item <- items :: Fits(decode, item, max)
    requires Flatten(chunks) == Frames(items)
    ensures ServerRun(Netstring, decode, max, [], false, DataEvents(chunks)) == Values(decode, items)
  {
    FramesDeliver(decode, items, max);
    ChunkIndependentIffSteady(decode, Frames(items), max);
  }

  function Pow10(k: nat): nat {
    if k == 0 then 1 else 10 * Pow10(k - 1)
  }

  lemma {:induction false} DigitsShort(n: nat, k: nat)
    requires 0 < k && n < Pow10(k)
    ensures |Digits(n)| <= k
  {
    if n >= 10 {
      assert Pow10(1) == 10;
      DigitsShort(n / 10, k - 1);
    }
  }

  /** At the server's own limit only the items' sizes matter: seven digits suffice for 8 MiB. */
  lemma {:induction false} NetstringDeliversAtDefaultLimit<T>(decode: Decoder<T>, items: seq<Text>, chunks: seq<Text>)
    requires forall item <- items :: |item| <= 8_388_608 && decode(item).Ok?
    requires Flatten(chunks) == Frames(items)
    ensures ServerRun(Netstring, decode, DEFAULT_MAX_BYTES, [], false, DataEvents(chunks)) == Values(decode, items)
  {
    assert Pow10(7) == 10_000_000 by {
      assert Pow10(3) == 1000;
      assert Pow10(5) == 100_000;
    }
    forall item | item in items ensures Fits(decode, item, DEFAULT_MAX_BYTES) {
      DigitsShort(|item|, 7);
    }
    NetstringDelivers(decode, items, chunks, DEFAULT_MAX_BYTES);
  }
}
