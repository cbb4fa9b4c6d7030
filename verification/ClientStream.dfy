/**
 The client's decoding of a streamed response, chunk by chunk, and the buffered
 decoding of the same body in one piece.
 */
module ClientStream {
  import opened Basics
  import opened Framing

  const MAX_STREAM_FRAME_BYTES: nat := 8 * 1024 * 1024

  datatype ClientError = BadItem(message: Text) | Incomplete | Oversized | Broken(message: Text) | BadMedia

  /** What the transport yields: data, or an error. */
  type Event = Result<Text, Text>

  /** How one item is decoded. */
  type Decoder<T> = Text -> Result<T, Text>

  function Decoded<T>(decode: Decoder<T>, item: Text): Result<T, ClientError> {
    match decode(item)
    case Ok(v) => Ok(v)
    case Err(message) => Err(BadItem(message))
  }

  /** Everything the stream will yield from a state of its decoder. */
  function ClientRun<T>(f: Framing, decode: Decoder<T>, max: nat, buf: Text, eof: bool, events: seq<Event>)
    : seq<Result<T, ClientError>>
    decreases |events|, if eof then 0 else 1, |buf|
  {
    match Deframe(f, buf, eof)
    case Some(cut) => [Decoded(decode, cut.item)] + ClientRun(f, decode, max, cut.rest, eof, events)
    case None =>
      if eof then if buf == [] then [] else [Err(Incomplete)]
      else if events == [] then ClientRun(f, decode, max, buf, true, events)
      else
        match events[0]
        case Ok(chunk) =>
          if |buf + chunk| > max then [Err(Oversized)]
          else ClientRun(f, decode, max, buf + chunk, false, events[1..])
        case Err(message) =>
          [Err(Broken(message))] + ClientRun(f, decode, max, buf, true, events[1..])
  }

  class DeframeDecode<T(!new)> {
    const f: Framing
    const decode: Decoder<T>
    const max: nat
    var events: seq<Event>
    const buf: FrameBuffer
    var eof: bool

    constructor (f: Framing, decode: Decoder<T>, max: nat, events: seq<Event>)
      ensures fresh(buf)
      ensures Rest() == ClientRun(f, decode, max, [], false, events)
    {
      this.f := f;
      this.decode := decode;
      this.max := max;
      this.events := events;
      buf := new FrameBuffer([]);
      eof := false;
    }

    ghost function Rest(): seq<Result<T, ClientError>>
      reads this, buf
    {
      ClientRun(f, decode, max, buf.bytes, eof, events)
    }

    /** Yields the next output; `None` only when nothing is left. */
    method Next() returns (out: Option<Result<T, ClientError>>)
      modifies this, buf
      ensures match out
        case None => old(Rest()) == [] && Rest() == []
        case Some(o) => old(Rest()) == [o] + Rest()
    {
      while true
        invariant Rest() == old(Rest())
        decreases |events|, if eof then 0 else 1
      {
        var frame := buf.Take(f, eof);
        if frame.Some? {
          return Some(Decoded(decode, frame.value));
        }
        if eof {
          if buf.bytes != [] {
            buf.bytes := [];
            return Some(Err(Incomplete));
          }
          return None;
        }
        if events == [] {
          eof := true;
        } else {
          var event := events[0];
          events := events[1..];
          match event
          case Ok(chunk) =>
            buf.Extend(chunk);
            if |buf.bytes| > max {
              buf.bytes := [];
              eof := true;
              return Some(Err(Oversized));
            }
          case Err(message) =>
            eof := true;
            return Some(Err(Broken(message)));
        }
      }
    }
  }

  // ----- how a stream ends

  /** At the end what waits is an item of its own, or an incomplete one where frames tell their length. */
  lemma {:induction false} EndOfStream<T>(f: Framing, decode: Decoder<T>, max: nat, buf: Text, events: seq<Event>)
    requires Deframe(f, buf, false).None?
    ensures ClientRun(f, decode, max, buf, true, events) ==
      if buf == [] then [] else if f == Netstring then [Err(Incomplete)] else [Decoded(decode, buf)]
  {
    if f != Netstring {
      OtherVerdict(f, buf, true, |buf|);
      assert Deframe(f, [], true).None?;
    }
  }

  /** A transport error is reported, what waits is dealt with as at the end, and nothing follows. */
  lemma {:induction false} BrokenOff<T>(f: Framing, decode: Decoder<T>, max: nat, buf: Text, message: Text,
        more: seq<Event>)
    requires Deframe(f, buf, false).None?
    ensures ClientRun(f, decode, max, buf, false, [Err(message)] + more) ==
      [Err(Broken(message))]
      + (if buf == [] then [] else if f == Netstring then [Err(Incomplete)] else [Decoded(decode, buf)])
  {
    EndOfStream(f, decode, max, buf, more);
    AfterFirst<Event>(Err(message), more);
  }

  /** An item that does not decode is reported in its place, and the items after it still come. */
  lemma {:induction false} BadItemGoesOn<T>(f: Framing, decode: Decoder<T>, max: nat, buf: Text, eof: bool,
        events: seq<Event>)
    requires Deframe(f, buf, eof).Some? && decode(Deframe(f, buf, eof).value.item).Err?
    ensures var cut := Deframe(f, buf, eof).value;
      ClientRun(f, decode, max, buf, eof, events)
      == [Err(BadItem(decode(cut.item).error))] + ClientRun(f, decode, max, cut.rest, eof, events)
  {}

  // ----- chunk independence

  function DataEvents(chunks: seq<Text>): seq<Event> {
    if chunks == [] then [] else [Ok(chunks[0])] + DataEvents(chunks[1..])
  }

  /** A body ends, or breaks off with a transport error. */
  predicate Ending(events: seq<Event>) {
    events == [] || events[0].Err?
  }

  /** The bytes that wait for the rest of their frame never exceed the limit as the chunks come in. */
  predicate StaysWithin(f: Framing, max: nat, buf: Text, chunks: seq<Text>)
    decreases |chunks|, |buf|
  {
    match Deframe(f, buf, false)
    case Some(cut) => StaysWithin(f, max, cut.rest, chunks)
    case None =>
      chunks == [] || (|buf + chunks[0]| <= max && StaysWithin(f, max, buf + chunks[0], chunks[1..]))
  }

  predicate NotOversized<T>(out: Result<T, ClientError>) {
    out.Ok? || out.error != Oversized
  }

  lemma {:induction false} FrontNotOversized<T>(out: Result<T, ClientError>, outs: seq<Result<T, ClientError>>)
    requires NotOversized(out)
    ensures (forall o <- [out] + outs :: NotOversized(o)) <==> (forall o <- outs :: NotOversized(o))
  {
    assert forall o <- outs :: o in [out] + outs;
  }

  /** Without more data nothing is too large. */
  lemma {:induction false} WholeNotOversized<T>(f: Framing, decode: Decoder<T>, max: nat, buf: Text, eof: bool,
      ending: seq<Event>)
    requires eof || Ending(ending)
    ensures forall out <- ClientRun(f, decode, max, buf, eof, ending) :: NotOversized(out)
    decreases if eof then 0 else 1, |buf|
  {
    match Deframe(f, buf, eof)
    case Some(cut) =>
      WholeNotOversized(f, decode, max, cut.rest, eof, ending);
      FrontNotOversized(Decoded(decode, cut.item), ClientRun(f, decode, max, cut.rest, eof, ending));
    case None =>
      if !eof && ending == [] {
        WholeNotOversized(f, decode, max, buf, true, ending);
      } else if !eof {
        WholeNotOversized(f, decode, max, buf, true, ending[1..]);
        var rest: seq<Result<T, ClientError>> := ClientRun(f, decode, max, buf, true, ending[1..]);
        FrontNotOversized(Err(Broken(ending[0].error)), rest);
      }
  }

  /** Feeding one more chunk to a buffer that holds no frame. */
  lemma {:induction false} FeedChunk<T>(f: Framing, decode: Decoder<T>, max: nat, buf: Text, chunks: seq<Text>,
      ending: seq<Event>)
    requires Deframe(f, buf, false).None? && chunks != []
    ensures ClientRun(f, decode, max, buf, false, DataEvents(chunks) + ending)
         == if |buf + chunks[0]| > max then [Err(Oversized)]
            else ClientRun(f, decode, max, buf + chunks[0], false, DataEvents(chunks[1..]) + ending)
  {
    var tail := DataEvents(chunks[1..]) + ending;
    assert DataEvents(chunks) + ending == [Ok(chunks[0])] + tail;
    AfterFirst<Event>(Ok(chunks[0]), tail);
  }

  lemma {:induction false} FeedAllWithin<T>(f: Framing, decode: Decoder<T>, max: nat, buf: Text, chunks: seq<Text>,
      ending: seq<Event>)
    requires StaysWithin(f, max, buf, chunks)
    ensures ClientRun(f, decode, max, buf, false, DataEvents(chunks) + ending)
         == ClientRun(f, decode, max, buf + Flatten(chunks), false, ending)
    decreases |chunks|, |buf|
  {
    if Deframe(f, buf, false).Some? {
      DeframeStable(f, buf, Flatten(chunks), false);
      FeedAllWithin(f, decode, max, Deframe(f, buf, false).value.rest, chunks, ending);
    } else if chunks == [] {
      assert DataEvents(chunks) + ending == ending;
      assert buf + Flatten(chunks) == buf;
    } else {
      FeedChunk(f, decode, max, buf, chunks, ending);
      Assoc(buf, chunks[0], Flatten(chunks[1..]));
      FeedAllWithin(f, decode, max, buf + chunks[0], chunks[1..], ending);
    }
  }

  /** Once the waiting bytes exceed the limit the run says so. */
  lemma {:induction false} FeedBeyond<T>(f: Framing, decode: Decoder<T>, max: nat, buf: Text, chunks: seq<Text>,
      ending: seq<Event>)
    requires !StaysWithin(f, max, buf, chunks)
    ensures exists out <- ClientRun(f, decode, max, buf, false, DataEvents(chunks) + ending) :: !NotOversized(out)
    decreases |chunks|, |buf|
  {
    match Deframe(f, buf, false)
    case Some(cut) =>
      FeedBeyond(f, decode, max, cut.rest, chunks, ending);
      FrontNotOversized(Decoded(decode, cut.item),
                        ClientRun(f, decode, max, cut.rest, false, DataEvents(chunks) + ending));
    case None =>
      FeedChunk(f, decode, max, buf, chunks, ending);
      if |buf + chunks[0]| > max {
        var out: Result<T, ClientError> := Err(Oversized);
        assert out in ClientRun(f, decode, max, buf, false, DataEvents(chunks) + ending);
      } else {
        FeedBeyond(f, decode, max, buf + chunks[0], chunks[1..], ending);
      }
  }

  /**
   For every way of cutting a body of any length, with or without a transport error at its
   end: the outputs are those of the whole body in the buffer at once exactly when the
   bytes that wait for the rest of their frame stay within the limit.
   */
  lemma {:induction false} ChunkIndependence<T>(f: Framing, decode: Decoder<T>, max: nat, buf: Text,
      chunks: seq<Text>, ending: seq<Event>)
    requires Ending(ending)
    ensures ClientRun(f, decode, max, buf, false, DataEvents(chunks) + ending)
              == ClientRun(f, decode, max, buf + Flatten(chunks), false, ending)
       <==> StaysWithin(f, max, buf, chunks)
  {
    if StaysWithin(f, max, buf, chunks) {
      FeedAllWithin(f, decode, max, buf, chunks, ending);
    } else {
      FeedBeyond(f, decode, max, buf, chunks, ending);
      WholeNotOversized(f, decode, max, buf + Flatten(chunks), false, ending);
    }
  }

  /** A body within the limit stays within it, however it is cut. */
  lemma {:induction false} ShortBodyStaysWithin(f: Framing, max: nat, buf: Text, chunks: seq<Text>)
    requires |buf| + |Flatten(chunks)| <= max
    ensures StaysWithin(f, max, buf, chunks)
    decreases |chunks|, |buf|
  {
    match Deframe(f, buf, false)
    case Some(cut) => ShortBodyStaysWithin(f, max, cut.rest, chunks);
    case None =>
      if chunks != [] {
        ShortBodyStaysWithin(f, max, buf + chunks[0], chunks[1..]);
      }
  }

  /** An unframed body is one item, however it is cut, and an empty one is none. */
  lemma {:induction false} UnframedIsOneItem<T>(decode: Decoder<T>, max: nat, chunks: seq<Text>)
    requires |Flatten(chunks)| <= max
    ensures var body := Flatten(chunks);
      ClientRun(NoFraming, decode, max, [], false, DataEvents(chunks))
      == if body == [] then [] else [Decoded(decode, body)]
  {
    ShortBodyStaysWithin(NoFraming, max, [], chunks);
    FeedAllWithin(NoFraming, decode, max, [], chunks, []);
    NothingInFront(Flatten(chunks));
    assert DataEvents(chunks) + [] == DataEvents(chunks);
    EndOfStream(NoFraming, decode, max, Flatten(chunks), []);
  }

  /** Two ways of cutting the same body give the same outputs. */
  lemma {:induction false} ChunkingIrrelevant<T>(f: Framing, decode: Decoder<T>, chunks1: seq<Text>,
      chunks2: seq<Text>, ending: seq<Event>)
    requires Flatten(chunks1) == Flatten(chunks2)
    requires |Flatten(chunks1)| <= 8_388_608
    requires Ending(ending)
    ensures ClientRun(f, decode, MAX_STREAM_FRAME_BYTES, [], false, DataEvents(chunks1) + ending)
         == ClientRun(f, decode, MAX_STREAM_FRAME_BYTES, [], false, DataEvents(chunks2) + ending)
  {
    ShortBodyStaysWithin(f, MAX_STREAM_FRAME_BYTES, [], chunks1);
    ShortBodyStaysWithin(f, MAX_STREAM_FRAME_BYTES, [], chunks2);
    FeedAllWithin(f, decode, MAX_STREAM_FRAME_BYTES, [], chunks1, ending);
    FeedAllWithin(f, decode, MAX_STREAM_FRAME_BYTES, [], chunks2, ending);
  }

  // ----- when a longer body depends on its chunking

  ghost predicate ClientIndependent<T>(f: Framing, decode: Decoder<T>, body: Text, max: nat, ending: seq<Event>) {
    forall chunks1: seq<Text>, chunks2: seq<Text> :: Flatten(chunks1) == body && Flatten(chunks2) == body ==>
      ClientRun(f, decode, max, [], false, DataEvents(chunks1) + ending)
        == ClientRun(f, decode, max, [], false, DataEvents(chunks2) + ending)
  }

  /** No prefix of a buffer without a frame holds one. */
  lemma {:induction false} PrefixHoldsNone(f: Framing, buf: Text, more: Text)
    requires Deframe(f, buf + more, false).None?
    ensures Deframe(f, buf, false).None?
  {
    if Deframe(f, buf, false).Some? {
      DeframeStable(f, buf, more, false);
    }
  }

  lemma {:induction false} AlwaysOversized<T>(f: Framing, decode: Decoder<T>, max: nat, buf: Text, chunks: seq<Text>,
      ending: seq<Event>)
    requires |buf| <= max < |buf + Flatten(chunks)|
    requires Deframe(f, (buf + Flatten(chunks))[..max], false).None?
    ensures ClientRun(f, decode, max, buf, false, DataEvents(chunks) + ending) == [Err(Oversized)]
    decreases |chunks|
  {
    var whole := buf + Flatten(chunks);
    assert whole[..max] == buf + Flatten(chunks)[..max - |buf|];
    PrefixHoldsNone(f, buf, Flatten(chunks)[..max - |buf|]);
    FeedChunk(f, decode, max, buf, chunks, ending);
    Assoc(buf, chunks[0], Flatten(chunks[1..]));
    if |buf + chunks[0]| <= max {
      AlwaysOversized(f, decode, max, buf + chunks[0], chunks[1..], ending);
    }
  }

  /** A body whose first frame fits, cut at the limit, yields that frame; in one piece it yields nothing. */
  lemma {:induction false} LongBodyTwoWays<T>(f: Framing, decode: Decoder<T>, max: nat, body: Text,
      ending: seq<Event>)
    requires |body| > max && Deframe(f, body[..max], false).Some?
    ensures var one, two := [body], [body[..max], body[max..]];
      && Flatten(one) == body && Flatten(two) == body
      && ClientRun(f, decode, max, [], false, DataEvents(one) + ending)
          != ClientRun(f, decode, max, [], false, DataEvents(two) + ending)
  {
    var head, tail := body[..max], body[max..];
    var one, two := [body], [head, tail];
    FlattenOne(body);
    FlattenTwo(head, tail);
    assert head + tail == body;
    assert Deframe(f, [], false).None?;
    NothingInFront(body);
    NothingInFront(head);
    FeedChunk(f, decode, max, [], one, ending);
    FeedChunk(f, decode, max, [], two, ending);
    FrameFirst(f, decode, max, head, DataEvents(two[1..]) + ending);
  }

  lemma {:induction false} FrameFirst<T>(f: Framing, decode: Decoder<T>, max: nat, buf: Text, events: seq<Event>)
    requires Deframe(f, buf, false).Some?
    ensures ClientRun(f, decode, max, buf, false, events) != [Err(Oversized)]
  {
    var out: Result<T, ClientError> := Decoded(decode, Deframe(f, buf, false).value.item);
    assert out == ClientRun(f, decode, max, buf, false, events)[0];
  }

  /**
   A body gives the same outputs under every chunking exactly when it is within the limit
   or its first frame is not complete within the limit.
   */
  lemma {:induction false} ClientIndependentIff<T>(f: Framing, decode: Decoder<T>, body: Text, max: nat,
      ending: seq<Event>)
    requires Ending(ending)
    ensures ClientIndependent(f, decode, body, max, ending)
       <==> |body| <= max || Deframe(f, body[..max], false).None?
  {
    if |body| <= max {
      forall chunks: seq<Text> | Flatten(chunks) == body
        ensures ClientRun(f, decode, max, [], false, DataEvents(chunks) + ending)
             == ClientRun(f, decode, max, body, false, ending)
      {
        ShortBodyStaysWithin(f, max, [], chunks);
        FeedAllWithin(f, decode, max, [], chunks, ending);
        NothingInFront(body);
      }
    } else if Deframe(f, body[..max], false).None? {
      forall chunks: seq<Text> | Flatten(chunks) == body
        ensures ClientRun(f, decode, max, [], false, DataEvents(chunks) + ending) == [Err(Oversized)]
      {
        NothingInFront(body);
        AlwaysOversized(f, decode, max, [], chunks, ending);
      }
    } else {
      LongBodyTwoWays(f, decode, max, body, ending);
    }
  }

  // ----- the buffered counterpart

  /** Stops at the first error. */
  function Collapse<T>(outputs: seq<Result<T, ClientError>>): Result<seq<T>, ClientError> {
    if outputs == [] then Ok([])
    else
      match outputs[0]
      case Err(e) => Err(e)
      case Ok(v) => Prepend([v], Collapse(outputs[1..]))
  }

  /** The first error there is, or all the items when there is none. */
  lemma {:induction false} CollapseIs<T>(outputs: seq<Result<T, ClientError>>, k: nat)
    requires k <= |outputs| && forall i :: 0 <= i < k ==> outputs[i].Ok?
    ensures k < |outputs| && outputs[k].Err? ==> Collapse(outputs) == Err(outputs[k].error)
    ensures k == |outputs| ==>
      && Collapse(outputs).Ok? && |Collapse(outputs).value| == k
      && forall i :: 0 <= i < k ==> outputs[i] == Ok(Collapse(outputs).value[i])
  {
    if k > 0 {
      CollapseIs(outputs[1..], k - 1);
    }
  }

  /** What decoding the rest of a body yields once no more data can come. */
  function Outcome<T>(f: Framing, decode: Decoder<T>, buf: Text, eof: bool): Result<seq<T>, ClientError> {
    Collapse(ClientRun(f, decode, 0, buf, eof, []))
  }

  /** One drain loop: items are cut off until none is left, or one does not decode. */
  method DrainItems<T>(f: Framing, decode: Decoder<T>, buf: FrameBuffer, eof: bool, before: seq<T>)
    returns (r: Result<seq<T>, ClientError>)
    modifies buf
    ensures match r
      case Ok(items) =>
        && Deframe(f, buf.bytes, eof) == None
        && Prepend(before, Outcome(f, decode, old(buf.bytes), eof))
           == Prepend(items, Outcome(f, decode, buf.bytes, eof))
      case Err(e) => Outcome(f, decode, old(buf.bytes), eof) == Err(e)
  {
    var items := before;
    while true
      invariant Prepend(before, Outcome(f, decode, old(buf.bytes), eof))
             == Prepend(items, Outcome(f, decode, buf.bytes, eof))
      decreases |buf.bytes|
    {
      ghost var was := buf.bytes;
      var frame := buf.Take(f, eof);
      if frame.None? {
        return Ok(items);
      }
      AfterFirst(Decoded(decode, frame.value), ClientRun(f, decode, 0, buf.bytes, eof, []));
      match decode(frame.value)
      case Err(message) => return Err(BadItem(message));
      case Ok(v) =>
        PrependTwice(items, [v], Outcome(f, decode, buf.bytes, eof));
        items := items + [v];
    }
  }

  method DecodeStreamArm<T>(f: Framing, decode: Decoder<T>, body: Text, mediaOk: bool)
    returns (r: Result<seq<T>, ClientError>)
    ensures var items := Outcome(f, decode, body, false);
      r == if items.Err? || mediaOk then items else Err(BadMedia)
  {
    var buf := new FrameBuffer(body);
    var items := DrainItems(f, decode, buf, false, []);
    if items.Err? {
      return Err(items.error);
    }
    PrependNothing(Outcome(f, decode, body, false));
    var all := DrainItems(f, decode, buf, true, items.value);
    if all.Err? {
      return Err(all.error);
    }
    if buf.bytes != [] {
      return Err(Incomplete);
    }
    assert all.value + [] == all.value;
    r := if mediaOk then Ok(all.value) else Err(BadMedia);
  }

  /** With no more events, the size limit no longer plays a part. */
  lemma {:induction false} LimitIdle<T>(f: Framing, decode: Decoder<T>, max: nat, buf: Text, eof: bool)
    ensures ClientRun(f, decode, max, buf, eof, []) == ClientRun(f, decode, 0, buf, eof, [])
    decreases if eof then 0 else 1, |buf|
  {
    match Deframe(f, buf, eof)
    case Some(cut) => LimitIdle(f, decode, max, cut.rest, eof);
    case None =>
      if !eof {
        LimitIdle(f, decode, max, buf, true);
      }
  }

  /**
   The buffered decoder returns the values the incremental one yields under any chunking
   on which the waiting bytes stay within the limit, or the first error it yields: the same
   items and the same verdict on an incomplete trailing frame.
   */
  lemma {:induction false} BufferedAgreesWithIncremental<T>(f: Framing, decode: Decoder<T>, max: nat,
      chunks: seq<Text>)
    requires StaysWithin(f, max, [], chunks)
    ensures Outcome(f, decode, Flatten(chunks), false)
         == Collapse(ClientRun(f, decode, max, [], false, DataEvents(chunks)))
  {
    FeedAllWithin(f, decode, max, [], chunks, []);
    LimitIdle(f, decode, max, Flatten(chunks), false);
    assert DataEvents(chunks) + [] == DataEvents(chunks);
    assert [] + Flatten(chunks) == Flatten(chunks);
  }
}
