/** The one-shot request body: streaming until it is buffered or taken, and never both. */
module RequestBodies {
  import opened Basics
  import opened RouteResults

  /** One frame of an HTTP body; a body is the finite list of its frames. */
  datatype Frame = Data(bytes: Text) | Trailers | Broken(message: Text)
  type Body = seq<Frame>

  datatype BodySlot = Streaming(body: Option<Body>) | Buffered(bytes: Text) | Taken

  const NOT_BUFFERED := ServerError(500, BodyNotBuffered)
  const CONSUMED := ServerError(500, BodyConsumed)
  const ALREADY_BUFFERED := ServerError(500, BodyAlreadyBuffered)
  const UNREADABLE := ServerError(400, UnreadableBody)
  const TOO_LARGE := ServerError(413, Plain)

  // ----- reading the frames

  /** What a body stream yields: the data chunks, ended by the first transport error. */
  function Chunks(body: Body): seq<Result<Text, Text>> {
    if body == [] then []
    else
      match body[0]
      case Data(bytes) => [Ok(bytes)] + Chunks(body[1..])
      case Trailers => Chunks(body[1..])
      case Broken(message) => [Err(message)]
  }

  /** The position of the first broken frame; the number of frames when none is. */
  function BreaksAt(body: Body): (k: nat)
    ensures k <= |body| && forall j :: 0 <= j < k ==> !body[j].Broken?
    ensures k < |body| ==> body[k].Broken?
  {
    if body == [] || body[0].Broken? then 0 else 1 + BreaksAt(body[1..])
  }

  /** The data frames, in order. */
  function DataFrames(body: Body): seq<Text> {
    if body == [] then [] else (if body[0].Data? then [body[0].bytes] else []) + DataFrames(body[1..])
  }

  /** What the data frames hold, one after another. */
  function DataIn(body: Body): Text {
    Flatten(DataFrames(body))
  }

  lemma {:induction false} NextFrame(body: Body)
    requires body != [] && !body[0].Broken?
    ensures BreaksAt(body) == 1 + BreaksAt(body[1..])
    ensures var k := BreaksAt(body[1..]);
      DataFrames(body[..1 + k])
        == (if body[0].Data? then [body[0].bytes] else []) + DataFrames(body[1..][..k])
  {
    assert body[..1 + BreaksAt(body[1..])][1..] == body[1..][..BreaksAt(body[1..])];
  }

  /**
   A stream yields the data frames before the first broken one, each as one chunk, then that
   frame's very message as an error, and then nothing.
   */
  lemma {:induction false} ChunksOfFrames(body: Body)
    ensures var k := BreaksAt(body);
      var datas := DataFrames(body[..k]);
      && |Chunks(body)| == |datas| + (if k < |body| then 1 else 0)
      && (forall i :: 0 <= i < |datas| ==> Chunks(body)[i] == Ok(datas[i]))
      && (k < |body| ==> Chunks(body)[|datas|] == Err(body[k].message))
  {
    if body != [] && !body[0].Broken? {
      NextFrame(body);
      ChunksOfFrames(body[1..]);
    }
  }

  /** `frame` is the first that is not trailers. */
  predicate Leads(frames: Body, k: nat, frame: Frame) {
    k < |frames| && frames[k] == frame && forall j :: 0 <= j < k ==> frames[j].Trailers?
  }

  class BodyStream {
    var body: Option<Body>

    constructor (body: Body)
      ensures this.body == Some(body)
    {
      this.body := Some(body);
    }

    /** The frames not yet polled. */
    ghost function Frames(): Body
      reads this
    {
      body.GetOr([])
    }

    ghost function Rest(): seq<Result<Text, Text>>
      reads this
    {
      if body.None? then [] else Chunks(body.value)
    }

    method Next() returns (item: Option<Result<Text, Text>>)
      modifies this
      ensures match item
        case None => (forall f <- old(Frames()) :: f.Trailers?) && body == None
        case Some(Ok(bytes)) =>
          exists k: nat :: Leads(old(Frames()), k, Data(bytes)) && Frames() == old(Frames())[k + 1..]
        case Some(Err(message)) => (exists k: nat :: Leads(old(Frames()), k, Broken(message))) && body == None
      ensures match item
        case None => old(Rest()) == [] && Rest() == []
        case Some(i) => old(Rest()) == [i] + Rest()
      ensures Remaining() <= old(Remaining())
      ensures item.Some? ==> Remaining() < old(Remaining())
    {
      ghost var polled: nat := 0;
      while true
        invariant polled <= |old(Frames())| && Frames() == old(Frames())[polled..]
        invariant forall j :: 0 <= j < polled ==> old(Frames())[j].Trailers?
        invariant Rest() == old(Rest())
        invariant Remaining() <= old(Remaining())
        decreases Remaining()
      {
        if body.None? {
          return None;
        }
        if body.value == [] {
          body := None;
          return None;
        }
        var frame := body.value[0];
        assert Leads(old(Frames()), polled, frame);
        match frame
        case Data(bytes) =>
          body := Some(body.value[1..]);
          return Some(Ok(bytes));
        case Trailers =>
          body := Some(body.value[1..]);
          polled := polled + 1;
        case Broken(message) =>
          body := None;
          return Some(Err(message));
      }
    }

    function Remaining(): nat
      reads this
    {
      if body.None? then 0 else |body.value| + 1
    }
  }

  /** The buffered bytes so far plus the remaining chunks, or the first thing that goes wrong. */
  function Collect(acc: Text, chunks: seq<Result<Text, Text>>, maxBytes: nat): Result<Text, ServerError>
    decreases chunks
  {
    if chunks == [] then Ok(acc)
    else
      match chunks[0]
      case Err(_) => Err(UNREADABLE)
      case Ok(chunk) =>
        if |acc| + |chunk| > maxBytes then Err(TOO_LARGE)
        else Collect(acc + chunk, chunks[1..], maxBytes)
  }

  /** What a body is collected to: too large, unreadable, or all its data. */
  function Collected(body: Body, maxBytes: nat): Result<Text, ServerError> {
    var k := BreaksAt(body);
    if |DataIn(body[..k])| > maxBytes then Err(ServerError(413, Plain))
    else if k < |body| then Err(ServerError(400, UnreadableBody))
    else Ok(DataIn(body))
  }

  /**
   Collecting reads the frames: it gives all their data exactly when no frame is broken and the
   data fits the limit. Otherwise the body is unreadable when the data before the first broken
   frame fits, and too large when that does not.
   */
  lemma {:induction false} CollectReadsFrames(acc: Text, body: Body, maxBytes: nat)
    requires |acc| <= maxBytes
    ensures var k := BreaksAt(body);
      Collect(acc, Chunks(body), maxBytes) ==
        if |acc| + |DataIn(body[..k])| > maxBytes then Err(ServerError(413, Plain))
        else if k < |body| then Err(ServerError(400, UnreadableBody))
        else Ok(acc + DataIn(body))
    decreases body
  {
    if body == [] {
      assert acc + [] == acc;
    } else if !body[0].Broken? {
      NextFrame(body);
      var k := BreaksAt(body[1..]);
      assert body[1..][..|body| - 1] == body[1..] && body[..|body|] == body;
      if body[0].Data? {
        var bytes := body[0].bytes;
        AfterFirst(bytes, DataFrames(body[1..][..k]));
        AfterFirst<Result<Text, Text>>(Ok(bytes), Chunks(body[1..]));
        if |acc| + |bytes| <= maxBytes {
          CollectReadsFrames(acc + bytes, body[1..], maxBytes);
          Assoc(acc, bytes, DataIn(body[1..]));
        }
      } else {
        NothingInFront(DataFrames(body[1..][..k]));
        CollectReadsFrames(acc, body[1..], maxBytes);
      }
    }
  }

  lemma {:induction false} CollectsBody(body: Body, maxBytes: nat)
    ensures Collect([], Chunks(body), maxBytes) == Collected(body, maxBytes)
  {
    CollectReadsFrames([], body, maxBytes);
    NothingInFront(DataIn(body));
  }

  method CollectLimited(body: Body, maxBytes: nat) returns (r: Result<Text, ServerError>)
    ensures r == Collected(body, maxBytes)
  {
    var stream := new BodyStream(body);
    var out: Text := [];
    while true
      invariant Collect(out, stream.Rest(), maxBytes) == Collect([], Chunks(body), maxBytes)
      decreases stream.Remaining()
    {
      CollectsBody(body, maxBytes);
      ghost var before := stream.Rest();
      var item := stream.Next();
      match item
      case None => return Ok(out);
      case Some(Err(_)) => return Err(UNREADABLE);
      case Some(Ok(chunk)) =>
        assert before[1..] == stream.Rest();
        if |out| + |chunk| > maxBytes {
          return Err(TOO_LARGE);
        }
        out := out + chunk;
    }
  }

  // ----- the slot

  /** Result and next slot of buffering. */
  function BufferSlot(slot: BodySlot, maxBytes: nat): (Result<Text, ServerError>, BodySlot) {
    match slot
    case Streaming(None) => (Err(NOT_BUFFERED), Taken)
    case Streaming(Some(body)) =>
      (match Collected(body, maxBytes)
       case Ok(bytes) => (Ok(bytes), Buffered(bytes))
       case Err(e) => (Err(e), Taken))
    case Buffered(bytes) => (Ok(bytes), slot)
    case Taken => (Err(CONSUMED), Taken)
  }

  function BufferedBytes(slot: BodySlot): Result<Text, ServerError> {
    match slot
    case Buffered(bytes) => Ok(bytes)
    case _ => Err(NOT_BUFFERED)
  }

  function TakeSlot(slot: BodySlot): (Result<Body, ServerError>, BodySlot) {
    match slot
    case Streaming(Some(body)) => (Ok(body), Taken)
    case Streaming(None) => (Err(CONSUMED), Taken)
    case Taken => (Err(CONSUMED), Taken)
    case Buffered(_) => (Err(ALREADY_BUFFERED), slot)
  }

  class RequestBody {
    var slot: BodySlot
    const maxBufferedBytes: nat

    constructor (body: Body, maxBufferedBytes: nat)
      ensures slot == Streaming(Some(body)) && this.maxBufferedBytes == maxBufferedBytes
    {
      slot := Streaming(Some(body));
      this.maxBufferedBytes := maxBufferedBytes;
    }

    method Buffer() returns (r: Result<Text, ServerError>)
      modifies this
      ensures (r, slot) == BufferSlot(old(slot), maxBufferedBytes)
    {
      var taken := TakeForBuffering();
      match taken
      case Err(e) => return Err(e);
      case Ok(None) => r := GetBuffered();
      case Ok(Some(body)) =>
        r := CollectLimited(body, maxBufferedBytes);
        if r.Ok? {
          slot := Buffered(r.value);
        }
    }

    method GetBuffered() returns (r: Result<Text, ServerError>)
      ensures r == BufferedBytes(slot)
    {
      match slot
      case Buffered(bytes) => r := Ok(bytes);
      case _ => r := Err(NOT_BUFFERED);
    }

    method TakeStream() returns (r: Result<Body, ServerError>)
      modifies this
      ensures (r, slot) == TakeSlot(old(slot))
    {
      var was := slot;
      slot := Taken;
      match was
      case Streaming(Some(body)) => r := Ok(body);
      case Streaming(None) => r := Err(CONSUMED);
      case Taken => r := Err(CONSUMED);
      case Buffered(bytes) =>
        slot := Buffered(bytes);
        r := Err(ALREADY_BUFFERED);
    }

    method TakeForBuffering() returns (r: Result<Option<Body>, ServerError>)
      modifies this
      ensures match old(slot)
        case Streaming(body) => r == Ok(body) && slot == Taken
        case Buffered(_) => r == Ok(None) && slot == old(slot)
        case Taken => r == Err(CONSUMED) && slot == Taken
    {
      var was := slot;
      slot := Taken;
      match was
      case Streaming(body) => r := Ok(body);
      case Buffered(bytes) =>
        slot := Buffered(bytes);
        r := Ok(None);
      case Taken => r := Err(CONSUMED);
    }
  }

  // ----- every use of one body

  datatype BodyOp = BufferOp | ReadOp | TakeOp

  /** What one use hands out: bytes, the live stream, or an error. */
  datatype Outcome = Bytes(bytes: Text) | Stream(body: Body) | Refused(error: ServerError)

  function Use(op: BodyOp, slot: BodySlot, maxBytes: nat): (Outcome, BodySlot) {
    match op
    case BufferOp =>
      var (r, next) := BufferSlot(slot, maxBytes);
      (if r.Ok? then Bytes(r.value) else Refused(r.error), next)
    case ReadOp =>
      var r := BufferedBytes(slot);
      (if r.Ok? then Bytes(r.value) else Refused(r.error), slot)
    case TakeOp =>
      var (r, next) := TakeSlot(slot);
      (if r.Ok? then Stream(r.value) else Refused(r.error), next)
  }

  function UseAll(ops: seq<BodyOp>, slot: BodySlot, maxBytes: nat): (seq<Outcome>, BodySlot) {
    if ops == [] then ([], slot)
    else
      var (outcome, next) := Use(ops[0], slot, maxBytes);
      var (outcomes, last) := UseAll(ops[1..], next, maxBytes);
      ([outcome] + outcomes, last)
  }

  /** The live stream is handed out at most once, and never together with buffered bytes. */
  ghost predicate OneShot(outcomes: seq<Outcome>) {
    forall i, j :: 0 <= i < |outcomes| && 0 <= j < |outcomes| && i != j && outcomes[i].Stream? ==>
      outcomes[j].Refused?
  }

  /** Whoever reads the buffered bytes reads the same bytes: all of the body. */
  ghost predicate AllRead(outcomes: seq<Outcome>, bytes: Text) {
    forall i :: 0 <= i < |outcomes| && outcomes[i].Bytes? ==> outcomes[i].bytes == bytes
  }

  lemma {:induction false} TakenRefusesAll(ops: seq<BodyOp>, maxBytes: nat)
    ensures var (outcomes, last) := UseAll(ops, Taken, maxBytes);
      && |outcomes| == |ops| && last == Taken
      && forall i :: 0 <= i < |ops| ==>
          outcomes[i] == Refused(ServerError(500, if ops[i] == ReadOp then BodyNotBuffered else BodyConsumed))
  {
    if ops != [] {
      TakenRefusesAll(ops[1..], maxBytes);
    }
  }

  lemma {:induction false} BufferedStays(ops: seq<BodyOp>, bytes: Text, maxBytes: nat)
    ensures var (outcomes, last) := UseAll(ops, Buffered(bytes), maxBytes);
      && |outcomes| == |ops| && last == Buffered(bytes)
      && forall i :: 0 <= i < |ops| ==>
          outcomes[i] == if ops[i] == TakeOp then Refused(ServerError(500, BodyAlreadyBuffered)) else Bytes(bytes)
  {
    if ops != [] {
      BufferedStays(ops[1..], bytes, maxBytes);
    }
  }

  /** The first use that buffers or takes; the number of uses when none does. */
  function FirstClaim(ops: seq<BodyOp>): (k: nat)
    ensures k <= |ops| && forall j :: 0 <= j < k ==> ops[j] == ReadOp
    ensures k < |ops| ==> ops[k] != ReadOp
  {
    if ops == [] || ops[0] != ReadOp then 0 else 1 + FirstClaim(ops[1..])
  }

  /** What a use of a fresh body hands out, by the first use that claims the body. */
  function Due(ops: seq<BodyOp>, i: nat, body: Body, maxBytes: nat): Outcome
    requires i < |ops|
  {
    var k := FirstClaim(ops);
    if i < k then Refused(ServerError(500, BodyNotBuffered))
    else if ops[k] == BufferOp && Collected(body, maxBytes).Ok? then
      if ops[i] == TakeOp then Refused(ServerError(500, BodyAlreadyBuffered)) else Bytes(DataIn(body))
    else if i == k then
      if ops[k] == TakeOp then Stream(body) else Refused(Collected(body, maxBytes).error)
    else Refused(ServerError(500, if ops[i] == ReadOp then BodyNotBuffered else BodyConsumed))
  }

  /**
   Every use of a fresh body, over every sequence of uses. The first use that buffers or takes
   it decides: a stream is the body itself and is handed out that once; buffered bytes are all
   the data of its frames, and stay; a body that could not be buffered is gone.
   */
  lemma {:induction false} UsesOfFreshBody(ops: seq<BodyOp>, body: Body, maxBytes: nat)
    ensures var outcomes := UseAll(ops, Streaming(Some(body)), maxBytes).0;
      |outcomes| == |ops| && forall i :: 0 <= i < |ops| ==> outcomes[i] == Due(ops, i, body, maxBytes)
  {
    if ops != [] {
      var slot := Streaming(Some(body));
      var (outcome, next) := Use(ops[0], slot, maxBytes);
      var rest := UseAll(ops[1..], next, maxBytes).0;
      assert UseAll(ops, slot, maxBytes).0 == [outcome] + rest;
      match ops[0]
      case ReadOp =>
        UsesOfFreshBody(ops[1..], body, maxBytes);
        assert forall i :: 0 < i < |ops| ==> Due(ops, i, body, maxBytes) == Due(ops[1..], i - 1, body, maxBytes);
      case TakeOp => TakenRefusesAll(ops[1..], maxBytes);
      case BufferOp =>
        TakenRefusesAll(ops[1..], maxBytes);
        BufferedStays(ops[1..], DataIn(body), maxBytes);
    }
  }

  /** So the stream is handed out at most once and never beside bytes, and bytes are all the data there is. */
  lemma {:induction false} BodyIsOneShot(ops: seq<BodyOp>, body: Body, maxBytes: nat)
    ensures OneShot(UseAll(ops, Streaming(Some(body)), maxBytes).0)
    ensures AllRead(UseAll(ops, Streaming(Some(body)), maxBytes).0, DataIn(body))
    ensures forall outcome <- UseAll(ops, Streaming(Some(body)), maxBytes).0 ::
      && (outcome.Bytes? ==> (forall f <- body :: !f.Broken?) && |DataIn(body)| <= maxBytes)
      && (outcome.Stream? ==> outcome.body == body)
  {
    UsesOfFreshBody(ops, body, maxBytes);
    assert body[..|body|] == body;
  }
}
