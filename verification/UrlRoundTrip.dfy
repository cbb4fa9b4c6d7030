/**
 One description, two printers and one parser: the arguments a handler receives when the
 server routes and extracts a URL that the client or the link builder printed.
 */
module UrlRoundTrip {
  import opened Basics
  import opened RouteResults
  import opened RequestBodies
  import opened Negotiation
  import opened QueryCodec
  import opened Targets
  import opened Chains
  import opened UrlBuilders
  import opened UrlPairs
  import opened UrlPaths
  import opened Endpoints
  import Routing

  // ----- what the handler receives

  /** The arguments extracted once the checks have passed, if any, and the body slot. */
  function Extracts(chain: Chain, req: Request, maxBytes: nat, st: State, slot: BodySlot)
    : (Option<seq<Arg>>, BodySlot) {
    var (buffered, slot1) :=
      if BodyModeOf(chain) == BufferedBody then BufferSlot(slot, maxBytes) else (Ok([]), slot);
    if buffered.Err? then (None, slot1)
    else
      var x := Extract(chain, req, st, slot1);
      (if x.result.Route? then Some(x.result.value) else None, x.slot)
  }

  /** The arguments the server hands to the handler, if the request gets that far, and the body slot. */
  function Received(chain: Chain, context: Context, req: Request, maxBytes: nat, call: Routing.Call, slot: BodySlot)
    : (Option<seq<Arg>>, BodySlot) {
    if !Gate(chain, req, call).Route? then (None, slot)
    else
      var (checked, st) := PreBody(chain, req, StartState(context, call));
      if !checked.Route? then (None, slot) else Extracts(chain, req, maxBytes, st, slot)
  }

  /** An endpoint answers exactly when its handler receives arguments, and with the handler's response to them. */
  predicate Answers(chain: Chain, handler: Handler, req: Request, r: (RouteResult<Response>, BodySlot),
                    received: (Option<seq<Arg>>, BodySlot)) {
    && r.1 == received.1
    && (r.0.Route? <==> received.0.Some?)
    && (received.0.Some? ==>
      AcceptOk(chain, req.accept) && r.0 == Route(Respond(chain, handler, req, received.0.value)))
  }

  lemma {:induction false} ExtractionAnswers(chain: Chain, handler: Handler, req: Request, maxBytes: nat, st: State,
        slot: BodySlot)
    requires AcceptOk(chain, req.accept)
    ensures Answers(chain, handler, req, AfterChecks(chain, handler, req, maxBytes, st, slot),
                    Extracts(chain, req, maxBytes, st, slot))
  {
    var buffered := if BodyModeOf(chain) == BufferedBody then BufferSlot(slot, maxBytes) else (Ok([]), slot);
    if buffered.0.Ok? {
      var x := Extract(chain, req, st, buffered.1);
    }
  }

  lemma {:induction false} GateAccepts(chain: Chain, req: Request, call: Routing.Call)
    requires Gate(chain, req, call).Route?
    ensures AcceptOk(chain, req.accept)
  {}

  lemma {:induction false} EndpointAnswers(chain: Chain, handler: Handler, context: Context, req: Request,
        maxBytes: nat, call: Routing.Call, slot: BodySlot)
    ensures Answers(chain, handler, req, EndpointCall(chain, handler, context, req, maxBytes, call, slot),
                    Received(chain, context, req, maxBytes, call, slot))
  {
    if Gate(chain, req, call).Route? {
      GateAccepts(chain, req, call);
      var (checked, st) := PreBody(chain, req, StartState(context, call));
      if checked.Route? {
        ExtractionAnswers(chain, handler, req, maxBytes, st, slot);
      }
    }
  }

  // ----- when one argument comes back

  /** The codec reads its own output back. */
  predicate PieceReturns(codec: Codec, v: Value) {
    codec.fromPiece(codec.toPiece(v)) == Ok(v)
  }

  predicate QueryReturns(codec: Codec, v: Value) {
    codec.fromQuery(codec.toQuery(v)) == Ok(v)
  }

  /**
   What an argument needs in order to come back. A lenient error in a capture is printed as
   an empty piece and so must be the error an empty piece gives; in a query parameter it is
   not printed at all and is lost. A flag without a name leaves no trace.
   */
  predicate OwnReturns(chain: Chain, arg: Arg) {
    match chain
    case Capture(_, codec, _, _) =>
      if IntoValue(arg).Some? then PieceReturns(codec, IntoValue(arg).value)
      else arg == Lenient(codec.fromPiece([]))
    case CaptureAll(_, codec, _) => forall v <- ValuesOf(arg) :: PieceReturns(codec, v)
    case QueryParam(_, codec, _, _, _) =>
      if IntoValue(arg).Some? then QueryReturns(codec, IntoValue(arg).value)
      else arg == Optional(None) || arg == OptionalLenient(None)
    case QueryParams(_, codec, _) => forall v <- ValuesOf(arg) :: QueryReturns(codec, v)
    case QueryFlag(name, _) => arg == Flag(true) ==> name != []
    case _ => true
  }

  predicate Returns(chain: Chain, args: seq<Arg>) {
    chain.Verb? || (OwnReturns(chain, Head(args)) && Returns(chain.next, Tail(chain, args)))
  }

  /** The outcome of decoding that a query argument stands for, absence included. */
  function ParsedOf(arg: Arg): Option<Parsed> {
    match arg
    case Strict(v) => Some(Ok(v))
    case Lenient(parsed) => Some(parsed)
    case Optional(Some(v)) => Some(Ok(v))
    case OptionalLenient(parsed) => parsed
    case _ => None
  }

  /**
   What an argument needs in order to come back out of a printed query, whatever else the
   query holds. For a parameter, the first pair under its name decodes to it, or there is none
   with a value; for a list, no other pair is valued under its names; for a flag, the first pair
   under its name is that of the flag or reads like it.
   */
  predicate OwnFound(query: seq<Pair>, chain: Chain, arg: Arg) {
    match chain
    case QueryParam(name, codec, _, _, _) => QueryValue(query, name, codec) == ParsedOf(arg)
    case QueryParams(name, codec, _) =>
      ValuedCount(QueryName(name, true), query) == |ValuesOf(arg)|
      && forall v <- ValuesOf(arg) :: QueryReturns(codec, v)
    case QueryFlag(name, _) => FlagSet(query, name) <==> arg == Flag(true)
    case _ => OwnReturns(chain, arg)
  }

  predicate Found(query: seq<Pair>, chain: Chain, args: seq<Arg>) {
    chain.Verb? || (OwnFound(query, chain, Head(args)) && Found(query, chain.next, Tail(chain, args)))
  }

  /** The capture-all does not begin with an empty piece. */
  predicate RestKept(chain: Chain, args: seq<Arg>) {
    var rest := RestPieces(chain, args);
    rest.Some? && rest.value != [] ==> rest.value[0] != []
  }

  /** The path is read as it was meant. */
  predicate PathReturns(chain: Chain, args: seq<Arg>) {
    Reaches(chain, args) && RestKept(chain, args)
  }

  // ----- reading one argument

  /** The argument one combinator extracts, if extraction goes on. */
  function ReadOwn(chain: Chain, req: Request, st: State): Option<Arg>
    requires TakesArg(chain)
  {
    match chain
    case Capture(_, codec, strict, _) =>
      if st.captures == [] then None
      else OkOf(BuildCapture(strict, codec.fromPiece(st.captures[0])))
    case CaptureAll(_, codec, _) =>
      (match ParseAll(codec, st.captureAll.GetOr([]))
       case Ok(values) => Some(Many(values))
       case Err(_) => None)
    case QueryParam(name, codec, required, strict, _) =>
      OkOf(BuildArg(required, strict, QueryValue(req.query, name, codec)))
    case QueryParams(name, codec, _) =>
      (match CollectParams(req.query, name, codec)
       case Ok(values) => Some(Many(values))
       case Err(_) => None)
    case QueryFlag(name, _) => Some(Flag(FlagSet(req.query, name)))
  }

  function OkOf<T, E>(r: Result<T, E>): Option<T> {
    match r
    case Ok(v) => Some(v)
    case Err(_) => None
  }

  function AfterOwn(chain: Chain, st: State): State {
    if chain.Capture? && st.captures != [] then st.(captures := st.captures[1..])
    else if chain.CaptureAll? then st.(captureAll := None)
    else st
  }

  lemma {:induction false} ExtractStep(chain: Chain, req: Request, st: State, slot: BodySlot)
    requires TakesArg(chain)
    ensures var own := ReadOwn(chain, req, st);
      if own.Some?
      then Extract(chain, req, st, slot) == Cons(own.value, Extract(chain.next, req, AfterOwn(chain, st), slot))
      else !Extract(chain, req, st, slot).result.Route? && Extract(chain, req, st, slot).slot == slot
  {
    match chain
    case Capture(_, codec, strict, _) =>
    case CaptureAll(_, codec, _) =>
    case QueryParam(name, codec, required, strict, _) =>
      var built := BuildArg(required, strict, QueryValue(req.query, name, codec));
      assert built.Err? ==> built.error == Missing || built.error == Unparsable;
    case QueryParams(name, codec, _) =>
    case QueryFlag(name, _) =>
  }

  lemma {:induction false} ConsIs(arg: Arg, rest: Extracted, args: seq<Arg>)
    requires args != []
    ensures Cons(arg, rest).result == Route(args) <==> arg == args[0] && rest.result == Route(args[1..])
    ensures Cons(arg, rest).slot == rest.slot
  {
    if rest.result.Route? {
      AfterFirst(arg, rest.result.value);
      FirstAndRest(args);
    }
  }

  // ----- one printed argument, read

  lemma {:induction false} PiecesReturn(codec: Codec, values: seq<Value>)
    ensures ParseAll(codec, PiecesOf(codec, values)) == Ok(values) <==> forall v <- values :: PieceReturns(codec, v)
  {
    if values != [] {
      PiecesReturn(codec, values[1..]);
      var first := codec.fromPiece(codec.toPiece(values[0]));
      AfterFirst(codec.toPiece(values[0]), PiecesOf(codec, values[1..]));
      assert PieceReturns(codec, values[0]) <==> first == Ok(values[0]);
      FirstAndRest(values);
      if first.Ok? && ParseAll(codec, PiecesOf(codec, values[1..])).Ok? {
        AfterFirst(first.value, ParseAll(codec, PiecesOf(codec, values[1..])).value);
      }
    }
  }

  lemma {:induction false} ParsedLength(codec: Codec, segments: seq<Text>)
    ensures ParseAll(codec, segments).Ok? ==> |ParseAll(codec, segments).value| == |segments|
  {
    if segments != [] {
      ParsedLength(codec, segments[1..]);
    }
  }

  lemma {:induction false} RestReturns(codec: Codec, values: seq<Value>)
    ensures var pieces := PiecesOf(codec, values);
      ParseAll(codec, Routing.RestSegments(pieces)) == Ok(values)
      <==> (pieces != [] ==> pieces[0] != []) && (forall v <- values :: PieceReturns(codec, v))
  {
    PiecesReturn(codec, values);
    ParsedLength(codec, Routing.RestSegments(PiecesOf(codec, values)));
  }

  lemma {:induction false} ListReturns(name: Text, codec: Codec, values: seq<Value>, plain: bool)
    ensures CollectParams(SentPairs(ArrayElems(name, codec, values), plain), name, codec) == Ok(values)
      <==> forall v <- values :: QueryReturns(codec, v)
  {
    if values != [] {
      ListReturns(name, codec, values[1..], plain);
      var first := codec.fromQuery(codec.toQuery(values[0]));
      var more := ArrayElems(name, codec, values[1..]);
      AfterFirst(ArrayElem(name, codec.toQuery(values[0])), more);
      AfterFirst(SentPair(ArrayElem(name, codec.toQuery(values[0])), plain), SentPairs(more, plain));
      assert QueryReturns(codec, values[0]) <==> first == Ok(values[0]);
      FirstAndRest(values);
      var rest := CollectParams(SentPairs(more, plain), name, codec);
      if first.Ok? && rest.Ok? {
        AfterFirst(first.value, rest.value);
      }
    }
  }

  lemma {:induction false} CaptureReturns(chain: Chain, arg: Arg)
    requires chain.Capture? && HeadTyped(chain, arg)
    ensures BuildCapture(chain.strict, chain.codec.fromPiece(CapturePiece(chain.codec, arg))) == Ok(arg)
      <==> OwnReturns(chain, arg)
  {}

  lemma {:induction false} ArgBuilt(chain: Chain, arg: Arg, parsed: Option<Parsed>)
    requires chain.QueryParam? && HeadTyped(chain, arg)
    ensures BuildArg(chain.required, chain.strict, parsed) == Ok(arg) <==> parsed == ParsedOf(arg)
  {}

  lemma {:induction false} ParamReturns(chain: Chain, arg: Arg, plain: bool)
    requires chain.QueryParam? && HeadTyped(chain, arg)
    ensures QueryValue(SentPairs(OwnParams(chain, arg), plain), chain.name, chain.codec) == ParsedOf(arg)
      <==> OwnReturns(chain, arg)
  {
    if IntoValue(arg).Some? {
      var text := chain.codec.toQuery(IntoValue(arg).value);
      assert [Single(chain.name, text)][1..] == [];
      assert SentPairs(OwnParams(chain, arg), plain) == [Pair(chain.name, Some(text))];
      assert QueryReturns(chain.codec, IntoValue(arg).value)
        <==> chain.codec.fromQuery(text) == Ok(IntoValue(arg).value);
    }
  }

  lemma {:induction false} FlagReturns(chain: Chain, arg: Arg, plain: bool)
    requires chain.QueryFlag? && HeadTyped(chain, arg)
    ensures Flag(FlagSet(SentPairs(OwnParams(chain, arg), plain), chain.name)) == arg <==> OwnReturns(chain, arg)
  {
    if arg == Flag(true) {
      assert [BareKey(chain.name)][1..] == [];
    }
  }

  /** The state holds what is left of the printed path, the query what was printed before and for the chain. */
  predicate Printed(before: seq<Pair>, chain: Chain, args: seq<Arg>, req: Request, st: State, plain: bool) {
    && req.query == before + SentPairs(QueryParamsOf(chain, args), plain)
    && st.captures == CapturePieces(chain, args)
    && (RestPieces(chain, args).Some? ==> st.captureAll == RestSeen(RestPieces(chain, args)))
  }

  lemma {:induction false} ListReads(before: seq<Pair>, chain: Chain, args: seq<Arg>, query: seq<Pair>, plain: bool)
    requires chain.QueryParams? && args != [] && args[0].Many?
    requires query == before + SentPairs(QueryParamsOf(chain, args), plain)
    ensures CollectParams(query, chain.name, chain.codec) == Ok(args[0].values) <==> OwnFound(query, chain, args[0])
  {
    var own, rest := OwnParams(chain, args[0]), QueryParamsOf(chain.next, Tail(chain, args));
    SentPairsAppend(own, rest, plain);
    OwnValued(chain.name, chain.codec, args[0].values, plain);
    CollectAmong(before, SentPairs(own, plain), SentPairs(rest, plain), chain.name, chain.codec, args[0].values);
    ListReturns(chain.name, chain.codec, args[0].values, plain);
  }

  lemma {:induction false} OwnReads(before: seq<Pair>, chain: Chain, args: seq<Arg>, req: Request, st: State,
      plain: bool)
    requires TakesArg(chain) && args != [] && HeadTyped(chain, args[0]) && CaptureAllLast(chain)
    requires Printed(before, chain, args, req, st, plain)
    ensures ReadOwn(chain, req, st) == Some(args[0])
      <==> OwnFound(req.query, chain, args[0]) && (chain.CaptureAll? ==> RestKept(chain, args))
  {
    var arg := args[0];
    match chain
    case Capture(_, codec, strict, next) =>
      AfterFirst(CapturePiece(codec, arg), CapturePieces(next, Tail(chain, args)));
      CaptureReturns(chain, arg);
    case CaptureAll(_, codec, _) =>
      RestReturns(codec, arg.values);
    case QueryParam(name, codec, required, strict, _) =>
      ArgBuilt(chain, arg, QueryValue(req.query, name, codec));
    case QueryParams(name, codec, _) =>
      ListReads(before, chain, args, req.query, plain);
    case QueryFlag(name, _) =>
  }

  // ----- the whole argument list

  lemma {:induction false} NoPathIsLast(chain: Chain, args: seq<Arg>)
    requires NoPath(chain)
    ensures CaptureAllLast(chain)
  {
    if !chain.Verb? {
      NoPathIsLast(chain.next, Tail(chain, args));
    }
  }

  lemma {:induction false} StepPrinted(before: seq<Pair>, chain: Chain, args: seq<Arg>, req: Request, st: State,
      plain: bool)
    requires TakesArg(chain) && args != [] && CaptureAllLast(chain)
    requires Printed(before, chain, args, req, st, plain)
    ensures CaptureAllLast(chain.next)
    ensures var own := SentPairs(OwnParams(chain, args[0]), plain);
      Printed(before + own, chain.next, args[1..], req, AfterOwn(chain, st), plain)
    ensures !chain.CaptureAll? ==> (RestKept(chain, args) <==> RestKept(chain.next, args[1..]))
    ensures chain.CaptureAll? ==> RestKept(chain.next, args[1..])
  {
    var own, rest := OwnParams(chain, args[0]), QueryParamsOf(chain.next, args[1..]);
    SentPairsAppend(own, rest, plain);
    Assoc(before, SentPairs(own, plain), SentPairs(rest, plain));
    if chain.CaptureAll? {
      NoPathIsLast(chain.next, args[1..]);
      NoPathNoPieces(chain.next, args[1..]);
      RestStep(chain, args);
    } else if chain.Capture? {
      AfterFirst(CapturePiece(chain.codec, args[0]), CapturePieces(chain.next, args[1..]));
    } else {
      SkippedPieces(chain, args);
    }
  }

  /** Extraction gives the arguments back exactly when each of them is found. */
  predicate GivesBack(query: seq<Pair>, chain: Chain, args: seq<Arg>, x: Extracted, slot: BodySlot) {
    (x.result == Route(args) <==> Found(query, chain, args) && RestKept(chain, args)) && x.slot == slot
  }

  lemma {:induction false} StepGivesBack(before: seq<Pair>, chain: Chain, args: seq<Arg>, req: Request, st: State,
      slot: BodySlot, plain: bool)
    requires TakesArg(chain) && args != [] && HeadTyped(chain, args[0]) && CaptureAllLast(chain)
    requires Printed(before, chain, args, req, st, plain)
    requires GivesBack(req.query, chain.next, args[1..], Extract(chain.next, req, AfterOwn(chain, st), slot), slot)
    ensures GivesBack(req.query, chain, args, Extract(chain, req, st, slot), slot)
  {
    StepPrinted(before, chain, args, req, st, plain);
    OwnReads(before, chain, args, req, st, plain);
    ExtractStep(chain, req, st, slot);
    var own := ReadOwn(chain, req, st);
    if own.Some? {
      ConsIs(own.value, Extract(chain.next, req, AfterOwn(chain, st), slot), args);
    }
  }

  lemma {:induction false} ExtractSent(before: seq<Pair>, chain: Chain, args: seq<Arg>, req: Request, st: State,
      slot: BodySlot, plain: bool)
    requires UrlChain(chain) && Typed(chain, args) && CaptureAllLast(chain)
    requires Printed(before, chain, args, req, st, plain)
    ensures GivesBack(req.query, chain, args, Extract(chain, req, st, slot), slot)
    decreases chain
  {
    if chain.Verb? {
    } else if TakesArg(chain) {
      StepPrinted(before, chain, args, req, st, plain);
      var own := SentPairs(OwnParams(chain, args[0]), plain);
      ExtractSent(before + own, chain.next, args[1..], req, AfterOwn(chain, st), slot, plain);
      StepGivesBack(before, chain, args, req, st, slot, plain);
    } else {
      SkipPrinted(before, chain, args, req, st, plain);
      ExtractSent(before, chain.next, args, req, st, slot, plain);
    }
  }

  lemma {:induction false} SkipPrinted(before: seq<Pair>, chain: Chain, args: seq<Arg>, req: Request, st: State,
      plain: bool)
    requires (chain.Path? || chain.Meta?) && CaptureAllLast(chain)
    requires Printed(before, chain, args, req, st, plain)
    ensures CaptureAllLast(chain.next)
    ensures Printed(before, chain.next, args, req, st, plain)
    ensures RestKept(chain, args) <==> RestKept(chain.next, args)
  {
    assert OwnParams(chain, Head(args)) == [];
    NothingInFront(CapturePieces(chain.next, args));
    NothingInFront(QueryParamsOf(chain.next, args));
    assert RestPieces(chain, args) == RestPieces(chain.next, args);
  }

  // ----- the phases before extraction

  lemma {:induction false} UrlPhases(chain: Chain, req: Request, st: State)
    requires UrlChain(chain)
    ensures HostCheck(chain, req) == Route(())
    ensures ContentTypeOk(chain, req.contentType)
    ensures PreBody(chain, req, st) == (Route(()), st)
    ensures BodyModeOf(chain) == NoBody
  {
    if !chain.Verb? {
      UrlPhases(chain.next, req, st);
    }
  }

  lemma {:induction false} ValidateSent(query: seq<Pair>, chain: Chain, args: seq<Arg>, captures: seq<Text>, idx: nat,
        captureAll: Option<seq<Text>>)
    requires UrlChain(chain) && Typed(chain, args) && CaptureAllLast(chain)
    requires Found(query, chain, args) && RestKept(chain, args)
    requires idx <= |captures| && captures[idx..] == CapturePieces(chain, args)
    requires RestPieces(chain, args).Some? ==> captureAll == RestSeen(RestPieces(chain, args))
    ensures Validate(chain, captures, idx, captureAll) == Route(())
    decreases chain
  {
    if chain.Verb? {
    } else if chain.Capture? {
      var piece, more := CapturePiece(chain.codec, args[0]), CapturePieces(chain.next, args[1..]);
      AfterFirst(piece, more);
      assert captures[idx] == captures[idx..][0] && captures[idx + 1..] == captures[idx..][1..];
      CaptureReturns(chain, args[0]);
      ValidateSent(query, chain.next, args[1..], captures, idx + 1, captureAll);
    } else if chain.CaptureAll? {
      RestStep(chain, args);
      NoPathIsLast(chain.next, args[1..]);
      NoPathNoPieces(chain.next, args[1..]);
      RestReturns(chain.codec, args[0].values);
      ValidateSent(query, chain.next, args[1..], captures, idx, captureAll);
    } else {
      NothingInFront(CapturePieces(chain.next, Tail(chain, args)));
      ValidateSent(query, chain.next, Tail(chain, args), captures, idx, captureAll);
    }
  }

  // ----- printed targets

  function ClientTarget(chain: Chain, args: seq<Arg>): Text {
    TargetOf(EncodeAll(PathPieces(chain, args)), RenderEach(PlainPairs(QueryParamsOf(chain, args))))
  }

  function LinkTarget(chain: Chain, args: seq<Arg>, plain: bool): Text {
    TargetOf(EncodeAll(PathPieces(chain, args)), RenderParams(QueryParamsOf(chain, args), plain))
  }

  method PrintClientTarget(chain: Chain, args: seq<Arg>) returns (target: Text)
    requires UrlChain(chain) && Typed(chain, args)
    ensures target == ClientTarget(chain, args)
  {
    var request := new ClientRequest();
    request.BuildRequest(chain, args);
    NothingInFront(EncodeAll(PathPieces(chain, args)));
    NothingInFront(PlainPairs(QueryParamsOf(chain, args)));
    target := request.Target();
  }

  method PrintLink(chain: Chain, args: seq<Arg>, plain: bool) returns (target: Text)
    requires LinkChain(chain) && Typed(chain, args)
    ensures target == LinkTarget(chain, args, plain)
  {
    var link := new Link();
    link.AddToLink(chain, args);
    NothingInFront(EncodeAll(PathPieces(chain, args)));
    NothingInFront(QueryParamsOf(chain, args));
    target := link.ToUri(plain);
  }

  lemma {:induction false} ClientTargetParses(chain: Chain, args: seq<Arg>)
    ensures var target := ClientTarget(chain, args);
      && PathSegments(PathOf(target)) == SegmentsAsSent(PathPieces(chain, args))
      && ParseQuery(QueryOf(target)) == SentPairs(QueryParamsOf(chain, args), true)
  {
    ClientPairsParse(QueryParamsOf(chain, args));
    ParseRenderedEach(PlainPairs(QueryParamsOf(chain, args)));
    TargetComesBack(PathPieces(chain, args), RenderEach(PlainPairs(QueryParamsOf(chain, args))));
  }

  lemma {:induction false} LinkTargetParses(chain: Chain, args: seq<Arg>, plain: bool)
    ensures var target := LinkTarget(chain, args, plain);
      && PathSegments(PathOf(target)) == SegmentsAsSent(PathPieces(chain, args))
      && ParseQuery(QueryOf(target)) == SentPairs(QueryParamsOf(chain, args), plain)
  {
    LinkParamsParse(QueryParamsOf(chain, args), plain);
    TargetComesBack(PathPieces(chain, args), RenderParams(QueryParamsOf(chain, args), plain));
  }

  // ----- the server's side of a target

  /** The request as the server sees it when it comes with this target. */
  function WithTarget(req: Request, target: Text): Request {
    req.(rawQuery := QueryOf(target), query := ParseQuery(QueryOf(target)))
  }

  /** What the handler of a single-endpoint server receives from a request for this target. */
  function ReceivedAt(chain: Chain, context: Context, req: Request, maxBytes: nat, target: Text, slot: BodySlot)
    : (Option<seq<Arg>>, BodySlot) {
    match MatchPath(chain, PathSegments(PathOf(target)), [], None)
    case None => (None, slot)
    case Some(call) => Received(chain, context, WithTarget(req, target), maxBytes, call, slot)
  }

  /** A single-endpoint server answers exactly when its handler receives arguments, with the handler's response. */
  lemma {:induction false} ServerAnswers(chain: Chain, handler: Handler, context: Context, req: Request,
        maxBytes: nat, target: Text, slot: BodySlot)
    ensures Answers(chain, handler, WithTarget(req, target),
      Routing.Dispatch(Server(context, WithTarget(req, target), maxBytes), Shape(chain, EndpointOf(chain, handler)),
                       PathSegments(PathOf(target)), [], None, slot),
      ReceivedAt(chain, context, req, maxBytes, target, slot))
  {
    var segments := PathSegments(PathOf(target));
    var server := Server(context, WithTarget(req, target), maxBytes);
    ShapeDispatches(server, chain, EndpointOf(chain, handler), segments, [], None, slot);
    var call := MatchPath(chain, segments, [], None);
    if call.Some? {
      EndpointAnswers(chain, handler, context, WithTarget(req, target), maxBytes, call.value, slot);
    }
  }

  // ----- the round trip

  /** The description of an endpoint whose URLs can be taken apart again, and a request its checks let through. */
  predicate WellDescribed(chain: Chain, args: seq<Arg>, req: Request) {
    && UrlChain(chain) && Typed(chain, args) && CaptureAllLast(chain)
    && MethodOk(chain, req) && AcceptOk(chain, req.accept)
  }

  lemma {:induction false} UntouchedNothing(chain: Chain)
    ensures UntouchedBy(chain, [])
  {
    if !chain.Verb? {
      UntouchedNothing(chain.next);
    }
  }

  lemma {:induction false} UrlGate(chain: Chain, req: Request, call: Routing.Call)
    requires UrlChain(chain)
    ensures Gate(chain, req, call).Route? <==>
      Validate(chain, call.captures, 0, call.captureAll).Route? && MethodOk(chain, req) && AcceptOk(chain, req.accept)
  {
    UrlPhases(chain, req, State([], None, [], [], []));
  }

  lemma {:induction false} UrlReceives(chain: Chain, context: Context, req: Request, maxBytes: nat,
        call: Routing.Call, slot: BodySlot)
    requires UrlChain(chain)
    ensures var x := Extract(chain, req, StartState(context, call), slot);
      Received(chain, context, req, maxBytes, call, slot)
      == if Validate(chain, call.captures, 0, call.captureAll).Route?
            && MethodOk(chain, req) && AcceptOk(chain, req.accept)
         then (RouteOf(x.result), x.slot) else (None, slot)
  {
    UrlGate(chain, req, call);
    UrlPhases(chain, req, StartState(context, call));
  }

  function RouteOf<T>(r: RouteResult<T>): Option<T> {
    if r.Route? then Some(r.value) else None
  }

  function PrintedCall(chain: Chain, args: seq<Arg>): Routing.Call {
    Routing.Call([], CapturePieces(chain, args), RestSeen(RestPieces(chain, args)))
  }

  lemma {:induction false} PrintedGivesBack(chain: Chain, context: Context, args: seq<Arg>, req: Request,
      slot: BodySlot, plain: bool)
    requires UrlChain(chain) && Typed(chain, args) && CaptureAllLast(chain)
    requires req.query == SentPairs(QueryParamsOf(chain, args), plain)
    ensures var call := PrintedCall(chain, args);
      && GivesBack(req.query, chain, args, Extract(chain, req, StartState(context, call), slot), slot)
      && (Found(req.query, chain, args) && RestKept(chain, args) ==>
           Validate(chain, call.captures, 0, call.captureAll) == Route(()))
  {
    var call := PrintedCall(chain, args);
    NothingInFront(req.query);
    ExtractSent([], chain, args, req, StartState(context, call), slot, plain);
    if Found(req.query, chain, args) && RestKept(chain, args) {
      ValidateSent(req.query, chain, args, call.captures, 0, call.captureAll);
    }
  }

  lemma {:induction false} ReceivedFromCall(chain: Chain, context: Context, args: seq<Arg>, req: Request,
      maxBytes: nat, slot: BodySlot, plain: bool)
    requires WellDescribed(chain, args, req)
    requires req.query == SentPairs(QueryParamsOf(chain, args), plain)
    ensures var received := Received(chain, context, req, maxBytes, PrintedCall(chain, args), slot);
      && (received.0 == Some(args) <==> Found(req.query, chain, args) && RestKept(chain, args))
      && received.1 == slot
  {
    UrlReceives(chain, context, req, maxBytes, PrintedCall(chain, args), slot);
    PrintedGivesBack(chain, context, args, req, slot, plain);
  }

  /** The router takes the printed path to the leaf exactly when the path ends visibly. */
  lemma {:induction false} PathFromTarget(chain: Chain, args: seq<Arg>, target: Text)
    requires CaptureAllLast(chain)
    requires PathSegments(PathOf(target)) == SegmentsAsSent(PathPieces(chain, args))
    ensures MatchPath(chain, PathSegments(PathOf(target)), [], None)
         == if Reaches(chain, args) then Some(PrintedCall(chain, args)) else None
  {
    MatchSent(chain, args, PathSegments(PathOf(target)), [], None);
    NothingInFront(CapturePieces(chain, args));
  }

  lemma {:induction false} QueryFromTarget(chain: Chain, args: seq<Arg>, query: seq<Pair>, plain: bool)
    requires NamesApart(chain)
    requires query == SentPairs(QueryParamsOf(chain, args), plain)
    ensures Isolated(query, chain, args, plain)
  {
    UntouchedNothing(chain);
    PrintedIsolated([], chain, args, plain);
    NothingInFront(query);
  }

  lemma {:induction false} DescribedAt(chain: Chain, args: seq<Arg>, req: Request, target: Text)
    requires WellDescribed(chain, args, req)
    ensures WellDescribed(chain, args, WithTarget(req, target))
  {}

  /** Whatever the style of the query, the arguments come back exactly when the path and each argument do. */
  lemma {:induction false} ReceivedAtTarget(chain: Chain, context: Context, args: seq<Arg>, req: Request,
      maxBytes: nat, slot: BodySlot, target: Text, plain: bool)
    requires WellDescribed(chain, args, req)
    requires PathSegments(PathOf(target)) == SegmentsAsSent(PathPieces(chain, args))
    requires ParseQuery(QueryOf(target)) == SentPairs(QueryParamsOf(chain, args), plain)
    ensures var received := ReceivedAt(chain, context, req, maxBytes, target, slot);
      && (received.0 == Some(args)
          <==> PathReturns(chain, args) && Found(SentPairs(QueryParamsOf(chain, args), plain), chain, args))
      && received.1 == slot
  {
    PathFromTarget(chain, args, target);
    DescribedAt(chain, args, req, target);
    if Reaches(chain, args) {
      ReceivedFromCall(chain, context, args, WithTarget(req, target), maxBytes, slot, plain);
    }
  }

  /**
   The handler receives exactly the arguments the client was called with, if and only if the
   path does not end in an empty piece, no capture-all begins with one, and each argument is
   found in the printed query: whatever names the chain uses.
   */
  lemma {:induction false} ClientRoundTripIff(chain: Chain, context: Context, args: seq<Arg>, req: Request,
      maxBytes: nat, slot: BodySlot)
    requires WellDescribed(chain, args, req)
    ensures var received := ReceivedAt(chain, context, req, maxBytes, ClientTarget(chain, args), slot);
      && (received.0 == Some(args)
          <==> PathReturns(chain, args) && Found(SentPairs(QueryParamsOf(chain, args), true), chain, args))
      && received.1 == slot
  {
    ClientTargetParses(chain, args);
    ReceivedAtTarget(chain, context, args, req, maxBytes, slot, ClientTarget(chain, args), true);
  }

  /** The same holds of links, with bracketed and with plain array elements. */
  lemma {:induction false} LinkRoundTripIff(chain: Chain, context: Context, args: seq<Arg>, req: Request,
      maxBytes: nat, slot: BodySlot, plain: bool)
    requires WellDescribed(chain, args, req)
    ensures var received := ReceivedAt(chain, context, req, maxBytes, LinkTarget(chain, args, plain), slot);
      && (received.0 == Some(args)
          <==> PathReturns(chain, args) && Found(SentPairs(QueryParamsOf(chain, args), plain), chain, args))
      && received.1 == slot
  {
    LinkTargetParses(chain, args, plain);
    ReceivedAtTarget(chain, context, args, req, maxBytes, slot, LinkTarget(chain, args, plain), plain);
  }

  // ----- distinct names

  lemma {:induction false} OwnFoundIff(chain: Chain, args: seq<Arg>, query: seq<Pair>, plain: bool)
    requires TakesArg(chain) && args != [] && HeadTyped(chain, args[0])
    requires Isolated(query, chain, args, plain)
    ensures OwnFound(query, chain, args[0]) <==> OwnReturns(chain, args[0])
  {
    if chain.QueryParam? {
      LookupUnder(query, chain.name);
      ParamReturns(chain, args[0], plain);
    } else if chain.QueryFlag? {
      LookupUnder(query, chain.name);
      FlagReturns(chain, args[0], plain);
    } else if chain.QueryParams? {
      ValuedUnder(QueryName(chain.name, true), query);
      OwnValued(chain.name, chain.codec, args[0].values, plain);
    }
  }

  lemma {:induction false} IsolatedFound(chain: Chain, args: seq<Arg>, query: seq<Pair>, plain: bool)
    requires UrlChain(chain) && Typed(chain, args) && Isolated(query, chain, args, plain)
    ensures Found(query, chain, args) <==> Returns(chain, args)
  {
    if chain.Verb? {
    } else if TakesArg(chain) {
      OwnFoundIff(chain, args, query, plain);
      IsolatedFound(chain.next, args[1..], query, plain);
    } else {
      IsolatedFound(chain.next, args, query, plain);
    }
  }

  /**
   When no key is read under two names, each argument comes back if and only if its own
   combinator reads back what it printed alone.
   */
  lemma {:induction false} DistinctNamesFound(chain: Chain, args: seq<Arg>, plain: bool)
    requires UrlChain(chain) && Typed(chain, args) && NamesApart(chain)
    ensures Found(SentPairs(QueryParamsOf(chain, args), plain), chain, args) <==> Returns(chain, args)
  {
    var query := SentPairs(QueryParamsOf(chain, args), plain);
    QueryFromTarget(chain, args, query, plain);
    IsolatedFound(chain, args, query, plain);
  }

  /** The client's and the link's round trip with distinct names: each argument for itself. */
  lemma {:induction false} DistinctNamesRoundTripIff(chain: Chain, context: Context, args: seq<Arg>, req: Request,
      maxBytes: nat, slot: BodySlot, plain: bool)
    requires WellDescribed(chain, args, req) && NamesApart(chain)
    ensures ReceivedAt(chain, context, req, maxBytes, ClientTarget(chain, args), slot).0 == Some(args)
       <==> PathReturns(chain, args) && Returns(chain, args)
    ensures ReceivedAt(chain, context, req, maxBytes, LinkTarget(chain, args, plain), slot).0 == Some(args)
       <==> PathReturns(chain, args) && Returns(chain, args)
  {
    ClientRoundTripIff(chain, context, args, req, maxBytes, slot);
    LinkRoundTripIff(chain, context, args, req, maxBytes, slot, plain);
    DistinctNamesFound(chain, args, true);
    DistinctNamesFound(chain, args, plain);
  }

  // ----- link and client agree

  lemma {:induction false} ListAnyStyle(name: Text, codec: Codec, values: seq<Value>)
    ensures CollectParams(SentPairs(ArrayElems(name, codec, values), true), name, codec)
         == CollectParams(SentPairs(ArrayElems(name, codec, values), false), name, codec)
  {
    if values != [] {
      ListAnyStyle(name, codec, values[1..]);
      var first, more := ArrayElem(name, codec.toQuery(values[0])), ArrayElems(name, codec, values[1..]);
      AfterFirst(first, more);
      AfterFirst(SentPair(first, true), SentPairs(more, true));
      AfterFirst(SentPair(first, false), SentPairs(more, false));
    }
  }

  lemma {:induction false} SingleAnyStyle(chain: Chain, arg: Arg)
    requires chain.QueryParam? || chain.QueryFlag?
    ensures SentPairs(OwnParams(chain, arg), true) == SentPairs(OwnParams(chain, arg), false)
  {
    var own := OwnParams(chain, arg);
    assert |own| <= 1;
    if own != [] {
      assert own[1..] == [];
    }
  }

  lemma {:induction false} OwnAnyStyle(chain: Chain, args: seq<Arg>, req: Request, other: Request, st: State)
    requires TakesArg(chain)
    requires Isolated(req.query, chain, args, true) && Isolated(other.query, chain, args, false)
    ensures ReadOwn(chain, req, st) == ReadOwn(chain, other, st)
  {
    if chain.QueryParams? {
      CollectUnder(req.query, chain.name, chain.codec);
      CollectUnder(other.query, chain.name, chain.codec);
      ListAnyStyle(chain.name, chain.codec, ValuesOf(Head(args)));
    } else if chain.QueryParam? || chain.QueryFlag? {
      LookupUnder(req.query, chain.name);
      LookupUnder(other.query, chain.name);
      SingleAnyStyle(chain, Head(args));
    }
  }

  lemma {:induction false} ConsRoute(arg: Arg, x: Extracted, y: Extracted)
    requires RouteOf(x.result) == RouteOf(y.result) && x.slot == y.slot
    ensures RouteOf(Cons(arg, x).result) == RouteOf(Cons(arg, y).result)
    ensures Cons(arg, x).slot == Cons(arg, y).slot
  {}

  lemma {:induction false} SameStep(chain: Chain, req: Request, other: Request, st: State, slot: BodySlot)
    requires TakesArg(chain) && ReadOwn(chain, req, st) == ReadOwn(chain, other, st)
    requires SameExtraction(chain.next, req, other, AfterOwn(chain, st), slot)
    ensures SameExtraction(chain, req, other, st, slot)
  {
    ExtractStep(chain, req, st, slot);
    ExtractStep(chain, other, st, slot);
    if ReadOwn(chain, req, st).Some? {
      ConsRoute(ReadOwn(chain, req, st).value, Extract(chain.next, req, AfterOwn(chain, st), slot),
                Extract(chain.next, other, AfterOwn(chain, st), slot));
    }
  }

  predicate SameExtraction(chain: Chain, req: Request, other: Request, st: State, slot: BodySlot) {
    var x, y := Extract(chain, req, st, slot), Extract(chain, other, st, slot);
    RouteOf(x.result) == RouteOf(y.result) && x.slot == y.slot
  }

  lemma {:induction false} ExtractAnyStyle(chain: Chain, args: seq<Arg>, req: Request, other: Request, st: State,
        slot: BodySlot)
    requires UrlChain(chain)
    requires Isolated(req.query, chain, args, true) && Isolated(other.query, chain, args, false)
    ensures SameExtraction(chain, req, other, st, slot)
  {
    if chain.Verb? {
    } else if TakesArg(chain) {
      OwnAnyStyle(chain, args, req, other, st);
      ExtractAnyStyle(chain.next, Tail(chain, args), req, other, AfterOwn(chain, st), slot);
      SameStep(chain, req, other, st, slot);
    } else {
      ExtractAnyStyle(chain.next, args, req, other, st, slot);
    }
  }

  /**
   From a link, in its safe default style, the server extracts the same arguments as from the
   client's target, or none from either: for every argument list, whether or not it comes back.
   */
  lemma {:induction false} LinkAgreesWithClient(chain: Chain, context: Context, args: seq<Arg>, req: Request,
        maxBytes: nat, slot: BodySlot)
    requires UrlChain(chain) && NamesApart(chain)
    ensures ReceivedAt(chain, context, req, maxBytes, LinkTarget(chain, args, false), slot)
         == ReceivedAt(chain, context, req, maxBytes, ClientTarget(chain, args), slot)
  {
    ClientTargetParses(chain, args);
    LinkTargetParses(chain, args, false);
    ReceivedAtAnyStyle(chain, context, args, req, maxBytes, ClientTarget(chain, args),
                       LinkTarget(chain, args, false), slot);
  }

  lemma {:induction false} ReceivedAtAnyStyle(chain: Chain, context: Context, args: seq<Arg>, req: Request,
        maxBytes: nat, target: Text, link: Text, slot: BodySlot)
    requires UrlChain(chain) && NamesApart(chain)
    requires PathSegments(PathOf(target)) == PathSegments(PathOf(link))
    requires ParseQuery(QueryOf(target)) == SentPairs(QueryParamsOf(chain, args), true)
    requires ParseQuery(QueryOf(link)) == SentPairs(QueryParamsOf(chain, args), false)
    ensures ReceivedAt(chain, context, req, maxBytes, link, slot)
         == ReceivedAt(chain, context, req, maxBytes, target, slot)
  {
    var call := MatchPath(chain, PathSegments(PathOf(target)), [], None);
    if call.Some? {
      QueryFromTarget(chain, args, ParseQuery(QueryOf(target)), true);
      QueryFromTarget(chain, args, ParseQuery(QueryOf(link)), false);
      ReceivedAnyStyle(chain, context, args, WithTarget(req, target), WithTarget(req, link), maxBytes, call.value,
                       slot);
    }
  }

  lemma {:induction false} SameChecks(chain: Chain, req: Request, other: Request)
    requires other == req.(rawQuery := other.rawQuery, query := other.query)
    ensures MethodOk(chain, req) <==> MethodOk(chain, other)
    ensures AcceptOk(chain, req.accept) <==> AcceptOk(chain, other.accept)
  {}

  lemma {:induction false} ReceivedAnyStyle(chain: Chain, context: Context, args: seq<Arg>, req: Request,
        other: Request, maxBytes: nat, call: Routing.Call, slot: BodySlot)
    requires UrlChain(chain)
    requires Isolated(req.query, chain, args, true) && Isolated(other.query, chain, args, false)
    requires other == req.(rawQuery := other.rawQuery, query := other.query)
    ensures Received(chain, context, req, maxBytes, call, slot) == Received(chain, context, other, maxBytes, call, slot)
  {
    UrlReceives(chain, context, req, maxBytes, call, slot);
    UrlReceives(chain, context, other, maxBytes, call, slot);
    SameChecks(chain, req, other);
    ExtractAnyStyle(chain, args, req, other, StartState(context, call), slot);
  }

  // ----- the rest of the client's request

  /** The Accept header the client sends: the endpoint's own media types, in order, at full quality. */
  function OwnRanges(media: seq<Mime>): (ranges: seq<MediaRange>)
    ensures |ranges| == |media|
    ensures forall i :: 0 <= i < |media| ==> ranges[i] == MediaRange(media[i].kind, media[i].subtype, 1.0)
  {
    if media == [] then [] else [MediaRange(media[0].kind, media[0].subtype, 1.0)] + OwnRanges(media[1..])
  }

  /** The endpoint's method and accept checks let its own client's request through. */
  lemma {:induction false} ClientRequestAccepted(chain: Chain, req: Request)
    requires var end := Terminal(chain);
      && req.verb == end.verb
      && (end.markers.Some? ==>
           Flatten(end.markers.value) != [] && req.accept == Some(OwnRanges(Flatten(end.markers.value))))
    ensures MethodOk(chain, req) && AcceptOk(chain, req.accept)
  {
    var end := Terminal(chain);
    if end.markers.Some? {
      var media := Flatten(end.markers.value);
      OwnTypesAccepted(media, OwnRanges(media));
    }
  }

  // ----- names that clash

  function Twins(name: Text, codec: Codec, verb: Text): Chain {
    QueryParam(name, codec, true, true, QueryParam(name, codec, true, true, Verb(verb, None)))
  }

  lemma {:induction false} TwinParams(name: Text, codec: Codec, verb: Text, a: Value, b: Value)
    requires QueryReturns(codec, a) && QueryReturns(codec, b)
    ensures var chain, args := Twins(name, codec, verb), [Strict(a), Strict(b)];
      && UrlChain(chain) && Typed(chain, args) && PathReturns(chain, args) && Returns(chain, args)
      && QueryValue(SentPairs(QueryParamsOf(chain, args), true), name, codec) == Some(Ok(a))
  {
    var chain, args := Twins(name, codec, verb), [Strict(a), Strict(b)];
    assert args[1..] == [Strict(b)] && args[1..][1..] == [];
    assert Typed(chain.next, args[1..]) && Returns(chain.next, args[1..]);
    assert NoPath(chain.next);
    NoPathNoPieces(chain, args);
    var first, rest := Single(name, codec.toQuery(a)), QueryParamsOf(chain.next, args[1..]);
    assert QueryParamsOf(chain, args) == [first] + rest;
    AfterFirst(first, rest);
    assert SentPairs([first] + rest, true)[0] == Pair(name, Some(codec.toQuery(a)));
  }

  lemma {:induction false} SecondReadsFirst(chain: Chain, args: seq<Arg>, context: Context, req: Request,
        maxBytes: nat, call: Routing.Call, slot: BodySlot)
    requires UrlChain(chain) && chain.QueryParam? && chain.next.QueryParam?
    requires chain.next.required && chain.next.strict && |args| == 2 && args[1].Strict?
    requires var read := QueryValue(req.query, chain.next.name, chain.next.codec);
      read.Some? && read.value != Ok(args[1].value)
    ensures Received(chain, context, req, maxBytes, call, slot).0 != Some(args)
  {
    UrlReceives(chain, context, req, maxBytes, call, slot);
    var st, end := StartState(context, call), chain.next;
    ExtractStep(chain, req, st, slot);
    ExtractStep(end, req, st, slot);
    if ReadOwn(chain, req, st).Some? {
      ConsIs(ReadOwn(chain, req, st).value, Extract(end, req, st, slot), args);
      if ReadOwn(end, req, st).Some? {
        ConsIs(ReadOwn(end, req, st).value, Extract(end.next, req, st, slot), args[1..]);
      }
    }
  }

  lemma {:induction false} SecondLost(chain: Chain, args: seq<Arg>, context: Context, req: Request, maxBytes: nat,
        target: Text, slot: BodySlot)
    requires UrlChain(chain) && chain.QueryParam? && chain.next.QueryParam?
    requires chain.next.required && chain.next.strict && |args| == 2 && args[1].Strict?
    requires var read := QueryValue(ParseQuery(QueryOf(target)), chain.next.name, chain.next.codec);
      read.Some? && read.value != Ok(args[1].value)
    ensures ReceivedAt(chain, context, req, maxBytes, target, slot).0 != Some(args)
  {
    var call := MatchPath(chain, PathSegments(PathOf(target)), [], None);
    if call.Some? {
      SecondReadsFirst(chain, args, context, WithTarget(req, target), maxBytes, call.value, slot);
    }
  }

  /** Names that clash can lose arguments that each return alone: the second of two reads the first one's value. */
  lemma {:induction false} ClashingNamesLoseArguments(name: Text, codec: Codec, verb: Text, a: Value, b: Value,
        context: Context, req: Request, maxBytes: nat, slot: BodySlot)
    requires a != b && QueryReturns(codec, a) && QueryReturns(codec, b)
    ensures var chain, args := Twins(name, codec, verb), [Strict(a), Strict(b)];
      && UrlChain(chain) && Typed(chain, args) && PathReturns(chain, args) && Returns(chain, args)
      && ReceivedAt(chain, context, req, maxBytes, ClientTarget(chain, args), slot).0 != Some(args)
  {
    var chain, args := Twins(name, codec, verb), [Strict(a), Strict(b)];
    TwinParams(name, codec, verb, a, b);
    ClientTargetParses(chain, args);
    SecondLost(chain, args, context, req, maxBytes, ClientTarget(chain, args), slot);
  }
}
