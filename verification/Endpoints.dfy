/**
 Calling one endpoint: the phases in order, the hand-over of the one-shot body, the
 handler and the response; and the leaves of a served router.
 */
module Endpoints {
  import opened Basics
  import opened RouteResults
  import opened RequestBodies
  import opened Negotiation
  import opened Chains
  import opened Extraction
  import opened Routing

  type Handler = seq<Arg> -> Result<Value, ServerError>

  datatype Response =
    | Rendered(mime: Option<Mime>, codec: Option<nat>, output: Value, headOnly: bool)
    | ErrorResponse(error: ServerError)

  const GET: Text := [71, 69, 84]
  const METHOD_NOT_ALLOWED := ServerError(405, Detail.Plain)
  const NOT_ACCEPTABLE := ServerError(406, Detail.Plain)
  const UNSUPPORTED_MEDIA := ServerError(415, Detail.Plain)

  /** HEAD is served by the GET route. */
  predicate MethodOk(chain: Chain, req: Request) {
    req.verb == Terminal(chain).verb || (req.isHead && Terminal(chain).verb == GET)
  }

  /** Phases 1 to 5, none of which touches the body or any other state. */
  function Gate(chain: Chain, req: Request, call: Call): RouteResult<()> {
    var captures := Validate(chain, call.captures, 0, call.captureAll);
    if !captures.Route? then captures
    else if !HostCheck(chain, req).Route? then HostCheck(chain, req)
    else if !MethodOk(chain, req) then Fail(METHOD_NOT_ALLOWED)
    else if !AcceptOk(chain, req.accept) then Fail(NOT_ACCEPTABLE)
    else if !ContentTypeOk(chain, req.contentType) then Fail(UNSUPPORTED_MEDIA)
    else Route(())
  }

  /** The negotiated representation; the accept check has already succeeded. */
  function Render(chain: Chain, accept: Option<seq<MediaRange>>, output: Value, headOnly: bool): Response
    requires AcceptOk(chain, accept)
  {
    match Terminal(chain).markers
    case None => Rendered(None, None, output, headOnly)
    case Some(markers) =>
      AcceptCheckGuardsRender(accept, markers);
      var idx := Negotiate(accept, Flatten(markers)).value;
      Rendered(Some(Flatten(markers)[idx]), Owner(markers, idx), output, headOnly)
  }

  /** The response to a successful extraction: a handler error is still a response. */
  function Respond(chain: Chain, handler: Handler, req: Request, args: seq<Arg>): Response
    requires AcceptOk(chain, req.accept)
  {
    match handler(args)
    case Ok(output) => Render(chain, req.accept, output, req.isHead)
    case Err(e) => ErrorResponse(e)
  }

  function StartState(context: Context, call: Call): State {
    State(call.captures, call.captureAll, [context], [], [])
  }

  /** What follows the checks: the body is buffered if asked for, the arguments are extracted, the handler runs. */
  function AfterChecks(chain: Chain, handler: Handler, req: Request, maxBytes: nat, st: State, slot: BodySlot)
    : (RouteResult<Response>, BodySlot)
    requires AcceptOk(chain, req.accept)
  {
    var (buffered, slot1) :=
      if BodyModeOf(chain) == BufferedBody then BufferSlot(slot, maxBytes) else (Ok([]), slot);
    match buffered
    case Err(e) => (FailFatal(e), slot1)
    case Ok(_) =>
      var x := Extract(chain, req, st, slot1);
      match x.result
      case Fail(e) => (Fail(e), x.slot)
      case FailFatal(e) => (FailFatal(e), x.slot)
      case Route(args) => (Route(Respond(chain, handler, req, args)), x.slot)
  }

  function EndpointCall(chain: Chain, handler: Handler, context: Context, req: Request, maxBytes: nat,
                        call: Call, slot: BodySlot): (RouteResult<Response>, BodySlot) {
    match Gate(chain, req, call)
    case Fail(e) => (Fail(e), slot)
    case FailFatal(e) => (FailFatal(e), slot)
    case Route(_) =>
      var (checked, st) := PreBody(chain, req, StartState(context, call));
      match checked
      case Fail(e) => (Fail(e), slot)
      case FailFatal(e) => (FailFatal(e), slot)
      case Route(_) => AfterChecks(chain, handler, req, maxBytes, st, slot)
  }

  class EndpointLeaf {
    const chain: Chain
    const handler: Handler
    const context: Context

    constructor (chain: Chain, handler: Handler, context: Context)
      ensures this.chain == chain && this.handler == handler && this.context == context
    {
      this.chain := chain;
      this.handler := handler;
      this.context := context;
    }

    method Call(req: Request, body: RequestBody, call: Call) returns (r: RouteResult<Response>)
      modifies body
      ensures (r, body.slot)
           == EndpointCall(chain, handler, context, req, body.maxBufferedBytes, call, old(body.slot))
    {
      var captures, _ := ValidateCaptures(chain, call.captures, 0, call.captureAll);
      match captures {
        case Route(_) =>
        case Fail(e) => return Fail(e);
        case FailFatal(e) => return FailFatal(e);
      }
      match HostCheck(chain, req) {
        case Route(_) =>
        case Fail(e) => return Fail(e);
        case FailFatal(e) => return FailFatal(e);
      }
      if !MethodOk(chain, req) {
        return Fail(METHOD_NOT_ALLOWED);
      }
      if !AcceptOk(chain, req.accept) {
        return Fail(NOT_ACCEPTABLE);
      }
      if !ContentTypeOk(chain, req.contentType) {
        return Fail(UNSUPPORTED_MEDIA);
      }
      var state := new ExtractState(call.captures, call.captureAll, context);
      var checked := state.PreBodyCheck(chain, req);
      match checked {
        case Route(_) =>
        case Fail(e) => return Fail(e);
        case FailFatal(e) => return FailFatal(e);
      }
      if BodyModeOf(chain) == BufferedBody {
        var buffered := body.Buffer();
        if buffered.Err? {
          return FailFatal(buffered.error);
        }
      }
      var args := state.ExtractArgs(chain, req, body);
      match args
      case Route(a) => r := Route(Respond(chain, handler, req, a));
      case Fail(e) => r := Fail(e);
      case FailFatal(e) => r := FailFatal(e);
    }
  }

  // ----- the leaves of a served router

  datatype ServedLeaf =
    | EndpointOf(chain: Chain, handler: Handler)
    | RawLeaf(respond: (seq<Text>, Text) -> Response)
    | HostGuarded(requirement: Option<Text -> bool>, inner: ServedLeaf)

  predicate GuardPasses(requirement: Option<Text -> bool>, req: Request) {
    requirement.Some? && req.host.Some? && requirement.value(req.host.value)
  }

  function RunLeaf(context: Context, req: Request, maxBytes: nat, leaf: ServedLeaf, call: Call, slot: BodySlot)
    : (RouteResult<Response>, BodySlot) {
    match leaf
    case EndpointOf(chain, handler) => EndpointCall(chain, handler, context, req, maxBytes, call, slot)
    case RawLeaf(respond) =>
      var (buffered, slot') := BufferSlot(slot, maxBytes);
      (match buffered
       case Ok(bytes) => (Route(respond(call.tail, bytes)), slot')
       case Err(e) => (FailFatal(e), slot'))
    case HostGuarded(requirement, inner) =>
      if GuardPasses(requirement, req) then RunLeaf(context, req, maxBytes, inner, call, slot)
      else (Fail(NOT_FOUND), slot)
  }

  /** How the server runs its leaves on one request. */
  function Server(context: Context, req: Request, maxBytes: nat): Runner<ServedLeaf, BodySlot, Response> {
    (leaf, call, slot) => RunLeaf(context, req, maxBytes, leaf, call, slot)
  }

  /** Guarding every leaf of a router by a host requirement. */
  function GuardRouter(router: Router<ServedLeaf>, requirement: Option<Text -> bool>): Router<ServedLeaf> {
    match router
    case Static(children, leaves) =>
      Static(map k | k in children :: GuardRouter(children[k], requirement), GuardLeaves(leaves, requirement))
    case Capture(hints, inner) => Routing.Capture(hints, GuardRouter(inner, requirement))
    case CaptureAll(hints, inner) => Routing.CaptureAll(hints, GuardRouter(inner, requirement))
    case Raw(leaf) => Raw(HostGuarded(requirement, leaf))
    case Choice(left, right) => Choice(GuardRouter(left, requirement), GuardRouter(right, requirement))
  }

  function GuardLeaves(leaves: seq<ServedLeaf>, requirement: Option<Text -> bool>): seq<ServedLeaf> {
    if leaves == [] then [] else [HostGuarded(requirement, leaves[0])] + GuardLeaves(leaves[1..], requirement)
  }
}
