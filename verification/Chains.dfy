/**
 An endpoint as its chain of combinators, and the walks the server makes over it:
 capture validation, the checks that come before the body, and extraction.
 */
module Chains {
  import opened Basics
  import opened RouteResults
  import opened RequestBodies
  import opened QueryCodec
  import opened DeepQueries
  import opened Negotiation
  import Routing

  // ----- what a chain is made of

  /** A Rust type, known by its identity alone. */
  type Ty = nat

  /** A decoded value of some user type. */
  datatype Value = Value(repr: Text)

  type Parsed = Result<Value, Text>

  datatype Codec = Codec(
    fromPiece: Text -> Parsed, toPiece: Value -> Text,
    fromQuery: Text -> Parsed, toQuery: Value -> Text,
    fromHeader: Text -> Parsed)

  datatype HeaderValue = Readable(text: Text) | Binary
  type Headers = map<Text, HeaderValue>

  /** The part of a request every candidate sees alike; the body is kept apart. */
  datatype Request = Request(
    verb: Text, isHead: bool, rawQuery: Option<Text>, query: seq<Pair>, host: Option<Text>,
    headers: Headers, authorization: Option<Text>, contentType: Option<Text>,
    accept: Option<seq<MediaRange>>)

  /** A check of credentials yields a user; None stands for every refusal. */
  type BasicCheck = Text -> Option<Value>
  type AuthCheck = Headers -> Result<Value, ServerError>

  datatype Context = Context(
    basic: map<Ty, BasicCheck>, auth: map<Ty, AuthCheck>,
    resources: map<Ty, Value>, named: map<nat, Context>)

  datatype Chain =
    | Path(segment: Text, next: Chain)
    | Meta(next: Chain)
    | Capture(name: Text, codec: Codec, strict: bool, next: Chain)
    | CaptureAll(name: Text, codec: Codec, next: Chain)
    | QueryParam(name: Text, codec: Codec, required: bool, strict: bool, next: Chain)
    | QueryParams(name: Text, codec: Codec, next: Chain)
    | QueryFlag(name: Text, next: Chain)
    | QueryString(next: Chain)
    | DeepQuery(name: Text, decode: seq<Entry> -> Option<Value>, next: Chain)
    | Header(name: Text, codec: Codec, required: bool, strict: bool, next: Chain)
    | Host(requirement: Option<Text -> bool>, next: Chain)
    | ReqBody(accepts: Option<Text> -> bool, unrender: (Option<Text>, Text) -> Option<Parsed>,
              strict: bool, next: Chain)
    | StreamBody(accepts: Option<Text> -> bool, next: Chain)
    | BasicAuth(user: Ty, realm: Text, next: Chain)
    | AuthProtect(user: Ty, next: Chain)
    | NamedContext(context: nat, next: Chain)
    | WithResource(resource: Ty, next: Chain)
    | RequestInfo(read: Request -> Value, next: Chain)
    | Verb(verb: Text, markers: Option<seq<seq<Mime>>>)

  /** A user together with the type it was checked as. */
  datatype User = User(ty: Ty, value: Value)

  /** One handler argument. */
  datatype Arg =
    | Strict(value: Value)
    | Lenient(parsed: Parsed)
    | Optional(maybe: Option<Value>)
    | OptionalLenient(maybeParsed: Option<Parsed>)
    | Many(values: seq<Value>)
    | Flag(present: bool)
    | WholeQuery(raw: Option<Text>, pairs: seq<Pair>)
    | Stream(body: Body)
    | AuthUser(user: User)

  // ----- presence and strictness

  datatype ArgError = Missing | Unparsable

  function BuildArg(required: bool, strict: bool, raw: Option<Parsed>): Result<Arg, ArgError> {
    match raw
    case None => if required then Err(Missing) else if strict then Ok(Optional(None)) else Ok(OptionalLenient(None))
    case Some(Ok(v)) =>
      Ok(if required then (if strict then Strict(v) else Lenient(Ok(v)))
         else if strict then Optional(Some(v)) else OptionalLenient(Some(Ok(v))))
    case Some(Err(e)) =>
      if strict then Err(Unparsable)
      else if required then Ok(Lenient(Err(e))) else Ok(OptionalLenient(Some(Err(e))))
  }

  function BuildCapture(strict: bool, parsed: Parsed): Result<Arg, Text> {
    if !strict then Ok(Lenient(parsed))
    else
      match parsed
      case Ok(v) => Ok(Strict(v))
      case Err(e) => Err(e)
  }

  // ----- phase 1: captures

  function ParseAll(codec: Codec, segments: seq<Text>): Result<seq<Value>, Text> {
    if segments == [] then Ok([])
    else
      match codec.fromPiece(segments[0])
      case Err(e) => Err(e)
      case Ok(v) => Prepend([v], ParseAll(codec, segments[1..]))
  }

  function Validate(chain: Chain, caps: seq<Text>, idx: nat, captureAll: Option<seq<Text>>): RouteResult<()> {
    match chain
    case Verb(_, _) => Route(())
    case Capture(name, codec, strict, next) =>
      if idx >= |caps| then Fail(NOT_FOUND)
      else
        (match BuildCapture(strict, codec.fromPiece(caps[idx]))
         case Ok(_) => Validate(next, caps, idx + 1, captureAll)
         case Err(e) => Fail(ServerError(400, BadCapture(name, e))))
    case CaptureAll(name, codec, next) =>
      if captureAll.Some? && ParseAll(codec, captureAll.value).Err? then
        Fail(ServerError(400, BadCaptureAll(name, ParseAll(codec, captureAll.value).error)))
      else Validate(next, caps, idx, captureAll)
    case _ => Validate(chain.next, caps, idx, captureAll)
  }

  // ----- phases 2 to 5: host, method, accept, content type

  function HostCheck(chain: Chain, req: Request): RouteResult<()> {
    match chain
    case Verb(_, _) => Route(())
    case Host(requirement, next) =>
      if requirement.Some? && req.host.Some? && requirement.value(req.host.value) then HostCheck(next, req)
      else Fail(NOT_FOUND)
    case _ => HostCheck(chain.next, req)
  }

  function Terminal(chain: Chain): (end: Chain)
    ensures end.Verb?
  {
    match chain
    case Verb(_, _) => chain
    case _ => Terminal(chain.next)
  }

  predicate AcceptOk(chain: Chain, accept: Option<seq<MediaRange>>) {
    match Terminal(chain).markers
    case None => true
    case Some(markers) => Negotiate(accept, Flatten(markers)).Some?
  }

  /** Whether the first body combinator, if any, accepts this content type. */
  predicate ContentTypeOk(chain: Chain, contentType: Option<Text>) {
    match chain
    case Verb(_, _) => true
    case ReqBody(accepts, _, _, _) => accepts(contentType)
    case StreamBody(accepts, _) => accepts(contentType)
    case _ => ContentTypeOk(chain.next, contentType)
  }

  datatype BodyMode = NoBody | BufferedBody | StreamedBody

  function BodyModeOf(chain: Chain): BodyMode {
    match chain
    case Verb(_, _) => NoBody
    case ReqBody(_, _, _, _) => BufferedBody
    case StreamBody(_, _) => StreamedBody
    case _ => BodyModeOf(chain.next)
  }

  // ----- the extraction state

  /** A check that ran, by kind and user type. */
  datatype Site = Site(basic: bool, user: Ty)

  datatype State = State(
    captures: seq<Text>, captureAll: Option<seq<Text>>, contexts: seq<Context>,
    prechecked: seq<User>, checks: seq<Site>)

  /** Named sub-contexts are searched before the contexts they were pushed on. */
  function Lookup<T>(contexts: seq<Context>, get: Context -> Option<T>): Option<T> {
    if contexts == [] then None
    else
      var top := contexts[|contexts| - 1];
      if get(top).Some? then get(top) else Lookup(contexts[..|contexts| - 1], get)
  }

  function FindBasic(contexts: seq<Context>, ty: Ty): Option<BasicCheck> {
    Lookup(contexts, (c: Context) => if ty in c.basic then Some(c.basic[ty]) else None)
  }

  function FindAuth(contexts: seq<Context>, ty: Ty): Option<AuthCheck> {
    Lookup(contexts, (c: Context) => if ty in c.auth then Some(c.auth[ty]) else None)
  }

  function FindResource(contexts: seq<Context>, ty: Ty): Option<Value> {
    Lookup(contexts, (c: Context) => if ty in c.resources then Some(c.resources[ty]) else None)
  }

  function FindNamed(contexts: seq<Context>, name: nat): Option<Context> {
    Lookup(contexts, (c: Context) => if name in c.named then Some(c.named[name]) else None)
  }

  function Popped<T>(stack: seq<T>): seq<T> {
    if stack == [] then stack else stack[..|stack| - 1]
  }

  // ----- authentication

  const UNCONFIGURED := ServerError(500, NotConfigured)

  /** Resolving a basic-auth user, and the state in which the check has been logged. */
  function BasicUser(st: State, req: Request, ty: Ty, realm: Text): (Result<Value, ServerError>, State) {
    match FindBasic(st.contexts, ty)
    case None => (Err(UNCONFIGURED), st)
    case Some(check) =>
      if req.authorization.None? then (Err(ServerError(401, Realm(realm))), st)
      else
        var st' := st.(checks := st.checks + [Site(true, ty)]);
        match check(req.authorization.value)
        case Some(user) => (Ok(user), st')
        case None => (Err(ServerError(401, Realm(realm))), st')
  }

  function ProtectedUser(st: State, req: Request, ty: Ty): (Result<Value, ServerError>, State) {
    match FindAuth(st.contexts, ty)
    case None => (Err(UNCONFIGURED), st)
    case Some(check) => (check(req.headers), st.(checks := st.checks + [Site(false, ty)]))
  }

  function PushUser(st: State, user: User): State {
    st.(prechecked := st.prechecked + [user])
  }

  /** The first queued user of a type, and the queue without it. */
  function TakeUser(queue: seq<User>, ty: Ty): (Option<Value>, seq<User>) {
    if queue == [] then (None, [])
    else if queue[0].ty == ty then (Some(queue[0].value), queue[1..])
    else
      var (found, rest) := TakeUser(queue[1..], ty);
      (found, [queue[0]] + rest)
  }

  function PreBody(chain: Chain, req: Request, st: State): (RouteResult<()>, State) {
    match chain
    case Verb(_, _) => (Route(()), st)
    case BasicAuth(ty, realm, next) =>
      var (user, st') := BasicUser(st, req, ty, realm);
      (match user
       case Ok(u) => PreBody(next, req, PushUser(st', User(ty, u)))
       case Err(e) => (FailFatal(e), st'))
    case AuthProtect(ty, next) =>
      var (user, st') := ProtectedUser(st, req, ty);
      (match user
       case Ok(u) => PreBody(next, req, PushUser(st', User(ty, u)))
       case Err(e) => (FailFatal(e), st'))
    case NamedContext(name, next) =>
      (match FindNamed(st.contexts, name)
       case None => PreBody(next, req, st)
       case Some(named) =>
         var (r, st') := PreBody(next, req, st.(contexts := st.contexts + [named]));
         (r, st'.(contexts := Popped(st'.contexts))))
    case _ => PreBody(chain.next, req, st)
  }

  // ----- extraction

  function LookupQuery(query: seq<Pair>, name: Text): Option<Option<Text>> {
    if query == [] then None
    else if query[0].key == name then Some(query[0].value)
    else LookupQuery(query[1..], name)
  }

  const BRACKETS: Text := [OPEN, CLOSE]

  /** Every valued entry under `name` or `name[]`, in request order. */
  function CollectParams(query: seq<Pair>, name: Text, codec: Codec): Result<seq<Value>, Text> {
    if query == [] then Ok([])
    else if (query[0].key == name || query[0].key == name + BRACKETS) && query[0].value.Some? then
      match codec.fromQuery(query[0].value.value)
      case Err(e) => Err(e)
      case Ok(v) => Prepend([v], CollectParams(query[1..], name, codec))
    else CollectParams(query[1..], name, codec)
  }

  const TRUE: Text := [116, 114, 117, 101]
  const ONE: Text := [49]

  predicate FlagSet(query: seq<Pair>, name: Text) {
    match LookupQuery(query, name)
    case None => false
    case Some(None) => true
    case Some(Some(v)) => v == TRUE || v == ONE || v == []
  }

  function QueryValue(query: seq<Pair>, name: Text, codec: Codec): Option<Parsed> {
    match LookupQuery(query, name)
    case Some(Some(v)) => Some(codec.fromQuery(v))
    case _ => None
  }

  /** `header value is not valid text` */
  const NOT_TEXT: Text :=
    [104, 101, 97, 100, 101, 114, 32, 118, 97, 108, 117, 101, 32, 105, 115, 32, 110, 111, 116, 32, 118, 97, 108, 105,
     100, 32, 116, 101, 120, 116]

  function HeaderParsed(headers: Headers, name: Text, codec: Codec): Option<Parsed> {
    if name !in headers then None
    else
      match headers[name]
      case Readable(text) => Some(codec.fromHeader(text))
      case Binary => Some(Err(NOT_TEXT))
  }

  datatype Extracted = Extracted(result: RouteResult<seq<Arg>>, state: State, slot: BodySlot)

  /** The head argument in front of what the rest of the chain extracts. */
  function Cons(arg: Arg, rest: Extracted): Extracted {
    match rest.result
    case Route(args) => rest.(result := Route([arg] + args))
    case _ => rest
  }

  function Extract(chain: Chain, req: Request, st: State, slot: BodySlot): Extracted {
    match chain
    case Verb(_, _) => Extracted(Route([]), st, slot)
    case Capture(name, codec, strict, next) =>
      if st.captures == [] then Extracted(Fail(NOT_FOUND), st, slot)
      else
        var st' := st.(captures := st.captures[1..]);
        (match BuildCapture(strict, codec.fromPiece(st.captures[0]))
         case Ok(arg) => Cons(arg, Extract(next, req, st', slot))
         case Err(e) => Extracted(Fail(ServerError(400, BadCapture(name, e))), st', slot))
    case CaptureAll(name, codec, next) =>
      var st' := st.(captureAll := None);
      (match ParseAll(codec, st.captureAll.GetOr([]))
       case Ok(values) => Cons(Many(values), Extract(next, req, st', slot))
       case Err(e) => Extracted(Fail(ServerError(400, BadCaptureAll(name, e))), st', slot))
    case QueryParam(name, codec, required, strict, next) =>
      (match BuildArg(required, strict, QueryValue(req.query, name, codec))
       case Ok(arg) => Cons(arg, Extract(next, req, st, slot))
       case Err(Missing) => Extracted(FailFatal(ServerError(400, MissingQuery(name))), st, slot)
       case Err(Unparsable) => Extracted(FailFatal(ServerError(400, BadQuery(name))), st, slot))
    case QueryParams(name, codec, next) =>
      (match CollectParams(req.query, name, codec)
       case Ok(values) => Cons(Many(values), Extract(next, req, st, slot))
       case Err(_) => Extracted(FailFatal(ServerError(400, BadQuery(name))), st, slot))
    case QueryFlag(name, next) =>
      Cons(Flag(FlagSet(req.query, name)), Extract(next, req, st, slot))
    case QueryString(next) =>
      Cons(WholeQuery(req.rawQuery, req.query), Extract(next, req, st, slot))
    case DeepQuery(name, decode, next) =>
      var entries := ParseDeep(name, req.query);
      if entries.Err? || decode(entries.value).None? then
        Extracted(FailFatal(ServerError(400, BadDeepQuery(name))), st, slot)
      else Cons(Strict(decode(entries.value).value), Extract(next, req, st, slot))
    case Header(name, codec, required, strict, next) =>
      (match BuildArg(required, strict, HeaderParsed(req.headers, name, codec))
       case Ok(arg) => Cons(arg, Extract(next, req, st, slot))
       case Err(Missing) => Extracted(FailFatal(ServerError(400, MissingHeader(name))), st, slot)
       case Err(Unparsable) => Extracted(FailFatal(ServerError(400, BadHeader(name))), st, slot))
    case ReqBody(_, unrender, strict, next) =>
      (match BufferedBytes(slot)
       case Err(e) => Extracted(FailFatal(e), st, slot)
       case Ok(bytes) =>
         match unrender(req.contentType, bytes)
         case None => Extracted(FailFatal(ServerError(415, Detail.Plain)), st, slot)
         case Some(parsed) =>
           match BuildArg(true, strict, Some(parsed))
           case Ok(arg) => Cons(arg, Extract(next, req, st, slot))
           case Err(_) => Extracted(FailFatal(ServerError(400, BadBody)), st, slot))
    case StreamBody(_, next) =>
      var (taken, slot') := TakeSlot(slot);
      (match taken
       case Err(e) => Extracted(FailFatal(e), st, slot')
       case Ok(body) => Cons(Arg.Stream(body), Extract(next, req, st, slot')))
    case BasicAuth(ty, realm, next) =>
      var (queued, rest) := TakeUser(st.prechecked, ty);
      if queued.Some? then
        Cons(AuthUser(User(ty, queued.value)), Extract(next, req, st.(prechecked := rest), slot))
      else
        var (user, st') := BasicUser(st, req, ty, realm);
        (match user
         case Ok(u) => Cons(AuthUser(User(ty, u)), Extract(next, req, st', slot))
         case Err(e) => Extracted(FailFatal(e), st', slot))
    case AuthProtect(ty, next) =>
      var (queued, rest) := TakeUser(st.prechecked, ty);
      if queued.Some? then
        Cons(AuthUser(User(ty, queued.value)), Extract(next, req, st.(prechecked := rest), slot))
      else
        var (user, st') := ProtectedUser(st, req, ty);
        (match user
         case Ok(u) => Cons(AuthUser(User(ty, u)), Extract(next, req, st', slot))
         case Err(e) => Extracted(FailFatal(e), st', slot))
    case NamedContext(name, next) =>
      (match FindNamed(st.contexts, name)
       case None => Extract(next, req, st, slot)
       case Some(named) =>
         var inner := Extract(next, req, st.(contexts := st.contexts + [named]), slot);
         inner.(state := inner.state.(contexts := Popped(inner.state.contexts))))
    case WithResource(ty, next) =>
      (match FindResource(st.contexts, ty)
       case None => Extracted(FailFatal(UNCONFIGURED), st, slot)
       case Some(resource) => Cons(Strict(resource), Extract(next, req, st, slot)))
    case RequestInfo(read, next) => Cons(Strict(read(req)), Extract(next, req, st, slot))
    case Path(_, next) => Extract(next, req, st, slot)
    case Meta(next) => Extract(next, req, st, slot)
    case Host(_, next) => Extract(next, req, st, slot)
  }

  // ----- the path structure of a chain

  /** The router of one endpoint: its path combinators around the leaf. */
  function Shape<L>(chain: Chain, leaf: L): Routing.Router<L> {
    match chain
    case Path(segment, next) => Routing.PathRouter(segment, Shape(next, leaf))
    case Capture(name, _, _, next) => Routing.Capture([Routing.CaptureHint(name, [])], Shape(next, leaf))
    case CaptureAll(name, _, next) => Routing.CaptureAll([Routing.CaptureHint(name, [])], Shape(next, leaf))
    case Verb(_, _) => Routing.LeafRouter(leaf)
    case _ => Shape(chain.next, leaf)
  }
}
