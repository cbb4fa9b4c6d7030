/**
 The walks as the server runs them: cursors advance, users queue up and contexts are
 pushed and popped on one mutable state, and the body slot is consumed in place.
 Each method is proved against the corresponding function of `Chains`.
 */
module Extraction {
  import opened Basics
  import opened RouteResults
  import opened RequestBodies
  import opened QueryCodec
  import opened DeepQueries
  import opened Chains

  method ParseSegments(codec: Codec, segments: seq<Text>) returns (r: Result<seq<Value>, Text>)
    ensures r == ParseAll(codec, segments)
  {
    var out: seq<Value> := [];
    PrependNothing(ParseAll(codec, segments));
    for i := 0 to |segments|
      invariant ParseAll(codec, segments) == Prepend(out, ParseAll(codec, segments[i..]))
    {
      assert segments[i..][1..] == segments[i + 1..];
      match codec.fromPiece(segments[i])
      case Err(e) => return Err(e);
      case Ok(v) =>
        PrependTwice(out, [v], ParseAll(codec, segments[i + 1..]));
        out := out + [v];
    }
    assert out + [] == out;
    r := Ok(out);
  }

  function CaptureCount(chain: Chain): nat {
    if chain.Verb? then 0 else (if chain.Capture? then 1 else 0) + CaptureCount(chain.next)
  }

  method ValidateCaptures(chain: Chain, caps: seq<Text>, start: nat, captureAll: Option<seq<Text>>)
    returns (r: RouteResult<()>, idx: nat)
    ensures r == Validate(chain, caps, start, captureAll)
    ensures start <= idx <= start + CaptureCount(chain)
    ensures r.Route? ==> idx == start + CaptureCount(chain)
    decreases chain
  {
    idx := start;
    match chain
    case Verb(_, _) => r := Route(());
    case Capture(name, codec, strict, next) =>
      var i := idx;
      idx := idx + 1;
      if i >= |caps| {
        return Fail(NOT_FOUND), idx;
      }
      match BuildCapture(strict, codec.fromPiece(caps[i])) {
        case Ok(_) => r, idx := ValidateCaptures(next, caps, idx, captureAll);
        case Err(e) => r := Fail(ServerError(400, BadCapture(name, e)));
      }
    case CaptureAll(name, codec, next) =>
      if captureAll.Some? {
        var parsed := ParseSegments(codec, captureAll.value);
        if parsed.Err? {
          return Fail(ServerError(400, BadCaptureAll(name, parsed.error))), idx;
        }
      }
      r, idx := ValidateCaptures(next, caps, idx, captureAll);
    case _ => r, idx := ValidateCaptures(chain.next, caps, idx, captureAll);
  }

  method CollectQueryParams(query: seq<Pair>, name: Text, codec: Codec) returns (r: Result<seq<Value>, Text>)
    ensures r == CollectParams(query, name, codec)
  {
    var bracketed := name + BRACKETS;
    var out: seq<Value> := [];
    PrependNothing(CollectParams(query, name, codec));
    for i := 0 to |query|
      invariant CollectParams(query, name, codec) == Prepend(out, CollectParams(query[i..], name, codec))
    {
      assert query[i..][1..] == query[i + 1..];
      var pair := query[i];
      if pair.key == name || pair.key == bracketed {
        if pair.value.Some? {
          match codec.fromQuery(pair.value.value)
          case Err(e) => return Err(e);
          case Ok(v) =>
            PrependTwice(out, [v], CollectParams(query[i + 1..], name, codec));
            out := out + [v];
        }
      }
    }
    assert out + [] == out;
    r := Ok(out);
  }

  class ExtractState {
    var captures: seq<Text>
    var captureAll: Option<seq<Text>>
    var contexts: seq<Context>
    var prechecked: seq<User>
    ghost var checks: seq<Site>  // every authentication check that ran, in order

    constructor (captures: seq<Text>, captureAll: Option<seq<Text>>, context: Context)
      ensures Model() == State(captures, captureAll, [context], [], [])
    {
      this.captures := captures;
      this.captureAll := captureAll;
      contexts := [context];
      prechecked := [];
      checks := [];
    }

    ghost function Model(): State
      reads this
    {
      State(captures, captureAll, contexts, prechecked, checks)
    }

    method NextCapture() returns (r: Option<Text>)
      modifies this
      ensures match r
        case None => old(captures) == [] && Model() == old(Model())
        case Some(segment) =>
          && old(captures) == [segment] + captures
          && Model() == old(Model()).(captures := captures)
    {
      if captures == [] {
        return None;
      }
      r := Some(captures[0]);
      captures := captures[1..];
    }

    method TakeCaptureAll() returns (segments: seq<Text>)
      modifies this
      ensures segments == old(captureAll).GetOr([])
      ensures Model() == old(Model()).(captureAll := None)
    {
      segments := captureAll.GetOr([]);
      captureAll := None;
    }

    method PushContext(context: Context)
      modifies this
      ensures Model() == old(Model()).(contexts := old(contexts) + [context])
    {
      contexts := contexts + [context];
    }

    method PopContext()
      modifies this
      ensures Model() == old(Model()).(contexts := Popped(old(contexts)))
    {
      if contexts != [] {
        contexts := contexts[..|contexts| - 1];
      }
    }

    method PushPrechecked(user: User)
      modifies this
      ensures Model() == PushUser(old(Model()), user)
    {
      prechecked := prechecked + [user];
    }

    method TakePrechecked(ty: Ty) returns (r: Option<Value>)
      modifies this
      ensures r == TakeUser(old(prechecked), ty).0
      ensures Model() == old(Model()).(prechecked := TakeUser(old(prechecked), ty).1)
    {
      var queue, index := prechecked, 0;
      assert queue[0..] == queue;
      while index < |queue| && queue[index].ty != ty
        invariant index <= |queue|
        invariant Model() == old(Model())
        invariant TakeUser(queue, ty).0 == TakeUser(queue[index..], ty).0
        invariant TakeUser(queue, ty).1 == queue[..index] + TakeUser(queue[index..], ty).1
      {
        AfterFirst(queue[index], queue[index + 1..]);
        assert queue[index..] == [queue[index]] + queue[index + 1..];
        Assoc(queue[..index], [queue[index]], TakeUser(queue[index + 1..], ty).1);
        assert queue[..index + 1] == queue[..index] + [queue[index]];
        index := index + 1;
      }
      if index == |queue| {
        assert queue[index..] == [];
        assert TakeUser(queue, ty).1 == queue;
        return None;
      }
      AfterFirst(queue[index], queue[index + 1..]);
      assert queue[index..] == [queue[index]] + queue[index + 1..];
      r := Some(queue[index].value);
      prechecked := queue[..index] + queue[index + 1..];
    }

    method ResolveBasicUser(req: Request, ty: Ty, realm: Text) returns (r: Result<Value, ServerError>)
      modifies this
      ensures (r, Model()) == BasicUser(old(Model()), req, ty, realm)
    {
      var check := FindBasic(contexts, ty);
      if check.None? {
        return Err(UNCONFIGURED);
      }
      if req.authorization.None? {
        return Err(ServerError(401, Realm(realm)));
      }
      checks := checks + [Site(true, ty)];
      match check.value(req.authorization.value)
      case Some(user) => r := Ok(user);
      case None => r := Err(ServerError(401, Realm(realm)));
    }

    method ResolveProtectedUser(req: Request, ty: Ty) returns (r: Result<Value, ServerError>)
      modifies this
      ensures (r, Model()) == ProtectedUser(old(Model()), req, ty)
    {
      var check := FindAuth(contexts, ty);
      if check.None? {
        return Err(UNCONFIGURED);
      }
      checks := checks + [Site(false, ty)];
      r := check.value(req.headers);
    }

    method PreBodyCheck(chain: Chain, req: Request) returns (r: RouteResult<()>)
      modifies this
      ensures (r, Model()) == PreBody(chain, req, old(Model()))
      decreases chain
    {
      match chain
      case Verb(_, _) => r := Route(());
      case BasicAuth(ty, realm, next) =>
        var user := ResolveBasicUser(req, ty, realm);
        if user.Err? {
          return FailFatal(user.error);
        }
        PushPrechecked(User(ty, user.value));
        r := PreBodyCheck(next, req);
      case AuthProtect(ty, next) =>
        var user := ResolveProtectedUser(req, ty);
        if user.Err? {
          return FailFatal(user.error);
        }
        PushPrechecked(User(ty, user.value));
        r := PreBodyCheck(next, req);
      case NamedContext(name, next) =>
        var named := FindNamed(contexts, name);
        if named.Some? {
          PushContext(named.value);
          r := PreBodyCheck(next, req);
          PopContext();
        } else {
          r := PreBodyCheck(next, req);
        }
      case _ => r := PreBodyCheck(chain.next, req);
    }

    /** Extracts the rest of the chain after a head argument. */
    method ConsTail(arg: Arg, next: Chain, req: Request, body: RequestBody) returns (r: RouteResult<seq<Arg>>)
      modifies this, body
      ensures Extracted(r, Model(), body.slot)
           == Cons(arg, Extract(next, req, old(Model()), old(body.slot)))
      decreases next, 2
    {
      var tail := ExtractArgs(next, req, body);
      match tail
      case Route(args) => r := Route([arg] + args);
      case _ => r := tail;
    }

    /** Extraction where a capture comes first. */
    method ExtractCaptured(chain: Chain, req: Request, body: RequestBody) returns (r: RouteResult<seq<Arg>>)
      requires chain.Capture? || chain.CaptureAll?
      modifies this, body
      ensures Extracted(r, Model(), body.slot) == Extract(chain, req, old(Model()), old(body.slot))
      decreases chain, 0
    {
      match chain
      case Capture(name, codec, strict, next) =>
        var segment := NextCapture();
        if segment.None? {
          return Fail(NOT_FOUND);
        }
        match BuildCapture(strict, codec.fromPiece(segment.value)) {
          case Ok(arg) => r := ConsTail(arg, next, req, body);
          case Err(e) => r := Fail(ServerError(400, BadCapture(name, e)));
        }
      case CaptureAll(name, codec, next) =>
        var segments := TakeCaptureAll();
        var values := ParseSegments(codec, segments);
        match values {
          case Ok(vs) => r := ConsTail(Many(vs), next, req, body);
          case Err(e) => r := Fail(ServerError(400, BadCaptureAll(name, e)));
        }
    }

    /** Extraction where a query argument comes first. */
    method ExtractQuery(chain: Chain, req: Request, body: RequestBody) returns (r: RouteResult<seq<Arg>>)
      requires chain.QueryParam? || chain.QueryParams? || chain.QueryFlag? || chain.QueryString? || chain.DeepQuery?
      modifies this, body
      ensures Extracted(r, Model(), body.slot) == Extract(chain, req, old(Model()), old(body.slot))
      decreases chain, 0
    {
      match chain
      case QueryParam(name, codec, required, strict, next) =>
        match BuildArg(required, strict, QueryValue(req.query, name, codec)) {
          case Ok(arg) => r := ConsTail(arg, next, req, body);
          case Err(Missing) => r := FailFatal(ServerError(400, MissingQuery(name)));
          case Err(Unparsable) => r := FailFatal(ServerError(400, BadQuery(name)));
        }
      case QueryParams(name, codec, next) =>
        var values := CollectQueryParams(req.query, name, codec);
        match values {
          case Ok(vs) => r := ConsTail(Many(vs), next, req, body);
          case Err(_) => r := FailFatal(ServerError(400, BadQuery(name)));
        }
      case QueryFlag(name, next) =>
        r := ConsTail(Flag(FlagSet(req.query, name)), next, req, body);
      case QueryString(next) =>
        r := ConsTail(WholeQuery(req.rawQuery, req.query), next, req, body);
      case DeepQuery(name, decode, next) =>
        var entries := ParseDeepQuery(name, req.query);
        if entries.Err? || decode(entries.value).None? {
          return FailFatal(ServerError(400, BadDeepQuery(name)));
        }
        r := ConsTail(Strict(decode(entries.value).value), next, req, body);
    }

    /** Extraction where the body comes first. */
    method ExtractBody(chain: Chain, req: Request, body: RequestBody) returns (r: RouteResult<seq<Arg>>)
      requires chain.ReqBody? || chain.StreamBody?
      modifies this, body
      ensures Extracted(r, Model(), body.slot) == Extract(chain, req, old(Model()), old(body.slot))
      decreases chain, 0
    {
      match chain
      case ReqBody(_, unrender, strict, next) =>
        var bytes := body.GetBuffered();
        if bytes.Err? {
          return FailFatal(bytes.error);
        }
        var parsed := unrender(req.contentType, bytes.value);
        if parsed.None? {
          return FailFatal(ServerError(415, Detail.Plain));
        }
        match BuildArg(true, strict, parsed) {
          case Ok(arg) => r := ConsTail(arg, next, req, body);
          case Err(_) => r := FailFatal(ServerError(400, BadBody));
        }
      case StreamBody(_, next) =>
        var stream := body.TakeStream();
        match stream {
          case Err(e) => r := FailFatal(e);
          case Ok(frames) => r := ConsTail(Arg.Stream(frames), next, req, body);
        }
    }

    /** Extraction where an authenticated user comes first. */
    method ExtractUser(chain: Chain, req: Request, body: RequestBody) returns (r: RouteResult<seq<Arg>>)
      requires chain.BasicAuth? || chain.AuthProtect?
      modifies this, body
      ensures Extracted(r, Model(), body.slot) == Extract(chain, req, old(Model()), old(body.slot))
      decreases chain, 0
    {
      match chain
      case BasicAuth(ty, realm, next) =>
        var queued := TakePrechecked(ty);
        if queued.Some? {
          r := ConsTail(AuthUser(User(ty, queued.value)), next, req, body);
          return;
        }
        NothingTaken(old(prechecked), ty);
        var user := ResolveBasicUser(req, ty, realm);
        match user {
          case Ok(u) => r := ConsTail(AuthUser(User(ty, u)), next, req, body);
          case Err(e) => r := FailFatal(e);
        }
      case AuthProtect(ty, next) =>
        var queued := TakePrechecked(ty);
        if queued.Some? {
          r := ConsTail(AuthUser(User(ty, queued.value)), next, req, body);
          return;
        }
        NothingTaken(old(prechecked), ty);
        var user := ResolveProtectedUser(req, ty);
        match user {
          case Ok(u) => r := ConsTail(AuthUser(User(ty, u)), next, req, body);
          case Err(e) => r := FailFatal(e);
        }
    }

    method ExtractArgs(chain: Chain, req: Request, body: RequestBody) returns (r: RouteResult<seq<Arg>>)
      modifies this, body
      ensures Extracted(r, Model(), body.slot) == Extract(chain, req, old(Model()), old(body.slot))
      decreases chain, 1
    {
      match chain
      case Verb(_, _) => r := Route([]);
      case Header(name, codec, required, strict, next) =>
        match BuildArg(required, strict, HeaderParsed(req.headers, name, codec)) {
          case Ok(arg) => r := ConsTail(arg, next, req, body);
          case Err(Missing) => r := FailFatal(ServerError(400, MissingHeader(name)));
          case Err(Unparsable) => r := FailFatal(ServerError(400, BadHeader(name)));
        }
      case NamedContext(name, next) =>
        var named := FindNamed(contexts, name);
        if named.Some? {
          PushContext(named.value);
          r := ExtractArgs(next, req, body);
          PopContext();
        } else {
          r := ExtractArgs(next, req, body);
        }
      case WithResource(ty, next) =>
        var resource := FindResource(contexts, ty);
        if resource.None? {
          return FailFatal(UNCONFIGURED);
        }
        r := ConsTail(Strict(resource.value), next, req, body);
      case RequestInfo(read, next) => r := ConsTail(Strict(read(req)), next, req, body);
      case Path(_, next) => r := ExtractArgs(next, req, body);
      case Meta(next) => r := ExtractArgs(next, req, body);
      case Host(_, next) => r := ExtractArgs(next, req, body);
      case Capture(_, _, _, _) => r := ExtractCaptured(chain, req, body);
      case CaptureAll(_, _, _) => r := ExtractCaptured(chain, req, body);
      case QueryParam(_, _, _, _, _) => r := ExtractQuery(chain, req, body);
      case QueryParams(_, _, _) => r := ExtractQuery(chain, req, body);
      case QueryFlag(_, _) => r := ExtractQuery(chain, req, body);
      case QueryString(_) => r := ExtractQuery(chain, req, body);
      case DeepQuery(_, _, _) => r := ExtractQuery(chain, req, body);
      case ReqBody(_, _, _, _) => r := ExtractBody(chain, req, body);
      case StreamBody(_, _) => r := ExtractBody(chain, req, body);
      case BasicAuth(_, _, _) => r := ExtractUser(chain, req, body);
      case AuthProtect(_, _) => r := ExtractUser(chain, req, body);
    }
  }

  lemma {:induction false} NothingTaken(queue: seq<User>, ty: Ty)
    ensures TakeUser(queue, ty).0.None? ==> TakeUser(queue, ty).1 == queue
  {
    if queue != [] {
      NothingTaken(queue[1..], ty);
    }
  }
}
