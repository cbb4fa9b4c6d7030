/**
 What a handler receives, argument by argument: a relation between the combinators of a
 chain, the request and the arguments, and the theorem that the walks of the server, with
 their cursors, queue, context stack and body slot, compute exactly it.
 */
module Arguments {
  import opened Basics
  import opened RouteResults
  import opened RequestBodies
  import opened QueryCodec
  import opened DeepQueries
  import opened Negotiation
  import opened Chains
  import opened Endpoints
  import opened EndpointTheorems
  import opened Phases
  import opened UrlRoundTrip
  import Routing

  // ----- present or absent, strict or lenient

  /** The argument a decoding outcome stands for; an absent value has none. */
  predicate Presents(required: bool, strict: bool, outcome: Option<Parsed>, arg: Arg) {
    if required && strict then arg.Strict? && outcome == Some(Ok(arg.value))
    else if required then arg.Lenient? && outcome == Some(arg.parsed)
    else if strict then arg.Optional? && outcome == (if arg.maybe.Some? then Some(Ok(arg.maybe.value)) else None)
    else arg == OptionalLenient(outcome)
  }

  lemma {:induction false} BuildArgPresents(required: bool, strict: bool, outcome: Option<Parsed>, arg: Arg)
    ensures BuildArg(required, strict, outcome) == Ok(arg) <==> Presents(required, strict, outcome, arg)
    ensures BuildArg(required, strict, outcome) == Err(Missing) <==> required && outcome == None
    ensures BuildArg(required, strict, outcome) == Err(Unparsable)
       <==> strict && outcome.Some? && outcome.value.Err?
  {}

  // ----- reading the query

  /** The position of the first pair under a name; the number of pairs when there is none. */
  function FirstUnder(query: seq<Pair>, name: Text): (k: nat)
    ensures k <= |query| && forall j :: 0 <= j < k ==> query[j].key != name
    ensures k < |query| ==> query[k].key == name
  {
    if query == [] || query[0].key == name then 0 else 1 + FirstUnder(query[1..], name)
  }

  lemma {:induction false} LookupFindsFirst(query: seq<Pair>, name: Text)
    ensures var k := FirstUnder(query, name);
      LookupQuery(query, name) == if k < |query| then Some(query[k].value) else None
  {
    if query != [] && query[0].key != name {
      LookupFindsFirst(query[1..], name);
    }
  }

  /** The decoded first value under a name; a bare key has none. */
  function FirstValue(query: seq<Pair>, name: Text, codec: Codec): Option<Parsed> {
    var k := FirstUnder(query, name);
    if k < |query| && query[k].value.Some? then Some(codec.fromQuery(query[k].value.value)) else None
  }

  /** The first pair under the name is bare, or its value is empty, `1` or `true`. */
  predicate FlagRaised(query: seq<Pair>, name: Text) {
    var k := FirstUnder(query, name);
    k < |query| && (query[k].value.None? || query[k].value.value in [[], [49], [116, 114, 117, 101]])
  }

  /** The values under `name` and `name[]`, in the order of the query. */
  function ValuesUnder(query: seq<Pair>, name: Text): seq<Text> {
    if query == [] then []
    else (if query[0].key in [name, name + [91, 93]] && query[0].value.Some? then [query[0].value.value] else [])
         + ValuesUnder(query[1..], name)
  }

  /** Each text decodes to the value at its place. */
  ghost predicate Decode(from: Text -> Parsed, texts: seq<Text>, values: seq<Value>) {
    |values| == |texts| && forall i :: 0 <= i < |texts| ==> from(texts[i]) == Ok(values[i])
  }

  lemma {:induction false} DecodeStep(from: Text -> Parsed, text: Text, texts: seq<Text>, values: seq<Value>)
    ensures Decode(from, [text] + texts, values)
       <==> values != [] && from(text) == Ok(values[0]) && Decode(from, texts, values[1..])
  {
    if values != [] && Decode(from, [text] + texts, values) {
      assert forall i :: 0 <= i < |texts| ==> texts[i] == ([text] + texts)[i + 1];
    }
  }

  lemma {:induction false} PrependValue(v: Value, rest: Result<seq<Value>, Text>, values: seq<Value>)
    ensures Prepend([v], rest) == Ok(values) <==> values != [] && v == values[0] && rest == Ok(values[1..])
  {
    if values != [] {
      FirstAndRest(values);
    }
    if rest.Ok? {
      AfterFirst(v, rest.value);
    }
  }

  lemma {:induction false} ParseAllDecodes(codec: Codec, segments: seq<Text>, values: seq<Value>)
    ensures ParseAll(codec, segments) == Ok(values) <==> Decode(codec.fromPiece, segments, values)
  {
    if segments != [] {
      FirstAndRest(segments);
      DecodeStep(codec.fromPiece, segments[0], segments[1..], values);
      var parsed := codec.fromPiece(segments[0]);
      if parsed.Ok? {
        PrependValue(parsed.value, ParseAll(codec, segments[1..]), values);
      }
      if values != [] {
        ParseAllDecodes(codec, segments[1..], values[1..]);
      }
    }
  }

  lemma {:induction false} CollectDecodes(query: seq<Pair>, name: Text, codec: Codec, values: seq<Value>)
    ensures CollectParams(query, name, codec) == Ok(values)
       <==> Decode(codec.fromQuery, ValuesUnder(query, name), values)
  {
    if query != [] {
      var texts := ValuesUnder(query[1..], name);
      if query[0].key in [name, name + [91, 93]] && query[0].value.Some? {
        var text := query[0].value.value;
        DecodeStep(codec.fromQuery, text, texts, values);
        var parsed := codec.fromQuery(text);
        if parsed.Ok? {
          PrependValue(parsed.value, CollectParams(query[1..], name, codec), values);
        }
        if values != [] {
          CollectDecodes(query[1..], name, codec, values[1..]);
        }
      } else {
        CollectDecodes(query[1..], name, codec, values);
        NothingInFront(texts);
      }
    }
  }

  /** The decoded header, if it was sent; one that is not readable text does not parse. */
  function HeaderOutcome(headers: Headers, name: Text, codec: Codec): Option<Parsed> {
    if name !in headers then None
    else if headers[name].Readable? then Some(codec.fromHeader(headers[name].text))
    else Some(Err(NOT_TEXT))
  }

  // ----- one combinator

  /** What is left for the rest of a chain: captured segments, contexts in force, the body. */
  datatype Left = Left(captures: seq<Text>, rest: Option<seq<Text>>, contexts: seq<Context>, slot: BodySlot)

  predicate GivesArg(link: Chain) {
    !(link.Verb? || link.Path? || link.Meta? || link.Host? || link.NamedContext?)
  }

  /** The argument of one combinator. */
  ghost predicate Gives(link: Chain, arg: Arg, req: Request, left: Left) {
    match link
    case Capture(_, codec, strict, _) =>
      left.captures != [] && Presents(true, strict, Some(codec.fromPiece(left.captures[0])), arg)
    case CaptureAll(_, codec, _) => arg.Many? && Decode(codec.fromPiece, left.rest.GetOr([]), arg.values)
    case QueryParam(name, codec, required, strict, _) =>
      Presents(required, strict, FirstValue(req.query, name, codec), arg)
    case QueryParams(name, codec, _) => arg.Many? && Decode(codec.fromQuery, ValuesUnder(req.query, name), arg.values)
    case QueryFlag(name, _) => arg == Flag(FlagRaised(req.query, name))
    case QueryString(_) => arg == WholeQuery(req.rawQuery, req.query)
    case DeepQuery(name, decode, _) =>
      arg.Strict? && exists entries :: DeepValue(name, req.query, decode, entries, arg.value)
    case Header(name, codec, required, strict, _) =>
      Presents(required, strict, HeaderOutcome(req.headers, name, codec), arg)
    case ReqBody(_, unrender, strict, _) =>
      left.slot.Buffered? && unrender(req.contentType, left.slot.bytes).Some?
      && Presents(true, strict, unrender(req.contentType, left.slot.bytes), arg)
    case StreamBody(_, _) => arg.Stream? && left.slot == Streaming(Some(arg.body))
    case BasicAuth(ty, _, _) =>
      var check := FindBasic(left.contexts, ty);
      check.Some? && req.authorization.Some? && arg.AuthUser?
      && check.value(req.authorization.value) == Some(arg.user.value) && arg.user.ty == ty
    case AuthProtect(ty, _) =>
      var check := FindAuth(left.contexts, ty);
      check.Some? && arg.AuthUser? && check.value(req.headers) == Ok(arg.user.value) && arg.user.ty == ty
    case WithResource(ty, _) => arg.Strict? && FindResource(left.contexts, ty) == Some(arg.value)
    case RequestInfo(read, _) => arg == Strict(read(req))
    case _ => false
  }

  /** The entries under the name, decoded. */
  ghost predicate DeepValue(name: Text, query: seq<Pair>, decode: seq<Entry> -> Option<Value>, entries: seq<Entry>,
                            value: Value) {
    EntriesOf(name, Rooted(name, query), entries) && decode(entries) == Some(value)
  }

  /** What a combinator leaves for those after it. */
  function Past(link: Chain, left: Left): Left {
    match link
    case Capture(_, _, _, _) => if left.captures == [] then left else left.(captures := left.captures[1..])
    case CaptureAll(_, _, _) => left.(rest := None)
    case StreamBody(_, _) => left.(slot := Taken)
    case NamedContext(name, _) =>
      var named := FindNamed(left.contexts, name);
      if named.Some? then left.(contexts := left.contexts + [named.value]) else left
    case _ => left
  }

  /** The arguments of a chain: one for each combinator that gives one, in order, and no more. */
  ghost predicate ArgsAre(chain: Chain, args: seq<Arg>, req: Request, left: Left) {
    if chain.Verb? then args == []
    else if GivesArg(chain) then
      args != [] && Gives(chain, args[0], req, left) && ArgsAre(chain.next, args[1..], req, Past(chain, left))
    else ArgsAre(chain.next, args, req, Past(chain, left))
  }

  // ----- the walk of extraction, step by step

  function LeftOf(st: State, slot: BodySlot): Left {
    Left(st.captures, st.captureAll, st.contexts, slot)
  }

  lemma {:induction false} ConsGives(arg: Arg, rest: Extracted, args: seq<Arg>)
    ensures Cons(arg, rest).result == Route(args) <==> args != [] && arg == args[0] && rest.result == Route(args[1..])
  {
    if args != [] {
      ConsIs(arg, rest, args);
    } else if rest.result.Route? {
      assert |[arg] + rest.result.value| > 0;
    }
  }

  /** The state in which the rest of the chain is extracted. */
  function NextState(link: Chain, st: State): State {
    match link
    case Capture(_, _, _, _) => if st.captures == [] then st else st.(captures := st.captures[1..])
    case CaptureAll(_, _, _) => st.(captureAll := None)
    case BasicAuth(_, _, _) => if st.prechecked == [] then st else st.(prechecked := st.prechecked[1..])
    case AuthProtect(_, _) => if st.prechecked == [] then st else st.(prechecked := st.prechecked[1..])
    case _ => st
  }

  /** One combinator gives exactly the argument it should, and leaves the rest to the others. */
  ghost predicate StepReads(chain: Chain, req: Request, st: State, slot: BodySlot, args: seq<Arg>)
    requires !chain.Verb?
  {
    var rest := Extract(chain.next, req, NextState(chain, st), Past(chain, LeftOf(st, slot)).slot);
    Extract(chain, req, st, slot).result == Route(args)
    <==> args != [] && Gives(chain, args[0], req, LeftOf(st, slot)) && rest.result == Route(args[1..])
  }

  lemma {:induction false} CaptureReads(chain: Chain, req: Request, st: State, slot: BodySlot, args: seq<Arg>)
    requires chain.Capture? || chain.CaptureAll?
    ensures StepReads(chain, req, st, slot, args)
  {
    var rest := Extract(chain.next, req, NextState(chain, st), slot);
    if chain.CaptureAll? {
      var segments := st.captureAll.GetOr([]);
      var parsed := ParseAll(chain.codec, segments);
      if parsed.Ok? {
        ConsGives(Many(parsed.value), rest, args);
      }
      if args != [] && args[0].Many? {
        ParseAllDecodes(chain.codec, segments, args[0].values);
      }
    } else if st.captures != [] {
      var built := BuildCapture(chain.strict, chain.codec.fromPiece(st.captures[0]));
      if built.Ok? {
        ConsGives(built.value, rest, args);
      }
    }
  }

  lemma {:induction false} OutcomeReads(required: bool, strict: bool, outcome: Option<Parsed>, rest: Extracted,
        args: seq<Arg>)
    ensures var built := BuildArg(required, strict, outcome);
      built.Ok? && Cons(built.value, rest).result == Route(args)
      <==> args != [] && Presents(required, strict, outcome, args[0]) && rest.result == Route(args[1..])
  {
    var built := BuildArg(required, strict, outcome);
    if built.Ok? {
      ConsGives(built.value, rest, args);
    }
    if args != [] {
      BuildArgPresents(required, strict, outcome, args[0]);
    }
  }

  lemma {:induction false} QueryReads(chain: Chain, req: Request, st: State, slot: BodySlot, args: seq<Arg>)
    requires chain.QueryParam? || chain.QueryParams?
    ensures StepReads(chain, req, st, slot, args)
  {
    var rest := Extract(chain.next, req, st, slot);
    if chain.QueryParam? {
      LookupFindsFirst(req.query, chain.name);
      OutcomeReads(chain.required, chain.strict, QueryValue(req.query, chain.name, chain.codec), rest, args);
    } else {
      var values := CollectParams(req.query, chain.name, chain.codec);
      if values.Ok? {
        ConsGives(Many(values.value), rest, args);
      }
      if args != [] && args[0].Many? {
        CollectDecodes(req.query, chain.name, chain.codec, args[0].values);
      }
    }
  }

  lemma {:induction false} WholeReads(chain: Chain, req: Request, st: State, slot: BodySlot, args: seq<Arg>)
    requires chain.QueryFlag? || chain.QueryString? || chain.RequestInfo?
    ensures StepReads(chain, req, st, slot, args)
  {
    var rest := Extract(chain.next, req, st, slot);
    match chain
    case QueryFlag(name, _) =>
      LookupFindsFirst(req.query, name);
      ConsGives(Flag(FlagSet(req.query, name)), rest, args);
    case QueryString(_) => ConsGives(WholeQuery(req.rawQuery, req.query), rest, args);
    case RequestInfo(read, _) => ConsGives(Strict(read(req)), rest, args);
  }

  lemma {:induction false} DeepReads(chain: Chain, req: Request, st: State, slot: BodySlot, args: seq<Arg>)
    requires chain.DeepQuery?
    ensures StepReads(chain, req, st, slot, args)
  {
    var rest := Extract(chain.next, req, st, slot);
    var parsed := ParseDeep(chain.name, req.query);
    forall entries ensures parsed == Ok(entries) <==> EntriesOf(chain.name, Rooted(chain.name, req.query), entries) {
      ParseDeepIff(chain.name, req.query, entries);
    }
    if parsed.Ok? && chain.decode(parsed.value).Some? {
      var value := chain.decode(parsed.value).value;
      ConsGives(Strict(value), rest, args);
      assert DeepValue(chain.name, req.query, chain.decode, parsed.value, value);
    }
  }

  lemma {:induction false} HeldReads(chain: Chain, req: Request, st: State, slot: BodySlot, args: seq<Arg>)
    requires chain.Header? || chain.WithResource?
    ensures StepReads(chain, req, st, slot, args)
  {
    var rest := Extract(chain.next, req, st, slot);
    if chain.Header? {
      OutcomeReads(chain.required, chain.strict, HeaderParsed(req.headers, chain.name, chain.codec), rest, args);
    } else if FindResource(st.contexts, chain.resource).Some? {
      ConsGives(Strict(FindResource(st.contexts, chain.resource).value), rest, args);
    }
  }

  lemma {:induction false} BodyReads(chain: Chain, req: Request, st: State, slot: BodySlot, args: seq<Arg>)
    requires TakesBody(chain)
    ensures StepReads(chain, req, st, slot, args)
  {
    if chain.StreamBody? {
      var (taken, slot') := TakeSlot(slot);
      if taken.Ok? {
        ConsGives(Arg.Stream(taken.value), Extract(chain.next, req, st, slot'), args);
      }
    } else if slot.Buffered? {
      var outcome := chain.unrender(req.contentType, slot.bytes);
      OutcomeReads(true, chain.strict, outcome, Extract(chain.next, req, st, slot), args);
    }
  }

  lemma {:induction false} UserReads(chain: Chain, req: Request, st: State, slot: BodySlot, args: seq<Arg>)
    requires chain.BasicAuth? || chain.AuthProtect?
    requires Authenticate(chain, req, st.contexts) == Ok(st.prechecked)
    ensures StepReads(chain, req, st, slot, args)
    ensures Authenticate(chain.next, req, st.contexts) == Ok(NextState(chain, st).prechecked)
  {
    TakesHead(st, chain.user, Authenticate(chain.next, req, st.contexts));
    ConsGives(AuthUser(st.prechecked[0]), Extract(chain.next, req, NextState(chain, st), slot), args);
  }

  /** Extraction gives exactly the arguments of the chain, users being taken from the queue in order. */
  lemma {:induction false} ExtractReads(chain: Chain, req: Request, st: State, slot: BodySlot, args: seq<Arg>)
    requires Authenticate(chain, req, st.contexts) == Ok(st.prechecked)
    ensures Extract(chain, req, st, slot).result == Route(args) <==> ArgsAre(chain, args, req, LeftOf(st, slot))
    decreases chain, 1
  {
    match chain
    case Verb(_, _) =>
    case NamedContext(name, next) =>
      var named := FindNamed(st.contexts, name);
      var st' := if named.Some? then st.(contexts := st.contexts + [named.value]) else st;
      ExtractReads(next, req, st', slot, args);
    case Path(_, next) => ExtractReads(next, req, st, slot, args);
    case Meta(next) => ExtractReads(next, req, st, slot, args);
    case Host(_, next) => ExtractReads(next, req, st, slot, args);
    case _ => ArgThenRest(chain, req, st, slot, args);
  }

  lemma {:induction false} ArgThenRest(chain: Chain, req: Request, st: State, slot: BodySlot, args: seq<Arg>)
    requires GivesArg(chain)
    requires Authenticate(chain, req, st.contexts) == Ok(st.prechecked)
    ensures Extract(chain, req, st, slot).result == Route(args) <==> ArgsAre(chain, args, req, LeftOf(st, slot))
    decreases chain, 0
  {
    OwnReads(chain, req, st, slot, args);
    NextLeft(chain, req, st, slot);
    if args != [] {
      ExtractReads(chain.next, req, NextState(chain, st), Past(chain, LeftOf(st, slot)).slot, args[1..]);
    }
  }

  lemma {:induction false} OwnReads(chain: Chain, req: Request, st: State, slot: BodySlot, args: seq<Arg>)
    requires GivesArg(chain)
    requires Authenticate(chain, req, st.contexts) == Ok(st.prechecked)
    ensures StepReads(chain, req, st, slot, args)
  {
    if chain.Capture? || chain.CaptureAll? {
      CaptureReads(chain, req, st, slot, args);
    } else if chain.QueryParam? || chain.QueryParams? {
      QueryReads(chain, req, st, slot, args);
    } else if chain.QueryFlag? || chain.QueryString? || chain.RequestInfo? {
      WholeReads(chain, req, st, slot, args);
    } else if chain.DeepQuery? {
      DeepReads(chain, req, st, slot, args);
    } else if chain.Header? || chain.WithResource? {
      HeldReads(chain, req, st, slot, args);
    } else if TakesBody(chain) {
      BodyReads(chain, req, st, slot, args);
    } else {
      UserReads(chain, req, st, slot, args);
    }
  }

  lemma {:induction false} NextLeft(chain: Chain, req: Request, st: State, slot: BodySlot)
    requires GivesArg(chain)
    requires Authenticate(chain, req, st.contexts) == Ok(st.prechecked)
    ensures var left := Past(chain, LeftOf(st, slot));
      LeftOf(NextState(chain, st), left.slot) == left
    ensures Authenticate(chain.next, req, NextState(chain, st).contexts) == Ok(NextState(chain, st).prechecked)
  {
    if chain.BasicAuth? || chain.AuthProtect? {
      UserReads(chain, req, st, slot, []);
    }
  }

  // ----- which combinator refuses, and with what

  /** What is told when a value is missing, or is there and must parse but does not. */
  predicate OutcomeRefused(required: bool, strict: bool, outcome: Option<Parsed>, missing: Detail, bad: Detail,
                           e: ServerError) {
    || (required && outcome == None && e == ServerError(400, missing))
    || (strict && outcome.Some? && outcome.value.Err? && e == ServerError(400, bad))
  }

  /** The error with which a combinator that commits refuses a request. */
  ghost predicate Refuses(link: Chain, e: ServerError, req: Request, left: Left) {
    match link
    case QueryParam(name, codec, required, strict, _) =>
      OutcomeRefused(required, strict, FirstValue(req.query, name, codec), MissingQuery(name), BadQuery(name), e)
    case QueryParams(name, codec, _) =>
      e == ServerError(400, BadQuery(name))
      && exists text :: text in ValuesUnder(req.query, name) && codec.fromQuery(text).Err?
    case DeepQuery(name, decode, _) =>
      e == ServerError(400, BadDeepQuery(name))
      && forall entries :: EntriesOf(name, Rooted(name, req.query), entries) ==> decode(entries).None?
    case Header(name, codec, required, strict, _) =>
      OutcomeRefused(required, strict, HeaderOutcome(req.headers, name, codec), MissingHeader(name), BadHeader(name), e)
    case ReqBody(_, unrender, strict, _) =>
      if !left.slot.Buffered? then e == ServerError(500, BodyNotBuffered)
      else if unrender(req.contentType, left.slot.bytes).None? then e == ServerError(415, Plain)
      else strict && unrender(req.contentType, left.slot.bytes).value.Err? && e == ServerError(400, BadBody)
    case StreamBody(_, _) =>
      if left.slot.Buffered? then e == ServerError(500, BodyAlreadyBuffered)
      else (left.slot.Taken? || left.slot.body.None?) && e == ServerError(500, BodyConsumed)
    case WithResource(ty, _) => FindResource(left.contexts, ty).None? && e == ServerError(500, NotConfigured)
    case _ => false
  }

  ghost predicate Passes(link: Chain, req: Request, left: Left) {
    GivesArg(link) ==> exists arg :: Gives(link, arg, req, left)
  }

  /** The first combinator that does not pass refuses with this error. */
  ghost predicate RefusedBy(chain: Chain, e: ServerError, req: Request, left: Left) {
    !chain.Verb?
    && (Refuses(chain, e, req, left)
        || (Passes(chain, req, left) && RefusedBy(chain.next, e, req, Past(chain, left))))
  }

  /** A combinator refuses with its own error, or passes the error of the rest on. */
  ghost predicate StepRefuses(chain: Chain, req: Request, st: State, slot: BodySlot)
    requires !chain.Verb?
  {
    var left := LeftOf(st, slot);
    var r := Extract(chain, req, st, slot).result;
    r.FailFatal? ==>
      || Refuses(chain, r.error, req, left)
      || (Passes(chain, req, left)
          && Extract(chain.next, req, NextState(chain, st), Past(chain, left).slot).result == r)
  }

  lemma {:induction false} OutcomeRefuses(required: bool, strict: bool, outcome: Option<Parsed>)
    ensures var built := BuildArg(required, strict, outcome);
      if built.Ok? then Presents(required, strict, outcome, built.value)
      else if built.error.Missing? then required && outcome == None
      else strict && outcome.Some? && outcome.value.Err?
  {}

  lemma {:induction false} ValueRefuses(chain: Chain, req: Request, st: State, slot: BodySlot)
    requires chain.QueryParam? || chain.Header?
    ensures StepRefuses(chain, req, st, slot)
  {
    var outcome := if chain.QueryParam? then FirstValue(req.query, chain.name, chain.codec)
                   else HeaderOutcome(req.headers, chain.name, chain.codec);
    if chain.QueryParam? {
      LookupFindsFirst(req.query, chain.name);
    }
    OutcomeRefuses(chain.required, chain.strict, outcome);
    var built := BuildArg(chain.required, chain.strict, outcome);
    if built.Ok? {
      assert Gives(chain, built.value, req, LeftOf(st, slot));
    }
  }

  lemma {:induction false} CollectRefuses(query: seq<Pair>, name: Text, codec: Codec)
    ensures CollectParams(query, name, codec).Err? ==>
      exists text :: text in ValuesUnder(query, name) && codec.fromQuery(text).Err?
  {
    if query != [] {
      CollectRefuses(query[1..], name, codec);
      assert forall text :: text in ValuesUnder(query[1..], name) ==> text in ValuesUnder(query, name);
    }
  }

  lemma {:induction false} ListRefuses(chain: Chain, req: Request, st: State, slot: BodySlot)
    requires chain.QueryParams?
    ensures StepRefuses(chain, req, st, slot)
  {
    CollectRefuses(req.query, chain.name, chain.codec);
    var values := CollectParams(req.query, chain.name, chain.codec);
    if values.Ok? {
      CollectDecodes(req.query, chain.name, chain.codec, values.value);
      assert Gives(chain, Many(values.value), req, LeftOf(st, slot));
    }
  }

  lemma {:induction false} DeepRefuses(chain: Chain, req: Request, st: State, slot: BodySlot)
    requires chain.DeepQuery?
    ensures StepRefuses(chain, req, st, slot)
  {
    var parsed := ParseDeep(chain.name, req.query);
    forall entries ensures parsed == Ok(entries) <==> EntriesOf(chain.name, Rooted(chain.name, req.query), entries) {
      ParseDeepIff(chain.name, req.query, entries);
    }
    if parsed.Ok? && chain.decode(parsed.value).Some? {
      var value := chain.decode(parsed.value).value;
      assert DeepValue(chain.name, req.query, chain.decode, parsed.value, value);
      assert Gives(chain, Strict(value), req, LeftOf(st, slot));
    }
  }

  lemma {:induction false} BodyRefuses(chain: Chain, req: Request, st: State, slot: BodySlot)
    requires TakesBody(chain)
    ensures StepRefuses(chain, req, st, slot)
  {
    if chain.StreamBody? {
      var taken := TakeSlot(slot).0;
      if taken.Ok? {
        assert Gives(chain, Arg.Stream(taken.value), req, LeftOf(st, slot));
      }
    } else if slot.Buffered? {
      var outcome := chain.unrender(req.contentType, slot.bytes);
      OutcomeRefuses(true, chain.strict, outcome);
      if outcome.Some? && BuildArg(true, chain.strict, outcome).Ok? {
        assert Gives(chain, BuildArg(true, chain.strict, outcome).value, req, LeftOf(st, slot));
      }
    }
  }

  lemma {:induction false} HeldRefuses(chain: Chain, req: Request, st: State, slot: BodySlot)
    requires chain.QueryFlag? || chain.QueryString? || chain.RequestInfo? || chain.WithResource?
    ensures StepRefuses(chain, req, st, slot)
  {
    var left := LeftOf(st, slot);
    match chain
    case QueryFlag(name, _) => assert Gives(chain, Flag(FlagRaised(req.query, name)), req, left);
    case QueryString(_) => assert Gives(chain, WholeQuery(req.rawQuery, req.query), req, left);
    case RequestInfo(read, _) => assert Gives(chain, Strict(read(req)), req, left);
    case WithResource(ty, _) =>
      if FindResource(st.contexts, ty).Some? {
        assert Gives(chain, Strict(FindResource(st.contexts, ty).value), req, left);
      }
  }

  lemma {:induction false} CaptureRefuses(chain: Chain, req: Request, st: State, slot: BodySlot)
    requires chain.Capture? || chain.CaptureAll?
    ensures StepRefuses(chain, req, st, slot)
  {
    var left := LeftOf(st, slot);
    if chain.CaptureAll? {
      var parsed := ParseAll(chain.codec, st.captureAll.GetOr([]));
      if parsed.Ok? {
        ParseAllDecodes(chain.codec, st.captureAll.GetOr([]), parsed.value);
        assert Gives(chain, Many(parsed.value), req, left);
      }
    } else if st.captures != [] {
      var built := BuildCapture(chain.strict, chain.codec.fromPiece(st.captures[0]));
      if built.Ok? {
        assert Gives(chain, built.value, req, left);
      }
    }
  }

  lemma {:induction false} UserRefuses(chain: Chain, req: Request, st: State, slot: BodySlot)
    requires chain.BasicAuth? || chain.AuthProtect?
    requires Authenticate(chain, req, st.contexts) == Ok(st.prechecked)
    ensures StepRefuses(chain, req, st, slot)
  {
    TakesHead(st, chain.user, Authenticate(chain.next, req, st.contexts));
    assert Gives(chain, AuthUser(st.prechecked[0]), req, LeftOf(st, slot));
  }

  lemma {:induction false} OwnRefuses(chain: Chain, req: Request, st: State, slot: BodySlot)
    requires GivesArg(chain)
    requires Authenticate(chain, req, st.contexts) == Ok(st.prechecked)
    ensures StepRefuses(chain, req, st, slot)
  {
    if chain.Capture? || chain.CaptureAll? {
      CaptureRefuses(chain, req, st, slot);
    } else if chain.QueryParam? || chain.Header? {
      ValueRefuses(chain, req, st, slot);
    } else if chain.QueryParams? {
      ListRefuses(chain, req, st, slot);
    } else if chain.DeepQuery? {
      DeepRefuses(chain, req, st, slot);
    } else if TakesBody(chain) {
      BodyRefuses(chain, req, st, slot);
    } else if chain.BasicAuth? || chain.AuthProtect? {
      UserRefuses(chain, req, st, slot);
    } else {
      HeldRefuses(chain, req, st, slot);
    }
  }

  /** Extraction that commits to a failure does so as the first combinator that refuses. */
  lemma {:induction false} ExtractRefuses(chain: Chain, req: Request, st: State, slot: BodySlot)
    requires Authenticate(chain, req, st.contexts) == Ok(st.prechecked)
    ensures var r := Extract(chain, req, st, slot).result;
      r.FailFatal? ==> RefusedBy(chain, r.error, req, LeftOf(st, slot))
    decreases chain
  {
    match chain
    case Verb(_, _) =>
    case NamedContext(name, next) =>
      var named := FindNamed(st.contexts, name);
      ExtractRefuses(next, req, if named.Some? then st.(contexts := st.contexts + [named.value]) else st, slot);
    case Path(_, next) => ExtractRefuses(next, req, st, slot);
    case Meta(next) => ExtractRefuses(next, req, st, slot);
    case Host(_, next) => ExtractRefuses(next, req, st, slot);
    case _ => ArgOrRest(chain, req, st, slot);
  }

  lemma {:induction false} ArgOrRest(chain: Chain, req: Request, st: State, slot: BodySlot)
    requires GivesArg(chain)
    requires Authenticate(chain, req, st.contexts) == Ok(st.prechecked)
    ensures var r := Extract(chain, req, st, slot).result;
      r.FailFatal? ==> RefusedBy(chain, r.error, req, LeftOf(st, slot))
    decreases chain, 0
  {
    OwnRefuses(chain, req, st, slot);
    NextLeft(chain, req, st, slot);
    ExtractRefuses(chain.next, req, NextState(chain, st), Past(chain, LeftOf(st, slot)).slot);
  }

  // ----- the endpoint on a fresh body

  /** The arguments of a chain include its users, so its checks have passed. */
  lemma {:induction false} ArgsAuthenticate(chain: Chain, args: seq<Arg>, req: Request, left: Left)
    requires ArgsAre(chain, args, req, left)
    ensures Authenticate(chain, req, left.contexts).Ok?
    decreases chain
  {
    if GivesArg(chain) {
      ArgsAuthenticate(chain.next, args[1..], req, Past(chain, left));
    } else if !chain.Verb? {
      ArgsAuthenticate(chain.next, args, req, Past(chain, left));
    }
  }

  /** What a chain starts from: the captures, the endpoint's own context, and the body, whole or still to come. */
  ghost function Start(chain: Chain, context: Context, call: Routing.Call, body: Body): Left {
    Left(call.captures, call.captureAll, [context],
         if Buffers(Places(chain, 0)) then Buffered(DataIn(body)) else Streaming(Some(body)))
  }

  /** The body can be read: it is not asked for whole, or none of its frames is broken and the data fits the limit. */
  ghost predicate BodyReady(chain: Chain, body: Body, maxBytes: nat) {
    Buffers(Places(chain, 0)) ==> (forall f <- body :: !f.Broken?) && |DataIn(body)| <= maxBytes
  }

  lemma {:induction false} ReadyIsCollected(body: Body, maxBytes: nat)
    ensures (forall f <- body :: !f.Broken?) && |DataIn(body)| <= maxBytes <==> Collected(body, maxBytes).Ok?
    ensures Collected(body, maxBytes).Ok? ==> Collected(body, maxBytes) == Ok(DataIn(body))
  {
    assert body[..|body|] == body;
    if BreaksAt(body) < |body| {
      assert body[BreaksAt(body)] in body;
    }
  }

  /** Extraction after the checks, on a fresh body. */
  lemma {:induction false} ExtractsFresh(chain: Chain, context: Context, req: Request, maxBytes: nat,
        call: Routing.Call, body: Body, st: State, args: seq<Arg>)
    requires st.captures == call.captures && st.captureAll == call.captureAll && st.contexts == [context]
    requires Authenticate(chain, req, [context]) == Ok(st.prechecked)
    ensures Extracts(chain, req, maxBytes, st, Streaming(Some(body))).0 == Some(args)
       <==> BodyReady(chain, body, maxBytes) && ArgsAre(chain, args, req, Start(chain, context, call, body))
  {
    BuffersDecides(chain, 0);
    ReadyIsCollected(body, maxBytes);
    ExtractReads(chain, req, st, Start(chain, context, call, body).slot, args);
  }

  /**
   A handler receives an argument list if and only if the request passes the phases, the body
   can be read, and the list is that of the chain: for every combinator in order its own
   argument, a request body being the decoding of all the data frames of the body, a stream
   the body itself, a user the one the innermost check in force gives.
   */
  lemma {:induction false} HandlerReceives(chain: Chain, context: Context, req: Request, maxBytes: nat,
        call: Routing.Call, body: Body, args: seq<Arg>)
    ensures Received(chain, context, req, maxBytes, call, Streaming(Some(body))).0 == Some(args)
       <==> && Admitted(chain, req, call)
            && BodyReady(chain, body, maxBytes)
            && ArgsAre(chain, args, req, Start(chain, context, call, body))
  {
    GateAdmits(chain, req, call);
    if Gate(chain, req, call).Route? {
      var (checked, st) := PreBody(chain, req, StartState(context, call));
      PreBodyAuthenticates(chain, req, StartState(context, call));
      PreBodyNeverFails(chain, req, StartState(context, call));
      if checked.Route? {
        NothingInFront(Authenticate(chain, req, [context]).value);
        ExtractsFresh(chain, context, req, maxBytes, call, body, st, args);
      } else if ArgsAre(chain, args, req, Start(chain, context, call, body)) {
        ArgsAuthenticate(chain, args, req, Start(chain, context, call, body));
      }
    }
  }

  // ----- what the endpoint answers

  /** The output in the best acceptable media type, by the codec that lists it; for HEAD without its body. */
  ghost predicate Represents(chain: Chain, req: Request, output: Value, response: Response) {
    && response.Rendered? && response.output == output && response.headOnly == req.isHead
    && match End(chain).markers
       case None => response.mime == None && response.codec == None
       case Some(markers) => exists idx: nat, k: nat :: RepresentedAs(markers, req.accept, idx, k, response)
  }

  ghost predicate RepresentedAs(markers: seq<seq<Mime>>, accept: Option<seq<MediaRange>>, idx: nat, k: nat,
                                response: Response)
    requires response.Rendered?
  {
    && IsOptimal(EffectiveRanges(accept), Flatten(markers), |Flatten(markers)|, idx)
    && response.mime == Some(Flatten(markers)[idx]) && response.codec == Some(k) && k < |markers|
    && |Flatten(markers[..k])| <= idx < |Flatten(markers[..k])| + |markers[k]|
  }

  /** A handler's output is represented, and its error is itself the response. */
  ghost predicate Responds(chain: Chain, handler: Handler, req: Request, args: seq<Arg>, response: Response) {
    match handler(args)
    case Ok(output) => Represents(chain, req, output, response)
    case Err(e) => response == ErrorResponse(e)
  }

  lemma {:induction false} RespondResponds(chain: Chain, handler: Handler, req: Request, args: seq<Arg>)
    requires AcceptOk(chain, req.accept)
    ensures Responds(chain, handler, req, args, Respond(chain, handler, req, args))
  {
    EndIsTerminal(chain, 0);
    var markers := End(chain).markers;
    if markers.Some? && handler(args).Ok? {
      var idx := Negotiate(req.accept, Flatten(markers.value)).value;
      NegotiateOptimal(req.accept, Flatten(markers.value));
      OwnerOwns(markers.value, idx);
      var k := Owner(markers.value, idx).value;
      assert RepresentedAs(markers.value, req.accept, idx, k, Respond(chain, handler, req, args));
    }
  }

  /** The handler's response to the chain's arguments, or the refusal of the first combinator that has none. */
  ghost predicate Concludes(chain: Chain, handler: Handler, req: Request, left: Left, r: RouteResult<Response>) {
    match r
    case Route(response) =>
      exists args :: ArgsAre(chain, args, req, left) && Responds(chain, handler, req, args, response)
    case FailFatal(e) => RefusedBy(chain, e, req, left)
    case Fail(_) => false
  }

  lemma {:induction false} ExtractConcludes(chain: Chain, handler: Handler, req: Request, maxBytes: nat, st: State,
        slot: BodySlot)
    requires AcceptOk(chain, req.accept)
    requires Authenticate(chain, req, st.contexts) == Ok(st.prechecked)
    requires BodyModeOf(chain) != BufferedBody || slot.Buffered?
    requires !Extract(chain, req, st, slot).result.Fail?
    ensures Concludes(chain, handler, req, LeftOf(st, slot), AfterChecks(chain, handler, req, maxBytes, st, slot).0)
  {
    var r := Extract(chain, req, st, slot).result;
    ExtractRefuses(chain, req, st, slot);
    if r.Route? {
      ExtractReads(chain, req, st, slot, r.value);
      RespondResponds(chain, handler, req, r.value);
    }
  }

  lemma {:induction false} AfterBuffering(chain: Chain, handler: Handler, req: Request, maxBytes: nat, st: State,
        body: Body)
    requires AcceptOk(chain, req.accept)
    requires BodyModeOf(chain) == BufferedBody ==> Collected(body, maxBytes) == Ok(DataIn(body))
    ensures var slot := if BodyModeOf(chain) == BufferedBody then Buffered(DataIn(body)) else Streaming(Some(body));
      AfterChecks(chain, handler, req, maxBytes, st, Streaming(Some(body)))
      == AfterChecks(chain, handler, req, maxBytes, st, slot)
  {}

  /** Past the gate, the checks decide before anything else happens. */
  lemma {:induction false} CheckedCall(chain: Chain, handler: Handler, context: Context, req: Request, maxBytes: nat,
        call: Routing.Call, slot: BodySlot)
    requires Gate(chain, req, call).Route? && AcceptOk(chain, req.accept)
    ensures var users := Authenticate(chain, req, [context]);
      var st := PreBody(chain, req, StartState(context, call)).1;
      && (users.Ok? ==>
           && st.prechecked == users.value
           && LeftOf(st, slot) == Left(call.captures, call.captureAll, [context], slot))
      && EndpointCall(chain, handler, context, req, maxBytes, call, slot)
         == if users.Err? then (FailFatal(users.error), slot)
            else AfterChecks(chain, handler, req, maxBytes, st, slot)
  {
    PreBodyAuthenticates(chain, req, StartState(context, call));
    PreBodyNeverFails(chain, req, StartState(context, call));
    if Authenticate(chain, req, [context]).Ok? {
      NothingInFront(Authenticate(chain, req, [context]).value);
    }
  }

  /**
   An admitted request on a fresh body, to the end: the first check that refuses is the answer,
   with the body untouched; then a body that is asked for whole and cannot be read; then the
   handler's response to the chain's arguments, or the first combinator that refuses.
   */
  lemma {:induction false} EndpointOnFreshBody(chain: Chain, handler: Handler, context: Context, req: Request,
        maxBytes: nat, call: Routing.Call, body: Body)
    requires Admitted(chain, req, call)
    ensures var (r, slot') := EndpointCall(chain, handler, context, req, maxBytes, call, Streaming(Some(body)));
      var users := Authenticate(chain, req, [context]);
      if users.Err? then (r, slot') == (FailFatal(users.error), Streaming(Some(body)))
      else if !BodyReady(chain, body, maxBytes) then
        Collected(body, maxBytes).Err? && (r, slot') == (FailFatal(Collected(body, maxBytes).error), Taken)
      else Concludes(chain, handler, req, Start(chain, context, call, body), r)
  {
    GateAdmits(chain, req, call);
    GateAccepts(chain, req, call);
    CheckedCall(chain, handler, context, req, maxBytes, call, Streaming(Some(body)));
    BuffersDecides(chain, 0);
    ReadyIsCollected(body, maxBytes);
    if Authenticate(chain, req, [context]).Ok? && BodyReady(chain, body, maxBytes) {
      var st := PreBody(chain, req, StartState(context, call)).1;
      var slot := Start(chain, context, call, body).slot;
      GatedNeverFails(chain, context, req, call, slot);
      ExtractConcludes(chain, handler, req, maxBytes, st, slot);
      AfterBuffering(chain, handler, req, maxBytes, st, body);
    }
  }
}
