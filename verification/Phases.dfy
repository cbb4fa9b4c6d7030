/**
 What the phases before the body decide, told of the request and of the combinators of a
 chain by their place in it.
 */
module Phases {
  import opened Basics
  import opened RouteResults
  import opened RequestBodies
  import opened Negotiation
  import opened Chains
  import opened Endpoints
  import opened EndpointTheorems
  import Routing

  // ----- the combinators of a chain

  /** A combinator, and how many captured segments those before it take. */
  datatype Place = Place(link: Chain, before: nat)

  /** The combinators of a chain in order, the terminal one last. */
  function Places(chain: Chain, before: nat): (places: seq<Place>)
    ensures places != [] && places[|places| - 1].link.Verb?
  {
    if chain.Verb? then [Place(chain, before)]
    else [Place(chain, before)] + Places(chain.next, before + (if chain.Capture? then 1 else 0))
  }

  // ----- phase 1

  /** The first segment that does not parse is the one whose error is told. */
  predicate FirstUnparsed(codec: Codec, segments: seq<Text>, k: nat, why: Text) {
    && k < |segments| && codec.fromPiece(segments[k]) == Err(why)
    && forall j :: 0 <= j < k ==> codec.fromPiece(segments[j]).Ok?
  }

  lemma {:induction false} ParseAllFails(codec: Codec, segments: seq<Text>, k: nat, why: Text)
    requires FirstUnparsed(codec, segments, k, why)
    ensures ParseAll(codec, segments) == Err(why)
  {
    if k > 0 {
      assert forall j :: 0 <= j < k - 1 ==> segments[1..][j] == segments[j + 1];
      ParseAllFails(codec, segments[1..], k - 1, why);
    }
  }

  lemma {:induction false} ParseAllParses(codec: Codec, segments: seq<Text>)
    requires forall s <- segments :: codec.fromPiece(s).Ok?
    ensures var parsed := ParseAll(codec, segments);
      && parsed.Ok? && |parsed.value| == |segments|
      && forall i :: 0 <= i < |segments| ==> codec.fromPiece(segments[i]) == Ok(parsed.value[i])
  {
    if segments != [] {
      assert segments[0] in segments && forall s <- segments[1..] :: s in segments;
      ParseAllParses(codec, segments[1..]);
    }
  }

  /** Nothing about the captured text stops this combinator; `n` captures come before it. */
  ghost predicate Stands(link: Chain, call: Routing.Call, n: nat) {
    match link
    case Capture(_, codec, strict, _) =>
      n < |call.captures| && (strict ==> codec.fromPiece(call.captures[n]).Ok?)
    case CaptureAll(_, codec, _) =>
      forall s <- call.captureAll.GetOr([]) :: codec.fromPiece(s).Ok?
    case _ => true
  }

  /** What stops a combinator: no segment is left, or one it must parse does not parse. */
  ghost predicate Stops(link: Chain, call: Routing.Call, n: nat, e: ServerError) {
    match link
    case Capture(name, codec, strict, _) =>
      if n >= |call.captures| then e == ServerError(404, Plain)
      else strict && codec.fromPiece(call.captures[n]).Err?
           && e == ServerError(400, BadCapture(name, codec.fromPiece(call.captures[n]).error))
    case CaptureAll(name, codec, _) =>
      exists k, why :: FirstUnparsed(codec, call.captureAll.GetOr([]), k, why)
                    && e == ServerError(400, BadCaptureAll(name, why))
    case _ => false
  }

  ghost predicate AllStand(places: seq<Place>, call: Routing.Call) {
    forall p <- places :: Stands(p.link, call, p.before)
  }

  /** The `i`-th combinator is the first that does not stand, and this is what stops it. */
  ghost predicate StopsFirst(places: seq<Place>, call: Routing.Call, i: nat, e: ServerError) {
    i < |places| && AllStand(places[..i], call) && Stops(places[i].link, call, places[i].before, e)
  }

  /** `e` is what stops the first combinator that does not stand. */
  ghost predicate FirstStop(places: seq<Place>, call: Routing.Call, e: ServerError) {
    exists i: nat :: StopsFirst(places, call, i, e)
  }

  /** Passed exactly when every combinator stands; otherwise failed as the first that does not. */
  ghost predicate Verdict(places: seq<Place>, call: Routing.Call, r: RouteResult<()>) {
    if AllStand(places, call) then r == Route(())
    else r.Fail? && FirstStop(places, call, r.error)
  }

  lemma {:induction false} VerdictHere(first: Place, rest: seq<Place>, call: Routing.Call, r: RouteResult<()>)
    requires !Stands(first.link, call, first.before)
    requires r.Fail? && Stops(first.link, call, first.before, r.error)
    ensures Verdict([first] + rest, call, r)
  {
    var places := [first] + rest;
    assert places[0] in places && places[..0] == [];
    assert StopsFirst(places, call, 0, r.error);
  }

  lemma {:induction false} VerdictLater(first: Place, rest: seq<Place>, call: Routing.Call, r: RouteResult<()>)
    requires Stands(first.link, call, first.before) && Verdict(rest, call, r)
    ensures Verdict([first] + rest, call, r)
  {
    var places := [first] + rest;
    assert forall p <- places :: p == first || p in rest;
    if !AllStand(rest, call) {
      var i: nat :| StopsFirst(rest, call, i, r.error);
      assert places[..i + 1] == [first] + rest[..i];
      assert StopsFirst(places, call, i + 1, r.error);
      var p :| p in rest && !Stands(p.link, call, p.before);
      assert p in places;
    }
  }

  function FirstBad(codec: Codec, segments: seq<Text>): (k: nat)
    requires exists s :: s in segments && codec.fromPiece(s).Err?
    ensures k < |segments| && codec.fromPiece(segments[k]).Err?
    ensures forall j :: 0 <= j < k ==> codec.fromPiece(segments[j]).Ok?
  {
    if codec.fromPiece(segments[0]).Err? then 0 else 1 + FirstBad(codec, segments[1..])
  }

  /** One step of the validation. */
  lemma {:induction false} ValidateStep(chain: Chain, call: Routing.Call, idx: nat)
    requires !chain.Verb?
    ensures var r := Validate(chain, call.captures, idx, call.captureAll);
      if Stands(chain, call, idx)
      then r == Validate(chain.next, call.captures, if chain.Capture? then idx + 1 else idx, call.captureAll)
      else r.Fail? && Stops(chain, call, idx, r.error)
  {
    if chain.CaptureAll? {
      var codec, segments := chain.codec, call.captureAll.GetOr([]);
      if Stands(chain, call, idx) {
        ParseAllParses(codec, segments);
      } else {
        var k := FirstBad(codec, segments);
        var why := codec.fromPiece(segments[k]).error;
        assert FirstUnparsed(codec, segments, k, why);
        ParseAllFails(codec, segments, k, why);
      }
    }
  }

  /** Validation passes exactly when every combinator stands, and otherwise fails as the first that does not. */
  lemma {:induction false} ValidateDecides(chain: Chain, call: Routing.Call, idx: nat)
    ensures Verdict(Places(chain, idx), call, Validate(chain, call.captures, idx, call.captureAll))
    decreases chain
  {
    if !chain.Verb? {
      ValidateStep(chain, call, idx);
      var idx' := if chain.Capture? then idx + 1 else idx;
      var r := Validate(chain, call.captures, idx, call.captureAll);
      if Stands(chain, call, idx) {
        ValidateDecides(chain.next, call, idx');
        VerdictLater(Place(chain, idx), Places(chain.next, idx'), call, r);
      } else {
        VerdictHere(Place(chain, idx), Places(chain.next, idx'), call, r);
      }
    }
  }

  // ----- phases 2 to 5

  /** Every host requirement among these is a predicate that the request's host meets. */
  ghost predicate AllAdmit(places: seq<Place>, host: Option<Text>) {
    forall p <- places :: p.link.Host? ==>
      p.link.requirement.Some? && host.Some? && p.link.requirement.value(host.value)
  }

  lemma {:induction false} AllAdmitStep(first: Place, rest: seq<Place>, host: Option<Text>)
    ensures AllAdmit([first] + rest, host) <==> AllAdmit([first], host) && AllAdmit(rest, host)
  {
    assert forall p <- [first] + rest :: p in [first] || p in rest;
    assert forall p <- [first] :: p in [first] + rest;
    assert forall p <- rest :: p in [first] + rest;
  }

  lemma {:induction false} HostsDecide(chain: Chain, before: nat, req: Request)
    ensures HostCheck(chain, req)
         == if AllAdmit(Places(chain, before), req.host) then Route(()) else Fail(ServerError(404, Plain))
    decreases chain
  {
    var first := Place(chain, before);
    assert first in [first];
    if !chain.Verb? {
      var before' := before + (if chain.Capture? then 1 else 0);
      HostsDecide(chain.next, before', req);
      AllAdmitStep(first, Places(chain.next, before'), req.host);
    }
  }

  /** The terminal combinator. */
  function End(chain: Chain): (end: Chain)
    ensures end.Verb?
  {
    var places := Places(chain, 0);
    places[|places| - 1].link
  }

  lemma {:induction false} EndIsTerminal(chain: Chain, before: nat)
    ensures var places := Places(chain, before);
      places[|places| - 1].link == Terminal(chain)
    decreases chain
  {
    if !chain.Verb? {
      EndIsTerminal(chain.next, before + (if chain.Capture? then 1 else 0));
    }
  }

  /** The endpoint's method, or HEAD where that is GET. */
  predicate MethodServed(chain: Chain, req: Request) {
    req.verb == End(chain).verb || (req.isHead && End(chain).verb == [71, 69, 84])
  }

  lemma {:induction false} MethodDecides(chain: Chain, req: Request)
    ensures MethodOk(chain, req) <==> MethodServed(chain, req)
  {
    EndIsTerminal(chain, 0);
  }

  /** The endpoint lists no media types, or one of those it lists is acceptable. */
  ghost predicate SomethingAcceptable(chain: Chain, req: Request) {
    match End(chain).markers
    case None => true
    case Some(markers) => exists mt :: mt in Flatten(markers) && Acceptable(EffectiveRanges(req.accept), mt)
  }

  lemma {:induction false} AcceptDecides(chain: Chain, req: Request)
    ensures AcceptOk(chain, req.accept) <==> SomethingAcceptable(chain, req)
  {
    EndIsTerminal(chain, 0);
    var markers := End(chain).markers;
    if markers.Some? {
      var media, ranges := Flatten(markers.value), EffectiveRanges(req.accept);
      NegotiateOptimal(req.accept, media);
      var idx := Negotiate(req.accept, media);
      if idx.Some? {
        var w :| IsOptimalAs(ranges, media, |media|, idx.value, w);
        assert Acceptable(ranges, media[idx.value]);
      }
    }
  }

  predicate TakesBody(link: Chain) {
    link.ReqBody? || link.StreamBody?
  }

  /** The first combinator that takes the body, if there is one, accepts the content type. */
  ghost predicate FirstBodyAccepts(places: seq<Place>, contentType: Option<Text>) {
    forall i :: 0 <= i < |places| && TakesBody(places[i].link) && NoBodyBefore(places, i) ==>
      places[i].link.accepts(contentType)
  }

  ghost predicate NoBodyBefore(places: seq<Place>, i: nat)
    requires i <= |places|
  {
    forall j :: 0 <= j < i ==> !TakesBody(places[j].link)
  }

  /** The first combinator that takes the body reads it whole. */
  ghost predicate Buffers(places: seq<Place>) {
    exists i :: 0 <= i < |places| && places[i].link.ReqBody? && NoBodyBefore(places, i)
  }

  lemma {:induction false} FirstBodyHere(first: Place, rest: seq<Place>, contentType: Option<Text>)
    requires TakesBody(first.link)
    ensures FirstBodyAccepts([first] + rest, contentType) <==> first.link.accepts(contentType)
    ensures Buffers([first] + rest) <==> first.link.ReqBody?
  {
    assert ([first] + rest)[0] == first && NoBodyBefore([first] + rest, 0);
  }

  lemma {:induction false} FirstBodyLater(first: Place, rest: seq<Place>, contentType: Option<Text>)
    requires !TakesBody(first.link)
    ensures FirstBodyAccepts([first] + rest, contentType) <==> FirstBodyAccepts(rest, contentType)
    ensures Buffers([first] + rest) <==> Buffers(rest)
  {
    var places := [first] + rest;
    forall i | 0 <= i < |rest| ensures NoBodyBefore(rest, i) <==> NoBodyBefore(places, i + 1) {
      assert forall j :: 0 <= j < i ==> rest[j] == places[j + 1];
      assert forall j :: 0 < j < i + 1 ==> places[j] == rest[j - 1];
    }
    assert forall i :: 0 <= i < |rest| ==> rest[i] == places[i + 1];
    assert forall i :: 0 < i < |places| ==> places[i] == rest[i - 1];
  }

  lemma {:induction false} ContentTypeDecides(chain: Chain, before: nat, contentType: Option<Text>)
    ensures ContentTypeOk(chain, contentType) <==> FirstBodyAccepts(Places(chain, before), contentType)
    decreases chain
  {
    if !chain.Verb? {
      var before' := before + (if chain.Capture? then 1 else 0);
      if TakesBody(chain) {
        FirstBodyHere(Place(chain, before), Places(chain.next, before'), contentType);
      } else {
        ContentTypeDecides(chain.next, before', contentType);
        FirstBodyLater(Place(chain, before), Places(chain.next, before'), contentType);
      }
    }
  }

  lemma {:induction false} BuffersDecides(chain: Chain, before: nat)
    ensures BodyModeOf(chain) == BufferedBody <==> Buffers(Places(chain, before))
    decreases chain
  {
    if !chain.Verb? {
      var before' := before + (if chain.Capture? then 1 else 0);
      if TakesBody(chain) {
        FirstBodyHere(Place(chain, before), Places(chain.next, before'), None);
      } else {
        BuffersDecides(chain.next, before');
        FirstBodyLater(Place(chain, before), Places(chain.next, before'), None);
      }
    }
  }

  // ----- the phases together

  /** The request passes every phase that comes before the endpoint commits. */
  ghost predicate Admitted(chain: Chain, req: Request, call: Routing.Call) {
    && AllStand(Places(chain, 0), call)
    && AllAdmit(Places(chain, 0), req.host)
    && MethodServed(chain, req)
    && SomethingAcceptable(chain, req)
    && FirstBodyAccepts(Places(chain, 0), req.contentType)
  }

  lemma {:induction false} GateStopped(chain: Chain, req: Request, call: Routing.Call)
    requires !AllStand(Places(chain, 0), call)
    ensures Gate(chain, req, call).Fail? && FirstStop(Places(chain, 0), call, Gate(chain, req, call).error)
  {
    ValidateDecides(chain, call, 0);
  }

  lemma {:induction false} GateChecked(chain: Chain, req: Request, call: Routing.Call)
    requires AllStand(Places(chain, 0), call)
    ensures Gate(chain, req, call) ==
      if !AllAdmit(Places(chain, 0), req.host) then Fail(ServerError(404, Plain))
      else if !MethodServed(chain, req) then Fail(ServerError(405, Plain))
      else if !SomethingAcceptable(chain, req) then Fail(ServerError(406, Plain))
      else if !FirstBodyAccepts(Places(chain, 0), req.contentType) then Fail(ServerError(415, Plain))
      else Route(())
  {
    ValidateDecides(chain, call, 0);
    HostsDecide(chain, 0, req);
    MethodDecides(chain, req);
    AcceptDecides(chain, req);
    ContentTypeDecides(chain, 0, req.contentType);
  }

  /** The gate lets a request through exactly when it is admitted. */
  lemma {:induction false} GateAdmits(chain: Chain, req: Request, call: Routing.Call)
    ensures Gate(chain, req, call).Route? <==> Admitted(chain, req, call)
  {
    if AllStand(Places(chain, 0), call) {
      GateChecked(chain, req, call);
    } else {
      GateStopped(chain, req, call);
    }
  }

  /**
   What an endpoint answers before it commits, and in which order: the error of the first
   capture that is missing or must parse and does not; then 404 for a host that some
   requirement refuses, 405 for another method, 406 when no media type is acceptable and 415
   for a content type the body does not come in; each time with the body untouched. A request
   that passes all five never hands over to a sibling, and only such a request is answered.
   */
  lemma {:induction false} PhasesDecide(chain: Chain, handler: Handler, context: Context, req: Request, maxBytes: nat,
        call: Routing.Call, slot: BodySlot)
    ensures var (r, slot') := EndpointCall(chain, handler, context, req, maxBytes, call, slot);
      var places := Places(chain, 0);
      if !AllStand(places, call) then
        slot' == slot && r.Fail? && FirstStop(places, call, r.error)
      else if !AllAdmit(places, req.host) then (r, slot') == (Fail(ServerError(404, Plain)), slot)
      else if !MethodServed(chain, req) then (r, slot') == (Fail(ServerError(405, Plain)), slot)
      else if !SomethingAcceptable(chain, req) then (r, slot') == (Fail(ServerError(406, Plain)), slot)
      else if !FirstBodyAccepts(places, req.contentType) then (r, slot') == (Fail(ServerError(415, Plain)), slot)
      else Admitted(chain, req, call) && !r.Fail?
  {
    if AllStand(Places(chain, 0), call) {
      GateChecked(chain, req, call);
    } else {
      GateStopped(chain, req, call);
    }
    EndpointFailKeepsBody(chain, handler, context, req, maxBytes, call, slot);
  }
}
