/**
 Backtracking never loses the body, authenticated users reach the combinators that
 checked them, and guarding a router by host commutes with routing.
 */
module EndpointTheorems {
  import opened Basics
  import opened RouteResults
  import opened RequestBodies
  import opened Chains
  import opened Endpoints
  import opened Routing
  import opened RoutingTheorems

  // ----- one step of extraction

  /** Combinators whose extraction changes neither the extraction state nor the body. */
  predicate Stateless(chain: Chain) {
    !(chain.Verb? || chain.Capture? || chain.CaptureAll? || chain.StreamBody? || chain.BasicAuth?
      || chain.AuthProtect? || chain.NamedContext?)
  }

  /** A stateless combinator commits to a failure, or adds at most one argument, never a user, to the rest. */
  ghost predicate AddsTo(x: Extracted, rest: Extracted, st: State, slot: BodySlot) {
    || (x.result.FailFatal? && x.state == st && x.slot == slot)
    || x == rest
    || exists arg: Arg :: !arg.AuthUser? && x == Cons(arg, rest)
  }

  lemma {:induction false} StatelessStep(chain: Chain, req: Request, st: State, slot: BodySlot)
    requires Stateless(chain)
    ensures AddsTo(Extract(chain, req, st, slot), Extract(chain.next, req, st, slot), st, slot)
  {}

  // ----- the two walks agree: what validated cannot fail recoverably

  lemma {:induction false} ValidatedNeverFails(chain: Chain, caps: seq<Text>, idx: nat, ca: Option<seq<Text>>,
        req: Request, st: State, slot: BodySlot)
    requires Validate(chain, caps, idx, ca).Route?
    requires idx <= |caps| && st.captures == caps[idx..]
    requires st.captureAll == ca || st.captureAll == None
    ensures !Extract(chain, req, st, slot).result.Fail?
    decreases chain, 1
  {
    match chain
    case Verb(_, _) =>
    case Capture(_, _, _, _) => ValidatedCaptured(chain, caps, idx, ca, req, st, slot);
    case CaptureAll(_, _, _) => ValidatedCaptured(chain, caps, idx, ca, req, st, slot);
    case StreamBody(_, next) =>
      ValidatedNeverFails(next, caps, idx, ca, req, st, TakeSlot(slot).1);
    case BasicAuth(ty, realm, next) =>
      ValidatedUser(chain, BasicUser(st, req, ty, realm).1, caps, idx, ca, req, st, slot);
    case AuthProtect(ty, next) =>
      ValidatedUser(chain, ProtectedUser(st, req, ty).1, caps, idx, ca, req, st, slot);
    case NamedContext(name, next) =>
      var named := FindNamed(st.contexts, name);
      if named.Some? {
        ValidatedNeverFails(next, caps, idx, ca, req, st.(contexts := st.contexts + [named.value]), slot);
      } else {
        ValidatedNeverFails(next, caps, idx, ca, req, st, slot);
      }
    case _ => ValidatedStateless(chain, caps, idx, ca, req, st, slot);
  }

  lemma {:induction false} ValidatedCaptured(chain: Chain, caps: seq<Text>, idx: nat, ca: Option<seq<Text>>,
      req: Request, st: State, slot: BodySlot)
    requires chain.Capture? || chain.CaptureAll?
    requires Validate(chain, caps, idx, ca).Route?
    requires idx <= |caps| && st.captures == caps[idx..]
    requires st.captureAll == ca || st.captureAll == None
    ensures !Extract(chain, req, st, slot).result.Fail?
    decreases chain, 0
  {
    if chain.Capture? {
      assert st.captures[0] == caps[idx] && st.captures[1..] == caps[idx + 1..];
      ValidatedNeverFails(chain.next, caps, idx + 1, ca, req, st.(captures := st.captures[1..]), slot);
    } else {
      ValidatedNeverFails(chain.next, caps, idx, ca, req, st.(captureAll := None), slot);
    }
  }

  lemma {:induction false} ValidatedStateless(chain: Chain, caps: seq<Text>, idx: nat, ca: Option<seq<Text>>,
        req: Request, st: State, slot: BodySlot)
    requires Stateless(chain)
    requires Validate(chain, caps, idx, ca).Route?
    requires idx <= |caps| && st.captures == caps[idx..]
    requires st.captureAll == ca || st.captureAll == None
    ensures !Extract(chain, req, st, slot).result.Fail?
    decreases chain, 0
  {
    ValidatedNeverFails(chain.next, caps, idx, ca, req, st, slot);
    StatelessStep(chain, req, st, slot);
  }

  lemma {:induction false} ValidatedUser(chain: Chain, logged: State, caps: seq<Text>, idx: nat,
        ca: Option<seq<Text>>, req: Request, st: State, slot: BodySlot)
    requires chain.BasicAuth? || chain.AuthProtect?
    requires logged == if chain.BasicAuth? then BasicUser(st, req, chain.user, chain.realm).1
                       else ProtectedUser(st, req, chain.user).1
    requires Validate(chain, caps, idx, ca).Route?
    requires idx <= |caps| && st.captures == caps[idx..]
    requires st.captureAll == ca || st.captureAll == None
    ensures !Extract(chain, req, st, slot).result.Fail?
    decreases chain, 0
  {
    var (queued, rest) := TakeUser(st.prechecked, chain.user);
    ValidatedNeverFails(chain.next, caps, idx, ca, req, st.(prechecked := rest), slot);
    ValidatedNeverFails(chain.next, caps, idx, ca, req, logged, slot);
  }

  /** The checks before the body commit or pass; they never hand over to a sibling. */
  lemma {:induction false} PreBodyNeverFails(chain: Chain, req: Request, st: State)
    ensures var (r, st') := PreBody(chain, req, st);
      !r.Fail? && st'.captures == st.captures && st'.captureAll == st.captureAll
    decreases chain
  {
    match chain
    case Verb(_, _) =>
    case BasicAuth(ty, realm, next) =>
      var (user, st') := BasicUser(st, req, ty, realm);
      if user.Ok? {
        PreBodyNeverFails(next, req, PushUser(st', User(ty, user.value)));
      }
    case AuthProtect(ty, next) =>
      var (user, st') := ProtectedUser(st, req, ty);
      if user.Ok? {
        PreBodyNeverFails(next, req, PushUser(st', User(ty, user.value)));
      }
    case NamedContext(name, next) =>
      var named := FindNamed(st.contexts, name);
      if named.Some? {
        PreBodyNeverFails(next, req, st.(contexts := st.contexts + [named.value]));
      } else {
        PreBodyNeverFails(next, req, st);
      }
    case _ => PreBodyNeverFails(chain.next, req, st);
  }

  /** Past the gate, nothing can hand over to a sibling any more. */
  lemma {:induction false} GatedNeverFails(chain: Chain, context: Context, req: Request, call: Call, slot: BodySlot)
    requires Gate(chain, req, call).Route?
    ensures var (checked, st) := PreBody(chain, req, StartState(context, call));
      !checked.Fail? && !Extract(chain, req, st, slot).result.Fail?
  {
    var (checked, st) := PreBody(chain, req, StartState(context, call));
    PreBodyNeverFails(chain, req, StartState(context, call));
    assert call.captures[0..] == call.captures;
    ValidatedNeverFails(chain, call.captures, 0, call.captureAll, req, st, slot);
  }

  lemma {:induction false} AfterChecksNeverFails(chain: Chain, handler: Handler, context: Context, req: Request,
        maxBytes: nat, call: Call, slot: BodySlot)
    requires Gate(chain, req, call).Route?
    ensures var st := PreBody(chain, req, StartState(context, call)).1;
      !AfterChecks(chain, handler, req, maxBytes, st, slot).0.Fail?
  {
    var slot1 := if BodyModeOf(chain) == BufferedBody then BufferSlot(slot, maxBytes).1 else slot;
    GatedNeverFails(chain, context, req, call, slot1);
  }

  /** An endpoint that fails recoverably has decided so before touching the body. */
  lemma {:induction false} EndpointFailKeepsBody(chain: Chain, handler: Handler, context: Context, req: Request,
        maxBytes: nat, call: Call, slot: BodySlot)
    ensures var (r, slot') := EndpointCall(chain, handler, context, req, maxBytes, call, slot);
      r.Fail? ==> slot' == slot && Gate(chain, req, call) == Fail(r.error)
  {
    if Gate(chain, req, call).Route? {
      GatedNeverFails(chain, context, req, call, slot);
      AfterChecksNeverFails(chain, handler, context, req, maxBytes, call, slot);
    }
  }

  lemma {:induction false} LeafFailKeepsBody(context: Context, req: Request, maxBytes: nat, leaf: ServedLeaf,
        call: Call, slot: BodySlot)
    ensures var (r, slot') := RunLeaf(context, req, maxBytes, leaf, call, slot);
      r.Fail? ==> slot' == slot
    decreases leaf
  {
    match leaf
    case EndpointOf(chain, handler) => EndpointFailKeepsBody(chain, handler, context, req, maxBytes, call, slot);
    case RawLeaf(_) =>
    case HostGuarded(_, inner) => LeafFailKeepsBody(context, req, maxBytes, inner, call, slot);
  }

  lemma {:induction false} ServerFailKeepsBody(context: Context, req: Request, maxBytes: nat)
    ensures FailKeepsState(Server(context, req, maxBytes))
  {
    forall leaf: ServedLeaf, call: Call, slot: BodySlot {
      LeafFailKeepsBody(context, req, maxBytes, leaf, call, slot);
    }
  }

  // ----- recoverable 404s are plain

  lemma {:induction false} GateNotFoundIsPlain(chain: Chain, caps: seq<Text>, idx: nat, ca: Option<seq<Text>>,
        req: Request)
    ensures PlainIfNotFound(Validate(chain, caps, idx, ca))
    ensures PlainIfNotFound(HostCheck(chain, req))
    decreases chain
  {
    if !chain.Verb? {
      GateNotFoundIsPlain(chain.next, caps, if chain.Capture? then idx + 1 else idx, ca, req);
    }
  }

  lemma {:induction false} LeafNotFoundIsPlain(context: Context, req: Request, maxBytes: nat, leaf: ServedLeaf,
        call: Call, slot: BodySlot)
    ensures PlainIfNotFound(RunLeaf(context, req, maxBytes, leaf, call, slot).0)
    decreases leaf
  {
    match leaf
    case EndpointOf(chain, handler) =>
      EndpointFailKeepsBody(chain, handler, context, req, maxBytes, call, slot);
      GateNotFoundIsPlain(chain, call.captures, 0, call.captureAll, req);
    case RawLeaf(_) =>
    case HostGuarded(_, inner) => LeafNotFoundIsPlain(context, req, maxBytes, inner, call, slot);
  }

  lemma {:induction false} ServerNotFoundIsPlain(context: Context, req: Request, maxBytes: nat)
    ensures PlainNotFound(Server(context, req, maxBytes))
  {
    forall leaf: ServedLeaf, call: Call, slot: BodySlot {
      LeafNotFoundIsPlain(context, req, maxBytes, leaf, call, slot);
    }
  }

  /** So the served trie is, in every modelled detail, the left-to-right scan of the endpoints. */
  lemma {:induction false} ServerIsExactlyScan(context: Context, req: Request, maxBytes: nat)
    ensures TreeIsExactlyScan(Server(context, req, maxBytes))
  {
    ServerNotFoundIsPlain(context, req, maxBytes);
    ExactlyScanIffPlainNotFound(Server(context, req, maxBytes));
  }

  /**
   Backtracking never loses the body. On every router and request, either every candidate
   fails on the untouched body, which stays untouched, and the error is exactly the one of
   theirs that wins by its code; or the first candidate that does not fail recoverably on the
   untouched body decides, and it alone has used the body.
   */
  lemma {:induction false} BodySurvivesBacktracking(context: Context, req: Request, maxBytes: nat,
      router: Router<ServedLeaf>, segments: seq<Text>, slot: BodySlot)
    ensures var run := Server(context, req, maxBytes);
      var (d, slot') := Dispatch(run, router, segments, [], None, slot);
      Selected(run, Candidates(router, segments, [], None), slot, d, slot', true)
  {
    ServerFailKeepsBody(context, req, maxBytes);
    ServerNotFoundIsPlain(context, req, maxBytes);
    DispatchSelects(Server(context, req, maxBytes), router, segments, [], None, slot, true);
  }

  // ----- authenticated users

  /** The users of the chain's authentication combinators, each checked once, in order. */
  function Authenticate(chain: Chain, req: Request, contexts: seq<Context>): Result<seq<User>, ServerError> {
    match chain
    case Verb(_, _) => Ok([])
    case BasicAuth(ty, realm, next) =>
      (match BasicUser(State([], None, contexts, [], []), req, ty, realm).0
       case Ok(u) => Prepend([User(ty, u)], Authenticate(next, req, contexts))
       case Err(e) => Err(e))
    case AuthProtect(ty, next) =>
      (match ProtectedUser(State([], None, contexts, [], []), req, ty).0
       case Ok(u) => Prepend([User(ty, u)], Authenticate(next, req, contexts))
       case Err(e) => Err(e))
    case NamedContext(name, next) =>
      (match FindNamed(contexts, name)
       case None => Authenticate(next, req, contexts)
       case Some(named) => Authenticate(next, req, contexts + [named]))
    case _ => Authenticate(chain.next, req, contexts)
  }

  /** The authentication combinators of a chain, in order. */
  function Sites(chain: Chain): seq<Site> {
    match chain
    case Verb(_, _) => []
    case BasicAuth(ty, _, next) => [Site(true, ty)] + Sites(next)
    case AuthProtect(ty, next) => [Site(false, ty)] + Sites(next)
    case _ => Sites(chain.next)
  }

  /** The authenticated users among the handler's arguments, in order. */
  function UsersOf(args: seq<Arg>): seq<User> {
    if args == [] then []
    else (match args[0] case AuthUser(user) => [user] case _ => []) + UsersOf(args[1..])
  }

  /** The walk before the body authenticates: it queues exactly those users, runs each check once, restores contexts. */
  lemma {:induction false} PreBodyAuthenticates(chain: Chain, req: Request, st: State)
    ensures var (r, st') := PreBody(chain, req, st);
      var users := Authenticate(chain, req, st.contexts);
      && st'.contexts == st.contexts
      && (r.Route? <==> users.Ok?)
      && (r.FailFatal? ==> users == Err(r.error))
      && (r.Route? ==> st'.prechecked == st.prechecked + users.value && st'.checks == st.checks + Sites(chain))
    decreases chain
  {
    match chain
    case Verb(_, _) =>
    case BasicAuth(ty, realm, next) =>
      var (user, st') := BasicUser(st, req, ty, realm);
      if user.Ok? {
        PreBodyAuthenticates(next, req, PushUser(st', User(ty, user.value)));
        AssocUsers(st, User(ty, user.value), Site(true, ty), Authenticate(next, req, st.contexts), Sites(next));
      }
    case AuthProtect(ty, next) =>
      var (user, st') := ProtectedUser(st, req, ty);
      if user.Ok? {
        PreBodyAuthenticates(next, req, PushUser(st', User(ty, user.value)));
        AssocUsers(st, User(ty, user.value), Site(false, ty), Authenticate(next, req, st.contexts), Sites(next));
      }
    case NamedContext(name, next) =>
      var named := FindNamed(st.contexts, name);
      if named.Some? {
        PreBodyAuthenticates(next, req, st.(contexts := st.contexts + [named.value]));
      } else {
        PreBodyAuthenticates(next, req, st);
      }
    case _ => PreBodyAuthenticates(chain.next, req, st);
  }

  lemma {:induction false} AssocUsers(st: State, user: User, site: Site, users: Result<seq<User>, ServerError>,
        sites: seq<Site>)
    ensures users.Ok? ==> st.prechecked + [user] + users.value == st.prechecked + ([user] + users.value)
    ensures st.checks + [site] + sites == st.checks + ([site] + sites)
  {}

  /** Extraction takes from the queue, in order, exactly the users queued for this chain. */
  lemma {:induction false} ExtractTakesUsers(chain: Chain, req: Request, st: State, slot: BodySlot)
    requires Authenticate(chain, req, st.contexts) == Ok(st.prechecked)
    ensures var x := Extract(chain, req, st, slot);
      && x.state.contexts == st.contexts
      && x.state.checks == st.checks
      && (x.result.Route? ==> x.state.prechecked == [] && UsersOf(x.result.value) == st.prechecked)
    decreases chain, 1
  {
    match chain
    case Verb(_, _) =>
    case Capture(_, codec, strict, next) => TakesPastCursor(chain, req, st, slot);
    case CaptureAll(_, codec, next) => TakesPastCursor(chain, req, st, slot);
    case StreamBody(_, next) => TakesPastCursor(chain, req, st, slot);
    case BasicAuth(ty, _, next) => TakesNext(chain, ty, req, st, slot);
    case AuthProtect(ty, next) => TakesNext(chain, ty, req, st, slot);
    case NamedContext(name, next) =>
      var named := FindNamed(st.contexts, name);
      if named.Some? {
        ExtractTakesUsers(next, req, st.(contexts := st.contexts + [named.value]), slot);
      } else {
        ExtractTakesUsers(next, req, st, slot);
      }
    case _ => StatelessTakes(chain, req, st, slot);
  }

  lemma {:induction false} TakesPastCursor(chain: Chain, req: Request, st: State, slot: BodySlot)
    requires chain.Capture? || chain.CaptureAll? || chain.StreamBody?
    requires Authenticate(chain, req, st.contexts) == Ok(st.prechecked)
    ensures var x := Extract(chain, req, st, slot);
      && x.state.contexts == st.contexts
      && x.state.checks == st.checks
      && (x.result.Route? ==> x.state.prechecked == [] && UsersOf(x.result.value) == st.prechecked)
    decreases chain, 0
  {
    match chain
    case Capture(_, codec, strict, next) =>
      if st.captures != [] {
        var st' := st.(captures := st.captures[1..]);
        ExtractTakesUsers(next, req, st', slot);
        var arg := BuildCapture(strict, codec.fromPiece(st.captures[0]));
        if arg.Ok? {
          ConsUsers(arg.value, Extract(next, req, st', slot));
        }
      }
    case CaptureAll(_, codec, next) =>
      var st' := st.(captureAll := None);
      ExtractTakesUsers(next, req, st', slot);
      var values := ParseAll(codec, st.captureAll.GetOr([]));
      if values.Ok? {
        ConsUsers(Many(values.value), Extract(next, req, st', slot));
      }
    case StreamBody(_, next) =>
      var (taken, slot') := TakeSlot(slot);
      ExtractTakesUsers(next, req, st, slot');
      if taken.Ok? {
        ConsUsers(Arg.Stream(taken.value), Extract(next, req, st, slot'));
      }
  }

  lemma {:induction false} StatelessTakes(chain: Chain, req: Request, st: State, slot: BodySlot)
    requires Stateless(chain)
    requires Authenticate(chain, req, st.contexts) == Ok(st.prechecked)
    ensures var x := Extract(chain, req, st, slot);
      && x.state.contexts == st.contexts
      && x.state.checks == st.checks
      && (x.result.Route? ==> x.state.prechecked == [] && UsersOf(x.result.value) == st.prechecked)
    decreases chain, 0
  {
    var x, rest := Extract(chain, req, st, slot), Extract(chain.next, req, st, slot);
    ExtractTakesUsers(chain.next, req, st, slot);
    StatelessStep(chain, req, st, slot);
    if !x.result.FailFatal? && x != rest {
      var arg: Arg :| !arg.AuthUser? && x == Cons(arg, rest);
      ConsUsers(arg, rest);
    }
  }

  lemma {:induction false} TakesNext(chain: Chain, ty: Ty, req: Request, st: State, slot: BodySlot)
    requires chain.BasicAuth? || chain.AuthProtect?
    requires ty == chain.user
    requires Authenticate(chain, req, st.contexts) == Ok(st.prechecked)
    ensures var x := Extract(chain, req, st, slot);
      && x.state.contexts == st.contexts
      && x.state.checks == st.checks
      && (x.result.Route? ==> x.state.prechecked == [] && UsersOf(x.result.value) == st.prechecked)
    decreases chain, 0
  {
    var st' := st.(prechecked := st.prechecked[1..]);
    TakesHead(st, ty, Authenticate(chain.next, req, st.contexts));
    ExtractTakesUsers(chain.next, req, st', slot);
    ConsUsers(AuthUser(st.prechecked[0]), Extract(chain.next, req, st', slot));
  }

  lemma {:induction false} TakesHead(st: State, ty: Ty, rest: Result<seq<User>, ServerError>)
    requires rest.Ok? && st.prechecked != [] && st.prechecked == [User(ty, st.prechecked[0].value)] + rest.value
    ensures TakeUser(st.prechecked, ty) == (Some(st.prechecked[0].value), st.prechecked[1..])
    ensures st.prechecked[1..] == rest.value
  {}

  lemma {:induction false} ConsUsers(arg: Arg, rest: Extracted)
    ensures rest.result.Route? ==>
      UsersOf(Cons(arg, rest).result.value)
        == (if arg.AuthUser? then [arg.user] else []) + UsersOf(rest.result.value)
  {
    if rest.result.Route? {
      AfterFirst(arg, rest.result.value);
    }
  }

  /**
   After the checks succeed, every authentication combinator's argument is exactly the
   user its own check produced, whatever types repeat; the queue ends empty, each check
   has run once, and the context stack is as it was.
   */
  lemma {:induction false} UsersLineUp(chain: Chain, context: Context, req: Request, call: Call, slot: BodySlot)
    ensures var (checked, st) := PreBody(chain, req, StartState(context, call));
      checked.Route? ==>
        var users := Authenticate(chain, req, [context]);
        var x := Extract(chain, req, st, slot);
        && users.Ok?
        && st.contexts == [context] && x.state.contexts == [context]
        && x.state.checks == Sites(chain)
        && (x.result.Route? ==> x.state.prechecked == [] && UsersOf(x.result.value) == users.value)
  {
    var start := StartState(context, call);
    var (checked, st) := PreBody(chain, req, start);
    PreBodyAuthenticates(chain, req, start);
    if checked.Route? {
      var users := Authenticate(chain, req, [context]).value;
      assert st.prechecked == [] + users == users;
      assert st.checks == [] + Sites(chain) == Sites(chain);
      ExtractTakesUsers(chain, req, st, slot);
    }
  }

  // ----- host guards

  lemma {:induction false} GuardedCandidates(router: Router<ServedLeaf>, requirement: Option<Text -> bool>,
        segments: seq<Text>, captures: seq<Text>, ca: Option<seq<Text>>)
    ensures var cs := Candidates(router, segments, captures, ca);
      var gs := Candidates(GuardRouter(router, requirement), segments, captures, ca);
      && |gs| == |cs|
      && forall i :: 0 <= i < |cs| ==> gs[i] == Candidate(HostGuarded(requirement, cs[i].leaf), cs[i].call)
    decreases router
  {
    match router
    case Static(children, leaves) =>
      if IsEmptyPath(segments) {
        GuardedLeaves(leaves, requirement);
      } else if segments[0] in children {
        GuardedCandidates(children[segments[0]], requirement, segments[1..], captures, ca);
      }
    case Capture(_, inner) =>
      if !IsEmptyPath(segments) {
        GuardedCandidates(inner, requirement, segments[1..], captures + [segments[0]], ca);
      }
    case CaptureAll(_, inner) =>
      GuardedCandidates(inner, requirement, [], captures, Some(RestSegments(segments)));
    case Raw(_) =>
    case Choice(left, right) =>
      GuardedCandidates(left, requirement, segments, captures, ca);
      GuardedCandidates(right, requirement, segments, captures, ca);
  }

  lemma {:induction false} GuardedLeaves(leaves: seq<ServedLeaf>, requirement: Option<Text -> bool>)
    ensures |GuardLeaves(leaves, requirement)| == |leaves|
    ensures forall i :: 0 <= i < |leaves| ==>
      GuardLeaves(leaves, requirement)[i] == HostGuarded(requirement, leaves[i])
  {
    if leaves != [] {
      GuardedLeaves(leaves[1..], requirement);
    }
  }

  lemma {:induction false} GuardedWalk(context: Context, req: Request, maxBytes: nat,
        requirement: Option<Text -> bool>, cs: seq<Candidate<ServedLeaf>>, gs: seq<Candidate<ServedLeaf>>,
        best: Option<ServerError>, slot: BodySlot)
    requires |gs| == |cs|
    requires forall i :: 0 <= i < |cs| ==> gs[i] == Candidate(HostGuarded(requirement, cs[i].leaf), cs[i].call)
    requires best.None? || best == Some(NOT_FOUND) || GuardPasses(requirement, req)
    ensures var run := Server(context, req, maxBytes);
      if GuardPasses(requirement, req) then Walk(run, gs, best, slot) == Walk(run, cs, best, slot)
      else var w: Progress<Response, BodySlot> := Walk(run, gs, best, slot);
        w.Undecided? && w.state == slot && w.best.GetOr(NOT_FOUND) == NOT_FOUND
    decreases cs
  {
    if cs != [] {
      var run := Server(context, req, maxBytes);
      var (result, slot') := At(run, gs[0], slot);
      if result.Fail? {
        GuardedWalk(context, req, maxBytes, requirement, cs[1..], gs[1..],
                    Some(CombineFail(best, result.error)), slot');
      }
    }
  }

  /**
   Guarding commutes with routing: a guarded router dispatches as the bare one when the
   guard passes, and otherwise is a plain recoverable 404 that leaves the body untouched.
   */
  lemma {:induction false} GuardCommutes(context: Context, req: Request, maxBytes: nat, router: Router<ServedLeaf>,
        requirement: Option<Text -> bool>, segments: seq<Text>, captures: seq<Text>, ca: Option<seq<Text>>,
        slot: BodySlot)
    ensures var run := Server(context, req, maxBytes);
      Dispatch(run, GuardRouter(router, requirement), segments, captures, ca, slot) ==
        if requirement.Some? && req.host.Some? && requirement.value(req.host.value)
        then Dispatch(run, router, segments, captures, ca, slot)
        else (Fail(ServerError(404, Plain)), slot)
  {
    var run := Server(context, req, maxBytes);
    var cs := Candidates(router, segments, captures, ca);
    var guarded := GuardRouter(router, requirement);
    var gs := Candidates(guarded, segments, captures, ca);
    GuardedCandidates(router, requirement, segments, captures, ca);
    GuardedWalk(context, req, maxBytes, requirement, cs, gs, None, slot);
    ServerIsExactlyScan(context, req, maxBytes);
    assert Dispatch(run, router, segments, captures, ca, slot) == Scan(run, cs, slot);
    assert Dispatch(run, guarded, segments, captures, ca, slot) == Scan(run, gs, slot);
  }

  /** A raw leaf answers from what is left of the path and all the data of the body, or not at all. */
  lemma {:induction false} RawLeafAnswers(context: Context, req: Request, maxBytes: nat,
        respond: (seq<Text>, Text) -> Response, call: Call, body: Body)
    ensures RunLeaf(context, req, maxBytes, RawLeaf(respond), call, Streaming(Some(body))) ==
      match Collected(body, maxBytes)
      case Ok(_) => (Route(respond(call.tail, DataIn(body))), Buffered(DataIn(body)))
      case Err(e) => (FailFatal(e), Taken)
  {}
}
