/**
 The merged tree behaves as a left-to-right scan of the endpoints.

 `Candidates` lists, in order, the leaves a router would run on a path and what it
 would call them with; `Walk` runs such a list left to right. The interpreter of the
 tree agrees with the walk, and merging two routers appends their candidate lists.
 */
module RoutingTheorems {
  import opened Basics
  import opened RouteResults
  import opened Routing

  datatype Candidate<+L> = Candidate(leaf: L, call: Call)

  function At<L, S, R>(run: Runner<L, S, R>, c: Candidate<L>, s: S): (RouteResult<R>, S) {
    run(c.leaf, c.call, s)
  }

  function Candidates<L>(router: Router<L>, segments: seq<Text>, captures: seq<Text>,
                         captureAll: Option<seq<Text>>): seq<Candidate<L>>
    decreases router
  {
    match router
    case Static(children, leaves) =>
      if IsEmptyPath(segments) then WithCall(leaves, Call([], captures, captureAll))
      else if segments[0] in children then
        Candidates(children[segments[0]], segments[1..], captures, captureAll)
      else []
    case Capture(_, inner) =>
      if IsEmptyPath(segments) then []
      else Candidates(inner, segments[1..], captures + [segments[0]], captureAll)
    case CaptureAll(_, inner) => Candidates(inner, [], captures, Some(RestSegments(segments)))
    case Raw(leaf) => [Candidate(leaf, Call(RawTail(segments), captures, captureAll))]
    case Choice(a, b) =>
      Candidates(a, segments, captures, captureAll) + Candidates(b, segments, captures, captureAll)
  }

  function WithCall<L>(leaves: seq<L>, call: Call): (cs: seq<Candidate<L>>)
    ensures |cs| == |leaves|
    ensures forall i :: 0 <= i < |cs| ==> cs[i] == Candidate(leaves[i], call)
  {
    seq(|leaves|, i requires 0 <= i < |leaves| => Candidate(leaves[i], call))
  }

  /** How far a left-to-right scan got: a decision, or the best failure so far. */
  datatype Progress<+R, +S> =
    | Decided(result: RouteResult<R>, state: S)
    | Undecided(best: Option<ServerError>, state: S)

  function Walk<L, S, R>(run: Runner<L, S, R>, cs: seq<Candidate<L>>, best: Option<ServerError>, s: S)
    : (progress: Progress<R, S>)
    ensures progress.Decided? ==> !progress.result.Fail?
    decreases cs
  {
    if cs == [] then Undecided(best, s)
    else
      var (result, s') := At(run, cs[0], s);
      match result
      case Fail(e) => Walk(run, cs[1..], Some(CombineFail(best, e)), s')
      case decided => Decided(decided, s')
  }

  /** The plain linear scan: try every candidate in order, keep the best recoverable error. */
  function Scan<L, S, R>(run: Runner<L, S, R>, cs: seq<Candidate<L>>, s: S): (RouteResult<R>, S) {
    match Walk(run, cs, None, s)
    case Decided(result, s') => (result, s')
    case Undecided(best, s') => (Fail(best.GetOr(NOT_FOUND)), s')
  }

  // ----- laws of the walk

  lemma {:induction false} WalkOne<L, S, R>(run: Runner<L, S, R>, c: Candidate<L>, s: S)
    ensures Walk(run, [c], None, s) ==
      match At(run, c, s).0
      case Fail(e) => Undecided(Some(e), At(run, c, s).1)
      case decided => Decided(decided, At(run, c, s).1)
  {
    var (result, s') := At(run, c, s);
    if result.Fail? {
      var rest: seq<Candidate<L>> := [c][1..];
      assert rest == [];
    }
  }

  lemma {:induction false} WalkAppend<L, S, R>(run: Runner<L, S, R>, xs: seq<Candidate<L>>, ys: seq<Candidate<L>>,
        best: Option<ServerError>, s: S)
    ensures Walk(run, xs + ys, best, s) ==
      match Walk(run, xs, best, s)
      case Decided(r, s') => Decided(r, s')
      case Undecided(best', s') => Walk(run, ys, best', s')
    decreases xs
  {
    if xs == [] {
      assert xs + ys == ys;
    } else {
      assert (xs + ys)[1..] == xs[1..] + ys;
      var (result, s') := At(run, xs[0], s);
      if result.Fail? {
        WalkAppend(run, xs[1..], ys, Some(CombineFail(best, result.error)), s');
      }
    }
  }

  /** A walk that starts with a best error combines it with what it would find alone. */
  lemma {:induction false} WalkFrom<L, S, R>(run: Runner<L, S, R>, cs: seq<Candidate<L>>, best: Option<ServerError>,
        s: S)
    ensures Walk(run, cs, best, s) ==
      match Walk(run, cs, None, s)
      case Decided(r, s') => Decided(r, s')
      case Undecided(found, s') => Undecided(CombineBest(best, found), s')
    decreases cs
  {
    if cs != [] {
      var (result, s') := At(run, cs[0], s);
      if result.Fail? {
        WalkFrom(run, cs[1..], Some(CombineFail(best, result.error)), s');
        WalkFrom(run, cs[1..], Some(result.error), s');
        var rest: Progress<R, S> := Walk(run, cs[1..], None, s');
        if rest.Undecided? {
          CombineBestAssociative(best, Some(result.error), rest.best);
        }
      }
    }
  }

  lemma {:induction false} RunLeavesIsWalk<L, S, R>(run: Runner<L, S, R>, leaves: seq<L>, call: Call,
        best: Option<ServerError>, s: S)
    ensures RunLeaves(run, leaves, call, best, s) ==
      match Walk(run, WithCall(leaves, call), best, s)
      case Decided(r, s') => (r, s')
      case Undecided(best', s') => (Fail(best'.GetOr(NOT_FOUND)), s')
    decreases leaves
  {
    if leaves != [] {
      assert WithCall(leaves, call)[1..] == WithCall(leaves[1..], call);
      var (result, s') := run(leaves[0], call, s);
      if result.Fail? {
        RunLeavesIsWalk(run, leaves[1..], call, Some(CombineFail(best, result.error)), s');
      }
    }
  }

  // ----- the tree interpreter is the linear scan

  /** Every call a router can make: a tail is never a lone empty segment. */
  predicate PossibleCall(call: Call) {
    call.tail != [[]]
  }

  /** Recoverable 404s carry no payload of their own. */
  ghost predicate PlainNotFound<L(!new), S(!new), R>(run: Runner<L, S, R>) {
    forall l: L, call: Call, s: S :: PossibleCall(call) ==> PlainIfNotFound(run(l, call, s).0)
  }

  predicate PlainIfNotFound<R>(r: RouteResult<R>) {
    r.Fail? && r.error.code == 404 ==> r.error == NOT_FOUND
  }

  /** Equal errors, or two 404s where their payload is not to be compared. */
  ghost predicate SameError(exact: bool, a: ServerError, b: ServerError) {
    a == b || (!exact && a.code == 404 && b.code == 404)
  }

  ghost predicate SameResult<R>(exact: bool, a: RouteResult<R>, b: RouteResult<R>) {
    if a.Fail? && b.Fail? then SameError(exact, a.error, b.error) else a == b
  }

  lemma {:induction false} PossibleCalls<L>(router: Router<L>, segments: seq<Text>, captures: seq<Text>,
        captureAll: Option<seq<Text>>)
    ensures forall c <- Candidates(router, segments, captures, captureAll) :: PossibleCall(c.call)
    decreases router
  {
    match router
    case Static(children, leaves) =>
      if !IsEmptyPath(segments) && segments[0] in children {
        PossibleCalls(children[segments[0]], segments[1..], captures, captureAll);
      }
    case Capture(_, inner) =>
      if !IsEmptyPath(segments) {
        PossibleCalls(inner, segments[1..], captures + [segments[0]], captureAll);
      }
    case CaptureAll(_, inner) => PossibleCalls(inner, [], captures, Some(RestSegments(segments)));
    case Raw(_) =>
    case Choice(a, b) =>
      PossibleCalls(a, segments, captures, captureAll);
      PossibleCalls(b, segments, captures, captureAll);
  }

  lemma {:induction false} WalkKeepsPlain<L(!new), S(!new), R>(run: Runner<L, S, R>, cs: seq<Candidate<L>>,
        best: Option<ServerError>, s: S)
    requires PlainNotFound(run)
    requires forall c <- cs :: PossibleCall(c.call)
    requires best.Some? && best.value.code == 404 ==> best.value == NOT_FOUND
    ensures var w: Progress<R, S> := Walk(run, cs, best, s);
      w.Undecided? && w.best.Some? && w.best.value.code == 404 ==> w.best.value == NOT_FOUND
    decreases cs
  {
    if cs != [] {
      var (result, s') := At(run, cs[0], s);
      if result.Fail? {
        assert PlainIfNotFound(run(cs[0].leaf, cs[0].call, s).0);
        WalkKeepsPlain(run, cs[1..], Some(CombineFail(best, result.error)), s');
      }
    }
  }

  /** The interpreter of the tree does what the linear scan of its candidates does. */
  ghost predicate Agrees<L(!new), S(!new), R>(run: Runner<L, S, R>, router: Router<L>, segments: seq<Text>,
      captures: seq<Text>, captureAll: Option<seq<Text>>, s: S, exact: bool) {
    var (d, s1) := Dispatch(run, router, segments, captures, captureAll, s);
    var (r, s2) := Scan(run, Candidates(router, segments, captures, captureAll), s);
    s1 == s2 && SameResult(exact, d, r)
  }

  /** Combining two errors with 404 for "none" agrees with combining what is there. */
  lemma {:induction false} ChoiceErrors(exact: bool, e1: ServerError, e2: ServerError, best1: Option<ServerError>,
      best2: Option<ServerError>)
    requires SameError(exact, e1, best1.GetOr(NOT_FOUND)) && SameError(exact, e2, best2.GetOr(NOT_FOUND))
    requires exact ==> (best1.Some? && best1.value.code == 404 ==> best1.value == NOT_FOUND)
    requires exact ==> (best2.Some? && best2.value.code == 404 ==> best2.value == NOT_FOUND)
    ensures SameError(exact, CombineFail(Some(e1), e2), CombineBest(best1, best2).GetOr(NOT_FOUND))
  {}

  lemma {:induction false} ChoiceAgrees<L(!new), S(!new), R>(run: Runner<L, S, R>, a: Router<L>, b: Router<L>,
      segments: seq<Text>, captures: seq<Text>, captureAll: Option<seq<Text>>, s: S, exact: bool)
    requires exact ==> PlainNotFound(run)
    requires Agrees(run, a, segments, captures, captureAll, s, exact)
    requires var wa: Progress<R, S> := Walk(run, Candidates(a, segments, captures, captureAll), None, s);
      wa.Undecided? ==> Agrees(run, b, segments, captures, captureAll, wa.state, exact)
    ensures Agrees(run, Choice(a, b), segments, captures, captureAll, s, exact)
  {
    var ca, cb := Candidates(a, segments, captures, captureAll), Candidates(b, segments, captures, captureAll);
    WalkAppend(run, ca, cb, None, s);
    var wa: Progress<R, S> := Walk(run, ca, None, s);
    if wa.Undecided? {
      WalkFrom(run, cb, wa.best, wa.state);
      if exact {
        PossibleCalls(a, segments, captures, captureAll);
        PossibleCalls(b, segments, captures, captureAll);
        WalkKeepsPlain(run, ca, None, s);
        WalkKeepsPlain(run, cb, None, wa.state);
      }
      var wb: Progress<R, S> := Walk(run, cb, None, wa.state);
      if wb.Undecided? {
        var e1 := Dispatch(run, a, segments, captures, captureAll, s).0.error;
        var e2 := Dispatch(run, b, segments, captures, captureAll, wa.state).0.error;
        ChoiceErrors(exact, e1, e2, wa.best, wb.best);
      }
    }
  }

  /**
   The interpreter of the tree does what the linear scan of its candidates does: the
   same decision, the same final state, the same error up to the payload of a 404, and
   exactly the same error when recoverable 404s are plain.
   */
  lemma {:induction false} DispatchIsScan<L(!new), S(!new), R>(run: Runner<L, S, R>, router: Router<L>,
      segments: seq<Text>, captures: seq<Text>, captureAll: Option<seq<Text>>, s: S, exact: bool)
    requires exact ==> PlainNotFound(run)
    ensures Agrees(run, router, segments, captures, captureAll, s, exact)
    decreases router
  {
    match router
    case Static(children, leaves) =>
      if IsEmptyPath(segments) {
        RunLeavesIsWalk(run, leaves, Call([], captures, captureAll), None, s);
      } else if segments[0] in children {
        DispatchIsScan(run, children[segments[0]], segments[1..], captures, captureAll, s, exact);
      }
    case Capture(_, inner) =>
      if !IsEmptyPath(segments) {
        DispatchIsScan(run, inner, segments[1..], captures + [segments[0]], captureAll, s, exact);
      }
    case CaptureAll(_, inner) =>
      DispatchIsScan(run, inner, [], captures, Some(RestSegments(segments)), s, exact);
    case Raw(leaf) => WalkOne(run, Candidate(leaf, Call(RawTail(segments), captures, captureAll)), s);
    case Choice(a, b) =>
      DispatchIsScan(run, a, segments, captures, captureAll, s, exact);
      var wa: Progress<R, S> := Walk(run, Candidates(a, segments, captures, captureAll), None, s);
      if wa.Undecided? {
        DispatchIsScan(run, b, segments, captures, captureAll, wa.state, exact);
      }
      ChoiceAgrees(run, a, b, segments, captures, captureAll, s, exact);
  }

  /** Whether the tree and the scan agree exactly, on every router, path and state. */
  ghost predicate TreeIsExactlyScan<L(!new), S(!new), R>(run: Runner<L, S, R>) {
    forall router: Router<L>, segments: seq<Text>, captures: seq<Text>, ca: Option<seq<Text>>, s: S ::
      Dispatch(run, router, segments, captures, ca, s)
        == Scan(run, Candidates(router, segments, captures, ca), s)
  }

  /**
   The exact condition: the two agree in every detail precisely when recoverable 404s
   are plain. A leaf failing with a decorated 404 behind an empty sibling loses its
   payload in the tree and keeps it in the scan.
   */
  lemma {:induction false} ExactlyScanIffPlainNotFound<L(!new), S(!new), R>(run: Runner<L, S, R>)
    ensures TreeIsExactlyScan(run) <==> PlainNotFound(run)
  {
    if PlainNotFound(run) {
      forall router: Router<L>, segments: seq<Text>, captures: seq<Text>, ca: Option<seq<Text>>, s: S
        ensures Dispatch(run, router, segments, captures, ca, s)
             == Scan(run, Candidates(router, segments, captures, ca), s)
      {
        DispatchIsScan(run, router, segments, captures, ca, s, true);
      }
    }
    if TreeIsExactlyScan(run) {
      forall l: L, call: Call, s: S | PossibleCall(call) ensures PlainIfNotFound(run(l, call, s).0) {
        var router := Choice(Static(map[], []), Raw(l));
        assert RawTail(call.tail) == call.tail;
        var c := Candidate(l, call);
        assert Candidates(router, call.tail, call.captures, call.captureAll) == [c];
        WalkOne(run, c, s);
        assert Dispatch(run, router, call.tail, call.captures, call.captureAll, s) == Scan(run, [c], s);
      }
    }
  }

  // ----- merging preserves meaning

  lemma {:induction false} WithCallAppend<L>(xs: seq<L>, ys: seq<L>, call: Call)
    ensures WithCall(xs + ys, call) == WithCall(xs, call) + WithCall(ys, call)
  {}

  lemma {:induction false} MergeAppendsCandidates<L>(a: Router<L>, b: Router<L>, segments: seq<Text>,
        captures: seq<Text>, captureAll: Option<seq<Text>>)
    ensures Candidates(Merge(a, b), segments, captures, captureAll)
         == Candidates(a, segments, captures, captureAll) + Candidates(b, segments, captures, captureAll)
    decreases b
  {
    match (a, b)
    case (Static(t1, l1), Static(t2, l2)) =>
      if IsEmptyPath(segments) {
        WithCallAppend(l1, l2, Call([], captures, captureAll));
      } else if segments[0] in t1 && segments[0] in t2 {
        MergeAppendsCandidates(t1[segments[0]], t2[segments[0]], segments[1..], captures, captureAll);
      }
    case (Capture(h1, r1), Capture(h2, r2)) =>
      if !IsEmptyPath(segments) {
        MergeAppendsCandidates(r1, r2, segments[1..], captures + [segments[0]], captureAll);
      }
    case (r1, Choice(r2, r3)) =>
      MergeAppendsCandidates(r1, r2, segments, captures, captureAll);
      Assoc(Candidates(r1, segments, captures, captureAll), Candidates(r2, segments, captures, captureAll),
            Candidates(r3, segments, captures, captureAll));
    case (r1, r2) =>
  }

  /** An API: endpoints, each with its own router, combined by `Alt`. */
  datatype Api<L> = Endpoint(router: Router<L>) | Alt(left: Api<L>, right: Api<L>)

  function Serve<L>(api: Api<L>): Router<L> {
    match api
    case Endpoint(router) => router
    case Alt(left, right) => Merge(Serve(left), Serve(right))
  }

  /** The endpoints in declaration order. */
  function Endpoints<L>(api: Api<L>): seq<Router<L>> {
    match api
    case Endpoint(router) => [router]
    case Alt(left, right) => Endpoints(left) + Endpoints(right)
  }

  function EachCandidates<L>(routers: seq<Router<L>>, segments: seq<Text>): seq<Candidate<L>> {
    if routers == [] then []
    else Candidates(routers[0], segments, [], None) + EachCandidates(routers[1..], segments)
  }

  lemma {:induction false} EachCandidatesAppend<L>(xs: seq<Router<L>>, ys: seq<Router<L>>, segments: seq<Text>)
    ensures EachCandidates(xs + ys, segments) == EachCandidates(xs, segments) + EachCandidates(ys, segments)
  {
    if xs == [] {
      assert xs + ys == ys;
    } else {
      assert (xs + ys)[1..] == xs[1..] + ys;
      EachCandidatesAppend(xs[1..], ys, segments);
    }
  }

  lemma {:induction false} ServedCandidates<L>(api: Api<L>, segments: seq<Text>)
    ensures Candidates(Serve(api), segments, [], None) == EachCandidates(Endpoints(api), segments)
  {
    match api
    case Endpoint(router) =>
      assert EachCandidates([router], segments) == Candidates(router, segments, [], None) + [];
    case Alt(left, right) =>
      ServedCandidates(left, segments);
      ServedCandidates(right, segments);
      EachCandidatesAppend(Endpoints(left), Endpoints(right), segments);
      MergeAppendsCandidates(Serve(left), Serve(right), segments, [], None);
  }

  /** The served trie is the left-to-right scan of the flat endpoint list. */
  lemma {:induction false} ServedIsFlatScan<L(!new), S(!new), R>(run: Runner<L, S, R>, api: Api<L>,
        segments: seq<Text>, s: S, exact: bool)
    requires exact ==> PlainNotFound(run)
    ensures var (d, s1) := Dispatch(run, Serve(api), segments, [], None, s);
      var (r, s2) := Scan(run, EachCandidates(Endpoints(api), segments), s);
      s1 == s2 && SameResult(exact, d, r)
  {
    ServedCandidates(api, segments);
    DispatchIsScan(run, Serve(api), segments, [], None, s, exact);
  }

  /** How `Alt`s are nested does not matter, only the order of the endpoints does. */
  lemma {:induction false} NestingIrrelevant<L(!new), S(!new), R>(run: Runner<L, S, R>, api1: Api<L>, api2: Api<L>,
        segments: seq<Text>, s: S, exact: bool)
    requires Endpoints(api1) == Endpoints(api2)
    requires exact ==> PlainNotFound(run)
    ensures var (d1, s1) := Dispatch(run, Serve(api1), segments, [], None, s);
      var (d2, s2) := Dispatch(run, Serve(api2), segments, [], None, s);
      s1 == s2 && SameResult(exact, d1, d2)
  {
    ServedIsFlatScan(run, api1, segments, s, exact);
    ServedIsFlatScan(run, api2, segments, s, exact);
  }

  // ----- backtracking when recoverable failures leave the state alone

  ghost predicate FailKeepsState<L(!new), S(!new), R>(run: Runner<L, S, R>) {
    forall l: L, call: Call, s: S :: run(l, call, s).0.Fail? ==> run(l, call, s).1 == s
  }

  /** Candidate `k` is the first that does not fail recoverably when run in `s`. */
  ghost predicate FirstDecisive<L, S, R>(run: Runner<L, S, R>, cs: seq<Candidate<L>>, s: S, k: int) {
    && 0 <= k < |cs|
    && !At(run, cs[k], s).0.Fail?
    && forall j :: 0 <= j < k ==> At(run, cs[j], s).0.Fail?
  }

  ghost predicate AllFail<L, S, R>(run: Runner<L, S, R>, cs: seq<Candidate<L>>, s: S) {
    forall j :: 0 <= j < |cs| ==> At(run, cs[j], s).0.Fail?
  }

  /** The errors all candidates fail with, in order, each run in `s`. */
  ghost function Errors<L, S, R>(run: Runner<L, S, R>, cs: seq<Candidate<L>>, s: S): seq<ServerError>
    requires AllFail(run, cs, s)
  {
    seq(|cs|, j requires 0 <= j < |cs| => At(run, cs[j], s).0.error)
  }

  lemma {:induction false} WalkSelects<L(!new), S(!new), R>(run: Runner<L, S, R>, cs: seq<Candidate<L>>,
        best: Option<ServerError>, s: S)
    requires FailKeepsState(run)
    ensures match Walk(run, cs, best, s)
      case Decided(r, s') => exists k :: FirstDecisive(run, cs, s, k) && At(run, cs[k], s) == (r, s')
      case Undecided(b, s') => AllFail(run, cs, s) && s' == s && b == BestOf(best, Errors(run, cs, s))
    decreases cs
  {
    if cs != [] {
      var (result, s') := At(run, cs[0], s);
      if result.Fail? {
        assert run(cs[0].leaf, cs[0].call, s).0.Fail?;
        var next := Some(CombineFail(best, result.error));
        WalkSelects(run, cs[1..], next, s);
        match Walk(run, cs[1..], next, s)
        case Decided(r, t) =>
          var k :| FirstDecisive(run, cs[1..], s, k) && At(run, cs[1..][k], s) == (r, t);
          assert FirstDecisive(run, cs, s, k + 1);
        case Undecided(_, _) =>
          assert Errors(run, cs, s)[1..] == Errors(run, cs[1..], s);
      } else {
        assert FirstDecisive(run, cs, s, 0);
      }
    }
  }

  /**
   The outcome of trying candidates that are each judged in the initial state: the first that
   does not fail recoverably decides and alone changes the state, and if all fail the state is
   the initial one and the error is the one that wins by its code, the earliest of its class.
   */
  ghost predicate Selected<L, S, R>(run: Runner<L, S, R>, cs: seq<Candidate<L>>, s: S, d: RouteResult<R>, s': S,
      exact: bool) {
    if d.Fail? then
      && AllFail(run, cs, s)
      && s' == s
      && (if cs == [] then SameError(exact, d.error, ServerError(404, Plain))
          else exists e :: Wins(Errors(run, cs, s), e) && SameError(exact, d.error, e))
    else exists k :: FirstDecisive(run, cs, s, k) && At(run, cs[k], s) == (d, s')
  }

  lemma {:induction false} ScanSelects<L(!new), S(!new), R>(run: Runner<L, S, R>, cs: seq<Candidate<L>>, s: S,
      d: RouteResult<R>, s': S, exact: bool)
    requires FailKeepsState(run)
    requires s' == Scan(run, cs, s).1 && SameResult(exact, d, Scan(run, cs, s).0)
    ensures Selected(run, cs, s, d, s', exact)
  {
    WalkSelects(run, cs, None, s);
    var w: Progress<R, S> := Walk(run, cs, None, s);
    if w.Undecided? && cs != [] {
      var errors := Errors(run, cs, s);
      assert IsBestAt([errors[0]], errors[0], 0);
      BestOfIsBest([errors[0]], errors[0], errors[1..]);
      assert errors == [errors[0]] + errors[1..];
      BestWins(errors, w.best.value);
    }
  }

  /**
   When a recoverable failure leaves the state as it was, dispatching runs exactly one leaf for
   effect; the error is exact when recoverable 404s are plain, and otherwise up to the payload
   of a 404.
   */
  lemma {:induction false} DispatchSelects<L(!new), S(!new), R>(run: Runner<L, S, R>, router: Router<L>,
      segments: seq<Text>, captures: seq<Text>, captureAll: Option<seq<Text>>, s: S, exact: bool)
    requires FailKeepsState(run) && (exact ==> PlainNotFound(run))
    ensures var (d, s') := Dispatch(run, router, segments, captures, captureAll, s);
      Selected(run, Candidates(router, segments, captures, captureAll), s, d, s', exact)
  {
    var cs := Candidates(router, segments, captures, captureAll);
    DispatchIsScan(run, router, segments, captures, captureAll, s, exact);
    var (d, s') := Dispatch(run, router, segments, captures, captureAll, s);
    ScanSelects(run, cs, s, d, s', exact);
  }
}
