/** A printed path against the chain it was printed from: when the server's router reaches the leaf, and with what. */
module UrlPaths {
  import opened Basics
  import opened RouteResults
  import opened Targets
  import opened Chains
  import opened UrlBuilders
  import Routing

  // ----- matching a path against a chain

  /** What the leaf of a chain is called with, if the segments reach it. */
  function MatchPath(chain: Chain, segments: seq<Text>, captures: seq<Text>, captureAll: Option<seq<Text>>)
    : Option<Routing.Call> {
    match chain
    case Verb(_, _) =>
      if Routing.IsEmptyPath(segments) then Some(Routing.Call([], captures, captureAll)) else None
    case Path(segment, next) =>
      if Routing.IsEmptyPath(segments) || segments[0] != segment then None
      else MatchPath(next, segments[1..], captures, captureAll)
    case Capture(_, _, _, next) =>
      if Routing.IsEmptyPath(segments) then None
      else MatchPath(next, segments[1..], captures + [segments[0]], captureAll)
    case CaptureAll(_, _, next) =>
      MatchPath(next, [], captures, Some(Routing.RestSegments(segments)))
    case _ => MatchPath(chain.next, segments, captures, captureAll)
  }

  /** Running a leaf where its chain matched; a path that does not match is not found. */
  function RunAt<L, S, R>(run: Routing.Runner<L, S, R>, leaf: L, call: Option<Routing.Call>, s: S)
    : (RouteResult<R>, S) {
    match call
    case None => (Fail(NOT_FOUND), s)
    case Some(c) => run(leaf, c, s)
  }

  lemma {:induction false} RunSingle<L, S, R>(run: Routing.Runner<L, S, R>, leaf: L, call: Routing.Call, s: S)
    ensures Routing.RunLeaves(run, [leaf], call, None, s) == run(leaf, call, s)
  {
    assert [leaf][1..] == [];
  }

  /** Interpreting a chain's router is matching its path, then running its leaf. */
  lemma {:induction false} ShapeDispatches<L, S, R>(run: Routing.Runner<L, S, R>, chain: Chain, leaf: L,
        segments: seq<Text>, captures: seq<Text>, captureAll: Option<seq<Text>>, s: S)
    ensures Routing.Dispatch(run, Shape(chain, leaf), segments, captures, captureAll, s)
         == RunAt(run, leaf, MatchPath(chain, segments, captures, captureAll), s)
  {
    if chain.Verb? {
      RunSingle(run, leaf, Routing.Call([], captures, captureAll), s);
    } else if chain.CaptureAll? {
      ShapeDispatches(run, chain.next, leaf, [], captures, Some(Routing.RestSegments(segments)), s);
    } else if !chain.Path? && !chain.Capture? {
      ShapeDispatches(run, chain.next, leaf, segments, captures, captureAll, s);
    } else if Routing.IsEmptyPath(segments) {
    } else if chain.Path? {
      ShapeDispatches(run, chain.next, leaf, segments[1..], captures, captureAll, s);
    } else {
      ShapeDispatches(run, chain.next, leaf, segments[1..], captures + [segments[0]], captureAll, s);
    }
  }

  // ----- the path that was printed

  /** The pieces of the `Path` and `Capture` combinators. */
  function FixedPieces(chain: Chain, args: seq<Arg>): seq<Text> {
    if chain.Verb? then []
    else
      (if chain.Path? || chain.Capture? then OwnPieces(chain, Head(args)) else [])
      + FixedPieces(chain.next, Tail(chain, args))
  }

  /** The pieces of the capture-all, if the chain has one. */
  function RestPieces(chain: Chain, args: seq<Arg>): Option<seq<Text>> {
    if chain.Verb? then None
    else if chain.CaptureAll? then Some(OwnPieces(chain, Head(args)))
    else RestPieces(chain.next, Tail(chain, args))
  }

  /** The pieces the captures stand for. */
  function CapturePieces(chain: Chain, args: seq<Arg>): seq<Text> {
    if chain.Verb? then []
    else
      (if chain.Capture? then OwnPieces(chain, Head(args)) else [])
      + CapturePieces(chain.next, Tail(chain, args))
  }

  predicate NoPath(chain: Chain) {
    chain.Verb? || (!chain.Path? && !chain.Capture? && !chain.CaptureAll? && NoPath(chain.next))
  }

  /** A capture-all is the last path combinator. */
  predicate CaptureAllLast(chain: Chain) {
    chain.Verb? || (if chain.CaptureAll? then NoPath(chain.next) else CaptureAllLast(chain.next))
  }

  lemma {:induction false} NoPathNoPieces(chain: Chain, args: seq<Arg>)
    requires NoPath(chain)
    ensures PathPieces(chain, args) == [] && RestPieces(chain, args) == None
    ensures FixedPieces(chain, args) == [] && CapturePieces(chain, args) == []
  {
    if !chain.Verb? {
      NoPathNoPieces(chain.next, Tail(chain, args));
    }
  }

  lemma {:induction false} SkippedPieces(chain: Chain, args: seq<Arg>)
    requires !chain.Verb? && !chain.Path? && !chain.Capture? && !chain.CaptureAll?
    ensures PathPieces(chain, args) == PathPieces(chain.next, Tail(chain, args))
    ensures FixedPieces(chain, args) == FixedPieces(chain.next, Tail(chain, args))
    ensures CapturePieces(chain, args) == CapturePieces(chain.next, Tail(chain, args))
    ensures RestPieces(chain, args) == RestPieces(chain.next, Tail(chain, args))
  {
    assert OwnPieces(chain, Head(args)) == [];
    NothingInFront(PathPieces(chain.next, Tail(chain, args)));
    NothingInFront(FixedPieces(chain.next, Tail(chain, args)));
    NothingInFront(CapturePieces(chain.next, Tail(chain, args)));
  }

  lemma {:induction false} OwnStep(chain: Chain, args: seq<Arg>)
    requires chain.Path? || chain.Capture?
    ensures var own := OwnPieces(chain, Head(args));
      && PathPieces(chain, args) == own + PathPieces(chain.next, Tail(chain, args))
      && FixedPieces(chain, args) == own + FixedPieces(chain.next, Tail(chain, args))
      && RestPieces(chain, args) == RestPieces(chain.next, Tail(chain, args))
  {}

  lemma {:induction false} RestStep(chain: Chain, args: seq<Arg>)
    requires chain.CaptureAll? && NoPath(chain.next)
    ensures var own := OwnPieces(chain, Head(args));
      && PathPieces(chain, args) == own && RestPieces(chain, args) == Some(own)
      && FixedPieces(chain, args) == [] && CapturePieces(chain, args) == []
  {
    NoPathNoPieces(chain.next, Tail(chain, args));
  }

  lemma {:induction false} PiecesSplit(chain: Chain, args: seq<Arg>)
    requires CaptureAllLast(chain)
    ensures PathPieces(chain, args) == FixedPieces(chain, args) + RestPieces(chain, args).GetOr([])
  {
    if chain.Verb? {
    } else if chain.CaptureAll? {
      RestStep(chain, args);
    } else if chain.Path? || chain.Capture? {
      PiecesSplit(chain.next, Tail(chain, args));
      OwnStep(chain, args);
      var fixed, rest := FixedPieces(chain.next, Tail(chain, args)), RestPieces(chain, args).GetOr([]);
      Assoc(OwnPieces(chain, Head(args)), fixed, rest);
    } else {
      SkippedPieces(chain, args);
      PiecesSplit(chain.next, Tail(chain, args));
    }
  }

  /** The path ends in a piece the server can tell from a trailing slash. */
  predicate EndsVisibly(fixed: seq<Text>, rest: Option<seq<Text>>) {
    rest.GetOr([]) != [] || fixed == [] || fixed[|fixed| - 1] != []
  }

  predicate Reaches(chain: Chain, args: seq<Arg>) {
    EndsVisibly(FixedPieces(chain, args), RestPieces(chain, args))
  }

  /** The capture-all as the server sees it: an empty first piece is lost. */
  function RestSeen(rest: Option<seq<Text>>): Option<seq<Text>> {
    match rest
    case None => None
    case Some(pieces) => Some(Routing.RestSegments(pieces))
  }

  function OrElse<T>(a: Option<T>, b: Option<T>): Option<T> {
    if a.Some? then a else b
  }

  lemma {:induction false} NoPathMatches(chain: Chain, segments: seq<Text>, captures: seq<Text>,
        captureAll: Option<seq<Text>>)
    requires NoPath(chain) && Routing.IsEmptyPath(segments)
    ensures MatchPath(chain, segments, captures, captureAll) == Some(Routing.Call([], captures, captureAll))
  {
    if !chain.Verb? {
      NoPathMatches(chain.next, segments, captures, captureAll);
    }
  }

  lemma {:induction false} ReachesStep(chain: Chain, args: seq<Arg>)
    requires chain.Path? || chain.Capture?
    requires CaptureAllLast(chain)
    ensures var rest := PathPieces(chain.next, Tail(chain, args));
      var own := OwnPieces(chain, Head(args));
      && PathPieces(chain, args) == own + rest && |own| == 1
      && (rest == [] ==> (Reaches(chain, args) <==> own[0] != []) && Reaches(chain.next, Tail(chain, args)))
      && (rest != [] ==> (Reaches(chain, args) <==> Reaches(chain.next, Tail(chain, args))))
  {
    PiecesSplit(chain.next, Tail(chain, args));
    var own, fixed := OwnPieces(chain, Head(args)), FixedPieces(chain.next, Tail(chain, args));
    assert FixedPieces(chain, args) == own + fixed;
  }

  /** What the leaf is called with when the printed path comes in. */
  function CallFor(fixed: seq<Text>, rest: Option<seq<Text>>, pieces: seq<Text>,
                   captures: seq<Text>, captureAll: Option<seq<Text>>): Option<Routing.Call> {
    if EndsVisibly(fixed, rest) then Some(Routing.Call([], captures + pieces, OrElse(RestSeen(rest), captureAll)))
    else None
  }

  function SentCall(chain: Chain, args: seq<Arg>, captures: seq<Text>, captureAll: Option<seq<Text>>)
    : Option<Routing.Call> {
    CallFor(FixedPieces(chain, args), RestPieces(chain, args), CapturePieces(chain, args), captures, captureAll)
  }

  lemma {:induction false} SkippedMatch(chain: Chain, segments: seq<Text>, captures: seq<Text>,
        captureAll: Option<seq<Text>>)
    requires !chain.Verb? && !chain.Path? && !chain.Capture? && !chain.CaptureAll?
    ensures MatchPath(chain, segments, captures, captureAll) == MatchPath(chain.next, segments, captures, captureAll)
  {}

  lemma {:induction false} MatchRest(chain: Chain, args: seq<Arg>, segments: seq<Text>, captures: seq<Text>,
        captureAll: Option<seq<Text>>)
    requires CaptureAllLast(chain) && chain.CaptureAll?
    requires segments == PathPieces(chain, args) || segments == SegmentsAsSent(PathPieces(chain, args))
    ensures MatchPath(chain, segments, captures, captureAll) == SentCall(chain, args, captures, captureAll)
  {
    RestStep(chain, args);
    var own := OwnPieces(chain, Head(args));
    NoPathMatches(chain.next, [], captures, Some(Routing.RestSegments(segments)));
    assert captures + [] == captures;
    assert Routing.RestSegments(segments) == Routing.RestSegments(own);
  }

  /** Matching the printed path against the chain it was printed from. */
  lemma {:induction false} MatchSent(chain: Chain, args: seq<Arg>, segments: seq<Text>, captures: seq<Text>,
        captureAll: Option<seq<Text>>)
    requires CaptureAllLast(chain)
    requires segments == PathPieces(chain, args) || segments == SegmentsAsSent(PathPieces(chain, args))
    ensures MatchPath(chain, segments, captures, captureAll) == SentCall(chain, args, captures, captureAll)
    decreases chain, 1
  {
    if chain.Verb? {
      assert captures + [] == captures;
    } else if chain.CaptureAll? {
      MatchRest(chain, args, segments, captures, captureAll);
    } else if chain.Path? || chain.Capture? {
      MatchStep(chain, args, segments, captures, captureAll);
    } else {
      SkippedPieces(chain, args);
      SkippedMatch(chain, segments, captures, captureAll);
      MatchSent(chain.next, Tail(chain, args), segments, captures, captureAll);
    }
  }

  lemma {:induction false} MatchStep(chain: Chain, args: seq<Arg>, segments: seq<Text>, captures: seq<Text>,
        captureAll: Option<seq<Text>>)
    requires CaptureAllLast(chain) && (chain.Path? || chain.Capture?)
    requires segments == PathPieces(chain, args)
    ensures MatchPath(chain, segments, captures, captureAll) == SentCall(chain, args, captures, captureAll)
    decreases chain, 0
  {
    ReachesStep(chain, args);
    var own, rest := OwnPieces(chain, Head(args)), PathPieces(chain.next, Tail(chain, args));
    AfterFirst(own[0], rest);
    assert own == [own[0]];
    if own[0] == [] && rest == [] {
      assert Routing.IsEmptyPath(segments);
    } else {
      var more := CapturePieces(chain.next, Tail(chain, args));
      if chain.Capture? {
        MatchSent(chain.next, Tail(chain, args), rest, captures + own, captureAll);
        Assoc(captures, own, more);
      } else {
        MatchSent(chain.next, Tail(chain, args), rest, captures, captureAll);
        assert [] + more == more;
      }
    }
  }
}
