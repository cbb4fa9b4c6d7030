/**
 The routing tree, the smart constructor that merges sibling routers, and the
 interpreter. Leaves are stateful: running one maps a state to a result and a new
 state, so the order in which the interpreter runs them is observable.
 */
module Routing {
  import opened Basics
  import opened RouteResults

  datatype CaptureHint = CaptureHint(name: Text, typeName: Text)

  /** What a leaf is called with. */
  datatype Call = Call(tail: seq<Text>, captures: seq<Text>, captureAll: Option<seq<Text>>)

  datatype Router<L> =
    | Static(children: map<Text, Router<L>>, leaves: seq<L>)
    | Capture(hints: seq<CaptureHint>, inner: Router<L>)
    | CaptureAll(hints: seq<CaptureHint>, inner: Router<L>)
    | Raw(leaf: L)
    | Choice(left: Router<L>, right: Router<L>)

  /** How a leaf runs in a state. */
  type Runner<!L, !S, +R> = (L, Call, S) -> (RouteResult<R>, S)

  function LeafRouter<L>(leaf: L): Router<L> {
    Static(map[], [leaf])
  }

  function PathRouter<L>(segment: Text, inner: Router<L>): Router<L> {
    Static(map[segment := inner], [])
  }

  // ----- merging

  function MergeHints(h1: seq<CaptureHint>, h2: seq<CaptureHint>): seq<CaptureHint>
    decreases h2
  {
    if h2 == [] then h1
    else MergeHints(if h2[0] in h1 then h1 else h1 + [h2[0]], h2[1..])
  }

  lemma {:induction false} MergeHintsLast(h1: seq<CaptureHint>, h2: seq<CaptureHint>, hint: CaptureHint)
    ensures MergeHints(h1, h2 + [hint])
         == if hint in h1 || hint in h2 then MergeHints(h1, h2) else MergeHints(h1, h2) + [hint]
    decreases h2
  {
    if h2 == [] {
      assert [] + [hint] == [hint] && [hint][1..] == [];
    } else {
      assert (h2 + [hint])[1..] == h2[1..] + [hint];
      FirstAndRest(h2);
      MergeHintsLast(if h2[0] in h1 then h1 else h1 + [h2[0]], h2[1..], hint);
    }
  }

  /** The left router's hints, and those of the right one that it lacks, each where it occurs first. */
  lemma {:induction false} MergeHintsIs(h1: seq<CaptureHint>, h2: seq<CaptureHint>)
    ensures MergeHints(h1, h2) == h1 + NewOnes(h1, h2)
    decreases |h2|
  {
    if h2 == [] {
      assert h1 + [] == h1;
    } else {
      var front, last := h2[..|h2| - 1], h2[|h2| - 1];
      assert h2 == front + [last];
      MergeHintsIs(h1, front);
      MergeHintsLast(h1, front, last);
      Assoc(h1, NewOnes(h1, front), if last in h1 || last in front then [] else [last]);
    }
  }

  function Merge<L>(a: Router<L>, b: Router<L>): Router<L>
    decreases b
  {
    match (a, b)
    case (Static(t1, l1), Static(t2, l2)) =>
      Static(
        map k | k in t1.Keys + t2.Keys ::
          if k !in t2 then t1[k] else if k !in t1 then t2[k] else Merge(t1[k], t2[k]),
        l1 + l2)
    case (Capture(h1, r1), Capture(h2, r2)) => Capture(MergeHints(h1, h2), Merge(r1, r2))
    case (r1, Choice(r2, r3)) => Choice(Merge(r1, r2), r3)
    case (r1, r2) => Choice(r1, r2)
  }

  // ----- interpretation

  predicate IsEmptyPath(segments: seq<Text>) {
    segments == [] || segments == [[]]
  }

  function RawTail(segments: seq<Text>): seq<Text> {
    if IsEmptyPath(segments) then [] else segments
  }

  /** A trailing slash leaves an empty first segment, which capture-all drops. */
  function RestSegments(segments: seq<Text>): seq<Text> {
    if segments != [] && segments[0] == [] then segments[1..] else segments
  }

  function RunLeaves<L, S, R>(run: Runner<L, S, R>, leaves: seq<L>, call: Call,
                              best: Option<ServerError>, s: S): (RouteResult<R>, S) {
    if leaves == [] then (Fail(best.GetOr(NOT_FOUND)), s)
    else
      var (result, s') := run(leaves[0], call, s);
      match result
      case Fail(e) => RunLeaves(run, leaves[1..], call, Some(CombineFail(best, e)), s')
      case decided => (decided, s')
  }

  function Dispatch<L, S, R>(run: Runner<L, S, R>, router: Router<L>, segments: seq<Text>,
                             captures: seq<Text>, captureAll: Option<seq<Text>>, s: S)
    : (RouteResult<R>, S)
    decreases router
  {
    match router
    case Static(children, leaves) =>
      if IsEmptyPath(segments) then RunLeaves(run, leaves, Call([], captures, captureAll), None, s)
      else if segments[0] in children then
        Dispatch(run, children[segments[0]], segments[1..], captures, captureAll, s)
      else (Fail(NOT_FOUND), s)
    case Capture(_, inner) =>
      if IsEmptyPath(segments) then (Fail(NOT_FOUND), s)
      else Dispatch(run, inner, segments[1..], captures + [segments[0]], captureAll, s)
    case CaptureAll(_, inner) =>
      Dispatch(run, inner, [], captures, Some(RestSegments(segments)), s)
    case Raw(leaf) => run(leaf, Call(RawTail(segments), captures, captureAll), s)
    case Choice(a, b) =>
      var (r1, s1) := Dispatch(run, a, segments, captures, captureAll, s);
      match r1
      case Fail(e1) =>
        var (r2, s2) := Dispatch(run, b, segments, captures, captureAll, s1);
        (match r2
         case Fail(e2) => (Fail(CombineFail(Some(e1), e2)), s2)
         case decided => (decided, s2))
      case decided => (decided, s1)
  }

  /** A raw leaf gets every segment that is left; a lone empty one, from a trailing slash, is none. */
  lemma {:induction false} RawGetsTheRest<L, S, R>(run: Runner<L, S, R>, leaf: L, segments: seq<Text>,
        captures: seq<Text>, captureAll: Option<seq<Text>>, s: S)
    ensures Dispatch(run, Raw(leaf), segments, captures, captureAll, s)
         == run(leaf, Call(if segments == [[]] then [] else segments, captures, captureAll), s)
  {}

  // ----- the loops of the implementation

  method MergeHintsLoop(h1: seq<CaptureHint>, h2: seq<CaptureHint>) returns (hints: seq<CaptureHint>)
    ensures hints == MergeHints(h1, h2)
  {
    hints := h1;
    for i := 0 to |h2|
      invariant MergeHints(hints, h2[i..]) == MergeHints(h1, h2)
    {
      assert h2[i..][1..] == h2[i + 1..];
      if h2[i] !in hints {
        hints := hints + [h2[i]];
      }
    }
    assert h2[|h2|..] == [];
  }

  /** The smart constructor: moves the right map's entries into the left one, one by one. */
  method MergeRouters<L>(a: Router<L>, b: Router<L>) returns (r: Router<L>)
    ensures r == Merge(a, b)
    decreases b
  {
    match (a, b)
    case (Static(t1, l1), Static(t2, l2)) =>
      var merged := t1;
      var pending := t2.Keys;
      while pending != {}
        invariant pending <= t2.Keys
        invariant merged.Keys == t1.Keys + (t2.Keys - pending)
        invariant forall k :: k in merged ==>
          merged[k] == if k !in t2 || k in pending then t1[k] else if k !in t1 then t2[k] else Merge(t1[k], t2[k])
      {
        var k :| k in pending;
        if k in merged {
          var both := MergeRouters(merged[k], t2[k]);
          merged := merged[k := both];
        } else {
          merged := merged[k := t2[k]];
        }
        pending := pending - {k};
      }
      assert merged == Merge(a, b).children;
      r := Static(merged, l1 + l2);
    case (Capture(h1, r1), Capture(h2, r2)) =>
      var hints := MergeHintsLoop(h1, h2);
      var inner := MergeRouters(r1, r2);
      r := Capture(hints, inner);
    case (r1, Choice(r2, r3)) =>
      var left := MergeRouters(r1, r2);
      r := Choice(left, r3);
    case (r1, r2) =>
      r := Choice(r1, r2);
  }

  method RunChoiceLeaves<L, S, R>(run: Runner<L, S, R>, leaves: seq<L>, captures: seq<Text>,
                                  captureAll: Option<seq<Text>>, s: S)
    returns (result: RouteResult<R>, s': S)
    ensures (result, s') == RunLeaves(run, leaves, Call([], captures, captureAll), None, s)
  {
    var best: Option<ServerError> := None;
    s' := s;
    for i := 0 to |leaves|
      invariant RunLeaves(run, leaves[i..], Call([], captures, captureAll), best, s')
             == RunLeaves(run, leaves, Call([], captures, captureAll), None, s)
    {
      assert leaves[i..][1..] == leaves[i + 1..];
      var (outcome, next) := run(leaves[i], Call([], captures, captureAll), s');
      s' := next;
      match outcome
      case Fail(e) => best := Some(CombineFail(best, e));
      case decided => return decided, s';
    }
    result := Fail(best.GetOr(NOT_FOUND));
  }
}
