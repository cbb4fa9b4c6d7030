/** Content negotiation: choosing a response media type, and the codec that owns it. */
module Negotiation {
  import opened Basics

  datatype Mime = Mime(kind: Text, subtype: Text)

  /** One parsed entry of an `Accept` header. */
  datatype MediaRange = MediaRange(kind: Text, subtype: Text, quality: real)

  const STAR: Text := [42]
  const STAR_RANGE := MediaRange(STAR, STAR, 1.0)

  function LowerByte(b: byte): byte {
    if 65 <= b <= 90 then b + 32 else b
  }

  predicate EqIgnoreCase(a: Text, b: Text) {
    |a| == |b| && forall i :: 0 <= i < |a| ==> LowerByte(a[i]) == LowerByte(b[i])
  }

  /** exact = 3, `type/*` = 2, `*/*` = 1, no match = None */
  function Specificity(range: MediaRange, server: Mime): Option<nat> {
    if range.kind == STAR && range.subtype == STAR then Some(1)
    else if range.subtype == STAR && EqIgnoreCase(range.kind, server.kind) then Some(2)
    else if EqIgnoreCase(range.kind, server.kind) && EqIgnoreCase(range.subtype, server.subtype) then Some(3)
    else None
  }

  /** How well a media type does: the specificity and quality of its best matching range. */
  datatype Worth = Worth(spec: nat, quality: real)

  /** Within one media type, specificity decides before quality. */
  predicate MoreSpecific(a: Worth, b: Worth) {
    a.spec > b.spec || (a.spec == b.spec && a.quality > b.quality)
  }

  /** Across media types, quality decides before specificity. */
  predicate Better(a: Worth, b: Worth) {
    a.quality > b.quality || (a.quality == b.quality && a.spec > b.spec)
  }

  function Consider(cur: Option<Worth>, range: MediaRange, mt: Mime): Option<Worth> {
    match Specificity(range, mt)
    case None => cur
    case Some(spec) =>
      var cand := Worth(spec, range.quality);
      if cur.None? || MoreSpecific(cand, cur.value) then Some(cand) else cur
  }

  function WorthFrom(cur: Option<Worth>, ranges: seq<MediaRange>, mt: Mime): Option<Worth>
    decreases ranges
  {
    if ranges == [] then cur else WorthFrom(Consider(cur, ranges[0], mt), ranges[1..], mt)
  }

  function WorthOf(ranges: seq<MediaRange>, mt: Mime): Option<Worth> {
    WorthFrom(None, ranges, mt)
  }

  datatype Best = Best(index: nat, worth: Worth)

  function ConsiderType(best: Option<Best>, idx: nat, worth: Option<Worth>): Option<Best> {
    if worth.Some? && worth.value.quality > 0.0 && (best.None? || Better(worth.value, best.value.worth))
    then Some(Best(idx, worth.value))
    else best
  }

  function BestUpTo(ranges: seq<MediaRange>, media: seq<Mime>, n: nat): Option<Best>
    requires n <= |media|
  {
    if n == 0 then None
    else ConsiderType(BestUpTo(ranges, media, n - 1), n - 1, WorthOf(ranges, media[n - 1]))
  }

  /** The ranges that count: an absent or blank header stands for anything. */
  function EffectiveRanges(accept: Option<seq<MediaRange>>): seq<MediaRange> {
    match accept
    case None => [STAR_RANGE]
    case Some(ranges) => ranges
  }

  /** `accept` is None when the header is absent or blank, else its valid ranges. */
  function Negotiate(accept: Option<seq<MediaRange>>, media: seq<Mime>): Option<nat> {
    match BestUpTo(EffectiveRanges(accept), media, |media|)
    case None => None
    case Some(best) => Some(best.index)
  }

  method NegotiateMediaIndex(accept: Option<seq<MediaRange>>, media: seq<Mime>) returns (index: Option<nat>)
    ensures index == Negotiate(accept, media)
  {
    if media == [] {
      return None;
    }
    var ranges: seq<MediaRange>;
    match accept {
      case None => ranges := [STAR_RANGE];
      case Some(parsed) =>
        if parsed == [] {
          NothingAcceptable(media, |media|);
          return None;
        }
        ranges := parsed;
    }
    var best: Option<Best> := None;
    for idx := 0 to |media|
      invariant best == BestUpTo(ranges, media, idx)
    {
      var bestForOption: Option<Worth> := None;
      for i := 0 to |ranges|
        invariant WorthFrom(bestForOption, ranges[i..], media[idx]) == WorthOf(ranges, media[idx])
      {
        assert ranges[i..][1..] == ranges[i + 1..];
        bestForOption := Consider(bestForOption, ranges[i], media[idx]);
      }
      best := ConsiderType(best, idx, bestForOption);
    }
    index := if best.None? then None else Some(best.value.index);
  }

  lemma {:induction false} NothingAcceptable(media: seq<Mime>, n: nat)
    requires n <= |media|
    ensures BestUpTo([], media, n) == None
  {
    if n > 0 {
      NothingAcceptable(media, n - 1);
    }
  }

  // ----- what the loops compute

  /** Equal but for the case of ASCII letters. */
  predicate SameText(a: Text, b: Text) {
    |a| == |b| && forall i :: 0 <= i < |a| ==>
      || a[i] == b[i]
      || (65 <= a[i] <= 90 && b[i] == a[i] + 32)
      || (65 <= b[i] <= 90 && a[i] == b[i] + 32)
  }

  /** Level 1 matches anything, level 2 the kind alone, level 3 kind and subtype. */
  predicate MatchesAt(range: MediaRange, mt: Mime, level: nat) {
    if range.kind == [42] && range.subtype == [42] then level == 1
    else if range.subtype == [42] then level == 2 && SameText(range.kind, mt.kind)
    else level == 3 && SameText(range.kind, mt.kind) && SameText(range.subtype, mt.subtype)
  }

  lemma {:induction false} IgnoringCase(a: Text, b: Text)
    ensures EqIgnoreCase(a, b) <==> SameText(a, b)
  {}

  /** A range that matches has the specificity of its level, and one that does not has none. */
  lemma {:induction false} SpecificityIs(range: MediaRange, mt: Mime)
    ensures match Specificity(range, mt)
      case None => forall level: nat :: !MatchesAt(range, mt, level)
      case Some(spec) => forall level: nat :: MatchesAt(range, mt, level) <==> level == spec
  {
    IgnoringCase(range.kind, mt.kind);
    IgnoringCase(range.subtype, mt.subtype);
  }

  ghost predicate Offers(range: MediaRange, mt: Mime, w: Worth) {
    MatchesAt(range, mt, w.spec) && range.quality == w.quality
  }

  /** `w` comes from a matching range of the highest level, and has the best quality of those. */
  ghost predicate IsWorth(ranges: seq<MediaRange>, mt: Mime, w: Worth) {
    && (exists r :: r in ranges && Offers(r, mt, w))
    && forall r, w' :: r in ranges && Offers(r, mt, w') ==>
        w'.spec < w.spec || (w'.spec == w.spec && w'.quality <= w.quality)
  }

  ghost predicate NoMatch(ranges: seq<MediaRange>, mt: Mime) {
    forall r, level: nat :: r in ranges ==> !MatchesAt(r, mt, level)
  }

  ghost predicate Describes(ranges: seq<MediaRange>, mt: Mime, w: Option<Worth>) {
    match w
    case None => NoMatch(ranges, mt)
    case Some(w) => IsWorth(ranges, mt, w)
  }

  lemma {:induction false} WorthFromDescribes(seen: seq<MediaRange>, cur: Option<Worth>, ranges: seq<MediaRange>,
        mt: Mime)
    requires Describes(seen, mt, cur)
    ensures Describes(seen + ranges, mt, WorthFrom(cur, ranges, mt))
    decreases ranges
  {
    if ranges == [] {
      assert seen + ranges == seen;
    } else {
      var r := ranges[0];
      var next := Consider(cur, r, mt);
      SpecificityIs(r, mt);
      assert Describes(seen + [r], mt, next) by {
        if Specificity(r, mt).Some? {
          assert Offers(r, mt, Worth(Specificity(r, mt).value, r.quality));
          assert r in seen + [r];
        }
        if next.Some? && next == cur {
          var r' :| r' in seen && Offers(r', mt, next.value);
          assert r' in seen + [r];
        }
      }
      WorthFromDescribes(seen + [r], next, ranges[1..], mt);
      assert seen + [r] + ranges[1..] == seen + ranges;
    }
  }

  /** The inner loop finds the most specific matching range, ties going to the higher quality. */
  lemma {:induction false} WorthOfIsWorth(ranges: seq<MediaRange>, mt: Mime)
    ensures Describes(ranges, mt, WorthOf(ranges, mt))
  {
    WorthFromDescribes([], None, ranges, mt);
    assert [] + ranges == ranges;
  }

  /** Only the set of ranges matters: permuting or repeating them changes nothing. */
  lemma {:induction false} WorthOrderFree(xs: seq<MediaRange>, ys: seq<MediaRange>, mt: Mime)
    requires forall r :: r in xs <==> r in ys
    ensures WorthOf(xs, mt) == WorthOf(ys, mt)
  {
    var a, b := WorthOf(xs, mt), WorthOf(ys, mt);
    WorthOfIsWorth(xs, mt);
    WorthOfIsWorth(ys, mt);
    if a.Some? && b.Some? {
      var r :| r in xs && Offers(r, mt, a.value);
      var r' :| r' in ys && Offers(r', mt, b.value);
      assert !MoreSpecific(a.value, b.value) && !MoreSpecific(b.value, a.value);
    }
  }

  lemma {:induction false} OneWorth(ranges: seq<MediaRange>, mt: Mime, w: Worth)
    ensures IsWorth(ranges, mt, w) <==> WorthOf(ranges, mt) == Some(w)
  {
    WorthOfIsWorth(ranges, mt);
    var own := WorthOf(ranges, mt);
    if IsWorth(ranges, mt, w) {
      var r :| r in ranges && Offers(r, mt, w);
      assert MatchesAt(r, mt, w.spec);
      var r' :| r' in ranges && Offers(r', mt, own.value);
    }
  }

  /** Some range asks for it with a quality above zero, and none of a higher level overrides that. */
  ghost predicate Acceptable(ranges: seq<MediaRange>, mt: Mime) {
    exists w :: IsWorth(ranges, mt, w) && w.quality > 0.0
  }

  /** Higher quality first, then the higher level, then the place in the list. */
  predicate Before(w: Worth, i: nat, w': Worth, j: nat) {
    || w.quality > w'.quality
    || (w.quality == w'.quality && (w.spec > w'.spec || (w.spec == w'.spec && i <= j)))
  }

  /** `idx` is the first, in that order, of the acceptable types among the first `n`. */
  ghost predicate IsOptimal(ranges: seq<MediaRange>, media: seq<Mime>, n: nat, idx: nat)
    requires n <= |media|
  {
    idx < n && exists w :: IsOptimalAs(ranges, media, n, idx, w)
  }

  ghost predicate IsOptimalAs(ranges: seq<MediaRange>, media: seq<Mime>, n: nat, idx: nat, w: Worth)
    requires idx < n <= |media|
  {
    && IsWorth(ranges, media[idx], w) && w.quality > 0.0
    && forall j: nat, w' :: j < n && IsWorth(ranges, media[j], w') && w'.quality > 0.0 ==> Before(w, idx, w', j)
  }

  predicate Wanted(worth: Option<Worth>) {
    worth.Some? && worth.value.quality > 0.0
  }

  lemma {:induction false} BestUpToLeads(ranges: seq<MediaRange>, media: seq<Mime>, n: nat)
    requires n <= |media|
    ensures match BestUpTo(ranges, media, n)
      case None => forall j :: 0 <= j < n ==> !Wanted(WorthOf(ranges, media[j]))
      case Some(b) =>
        && b.index < n && WorthOf(ranges, media[b.index]) == Some(b.worth) && b.worth.quality > 0.0
        && forall j: nat :: j < n && Wanted(WorthOf(ranges, media[j])) ==>
            Before(b.worth, b.index, WorthOf(ranges, media[j]).value, j)
  {
    if n > 0 {
      BestUpToLeads(ranges, media, n - 1);
    }
  }

  lemma {:induction false} AcceptableIsWanted(ranges: seq<MediaRange>, mt: Mime)
    ensures Acceptable(ranges, mt) <==> Wanted(WorthOf(ranges, mt))
  {
    if Acceptable(ranges, mt) {
      var w :| IsWorth(ranges, mt, w) && w.quality > 0.0;
      OneWorth(ranges, mt, w);
    } else if Wanted(WorthOf(ranges, mt)) {
      OneWorth(ranges, mt, WorthOf(ranges, mt).value);
    }
  }

  /** The result is the first in that order, and there is none exactly when nothing is acceptable. */
  lemma {:induction false} NegotiateOptimal(accept: Option<seq<MediaRange>>, media: seq<Mime>)
    ensures match Negotiate(accept, media)
      case None => forall j :: 0 <= j < |media| ==> !Acceptable(EffectiveRanges(accept), media[j])
      case Some(idx) => IsOptimal(EffectiveRanges(accept), media, |media|, idx)
  {
    var ranges := EffectiveRanges(accept);
    BestUpToLeads(ranges, media, |media|);
    var best := BestUpTo(ranges, media, |media|);
    if best.None? {
      forall j | 0 <= j < |media| ensures !Acceptable(ranges, media[j]) {
        AcceptableIsWanted(ranges, media[j]);
      }
    } else {
      var b := best.value;
      OneWorth(ranges, media[b.index], b.worth);
      forall j: nat, w | j < |media| && IsWorth(ranges, media[j], w) && w.quality > 0.0
        ensures Before(b.worth, b.index, w, j)
      {
        OneWorth(ranges, media[j], w);
      }
      assert IsOptimalAs(ranges, media, |media|, b.index, b.worth);
    }
  }

  /** Without an Accept header the endpoint's first type is served. */
  lemma {:induction false} AbsentTakesFirst(media: seq<Mime>)
    ensures Negotiate(None, media) == if media == [] then None else Some(0)
  {
    NegotiateOptimal(None, media);
    var star, w := MediaRange([42], [42], 1.0), Worth(1, 1.0);
    forall j | 0 <= j < |media| ensures WorthOf([star], media[j]) == Some(w) && Acceptable([star], media[j]) {
      assert Offers(star, media[j], w);
      OneWorth([star], media[j], w);
    }
    if media != [] {
      var idx := Negotiate(None, media).value;
      var best :| IsOptimalAs([star], media, |media|, idx, best);
      OneWorth([star], media[idx], best);
      OneWorth([star], media[0], w);
    }
  }

  lemma {:induction false} BestOrderFree(xs: seq<MediaRange>, ys: seq<MediaRange>, media: seq<Mime>, n: nat)
    requires forall r :: r in xs <==> r in ys
    requires n <= |media|
    ensures BestUpTo(xs, media, n) == BestUpTo(ys, media, n)
  {
    if n > 0 {
      BestOrderFree(xs, ys, media, n - 1);
      WorthOrderFree(xs, ys, media[n - 1]);
    }
  }

  lemma {:induction false} NegotiateOrderFree(xs: seq<MediaRange>, ys: seq<MediaRange>, media: seq<Mime>)
    requires forall r :: r in xs <==> r in ys
    ensures Negotiate(Some(xs), media) == Negotiate(Some(ys), media)
  {
    BestOrderFree(xs, ys, media, |media|);
  }

  // ----- from the flattened index to the codec that owns it

  /** Which content-type marker of the list renders the `idx`-th flattened media type. */
  function Owner(markers: seq<seq<Mime>>, idx: nat): Option<nat> {
    if markers == [] then None
    else if idx < |markers[0]| then Some(0)
    else
      match Owner(markers[1..], idx - |markers[0]|)
      case None => None
      case Some(k) => Some(k + 1)
  }

  method RenderIndex(markers: seq<seq<Mime>>, idx: nat) returns (owner: Option<nat>)
    ensures owner == Owner(markers, idx)
  {
    var i: nat := idx;
    for k := 0 to |markers|
      invariant Owner(markers, idx) ==
        match Owner(markers[k..], i)
        case None => None
        case Some(o) => Some(k + o)
    {
      assert markers[k..][1..] == markers[k + 1..];
      if i < |markers[k]| {
        return Some(k);
      }
      i := i - |markers[k]|;
    }
    owner := None;
  }

  /** The owner's own list holds the media type, at the position the index leaves over. */
  lemma {:induction false} OwnerOwns(markers: seq<seq<Mime>>, idx: nat)
    ensures idx < |Flatten(markers)| <==> Owner(markers, idx).Some?
    ensures match Owner(markers, idx)
      case None => true
      case Some(k) =>
        && k < |markers|
        && var before := |Flatten(markers[..k])|;
        && before <= idx < before + |markers[k]|
        && markers[k][idx - before] == Flatten(markers)[idx]
  {
    if markers != [] && idx >= |markers[0]| {
      OwnerOwns(markers[1..], idx - |markers[0]|);
      var rest := Owner(markers[1..], idx - |markers[0]|);
      if rest.Some? {
        assert markers[..rest.value + 1] == [markers[0]] + markers[1..][..rest.value];
      }
    }
  }

  /** After a successful accept check, rendering the negotiated index cannot go out of range. */
  lemma {:induction false} AcceptCheckGuardsRender(accept: Option<seq<MediaRange>>, markers: seq<seq<Mime>>)
    requires Negotiate(accept, Flatten(markers)).Some?
    ensures var idx := Negotiate(accept, Flatten(markers)).value;
      && idx < |Flatten(markers)|
      && Owner(markers, idx).Some?
      && Owner(markers, idx).value < |markers|
      && Flatten(markers)[idx] in markers[Owner(markers, idx).value]
  {
    var idx := Negotiate(accept, Flatten(markers)).value;
    NegotiateOptimal(accept, Flatten(markers));
    OwnerOwns(markers, idx);
  }

  /** A client that lists the endpoint's own types at full quality passes the accept check. */
  lemma {:induction false} OwnTypesAccepted(media: seq<Mime>, ranges: seq<MediaRange>)
    requires media != []
    requires |ranges| == |media|
    requires forall i :: 0 <= i < |media| ==> ranges[i] == MediaRange(media[i].kind, media[i].subtype, 1.0)
    ensures Negotiate(Some(ranges), media).Some?
  {
    NegotiateOptimal(Some(ranges), media);
    WorthOfIsWorth(ranges, media[0]);
    assert ranges[0] in ranges;
    SpecificityIs(ranges[0], media[0]);
    var w := WorthOf(ranges, media[0]).value;
    var r :| r in ranges && Offers(r, media[0], w);
    assert r.quality == 1.0;
    OneWorth(ranges, media[0], w);
    assert Acceptable(ranges, media[0]);
  }
}
