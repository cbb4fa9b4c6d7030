/** Request targets: how path pieces and query texts are printed, and how the server takes them apart. */
module Targets {
  import opened Basics
  import opened TextLists
  import opened QueryCodec

  const SLASH: byte := 47
  const QUESTION: byte := 63

  function EncodeAll(pieces: seq<Text>): (encoded: seq<Text>)
    ensures |encoded| == |pieces|
    ensures forall i :: 0 <= i < |pieces| ==> encoded[i] == Encode(pieces[i])
  {
    if pieces == [] then [] else [Encode(pieces[0])] + EncodeAll(pieces[1..])
  }

  /** `/a/b?x&y` from encoded path segments and rendered query texts. */
  function TargetOf(segments: seq<Text>, texts: seq<Text>): Text {
    [SLASH] + (Join(segments, SLASH) + (if texts == [] then [] else [QUESTION] + Join(texts, AMPERSAND)))
  }

  lemma {:induction false} TargetTexts(a: Text, b: Text, x: Text, y: Text)
    ensures TargetOf([a, b], []) == ['/' as int] + a + ['/' as int] + b
    ensures TargetOf([a, b], [x, y]) == TargetOf([a, b], []) + ['?' as int] + x + ['&' as int] + y
  {
    assert [a, b][1..] == [b] && [x, y][1..] == [y];
    assert Join([a, b], SLASH) == a + ([SLASH] + b) && Join([x, y], AMPERSAND) == x + ([AMPERSAND] + y);
  }

  // ----- the server's side

  function PathOf(target: Text): Text {
    match Find(target, QUESTION)
    case Some(i) => target[..i]
    case None => target
  }

  function QueryOf(target: Text): Option<Text> {
    match Find(target, QUESTION)
    case Some(i) => Some(target[i + 1..])
    case None => None
  }

  function DecodeAll(segments: seq<Text>): seq<Text> {
    if segments == [] then [] else [PercentDecode(segments[0])] + DecodeAll(segments[1..])
  }

  /** The leading slash is dropped; a trailing one leaves a final empty segment. */
  function PathSegments(path: Text): seq<Text> {
    DecodeAll(Split(if path != [] && path[0] == SLASH then path[1..] else path, SLASH))
  }

  function ParseQuery(query: Option<Text>): seq<Pair> {
    match query
    case None => []
    case Some(raw) => ParsePairs(raw)
  }

  /** The first question mark divides a target; one without has no query at all. */
  lemma {:induction false} TargetDivides(path: Text, query: Text)
    requires '?' as int !in path
    ensures PathOf(path + (['?' as int] + query)) == path && QueryOf(path + (['?' as int] + query)) == Some(query)
    ensures PathOf(path) == path && QueryOf(path) == None
  {
    FindInConcat(path, QUESTION, query);
    AroundSeparator(path, QUESTION, query);
  }

  lemma {:induction false} DecodeEach(segments: seq<Text>)
    ensures |DecodeAll(segments)| == |segments|
    ensures forall i :: 0 <= i < |segments| ==> DecodeAll(segments)[i] == PercentDecode(segments[i])
  {
    if segments != [] {
      DecodeEach(segments[1..]);
    }
  }

  /** The segments of any path, each decoded for itself; a plus sign in a path is just that. */
  lemma {:induction false} SegmentsOfPath(segments: seq<Text>)
    requires segments != [] && forall s <- segments :: '/' as int !in s
    ensures var decoded := PathSegments(['/' as int] + Join(segments, '/' as int));
      && |decoded| == |segments|
      && forall i :: 0 <= i < |segments| ==> decoded[i] == PercentDecode(segments[i])
  {
    AfterFirst(SLASH, Join(segments, SLASH));
    SplitJoin(segments, SLASH);
    DecodeEach(segments);
  }

  // ----- what is printed is read back

  lemma {:induction false} DecodeEncodedAll(pieces: seq<Text>)
    ensures DecodeAll(EncodeAll(pieces)) == pieces
  {
    if pieces != [] {
      DecodeEncodedAll(pieces[1..]);
      DecodeEncode(pieces[0]);
      AfterFirst(Encode(pieces[0]), EncodeAll(pieces[1..]));
      FirstAndRest(pieces);
    }
  }

  /** The printed pieces come back, an empty list as one empty segment. */
  function SegmentsAsSent(pieces: seq<Text>): seq<Text> {
    if pieces == [] then [[]] else pieces
  }

  lemma {:induction false} PathComesBack(pieces: seq<Text>)
    ensures PathSegments([SLASH] + Join(EncodeAll(pieces), SLASH)) == SegmentsAsSent(pieces)
    ensures QUESTION !in Join(EncodeAll(pieces), SLASH)
  {
    var segments := EncodeAll(pieces);
    forall i | 0 <= i < |segments| ensures SLASH !in segments[i] && QUESTION !in segments[i] {
      EncodedAvoids(pieces[i], SLASH);
      EncodedAvoids(pieces[i], QUESTION);
    }
    JoinAvoids(segments, SLASH, QUESTION);
    AfterFirst(SLASH, Join(segments, SLASH));
    if pieces == [] {
      assert Split([], SLASH) == [[]];
      assert DecodeAll([[]]) == [PercentDecode([])] + DecodeAll([[]][1..]);
    } else {
      SplitJoin(segments, SLASH);
      DecodeEncodedAll(pieces);
    }
  }

  lemma {:induction false} QueryComesBack(texts: seq<Text>)
    requires forall t <- texts :: AMPERSAND !in t
    ensures texts != [] ==> ParsePairs(Join(texts, AMPERSAND)) == ParsePieces(texts)
  {
    if texts != [] {
      SplitJoin(texts, AMPERSAND);
    }
  }

  /** The server reads back the pieces that were printed, and the pairs their texts stand for. */
  lemma {:induction false} TargetComesBack(pieces: seq<Text>, texts: seq<Text>)
    requires forall t <- texts :: AMPERSAND !in t
    ensures var target := TargetOf(EncodeAll(pieces), texts);
      && PathSegments(PathOf(target)) == SegmentsAsSent(pieces)
      && ParseQuery(QueryOf(target)) == ParsePieces(texts)
  {
    var joined := Join(EncodeAll(pieces), SLASH);
    var path := [SLASH] + joined;
    PathComesBack(pieces);
    QueryComesBack(texts);
    if texts == [] {
      assert joined + [] == joined;
      assert QUESTION !in path;
    } else {
      var query := Join(texts, AMPERSAND);
      Assoc([SLASH], joined, [QUESTION] + query);
      FindInConcat(path, QUESTION, query);
      AroundSeparator(path, QUESTION, query);
    }
  }
}
