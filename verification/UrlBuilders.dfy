/** The client's request builder and the link builder: two printers of one endpoint description. */
module UrlBuilders {
  import opened Basics
  import opened TextLists
  import opened QueryCodec
  import opened Targets
  import opened Chains

  /** The combinators a URL consists of. */
  predicate UrlChain(chain: Chain) {
    chain.Verb?
    || ((chain.Path? || chain.Meta? || TakesArg(chain)) && UrlChain(chain.next))
  }

  /** The combinators a link can hold: those of a URL, and all that leave no trace in one. */
  predicate LinkChain(chain: Chain) {
    chain.Verb? || (!chain.QueryString? && !chain.DeepQuery? && LinkChain(chain.next))
  }

  /** The URL combinators that take one handler argument. */
  predicate TakesArg(chain: Chain) {
    chain.Capture? || chain.CaptureAll? || chain.QueryParam? || chain.QueryParams? || chain.QueryFlag?
  }

  // ----- argument lists

  function Head(args: seq<Arg>): Arg {
    if args == [] then Flag(false) else args[0]
  }

  /** The arguments left for the rest of the chain. */
  function Tail(chain: Chain, args: seq<Arg>): seq<Arg> {
    if TakesArg(chain) && args != [] then args[1..] else args
  }

  predicate HeadTyped(chain: Chain, arg: Arg) {
    match chain
    case Capture(_, _, strict, _) => if strict then arg.Strict? else arg.Lenient?
    case QueryParam(_, _, required, strict, _) =>
      if required then (if strict then arg.Strict? else arg.Lenient?)
      else if strict then arg.Optional? else arg.OptionalLenient?
    case QueryFlag(_, _) => arg.Flag?
    case _ => arg.Many?
  }

  /** The argument list has the types the chain's combinators give it. */
  predicate Typed(chain: Chain, args: seq<Arg>) {
    if chain.Verb? then args == []
    else (TakesArg(chain) ==> args != [] && HeadTyped(chain, args[0])) && Typed(chain.next, Tail(chain, args))
  }

  /** The value an argument renders as; an absent one and a lenient error have none. */
  function IntoValue(arg: Arg): Option<Value> {
    match arg
    case Strict(v) => Some(v)
    case Lenient(Ok(v)) => Some(v)
    case Optional(v) => v
    case OptionalLenient(Some(Ok(v))) => Some(v)
    case _ => None
  }

  function ValuesOf(arg: Arg): seq<Value> {
    if arg.Many? then arg.values else []
  }

  // ----- path pieces

  function CapturePiece(codec: Codec, arg: Arg): Text {
    match IntoValue(arg)
    case Some(v) => codec.toPiece(v)
    case None => []
  }

  function PiecesOf(codec: Codec, values: seq<Value>): (pieces: seq<Text>)
    ensures |pieces| == |values|
    ensures forall i :: 0 <= i < |values| ==> pieces[i] == codec.toPiece(values[i])
  {
    if values == [] then [] else [codec.toPiece(values[0])] + PiecesOf(codec, values[1..])
  }

  /** The decoded path pieces of one combinator. */
  function OwnPieces(chain: Chain, arg: Arg): seq<Text> {
    match chain
    case Path(segment, _) => [segment]
    case Capture(_, codec, _, _) => [CapturePiece(codec, arg)]
    case CaptureAll(_, codec, _) => PiecesOf(codec, ValuesOf(arg))
    case _ => []
  }

  /** The path pieces an argument list stands for, in order. */
  function PathPieces(chain: Chain, args: seq<Arg>): seq<Text> {
    if chain.Verb? then []
    else OwnPieces(chain, Head(args)) + PathPieces(chain.next, Tail(chain, args))
  }

  // ----- query parameters, as the link builder keeps them

  datatype Param =
    | Single(key: Text, value: Text)
    | ArrayElem(key: Text, value: Text)
    | BareKey(key: Text)

  function ArrayElems(name: Text, codec: Codec, values: seq<Value>): (params: seq<Param>)
    ensures |params| == |values|
    ensures forall i :: 0 <= i < |values| ==> params[i] == ArrayElem(name, codec.toQuery(values[i]))
  {
    if values == [] then []
    else [ArrayElem(name, codec.toQuery(values[0]))] + ArrayElems(name, codec, values[1..])
  }

  /** The query parameters of one combinator. */
  function OwnParams(chain: Chain, arg: Arg): seq<Param> {
    match chain
    case QueryParam(name, codec, _, _, _) =>
      if IntoValue(arg).None? then [] else [Single(name, codec.toQuery(IntoValue(arg).value))]
    case QueryParams(name, codec, _) => ArrayElems(name, codec, ValuesOf(arg))
    case QueryFlag(name, _) => if arg == Flag(true) then [BareKey(name)] else []
    case _ => []
  }

  function QueryParamsOf(chain: Chain, args: seq<Arg>): seq<Param> {
    if chain.Verb? then []
    else OwnParams(chain, Head(args)) + QueryParamsOf(chain.next, Tail(chain, args))
  }

  /** The pair a parameter stands for in a plain query. */
  function PlainPair(p: Param): Pair {
    match p
    case Single(k, v) => Pair(k, Some(v))
    case ArrayElem(k, v) => Pair(k, Some(v))
    case BareKey(k) => Pair(k, None)
  }

  function PlainPairs(params: seq<Param>): (pairs: seq<Pair>)
    ensures |pairs| == |params|
    ensures forall i :: 0 <= i < |params| ==> pairs[i] == PlainPair(params[i])
  {
    if params == [] then [] else [PlainPair(params[0])] + PlainPairs(params[1..])
  }

  lemma {:induction false} PlainPairsAppend(xs: seq<Param>, ys: seq<Param>)
    ensures PlainPairs(xs + ys) == PlainPairs(xs) + PlainPairs(ys)
  {
    if xs == [] {
      assert xs + ys == ys;
    } else {
      assert (xs + ys)[1..] == xs[1..] + ys;
      PlainPairsAppend(xs[1..], ys);
    }
  }

  /** The value an argument is printed as: a lenient error and an absent value have none. */
  ghost predicate PrintsAs(arg: Arg, v: Value) {
    arg == Strict(v) || arg == Lenient(Ok(v)) || arg == Optional(Some(v)) || arg == OptionalLenient(Some(Ok(v)))
  }

  /**
   What each combinator prints: a capture one piece, an empty one when it has no value; a rest
   and a list one for each value, in order; a parameter one pair, or none when it has no value;
   a raised flag its bare name, and any other nothing.
   */
  lemma {:induction false} ArgumentWritten(chain: Chain, arg: Arg, v: Value)
    ensures chain.Path? ==> OwnPieces(chain, arg) == [chain.segment]
    ensures chain.Capture? && PrintsAs(arg, v) ==> OwnPieces(chain, arg) == [chain.codec.toPiece(v)]
    ensures chain.Capture? && (forall w :: !PrintsAs(arg, w)) ==> OwnPieces(chain, arg) == [[]]
    ensures chain.CaptureAll? && arg.Many? ==>
      && |OwnPieces(chain, arg)| == |arg.values|
      && forall i :: 0 <= i < |arg.values| ==> OwnPieces(chain, arg)[i] == chain.codec.toPiece(arg.values[i])
    ensures chain.QueryParam? && PrintsAs(arg, v) ==>
      OwnParams(chain, arg) == [Single(chain.name, chain.codec.toQuery(v))]
    ensures chain.QueryParam? && (forall w :: !PrintsAs(arg, w)) ==> OwnParams(chain, arg) == []
    ensures chain.QueryParams? && arg.Many? ==>
      && |OwnParams(chain, arg)| == |arg.values|
      && forall i :: 0 <= i < |arg.values| ==>
          OwnParams(chain, arg)[i] == ArrayElem(chain.name, chain.codec.toQuery(arg.values[i]))
    ensures chain.QueryFlag? ==> OwnParams(chain, arg) == if arg == Flag(true) then [BareKey(chain.name)] else []
  {
    if IntoValue(arg).Some? {
      assert PrintsAs(arg, IntoValue(arg).value);
    }
  }

  // ----- the client

  class ClientRequest {
    var segments: seq<Text>
    var query: seq<Pair>

    constructor ()
      ensures segments == [] && query == []
    {
      segments := [];
      query := [];
    }

    method AppendPath(raw: Text)
      modifies this
      ensures segments == old(segments) + [Encode(raw)] && query == old(query)
    {
      segments := segments + [Encode(raw)];
    }

    method AppendQuery(name: Text, value: Option<Text>)
      modifies this
      ensures query == old(query) + [Pair(name, value)] && segments == old(segments)
    {
      query := query + [Pair(name, value)];
    }

    method Target() returns (out: Text)
      ensures out == TargetOf(segments, RenderEach(query))
    {
      out := [SLASH];
      out := out + Join(segments, SLASH);
      if query != [] {
        Assoc([SLASH], Join(segments, SLASH), [QUESTION] + Join(RenderEach(query), AMPERSAND));
        Assoc(out, [QUESTION], Join(RenderEach(query), AMPERSAND));
        out := out + [QUESTION];
        out := out + Join(RenderEach(query), AMPERSAND);
      } else {
        assert Join(segments, SLASH) + [] == Join(segments, SLASH);
      }
    }

    method AppendPaths(codec: Codec, values: seq<Value>)
      modifies this
      ensures segments == old(segments) + EncodeAll(PiecesOf(codec, values)) && query == old(query)
    {
      ghost var all := EncodeAll(PiecesOf(codec, values));
      for i := 0 to |values|
        invariant segments == old(segments) + all[..i] && query == old(query)
      {
        AppendPath(codec.toPiece(values[i]));
        TakeNext(old(segments), all, i);
      }
    }

    method AppendArray(name: Text, codec: Codec, values: seq<Value>)
      modifies this
      ensures query == old(query) + PlainPairs(ArrayElems(name, codec, values)) && segments == old(segments)
    {
      ghost var all := PlainPairs(ArrayElems(name, codec, values));
      for i := 0 to |values|
        invariant query == old(query) + all[..i] && segments == old(segments)
      {
        AppendQuery(name, Some(codec.toQuery(values[i])));
        TakeNext(old(query), all, i);
      }
    }

    /** What one combinator appends. */
    method AppendOwn(chain: Chain, arg: Arg)
      modifies this
      ensures segments == old(segments) + EncodeAll(OwnPieces(chain, arg))
      ensures query == old(query) + PlainPairs(OwnParams(chain, arg))
    {
      match chain
      case Path(segment, _) => AppendPath(segment);
      case Capture(_, codec, _, _) => AppendPath(CapturePiece(codec, arg));
      case CaptureAll(_, codec, _) =>
        AppendPaths(codec, ValuesOf(arg));
      case QueryParam(name, codec, _, _, _) =>
        var value := IntoValue(arg);
        if value.Some? {
          AppendQuery(name, Some(codec.toQuery(value.value)));
        }
      case QueryParams(name, codec, _) =>
        AppendArray(name, codec, ValuesOf(arg));
      case QueryFlag(name, _) =>
        if arg == Flag(true) {
          AppendQuery(name, None);
        }
      case _ =>
    }

    /** Walks the chain, consuming one argument per argument-taking combinator. */
    method BuildRequest(chain: Chain, args: seq<Arg>)
      requires UrlChain(chain) && Typed(chain, args)
      modifies this
      ensures segments == old(segments) + EncodeAll(PathPieces(chain, args))
      ensures query == old(query) + PlainPairs(QueryParamsOf(chain, args))
      decreases chain
    {
      if !chain.Verb? {
        AppendOwn(chain, Head(args));
        BuildRequest(chain.next, Tail(chain, args));
        var own, more := OwnPieces(chain, Head(args)), PathPieces(chain.next, Tail(chain, args));
        EncodeAllAppend(own, more);
        Assoc(old(segments), EncodeAll(own), EncodeAll(more));
        var params, rest := OwnParams(chain, Head(args)), QueryParamsOf(chain.next, Tail(chain, args));
        PlainPairsAppend(params, rest);
        Assoc(old(query), PlainPairs(params), PlainPairs(rest));
      }
    }
  }

  lemma {:induction false} EncodeAllAppend(xs: seq<Text>, ys: seq<Text>)
    ensures EncodeAll(xs + ys) == EncodeAll(xs) + EncodeAll(ys)
  {
    if xs == [] {
      NothingInFront(ys);
      NothingInFront(EncodeAll(ys));
    } else {
      assert (xs + ys)[1..] == xs[1..] + ys;
      EncodeAllAppend(xs[1..], ys);
      Assoc([Encode(xs[0])], EncodeAll(xs[1..]), EncodeAll(ys));
    }
  }

  // ----- the link builder

  /** A query parameter as link text; array elements carry brackets unless `plain`. */
  function RenderParam(p: Param, plain: bool): Text {
    match p
    case Single(k, v) => Encode(k) + ([EQUALS] + Encode(v))
    case ArrayElem(k, v) => (if plain then Encode(k) else Encode(k) + BRACKETS) + ([EQUALS] + Encode(v))
    case BareKey(k) => Encode(k)
  }

  /** A list's elements are written `name[]=value` in the default style and `name=value` in the plain one. */
  lemma {:induction false} ParamTexts(key: Text, value: Text, plain: bool)
    ensures RenderParam(ArrayElem(key, value), false)
         == Encode(key) + ['[' as int, ']' as int, '=' as int] + Encode(value)
    ensures RenderParam(ArrayElem(key, value), true) == Encode(key) + ['=' as int] + Encode(value)
    ensures RenderParam(Single(key, value), plain) == Encode(key) + ['=' as int] + Encode(value)
    ensures RenderParam(BareKey(key), plain) == Encode(key)
  {
    assert BRACKETS + [EQUALS] == ['[' as int, ']' as int, '=' as int];
  }

  function RenderParams(params: seq<Param>, plain: bool): (texts: seq<Text>)
    ensures |texts| == |params|
  {
    if params == [] then [] else [RenderParam(params[0], plain)] + RenderParams(params[1..], plain)
  }

  predicate NoArrays(params: seq<Param>) {
    forall i :: 0 <= i < |params| ==> !params[i].ArrayElem?
  }

  /** Without array elements the builder prints the pairs; the texts are the same. */
  lemma {:induction false} NoArraysRender(params: seq<Param>, plain: bool)
    requires NoArrays(params)
    ensures RenderParams(params, plain) == RenderEach(PlainPairs(params))
  {
    if params != [] {
      NoArraysRender(params[1..], plain);
      assert PlainPairs(params)[1..] == PlainPairs(params[1..]);
    }
  }

  class Link {
    var segments: seq<Text>
    var query: seq<Param>

    constructor ()
      ensures segments == [] && query == []
    {
      segments := [];
      query := [];
    }

    method AddSegment(raw: Text)
      modifies this
      ensures segments == old(segments) + [Encode(raw)] && query == old(query)
    {
      segments := segments + [Encode(raw)];
    }

    method AddQuery(param: Param)
      modifies this
      ensures query == old(query) + [param] && segments == old(segments)
    {
      query := query + [param];
    }

    /** The link as an absolute path, with bracketed array elements unless `plain`. */
    method ToUri(plain: bool) returns (out: Text)
      ensures out == TargetOf(segments, RenderParams(query, plain))
    {
      out := [SLASH];
      out := out + Join(segments, SLASH);
      if query != [] {
        var texts: Text;
        if NoArrays(query) {
          NoArraysRender(query, plain);
          texts := RenderPairs(PlainPairs(query));
        } else {
          texts := Join(RenderParams(query, plain), AMPERSAND);
        }
        Assoc([SLASH], Join(segments, SLASH), [QUESTION] + texts);
        Assoc(out, [QUESTION], texts);
        out := out + [QUESTION];
        out := out + texts;
      } else {
        assert Join(segments, SLASH) + [] == Join(segments, SLASH);
      }
    }

    method AddSegments(codec: Codec, values: seq<Value>)
      modifies this
      ensures segments == old(segments) + EncodeAll(PiecesOf(codec, values)) && query == old(query)
    {
      ghost var all := EncodeAll(PiecesOf(codec, values));
      for i := 0 to |values|
        invariant segments == old(segments) + all[..i] && query == old(query)
      {
        AddSegment(codec.toPiece(values[i]));
        TakeNext(old(segments), all, i);
      }
    }

    method AddArray(name: Text, codec: Codec, values: seq<Value>)
      modifies this
      ensures query == old(query) + ArrayElems(name, codec, values) && segments == old(segments)
    {
      ghost var all := ArrayElems(name, codec, values);
      for i := 0 to |values|
        invariant query == old(query) + all[..i] && segments == old(segments)
      {
        AddQuery(ArrayElem(name, codec.toQuery(values[i])));
        TakeNext(old(query), all, i);
      }
    }

    /** What one combinator contributes. */
    method AddOwn(chain: Chain, arg: Arg)
      modifies this
      ensures segments == old(segments) + EncodeAll(OwnPieces(chain, arg))
      ensures query == old(query) + OwnParams(chain, arg)
    {
      match chain
      case Path(segment, _) => AddSegment(segment);
      case Capture(_, codec, _, _) => AddSegment(CapturePiece(codec, arg));
      case CaptureAll(_, codec, _) =>
        AddSegments(codec, ValuesOf(arg));
      case QueryParam(name, codec, _, _, _) =>
        var value := IntoValue(arg);
        if value.Some? {
          AddQuery(Single(name, codec.toQuery(value.value)));
        }
      case QueryParams(name, codec, _) =>
        AddArray(name, codec, ValuesOf(arg));
      case QueryFlag(name, _) =>
        if arg == Flag(true) {
          AddQuery(BareKey(name));
        }
      case _ =>
    }

    method AddToLink(chain: Chain, args: seq<Arg>)
      requires LinkChain(chain) && Typed(chain, args)
      modifies this
      ensures segments == old(segments) + EncodeAll(PathPieces(chain, args))
      ensures query == old(query) + QueryParamsOf(chain, args)
      decreases chain
    {
      if !chain.Verb? {
        AddOwn(chain, Head(args));
        AddToLink(chain.next, Tail(chain, args));
        var own, more := OwnPieces(chain, Head(args)), PathPieces(chain.next, Tail(chain, args));
        EncodeAllAppend(own, more);
        Assoc(old(segments), EncodeAll(own), EncodeAll(more));
        Assoc(old(query), OwnParams(chain, Head(args)), QueryParamsOf(chain.next, Tail(chain, args)));
      }
    }
  }
}
