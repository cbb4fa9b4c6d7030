/** Printed query parameters against the chain they were printed from: each combinator reads back its own. */
module UrlPairs {
  import opened Basics
  import opened QueryCodec
  import opened DeepQueries
  import opened Chains
  import opened UrlBuilders

  // ----- the pairs that were printed

  /** The pair a printed parameter stands for; array elements carry brackets unless `plain`. */
  function SentPair(p: Param, plain: bool): Pair {
    match p
    case Single(k, v) => Pair(k, Some(v))
    case ArrayElem(k, v) => Pair(if plain then k else k + BRACKETS, Some(v))
    case BareKey(k) => Pair(k, None)
  }

  /** The pairs the server parses: a bare empty key leaves no trace. */
  function SentPairs(params: seq<Param>, plain: bool): (pairs: seq<Pair>) {
    if params == [] then []
    else
      (if params[0] == BareKey([]) then [] else [SentPair(params[0], plain)]) + SentPairs(params[1..], plain)
  }

  lemma {:induction false} SentPairsAppend(xs: seq<Param>, ys: seq<Param>, plain: bool)
    ensures SentPairs(xs + ys, plain) == SentPairs(xs, plain) + SentPairs(ys, plain)
  {
    if xs == [] {
      assert xs + ys == ys;
    } else {
      assert (xs + ys)[1..] == xs[1..] + ys;
      SentPairsAppend(xs[1..], ys, plain);
    }
  }

  /** The client's pairs are parsed as they were appended. */
  lemma {:induction false} ClientPairsParse(params: seq<Param>)
    ensures ParsePieces(RenderEach(PlainPairs(params))) == SentPairs(params, true)
  {
    ParseRenderedEach(PlainPairs(params));
    PrintableSent(params);
  }

  lemma {:induction false} PrintableSent(params: seq<Param>)
    ensures Printable(PlainPairs(params)) == SentPairs(params, true)
  {
    if params != [] {
      PrintableSent(params[1..]);
      assert PlainPairs(params)[1..] == PlainPairs(params[1..]);
    }
  }

  lemma {:induction false} BracketsOpen()
    ensures PercentDecode(BRACKETS) == BRACKETS
  {
    DecodePlain(CLOSE, []);
    DecodePlain(OPEN, [CLOSE]);
    assert [CLOSE] + [] == [CLOSE];
    assert [OPEN] + [CLOSE] == BRACKETS;
  }

  lemma {:induction false} BracketedKey(k: Text)
    ensures DecodeComponent(Encode(k) + BRACKETS) == k + BRACKETS
    ensures EQUALS !in Encode(k) + BRACKETS && AMPERSAND !in Encode(k) + BRACKETS
  {
    EncodedIsSafe(k);
    DecodeEncoded(k, BRACKETS);
    BracketsOpen();
  }

  lemma {:induction false} LinkParamParses(p: Param, plain: bool)
    ensures ParsePair(RenderParam(p, plain)) == SentPair(p, plain)
    ensures AMPERSAND !in RenderParam(p, plain)
    ensures RenderParam(p, plain) == [] <==> p == BareKey([])
  {
    var key := Encode(p.key);
    EncodedAvoids(p.key, AMPERSAND);
    EncodedAvoids(p.key, EQUALS);
    EncodedIsSafe(p.key);
    DecodeComponentEncode(p.key);
    if p.BareKey? {
      ParseRenderedPair(Pair(p.key, None));
    } else if p.Single? || plain {
      ParseKeyValue(key, p.value);
    } else {
      BracketedKey(p.key);
      ParseKeyValue(key + BRACKETS, p.value);
    }
  }

  lemma {:induction false} LinkParamsParse(params: seq<Param>, plain: bool)
    ensures ParsePieces(RenderParams(params, plain)) == SentPairs(params, plain)
    ensures forall piece <- RenderParams(params, plain) :: AMPERSAND !in piece
  {
    if params != [] {
      LinkParamParses(params[0], plain);
      LinkParamsParse(params[1..], plain);
      assert RenderParams(params, plain)[1..] == RenderParams(params[1..], plain);
    }
  }

  // ----- names

  /** A query name as the server looks it up; a list is also read under `name[]`. */
  datatype QueryName = QueryName(name: Text, list: bool)

  predicate Touches(q: QueryName, key: Text) {
    key == q.name || (q.list && key == q.name + BRACKETS)
  }

  predicate Clash(q: QueryName, r: QueryName) {
    q.name == r.name || (q.list && r.name == q.name + BRACKETS) || (r.list && q.name == r.name + BRACKETS)
  }

  /** Two names clash exactly when some key is read under both. */
  lemma {:induction false} ClashIffSharedKey(q: QueryName, r: QueryName)
    ensures Clash(q, r) <==> exists key :: Touches(q, key) && Touches(r, key)
  {
    if Clash(q, r) {
      assert Touches(q, q.name) && Touches(r, r.name);
      assert Touches(q, r.name) || Touches(r, q.name);
    }
    if key :| Touches(q, key) && Touches(r, key) {
      if q.name + BRACKETS == r.name + BRACKETS {
        assert q.name == (q.name + BRACKETS)[..|q.name|];
        assert |q.name| == |r.name|;
      }
    }
  }

  function NameOf(chain: Chain): Option<QueryName> {
    match chain
    case QueryParam(name, _, _, _, _) => Some(QueryName(name, false))
    case QueryParams(name, _, _) => Some(QueryName(name, true))
    case QueryFlag(name, _) => Some(QueryName(name, false))
    case _ => None
  }

  predicate Apart(q: QueryName, chain: Chain) {
    (NameOf(chain).Some? ==> !Clash(q, NameOf(chain).value)) && (chain.Verb? || Apart(q, chain.next))
  }

  /** No two query combinators of the chain read a common key. */
  predicate NamesApart(chain: Chain) {
    chain.Verb? || ((NameOf(chain).Some? ==> Apart(NameOf(chain).value, chain.next)) && NamesApart(chain.next))
  }

  // ----- the pairs under a name

  function Under(q: QueryName, pairs: seq<Pair>): seq<Pair> {
    if pairs == [] then []
    else (if Touches(q, pairs[0].key) then [pairs[0]] else []) + Under(q, pairs[1..])
  }

  lemma {:induction false} UnderAppend(q: QueryName, xs: seq<Pair>, ys: seq<Pair>)
    ensures Under(q, xs + ys) == Under(q, xs) + Under(q, ys)
  {
    if xs == [] {
      assert xs + ys == ys;
    } else {
      assert (xs + ys)[1..] == xs[1..] + ys;
      UnderAppend(q, xs[1..], ys);
    }
  }

  lemma {:induction false} UnderAll(q: QueryName, pairs: seq<Pair>)
    requires forall p <- pairs :: Touches(q, p.key)
    ensures Under(q, pairs) == pairs
  {
    if pairs != [] {
      UnderAll(q, pairs[1..]);
      FirstAndRest(pairs);
    }
  }

  predicate Untouched(q: QueryName, pairs: seq<Pair>) {
    forall p <- pairs :: !Touches(q, p.key)
  }

  lemma {:induction false} UnderNone(q: QueryName, pairs: seq<Pair>)
    requires Untouched(q, pairs)
    ensures Under(q, pairs) == []
  {
    if pairs != [] {
      UnderNone(q, pairs[1..]);
    }
  }

  /** Lookups only depend on the pairs under the name. */
  lemma {:induction false} LookupUnder(query: seq<Pair>, name: Text)
    ensures LookupQuery(query, name) == LookupQuery(Under(QueryName(name, false), query), name)
  {
    if query != [] {
      LookupUnder(query[1..], name);
      AfterFirst(query[0], Under(QueryName(name, false), query[1..]));
      NothingInFront(Under(QueryName(name, false), query[1..]));
    }
  }

  lemma {:induction false} CollectUnder(query: seq<Pair>, name: Text, codec: Codec)
    ensures CollectParams(query, name, codec) == CollectParams(Under(QueryName(name, true), query), name, codec)
  {
    if query != [] {
      CollectUnder(query[1..], name, codec);
      AfterFirst(query[0], Under(QueryName(name, true), query[1..]));
      NothingInFront(Under(QueryName(name, true), query[1..]));
    }
  }

  /** How many valued pairs are read under a name. */
  function ValuedCount(q: QueryName, pairs: seq<Pair>): nat {
    if pairs == [] then 0
    else (if Touches(q, pairs[0].key) && pairs[0].value.Some? then 1 else 0) + ValuedCount(q, pairs[1..])
  }

  lemma {:induction false} ValuedAppend(q: QueryName, xs: seq<Pair>, ys: seq<Pair>)
    ensures ValuedCount(q, xs + ys) == ValuedCount(q, xs) + ValuedCount(q, ys)
  {
    if xs == [] {
      NothingInFront(ys);
    } else {
      assert (xs + ys)[1..] == xs[1..] + ys;
      ValuedAppend(q, xs[1..], ys);
    }
  }

  lemma {:induction false} ValuedUnder(q: QueryName, pairs: seq<Pair>)
    ensures ValuedCount(q, pairs) == ValuedCount(q, Under(q, pairs))
  {
    if pairs != [] {
      ValuedUnder(q, pairs[1..]);
      AfterFirst(pairs[0], Under(q, pairs[1..]));
      NothingInFront(Under(q, pairs[1..]));
    }
  }

  lemma {:induction false} OwnValued(name: Text, codec: Codec, values: seq<Value>, plain: bool)
    ensures ValuedCount(QueryName(name, true), SentPairs(ArrayElems(name, codec, values), plain)) == |values|
  {
    if values != [] {
      var first, more := ArrayElem(name, codec.toQuery(values[0])), ArrayElems(name, codec, values[1..]);
      OwnValued(name, codec, values[1..], plain);
      AfterFirst(first, more);
      AfterFirst(SentPair(first, plain), SentPairs(more, plain));
    }
  }

  /** A list holds one value for each valued pair under its names. */
  lemma {:induction false} CollectedCount(query: seq<Pair>, name: Text, codec: Codec)
    ensures var r := CollectParams(query, name, codec);
      r.Ok? ==> |r.value| == ValuedCount(QueryName(name, true), query)
  {
    if query != [] {
      CollectedCount(query[1..], name, codec);
    }
  }

  lemma {:induction false} CollectSkips(before: seq<Pair>, query: seq<Pair>, name: Text, codec: Codec)
    requires ValuedCount(QueryName(name, true), before) == 0
    ensures CollectParams(before + query, name, codec) == CollectParams(query, name, codec)
  {
    if before == [] {
      NothingInFront(query);
    } else {
      assert (before + query)[1..] == before[1..] + query;
      CollectSkips(before[1..], query, name, codec);
    }
  }

  lemma {:induction false} CollectIgnores(query: seq<Pair>, after: seq<Pair>, name: Text, codec: Codec)
    requires ValuedCount(QueryName(name, true), after) == 0
    ensures CollectParams(query + after, name, codec) == CollectParams(query, name, codec)
  {
    if query == [] {
      CollectSkips(after, [], name, codec);
      NothingInFront(after);
      assert after + [] == after;
    } else {
      assert (query + after)[1..] == query[1..] + after;
      CollectIgnores(query[1..], after, name, codec);
    }
  }

  /** Among other pairs a list is its own exactly when it is on its own and no other pair is valued under its names. */
  lemma {:induction false} CollectAmong(before: seq<Pair>, own: seq<Pair>, after: seq<Pair>, name: Text, codec: Codec,
      values: seq<Value>)
    requires ValuedCount(QueryName(name, true), own) == |values|
    ensures var query := before + (own + after);
      CollectParams(query, name, codec) == Ok(values)
      <==> ValuedCount(QueryName(name, true), query) == |values| && CollectParams(own, name, codec) == Ok(values)
  {
    var q := QueryName(name, true);
    ValuedAppend(q, before, own + after);
    ValuedAppend(q, own, after);
    CollectedCount(before + (own + after), name, codec);
    if ValuedCount(q, before) == 0 && ValuedCount(q, after) == 0 {
      CollectSkips(before, own + after, name, codec);
      CollectIgnores(own, after, name, codec);
    }
  }

  // ----- what one combinator prints is what it reads

  lemma {:induction false} OwnTouched(q: QueryName, params: seq<Param>, plain: bool)
    requires forall p <- params :: p.key == q.name && (p.ArrayElem? ==> q.list)
    ensures forall p <- SentPairs(params, plain) :: Touches(q, p.key)
  {
    if params != [] {
      OwnTouched(q, params[1..], plain);
    }
  }

  lemma {:induction false} OwnParamsNamed(chain: Chain, arg: Arg)
    ensures var own := OwnParams(chain, arg);
      if NameOf(chain).None? then own == []
      else forall p <- own :: p.key == NameOf(chain).value.name && (p.ArrayElem? ==> NameOf(chain).value.list)
  {}

  lemma {:induction false} ApartUntouched(q: QueryName, r: QueryName, pairs: seq<Pair>)
    requires !Clash(q, r)
    requires forall p <- pairs :: Touches(r, p.key)
    ensures Untouched(q, pairs)
  {
    forall p <- pairs ensures !Touches(q, p.key) {
      ClashIffSharedKey(q, r);
      assert Touches(r, p.key);
    }
  }

  lemma {:induction false} LaterUntouched(q: QueryName, chain: Chain, args: seq<Arg>, plain: bool)
    requires Apart(q, chain)
    ensures Untouched(q, SentPairs(QueryParamsOf(chain, args), plain))
  {
    if !chain.Verb? {
      var own, rest := OwnParams(chain, Head(args)), QueryParamsOf(chain.next, Tail(chain, args));
      LaterUntouched(q, chain.next, Tail(chain, args), plain);
      OwnParamsNamed(chain, Head(args));
      SentPairsAppend(own, rest, plain);
      if NameOf(chain).Some? {
        OwnTouched(NameOf(chain).value, own, plain);
        ApartUntouched(q, NameOf(chain).value, SentPairs(own, plain));
      }
    }
  }

  /** Each combinator finds, under its name, exactly the pairs it printed. */
  predicate Isolated(query: seq<Pair>, chain: Chain, args: seq<Arg>, plain: bool) {
    chain.Verb?
    || ((NameOf(chain).Some? ==>
          Under(NameOf(chain).value, query) == SentPairs(OwnParams(chain, Head(args)), plain))
        && Isolated(query, chain.next, Tail(chain, args), plain))
  }

  predicate UntouchedBy(chain: Chain, pairs: seq<Pair>) {
    (NameOf(chain).Some? ==> Untouched(NameOf(chain).value, pairs))
    && (chain.Verb? || UntouchedBy(chain.next, pairs))
  }

  lemma {:induction false} UntouchedByMore(q: QueryName, chain: Chain, before: seq<Pair>, own: seq<Pair>)
    requires Apart(q, chain) && UntouchedBy(chain, before)
    requires forall p <- own :: Touches(q, p.key)
    ensures UntouchedBy(chain, before + own)
  {
    if NameOf(chain).Some? {
      var r := NameOf(chain).value;
      assert Clash(r, q) <==> Clash(q, r);
      ApartUntouched(r, q, own);
    }
    if !chain.Verb? {
      UntouchedByMore(q, chain.next, before, own);
    }
  }

  /** The pairs of the combinators before and after are invisible under a combinator's name. */
  lemma {:induction false} OwnUnder(q: QueryName, before: seq<Pair>, own: seq<Pair>, after: seq<Pair>)
    requires Untouched(q, before) && Untouched(q, after)
    requires forall p <- own :: Touches(q, p.key)
    ensures Under(q, before + (own + after)) == own
  {
    UnderAppend(q, before, own + after);
    UnderAppend(q, own, after);
    UnderNone(q, before);
    UnderNone(q, after);
    UnderAll(q, own);
  }

  lemma {:induction false} PrintedIsolated(before: seq<Pair>, chain: Chain, args: seq<Arg>, plain: bool)
    requires NamesApart(chain) && UntouchedBy(chain, before)
    ensures Isolated(before + SentPairs(QueryParamsOf(chain, args), plain), chain, args, plain)
    decreases chain
  {
    if !chain.Verb? {
      var own, rest := OwnParams(chain, Head(args)), QueryParamsOf(chain.next, Tail(chain, args));
      var mine, after := SentPairs(own, plain), SentPairs(rest, plain);
      SentPairsAppend(own, rest, plain);
      OwnParamsNamed(chain, Head(args));
      Assoc(before, mine, after);
      if NameOf(chain).Some? {
        var q := NameOf(chain).value;
        OwnTouched(q, own, plain);
        LaterUntouched(q, chain.next, Tail(chain, args), plain);
        OwnUnder(q, before, mine, after);
        UntouchedByMore(q, chain.next, before, mine);
      } else {
        assert mine == [] && before + [] == before;
      }
      PrintedIsolated(before + mine, chain.next, Tail(chain, args), plain);
    }
  }
}
