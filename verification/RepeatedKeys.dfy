/** Documents whose keys repeat: exactly when extending with them and to them still associates. */
module RepeatedKeys {
  import opened Basics
  import opened Negotiation
  import opened ApiDocs

  // ----- when a document with repeated keys still associates

  /** Merging `f` into `e` changes nothing. */
  predicate Absorbs(e: EndpointDoc, f: EndpointDoc) {
    Combined(e, f) == e
  }

  /** Every repetition of a key adds nothing to the first endpoint of that key. */
  predicate RepeatsAddNothing(doc: Doc) {
    forall j :: 0 <= j < |doc| ==> (var i := Position(doc, KeyOf(doc[j])); i < j ==> Absorbs(doc[i], doc[j]))
  }

  /** The endpoints that are the first of their key. */
  function Firsts(doc: Doc): Doc {
    if doc == [] then []
    else
      var front, e := doc[..|doc| - 1], doc[|doc| - 1];
      if Has(front, KeyOf(e)) then Firsts(front) else Firsts(front) + [e]
  }

  lemma {:induction false} PositionAppend(front: Doc, e: EndpointDoc, key: Key)
    ensures Position(front + [e], key)
         == if Has(front, key) then Position(front, key) else if KeyOf(e) == key then |front| else |front| + 1
  {
    var i := if Has(front, key) then Position(front, key) else |front|;
    if i < |front| || KeyOf(e) == key {
      PositionIs(front + [e], key, i);
    }
  }

  /** The first endpoint of a key, if there is one. */
  function FirstOf(doc: Doc, key: Key): Option<EndpointDoc> {
    if Has(doc, key) then Some(doc[Position(doc, key)]) else None
  }

  lemma {:induction false} FirstOfAppend(front: Doc, e: EndpointDoc, key: Key)
    ensures FirstOf(front + [e], key)
         == if Has(front, key) then FirstOf(front, key) else if KeyOf(e) == key then Some(e) else None
  {
    PositionAppend(front, e, key);
  }

  lemma {:induction false} FirstsKeepFirst(doc: Doc, key: Key)
    ensures FirstOf(Firsts(doc), key) == FirstOf(doc, key)
    decreases |doc|
  {
    if doc != [] {
      var front, e := doc[..|doc| - 1], doc[|doc| - 1];
      assert doc == front + [e];
      FirstsKeepFirst(front, key);
      FirstOfAppend(front, e, key);
      FirstOfAppend(Firsts(front), e, key);
    }
  }

  lemma {:induction false} PushBefore(front: Doc, last: EndpointDoc, e: EndpointDoc)
    ensures Pushed(front + [last], e)
         == if Has(front, KeyOf(e)) then Pushed(front, e) + [last]
            else if KeyOf(last) == KeyOf(e) then front + [Combined(last, e)]
            else front + [last] + [e]
  {
    PositionAppend(front, last, KeyOf(e));
  }

  lemma {:induction false} FirstsAppend(front: Doc, e: EndpointDoc)
    ensures Firsts(front + [e]) == if Has(front, KeyOf(e)) then Firsts(front) else Firsts(front) + [e]
  {
    assert (front + [e])[..|front|] == front;
  }

  lemma {:induction false} HasPushed(doc: Doc, e: EndpointDoc, key: Key)
    ensures Has(Pushed(doc, e), key) <==> Has(doc, key) || key == KeyOf(e)
  {
    PushKeys(doc, e);
    if Has(doc, key) {
      PositionIs(Pushed(doc, e), key, Position(doc, key));
    } else if key == KeyOf(e) {
      PositionIs(Pushed(doc, e), key, |doc|);
    }
  }

  lemma {:induction false} FirstsPushFront(front: Doc, last: EndpointDoc, e: EndpointDoc)
    requires Has(front, KeyOf(e)) && Firsts(Pushed(front, e)) == Pushed(Firsts(front), e)
    ensures Firsts(Pushed(front + [last], e)) == Pushed(Firsts(front + [last]), e)
  {
    PushBefore(front, last, e);
    FirstsAppend(front, last);
    FirstsAppend(Pushed(front, e), last);
    HasPushed(front, e, KeyOf(last));
    FirstsKeepFirst(front, KeyOf(e));
    PushBefore(Firsts(front), last, e);
  }

  lemma {:induction false} FirstsPushLast(front: Doc, last: EndpointDoc, e: EndpointDoc)
    requires !Has(front, KeyOf(e))
    ensures Firsts(Pushed(front + [last], e)) == Pushed(Firsts(front + [last]), e)
  {
    PushBefore(front, last, e);
    FirstsAppend(front, last);
    FirstsKeepFirst(front, KeyOf(e));
    if KeyOf(last) == KeyOf(e) {
      CombineKeepsKey(last, e);
      FirstsAppend(front, Combined(last, e));
      PushBefore(Firsts(front), last, e);
    } else {
      var doc := front + [last];
      PositionAppend(front, last, KeyOf(e));
      FirstsAppend(doc, e);
      FirstsKeepFirst(doc, KeyOf(e));
    }
  }

  /** Pushing onto a document is pushing onto its first endpoints. */
  lemma {:induction false} FirstsPush(doc: Doc, e: EndpointDoc)
    ensures Firsts(Pushed(doc, e)) == Pushed(Firsts(doc), e)
    decreases |doc|
  {
    if doc == [] {
      FirstsAppend([], e);
      NothingInFront([e]);
    } else {
      var front, last := doc[..|doc| - 1], doc[|doc| - 1];
      assert doc == front + [last];
      if Has(front, KeyOf(e)) {
        FirstsPush(front, e);
        FirstsPushFront(front, last, e);
      } else {
        FirstsPushLast(front, last, e);
      }
    }
  }

  lemma {:induction false} RepeatsPrefix(front: Doc, e: EndpointDoc)
    ensures RepeatsAddNothing(front + [e])
      <==> RepeatsAddNothing(front) && (Has(front, KeyOf(e)) ==> Absorbs(FirstOf(front, KeyOf(e)).value, e))
  {
    var doc := front + [e];
    forall j | 0 <= j < |doc| ensures Position(doc, KeyOf(doc[j])) == Position(front, KeyOf(doc[j])) {
      PositionAppend(front, e, KeyOf(doc[j]));
    }
    if RepeatsAddNothing(doc) {
      assert forall j :: 0 <= j < |front| ==> doc[j] == front[j];
      assert Position(doc, KeyOf(doc[|front|])) < |front| ==> Absorbs(doc[Position(doc, KeyOf(e))], doc[|front|]);
    }
  }

  /** Where repetitions add nothing, merging is dropping them. */
  lemma {:induction false} MergeDropsRepeats(doc: Doc)
    requires RepeatsAddNothing(doc)
    ensures Extended([], doc) == Firsts(doc)
    decreases |doc|
  {
    if doc != [] {
      var front, e := doc[..|doc| - 1], doc[|doc| - 1];
      assert doc == front + [e];
      RepeatsPrefix(front, e);
      MergeDropsRepeats(front);
      ExtendLast([], front, e);
      FirstsKeepFirst(front, KeyOf(e));
    }
  }

  lemma {:induction false} NothingMissing<T>(xs: seq<T>, ys: seq<T>)
    ensures AddMissing(xs, ys) == xs <==> forall y <- ys :: y in xs
    decreases ys
  {
    forall y <- ys ensures y in AddMissing(xs, ys) {
      AddMissingContains(xs, ys, y);
    }
    if forall y <- ys :: y in xs {
      if ys != [] {
        FirstAndRest(ys);
        NothingMissing(xs, ys[1..]);
      }
    }
  }

  /** What absorbing comes down to, field by field. */
  lemma {:induction false} AbsorbsIff(e: EndpointDoc, f: EndpointDoc)
    ensures Absorbs(e, f) <==>
      && f.queryParams == [] && f.headers == [] && f.deepQueries == []
      && (forall t <- f.responseTypes :: t in e.responseTypes)
      && (f.host.Some? ==> e.host.Some?) && (f.requestBody.Some? ==> e.requestBody.Some?)
      && (f.responseSchema.Some? ==> e.responseSchema.Some?) && (f.summary.Some? ==> e.summary.Some?)
      && (f.description.Some? ==> e.description.Some?) && (f.operationId.Some? ==> e.operationId.Some?)
      && (f.fragment.Some? ==> e.fragment.Some?) && (f.queryString.Some? ==> e.queryString.Some?)
      && (f.raw.Some? ==> e.raw.Some?)
  {
    NothingMissing(e.responseTypes, f.responseTypes);
    NothingAppended(e.queryParams, f.queryParams);
    NothingAppended(e.headers, f.headers);
    NothingAppended(e.deepQueries, f.deepQueries);
  }

  lemma {:induction false} NothingAppended<T>(xs: seq<T>, ys: seq<T>)
    ensures xs + ys == xs <==> ys == []
  {}

  lemma {:induction false} AbsorbsStill(e: EndpointDoc, more: EndpointDoc, f: EndpointDoc)
    requires Absorbs(e, f)
    ensures Absorbs(Combined(e, more), f)
  {
    AbsorbsIff(e, f);
    AbsorbsIff(Combined(e, more), f);
    forall t <- f.responseTypes ensures t in Combined(e, more).responseTypes {
      AddMissingContains(e.responseTypes, more.responseTypes, t);
    }
  }

  lemma {:induction false} AbsorbsBoth(e: EndpointDoc, f: EndpointDoc, g: EndpointDoc)
    requires Absorbs(e, Combined(f, g))
    ensures Absorbs(e, f) && Absorbs(e, g)
  {
    AbsorbsIff(e, Combined(f, g));
    AbsorbsIff(e, f);
    AbsorbsIff(e, g);
    forall t | t in f.responseTypes || t in g.responseTypes ensures t in e.responseTypes {
      AddMissingContains(f.responseTypes, g.responseTypes, t);
    }
  }

  lemma {:induction false} FirstOfPushed(doc: Doc, e: EndpointDoc, key: Key)
    ensures FirstOf(Pushed(doc, e), key)
         == if key != KeyOf(e) then FirstOf(doc, key)
            else if FirstOf(doc, key).None? then Some(e) else Some(Combined(FirstOf(doc, key).value, e))
  {
    PushKeys(doc, e);
    HasPushed(doc, e, key);
    if Has(doc, key) {
      PositionIs(Pushed(doc, e), key, Position(doc, key));
    } else if key == KeyOf(e) {
      PositionIs(Pushed(doc, e), key, |doc|);
    }
  }

  /** Pushing keeps repetitions idle. */
  lemma {:induction false} PushKeepsRepeatsIdle(doc: Doc, e: EndpointDoc)
    requires RepeatsAddNothing(doc)
    ensures RepeatsAddNothing(Pushed(doc, e))
    decreases |doc|
  {
    if doc == [] {
      RepeatsPrefix([], e);
      NothingInFront([e]);
    } else {
      var front, last := doc[..|doc| - 1], doc[|doc| - 1];
      assert doc == front + [last];
      RepeatsPrefix(front, last);
      PushBefore(front, last, e);
      if Has(front, KeyOf(e)) {
        PushKeepsRepeatsIdle(front, e);
        RepeatsPrefix(Pushed(front, e), last);
        HasPushed(front, e, KeyOf(last));
        FirstOfPushed(front, e, KeyOf(last));
        if KeyOf(last) == KeyOf(e) {
          AbsorbsStill(FirstOf(front, KeyOf(e)).value, e, last);
        }
      } else if KeyOf(last) == KeyOf(e) {
        CombineKeepsKey(last, e);
        RepeatsPrefix(front, Combined(last, e));
      } else {
        RepeatsPrefix(doc, e);
        PositionAppend(front, last, KeyOf(e));
      }
    }
  }

  lemma {:induction false} ExtendKeepsRepeatsIdle(doc: Doc, more: Doc)
    requires RepeatsAddNothing(doc)
    ensures RepeatsAddNothing(Extended(doc, more))
    decreases more
  {
    if more != [] {
      PushKeepsRepeatsIdle(doc, more[0]);
      ExtendKeepsRepeatsIdle(Pushed(doc, more[0]), more[1..]);
    }
  }

  /** With idle repetitions, merging first and extending afterwards is the same as the other way round. */
  lemma {:induction false} MergeThenExtend(b: Doc, c: Doc)
    requires RepeatsAddNothing(b)
    ensures Extended([], Extended(b, c)) == Extended(Extended([], b), c)
    decreases |c|
  {
    if c != [] {
      var front, e := c[..|c| - 1], c[|c| - 1];
      assert c == front + [e];
      var grown := Extended(b, front);
      MergeThenExtend(b, front);
      ExtendLast(b, front, e);
      ExtendLast(Extended([], b), front, e);
      ExtendKeepsRepeatsIdle(b, front);
      PushKeepsRepeatsIdle(grown, e);
      MergeDropsRepeats(grown);
      MergeDropsRepeats(Pushed(grown, e));
      FirstsPush(grown, e);
    }
  }

  /** Adding a document is adding its merged form. */
  lemma {:induction false} ExtendMerged(a: Doc, b: Doc)
    ensures Extended(a, b) == Extended(a, Extended([], b))
  {
    ExtendAssociative(a, [], b);
    assert Extended(a, []) == a;
  }

  lemma {:induction false} IdleRepeatsAssociate(a: Doc, b: Doc, c: Doc)
    requires RepeatsAddNothing(b)
    ensures Extended(a, Extended(b, c)) == Extended(Extended(a, b), c)
  {
    var merged := Extended([], b);
    ExtendKeepsUnique([], b);
    ExtendMerged(a, Extended(b, c));
    MergeThenExtend(b, c);
    ExtendAssociative(a, merged, c);
    ExtendMerged(a, b);
  }

  // ----- and when not

  function Join(a: Option<EndpointDoc>, b: Option<EndpointDoc>): Option<EndpointDoc> {
    if a.None? then b else if b.None? then a else Some(Combined(a.value, b.value))
  }

  /** All endpoints of a key, merged from left to right. */
  function Merged(doc: Doc, key: Key): Option<EndpointDoc> {
    if doc == [] then None
    else
      var rest, e := Merged(doc[..|doc| - 1], key), doc[|doc| - 1];
      if KeyOf(e) == key then Join(rest, Some(e)) else rest
  }

  lemma {:induction false} FirstOfMerged(doc: Doc, key: Key)
    ensures FirstOf(Extended([], doc), key) == Merged(doc, key)
    decreases |doc|
  {
    if doc != [] {
      var front, e := doc[..|doc| - 1], doc[|doc| - 1];
      assert doc == front + [e];
      FirstOfMerged(front, key);
      ExtendLast([], front, e);
      FirstOfPushed(Extended([], front), e, key);
    }
  }

  lemma {:induction false} JoinAssociative(a: Option<EndpointDoc>, b: Option<EndpointDoc>, c: Option<EndpointDoc>)
    ensures Join(a, Join(b, c)) == Join(Join(a, b), c)
  {
    if a.Some? && b.Some? && c.Some? {
      CombineAssociative(a.value, b.value, c.value);
    }
  }

  lemma {:induction false} MergedAppend(xs: Doc, ys: Doc, key: Key)
    ensures Merged(xs + ys, key) == Join(Merged(xs, key), Merged(ys, key))
    decreases |ys|
  {
    if ys == [] {
      assert xs + ys == xs;
    } else {
      var front, e := ys[..|ys| - 1], ys[|ys| - 1];
      assert (xs + ys)[..|xs + ys| - 1] == xs + front;
      MergedAppend(xs, front, key);
      if KeyOf(e) == key {
        JoinAssociative(Merged(xs, key), Merged(front, key), Some(e));
      }
    }
  }

  lemma {:induction false} NoneMerged(doc: Doc, key: Key)
    requires forall e <- doc :: KeyOf(e) != key
    ensures Merged(doc, key) == None
    decreases |doc|
  {
    if doc != [] {
      NoneMerged(doc[..|doc| - 1], key);
    }
  }

  lemma {:induction false} MergedAbsorbed(first: EndpointDoc, doc: Doc, key: Key, e: EndpointDoc)
    requires e in doc && KeyOf(e) == key
    ensures Merged(doc, key).Some?
    ensures Absorbs(first, Merged(doc, key).value) ==> Absorbs(first, e)
    decreases |doc|
  {
    var front, last := doc[..|doc| - 1], doc[|doc| - 1];
    assert doc == front + [last];
    var rest := Merged(front, key);
    if e in front {
      MergedAbsorbed(first, front, key, e);
    }
    if KeyOf(last) == key && rest.Some? && Absorbs(first, Combined(rest.value, last)) {
      AbsorbsBoth(first, rest.value, last);
    }
  }

  /** A media type that is not among the given ones. */
  lemma {:induction false} FreshMime(types: seq<Mime>) returns (t: Mime)
    ensures t !in types
  {
    var n := LongestKind(types);
    t := Mime(seq(n + 1, _ => 0), []);
    if t in types {
      KindsFit(types, t);
    }
  }

  function LongestKind(types: seq<Mime>): nat {
    if types == [] then 0
    else
      var rest := LongestKind(types[1..]);
      if |types[0].kind| > rest then |types[0].kind| else rest
  }

  lemma {:induction false} KindsFit(types: seq<Mime>, t: Mime)
    requires t in types
    ensures |t.kind| <= LongestKind(types)
  {
    FirstAndRest(types);
    if t != types[0] {
      KindsFit(types[1..], t);
    }
  }

  lemma {:induction false} AppendsCommuteWith<T>(xs: seq<T>, ys: seq<T>, t: T)
    requires ys != [] ==> ys[0] != t
    ensures xs + [t] + ys == xs + ys + [t] ==> ys == []
  {
    if ys != [] {
      assert (xs + [t] + ys)[|xs|] == t && (xs + ys + [t])[|xs|] == ys[0];
    }
  }

  lemma {:induction false} FreshLast<T>(xs: seq<T>, ys: seq<T>, t: T)
    requires t !in xs && t !in ys
    requires AddMissing(AddMissing(xs, [t]), ys) == AddMissing(AddMissing(xs, ys), [t])
    ensures forall y <- ys :: y in xs
  {
    AddMissingLast(xs, [], t);
    NothingInFront([t]);
    var grown, more := AddMissing(xs, ys), AddMissing(xs + [t], ys);
    AddMissingContains(xs, ys, t);
    AddMissingLast(grown, [], t);
    assert more == grown + [t];
    AddMissingFront(xs, ys);
    AddMissingFront(xs + [t], ys);
    NothingBetween(xs, grown, t);
    NothingMissing(xs, ys);
  }

  lemma {:induction false} NothingBetween<T>(xs: seq<T>, grown: seq<T>, t: T)
    requires xs <= grown && t !in grown && xs + [t] <= grown + [t]
    ensures grown == xs
  {
    var more := grown + [t];
    assert more[|xs|] == (xs + [t])[|xs|];
    assert forall k :: 0 <= k < |grown| ==> more[k] in grown;
  }

  lemma {:induction false} AddMissingFront<T>(xs: seq<T>, ys: seq<T>)
    ensures xs <= AddMissing(xs, ys)
    decreases ys
  {
    if ys != [] {
      AddMissingFront(if ys[0] in xs then xs else xs + [ys[0]], ys[1..]);
    }
  }

  /** An endpoint of the key of `e` that differs from `rest` in all that is not part of the key. */
  function Probe(e: EndpointDoc, rest: EndpointDoc, unused: Mime): EndpointDoc {
    var param := if rest.queryParams == [] then [] else rest.queryParams[0].name;
    var header := if rest.headers == [] then [] else rest.headers[0];
    var deep := if rest.deepQueries == [] then [] else rest.deepQueries[0].name;
    var body := if rest.requestBody.None? then [] else rest.requestBody.value.ty;
    var response := if rest.responseSchema.None? then [] else rest.responseSchema.value.ty;
    var fragment := if rest.fragment.None? then [] else rest.fragment.value.ty;
    e.(queryParams := [ParamDoc(OtherText(param), Normal, [])],
       headers := [OtherText(header)],
       deepQueries := [DeepQueryDoc(OtherText(deep), [])],
       responseTypes := [unused],
       requestBody := Some(BodyDoc([], OtherText(body), SchemaDoc([], None, None), false)),
       responseSchema := Some(SchemaDoc(OtherText(response), None, None)),
       summary := Some(OtherText(rest.summary.GetOr([]))),
       description := Some(OtherText(rest.description.GetOr([]))),
       operationId := Some(OtherText(rest.operationId.GetOr([]))),
       fragment := Some(FragmentDoc(OtherText(fragment), [])),
       queryString := Some(QueryStringDoc(rest.queryString.None? || !rest.queryString.value.decodedPairs, true)))
  }

  function OtherText(t: Text): (other: Text)
    ensures other != t
  {
    [0] + t
  }

  /** If the probe can change places with the rest, the rest added nothing. */
  lemma {:induction false} ProbeTells(e: EndpointDoc, rest: EndpointDoc, unused: Mime)
    requires KeyOf(rest) == KeyOf(e) && unused !in e.responseTypes && unused !in rest.responseTypes
    requires var probe := Probe(e, rest, unused);
      Combined(Combined(e, probe), rest) == Combined(Combined(e, rest), probe)
    ensures Absorbs(e, rest)
  {
    var probe := Probe(e, rest, unused);
    AppendsCommuteWith(e.queryParams, rest.queryParams, probe.queryParams[0]);
    AppendsCommuteWith(e.headers, rest.headers, probe.headers[0]);
    AppendsCommuteWith(e.deepQueries, rest.deepQueries, probe.deepQueries[0]);
    FreshLast(e.responseTypes, rest.responseTypes, unused);
    AbsorbsIff(e, rest);
  }

  lemma {:induction false} ProbeKey(e: EndpointDoc, rest: EndpointDoc, unused: Mime)
    ensures KeyOf(Probe(e, rest, unused)) == KeyOf(e)
  {}

  lemma {:induction false} MergedKey(doc: Doc, key: Key)
    ensures Merged(doc, key).Some? ==> KeyOf(Merged(doc, key).value) == key
    decreases |doc|
  {
    if doc != [] {
      MergedKey(doc[..|doc| - 1], key);
      var rest, e := Merged(doc[..|doc| - 1], key), doc[|doc| - 1];
      if rest.Some? && KeyOf(e) == key {
        CombineKeepsKey(rest.value, e);
      }
    }
  }

  /** What a document merges to at the key of its `i`-th endpoint, the first of its key. */
  lemma {:induction false} MergedFrom(doc: Doc, i: nat, y: EndpointDoc)
    requires i < |doc| && Position(doc, KeyOf(doc[i])) == i && KeyOf(y) == KeyOf(doc[i])
    ensures Merged(doc[i := y], KeyOf(doc[i])) == Join(Some(y), Merged(doc[i + 1..], KeyOf(doc[i])))
  {
    var key := KeyOf(doc[i]);
    var front, back := doc[..i], doc[i + 1..];
    assert doc[i := y] == front + ([y] + back);
    MergedAppend(front, [y] + back, key);
    MergedAppend([y], back, key);
    assert [y][..0] == [];
    NoneMerged(front, key);
  }

  /** A repetition that adds something is told from the first endpoint by some third document. */
  lemma {:induction false} RepeatTells(b: Doc, i: nat, j: nat) returns (e: EndpointDoc)
    requires i < j < |b| && KeyOf(b[j]) == KeyOf(b[i]) && Position(b, KeyOf(b[i])) == i
    requires !Absorbs(b[i], b[j])
    ensures Extended([], Extended(b, [e])) != Extended(Extended([], b), [e])
  {
    var key, first, back := KeyOf(b[i]), b[i], b[i + 1..];
    assert b[j] == back[j - i - 1];
    MergedAbsorbed(first, back, key, b[j]);
    MergedKey(back, key);
    var rest := Merged(back, key).value;
    var unused := FreshMime(first.responseTypes + rest.responseTypes);
    e := Probe(first, rest, unused);
    ProbeKey(first, rest, unused);
    if Extended([], Extended(b, [e])) == Extended(Extended([], b), [e]) {
      ProbeChangesPlaces(b, i, e);
      ProbeTells(first, rest, unused);
    }
  }

  lemma {:induction false} ProbeChangesPlaces(b: Doc, i: nat, e: EndpointDoc)
    requires i < |b| && Position(b, KeyOf(b[i])) == i && KeyOf(e) == KeyOf(b[i])
    requires Extended([], Extended(b, [e])) == Extended(Extended([], b), [e])
    ensures var rest := Merged(b[i + 1..], KeyOf(e));
      Join(Some(Combined(b[i], e)), rest) == Join(Join(Some(b[i]), rest), Some(e))
  {
    var key := KeyOf(e);
    assert [e][1..] == [];
    assert Extended(b, [e]) == Pushed(b, e) == b[i := Combined(b[i], e)];
    CombineKeepsKey(b[i], e);
    FirstOfMerged(Pushed(b, e), key);
    MergedFrom(b, i, Combined(b[i], e));
    FirstOfPushed(Extended([], b), e, key);
    FirstOfMerged(b, key);
    MergedFrom(b, i, b[i]);
    assert b[i := b[i]] == b;
  }

  /**
   Extending associates over a middle document exactly when each repetition of a key in it
   adds nothing to the first endpoint of that key.
   */
  lemma {:induction false} AssociativeIff(b: Doc)
    ensures (forall a: Doc, c: Doc :: Extended(a, Extended(b, c)) == Extended(Extended(a, b), c))
       <==> RepeatsAddNothing(b)
  {
    if RepeatsAddNothing(b) {
      forall a: Doc, c: Doc ensures Extended(a, Extended(b, c)) == Extended(Extended(a, b), c) {
        IdleRepeatsAssociate(a, b, c);
      }
    } else {
      var j :| 0 <= j < |b| && Position(b, KeyOf(b[j])) < j && !Absorbs(b[Position(b, KeyOf(b[j]))], b[j]);
      var e := RepeatTells(b, Position(b, KeyOf(b[j])), j);
      assert Extended([], Extended(b, [e])) != Extended(Extended([], b), [e]);
    }
  }

  const BLANK := EndpointDoc([], [], 200, [], [], None, None, [], None, None, None, None, None, None, [], None)

  /** A repetition that adds a header moves behind what is added between. */
  lemma {:induction false} RepeatedKeysReorder()
    ensures var x, y := BLANK.(headers := [[1]]), BLANK.(headers := [[2]]);
      Extended([], Extended([x, x], [y])) != Extended(Extended([], [x, x]), [y])
  {
    var x, y := BLANK.(headers := [[1]]), BLANK.(headers := [[2]]);
    var xy, xx := Combined(x, y), Combined(x, x);
    assert Pushed([x, x], y) == [xy, x];
    assert Extended([x, x], [y]) == [xy, x];
    assert Pushed([], x) == [x] && Pushed([x], x) == [xx] && Pushed([xx], y) == [Combined(xx, y)];
    assert Pushed([], xy) == [xy] && Pushed([xy], x) == [Combined(xy, x)];
    assert [x, x][1..] == [x] && [xy, x][1..] == [x] && [x][1..] == [] && [y][1..] == [];
    assert Extended([], [x, x]) == Extended([x], [x]) == Extended([xx], []) == [xx];
    assert Extended([], [xy, x]) == Extended([xy], [x]) == Extended([Combined(xy, x)], []);
    assert Combined(xy, x).headers[1] == [2] && Combined(Combined(x, x), y).headers[1] == [1];
  }
}
