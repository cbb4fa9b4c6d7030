/** The documentation model: endpoints described one by one and merged where they share a key. */
module ApiDocs {
  import opened Basics
  import opened Negotiation

  datatype PathPart =
    | Static(segment: Text)
    | Capture(name: Text, ty: Text)
    | CaptureAll(name: Text, ty: Text)

  datatype ParamKind = Normal | List | Flag
  datatype ParamDoc = ParamDoc(name: Text, kind: ParamKind, ty: Text)
  datatype HostDoc = HostDoc(name: Text, requiredPort: Option<nat>, port: Option<nat>)

  /** A JSON schema, as its text. */
  datatype Schema = Schema(json: Text)
  datatype SchemaDoc = SchemaDoc(ty: Text, component: Option<Text>, body: Option<Schema>)
  datatype BodyDoc = BodyDoc(contentTypes: seq<Mime>, ty: Text, schema: SchemaDoc, streaming: bool)
  datatype FragmentDoc = FragmentDoc(ty: Text, description: Text)
  datatype QueryStringDoc = QueryStringDoc(decodedPairs: bool, rawAvailable: bool)
  datatype DeepQueryDoc = DeepQueryDoc(name: Text, ty: Text)
  datatype RawDoc = PlainRaw | RawWithContext

  datatype EndpointDoc = EndpointDoc(
    path: seq<PathPart>, verb: Text, status: nat, queryParams: seq<ParamDoc>, headers: seq<Text>,
    host: Option<HostDoc>, requestBody: Option<BodyDoc>, responseTypes: seq<Mime>,
    responseSchema: Option<SchemaDoc>, summary: Option<Text>, description: Option<Text>,
    operationId: Option<Text>, fragment: Option<FragmentDoc>, queryString: Option<QueryStringDoc>,
    deepQueries: seq<DeepQueryDoc>, raw: Option<RawDoc>)

  // ----- the merge key

  const COLON: byte := 58

  function RenderPart(part: PathPart): Text {
    match part
    case Static(s) => s
    case Capture(name, _) => [COLON] + name
    case CaptureAll(name, _) => [COLON] + name
  }

  function RenderParts(path: seq<PathPart>): seq<Text> {
    if path == [] then [] else [RenderPart(path[0])] + RenderParts(path[1..])
  }

  datatype Key = Key(host: Option<Text>, path: seq<Text>, verb: Option<Text>)

  /** Raw endpoints answer every method, so their key has none. */
  function KeyOf(e: EndpointDoc): Key {
    Key(if e.host.Some? then Some(e.host.value.name) else None, RenderParts(e.path),
        if e.raw.Some? then None else Some(e.verb))
  }

  /** Parts that a path does not tell apart: equal segments, captures of one name, or a segment spelt like one. */
  predicate SamePart(a: PathPart, b: PathPart) {
    if a.Static? && b.Static? then a.segment == b.segment
    else if a.Static? then a.segment == [':' as int] + b.name
    else if b.Static? then b.segment == [':' as int] + a.name
    else a.name == b.name
  }

  /** Endpoints are merged exactly when their hosts, paths and methods are the same; ports do not count. */
  lemma {:induction false} SameKeyIff(a: EndpointDoc, b: EndpointDoc)
    ensures KeyOf(a) == KeyOf(b)
      <==> && (a.host.Some? <==> b.host.Some?)
           && (a.host.Some? && b.host.Some? ==> a.host.value.name == b.host.value.name)
           && |a.path| == |b.path|
           && (forall i :: 0 <= i < |a.path| ==> SamePart(a.path[i], b.path[i]))
           && (a.raw.Some? <==> b.raw.Some?)
           && (a.raw.None? ==> a.verb == b.verb)
  {
    RenderedAlike(a.path, b.path);
  }

  lemma {:induction false} PartsAlike(a: PathPart, b: PathPart)
    ensures RenderPart(a) == RenderPart(b) <==> SamePart(a, b)
  {
    if !a.Static? {
      AfterFirst(COLON, a.name);
    }
    if !b.Static? {
      AfterFirst(COLON, b.name);
    }
  }

  lemma {:induction false} RenderedAlike(a: seq<PathPart>, b: seq<PathPart>)
    ensures RenderParts(a) == RenderParts(b)
      <==> |a| == |b| && forall i :: 0 <= i < |a| ==> SamePart(a[i], b[i])
  {
    if a != [] && b != [] {
      PartsAlike(a[0], b[0]);
      RenderedAlike(a[1..], b[1..]);
      AfterFirst(RenderPart(a[0]), RenderParts(a[1..]));
      AfterFirst(RenderPart(b[0]), RenderParts(b[1..]));
      assert forall i :: 0 < i < |a| ==> a[i] == a[1..][i - 1];
      assert forall i :: 0 < i < |b| ==> b[i] == b[1..][i - 1];
      assert forall i :: 0 <= i < |a| - 1 ==> a[1..][i] == a[i + 1];
      assert forall i :: 0 <= i < |b| - 1 ==> b[1..][i] == b[i + 1];
    }
  }

  // ----- merging two endpoints

  function Or<T>(a: Option<T>, b: Option<T>): Option<T> {
    if a.None? then b else a
  }

  function AddMissing<T(==)>(xs: seq<T>, ys: seq<T>): seq<T>
    decreases ys
  {
    if ys == [] then xs else AddMissing(if ys[0] in xs then xs else xs + [ys[0]], ys[1..])
  }

  /** Left-biased: lists grow, what the left states stays. */
  function Combined(a: EndpointDoc, b: EndpointDoc): EndpointDoc {
    EndpointDoc(
      a.path, a.verb, a.status, a.queryParams + b.queryParams, a.headers + b.headers,
      Or(a.host, b.host), Or(a.requestBody, b.requestBody), AddMissing(a.responseTypes, b.responseTypes),
      Or(a.responseSchema, b.responseSchema), Or(a.summary, b.summary), Or(a.description, b.description),
      Or(a.operationId, b.operationId), Or(a.fragment, b.fragment), Or(a.queryString, b.queryString),
      a.deepQueries + b.deepQueries, Or(a.raw, b.raw))
  }

  lemma {:induction false} CombineKeepsKey(a: EndpointDoc, b: EndpointDoc)
    requires KeyOf(a) == KeyOf(b)
    ensures KeyOf(Combined(a, b)) == KeyOf(a)
  {}

  lemma {:induction false} AddMissingContains<T>(xs: seq<T>, ys: seq<T>, t: T)
    ensures t in AddMissing(xs, ys) <==> t in xs || t in ys
    decreases ys
  {
    if ys != [] {
      var more := if ys[0] in xs then xs else xs + [ys[0]];
      AddMissingContains(more, ys[1..], t);
      FirstAndRest(ys);
    }
  }

  lemma {:induction false} AddMissingAppend<T>(xs: seq<T>, ys: seq<T>, zs: seq<T>)
    ensures AddMissing(xs, ys + zs) == AddMissing(AddMissing(xs, ys), zs)
    decreases ys
  {
    if ys == [] {
      assert ys + zs == zs;
    } else {
      assert (ys + zs)[1..] == ys[1..] + zs;
      AddMissingAppend(if ys[0] in xs then xs else xs + [ys[0]], ys[1..], zs);
    }
  }

  lemma {:induction false} AddMissingLast<T>(xs: seq<T>, ys: seq<T>, t: T)
    ensures AddMissing(xs, ys + [t])
         == if t in xs || t in ys then AddMissing(xs, ys) else AddMissing(xs, ys) + [t]
  {
    AddMissingAppend(xs, ys, [t]);
    AddMissingContains(xs, ys, t);
    assert [t][1..] == [];
  }

  /** What is added are the right list's items that the left one lacks, each where it occurs first. */
  lemma {:induction false} AddMissingIs<T>(xs: seq<T>, ys: seq<T>)
    ensures AddMissing(xs, ys) == xs + NewOnes(xs, ys)
    decreases |ys|
  {
    if ys == [] {
      assert xs + [] == xs;
    } else {
      var front, last := ys[..|ys| - 1], ys[|ys| - 1];
      assert ys == front + [last];
      AddMissingIs(xs, front);
      AddMissingLast(xs, front, last);
      Assoc(xs, NewOnes(xs, front), if last in xs || last in front then [] else [last]);
    }
  }

  /** What an optional part of a merge is. */
  predicate LeftFirst<T(==)>(left: Option<T>, right: Option<T>, both: Option<T>) {
    (left.Some? ==> both == left) && (left.None? ==> both == right)
  }

  /** The left endpoint stands, its gaps are filled from the right one, and its lists go on with the right one's. */
  lemma {:induction false} CombinedIsLeftFirst(a: EndpointDoc, b: EndpointDoc)
    ensures var c := Combined(a, b);
      && c.path == a.path && c.verb == a.verb && c.status == a.status
      && c.queryParams == a.queryParams + b.queryParams && c.headers == a.headers + b.headers
      && c.deepQueries == a.deepQueries + b.deepQueries
      && c.responseTypes == a.responseTypes + NewOnes(a.responseTypes, b.responseTypes)
      && LeftFirst(a.host, b.host, c.host) && LeftFirst(a.raw, b.raw, c.raw)
      && LeftFirst(a.requestBody, b.requestBody, c.requestBody)
      && LeftFirst(a.responseSchema, b.responseSchema, c.responseSchema)
      && LeftFirst(a.summary, b.summary, c.summary) && LeftFirst(a.description, b.description, c.description)
      && LeftFirst(a.operationId, b.operationId, c.operationId)
      && LeftFirst(a.fragment, b.fragment, c.fragment) && LeftFirst(a.queryString, b.queryString, c.queryString)
  {
    AddMissingIs(a.responseTypes, b.responseTypes);
  }

  lemma {:induction false} AddMissingAssociative<T>(xs: seq<T>, ys: seq<T>, zs: seq<T>)
    ensures AddMissing(xs, AddMissing(ys, zs)) == AddMissing(AddMissing(xs, ys), zs)
    decreases |zs|
  {
    if zs != [] {
      var front, t := zs[..|zs| - 1], zs[|zs| - 1];
      assert zs == front + [t];
      AddMissingAssociative(xs, ys, front);
      AddMissingLast(ys, front, t);
      AddMissingLast(xs, AddMissing(ys, front), t);
      AddMissingLast(AddMissing(xs, ys), front, t);
      AddMissingContains(ys, front, t);
      AddMissingContains(xs, ys, t);
    }
  }

  lemma {:induction false} CombineAssociative(a: EndpointDoc, b: EndpointDoc, c: EndpointDoc)
    ensures Combined(a, Combined(b, c)) == Combined(Combined(a, b), c)
  {
    AddMissingAssociative(a.responseTypes, b.responseTypes, c.responseTypes);
    Assoc(a.queryParams, b.queryParams, c.queryParams);
    Assoc(a.headers, b.headers, c.headers);
    Assoc(a.deepQueries, b.deepQueries, c.deepQueries);
  }

  // ----- merging documents

  type Doc = seq<EndpointDoc>

  function Position(doc: Doc, key: Key): (i: nat)
    ensures i <= |doc|
    ensures i < |doc| ==> KeyOf(doc[i]) == key
    ensures forall j :: 0 <= j < i ==> KeyOf(doc[j]) != key
  {
    if doc == [] || KeyOf(doc[0]) == key then 0 else 1 + Position(doc[1..], key)
  }

  function Pushed(doc: Doc, e: EndpointDoc): Doc {
    var i := Position(doc, KeyOf(e));
    if i < |doc| then doc[i := Combined(doc[i], e)] else doc + [e]
  }

  function Extended(doc: Doc, more: Doc): Doc
    decreases more
  {
    if more == [] then doc else Extended(Pushed(doc, more[0]), more[1..])
  }

  // ----- the implementation's loops

  /** One endpoint of a document, merged into in place. */
  class EndpointCell {
    var doc: EndpointDoc

    constructor (doc: EndpointDoc)
      ensures this.doc == doc
    {
      this.doc := doc;
    }

    method Combine(other: EndpointDoc)
      modifies this
      ensures doc == Combined(old(doc), other)
    {
      var types := doc.responseTypes;
      for i := 0 to |other.responseTypes|
        invariant AddMissing(types, other.responseTypes[i..]) == AddMissing(doc.responseTypes, other.responseTypes)
        invariant doc == old(doc)
      {
        assert other.responseTypes[i..][1..] == other.responseTypes[i + 1..];
        if other.responseTypes[i] !in types {
          types := types + [other.responseTypes[i]];
        }
      }
      assert other.responseTypes[|other.responseTypes|..] == [];
      doc := doc.(queryParams := doc.queryParams + other.queryParams);
      doc := doc.(headers := doc.headers + other.headers);
      doc := doc.(responseTypes := types);
      doc := doc.(requestBody := Or(doc.requestBody, other.requestBody));
      doc := doc.(responseSchema := Or(doc.responseSchema, other.responseSchema));
      doc := doc.(host := Or(doc.host, other.host));
      doc := doc.(summary := Or(doc.summary, other.summary));
      doc := doc.(description := Or(doc.description, other.description));
      doc := doc.(operationId := Or(doc.operationId, other.operationId));
      doc := doc.(fragment := Or(doc.fragment, other.fragment));
      doc := doc.(queryString := Or(doc.queryString, other.queryString));
      doc := doc.(deepQueries := doc.deepQueries + other.deepQueries);
      doc := doc.(raw := Or(doc.raw, other.raw));
    }
  }

  class ApiDoc {
    var endpoints: Doc

    constructor ()
      ensures endpoints == []
    {
      endpoints := [];
    }

    method Push(e: EndpointDoc)
      modifies this
      ensures endpoints == Pushed(old(endpoints), e)
    {
      var i := 0;
      while i < |endpoints| && KeyOf(endpoints[i]) != KeyOf(e)
        invariant i <= |endpoints| && endpoints == old(endpoints)
        invariant forall j :: 0 <= j < i ==> KeyOf(endpoints[j]) != KeyOf(e)
      {
        i := i + 1;
      }
      if i < |endpoints| {
        var existing := new EndpointCell(endpoints[i]);
        existing.Combine(e);
        endpoints := endpoints[i := existing.doc];
      } else {
        endpoints := endpoints + [e];
      }
    }

    method Extend(more: Doc)
      modifies this
      ensures endpoints == Extended(old(endpoints), more)
    {
      for i := 0 to |more|
        invariant Extended(endpoints, more[i..]) == Extended(old(endpoints), more)
      {
        assert more[i..][1..] == more[i + 1..];
        Push(more[i]);
      }
      assert more[|more|..] == [];
    }
  }

  // ----- keys stay unique, in first-occurrence order

  predicate Unique(doc: Doc) {
    forall i, j :: 0 <= i < j < |doc| ==> KeyOf(doc[i]) != KeyOf(doc[j])
  }

  predicate Has(doc: Doc, key: Key) {
    Position(doc, key) < |doc|
  }

  lemma {:induction false} PositionIs(doc: Doc, key: Key, i: nat)
    requires i < |doc| && KeyOf(doc[i]) == key
    requires forall j :: 0 <= j < i ==> KeyOf(doc[j]) != key
    ensures Position(doc, key) == i
  {}

  /** Pushing changes no key and adds at most the pushed one, at the end. */
  lemma {:induction false} PushKeys(doc: Doc, e: EndpointDoc)
    ensures var pushed := Pushed(doc, e);
      && |pushed| == (if Has(doc, KeyOf(e)) then |doc| else |doc| + 1)
      && (forall i :: 0 <= i < |doc| ==> KeyOf(pushed[i]) == KeyOf(doc[i]))
      && (!Has(doc, KeyOf(e)) ==> KeyOf(pushed[|doc|]) == KeyOf(e))
      && (Unique(doc) ==> Unique(pushed))
  {
    var i := Position(doc, KeyOf(e));
    if i < |doc| {
      CombineKeepsKey(doc[i], e);
    }
  }

  // ----- each key's endpoints, merged in order

  function WithKey(doc: Doc, key: Key): Doc {
    if doc == [] then []
    else (if KeyOf(doc[0]) == key then [doc[0]] else []) + WithKey(doc[1..], key)
  }

  function WithoutKey(doc: Doc, key: Key): (rest: Doc)
    ensures |rest| <= |doc|
  {
    if doc == [] then []
    else (if KeyOf(doc[0]) == key then [] else [doc[0]]) + WithoutKey(doc[1..], key)
  }

  function CombineAll(e: EndpointDoc, more: Doc): EndpointDoc
    decreases more
  {
    if more == [] then e else CombineAll(Combined(e, more[0]), more[1..])
  }

  /** One endpoint per key, in the order of first occurrence, each the merge of all with that key. */
  function Grouped(doc: Doc): Doc
    decreases |doc|
  {
    if doc == [] then []
    else
      var key := KeyOf(doc[0]);
      [CombineAll(doc[0], WithKey(doc[1..], key))] + Grouped(WithoutKey(doc[1..], key))
  }

  lemma {:induction false} PositionBehind(x: EndpointDoc, doc: Doc, key: Key)
    ensures Position([x] + doc, key) == if KeyOf(x) == key then 0 else 1 + Position(doc, key)
  {
    AfterFirst(x, doc);
  }

  lemma {:induction false} PushBehind(x: EndpointDoc, doc: Doc, e: EndpointDoc)
    requires !Has(doc, KeyOf(x))
    ensures KeyOf(e) == KeyOf(x) ==> Pushed([x] + doc, e) == [Combined(x, e)] + doc
    ensures KeyOf(e) != KeyOf(x) ==> Pushed([x] + doc, e) == [x] + Pushed(doc, e) && !Has(Pushed(doc, e), KeyOf(x))
  {
    AfterFirst(x, doc);
    PositionBehind(x, doc, KeyOf(e));
    if KeyOf(e) == KeyOf(x) {
      UpdateFirst(x, doc, Combined(x, e));
    } else {
      PushKeys(doc, e);
      var i := Position(doc, KeyOf(e));
      if i < |doc| {
        assert ([x] + doc)[i + 1] == doc[i];
        UpdateBehind(x, doc, i, Combined(doc[i], e));
      } else {
        Assoc([x], doc, [e]);
      }
    }
  }

  lemma {:induction false} ExtendBehind(x: EndpointDoc, doc: Doc, more: Doc)
    requires !Has(doc, KeyOf(x))
    ensures Extended([x] + doc, more)
         == [CombineAll(x, WithKey(more, KeyOf(x)))] + Extended(doc, WithoutKey(more, KeyOf(x)))
    decreases more
  {
    if more != [] {
      var e, rest := more[0], more[1..];
      PushBehind(x, doc, e);
      if KeyOf(e) == KeyOf(x) {
        CombineKeepsKey(x, e);
        ExtendBehind(Combined(x, e), doc, rest);
        AfterFirst(e, WithKey(rest, KeyOf(x)));
        NothingInFront(WithoutKey(rest, KeyOf(x)));
      } else {
        ExtendBehind(x, Pushed(doc, e), rest);
        AfterFirst(e, WithoutKey(rest, KeyOf(x)));
        NothingInFront(WithKey(rest, KeyOf(x)));
      }
    }
  }

  /** Merging endpoint by endpoint is grouping by key. */
  lemma {:induction false} ExtendGroups(doc: Doc)
    ensures Extended([], doc) == Grouped(doc)
    decreases |doc|
  {
    if doc != [] {
      var x, rest := doc[0], doc[1..];
      NothingInFront([x]);
      assert Pushed([], x) == [x] + [];
      ExtendBehind(x, [], rest);
      ExtendGroups(WithoutKey(rest, KeyOf(x)));
    }
  }

  lemma {:induction false} ExtendKeepsUnique(doc: Doc, more: Doc)
    requires Unique(doc)
    ensures Unique(Extended(doc, more))
    decreases more
  {
    if more != [] {
      PushKeys(doc, more[0]);
      ExtendKeepsUnique(Pushed(doc, more[0]), more[1..]);
    }
  }

  // ----- extending is associative

  lemma {:induction false} ExtendAppend(doc: Doc, xs: Doc, ys: Doc)
    ensures Extended(doc, xs + ys) == Extended(Extended(doc, xs), ys)
    decreases xs
  {
    if xs == [] {
      assert xs + ys == ys;
    } else {
      assert (xs + ys)[1..] == xs[1..] + ys;
      ExtendAppend(Pushed(doc, xs[0]), xs[1..], ys);
    }
  }

  lemma {:induction false} ExtendLast(doc: Doc, more: Doc, e: EndpointDoc)
    ensures Extended(doc, more + [e]) == Pushed(Extended(doc, more), e)
  {
    ExtendAppend(doc, more, [e]);
    assert [e][1..] == [];
  }

  /** Two endpoints of one key can be merged before they are pushed. */
  lemma {:induction false} PushMerged(doc: Doc, x: EndpointDoc, e: EndpointDoc)
    requires KeyOf(x) == KeyOf(e)
    ensures Pushed(Pushed(doc, x), e) == Pushed(doc, Combined(x, e))
    ensures Has(Pushed(doc, x), KeyOf(x))
  {
    var i := Position(doc, KeyOf(x));
    CombineKeepsKey(x, e);
    PushKeys(doc, x);
    PositionIs(Pushed(doc, x), KeyOf(x), i);
    if i < |doc| {
      CombineAssociative(doc[i], x, e);
    }
  }

  /** Once its key is present, an endpoint of another key can be pushed before or after it. */
  lemma {:induction false} PushSwap(doc: Doc, e: EndpointDoc, f: EndpointDoc)
    requires Has(doc, KeyOf(e)) && KeyOf(e) != KeyOf(f)
    ensures Pushed(Pushed(doc, e), f) == Pushed(Pushed(doc, f), e)
    ensures Has(Pushed(doc, f), KeyOf(e))
  {
    var i, j := Position(doc, KeyOf(e)), Position(doc, KeyOf(f));
    var x := Combined(doc[i], e);
    PushKeys(doc, e);
    PushKeys(doc, f);
    PositionIs(Pushed(doc, f), KeyOf(e), i);
    if j < |doc| {
      PositionIs(Pushed(doc, e), KeyOf(f), j);
      UpdateSwap(doc, i, x, j, Combined(doc[j], f));
    } else {
      assert Position(doc[i := x], KeyOf(f)) == |doc|;
      UpdateAppend(doc, i, x, f);
    }
  }

  lemma {:induction false} ExtendSwap(doc: Doc, e: EndpointDoc, more: Doc)
    requires Has(doc, KeyOf(e)) && !Has(more, KeyOf(e))
    ensures Extended(Pushed(doc, e), more) == Pushed(Extended(doc, more), e)
    decreases more
  {
    if more != [] {
      PushSwap(doc, e, more[0]);
      ExtendSwap(Pushed(doc, more[0]), e, more[1..]);
    }
  }

  /** Pushing into the document that is being added is pushing afterwards. */
  lemma {:induction false} ExtendPushed(a: Doc, b: Doc, e: EndpointDoc)
    requires Unique(b)
    ensures Extended(a, Pushed(b, e)) == Pushed(Extended(a, b), e)
    decreases b
  {
    if b == [] {
      assert [e][1..] == [];
    } else if KeyOf(b[0]) == KeyOf(e) {
      var merged := Combined(b[0], e);
      assert Pushed(b, e) == [merged] + b[1..];
      AfterFirst(merged, b[1..]);
      PushMerged(a, b[0], e);
      ExtendSwap(Pushed(a, b[0]), e, b[1..]);
    } else {
      var rest := Pushed(b[1..], e);
      PushRest(b, e);
      AfterFirst(b[0], rest);
      ExtendPushed(Pushed(a, b[0]), b[1..], e);
    }
  }

  lemma {:induction false} PushRest(b: Doc, e: EndpointDoc)
    requires b != [] && KeyOf(b[0]) != KeyOf(e)
    ensures Pushed(b, e) == [b[0]] + Pushed(b[1..], e)
  {
    assert Position(b, KeyOf(e)) == 1 + Position(b[1..], KeyOf(e));
    FirstAndRest(b);
  }

  lemma {:induction false} ExtendAssociative(a: Doc, b: Doc, c: Doc)
    requires Unique(b)
    ensures Extended(a, Extended(b, c)) == Extended(Extended(a, b), c)
    decreases |c|
  {
    if c != [] {
      var front, e := c[..|c| - 1], c[|c| - 1];
      assert c == front + [e];
      ExtendAssociative(a, b, front);
      ExtendLast(b, front, e);
      ExtendLast(Extended(a, b), front, e);
      ExtendKeepsUnique(b, front);
      ExtendPushed(a, Extended(b, front), e);
    }
  }

  lemma {:induction false} UniqueAsIs(doc: Doc)
    requires Unique(doc)
    ensures Extended([], doc) == doc
    decreases |doc|
  {
    if doc != [] {
      var front, e := doc[..|doc| - 1], doc[|doc| - 1];
      assert doc == front + [e];
      UniqueAsIs(front);
      ExtendLast([], front, e);
    }
  }

  /** The empty document is the unit on the right, and on the left of exactly the documents with unique keys. */
  lemma {:induction false} EmptyIsUnitIff(doc: Doc)
    ensures Extended(doc, []) == doc
    ensures Extended([], doc) == doc <==> Unique(doc)
  {
    ExtendKeepsUnique([], doc);
    if Unique(doc) {
      UniqueAsIs(doc);
    }
  }

  // ----- walking an API

  /** An API as the documentation walk sees it: combinators extend what they pass down, verbs finish it. */
  datatype Api =
    | Empty
    | Endpoint(finish: EndpointDoc -> EndpointDoc)
    | Scoped(step: EndpointDoc -> EndpointDoc, inner: Api)
    | Alt(left: Api, right: Api)

  function DocsWalk(api: Api, acc: EndpointDoc): Doc {
    match api
    case Empty => []
    case Endpoint(finish) => [finish(acc)]
    case Scoped(step, inner) => DocsWalk(inner, step(acc))
    case Alt(left, right) => Extended(DocsWalk(left, acc), DocsWalk(right, acc))
  }

  /** Every endpoint of the API on its own, from left to right. */
  function Flat(api: Api, acc: EndpointDoc): Doc {
    match api
    case Empty => []
    case Endpoint(finish) => [finish(acc)]
    case Scoped(step, inner) => Flat(inner, step(acc))
    case Alt(left, right) => Flat(left, acc) + Flat(right, acc)
  }

  lemma {:induction false} WalkIsMerge(api: Api, acc: EndpointDoc)
    ensures DocsWalk(api, acc) == Extended([], Flat(api, acc))
    ensures Unique(DocsWalk(api, acc))
  {
    match api
    case Empty =>
    case Endpoint(finish) =>
      NothingInFront([finish(acc)]);
      assert [finish(acc)][1..] == [];
    case Scoped(step, inner) => WalkIsMerge(inner, step(acc));
    case Alt(left, right) =>
      WalkIsMerge(left, acc);
      WalkIsMerge(right, acc);
      var l, r := Flat(left, acc), Flat(right, acc);
      ExtendAppend([], l, r);
      ExtendAssociative(DocsWalk(left, acc), [], r);
      assert Extended(DocsWalk(left, acc), []) == DocsWalk(left, acc);
      ExtendKeepsUnique(DocsWalk(left, acc), DocsWalk(right, acc));
  }

  /**
   The documentation of an API lists each key once, in the order of first occurrence, with all
   the endpoints of that key merged from left to right; so it depends on the endpoints alone
   and not on how the alternatives are nested.
   */
  lemma {:induction false} DocsAreGrouped(api: Api, acc: EndpointDoc)
    ensures DocsWalk(api, acc) == Grouped(Flat(api, acc))
    ensures Unique(DocsWalk(api, acc))
  {
    WalkIsMerge(api, acc);
    ExtendGroups(Flat(api, acc));
  }

  lemma {:induction false} DocsIgnoreNesting(a: Api, b: Api, c: Api, acc: EndpointDoc)
    ensures DocsWalk(Alt(a, Alt(b, c)), acc) == DocsWalk(Alt(Alt(a, b), c), acc)
    ensures DocsWalk(Alt(Empty, a), acc) == DocsWalk(a, acc) == DocsWalk(Alt(a, Empty), acc)
  {
    WalkIsMerge(a, acc);
    WalkIsMerge(b, acc);
    ExtendAssociative(DocsWalk(a, acc), DocsWalk(b, acc), DocsWalk(c, acc));
    EmptyIsUnitIff(DocsWalk(a, acc));
  }
}
