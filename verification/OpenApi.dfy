/** The OpenAPI document: operations grouped by path and method, named schemas, and the checks on both. */
module OpenApi {
  import opened Basics
  import opened Negotiation
  import opened ApiDocs

  // ----- keys

  const SLASH: byte := 47
  const OPEN_BRACE: byte := 123
  const CLOSE_BRACE: byte := 125

  function TemplateParts(path: seq<PathPart>): Text {
    if path == [] then []
    else
      (match path[0]
       case Static(s) => [SLASH] + s
       case Capture(name, _) => [SLASH, OPEN_BRACE] + name + [CLOSE_BRACE]
       case CaptureAll(name, _) => [SLASH, OPEN_BRACE] + name + [CLOSE_BRACE])
      + TemplateParts(path[1..])
  }

  function TemplateOf(path: seq<PathPart>): Text {
    if path == [] then [SLASH] else TemplateParts(path)
  }

  /** A template grows by one part at a time; an empty path is the root. */
  lemma {:induction false} TemplateMore(path: seq<PathPart>, part: PathPart)
    ensures TemplateOf(path + [part]) ==
      (if path == [] then [] else TemplateOf(path))
      + (if part.Static? then ['/' as int] + part.segment else ['/' as int, '{' as int] + part.name + ['}' as int])
    ensures TemplateOf([]) == ['/' as int]
  {
    TemplatePartsMore(path, part);
  }

  lemma {:induction false} TemplatePartsMore(path: seq<PathPart>, part: PathPart)
    ensures TemplateParts(path + [part]) == TemplateParts(path) + TemplateParts([part])
    ensures TemplateParts([part])
         == if part.Static? then ['/' as int] + part.segment
            else ['/' as int, '{' as int] + part.name + ['}' as int]
  {
    assert [part][1..] == [] && TemplateParts([]) == [];
    if path == [] {
      assert [] + [part] == [part];
    } else {
      assert (path + [part])[1..] == path[1..] + [part];
      TemplatePartsMore(path[1..], part);
      var first := path[0];
      Assoc(if first.Static? then [SLASH] + first.segment else [SLASH, OPEN_BRACE] + first.name + [CLOSE_BRACE],
            TemplateParts(path[1..]), TemplateParts([part]));
    }
  }

  function Lower(s: Text): (r: Text)
    ensures |r| == |s|
    ensures forall i :: 0 <= i < |s| ==>
      r[i] == if 'A' as int <= s[i] <= 'Z' as int then s[i] - 'A' as int + 'a' as int else s[i]
  {
    if s == [] then [] else [if 65 <= s[0] <= 90 then s[0] + 32 else s[0]] + Lower(s[1..])
  }

  /** Where an operation goes: its templated path and its lower-case method. */
  datatype Place = Place(path: Text, verb: Text)

  function PlaceOf(e: EndpointDoc): Place {
    Place(TemplateOf(e.path), Lower(e.verb))
  }

  // ----- operations

  datatype SchemaObject = Ref(name: Text) | Inline(schema: Schema) | Named(ty: Text) | Anything

  /** A component when the schema has a name, otherwise the body itself or what the type name alone gives. */
  function SchemaFor(s: SchemaDoc): SchemaObject {
    if s.component.Some? then Ref(s.component.value)
    else if s.body.Some? then Inline(s.body.value)
    else Named(s.ty)
  }

  /** The media types a schema is listed under, by their essence. */
  function ContentKeys(media: seq<Mime>): set<(Text, Text)> {
    set m <- media :: (m.kind, m.subtype)
  }

  datatype Content = Content(media: set<(Text, Text)>, schema: SchemaObject)

  datatype Operation = Operation(
    summary: Option<Text>, description: Option<Text>, operationId: Option<Text>, path: seq<PathPart>,
    queryParams: seq<ParamDoc>, deepQueries: seq<DeepQueryDoc>, headers: seq<Text>, wholeQuery: bool,
    host: Option<HostDoc>, body: Option<Content>, streaming: bool, status: nat, response: Option<Content>)

  function OperationFor(e: EndpointDoc): Operation {
    Operation(
      e.summary, e.description, e.operationId, e.path, e.queryParams, e.deepQueries, e.headers, e.queryString.Some?,
      e.host,
      if e.requestBody.None? then None
      else Some(Content(ContentKeys(e.requestBody.value.contentTypes), SchemaFor(e.requestBody.value.schema))),
      e.requestBody.Some? && e.requestBody.value.streaming,
      e.status,
      if e.responseTypes == [] then None
      else Some(Content(ContentKeys(e.responseTypes),
                        if e.responseSchema.Some? then SchemaFor(e.responseSchema.value) else Anything)))
  }

  /** A schema is referred to by its name, or given where it is used, or told by its type alone. */
  predicate SchemaGiven(s: SchemaDoc, given: SchemaObject) {
    && (s.component.Some? ==> given == Ref(s.component.value))
    && (s.component.None? && s.body.Some? ==> given == Inline(s.body.value))
    && (s.component.None? && s.body.None? ==> given == Named(s.ty))
  }

  /** Every media type of the list is there, and no other. */
  ghost predicate MediaGiven(media: seq<Mime>, given: set<(Text, Text)>) {
    forall key :: key in given <==> exists m <- media :: key == (m.kind, m.subtype)
  }

  /** The operation carries what the endpoint states, part by part. */
  lemma {:induction false} OperationStates(e: EndpointDoc)
    ensures var op := OperationFor(e);
      && op.summary == e.summary && op.description == e.description && op.operationId == e.operationId
      && op.path == e.path && op.queryParams == e.queryParams && op.deepQueries == e.deepQueries
      && op.headers == e.headers && op.host == e.host && op.status == e.status
      && (op.wholeQuery <==> e.queryString.Some?)
      && (op.streaming <==> e.requestBody.Some? && e.requestBody.value.streaming)
      && (op.body.Some? <==> e.requestBody.Some?)
      && (op.body.Some? ==>
           && MediaGiven(e.requestBody.value.contentTypes, op.body.value.media)
           && SchemaGiven(e.requestBody.value.schema, op.body.value.schema))
      && (op.response.Some? <==> e.responseTypes != [])
      && (op.response.Some? ==>
           && MediaGiven(e.responseTypes, op.response.value.media)
           && (e.responseSchema.None? ==> op.response.value.schema == Anything)
           && (e.responseSchema.Some? ==> SchemaGiven(e.responseSchema.value, op.response.value.schema)))
  {
    if e.requestBody.Some? {
      MediaKeys(e.requestBody.value.contentTypes);
    }
    MediaKeys(e.responseTypes);
  }

  lemma {:induction false} MediaKeys(media: seq<Mime>)
    ensures MediaGiven(media, ContentKeys(media))
  {
    forall m | m in media ensures (m.kind, m.subtype) in ContentKeys(media) {}
  }

  datatype Alternative = Alternative(host: Option<HostDoc>, operation: Operation)

  /** What a method of a path holds: an operation, and once there are several, all of them. */
  datatype Slot = Slot(own: Operation, alternatives: Option<seq<Alternative>>)

  type Methods = map<Text, Slot>
  type Paths = map<Text, Methods>

  function AlternativeOf(op: Operation): Alternative {
    Alternative(op.host, op)
  }

  // ----- the loops

  method AppendAlternative(existing: Slot, op: Operation) returns (slot: Slot)
    ensures slot.own == existing.own
    ensures slot.alternatives
         == Some(existing.alternatives.GetOr([AlternativeOf(existing.own)]) + [AlternativeOf(op)])
  {
    slot := existing;
    if slot.alternatives.None? {
      slot := slot.(alternatives := Some([AlternativeOf(slot.own)]));
    }
    slot := slot.(alternatives := Some(slot.alternatives.value + [AlternativeOf(op)]));
  }

  method InsertOperation(methods: Methods, verb: Text, op: Operation) returns (more: Methods)
    ensures Inserted(methods, more, verb, op)
  {
    if verb in methods {
      var slot := AppendAlternative(methods[verb], op);
      more := methods[verb := slot];
    } else {
      more := methods[verb := Slot(op, None)];
    }
  }

  function Grown(slot: Slot, op: Operation): Slot {
    slot.(alternatives := Some(slot.alternatives.GetOr([AlternativeOf(slot.own)]) + [AlternativeOf(op)]))
  }

  // ----- what the paths must hold

  /** The endpoints an OpenAPI document describes. */
  function Visible(doc: Doc): Doc {
    if doc == [] then [] else (if doc[0].raw.None? then [doc[0]] else []) + Visible(doc[1..])
  }

  /** The endpoints of one place, in API order. */
  function At(endpoints: Doc, place: Place): Doc {
    if endpoints == [] then []
    else (if PlaceOf(endpoints[0]) == place then [endpoints[0]] else []) + At(endpoints[1..], place)
  }

  function Alternatives(endpoints: Doc): (alternatives: seq<Alternative>)
    ensures |alternatives| == |endpoints|
    ensures forall i :: 0 <= i < |endpoints| ==> alternatives[i] == AlternativeOf(OperationFor(endpoints[i]))
  {
    if endpoints == [] then [] else [AlternativeOf(OperationFor(endpoints[0]))] + Alternatives(endpoints[1..])
  }

  function SlotFor(endpoints: Doc): Slot
    requires endpoints != []
  {
    Slot(OperationFor(endpoints[0]), if |endpoints| == 1 then None else Some(Alternatives(endpoints)))
  }

  function PathKeys(endpoints: Doc): set<Text> {
    if endpoints == [] then {} else {TemplateOf(endpoints[0].path)} + PathKeys(endpoints[1..])
  }

  /** What a document has at a place. */
  function SlotAt(paths: Paths, place: Place): Option<Slot> {
    if place.path in paths && place.verb in paths[place.path] then Some(paths[place.path][place.verb]) else None
  }

  /** Every place with endpoints holds all of them, in API order; there is nothing else. */
  ghost predicate Holds(paths: Paths, endpoints: Doc) {
    && paths.Keys == PathKeys(endpoints)
    && forall place :: SlotAt(paths, place)
                    == if At(endpoints, place) == [] then None else Some(SlotFor(At(endpoints, place)))
  }

  // ----- the grouping loop

  lemma {:induction false} VisibleAppend(xs: Doc, ys: Doc)
    ensures Visible(xs + ys) == Visible(xs) + Visible(ys)
  {
    if xs == [] {
      NothingInFront(ys);
      NothingInFront(Visible(ys));
    } else {
      assert (xs + ys)[1..] == xs[1..] + ys;
      VisibleAppend(xs[1..], ys);
      Assoc(if xs[0].raw.None? then [xs[0]] else [], Visible(xs[1..]), Visible(ys));
    }
  }

  lemma {:induction false} AtAppend(xs: Doc, ys: Doc, place: Place)
    ensures At(xs + ys, place) == At(xs, place) + At(ys, place)
  {
    if xs == [] {
      NothingInFront(ys);
      NothingInFront(At(ys, place));
    } else {
      assert (xs + ys)[1..] == xs[1..] + ys;
      AtAppend(xs[1..], ys, place);
      Assoc(if PlaceOf(xs[0]) == place then [xs[0]] else [], At(xs[1..], place), At(ys, place));
    }
  }

  lemma {:induction false} AtMore(endpoints: Doc, e: EndpointDoc, place: Place)
    ensures At(endpoints + [e], place) == At(endpoints, place) + (if PlaceOf(e) == place then [e] else [])
  {
    AtAppend(endpoints, [e], place);
    assert [e][1..] == [];
  }

  lemma {:induction false} PathKeysMore(endpoints: Doc, e: EndpointDoc)
    ensures PathKeys(endpoints + [e]) == PathKeys(endpoints) + {TemplateOf(e.path)}
  {
    if endpoints == [] {
      assert [] + [e] == [e] && [e][1..] == [];
    } else {
      assert (endpoints + [e])[1..] == endpoints[1..] + [e];
      PathKeysMore(endpoints[1..], e);
    }
  }

  lemma {:induction false} AlternativesMore(endpoints: Doc, e: EndpointDoc)
    ensures Alternatives(endpoints + [e]) == Alternatives(endpoints) + [AlternativeOf(OperationFor(e))]
  {
    if endpoints == [] {
      assert [] + [e] == [e] && [e][1..] == [];
    } else {
      assert (endpoints + [e])[1..] == endpoints[1..] + [e];
      AlternativesMore(endpoints[1..], e);
    }
  }

  lemma {:induction false} SlotGrows(endpoints: Doc, e: EndpointDoc)
    requires endpoints != []
    ensures SlotFor(endpoints + [e]) == Grown(SlotFor(endpoints), OperationFor(e))
  {
    AlternativesMore(endpoints, e);
    if |endpoints| == 1 {
      assert endpoints[1..] == [];
      assert Alternatives(endpoints) == [AlternativeOf(OperationFor(endpoints[0]))] + Alternatives([]);
      assert Alternatives(endpoints) == [AlternativeOf(OperationFor(endpoints[0]))];
    }
  }

  /** What inserting an operation does to the methods of its path. */
  ghost predicate Inserted(methods: Methods, more: Methods, verb: Text, op: Operation) {
    && more.Keys == methods.Keys + {verb}
    && (forall k <- methods :: k != verb ==> more[k] == methods[k])
    && more[verb] == if verb in methods then Grown(methods[verb], op) else Slot(op, None)
  }

  function MethodsAt(paths: Paths, path: Text): Methods {
    if path in paths then paths[path] else map[]
  }

  lemma {:induction false} InsertedAt(paths: Paths, more: Methods, e: EndpointDoc, place: Place)
    requires Inserted(MethodsAt(paths, TemplateOf(e.path)), more, Lower(e.verb), OperationFor(e))
    ensures SlotAt(paths[TemplateOf(e.path) := more], place)
         == if place != PlaceOf(e) then SlotAt(paths, place)
            else if SlotAt(paths, place).None? then Some(Slot(OperationFor(e), None))
            else Some(Grown(SlotAt(paths, place).value, OperationFor(e)))
  {}

  lemma {:induction false} AtGrows(endpoints: Doc, e: EndpointDoc)
    ensures var before, after := At(endpoints, PlaceOf(e)), At(endpoints + [e], PlaceOf(e));
      after != [] && SlotFor(after)
                  == if before == [] then Slot(OperationFor(e), None) else Grown(SlotFor(before), OperationFor(e))
  {
    var before := At(endpoints, PlaceOf(e));
    AtMore(endpoints, e, PlaceOf(e));
    if before == [] {
      NothingInFront([e]);
    } else {
      SlotGrows(before, e);
    }
  }

  lemma {:induction false} HoldsMore(paths: Paths, more: Methods, endpoints: Doc, e: EndpointDoc)
    requires Holds(paths, endpoints)
    requires Inserted(MethodsAt(paths, TemplateOf(e.path)), more, Lower(e.verb), OperationFor(e))
    ensures Holds(paths[TemplateOf(e.path) := more], endpoints + [e])
  {
    var paths' := paths[TemplateOf(e.path) := more];
    PathKeysMore(endpoints, e);
    forall place
      ensures var at := At(endpoints + [e], place);
        SlotAt(paths', place) == if at == [] then None else Some(SlotFor(at))
    {
      InsertedAt(paths, more, e, place);
      if place == PlaceOf(e) {
        AtGrows(endpoints, e);
      } else {
        AtMore(endpoints, e, place);
        assert At(endpoints, place) + [] == At(endpoints, place);
      }
    }
  }

  lemma {:induction false} VisibleMore(doc: Doc, e: EndpointDoc)
    ensures Visible(doc + [e]) == if e.raw.None? then Visible(doc) + [e] else Visible(doc)
  {
    VisibleAppend(doc, [e]);
    assert [e][1..] == [];
    if e.raw.Some? {
      assert Visible(doc) + [] == Visible(doc);
    }
  }

  method ToPaths(doc: Doc) returns (paths: Paths)
    ensures Holds(paths, Visible(doc))
  {
    paths := map[];
    for i := 0 to |doc|
      invariant Holds(paths, Visible(doc[..i]))
    {
      var e := doc[i];
      assert doc[..i + 1] == doc[..i] + [e];
      VisibleMore(doc[..i], e);
      if e.raw.None? {
        var path := TemplateOf(e.path);
        var methods := InsertOperation(MethodsAt(paths, path), Lower(e.verb), OperationFor(e));
        HoldsMore(paths, methods, Visible(doc[..i]), e);
        paths := paths[path := methods];
      }
    }
    assert doc[..|doc|] == doc;
  }

  // ----- nothing is lost

  function OperationsIn(alternatives: seq<Alternative>): (ops: seq<Operation>)
    ensures |ops| == |alternatives|
    ensures forall i :: 0 <= i < |ops| ==> ops[i] == alternatives[i].operation
  {
    if alternatives == [] then [] else [alternatives[0].operation] + OperationsIn(alternatives[1..])
  }

  /** Every operation a slot describes. */
  function Described(slot: Slot): seq<Operation> {
    if slot.alternatives.None? then [slot.own] else OperationsIn(slot.alternatives.value)
  }

  /** How many endpoints of its own place come before this one. */
  function Rank(endpoints: Doc, i: nat): nat
    requires i < |endpoints|
  {
    |At(endpoints[..i], PlaceOf(endpoints[i]))|
  }

  lemma {:induction false} AtRank(endpoints: Doc, i: nat)
    requires i < |endpoints|
    ensures var at := At(endpoints, PlaceOf(endpoints[i]));
      Rank(endpoints, i) < |at| && at[Rank(endpoints, i)] == endpoints[i]
  {
    var place := PlaceOf(endpoints[i]);
    assert endpoints == endpoints[..i] + endpoints[i..];
    AtAppend(endpoints[..i], endpoints[i..], place);
  }

  lemma {:induction false} RankGrows(endpoints: Doc, i: nat, j: nat)
    requires i < j < |endpoints| && PlaceOf(endpoints[i]) == PlaceOf(endpoints[j])
    ensures Rank(endpoints, i) < Rank(endpoints, j)
  {
    var place := PlaceOf(endpoints[i]);
    assert endpoints[..j] == endpoints[..i] + endpoints[i..j];
    AtAppend(endpoints[..i], endpoints[i..j], place);
    assert endpoints[i..j][0] == endpoints[i];
  }

  lemma {:induction false} RankOnto(endpoints: Doc, place: Place, k: nat) returns (i: nat)
    requires k < |At(endpoints, place)|
    ensures i < |endpoints| && PlaceOf(endpoints[i]) == place && Rank(endpoints, i) == k
  {
    var front, e := endpoints[..|endpoints| - 1], endpoints[|endpoints| - 1];
    assert endpoints == front + [e];
    AtMore(front, e, place);
    if k < |At(front, place)| {
      i := RankOnto(front, place, k);
      assert endpoints[..i] == front[..i];
    } else {
      i := |front|;
      assert endpoints[..i] == front;
    }
  }

  /**
   Every endpoint's operation is described at its own place, at its own rank among the
   endpoints of that place; and the first operation's own fields stand unchanged.
   */
  lemma {:induction false} EveryOperationInPlace(paths: Paths, endpoints: Doc, i: nat)
    requires Holds(paths, endpoints) && i < |endpoints|
    ensures var slot := SlotAt(paths, PlaceOf(endpoints[i]));
      && slot.Some? && Rank(endpoints, i) < |Described(slot.value)|
      && Described(slot.value)[Rank(endpoints, i)] == OperationFor(endpoints[i])
      && (Rank(endpoints, i) == 0 ==> slot.value.own == OperationFor(endpoints[i]))
  {
    AtRank(endpoints, i);
  }

  /** And whatever is described is the operation of exactly one endpoint: nothing is invented or repeated. */
  lemma {:induction false} EveryDescribedOperationIsAnEndpoints(paths: Paths, endpoints: Doc, place: Place, k: nat)
    returns (i: nat)
    requires Holds(paths, endpoints) && SlotAt(paths, place).Some?
    requires k < |Described(SlotAt(paths, place).value)|
    ensures i < |endpoints| && PlaceOf(endpoints[i]) == place && Rank(endpoints, i) == k
    ensures Described(SlotAt(paths, place).value)[k] == OperationFor(endpoints[i])
    ensures forall j | 0 <= j < |endpoints| && PlaceOf(endpoints[j]) == place && j != i :: Rank(endpoints, j) != k
  {
    assert |Described(SlotFor(At(endpoints, place)))| == |At(endpoints, place)|;
    i := RankOnto(endpoints, place, k);
    EveryOperationInPlace(paths, endpoints, i);
    forall j | 0 <= j < |endpoints| && PlaceOf(endpoints[j]) == place && j != i ensures Rank(endpoints, j) != k {
      if i < j {
        RankGrows(endpoints, i, j);
      } else {
        RankGrows(endpoints, j, i);
      }
    }
  }

  // ----- components and checks

  function SchemasOf(e: EndpointDoc): seq<SchemaDoc> {
    (if e.requestBody.Some? then [e.requestBody.value.schema] else [])
    + (if e.responseSchema.Some? then [e.responseSchema.value] else [])
  }

  function SchemaDocs(doc: Doc): seq<SchemaDoc> {
    if doc == [] then [] else SchemasOf(doc[0]) + SchemaDocs(doc[1..])
  }

  /** The request body's schema first, then the response's. */
  lemma {:induction false} SchemaDocsMore(doc: Doc, e: EndpointDoc)
    ensures SchemaDocs(doc + [e]) == SchemaDocs(doc)
      + (if e.requestBody.Some? then [e.requestBody.value.schema] else [])
      + (if e.responseSchema.Some? then [e.responseSchema.value] else [])
  {
    var request := if e.requestBody.Some? then [e.requestBody.value.schema] else [];
    var response := if e.responseSchema.Some? then [e.responseSchema.value] else [];
    if doc == [] {
      assert [] + [e] == [e] && [e][1..] == [];
      assert SchemasOf(e) + [] == SchemasOf(e);
    } else {
      assert (doc + [e])[1..] == doc[1..] + [e];
      SchemaDocsMore(doc[1..], e);
      Assoc5([], SchemasOf(doc[0]), SchemaDocs(doc[1..]), request, response);
      Assoc(SchemaDocs(doc[1..]), request, response);
    }
  }

  predicate Registers(s: SchemaDoc, name: Text) {
    s.component == Some(name) && s.body.Some?
  }

  /** The first body registered under a name. */
  function FirstBody(schemas: seq<SchemaDoc>, name: Text): Option<Schema> {
    if schemas == [] then None
    else if Registers(schemas[0], name) then schemas[0].body
    else FirstBody(schemas[1..], name)
  }

  lemma {:induction false} FirstBodyMore(schemas: seq<SchemaDoc>, s: SchemaDoc, name: Text)
    ensures FirstBody(schemas + [s], name)
         == if FirstBody(schemas, name).Some? then FirstBody(schemas, name)
            else if Registers(s, name) then s.body else None
  {
    if schemas == [] {
      assert [] + [s] == [s] && [s][1..] == [];
    } else {
      assert (schemas + [s])[1..] == schemas[1..] + [s];
      FirstBodyMore(schemas[1..], s, name);
    }
  }

  type Components = map<Text, Schema>

  /** A component for every registered name, with the first body registered under it. */
  ghost predicate Lists(components: Components, schemas: seq<SchemaDoc>) {
    forall name ::
      if FirstBody(schemas, name).None? then name !in components
      else name in components && components[name] == FirstBody(schemas, name).value
  }

  method ComponentSchemas(schemas: seq<SchemaDoc>) returns (components: Components)
    ensures Lists(components, schemas)
  {
    components := map[];
    for i := 0 to |schemas|
      invariant Lists(components, schemas[..i])
    {
      var s := schemas[i];
      assert schemas[..i + 1] == schemas[..i] + [s];
      ListsMore(components, schemas[..i], s);
      if s.component.Some? && s.body.Some? && s.component.value !in components {
        components := components[s.component.value := s.body.value];
      }
    }
    assert schemas[..|schemas|] == schemas;
  }

  lemma {:induction false} ListsMore(components: Components, schemas: seq<SchemaDoc>, s: SchemaDoc)
    requires Lists(components, schemas)
    ensures Lists(if s.component.Some? && s.body.Some? && s.component.value !in components
                  then components[s.component.value := s.body.value] else components, schemas + [s])
  {
    forall name
      ensures FirstBody(schemas + [s], name)
           == if FirstBody(schemas, name).Some? then FirstBody(schemas, name)
              else if Registers(s, name) then s.body else None
    {
      FirstBodyMore(schemas, s, name);
    }
  }

  datatype OpenApiError = DuplicateOperationId(id: Text) | DuplicateSchemaName(name: Text)

  /** All bodies registered under one name are the same. */
  predicate Consistent(schemas: seq<SchemaDoc>) {
    forall s <- schemas, t <- schemas ::
      s.component.Some? && s.component == t.component && s.body.Some? && t.body.Some? ==> s.body == t.body
  }

  lemma {:induction false} FirstBodyRegistered(schemas: seq<SchemaDoc>, name: Text)
    ensures FirstBody(schemas, name).Some? <==> exists s <- schemas :: Registers(s, name)
    ensures FirstBody(schemas, name).Some? ==>
      exists s <- schemas :: Registers(s, name) && s.body == FirstBody(schemas, name)
  {
    if schemas != [] {
      FirstBodyRegistered(schemas[1..], name);
      FirstAndRest(schemas);
    }
  }

  lemma {:induction false} ConsistentMore(schemas: seq<SchemaDoc>, s: SchemaDoc)
    requires Consistent(schemas) && s.component.Some? && s.body.Some?
    ensures var first := FirstBody(schemas, s.component.value);
      Consistent(schemas + [s]) <==> first.None? || first == s.body
  {
    var name := s.component.value;
    FirstBodyRegistered(schemas, name);
    var first, more := FirstBody(schemas, name), schemas + [s];
    if first.Some? {
      var f :| f in schemas && Registers(f, name) && f.body == first;
      assert f in more && s in more;
      if first == s.body {
        forall t <- schemas | Registers(t, name) ensures t.body == s.body {
          assert t.body == f.body;
        }
      }
    }
  }

  lemma {:induction false} ConsistentSkips(schemas: seq<SchemaDoc>, s: SchemaDoc)
    requires s.component.None? || s.body.None?
    ensures Consistent(schemas + [s]) <==> Consistent(schemas)
  {
    var more := schemas + [s];
    assert forall t <- schemas :: t in more;
  }

  lemma {:induction false} ConsistentPrefix(schemas: seq<SchemaDoc>, i: nat)
    requires i <= |schemas|
    ensures Consistent(schemas) ==> Consistent(schemas[..i])
  {}

  method CheckSchemaComponents(schemas: seq<SchemaDoc>) returns (r: Result<(), OpenApiError>)
    ensures r.Ok? <==> Consistent(schemas)
    ensures r.Err? ==> r.error.DuplicateSchemaName?
    ensures r.Err? ==> exists s <- schemas, t <- schemas ::
      Registers(s, r.error.name) && Registers(t, r.error.name) && s.body != t.body
  {
    var seen: Components := map[];
    for i := 0 to |schemas|
      invariant Lists(seen, schemas[..i]) && Consistent(schemas[..i])
    {
      var s := schemas[i];
      assert schemas[..i + 1] == schemas[..i] + [s];
      ListsMore(seen, schemas[..i], s);
      if s.component.Some? && s.body.Some? {
        var name := s.component.value;
        ConsistentMore(schemas[..i], s);
        if name in seen {
          if seen[name] != s.body.value {
            FirstBodyRegistered(schemas[..i], name);
            ConsistentPrefix(schemas, i + 1);
            assert s in schemas && Registers(s, name);
            return Err(DuplicateSchemaName(name));
          }
        } else {
          seen := seen[name := s.body.value];
        }
      } else {
        ConsistentSkips(schemas[..i], s);
      }
    }
    assert schemas[..|schemas|] == schemas;
    r := Ok(());
  }

  /** No two of the first `n` endpoints have the same operation id. */
  predicate IdsApart(doc: Doc, n: nat)
    requires n <= |doc|
  {
    forall i, j :: 0 <= i < j < n && doc[i].operationId.Some? ==> doc[i].operationId != doc[j].operationId
  }

  /** An id that an endpoint shares with one before it. */
  predicate RepeatsAt(doc: Doc, id: Text, i: nat, j: nat) {
    i < j < |doc| && doc[i].operationId == Some(id) && doc[j].operationId == Some(id)
  }

  /** Passes exactly when no id is given twice, and otherwise names the first that is. */
  method CheckOperationIds(doc: Doc) returns (r: Result<(), OpenApiError>)
    ensures r.Ok? <==> IdsApart(doc, |doc|)
    ensures r.Err? ==> r.error.DuplicateOperationId?
    ensures r.Err? ==> exists i: nat, j: nat :: RepeatsAt(doc, r.error.id, i, j) && IdsApart(doc, j)
  {
    var seen: set<Text> := {};
    for k := 0 to |doc|
      invariant IdsApart(doc, k)
      invariant forall i :: 0 <= i < k && doc[i].operationId.Some? ==> doc[i].operationId.value in seen
      invariant forall id <- seen :: exists i :: 0 <= i < k && doc[i].operationId == Some(id)
    {
      if doc[k].operationId.Some? {
        var id := doc[k].operationId.value;
        if id in seen {
          ghost var i :| 0 <= i < k && doc[i].operationId == Some(id);
          assert RepeatsAt(doc, id, i, k);
          return Err(DuplicateOperationId(id));
        }
        seen := seen + {id};
      }
    }
    r := Ok(());
  }

  // ----- the document

  datatype Document = Document(paths: Paths, components: Components)

  method ToOpenApi(doc: Doc) returns (document: Document)
    ensures Holds(document.paths, Visible(doc)) && Lists(document.components, SchemaDocs(doc))
  {
    var paths := ToPaths(doc);
    var components := ComponentSchemas(SchemaDocs(doc));
    document := Document(paths, components);
  }

  method ToCheckedOpenApi(doc: Doc) returns (r: Result<Document, OpenApiError>)
    ensures r.Ok? <==> IdsApart(doc, |doc|) && Consistent(SchemaDocs(doc))
    ensures r.Err? ==> (r.error.DuplicateOperationId? <==> !IdsApart(doc, |doc|))
    ensures r.Ok? ==> Holds(r.value.paths, Visible(doc)) && Lists(r.value.components, SchemaDocs(doc))
  {
    var ids := CheckOperationIds(doc);
    if ids.Err? {
      return Err(ids.error);
    }
    var schemas := CheckSchemaComponents(SchemaDocs(doc));
    if schemas.Err? {
      return Err(schemas.error);
    }
    var document := ToOpenApi(doc);
    r := Ok(document);
  }

  // ----- references resolve

  predicate Bodied(schemas: seq<SchemaDoc>) {
    forall s <- schemas :: s.component.Some? ==> s.body.Some?
  }

  /** A reference to the schema leads to the schema's own body. */
  predicate Resolves(s: SchemaDoc, components: Components) {
    s.component.Some? ==>
      s.body.Some? && s.component.value in components && components[s.component.value] == s.body.value
  }

  lemma {:induction false} CheckedResolve(components: Components, schemas: seq<SchemaDoc>, s: SchemaDoc)
    requires Lists(components, schemas) && Consistent(schemas) && Bodied(schemas) && s in schemas
    ensures Resolves(s, components)
  {
    if s.component.Some? {
      var name := s.component.value;
      FirstBodyRegistered(schemas, name);
      assert Registers(s, name);
      var f :| f in schemas && Registers(f, name) && f.body == FirstBody(schemas, name);
      assert f.body == s.body;
    }
  }

  /** All named schemas resolve to themselves exactly when the schema check passes and every one has a body. */
  lemma {:induction false} ResolveIff(components: Components, schemas: seq<SchemaDoc>)
    requires Lists(components, schemas)
    ensures (forall s <- schemas :: Resolves(s, components)) <==> Consistent(schemas) && Bodied(schemas)
  {
    if Consistent(schemas) && Bodied(schemas) {
      forall s <- schemas ensures Resolves(s, components) {
        CheckedResolve(components, schemas, s);
      }
    }
  }

  lemma {:induction false} SchemasListed(doc: Doc, e: EndpointDoc, s: SchemaDoc)
    requires e in doc && s in SchemasOf(e)
    ensures s in SchemaDocs(doc)
  {
    FirstAndRest(doc);
    if e != doc[0] {
      SchemasListed(doc[1..], e, s);
    }
  }

  lemma {:induction false} VisibleAreListed(doc: Doc, e: EndpointDoc)
    requires e in Visible(doc)
    ensures e in doc && e.raw.None?
  {
    FirstAndRest(doc);
    if e != doc[0] || e.raw.Some? {
      VisibleAreListed(doc[1..], e);
    }
  }

  /** The reference one part of an operation makes, if it makes one. */
  predicate Refers(content: Option<Content>, name: Text) {
    content.Some? && content.value.schema == Ref(name)
  }

  /** Every reference in the operation of an endpoint leads to that endpoint's own schema. */
  predicate OwnReferencesResolve(e: EndpointDoc, components: Components, name: Text) {
    && (Refers(OperationFor(e).body, name) ==>
      name in components && Some(components[name]) == e.requestBody.value.schema.body)
    && (Refers(OperationFor(e).response, name) ==>
      name in components && Some(components[name]) == e.responseSchema.value.body)
  }

  lemma {:induction false} ReferencesResolve(components: Components, doc: Doc, e: EndpointDoc, name: Text)
    requires Lists(components, SchemaDocs(doc)) && Consistent(SchemaDocs(doc)) && Bodied(SchemaDocs(doc))
    requires e in doc
    ensures OwnReferencesResolve(e, components, name)
  {
    if Refers(OperationFor(e).body, name) {
      SchemasListed(doc, e, e.requestBody.value.schema);
      CheckedResolve(components, SchemaDocs(doc), e.requestBody.value.schema);
    }
    if Refers(OperationFor(e).response, name) {
      SchemasListed(doc, e, e.responseSchema.value);
      CheckedResolve(components, SchemaDocs(doc), e.responseSchema.value);
    }
  }

  /**
   The document is closed: once the schema check has passed and every named schema has a body,
   each operation it describes is an endpoint's, and its references lead to that endpoint's schemas.
   */
  lemma {:induction false} EmittedReferencesResolve(document: Document, doc: Doc, place: Place, k: nat, name: Text)
    returns (e: EndpointDoc)
    requires Holds(document.paths, Visible(doc)) && Lists(document.components, SchemaDocs(doc))
    requires Consistent(SchemaDocs(doc)) && Bodied(SchemaDocs(doc))
    requires SlotAt(document.paths, place).Some? && k < |Described(SlotAt(document.paths, place).value)|
    ensures e in doc && e.raw.None? && PlaceOf(e) == place
    ensures Described(SlotAt(document.paths, place).value)[k] == OperationFor(e)
    ensures OwnReferencesResolve(e, document.components, name)
  {
    var i := EveryDescribedOperationIsAnEndpoints(document.paths, Visible(doc), place, k);
    e := Visible(doc)[i];
    VisibleAreListed(doc, e);
    ReferencesResolve(document.components, doc, e, name);
  }
}
