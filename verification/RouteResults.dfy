/** The three-way routing outcome and the priority order on recoverable errors. */
module RouteResults {
  import opened Basics

  /** What an error carries besides its status: reason phrase, body and headers. */
  datatype Detail =
    | Plain
    | BadCapture(name: Text, why: Text)
    | BadCaptureAll(name: Text, why: Text)
    | MissingQuery(name: Text)
    | BadQuery(name: Text)
    | BadDeepQuery(name: Text)
    | MissingHeader(name: Text)
    | BadHeader(name: Text)
    | BadBody
    | UnreadableBody
    | BodyNotBuffered
    | BodyConsumed
    | BodyAlreadyBuffered
    | Realm(realm: Text)
    | NotConfigured
    | Custom(body: Text)

  datatype ServerError = ServerError(code: nat, detail: Detail)

  datatype RouteResult<+T> = Route(value: T) | Fail(error: ServerError) | FailFatal(error: ServerError)

  const NOT_FOUND := ServerError(404, Plain)

  /** `404 < 405 < 401 < 415 < 406 < others < 400`. */
  function Priority(code: nat): nat {
    match code
    case 404 => 0
    case 405 => 1
    case 401 => 2
    case 415 => 3
    case 406 => 4
    case 400 => 6
    case _ => 5
  }

  function CombineFail(best: Option<ServerError>, new_: ServerError): ServerError {
    match best
    case None => new_
    case Some(b) => if Priority(new_.code) > Priority(b.code) then new_ else b
  }

  /** The best of two optional errors, `None` being the absence of any failure. */
  function CombineBest(a: Option<ServerError>, b: Option<ServerError>): Option<ServerError> {
    match b
    case None => a
    case Some(e) => Some(CombineFail(a, e))
  }

  lemma {:induction false} CombineBestAssociative(a: Option<ServerError>, b: Option<ServerError>,
        c: Option<ServerError>)
    ensures CombineBest(CombineBest(a, b), c) == CombineBest(a, CombineBest(b, c))
  {}

  /** `e` is the earliest error of highest priority in `errors`. */
  ghost predicate IsBest(errors: seq<ServerError>, e: ServerError) {
    exists k :: IsBestAt(errors, e, k)
  }

  ghost predicate IsBestAt(errors: seq<ServerError>, e: ServerError, k: int) {
    && 0 <= k < |errors|
    && errors[k] == e
    && (forall j :: 0 <= j < |errors| ==> Priority(errors[j].code) <= Priority(e.code))
    && (forall j :: 0 <= j < k ==> Priority(errors[j].code) < Priority(e.code))
  }

  /** Folding `CombineFail` from the left, as the router does, over a list of failures. */
  function BestOf(best: Option<ServerError>, errors: seq<ServerError>): Option<ServerError>
    decreases errors
  {
    if errors == [] then best else BestOf(Some(CombineFail(best, errors[0])), errors[1..])
  }

  /** The fold keeps exactly the earliest error of highest priority. */
  lemma {:induction false} BestOfIsBest(seen: seq<ServerError>, best: ServerError, errors: seq<ServerError>)
    requires IsBest(seen, best)
    ensures BestOf(Some(best), errors).Some?
    ensures IsBest(seen + errors, BestOf(Some(best), errors).value)
    decreases errors
  {
    if errors == [] {
      assert seen + errors == seen;
    } else {
      var next := CombineFail(Some(best), errors[0]);
      var seen' := seen + [errors[0]];
      var k :| IsBestAt(seen, best, k);
      assert IsBestAt(seen', next, if next == best then k else |seen|);
      BestOfIsBest(seen', next, errors[1..]);
      assert seen' + errors[1..] == seen + errors;
    }
  }

  // ----- which failure a client sees, told by status code

  datatype ErrorClass = Exactly(code: nat) | AnyOther

  predicate InClass(c: ErrorClass, code: nat) {
    match c
    case Exactly(k) => code == k
    case AnyOther => code != 400 && code != 406 && code != 415 && code != 401 && code != 405 && code != 404
  }

  /** The classes of errors, the one that wins first. */
  const RANKED: seq<ErrorClass> :=
    [Exactly(400), AnyOther, Exactly(406), Exactly(415), Exactly(401), Exactly(405), Exactly(404)]

  /** `e` is the first error whose code is in the class. */
  ghost predicate FirstIn(errors: seq<ServerError>, e: ServerError, c: ErrorClass) {
    exists k :: FirstInAt(errors, e, c, k)
  }

  ghost predicate FirstInAt(errors: seq<ServerError>, e: ServerError, c: ErrorClass, k: int) {
    && 0 <= k < |errors| && errors[k] == e && InClass(c, e.code)
    && forall j :: 0 <= j < k ==> !InClass(c, errors[j].code)
  }

  ghost predicate NoneIn(errors: seq<ServerError>, c: ErrorClass) {
    forall j :: 0 <= j < |errors| ==> !InClass(c, errors[j].code)
  }

  /** `e` is the first error of the first class, in this order, that any error belongs to. */
  ghost predicate Wins(errors: seq<ServerError>, e: ServerError) {
    exists r :: 0 <= r < |RANKED| && WinsAt(errors, e, r)
  }

  ghost predicate WinsAt(errors: seq<ServerError>, e: ServerError, r: nat)
    requires r < |RANKED|
  {
    FirstIn(errors, e, RANKED[r]) && forall q :: 0 <= q < r ==> NoneIn(errors, RANKED[q])
  }

  /** The class of a code, as its place in the order. */
  function ClassOf(code: nat): (r: nat)
    ensures r < |RANKED| && InClass(RANKED[r], code)
    ensures forall q :: 0 <= q < |RANKED| && InClass(RANKED[q], code) ==> q == r
    ensures Priority(code) == 6 - r
  {
    if code == 400 then 0
    else if code == 406 then 2
    else if code == 415 then 3
    else if code == 401 then 4
    else if code == 405 then 5
    else if code == 404 then 6
    else 1
  }

  /** The earliest error of highest priority is the one that wins by its code. */
  lemma {:induction false} BestWins(errors: seq<ServerError>, e: ServerError)
    requires IsBest(errors, e)
    ensures Wins(errors, e)
  {
    var k :| IsBestAt(errors, e, k);
    var r := ClassOf(e.code);
    forall j | 0 <= j < |errors| ensures Priority(errors[j].code) == 6 - ClassOf(errors[j].code) {
      var c := ClassOf(errors[j].code);
    }
    assert FirstInAt(errors, e, RANKED[r], k);
    forall q | 0 <= q < r ensures NoneIn(errors, RANKED[q]) {
      forall j | 0 <= j < |errors| ensures !InClass(RANKED[q], errors[j].code) {
        assert ClassOf(errors[j].code) >= r;
      }
    }
    assert WinsAt(errors, e, r);
  }
}
