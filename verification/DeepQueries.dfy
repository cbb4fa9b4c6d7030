/** Deep-object query parameters: `root[a][b]=value`. */
module DeepQueries {
  import opened Basics
  import opened TextLists
  import opened QueryCodec

  const OPEN: byte := 91
  const CLOSE: byte := 93

  datatype Entry = Entry(path: seq<Text>, value: Option<Text>)

  datatype DeepError = MissingOpeningBracket | MissingClosingBracket | UnexpectedTextAfterBracket

  function StripPrefix(s: Text, prefix: Text): Option<Text> {
    if prefix <= s then Some(s[|prefix|..]) else None
  }

  /** What follows the root in a key of this parameter. */
  function Suffix(root: Text, key: Text): Option<Text> {
    match StripPrefix(key, root)
    case None => None
    case Some(suffix) => if suffix == [] || suffix[0] == OPEN then Some(suffix) else None
  }

  function ParsePath(suffix: Text): Result<seq<Text>, DeepError>
    decreases |suffix|
  {
    if suffix == [] then Ok([])
    else if suffix[0] != OPEN then Err(MissingOpeningBracket)
    else
      match Find(suffix[1..], CLOSE)
      case None => Err(MissingClosingBracket)
      case Some(close) =>
        var rest := suffix[1..][close + 1..];
        if rest != [] && rest[0] != OPEN then Err(UnexpectedTextAfterBracket)
        else Prepend([suffix[1..][..close]], ParsePath(rest))
  }

  method ParsePathLoop(suffix: Text) returns (r: Result<seq<Text>, DeepError>)
    ensures r == ParsePath(suffix)
  {
    var rest := suffix;
    var segments: seq<Text> := [];
    PrependNothing(ParsePath(suffix));
    while rest != []
      invariant ParsePath(suffix) == Prepend(segments, ParsePath(rest))
      decreases |rest|
    {
      if rest[0] != OPEN {
        return Err(MissingOpeningBracket);
      }
      var afterOpen := rest[1..];
      var close := Position(afterOpen, CLOSE);
      if close.None? {
        return Err(MissingClosingBracket);
      }
      PrependTwice(segments, [afterOpen[..close.value]], ParsePath(afterOpen[close.value + 1..]));
      segments := segments + [afterOpen[..close.value]];
      rest := afterOpen[close.value + 1..];
      if rest != [] && rest[0] != OPEN {
        return Err(UnexpectedTextAfterBracket);
      }
    }
    assert segments + [] == segments;
    r := Ok(segments);
  }

  function ParseDeep(root: Text, query: seq<Pair>): Result<seq<Entry>, DeepError> {
    if query == [] then Ok([])
    else
      match Suffix(root, query[0].key)
      case None => ParseDeep(root, query[1..])
      case Some(suffix) =>
        match ParsePath(suffix)
        case Err(e) => Err(e)
        case Ok(path) =>
          Prepend([Entry(path, query[0].value)], ParseDeep(root, query[1..]))
  }

  method ParseDeepQuery(root: Text, query: seq<Pair>) returns (r: Result<seq<Entry>, DeepError>)
    ensures r == ParseDeep(root, query)
  {
    var entries: seq<Entry> := [];
    PrependNothing(ParseDeep(root, query));
    for i := 0 to |query|
      invariant ParseDeep(root, query) == Prepend(entries, ParseDeep(root, query[i..]))
    {
      assert query[i..][1..] == query[i + 1..];
      var suffix := Suffix(root, query[i].key);
      if suffix.Some? {
        var path := ParsePathLoop(suffix.value);
        if path.Err? {
          return Err(path.error);
        }
        PrependTwice(entries, [Entry(path.value, query[i].value)], ParseDeep(root, query[i + 1..]));
        entries := entries + [Entry(path.value, query[i].value)];
      }
    }
    assert entries + [] == entries;
    r := Ok(entries);
  }

  // ----- rendering

  function EncodedBrackets(path: seq<Text>): Text {
    if path == [] then [] else [OPEN] + (Encode(path[0]) + ([CLOSE] + EncodedBrackets(path[1..])))
  }

  function RenderKey(root: Text, path: seq<Text>): Text {
    Encode(root) + EncodedBrackets(path)
  }

  /** The printed key: the root and the segments are encoded, the brackets are not. */
  lemma {:induction false} RenderKeyMore(root: Text, path: seq<Text>, segment: Text)
    ensures RenderKey(root, []) == Encode(root)
    ensures RenderKey(root, path + [segment]) == RenderKey(root, path) + ['[' as int] + Encode(segment) + [']' as int]
  {
    assert Encode(root) + [] == Encode(root);
    BracketsMore(path, segment);
    Assoc5([], Encode(root), EncodedBrackets(path), [OPEN] + Encode(segment), [CLOSE]);
    Assoc(RenderKey(root, path), [OPEN], Encode(segment));
  }

  lemma {:induction false} BracketsMore(path: seq<Text>, segment: Text)
    ensures EncodedBrackets(path + [segment]) == EncodedBrackets(path) + ([OPEN] + Encode(segment) + [CLOSE])
  {
    var last := [OPEN] + Encode(segment) + [CLOSE];
    if path == [] {
      assert [] + [segment] == [segment] && [segment][1..] == [];
      assert EncodedBrackets([segment]) == [OPEN] + (Encode(segment) + ([CLOSE] + EncodedBrackets([])));
      assert [CLOSE] + [] == [CLOSE];
      Assoc([OPEN], Encode(segment), [CLOSE]);
      NothingInFront(last);
    } else {
      assert (path + [segment])[1..] == path[1..] + [segment];
      BracketsMore(path[1..], segment);
      var first, more := Encode(path[0]), EncodedBrackets(path[1..]);
      Assoc([CLOSE], more, last);
      Assoc(first, [CLOSE] + more, last);
      Assoc([OPEN], first + ([CLOSE] + more), last);
    }
  }

  method RenderDeepQueryKey(root: Text, path: seq<Text>) returns (key: Text)
    ensures key == RenderKey(root, path)
  {
    key := Encode(root);
    for i := 0 to |path|
      invariant key + EncodedBrackets(path[i..]) == RenderKey(root, path)
    {
      assert path[i..][1..] == path[i + 1..];
      Assoc5(key, [OPEN], Encode(path[i]), [CLOSE], EncodedBrackets(path[i + 1..]));
      key := key + [OPEN];
      key := key + Encode(path[i]);
      key := key + [CLOSE];
    }
    assert EncodedBrackets(path[|path|..]) == [];
  }

  function RenderEntry(root: Text, entry: Entry): Text {
    var key := RenderKey(root, entry.path);
    match entry.value
    case Some(v) => key + ([EQUALS] + Encode(v))
    case None => key
  }

  function RenderEntries(root: Text, entries: seq<Entry>): (pieces: seq<Text>)
    ensures |pieces| == |entries|
  {
    if entries == [] then [] else [RenderEntry(root, entries[0])] + RenderEntries(root, entries[1..])
  }

  // ----- which suffixes parse

  /** The decoded text of a path: one bracketed group per segment. */
  function Brackets(path: seq<Text>): Text {
    if path == [] then [] else [OPEN] + (path[0] + ([CLOSE] + Brackets(path[1..])))
  }

  ghost predicate Bracketable(path: seq<Text>) {
    forall segment <- path :: CLOSE !in segment
  }

  lemma {:induction false} ParseOneBracket(head: Text, more: Text)
    requires CLOSE !in head
    requires more == [] || more[0] == OPEN
    ensures ParsePath([OPEN] + (head + ([CLOSE] + more))) == Prepend([head], ParsePath(more))
  {
    AfterFirst(OPEN, head + ([CLOSE] + more));
    FindInConcat(head, CLOSE, more);
    AroundSeparator(head, CLOSE, more);
  }

  lemma {:induction false} ParseBrackets(path: seq<Text>)
    requires Bracketable(path)
    ensures ParsePath(Brackets(path)) == Ok(path)
  {
    if path != [] {
      var head, more := path[0], Brackets(path[1..]);
      ParseBrackets(path[1..]);
      ParseOneBracket(head, more);
      FirstAndRest(path);
    }
  }

  lemma {:induction false} ParsedIsBrackets(suffix: Text)
    ensures var r := ParsePath(suffix); r.Ok? ==> Bracketable(r.value) && suffix == Brackets(r.value)
    decreases |suffix|
  {
    var r := ParsePath(suffix);
    if r.Ok? && suffix != [] {
      var afterOpen := suffix[1..];
      var close := Find(afterOpen, CLOSE).value;
      var rest := afterOpen[close + 1..];
      ParsedIsBrackets(rest);
      AfterFirst(afterOpen[..close], ParsePath(rest).value);
      SplitAround(afterOpen, close);
      FirstAndRest(suffix);
    }
  }

  /** A suffix parses to `path` exactly when it is the bracketed text of `path`. */
  lemma {:induction false} ParsePathIff(suffix: Text, path: seq<Text>)
    ensures ParsePath(suffix) == Ok(path) <==> suffix == Brackets(path) && Bracketable(path)
  {
    ParsedIsBrackets(suffix);
    if Bracketable(path) {
      ParseBrackets(path);
    }
  }

  /** The decoded pair an entry travels as. */
  function EntryPair(root: Text, entry: Entry): Pair {
    Pair(root + Brackets(entry.path), entry.value)
  }

  /** The pairs whose key is the root, or the root and an opening bracket with anything after it. */
  function Rooted(root: Text, query: seq<Pair>): seq<Pair> {
    if query == [] then []
    else
      var key := query[0].key;
      (if root <= key && (|key| == |root| || key[|root|] == 91) then [query[0]] else []) + Rooted(root, query[1..])
  }

  /** The entries are those of the pairs under the root, one for one: each key is the root and the bracketed path. */
  ghost predicate EntriesOf(root: Text, pairs: seq<Pair>, entries: seq<Entry>) {
    && |entries| == |pairs|
    && forall i :: 0 <= i < |pairs| ==> pairs[i] == EntryPair(root, entries[i]) && Bracketable(entries[i].path)
  }

  lemma {:induction false} OneMoreEntry(root: Text, pair: Pair, pairs: seq<Pair>, entries: seq<Entry>)
    ensures EntriesOf(root, [pair] + pairs, entries)
      <==> entries != [] && pair == EntryPair(root, entries[0]) && Bracketable(entries[0].path)
           && EntriesOf(root, pairs, entries[1..])
  {
    if entries != [] && EntriesOf(root, [pair] + pairs, entries) {
      assert forall i :: 0 <= i < |pairs| ==> pairs[i] == ([pair] + pairs)[i + 1];
    }
  }

  lemma {:induction false} SplitsAtRoot(root: Text, key: Text, path: seq<Text>)
    requires root <= key
    ensures key[|root|..] == Brackets(path) <==> key == root + Brackets(path)
  {}

  lemma {:induction false} PrependIs(path: Result<seq<Text>, DeepError>, value: Option<Text>,
        rest: Result<seq<Entry>, DeepError>, entries: seq<Entry>)
    requires path.Ok? && entries != []
    ensures Prepend([Entry(path.value, value)], rest) == Ok(entries)
      <==> entries[0] == Entry(path.value, value) && rest == Ok(entries[1..])
  {
    FirstAndRest(entries);
    if rest.Ok? {
      AfterFirst(Entry(path.value, value), rest.value);
    }
  }

  lemma {:induction false} FirstEntryParses(root: Text, pair: Pair, rest: Result<seq<Entry>, DeepError>,
        entries: seq<Entry>)
    requires root <= pair.key && entries != []
    ensures var path := ParsePath(pair.key[|root|..]);
      path.Ok? && Prepend([Entry(path.value, pair.value)], rest) == Ok(entries)
      <==> pair == EntryPair(root, entries[0]) && Bracketable(entries[0].path) && rest == Ok(entries[1..])
  {
    var path := ParsePath(pair.key[|root|..]);
    ParsePathIff(pair.key[|root|..], entries[0].path);
    SplitsAtRoot(root, pair.key, entries[0].path);
    if path.Ok? {
      PrependIs(path, pair.value, rest, entries);
    }
  }

  /** Parsing gives exactly these entries, or fails when there are none such. */
  lemma {:induction false} ParseDeepIff(root: Text, query: seq<Pair>, entries: seq<Entry>)
    ensures ParseDeep(root, query) == Ok(entries) <==> EntriesOf(root, Rooted(root, query), entries)
  {
    if query != [] {
      if Suffix(root, query[0].key).None? {
        ParseDeepIff(root, query[1..], entries);
        NothingInFront(Rooted(root, query[1..]));
      } else {
        OneMoreEntry(root, query[0], Rooted(root, query[1..]), entries);
        if entries != [] {
          ParseDeepIff(root, query[1..], entries[1..]);
          FirstEntryParses(root, query[0], ParseDeep(root, query[1..]), entries);
        }
      }
    }
  }

  /** Which error: a bracket that is not closed, or text where a bracket should open, after any groups that are. */
  lemma {:induction false} ParsePathFails(path: seq<Text>, tail: Text)
    requires Bracketable(path) && tail != []
    ensures tail[0] == '[' as int && ']' as int !in tail ==>
      ParsePath(Brackets(path) + tail) == Err(MissingClosingBracket)
    ensures tail[0] != '[' as int ==>
      ParsePath(Brackets(path) + tail) == Err(if path == [] then MissingOpeningBracket else UnexpectedTextAfterBracket)
  {
    if path == [] {
      NothingInFront(tail);
    } else {
      var head, more := path[0], Brackets(path[1..]) + tail;
      assert Brackets(path) + tail == [OPEN] + (head + ([CLOSE] + more)) by {
        Assoc([CLOSE], Brackets(path[1..]), tail);
        Assoc(head, [CLOSE] + Brackets(path[1..]), tail);
        Assoc([OPEN], head + ([CLOSE] + Brackets(path[1..])), tail);
      }
      ParsePathFails(path[1..], tail);
      AfterFirst(OPEN, head + ([CLOSE] + more));
      FindInConcat(head, CLOSE, more);
      AroundSeparator(head, CLOSE, more);
    }
  }

  lemma {:induction false} PathMissesNoOpening(suffix: Text)
    requires suffix == [] || suffix[0] == OPEN
    ensures ParsePath(suffix) != Err(MissingOpeningBracket)
    decreases |suffix|
  {
    if suffix != [] && Find(suffix[1..], CLOSE).Some? {
      var rest := suffix[1..][Find(suffix[1..], CLOSE).value + 1..];
      if rest == [] || rest[0] == OPEN {
        PathMissesNoOpening(rest);
      }
    }
  }

  /** The first of the three errors is never reported for a whole query. */
  lemma {:induction false} OpeningBracketNeverMissing(root: Text, query: seq<Pair>)
    ensures ParseDeep(root, query) != Err(MissingOpeningBracket)
  {
    if query != [] {
      OpeningBracketNeverMissing(root, query[1..]);
      var suffix := Suffix(root, query[0].key);
      if suffix.Some? {
        PathMissesNoOpening(suffix.value);
      }
    }
  }

  // ----- round trip

  lemma {:induction false} EncodedBracketsSafe(path: seq<Text>)
    ensures AMPERSAND !in EncodedBrackets(path) && EQUALS !in EncodedBrackets(path) && PLUS !in EncodedBrackets(path)
    ensures EncodedBrackets(path) == [] <==> path == []
  {
    if path != [] {
      EncodedAvoids(path[0], AMPERSAND);
      EncodedAvoids(path[0], EQUALS);
      EncodedAvoids(path[0], PLUS);
      EncodedBracketsSafe(path[1..]);
    }
  }

  lemma {:induction false} DecodePlain(b: byte, t: Text)
    requires b != PERCENT
    ensures PercentDecode([b] + t) == [b] + PercentDecode(t)
  {
    AfterFirst(b, t);
  }

  lemma {:induction false} DecodeBrackets(path: seq<Text>)
    ensures PercentDecode(EncodedBrackets(path)) == Brackets(path)
  {
    if path != [] {
      DecodeBrackets(path[1..]);
      var more := EncodedBrackets(path[1..]);
      calc {
        PercentDecode(EncodedBrackets(path));
        PercentDecode([OPEN] + (Encode(path[0]) + ([CLOSE] + more)));
        { DecodePlain(OPEN, Encode(path[0]) + ([CLOSE] + more)); }
        [OPEN] + PercentDecode(Encode(path[0]) + ([CLOSE] + more));
        { DecodeEncoded(path[0], [CLOSE] + more); }
        [OPEN] + (path[0] + PercentDecode([CLOSE] + more));
        { DecodePlain(CLOSE, more); }
        [OPEN] + (path[0] + ([CLOSE] + PercentDecode(more)));
        Brackets(path);
      }
    }
  }

  lemma {:induction false} DecodeKey(root: Text, path: seq<Text>)
    ensures DecodeComponent(RenderKey(root, path)) == root + Brackets(path)
    ensures AMPERSAND !in RenderKey(root, path) && EQUALS !in RenderKey(root, path)
    ensures RenderKey(root, path) == [] <==> root == [] && path == []
  {
    EncodedAvoids(root, AMPERSAND);
    EncodedAvoids(root, EQUALS);
    EncodedAvoids(root, PLUS);
    EncodedIsSafe(root);
    EncodedBracketsSafe(path);
    DecodeEncoded(root, EncodedBrackets(path));
    DecodeBrackets(path);
  }

  lemma {:induction false} ParseRenderedEntry(root: Text, entry: Entry)
    ensures ParsePair(RenderEntry(root, entry)) == EntryPair(root, entry)
    ensures AMPERSAND !in RenderEntry(root, entry)
    ensures RenderEntry(root, entry) == [] <==> root == [] && entry == Entry([], None)
  {
    var key := RenderKey(root, entry.path);
    DecodeKey(root, entry.path);
    if entry.value.Some? {
      ParseKeyValue(key, entry.value.value);
    }
  }

  ghost predicate Renderable(root: Text, entries: seq<Entry>) {
    forall e <- entries :: Bracketable(e.path) && !(root == [] && e == Entry([], None))
  }

  lemma {:induction false} SuffixOfKey(root: Text, suffix: Text)
    requires suffix == [] || suffix[0] == OPEN
    ensures Suffix(root, root + suffix) == Some(suffix)
  {
    assert (root + suffix)[|root|..] == suffix;
  }

  lemma {:induction false} ParsedAtMost(root: Text, pieces: seq<Text>)
    ensures var r := ParseDeep(root, ParsePieces(pieces)); r.Ok? ==> |r.value| <= |pieces|
  {
    if pieces != [] {
      ParsedAtMost(root, pieces[1..]);
      if pieces[0] != [] {
        AfterFirst(ParsePair(pieces[0]), ParsePieces(pieces[1..]));
      }
    }
  }

  lemma {:induction false} ParseRenderedEntries(root: Text, entries: seq<Entry>)
    ensures ParseDeep(root, ParsePieces(RenderEntries(root, entries))) == Ok(entries)
       <==> Renderable(root, entries)
    ensures forall piece <- RenderEntries(root, entries) :: AMPERSAND !in piece
  {
    if entries != [] {
      var e, rest := entries[0], RenderEntries(root, entries[1..]);
      ParseRenderedEntry(root, e);
      ParseRenderedEntries(root, entries[1..]);
      AfterFirst(RenderEntry(root, e), rest);
      FirstAndRest(entries);
      assert Renderable(root, entries) <==> Renderable(root, [e]) && Renderable(root, entries[1..]);
      if root == [] && e == Entry([], None) {
        ParsedAtMost(root, rest);
        assert e in entries;
      } else {
        ParseFirstEntry(root, e, ParsePieces(rest));
        ParsePathIff(Brackets(e.path), e.path);
        if Bracketable(e.path) && ParseDeep(root, ParsePieces(rest)).Ok? {
          AfterFirst(e, ParseDeep(root, ParsePieces(rest)).value);
        }
      }
    }
  }

  lemma {:induction false} ParseFirstEntry(root: Text, e: Entry, query: seq<Pair>)
    ensures var parsed := ParsePath(Brackets(e.path));
      ParseDeep(root, [EntryPair(root, e)] + query) ==
        if parsed.Err? then Err(parsed.error)
        else Prepend([Entry(parsed.value, e.value)], ParseDeep(root, query))
  {
    AfterFirst(EntryPair(root, e), query);
    SuffixOfKey(root, Brackets(e.path));
  }

  /**
   Rendering, joining, splitting and parsing return the entries in order, precisely
   when no segment holds a closing bracket and no entry is a root-only flag of an empty root.
   */
  lemma {:induction false} DeepQueryRoundTripIff(root: Text, entries: seq<Entry>)
    ensures ParseDeep(root, ParsePairs(Join(RenderEntries(root, entries), AMPERSAND))) == Ok(entries)
       <==> Renderable(root, entries)
  {
    ParseRenderedEntries(root, entries);
    if entries == [] {
      assert Split([], AMPERSAND) == [[]];
      assert ParsePieces([[]]) == ParsePieces([[]][1..]);
    } else {
      SplitJoin(RenderEntries(root, entries), AMPERSAND);
    }
  }
}
