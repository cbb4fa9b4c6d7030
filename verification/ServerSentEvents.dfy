/** Server-sent events: their text form, its parser, and the round trip through a stream. */
module ServerSentEvents {
  import opened Basics
  import opened TextLists
  import opened Framing
  import opened ClientStream
  import opened Delivery

  datatype ServerEvent = ServerEvent(comment: Option<Text>, event: Option<Text>, id: Option<Text>, data: Text)

  const SPACE: byte := 32
  const EVENT: Text := [101, 118, 101, 110, 116]
  const ID: Text := [105, 100]
  const DATA: Text := [100, 97, 116, 97]
  const BOM: Text := [0xEF, 0xBB, 0xBF]

  // ----- rendering

  /** `name: value`; a comment is a field without a name. */
  function FieldLine(name: Text, value: Text): Text {
    name + ([COLON] + ([SPACE] + value))
  }

  function FieldLines(name: Text, values: seq<Text>): (lines: seq<Text>)
    ensures |lines| == |values|
    ensures forall i :: 0 <= i < |lines| ==> lines[i] == FieldLine(name, values[i])
  {
    if values == [] then [] else [FieldLine(name, values[0])] + FieldLines(name, values[1..])
  }

  predicate RendersData(e: ServerEvent) {
    e.data != [] || (e.comment.None? && e.event.None? && e.id.None?)
  }

  function OptionalLines(name: Text, value: Option<Text>): seq<Text> {
    if value.None? then [] else [FieldLine(name, value.value)]
  }

  function CommentLines(e: ServerEvent): seq<Text> {
    if e.comment.None? then [] else FieldLines([], Split(e.comment.value, LF))
  }

  function DataLines(e: ServerEvent): seq<Text> {
    if RendersData(e) then FieldLines(DATA, Split(e.data, LF)) else []
  }

  /** The lines of an event, in the order they are sent. */
  function EventLines(e: ServerEvent): seq<Text> {
    CommentLines(e) + (OptionalLines(EVENT, e.event) + (OptionalLines(ID, e.id) + DataLines(e)))
  }

  function Terminated(lines: seq<Text>): Text {
    if lines == [] then [] else lines[0] + ([LF] + Terminated(lines[1..]))
  }

  /** The event block: its lines, each terminated, and a blank line. */
  function Render(e: ServerEvent): Text {
    Terminated(EventLines(e)) + [LF]
  }

  method PushLines(out: Text, name: Text, values: seq<Text>) returns (more: Text)
    ensures more == out + Terminated(FieldLines(name, values))
  {
    more := out;
    for i := 0 to |values|
      invariant more + Terminated(FieldLines(name, values[i..])) == out + Terminated(FieldLines(name, values))
    {
      assert values[i..][1..] == values[i + 1..];
      AfterFirst(FieldLine(name, values[i]), FieldLines(name, values[i + 1..]));
      var line := FieldLine(name, values[i]);
      Assoc(more, line, [LF] + Terminated(FieldLines(name, values[i + 1..])));
      Assoc(more + line, [LF], Terminated(FieldLines(name, values[i + 1..])));
      more := more + line;
      more := more + [LF];
    }
    assert more + [] == more;
  }

  lemma {:induction false} TerminatedAppend(xs: seq<Text>, ys: seq<Text>)
    ensures Terminated(xs + ys) == Terminated(xs) + Terminated(ys)
  {
    if xs == [] {
      assert xs + ys == ys;
    } else {
      TerminatedAppend(xs[1..], ys);
      assert xs + ys == [xs[0]] + (xs[1..] + ys);
      AfterFirst(xs[0], xs[1..] + ys);
      Assoc(xs[0], [LF] + Terminated(xs[1..]), Terminated(ys));
      Assoc([LF], Terminated(xs[1..]), Terminated(ys));
    }
  }

  method MimeRender(e: ServerEvent) returns (out: Text)
    ensures out == Render(e)
  {
    out := [];
    var comments := if e.comment.None? then [] else Split(e.comment.value, LF);
    out := PushLines(out, [], comments);
    var events := if e.event.None? then [] else [e.event.value];
    out := PushLines(out, EVENT, events);
    var ids := if e.id.None? then [] else [e.id.value];
    out := PushLines(out, ID, ids);
    var datas := if RendersData(e) then Split(e.data, LF) else [];
    out := PushLines(out, DATA, datas);
    OptionalFields(EVENT, e.event);
    OptionalFields(ID, e.id);
    FourBlocks(FieldLines([], comments), FieldLines(EVENT, events), FieldLines(ID, ids), FieldLines(DATA, datas));
    out := out + [LF];
  }

  lemma {:induction false} OptionalFields(name: Text, value: Option<Text>)
    ensures FieldLines(name, if value.None? then [] else [value.value]) == OptionalLines(name, value)
  {}

  lemma {:induction false} FourBlocks(a: seq<Text>, b: seq<Text>, c: seq<Text>, d: seq<Text>)
    ensures [] + Terminated(a) + Terminated(b) + Terminated(c) + Terminated(d) == Terminated(a + (b + (c + d)))
  {
    TerminatedAppend(a, b + (c + d));
    TerminatedAppend(b, c + d);
    TerminatedAppend(c, d);
    Assoc5([], Terminated(a), Terminated(b), Terminated(c), Terminated(d));
  }

  /** The lines behind one prefix, each ended by a line feed. */
  function Prefixed(prefix: Text, lines: seq<Text>): Text {
    if lines == [] then [] else prefix + lines[0] + ['\n' as int] + Prefixed(prefix, lines[1..])
  }

  /** `: `, `event: `, `id: ` and `data: `. */
  const COMMENT_PREFIX: Text := [58, 32]
  const EVENT_PREFIX: Text := [101, 118, 101, 110, 116, 58, 32]
  const ID_PREFIX: Text := [105, 100, 58, 32]
  const DATA_PREFIX: Text := [100, 97, 116, 97, 58, 32]

  lemma {:induction false} TerminatedFields(name: Text, prefix: Text, values: seq<Text>)
    requires prefix == name + [58, 32]
    ensures Terminated(FieldLines(name, values)) == Prefixed(prefix, values)
  {
    if values != [] {
      TerminatedFields(name, prefix, values[1..]);
      var value := values[0];
      AfterFirst(FieldLine(name, value), FieldLines(name, values[1..]));
      assert FieldLine(name, value) == prefix + value;
      Assoc(prefix + value, [LF], Prefixed(prefix, values[1..]));
    }
  }

  /** What an event looks like: comment, event, id and data; data only if there is any or nothing else. */
  lemma {:induction false} RenderIs(e: ServerEvent, comments: seq<Text>, events: seq<Text>, ids: seq<Text>,
        datas: seq<Text>)
    requires comments == if e.comment.Some? then Split(e.comment.value, '\n' as int) else []
    requires events == if e.event.Some? then [e.event.value] else []
    requires ids == if e.id.Some? then [e.id.value] else []
    requires datas == if e.data == [] && (e.comment.Some? || e.event.Some? || e.id.Some?) then []
                      else Split(e.data, '\n' as int)
    ensures Render(e) ==
      Prefixed(COMMENT_PREFIX, comments) + Prefixed(EVENT_PREFIX, events) + Prefixed(ID_PREFIX, ids)
      + Prefixed(DATA_PREFIX, datas) + ['\n' as int]
  {
    OptionalFields(EVENT, e.event);
    OptionalFields(ID, e.id);
    TerminatedFields([], COMMENT_PREFIX, comments);
    TerminatedFields(EVENT, EVENT_PREFIX, events);
    TerminatedFields(ID, ID_PREFIX, ids);
    TerminatedFields(DATA, DATA_PREFIX, datas);
    FourBlocks(FieldLines([], comments), FieldLines(EVENT, events), FieldLines(ID, ids), FieldLines(DATA, datas));
    NothingInFront(Terminated(FieldLines([], comments)));
  }

  // ----- parsing

  function StripBom(s: Text): Text {
    if BOM <= s then s[3..] else s
  }

  /** CRLF and lone CR become LF. */
  function Normalize(s: Text): (r: Text)
    ensures CR !in r
    ensures CR !in s ==> r == s
  {
    if s == [] then []
    else if s[0] != CR then [s[0]] + Normalize(s[1..])
    else if |s| > 1 && s[1] == LF then [LF] + Normalize(s[2..])
    else [LF] + Normalize(s[1..])
  }

  function StripSpace(s: Text): Text {
    if s != [] && s[0] == SPACE then s[1..] else s
  }

  datatype Fields = Fields(comments: seq<Text>, event: Option<Text>, id: Option<Text>, data: seq<Text>)

  function Feed(acc: Fields, line: Text): Fields {
    if line == [] then acc
    else if line[0] == COLON then acc.(comments := acc.comments + [StripSpace(line[1..])])
    else
      var colon := Find(line, COLON);
      var name := if colon.None? then line else line[..colon.value];
      var value := if colon.None? then [] else StripSpace(line[colon.value + 1..]);
      if name == EVENT then acc.(event := Some(value))
      else if name == ID then acc.(id := Some(value))
      else if name == DATA then acc.(data := acc.data + [value])
      else acc
  }

  function FeedAll(acc: Fields, lines: seq<Text>): Fields
    decreases lines
  {
    if lines == [] then acc else FeedAll(Feed(acc, lines[0]), lines[1..])
  }

  /** The lines of a block are taken in order, blank ones among them. */
  lemma {:induction false} FeedAllMore(acc: Fields, lines: seq<Text>, line: Text)
    ensures FeedAll(acc, lines + [line]) == Feed(FeedAll(acc, lines), line)
    decreases lines
  {
    if lines == [] {
      assert [] + [line] == [line] && [line][1..] == [];
    } else {
      assert (lines + [line])[1..] == lines[1..] + [line];
      FeedAllMore(Feed(acc, lines[0]), lines[1..], line);
    }
  }

  function Finish(acc: Fields): ServerEvent {
    ServerEvent(if acc.comments == [] then None else Some(Join(acc.comments, LF)),
                acc.event, acc.id, Join(acc.data, LF))
  }

  const NO_FIELDS := Fields([], None, None, [])

  /** The lines of a block; the empty piece after a final line break is skipped like any blank line. */
  function BlockLines(bytes: Text): seq<Text> {
    Split(Normalize(StripBom(bytes)), LF)
  }

  function Unrender(bytes: Text): ServerEvent {
    Finish(FeedAll(NO_FIELDS, BlockLines(bytes)))
  }

  method MimeUnrender(bytes: Text) returns (e: ServerEvent)
    ensures e == Unrender(bytes)
  {
    var lines := BlockLines(bytes);
    var acc := NO_FIELDS;
    for i := 0 to |lines|
      invariant FeedAll(acc, lines[i..]) == FeedAll(NO_FIELDS, lines)
    {
      assert lines[i..][1..] == lines[i + 1..];
      acc := Feed(acc, lines[i]);
    }
    e := Finish(acc);
  }

  // ----- what is read from text nobody printed

  /** Lines joined by any one kind of line end. */
  function Ended(lines: seq<Text>, end: Text): Text {
    if lines == [] then [] else if |lines| == 1 then lines[0] else lines[0] + (end + Ended(lines[1..], end))
  }

  lemma {:induction false} NormalizePlain(line: Text, rest: Text)
    requires CR !in line
    ensures Normalize(line + rest) == line + Normalize(rest)
  {
    if line == [] {
      NothingInFront(rest);
      NothingInFront(Normalize(rest));
    } else {
      FirstAndRest(line);
      Assoc([line[0]], line[1..], rest);
      AfterFirst(line[0], line[1..] + rest);
      NormalizePlain(line[1..], rest);
      Assoc([line[0]], line[1..], Normalize(rest));
    }
  }

  lemma {:induction false} NormalizeEnd(end: Text, rest: Text)
    requires end in [[10], [13], [13, 10]]
    requires end == [13] ==> rest == [] || rest[0] != 10
    ensures Normalize(end + rest) == [10] + Normalize(rest)
  {
    var s := end + rest;
    assert s[|end|..] == rest;
  }

  /** Line feeds, carriage returns and pairs of both end lines alike. */
  lemma {:induction false} LineEndsAlike(lines: seq<Text>, end: Text)
    requires lines != [] && forall line <- lines :: 10 !in line && 13 !in line
    requires end in [[10], [13], [13, 10]]
    ensures Split(Normalize(Ended(lines, end)), '\n' as int) == lines
  {
    EndedJoins(lines, end);
    SplitJoin(lines, LF);
  }

  lemma {:induction false} EndedJoins(lines: seq<Text>, end: Text)
    requires lines != [] && forall line <- lines :: 10 !in line && 13 !in line
    requires end in [[10], [13], [13, 10]]
    ensures Normalize(Ended(lines, end)) == Join(lines, 10)
    ensures end == [13] ==> 10 !in Ended(lines, end)
  {
    assert lines[0] in lines;
    if |lines| > 1 {
      EndedJoins(lines[1..], end);
      var rest := Ended(lines[1..], end);
      NormalizePlain(lines[0], end + rest);
      NormalizeEnd(end, rest);
    }
  }

  /** One byte order mark in front is dropped. */
  lemma {:induction false} MarkDropped(bytes: Text)
    ensures Unrender([0xEF, 0xBB, 0xBF] + bytes) == Finish(FeedAll(NO_FIELDS, Split(Normalize(bytes), LF)))
  {
    assert (BOM + bytes)[3..] == bytes;
  }

  /** What a field adds: comments and data lines gather, the last event and the last id stand, others are ignored. */
  function WithField(acc: Fields, name: Text, value: Text): Fields {
    if name == [] then acc.(comments := acc.comments + [value])
    else if name == [101, 118, 101, 110, 116] then acc.(event := Some(value))
    else if name == [105, 100] then acc.(id := Some(value))
    else if name == [100, 97, 116, 97] then acc.(data := acc.data + [value])
    else acc
  }

  /**
   Any line: the first colon ends the name and one space after it is dropped, a line without
   a colon is a name with an empty value, and an empty line adds nothing.
   */
  lemma {:induction false} FeedReads(acc: Fields, name: Text, raw: Text)
    requires ':' as int !in name
    ensures Feed(acc, name + ([':' as int] + raw))
         == WithField(acc, name, if raw != [] && raw[0] == ' ' as int then raw[1..] else raw)
    ensures Feed(acc, name) == if name == [] then acc else WithField(acc, name, [])
  {
    var line := name + ([COLON] + raw);
    FindInConcat(name, COLON, raw);
    AroundSeparator(name, COLON, raw);
    assert line[0] == COLON <==> name == [];
    if name == [] {
      AfterFirst(COLON, raw);
      NothingInFront([COLON] + raw);
    }
  }

  function EventDecoder(): Decoder<ServerEvent> {
    bytes => Ok(Unrender(bytes))
  }

  // ----- what survives: no carriage return anywhere, no line feed in `event` or `id`

  predicate OneLine(field: Option<Text>) {
    field.Some? ==> CR !in field.value && LF !in field.value
  }

  predicate Clean(e: ServerEvent) {
    && (e.comment.Some? ==> CR !in e.comment.value)
    && OneLine(e.event) && OneLine(e.id) && CR !in e.data
  }

  predicate CleanLine(line: Text) {
    CR !in line && LF !in line
  }

  ghost predicate CleanLines(lines: seq<Text>) {
    forall line <- lines :: CleanLine(line)
  }

  ghost predicate CleanFields(acc: Fields) {
    CleanLines(acc.comments) && CleanLines(acc.data) && OneLine(acc.event) && OneLine(acc.id)
  }

  lemma {:induction false} FeedAllClean(acc: Fields, lines: seq<Text>)
    requires CleanFields(acc) && CleanLines(lines)
    ensures CleanFields(FeedAll(acc, lines))
    decreases lines
  {
    if lines != [] {
      assert CleanLine(lines[0]);
      FeedAllClean(Feed(acc, lines[0]), lines[1..]);
    }
  }

  /** Splitting at one byte brings no other byte in. */
  lemma {:induction false} SplitAvoids(s: Text, sep: byte, b: byte)
    requires b !in s
    ensures forall part <- Split(s, sep) :: b !in part
    decreases |s|
  {
    match Find(s, sep)
    case None =>
    case Some(i) =>
      SliceAvoids(s, 0, i, b);
      SliceAvoids(s, i + 1, |s|, b);
      SplitAvoids(s[i + 1..], sep, b);
      FrontAvoids(s[..i], Split(s[i + 1..], sep), b);
  }

  lemma {:induction false} SliceAvoids(s: Text, i: nat, j: nat, b: byte)
    requires i <= j <= |s| && b !in s
    ensures b !in s[i..j]
  {}

  lemma {:induction false} FrontAvoids(part: Text, parts: seq<Text>, b: byte)
    requires b !in part && forall p <- parts :: b !in p
    ensures forall p <- [part] + parts :: b !in p
  {}

  /** Whatever is parsed, the event is clean. */
  lemma {:induction false} UnrenderedIsClean(bytes: Text)
    ensures Clean(Unrender(bytes))
  {
    SplitAvoids(Normalize(StripBom(bytes)), LF, CR);
    FeedAllClean(NO_FIELDS, BlockLines(bytes));
    var acc := FeedAll(NO_FIELDS, BlockLines(bytes));
    JoinAvoids(acc.comments, LF, CR);
    JoinAvoids(acc.data, LF, CR);
  }

  // ----- unrendering a rendered event

  lemma {:induction false} FeedField(acc: Fields, name: Text, value: Text)
    requires COLON !in name
    ensures Feed(acc, FieldLine(name, value)) ==
      if name == [] then acc.(comments := acc.comments + [value])
      else if name == EVENT then acc.(event := Some(value))
      else if name == ID then acc.(id := Some(value))
      else if name == DATA then acc.(data := acc.data + [value])
      else acc
  {
    var line := FieldLine(name, value);
    FieldParts(name, value);
    assert line != [] && (line[0] == COLON <==> name == []);
  }

  lemma {:induction false} FieldParts(name: Text, value: Text)
    requires COLON !in name
    ensures var line := FieldLine(name, value);
      && Find(line, COLON) == Some(|name|) && line[..|name|] == name
      && StripSpace(line[|name| + 1..]) == value
      && (name != [] ==> line[0] == name[0])
  {
    FindInConcat(name, COLON, [SPACE] + value);
    AroundSeparator(name, COLON, [SPACE] + value);
    AfterFirst(SPACE, value);
  }

  lemma {:induction false} FeedFields(acc: Fields, name: Text, values: seq<Text>, rest: seq<Text>)
    requires name in [[], DATA]
    ensures FeedAll(acc, FieldLines(name, values) + rest) ==
      FeedAll(if name == [] then acc.(comments := acc.comments + values) else acc.(data := acc.data + values), rest)
    decreases values
  {
    if values == [] {
      assert FieldLines(name, values) + rest == rest;
      assert acc.comments + values == acc.comments && acc.data + values == acc.data;
    } else {
      var line, more := FieldLine(name, values[0]), FieldLines(name, values[1..]);
      Assoc([line], more, rest);
      AfterFirst(line, more + rest);
      FeedField(acc, name, values[0]);
      var acc' := Feed(acc, line);
      FeedFields(acc', name, values[1..], rest);
      FirstAndRest(values);
      Assoc(acc.comments, [values[0]], values[1..]);
      Assoc(acc.data, [values[0]], values[1..]);
    }
  }

  lemma {:induction false} FeedOptional(acc: Fields, name: Text, value: Option<Text>, rest: seq<Text>)
    requires (name == EVENT && acc.event == None) || (name == ID && acc.id == None)
    ensures FeedAll(acc, OptionalLines(name, value) + rest)
         == FeedAll(if name == EVENT then acc.(event := value) else acc.(id := value), rest)
  {
    if value.None? {
      assert OptionalLines(name, value) + rest == rest;
    } else {
      FeedField(acc, name, value.value);
      AfterFirst(FieldLine(name, value.value), rest);
    }
  }

  lemma {:induction false} FeedEventLines(e: ServerEvent)
    ensures Finish(FeedAll(NO_FIELDS, EventLines(e))) == e
  {
    var comments := if e.comment.None? then [] else Split(e.comment.value, LF);
    var datas := if RendersData(e) then Split(e.data, LF) else [];
    var afterComments := Fields(comments, None, None, []);
    var afterEvent := Fields(comments, e.event, None, []);
    var afterId := Fields(comments, e.event, e.id, []);
    FeedFields(NO_FIELDS, [], comments, OptionalLines(EVENT, e.event) + (OptionalLines(ID, e.id) + DataLines(e)));
    assert [] + comments == comments;
    FeedOptional(afterComments, EVENT, e.event, OptionalLines(ID, e.id) + DataLines(e));
    FeedOptional(afterEvent, ID, e.id, DataLines(e));
    FeedFields(afterId, DATA, datas, []);
    assert DataLines(e) + [] == DataLines(e) && [] + datas == datas;
    JoinSplit(e.data, LF);
    if e.comment.Some? {
      JoinSplit(e.comment.value, LF);
    }
  }

  /** The item a client deframes from a rendered event: its lines without the blank line. */
  function Block(e: ServerEvent): Text {
    Join(EventLines(e), LF)
  }

  ghost predicate GoodLine(line: Text) {
    line != [] && line[0] in {58, 101, 105, 100} && CleanLine(line)
  }

  lemma {:induction false} FieldLineGood(name: Text, value: Text)
    requires name in [[], EVENT, ID, DATA] && CleanLine(value)
    ensures GoodLine(FieldLine(name, value))
  {}

  lemma {:induction false} FieldLinesGood(name: Text, s: Text)
    requires name in [[], DATA] && CR !in s
    ensures forall line <- FieldLines(name, Split(s, LF)) :: GoodLine(line)
  {
    SplitAvoids(s, LF, CR);
    var values := Split(s, LF);
    forall i | 0 <= i < |values| ensures GoodLine(FieldLines(name, values)[i]) {
      assert values[i] in values;
      FieldLineGood(name, values[i]);
    }
  }

  lemma {:induction false} EventLinesGood(e: ServerEvent)
    requires Clean(e)
    ensures EventLines(e) != []
    ensures forall line <- EventLines(e) :: GoodLine(line)
  {
    if e.comment.Some? { FieldLinesGood([], e.comment.value); }
    FieldLinesGood(DATA, e.data);
    if e.event.Some? { FieldLineGood(EVENT, e.event.value); }
    if e.id.Some? { FieldLineGood(ID, e.id.value); }
    assert forall line <- CommentLines(e) :: GoodLine(line);
    assert forall line <- OptionalLines(ID, e.id) + DataLines(e) :: GoodLine(line);
  }

  lemma {:induction false} UnrenderBlock(e: ServerEvent)
    requires Clean(e)
    ensures Unrender(Block(e)) == e
  {
    EventLinesGood(e);
    var lines := EventLines(e);
    JoinAvoids(lines, LF, CR);
    assert GoodLine(lines[0]);
    assert Block(e)[0] == lines[0][0];
    assert StripBom(Block(e)) == Block(e);
    SplitJoin(lines, LF);
    FeedEventLines(e);
  }

  // ----- deframing a rendered event

  lemma {:induction false} TerminatedIsJoined(lines: seq<Text>)
    requires lines != []
    ensures Terminated(lines) == Join(lines, LF) + [LF]
  {
    if |lines| == 1 {
      assert Terminated(lines[1..]) == [];
    } else {
      TerminatedIsJoined(lines[1..]);
      Assoc(lines[0], [LF] + Join(lines[1..], LF), [LF]);
      Assoc([LF], Join(lines[1..], LF), [LF]);
    }
  }

  /** No carriage return, no blank line inside, no line feed at either end. */
  ghost predicate Calm(s: Text) {
    && s != [] && CR !in s && s[0] != LF && s[|s| - 1] != LF
    && forall i :: 0 <= i < |s| - 1 ==> !(s[i] == LF && s[i + 1] == LF)
  }

  lemma {:induction false} CalmConcat(line: Text, rest: Text)
    requires line != [] && CleanLine(line) && Calm(rest)
    ensures Calm(line + ([LF] + rest))
  {
    var s := line + ([LF] + rest);
    assert forall i :: 0 <= i < |line| ==> s[i] == line[i];
    assert s[|line|] == LF;
    assert forall i :: |line| < i < |s| ==> s[i] == rest[i - |line| - 1];
  }

  lemma {:induction false} JoinCalm(lines: seq<Text>)
    requires lines != []
    requires forall line <- lines :: GoodLine(line)
    ensures Calm(Join(lines, LF))
  {
    assert GoodLine(lines[0]);
    if |lines| > 1 {
      JoinCalm(lines[1..]);
      CalmConcat(lines[0], Join(lines[1..], LF));
    }
  }

  lemma {:induction false} BlankLineAfterCalm(buf: Text, n: nat)
    requires 0 < n && n + 2 <= |buf| && Calm(buf[..n]) && buf[n] == LF && buf[n + 1] == LF
    ensures EventEnd(buf, 0) == Some(n) && BlankLine(buf, n) == 2
  {
    var s := buf[..n];
    assert BlankLine(buf, n) == 2;
    assert EventEnd(buf, 0).Some?;
    forall j | 0 <= j < n ensures BlankLine(buf, j) == 0 {
      assert buf[j] == s[j] && buf[j] != CR;
      if j + 1 < n {
        assert buf[j + 1] == s[j + 1] && buf[j + 1] != CR;
      }
    }
  }

  /** A clean event is cut off the stream whole, as its block. */
  lemma {:induction false} RenderedCutsWhole(e: ServerEvent)
    requires Clean(e)
    ensures CutsWhole(EventStream, Piece(Render(e), Block(e)))
  {
    EventLinesGood(e);
    var block := Block(e);
    JoinCalm(EventLines(e));
    TerminatedIsJoined(EventLines(e));
    forall more: Text ensures Deframe(EventStream, Render(e) + more, false) == Some(Cut(block, more)) {
      CutCalm(block, more);
    }
  }

  lemma {:induction false} CutCalm(block: Text, more: Text)
    requires Calm(block)
    ensures Deframe(EventStream, block + [LF] + [LF] + more, false) == Some(Cut(block, more))
  {
    var buf := block + [LF] + [LF] + more;
    assert buf[..|block|] == block;
    BlankLineAfterCalm(buf, |block|);
    assert buf[|block| + 2..] == more;
  }

  // ----- the round trip

  function Pieces(events: seq<ServerEvent>): seq<Piece> {
    if events == [] then [] else [Piece(Render(events[0]), Block(events[0]))] + Pieces(events[1..])
  }

  /** What the server sends: each event rendered, one after another. */
  function Sent(events: seq<ServerEvent>): Text {
    if events == [] then [] else Render(events[0]) + Sent(events[1..])
  }

  function Delivered(events: seq<ServerEvent>): seq<Result<ServerEvent, ClientError>> {
    if events == [] then [] else [Ok(events[0])] + Delivered(events[1..])
  }

  lemma {:induction false} PiecesWork(events: seq<ServerEvent>)
    requires forall e <- events :: Clean(e)
    ensures forall p <- Pieces(events) :: CutsWhole(EventStream, p)
    ensures Wire(Pieces(events)) == Sent(events)
    ensures Received(EventDecoder(), Pieces(events)) == Delivered(events)
  {
    if events != [] {
      assert events[0] in events;
      RenderedCutsWhole(events[0]);
      UnrenderBlock(events[0]);
      PiecesWork(events[1..]);
      AfterFirst(Piece(Render(events[0]), Block(events[0])), Pieces(events[1..]));
    }
  }

  /** Whatever arrives, every event that comes out is clean. */
  lemma {:induction false} OutputsAreClean(max: nat, buf: Text, eof: bool, events: seq<Event>)
    ensures forall out <- ClientRun(EventStream, EventDecoder(), max, buf, eof, events) ::
      out.Ok? ==> Clean(out.value)
    decreases |events|, if eof then 0 else 1, |buf|
  {
    match Deframe(EventStream, buf, eof)
    case Some(cut) =>
      UnrenderedIsClean(cut.item);
      OutputsAreClean(max, cut.rest, eof, events);
    case None =>
      if !eof {
        if events == [] {
          OutputsAreClean(max, buf, true, events);
        } else if events[0].Ok? {
          OutputsAreClean(max, buf + events[0].value, false, events[1..]);
        } else {
          OutputsAreClean(max, buf, true, events[1..]);
        }
      }
  }

  lemma {:induction false} DeliveredHolds(events: seq<ServerEvent>)
    ensures forall e <- events :: Ok(e) in Delivered(events)
  {
    if events != [] {
      DeliveredHolds(events[1..]);
    }
  }

  lemma {:induction false} DeliveredAreClean(max: nat, buf: Text, arriving: seq<Event>, events: seq<ServerEvent>)
    requires ClientRun(EventStream, EventDecoder(), max, buf, false, arriving) == Delivered(events)
    ensures forall e <- events :: Clean(e)
  {
    OutputsAreClean(max, buf, false, arriving);
    DeliveredHolds(events);
    forall e | e in events ensures Clean(e) {
      var out: Result<ServerEvent, ClientError> := Ok(e);
      assert out in Delivered(events);
    }
  }

  /** Events of any number and size, rendered and concatenated, are parsed back exactly when they are clean. */
  lemma {:induction false} WholeRoundTripIff(events: seq<ServerEvent>, max: nat)
    ensures ClientRun(EventStream, EventDecoder(), max, Sent(events), false, []) == Delivered(events)
       <==> forall e <- events :: Clean(e)
  {
    if forall e <- events :: Clean(e) {
      PiecesWork(events);
      WireReceived(EventStream, EventDecoder(), max, Pieces(events));
    }
    if ClientRun(EventStream, EventDecoder(), max, Sent(events), false, []) == Delivered(events) {
      DeliveredAreClean(max, Sent(events), [], events);
    }
  }

  /**
   The client receives exactly the events sent, on a stream of any length, precisely when
   no field holds a carriage return, no `event` or `id` a line feed, and the bytes that wait
   for the rest of their event stay within the limit as the chunks come in.
   */
  lemma {:induction false} EventRoundTripIff(events: seq<ServerEvent>, chunks: seq<Text>, max: nat)
    requires Flatten(chunks) == Sent(events)
    ensures ClientRun(EventStream, EventDecoder(), max, [], false, DataEvents(chunks)) == Delivered(events)
       <==> (forall e <- events :: Clean(e)) && StaysWithin(EventStream, max, [], chunks)
  {
    if forall e <- events :: Clean(e) {
      PiecesWork(events);
      ClientReceivesIff(EventStream, EventDecoder(), max, Pieces(events), chunks);
    }
    if ClientRun(EventStream, EventDecoder(), max, [], false, DataEvents(chunks)) == Delivered(events) {
      DeliveredAreClean(max, [], DataEvents(chunks), events);
    }
  }

  /** Where every event and chunk together fit the limit, only the fields matter: for streams of any length. */
  lemma {:induction false} LongStreamRoundTripIff(events: seq<ServerEvent>, chunks: seq<Text>, max: nat, m: nat, c: nat)
    requires Flatten(chunks) == Sent(events) && m + c <= max + 1
    requires (forall e <- events :: |Render(e)| <= m) && (forall chunk <- chunks :: |chunk| <= c)
    ensures ClientRun(EventStream, EventDecoder(), max, [], false, DataEvents(chunks)) == Delivered(events)
       <==> forall e <- events :: Clean(e)
  {
    EventRoundTripIff(events, chunks, max);
    if forall e <- events :: Clean(e) {
      PiecesWork(events);
      PiecesSized(events, m);
      NothingInFront(Sent(events));
      SmallPiecesStayWithin(EventStream, max, Pieces(events), [], chunks, m, c);
    }
  }

  lemma {:induction false} PiecesSized(events: seq<ServerEvent>, m: nat)
    requires forall e <- events :: |Render(e)| <= m
    ensures forall p <- Pieces(events) :: |p.wire| <= m
  {
    if events != [] {
      assert events[0] in events;
      PiecesSized(events[1..], m);
    }
  }
}
