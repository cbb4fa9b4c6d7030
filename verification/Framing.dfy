/** How streamed items are delimited, and how one item is cut off the front of a buffer. */
module Framing {
  import opened Basics
  import opened TextLists

  datatype Framing = NoFraming | Newline | Netstring | EventStream

  const LF: byte := 10
  const CR: byte := 13
  const PLUS_SIGN: byte := 43
  const COMMA: byte := 44
  const COLON: byte := 58

  const USIZE_MAX: nat := 0xFFFF_FFFF_FFFF_FFFF
  const DEFAULT_MAX_BYTES: nat := 8 * 1024 * 1024

  /** One item, and the buffer without it. */
  datatype Cut = Cut(item: Text, rest: Text)

  // ----- decimal lengths

  predicate IsDigit(b: byte) {
    48 <= b <= 57
  }

  predicate AllDigits(s: Text) {
    forall i :: 0 <= i < |s| ==> IsDigit(s[i])
  }

  function Decimal(s: Text): nat
    requires AllDigits(s)
  {
    if s == [] then 0 else Decimal(s[..|s| - 1]) * 10 + (s[|s| - 1] - 48)
  }

  function DecimalUsize(s: Text): Option<nat> {
    if s != [] && AllDigits(s) && Decimal(s) <= USIZE_MAX then Some(Decimal(s)) else None
  }

  /** The standard library's `parse::<usize>`, which admits a leading plus sign. */
  function ParseUsize(s: Text): Option<nat> {
    DecimalUsize(if s != [] && s[0] == PLUS_SIGN then s[1..] else s)
  }

  lemma {:induction false} TenfoldAndUnits(n: nat)
    ensures n / 10 * 10 + n % 10 == n && n % 10 < 10
    ensures n >= 10 ==> 0 < n / 10 < n
  {}

  lemma {:induction false} OneMoreDigit(front: Text, digit: nat)
    requires AllDigits(front) && digit < 10
    ensures AllDigits(front + [48 + digit])
    ensures Decimal(front + [48 + digit]) == Decimal(front) * 10 + digit
  {
    var s := front + [48 + digit];
    assert s[..|s| - 1] == front;
  }

  function Digits(n: nat): (s: Text)
    ensures s != [] && AllDigits(s) && Decimal(s) == n
    ensures n > 0 ==> s[0] != '0' as int
    ensures n == 0 ==> s == ['0' as int]
  {
    TenfoldAndUnits(n);
    if n < 10 then
      OneMoreDigit([], n);
      NothingInFront([48 + n]);
      [48 + n]
    else
      OneMoreDigit(Digits(n / 10), n % 10);
      Digits(n / 10) + [48 + n % 10]
  }

  // ----- framing one item

  function FrameItem(f: Framing, item: Text): Text {
    match f
    case NoFraming => item
    case Newline => item + [LF]
    case Netstring => Digits(|item|) + ([COLON] + (item + [COMMA]))
    case EventStream => item
  }

  lemma {:induction false} FrameTexts(item: Text)
    ensures FrameItem(Newline, item) == item + ['\n' as int]
    ensures FrameItem(Netstring, item) == Digits(|item|) + ([':' as int] + (item + [',' as int]))
    ensures FrameItem(NoFraming, item) == item && FrameItem(EventStream, item) == item
  {}

  // ----- cutting one item

  /** At the end of the stream whatever is left is the last item. */
  function Flush(buf: Text, eof: bool): Option<Cut> {
    if eof && buf != [] then Some(Cut(buf, [])) else None
  }

  /** The length of the blank line that ends an event at `i`, or 0. */
  function BlankLine(buf: Text, i: nat): nat
    requires i < |buf|
  {
    if buf[i] == LF && i + 1 < |buf| && buf[i + 1] == LF then 2
    else if buf[i] == LF && i + 2 < |buf| && buf[i + 1] == CR && buf[i + 2] == LF then 3
    else if buf[i] == CR && i + 1 < |buf| && buf[i + 1] == CR then 2
    else if buf[i] == CR && i + 3 < |buf| && buf[i + 1] == LF && buf[i + 2] == CR && buf[i + 3] == LF then 4
    else 0
  }

  /** Two line ends in a row: of either kind, and the second may be a pair where the first is a line feed or a pair. */
  const BLANK_LINES: seq<Text> := [[10, 10], [10, 13, 10], [13, 13], [13, 10, 13, 10]]

  lemma {:induction false} BlankLineIs(buf: Text, i: nat)
    requires i < |buf|
    ensures forall k :: 0 <= k < |BLANK_LINES| && BLANK_LINES[k] <= buf[i..] ==> BlankLine(buf, i) == |BLANK_LINES[k]|
    ensures BlankLine(buf, i) > 0 ==> exists k :: 0 <= k < |BLANK_LINES| && BLANK_LINES[k] <= buf[i..]
  {
    var tail := buf[i..];
    if BlankLine(buf, i) > 0 {
      var k := if buf[i] == 10 then (if buf[i + 1] == 10 then 0 else 1) else if buf[i + 1] == 13 then 2 else 3;
      assert BLANK_LINES[k] <= tail;
    }
  }

  function EventEnd(buf: Text, i: nat): (r: Option<nat>)
    requires i <= |buf|
    ensures r.Some? ==> i <= r.value < |buf| && BlankLine(buf, r.value) > 0
    ensures r.Some? ==> forall j :: i <= j < r.value ==> BlankLine(buf, j) == 0
    ensures r.None? ==> forall j :: i <= j < |buf| ==> BlankLine(buf, j) == 0
    decreases |buf| - i
  {
    if i == |buf| then None
    else if BlankLine(buf, i) > 0 then Some(i)
    else EventEnd(buf, i + 1)
  }

  /** The `len` bytes from `start` on, and what follows the byte that closes them. */
  function CutAt(buf: Text, start: nat, len: nat): Cut
    requires start + len < |buf|
  {
    Cut(buf[start..start + len], buf[start + len + 1..])
  }

  function NetstringCut(buf: Text): Option<Cut> {
    match Find(buf, COLON)
    case None => None
    case Some(colon) =>
      match ParseUsize(buf[..colon])
      case None => None
      case Some(len) =>
        var start := colon + 1;
        if start + len + 1 > USIZE_MAX || |buf| < start + len + 1 || buf[start + len] != COMMA then None
        else Some(CutAt(buf, start, len))
  }

  /** Cutting removes a non-empty prefix; `None` stands for an untouched buffer. */
  function Deframe(f: Framing, buf: Text, eof: bool): (r: Option<Cut>)
    ensures r.Some? ==> |r.value.rest| < |buf| && r.value.rest == buf[|buf| - |r.value.rest|..]
  {
    match f
    case NoFraming => Flush(buf, eof)
    case Newline =>
      (match Find(buf, LF)
       case Some(i) => Some(Cut(buf[..i], buf[i + 1..]))
       case None => Flush(buf, eof))
    case Netstring => NetstringCut(buf)
    case EventStream =>
      (match EventEnd(buf, 0)
       case Some(i) => Some(Cut(buf[..i], buf[i + BlankLine(buf, i)..]))
       case None => Flush(buf, eof))
  }

  // ----- the bounded, error-reporting variant used for request bodies

  datatype StreamError =
    | Transport(message: Text)
    | MalformedFrame(why: Malformed)
    | FrameTooLarge(limit: nat)
    | Undecodable(message: Text)

  datatype Malformed = IncompleteTrailing | NoColon | NotDecimal | BadLength | Overflow | IncompleteFrame | NoComma

  datatype Limited = Framed(cut: Cut) | NeedMore | Failed(error: StreamError)

  function ParseLength(raw: Text): Result<nat, StreamError> {
    if raw == [] || !AllDigits(raw) then Err(MalformedFrame(NotDecimal))
    else
      match ParseUsize(raw)
      case Some(len) => Ok(len)
      case None => Err(MalformedFrame(BadLength))
  }

  /** What becomes of a netstring whose length is known. */
  function NetstringData(buf: Text, start: nat, len: nat, eof: bool, max: nat): Limited {
    if len > max then Failed(FrameTooLarge(max))
    else if start + len + 1 > USIZE_MAX then Failed(MalformedFrame(Overflow))
    else if |buf| < start + len + 1 then
      if eof then Failed(MalformedFrame(IncompleteFrame)) else NeedMore
    else if buf[start + len] != COMMA then Failed(MalformedFrame(NoComma))
    else Framed(CutAt(buf, start, len))
  }

  function NetstringLimited(buf: Text, eof: bool, max: nat): Limited {
    match Find(buf, COLON)
    case None =>
      if |buf| > max then Failed(FrameTooLarge(max))
      else if eof && buf != [] then Failed(MalformedFrame(NoColon))
      else NeedMore
    case Some(colon) =>
      match ParseLength(buf[..colon])
      case Err(e) => Failed(e)
      case Ok(len) => NetstringData(buf, colon + 1, len, eof, max)
  }

  function DeframeLimited(f: Framing, buf: Text, eof: bool, max: nat): (r: Limited)
    ensures r.Framed? ==> |r.cut.rest| < |buf| && r.cut.rest == buf[|buf| - |r.cut.rest|..]
  {
    if f == Netstring then NetstringLimited(buf, eof, max)
    else if |buf| > max then Failed(FrameTooLarge(max))
    else
      match Deframe(f, buf, eof)
      case Some(cut) => if |cut.item| > max then Failed(FrameTooLarge(max)) else Framed(cut)
      case None => if eof && buf != [] then Failed(MalformedFrame(IncompleteTrailing)) else NeedMore
  }

  /** What becomes of a body that begins with `prefix:`, by what the prefix says and what follows it. */
  lemma {:induction false} NetstringVerdict(prefix: Text, tail: Text, eof: bool, max: nat)
    requires ':' as int !in prefix
    ensures DeframeLimited(Netstring, prefix + ([':' as int] + tail), eof, max) ==
      if prefix == [] || !AllDigits(prefix) then Failed(MalformedFrame(NotDecimal))
      else
        var len := Decimal(prefix);
        if len > 0xFFFF_FFFF_FFFF_FFFF then Failed(MalformedFrame(BadLength))
        else if len > max then Failed(FrameTooLarge(max))
        else if |prefix| + 1 + len + 1 > 0xFFFF_FFFF_FFFF_FFFF then Failed(MalformedFrame(Overflow))
        else if |tail| <= len then (if eof then Failed(MalformedFrame(IncompleteFrame)) else NeedMore)
        else if tail[len] != ',' as int then Failed(MalformedFrame(NoComma))
        else Framed(Cut(tail[..len], tail[len + 1..]))
  {
    FindInConcat(prefix, COLON, tail);
    AroundSeparator(prefix, COLON, tail);
    if prefix != [] && AllDigits(prefix) {
      assert IsDigit(prefix[0]);
      if Decimal(prefix) < |tail| {
        BehindSeparator(prefix, COLON, tail, Decimal(prefix));
      }
    }
  }

  /** And of one without a colon: it grows to the limit, and may not end. */
  lemma {:induction false} NoColonVerdict(buf: Text, eof: bool, max: nat)
    requires ':' as int !in buf
    ensures DeframeLimited(Netstring, buf, eof, max) ==
      if |buf| > max then Failed(FrameTooLarge(max))
      else if eof && buf != [] then Failed(MalformedFrame(NoColon))
      else NeedMore
  {}

  /** The other framings are refused only for their size: what is left at the end is an item of its own. */
  lemma {:induction false} OtherVerdict(f: Framing, buf: Text, eof: bool, max: nat)
    requires f != Netstring
    ensures DeframeLimited(f, buf, eof, max) ==
      if |buf| > max then Failed(FrameTooLarge(max))
      else if Deframe(f, buf, eof).Some? then Framed(Deframe(f, buf, eof).value)
      else NeedMore
    ensures eof && buf != [] ==> Deframe(f, buf, eof).Some?
    ensures Deframe(f, buf, false).None? ==> Deframe(f, buf, true) == if buf == [] then None else Some(Cut(buf, []))
  {}

  lemma {:induction false} CutBehind(prefix: Text, tail: Text, len: nat)
    requires ':' as int !in prefix && ParseUsize(prefix) == Some(len)
    requires len < |tail| && tail[len] == ',' as int && |prefix| + 1 + len + 1 <= 0xFFFF_FFFF_FFFF_FFFF
    ensures NetstringCut(prefix + ([':' as int] + tail)) == Some(Cut(tail[..len], tail[len + 1..]))
  {
    var buf := prefix + ([COLON] + tail);
    FindInConcat(prefix, COLON, tail);
    AroundSeparator(prefix, COLON, tail);
    BehindSeparator(prefix, COLON, tail, len);
    NetstrungIff(buf, |prefix|, len);
  }

  lemma {:induction false} SignedDigits(digits: Text)
    requires AllDigits(digits)
    ensures var prefix := ['+' as int] + digits;
      ':' as int !in prefix && !AllDigits(prefix) && ParseUsize(prefix) == DecimalUsize(digits)
  {
    AfterFirst(PLUS_SIGN, digits);
    assert ([PLUS_SIGN] + digits)[0] == PLUS_SIGN;
    assert forall b <- digits :: IsDigit(b);
  }

  /** A length with a plus sign in front is read by the client, and refused by the server. */
  lemma {:induction false} SignedLength(item: Text, more: Text, eof: bool, max: nat)
    requires |Digits(|item|)| + |item| + 3 <= 0xFFFF_FFFF_FFFF_FFFF
    ensures var buf := ['+' as int] + Digits(|item|) + ([':' as int] + (item + ([',' as int] + more)));
      && Deframe(Netstring, buf, eof) == Some(Cut(item, more))
      && DeframeLimited(Netstring, buf, eof, max) == Failed(MalformedFrame(NotDecimal))
  {
    var prefix, tail := ['+' as int] + Digits(|item|), item + ([COMMA] + more);
    SignedDigits(Digits(|item|));
    AroundSeparator(item, COMMA, more);
    CutBehind(prefix, tail, |item|);
    NetstringVerdict(prefix, tail, eof, max);
  }

  // ----- the same, in place

  method FindEventEnd(buf: Text) returns (r: Option<(nat, nat)>)
    ensures match EventEnd(buf, 0)
      case None => r == None
      case Some(i) => r == Some((i, i + BlankLine(buf, i)))
  {
    var i := 0;
    while i < |buf|
      invariant i <= |buf|
      invariant EventEnd(buf, i) == EventEnd(buf, 0)
    {
      if BlankLine(buf, i) > 0 {
        return Some((i, i + BlankLine(buf, i)));
      }
      i := i + 1;
    }
    r := None;
  }

  /** A receive buffer from whose front items are drained. */
  class FrameBuffer {
    var bytes: Text

    constructor (bytes: Text)
      ensures this.bytes == bytes
    {
      this.bytes := bytes;
    }

    method Extend(chunk: Text)
      modifies this
      ensures bytes == old(bytes) + chunk
    {
      bytes := bytes + chunk;
    }

    method TakeAll(eof: bool) returns (item: Option<Text>)
      modifies this
      ensures match Flush(old(bytes), eof)
        case None => item == None && bytes == old(bytes)
        case Some(cut) => item == Some(cut.item) && bytes == cut.rest
    {
      if !eof || bytes == [] {
        return None;
      }
      item := Some(bytes);
      bytes := [];
    }

    method TakeNetstring() returns (item: Option<Text>)
      modifies this
      ensures match NetstringCut(old(bytes))
        case None => item == None && bytes == old(bytes)
        case Some(cut) => item == Some(cut.item) && bytes == cut.rest
    {
      var data := bytes;
      var colon := Position(data, COLON);
      if colon.None? {
        return None;
      }
      var len := ParseUsize(data[..colon.value]);
      if len.None? {
        return None;
      }
      NetstrungIff(data, colon.value, len.value);
      var end := colon.value + 1 + len.value;
      if end + 1 > USIZE_MAX || |data| < end + 1 || data[end] != COMMA {
        return None;
      }
      item := Some(data[colon.value + 1..end]);
      bytes := data[end + 1..];
    }

    method Take(f: Framing, eof: bool) returns (item: Option<Text>)
      modifies this
      ensures match Deframe(f, old(bytes), eof)
        case None => item == None && bytes == old(bytes)
        case Some(cut) => item == Some(cut.item) && bytes == cut.rest
    {
      match f
      case NoFraming => item := TakeAll(eof);
      case Newline =>
        var end := Position(bytes, LF);
        if end.None? {
          item := TakeAll(eof);
        } else {
          item := Some(bytes[..end.value]);
          bytes := bytes[end.value + 1..];
        }
      case Netstring => item := TakeNetstring();
      case EventStream =>
        var end := FindEventEnd(bytes);
        if end.None? {
          item := TakeAll(eof);
        } else {
          item := Some(bytes[..end.value.0]);
          bytes := bytes[end.value.1..];
        }
    }

    /** An error ends the decoding, so what it leaves in the buffer does not matter. */
    method TakeLimited(f: Framing, eof: bool, max: nat) returns (r: Result<Option<Text>, StreamError>)
      modifies this
      ensures match DeframeLimited(f, old(bytes), eof, max)
        case Framed(cut) => r == Ok(Some(cut.item)) && bytes == cut.rest
        case NeedMore => r == Ok(None) && bytes == old(bytes)
        case Failed(e) => r == Err(e)
    {
      if f == Netstring {
        var colon := Position(bytes, COLON);
        if colon.None? {
          return if |bytes| > max then Err(FrameTooLarge(max))
                 else if eof && bytes != [] then Err(MalformedFrame(NoColon)) else Ok(None);
        }
        var len := ParseLength(bytes[..colon.value]);
        if len.Err? {
          return Err(len.error);
        }
        if len.value > max {
          return Err(FrameTooLarge(max));
        }
        var start := colon.value + 1;
        var end := start + len.value;
        if end + 1 > USIZE_MAX {
          return Err(MalformedFrame(Overflow));
        }
        if |bytes| < end + 1 {
          return if eof then Err(MalformedFrame(IncompleteFrame)) else Ok(None);
        }
        if bytes[end] != COMMA {
          return Err(MalformedFrame(NoComma));
        }
        r := Ok(Some(bytes[start..end]));
        bytes := bytes[end + 1..];
        return;
      }
      if |bytes| > max {
        return Err(FrameTooLarge(max));
      }
      var item := Take(f, eof);
      if item.Some? {
        return if |item.value| > max then Err(FrameTooLarge(max)) else Ok(item);
      }
      r := if eof && bytes != [] then Err(MalformedFrame(IncompleteTrailing)) else Ok(None);
    }
  }

  // ----- prefix stability: bytes that arrive later never change a cut

  lemma {:induction false} FindStable(s: Text, more: Text, sep: byte)
    requires Find(s, sep).Some?
    ensures Find(s + more, sep) == Find(s, sep)
  {
    var i := Find(s, sep).value;
    assert (s + more)[..i] == s[..i];
    FindIs(s + more, sep, i);
  }

  lemma {:induction false} SlicesOfConcat<T>(s: seq<T>, more: seq<T>, i: nat, j: nat)
    requires i <= j <= |s|
    ensures (s + more)[i..j] == s[i..j] && (s + more)[j..] == s[j..] + more
  {}

  lemma {:induction false} EventEndStable(buf: Text, more: Text)
    requires EventEnd(buf, 0).Some?
    ensures var i := EventEnd(buf, 0).value;
      EventEnd(buf + more, 0) == Some(i) && BlankLine(buf + more, i) == BlankLine(buf, i)
  {
    var i := EventEnd(buf, 0).value;
    var all := buf + more;
    assert BlankLine(all, i) == BlankLine(buf, i);
    forall j | 0 <= j < i ensures BlankLine(all, j) == 0 {
      assert BlankLine(buf, j) == 0;
    }
    assert EventEnd(all, 0).Some?;
  }

  /** A whole netstring at the front of a buffer: its colon, its length, and its data up to the comma. */
  predicate Netstrung(buf: Text, colon: nat, len: nat) {
    && Find(buf, COLON) == Some(colon) && ParseUsize(buf[..colon]) == Some(len)
    && colon + 1 + len + 1 <= USIZE_MAX && colon + 1 + len < |buf| && buf[colon + 1 + len] == COMMA
  }

  lemma {:induction false} CutIsNetstrung(buf: Text) returns (colon: nat, len: nat)
    requires NetstringCut(buf).Some?
    ensures Netstrung(buf, colon, len) && NetstringCut(buf) == Some(CutAt(buf, colon + 1, len))
  {
    colon := Find(buf, COLON).value;
    len := ParseUsize(buf[..colon]).value;
  }

  /** Once its length is read, a netstring is cut off exactly when all of it is there. */
  lemma {:induction false} NetstrungIff(buf: Text, colon: nat, len: nat)
    requires Find(buf, COLON) == Some(colon) && ParseUsize(buf[..colon]) == Some(len)
    ensures if Netstrung(buf, colon, len) then NetstringCut(buf) == Some(CutAt(buf, colon + 1, len))
      else NetstringCut(buf) == None
  {}

  lemma {:induction false} NetstringStable(buf: Text, more: Text)
    requires NetstringCut(buf).Some?
    ensures var cut := NetstringCut(buf).value;
      NetstringCut(buf + more) == Some(Cut(cut.item, cut.rest + more))
  {
    var colon, len := CutIsNetstrung(buf);
    FindStable(buf, more, COLON);
    SlicesOfConcat(buf, more, 0, colon);
    CutAtStable(buf, more, colon + 1, len);
    NetstrungIff(buf + more, colon, len);
  }

  lemma {:induction false} CutAtStable(buf: Text, more: Text, start: nat, len: nat)
    requires start + len < |buf|
    ensures var cut := CutAt(buf, start, len);
      CutAt(buf + more, start, len) == Cut(cut.item, cut.rest + more) && (buf + more)[start + len] == buf[start + len]
  {
    SlicesOfConcat(buf, more, start, start + len);
    SlicesOfConcat(buf, more, start + len, start + len + 1);
  }

  /** An item cut before the end of the stream is cut the same whatever follows. */
  lemma {:induction false} DeframeStable(f: Framing, buf: Text, more: Text, eof: bool)
    requires Deframe(f, buf, false).Some?
    ensures var cut := Deframe(f, buf, false).value;
      Deframe(f, buf + more, eof) == Some(Cut(cut.item, cut.rest + more))
  {
    match f
    case NoFraming =>
    case Newline =>
      FindStable(buf, more, LF);
      var i := Find(buf, LF).value;
      SlicesOfConcat(buf, more, 0, i);
      SlicesOfConcat(buf, more, i, i + 1);
    case Netstring => NetstringStable(buf, more);
    case EventStream =>
      EventEndStable(buf, more);
      var i := EventEnd(buf, 0).value;
      SlicesOfConcat(buf, more, 0, i);
      SlicesOfConcat(buf, more, i, i + BlankLine(buf, i));
  }
}
