/** Percent-encoding and the codec of ordered query pairs. */
module QueryCodec {
  import opened Basics
  import opened TextLists

  const PERCENT: byte := 37
  const AMPERSAND: byte := 38
  const PLUS: byte := 43
  const SPACE: byte := 32
  const EQUALS: byte := 61

  // ----- percent-encoding, sections 2.1 and 2.3 of RFC 3986

  /** ALPHA / DIGIT / "-" / "." / "_" / "~" */
  predicate Unreserved(b: byte) {
    48 <= b <= 57 || 65 <= b <= 90 || 97 <= b <= 122 || b == 45 || b == 46 || b == 95 || b == 126
  }

  function HexDigit(n: nat): byte
    requires n < 16
  {
    if n < 10 then 48 + n else 55 + n
  }

  function HexValue(b: byte): Option<nat> {
    if 48 <= b <= 57 then Some(b - 48)
    else if 65 <= b <= 70 then Some(b - 55)
    else if 97 <= b <= 102 then Some(b - 87)
    else None
  }

  function EncodeByte(b: byte): Text {
    if Unreserved(b) then [b] else [PERCENT, HexDigit(b / 16), HexDigit(b % 16)]
  }

  function Encode(s: Text): Text {
    if s == [] then [] else EncodeByte(s[0]) + Encode(s[1..])
  }

  /** A well-formed escape decodes to its byte; any other byte stands for itself. */
  function PercentDecode(s: Text): Text {
    if s == [] then []
    else if s[0] == PERCENT && |s| >= 3 && HexValue(s[1]).Some? && HexValue(s[2]).Some? then
      [HexValue(s[1]).value * 16 + HexValue(s[2]).value] + PercentDecode(s[3..])
    else [s[0]] + PercentDecode(s[1..])
  }

  lemma {:induction false} DecodeByte(b: byte, t: Text)
    ensures PercentDecode(EncodeByte(b) + t) == [b] + PercentDecode(t)
  {
    var s := EncodeByte(b) + t;
    if Unreserved(b) {
      assert s[1..] == t;
    } else {
      assert s[3..] == t;
      assert HexValue(s[1]) == Some(b / 16) && HexValue(s[2]) == Some(b % 16);
    }
  }

  lemma {:induction false} DecodeEncoded(s: Text, t: Text)
    ensures PercentDecode(Encode(s) + t) == s + PercentDecode(t)
  {
    if s == [] {
      assert Encode(s) + t == t;
    } else {
      var head, rest := EncodeByte(s[0]), Encode(s[1..]);
      calc {
        PercentDecode(Encode(s) + t);
        { Assoc(head, rest, t); }
        PercentDecode(head + (rest + t));
        { DecodeByte(s[0], rest + t); }
        [s[0]] + PercentDecode(rest + t);
        { DecodeEncoded(s[1..], t); }
        [s[0]] + (s[1..] + PercentDecode(t));
        { Assoc([s[0]], s[1..], PercentDecode(t)); }
        [s[0]] + s[1..] + PercentDecode(t);
        { assert [s[0]] + s[1..] == s; }
        s + PercentDecode(t);
      }
    }
  }

  lemma {:induction false} DecodeEncode(s: Text)
    ensures PercentDecode(Encode(s)) == s
  {
    DecodeEncoded(s, []);
    assert Encode(s) + [] == Encode(s);
  }

  /** Nothing but unreserved bytes and escapes is printed, so no delimiter is. */
  lemma {:induction false} EncodedIsSafe(s: Text)
    ensures forall b <- Encode(s) :: Unreserved(b) || b == PERCENT
    ensures Encode(s) == [] <==> s == []
  {
    if s != [] {
      EncodedIsSafe(s[1..]);
    }
  }

  /** A byte that needs escaping never appears in the output. */
  predicate Delimiter(b: byte) {
    !Unreserved(b) && b != PERCENT
  }

  lemma {:induction false} EncodedAvoids(s: Text, b: byte)
    requires Delimiter(b)
    ensures b !in Encode(s)
  {
    EncodedIsSafe(s);
  }

  // ----- the code itself, as tables

  const UPPER_HEX: Text := [48, 49, 50, 51, 52, 53, 54, 55, 56, 57, 65, 66, 67, 68, 69, 70]
  const LOWER_HEX: Text := [48, 49, 50, 51, 52, 53, 54, 55, 56, 57, 97, 98, 99, 100, 101, 102]

  /** Letters, digits and four marks stand for themselves; everything else is escaped in upper-case hexadecimal. */
  lemma {:induction false} EncodeByteIs(b: byte)
    ensures EncodeByte(b) ==
      if 'A' as int <= b <= 'Z' as int || 'a' as int <= b <= 'z' as int || '0' as int <= b <= '9' as int
         || b in ['-' as int, '.' as int, '_' as int, '~' as int]
      then [b] else ['%' as int, UPPER_HEX[b / 16], UPPER_HEX[b % 16]]
  {}

  predicate HexFor(b: byte, digit: nat) {
    digit < 16 && (b == UPPER_HEX[digit] || b == LOWER_HEX[digit])
  }

  /** The text begins with an escape, in either case of hexadecimal, of the byte made of these digits. */
  predicate Escape(s: Text, high: nat, low: nat) {
    |s| >= 3 && s[0] == '%' as int && HexFor(s[1], high) && HexFor(s[2], low)
  }

  lemma {:induction false} HexValueIs(b: byte)
    ensures match HexValue(b)
      case Some(n) => forall digit: nat :: HexFor(b, digit) <==> digit == n
      case None => forall digit: nat :: !HexFor(b, digit)
  {}

  /** An escape decodes to its byte, and any other byte to itself: nothing is malformed. */
  lemma {:induction false} PercentDecodeIs(s: Text)
    requires s != []
    ensures forall high: nat, low: nat :: Escape(s, high, low) ==>
      high < 16 && low < 16 && PercentDecode(s) == [high * 16 + low] + PercentDecode(s[3..])
    ensures (forall high: nat, low: nat :: !Escape(s, high, low)) ==> PercentDecode(s) == [s[0]] + PercentDecode(s[1..])
  {
    if |s| >= 3 {
      HexValueIs(s[1]);
      HexValueIs(s[2]);
      var high, low := HexValue(s[1]), HexValue(s[2]);
      assert s[0] == '%' as int && high.Some? && low.Some? ==> Escape(s, high.value, low.value);
    }
  }

  // ----- query components

  function PlusToSpace(s: Text): (r: Text)
    ensures |r| == |s| && forall i :: 0 <= i < |s| ==> r[i] == if s[i] == '+' as int then ' ' as int else s[i]
    ensures PLUS !in s ==> r == s
  {
    if s == [] then []
    else [if s[0] == PLUS then SPACE else s[0]] + PlusToSpace(s[1..])
  }

  function DecodeComponent(s: Text): Text {
    PercentDecode(PlusToSpace(s))
  }

  lemma {:induction false} DecodeComponentEncode(s: Text)
    ensures DecodeComponent(Encode(s)) == s
  {
    EncodedIsSafe(s);
    DecodeEncode(s);
  }

  // ----- ordered pairs

  /** `None` is a bare key, `Some([])` an explicitly empty value. */
  datatype Pair = Pair(key: Text, value: Option<Text>)

  function ParsePair(piece: Text): Pair {
    match Find(piece, EQUALS)
    case Some(i) => Pair(DecodeComponent(piece[..i]), Some(DecodeComponent(piece[i + 1..])))
    case None => Pair(DecodeComponent(piece), None)
  }

  /** The first equals sign divides a piece; one without is a bare key. */
  lemma {:induction false} ParsePairIs(key: Text, value: Text)
    requires '=' as int !in key
    ensures ParsePair(key + (['=' as int] + value)) == Pair(DecodeComponent(key), Some(DecodeComponent(value)))
    ensures ParsePair(key) == Pair(DecodeComponent(key), None)
  {
    FindInConcat(key, EQUALS, value);
    AroundSeparator(key, EQUALS, value);
  }

  function ParsePieces(pieces: seq<Text>): seq<Pair> {
    if pieces == [] then []
    else if pieces[0] == [] then ParsePieces(pieces[1..])
    else [ParsePair(pieces[0])] + ParsePieces(pieces[1..])
  }

  /** Every piece but the empty ones gives one pair, in order. */
  lemma {:induction false} ParsePiecesMore(pieces: seq<Text>, piece: Text)
    ensures ParsePieces(pieces + [piece]) == ParsePieces(pieces) + (if piece == [] then [] else [ParsePair(piece)])
  {
    if pieces == [] {
      assert [] + [piece] == [piece] && [piece][1..] == [];
    } else {
      assert (pieces + [piece])[1..] == pieces[1..] + [piece];
      ParsePiecesMore(pieces[1..], piece);
      if pieces[0] != [] {
        Assoc([ParsePair(pieces[0])], ParsePieces(pieces[1..]), if piece == [] then [] else [ParsePair(piece)]);
      }
    }
  }

  function ParsePairs(raw: Text): seq<Pair> {
    ParsePieces(Split(raw, AMPERSAND))
  }

  function RenderPair(p: Pair): Text {
    match p.value
    case Some(v) => Encode(p.key) + ([EQUALS] + Encode(v))
    case None => Encode(p.key)
  }

  function RenderEach(pairs: seq<Pair>): (pieces: seq<Text>)
    ensures |pieces| == |pairs|
  {
    if pairs == [] then [] else [RenderPair(pairs[0])] + RenderEach(pairs[1..])
  }

  function RenderPairs(pairs: seq<Pair>): Text {
    Join(RenderEach(pairs), AMPERSAND)
  }

  lemma {:induction false} ParseKeyValue(key: Text, v: Text)
    requires EQUALS !in key && AMPERSAND !in key
    ensures ParsePair(key + ([EQUALS] + Encode(v))) == Pair(DecodeComponent(key), Some(v))
    ensures AMPERSAND !in key + ([EQUALS] + Encode(v))
  {
    var piece := key + ([EQUALS] + Encode(v));
    FindInConcat(key, EQUALS, Encode(v));
    AroundSeparator(key, EQUALS, Encode(v));
    DecodeComponentEncode(v);
    EncodedAvoids(v, AMPERSAND);
  }

  lemma {:induction false} ParseRenderedPair(p: Pair)
    ensures ParsePair(RenderPair(p)) == p
    ensures AMPERSAND !in RenderPair(p)
    ensures RenderPair(p) == [] <==> p == Pair([], None)
  {
    EncodedAvoids(p.key, AMPERSAND);
    EncodedAvoids(p.key, EQUALS);
    DecodeComponentEncode(p.key);
    EncodedIsSafe(p.key);
    if p.value.Some? {
      ParseKeyValue(Encode(p.key), p.value.value);
    }
  }

  /** The pairs that leave a trace in the printed query: all but a bare empty key. */
  function Printable(pairs: seq<Pair>): seq<Pair> {
    if pairs == [] then []
    else (if pairs[0] == Pair([], None) then [] else [pairs[0]]) + Printable(pairs[1..])
  }

  lemma {:induction false} ParseRenderedEach(pairs: seq<Pair>)
    ensures ParsePieces(RenderEach(pairs)) == Printable(pairs)
    ensures forall piece <- RenderEach(pairs) :: AMPERSAND !in piece
  {
    if pairs != [] {
      ParseRenderedPair(pairs[0]);
      ParseRenderedEach(pairs[1..]);
      assert RenderEach(pairs)[1..] == RenderEach(pairs[1..]);
    }
  }

  /** Printing then parsing drops bare empty keys and keeps all else, in order. */
  lemma {:induction false} ParseRender(pairs: seq<Pair>)
    ensures ParsePairs(RenderPairs(pairs)) == Printable(pairs)
  {
    ParseRenderedEach(pairs);
    if pairs == [] {
      assert Split([], AMPERSAND) == [[]];
      assert ParsePieces([[]]) == ParsePieces([[]][1..]);
    } else {
      SplitJoin(RenderEach(pairs), AMPERSAND);
    }
  }

  lemma {:induction false} PrintableAll(pairs: seq<Pair>)
    ensures |Printable(pairs)| <= |pairs|
    ensures Printable(pairs) == pairs <==> Pair([], None) !in pairs
  {
    if pairs != [] {
      PrintableAll(pairs[1..]);
      assert pairs == [pairs[0]] + pairs[1..];
      if pairs[0] != Pair([], None) {
        assert Printable(pairs)[1..] == Printable(pairs[1..]);
      }
    }
  }

  /** The exact round trip: it fails precisely when some pair is a bare empty key. */
  lemma {:induction false} QueryRoundTripIff(pairs: seq<Pair>)
    ensures ParsePairs(RenderPairs(pairs)) == pairs <==> Pair([], None) !in pairs
  {
    ParseRender(pairs);
    PrintableAll(pairs);
  }
}
