/** What a client receives of items the server framed, however the bytes arrive. */
module Delivery {
  import opened Basics
  import opened TextLists
  import opened Framing
  import opened ClientStream
  import opened ServerStream

  /** An item's bytes on the wire, and the bytes that deframing hands to the decoder. */
  datatype Piece = Piece(wire: Text, item: Text)

  function Wire(pieces: seq<Piece>): Text {
    if pieces == [] then [] else pieces[0].wire + Wire(pieces[1..])
  }

  function Received<T>(decode: Decoder<T>, pieces: seq<Piece>): seq<Result<T, ClientError>> {
    if pieces == [] then [] else [Decoded(decode, pieces[0].item)] + Received(decode, pieces[1..])
  }

  /** Whatever follows it, the piece is cut off whole. */
  ghost predicate CutsWhole(f: Framing, p: Piece) {
    forall more: Text :: Deframe(f, p.wire + more, false) == Some(Cut(p.item, more))
  }

  lemma {:induction false} WireReceived<T>(f: Framing, decode: Decoder<T>, max: nat, pieces: seq<Piece>)
    requires forall p <- pieces :: CutsWhole(f, p)
    ensures ClientRun(f, decode, max, Wire(pieces), false, []) == Received(decode, pieces)
  {
    if pieces == [] {
      assert Deframe(f, [], false) == None && Deframe(f, [], true) == None;
    } else {
      assert CutsWhole(f, pieces[0]);
      WireReceived(f, decode, max, pieces[1..]);
    }
  }

  /** A proper front part of a piece holds no frame. */
  lemma {:induction false} FrontHoldsNone(f: Framing, p: Piece, n: nat)
    requires CutsWhole(f, p) && n < |p.wire|
    ensures Deframe(f, p.wire[..n], false).None?
  {
    var front, back := p.wire[..n], p.wire[n..];
    assert front + back == p.wire && p.wire + [] == p.wire;
    assert Deframe(f, p.wire + [], false) == Some(Cut(p.item, []));
    if Deframe(f, front, false).Some? {
      DeframeStable(f, front, back, false);
    }
  }

  /** What is left of the wire once the first piece is complete, or how much of that piece is there. */
  lemma {:induction false} FirstPiece(p: Piece, rest: seq<Piece>, buf: Text, more: Text)
    requires buf + more == p.wire + Wire(rest)
    ensures if |buf| >= |p.wire|
      then buf == p.wire + buf[|p.wire|..] && buf[|p.wire|..] + more == Wire(rest)
      else buf == p.wire[..|buf|]
  {
    var whole := buf + more;
    assert buf == whole[..|buf|];
    assert p.wire == whole[..|p.wire|] && Wire(rest) == whole[|p.wire|..];
  }

  /** Pieces and chunks that are small enough together never let too much wait, however long the stream is. */
  lemma {:induction false} SmallPiecesStayWithin(f: Framing, max: nat, pieces: seq<Piece>, buf: Text,
      chunks: seq<Text>, m: nat, c: nat)
    requires forall p <- pieces :: CutsWhole(f, p) && |p.wire| <= m
    requires forall chunk <- chunks :: |chunk| <= c
    requires buf + Flatten(chunks) == Wire(pieces) && m + c <= max + 1
    ensures StaysWithin(f, max, buf, chunks)
    decreases |chunks|, |buf|
  {
    if pieces != [] && |buf| >= |pieces[0].wire| {
      var p, rest := pieces[0], buf[|pieces[0].wire|..];
      FirstPiece(p, pieces[1..], buf, Flatten(chunks));
      assert CutsWhole(f, p) && Deframe(f, p.wire + rest, false) == Some(Cut(p.item, rest));
      SmallPiecesStayWithin(f, max, pieces[1..], rest, chunks, m, c);
    } else {
      if pieces != [] {
        FirstPiece(pieces[0], pieces[1..], buf, Flatten(chunks));
        FrontHoldsNone(f, pieces[0], |buf|);
      } else {
        assert buf == [];
      }
      if chunks != [] {
        Assoc(buf, chunks[0], Flatten(chunks[1..]));
        assert pieces == [] ==> chunks[0] == [];
        SmallPiecesStayWithin(f, max, pieces, buf + chunks[0], chunks[1..], m, c);
      }
    }
  }

  /**
   Pieces that are cut off whole arrive one by one, in order, on a stream of any length,
   exactly when the waiting bytes stay within the limit as the chunks come in.
   */
  lemma {:induction false} ClientReceivesIff<T>(f: Framing, decode: Decoder<T>, max: nat, pieces: seq<Piece>,
      chunks: seq<Text>)
    requires forall p <- pieces :: CutsWhole(f, p)
    requires Flatten(chunks) == Wire(pieces)
    ensures ClientRun(f, decode, max, [], false, DataEvents(chunks)) == Received(decode, pieces)
       <==> StaysWithin(f, max, [], chunks)
  {
    ChunkIndependence(f, decode, max, [], chunks, []);
    assert DataEvents(chunks) + [] == DataEvents(chunks);
    NothingInFront(Wire(pieces));
    WireReceived(f, decode, max, pieces);
  }

  /** So they arrive whenever a piece and a chunk together fit the limit. */
  lemma {:induction false} ClientReceives<T>(f: Framing, decode: Decoder<T>, max: nat, pieces: seq<Piece>,
      chunks: seq<Text>, m: nat, c: nat)
    requires forall p <- pieces :: CutsWhole(f, p) && |p.wire| <= m
    requires forall chunk <- chunks :: |chunk| <= c
    requires Flatten(chunks) == Wire(pieces) && m + c <= max + 1
    ensures ClientRun(f, decode, max, [], false, DataEvents(chunks)) == Received(decode, pieces)
  {
    NothingInFront(Wire(pieces));
    SmallPiecesStayWithin(f, max, pieces, [], chunks, m, c);
    ClientReceivesIff(f, decode, max, pieces, chunks);
  }

  /** A newline-framed item survives exactly when it holds no newline. */
  lemma {:induction false} NewlineCutsWholeIff(item: Text)
    ensures CutsWhole(Newline, Piece(FrameItem(Newline, item), item)) <==> LF !in item
  {
    var p := Piece(FrameItem(Newline, item), item);
    if LF !in item {
      forall more: Text ensures Deframe(Newline, p.wire + more, false) == Some(Cut(p.item, more)) {
        Assoc(item, [LF], more);
        FindInConcat(item, LF, more);
        AroundSeparator(item, LF, more);
      }
    } else {
      var r := Deframe(Newline, p.wire + [], false);
      assert r.Some? ==> LF !in r.value.item;
    }
  }

  /** A netstring-framed item survives whatever it holds. */
  lemma {:induction false} NetstringCutsWhole(item: Text)
    requires |Digits(|item|)| + |item| + 2 <= USIZE_MAX
    ensures CutsWhole(Netstring, Piece(FrameItem(Netstring, item), item))
  {
    forall more: Text
      ensures Deframe(Netstring, FrameItem(Netstring, item) + more, false) == Some(Cut(item, more))
    {
      var body := FrameItem(Netstring, item) + more;
      FrameInFront(item, more);
      NetstringFront(body, item, more);
    }
  }

  lemma {:induction false} NetstringFront(body: Text, item: Text, more: Text)
    requires FrontParts(body, item, more) && |Digits(|item|)| + |item| + 2 <= USIZE_MAX
    ensures NetstringCut(body) == Some(Cut(item, more))
  {}
}
