/** Searching, splitting and joining text at a separator byte. */
module TextLists {
  import opened Basics

  /** The position of the first `sep`, if any. */
  function Find(s: Text, sep: byte): (r: Option<nat>)
    ensures r.None? <==> sep !in s
    ensures r.Some? ==> r.value < |s| && s[r.value] == sep && sep !in s[..r.value]
  {
    if s == [] then None
    else if s[0] == sep then Some(0)
    else
      match Find(s[1..], sep)
      case None => None
      case Some(i) =>
        assert s[..i + 1] == [s[0]] + s[1..][..i];
        Some(i + 1)
  }

  /** Only the part up to the first separator matters. */
  lemma {:induction false} FindIs(s: Text, sep: byte, i: nat)
    requires i < |s| && s[i] == sep && sep !in s[..i]
    ensures Find(s, sep) == Some(i)
  {
    var j := Find(s, sep).value;
    assert forall k :: 0 <= k < i ==> s[k] == s[..i][k];
    assert forall k :: 0 <= k < j ==> s[k] == s[..j][k];
  }

  lemma {:induction false} FindInConcat(head: Text, sep: byte, tail: Text)
    requires sep !in head
    ensures Find(head + ([sep] + tail), sep) == Some(|head|)
  {
    AroundSeparator(head, sep, tail);
    FindIs(head + ([sep] + tail), sep, |head|);
  }

  /** The search loop of an iterator's `position`. */
  method Position(s: Text, sep: byte) returns (r: Option<nat>)
    ensures r == Find(s, sep)
  {
    for i := 0 to |s|
      invariant sep !in s[..i]
    {
      if s[i] == sep {
        FindIs(s, sep, i);
        return Some(i);
      }
      assert s[..i + 1] == s[..i] + [s[i]];
    }
    assert s[..|s|] == s;
    r := None;
  }

  function Split(s: Text, sep: byte): (parts: seq<Text>)
    ensures parts != []
    ensures forall p <- parts :: sep !in p
    decreases |s|
  {
    match Find(s, sep)
    case None => [s]
    case Some(i) => [s[..i]] + Split(s[i + 1..], sep)
  }

  function Join(parts: seq<Text>, sep: byte): Text {
    if parts == [] then []
    else if |parts| == 1 then parts[0]
    else parts[0] + ([sep] + Join(parts[1..], sep))
  }

  lemma {:induction false} SplitJoin(parts: seq<Text>, sep: byte)
    requires parts != []
    requires forall p <- parts :: sep !in p
    ensures Split(Join(parts, sep), sep) == parts
  {
    var s := Join(parts, sep);
    if |parts| > 1 {
      var rest := Join(parts[1..], sep);
      SplitJoin(parts[1..], sep);
      FindInConcat(parts[0], sep, rest);
      AroundSeparator(parts[0], sep, rest);
      assert parts == [parts[0]] + parts[1..];
    } else {
      assert Find(s, sep) == None;
    }
  }

  lemma {:induction false} JoinSplit(s: Text, sep: byte)
    ensures Join(Split(s, sep), sep) == s
    decreases |s|
  {
    match Find(s, sep)
    case None =>
    case Some(i) =>
      JoinSplit(s[i + 1..], sep);
      AfterFirst(s[..i], Split(s[i + 1..], sep));
      SplitAround(s, i);
  }

  /** A separator that splits nothing: the joined text holds only bytes of the parts and separators. */
  lemma {:induction false} JoinAvoids(parts: seq<Text>, sep: byte, b: byte)
    requires b != sep
    requires forall p <- parts :: b !in p
    ensures b !in Join(parts, sep)
  {
    if |parts| > 1 {
      JoinAvoids(parts[1..], sep, b);
    }
  }
}
