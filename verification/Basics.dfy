/** Values shared by every model: optional and fallible results, bytes and text. */
module Basics {
  datatype Option<+T> = None | Some(value: T) {
    function GetOr(default: T): T {
      match this
      case Some(v) => v
      case None => default
    }
  }

  datatype Result<+T, +E> = Ok(value: T) | Err(error: E)

  type byte = b: int | 0 <= b < 256

  /** A Rust string or byte vector, as its UTF-8 bytes. */
  type Text = seq<byte>

  /** What the slices around a separator are. */
  lemma {:induction false} AroundSeparator<T>(head: seq<T>, sep: T, tail: seq<T>)
    ensures var s := head + ([sep] + tail);
      |s| == |head| + 1 + |tail| && s[..|head|] == head && s[|head|] == sep && s[|head| + 1..] == tail
  {}

  /** And what the slices of what follows it are. */
  lemma {:induction false} BehindSeparator<T>(head: seq<T>, sep: T, tail: seq<T>, i: nat)
    requires i < |tail|
    ensures var s, start := head + ([sep] + tail), |head| + 1;
      s[start..start + i] == tail[..i] && s[start + i] == tail[i] && s[start + i + 1..] == tail[i + 1..]
  {}

  lemma {:induction false} SplitAround<T>(s: seq<T>, i: nat)
    requires i < |s|
    ensures s == s[..i] + ([s[i]] + s[i + 1..])
  {}

  lemma {:induction false} SliceOfTail<T>(s: seq<T>, start: nat, i: nat, j: nat)
    requires i <= j && start + j <= |s|
    ensures s[start..][i..j] == s[start + i..start + j] && s[start..][j..] == s[start + j..]
  {}

  lemma {:induction false} TakeNext<T>(front: seq<T>, s: seq<T>, i: nat)
    requires i < |s|
    ensures front + s[..i] + [s[i]] == front + s[..i + 1]
  {}

  lemma {:induction false} FirstAndRest<T>(s: seq<T>)
    requires s != []
    ensures s == [s[0]] + s[1..]
  {}

  lemma {:induction false} AfterFirst<T>(x: T, tail: seq<T>)
    ensures ([x] + tail)[1..] == tail && ([x] + tail)[0] == x
  {}

  lemma {:induction false} NothingInFront<T>(xs: seq<T>)
    ensures [] + xs == xs
  {}

  lemma {:induction false} Assoc<T>(a: seq<T>, b: seq<T>, c: seq<T>)
    ensures a + b + c == a + (b + c)
  {}

  lemma {:induction false} Assoc5<T>(a: seq<T>, b: seq<T>, c: seq<T>, d: seq<T>, e: seq<T>)
    ensures a + (b + (c + (d + e))) == a + b + c + d + e
  {}

  lemma {:induction false} UpdateSwap<T>(s: seq<T>, i: nat, x: T, j: nat, y: T)
    requires i < |s| && j < |s| && i != j
    ensures s[i := x][j := y] == s[j := y][i := x]
  {}

  lemma {:induction false} UpdateAppend<T>(s: seq<T>, i: nat, x: T, last: T)
    requires i < |s|
    ensures (s + [last])[i := x] == s[i := x] + [last]
  {}

  lemma {:induction false} UpdateBehind<T>(first: T, s: seq<T>, i: nat, x: T)
    requires i < |s|
    ensures ([first] + s)[i + 1 := x] == [first] + s[i := x]
  {}

  lemma {:induction false} UpdateFirst<T>(first: T, s: seq<T>, x: T)
    ensures ([first] + s)[0 := x] == [x] + s
  {}

  /** A list result with `xs` put in front of it. */
  function Prepend<T, E>(xs: seq<T>, r: Result<seq<T>, E>): Result<seq<T>, E> {
    match r
    case Ok(ys) => Ok(xs + ys)
    case Err(e) => Err(e)
  }

  lemma {:induction false} PrependTwice<T, E>(xs: seq<T>, ys: seq<T>, r: Result<seq<T>, E>)
    ensures Prepend(xs, Prepend(ys, r)) == Prepend(xs + ys, r)
  {
    if r.Ok? {
      assert xs + (ys + r.value) == xs + ys + r.value;
    }
  }

  lemma {:induction false} PrependNothing<T, E>(r: Result<seq<T>, E>)
    ensures Prepend([], r) == r
  {
    if r.Ok? {
      assert [] + r.value == r.value;
    }
  }

  /** The items of `parts`, one after another. */
  function Flatten<T>(parts: seq<seq<T>>): seq<T> {
    if parts == [] then [] else parts[0] + Flatten(parts[1..])
  }

  lemma {:induction false} FlattenOne<T>(part: seq<T>)
    ensures Flatten([part]) == part
  {
    assert [part][1..] == [];
    assert part + [] == part;
  }

  lemma {:induction false} FlattenTwo<T>(first: seq<T>, second: seq<T>)
    ensures Flatten([first, second]) == first + second
  {
    assert [first, second][1..] == [second];
    FlattenOne(second);
  }

  /** The items of `ys` that are not in `xs`, each where it occurs first. */
  function NewOnes<T(==)>(xs: seq<T>, ys: seq<T>): seq<T>
    decreases |ys|
  {
    if ys == [] then []
    else
      var front, last := ys[..|ys| - 1], ys[|ys| - 1];
      NewOnes(xs, front) + (if last in xs || last in front then [] else [last])
  }
}
