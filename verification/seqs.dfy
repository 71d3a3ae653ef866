/** Concatenating the pieces produced for each element of a list, the shape
    of every "for each item, append its lines" loop in the program. */
module Seqs {

  /** Applies `f` to every element, keeping the order. */
  function Map<T, U>(xs: seq<T>, f: T -> U): (r: seq<U>)
    ensures |r| == |xs|
    ensures forall j :: 0 <= j < |xs| ==> r[j] == f(xs[j])
    decreases |xs|
  {
    if |xs| == 0 then [] else [f(xs[0])] + Map(xs[1..], f)
  }

  /** Mapping one more element appends its image. */
  lemma MapSnoc<T, U>(xs: seq<T>, x: T, f: T -> U)
    ensures Map(xs + [x], f) == Map(xs, f) + [f(x)]
  {
    var a := Map(xs + [x], f);
    var b := Map(xs, f) + [f(x)];
    forall j | 0 <= j < |a|
      ensures a[j] == b[j]
    {
      assert (xs + [x])[j] == if j < |xs| then xs[j] else x;
    }
  }

  function FlatMap<T, U>(xs: seq<T>, f: T -> seq<U>): seq<U>
  {
    if |xs| == 0 then [] else f(xs[0]) + FlatMap(xs[1..], f)
  }

  /** The pieces of a longer list are those of its parts, in order. */
  lemma {:induction false} FlatMapAppend<T, U>(a: seq<T>, b: seq<T>, f: T -> seq<U>)
    ensures FlatMap(a + b, f) == FlatMap(a, f) + FlatMap(b, f)
    decreases |a|
  {
    if |a| == 0 {
      assert a + b == b;
    } else {
      assert (a + b)[1..] == a[1..] + b;
      FlatMapAppend(a[1..], b, f);
    }
  }

  /** When each element yields at most `k` pieces, the list yields at most
      `k` per element. */
  lemma {:induction false} FlatMapBound<T, U>(xs: seq<T>, f: T -> seq<U>, k: nat)
    requires forall j :: 0 <= j < |xs| ==> |f(xs[j])| <= k
    ensures |FlatMap(xs, f)| <= k * |xs|
    decreases |xs|
  {
    if |xs| > 0 {
      FlatMapBound(xs[1..], f, k);
    }
  }
}
