/** Weighted sums over sequences: the counting used by the conservation and termination proofs. */
module Sums {

  function Sum<T>(xs: seq<T>, w: T -> nat): nat {
    if xs == [] then 0 else w(xs[0]) + Sum(xs[1..], w)
  }

  function Without<T>(xs: seq<T>, i: nat): seq<T>
    requires i < |xs|
  {
    xs[..i] + xs[i + 1..]
  }

  lemma {:induction false} SumAppend<T>(xs: seq<T>, ys: seq<T>, w: T -> nat)
    ensures Sum(xs + ys, w) == Sum(xs, w) + Sum(ys, w)
  {
    if xs == [] {
      assert xs + ys == ys;
    } else {
      assert (xs + ys)[1..] == xs[1..] + ys;
      SumAppend(xs[1..], ys, w);
    }
  }

  lemma {:induction false} SumSplit<T>(xs: seq<T>, i: nat, w: T -> nat)
    requires i < |xs|
    ensures Sum(xs, w) == Sum(xs[..i], w) + w(xs[i]) + Sum(xs[i + 1..], w)
  {
    assert xs == xs[..i] + xs[i..];
    SumAppend(xs[..i], xs[i..], w);
    assert xs[i..][1..] == xs[i + 1..];
  }

  lemma {:induction false} SumUpdate<T>(xs: seq<T>, i: nat, x: T, w: T -> nat)
    requires i < |xs|
    ensures Sum(xs[i := x], w) + w(xs[i]) == Sum(xs, w) + w(x)
  {
    SumSplit(xs, i, w);
    SumSplit(xs[i := x], i, w);
    assert xs[i := x][..i] == xs[..i] && xs[i := x][i + 1..] == xs[i + 1..];
  }

  lemma {:induction false} SumWithout<T>(xs: seq<T>, i: nat, w: T -> nat)
    requires i < |xs|
    ensures Sum(Without(xs, i), w) + w(xs[i]) == Sum(xs, w)
  {
    SumSplit(xs, i, w);
    SumAppend(xs[..i], xs[i + 1..], w);
  }

  lemma SumSnoc<T>(xs: seq<T>, x: T, w: T -> nat)
    ensures Sum(xs + [x], w) == Sum(xs, w) + w(x)
  {
    SumAppend(xs, [x], w);
    assert Sum([x], w) == w(x) + Sum([], w);
  }

  lemma SumMember<T>(xs: seq<T>, i: nat, w: T -> nat)
    requires i < |xs|
    ensures w(xs[i]) <= Sum(xs, w)
  {
    SumSplit(xs, i, w);
  }

  /** Two different positions of weight one make the sum at least two. */
  lemma SumPair<T>(xs: seq<T>, i: nat, j: nat, w: T -> nat)
    requires i < j < |xs|
    ensures w(xs[i]) + w(xs[j]) <= Sum(xs, w)
  {
    SumSplit(xs, i, w);
    assert xs[i + 1..][j - i - 1] == xs[j];
    SumMember(xs[i + 1..], j - i - 1, w);
  }

  /** A positive sum has a positive position. */
  lemma {:induction false} SumWitness<T>(xs: seq<T>, w: T -> nat) returns (i: nat)
    requires 0 < Sum(xs, w)
    ensures i < |xs| && 0 < w(xs[i])
  {
    if 0 < w(xs[0]) {
      i := 0;
    } else {
      var j := SumWitness(xs[1..], w);
      i := j + 1;
    }
  }

  lemma {:induction false} SumZero<T>(xs: seq<T>, w: T -> nat)
    requires forall i :: 0 <= i < |xs| ==> w(xs[i]) == 0
    ensures Sum(xs, w) == 0
  {
    if xs != [] {
      SumZero(xs[1..], w);
    }
  }
}
