/** Counting over histories. */
module Counting {

  function Count<T>(xs: seq<T>, p: T -> bool): (n: nat)
    ensures n <= |xs|
  {
    if xs == [] then 0
    else Count(xs[..|xs| - 1], p) + if p(xs[|xs| - 1]) then 1 else 0
  }

  lemma CountSnoc<T>(xs: seq<T>, x: T, p: T -> bool)
    ensures Count(xs + [x], p) == Count(xs, p) + if p(x) then 1 else 0
  {
    assert (xs + [x])[..|xs|] == xs;
  }

  lemma {:induction false} CountUpdate<T>(xs: seq<T>, i: nat, x: T, p: T -> bool)
    requires i < |xs|
    ensures Count(xs[i := x], p) + (if p(xs[i]) then 1 else 0) == Count(xs, p) + if p(x) then 1 else 0
  {
    var n := |xs| - 1;
    if i < n {
      CountUpdate(xs[..n], i, x, p);
      assert xs[i := x][..n] == xs[..n][i := x];
    } else {
      assert xs[i := x][..n] == xs[..n];
    }
  }

  lemma {:induction false} CountRemove<T>(xs: seq<T>, i: nat, p: T -> bool)
    requires i < |xs|
    ensures Count(xs[..i] + xs[i + 1..], p) + (if p(xs[i]) then 1 else 0) == Count(xs, p)
  {
    var n := |xs| - 1;
    if i < n {
      CountRemove(xs[..n], i, p);
      assert xs[..i] + xs[i + 1..] == (xs[..n][..i] + xs[..n][i + 1..]) + [xs[n]];
      CountSnoc(xs[..n][..i] + xs[..n][i + 1..], xs[n], p);
    } else {
      assert xs[..i] + xs[i + 1..] == xs[..n];
    }
  }
}
