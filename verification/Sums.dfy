/** Sums over sequences. */
module Sums {

  function Sum<T>(xs: seq<T>, f: T -> int): int {
    if xs == [] then 0 else Sum(xs[..|xs| - 1], f) + f(xs[|xs| - 1])
  }

  lemma {:induction false} SumUpdate<T>(xs: seq<T>, i: nat, x: T, f: T -> int)
    requires i < |xs|
    ensures Sum(xs[i := x], f) == Sum(xs, f) - f(xs[i]) + f(x)
  {
    var last := |xs| - 1;
    if i == last {
      assert xs[i := x][..last] == xs[..last];
    } else {
      SumUpdate(xs[..last], i, x, f);
      assert xs[i := x][..last] == xs[..last][i := x];
    }
  }

  lemma {:induction false} SumMonotone<T>(xs: seq<T>, ys: seq<T>, f: T -> int)
    requires |xs| == |ys| && forall i | 0 <= i < |xs| :: f(xs[i]) <= f(ys[i])
    ensures Sum(xs, f) <= Sum(ys, f)
  {
    if xs != [] {
      SumMonotone(xs[..|xs| - 1], ys[..|ys| - 1], f);
    }
  }

  lemma {:induction false} SumStrict<T>(xs: seq<T>, ys: seq<T>, f: T -> int, i: nat)
    requires |xs| == |ys| && i < |xs| && f(xs[i]) < f(ys[i])
    requires forall j | 0 <= j < |xs| :: f(xs[j]) <= f(ys[j])
    ensures Sum(xs, f) < Sum(ys, f)
  {
    if i == |xs| - 1 {
      SumMonotone(xs[..i], ys[..i], f);
    } else {
      SumStrict(xs[..|xs| - 1], ys[..|ys| - 1], f, i);
    }
  }

  lemma {:induction false} SumAtLeast<T>(xs: seq<T>, f: T -> int, i: nat)
    requires i < |xs| && forall j | 0 <= j < |xs| :: f(xs[j]) >= 0
    ensures Sum(xs, f) >= f(xs[i])
  {
    if i == |xs| - 1 {
      SumIsNatural(xs[..i], f);
    } else {
      SumAtLeast(xs[..|xs| - 1], f, i);
    }
  }

  lemma {:induction false} SumIsNatural<T>(xs: seq<T>, f: T -> int)
    requires forall j | 0 <= j < |xs| :: f(xs[j]) >= 0
    ensures Sum(xs, f) >= 0
  {
    if xs != [] {
      SumIsNatural(xs[..|xs| - 1], f);
    }
  }

  lemma {:induction false} SumCons<T>(x: T, xs: seq<T>, f: T -> int)
    ensures Sum([x] + xs, f) == f(x) + Sum(xs, f)
  {
    if xs == [] {
      assert [x] + xs == [x] && [x][..0] == [];
    } else {
      assert ([x] + xs)[..|xs|] == [x] + xs[..|xs| - 1];
      SumCons(x, xs[..|xs| - 1], f);
    }
  }

  lemma SumSnoc<T>(xs: seq<T>, x: T, f: T -> int)
    ensures Sum(xs + [x], f) == Sum(xs, f) + f(x)
  {
    assert (xs + [x])[..|xs|] == xs;
  }
}
