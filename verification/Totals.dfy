/** Adding up a measure over a list. */
module Totals {

  function Total<T>(xs: seq<T>, f: T -> nat): nat {
    if xs == [] then 0 else Total(xs[..|xs| - 1], f) + f(xs[|xs| - 1])
  }

  lemma {:induction false} TotalUpdate<T>(xs: seq<T>, f: T -> nat, i: nat, x: T)
    requires i < |xs|
    ensures Total(xs[i := x], f) == Total(xs, f) - f(xs[i]) + f(x)
  {
    var last := |xs| - 1;
    if i == last {
      assert xs[i := x][..last] == xs[..last];
    } else {
      assert xs[i := x][..last] == xs[..last][i := x];
      TotalUpdate(xs[..last], f, i, x);
    }
  }

  lemma {:induction false} TotalAtLeast<T>(xs: seq<T>, f: T -> nat, i: nat)
    requires i < |xs|
    ensures f(xs[i]) <= Total(xs, f)
  {
    if i < |xs| - 1 {
      TotalAtLeast(xs[..|xs| - 1], f, i);
    }
  }

  lemma {:induction false} SomePositive<T>(xs: seq<T>, f: T -> nat) returns (i: nat)
    requires Total(xs, f) > 0
    ensures i < |xs| && f(xs[i]) > 0
  {
    if f(xs[|xs| - 1]) > 0 {
      i := |xs| - 1;
    } else {
      i := SomePositive(xs[..|xs| - 1], f);
    }
  }

  lemma {:induction false} TotalConstant<T>(xs: seq<T>, f: T -> nat, x: T)
    requires forall i :: 0 <= i < |xs| ==> xs[i] == x
    ensures Total(xs, f) == |xs| * f(x)
  {
    if xs != [] {
      TotalConstant(xs[..|xs| - 1], f, x);
    }
  }
}
