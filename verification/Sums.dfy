/** Counting over sequences, with how a count moves when one entry does. */
module Sums {
  function Sum<T>(xs: seq<T>, f: T -> nat): nat {
    if xs == [] then 0 else Sum(xs[..|xs| - 1], f) + f(xs[|xs| - 1])
  }

  lemma Snoc<T>(xs: seq<T>, x: T, f: T -> nat)
    ensures Sum(xs + [x], f) == Sum(xs, f) + f(x)
  {
    assert (xs + [x])[..|xs|] == xs;
  }

  lemma {:induction false} Concat<T>(xs: seq<T>, ys: seq<T>, f: T -> nat)
    ensures Sum(xs + ys, f) == Sum(xs, f) + Sum(ys, f)
  {
    if ys == [] {
      assert xs + ys == xs;
    } else {
      var init := ys[..|ys| - 1];
      Concat(xs, init, f);
      assert xs + ys == (xs + init) + [ys[|ys| - 1]];
      Snoc(xs + init, ys[|ys| - 1], f);
    }
  }

  lemma One<T>(x: T, f: T -> nat)
    ensures Sum([x], f) == f(x)
  {
    Snoc([], x, f);
    assert [] + [x] == [x];
  }

  lemma Pop<T>(xs: seq<T>, f: T -> nat)
    requires xs != []
    ensures Sum(xs, f) == f(xs[0]) + Sum(xs[1..], f)
  {
    assert xs == [xs[0]] + xs[1..];
    Concat([xs[0]], xs[1..], f);
    One(xs[0], f);
  }

  lemma {:induction false} Split<T>(xs: seq<T>, i: nat, f: T -> nat)
    requires i < |xs|
    ensures Sum(xs, f) == Sum(xs[..i], f) + f(xs[i]) + Sum(xs[i + 1..], f)
  {
    assert xs == (xs[..i] + [xs[i]]) + xs[i + 1..];
    Concat(xs[..i] + [xs[i]], xs[i + 1..], f);
    Snoc(xs[..i], xs[i], f);
  }

  lemma Replace<T>(xs: seq<T>, i: nat, x: T, f: T -> nat)
    requires i < |xs|
    ensures Sum(xs[i := x], f) + f(xs[i]) == Sum(xs, f) + f(x)
  {
    Split(xs, i, f);
    var ys := xs[i := x];
    Split(ys, i, f);
    assert ys[..i] == xs[..i] && ys[i + 1..] == xs[i + 1..];
  }

  lemma Remove<T>(xs: seq<T>, i: nat, f: T -> nat)
    requires i < |xs|
    ensures Sum(xs[..i] + xs[i + 1..], f) + f(xs[i]) == Sum(xs, f)
  {
    Split(xs, i, f);
    Concat(xs[..i], xs[i + 1..], f);
  }

  lemma {:induction false} Nothing<T>(xs: seq<T>, f: T -> nat)
    requires forall x :: x in xs ==> f(x) == 0
    ensures Sum(xs, f) == 0
  {
    if xs != [] {
      Nothing(xs[..|xs| - 1], f);
    }
  }

  lemma {:induction false} AtLeast<T>(xs: seq<T>, i: nat, f: T -> nat)
    requires i < |xs|
    ensures f(xs[i]) <= Sum(xs, f)
  {
    Split(xs, i, f);
  }

  lemma {:induction false} AtMostLength<T>(xs: seq<T>, f: T -> nat)
    requires forall x :: x in xs ==> f(x) <= 1
    ensures Sum(xs, f) <= |xs|
  {
    if xs != [] {
      AtMostLength(xs[..|xs| - 1], f);
    }
  }
}
