/**
 * List idioms the components share: the "toggle membership" update behind every
 * checkbox and provider button, order-keeping filters, and sums of real lists.
 */
module ListOps {

  /** `a` is `b` with some elements left out, order kept. */
  predicate IsSubsequence<T(==)>(a: seq<T>, b: seq<T>)
    decreases |b|
  {
    if a == [] then true
    else if b == [] then false
    else if a[0] == b[0] then IsSubsequence(a[1..], b[1..])
    else IsSubsequence(a, b[1..])
  }

  /** A subsequence stays one when the sequence grows at the front. */
  lemma {:induction false} IsSubsequenceOfCons<T>(a: seq<T>, x: T, b: seq<T>)
    requires IsSubsequence(a, b)
    ensures IsSubsequence(a, [x] + b) && IsSubsequence([x] + a, [x] + b)
    decreases |b|, 1
  {
    assert ([x] + b)[1..] == b;
    assert ([x] + a)[1..] == a;
    if a != [] && a[0] == x {
      SubsequenceTail(a, b);
    }
  }

  lemma {:induction false} SubsequenceTail<T>(a: seq<T>, b: seq<T>)
    requires a != [] && IsSubsequence(a, b)
    ensures IsSubsequence(a[1..], b)
    decreases |b|, 0
  {
    assert b == [b[0]] + b[1..];
    if a[0] == b[0] {
      IsSubsequenceOfCons(a[1..], b[0], b[1..]);
    } else {
      SubsequenceTail(a, b[1..]);
      IsSubsequenceOfCons(a[1..], b[0], b[1..]);
    }
  }

  /** `xs` without any occurrence of `x`; the others keep their order. */
  function RemoveAll<T(==,!new)>(xs: seq<T>, x: T): (r: seq<T>)
    ensures x !in r
    ensures forall y :: y != x ==> (y in r <==> y in xs)
    ensures IsSubsequence(r, xs)
    ensures multiset(r) == multiset(xs)[x := 0]
    ensures x !in xs ==> r == xs
    decreases |xs|
  {
    if xs == [] then []
    else
      var r := RemoveAll(xs[1..], x);
      IsSubsequenceOfCons(r, xs[0], xs[1..]);
      assert [xs[0]] + xs[1..] == xs;
      assert multiset(xs) == multiset{xs[0]} + multiset(xs[1..]);
      if xs[0] == x then r else [xs[0]] + r
  }

  /** A checkbox click: drop `x` if present, otherwise append it at the end. */
  function Toggle<T(==,!new)>(xs: seq<T>, x: T): (r: seq<T>)
    ensures x in r <==> x !in xs
    ensures forall y :: y != x ==> (y in r <==> y in xs)
    ensures x !in xs ==> r == xs + [x]
    ensures x in xs ==> IsSubsequence(r, xs) && multiset(r) == multiset(xs)[x := 0]
  {
    if x in xs then RemoveAll(xs, x) else xs + [x]
  }

  /** Clicking twice restores membership; an absent element leaves no trace, a present one moves to the end. */
  lemma ToggleTwice<T(!new)>(xs: seq<T>, x: T)
    ensures forall y :: y in Toggle(Toggle(xs, x), x) <==> y in xs
    ensures x !in xs ==> Toggle(Toggle(xs, x), x) == xs
    ensures x in xs ==> Toggle(Toggle(xs, x), x) == RemoveAll(xs, x) + [x]
  {
    if x !in xs {
      assert x in xs + [x];
      RemoveAllOfAppended(xs, x);
    }
  }

  lemma {:induction false} RemoveAllOfAppended<T(!new)>(xs: seq<T>, x: T)
    requires x !in xs
    ensures RemoveAll(xs + [x], x) == xs
    decreases |xs|
  {
    if xs == [] {
      assert [x][1..] == [];
    } else {
      assert (xs + [x])[1..] == xs[1..] + [x];
      RemoveAllOfAppended(xs[1..], x);
      assert xs == [xs[0]] + xs[1..];
    }
  }

  /** Sum of a list of reals (a `reduce((a, b) => a + b, 0)`). */
  function Sum(xs: seq<real>): real
    decreases |xs|
  {
    if xs == [] then 0.0 else xs[0] + Sum(xs[1..])
  }

  /** The mean of a non-empty list: the sum over the count. */
  function Mean(xs: seq<real>): (avg: real)
    requires xs != []
    ensures avg * |xs| as real == Sum(xs)
  {
    Sum(xs) / |xs| as real
  }

  /** Every element at least `lo` (at most `hi`) bounds the sum by n*lo (n*hi). */
  lemma {:induction false} SumBounds(xs: seq<real>, lo: real, hi: real)
    requires forall i :: 0 <= i < |xs| ==> lo <= xs[i] <= hi
    ensures |xs| as real * lo <= Sum(xs) <= |xs| as real * hi
    decreases |xs|
  {
    if xs != [] {
      SumBounds(xs[1..], lo, hi);
      OneMore(|xs[1..]| as real, lo);
      OneMore(|xs[1..]| as real, hi);
    }
  }

  /** A lower bound reached by every element but exceeded by one makes the bound strict. */
  lemma {:induction false} SumAboveStrict(xs: seq<real>, lo: real, k: nat)
    requires forall i :: 0 <= i < |xs| ==> lo <= xs[i]
    requires k < |xs| && xs[k] > lo
    ensures Sum(xs) > |xs| as real * lo
    decreases |xs|
  {
    OneMore(|xs[1..]| as real, lo);
    if k == 0 {
      SumAtLeast(xs[1..], lo);
    } else {
      SumAboveStrict(xs[1..], lo, k - 1);
    }
  }

  lemma {:induction false} SumAtLeast(xs: seq<real>, lo: real)
    requires forall i :: 0 <= i < |xs| ==> lo <= xs[i]
    ensures Sum(xs) >= |xs| as real * lo
    decreases |xs|
  {
    if xs != [] {
      SumAtLeast(xs[1..], lo);
      OneMore(|xs[1..]| as real, lo);
    }
  }

  /** A sum of n equal elements is n times that element. */
  lemma {:induction false} SumOfConstant(xs: seq<real>, c: real)
    requires forall i :: 0 <= i < |xs| ==> xs[i] == c
    ensures Sum(xs) == |xs| as real * c
    decreases |xs|
  {
    if xs != [] {
      SumOfConstant(xs[1..], c);
      OneMore(|xs[1..]| as real, c);
    }
  }

  /** One more element adds one more `x` to `n` copies of `x`. */
  lemma OneMore(n: real, x: real)
    ensures (n + 1.0) * x == n * x + x
  {
  }
}
