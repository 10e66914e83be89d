/** Optional values, three-way comparison, and sums over sequences. */
module Basics {

  datatype Option<+T> = None | Some(value: T)

  /** The outcome of a comparison, as `Ord::cmp` returns it. */
  datatype Ordering = Less | Equal | Greater {
    /** The second comparison decides only when the first one is a tie. */
    function Then(other: Ordering): Ordering {
      if this == Equal then other else this
    }
  }

  function Compare(a: int, b: int): Ordering {
    if a < b then Less else if a == b then Equal else Greater
  }

  /** The sum of `f` over the elements of `xs`. */
  function Sum<T>(f: T -> nat, xs: seq<T>): nat {
    if xs == [] then 0 else Sum(f, xs[..|xs| - 1]) + f(xs[|xs| - 1])
  }

  lemma SumAppend<T>(f: T -> nat, xs: seq<T>, x: T)
    ensures Sum(f, xs + [x]) == Sum(f, xs) + f(x)
  {
    assert (xs + [x])[..|xs|] == xs;
  }

  lemma {:induction false} SumUpdate<T>(f: T -> nat, xs: seq<T>, i: nat, x: T)
    requires i < |xs|
    ensures Sum(f, xs[i := x]) + f(xs[i]) == Sum(f, xs) + f(x)
  {
    var last := |xs| - 1;
    if i < last {
      SumUpdate(f, xs[..last], i, x);
      assert xs[i := x][..last] == xs[..last][i := x];
    } else {
      assert xs[i := x][..last] == xs[..last];
    }
  }

  /** One element never exceeds the whole sum. */
  lemma {:induction false} SumIncludes<T>(f: T -> nat, xs: seq<T>, i: nat)
    requires i < |xs|
    ensures f(xs[i]) <= Sum(f, xs)
  {
    if i < |xs| - 1 {
      SumIncludes(f, xs[..|xs| - 1], i);
    }
  }

  /** A positive sum has a positive summand. */
  lemma {:induction false} SumWitness<T>(f: T -> nat, xs: seq<T>) returns (i: nat)
    requires Sum(f, xs) > 0
    ensures i < |xs| && f(xs[i]) > 0
  {
    i := |xs| - 1;
    if f(xs[i]) == 0 {
      i := SumWitness(f, xs[..i]);
    }
  }

  lemma {:induction false} SumMonotone<T>(f: T -> nat, xs: seq<T>, g: T -> nat, ys: seq<T>)
    requires |xs| == |ys| && forall i | 0 <= i < |xs| :: f(xs[i]) <= g(ys[i])
    ensures Sum(f, xs) <= Sum(g, ys)
  {
    if xs != [] {
      SumMonotone(f, xs[..|xs| - 1], g, ys[..|ys| - 1]);
    }
  }
}
