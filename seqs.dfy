/** Sums, filters and maps over sequences: the `reduce`, `filter`, `map` and `slice`
    chains that every page and handler of the application is built from. */
module Seqs {

  /** `xs.reduce((sum, x) => sum + f(x), 0)`. */
  function Sum<T>(xs: seq<T>, f: T -> int): int
  {
    if xs == [] then 0 else f(xs[0]) + Sum(xs[1..], f)
  }

  /** `xs.filter(p)`: the elements that satisfy `p`, in their original order. */
  function Filter<T(!new)>(xs: seq<T>, p: T -> bool): (r: seq<T>)
    ensures |r| <= |xs|
    ensures forall x :: x in r <==> x in xs && p(x)
  {
    if xs == [] then [] else (if p(xs[0]) then [xs[0]] else []) + Filter(xs[1..], p)
  }

  /** `xs.map(f)`. */
  function MapSeq<T, U>(xs: seq<T>, f: T -> U): (r: seq<U>)
    ensures |r| == |xs|
    ensures forall i :: 0 <= i < |xs| ==> r[i] == f(xs[i])
  {
    if xs == [] then [] else [f(xs[0])] + MapSeq(xs[1..], f)
  }

  function Min(a: int, b: int): int { if a <= b then a else b }

  /** `xs.slice(0, n)`: at most the first `n` elements. */
  function Take<T>(xs: seq<T>, n: nat): (r: seq<T>)
    ensures |r| == Min(n, |xs|) && r <= xs
  {
    if n <= |xs| then xs[..n] else xs
  }

  /** `a` is an order-preserving subsequence of `b`. */
  ghost predicate Subseq<T>(a: seq<T>, b: seq<T>)
    decreases |b|
  {
    if a == [] then true
    else if b == [] then false
    else (a[0] == b[0] && Subseq(a[1..], b[1..])) || Subseq(a, b[1..])
  }

  lemma {:induction false} SumAppend<T>(xs: seq<T>, ys: seq<T>, f: T -> int)
    ensures Sum(xs + ys, f) == Sum(xs, f) + Sum(ys, f)
  {
    if xs == [] {
      assert xs + ys == ys;
    } else {
      assert (xs + ys)[1..] == xs[1..] + ys;
      SumAppend(xs[1..], ys, f);
    }
  }

  lemma {:induction false} FilterAppend<T(!new)>(xs: seq<T>, ys: seq<T>, p: T -> bool)
    ensures Filter(xs + ys, p) == Filter(xs, p) + Filter(ys, p)
  {
    if xs == [] {
      assert xs + ys == ys;
    } else {
      assert (xs + ys)[1..] == xs[1..] + ys;
      FilterAppend(xs[1..], ys, p);
    }
  }

  lemma {:induction false} MapAppend<T, U>(xs: seq<T>, ys: seq<T>, f: T -> U)
    ensures MapSeq(xs + ys, f) == MapSeq(xs, f) + MapSeq(ys, f)
  {
    if xs == [] {
      assert xs + ys == ys;
    } else {
      assert (xs + ys)[1..] == xs[1..] + ys;
      MapAppend(xs[1..], ys, f);
    }
  }

  /** Changing one element changes the sum by exactly the difference. */
  lemma {:induction false} SumUpdate<T>(xs: seq<T>, i: nat, x: T, f: T -> int)
    requires i < |xs|
    ensures Sum(xs[i := x], f) == Sum(xs, f) - f(xs[i]) + f(x)
  {
    if i == 0 {
      assert xs[i := x][1..] == xs[1..];
    } else {
      assert xs[i := x][1..] == xs[1..][i - 1 := x];
      SumUpdate(xs[1..], i - 1, x, f);
    }
  }

  /** Two disjoint filters whose union is `r` split the sum over `r`. */
  lemma {:induction false} SumFilterSplit<T(!new)>(xs: seq<T>, p: T -> bool, q: T -> bool, r: T -> bool, f: T -> int)
    requires forall x :: r(x) == (p(x) || q(x))
    requires forall x :: !(p(x) && q(x))
    ensures Sum(Filter(xs, p), f) + Sum(Filter(xs, q), f) == Sum(Filter(xs, r), f)
  {
    if xs != [] {
      var x := xs[0];
      SumAppend(if p(x) then [x] else [], Filter(xs[1..], p), f);
      SumAppend(if q(x) then [x] else [], Filter(xs[1..], q), f);
      SumAppend(if r(x) then [x] else [], Filter(xs[1..], r), f);
      SumFilterSplit(xs[1..], p, q, r, f);
    }
  }

  /** A filter keeps the order of what it keeps. */
  lemma {:induction false} FilterIsSubseq<T(!new)>(xs: seq<T>, p: T -> bool)
    ensures Subseq(Filter(xs, p), xs)
  {
    if xs != [] {
      FilterIsSubseq(xs[1..], p);
      if p(xs[0]) {
        assert Filter(xs, p) == [xs[0]] + Filter(xs[1..], p);
        assert Filter(xs, p)[1..] == Filter(xs[1..], p);
      } else {
        assert Filter(xs, p) == Filter(xs[1..], p);
      }
    }
  }

  /** Summing after a map is summing the composed selector. */
  lemma {:induction false} SumMapSeq<T, U>(xs: seq<T>, f: T -> U, g: U -> int, h: T -> int)
    requires forall x :: g(f(x)) == h(x)
    ensures Sum(MapSeq(xs, f), g) == Sum(xs, h)
  {
    if xs != [] {
      assert MapSeq(xs, f)[1..] == MapSeq(xs[1..], f);
      SumMapSeq(xs[1..], f, g, h);
    }
  }

  /** Appending one element adds its value to a filtered total exactly when it passes. */
  lemma SumFilterSnoc<T(!new)>(xs: seq<T>, x: T, p: T -> bool, f: T -> int)
    ensures Sum(Filter(xs + [x], p), f) == Sum(Filter(xs, p), f) + (if p(x) then f(x) else 0)
  {
    FilterAppend(xs, [x], p);
    SumAppend(Filter(xs, p), Filter([x], p), f);
    assert Filter([x], p) == if p(x) then [x] else [];
    assert [x][1..] == [];
  }
}
