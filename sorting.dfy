/** `Array.prototype.sort` with a comparator `(a, b) => key(b) - key(a)`: a stable sort
    into descending order of an integer key. The application sorts ledger listings by
    creation time, report rows by date and menu groups by revenue this way. */
module Sorting {
  import opened Seqs

  ghost predicate SortedDesc<T>(xs: seq<T>, key: T -> int)
  {
    forall i, j :: 0 <= i < j < |xs| ==> key(xs[i]) >= key(xs[j])
  }

  /** The elements of `xs` whose key is `v`, in order. */
  function WithKey<T>(xs: seq<T>, key: T -> int, v: int): seq<T>
  {
    if xs == [] then [] else (if key(xs[0]) == v then [xs[0]] else []) + WithKey(xs[1..], key, v)
  }

  /** Places `x` in front of the first element whose key is not larger than its own. */
  function Insert<T>(x: T, ys: seq<T>, key: T -> int): (r: seq<T>)
    ensures multiset(r) == multiset(ys) + multiset{x}
  {
    if ys == [] || key(x) >= key(ys[0]) then [x] + ys
    else
      assert ys == [ys[0]] + ys[1..];
      [ys[0]] + Insert(x, ys[1..], key)
  }

  /** Putting an element no smaller than the rest in front keeps the order. */
  lemma ConsSorted<T>(y: T, rest: seq<T>, key: T -> int)
    requires SortedDesc(rest, key)
    requires forall z :: z in rest ==> key(y) >= key(z)
    ensures SortedDesc([y] + rest, key)
  {
    var r := [y] + rest;
    forall i, j | 0 <= i < j < |r| ensures key(r[i]) >= key(r[j]) {
      assert r[j] == rest[j - 1];
      if i == 0 {
        assert rest[j - 1] in rest;
      } else {
        assert r[i] == rest[i - 1];
      }
    }
  }

  lemma {:induction false} InsertSorted<T>(x: T, ys: seq<T>, key: T -> int)
    requires SortedDesc(ys, key)
    ensures SortedDesc(Insert(x, ys, key), key)
  {
    if ys == [] || key(x) >= key(ys[0]) {
      forall z | z in ys ensures key(x) >= key(z) {
        var k :| 0 <= k < |ys| && ys[k] == z;
      }
      ConsSorted(x, ys, key);
    } else {
      InsertSorted(x, ys[1..], key);
      InsertBound(x, ys, key);
      ConsSorted(ys[0], Insert(x, ys[1..], key), key);
    }
  }

  lemma InsertBound<T>(x: T, ys: seq<T>, key: T -> int)
    requires SortedDesc(ys, key)
    requires ys != [] && key(x) < key(ys[0])
    ensures forall z :: z in Insert(x, ys[1..], key) ==> key(ys[0]) >= key(z)
  {
    var rest := Insert(x, ys[1..], key);
    forall z | z in rest ensures key(ys[0]) >= key(z) {
      assert z in multiset(rest);
      if z != x {
        assert z in ys[1..];
        var k :| 0 <= k < |ys[1..]| && ys[1..][k] == z;
        assert ys[1 + k] == z;
      }
    }
  }

  /** Stable insertion sort, descending by `key`. */
  function SortDesc<T>(xs: seq<T>, key: T -> int): (r: seq<T>)
    ensures multiset(r) == multiset(xs)
    ensures |r| == |xs|
    ensures SortedDesc(r, key)
  {
    if xs == [] then []
    else
      assert xs == [xs[0]] + xs[1..];
      assert multiset(xs) == multiset(xs[1..]) + multiset{xs[0]};
      var rest := SortDesc(xs[1..], key);
      InsertSorted(xs[0], rest, key);
      var r := Insert(xs[0], rest, key);
      assert |r| == |multiset(r)|;
      r
  }

  lemma {:induction false} InsertWithKey<T>(x: T, ys: seq<T>, key: T -> int, v: int)
    ensures WithKey(Insert(x, ys, key), key, v)
         == (if key(x) == v then [x] else []) + WithKey(ys, key, v)
  {
    if ys == [] || key(x) >= key(ys[0]) {
      assert ([x] + ys)[1..] == ys;
    } else {
      InsertWithKey(x, ys[1..], key, v);
      assert ([ys[0]] + Insert(x, ys[1..], key))[1..] == Insert(x, ys[1..], key);
    }
  }

  /** Stability: the elements sharing a key keep their input order. */
  lemma {:induction false} SortDescStable<T>(xs: seq<T>, key: T -> int, v: int)
    ensures WithKey(SortDesc(xs, key), key, v) == WithKey(xs, key, v)
  {
    if xs != [] {
      SortDescStable(xs[1..], key, v);
      InsertWithKey(xs[0], SortDesc(xs[1..], key), key, v);
    }
  }

  lemma {:induction false} SumInsert<T>(x: T, ys: seq<T>, key: T -> int, f: T -> int)
    ensures Sum(Insert(x, ys, key), f) == f(x) + Sum(ys, f)
  {
    if ys == [] || key(x) >= key(ys[0]) {
      assert ([x] + ys)[1..] == ys;
    } else {
      SumInsert(x, ys[1..], key, f);
      assert ([ys[0]] + Insert(x, ys[1..], key))[1..] == Insert(x, ys[1..], key);
    }
  }

  /** Sorting never changes a total. */
  lemma {:induction false} SumSortDesc<T>(xs: seq<T>, key: T -> int, f: T -> int)
    ensures Sum(SortDesc(xs, key), f) == Sum(xs, f)
  {
    if xs != [] {
      SumSortDesc(xs[1..], key, f);
      SumInsert(xs[0], SortDesc(xs[1..], key), key, f);
    }
  }

  ghost predicate IncreasingBy<T>(xs: seq<T>, f: T -> int)
  {
    forall i, j :: 0 <= i < j < |xs| ==> f(xs[i]) < f(xs[j])
  }

  /** Taking the elements of one key keeps any strict order by `f`. */
  lemma {:induction false} WithKeyIncreasing<T>(xs: seq<T>, key: T -> int, v: int, f: T -> int)
    requires IncreasingBy(xs, f)
    ensures IncreasingBy(WithKey(xs, key, v), f)
  {
    if xs != [] {
      assert IncreasingBy(xs[1..], f);
      WithKeyIncreasing(xs[1..], key, v, f);
      var rest := WithKey(xs[1..], key, v);
      forall b | 0 <= b < |rest|
        ensures f(xs[0]) < f(rest[b])
      {
        WithKeyFrom(xs[1..], key, v, b);
        var k :| 0 <= k < |xs[1..]| && xs[1..][k] == rest[b];
        assert xs[k + 1] == rest[b];
      }
      var w := WithKey(xs, key, v);
      if key(xs[0]) == v {
        assert w == [xs[0]] + rest;
        forall a, b | 0 <= a < b < |w|
          ensures f(w[a]) < f(w[b])
        {
          assert w[b] == rest[b - 1];
          if a > 0 {
            assert w[a] == rest[a - 1];
          }
        }
      } else {
        assert w == rest;
      }
    }
  }

  lemma {:induction false} WithKeyFrom<T>(xs: seq<T>, key: T -> int, v: int, b: int)
    requires 0 <= b < |WithKey(xs, key, v)|
    ensures exists k :: 0 <= k < |xs| && xs[k] == WithKey(xs, key, v)[b]
  {
    var rest := WithKey(xs[1..], key, v);
    if key(xs[0]) == v {
      if b > 0 {
        assert WithKey(xs, key, v)[b] == rest[b - 1];
        WithKeyFrom(xs[1..], key, v, b - 1);
        var k :| 0 <= k < |xs[1..]| && xs[1..][k] == rest[b - 1];
        assert xs[k + 1] == WithKey(xs, key, v)[b];
      } else {
        assert xs[0] == WithKey(xs, key, v)[0];
      }
    } else {
      assert WithKey(xs, key, v) == rest;
      WithKeyFrom(xs[1..], key, v, b);
      var k :| 0 <= k < |xs[1..]| && xs[1..][k] == rest[b];
      assert xs[k + 1] == WithKey(xs, key, v)[b];
    }
  }

  /** Positions of two elements with key `v` compare as their places in `WithKey`. */
  lemma {:induction false} WithKeyOrder<T>(xs: seq<T>, key: T -> int, v: int, f: T -> int)
    requires IncreasingBy(WithKey(xs, key, v), f)
    ensures forall i, j :: 0 <= i < j < |xs| && key(xs[i]) == v && key(xs[j]) == v ==> f(xs[i]) < f(xs[j])
  {
    if xs != [] {
      var w := WithKey(xs, key, v);
      var rest := WithKey(xs[1..], key, v);
      if key(xs[0]) == v {
        assert w == [xs[0]] + rest;
        assert IncreasingBy(rest, f) by {
          forall a, b | 0 <= a < b < |rest|
            ensures f(rest[a]) < f(rest[b])
          {
            assert w[a + 1] == rest[a] && w[b + 1] == rest[b];
          }
        }
        WithKeyOrder(xs[1..], key, v, f);
        forall j | 0 < j < |xs| && key(xs[j]) == v
          ensures f(xs[0]) < f(xs[j])
        {
          WithKeyHas(xs[1..], key, v, j - 1);
          var b :| 0 <= b < |rest| && rest[b] == xs[1..][j - 1];
          assert w[0] == xs[0] && w[b + 1] == xs[j];
        }
      } else {
        assert w == rest;
        WithKeyOrder(xs[1..], key, v, f);
      }
      forall i, j | 0 <= i < j < |xs| && key(xs[i]) == v && key(xs[j]) == v
        ensures f(xs[i]) < f(xs[j])
      {
        if i > 0 {
          assert xs[i] == xs[1..][i - 1] && xs[j] == xs[1..][j - 1];
        }
      }
    }
  }

  lemma {:induction false} WithKeyHas<T>(xs: seq<T>, key: T -> int, v: int, k: int)
    requires 0 <= k < |xs| && key(xs[k]) == v
    ensures exists b :: 0 <= b < |WithKey(xs, key, v)| && WithKey(xs, key, v)[b] == xs[k]
  {
    if k == 0 {
      assert WithKey(xs, key, v)[0] == xs[0];
    } else {
      WithKeyHas(xs[1..], key, v, k - 1);
      var rest := WithKey(xs[1..], key, v);
      var b :| 0 <= b < |rest| && rest[b] == xs[1..][k - 1];
      if key(xs[0]) == v {
        assert WithKey(xs, key, v)[b + 1] == xs[k];
      } else {
        assert WithKey(xs, key, v)[b] == xs[k];
      }
    }
  }

  /** Stability stated by position: two elements of the sorted list with equal keys are
      in the order they had in the input, as measured by any `f` increasing along it. */
  lemma SortDescKeepsTieOrder<T>(xs: seq<T>, key: T -> int, f: T -> int, i: int, j: int)
    requires IncreasingBy(xs, f)
    requires 0 <= i < j < |SortDesc(xs, key)|
    requires key(SortDesc(xs, key)[i]) == key(SortDesc(xs, key)[j])
    ensures f(SortDesc(xs, key)[i]) < f(SortDesc(xs, key)[j])
  {
    var sorted := SortDesc(xs, key);
    var v := key(sorted[i]);
    WithKeyIncreasing(xs, key, v, f);
    SortDescStable(xs, key, v);
    WithKeyOrder(sorted, key, v, f);
  }
}
