/** The array pipelines the core is built from: `reduce` sums, `filter`,
    `[...new Set(xs)]` and a newest-first `sort`, as functions on sequences
    with the facts the rest of the model relies on. */
module Folds {

  // ---------------------------------------------------------------------------
  // reduce((acc, x) => acc + f(x), 0)

  /** The left fold `((0 + f(x0)) + f(x1)) + ...`. */
  function Sum<T>(xs: seq<T>, f: T -> real): real {
    if |xs| == 0 then 0.0 else Sum(xs[..|xs| - 1], f) + f(xs[|xs| - 1])
  }

  lemma {:induction false} SumAppend<T>(xs: seq<T>, ys: seq<T>, f: T -> real)
    ensures Sum(xs + ys, f) == Sum(xs, f) + Sum(ys, f)
    decreases |ys|
  {
    if |ys| == 0 {
      assert xs + ys == xs;
    } else {
      assert (xs + ys)[..|xs + ys| - 1] == xs + ys[..|ys| - 1];
      SumAppend(xs, ys[..|ys| - 1], f);
    }
  }

  /** Taking out the element at `j` takes its term out of the sum. */
  lemma SumRemove<T>(xs: seq<T>, j: nat, f: T -> real)
    requires j < |xs|
    ensures Sum(xs, f) == Sum(xs[..j] + xs[j + 1..], f) + f(xs[j])
  {
    assert xs == xs[..j] + [xs[j]] + xs[j + 1..];
    SumAppend(xs[..j] + [xs[j]], xs[j + 1..], f);
    SumAppend(xs[..j], [xs[j]], f);
    SumAppend(xs[..j], xs[j + 1..], f);
    assert [xs[j]][..0] == [];
  }

  /** A sum does not depend on the order of its terms. */
  lemma {:induction false} SumPermutation<T>(xs: seq<T>, ys: seq<T>, f: T -> real)
    requires multiset(xs) == multiset(ys)
    ensures Sum(xs, f) == Sum(ys, f)
    decreases |xs|
  {
    if |xs| > 0 {
      var n := |xs| - 1;
      var x := xs[n];
      assert x in multiset(ys);
      var j :| 0 <= j < |ys| && ys[j] == x;
      var ys' := ys[..j] + ys[j + 1..];
      assert ys == ys[..j] + [x] + ys[j + 1..];
      assert xs == xs[..n] + [x];
      assert multiset(ys') == multiset(ys[..j]) + multiset(ys[j + 1..]);
      assert multiset(ys) == multiset(ys') + multiset{x};
      assert multiset(xs) == multiset(xs[..n]) + multiset{x};
      assert multiset(xs[..n]) == multiset(xs) - multiset{x};
      assert multiset(ys') == multiset(ys) - multiset{x};
      SumPermutation(xs[..n], ys', f);
      SumRemove(ys, j, f);
    }
  }

  /** A sum of terms that are all zero is zero. */
  lemma {:induction false} SumZero<T>(xs: seq<T>, f: T -> real)
    requires forall i :: 0 <= i < |xs| ==> f(xs[i]) == 0.0
    ensures Sum(xs, f) == 0.0
  {
    if |xs| > 0 {
      SumZero(xs[..|xs| - 1], f);
    }
  }

  /** A sum of terms that are all `>= 0` is `>= 0`. */
  lemma {:induction false} SumNonNegative<T>(xs: seq<T>, f: T -> real)
    requires forall i :: 0 <= i < |xs| ==> f(xs[i]) >= 0.0
    ensures Sum(xs, f) >= 0.0
  {
    if |xs| > 0 {
      SumNonNegative(xs[..|xs| - 1], f);
    }
  }

  // ---------------------------------------------------------------------------
  // filter(p)

  /** The elements satisfying `p`, in their original order. */
  function Filter<T>(xs: seq<T>, p: T -> bool): (r: seq<T>)
    ensures |r| <= |xs|
    ensures forall i :: 0 <= i < |r| ==> p(r[i])
    ensures multiset(r) <= multiset(xs)
  {
    if |xs| == 0 then []
    else
      assert xs == [xs[0]] + xs[1..];
      (if p(xs[0]) then [xs[0]] else []) + Filter(xs[1..], p)
  }

  /** `x` survives the filter exactly when it is in `xs` and satisfies `p`. */
  lemma {:induction false} FilterMembership<T>(xs: seq<T>, p: T -> bool, x: T)
    ensures x in Filter(xs, p) <==> x in xs && p(x)
  {
    if |xs| > 0 {
      FilterMembership(xs[1..], p, x);
      assert xs == [xs[0]] + xs[1..];
    }
  }

  /** Filtering keeps each element of `xs` that satisfies `p` as often as it occurs. */
  lemma {:induction false} FilterCount<T>(xs: seq<T>, p: T -> bool, x: T)
    requires p(x)
    ensures multiset(Filter(xs, p))[x] == multiset(xs)[x]
  {
    if |xs| > 0 {
      FilterCount(xs[1..], p, x);
      assert xs == [xs[0]] + xs[1..];
    }
  }

  /** Each element occurs in the filtered list as often as in `xs` when it
      satisfies `p`, and not at all otherwise. */
  lemma FilterMultiplicity<T>(xs: seq<T>, p: T -> bool, x: T)
    ensures multiset(Filter(xs, p))[x] == if p(x) then multiset(xs)[x] else 0
  {
    if p(x) {
      FilterCount(xs, p, x);
    } else {
      FilterMembership(xs, p, x);
    }
  }

  /** A filter that rejects nothing returns its input. */
  lemma {:induction false} FilterKeepsAll<T>(xs: seq<T>, p: T -> bool)
    requires forall i :: 0 <= i < |xs| ==> p(xs[i])
    ensures Filter(xs, p) == xs
  {
    if |xs| > 0 {
      FilterKeepsAll(xs[1..], p);
      assert xs == [xs[0]] + xs[1..];
    }
  }

  /** Filters by predicates that agree everywhere agree. */
  lemma {:induction false} FilterExt<T>(xs: seq<T>, p: T -> bool, q: T -> bool)
    requires forall x :: p(x) == q(x)
    ensures Filter(xs, p) == Filter(xs, q)
  {
    if |xs| > 0 {
      FilterExt(xs[1..], p, q);
    }
  }

  /** Filtering twice by the same predicate is filtering once. */
  lemma FilterIdempotent<T>(xs: seq<T>, p: T -> bool)
    ensures Filter(Filter(xs, p), p) == Filter(xs, p)
  {
    FilterKeepsAll(Filter(xs, p), p);
  }

  /** Filtering by `p` and then by `q` is filtering by `p && q`. */
  lemma {:induction false} FilterThen<T>(xs: seq<T>, p: T -> bool, q: T -> bool, pq: T -> bool)
    requires forall x :: pq(x) == (p(x) && q(x))
    ensures Filter(Filter(xs, p), q) == Filter(xs, pq)
  {
    if |xs| > 0 {
      FilterThen(xs[1..], p, q, pq);
      FilterAppend((if p(xs[0]) then [xs[0]] else []), Filter(xs[1..], p), q);
    }
  }

  lemma {:induction false} FilterAppend<T>(xs: seq<T>, ys: seq<T>, p: T -> bool)
    ensures Filter(xs + ys, p) == Filter(xs, p) + Filter(ys, p)
  {
    if |xs| == 0 {
      assert xs + ys == ys;
    } else {
      assert (xs + ys)[1..] == xs[1..] + ys;
      FilterAppend(xs[1..], ys, p);
    }
  }
  /** Appending one element to the filtered list adds its value to the sum
      exactly when it passes the filter. */
  lemma SumFilterSnoc<T>(xs: seq<T>, x: T, p: T -> bool, f: T -> real)
    ensures Sum(Filter(xs + [x], p), f) == Sum(Filter(xs, p), f) + (if p(x) then f(x) else 0.0)
  {
    FilterAppend(xs, [x], p);
    assert [x][1..] == [];
    SumAppend(Filter(xs, p), Filter([x], p), f);
    if p(x) {
      assert Filter([x], p) == [x];
      assert [x][..0] == [];
    }
  }


  /** A filter that rejects everything returns nothing. */
  lemma {:induction false} FilterNone<T>(xs: seq<T>, p: T -> bool)
    requires forall i :: 0 <= i < |xs| ==> !p(xs[i])
    ensures Filter(xs, p) == []
  {
    if |xs| > 0 {
      FilterNone(xs[1..], p);
    }
  }

  /** Filtering a list with one element taken out, or left in. */
  lemma FilterSplice<T>(a: seq<T>, x: T, b: seq<T>, p: T -> bool)
    ensures Filter(a + [x] + b, p) == Filter(a, p) + (if p(x) then [x] else []) + Filter(b, p)
    ensures Filter(a + b, p) == Filter(a, p) + Filter(b, p)
  {
    assert Filter([x], p) == if p(x) then [x] else [] by {
      assert [x][1..] == [];
    }
    FilterAppend(a, [x], p);
    FilterAppend(a + [x], b, p);
    FilterAppend(a, b, p);
  }

  /** When `x` is the last element `p` keeps, taking it out removes exactly
      the last element of the filtered list. */
  lemma FilterLastKept<T>(a: seq<T>, x: T, b: seq<T>, p: T -> bool)
    requires p(x)
    requires forall j :: 0 <= j < |b| ==> !p(b[j])
    ensures var kept := Filter(a + [x] + b, p);
            |kept| > 0 && kept[|kept| - 1] == x && Filter(a + b, p) == kept[..|kept| - 1]
  {
    FilterSplice(a, x, b, p);
    FilterNone(b, p);
    var kept := Filter(a + [x] + b, p);
    assert kept == Filter(a, p) + [x];
    assert kept[..|kept| - 1] == Filter(a, p);
  }

  /** Filtering preserves permutations: equal multisets filter to equal multisets. */
  lemma {:induction false} FilterPermutation<T>(xs: seq<T>, ys: seq<T>, p: T -> bool)
    requires multiset(xs) == multiset(ys)
    ensures multiset(Filter(xs, p)) == multiset(Filter(ys, p))
  {
    forall x
      ensures multiset(Filter(xs, p))[x] == multiset(Filter(ys, p))[x]
    {
      if p(x) {
        FilterCount(xs, p, x);
        FilterCount(ys, p, x);
      } else {
        FilterMembership(xs, p, x);
        FilterMembership(ys, p, x);
      }
    }
    assert multiset(Filter(xs, p)) == multiset(Filter(ys, p));
  }

  // ---------------------------------------------------------------------------
  // map(f)

  function Map<T, U>(xs: seq<T>, f: T -> U): (r: seq<U>)
    ensures |r| == |xs| && forall i :: 0 <= i < |xs| ==> r[i] == f(xs[i])
  {
    seq(|xs|, i requires 0 <= i < |xs| => f(xs[i]))
  }

  // ---------------------------------------------------------------------------
  // [...new Set(xs)]

  /** Each distinct value once, in the order of its first occurrence. */
  function Dedup<T(==)>(xs: seq<T>): seq<T> {
    if |xs| == 0 then []
    else
      var r := Dedup(xs[..|xs| - 1]);
      if xs[|xs| - 1] in r then r else r + [xs[|xs| - 1]]
  }

  predicate NoDuplicates<T(==)>(xs: seq<T>) {
    forall i, j :: 0 <= i < j < |xs| ==> xs[i] != xs[j]
  }

  /** The deduplicated list holds every value of `xs` exactly once and nothing else. */
  lemma {:induction false} DedupSpec<T>(xs: seq<T>)
    ensures NoDuplicates(Dedup(xs))
    ensures forall x :: x in Dedup(xs) <==> x in xs
  {
    if |xs| > 0 {
      var n := |xs| - 1;
      DedupSpec(xs[..n]);
      assert xs == xs[..n] + [xs[n]];
    }
  }

  // ---------------------------------------------------------------------------
  // sort((a, b) => key(b) - key(a))

  /** Non-increasing in `key`: newest first. */
  predicate SortedDesc<T>(xs: seq<T>, key: T -> int) {
    forall i, j :: 0 <= i < j < |xs| ==> key(xs[i]) >= key(xs[j])
  }

  /** Inserts `x` after every element with a strictly larger key, so that it
      stays ahead of the equal-key elements that followed it. */
  function Insert<T>(x: T, xs: seq<T>, key: T -> int): (r: seq<T>)
    requires SortedDesc(xs, key)
    ensures SortedDesc(r, key)
    ensures multiset(r) == multiset(xs) + multiset{x}
    ensures |r| == |xs| + 1
    ensures key(r[0]) == key(x) || (|xs| > 0 && key(r[0]) == key(xs[0]))
  {
    if |xs| == 0 || key(xs[0]) <= key(x) then [x] + xs
    else
      var rest := Insert(x, xs[1..], key);
      assert xs == [xs[0]] + xs[1..];
      [xs[0]] + rest
  }

  /** The stable descending sort (insertion sort from the back). */
  function SortDesc<T>(xs: seq<T>, key: T -> int): (r: seq<T>)
    ensures SortedDesc(r, key)
    ensures multiset(r) == multiset(xs)
    ensures |r| == |xs|
  {
    if |xs| == 0 then []
    else
      assert xs == [xs[0]] + xs[1..];
      Insert(xs[0], SortDesc(xs[1..], key), key)
  }

  /** Sorting keeps the same elements. */
  lemma SortDescMembership<T>(xs: seq<T>, key: T -> int, x: T)
    ensures x in SortDesc(xs, key) <==> x in xs
  {
    var r := SortDesc(xs, key);
    assert x in r <==> x in multiset(r);
    assert x in xs <==> x in multiset(xs);
  }

  /** The first element of a non-empty sorted list has the largest key. */
  lemma SortDescHead<T>(xs: seq<T>, key: T -> int, x: T)
    requires x in xs
    ensures |SortDesc(xs, key)| > 0 && key(x) <= key(SortDesc(xs, key)[0])
  {
    var r := SortDesc(xs, key);
    SortDescMembership(xs, key, x);
    var j :| 0 <= j < |r| && r[j] == x;
    if j > 0 {
      assert key(r[0]) >= key(r[j]);
    }
  }

  /** Sorting a list that is already in order changes nothing, so sorting
      twice is sorting once. */
  lemma {:induction false} SortDescOfSorted<T>(xs: seq<T>, key: T -> int)
    requires SortedDesc(xs, key)
    ensures SortDesc(xs, key) == xs
  {
    if |xs| > 0 {
      assert SortedDesc(xs[1..], key);
      SortDescOfSorted(xs[1..], key);
      assert xs == [xs[0]] + xs[1..];
    }
  }
}
