/**
 The two array pipelines the store runs over the values of its maps:
 `Array.prototype.filter` and a summing `Array.prototype.reduce`.
 */
module ListOps {

  /** `s.filter(p)`: the elements of `s` that satisfy `p`, in their original order. */
  function Filter<T(!new)>(s: seq<T>, p: T -> bool): (r: seq<T>)
    ensures |r| <= |s|
  {
    if s == [] then []
    else (if p(s[0]) then [s[0]] else []) + Filter(s[1..], p)
  }

  /** The filtered list holds each element of `s` that satisfies `p`, as often as `s` does, and nothing else. */
  lemma {:induction false} FilterMembers<T(!new)>(s: seq<T>, p: T -> bool)
    ensures forall x :: x in Filter(s, p) <==> x in s && p(x)
    ensures forall x :: multiset(Filter(s, p))[x] == if p(x) then multiset(s)[x] else 0
  {
    if s != [] {
      FilterMembers(s[1..], p);
      assert s == [s[0]] + s[1..];
    }
  }

  /** `s.reduce((sum, x) => sum + f(x), 0)`: a left fold, so the last element is added last. */
  function Sum<T>(s: seq<T>, f: T -> int): int
  {
    if s == [] then 0 else Sum(s[..|s| - 1], f) + f(s[|s| - 1])
  }

  /** Filtering keeps the relative order: it distributes over concatenation. */
  lemma {:induction false} FilterAppend<T(!new)>(a: seq<T>, b: seq<T>, p: T -> bool)
    ensures Filter(a + b, p) == Filter(a, p) + Filter(b, p)
  {
    if a == [] {
      assert a + b == b;
    } else {
      var head := if p(a[0]) then [a[0]] else [];
      assert (a + b)[0] == a[0];
      assert (a + b)[1..] == a[1..] + b;
      FilterAppend(a[1..], b, p);
      calc {
        Filter(a + b, p);
        head + Filter(a[1..] + b, p);
        head + (Filter(a[1..], p) + Filter(b, p));
        (head + Filter(a[1..], p)) + Filter(b, p);
        Filter(a, p) + Filter(b, p);
      }
    }
  }

  /** A single element passes the filter exactly when it satisfies the predicate. */
  lemma FilterSingleton<T(!new)>(x: T, p: T -> bool)
    ensures Filter([x], p) == if p(x) then [x] else []
  {
    assert [x][1..] == [];
  }

  /** The fold adds up the two halves of a concatenation separately. */
  lemma {:induction false} SumAppend<T>(a: seq<T>, b: seq<T>, f: T -> int)
    ensures Sum(a + b, f) == Sum(a, f) + Sum(b, f)
  {
    if b == [] {
      assert a + b == a;
    } else {
      var n := |b| - 1;
      assert (a + b)[..|a + b| - 1] == a + b[..n];
      assert (a + b)[|a + b| - 1] == b[n];
      SumAppend(a, b[..n], f);
    }
  }

  /** The share one element at position |a| contributes to the filtered length. */
  lemma FilterSpliceLength<T(!new)>(a: seq<T>, x: T, b: seq<T>, p: T -> bool)
    ensures |Filter(a + [x] + b, p)| == |Filter(a, p)| + (if p(x) then 1 else 0) + |Filter(b, p)|
  {
    FilterAppend(a + [x], b, p);
    FilterAppend(a, [x], p);
    FilterSingleton(x, p);
  }

  /** The share one element at position |a| contributes to the filtered sum. */
  lemma FilterSpliceSum<T(!new)>(a: seq<T>, x: T, b: seq<T>, p: T -> bool, f: T -> int)
    ensures Sum(Filter(a + [x] + b, p), f) == Sum(Filter(a, p), f) + (if p(x) then f(x) else 0) + Sum(Filter(b, p), f)
  {
    var fa, fx, fb := Filter(a, p), Filter([x], p), Filter(b, p);
    FilterAppend(a + [x], b, p);
    FilterAppend(a, [x], p);
    assert Filter(a + [x] + b, p) == fa + fx + fb;
    SumAppend(fa + fx, fb, f);
    SumAppend(fa, fx, f);
    FilterSingleton(x, p);
    SumSingleton(x, f);
  }

  lemma SumSingleton<T>(x: T, f: T -> int)
    ensures Sum([x], f) == f(x)
  {
    assert [x][..0] == [];
  }
}
