/**
 * The three queryset operations the views chain together: `filter`, an
 * `order_by` on an integer column, and the slice `[:k]`. Ordering is a
 * stable insertion sort by a key; a descending order (`order_by('-points')`)
 * sorts by the negated key.
 */
module Querysets {

  /** `.filter(p)`: the elements satisfying `p`, in their original order. */
  function Filter<T(!new)>(s: seq<T>, p: T -> bool): (r: seq<T>)
    ensures forall x :: x in r <==> x in s && p(x)
    ensures |r| <= |s|
  {
    if s == [] then []
    else
      assert s == [s[0]] + s[1..];
      if p(s[0]) then [s[0]] + Filter(s[1..], p) else Filter(s[1..], p)
  }

  /** Each element occurs in a filtered sequence as often as in the original if it satisfies `p`, and never otherwise. */
  lemma {:induction false} FilterCount<T(!new)>(s: seq<T>, p: T -> bool, x: T)
    ensures multiset(Filter(s, p))[x] == if p(x) then multiset(s)[x] else 0
  {
    if s != [] {
      FilterCount(s[1..], p, x);
      assert s == [s[0]] + s[1..];
      if p(s[0]) {
        assert Filter(s, p) == [s[0]] + Filter(s[1..], p);
      }
    }
  }

  /** A filtered sequence holds no element more often than the original does. */
  lemma FilterSubmultiset<T(!new)>(s: seq<T>, p: T -> bool)
    ensures multiset(Filter(s, p)) <= multiset(s)
  {
    forall x
      ensures multiset(Filter(s, p))[x] <= multiset(s)[x]
    {
      FilterCount(s, p, x);
    }
  }

  /** Filtering by `p` and by its negation splits a sequence into two parts that together hold all of it. */
  lemma {:induction false} FilterSplit<T(!new)>(s: seq<T>, p: T -> bool, q: T -> bool)
    requires forall x :: q(x) == !p(x)
    ensures multiset(Filter(s, p)) + multiset(Filter(s, q)) == multiset(s)
    ensures |Filter(s, p)| + |Filter(s, q)| == |s|
  {
    if s != [] {
      FilterSplit(s[1..], p, q);
      assert s == [s[0]] + s[1..];
      if p(s[0]) {
        assert Filter(s, p) == [s[0]] + Filter(s[1..], p);
        assert Filter(s, q) == Filter(s[1..], q);
      } else {
        assert Filter(s, p) == Filter(s[1..], p);
        assert Filter(s, q) == [s[0]] + Filter(s[1..], q);
      }
    }
  }

  /** Two filters that agree on every element of `s` select the same elements. */
  lemma {:induction false} FilterCongruent<T(!new)>(s: seq<T>, p: T -> bool, q: T -> bool)
    requires forall i :: 0 <= i < |s| ==> p(s[i]) == q(s[i])
    ensures Filter(s, p) == Filter(s, q)
  {
    if s != [] {
      FilterCongruent(s[1..], p, q);
    }
  }

  /** `s` is in non-decreasing order of `key`. */
  ghost predicate SortedBy<T>(s: seq<T>, key: T -> int)
  {
    forall i, j :: 0 <= i < j < |s| ==> key(s[i]) <= key(s[j])
  }

  /** Inserts `x` before the first element whose key is not smaller than its own. */
  function Insert<T>(x: T, s: seq<T>, key: T -> int): (r: seq<T>)
    requires SortedBy(s, key)
    ensures SortedBy(r, key)
    ensures multiset(r) == multiset(s) + multiset{x}
    ensures |r| == |s| + 1
    ensures r[0] == x || (s != [] && r[0] == s[0])
  {
    if s == [] || key(x) <= key(s[0]) then [x] + s
    else
      var tail := Insert(x, s[1..], key);
      assert s == [s[0]] + s[1..];
      assert key(s[0]) <= key(tail[0]);
      [s[0]] + tail
  }

  /** `.order_by(key)`: a permutation of `s` in non-decreasing order of `key`; equal keys keep their relative order. */
  function SortBy<T(!new)>(s: seq<T>, key: T -> int): (r: seq<T>)
    ensures SortedBy(r, key)
    ensures multiset(r) == multiset(s)
    ensures |r| == |s|
    ensures forall x :: x in r <==> x in s
  {
    if s == [] then []
    else
      assert s == [s[0]] + s[1..];
      var r := Insert(s[0], SortBy(s[1..], key), key);
      assert |r| == |multiset(r)|;
      assert forall x :: x in r <==> x in multiset(r);
      r
  }

  /** `[:k]`: the first `k` elements, or all of them when there are fewer. */
  function Take<T>(s: seq<T>, k: nat): (r: seq<T>)
    ensures |r| == if |s| <= k then |s| else k
    ensures multiset(r) <= multiset(s)
    ensures forall i :: 0 <= i < |r| ==> r[i] == s[i]
  {
    if |s| <= k then s
    else
      assert s == s[..k] + s[k..];
      s[..k]
  }
}
