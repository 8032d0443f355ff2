/** Python's `sorted(d.keys())` for integer keys. A dictionary's keys are modelled as
    the sequence in which they were inserted (no key twice); `Sort` puts them in
    ascending order. */
module Ordering {

  predicate Increasing(ks: seq<int>) {
    forall i, j :: 0 <= i < j < |ks| ==> ks[i] < ks[j]
  }

  predicate Distinct(xs: seq<int>) {
    forall i, j :: 0 <= i < j < |xs| ==> xs[i] != xs[j]
  }

  /** `x` placed into the increasing sequence `ks`; nothing changes when `x` is there. */
  function Insert(x: int, ks: seq<int>): (r: seq<int>)
    requires Increasing(ks)
    ensures Increasing(r)
    ensures forall y :: y in r <==> y == x || y in ks
    ensures |r| == if x in ks then |ks| else |ks| + 1
  {
    if ks == [] then [x]
    else if x < ks[0] then [x] + ks
    else if x == ks[0] then ks
    else
      var rest := Insert(x, ks[1..]);
      assert forall y :: y in ks[1..] ==> ks[0] < y;
      assert forall k :: 0 <= k < |rest| ==> rest[k] in rest;
      [ks[0]] + rest
  }

  /** The elements of `xs` in ascending order, each once. */
  function Sort(xs: seq<int>): (r: seq<int>)
    ensures Increasing(r)
    ensures forall y :: y in r <==> y in xs
    ensures |r| <= |xs|
  {
    if xs == [] then [] else Insert(xs[|xs| - 1], Sort(xs[..|xs| - 1]))
  }

  /** Two increasing sequences with the same elements are equal, so `Sort` is the
      only answer `sorted()` can give. */
  lemma {:induction false} IncreasingUnique(a: seq<int>, b: seq<int>)
    requires Increasing(a) && Increasing(b)
    requires forall y :: y in a <==> y in b
    ensures a == b
  {
    if a != [] {
      assert a[0] in a;
      assert a[0] in b;
    }
    if b != [] {
      assert b[0] in b;
      assert b[0] in a;
    }
    if a != [] && b != [] {
      var i :| 0 <= i < |a| && a[i] == b[0];
      var j :| 0 <= j < |b| && b[j] == a[0];
      assert a[0] <= a[i] && b[0] <= b[j];
      forall y ensures y in a[1..] <==> y in b[1..] {
        if y in a[1..] {
          assert y in b && y != b[0];
        }
        if y in b[1..] {
          assert y in a && y != a[0];
        }
      }
      IncreasingUnique(a[1..], b[1..]);
      assert a == [a[0]] + a[1..] && b == [b[0]] + b[1..];
    }
  }

  /** Sorting distinct keys loses none of them. */
  lemma {:induction false} SortDistinctLength(xs: seq<int>)
    requires Distinct(xs)
    ensures |Sort(xs)| == |xs|
  {
    if xs != [] {
      var init := xs[..|xs| - 1];
      assert Distinct(init);
      SortDistinctLength(init);
      assert xs[|xs| - 1] !in init;
    }
  }
}
