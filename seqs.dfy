/** Python's `sum` over integers and list-comprehension filtering, on sequences. */
module Seqs {

  /** Python's `sum(xs)` for a list of integers: 0 for the empty list. */
  function Sum(xs: seq<int>): int {
    if xs == [] then 0 else xs[0] + Sum(xs[1..])
  }

  lemma {:induction false} SumConcat(a: seq<int>, b: seq<int>)
    ensures Sum(a + b) == Sum(a) + Sum(b)
  {
    if a == [] {
      assert a + b == b;
    } else {
      assert (a + b)[0] == a[0] && (a + b)[1..] == a[1..] + b;
      SumConcat(a[1..], b);
    }
  }

  /** `[x for x in xs if keep(x)]`: the elements that satisfy `keep`, in their original order. */
  function Keep<T>(xs: seq<T>, keep: T -> bool): (r: seq<T>)
    ensures |r| <= |xs|
    ensures forall k :: 0 <= k < |r| ==> keep(r[k])
  {
    if xs == [] then []
    else (if keep(xs[0]) then [xs[0]] else []) + Keep(xs[1..], keep)
  }

  /** Filtering keeps every occurrence of a kept value and none of any other value. */
  lemma {:induction false} KeepCounts<T(!new)>(xs: seq<T>, keep: T -> bool)
    ensures forall x :: multiset(Keep(xs, keep))[x] == if keep(x) then multiset(xs)[x] else 0
  {
    if xs != [] {
      assert xs == [xs[0]] + xs[1..];
      KeepCounts(xs[1..], keep);
    }
  }

  /** A sequence holding one value only has as many elements as occurrences of that value. */
  lemma {:induction false} AllSameCount<T>(xs: seq<T>, x: T)
    requires forall k :: 0 <= k < |xs| ==> xs[k] == x
    ensures |xs| == multiset(xs)[x]
  {
    if xs != [] {
      assert xs == [xs[0]] + xs[1..];
      AllSameCount(xs[1..], x);
    }
  }

  /** Filtering distributes over concatenation, so it keeps the relative order of the elements it keeps. */
  lemma {:induction false} KeepConcat<T>(a: seq<T>, b: seq<T>, keep: T -> bool)
    ensures Keep(a + b, keep) == Keep(a, keep) + Keep(b, keep)
  {
    if a == [] {
      assert a + b == b;
    } else {
      var head := if keep(a[0]) then [a[0]] else [];
      assert (a + b)[0] == a[0] && (a + b)[1..] == a[1..] + b;
      assert Keep(a + b, keep) == head + Keep(a[1..] + b, keep);
      KeepConcat(a[1..], b, keep);
      assert Keep(a, keep) == head + Keep(a[1..], keep);
    }
  }

  /** When every element satisfies `keep`, filtering returns the sequence itself. */
  lemma {:induction false} KeepAll<T>(xs: seq<T>, keep: T -> bool)
    requires forall k :: 0 <= k < |xs| ==> keep(xs[k])
    ensures Keep(xs, keep) == xs
  {
    if xs != [] {
      KeepAll(xs[1..], keep);
    }
  }
}
