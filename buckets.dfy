/** Sums over a list and per-key sums ("buckets") of the kind the pages
    accumulate in a `Map` inside a `forEach` loop, with the fact that the
    buckets of a list together hold its total. */
module Buckets {
  import opened Common

  /** The sum of `w` over `xs`. */
  function Total<T>(xs: seq<T>, w: T -> int): int
  {
    if xs == [] then 0 else Total(xs[..|xs| - 1], w) + w(xs[|xs| - 1])
  }

  /** The sum of `w` over the elements of `xs` whose key is `k`. */
  function BucketSum<T>(xs: seq<T>, key: T -> string, w: T -> int, k: string): int
  {
    if xs == [] then 0
    else BucketSum(xs[..|xs| - 1], key, w, k) + (if key(xs[|xs| - 1]) == k then w(xs[|xs| - 1]) else 0)
  }

  /** The bucket sums of the keys `ks`, added up. */
  function SumBuckets<T>(xs: seq<T>, key: T -> string, w: T -> int, ks: seq<string>): int
  {
    if ks == [] then 0 else BucketSum(xs, key, w, ks[0]) + SumBuckets(xs, key, w, ks[1..])
  }

  /** One more loop iteration: the running sums over `xs[..i + 1]`. */
  lemma TotalStep<T>(xs: seq<T>, w: T -> int, i: nat)
    requires i < |xs|
    ensures Total(xs[..i + 1], w) == Total(xs[..i], w) + w(xs[i])
  {
    assert xs[..i + 1][..i] == xs[..i];
  }

  lemma BucketStep<T>(xs: seq<T>, key: T -> string, w: T -> int, i: nat)
    requires i < |xs|
    ensures forall k :: BucketSum(xs[..i + 1], key, w, k)
                        == BucketSum(xs[..i], key, w, k) + (if key(xs[i]) == k then w(xs[i]) else 0)
  {
    assert xs[..i + 1][..i] == xs[..i];
  }

  lemma {:induction false} SumBucketsSnoc<T>(xs: seq<T>, x: T, key: T -> string, w: T -> int, ks: seq<string>)
    requires Distinct(ks)
    ensures SumBuckets(xs + [x], key, w, ks)
            == SumBuckets(xs, key, w, ks) + (if key(x) in ks then w(x) else 0)
  {
    assert (xs + [x])[..|xs + [x]| - 1] == xs;
    if ks != [] {
      SumBucketsSnoc(xs, x, key, w, ks[1..]);
      assert key(x) in ks <==> key(x) == ks[0] || key(x) in ks[1..];
      assert ks[0] !in ks[1..];
    }
  }

  /** Every element with a nonzero weight lands in exactly one of the
      distinct keys `ks`: then the buckets of `ks` add up to the total. */
  lemma {:induction false} BucketsPartitionTotal<T>(xs: seq<T>, key: T -> string, w: T -> int, ks: seq<string>)
    requires Distinct(ks)
    requires forall i :: 0 <= i < |xs| && w(xs[i]) != 0 ==> key(xs[i]) in ks
    ensures SumBuckets(xs, key, w, ks) == Total(xs, w)
  {
    if xs == [] {
      SumBucketsEmpty(key, w, ks);
    } else {
      var p, x := xs[..|xs| - 1], xs[|xs| - 1];
      assert xs == p + [x];
      BucketsPartitionTotal(p, key, w, ks);
      SumBucketsSnoc(p, x, key, w, ks);
    }
  }

  lemma {:induction false} SumBucketsEmpty<T>(key: T -> string, w: T -> int, ks: seq<string>)
    ensures SumBuckets([], key, w, ks) == 0
  {
    if ks != [] {
      SumBucketsEmpty(key, w, ks[1..]);
    }
  }

  /** A key no element carries has an empty bucket. */
  lemma {:induction false} BucketAbsent<T>(xs: seq<T>, key: T -> string, w: T -> int, k: string)
    requires forall i :: 0 <= i < |xs| ==> key(xs[i]) != k
    ensures BucketSum(xs, key, w, k) == 0
  {
    if xs != [] {
      BucketAbsent(xs[..|xs| - 1], key, w, k);
    }
  }

  /** The same sum, taken with a new element in front (the list grows at the
      front when an entry is prepended). */
  lemma {:induction false} TotalCons<T>(x: T, xs: seq<T>, w: T -> int)
    ensures Total([x] + xs, w) == w(x) + Total(xs, w)
  {
    if xs != [] {
      var p := xs[..|xs| - 1];
      assert ([x] + xs)[..|xs|] == [x] + p;
      TotalCons(x, p, w);
    }
  }

  /** A sum over a concatenation is the sum of the two sums. */
  lemma {:induction false} TotalAppend<T>(p: seq<T>, q: seq<T>, w: T -> int)
    ensures Total(p + q, w) == Total(p, w) + Total(q, w)
  {
    if q == [] {
      assert p + q == p;
    } else {
      var q' := q[..|q| - 1];
      assert (p + q)[..|p + q| - 1] == p + q';
      TotalAppend(p, q', w);
    }
  }

  /** Taking an element out of a list takes its weight off the sum. */
  lemma TotalSplice<T>(p: seq<T>, x: T, q: seq<T>, w: T -> int)
    ensures Total(p + [x] + q, w) == Total(p + q, w) + w(x)
  {
    TotalAppend(p + [x], q, w);
    TotalAppend(p, q, w);
    assert (p + [x])[..|p + [x]| - 1] == p;
  }

  /** ... and the element off the multiset. */
  lemma MultisetRemove<T>(b: seq<T>, j: nat)
    requires j < |b|
    ensures multiset(b[..j] + b[j + 1..]) == multiset(b) - multiset{b[j]}
  {
    assert b == b[..j] + [b[j]] + b[j + 1..];
  }

  /** A sum does not depend on the order of the elements: two lists with the
      same multiset have the same sum. */
  lemma {:induction false} TotalPermutation<T>(a: seq<T>, b: seq<T>, w: T -> int)
    requires multiset(a) == multiset(b)
    ensures Total(a, w) == Total(b, w)
    decreases |a|
  {
    if a == [] {
      assert |multiset(b)| == 0;
    } else {
      var a', x := a[..|a| - 1], a[|a| - 1];
      assert a == a' + [x];
      assert x in multiset(b);
      var j :| 0 <= j < |b| && b[j] == x;
      assert b == b[..j] + [x] + b[j + 1..];
      TotalSplice(b[..j], x, b[j + 1..], w);
      MultisetRemove(b, j);
      TotalPermutation(a', b[..j] + b[j + 1..], w);
    }
  }
}
