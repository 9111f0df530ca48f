/** `Array.prototype.sort(comparator)` on an array, for a comparator of the
    form `(a, b) => rank(a) - rank(b)`: an in-place insertion sort that leaves
    the array a permutation of what it held, ordered by `rank`. */
module Sorting {

  /** Every pair is in rank order. */
  ghost predicate RankOrdered<T>(s: seq<T>, rank: T -> int)
  {
    forall i, j :: 0 <= i < j < |s| ==> rank(s[i]) <= rank(s[j])
  }

  /** Adjacent elements among the first `n` are in rank order. */
  ghost predicate SortedPrefix<T>(a: array<T>, rank: T -> int, n: int)
    reads a
    requires n <= a.Length
  {
    forall k, l :: 0 <= k && l == k + 1 && l < n ==> rank(a[k]) <= rank(a[l])
  }

  /** The array's contents as a multiset. */
  ghost function Bag<T>(a: array<T>): multiset<T>
    reads a
  {
    multiset(a[..])
  }

  method Swap<T>(a: array<T>, p: int, q: int)
    requires 0 <= p < q < a.Length
    modifies a
    ensures a[p] == old(a[q]) && a[q] == old(a[p])
    ensures forall m :: 0 <= m < a.Length && m != p && m != q ==> a[m] == old(a[m])
    ensures Bag(a) == old(Bag(a))
  {
    a[p], a[q] := a[q], a[p];
  }

  /** One pass of the insertion sort: moves `a[i]` left past the elements of
      the sorted prefix `a[..i]` that rank above it. */
  method InsertNext<T>(a: array<T>, rank: T -> int, i: int)
    requires 0 <= i < a.Length
    requires SortedPrefix(a, rank, i)
    modifies a
    ensures SortedPrefix(a, rank, i + 1)
    ensures Bag(a) == old(Bag(a))
  {
    var j := i;
    while j > 0 && rank(a[j - 1]) > rank(a[j])
      invariant 0 <= j <= i
      invariant forall k, l :: 0 <= k && l == k + 1 && l <= i && k != j && l != j ==> rank(a[k]) <= rank(a[l])
      invariant 0 < j < i ==> rank(a[j - 1]) <= rank(a[j + 1])
      invariant j < i ==> rank(a[j]) <= rank(a[j + 1])
      invariant Bag(a) == old(Bag(a))
    {
      Swap(a, j - 1, j);
      j := j - 1;
    }
  }

  /** Adjacent order implies order of every pair. */
  lemma {:induction false} AdjacentOrdered<T>(s: seq<T>, rank: T -> int)
    requires forall k, l :: 0 <= k && l == k + 1 && l < |s| ==> rank(s[k]) <= rank(s[l])
    ensures RankOrdered(s, rank)
  {
    if |s| > 1 {
      AdjacentOrdered(s[1..], rank);
      forall i, j | 0 <= i < j < |s| ensures rank(s[i]) <= rank(s[j]) {
        assert rank(s[0]) <= rank(s[1]);
        if i > 0 {
          assert s[1..][i - 1] == s[i];
        }
        assert s[1..][j - 1] == s[j];
      }
    }
  }

  method SortInPlace<T>(a: array<T>, rank: T -> int)
    modifies a
    ensures RankOrdered(a[..], rank)
    ensures multiset(a[..]) == multiset(old(a[..]))
  {
    var i := 0;
    while i < a.Length
      invariant 0 <= i <= a.Length
      invariant SortedPrefix(a, rank, i)
      invariant Bag(a) == old(Bag(a))
    {
      InsertNext(a, rank, i);
      i := i + 1;
    }
    AdjacentOrdered(a[..], rank);
  }

  /** Inserts `x` in front of the first element that ranks above it. */
  function InsertByRank<T>(s: seq<T>, x: T, rank: T -> int): (r: seq<T>)
    requires RankOrdered(s, rank)
    ensures RankOrdered(r, rank)
    ensures multiset(r) == multiset(s) + multiset{x}
  {
    if s == [] || rank(x) <= rank(s[0]) then
      [x] + s
    else
      var rest := InsertByRank(s[1..], x, rank);
      assert s == [s[0]] + s[1..];
      forall k | 0 <= k < |rest| ensures rank(s[0]) <= rank(rest[k]) {
        assert rest[k] in multiset(rest);
        assert rest[k] in s[1..] || rest[k] == x;
      }
      [s[0]] + rest
  }

  /** A sort returning a new sequence, built by insertion from the back. */
  function SortByRank<T>(s: seq<T>, rank: T -> int): (r: seq<T>)
    ensures RankOrdered(r, rank)
    ensures multiset(r) == multiset(s)
  {
    if s == [] then []
    else
      assert s == [s[0]] + s[1..];
      InsertByRank(SortByRank(s[1..], rank), s[0], rank)
  }
}
