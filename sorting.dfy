/**
 Ascending sort of integer keys, as `Array.prototype.sort` with the
 comparator `(a, b) => a - b` orders distinct numbers.
 */
module Sorting {

  predicate SortedInts(xs: seq<int>) {
    forall i, j :: 0 <= i < j < |xs| ==> xs[i] <= xs[j]
  }

  /** Inserts `x` in front of the first element not smaller than it. */
  function Insert(x: int, xs: seq<int>): (r: seq<int>)
    ensures |r| == |xs| + 1
    ensures multiset(r) == multiset(xs) + multiset{x}
  {
    if |xs| == 0 then [x]
    else if x <= xs[0] then [x] + xs
    else
      assert xs == [xs[0]] + xs[1..];
      [xs[0]] + Insert(x, xs[1..])
  }

  lemma {:induction false} InsertSorted(x: int, xs: seq<int>)
    requires SortedInts(xs)
    ensures SortedInts(Insert(x, xs))
  {
    if |xs| == 0 || x <= xs[0] {
    } else {
      var rest := Insert(x, xs[1..]);
      InsertSorted(x, xs[1..]);
      forall k | 0 <= k < |rest| ensures xs[0] <= rest[k] {
        assert rest[k] in multiset(rest);
        assert rest[k] in multiset(xs[1..]) || rest[k] == x;
        if rest[k] in multiset(xs[1..]) {
          var j :| 0 <= j < |xs[1..]| && xs[1..][j] == rest[k];
          assert xs[j + 1] == rest[k];
        }
      }
    }
  }

  /** The keys in ascending order: sorted, and the same keys as before. */
  function SortInts(xs: seq<int>): (r: seq<int>)
    ensures |r| == |xs|
    ensures SortedInts(r)
    ensures multiset(r) == multiset(xs)
  {
    if |xs| == 0 then []
    else
      var rest := SortInts(xs[1..]);
      InsertSorted(xs[0], rest);
      assert xs == [xs[0]] + xs[1..];
      Insert(xs[0], rest)
  }

  /** Already sorted keys come back unchanged. */
  lemma {:induction false} SortIntsSorted(xs: seq<int>)
    requires SortedInts(xs)
    ensures SortInts(xs) == xs
  {
    if |xs| > 0 {
      SortIntsSorted(xs[1..]);
      assert xs == [xs[0]] + xs[1..];
    }
  }

  /** Sorting keeps exactly the members. */
  lemma SortIntsMembers(xs: seq<int>, x: int)
    ensures x in SortInts(xs) <==> x in xs
  {
    assert x in SortInts(xs) <==> x in multiset(SortInts(xs));
    assert x in xs <==> x in multiset(xs);
  }
}
