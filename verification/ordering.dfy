/**
 * Sorting by a numeric rank, highest rank first, as a `$sort` stage with
 * direction -1 does. Ties keep no promised order. Ascending order is sorting
 * by the negated rank.
 */
module Ordering {

  /** `xs` is ordered by non-increasing `rank`. */
  ghost predicate SortedBy<T>(xs: seq<T>, rank: T -> int) {
    forall i, j :: 0 <= i < j < |xs| ==> rank(xs[i]) >= rank(xs[j])
  }

  /** No two elements of `xs` share a `tag`. */
  ghost predicate DistinctBy<T, L>(xs: seq<T>, tag: T -> L) {
    forall i, j :: 0 <= i < j < |xs| ==> tag(xs[i]) != tag(xs[j])
  }

  /** Places `x` into the sorted `xs`, before the first element that does not out-rank it. */
  function Insert<T(==)>(x: T, xs: seq<T>, rank: T -> int): (r: seq<T>)
    requires SortedBy(xs, rank)
    ensures SortedBy(r, rank)
    ensures multiset(r) == multiset(xs) + multiset{x}
  {
    if xs == [] || rank(x) >= rank(xs[0]) then
      ConsSorted(x, xs, rank);
      [x] + xs
    else
      var tail := xs[1..];
      SortedTail(xs, rank);
      var rest := Insert(x, tail, rank);
      HeadOutranks(xs, x, rest, rank);
      ConsSorted(xs[0], rest, rank);
      assert xs == [xs[0]] + tail;
      [xs[0]] + rest
  }

  /** Dropping the first element keeps a sorted sequence sorted. */
  lemma SortedTail<T>(xs: seq<T>, rank: T -> int)
    requires xs != [] && SortedBy(xs, rank)
    ensures SortedBy(xs[1..], rank)
  {
    var tail := xs[1..];
    forall i, j | 0 <= i < j < |tail| ensures rank(tail[i]) >= rank(tail[j]) {
      assert tail[i] == xs[i + 1] && tail[j] == xs[j + 1];
    }
  }

  /**
   * The head of a sorted sequence out-ranks every element of any rearrangement
   * of its tail with one lower-ranked element added.
   */
  lemma HeadOutranks<T>(xs: seq<T>, x: T, rest: seq<T>, rank: T -> int)
    requires xs != [] && SortedBy(xs, rank) && rank(xs[0]) >= rank(x)
    requires multiset(rest) == multiset(xs[1..]) + multiset{x}
    ensures forall y :: y in rest ==> rank(xs[0]) >= rank(y)
  {
    var tail := xs[1..];
    forall y | y in rest ensures rank(xs[0]) >= rank(y) {
      assert y in multiset(rest);
      if y != x {
        assert y in multiset(tail);
        var k :| 0 <= k < |tail| && tail[k] == y;
        assert xs[k + 1] == y;
      }
    }
  }

  /** Putting an element that out-ranks a sorted sequence in front of it keeps it sorted. */
  lemma ConsSorted<T>(h: T, xs: seq<T>, rank: T -> int)
    requires SortedBy(xs, rank)
    requires forall y :: y in xs ==> rank(h) >= rank(y)
    ensures SortedBy([h] + xs, rank)
  {
    var r := [h] + xs;
    forall i, j | 0 <= i < j < |r| ensures rank(r[i]) >= rank(r[j]) {
      if i == 0 {
        assert r[j] == xs[j - 1];
      } else {
        assert r[i] == xs[i - 1] && r[j] == xs[j - 1];
      }
    }
  }

  /** A permutation of `xs` ordered by non-increasing `rank`. */
  function Sort<T(==)>(xs: seq<T>, rank: T -> int): (r: seq<T>)
    ensures SortedBy(r, rank)
    ensures multiset(r) == multiset(xs)
  {
    if xs == [] then []
    else
      assert xs == [xs[0]] + xs[1..];
      Insert(xs[0], Sort(xs[1..], rank), rank)
  }

  /** Sorting reorders and neither adds nor drops an element. */
  lemma SortSameElements<T>(xs: seq<T>, rank: T -> int)
    ensures |Sort(xs, rank)| == |xs|
    ensures forall y :: y in Sort(xs, rank) <==> y in xs
  {
    var r := Sort(xs, rank);
    assert |multiset(r)| == |multiset(xs)|;
    forall y ensures y in r <==> y in xs {
      assert y in r <==> y in multiset(r);
      assert y in xs <==> y in multiset(xs);
    }
  }

  /** Inserting an element with a fresh tag keeps the tags distinct. */
  lemma {:induction false} InsertKeepsDistinct<T, L>(x: T, xs: seq<T>, rank: T -> int, tag: T -> L)
    requires SortedBy(xs, rank)
    requires DistinctBy(xs, tag)
    requires forall y :: y in xs ==> tag(y) != tag(x)
    ensures DistinctBy(Insert(x, xs, rank), tag)
  {
    if xs == [] || rank(x) >= rank(xs[0]) {
      var r := [x] + xs;
      assert r == Insert(x, xs, rank);
      forall i, j | 0 <= i < j < |r| ensures tag(r[i]) != tag(r[j]) {
        if i == 0 {
          assert r[j] in xs;
        } else {
          assert r[i] == xs[i - 1] && r[j] == xs[j - 1];
        }
      }
    } else {
      var tail := xs[1..];
      assert DistinctBy(tail, tag) by {
        forall i, j | 0 <= i < j < |tail| ensures tag(tail[i]) != tag(tail[j]) {
          assert tail[i] == xs[i + 1] && tail[j] == xs[j + 1];
        }
      }
      InsertKeepsDistinct(x, tail, rank, tag);
      var rest := Insert(x, tail, rank);
      var r := [xs[0]] + rest;
      assert r == Insert(x, xs, rank);
      forall i, j | 0 <= i < j < |r| ensures tag(r[i]) != tag(r[j]) {
        if i == 0 {
          var y := r[j];
          assert y in rest;
          assert y in multiset(rest);
          if y != x {
            assert y in tail;
            var k :| 0 <= k < |tail| && tail[k] == y;
            assert xs[k + 1] == y;
          }
        } else {
          assert r[i] == rest[i - 1] && r[j] == rest[j - 1];
        }
      }
    }
  }

  /** Dropping the first element keeps the tags distinct. */
  lemma DistinctTail<T, L>(xs: seq<T>, tag: T -> L)
    requires xs != [] && DistinctBy(xs, tag)
    ensures DistinctBy(xs[1..], tag)
    ensures forall y :: y in xs[1..] ==> tag(y) != tag(xs[0])
  {
    var tail := xs[1..];
    forall i, j | 0 <= i < j < |tail| ensures tag(tail[i]) != tag(tail[j]) {
      assert tail[i] == xs[i + 1] && tail[j] == xs[j + 1];
    }
    forall y | y in tail ensures tag(y) != tag(xs[0]) {
      var k :| 0 <= k < |tail| && tail[k] == y;
      assert xs[k + 1] == y;
    }
  }

  /** Putting an element with a fresh tag in front of a sequence with distinct tags keeps them distinct. */
  lemma ConsDistinct<T, L>(h: T, xs: seq<T>, tag: T -> L)
    requires DistinctBy(xs, tag)
    requires forall y :: y in xs ==> tag(y) != tag(h)
    ensures DistinctBy([h] + xs, tag)
  {
    var r := [h] + xs;
    forall i, j | 0 <= i < j < |r| ensures tag(r[i]) != tag(r[j]) {
      assert r[j] == xs[j - 1];
      if i > 0 {
        assert r[i] == xs[i - 1];
      }
    }
  }

  /** Sorting keeps distinct tags distinct. */
  lemma {:induction false} SortKeepsDistinct<T, L>(xs: seq<T>, rank: T -> int, tag: T -> L)
    requires DistinctBy(xs, tag)
    ensures DistinctBy(Sort(xs, rank), tag)
  {
    if xs != [] {
      var tail := xs[1..];
      DistinctTail(xs, tag);
      SortKeepsDistinct(tail, rank, tag);
      var sorted := Sort(tail, rank);
      forall y | y in sorted ensures tag(y) != tag(xs[0]) {
        assert y in multiset(sorted);
        assert y in multiset(tail);
      }
      InsertKeepsDistinct(xs[0], sorted, rank, tag);
      assert Sort(xs, rank) == Insert(xs[0], sorted, rank);
    }
  }
}
