/** A stable insertion sort, standing for the array sort the reports rely on. */
module Sorting {

  ghost predicate TotalPreorder<T(!new)>(atMost: (T, T) -> bool) {
    && (forall x, y :: atMost(x, y) || atMost(y, x))
    && (forall x, y, z :: atMost(x, y) && atMost(y, z) ==> atMost(x, z))
  }

  ghost predicate Sorted<T>(xs: seq<T>, atMost: (T, T) -> bool) {
    forall i, j :: 0 <= i < j < |xs| ==> atMost(xs[i], xs[j])
  }

  function Insert<T>(x: T, xs: seq<T>, atMost: (T, T) -> bool): (r: seq<T>)
    ensures multiset(r) == multiset(xs) + multiset{x}
  {
    if xs == [] then [x]
    else if atMost(x, xs[0]) then [x] + xs
    else
      assert xs == [xs[0]] + xs[1..];
      [xs[0]] + Insert(x, xs[1..], atMost)
  }

  function Sort<T>(xs: seq<T>, atMost: (T, T) -> bool): (r: seq<T>)
    ensures multiset(r) == multiset(xs)
    ensures |r| == |xs|
  {
    if xs == [] then []
    else
      assert xs == [xs[0]] + xs[1..];
      var r := Insert(xs[0], Sort(xs[1..], atMost), atMost);
      assert |multiset(r)| == |multiset(xs)|;
      r
  }

  lemma {:induction false} InsertKeepsSorted<T(!new)>(x: T, xs: seq<T>, atMost: (T, T) -> bool)
    requires TotalPreorder(atMost) && Sorted(xs, atMost)
    ensures Sorted(Insert(x, xs, atMost), atMost)
  {
    if xs == [] {
    } else if atMost(x, xs[0]) {
    } else {
      InsertKeepsSorted(x, xs[1..], atMost);
      var tail := Insert(x, xs[1..], atMost);
      forall i | 0 <= i < |tail| ensures atMost(xs[0], tail[i]) {
        assert tail[i] in multiset(tail);
        if tail[i] != x {
          assert tail[i] in xs[1..];
        }
      }
    }
  }

  lemma {:induction false} SortSorts<T(!new)>(xs: seq<T>, atMost: (T, T) -> bool)
    requires TotalPreorder(atMost)
    ensures Sorted(Sort(xs, atMost), atMost)
  {
    if xs == [] {
    } else {
      SortSorts(xs[1..], atMost);
      InsertKeepsSorted(xs[0], Sort(xs[1..], atMost), atMost);
    }
  }

  /** Sorting neither adds, drops nor repeats an element. */
  lemma SortKeepsElements<T>(xs: seq<T>, atMost: (T, T) -> bool)
    ensures forall x :: x in Sort(xs, atMost) <==> x in xs
    ensures (forall i, j :: 0 <= i < j < |xs| ==> xs[i] != xs[j]) ==>
              forall i, j :: 0 <= i < j < |xs| ==> Sort(xs, atMost)[i] != Sort(xs, atMost)[j]
  {
    var r := Sort(xs, atMost);
    assert forall x :: x in r <==> x in multiset(r);
    assert forall x :: x in xs <==> x in multiset(xs);
    if forall i, j :: 0 <= i < j < |xs| ==> xs[i] != xs[j] {
      forall i, j | 0 <= i < j < |r| ensures r[i] != r[j] {
        if r[i] == r[j] {
          RepeatsCountTwice(r, i, j);
          DistinctCountOnce(xs, r[i]);
          assert false;
        }
      }
    }
  }

  lemma RepeatsCountTwice<T>(xs: seq<T>, i: nat, j: nat)
    requires i < j < |xs| && xs[i] == xs[j]
    ensures multiset(xs)[xs[i]] >= 2
  {
    assert xs == xs[..i] + [xs[i]] + xs[i + 1..j] + [xs[j]] + xs[j + 1..];
  }

  lemma {:induction false} DistinctCountOnce<T>(xs: seq<T>, x: T)
    requires forall i, j :: 0 <= i < j < |xs| ==> xs[i] != xs[j]
    ensures multiset(xs)[x] <= 1
  {
    if xs != [] {
      assert xs == [xs[0]] + xs[1..];
      DistinctCountOnce(xs[1..], x);
      if x == xs[0] {
        assert x !in xs[1..];
        assert x !in multiset(xs[1..]);
      }
    }
  }
}
