/** Ordering a sequence by a total "may come before" relation. It stands for the
    database's ORDER BY and for JavaScript's Array.prototype.sort, whose results
    are specified here (ordered, a permutation of the input), not their algorithms. */
module Sorting {

  /** Each element may come before the next one. */
  ghost predicate SortedBy<T>(s: seq<T>, before: (T, T) -> bool)
  {
    forall i :: 0 < i < |s| ==> before(s[i - 1], s[i])
  }

  /** Inserts x in front of the first element it may come before. */
  function Insert<T>(x: T, s: seq<T>, before: (T, T) -> bool): (r: seq<T>)
    ensures |r| == |s| + 1
    ensures multiset(r) == multiset(s) + multiset{x}
    ensures r[0] == x || (s != [] && r[0] == s[0])
  {
    if s == [] then [x]
    else if before(x, s[0]) then [x] + s
    else
      assert s == [s[0]] + s[1..];
      [s[0]] + Insert(x, s[1..], before)
  }

  function InsertionSort<T>(s: seq<T>, before: (T, T) -> bool): (r: seq<T>)
    ensures multiset(r) == multiset(s)
  {
    if s == [] then []
    else
      assert s == [s[0]] + s[1..];
      Insert(s[0], InsertionSort(s[1..], before), before)
  }

  lemma {:induction false} InsertSorted<T>(x: T, s: seq<T>, before: (T, T) -> bool)
    requires forall a, b :: before(a, b) || before(b, a)
    requires SortedBy(s, before)
    ensures SortedBy(Insert(x, s, before), before)
  {
    if s != [] && !before(x, s[0]) {
      InsertSorted(x, s[1..], before);
      var r := Insert(x, s, before);
      var t := Insert(x, s[1..], before);
      assert r == [s[0]] + t;
      assert before(s[0], t[0]);
      forall i | 0 < i < |r| ensures before(r[i - 1], r[i]) {
        if i > 1 { assert r[i - 1] == t[i - 2] && r[i] == t[i - 1]; }
      }
    }
  }

  /** The result of InsertionSort is ordered when the relation is total. */
  lemma {:induction false} InsertionSortSorted<T>(s: seq<T>, before: (T, T) -> bool)
    requires forall a, b :: before(a, b) || before(b, a)
    ensures SortedBy(InsertionSort(s, before), before)
  {
    if s != [] {
      InsertionSortSorted(s[1..], before);
      InsertSorted(s[0], InsertionSort(s[1..], before), before);
    }
  }
}
