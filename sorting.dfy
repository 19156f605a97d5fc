/**
 * The stable sort that both `Array.prototype.sort` (stable since ECMAScript 2019)
 * and an `ORDER BY ... ASC` over the store are modelled by: an insertion sort
 * ascending by an integer key, in which an element goes in front of every later
 * element with an equal key.
 */
module Sorting {

  ghost predicate SortedBy<T>(s: seq<T>, key: T -> int)
  {
    forall i, j :: 0 <= i < j < |s| ==> key(s[i]) <= key(s[j])
  }

  /** Inserts `e` in front of the first element whose key is not smaller. */
  function Insert<T>(e: T, s: seq<T>, key: T -> int): (r: seq<T>)
    ensures |r| == |s| + 1
    ensures multiset(r) == multiset(s) + multiset{e}
    ensures r[0] == (if s == [] || key(e) <= key(s[0]) then e else s[0])
  {
    if s == [] || key(e) <= key(s[0]) then
      [e] + s
    else
      assert s == [s[0]] + s[1..];
      [s[0]] + Insert(e, s[1..], key)
  }

  /** Inserting into a sorted list keeps it sorted. */
  lemma {:induction false} InsertSorted<T>(e: T, s: seq<T>, key: T -> int)
    requires SortedBy(s, key)
    ensures SortedBy(Insert(e, s, key), key)
  {
    if s != [] && key(e) > key(s[0]) {
      var tail := Insert(e, s[1..], key);
      InsertSorted(e, s[1..], key);
      assert key(s[0]) <= key(tail[0]);
      assert Insert(e, s, key) == [s[0]] + tail;
    }
  }

  function SortBy<T>(s: seq<T>, key: T -> int): (r: seq<T>)
    ensures |r| == |s|
    ensures multiset(r) == multiset(s)
    ensures SortedBy(r, key)
  {
    if s == [] then []
    else
      assert s == [s[0]] + s[1..];
      var sortedTail := SortBy(s[1..], key);
      InsertSorted(s[0], sortedTail, key);
      Insert(s[0], sortedTail, key)
  }

  /** Index of the first element with the smallest key: the reference for what a stable sort puts first. */
  function FirstMin<T>(s: seq<T>, key: T -> int): (m: nat)
    requires |s| > 0
    ensures m < |s|
    ensures forall j :: 0 <= j < |s| ==> key(s[m]) <= key(s[j])
    ensures forall j :: 0 <= j < m ==> key(s[m]) < key(s[j])
  {
    if |s| == 1 then 0
    else
      var m := FirstMin(s[1..], key);
      if key(s[0]) <= key(s[1 + m]) then 0 else m + 1
  }

  /** Stability at the head: a stable sort starts with the first element of least key. */
  lemma {:induction false} SortHeadIsFirstMin<T>(s: seq<T>, key: T -> int)
    requires |s| > 0
    ensures SortBy(s, key)[0] == s[FirstMin(s, key)]
  {
    if |s| > 1 {
      SortHeadIsFirstMin(s[1..], key);
    }
  }
}
