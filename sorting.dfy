/**
 * `Array.prototype.sort` with a comparator `(a, b) => key(a) - key(b)`, as a stable
 * insertion sort. A key of `None` stands for `NaN` (an invalid `Date`): the comparator
 * then yields `NaN`, which `sort` treats as "equal", so such an element never moves
 * ahead of another one.
 */
module Sorting {
  import opened Wrappers

  predicate Less<T>(key: T -> Option<int>, a: T, b: T)
  {
    key(a).Some? && key(b).Some? && key(a).value < key(b).value
  }

  /** Inserts `x` before the first element whose key is greater, i.e. after every element it ties with. */
  function Insert<T>(s: seq<T>, x: T, key: T -> Option<int>): (r: seq<T>)
    ensures |r| == |s| + 1
    ensures multiset(r) == multiset(s) + multiset{x}
  {
    if s == [] then [x]
    else if Less(key, x, s[0]) then [x] + s
    else
      assert s == [s[0]] + s[1..];
      [s[0]] + Insert(s[1..], x, key)
  }

  function SortByKey<T>(s: seq<T>, key: T -> Option<int>): (r: seq<T>)
    ensures |r| == |s|
    ensures multiset(r) == multiset(s)
  {
    if s == [] then []
    else
      assert s == s[..|s| - 1] + [s[|s| - 1]];
      Insert(SortByKey(s[..|s| - 1], key), s[|s| - 1], key)
  }

  predicate AllKeyed<T>(s: seq<T>, key: T -> Option<int>)
  {
    forall i :: 0 <= i < |s| ==> key(s[i]).Some?
  }

  predicate SortedByKey<T>(s: seq<T>, key: T -> Option<int>)
  {
    forall i, j :: 0 <= i < j < |s| ==> !Less(key, s[j], s[i])
  }

  lemma {:induction false} InsertKeepsSorted<T>(s: seq<T>, x: T, key: T -> Option<int>)
    requires AllKeyed(s, key) && key(x).Some?
    requires SortedByKey(s, key)
    ensures AllKeyed(Insert(s, x, key), key)
    ensures SortedByKey(Insert(s, x, key), key)
  {
    var r := Insert(s, x, key);
    if s != [] && !Less(key, x, s[0]) {
      InsertKeepsSorted(s[1..], x, key);
      var t := Insert(s[1..], x, key);
      assert multiset(t) == multiset(s[1..]) + multiset{x};
      forall j | 0 < j < |r| ensures !Less(key, r[j], r[0]) {
        assert r[j] == t[j - 1];
        assert r[j] in multiset(t);
        if r[j] != x {
          assert r[j] in s[1..];
        }
      }
    }
  }

  /** The sorted result is in non-decreasing key order whenever every key is a number. */
  lemma {:induction false} SortIsSorted<T>(s: seq<T>, key: T -> Option<int>)
    requires AllKeyed(s, key)
    ensures AllKeyed(SortByKey(s, key), key)
    ensures SortedByKey(SortByKey(s, key), key)
  {
    if s != [] {
      SortIsSorted(s[..|s| - 1], key);
      InsertKeepsSorted(SortByKey(s[..|s| - 1], key), s[|s| - 1], key);
    }
  }

  /** Adding one element to the end of a sorted sequence and sorting again only inserts that element. */
  lemma {:induction false} SortOfSortedAppend<T>(s: seq<T>, x: T, key: T -> Option<int>)
    requires AllKeyed(s, key) && SortedByKey(s, key)
    ensures SortByKey(s + [x], key) == Insert(s, x, key)
  {
    assert (s + [x])[..|s|] == s;
    SortOfSorted(s, key);
  }

  /** Sorting an already sorted sequence changes nothing. */
  lemma {:induction false} SortOfSorted<T>(s: seq<T>, key: T -> Option<int>)
    requires AllKeyed(s, key) && SortedByKey(s, key)
    ensures SortByKey(s, key) == s
  {
    if s != [] {
      var p := s[..|s| - 1];
      SortOfSorted(p, key);
      InsertAtEnd(p, s[|s| - 1], key);
      assert p + [s[|s| - 1]] == s;
    }
  }

  lemma {:induction false} InsertAtEnd<T>(s: seq<T>, x: T, key: T -> Option<int>)
    requires forall i :: 0 <= i < |s| ==> !Less(key, x, s[i])
    ensures Insert(s, x, key) == s + [x]
  {
    if s != [] {
      InsertAtEnd(s[1..], x, key);
      assert [s[0]] + (s[1..] + [x]) == s + [x];
    }
  }
}
