/** The ordering a database `orderBy` gives: an insertion sort on an integer key. */
module Sorting {

  /** `s` is in ascending order of `key`. */
  ghost predicate SortedBy<T>(s: seq<T>, key: T -> int) {
    forall i, j :: 0 <= i < j < |s| ==> key(s[i]) <= key(s[j])
  }

  /** Puts `x` before the first element of `s` whose key is not smaller. */
  function Insert<T>(x: T, s: seq<T>, key: T -> int): seq<T>
    decreases |s|
  {
    if s == [] || key(x) <= key(s[0]) then [x] + s
    else [s[0]] + Insert(x, s[1..], key)
  }

  /** Inserting adds exactly `x`. */
  lemma {:induction false} InsertAddsOne<T>(x: T, s: seq<T>, key: T -> int)
    ensures multiset(Insert(x, s, key)) == multiset(s) + multiset{x}
    decreases |s|
  {
    if s != [] && key(s[0]) < key(x) {
      InsertAddsOne(x, s[1..], key);
      assert s == [s[0]] + s[1..];
    }
  }

  /** Inserting into a sorted sequence keeps it sorted. */
  lemma {:induction false} InsertKeepsSorted<T>(x: T, s: seq<T>, key: T -> int)
    requires SortedBy(s, key)
    ensures SortedBy(Insert(x, s, key), key)
    decreases |s|
  {
    if s != [] && key(s[0]) < key(x) {
      var tail := Insert(x, s[1..], key);
      InsertKeepsSorted(x, s[1..], key);
      InsertAddsOne(x, s[1..], key);
      forall k | 0 <= k < |tail| ensures key(s[0]) <= key(tail[k]) {
        assert tail[k] in multiset(tail);
        if tail[k] != x {
          assert tail[k] in s[1..];
          var j :| 0 <= j < |s[1..]| && s[1..][j] == tail[k];
          assert s[j + 1] == tail[k];
        }
      }
    }
  }

  /** The elements of `s` in ascending order of `key`. */
  function SortBy<T>(s: seq<T>, key: T -> int): (r: seq<T>)
    ensures SortedBy(r, key)
    ensures multiset(r) == multiset(s)
    decreases |s|
  {
    if s == [] then []
    else
      var rest := SortBy(s[1..], key);
      InsertKeepsSorted(s[0], rest, key);
      InsertAddsOne(s[0], rest, key);
      assert s == [s[0]] + s[1..];
      Insert(s[0], rest, key)
  }
}
