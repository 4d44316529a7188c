/** A stable sort by a real-valued key: Kotlin's `MutableList.sortBy`, which
    delegates to the JDK's stable merge sort. Modelled as insertion sort;
    stability, order and permutation are proved. */
module StableSort {
  import opened SeqFilter

  /** Keys are non-decreasing from left to right. */
  predicate SortedBy<T>(s: seq<T>, key: T -> real) {
    forall i, j :: 0 <= i < j < |s| ==> key(s[i]) <= key(s[j])
  }

  /** The subsequence of elements whose key equals `k`, in order. Two
      arrangements with the same `WithKey` for every `k` keep equal-key
      elements in the same relative order. */
  function WithKey<T>(s: seq<T>, key: T -> real, k: real): seq<T> {
    if |s| == 0 then []
    else (if key(s[0]) == k then [s[0]] else []) + WithKey(s[1..], key, k)
  }

  /** Puts `x` in front of the first element whose key is not smaller,
      so it stays ahead of the equal keys that came after it in the input. */
  function Insert<T(==)>(x: T, s: seq<T>, key: T -> real): (r: seq<T>)
    ensures |r| == |s| + 1
    ensures multiset(r) == multiset(s) + multiset{x}
    ensures SortedBy(s, key) ==> SortedBy(r, key)
  {
    if |s| == 0 then [x]
    else if key(x) <= key(s[0]) then [x] + s
    else
      var rest := Insert(x, s[1..], key);
      assert s == [s[0]] + s[1..];
      assert SortedBy(s, key) ==> SortedBy([s[0]] + rest, key) by {
        if SortedBy(s, key) {
          forall j | 0 <= j < |rest|
            ensures key(s[0]) <= key(rest[j])
          {
            assert rest[j] in multiset(s[1..]) + multiset{x};
            if rest[j] != x {
              assert rest[j] in s[1..];
              var i :| 0 <= i < |s[1..]| && s[1..][i] == rest[j];
              assert s[i + 1] == rest[j];
            }
          }
        }
      }
      [s[0]] + rest
  }

  /** Sorts by `key`: the result is ordered and is a permutation of `s`. */
  function SortBy<T(==)>(s: seq<T>, key: T -> real): (r: seq<T>)
    ensures |r| == |s|
    ensures multiset(r) == multiset(s)
    ensures SortedBy(r, key)
  {
    if |s| == 0 then []
    else
      assert s == [s[0]] + s[1..];
      Insert(s[0], SortBy(s[1..], key), key)
  }

  /** Inserting `x` adds it in front of the elements already carrying its key. */
  lemma {:induction false} InsertWithKey<T>(x: T, s: seq<T>, key: T -> real, k: real)
    ensures WithKey(Insert(x, s, key), key, k)
         == (if key(x) == k then [x] else []) + WithKey(s, key, k)
    decreases |s|
  {
    if |s| == 0 {
      WithKeyCons(x, [], key, k);
    } else if key(x) <= key(s[0]) {
      WithKeyCons(x, s, key, k);
    } else {
      InsertWithKey(x, s[1..], key, k);
      InsertPastHead(x, s, key, k);
    }
  }

  /** The step of `InsertWithKey` where `x` moves past the first element. */
  lemma {:induction false} InsertPastHead<T>(x: T, s: seq<T>, key: T -> real, k: real)
    requires |s| > 0 && key(s[0]) < key(x)
    requires WithKey(Insert(x, s[1..], key), key, k)
          == (if key(x) == k then [x] else []) + WithKey(s[1..], key, k)
    ensures WithKey(Insert(x, s, key), key, k)
         == (if key(x) == k then [x] else []) + WithKey(s, key, k)
  {
    var rest := Insert(x, s[1..], key);
    var xPart := if key(x) == k then [x] else [];
    var headPart := if key(s[0]) == k then [s[0]] else [];
    assert Insert(x, s, key) == [s[0]] + rest;
    WithKeyCons(s[0], rest, key, k);
    assert WithKey(Insert(x, s, key), key, k) == headPart + (xPart + WithKey(s[1..], key, k));
    assert [s[0]] + s[1..] == s;
    WithKeyCons(s[0], s[1..], key, k);
    assert WithKey(s, key, k) == headPart + WithKey(s[1..], key, k);
    if key(x) == k {
      assert headPart == [];
    } else {
      assert xPart == [];
    }
  }

  /** `WithKey` of a sequence with a given first element. */
  lemma {:induction false} WithKeyCons<T>(y: T, t: seq<T>, key: T -> real, k: real)
    ensures WithKey([y] + t, key, k) == (if key(y) == k then [y] else []) + WithKey(t, key, k)
  {
    assert ([y] + t)[0] == y;
    assert ([y] + t)[1..] == t;
  }

  /** Stability: for every key value, the elements carrying it appear in the
      sorted sequence in the same order as in the input. */
  lemma {:induction false} SortByIsStable<T>(s: seq<T>, key: T -> real, k: real)
    ensures WithKey(SortBy(s, key), key, k) == WithKey(s, key, k)
    decreases |s|
  {
    if |s| != 0 {
      InsertWithKey(s[0], SortBy(s[1..], key), key, k);
      SortByIsStable(s[1..], key, k);
    }
  }

  /** An already sorted input is left unchanged. */
  lemma {:induction false} SortBySortedIsIdentity<T>(s: seq<T>, key: T -> real)
    requires SortedBy(s, key)
    ensures SortBy(s, key) == s
    decreases |s|
  {
    if |s| != 0 {
      SortBySortedIsIdentity(s[1..], key);
      assert SortBy(s[1..], key) == s[1..];
      if |s| > 1 {
        assert key(s[0]) <= key(s[1]);
      }
      assert [s[0]] + s[1..] == s;
    }
  }

  /** Selecting from a sorted sequence keeps it sorted. */
  lemma {:induction false} FilterKeepsSorted<T(!new)>(s: seq<T>, key: T -> real, p: T -> bool)
    requires SortedBy(s, key)
    ensures SortedBy(Filter(s, p), key)
    decreases |s|
  {
    if |s| != 0 {
      var prefix := s[..|s| - 1];
      var last := s[|s| - 1];
      FilterKeepsSorted(prefix, key, p);
      var kept := Filter(prefix, p);
      forall i | 0 <= i < |kept|
        ensures key(kept[i]) <= key(last)
      {
        assert kept[i] in prefix;
        var j :| 0 <= j < |prefix| && prefix[j] == kept[i];
        assert s[j] == kept[i];
      }
    }
  }
}
