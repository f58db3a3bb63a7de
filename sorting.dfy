/**
 * The stable sort that `Array.prototype.sort` performs with the comparator
 * `(a, b) => key(a) - key(b)`: the result is nondecreasing by key and keeps
 * the input order among elements with equal keys. It is written as an
 * insertion sort; its contract is what every caller relies on.
 */
module StableSort {

  ghost predicate SortedBy<T>(s: seq<T>, key: T -> int)
  {
    forall i, j :: 0 <= i < j < |s| ==> key(s[i]) <= key(s[j])
  }

  /** The elements of s whose key is k, in their order in s. */
  function WithKey<T>(s: seq<T>, key: T -> int, k: int): seq<T>
  {
    if s == [] then []
    else (if key(s[0]) == k then [s[0]] else []) + WithKey(s[1..], key, k)
  }

  /** Put x before the first element of s whose key is not smaller than x's. */
  function Insert<T>(x: T, s: seq<T>, key: T -> int): seq<T>
  {
    if s == [] || key(x) <= key(s[0]) then [x] + s else [s[0]] + Insert(x, s[1..], key)
  }

  lemma {:induction false} InsertPermutes<T>(x: T, s: seq<T>, key: T -> int)
    ensures multiset(Insert(x, s, key)) == multiset(s) + multiset{x}
  {
    if s != [] && key(x) > key(s[0]) {
      InsertPermutes(x, s[1..], key);
      assert s == [s[0]] + s[1..];
    }
  }

  /** A lower bound on the keys of x and of s bounds the keys of the insertion. */
  lemma {:induction false} InsertBounded<T>(x: T, s: seq<T>, key: T -> int, b: int)
    requires b <= key(x) && forall i :: 0 <= i < |s| ==> b <= key(s[i])
    ensures forall i :: 0 <= i < |Insert(x, s, key)| ==> b <= key(Insert(x, s, key)[i])
  {
    if s != [] && key(x) > key(s[0]) {
      InsertBounded(x, s[1..], key, b);
      var t := Insert(x, s[1..], key);
      forall i | 0 <= i < |[s[0]] + t| ensures b <= key(([s[0]] + t)[i]) {
        if i > 0 {
          assert ([s[0]] + t)[i] == t[i - 1];
        }
      }
    }
  }

  lemma {:induction false} InsertSorted<T>(x: T, s: seq<T>, key: T -> int)
    requires SortedBy(s, key)
    ensures SortedBy(Insert(x, s, key), key)
  {
    if s == [] || key(x) <= key(s[0]) {
      var r := [x] + s;
      forall i, j | 0 <= i < j < |r| ensures key(r[i]) <= key(r[j]) {
        if i > 0 {
          assert r[i] == s[i - 1] && r[j] == s[j - 1];
        } else {
          assert r[j] == s[j - 1];
        }
      }
    } else {
      InsertSorted(x, s[1..], key);
      var t := Insert(x, s[1..], key);
      InsertBounded(x, s[1..], key, key(s[0]));
      var r := [s[0]] + t;
      forall i, j | 0 <= i < j < |r| ensures key(r[i]) <= key(r[j]) {
        if i > 0 {
          assert r[i] == t[i - 1] && r[j] == t[j - 1];
        } else {
          assert r[j] == t[j - 1];
        }
      }
    }
  }

  /** Inserting x only adds x to the subsequence of its own key, at its front. */
  lemma {:induction false} InsertStable<T>(x: T, s: seq<T>, key: T -> int, k: int)
    ensures WithKey(Insert(x, s, key), key, k) == (if key(x) == k then [x] else []) + WithKey(s, key, k)
  {
    if s == [] || key(x) <= key(s[0]) {
      assert ([x] + s)[1..] == s;
    } else {
      var t := Insert(x, s[1..], key);
      InsertStable(x, s[1..], key, k);
      assert ([s[0]] + t)[1..] == t;
      if key(x) == k {
        assert WithKey(Insert(x, s, key), key, k) == [x] + WithKey(s[1..], key, k);
      } else {
        assert WithKey(Insert(x, s, key), key, k) == (if key(s[0]) == k then [s[0]] else []) + WithKey(s[1..], key, k);
      }
    }
  }

  /** `s.slice().sort((a, b) => key(a) - key(b))`: a permutation of s. */
  function SortBy<T>(s: seq<T>, key: T -> int): (r: seq<T>)
    ensures multiset(r) == multiset(s)
  {
    if s == [] then []
    else
      var t := SortBy(s[1..], key);
      assert s == [s[0]] + s[1..];
      InsertPermutes(s[0], t, key);
      Insert(s[0], t, key)
  }

  /** The sorted sequence is nondecreasing by key. */
  lemma {:induction false} SortBySorted<T>(s: seq<T>, key: T -> int)
    ensures SortedBy(SortBy(s, key), key)
  {
    if s != [] {
      SortBySorted(s[1..], key);
      InsertSorted(s[0], SortBy(s[1..], key), key);
    }
  }

  /** Sorting keeps the input order among elements with equal keys. */
  lemma {:induction false} SortByStable<T>(s: seq<T>, key: T -> int, k: int)
    ensures WithKey(SortBy(s, key), key, k) == WithKey(s, key, k)
  {
    if s != [] {
      SortByStable(s[1..], key, k);
      InsertStable(s[0], SortBy(s[1..], key), key, k);
    }
  }

  /** Sorting a sequence that is already sorted changes nothing. */
  lemma {:induction false} SortSorted<T>(s: seq<T>, key: T -> int)
    requires SortedBy(s, key)
    ensures SortBy(s, key) == s
  {
    if s != [] {
      SortSorted(s[1..], key);
    }
  }

  /** The elements of s that satisfy pick, in their order in s. */
  function Filter<T>(s: seq<T>, pick: T -> bool): (r: seq<T>)
    ensures |r| <= |s|
    ensures forall i :: 0 <= i < |r| ==> r[i] in s && pick(r[i])
    ensures forall i :: 0 <= i < |s| && pick(s[i]) ==> s[i] in r
  {
    if s == [] then [] else (if pick(s[0]) then [s[0]] else []) + Filter(s[1..], pick)
  }

  /** Filtering a sorted sequence leaves it sorted. */
  lemma {:induction false} SortedFilter<T>(s: seq<T>, pick: T -> bool, key: T -> int)
    requires SortedBy(s, key)
    ensures SortedBy(Filter(s, pick), key)
  {
    if s != [] {
      SortedFilter(s[1..], pick, key);
      var t := Filter(s[1..], pick);
      forall i | 0 <= i < |t| ensures key(s[0]) <= key(t[i]) {
        assert t[i] in s[1..];
      }
    }
  }
}
