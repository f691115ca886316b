/**
 * `Array.prototype.sort` with a comparator on a numeric key, which JavaScript
 * requires to be stable. Keys are `Option<int>`: `None` stands for `NaN` and is
 * ordered after every number (see README for why this is a modelling choice).
 */
module Sorting {
  import opened Wrappers
  import opened Seqs

  /** `a` may precede `b` in ascending key order. */
  predicate KeyLe(a: Option<int>, b: Option<int>) {
    b.None? || (a.Some? && a.value <= b.value)
  }

  predicate Sorted<T>(s: seq<T>, key: T -> Option<int>) {
    forall i, j :: 0 <= i < j < |s| ==> KeyLe(key(s[i]), key(s[j]))
  }

  /** Puts `x` before the first element whose key is not smaller than its own. */
  function Insert<T>(x: T, s: seq<T>, key: T -> Option<int>): seq<T> {
    if s == [] then [x]
    else if KeyLe(key(x), key(s[0])) then [x] + s
    else [s[0]] + Insert(x, s[1..], key)
  }

  /** Stable insertion sort: each element goes in front of the sorted rest. */
  function SortBy<T>(s: seq<T>, key: T -> Option<int>): seq<T> {
    if s == [] then [] else Insert(s[0], SortBy(s[1..], key), key)
  }

  lemma SortedTail<T>(s: seq<T>, key: T -> Option<int>)
    requires s != [] && Sorted(s, key)
    ensures Sorted(s[1..], key)
  {
    forall i, j | 0 <= i < j < |s[1..]| ensures KeyLe(key(s[1..][i]), key(s[1..][j])) {
      assert s[1..][i] == s[i + 1] && s[1..][j] == s[j + 1];
    }
  }

  lemma {:induction false} InsertPerm<T>(x: T, s: seq<T>, key: T -> Option<int>)
    ensures multiset(Insert(x, s, key)) == multiset([x] + s)
  {
    if s != [] && !KeyLe(key(x), key(s[0])) {
      InsertPerm(x, s[1..], key);
      assert s == [s[0]] + s[1..];
    }
  }

  /** Every element of the inserted-into sequence is `x` or an element of `s`. */
  lemma InsertElems<T>(x: T, s: seq<T>, key: T -> Option<int>, y: T)
    requires y in Insert(x, s, key)
    ensures y == x || y in s
  {
    InsertPerm(x, s, key);
    assert y in multiset([x] + s);
  }

  lemma {:induction false} InsertSorted<T>(x: T, s: seq<T>, key: T -> Option<int>)
    requires Sorted(s, key)
    ensures Sorted(Insert(x, s, key), key)
  {
    if s == [] {
    } else if KeyLe(key(x), key(s[0])) {
      var r := [x] + s;
      forall i, j | 0 <= i < j < |r| ensures KeyLe(key(r[i]), key(r[j])) {
        if i == 0 {
          assert r[j] == s[j - 1];
          assert KeyLe(key(s[0]), key(s[j - 1]));
        } else {
          assert r[i] == s[i - 1] && r[j] == s[j - 1];
        }
      }
    } else {
      SortedTail(s, key);
      InsertSorted(x, s[1..], key);
      var t := Insert(x, s[1..], key);
      var r := [s[0]] + t;
      forall i, j | 0 <= i < j < |r| ensures KeyLe(key(r[i]), key(r[j])) {
        if i == 0 {
          assert r[j] == t[j - 1];
          InsertElems(x, s[1..], key, t[j - 1]);
          if t[j - 1] != x {
            var m :| 0 <= m < |s[1..]| && s[1..][m] == t[j - 1];
            assert s[m + 1] == t[j - 1];
          }
        } else {
          assert r[i] == t[i - 1] && r[j] == t[j - 1];
        }
      }
    }
  }

  /** The sort returns a permutation of its input, in ascending key order. */
  lemma {:induction false} SortBySorted<T>(s: seq<T>, key: T -> Option<int>)
    ensures multiset(SortBy(s, key)) == multiset(s)
    ensures Sorted(SortBy(s, key), key)
  {
    if s != [] {
      SortBySorted(s[1..], key);
      InsertPerm(s[0], SortBy(s[1..], key), key);
      InsertSorted(s[0], SortBy(s[1..], key), key);
      assert s == [s[0]] + s[1..];
    }
  }

  /** Elements with equal keys keep their input order (stability). */
  lemma {:induction false} InsertStable<T>(x: T, s: seq<T>, key: T -> Option<int>, k: Option<int>)
    requires Sorted(s, key)
    ensures FilterKey(Insert(x, s, key), key, k) == FilterKey([x], key, k) + FilterKey(s, key, k)
  {
    if s == [] {
    } else if KeyLe(key(x), key(s[0])) {
      FilterKeyAppend([x], s, key, k);
    } else {
      SortedTail(s, key);
      var t := Insert(x, s[1..], key);
      InsertStable(x, s[1..], key, k);
      FilterKeyAppend([s[0]], t, key, k);
      FilterKeyAppend([s[0]], s[1..], key, k);
      assert [s[0]] + s[1..] == s;
      var fx, f0 := FilterKey([x], key, k), FilterKey([s[0]], key, k);
      // s[0] sorts strictly before x, so at most one of them has key k
      FilterKeySingle(x, key, k);
      FilterKeySingle(s[0], key, k);
      var rest := FilterKey(s[1..], key, k);
      assert f0 + (fx + rest) == fx + (f0 + rest) by {
        if fx == [] {
          assert fx + rest == rest && fx + (f0 + rest) == f0 + rest;
        } else {
          assert f0 == [];
          assert f0 + (fx + rest) == fx + rest && f0 + rest == rest;
        }
      }
      calc {
        FilterKey(Insert(x, s, key), key, k);
        FilterKey([s[0]] + t, key, k);
        f0 + FilterKey(t, key, k);
        f0 + (fx + rest);
        fx + (f0 + rest);
        fx + FilterKey(s, key, k);
      }
    }
  }

  lemma {:induction false} SortByStable<T>(s: seq<T>, key: T -> Option<int>, k: Option<int>)
    ensures FilterKey(SortBy(s, key), key, k) == FilterKey(s, key, k)
  {
    if s != [] {
      SortBySorted(s[1..], key);
      SortByStable(s[1..], key, k);
      InsertStable(s[0], SortBy(s[1..], key), key, k);
      FilterKeyAppend([s[0]], s[1..], key, k);
      assert [s[0]] + s[1..] == s;
    }
  }

  /** Sorting what is already sorted changes nothing. */
  lemma {:induction false} SortByIdempotent<T>(s: seq<T>, key: T -> Option<int>)
    requires Sorted(s, key)
    ensures SortBy(s, key) == s
  {
    if s != [] {
      SortedTail(s, key);
      SortByIdempotent(s[1..], key);
      if |s| > 1 {
        assert KeyLe(key(s[0]), key(s[1]));
      }
      assert [s[0]] + s[1..] == s;
    }
  }
}
