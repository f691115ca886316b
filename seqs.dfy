/** Generic sequence helpers: keyed filtering, flattening and first-occurrence de-duplication. */
module Seqs {

  predicate NoDup<T(==)>(s: seq<T>) {
    forall i, j :: 0 <= i < j < |s| ==> s[i] != s[j]
  }

  /** No element occurs twice exactly when every count is at most one. */
  lemma {:induction false} NoDupCounts<T>(s: seq<T>)
    ensures NoDup(s) <==> forall x :: multiset(s)[x] <= 1
  {
    if s != [] {
      var init, last := s[..|s| - 1], s[|s| - 1];
      NoDupCounts(init);
      assert s == init + [last];
      assert multiset(s) == multiset(init) + multiset{last};
      if NoDup(s) {
        assert NoDup(init);
        assert last !in init;
      } else {
        var i, j :| 0 <= i < j < |s| && s[i] == s[j];
        if j < |s| - 1 {
          assert init[i] == init[j];
          var x :| multiset(init)[x] > 1;
          assert multiset(s)[x] > 1;
        } else {
          assert init[i] == last;
          assert multiset(init)[last] >= 1;
          assert multiset(s)[last] > 1;
        }
      }
    }
  }

  /** A permutation of a sequence without repeats has none. */
  lemma NoDupPerm<T>(a: seq<T>, b: seq<T>)
    requires NoDup(a) && multiset(a) == multiset(b)
    ensures NoDup(b)
  {
    NoDupCounts(a);
    NoDupCounts(b);
  }

  lemma ConcatAssoc<T>(a: seq<T>, b: seq<T>, c: seq<T>)
    ensures (a + b) + c == a + (b + c)
  {
  }

  lemma InMiddle<T>(x: T, a: seq<T>, b: seq<T>, c: seq<T>)
    requires x in b
    ensures x in a + b + c
  {
    var i :| 0 <= i < |b| && b[i] == x;
    assert (a + b + c)[|a| + i] == x;
  }

  lemma ThirdOf<T>(a: seq<T>, b: seq<T>, c: seq<T>)
    requires |a| == 2 && b != []
    ensures |a + b + c| > 2 && (a + b + c)[2] == b[0]
  {
  }

  /** The elements of `s` whose key is `k`, in their original order (JavaScript `filter`). */
  function FilterKey<T, K(==)>(s: seq<T>, key: T -> K, k: K): (r: seq<T>)
    ensures |r| <= |s|
  {
    if s == [] then []
    else FilterKey(s[..|s| - 1], key, k) + (if key(s[|s| - 1]) == k then [s[|s| - 1]] else [])
  }

  /** The elements of `s` whose key is not `k`, in their original order. */
  function FilterNotKey<T, K(==)>(s: seq<T>, key: T -> K, k: K): seq<T> {
    if s == [] then []
    else FilterNotKey(s[..|s| - 1], key, k) + (if key(s[|s| - 1]) != k then [s[|s| - 1]] else [])
  }

  /** What `FilterNotKey` keeps comes from `s` and does not have key `k`. */
  lemma {:induction false} FilterNotKeyMembers<T, K>(s: seq<T>, key: T -> K, k: K)
    ensures forall x <- FilterNotKey(s, key, k) :: x in s && key(x) != k
  {
    if s != [] {
      FilterNotKeyMembers(s[..|s| - 1], key, k);
      assert forall x <- s[..|s| - 1] :: x in s;
    }
  }

  /** What `FilterKey` keeps is exactly the elements with key `k`. */
  lemma {:induction false} FilterKeyMembers<T, K>(s: seq<T>, key: T -> K, k: K)
    ensures forall x <- FilterKey(s, key, k) :: x in s && key(x) == k
    ensures forall x <- s :: key(x) == k ==> x in FilterKey(s, key, k)
  {
    if s != [] {
      FilterKeyMembers(s[..|s| - 1], key, k);
      assert s == s[..|s| - 1] + [s[|s| - 1]];
    }
  }

  lemma FilterKeySingle<T, K>(x: T, key: T -> K, k: K)
    ensures FilterKey([x], key, k) == if key(x) == k then [x] else []
  {
    assert [x][..0] == [];
  }

  lemma {:induction false} FilterKeyAppend<T, K>(s: seq<T>, t: seq<T>, key: T -> K, k: K)
    ensures FilterKey(s + t, key, k) == FilterKey(s, key, k) + FilterKey(t, key, k)
    decreases |t|
  {
    if t == [] {
      assert s + t == s;
    } else {
      assert (s + t)[..|s + t| - 1] == s + t[..|t| - 1];
      FilterKeyAppend(s, t[..|t| - 1], key, k);
    }
  }

  /** Splitting by one key loses nothing and duplicates nothing. */
  lemma {:induction false} FilterSplit<T, K>(s: seq<T>, key: T -> K, k: K)
    ensures multiset(FilterKey(s, key, k)) + multiset(FilterNotKey(s, key, k)) == multiset(s)
  {
    if s != [] {
      FilterSplit(s[..|s| - 1], key, k);
      assert s == s[..|s| - 1] + [s[|s| - 1]];
    }
  }

  /** Filtering by `h` sees through a prior removal of the different key `k`. */
  lemma {:induction false} FilterKeyOfFilterNot<T, K>(s: seq<T>, key: T -> K, k: K, h: K)
    requires h != k
    ensures FilterKey(FilterNotKey(s, key, k), key, h) == FilterKey(s, key, h)
  {
    if s != [] {
      var init, last := s[..|s| - 1], s[|s| - 1];
      FilterKeyOfFilterNot(init, key, k, h);
      var r := FilterNotKey(init, key, k);
      if key(last) != k {
        assert FilterNotKey(s, key, k) == r + [last];
        FilterKeyAppend(r, [last], key, h);
        assert FilterKey([last], key, h) == (if key(last) == h then [last] else []);
      } else {
        assert FilterNotKey(s, key, k) == r;
        assert FilterKey(s, key, h) == FilterKey(init, key, h);
      }
    }
  }

  function Flatten<T>(ss: seq<seq<T>>): seq<T> {
    if ss == [] then [] else ss[0] + Flatten(ss[1..])
  }

  lemma {:induction false} FlattenAppend<T>(a: seq<seq<T>>, b: seq<seq<T>>)
    ensures Flatten(a + b) == Flatten(a) + Flatten(b)
  {
    if a == [] {
      assert a + b == b;
    } else {
      assert (a + b)[1..] == a[1..] + b;
      FlattenAppend(a[1..], b);
    }
  }

  /** The pieces `f` gives for the elements of `xs`, one after the other. */
  function ConcatMap<T, U>(xs: seq<T>, f: T -> seq<U>): seq<U> {
    if xs == [] then [] else ConcatMap(xs[..|xs| - 1], f) + f(xs[|xs| - 1])
  }

  lemma ConcatMapSnoc<T, U>(xs: seq<T>, i: nat, f: T -> seq<U>)
    requires i < |xs|
    ensures ConcatMap(xs[..i + 1], f) == ConcatMap(xs[..i], f) + f(xs[i])
  {
    assert xs[..i + 1][..i] == xs[..i];
  }

  lemma {:induction false} ConcatMapCons<T, U>(x: T, xs: seq<T>, f: T -> seq<U>)
    ensures ConcatMap([x] + xs, f) == f(x) + ConcatMap(xs, f)
    decreases |xs|
  {
    var all := [x] + xs;
    if xs == [] {
      assert all[..0] == [];
      assert all == [x];
    } else {
      var n := |xs| - 1;
      assert all[..|all| - 1] == [x] + xs[..n];
      assert all[|all| - 1] == xs[n];
      ConcatMapCons(x, xs[..n], f);
      ConcatAssoc(f(x), ConcatMap(xs[..n], f), f(xs[n]));
    }
  }

  /** Every element of a piece is in the whole. */
  lemma {:induction false} ConcatMapHas<T, U>(xs: seq<T>, i: nat, f: T -> seq<U>, y: U)
    requires i < |xs| && y in f(xs[i])
    ensures y in ConcatMap(xs, f)
  {
    var n := |xs| - 1;
    if i < n {
      assert xs[..n][i] == xs[i];
      ConcatMapHas(xs[..n], i, f, y);
    }
  }

  /** Every element of the whole comes from some piece. */
  lemma {:induction false} ConcatMapFrom<T, U>(xs: seq<T>, f: T -> seq<U>, y: U)
    requires y in ConcatMap(xs, f)
    ensures exists i :: 0 <= i < |xs| && y in f(xs[i])
  {
    var n := |xs| - 1;
    if y !in f(xs[n]) {
      ConcatMapFrom(xs[..n], f, y);
      var i :| 0 <= i < n && y in f(xs[..n][i]);
      assert xs[..n][i] == xs[i];
    }
  }

  /** The whole is empty exactly when every piece is. */
  lemma {:induction false} ConcatMapEmpty<T, U>(xs: seq<T>, f: T -> seq<U>)
    ensures ConcatMap(xs, f) == [] <==> forall i :: 0 <= i < |xs| ==> f(xs[i]) == []
  {
    if xs != [] {
      var n := |xs| - 1;
      ConcatMapEmpty(xs[..n], f);
      assert forall i :: 0 <= i < n ==> xs[..n][i] == xs[i];
    }
  }

  /** When every non-empty piece opens with an element satisfying `p`, so does the whole. */
  lemma {:induction false} ConcatMapFirst<T, U>(xs: seq<T>, f: T -> seq<U>, p: U -> bool)
    requires forall x <- xs :: f(x) != [] ==> p(f(x)[0])
    ensures ConcatMap(xs, f) != [] ==> p(ConcatMap(xs, f)[0])
  {
    if xs != [] {
      var n := |xs| - 1;
      var front := ConcatMap(xs[..n], f);
      assert forall x <- xs[..n] :: x in xs;
      ConcatMapFirst(xs[..n], f, p);
      assert xs[n] in xs;
      if front != [] {
        assert (front + f(xs[n]))[0] == front[0];
      } else {
        assert front + f(xs[n]) == f(xs[n]);
      }
    }
  }

  /** `FilterKey` applied once for every key of `ks`, in the order of `ks`. */
  function FilterAll<T, K(==)>(ks: seq<K>, s: seq<T>, key: T -> K): seq<seq<T>> {
    if ks == [] then [] else [FilterKey(s, key, ks[0])] + FilterAll(ks[1..], s, key)
  }

  lemma {:induction false} FilterAllOfFilterNot<T, K>(ks: seq<K>, s: seq<T>, key: T -> K, k: K)
    requires k !in ks
    ensures FilterAll(ks, FilterNotKey(s, key, k), key) == FilterAll(ks, s, key)
  {
    if ks != [] {
      FilterKeyOfFilterNot(s, key, k, ks[0]);
      FilterAllOfFilterNot(ks[1..], s, key, k);
    }
  }

  lemma FirstKeyIn<T, K>(s: seq<T>, key: T -> K, ks: seq<K>)
    ensures (forall x <- s :: key(x) in ks) ==> s == [] || key(s[0]) in ks
  {
  }

  /**
   * Grouping by a list of distinct keys that covers every element's key puts
   * every element in exactly one group.
   */
  lemma {:induction false} PartitionCovers<T, K>(ks: seq<K>, s: seq<T>, key: T -> K)
    requires NoDup(ks)
    requires forall x <- s :: key(x) in ks
    ensures multiset(Flatten(FilterAll(ks, s, key))) == multiset(s)
  {
    if ks == [] {
      FirstKeyIn(s, key, ks);
    } else {
      var k := ks[0];
      var rest := FilterNotKey(s, key, k);
      assert NoDup(ks[1..]) by {
        forall i, j | 0 <= i < j < |ks[1..]| ensures ks[1..][i] != ks[1..][j] {
          assert ks[1..][i] == ks[i + 1] && ks[1..][j] == ks[j + 1];
        }
      }
      assert k !in ks[1..] by {
        forall i | 0 <= i < |ks[1..]| ensures ks[1..][i] != k {
          assert ks[1..][i] == ks[i + 1];
        }
      }
      FilterNotKeyMembers(s, key, k);
      forall x | x in rest ensures key(x) in ks[1..] {
        assert key(x) in ks && key(x) != k;
      }
      PartitionCovers(ks[1..], rest, key);
      FilterAllOfFilterNot(ks[1..], s, key, k);
      FilterSplit(s, key, k);
    }
  }

  lemma NoDupPrefix<T>(s: seq<T>, n: nat)
    requires NoDup(s) && n <= |s|
    ensures NoDup(s[..n])
  {
    forall a, b | 0 <= a < b < n ensures s[..n][a] != s[..n][b] {
      assert s[..n][a] == s[a] && s[..n][b] == s[b];
    }
  }

  lemma NoDupCons<T>(x: T, s: seq<T>)
    requires NoDup(s) && x !in s
    ensures NoDup([x] + s)
  {
    var p := [x] + s;
    forall a, b | 0 <= a < b < |p| ensures p[a] != p[b] {
      assert p[b] == s[b - 1];
      if a > 0 {
        assert p[a] == s[a - 1];
      }
    }
  }

  lemma NoDupSnoc<T>(s: seq<T>, x: T)
    requires NoDup(s) && x !in s
    ensures NoDup(s + [x])
  {
    var q := s + [x];
    forall i, j | 0 <= i < j < |q| ensures q[i] != q[j] {
      if j < |s| {
        assert q[i] == s[i] && q[j] == s[j];
      } else {
        assert q[i] == s[i];
      }
    }
  }

  /** `[...new Set(s)]`: the distinct elements of `s` in order of first occurrence. */
  function Dedup<T(==)>(s: seq<T>): (r: seq<T>)
    ensures NoDup(r)
    ensures forall x <- r :: x in s
    ensures forall x <- s :: x in r
    ensures |r| <= |s|
  {
    if s == [] then []
    else
      var d := Dedup(s[..|s| - 1]);
      var last := s[|s| - 1];
      assert forall x <- s :: x in s[..|s| - 1] || x == last;
      if last in d then d else d + [last]
  }
  /** The first element is always kept, and stays first. */
  lemma {:induction false} DedupFirst<T>(s: seq<T>)
    requires s != []
    ensures |Dedup(s)| > 0 && Dedup(s)[0] == s[0]
  {
    var init := s[..|s| - 1];
    if init != [] {
      DedupFirst(init);
      assert init[0] == s[0];
    }
  }

  /** The position of the first occurrence of `x` in `s`. */
  function FirstIndex<T(==)>(s: seq<T>, x: T): (k: nat)
    requires x in s
    ensures k < |s| && s[k] == x
    ensures forall j :: 0 <= j < k ==> s[j] != x
  {
    if s[0] == x then 0 else 1 + FirstIndex(s[1..], x)
  }

  /** Appending leaves earlier first occurrences where they were. */
  lemma FirstIndexSnoc<T>(s: seq<T>, y: T, x: T)
    requires x in s
    ensures x in s + [y] && FirstIndex(s + [y], x) == FirstIndex(s, x)
  {
    var k, k' := FirstIndex(s + [y], x), FirstIndex(s, x);
    assert (s + [y])[k'] == x;
  }

  /** A new last element first occurs at the end. */
  lemma FirstIndexNew<T>(s: seq<T>, y: T)
    requires y !in s
    ensures FirstIndex(s + [y], y) == |s|
  {
    assert (s + [y])[|s|] == y;
  }

  /**
   * `new Set` keeps insertion order: the elements of `Dedup(s)` are in the
   * order of their first occurrences in `s`.
   */
  lemma {:induction false} DedupOrder<T>(s: seq<T>)
    ensures forall x <- Dedup(s) :: x in s
    ensures forall i, j :: 0 <= i < j < |Dedup(s)| ==> FirstIndex(s, Dedup(s)[i]) < FirstIndex(s, Dedup(s)[j])
  {
    if s != [] {
      var init, last := s[..|s| - 1], s[|s| - 1];
      assert s == init + [last];
      var d, r := Dedup(init), Dedup(s);
      DedupOrder(init);
      forall x | x in init ensures FirstIndex(s, x) == FirstIndex(init, x) {
        FirstIndexSnoc(init, last, x);
      }
      if last !in d {
        assert last !in init;
        FirstIndexNew(init, last);
        assert r == d + [last];
        forall i, j | 0 <= i < j < |r| ensures FirstIndex(s, r[i]) < FirstIndex(s, r[j]) {
          assert r[i] == d[i] && r[i] in init;
          if j < |d| {
            assert r[j] == d[j];
          }
        }
      }
    }
  }

  /** What `FilterNotKey` keeps is every element whose key is not `k`. */
  lemma {:induction false} FilterNotKeyKeeps<T, K>(s: seq<T>, key: T -> K, k: K)
    ensures forall x <- s :: key(x) != k ==> x in FilterNotKey(s, key, k)
  {
    if s != [] {
      FilterNotKeyKeeps(s[..|s| - 1], key, k);
      assert forall x <- s :: x in s[..|s| - 1] || x == s[|s| - 1];
    }
  }

  lemma FilterNotKeyAt<T, K>(s: seq<T>, i: nat, key: T -> K, k: K)
    requires i < |s|
    ensures FilterNotKey(s[..i + 1], key, k) == FilterNotKey(s[..i], key, k) + if key(s[i]) != k then [s[i]] else []
  {
    assert s[..i + 1][..i] == s[..i];
  }

  /** Removing a key that no element has changes nothing. */
  lemma {:induction false} FilterNotKeyIdle<T, K>(s: seq<T>, key: T -> K, k: K)
    requires forall x <- s :: key(x) != k
    ensures FilterNotKey(s, key, k) == s
  {
    if s != [] {
      var init, last := s[..|s| - 1], s[|s| - 1];
      assert s == init + [last];
      FilterNotKeyIdle(init, key, k);
      assert FilterNotKey(s, key, k) == FilterNotKey(init, key, k) + [last];
    }
  }

  lemma {:induction false} FilterNotKeyCons<T, K>(x: T, s: seq<T>, key: T -> K, k: K)
    ensures FilterNotKey([x] + s, key, k) == (if key(x) != k then [x] else []) + FilterNotKey(s, key, k)
    decreases |s|
  {
    if s == [] {
      assert [x] + s == [x];
      assert [x][..0] == [];
    } else {
      var init := s[..|s| - 1];
      assert ([x] + s)[..|s|] == [x] + init;
      assert ([x] + s)[|s|] == s[|s| - 1];
      FilterNotKeyCons(x, init, key, k);
    }
  }

  /** A subsequence of a sequence without repeats has none. */
  lemma {:induction false} FilterNotKeyNoDup<T, K>(s: seq<T>, key: T -> K, k: K)
    requires NoDup(s)
    ensures NoDup(FilterNotKey(s, key, k))
  {
    if s != [] {
      var init, last := s[..|s| - 1], s[|s| - 1];
      assert NoDup(init) by {
        forall i, j | 0 <= i < j < |init| ensures init[i] != init[j] {
          assert init[i] == s[i] && init[j] == s[j];
        }
      }
      FilterNotKeyNoDup(init, key, k);
      FilterNotKeyMembers(init, key, k);
      var r := FilterNotKey(init, key, k);
      if key(last) != k {
        assert last !in init by {
          forall i | 0 <= i < |init| ensures init[i] != last {
            assert init[i] == s[i];
          }
        }
        assert last !in r;
        var q := r + [last];
        forall i, j | 0 <= i < j < |q| ensures q[i] != q[j] {
          if j < |r| {
            assert q[i] == r[i] && q[j] == r[j];
          } else {
            assert q[i] in r;
          }
        }
      }
    }
  }
}
