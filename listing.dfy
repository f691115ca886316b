/**
 * The shapes the send functions give a list of tasks: bullet items, sections
 * per category with a bold header, and blocks per recipient key as
 * `groupBy` builds them, with or without the `SIN_ASIGNAR` block pinned first.
 */
module Listing {
  import opened Seqs
  import opened Mentions

  /** `'• '`, which opens every item line. */
  const Bullet: string := "\U{2022} "

  function Bold(s: string): (r: string)
    ensures IsBold(r)
  {
    "**" + s + "**"
  }

  /** A header line: it opens with `**`. */
  predicate IsBold(line: string) {
    |line| >= 2 && line[..2] == "**"
  }

  /** One line per task, in order. */
  function Items<T>(ts: seq<T>, render: T -> string): (r: seq<string>)
    ensures |r| == |ts|
    ensures forall i :: 0 <= i < |ts| ==> r[i] == render(ts[i])
  {
    if ts == [] then [] else [render(ts[0])] + Items(ts[1..], render)
  }

  /** Every task has its line. */
  lemma ItemsHas<T>(t: T, ts: seq<T>, render: T -> string)
    requires t in ts
    ensures render(t) in Items(ts, render)
  {
    var i :| 0 <= i < |ts| && ts[i] == t;
    assert Items(ts, render)[i] == render(t);
  }

  /** `for (const t of ts) lines.push(render(t))`. */
  method AppendItems<T>(lines: seq<string>, ts: seq<T>, render: T -> string) returns (out: seq<string>)
    ensures out == lines + Items(ts, render)
  {
    out := lines;
    for j := 0 to |ts|
      invariant out == lines + Items(ts[..j], render)
    {
      assert Items(ts[..j + 1], render) == Items(ts[..j], render) + [render(ts[j])];
      out := out + [render(ts[j])];
    }
    assert ts[..|ts|] == ts;
  }

  /** A category whose filter is empty is skipped; otherwise its bold name, then its items. */
  function CategoryBlock<T>(cat: string, ts: seq<T>, render: T -> string): seq<string> {
    if ts == [] then [] else [Bold(cat)] + Items(ts, render)
  }

  /** `for (const group of cats) { const g = ts.filter(t => t.group === group); … }`. */
  function Sections<T>(cats: seq<string>, ts: seq<T>, groupOf: T -> string, render: T -> string): seq<string> {
    if cats == [] then []
    else CategoryBlock(cats[0], FilterKey(ts, groupOf, cats[0]), render) + Sections(cats[1..], ts, groupOf, render)
  }

  /** The per-category loop of `sendDepartment` and `sendDepartmentToUser`. */
  method AppendSections<T>(lines: seq<string>, cats: seq<string>, ts: seq<T>, groupOf: T -> string, render: T -> string)
    returns (out: seq<string>)
    ensures out == lines + Sections(cats, ts, groupOf, render)
  {
    out := lines;
    assert cats[0..] == cats;
    for k := 0 to |cats|
      invariant out + Sections(cats[k..], ts, groupOf, render) == lines + Sections(cats, ts, groupOf, render)
    {
      var grupo := FilterKey(ts, groupOf, cats[k]);
      ghost var rest := Sections(cats[k + 1..], ts, groupOf, render);
      assert Sections(cats[k..], ts, groupOf, render) == CategoryBlock(cats[k], grupo, render) + rest by {
        assert cats[k..][1..] == cats[k + 1..];
      }
      if |grupo| == 0 {
        assert CategoryBlock(cats[k], grupo, render) + rest == rest;
        continue;
      }
      ghost var before := out;
      out := out + [Bold(cats[k])];
      out := AppendItems(out, grupo, render);
      ConcatAssoc(before, [Bold(cats[k])], Items(grupo, render));
      ConcatAssoc(before, CategoryBlock(cats[k], grupo, render), rest);
    }
  }

  /** Non-empty sections open with a bold category header. */
  lemma {:induction false} SectionsOpenBold<T>(cats: seq<string>, ts: seq<T>, groupOf: T -> string, render: T -> string)
    ensures Sections(cats, ts, groupOf, render) != [] ==> IsBold(Sections(cats, ts, groupOf, render)[0])
  {
    if cats != [] {
      var g := FilterKey(ts, groupOf, cats[0]);
      var rest := Sections(cats[1..], ts, groupOf, render);
      if g == [] {
        assert Sections(cats, ts, groupOf, render) == rest;
        SectionsOpenBold(cats[1..], ts, groupOf, render);
      } else {
        assert Sections(cats, ts, groupOf, render)[0] == Bold(cats[0]);
      }
    }
  }

  /** The categories that get a header: those with at least one task. */
  function Occupied<T>(cats: seq<string>, ts: seq<T>, groupOf: T -> string): (r: seq<string>)
    ensures forall c <- r :: c in cats && FilterKey(ts, groupOf, c) != []
    ensures forall c <- cats :: FilterKey(ts, groupOf, c) != [] ==> c in r
  {
    if cats == [] then []
    else
      var rest := Occupied(cats[1..], ts, groupOf);
      assert forall c <- cats[1..] :: c in cats;
      assert forall c <- cats :: c == cats[0] || c in cats[1..];
      (if FilterKey(ts, groupOf, cats[0]) != [] then [cats[0]] else []) + rest
  }

  lemma {:induction false} SectionsSize<T>(cats: seq<string>, ts: seq<T>, groupOf: T -> string, render: T -> string)
    ensures |Sections(cats, ts, groupOf, render)| == |Flatten(FilterAll(cats, ts, groupOf))| + |Occupied(cats, ts, groupOf)|
  {
    if cats != [] {
      SectionsSize(cats[1..], ts, groupOf, render);
    }
  }

  /**
   * With distinct categories that cover every task, the sections list every
   * task exactly once, each under its own category in input order, and add one
   * header per category that has tasks.
   */
  lemma SectionsListEachOnce<T>(cats: seq<string>, ts: seq<T>, groupOf: T -> string, render: T -> string)
    requires NoDup(cats)
    requires forall t <- ts :: groupOf(t) in cats
    ensures multiset(Flatten(FilterAll(cats, ts, groupOf))) == multiset(ts)
    ensures |Sections(cats, ts, groupOf, render)| == |ts| + |Occupied(cats, ts, groupOf)|
  {
    PartitionCovers(cats, ts, groupOf);
    SectionsSize(cats, ts, groupOf, render);
    assert |multiset(Flatten(FilterAll(cats, ts, groupOf)))| == |multiset(ts)|;
  }

  /** The keys of `groupBy`'s map: each key once, in order of its first task. */
  function GroupKeys<T>(ts: seq<T>, keyOf: T -> string): (r: seq<string>)
    ensures NoDup(r)
    ensures ts != [] ==> |r| > 0 && r[0] == keyOf(ts[0])
  {
    if ts == [] then []
    else
      var init, last := ts[..|ts| - 1], ts[|ts| - 1];
      var p := GroupKeys(init, keyOf);
      assert init != [] ==> init[0] == ts[0];
      if keyOf(last) in p then p
      else
        NoDupSnoc(p, keyOf(last));
        p + [keyOf(last)]
  }

  /** Every task's key is a key of the map. */
  lemma {:induction false} GroupKeysCover<T>(ts: seq<T>, keyOf: T -> string)
    ensures forall t <- ts :: keyOf(t) in GroupKeys(ts, keyOf)
  {
    if ts != [] {
      var init := ts[..|ts| - 1];
      GroupKeysCover(init, keyOf);
      assert forall t <- ts :: t in init || t == ts[|ts| - 1];
    }
  }

  /** What `groupBy` has built after seeing `ts`: its keys in first-seen order, each with its tasks. */
  ghost predicate Grouped<T>(ts: seq<T>, keyOf: T -> string, keys: seq<string>, groups: map<string, seq<T>>) {
    keys == GroupKeys(ts, keyOf) &&
    (forall k :: k in groups <==> k in keys) &&
    (forall k <- keys :: groups[k] == FilterKey(ts, keyOf, k))
  }

  /** Every key belongs to some task. */
  lemma {:induction false} GroupKeysFromTasks<T>(ts: seq<T>, keyOf: T -> string)
    ensures forall k <- GroupKeys(ts, keyOf) :: exists t <- ts :: keyOf(t) == k
  {
    if ts != [] {
      var init := ts[..|ts| - 1];
      GroupKeysFromTasks(init, keyOf);
      assert forall t <- init :: t in ts;
    }
  }

  lemma GroupKeysSnoc<T>(ts: seq<T>, i: nat, keyOf: T -> string)
    requires i < |ts|
    ensures var ks := GroupKeys(ts[..i], keyOf);
            GroupKeys(ts[..i + 1], keyOf) == if keyOf(ts[i]) in ks then ks else ks + [keyOf(ts[i])]
  {
    assert ts[..i + 1][..i] == ts[..i];
  }

  /** A key not seen yet has no tasks so far. */
  lemma UnseenKeyEmpty<T>(ts: seq<T>, keyOf: T -> string, key: string)
    requires key !in GroupKeys(ts, keyOf)
    ensures FilterKey(ts, keyOf, key) == []
  {
    GroupKeysCover(ts, keyOf);
    FilterKeyMembers(ts, keyOf, key);
  }

  lemma FilterKeyNext<T>(ts: seq<T>, i: nat, keyOf: T -> string, k: string)
    requires i < |ts|
    ensures FilterKey(ts[..i + 1], keyOf, k) == FilterKey(ts[..i], keyOf, k) + (if keyOf(ts[i]) == k then [ts[i]] else [])
  {
    assert ts[..i + 1][..i] == ts[..i];
  }

  lemma GroupStep<T>(ts: seq<T>, i: nat, keyOf: T -> string, keys: seq<string>, groups: map<string, seq<T>>)
    requires i < |ts| && Grouped(ts[..i], keyOf, keys, groups)
    ensures var key := keyOf(ts[i]);
            var old_ := if key in groups then groups[key] else [];
            Grouped(ts[..i + 1], keyOf, if key in groups then keys else keys + [key], groups[key := old_ + [ts[i]]])
  {
    var key := keyOf(ts[i]);
    var prefix := ts[..i];
    var old_ := if key in groups then groups[key] else [];
    var keys' := if key in groups then keys else keys + [key];
    var groups' := groups[key := old_ + [ts[i]]];
    var next := ts[..i + 1];
    assert keys' == GroupKeys(next, keyOf) by {
      GroupKeysSnoc(ts, i, keyOf);
    }
    assert old_ == FilterKey(prefix, keyOf, key) by {
      if key !in groups {
        UnseenKeyEmpty(prefix, keyOf, key);
      }
    }
    assert forall k :: k in groups' <==> k in keys' by {
      assert forall k :: k in groups <==> k in keys;
    }
    forall k | k in keys' ensures groups'[k] == FilterKey(next, keyOf, k) {
      FilterKeyNext(ts, i, keyOf, k);
      if k != key {
        assert k in keys;
      }
    }
  }

  /** `groupBy` (index.js:277-287): a `Map` from key to its tasks, filled in one pass. */
  method GroupBy<T>(ts: seq<T>, keyOf: T -> string) returns (keys: seq<string>, groups: map<string, seq<T>>)
    ensures keys == GroupKeys(ts, keyOf)
    ensures forall k :: k in groups <==> k in keys
    ensures forall k <- keys :: groups[k] == FilterKey(ts, keyOf, k)
  {
    keys := [];
    groups := map[];
    for i := 0 to |ts|
      invariant Grouped(ts[..i], keyOf, keys, groups)
    {
      var t := ts[i];
      var key := keyOf(t);
      GroupStep(ts, i, keyOf, keys, groups);
      if key !in groups {
        keys := keys + [key];
        groups := groups[key := []];
      }
      groups := groups[key := groups[key] + [t]];
    }
    assert ts[..|ts|] == ts;
  }

  /** A key's block: the header, its items and a blank line. */
  function KeyBlock<T>(header: string, ts: seq<T>, render: T -> string): seq<string> {
    [header] + Items(ts, render) + [""]
  }

  /** The blocks of `keys`, each headed by the key itself. */
  function KeyBlocks<T>(keys: seq<string>, ts: seq<T>, keyOf: T -> string, render: T -> string): seq<string> {
    if keys == [] then []
    else KeyBlock(keys[0], FilterKey(ts, keyOf, keys[0]), render) + KeyBlocks(keys[1..], ts, keyOf, render)
  }

  lemma {:induction false} KeyBlocksAppend<T>(a: seq<string>, k: string, ts: seq<T>, keyOf: T -> string, render: T -> string)
    ensures KeyBlocks(a + [k], ts, keyOf, render)
            == KeyBlocks(a, ts, keyOf, render) + KeyBlock(k, FilterKey(ts, keyOf, k), render)
  {
    if a == [] {
      assert [] + [k] == [k];
    } else {
      assert (a + [k])[1..] == a[1..] + [k];
      KeyBlocksAppend(a[1..], k, ts, keyOf, render);
    }
  }

  lemma {:induction false} KeyBlocksSize<T>(keys: seq<string>, ts: seq<T>, keyOf: T -> string, render: T -> string)
    ensures |KeyBlocks(keys, ts, keyOf, render)| == |Flatten(FilterAll(keys, ts, keyOf))| + 2 * |keys|
  {
    if keys != [] {
      KeyBlocksSize(keys[1..], ts, keyOf, render);
    }
  }

  function Id(k: string): string {
    k
  }

  /** The order `sendGeneric` lists keys in: `SIN_ASIGNAR` first when present, then the rest as seen. */
  function PinnedKeys(keys: seq<string>): seq<string> {
    (if UnassignedKey in keys then [UnassignedKey] else []) + FilterNotKey(keys, Id, UnassignedKey)
  }

  /**
   * Pinning only moves `SIN_ASIGNAR` to the front: the keys stay distinct, no
   * key is gained or lost, and the others keep their order.
   */
  lemma PinnedKeysReorder(keys: seq<string>)
    requires NoDup(keys)
    ensures NoDup(PinnedKeys(keys))
    ensures forall k :: k in PinnedKeys(keys) <==> k in keys
    ensures UnassignedKey in keys ==> PinnedKeys(keys)[0] == UnassignedKey
    ensures FilterNotKey(PinnedKeys(keys), Id, UnassignedKey) == FilterNotKey(keys, Id, UnassignedKey)
  {
    var rest := FilterNotKey(keys, Id, UnassignedKey);
    FilterNotKeyNoDup(keys, Id, UnassignedKey);
    FilterNotKeyKeeps(keys, Id, UnassignedKey);
    FilterNotKeyMembers(keys, Id, UnassignedKey);
    if UnassignedKey in keys {
      NoDupCons(UnassignedKey, rest);
      FilterNotKeyIdle(rest, Id, UnassignedKey);
      FilterNotKeyCons(UnassignedKey, rest, Id, UnassignedKey);
    } else {
      assert PinnedKeys(keys) == rest;
      FilterNotKeyIdle(rest, Id, UnassignedKey);
    }
  }

  /** The `SIN_ASIGNAR` block of the pinned layout, headed `**SIN ASIGNAR**`, or nothing. */
  function UnassignedBlock<T>(ts: seq<T>, keyOf: T -> string, render: T -> string): seq<string> {
    if UnassignedKey in GroupKeys(ts, keyOf) then KeyBlock(Bold(Unassigned), FilterKey(ts, keyOf, UnassignedKey), render)
    else []
  }

  /** `sendGeneric`'s layout (index.js:289-326): the `SIN_ASIGNAR` block first, then the others. */
  function Pinned<T>(ts: seq<T>, keyOf: T -> string, render: T -> string): seq<string> {
    UnassignedBlock(ts, keyOf, render) + KeyBlocks(FilterNotKey(GroupKeys(ts, keyOf), Id, UnassignedKey), ts, keyOf, render)
  }

  /** `sendGenericToUser`'s layout (index.js:483-510): every key in first-seen order. */
  function Unpinned<T>(ts: seq<T>, keyOf: T -> string, render: T -> string): seq<string> {
    KeyBlocks(GroupKeys(ts, keyOf), ts, keyOf, render)
  }

  /** The pinned layout has the blocks of the pinned key order, one header line renamed. */
  lemma PinnedSize<T>(ts: seq<T>, keyOf: T -> string, render: T -> string)
    ensures var pk := PinnedKeys(GroupKeys(ts, keyOf));
            |Pinned(ts, keyOf, render)| == |Flatten(FilterAll(pk, ts, keyOf))| + 2 * |pk|
  {
    var keys := GroupKeys(ts, keyOf);
    var rest := FilterNotKey(keys, Id, UnassignedKey);
    var pk := PinnedKeys(keys);
    KeyBlocksSize(rest, ts, keyOf, render);
    if UnassignedKey in keys {
      var u := FilterKey(ts, keyOf, UnassignedKey);
      assert pk == [UnassignedKey] + rest;
      assert pk[1..] == rest;
      assert FilterAll(pk, ts, keyOf) == [u] + FilterAll(rest, ts, keyOf);
      assert Flatten(FilterAll(pk, ts, keyOf)) == u + Flatten(FilterAll(rest, ts, keyOf));
      assert |UnassignedBlock(ts, keyOf, render)| == |u| + 2;
    } else {
      assert pk == rest;
      assert UnassignedBlock(ts, keyOf, render) == [];
    }
  }

  /**
   * The pinned layout lists every task exactly once, under its own key in
   * input order, with a header and a blank line per key.
   */
  lemma PinnedListsEachOnce<T>(ts: seq<T>, keyOf: T -> string, render: T -> string)
    ensures multiset(Flatten(FilterAll(PinnedKeys(GroupKeys(ts, keyOf)), ts, keyOf))) == multiset(ts)
    ensures |Pinned(ts, keyOf, render)| == |ts| + 2 * |GroupKeys(ts, keyOf)|
  {
    var keys := GroupKeys(ts, keyOf);
    var pk := PinnedKeys(keys);
    PinnedKeysReorder(keys);
    GroupKeysCover(ts, keyOf);
    PartitionCovers(pk, ts, keyOf);
    PinnedSize(ts, keyOf, render);
    assert |multiset(Flatten(FilterAll(pk, ts, keyOf)))| == |ts|;
    SameKeysSameSize(pk, keys);
  }

  /** Two key lists without repeats that hold the same keys have the same length. */
  lemma SameKeysSameSize(a: seq<string>, b: seq<string>)
    requires NoDup(a) && NoDup(b)
    requires forall k :: k in a <==> k in b
    ensures |a| == |b|
  {
    NoDupCounts(a);
    NoDupCounts(b);
    assert multiset(a) == multiset(b) by {
      forall k ensures multiset(a)[k] == multiset(b)[k] {
        assert k in a <==> k in b;
      }
    }
    assert |a| == |multiset(a)| == |multiset(b)| == |b|;
  }

  /** Likewise the unpinned layout. */
  lemma UnpinnedListsEachOnce<T>(ts: seq<T>, keyOf: T -> string, render: T -> string)
    ensures multiset(Flatten(FilterAll(GroupKeys(ts, keyOf), ts, keyOf))) == multiset(ts)
    ensures |Unpinned(ts, keyOf, render)| == |ts| + 2 * |GroupKeys(ts, keyOf)|
  {
    var keys := GroupKeys(ts, keyOf);
    GroupKeysCover(ts, keyOf);
    PartitionCovers(keys, ts, keyOf);
    KeyBlocksSize(keys, ts, keyOf, render);
    assert |multiset(Flatten(FilterAll(keys, ts, keyOf)))| == |ts|;
  }

  /** When some task has no ids, the pinned layout opens with `**SIN ASIGNAR**` and those tasks. */
  lemma PinnedOpensUnassigned<T>(ts: seq<T>, keyOf: T -> string, render: T -> string)
    requires exists t <- ts :: keyOf(t) == UnassignedKey
    ensures |FilterKey(ts, keyOf, UnassignedKey)| + 2 <= |Pinned(ts, keyOf, render)|
    ensures Pinned(ts, keyOf, render)[..|FilterKey(ts, keyOf, UnassignedKey)| + 2]
            == KeyBlock(Bold(Unassigned), FilterKey(ts, keyOf, UnassignedKey), render)
  {
    GroupKeysCover(ts, keyOf);
  }

  /** The unpinned layout opens with the key of the first task, whatever it is. */
  lemma UnpinnedOpensFirstKey<T>(ts: seq<T>, keyOf: T -> string, render: T -> string)
    requires ts != []
    ensures Unpinned(ts, keyOf, render)[0] == keyOf(ts[0])
  {
  }

  /** One key's block pushed as the layouts push it. */
  method AppendBlock<T>(lines: seq<string>, header: string, ts: seq<T>, render: T -> string) returns (out: seq<string>)
    ensures out == lines + KeyBlock(header, ts, render)
  {
    out := lines + [header];
    out := AppendItems(out, ts, render);
    ConcatAssoc(lines, [header], Items(ts, render));
    ConcatAssoc(lines, [header] + Items(ts, render), [""]);
    out := out + [""];
  }

  /** One pass of the loop over the keys: `SIN_ASIGNAR` is skipped, any other key gets its block. */
  method AppendOtherBlock<T>(lines: seq<string>, key: string, grupo: seq<T>, render: T -> string) returns (out: seq<string>)
    ensures out == lines + if key != UnassignedKey then KeyBlock(key, grupo, render) else []
  {
    if key == UnassignedKey {
      return lines;
    }
    out := AppendBlock(lines, key, grupo, render);
  }

  lemma OtherBlocksStep<T>(keys: seq<string>, k: nat, ts: seq<T>, keyOf: T -> string, render: T -> string)
    requires k < |keys|
    ensures var key := keys[k];
            KeyBlocks(FilterNotKey(keys[..k + 1], Id, UnassignedKey), ts, keyOf, render)
            == KeyBlocks(FilterNotKey(keys[..k], Id, UnassignedKey), ts, keyOf, render)
               + if key != UnassignedKey then KeyBlock(key, FilterKey(ts, keyOf, key), render) else []
  {
    var done := FilterNotKey(keys[..k], Id, UnassignedKey);
    FilterNotKeyAt(keys, k, Id, UnassignedKey);
    if keys[k] != UnassignedKey {
      assert FilterNotKey(keys[..k + 1], Id, UnassignedKey) == done + [keys[k]];
      KeyBlocksAppend(done, keys[k], ts, keyOf, render);
    } else {
      assert FilterNotKey(keys[..k + 1], Id, UnassignedKey) == done;
      assert KeyBlocks(done, ts, keyOf, render) + [] == KeyBlocks(done, ts, keyOf, render);
    }
  }

  /** The loop over the keys other than `SIN_ASIGNAR`, in first-seen order. */
  method AppendOtherBlocks<T>(lines: seq<string>, ts: seq<T>, keyOf: T -> string, render: T -> string,
                              keys: seq<string>, groups: map<string, seq<T>>)
    returns (out: seq<string>)
    requires forall k <- keys :: k in groups && groups[k] == FilterKey(ts, keyOf, k)
    ensures out == lines + KeyBlocks(FilterNotKey(keys, Id, UnassignedKey), ts, keyOf, render)
  {
    out := lines;
    for k := 0 to |keys|
      invariant out == lines + KeyBlocks(FilterNotKey(keys[..k], Id, UnassignedKey), ts, keyOf, render)
    {
      OtherBlocksStep(keys, k, ts, keyOf, render);
      var key := keys[k];
      ConcatAssoc(lines, KeyBlocks(FilterNotKey(keys[..k], Id, UnassignedKey), ts, keyOf, render),
                  if key != UnassignedKey then KeyBlock(key, FilterKey(ts, keyOf, key), render) else []);
      out := AppendOtherBlock(out, key, groups[key], render);
    }
    assert keys[..|keys|] == keys;
  }

  /** The listing of `sendGeneric`: `groupBy`, then `**SIN ASIGNAR**` first, then the other keys. */
  method EmitPinned<T>(lines: seq<string>, ts: seq<T>, keyOf: T -> string, render: T -> string)
    returns (out: seq<string>)
    ensures out == lines + Pinned(ts, keyOf, render)
  {
    var keys, groups := GroupBy(ts, keyOf);
    out := lines;
    if UnassignedKey in groups {
      assert groups[UnassignedKey] == FilterKey(ts, keyOf, UnassignedKey);
      out := AppendBlock(out, Bold(Unassigned), groups[UnassignedKey], render);
    }
    assert out == lines + UnassignedBlock(ts, keyOf, render);
    out := AppendOtherBlocks(out, ts, keyOf, render, keys, groups);
    ConcatAssoc(lines, UnassignedBlock(ts, keyOf, render), KeyBlocks(FilterNotKey(keys, Id, UnassignedKey), ts, keyOf, render));
  }

  /** Every key's block, in the order of `keys`. */
  method AppendBlocks<T>(lines: seq<string>, ts: seq<T>, keyOf: T -> string, render: T -> string,
                         keys: seq<string>, groups: map<string, seq<T>>)
    returns (out: seq<string>)
    requires forall k <- keys :: k in groups && groups[k] == FilterKey(ts, keyOf, k)
    ensures out == lines + KeyBlocks(keys, ts, keyOf, render)
  {
    out := lines;
    ghost var want := lines + KeyBlocks(keys, ts, keyOf, render);
    assert keys[0..] == keys;
    for k := 0 to |keys|
      invariant out + KeyBlocks(keys[k..], ts, keyOf, render) == want
    {
      var key := keys[k];
      assert keys[k..][1..] == keys[k + 1..];
      ConcatAssoc(out, KeyBlock(key, FilterKey(ts, keyOf, key), render), KeyBlocks(keys[k + 1..], ts, keyOf, render));
      out := AppendBlock(out, key, groups[key], render);
    }
  }

  /** The listing of `sendGenericToUser`: `groupBy`, then every key in first-seen order. */
  method EmitUnpinned<T>(lines: seq<string>, ts: seq<T>, keyOf: T -> string, render: T -> string)
    returns (out: seq<string>)
    ensures out == lines + Unpinned(ts, keyOf, render)
  {
    var keys, groups := GroupBy(ts, keyOf);
    out := AppendBlocks(lines, ts, keyOf, render, keys, groups);
  }
}
