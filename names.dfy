/**
 * The name resolver: `normalize`, the length-descending `sortedNames` and
 * `extractIdsFromCell`, which finds the names of the `nameToId` mapping in a
 * cell, longest first, as whole words, and returns their ids without repeats.
 */
module Names {
  import opened Wrappers
  import opened Seqs
  import opened Text
  import opened Sorting

  /**
   * The contents of `mappings.json`: its keys in `Object.keys` order and the
   * name-to-id map itself.
   */
  datatype Mapping = Mapping(keys: seq<string>, ids: map<string, string>)

  predicate WellFormed(m: Mapping) {
    NoDup(m.keys) && (forall n <- m.keys :: n in m.ids) && (forall n <- m.ids :: n in m.keys)
  }

  /** Combining diacritical marks, U+0300-U+036F, which `normalize` deletes after NFD. */
  predicate IsCombiningMark(c: char) {
    '\U{0300}' <= c <= '\U{036F}'
  }

  /** The base letter NFD leaves once the combining mark is removed, for Latin-1 letters. */
  function BaseLetter(c: char): char {
    if '\U{00C0}' <= c <= '\U{00C5}' then 'A'
    else if c == '\U{00C7}' then 'C'
    else if '\U{00C8}' <= c <= '\U{00CB}' then 'E'
    else if '\U{00CC}' <= c <= '\U{00CF}' then 'I'
    else if c == '\U{00D1}' then 'N'
    else if '\U{00D2}' <= c <= '\U{00D6}' then 'O'
    else if '\U{00D9}' <= c <= '\U{00DC}' then 'U'
    else if c == '\U{00DD}' then 'Y'
    else if '\U{00E0}' <= c <= '\U{00E5}' then 'a'
    else if c == '\U{00E7}' then 'c'
    else if '\U{00E8}' <= c <= '\U{00EB}' then 'e'
    else if '\U{00EC}' <= c <= '\U{00EF}' then 'i'
    else if c == '\U{00F1}' then 'n'
    else if '\U{00F2}' <= c <= '\U{00F6}' then 'o'
    else if '\U{00F9}' <= c <= '\U{00FC}' then 'u'
    else if c == '\U{00FD}' || c == '\U{00FF}' then 'y'
    else c
  }

  /** `str.normalize('NFD').replace(/[̀-ͯ]/g, '').toLowerCase()`, on Latin-1 and combining marks. */
  function Normalize(s: string): (r: string)
    ensures |r| <= |s|
    ensures forall c <- r :: !IsCombiningMark(c) && !('A' <= c <= 'Z')
  {
    if s == [] then []
    else (if IsCombiningMark(s[0]) then [] else [LowerChar(BaseLetter(s[0]))]) + Normalize(s[1..])
  }

  /** Without combining marks, normalizing maps each character on its own. */
  lemma {:induction false} NormalizeEach(s: string)
    requires forall i :: 0 <= i < |s| ==> !IsCombiningMark(s[i])
    ensures |Normalize(s)| == |s|
    ensures forall i :: 0 <= i < |s| ==> Normalize(s)[i] == LowerChar(BaseLetter(s[i]))
  {
    if s != [] {
      NormalizeEach(s[1..]);
    }
  }

  /** Normalizing twice is normalizing once. */
  lemma {:induction false} NormalizeIdempotent(s: string)
    ensures Normalize(Normalize(s)) == Normalize(s)
  {
    if s != [] {
      NormalizeIdempotent(s[1..]);
      var head := if IsCombiningMark(s[0]) then [] else [LowerChar(BaseLetter(s[0]))];
      assert Normalize(s) == head + Normalize(s[1..]);
      if head != [] {
        assert (head + Normalize(s[1..]))[1..] == Normalize(s[1..]);
      } else {
        assert head + Normalize(s[1..]) == Normalize(s[1..]);
      }
    }
  }

  /** The sort key of `(a, b) => b.length - a.length`: longer names first. */
  function LengthKey(name: string): Option<int> {
    Some(-(JsLen(name) as int))
  }

  /** `Object.keys(nameToId).sort((a, b) => b.length - a.length)`. */
  function SortedNames(m: Mapping): (r: seq<string>)
    ensures multiset(r) == multiset(m.keys)
    ensures forall i, j :: 0 <= i < j < |r| ==> JsLen(r[i]) >= JsLen(r[j])
  {
    SortBySorted(m.keys, LengthKey);
    var r := SortBy(m.keys, LengthKey);
    assert forall i, j :: 0 <= i < j < |r| ==> KeyLe(LengthKey(r[i]), LengthKey(r[j]));
    r
  }

  /** Each name of the mapping is tried exactly once. */
  lemma SortedNamesDistinct(m: Mapping)
    requires WellFormed(m)
    ensures NoDup(SortedNames(m))
    ensures forall n <- SortedNames(m) :: n in m.ids
  {
    var r := SortedNames(m);
    NoDupPerm(m.keys, r);
    forall n | n in r ensures n in m.ids {
      assert n in multiset(m.keys);
    }
  }

  /** `\w`: ASCII letters, digits and `_`. */
  predicate IsWordChar(c: char) {
    'a' <= c <= 'z' || 'A' <= c <= 'Z' || '0' <= c <= '9' || c == '_'
  }

  predicate WordAt(s: string, j: int) {
    0 <= j < |s| && IsWordChar(s[j])
  }

  /** `\b` at position `i`: a word character on exactly one side. */
  predicate Boundary(s: string, i: int) {
    WordAt(s, i - 1) != WordAt(s, i)
  }

  /** `\bw\b` matches `s` at `i`. */
  predicate MatchAt(s: string, w: string, i: nat) {
    i + |w| <= |s| && s[i..i + |w|] == w && Boundary(s, i) && Boundary(s, i + |w|)
  }

  function FindFrom(s: string, w: string, i: nat): (r: Option<nat>)
    ensures r.Some? ==> i <= r.value && MatchAt(s, w, r.value)
    ensures r.Some? ==> forall j :: i <= j < r.value ==> !MatchAt(s, w, j)
    ensures r.None? ==> forall j :: i <= j ==> !MatchAt(s, w, j)
    decreases |s| - i
  {
    if i + |w| > |s| then None
    else if MatchAt(s, w, i) then Some(i)
    else FindFrom(s, w, i + 1)
  }

  /** `new RegExp('\\b' + w + '\\b', 'i').exec(s)`: the leftmost whole-word match, if any. */
  function FindWord(s: string, w: string): (r: Option<nat>)
    ensures r.Some? ==> MatchAt(s, w, r.value) && forall j :: 0 <= j < r.value ==> !MatchAt(s, w, j)
    ensures r.None? ==> forall j: nat :: !MatchAt(s, w, j)
  {
    FindFrom(s, w, 0)
  }

  /** The loop's variables: the text still to search and the ids found so far. */
  datatype ScanState = ScanState(rem: string, found: seq<string>)

  /** One iteration for `name`: on a match, record its id and cut the match out of `rem`. */
  function ScanStep(st: ScanState, name: string, m: Mapping): ScanState
    requires name in m.ids
  {
    var w := Normalize(name);
    match FindWord(st.rem, w)
    case None => st
    case Some(i) => ScanState(st.rem[..i] + st.rem[i + |w|..], st.found + [m.ids[name]])
  }

  /** The loop state after the names `ns`, tried in order, starting from the normalized text. */
  function Scan(text: string, ns: seq<string>, m: Mapping): (st: ScanState)
    requires forall n <- ns :: n in m.ids
    ensures |st.found| <= |ns|
  {
    if ns == [] then ScanState(text, [])
    else
      var prev := Scan(text, ns[..|ns| - 1], m);
      var last := ns[|ns| - 1];
      assert forall n <- ns[..|ns| - 1] :: n in ns;
      ScanStep(prev, last, m)
  }

  /** Every id found belongs to one of the names tried. */
  lemma {:induction false} ScanFoundIds(text: string, ns: seq<string>, m: Mapping)
    requires forall n <- ns :: n in m.ids
    ensures forall id <- Scan(text, ns, m).found :: exists n :: n in ns && n in m.ids && m.ids[n] == id
  {
    if ns != [] {
      var init := ns[..|ns| - 1];
      assert forall n <- init :: n in ns;
      ScanFoundIds(text, init, m);
    }
  }

  /**
   * An id is found exactly when some name with that id matches, as a whole
   * word, the text left over by the names tried before it.
   */
  lemma ScanFoundMatched(text: string, ns: seq<string>, m: Mapping)
    requires forall n <- ns :: n in m.ids
    ensures forall id :: id in Scan(text, ns, m).found <==>
              exists k {:trigger StepMatches(text, ns, m, k)} ::
                0 <= k < |ns| && StepMatches(text, ns, m, k) && m.ids[ns[k]] == id
  {
    ScanFoundSound(text, ns, m);
    ScanFoundComplete(text, ns, m);
  }

  /** Every id found comes from a name that matched when it was tried. */
  lemma {:induction false} ScanFoundSound(text: string, ns: seq<string>, m: Mapping)
    requires forall n <- ns :: n in m.ids
    ensures forall id <- Scan(text, ns, m).found ::
              exists k {:trigger StepMatches(text, ns, m, k)} ::
                0 <= k < |ns| && StepMatches(text, ns, m, k) && m.ids[ns[k]] == id
  {
    if ns != [] {
      var init := ns[..|ns| - 1];
      assert forall n <- init :: n in ns;
      ScanFoundSound(text, init, m);
      ScanSnocFound(text, ns, init, m);
      forall id | id in Scan(text, ns, m).found
        ensures exists k {:trigger StepMatches(text, ns, m, k)} ::
                  0 <= k < |ns| && StepMatches(text, ns, m, k) && m.ids[ns[k]] == id
      {
        if id in Scan(text, init, m).found {
          var k :| 0 <= k < |init| && StepMatches(text, init, m, k) && m.ids[init[k]] == id;
          StepMatchesPrefix(text, ns, init, m, k);
        } else {
          assert StepMatches(text, ns, m, |init|) && m.ids[ns[|init|]] == id;
        }
      }
    }
  }

  /** Every name that matched when it was tried has its id found. */
  lemma {:induction false} ScanFoundComplete(text: string, ns: seq<string>, m: Mapping)
    requires forall n <- ns :: n in m.ids
    ensures forall k {:trigger StepMatches(text, ns, m, k)} ::
              0 <= k < |ns| && StepMatches(text, ns, m, k) ==> m.ids[ns[k]] in Scan(text, ns, m).found
  {
    if ns != [] {
      var init := ns[..|ns| - 1];
      assert forall n <- init :: n in ns;
      ScanFoundComplete(text, init, m);
      ScanSnocFound(text, ns, init, m);
      forall k | 0 <= k < |ns| && StepMatches(text, ns, m, k)
        ensures m.ids[ns[k]] in Scan(text, ns, m).found
      {
        if k < |init| {
          StepMatchesPrefix(text, ns, init, m, k);
          assert m.ids[init[k]] in Scan(text, init, m).found;
        } else {
          assert k == |init|;
        }
      }
    }
  }

  /** Trying one more name adds its id, and only its, when it matches what is left. */
  lemma ScanSnocFound(text: string, ns: seq<string>, init: seq<string>, m: Mapping)
    requires forall n <- ns :: n in m.ids
    requires |ns| > 0 && init == ns[..|ns| - 1]
    ensures forall n <- init :: n in m.ids
    ensures Scan(text, ns, m).found ==
            Scan(text, init, m).found + (if StepMatches(text, ns, m, |init|) then [m.ids[ns[|init|]]] else [])
  {
    assert forall n <- init :: n in ns;
    assert ns[..|init|] == init;
  }

  /** A name tried before the last one sees the same text with or without the last. */
  lemma StepMatchesPrefix(text: string, ns: seq<string>, init: seq<string>, m: Mapping, k: nat)
    requires forall n <- ns :: n in m.ids
    requires |ns| > 0 && init == ns[..|ns| - 1] && k < |init|
    ensures forall n <- init :: n in m.ids
    ensures StepMatches(text, ns, m, k) == StepMatches(text, init, m, k) && ns[k] == init[k]
  {
    assert forall n <- init :: n in ns;
    assert ns[..k] == init[..k];
  }

  /** Whether the `k`-th name tried matches the text left by the names before it. */
  predicate StepMatches(text: string, ns: seq<string>, m: Mapping, k: nat)
    requires forall n <- ns :: n in m.ids
    requires k < |ns|
  {
    assert forall n <- ns[..k] :: n in ns;
    FindWord(Scan(text, ns[..k], m).rem, Normalize(ns[k])).Some?
  }

  /** `extractIdsFromCell(text)` as a value. */
  function ExtractIds(text: string, m: Mapping): (ids: seq<string>)
    requires WellFormed(m)
    ensures NoDup(ids)
    ensures forall id <- ids :: exists n :: n in m.ids && m.ids[n] == id
    ensures |ids| <= |m.keys|
  {
    SortedNamesDistinct(m);
    var st := Scan(Normalize(text), SortedNames(m), m);
    ScanFoundIds(Normalize(text), SortedNames(m), m);
    assert |SortedNames(m)| == |m.keys| by {
      assert |multiset(SortedNames(m))| == |multiset(m.keys)|;
    }
    Dedup(st.found)
  }

  /** `extractIdsFromCell` (index.js:88-101): the loop over the sorted names that rewrites `rem`. */
  method ExtractIdsFromCell(text: string, m: Mapping) returns (ids: seq<string>)
    requires WellFormed(m)
    ensures ids == ExtractIds(text, m)
    ensures NoDup(ids)
  {
    SortedNamesDistinct(m);
    var names := SortedNames(m);
    var rem := Normalize(text);
    var found: seq<string> := [];
    for k := 0 to |names|
      invariant ScanState(rem, found) == Scan(Normalize(text), names[..k], m)
    {
      var name := names[k];
      var norm := Normalize(name);
      assert Scan(Normalize(text), names[..k + 1], m) == ScanStep(ScanState(rem, found), name, m) by {
        assert names[..k + 1][..k] == names[..k];
      }
      var match_ := FindWord(rem, norm);
      if match_.Some? {
        found := found + [m.ids[name]];
        rem := rem[..match_.value] + rem[match_.value + |norm|..];
      }
    }
    assert names[..|names|] == names;
    ids := Dedup(found);
  }

  /**
   * Nothing is found exactly when no name tried matches the text itself, and
   * until something is found the text is left as it was.
   */
  lemma {:induction false} ScanFindsNothing(text: string, ns: seq<string>, m: Mapping)
    requires forall n <- ns :: n in m.ids
    ensures Scan(text, ns, m).found == [] <==> forall n <- ns :: FindWord(text, Normalize(n)).None?
    ensures Scan(text, ns, m).found == [] ==> Scan(text, ns, m).rem == text
  {
    if ns != [] {
      var init, last := ns[..|ns| - 1], ns[|ns| - 1];
      assert forall n <- init :: n in ns;
      ScanFindsNothing(text, init, m);
      assert forall n <- ns :: n in init || n == last;
    }
  }

  /**
   * The first id found belongs to the first name tried that matches the text
   * itself: no cut made by a later name can bring an earlier one into play.
   */
  lemma {:induction false} ScanFirstFound(text: string, ns: seq<string>, m: Mapping)
    requires forall n <- ns :: n in m.ids
    requires Scan(text, ns, m).found != []
    ensures exists k :: 0 <= k < |ns| && FindWord(text, Normalize(ns[k])).Some? &&
                        (forall j :: 0 <= j < k ==> FindWord(text, Normalize(ns[j])).None?) &&
                        Scan(text, ns, m).found[0] == m.ids[ns[k]]
  {
    var init := ns[..|ns| - 1];
    assert forall n <- init :: n in ns;
    if Scan(text, init, m).found != [] {
      ScanFirstFound(text, init, m);
      var k :| 0 <= k < |init| && FindWord(text, Normalize(init[k])).Some? &&
               (forall j :: 0 <= j < k ==> FindWord(text, Normalize(init[j])).None?) &&
               Scan(text, init, m).found[0] == m.ids[init[k]];
      FirstFoundKept(text, ns, init, m, k);
    } else {
      FirstFoundLast(text, ns, m);
    }
  }

  /** A last name tried leaves the ids found before it, and the names before it, in place. */
  lemma FirstFoundKept(text: string, ns: seq<string>, init: seq<string>, m: Mapping, k: nat)
    requires forall n <- ns :: n in m.ids
    requires |ns| > 0 && init == ns[..|ns| - 1] && k < |init| && Scan(text, init, m).found != []
    requires FindWord(text, Normalize(init[k])).Some?
    requires forall j :: 0 <= j < k ==> FindWord(text, Normalize(init[j])).None?
    requires Scan(text, init, m).found[0] == m.ids[init[k]]
    ensures FindWord(text, Normalize(ns[k])).Some?
    ensures forall j :: 0 <= j < k ==> FindWord(text, Normalize(ns[j])).None?
    ensures Scan(text, ns, m).found[0] == m.ids[ns[k]]
  {
    assert Scan(text, ns, m) == ScanStep(Scan(text, init, m), ns[|ns| - 1], m);
    assert forall j :: 0 <= j <= k ==> init[j] == ns[j];
  }

  /** When nothing was found before the last name, what is found first is that name's id. */
  lemma FirstFoundLast(text: string, ns: seq<string>, m: Mapping)
    requires forall n <- ns :: n in m.ids
    requires |ns| > 0 && Scan(text, ns[..|ns| - 1], m).found == [] && Scan(text, ns, m).found != []
    ensures FindWord(text, Normalize(ns[|ns| - 1])).Some?
    ensures forall j :: 0 <= j < |ns| - 1 ==> FindWord(text, Normalize(ns[j])).None?
    ensures Scan(text, ns, m).found[0] == m.ids[ns[|ns| - 1]]
  {
    var init := ns[..|ns| - 1];
    assert forall n <- init :: n in ns;
    ScanFindsNothing(text, init, m);
    assert Scan(text, ns, m) == ScanStep(ScanState(text, []), ns[|ns| - 1], m);
    assert forall j :: 0 <= j < |init| ==> init[j] in init && init[j] == ns[j];
  }

  /** `\b` needs a word character on one side, so nothing matches in an empty text. */
  lemma NothingInEmpty(w: string)
    ensures FindWord("", w).None?
  {
  }

  /** Once the whole text is cut away, the names still to be tried find nothing. */
  lemma {:induction false} ScanAfterAllCut(text: string, ns: seq<string>, m: Mapping, k: nat, id: string)
    requires forall n <- ns :: n in m.ids
    requires k <= |ns| && Scan(text, ns[..k], m) == ScanState("", [id])
    ensures Scan(text, ns, m) == ScanState("", [id])
  {
    if |ns| == k {
      assert ns[..k] == ns;
    } else {
      var init := ns[..|ns| - 1];
      assert forall n <- init :: n in ns;
      assert init[..k] == ns[..k];
      ScanAfterAllCut(text, init, m, k, id);
      NothingInEmpty(Normalize(ns[|ns| - 1]));
    }
  }

  /**
   * A text that is one name, as a whole word, gives that name's id alone: its
   * match cuts the whole text, so no shorter name tried later can match any
   * part of it again.
   */
  lemma WholeTextOneName(t: string, ns: seq<string>, m: Mapping, k: nat)
    requires forall n <- ns :: n in m.ids
    requires k < |ns| && t == Normalize(ns[k]) && |t| > 0 && IsWordChar(t[0]) && IsWordChar(t[|t| - 1])
    requires forall j :: 0 <= j < k ==> FindWord(t, Normalize(ns[j])).None?
    ensures Scan(t, ns, m).found == [m.ids[ns[k]]]
  {
    var name := ns[k];
    var front := ns[..k];
    assert forall n <- front :: n in ns;
    assert forall n <- front :: FindWord(t, Normalize(n)).None? by {
      assert forall j :: 0 <= j < k ==> front[j] == ns[j];
    }
    ScanFindsNothing(t, front, m);
    assert Scan(t, front, m) == ScanState(t, []);
    assert MatchAt(t, t, 0) by {
      assert t[0..|t|] == t;
    }
    assert FindWord(t, t) == Some(0);
    assert ns[..k + 1][..k] == front;
    assert Scan(t, ns[..k + 1], m) == ScanState(t[..0] + t[|t|..], [m.ids[name]]);
    assert t[..0] + t[|t|..] == "";
    ScanAfterAllCut(t, ns, m, k + 1, m.ids[name]);
  }

  /**
   * `extractIdsFromCell` finds nothing exactly when no name of the mapping
   * occurs in the normalized cell as a whole word.
   */
  lemma ExtractIdsEmpty(text: string, m: Mapping)
    requires WellFormed(m)
    ensures ExtractIds(text, m) == [] <==> forall n <- m.keys :: FindWord(Normalize(text), Normalize(n)).None?
  {
    var names := SortedNames(m);
    SortedNamesDistinct(m);
    ScanFindsNothing(Normalize(text), names, m);
    assert forall n :: n in names <==> n in m.keys by {
      assert forall n :: n in names <==> n in multiset(m.keys);
    }
  }

  /**
   * An id is in `extractIdsFromCell`'s result exactly when some name with that
   * id, tried in `sortedNames` order, matches what earlier matches left of the
   * normalized cell.
   */
  lemma ExtractIdsMatched(text: string, m: Mapping)
    requires WellFormed(m)
    ensures forall n <- SortedNames(m) :: n in m.ids
    ensures forall id :: id in ExtractIds(text, m) <==>
              exists k {:trigger StepMatches(Normalize(text), SortedNames(m), m, k)} ::
                0 <= k < |SortedNames(m)| && StepMatches(Normalize(text), SortedNames(m), m, k) &&
                m.ids[SortedNames(m)[k]] == id
  {
    SortedNamesDistinct(m);
    ScanFoundMatched(Normalize(text), SortedNames(m), m);
  }

  /**
   * `[...new Set(ids)]` keeps the order of first match: the ids come out in
   * the order in which the loop first pushed each of them.
   */
  lemma ExtractIdsOrder(text: string, m: Mapping)
    requires WellFormed(m)
    ensures forall n <- SortedNames(m) :: n in m.ids
    ensures var found := Scan(Normalize(text), SortedNames(m), m).found;
            var ids := ExtractIds(text, m);
            (forall id <- ids :: id in found) &&
            forall i, j :: 0 <= i < j < |ids| ==> FirstIndex(found, ids[i]) < FirstIndex(found, ids[j])
  {
    SortedNamesDistinct(m);
    DedupOrder(Scan(Normalize(text), SortedNames(m), m).found);
  }

  /**
   * The first id of the result belongs to the first name, in `sortedNames`
   * order, that occurs in the normalized cell as a whole word.
   */
  lemma ExtractIdsFirst(text: string, m: Mapping)
    requires WellFormed(m) && ExtractIds(text, m) != []
    ensures forall n <- SortedNames(m) :: n in m.ids
    ensures exists k :: 0 <= k < |SortedNames(m)| &&
              FindWord(Normalize(text), Normalize(SortedNames(m)[k])).Some? &&
              (forall j :: 0 <= j < k ==> FindWord(Normalize(text), Normalize(SortedNames(m)[j])).None?) &&
              ExtractIds(text, m)[0] == m.ids[SortedNames(m)[k]]
  {
    SortedNamesDistinct(m);
    var found := Scan(Normalize(text), SortedNames(m), m).found;
    ScanFirstFound(Normalize(text), SortedNames(m), m);
    DedupFirst(found);
  }

  /**
   * A cell that normalizes to one name, as a whole word, gives that name's id
   * alone, provided no name tried before it (no longer one) also matches.
   */
  lemma ExtractIdsWholeName(text: string, m: Mapping, k: nat)
    requires WellFormed(m) && k < |SortedNames(m)|
    requires var w := Normalize(SortedNames(m)[k]);
             Normalize(text) == w && |w| > 0 && IsWordChar(w[0]) && IsWordChar(w[|w| - 1])
    requires forall j :: 0 <= j < k ==> FindWord(Normalize(text), Normalize(SortedNames(m)[j])).None?
    ensures SortedNames(m)[k] in m.ids && ExtractIds(text, m) == [m.ids[SortedNames(m)[k]]]
  {
    SortedNamesDistinct(m);
    WholeTextOneName(Normalize(text), SortedNames(m), m, k);
    var id := m.ids[SortedNames(m)[k]];
    assert Dedup([id]) == [id] by {
      assert [id][..0] == [];
    }
  }

  /** The mapping of the example below: "Al" and "Al Bo", in that key order. */
  function ExampleMapping(): Mapping {
    Mapping(["Al", "Al Bo"], map["Al" := "1", "Al Bo" := "2"])
  }

  lemma ExampleSorted()
    ensures SortedNames(ExampleMapping()) == ["Al Bo", "Al"]
  {
    JsLenBmp("Al Bo");
    JsLenBmp("Al");
    assert LengthKey("Al Bo") == Some(-5) && LengthKey("Al") == Some(-2);
    assert SortBy(["Al Bo"], LengthKey) == ["Al Bo"];
    assert ["Al", "Al Bo"][1..] == ["Al Bo"];
  }

  /** How the letters of the example below normalize. */
  lemma ExampleLetters()
    ensures LowerChar(BaseLetter('A')) == 'a' && LowerChar(BaseLetter('l')) == 'l'
    ensures LowerChar(BaseLetter(' ')) == ' ' && LowerChar(BaseLetter('B')) == 'b'
    ensures LowerChar(BaseLetter('o')) == 'o' && LowerChar(BaseLetter('\U{00F3}')) == 'o'
  {
  }

  lemma ExampleNormalizedCell()
    ensures Normalize("Al B\U{00F3}") == "al bo"
  {
    var c := "Al B\U{00F3}";
    NormalizeEach(c);
    ExampleLetters();
    var r := Normalize(c);
    assert r[0] == 'a' && r[1] == 'l' && r[2] == ' ' && r[3] == 'b' && r[4] == 'o';
  }

  lemma ExampleNormalizedNames()
    ensures Normalize("Al Bo") == "al bo"
    ensures Normalize("Al") == "al"
  {
    ExampleLetters();
    NormalizeEach("Al Bo");
    NormalizeEach("Al");
    var r := Normalize("Al Bo");
    assert r[0] == 'a' && r[1] == 'l' && r[2] == ' ' && r[3] == 'b' && r[4] == 'o';
    var q := Normalize("Al");
    assert q[0] == 'a' && q[1] == 'l';
  }

  lemma ExampleScan()
    ensures Scan("al bo", ["Al Bo", "Al"], ExampleMapping()).found == ["2"]
  {
    var m := ExampleMapping();
    ExampleNormalizedNames();
    assert MatchAt("al bo", "al bo", 0);
    var st1 := ScanStep(ScanState("al bo", []), "Al Bo", m);
    assert st1 == ScanState("", ["2"]);
    assert ScanStep(st1, "Al", m) == st1;
    assert ["Al Bo", "Al"][..1] == ["Al Bo"];
    assert ["Al Bo"][..0] == [];
  }

  /**
   * The longer of two overlapping names wins, accents aside: in "Al Bó" only
   * "Al Bo" is found, and its match is cut out before "Al" is tried.
   */
  lemma LongestNameWins()
    ensures ExtractIds("Al B\U{00F3}", ExampleMapping()) == ["2"]
  {
    ExampleSorted();
    ExampleNormalizedCell();
    ExampleScan();
    assert Dedup(["2"]) == ["2"];
  }
}
