/**
 * The message chunker: `chunkLines` packs lines greedily into messages of at
 * most `maxLen` UTF-16 code units, and three send functions repeat the same
 * loop inline with the limit 2000.
 */
module Chunker {
  import opened Text
  import opened Seqs

  /** Discord's message limit, hard-coded in the inline copies and the default of `chunkLines`. */
  const DiscordLimit: nat := 2000

  /** Lines joined with `'\n'`. */
  function JoinLines(lines: seq<string>): string {
    if lines == [] then ""
    else if |lines| == 1 then lines[0]
    else lines[0] + "\n" + JoinLines(lines[1..])
  }

  /**
   * The state of the chunking loop after `lines` is consumed from the state
   * (`done`, `chunk`), including the final flush. The `+ 1` for the separator is
   * counted even when `chunk` is empty, and an empty `chunk` is replaced rather
   * than joined.
   */
  function ChunkFold(done: seq<string>, chunk: string, lines: seq<string>, maxLen: nat): seq<string>
    decreases |lines|
  {
    if lines == [] then (if chunk != "" then done + [chunk] else done)
    else if JsLen(chunk) + JsLen(lines[0]) + 1 > maxLen then ChunkFold(done + [chunk], lines[0], lines[1..], maxLen)
    else ChunkFold(done, if chunk != "" then chunk + "\n" + lines[0] else lines[0], lines[1..], maxLen)
  }

  /** `chunkLines(lines, maxLen)` as a value. */
  function ChunkLines(lines: seq<string>, maxLen: nat): seq<string> {
    ChunkFold([], "", lines, maxLen)
  }

  /** A chunk is within the limit, or is one input line passed through whole. */
  predicate Fits(c: string, lines: seq<string>, maxLen: nat) {
    JsLen(c) <= maxLen || c in lines
  }

  /** `chunkLines` (index.js:53-67): the loop over `lines` that builds `chunks`. */
  method ChunkLinesLoop(lines: seq<string>, maxLen: nat) returns (chunks: seq<string>)
    ensures chunks == ChunkLines(lines, maxLen)
    ensures forall c <- chunks :: Fits(c, lines, maxLen)
  {
    chunks := [];
    var chunk := "";
    for i := 0 to |lines|
      invariant ChunkFold(chunks, chunk, lines[i..], maxLen) == ChunkLines(lines, maxLen)
      invariant forall c <- chunks :: Fits(c, lines, maxLen)
      invariant Fits(chunk, lines, maxLen)
    {
      var line := lines[i];
      assert lines[i..][1..] == lines[i + 1..];
      if JsLen(chunk) + JsLen(line) + 1 > maxLen {
        chunks := chunks + [chunk];
        chunk := line;
      } else {
        JsLenAppend(chunk + "\n", line);
        JsLenAppend(chunk, "\n");
        chunk := if chunk != "" then chunk + "\n" + line else line;
      }
    }
    if chunk != "" {
      chunks := chunks + [chunk];
    }
  }

  /**
   * The inline copy in `sendDepartment`, `sendGeneric` and `sendArea`; the test
   * is written `(chunk + '\n' + line).length > 2000` there. Sending a chunk
   * appends it to `sent`.
   */
  method SendChunked(lines: seq<string>) returns (sent: seq<string>)
    ensures sent == ChunkLines(lines, DiscordLimit)
  {
    sent := [];
    var chunk := "";
    for i := 0 to |lines|
      invariant ChunkFold(sent, chunk, lines[i..], DiscordLimit) == ChunkLines(lines, DiscordLimit)
    {
      var line := lines[i];
      assert lines[i..][1..] == lines[i + 1..];
      JsLenAppend(chunk + "\n", line);
      JsLenAppend(chunk, "\n");
      if JsLen(chunk + "\n" + line) > 2000 {
        sent := sent + [chunk];
        chunk := line;
      } else {
        chunk := if chunk != "" then chunk + "\n" + line else line;
      }
    }
    if chunk != "" {
      sent := sent + [chunk];
    }
  }

  /** No input, no messages. */
  lemma ChunkLinesEmpty(maxLen: nat)
    ensures ChunkLines([], maxLen) == []
  {
  }

  lemma {:induction false} FoldFits(done: seq<string>, chunk: string, lines: seq<string>, maxLen: nat, all: seq<string>)
    requires forall c <- done :: Fits(c, all, maxLen)
    requires Fits(chunk, all, maxLen)
    requires forall l <- lines :: l in all
    ensures forall c <- ChunkFold(done, chunk, lines, maxLen) :: Fits(c, all, maxLen)
    decreases |lines|
  {
    if lines != [] {
      var line := lines[0];
      assert line in all;
      if JsLen(chunk) + JsLen(line) + 1 > maxLen {
        FoldFits(done + [chunk], line, lines[1..], maxLen, all);
      } else {
        JsLenAppend(chunk + "\n", line);
        JsLenAppend(chunk, "\n");
        FoldFits(done, if chunk != "" then chunk + "\n" + line else line, lines[1..], maxLen, all);
      }
    }
  }

  /** Every chunk is at most `maxLen` long, or is exactly one input line. */
  lemma ChunkLinesFit(lines: seq<string>, maxLen: nat)
    ensures forall c <- ChunkLines(lines, maxLen) :: Fits(c, lines, maxLen)
  {
    FoldFits([], "", lines, maxLen, lines);
  }

  lemma {:induction false} FoldKeepsDone(done: seq<string>, chunk: string, lines: seq<string>, maxLen: nat)
    ensures |done| <= |ChunkFold(done, chunk, lines, maxLen)|
    ensures ChunkFold(done, chunk, lines, maxLen)[..|done|] == done
    decreases |lines|
  {
    if lines != [] {
      var line := lines[0];
      if JsLen(chunk) + JsLen(line) + 1 > maxLen {
        FoldKeepsDone(done + [chunk], line, lines[1..], maxLen);
        assert (done + [chunk])[..|done|] == done;
      } else {
        FoldKeepsDone(done, if chunk != "" then chunk + "\n" + line else line, lines[1..], maxLen);
      }
    }
  }

  /** Once something is pending, at least one message goes out. */
  lemma {:induction false} FoldNonEmpty(done: seq<string>, chunk: string, lines: seq<string>, maxLen: nat)
    requires done != [] || chunk != ""
    ensures ChunkFold(done, chunk, lines, maxLen) != []
    decreases |lines|
  {
    if lines != [] {
      var line := lines[0];
      if JsLen(chunk) + JsLen(line) + 1 > maxLen {
        FoldNonEmpty(done + [chunk], line, lines[1..], maxLen);
      } else {
        FoldNonEmpty(done, if chunk != "" then chunk + "\n" + line else line, lines[1..], maxLen);
      }
    }
  }

  /** Lines that open with a non-empty one give at least one message. */
  lemma ChunkLinesNonEmpty(lines: seq<string>, maxLen: nat)
    requires lines != [] && lines[0] != ""
    ensures ChunkLines(lines, maxLen) != []
  {
    var line := lines[0];
    assert ChunkLines(lines, maxLen) == ChunkFold([], "", lines, maxLen);
    if JsLen("") + JsLen(line) + 1 > maxLen {
      assert ChunkFold([], "", lines, maxLen) == ChunkFold([] + [""], line, lines[1..], maxLen);
      assert [] + [""] == [""];
      FoldNonEmpty([""], line, lines[1..], maxLen);
    } else {
      assert ChunkFold([], "", lines, maxLen) == ChunkFold([], line, lines[1..], maxLen);
      FoldNonEmpty([], line, lines[1..], maxLen);
    }
  }

  /**
   * A first line that does not leave room for the separator produces a leading
   * empty chunk.
   */
  lemma LeadingEmptyChunk(lines: seq<string>, maxLen: nat)
    requires lines != [] && JsLen(lines[0]) >= maxLen
    ensures |ChunkLines(lines, maxLen)| >= 1 && ChunkLines(lines, maxLen)[0] == ""
  {
    assert JsLen("") == 0;
    assert ChunkLines(lines, maxLen) == ChunkFold([], "", lines, maxLen);
    assert ChunkFold([], "", lines, maxLen) == ChunkFold([] + [""], lines[0], lines[1..], maxLen);
    assert [] + [""] == [""];
    FoldKeepsDone([""], lines[0], lines[1..], maxLen);
  }

  lemma {:induction false} JoinLinesSnoc2(a: seq<string>, x: string, y: string)
    ensures JoinLines(a + [x, y]) == JoinLines(a + [x + "\n" + y])
  {
    if a == [] {
      assert [x, y][1..] == [y];
    } else {
      JoinLinesSnoc2(a[1..], x, y);
      assert (a + [x, y])[1..] == a[1..] + [x, y];
      assert (a + [x + "\n" + y])[1..] == a[1..] + [x + "\n" + y];
    }
  }

  lemma JoinLinesCons2(x: string, y: string, rest: seq<string>)
    ensures JoinLines([x, y] + rest) == x + "\n" + JoinLines([y] + rest)
  {
    assert ([x, y] + rest)[1..] == [y] + rest;
  }

  lemma JoinLinesMerge(x: string, y: string, rest: seq<string>)
    ensures JoinLines([x + "\n" + y] + rest) == JoinLines([x, y] + rest)
  {
    JoinLinesCons2(x, y, rest);
    if rest != [] {
      assert ([x + "\n" + y] + rest)[1..] == rest;
      assert ([y] + rest)[1..] == rest;
    }
  }

  /** One step of `FoldJoin` when the line starts a new chunk. */
  lemma FoldJoinPush(done: seq<string>, chunk: string, line: string, rest: seq<string>, tail: string)
    requires tail == JoinLines([line] + rest)
    ensures JoinLines(done + [chunk] + [tail]) == JoinLines(done + [JoinLines([chunk, line] + rest)])
  {
    JoinLinesCons2(chunk, line, rest);
    JoinLinesSnoc2(done, chunk, tail);
    assert done + [chunk] + [tail] == done + [chunk, tail];
  }

  lemma {:induction false} FoldJoin(done: seq<string>, chunk: string, lines: seq<string>, maxLen: nat)
    requires chunk != "" && "" !in done
    requires forall i :: 0 <= i < |lines| ==> lines[i] != ""
    ensures "" !in ChunkFold(done, chunk, lines, maxLen)
    ensures JoinLines(ChunkFold(done, chunk, lines, maxLen)) == JoinLines(done + [JoinLines([chunk] + lines)])
    decreases |lines|
  {
    if lines == [] {
      assert [chunk] + lines == [chunk];
    } else {
      var line, rest := lines[0], lines[1..];
      assert [chunk] + lines == [chunk, line] + rest;
      assert forall i :: 0 <= i < |rest| ==> rest[i] == lines[i + 1];
      if JsLen(chunk) + JsLen(line) + 1 > maxLen {
        assert ChunkFold(done, chunk, lines, maxLen) == ChunkFold(done + [chunk], line, rest, maxLen);
        FoldJoin(done + [chunk], line, rest, maxLen);
        FoldJoinPush(done, chunk, line, rest, JoinLines([line] + rest));
      } else {
        assert ChunkFold(done, chunk, lines, maxLen) == ChunkFold(done, chunk + "\n" + line, rest, maxLen);
        FoldJoin(done, chunk + "\n" + line, rest, maxLen);
        JoinLinesMerge(chunk, line, rest);
      }
    }
  }

  /** A first line that fits beside its separator becomes the pending chunk. */
  lemma ChunkLinesFirstJoined(lines: seq<string>, maxLen: nat)
    requires lines != [] && JsLen(lines[0]) < maxLen
    ensures ChunkLines(lines, maxLen) == ChunkFold([], lines[0], lines[1..], maxLen)
  {
    assert JsLen("") == 0;
  }

  /**
   * With no empty line and a first line that fits beside its separator, the
   * chunks are non-empty and joining them with `'\n'` gives back the joined
   * lines: lines stay in order and none is split or lost.
   */
  lemma ChunkLinesJoin(lines: seq<string>, maxLen: nat)
    requires forall i :: 0 <= i < |lines| ==> lines[i] != ""
    requires lines == [] || JsLen(lines[0]) < maxLen
    ensures "" !in ChunkLines(lines, maxLen)
    ensures JoinLines(ChunkLines(lines, maxLen)) == JoinLines(lines)
  {
    if lines != [] {
      var line, rest := lines[0], lines[1..];
      ChunkLinesFirstJoined(lines, maxLen);
      assert forall i :: 0 <= i < |rest| ==> rest[i] != "" by {
        forall i | 0 <= i < |rest| ensures rest[i] != "" {
          assert rest[i] == lines[i + 1];
        }
      }
      FoldJoin([], line, rest, maxLen);
      assert [line] + rest == lines;
    }
  }

  /** The chunks that carry text: the empty ones dropped, the others in order. */
  function NonEmpty(cs: seq<string>): seq<string> {
    FilterNotKey(cs, c => c, "")
  }

  /** The chunk texts of consecutive runs of lines: each run joined with `'\n'`. */
  function JoinRuns(runs: seq<seq<string>>): seq<string> {
    if runs == [] then [] else [JoinLines(runs[0])] + JoinRuns(runs[1..])
  }

  /** `kept` is `lines` with some of its empty lines deleted, and nothing else changed. */
  predicate DropsEmpty(kept: seq<string>, lines: seq<string>)
    decreases |lines|
  {
    if lines == [] then kept == []
    else (|kept| > 0 && kept[0] == lines[0] && DropsEmpty(kept[1..], lines[1..])) ||
         (lines[0] == "" && DropsEmpty(kept, lines[1..]))
  }

  lemma NonEmptySnoc(cs: seq<string>, c: string)
    ensures NonEmpty(cs + [c]) == NonEmpty(cs) + (if c != "" then [c] else [])
  {
    assert (cs + [c])[..|cs|] == cs;
  }

  lemma {:induction false} JoinLinesSnoc(cur: seq<string>, line: string)
    requires |cur| > 0
    ensures JoinLines(cur + [line]) == JoinLines(cur) + "\n" + line
    decreases |cur|
  {
    var s := cur + [line];
    assert |s| >= 2 && s[0] == cur[0];
    if |cur| == 1 {
      assert s[1..] == [line];
      assert JoinLines(cur) == cur[0];
    } else {
      assert s[1..] == cur[1..] + [line];
      JoinLinesSnoc(cur[1..], line);
      var t := JoinLines(cur[1..]);
      calc {
        JoinLines(s);
        cur[0] + "\n" + JoinLines(cur[1..] + [line]);
        cur[0] + "\n" + (t + "\n" + line);
        (cur[0] + "\n" + t) + "\n" + line;
        JoinLines(cur) + "\n" + line;
      }
    }
  }

  /**
   * From a loop state whose pending `chunk` joins the run `cur`, the chunks
   * produced that carry text are those already pushed, followed by the joins of
   * consecutive runs which, laid end to end, are `cur` and then the remaining
   * lines with some empty lines deleted.
   */
  lemma {:induction false} FoldRuns(done: seq<string>, chunk: string, cur: seq<string>, lines: seq<string>, maxLen: nat)
    returns (runs: seq<seq<string>>, kept: seq<string>)
    requires chunk == JoinLines(cur) && (cur == [] <==> chunk == "")
    ensures forall r <- runs :: r != []
    ensures Flatten(runs) == cur + kept && DropsEmpty(kept, lines)
    ensures NonEmpty(ChunkFold(done, chunk, lines, maxLen)) == NonEmpty(done) + JoinRuns(runs)
    decreases |lines|
  {
    if lines == [] {
      if chunk != "" {
        runs, kept := [cur], [];
        NonEmptySnoc(done, chunk);
        assert Flatten(runs) == cur + Flatten(runs[1..]);
      } else {
        runs, kept := [], [];
      }
    } else {
      var line, rest := lines[0], lines[1..];
      var cur' := if line != "" then [line] else [];
      var kept';
      if JsLen(chunk) + JsLen(line) + 1 > maxLen {
        var runs';
        assert ChunkFold(done, chunk, lines, maxLen) == ChunkFold(done + [chunk], line, rest, maxLen);
        runs', kept' := FoldRuns(done + [chunk], line, cur', rest, maxLen);
        runs := PushRun(done, chunk, cur, runs');
        DropsEmptyStep(kept', lines, line != "");
        kept := cur' + kept';
      } else if chunk != "" {
        JoinLinesSnoc(cur, line);
        assert ChunkFold(done, chunk, lines, maxLen) == ChunkFold(done, chunk + "\n" + line, rest, maxLen);
        runs, kept' := FoldRuns(done, chunk + "\n" + line, cur + [line], rest, maxLen);
        DropsEmptyStep(kept', lines, true);
        kept := [line] + kept';
      } else {
        assert JoinLines([line]) == line;
        assert ChunkFold(done, chunk, lines, maxLen) == ChunkFold(done, line, rest, maxLen);
        runs, kept' := FoldRuns(done, line, cur', rest, maxLen);
        DropsEmptyStep(kept', lines, line != "");
        kept := cur' + kept';
      }
    }
  }

  /** Pushing the pending chunk closes its run `cur`, unless it is empty. */
  lemma PushRun(done: seq<string>, chunk: string, cur: seq<string>, runs': seq<seq<string>>)
    returns (runs: seq<seq<string>>)
    requires chunk == JoinLines(cur) && (cur == [] <==> chunk == "")
    requires forall r <- runs' :: r != []
    ensures forall r <- runs :: r != []
    ensures Flatten(runs) == cur + Flatten(runs')
    ensures NonEmpty(done + [chunk]) + JoinRuns(runs') == NonEmpty(done) + JoinRuns(runs)
  {
    NonEmptySnoc(done, chunk);
    if chunk != "" {
      runs := [cur] + runs';
      assert runs[1..] == runs';
      assert JoinRuns(runs) == [JoinLines(cur)] + JoinRuns(runs');
    } else {
      runs := runs';
    }
  }

  lemma DropsEmptyStep(kept: seq<string>, lines: seq<string>, keep: bool)
    requires |lines| > 0 && DropsEmpty(kept, lines[1..]) && (keep || lines[0] == "")
    ensures DropsEmpty((if keep then [lines[0]] else []) + kept, lines)
  {
    if keep {
      assert ([lines[0]] + kept)[1..] == kept;
    } else {
      assert [] + kept == kept;
    }
  }

  /**
   * Chunks are `'\n'`-joins of consecutive runs of input lines, in order: apart
   * from the empty chunks, `chunkLines` cuts the lines, with some empty lines
   * deleted, into non-empty runs and joins each run. So no line is split or
   * reordered, and only empty lines can be lost.
   */
  lemma ChunkLinesRuns(lines: seq<string>, maxLen: nat)
    ensures exists runs: seq<seq<string>> ::
              (forall r <- runs :: r != []) && DropsEmpty(Flatten(runs), lines) &&
              NonEmpty(ChunkLines(lines, maxLen)) == JoinRuns(runs)
  {
    var runs, kept := FoldRuns([], "", [], lines, maxLen);
    assert NonEmpty([]) == [];
    assert [] + kept == kept;
  }

  /** Deleting empty lines keeps every non-empty line, in order. */
  lemma {:induction false} DropsEmptyKeeps(kept: seq<string>, lines: seq<string>)
    requires DropsEmpty(kept, lines)
    ensures NonEmpty(kept) == NonEmpty(lines)
    decreases |lines|
  {
    if lines != [] {
      if |kept| > 0 && kept[0] == lines[0] && DropsEmpty(kept[1..], lines[1..]) {
        DropsEmptyKeeps(kept[1..], lines[1..]);
        FilterNotKeyCons(kept[0], kept[1..], c => c, "");
        FilterNotKeyCons(lines[0], lines[1..], c => c, "");
        assert [kept[0]] + kept[1..] == kept;
        assert [lines[0]] + lines[1..] == lines;
      } else {
        DropsEmptyKeeps(kept, lines[1..]);
        FilterNotKeyCons(lines[0], lines[1..], c => c, "");
        assert [lines[0]] + lines[1..] == lines;
      }
    }
  }

  /** An empty line that starts a chunk disappears: `["", "a"]` gives `["a"]`. */
  lemma EmptyLineSwallowed()
    ensures ChunkLines(["", "a"], 10) == ["a"]
  {
  }

  /** `["abc"]` with limit 3 gives a leading empty chunk, then the line itself. */
  lemma OversizedLineExample()
    ensures ChunkLines(["abc"], 3) == ["", "abc"]
  {
  }
}
