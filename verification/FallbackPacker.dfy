/** _build_bounded_fallback_chunks of incidentops/ingestion/indexer.py: a document whose parsed
    chunks would be too many is packed line by line into larger ones. */
module FallbackPacker {
  import opened Prelude
  import opened Text
  import opened Segmentation

  // Lines startLine..endLine, counted from 1.
  datatype LineChunk = LineChunk(text: string, startLine: nat, endLine: nat)

  // Words and tokens of lines a..b, counted from 0, end excluded.
  function WordCount(lines: seq<string>, a: nat, b: nat): nat
    requires a <= b <= |lines|
  {
    |AllWords(lines[a..b])|
  }

  function Tokens(lines: seq<string>, a: nat, b: nat): nat
    requires a <= b <= |lines|
  {
    TokensOfWords(WordCount(lines, a, b))
  }

  function ChunkText(lines: seq<string>, a: nat, b: nat): string
    requires a <= b <= |lines|
  {
    Strip(Join(lines[a..b], '\n'))
  }

  lemma CountsAdd(lines: seq<string>, a: nat, b: nat, c: nat)
    requires a <= b <= c <= |lines|
    ensures WordCount(lines, a, c) == WordCount(lines, a, b) + WordCount(lines, b, c)
    ensures Tokens(lines, a, c) >= Tokens(lines, a, b) + Tokens(lines, b, c)
    ensures WordCount(lines, b, c) >= 1 <==> Tokens(lines, b, c) >= 1
  {
    hide TokensOfWords;
    assert lines[a..c] == lines[a..b] + lines[b..c];
    AllWordsConcat(lines[a..b], lines[b..c]);
    TokensAreSuperadditive(WordCount(lines, a, b), WordCount(lines, b, c));
  }

  // What the loop measures on the joined and stripped text are the counts of its lines.
  lemma ChunkTextCounts(lines: seq<string>, a: nat, b: nat)
    requires a <= b <= |lines|
    ensures CountTokens(ChunkText(lines, a, b)) == Tokens(lines, a, b)
    ensures ChunkText(lines, a, b) == "" <==> WordCount(lines, a, b) == 0
  {
    WordsOfStrip(Join(lines[a..b], '\n'));
    WordsOfJoinedLines(lines[a..b], '\n');
  }

  function TotalTokens(lines: seq<string>): nat {
    Max(1, Tokens(lines, 0, |lines|))
  }

  function TargetChunkCount(lines: seq<string>, maxChunks: nat, maxTokens: nat): nat
    requires maxTokens > 0
  {
    Min(maxChunks, Max(1, CeilDiv(TotalTokens(lines), maxTokens)))
  }

  function TargetTokens(lines: seq<string>, maxChunks: nat, maxTokens: nat): nat
    requires maxTokens > 0 && maxChunks > 0
  {
    Max(maxTokens, CeilDiv(TotalTokens(lines), TargetChunkCount(lines, maxChunks, maxTokens)))
  }

  // A chunk of lines a..x is not yet full, and line x still fits.
  ghost predicate Grows(lines: seq<string>, target: nat, a: nat, x: nat)
    requires a <= x < |lines|
  {
    Tokens(lines, a, x) < target && Tokens(lines, a, x + 1) <= target
  }

  // A chunk from line a stops after line e-1: no shorter chunk reached the target, no line
  // but the first overshot it, and it is full, or the next line would overshoot, or no line is left.
  ghost predicate GreedyEnd(lines: seq<string>, target: nat, a: nat, e: nat) {
    && a < e <= |lines|
    && (forall x | a < x < e :: Grows(lines, target, a, x))
    && (e == |lines| || Tokens(lines, a, e) >= target || Tokens(lines, a, e + 1) > target)
  }

  // Where chunk k starts.
  function Cut(chunks: seq<LineChunk>, k: nat): nat
    requires k <= |chunks|
  {
    if k == 0 then 0 else chunks[k - 1].endLine
  }

  ghost predicate PackedAt(lines: seq<string>, target: nat, chunks: seq<LineChunk>, k: nat)
    requires k < |chunks|
  {
    var a, e := Cut(chunks, k), chunks[k].endLine;
    && GreedyEnd(lines, target, a, e)
    && WordCount(lines, a, e) > 0
    && chunks[k] == LineChunk(ChunkText(lines, a, e), a + 1, e)
  }

  // The chunks are consecutive non-blank greedy stretches from the first line on.
  ghost predicate Packed(lines: seq<string>, target: nat, chunks: seq<LineChunk>) {
    forall k | 0 <= k < |chunks| :: PackedAt(lines, target, chunks, k)
  }

  // Why packing ends: the lines or the chunks ran out, or the next stretch is blank.
  ghost predicate Exhausted(lines: seq<string>, target: nat, maxChunks: nat, chunks: seq<LineChunk>) {
    var at := Cut(chunks, |chunks|);
    at == |lines| || |chunks| == maxChunks || exists e ::
        GreedyEnd(lines, target, at, e) && WordCount(lines, at, e) == 0
  }

  // Where the inner loop ends a chunk that starts at line a and already has the lines before x.
  function GrowEnd(lines: seq<string>, target: nat, a: nat, x: nat): (e: nat)
    requires a <= x <= |lines|
    ensures x <= e <= |lines| && (a == x < |lines| ==> a < e)
    decreases |lines| - x
  {
    if x == |lines| || (x > a && Tokens(lines, a, x + 1) > target) then x
    else if Tokens(lines, a, x + 1) >= target then x + 1
    else GrowEnd(lines, target, a, x + 1)
  }

  // The chunks, when packing goes on after some of them.
  function PackFrom(lines: seq<string>, target: nat, maxChunks: nat, chunks: seq<LineChunk>): seq<LineChunk>
    requires Cut(chunks, |chunks|) <= |lines|
    decreases |lines| - Cut(chunks, |chunks|)
  {
    var at := Cut(chunks, |chunks|);
    if at == |lines| || |chunks| >= maxChunks then chunks
    else
      var e := GrowEnd(lines, target, at, at);
      if ChunkText(lines, at, e) == "" then chunks
      else PackFrom(lines, target, maxChunks, chunks + [LineChunk(ChunkText(lines, at, e), at + 1, e)])
  }

  function FallbackChunks(content: string, maxChunks: nat, maxTokens: nat): seq<LineChunk>
    requires maxChunks > 0 && maxTokens > 0
  {
    var lines := SplitLines(content);
    PackFrom(lines, TargetTokens(lines, maxChunks, maxTokens), maxChunks, [])
  }

  method BuildBoundedFallbackChunks(content: string, maxChunks: nat, maxTokens: nat) returns (chunks: seq<LineChunk>)
    requires maxChunks > 0 && maxTokens > 0
    ensures chunks == FallbackChunks(content, maxChunks, maxTokens)
  {
    hide WordCount, Tokens, TokensOfWords, CountTokens, CeilDiv;
    var lines := SplitLines(content);
    if lines == [] {
      return [];
    }
    ContentTokens(content);
    var totalTokens := Max(1, CountTokens(content));
    var targetCount := Min(maxChunks, Max(1, CeilDiv(totalTokens, maxTokens)));
    var target := Max(maxTokens, CeilDiv(totalTokens, targetCount));
    chunks := [];
    var start := 0;
    while start < |lines| && |chunks| < maxChunks
      invariant start == Cut(chunks, |chunks|) && start <= |lines|
      invariant PackFrom(lines, target, maxChunks, chunks) == PackFrom(lines, target, maxChunks, [])
      decreases |lines| - start
    {
      var end := GrowChunk(lines, target, start);
      var text := Strip(Join(lines[start..end], '\n'));
      if text == "" {
        return;
      }
      chunks := chunks + [LineChunk(text, start + 1, end)];
      start := end;
    }
  }

  lemma ContentTokens(content: string)
    ensures var lines := SplitLines(content); CountTokens(content) == Tokens(lines, 0, |lines|)
  {
    WordsOfLines(content);
    assert SplitLines(content)[0..|SplitLines(content)|] == SplitLines(content);
  }

  lemma PackedExtends(lines: seq<string>, target: nat, before: seq<LineChunk>, chunks: seq<LineChunk>)
    requires Packed(lines, target, before) && |chunks| == |before| + 1 && chunks[..|before|] == before
    requires PackedAt(lines, target, chunks, |before|)
    ensures Packed(lines, target, chunks)
  {
    hide WordCount, Tokens, ChunkText;
    forall k | 0 <= k < |before|
      ensures PackedAt(lines, target, chunks, k)
    {
      assert PackedAt(lines, target, before, k);
      assert Cut(before, k) == Cut(chunks, k);
    }
  }

  // The inner loop: take lines from `start` until the target is met or would be passed.
  method GrowChunk(lines: seq<string>, target: nat, start: nat) returns (end: nat)
    requires start < |lines|
    ensures end == GrowEnd(lines, target, start, start)
  {
    hide WordCount, TokensOfWords;
    end := start;
    while end < |lines|
      invariant start <= end <= |lines|
      invariant GrowEnd(lines, target, start, end) == GrowEnd(lines, target, start, start)
    {
      ChunkTextCounts(lines, start, end + 1);
      assert Strip(Join(lines[start..end + 1], '\n')) == ChunkText(lines, start, end + 1);
      var tokens := CountTokens(Strip(Join(lines[start..end + 1], '\n')));
      if end > start && tokens > target {
        return;
      }
      end := end + 1;
      if tokens >= target {
        return;
      }
    }
  }

  // ---- the packing is greedy ----

  lemma {:induction false} GrowEndIsGreedy(lines: seq<string>, target: nat, a: nat, x: nat)
    requires a <= x <= |lines| && a < |lines|
    requires (forall y | a < y < x :: Grows(lines, target, a, y)) && (x > a ==> Tokens(lines, a, x) < target)
    ensures GreedyEnd(lines, target, a, GrowEnd(lines, target, a, x))
    decreases |lines| - x
  {
    hide Tokens;
    if x < |lines| && !(x > a && Tokens(lines, a, x + 1) > target) && Tokens(lines, a, x + 1) < target {
      GrowEndIsGreedy(lines, target, a, x + 1);
    }
  }

  lemma {:induction false} PackFromIsPacked(lines: seq<string>, target: nat, maxChunks: nat, chunks: seq<LineChunk>)
    requires Cut(chunks, |chunks|) <= |lines| && |chunks| <= maxChunks && Packed(lines, target, chunks)
    ensures var all := PackFrom(lines, target, maxChunks, chunks);
            |all| <= maxChunks && Packed(lines, target, all) && Exhausted(lines, target, maxChunks, all)
    decreases |lines| - Cut(chunks, |chunks|)
  {
    hide WordCount, Tokens, GreedyEnd, ChunkText;
    var at := Cut(chunks, |chunks|);
    if at < |lines| && |chunks| < maxChunks {
      var e := GrowEnd(lines, target, at, at);
      GrowEndIsGreedy(lines, target, at, at);
      ChunkTextCounts(lines, at, e);
      if ChunkText(lines, at, e) != "" {
        var more := chunks + [LineChunk(ChunkText(lines, at, e), at + 1, e)];
        assert Cut(more, |chunks|) == at;
        assert PackedAt(lines, target, more, |chunks|);
        PackedExtends(lines, target, chunks, more);
        PackFromIsPacked(lines, target, maxChunks, more);
      }
    }
  }

  /** The packer's chunks are consecutive greedy stretches, none blank, from the first line on; it
      stops only at the end of the lines, at the chunk limit or before a blank stretch. */
  lemma FallbackChunksAreGreedy(content: string, maxChunks: nat, maxTokens: nat)
    requires maxChunks > 0 && maxTokens > 0
    ensures var lines, chunks := SplitLines(content), FallbackChunks(content, maxChunks, maxTokens);
            var target := TargetTokens(lines, maxChunks, maxTokens);
            |chunks| <= maxChunks && Packed(lines, target, chunks) && Exhausted(lines, target, maxChunks, chunks)
  {
    hide TargetTokens;
    PackFromIsPacked(SplitLines(content), TargetTokens(SplitLines(content), maxChunks, maxTokens), maxChunks, []);
  }

  // ---- how many chunks ----

  // Two consecutive chunks together hold at least the target.
  lemma PairHoldsTarget(lines: seq<string>, target: nat, chunks: seq<LineChunk>, k: nat)
    requires Packed(lines, target, chunks) && k + 1 < |chunks|
    ensures Cut(chunks, k) <= Cut(chunks, k + 2) <= |lines|
        && Tokens(lines, Cut(chunks, k), Cut(chunks, k + 2)) >= target
  {
    hide WordCount, Tokens, ChunkText;
    assert PackedAt(lines, target, chunks, k) && PackedAt(lines, target, chunks, k + 1);
    var a, b, c := Cut(chunks, k), Cut(chunks, k + 1), Cut(chunks, k + 2);
    CountsAdd(lines, a, b, c);
    CountsAdd(lines, a, b + 1, c);
  }

  lemma {:induction false} PairsHoldTargets(lines: seq<string>, target: nat, chunks: seq<LineChunk>, p: nat)
    requires Packed(lines, target, chunks) && 2 * p <= |chunks|
    ensures Cut(chunks, 2 * p) <= |lines| && Tokens(lines, 0, Cut(chunks, 2 * p)) >= p * target
  {
    hide WordCount, Tokens, ChunkText;
    if p > 0 {
      PairsHoldTargets(lines, target, chunks, p - 1);
      PairHoldsTarget(lines, target, chunks, 2 * p - 2);
      CountsAdd(lines, 0, Cut(chunks, 2 * p - 2), Cut(chunks, 2 * p));
      assert (p - 1) * target + target == p * target;
    }
  }

  // The first 2 * T chunks, if there are that many, already hold all tokens.
  lemma FirstPairsHoldEverything(lines: seq<string>, maxChunks: nat, maxTokens: nat, chunks: seq<LineChunk>)
    requires maxChunks > 0 && maxTokens > 0 && Packed(lines, TargetTokens(lines, maxChunks, maxTokens), chunks)
    requires 2 * TargetChunkCount(lines, maxChunks, maxTokens) <= |chunks|
    ensures var at := Cut(chunks, 2 * TargetChunkCount(lines, maxChunks, maxTokens));
            at <= |lines| && WordCount(lines, at, |lines|) == 0
  {
    hide WordCount, Tokens, ChunkText;
    var t, target := TargetChunkCount(lines, maxChunks, maxTokens), TargetTokens(lines, maxChunks, maxTokens);
    var at := Cut(chunks, 2 * t);
    PairsHoldTargets(lines, target, chunks, t);
    CeilDivCovers(TotalTokens(lines), t);
    Times(target, CeilDiv(TotalTokens(lines), t), t);
    CountsAdd(lines, 0, at, |lines|);
  }

  // At most 2T chunks.
  lemma PackedChunkCountIsBounded(lines: seq<string>, maxChunks: nat, maxTokens: nat, chunks: seq<LineChunk>)
    requires maxChunks > 0 && maxTokens > 0 && |chunks| <= maxChunks
    requires Packed(lines, TargetTokens(lines, maxChunks, maxTokens), chunks)
    ensures |chunks| <= Min(maxChunks, 2 * TargetChunkCount(lines, maxChunks, maxTokens))
  {
    hide WordCount, Tokens, ChunkText;
    var t := TargetChunkCount(lines, maxChunks, maxTokens);
    if |chunks| > 2 * t {
      FirstPairsHoldEverything(lines, maxChunks, maxTokens, chunks);
      assert PackedAt(lines, TargetTokens(lines, maxChunks, maxTokens), chunks, 2 * t);
      CountsAdd(lines, Cut(chunks, 2 * t), Cut(chunks, 2 * t + 1), |lines|);
    }
  }

  lemma PackedPrefix(lines: seq<string>, target: nat, chunks: seq<LineChunk>, k: nat)
    requires Packed(lines, target, chunks) && k <= |chunks|
    ensures Packed(lines, target, chunks[..k])
  {
    hide WordCount, Tokens, ChunkText;
    forall i | 0 <= i < k
      ensures PackedAt(lines, target, chunks[..k], i)
    {
      assert PackedAt(lines, target, chunks, i);
      assert Cut(chunks[..k], i) == Cut(chunks, i);
    }
  }

  lemma {:induction false} CutsIncrease(lines: seq<string>, target: nat, chunks: seq<LineChunk>, i: nat, k: nat)
    requires Packed(lines, target, chunks) && i <= k <= |chunks|
    ensures Cut(chunks, i) <= Cut(chunks, k) <= |lines| && (i < k ==> Cut(chunks, i) < Cut(chunks, k))
    decreases k
  {
    hide WordCount, Tokens, ChunkText;
    if k > 0 {
      assert PackedAt(lines, target, chunks, k - 1);
      CutsIncrease(lines, target, chunks, if i < k then i else k - 1, k - 1);
    }
  }

  function ChunkWords(chunks: seq<LineChunk>): seq<string> {
    if chunks == [] then [] else ChunkWords(chunks[..|chunks| - 1]) + Words(chunks[|chunks| - 1].text)
  }

  lemma {:induction false} ChunkWordsArePrefix(lines: seq<string>, target: nat, chunks: seq<LineChunk>)
    requires Packed(lines, target, chunks)
    ensures Cut(chunks, |chunks|) <= |lines| && ChunkWords(chunks) == AllWords(lines[..Cut(chunks, |chunks|)])
  {
    hide WordCount, Tokens, Words, Strip, Join;
    if chunks == [] {
      assert lines[..0] == [];
    } else {
      var k := |chunks| - 1;
      var a, e := Cut(chunks, k), chunks[k].endLine;
      PackedPrefix(lines, target, chunks, k);
      ChunkWordsArePrefix(lines, target, chunks[..k]);
      assert Cut(chunks[..k], k) == a && PackedAt(lines, target, chunks, k);
      WordsOfStrip(Join(lines[a..e], '\n'));
      WordsOfJoinedLines(lines[a..e], '\n');
      AllWordsConcat(lines[..a], lines[a..e]);
      assert lines[..e] == lines[..a] + lines[a..e];
    }
  }

  predicate InChunk(chunk: LineChunk, x: nat) {
    chunk.startLine <= x <= chunk.endLine
  }

  lemma {:induction false} LineIsInSomeChunk(lines: seq<string>, target: nat, chunks: seq<LineChunk>, n: nat, x: nat)
    requires Packed(lines, target, chunks) && n <= |chunks| && 1 <= x <= Cut(chunks, n)
    ensures exists k :: 0 <= k < n && InChunk(chunks[k], x)
  {
    hide WordCount, Tokens, ChunkText;
    assert PackedAt(lines, target, chunks, n - 1);
    if x <= Cut(chunks, n - 1) {
      LineIsInSomeChunk(lines, target, chunks, n - 1, x);
    } else {
      assert InChunk(chunks[n - 1], x);
    }
  }

  // Line x (counted from 1) of the prefix is in one chunk and in no second one.
  lemma PackedChunksPartitionAPrefix(lines: seq<string>, target: nat, chunks: seq<LineChunk>, x: nat)
    requires Packed(lines, target, chunks)
    ensures Cut(chunks, |chunks|) <= |lines|
    ensures 1 <= x <= Cut(chunks, |chunks|) <==> exists k :: 0 <= k < |chunks| && InChunk(chunks[k], x)
    ensures forall i, k :: 0 <= i < k < |chunks| && InChunk(chunks[i], x) ==> !InChunk(chunks[k], x)
    ensures ChunkWords(chunks) == AllWords(lines[..Cut(chunks, |chunks|)])
  {
    hide *;
    ChunkWordsArePrefix(lines, target, chunks);
    if 1 <= x <= Cut(chunks, |chunks|) {
      LineIsInSomeChunk(lines, target, chunks, |chunks|, x);
    }
    forall k | 0 <= k < |chunks|
      ensures InChunk(chunks[k], x) ==> 1 <= x <= Cut(chunks, |chunks|)
    {
      ChunkIsInPrefix(lines, target, chunks, k, x);
    }
    forall i, k | 0 <= i < k < |chunks| && InChunk(chunks[i], x)
      ensures !InChunk(chunks[k], x)
    {
      ChunksAreDisjoint(lines, target, chunks, i, k, x);
    }
  }

  lemma ChunkIsInPrefix(lines: seq<string>, target: nat, chunks: seq<LineChunk>, k: nat, x: nat)
    requires Packed(lines, target, chunks) && k < |chunks|
    ensures InChunk(chunks[k], x) ==> 1 <= x <= Cut(chunks, |chunks|)
  {
    hide WordCount, Tokens, ChunkText;
    assert PackedAt(lines, target, chunks, k);
    CutsIncrease(lines, target, chunks, k + 1, |chunks|);
  }

  lemma ChunksAreDisjoint(lines: seq<string>, target: nat, chunks: seq<LineChunk>, i: nat, k: nat, x: nat)
    requires Packed(lines, target, chunks) && i < k < |chunks|
    ensures !(InChunk(chunks[i], x) && InChunk(chunks[k], x))
  {
    hide WordCount, Tokens, ChunkText;
    assert PackedAt(lines, target, chunks, k);
    CutsIncrease(lines, target, chunks, i + 1, k);
  }

  // ---- what is covered ----

  // From line `at` on come blank lines and then one whose own tokens pass the target.
  ghost predicate StuckAt(lines: seq<string>, target: nat, at: nat) {
    exists e :: at < e < |lines| && WordCount(lines, at, e) == 0 && Tokens(lines, e, e + 1) > target
  }

  lemma TargetIsPositive(lines: seq<string>, maxChunks: nat, maxTokens: nat)
    requires maxChunks > 0 && maxTokens > 0
    ensures TargetTokens(lines, maxChunks, maxTokens) >= maxTokens
  {
  }

  // Packing that stops with room for another chunk leaves words out exactly if it got stuck.
  lemma StopsStuck(lines: seq<string>, target: nat, maxChunks: nat, chunks: seq<LineChunk>)
    requires target > 0 && |chunks| < maxChunks && Packed(lines, target, chunks)
        && Exhausted(lines, target, maxChunks, chunks)
    ensures var at := Cut(chunks, |chunks|);
            at <= |lines| && (WordCount(lines, at, |lines|) > 0 <==> StuckAt(lines, target, at))
  {
    hide WordCount, TokensOfWords, ChunkText;
    var at := Cut(chunks, |chunks|);
    CutsIncrease(lines, target, chunks, 0, |chunks|);
    if at < |lines| {
      var e: nat :| GreedyEnd(lines, target, at, e) && WordCount(lines, at, e) == 0;
      CountsAdd(lines, at, at, e);
      CountsAdd(lines, at, e, |lines|);
      if e < |lines| {
        CountsAdd(lines, at, e, e + 1);
        assert Tokens(lines, e, e + 1) > target;
      }
    } else {
      CountsAdd(lines, at, at, at);
    }
    if StuckAt(lines, target, at) {
      StuckLeavesWords(lines, target, at);
    }
  }

  // With room for 2T chunks, packing leaves words out exactly if it got stuck.
  lemma PackedCoverageFailsIffStuck(lines: seq<string>, maxChunks: nat, maxTokens: nat, chunks: seq<LineChunk>)
    requires maxChunks > 0 && maxTokens > 0 && |chunks| <= maxChunks
    requires var target := TargetTokens(lines, maxChunks, maxTokens);
             Packed(lines, target, chunks) && Exhausted(lines, target, maxChunks, chunks)
    requires 2 * TargetChunkCount(lines, maxChunks, maxTokens) <= maxChunks
    ensures var at := Cut(chunks, |chunks|);
            && at <= |lines|
            && (WordCount(lines, at, |lines|) > 0 <==> StuckAt(lines, TargetTokens(lines, maxChunks, maxTokens), at))
  {
    hide WordCount, TokensOfWords, ChunkText, TargetTokens, TargetChunkCount;
    var target := TargetTokens(lines, maxChunks, maxTokens);
    TargetIsPositive(lines, maxChunks, maxTokens);
    PackedChunkCountIsBounded(lines, maxChunks, maxTokens, chunks);
    if |chunks| == maxChunks {
      FirstPairsHoldEverything(lines, maxChunks, maxTokens, chunks);
      if StuckAt(lines, target, Cut(chunks, |chunks|)) {
        StuckLeavesWords(lines, target, Cut(chunks, |chunks|));
      }
    } else {
      StopsStuck(lines, target, maxChunks, chunks);
    }
  }

  lemma StuckLeavesWords(lines: seq<string>, target: nat, at: nat)
    requires StuckAt(lines, target, at)
    ensures at <= |lines| && WordCount(lines, at, |lines|) > 0
  {
    hide WordCount, Tokens;
    var e: nat :| at < e < |lines| && WordCount(lines, at, e) == 0 && Tokens(lines, e, e + 1) > target;
    CountsAdd(lines, at, e, e + 1);
    CountsAdd(lines, at, e, |lines|);
    CountsAdd(lines, e, e + 1, |lines|);
  }

  predicate OversizedAfterBlank(lines: seq<string>, target: nat, i: nat) {
    0 < i < |lines| && WordCount(lines, i - 1, i) == 0 && Tokens(lines, i, i + 1) > target
  }

  // If no oversized line directly follows a blank one, no words are left out.
  lemma PackedEveryNonBlankLineIsCovered(lines: seq<string>, maxChunks: nat, maxTokens: nat, chunks: seq<LineChunk>)
    requires maxChunks > 0 && maxTokens > 0 && |chunks| <= maxChunks
    requires var target := TargetTokens(lines, maxChunks, maxTokens);
             Packed(lines, target, chunks) && Exhausted(lines, target, maxChunks, chunks)
    requires 2 * TargetChunkCount(lines, maxChunks, maxTokens) <= maxChunks
    requires forall i :: !OversizedAfterBlank(lines, TargetTokens(lines, maxChunks, maxTokens), i)
    ensures var at := Cut(chunks, |chunks|); at <= |lines| && WordCount(lines, at, |lines|) == 0
  {
    hide WordCount, Tokens, TargetTokens, TargetChunkCount;
    var target := TargetTokens(lines, maxChunks, maxTokens);
    var at := Cut(chunks, |chunks|);
    PackedCoverageFailsIffStuck(lines, maxChunks, maxTokens, chunks);
    if StuckAt(lines, target, at) {
      var i := StuckMeansOversizedAfterBlank(lines, target, at);
    }
  }

  lemma StuckMeansOversizedAfterBlank(lines: seq<string>, target: nat, at: nat) returns (i: nat)
    requires StuckAt(lines, target, at)
    ensures OversizedAfterBlank(lines, target, i)
  {
    hide WordCount, Tokens;
    i :| at < i < |lines| && WordCount(lines, at, i) == 0 && Tokens(lines, i, i + 1) > target;
    CountsAdd(lines, at, i - 1, i);
  }

  // ---- the packer's guarantees ----

  /** The packer emits at most min(maxChunks, 2T) chunks, T being its target chunk count. */
  lemma ChunkCountIsBounded(content: string, maxChunks: nat, maxTokens: nat)
    requires maxChunks > 0 && maxTokens > 0
    ensures |FallbackChunks(content, maxChunks, maxTokens)|
            <= Min(maxChunks, 2 * TargetChunkCount(SplitLines(content), maxChunks, maxTokens))
  {
    hide *;
    FallbackChunksAreGreedy(content, maxChunks, maxTokens);
    PackedChunkCountIsBounded(SplitLines(content), maxChunks, maxTokens, FallbackChunks(content, maxChunks, maxTokens));
  }

  /** A document whose tokens fit into k full chunks is packed into at most 2k, and never into more
      than maxChunks. */
  lemma ChunkCountFollowsTheTokens(content: string, maxChunks: nat, maxTokens: nat, k: nat)
    requires maxChunks > 0 && maxTokens > 0 && k >= 1 && CountTokens(content) <= k * maxTokens
    ensures |FallbackChunks(content, maxChunks, maxTokens)| <= Min(maxChunks, 2 * k)
  {
    hide FallbackChunks, CountTokens, CeilDiv, Tokens;
    ChunkCountIsBounded(content, maxChunks, maxTokens);
    ContentTokens(content);
    Times(k, 1, maxTokens);
    CeilDivIsLeast(TotalTokens(SplitLines(content)), maxTokens, k);
  }

  lemma CeilDivIsAtMost(a: nat, b: nat, q: nat)
    requires b > 0
    ensures CeilDiv(a, b) <= q <==> a <= q * b
  {
    hide CeilDiv;
    CeilDivCovers(a, b);
    if a <= q * b {
      CeilDivIsLeast(a, b, q);
    } else if CeilDiv(a, b) <= q {
      Times(q, CeilDiv(a, b), b);
    }
  }

  // With fewer than maxChunks chunks the configured size is enough.
  lemma FewChunks(total: nat, maxChunks: nat, maxTokens: nat, target: nat)
    requires maxTokens > 0 && total > 0 && CeilDiv(total, maxTokens) < maxChunks
    ensures CeilDiv(total, CeilDiv(total, maxTokens)) <= maxTokens
    ensures maxTokens <= target ==> total <= target * maxChunks
  {
    hide CeilDiv;
    var t := CeilDiv(total, maxTokens);
    CeilDivCovers(total, maxTokens);
    CeilDivIsLeast(total, t, maxTokens);
    if maxTokens <= target {
      Times(maxChunks, t, maxTokens);
      Times(target, maxTokens, maxChunks);
    }
  }

  lemma TargetOfTotal(total: nat, maxChunks: nat, maxTokens: nat, target: nat)
    requires maxChunks > 0 && maxTokens > 0 && total > 0
    ensures Max(maxTokens, CeilDiv(total, Min(maxChunks, Max(1, CeilDiv(total, maxTokens))))) <= target
        <==> maxTokens <= target && total <= target * maxChunks
  {
    hide CeilDiv;
    CeilDivCovers(total, maxTokens);
    if CeilDiv(total, maxTokens) < maxChunks {
      FewChunks(total, maxChunks, maxTokens, target);
    } else {
      CeilDivIsAtMost(total, maxChunks, target);
    }
  }

  /** The target of a chunk is the least number of tokens, at or above the configured one, at which
      maxChunks chunks have room for the whole document. */
  lemma TargetIsLeast(content: string, maxChunks: nat, maxTokens: nat, target: nat)
    requires maxChunks > 0 && maxTokens > 0
    ensures TargetTokens(SplitLines(content), maxChunks, maxTokens) <= target
        <==> maxTokens <= target && CountTokens(content) <= target * maxChunks
  {
    hide CountTokens, CeilDiv, Tokens, SplitLines;
    ContentTokens(content);
    TargetOfTotal(TotalTokens(SplitLines(content)), maxChunks, maxTokens, target);
    if maxTokens <= target {
      Times(target, 1, maxChunks);
    }
  }

  /** Each chunk is the text of its lines, joined by newlines and stripped; a chunk of two or more
      lines holds no more tokens than the target, and one that is not the document's last is at the
      target or would pass it with its next line. */
  lemma ChunksAreTheirLines(content: string, maxChunks: nat, maxTokens: nat, k: nat)
    requires maxChunks > 0 && maxTokens > 0 && k < |FallbackChunks(content, maxChunks, maxTokens)|
    ensures var lines, c := SplitLines(content), FallbackChunks(content, maxChunks, maxTokens)[k];
            var target := TargetTokens(lines, maxChunks, maxTokens);
            && 1 <= c.startLine <= c.endLine <= |lines|
            && c.text == Strip(Join(lines[c.startLine - 1..c.endLine], '\n')) && c.text != ""
            && (c.startLine < c.endLine ==> CountTokens(c.text) <= target)
            && (CountTokens(c.text) >= target || c.endLine == |lines|
                || CountTokens(Join(lines[c.startLine - 1..c.endLine + 1], '\n')) > target)
  {
    hide WordCount, TargetTokens, FallbackChunks, TokensOfWords, CountTokens, Tokens, Strip, Join, SplitLines;
    hide Exhausted;
    var lines, chunks := SplitLines(content), FallbackChunks(content, maxChunks, maxTokens);
    FallbackChunksAreGreedy(content, maxChunks, maxTokens);
    assert PackedAt(lines, TargetTokens(lines, maxChunks, maxTokens), chunks, k);
    var a, e := Cut(chunks, k), chunks[k].endLine;
    ChunkTextCounts(lines, a, e);
    if e < |lines| {
      JoinedTokens(lines, a, e + 1);
    }
    if a + 1 < e {
      assert Grows(lines, TargetTokens(lines, maxChunks, maxTokens), a, e - 1);
    }
  }

  lemma JoinedTokens(lines: seq<string>, a: nat, b: nat)
    requires a <= b <= |lines|
    ensures CountTokens(Join(lines[a..b], '\n')) == Tokens(lines, a, b)
  {
    WordsOfJoinedLines(lines[a..b], '\n');
  }

  /** The chunks partition a prefix of the lines: line x (counted from 1) is in a chunk exactly if
      it is in the prefix, and then in only one, and the chunks' words are the prefix's words. */
  lemma ChunksPartitionAPrefix(content: string, maxChunks: nat, maxTokens: nat, x: nat)
    requires maxChunks > 0 && maxTokens > 0
    ensures var lines, chunks := SplitLines(content), FallbackChunks(content, maxChunks, maxTokens);
            var at := Cut(chunks, |chunks|);
            && at <= |lines|
            && (1 <= x <= at <==> exists k :: 0 <= k < |chunks| && InChunk(chunks[k], x))
            && (forall i, k :: 0 <= i < k < |chunks| && InChunk(chunks[i], x) ==> !InChunk(chunks[k], x))
            && ChunkWords(chunks) == AllWords(lines[..at])
  {
    hide *;
    FallbackChunksAreGreedy(content, maxChunks, maxTokens);
    var lines := SplitLines(content);
    PackedChunksPartitionAPrefix(lines, TargetTokens(lines, maxChunks, maxTokens),
        FallbackChunks(content, maxChunks, maxTokens), x);
  }

  // The chunks leave out a line that is not blank.
  predicate LeavesTextOut(content: string, chunks: seq<LineChunk>) {
    var lines, at := SplitLines(content), Cut(chunks, |chunks|);
    at <= |lines| && WordCount(lines, at, |lines|) > 0
  }

  // Where the k-th greedy stretch of the lines starts, blank or not.
  function Boundary(lines: seq<string>, target: nat, k: nat): (at: nat)
    ensures at <= |lines|
  {
    if k == 0 then 0
    else
      var a := Boundary(lines, target, k - 1);
      GrowEnd(lines, target, a, a)
  }

  // Some greedy stretch of the lines is blank and followed by an oversized line.
  ghost predicate Sticks(lines: seq<string>, target: nat) {
    exists k: nat :: StuckAt(lines, target, Boundary(lines, target, k))
  }

  lemma {:induction false} BoundariesAscend(lines: seq<string>, target: nat, i: nat, k: nat)
    requires i <= k
    ensures Boundary(lines, target, i) <= Boundary(lines, target, k)
  {
    if i < k {
      hide GrowEnd;
      BoundariesAscend(lines, target, i, k - 1);
    }
  }

  ghost predicate AtBoundaries(lines: seq<string>, target: nat, chunks: seq<LineChunk>) {
    forall k: nat | k <= |chunks| :: Cut(chunks, k) == Boundary(lines, target, k)
  }

  lemma {:induction false} ChunksStartAtBoundaries(lines: seq<string>, target: nat, maxChunks: nat,
          chunks: seq<LineChunk>)
    requires Cut(chunks, |chunks|) <= |lines| && AtBoundaries(lines, target, chunks)
    ensures AtBoundaries(lines, target, PackFrom(lines, target, maxChunks, chunks))
    decreases |lines| - Cut(chunks, |chunks|)
  {
    hide GrowEnd, ChunkText;
    var at := Cut(chunks, |chunks|);
    if at < |lines| && |chunks| < maxChunks {
      var e := GrowEnd(lines, target, at, at);
      if ChunkText(lines, at, e) != "" {
        var more := chunks + [LineChunk(ChunkText(lines, at, e), at + 1, e)];
        forall k: nat | k <= |more|
          ensures Cut(more, k) == Boundary(lines, target, k)
        {
          if k <= |chunks| {
            assert Cut(more, k) == Cut(chunks, k);
          }
        }
        ChunksStartAtBoundaries(lines, target, maxChunks, more);
      }
    }
  }

  // A stretch that became a chunk is neither blank nor reaches past an oversized line.
  lemma ChunksDoNotStick(lines: seq<string>, target: nat, chunks: seq<LineChunk>, k: nat)
    requires Packed(lines, target, chunks) && k < |chunks|
    ensures !StuckAt(lines, target, Cut(chunks, k))
  {
    hide WordCount, ChunkText, TokensOfWords;
    assert PackedAt(lines, target, chunks, k);
    var a, end := Cut(chunks, k), chunks[k].endLine;
    forall e | a < e < |lines| && WordCount(lines, a, e) == 0
      ensures Tokens(lines, e, e + 1) <= target
    {
      if end <= e {
        CountsAdd(lines, a, end, e);
      } else {
        assert Grows(lines, target, a, e);
        CountsAdd(lines, a, e, e + 1);
      }
    }
  }

  // Words after a later boundary are words after the last chunk.
  lemma LaterWordsAreLeftOut(lines: seq<string>, target: nat, i: nat, k: nat)
    requires i <= k && WordCount(lines, Boundary(lines, target, k), |lines|) > 0
    ensures WordCount(lines, Boundary(lines, target, i), |lines|) > 0
  {
    hide WordCount, Boundary;
    BoundariesAscend(lines, target, i, k);
    CountsAdd(lines, Boundary(lines, target, i), Boundary(lines, target, k), |lines|);
  }

  lemma PackedLeavesOutIff(lines: seq<string>, target: nat, maxChunks: nat, chunks: seq<LineChunk>)
    requires target > 0 && |chunks| <= maxChunks && AtBoundaries(lines, target, chunks)
    requires Packed(lines, target, chunks) && Exhausted(lines, target, maxChunks, chunks)
    ensures WordCount(lines, Boundary(lines, target, |chunks|), |lines|) > 0
            <==> Sticks(lines, target) || WordCount(lines, Boundary(lines, target, maxChunks), |lines|) > 0
  {
    hide WordCount, Boundary, Packed, Exhausted, StuckAt, Cut;
    var n := |chunks|;
    assert Cut(chunks, n) == Boundary(lines, target, n);
    if n < maxChunks {
      StopsStuck(lines, target, maxChunks, chunks);
    }
    if k: nat :| StuckAt(lines, target, Boundary(lines, target, k)) {
      StuckBehindTheChunks(lines, target, chunks, k);
      StuckLeavesWords(lines, target, Boundary(lines, target, k));
      LaterWordsAreLeftOut(lines, target, n, k);
    }
    if WordCount(lines, Boundary(lines, target, maxChunks), |lines|) > 0 {
      LaterWordsAreLeftOut(lines, target, n, maxChunks);
    }
  }

  lemma StuckBehindTheChunks(lines: seq<string>, target: nat, chunks: seq<LineChunk>, k: nat)
    requires Packed(lines, target, chunks) && AtBoundaries(lines, target, chunks)
    requires StuckAt(lines, target, Boundary(lines, target, k))
    ensures k >= |chunks|
  {
    hide Packed, StuckAt, Boundary, Cut;
    if k < |chunks| {
      assert Cut(chunks, k) == Boundary(lines, target, k);
      ChunksDoNotStick(lines, target, chunks, k);
    }
  }

  /** A non-blank line is left out if and only if some greedy stretch of the lines, counted from the
      first line on, is blank and followed by an oversized line, or the first maxChunks stretches do
      not reach all words. With room for 2T chunks the first of these decides alone. */
  lemma CoverageFailsIffStuck(content: string, maxChunks: nat, maxTokens: nat)
    requires maxChunks > 0 && maxTokens > 0
    ensures var lines := SplitLines(content);
            var target := TargetTokens(lines, maxChunks, maxTokens);
            && (LeavesTextOut(content, FallbackChunks(content, maxChunks, maxTokens))
                <==> Sticks(lines, target) || WordCount(lines, Boundary(lines, target, maxChunks), |lines|) > 0)
            && (2 * TargetChunkCount(lines, maxChunks, maxTokens) <= maxChunks ==>
                  (LeavesTextOut(content, FallbackChunks(content, maxChunks, maxTokens)) <==> Sticks(lines, target)))
  {
    hide WordCount, Tokens, Packed, Exhausted, TargetTokens, TargetChunkCount, StuckAt, Boundary;
    var lines, chunks := SplitLines(content), FallbackChunks(content, maxChunks, maxTokens);
    var target := TargetTokens(lines, maxChunks, maxTokens);
    FallbackChunksAreGreedy(content, maxChunks, maxTokens);
    TargetIsPositive(lines, maxChunks, maxTokens);
    FirstBoundary(lines, target);
    ChunksStartAtBoundaries(lines, target, maxChunks, []);
    assert Cut(chunks, |chunks|) == Boundary(lines, target, |chunks|);
    PackedLeavesOutIff(lines, target, maxChunks, chunks);
    if 2 * TargetChunkCount(lines, maxChunks, maxTokens) <= maxChunks {
      PackedCoverageFailsIffStuck(lines, maxChunks, maxTokens, chunks);
    }
  }

  lemma FirstBoundary(lines: seq<string>, target: nat)
    ensures AtBoundaries(lines, target, [])
  {
  }

  ghost predicate NoOversizedAfterBlank(lines: seq<string>, target: nat) {
    forall i :: !OversizedAfterBlank(lines, target, i)
  }

  /** A condition on the document alone: if no oversized line directly follows a blank one, every
      non-blank line is covered. In particular this holds when no line is oversized. */
  lemma EveryNonBlankLineIsCovered(content: string, maxChunks: nat, maxTokens: nat)
    requires maxChunks > 0 && maxTokens > 0
    requires 2 * TargetChunkCount(SplitLines(content), maxChunks, maxTokens) <= maxChunks
    requires NoOversizedAfterBlank(SplitLines(content), TargetTokens(SplitLines(content), maxChunks, maxTokens))
    ensures !LeavesTextOut(content, FallbackChunks(content, maxChunks, maxTokens))
  {
    hide WordCount, Tokens, Packed, Exhausted, TargetTokens, TargetChunkCount, FallbackChunks, OversizedAfterBlank;
    FallbackChunksAreGreedy(content, maxChunks, maxTokens);
    PackedEveryNonBlankLineIsCovered(SplitLines(content), maxChunks, maxTokens,
        FallbackChunks(content, maxChunks, maxTokens));
  }

  lemma {:induction false} PackFromKeeps(lines: seq<string>, target: nat, maxChunks: nat, chunks: seq<LineChunk>)
    requires Cut(chunks, |chunks|) <= |lines|
    ensures |PackFrom(lines, target, maxChunks, chunks)| >= |chunks|
    decreases |lines| - Cut(chunks, |chunks|)
  {
    hide GrowEnd, ChunkText;
    var at := Cut(chunks, |chunks|);
    if at < |lines| && |chunks| < maxChunks {
      var e := GrowEnd(lines, target, at, at);
      if ChunkText(lines, at, e) != "" {
        PackFromKeeps(lines, target, maxChunks, chunks + [LineChunk(ChunkText(lines, at, e), at + 1, e)]);
      }
    }
  }

  /** A document is packed into no chunk at all if and only if its first greedy stretch is blank. */
  lemma NoChunksIff(content: string, maxChunks: nat, maxTokens: nat)
    requires maxChunks > 0 && maxTokens > 0
    ensures var lines := SplitLines(content);
            FallbackChunks(content, maxChunks, maxTokens) == []
            <==> WordCount(lines, 0, Boundary(lines, TargetTokens(lines, maxChunks, maxTokens), 1)) == 0
  {
    hide WordCount, Tokens, GrowEnd, ChunkText, TargetTokens, Boundary;
    var lines, target := SplitLines(content), TargetTokens(SplitLines(content), maxChunks, maxTokens);
    var e := GrowEnd(lines, target, 0, 0);
    FirstStretch(lines, target);
    if lines == [] {
      CountsAdd(lines, 0, 0, 0);
    } else {
      ChunkTextCounts(lines, 0, e);
      if ChunkText(lines, 0, e) != "" {
        PackFromKeeps(lines, target, maxChunks, [LineChunk(ChunkText(lines, 0, e), 1, e)]);
        assert [] + [LineChunk(ChunkText(lines, 0, e), 1, e)] == [LineChunk(ChunkText(lines, 0, e), 1, e)];
      }
    }
  }

  lemma FirstStretch(lines: seq<string>, target: nat)
    ensures Boundary(lines, target, 1) == GrowEnd(lines, target, 0, 0)
  {
  }

  // The target of a document of n tokens in two lines, when n is over the chunk limit.
  lemma TargetIsBelowTotal(lines: seq<string>, maxChunks: nat, maxTokens: nat)
    requires maxChunks >= 2 && maxTokens >= 1 && Tokens(lines, 0, |lines|) > maxTokens
    ensures 0 < TargetTokens(lines, maxChunks, maxTokens) < Tokens(lines, 0, |lines|)
  {
    hide Tokens, CeilDiv;
    var n := Tokens(lines, 0, |lines|);
    CeilDivCovers(n, maxTokens);
    var q := CeilDiv(n, maxTokens);
    if q <= 1 {
      Times(1, q, maxTokens);
    }
    var t := TargetChunkCount(lines, maxChunks, maxTokens);
    Times(t, 2, n - 1);
    CeilDivIsLeast(n, t, n - 1);
  }

  lemma CountsOfTwoLines(line: string)
    ensures var lines := ["", line];
            && WordCount(lines, 0, 1) == 0 && WordCount(lines, 0, 2) == |Words(line)|
            && Tokens(lines, 0, 1) == 0 && Tokens(lines, 0, 2) == CountTokens(line)
  {
    var lines := ["", line];
    assert lines[0..1] == [""] && lines[1..2] == [line] && lines[0..2] == lines;
    assert AllWords([""]) == Words("") + AllWords([]);
    assert AllWords([line]) == Words(line) + AllWords([]);
    CountsAdd(lines, 0, 1, 2);
  }

  lemma LinesAfterBlank(line: string)
    requires line != "" && forall i | 0 <= i < |line| :: !IsLineBreak(line[i])
    ensures SplitLines("\n" + line) == ["", line]
  {
    var s := "\n" + line;
    assert IsLineBreak('\n') && LineLength(s) == 0 && s[1..] == line && s[..0] == "";
    NoBreak(line);
    assert SplitLines(line) == [line];
  }

  /** Without that condition text is lost: a blank line before an oversized one stops the packer at
      once, and a document with any amount of text is packed into no chunk at all. */
  lemma BlankThenOversizedLosesText(line: string, maxChunks: nat, maxTokens: nat)
    requires line != "" && forall i | 0 <= i < |line| :: !IsLineBreak(line[i])
    requires maxChunks >= 2 && maxTokens >= 1 && CountTokens(line) > maxTokens
    ensures FallbackChunks("\n" + line, maxChunks, maxTokens) == [] && LeavesTextOut("\n" + line, [])
  {
    hide IsLineBreak, WordCount, Tokens, TargetTokens, TargetChunkCount, CeilDiv, FallbackChunks, TokensOfWords;
    var lines := ["", line];
    var target := TargetTokens(lines, maxChunks, maxTokens);
    LinesAfterBlank(line);
    CountsOfTwoLines(line);
    TargetIsBelowTotal(lines, maxChunks, maxTokens);
    assert GrowEnd(lines, target, 0, 1) == 1;
    FirstStretch(lines, target);
    NoChunksIff("\n" + line, maxChunks, maxTokens);
    CountsAdd(lines, 0, 0, 2);
    NoTokens();
  }

  lemma NoTokens()
    ensures forall text: string :: CountTokens(text) > 0 ==> |Words(text)| > 0
  {
  }

  lemma {:induction false} NoBreak(s: string)
    requires forall i | 0 <= i < |s| :: !IsLineBreak(s[i])
    ensures LineLength(s) == |s|
  {
    if s != "" {
      NoBreak(s[1..]);
    }
  }
}
