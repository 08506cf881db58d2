/** What a document leaves in the store when its parsed chunks are too many and the line packer of
    incidentops/ingestion/indexer.py takes their place: all of its words, some of them, or none. */
module FallbackStorage {
  import opened Prelude
  import opened Text
  import opened Segmentation
  import opened FallbackPacker
  import opened BatchIndexing

  // The bounded fallback replaces the parsed chunks of d.
  predicate UsesFallback(env: Env, d: Document)
    requires ValidEnv(env)
  {
    env.parse(d).Ok? && env.parse(d).value != [] && Estimate(env.parse(d).value, env.maxTokens) > env.maxChunks
  }

  function FallbackTexts(env: Env, d: Document): seq<string>
    requires ValidEnv(env)
  {
    ChunkTexts(FallbackChunks(d.content, env.maxChunks, env.maxTokens))
  }

  // The words that the stored pieces of these chunk texts hold, each overlap taken once.
  function StoredWords(raw: seq<string>, maxTokens: nat): seq<string>
    requires Splittable(maxTokens)
  {
    if raw == [] then []
    else
      var pieces := SubTexts(raw[0], maxTokens);
      Reassembled(pieces, WordsOfTokens(OVERLAP_TOKENS), |pieces|) + StoredWords(raw[1..], maxTokens)
  }

  lemma OverLongHasManyWords(text: string, maxTokens: nat)
    ensures CountTokens(text) > maxTokens ==> |Words(text)| > WordsOfTokens(maxTokens)
  {
  }

  // Splitting one chunk text stores all its words, in at least one piece.
  lemma PiecesHoldTheWords(text: string, maxTokens: nat)
    requires Splittable(maxTokens)
    ensures var pieces := SubTexts(text, maxTokens);
            pieces != [] && Reassembled(pieces, WordsOfTokens(OVERLAP_TOKENS), |pieces|) == Words(text)
  {
    hide Words, Split, Reassembled, WordsOfTokens, CountTokens, CeilDiv;
    if CountTokens(text) > maxTokens {
      OverLongHasManyWords(text, maxTokens);
      SplitReassembles(text, maxTokens, OVERLAP_TOKENS);
      SplitCount(text, maxTokens, OVERLAP_TOKENS);
    } else {
      ReassembledOne([text], WordsOfTokens(OVERLAP_TOKENS));
    }
  }

  lemma {:induction false} StoredWordsAreAllWords(raw: seq<string>, maxTokens: nat)
    requires Splittable(maxTokens)
    ensures StoredWords(raw, maxTokens) == AllWords(raw)
    ensures AllSubTexts(raw, maxTokens) == [] <==> raw == []
  {
    if raw != [] {
      hide Words, SubTexts, Reassembled, WordsOfTokens;
      PiecesHoldTheWords(raw[0], maxTokens);
      StoredWordsAreAllWords(raw[1..], maxTokens);
    }
  }

  lemma {:induction false} ChunkTextsHoldTheWords(chunks: seq<LineChunk>)
    ensures AllWords(ChunkTexts(chunks)) == ChunkWords(chunks)
  {
    if chunks != [] {
      hide Words;
      var k := |chunks| - 1;
      ChunkTextsHoldTheWords(chunks[..k]);
      assert ChunkTexts(chunks) == ChunkTexts(chunks[..k]) + [chunks[k].text];
      AllWordsConcat(ChunkTexts(chunks[..k]), [chunks[k].text]);
      assert AllWords([chunks[k].text]) == Words(chunks[k].text) + AllWords([]);
    }
  }

  // The words of the fallback texts are a prefix of the document's, all of them unless text is left out.
  lemma FallbackWords(env: Env, d: Document)
    requires ValidEnv(env)
    ensures AllWords(FallbackTexts(env, d)) <= Words(d.content)
    ensures AllWords(FallbackTexts(env, d)) == Words(d.content)
            <==> !LeavesTextOut(d.content, FallbackChunks(d.content, env.maxChunks, env.maxTokens))
  {
    hide Words, FallbackChunks, ChunkWords, Cut, AllWords, SplitLines, Splittable;
    var lines, chunks := SplitLines(d.content), FallbackChunks(d.content, env.maxChunks, env.maxTokens);
    var at := Cut(chunks, |chunks|);
    ChunkTextsHoldTheWords(chunks);
    ChunksPartitionAPrefix(d.content, env.maxChunks, env.maxTokens, 0);
    WordsOfLines(d.content);
    AllWordsConcat(lines[..at], lines[at..]);
    assert lines[..at] + lines[at..] == lines && lines[at..|lines|] == lines[at..];
  }

  // What is accepted through the fallback is stored as the pieces of the fallback texts.
  lemma FallbackIsStored(env: Env, s: Store, d: Document, f: Faults)
    requires ValidEnv(env) && UsesFallback(env, d)
    requires var r := IndexOne(env, s, d, f).1; r.Ok? && !r.value.Unchanged?
    ensures var t := IndexOne(env, s, d, f).0;
            d.externalId in t.docs && t.docs[d.externalId].texts == AllSubTexts(FallbackTexts(env, d), env.maxTokens)
  {
    hide IndexOne, FallbackChunks, AllSubTexts, Estimate, Splittable;
    OnlyReportedOperationsChangeRows(env, s, d, f);
  }

  /** A document accepted through the fallback is stored with a prefix of its words, and with all of
      them if and only if no greedy stretch of its lines is blank and followed by an oversized line
      and the first maxChunks stretches reach all words. Otherwise the loss is not reported. */
  lemma FallbackStoresAllWordsIff(env: Env, s: Store, d: Document, f: Faults)
    requires ValidEnv(env) && UsesFallback(env, d)
    requires var r := IndexOne(env, s, d, f).1; r.Ok? && !r.value.Unchanged?
    ensures var t, lines := IndexOne(env, s, d, f).0, SplitLines(d.content);
            var target := TargetTokens(lines, env.maxChunks, env.maxTokens);
            var words := StoredWords(FallbackTexts(env, d), env.maxTokens);
            && d.externalId in t.docs && t.docs[d.externalId].texts == AllSubTexts(FallbackTexts(env, d), env.maxTokens)
            && words <= Words(d.content)
            && (words == Words(d.content)
                <==> !Sticks(lines, target) && WordCount(lines, Boundary(lines, target, env.maxChunks), |lines|) == 0)
  {
    hide IndexOne, FallbackTexts, FallbackChunks, AllSubTexts, Estimate, LeavesTextOut, Sticks, Boundary, WordCount;
    hide TargetTokens, Words, SplitLines, StoredWords;
    FallbackIsStored(env, s, d, f);
    FallbackWords(env, d);
    StoredWordsAreAllWords(FallbackTexts(env, d), env.maxTokens);
    CoverageFailsIffStuck(d.content, env.maxChunks, env.maxTokens);
  }

  /** It is stored without any chunk if and only if its first greedy stretch is blank. */
  lemma FallbackStoresNothingIff(env: Env, s: Store, d: Document, f: Faults)
    requires ValidEnv(env) && UsesFallback(env, d)
    requires var r := IndexOne(env, s, d, f).1; r.Ok? && !r.value.Unchanged?
    ensures var t, lines := IndexOne(env, s, d, f).0, SplitLines(d.content);
            var target := TargetTokens(lines, env.maxChunks, env.maxTokens);
            && d.externalId in t.docs
            && (t.docs[d.externalId].texts == [] <==> WordCount(lines, 0, Boundary(lines, target, 1)) == 0)
  {
    hide IndexOne, FallbackChunks, AllSubTexts, Estimate, Boundary, WordCount, TargetTokens, SplitLines, StoredWords;
    FallbackIsStored(env, s, d, f);
    StoredWordsAreAllWords(FallbackTexts(env, d), env.maxTokens);
    NoChunksIff(d.content, env.maxChunks, env.maxTokens);
  }

  lemma LongLineIsOverEstimate(line: string, maxChunks: nat, maxTokens: nat)
    requires maxTokens > 0 && CountTokens(line) > maxChunks * maxTokens
    ensures Estimate([line], maxTokens) > maxChunks
  {
    hide CountTokens, CeilDiv;
    var n := Max(1, CountTokens(line));
    var q := CeilDiv(n, maxTokens);
    CeilDivCovers(n, maxTokens);
    if q <= maxChunks {
      Times(maxChunks, q, maxTokens);
    }
    assert [line][1..] == [];
  }

  /** A blank line before one long line: the document is accepted as created or updated, stored with
      no chunk and without an error, and every later upload of it is skipped as unchanged. */
  lemma FallbackMayStoreNothing(env: Env, s: Store, d: Document, line: string, f: Faults, g: Faults)
    requires ValidEnv(env) && env.maxChunks >= 2 && d.content == "\n" + line && env.parse(d) == Ok([line])
    requires line != "" && (forall i | 0 <= i < |line| :: !IsLineBreak(line[i]))
    requires CountTokens(line) > env.maxChunks * env.maxTokens
    requires d.externalId in s.docs ==> s.docs[d.externalId].hash != d.hash && f.deleteOk
    requires f.databaseOk
    ensures var (t, r) := IndexOne(env, s, d, f);
            && r == Ok(if d.externalId in s.docs then Updated(0) else Created(0))
            && d.externalId in t.docs && t.docs[d.externalId].texts == [] && t.docs[d.externalId].hash == d.hash
            && IndexOne(env, t, d, g) == (t, Ok(Unchanged))
  {
    hide IsLineBreak, CountTokens, Estimate, FallbackChunks, Splittable, AllSubTexts, IndexOne;
    LongLineIsOverEstimate(line, env.maxChunks, env.maxTokens);
    Times(env.maxChunks, 1, env.maxTokens);
    BlankThenOversizedLosesText(line, env.maxChunks, env.maxTokens);
    NoSubTexts(env.maxTokens);
    assert FallbackChunks(d.content, env.maxChunks, env.maxTokens) == [];
    assert ChunkTexts([]) == [];
    assert RawTexts(env, d) == Ok([]);
    EmptyIsAccepted(env, s, d, f, g);
  }

  lemma EmptyIsAccepted(env: Env, s: Store, d: Document, f: Faults, g: Faults)
    requires ValidEnv(env) && Pieces(env, d) == Ok([]) && f.databaseOk
    requires d.externalId in s.docs ==> s.docs[d.externalId].hash != d.hash && f.deleteOk
    ensures var (t, r) := IndexOne(env, s, d, f);
            && r == Ok(if d.externalId in s.docs then Updated(0) else Created(0))
            && d.externalId in t.docs && t.docs[d.externalId].texts == [] && t.docs[d.externalId].hash == d.hash
            && IndexOne(env, t, d, g) == (t, Ok(Unchanged))
  {
    hide Pieces;
  }
}
