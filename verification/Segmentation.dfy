/** Splitting over-long texts, from incidentops/ingestion/chunking/chunker.py, and the segment
    estimate of incidentops/ingestion/indexer.py. The factor 1.3 is the rational 13/10. */
module Segmentation {
  import opened Prelude
  import opened Text

  const OVERLAP_TOKENS: nat := 50

  // int(tokens / 1.3): the most words that stay within the tokens.
  function WordsOfTokens(tokens: nat): (words: nat)
    ensures 13 * words <= 10 * tokens < 13 * (words + 1)
  {
    10 * tokens / 13
  }

  function CeilDiv(a: nat, b: nat): nat
    requires b > 0
  {
    (a + b - 1) / b
  }

  // The quotient is the least multiple that covers a.
  lemma CeilDivCovers(a: nat, b: nat)
    requires b > 0
    ensures CeilDiv(a, b) * b >= a
    ensures a > 0 ==> CeilDiv(a, b) > 0 && (CeilDiv(a, b) - 1) * b < a
  {
    var q, r := (a + b - 1) / b, (a + b - 1) % b;
    assert a + b - 1 == q * b + r;
    if a > 0 {
      assert q > 0 by {
        assert q * b >= a > 0;
      }
      assert (q - 1) * b == q * b - b;
    }
  }

  lemma CeilDivIsLeast(a: nat, b: nat, q: nat)
    requires b > 0 && q * b >= a
    ensures CeilDiv(a, b) <= q
  {
    CeilDivCovers(a, b);
    if CeilDiv(a, b) > q {
      assert (CeilDiv(a, b) - 1) * b >= q * b by {
        Times(CeilDiv(a, b) - 1, q, b);
      }
      assert false;
    }
  }

  lemma Times(x: int, y: int, b: nat)
    requires x >= y
    ensures x * b >= y * b
  {
    assert (x - y) * b >= 0;
  }

  function Piece(words: seq<string>, maxWords: nat, stride: nat, i: nat): seq<string>
    requires i * stride <= |words|
  {
    words[i * stride..Min(|words|, i * stride + maxWords)]
  }

  /** split_text_by_tokens. The loop needs a positive stride: with an overlap at least as long as
      a piece its start never moves (see LoopExitsIffStridePositive). */
  method SplitTextByTokens(text: string, maxTokens: nat, overlapTokens: nat) returns (chunks: seq<string>)
    requires |Words(text)| > WordsOfTokens(maxTokens) ==> WordsOfTokens(maxTokens) > WordsOfTokens(overlapTokens)
    ensures chunks == Split(text, maxTokens, overlapTokens)
  {
    hide Words, WordsOfTokens, CeilDiv, Join;
    var words := Words(text);
    var maxWords := WordsOfTokens(maxTokens);
    var overlapWords := WordsOfTokens(overlapTokens);
    if |words| <= maxWords {
      return [text];
    }
    chunks := [];
    var start := 0;
    ghost var stride := maxWords - overlapWords;
    ghost var total := CeilDiv(|words|, stride);
    CeilDivCovers(|words|, stride);
    while start < |words|
      invariant start == |chunks| * stride && |chunks| <= total
      invariant forall i | 0 <= i < |chunks| ::
                  i * stride <= |words| && chunks[i] == Join(Piece(words, maxWords, stride, i), ' ')
      decreases |words| - start
    {
      var end := start + maxWords;
      if |chunks| >= total {
        Times(|chunks|, total, stride);
      }
      chunks := chunks + [Join(words[start..if end <= |words| then end else |words|], ' ')];
      assert (|chunks| - 1) * stride + stride == |chunks| * stride;
      start := end - overlapWords;
    }
    CeilDivIsLeast(|words|, stride, |chunks|);
    assert chunks == Split(text, maxTokens, overlapTokens);
  }

  // The pieces by index: piece i starts at word i * stride.
  function Split(text: string, maxTokens: nat, overlapTokens: nat): (chunks: seq<string>)
    requires |Words(text)| > WordsOfTokens(maxTokens) ==> WordsOfTokens(maxTokens) > WordsOfTokens(overlapTokens)
  {
    var words, maxWords := Words(text), WordsOfTokens(maxTokens);
    if |words| <= maxWords then [text]
    else
      var stride := maxWords - WordsOfTokens(overlapTokens);
      seq(CeilDiv(|words|, stride), i requires 0 <= i < CeilDiv(|words|, stride) =>
        PieceStartsInside(|words|, stride, i);
        Join(Piece(words, maxWords, stride, i), ' '))
  }

  lemma PieceStartsInside(n: nat, stride: nat, i: nat)
    requires stride > 0 && i < CeilDiv(n, stride)
    ensures i * stride < n
  {
    CeilDivCovers(n, stride);
    Times(CeilDiv(n, stride) - 1, i, stride);
  }

  // Piece i holds the words from i * stride on, and no more than max_words of them.
  lemma PieceWords(text: string, maxTokens: nat, overlapTokens: nat, i: nat)
    requires |Words(text)| > WordsOfTokens(maxTokens) > WordsOfTokens(overlapTokens)
    requires i < |Split(text, maxTokens, overlapTokens)|
    ensures var stride := WordsOfTokens(maxTokens) - WordsOfTokens(overlapTokens);
            && i * stride < |Words(text)|
            && Words(Split(text, maxTokens, overlapTokens)[i])
                == Piece(Words(text), WordsOfTokens(maxTokens), stride, i)
  {
    var words, maxWords := Words(text), WordsOfTokens(maxTokens);
    var stride := maxWords - WordsOfTokens(overlapTokens);
    PieceStartsInside(|words|, stride, i);
    var piece := Piece(words, maxWords, stride, i);
    assert forall w | w in piece :: w in words;
    WordsOfJoinedWords(piece, ' ');
  }

  lemma TokensOfMaxWords(maxTokens: nat, n: nat)
    requires n <= WordsOfTokens(maxTokens)
    ensures TokensOfWords(n) <= maxTokens
  {
  }

  /** Every piece of an over-long text is non-empty and within the token limit. */
  lemma PiecesAreBounded(text: string, maxTokens: nat, overlapTokens: nat, i: nat)
    requires |Words(text)| > WordsOfTokens(maxTokens) > WordsOfTokens(overlapTokens)
    requires i < |Split(text, maxTokens, overlapTokens)|
    ensures var piece := Split(text, maxTokens, overlapTokens)[i];
            Words(piece) != [] && |Words(piece)| <= WordsOfTokens(maxTokens) && CountTokens(piece) <= maxTokens
  {
    hide *;
    PieceWords(text, maxTokens, overlapTokens, i);
    var stride := WordsOfTokens(maxTokens) - WordsOfTokens(overlapTokens);
    PieceLength(Words(text), WordsOfTokens(maxTokens), stride, i);
    TokensOfMaxWords(maxTokens, |Words(Split(text, maxTokens, overlapTokens)[i])|);
    TokenCount(Split(text, maxTokens, overlapTokens)[i]);
  }

  lemma TokenCount(text: string)
    ensures CountTokens(text) == TokensOfWords(|Words(text)|)
  {
  }

  lemma PieceLength(words: seq<string>, maxWords: nat, stride: nat, i: nat)
    requires maxWords > 0 && i * stride < |words|
    ensures 0 < |Piece(words, maxWords, stride, i)| <= maxWords
  {
  }

  // The word sequence of the first k pieces, dropping from each later piece the words its
  // predecessor already held.
  function Reassembled(pieces: seq<string>, overlapWords: nat, k: nat): seq<string>
    requires k <= |pieces|
  {
    if k == 0 then []
    else if k == 1 then Words(pieces[0])
    else
      var w := Words(pieces[k - 1]);
      Reassembled(pieces, overlapWords, k - 1) + w[Min(overlapWords, |w|)..]
  }

  // How many words the first k pieces cover.
  function Covered(n: nat, stride: nat, overlap: nat, k: nat): nat {
    Min(n, k * stride + overlap)
  }

  predicate TiledAt(pieces: seq<string>, words: seq<string>, stride: nat, overlap: nat, i: nat) {
    i < |pieces| && i * stride < |words| && Words(pieces[i]) == Piece(words, stride + overlap, stride, i)
  }

  lemma {:induction false} ReassembledPrefix(pieces: seq<string>, words: seq<string>, stride: nat, overlap: nat, k: nat)
    requires 1 <= k <= |pieces|
    requires forall i: nat | i < |pieces| :: TiledAt(pieces, words, stride, overlap, i)
    ensures Reassembled(pieces, overlap, k) == words[..Covered(|words|, stride, overlap, k)]
  {
    hide *;
    TiledWords(pieces, words, stride, overlap, k);
    if k == 1 {
      ReassembledOne(pieces, overlap);
      assert words[0..] == words;
    } else {
      ReassembledPrefix(pieces, words, stride, overlap, k - 1);
      ReassembledStep(pieces, overlap, k);
      Splice(words, overlap, stride, k);
    }
  }

  lemma ReassembledOne(pieces: seq<string>, overlap: nat)
    requires pieces != []
    ensures Reassembled(pieces, overlap, 1) == Words(pieces[0])
  {
  }

  lemma ReassembledStep(pieces: seq<string>, overlap: nat, k: nat)
    requires 1 < k <= |pieces|
    ensures var w := Words(pieces[k - 1]);
            Reassembled(pieces, overlap, k) == Reassembled(pieces, overlap, k - 1)
                + (if overlap <= |w| then w[overlap..] else [])
  {
  }

  lemma TiledWords(pieces: seq<string>, words: seq<string>, stride: nat, overlap: nat, k: nat)
    requires k >= 1 && TiledAt(pieces, words, stride, overlap, k - 1)
    ensures (k - 1) * stride <= Covered(|words|, stride, overlap, k) <= |words|
    ensures Words(pieces[k - 1]) == words[(k - 1) * stride..Covered(|words|, stride, overlap, k)]
    ensures k == 1 ==> (k - 1) * stride == 0
  {
    assert (k - 1) * stride + stride == k * stride;
  }

  // Two overlapping stretches of a sequence, the overlap taken once.
  lemma Splice(words: seq<string>, overlap: nat, stride: nat, k: nat)
    requires k >= 1 && (k - 1) * stride <= Covered(|words|, stride, overlap, k) <= |words|
    ensures var w := words[(k - 1) * stride..Covered(|words|, stride, overlap, k)];
            && Covered(|words|, stride, overlap, k - 1) <= |words|
            && words[..Covered(|words|, stride, overlap, k - 1)] + (if overlap <= |w| then w[overlap..] else [])
               == words[..Covered(|words|, stride, overlap, k)]
  {
    var start := (k - 1) * stride;
    assert start + stride == k * stride;
    SpliceAt(words, overlap, start, stride);
  }

  lemma SpliceAt(words: seq<string>, overlap: nat, start: nat, stride: nat)
    requires start <= |words|
    ensures var w := words[start..Min(|words|, start + stride + overlap)];
            words[..Min(|words|, start + overlap)] + (if overlap <= |w| then w[overlap..] else [])
            == words[..Min(|words|, start + stride + overlap)]
  {
  }

  /** Splitting loses and reorders nothing: dropping the overlaps gives back the words. */
  lemma SplitReassembles(text: string, maxTokens: nat, overlapTokens: nat)
    requires |Words(text)| > WordsOfTokens(maxTokens) > WordsOfTokens(overlapTokens)
    ensures var pieces := Split(text, maxTokens, overlapTokens);
            Reassembled(pieces, WordsOfTokens(overlapTokens), |pieces|) == Words(text)
    ensures |Split(text, maxTokens, overlapTokens)|
        == CeilDiv(|Words(text)|, WordsOfTokens(maxTokens) - WordsOfTokens(overlapTokens))
  {
    hide *;
    var words, overlap := Words(text), WordsOfTokens(overlapTokens);
    var stride: nat := WordsOfTokens(maxTokens) - overlap;
    var pieces := Split(text, maxTokens, overlapTokens);
    SplitCount(text, maxTokens, overlapTokens);
    forall i: nat | i < |pieces|
      ensures TiledAt(pieces, words, stride, overlap, i)
    {
      SplitIsTiled(text, maxTokens, overlapTokens, i);
    }
    ReassembledPrefix(pieces, words, stride, overlap, |pieces|);
    assert words[..|words|] == words;
  }

  lemma SplitCount(text: string, maxTokens: nat, overlapTokens: nat)
    requires |Words(text)| > WordsOfTokens(maxTokens) > WordsOfTokens(overlapTokens)
    ensures var overlap := WordsOfTokens(overlapTokens);
            var stride := WordsOfTokens(maxTokens) - overlap;
            var k := |Split(text, maxTokens, overlapTokens)|;
            k == CeilDiv(|Words(text)|, stride) && k >= 1 && Covered(|Words(text)|, stride, overlap, k) == |Words(text)|
  {
    CeilDivCovers(|Words(text)|, WordsOfTokens(maxTokens) - WordsOfTokens(overlapTokens));
  }

  lemma SplitIsTiled(text: string, maxTokens: nat, overlapTokens: nat, i: nat)
    requires |Words(text)| > WordsOfTokens(maxTokens) > WordsOfTokens(overlapTokens)
    requires i < |Split(text, maxTokens, overlapTokens)|
    ensures var overlap := WordsOfTokens(overlapTokens);
            TiledAt(Split(text, maxTokens, overlapTokens), Words(text), WordsOfTokens(maxTokens) - overlap, overlap, i)
  {
    PieceWords(text, maxTokens, overlapTokens, i);
  }

  /** The loop over an over-long text ever exits if and only if the stride is positive: after k
      rounds its start is k strides from zero. */
  lemma LoopExitsIffStridePositive(n: nat, maxTokens: nat, overlapTokens: nat)
    requires n > WordsOfTokens(maxTokens)
    ensures (exists k: nat :: StartAfter(k, maxTokens, overlapTokens) >= n)
        <==> WordsOfTokens(maxTokens) > WordsOfTokens(overlapTokens)
  {
    var stride := WordsOfTokens(maxTokens) - WordsOfTokens(overlapTokens);
    if stride > 0 {
      assert n * stride >= n by {
        Times(stride, 1, n);
      }
      StartIsLinear(n, maxTokens, overlapTokens);
    } else {
      forall k: nat
        ensures StartAfter(k, maxTokens, overlapTokens) < n
      {
        StartIsLinear(k, maxTokens, overlapTokens);
        assert k * stride <= 0;
      }
    }
  }

  // `start` after k rounds: each sets end = start + max_words, start = end - overlap_words.
  function StartAfter(k: nat, maxTokens: nat, overlapTokens: nat): int {
    if k == 0 then 0
    else
      var end := StartAfter(k - 1, maxTokens, overlapTokens) + WordsOfTokens(maxTokens);
      end - WordsOfTokens(overlapTokens)
  }

  lemma {:induction false} StartIsLinear(k: nat, maxTokens: nat, overlapTokens: nat)
    ensures StartAfter(k, maxTokens, overlapTokens) == k * (WordsOfTokens(maxTokens) - WordsOfTokens(overlapTokens))
  {
    if k > 0 {
      StartIsLinear(k - 1, maxTokens, overlapTokens);
      var stride := WordsOfTokens(maxTokens) - WordsOfTokens(overlapTokens);
      assert (k - 1) * stride + stride == k * stride;
    }
  }

  // ---- the indexer's use of it ----

  // Splitting makes progress on every text longer than the limit.
  predicate Splittable(maxTokens: nat) {
    WordsOfTokens(maxTokens) > WordsOfTokens(OVERLAP_TOKENS)
  }

  // The texts one parsed chunk is stored as.
  function SubTexts(text: string, maxTokens: nat): seq<string>
    requires Splittable(maxTokens)
  {
    if CountTokens(text) > maxTokens then Split(text, maxTokens, OVERLAP_TOKENS) else [text]
  }

  function AllSubTexts(texts: seq<string>, maxTokens: nat): seq<string>
    requires Splittable(maxTokens)
  {
    if texts == [] then [] else SubTexts(texts[0], maxTokens) + AllSubTexts(texts[1..], maxTokens)
  }

  function EstimateOne(text: string, maxTokens: nat): nat
    requires maxTokens > 0
  {
    Max(1, CeilDiv(Max(1, CountTokens(text)), maxTokens))
  }

  // _estimate_chunk_segments
  function Estimate(texts: seq<string>, maxTokens: nat): nat
    requires maxTokens > 0
  {
    if texts == [] then 0 else EstimateOne(texts[0], maxTokens) + Estimate(texts[1..], maxTokens)
  }

  /** The estimate of one text is the least positive number of pieces that could hold its tokens. */
  lemma EstimateOneIsLeast(text: string, maxTokens: nat, k: nat)
    requires maxTokens > 0
    ensures EstimateOne(text, maxTokens) <= k <==> k >= 1 && CountTokens(text) <= k * maxTokens
  {
    hide CountTokens, CeilDiv;
    var n := Max(1, CountTokens(text));
    CeilDivCovers(n, maxTokens);
    if k >= 1 && CountTokens(text) <= k * maxTokens {
      Times(k, 1, maxTokens);
      CeilDivIsLeast(n, maxTokens, k);
    } else if k >= CeilDiv(n, maxTokens) {
      Times(k, CeilDiv(n, maxTokens), maxTokens);
    }
  }

  /** The estimate of a document is the sum of the estimates of its texts. */
  lemma {:induction false} EstimateAddsUp(texts: seq<string>, text: string, maxTokens: nat)
    requires maxTokens > 0
    ensures Estimate([], maxTokens) == 0
    ensures Estimate(texts + [text], maxTokens) == Estimate(texts, maxTokens) + EstimateOne(text, maxTokens)
  {
    hide EstimateOne;
    if texts == [] {
      assert [] + [text] == [text];
    } else {
      assert (texts + [text])[0] == texts[0] && (texts + [text])[1..] == texts[1..] + [text];
      EstimateAddsUp(texts[1..], text, maxTokens);
    }
  }

  /** A text is stored as it is exactly if it is within the limit; otherwise it is stored as two or
      more pieces. */
  lemma StoredWholeIff(text: string, maxTokens: nat)
    requires Splittable(maxTokens)
    ensures var pieces := SubTexts(text, maxTokens);
            if 13 * |Words(text)| / 10 <= maxTokens then pieces == [text] else |pieces| >= 2
  {
    hide Words, CeilDiv, WordsOfTokens, Split;
    if CountTokens(text) > maxTokens {
      TooManyWords(text, maxTokens);
      SplitCount(text, maxTokens, OVERLAP_TOKENS);
      MoreThanOnePiece(|Words(text)|, WordsOfTokens(maxTokens) - WordsOfTokens(OVERLAP_TOKENS));
    }
  }

  lemma MoreThanOnePiece(n: nat, stride: nat)
    requires 0 < stride < n
    ensures CeilDiv(n, stride) >= 2
  {
    CeilDivCovers(n, stride);
    if CeilDiv(n, stride) <= 1 {
      Times(1, CeilDiv(n, stride), stride);
    }
  }

  /** Neighbouring stored pieces of an over-long text share 38 words: each piece but the first starts
      with the words that follow the first maxWords - 38 words of its predecessor. */
  lemma NeighboursShare38Words(text: string, maxTokens: nat, i: nat)
    requires Splittable(maxTokens) && i + 1 < |SubTexts(text, maxTokens)|
    ensures var pieces := SubTexts(text, maxTokens);
            var before, next, own := Words(pieces[i]), Words(pieces[i + 1]), WordsOfTokens(maxTokens) - 38;
            0 < own < |before| && before[own..] == next[..Min(38, |next|)]
  {
    hide Words, CountTokens, Split;
    assert CountTokens(text) > maxTokens;
    TooManyWords(text, maxTokens);
    PieceWords(text, maxTokens, OVERLAP_TOKENS, i);
    PieceWords(text, maxTokens, OVERLAP_TOKENS, i + 1);
    assert WordsOfTokens(OVERLAP_TOKENS) == 38;
    NextPiece(Words(text), WordsOfTokens(maxTokens), WordsOfTokens(maxTokens) - 38, i);
  }

  lemma TooManyWords(text: string, maxTokens: nat)
    requires CountTokens(text) > maxTokens
    ensures |Words(text)| > WordsOfTokens(maxTokens)
  {
  }

  lemma NextPiece(words: seq<string>, maxWords: nat, stride: nat, i: nat)
    requires 0 < stride < maxWords && (i + 1) * stride < |words|
    ensures i * stride <= |words|
    ensures var before, next := Piece(words, maxWords, stride, i), Piece(words, maxWords, stride, i + 1);
            stride < |before| && before[stride..] == next[..Min(maxWords - stride, |next|)]
  {
    assert i * stride + stride == (i + 1) * stride;
  }

  /** A stored piece of an over-long text is its words with one blank between neighbours. */
  lemma PiecesAreSpacedByBlanks(text: string, maxTokens: nat, i: nat)
    requires Splittable(maxTokens) && CountTokens(text) > maxTokens && i < |SubTexts(text, maxTokens)|
    ensures var piece := SubTexts(text, maxTokens)[i];
            && Words(piece) != [] && |piece| == TotalLength(Words(piece)) + |Words(piece)| - 1
            && forall c | c in piece && IsSpace(c) :: c == ' '
  {
    hide Words, CountTokens, Join, IsSpace, WordsOfTokens;
    TooManyWords(text, maxTokens);
    PiecesAreBounded(text, maxTokens, OVERLAP_TOKENS, i);
    PieceWords(text, maxTokens, OVERLAP_TOKENS, i);
    JoinedLength(Words(SubTexts(text, maxTokens)[i]), ' ');
  }

  // n words in p pieces of at most maxWords words are at most p * maxTokens tokens.
  lemma TokensOfPieces(n: nat, p: nat, maxTokens: nat)
    requires n <= p * WordsOfTokens(maxTokens)
    ensures TokensOfWords(n) <= p * maxTokens
  {
    var maxWords := WordsOfTokens(maxTokens);
    Times(10 * maxTokens, 13 * maxWords, p);
    assert (13 * maxWords) * p == 13 * (p * maxWords) && (10 * maxTokens) * p == 10 * (p * maxTokens);
  }

  lemma EstimateOneIsLowerBound(text: string, maxTokens: nat)
    requires Splittable(maxTokens) && maxTokens > 0
    ensures EstimateOne(text, maxTokens) <= |SubTexts(text, maxTokens)|
  {
    var n, tokens := |Words(text)|, CountTokens(text);
    if tokens <= maxTokens {
      CeilDivIsLeast(Max(1, tokens), maxTokens, 1);
    } else {
      var p := |Split(text, maxTokens, OVERLAP_TOKENS)|;
      SplitCapacity(text, maxTokens);
      TokensOfPieces(n, p, maxTokens);
      CeilDivIsLeast(tokens, maxTokens, p);
    }
  }

  lemma SplitCapacity(text: string, maxTokens: nat)
    requires Splittable(maxTokens) && |Words(text)| > WordsOfTokens(maxTokens)
    ensures |Words(text)| <= |Split(text, maxTokens, OVERLAP_TOKENS)| * WordsOfTokens(maxTokens)
    ensures |Split(text, maxTokens, OVERLAP_TOKENS)| >= 1
  {
    hide *;
    SplittableStride(maxTokens);
    SplitCount(text, maxTokens, OVERLAP_TOKENS);
    WiderPiecesHoldMore(|Words(text)|, WordsOfTokens(maxTokens) - WordsOfTokens(OVERLAP_TOKENS),
        WordsOfTokens(maxTokens));
  }

  lemma SplittableStride(maxTokens: nat)
    ensures Splittable(maxTokens) <==> WordsOfTokens(maxTokens) > WordsOfTokens(OVERLAP_TOKENS)
  {
  }

  lemma WiderPiecesHoldMore(n: nat, stride: nat, width: nat)
    requires 0 < stride <= width
    ensures n <= CeilDiv(n, stride) * width
  {
    CeilDivCovers(n, stride);
    Times(width, stride, CeilDiv(n, stride));
  }

  /** The estimate never exceeds the number of texts the real loop would store. */
  lemma {:induction false} EstimateIsLowerBound(texts: seq<string>, maxTokens: nat)
    requires Splittable(maxTokens) && maxTokens > 0
    ensures Estimate(texts, maxTokens) <= |AllSubTexts(texts, maxTokens)|
  {
    if texts != [] {
      EstimateOneIsLowerBound(texts[0], maxTokens);
      EstimateIsLowerBound(texts[1..], maxTokens);
    }
  }
}
