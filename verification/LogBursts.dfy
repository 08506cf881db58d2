/** parse_logs and _error_clusters of incidentops/ingestion/parsers/log_parser.py. The pattern that
    recognises an error line is a parameter; it only matches lines that are not blank. */
module LogBursts {
  import opened Prelude
  import opened Text

  const MIN_ERRORS := 2
  const MAX_LINES := 24

  // The lines of a chunk with its first and last line number, counted from 1. For a burst,
  // `errors` and `clusterEnd` are its error_line_count and cluster_end_line.
  datatype Chunk = Chunk(lines: seq<string>, startLine: nat, endLine: nat, errors: nat, clusterEnd: nat)

  predicate BlankLine(line: string) {
    Words(line) == []
  }

  ghost predicate MatchesText(isError: string -> bool) {
    forall line: string :: isError(line) ==> !BlankLine(line)
  }

  // text.split("\n")
  function SplitOn(text: string): (lines: seq<string>)
    ensures lines != []
  {
    if text == "" then [""]
    else
      var rest := SplitOn(text[1..]);
      if text[0] == '\n' then [""] + rest else [[text[0]] + rest[0]] + rest[1..]
  }

  // _build_log_chunk: nothing for a blank text.
  function BuildLogChunk(lines: seq<string>, startLine: nat, endLine: nat): Option<Chunk> {
    if Strip(Join(lines, '\n')) == "" then None else Some(Chunk(lines, startLine, endLine, 0, 0))
  }

  lemma {:induction false} NoWordsInBlankLines(lines: seq<string>)
    ensures AllWords(lines) == [] <==> forall l | l in lines :: BlankLine(l)
  {
    if lines != [] {
      hide Words;
      NoWordsInBlankLines(lines[1..]);
      assert |AllWords(lines)| == |Words(lines[0])| + |AllWords(lines[1..])|;
      assert lines[0] in lines && forall l | l in lines :: l == lines[0] || l in lines[1..];
    }
  }

  /** A chunk is built exactly if one of its lines is not blank. */
  lemma ChunkIffSomeLineIsNotBlank(lines: seq<string>, startLine: nat, endLine: nat)
    ensures BuildLogChunk(lines, startLine, endLine).None? <==> forall l | l in lines :: BlankLine(l)
  {
    hide Strip, Join, Words, AllWords, IsSpace;
    NewlineIsSpace();
    WordsOfStrip(Join(lines, '\n'));
    WordsOfJoinedLines(lines, '\n');
    NoWordsInBlankLines(lines);
  }

  lemma NewlineIsSpace()
    ensures IsSpace('\n')
  {
  }

  /** Splitting into lines loses nothing. */
  lemma {:induction false} JoinOfSplit(text: string)
    ensures Join(SplitOn(text), '\n') == text
    ensures forall l | l in SplitOn(text) :: '\n' !in l
  {
    if text != "" {
      JoinOfSplit(text[1..]);
      var rest := SplitOn(text[1..]);
      assert SplitOn(text)[1..] == if text[0] == '\n' then rest else rest[1..];
    }
  }

  // ---- the loops ----

  /** parse_logs: the time windows, then the error bursts. range() refuses a zero step and is
      empty for a negative one. */
  method ParseLogs(content: string, windowSize: int, isError: string -> bool) returns (r: Result<seq<Chunk>, string>)
    requires MatchesText(isError)
    ensures var lines := SplitOn(Strip(content));
            r == if windowSize == 0 then Err("ValueError")
                 else Ok((if windowSize > 0 then Windows(lines, windowSize, 0) else []) + Bursts(lines, isError, 0))
  {
    hide Windows, Bursts;
    var lines := SplitOn(Strip(content));
    if windowSize == 0 {
      return Err("ValueError");
    }
    var chunks := [];
    if windowSize > 0 {
      chunks := TimeWindows(lines, windowSize);
    }
    var clusters := ErrorClusters(lines, isError);
    r := Ok(chunks + clusters);
  }

  method TimeWindows(lines: seq<string>, windowSize: nat) returns (chunks: seq<Chunk>)
    requires windowSize > 0
    ensures chunks == Windows(lines, windowSize, 0)
  {
    hide BuildLogChunk;
    chunks := [];
    var start := 0;
    while start < |lines|
      invariant Windows(lines, windowSize, 0) == chunks + Windows(lines, windowSize, start)
      decreases |lines| - start
    {
      var end := Min(start + windowSize, |lines|);
      var chunk := BuildLogChunk(lines[start..end], start + 1, end);
      if chunk.Some? {
        chunks := chunks + [chunk.value];
      }
      start := start + windowSize;
    }
  }

  // `flush` of _error_clusters, with the start line and the list it captures.
  method Flush(clusters: seq<Chunk>, current: seq<string>, startLine: nat, endLine: nat, isError: string -> bool)
    returns (grown: seq<Chunk>)
    ensures grown == Flushed(clusters, current, startLine, endLine, ErrorCount(current, isError))
  {
    hide BuildLogChunk;
    var errors, i := 0, 0;
    while i < |current|
      invariant 0 <= i <= |current| && errors == ErrorCount(current[..i], isError)
    {
      assert current[..i + 1][..i] == current[..i];
      if isError(current[i]) {
        errors := errors + 1;
      }
      i := i + 1;
    }
    assert current[..|current|] == current;
    if errors < MIN_ERRORS {
      return clusters;
    }
    var bounded := current[..Min(MAX_LINES, |current|)];
    var window := BuildLogChunk(bounded, startLine, startLine + |bounded| - 1);
    if window.Some? {
      return clusters + [window.value.(errors := errors, clusterEnd := endLine)];
    }
    return clusters;
  }

  function ErrorCount(lines: seq<string>, isError: string -> bool): (n: nat)
    ensures n <= |lines|
  {
    if lines == [] then 0
    else ErrorCount(lines[..|lines| - 1], isError) + if isError(lines[|lines| - 1]) then 1 else 0
  }

  function Flushed(clusters: seq<Chunk>, current: seq<string>, startLine: nat, endLine: nat, errors: nat): seq<Chunk>
    requires errors <= |current|
  {
    if errors < MIN_ERRORS then clusters
    else
      var bounded := current[..Min(MAX_LINES, |current|)];
      var window := BuildLogChunk(bounded, startLine, startLine + |bounded| - 1);
      if window.Some? then clusters + [window.value.(errors := errors, clusterEnd := endLine)] else clusters
  }

  method ErrorClusters(lines: seq<string>, isError: string -> bool) returns (clusters: seq<Chunk>)
    requires MatchesText(isError)
    ensures clusters == Bursts(lines, isError, 0)
  {
    hide Flushed, Bursts, ErrorCount, MatchesText;
    clusters := [];
    var current: seq<string>, startLine: nat := [], 1;
    var i := 0;
    while i < |lines|
      invariant 0 <= i <= |lines|
      invariant current != [] ==> startLine >= 1 && startLine - 1 + |current| == i && current == lines[startLine - 1..i]
      invariant forall l | l in current :: isError(l)
      invariant Bursts(lines, isError, 0) == clusters
          + Bursts(lines, isError, if current == [] then i else startLine - 1)
    {
      var line := lines[i];
      if isError(line) {
        if current == [] {
          startLine := i + 1;
        }
        current := current + [line];
      } else if current != [] {
        FlushedIsBurst(lines, isError, startLine - 1, |current|, clusters);
        current := current + [line];
        assert current == lines[startLine - 1..i + 1];
        clusters := Flush(clusters, current, startLine, i + 1, isError);
        current := [];
      } else {
        SkipAdjacent(lines, isError, i);
      }
      i := i + 1;
    }
    if current != [] {
      FlushedIsBurst(lines, isError, startLine - 1, |current|, clusters);
      assert current == lines[startLine - 1..];
      clusters := Flush(clusters, current, startLine, |lines|, isError);
    }
    NoBurstsAtTheEnd(lines, isError);
  }

  lemma NoBurstsAtTheEnd(lines: seq<string>, isError: string -> bool)
    ensures Bursts(lines, isError, |lines|) == []
  {
  }

  // ---- what they compute ----

  function Windows(lines: seq<string>, windowSize: nat, start: nat): seq<Chunk>
    requires windowSize > 0
    decreases Max(0, |lines| - start)
  {
    if start >= |lines| then []
    else
      var end := Min(start + windowSize, |lines|);
      var rest := Windows(lines, windowSize, start + windowSize);
      var chunk := BuildLogChunk(lines[start..end], start + 1, end);
      if chunk.Some? then [chunk.value] + rest else rest
  }

  // The number of error lines in a row from `from` on.
  function RunLength(lines: seq<string>, isError: string -> bool, from: nat): (n: nat)
    requires from <= |lines|
    ensures from + n <= |lines|
    ensures forall i | from <= i < from + n :: isError(lines[i])
    ensures from + n < |lines| ==> !isError(lines[from + n])
    decreases |lines| - from
  {
    if from == |lines| || !isError(lines[from]) then 0 else 1 + RunLength(lines, isError, from + 1)
  }

  // The burst of a run of n error lines: the run and one adjacent line, cut at 24 lines.
  function BurstAt(lines: seq<string>, from: nat, n: nat): Chunk
    requires from + n <= |lines|
  {
    var end := Min(from + n + 1, |lines|);
    var shown := Min(from + MAX_LINES, end);
    Chunk(lines[from..shown], from + 1, shown, n, end)
  }

  function Bursts(lines: seq<string>, isError: string -> bool, from: nat): seq<Chunk>
    requires from <= |lines|
    decreases |lines| - from
  {
    if from == |lines| then []
    else if !isError(lines[from]) then Bursts(lines, isError, from + 1)
    else
      var n := RunLength(lines, isError, from);
      if n >= MIN_ERRORS then [BurstAt(lines, from, n)] + Bursts(lines, isError, from + n)
      else Bursts(lines, isError, from + n)
  }

  lemma {:induction false} RunLengthIsUnique(lines: seq<string>, isError: string -> bool, from: nat, n: nat)
    requires from + n <= |lines| && (forall i | from <= i < from + n :: isError(lines[i]))
    requires from + n < |lines| ==> !isError(lines[from + n])
    ensures RunLength(lines, isError, from) == n
    decreases n
  {
    if n > 0 {
      RunLengthIsUnique(lines, isError, from + 1, n - 1);
    }
  }

  lemma {:induction false} ErrorCountOfRun(lines: seq<string>, isError: string -> bool)
    requires forall l | l in lines :: isError(l)
    ensures ErrorCount(lines, isError) == |lines|
  {
    if lines != [] {
      ErrorCountOfRun(lines[..|lines| - 1], isError);
    }
  }

  lemma ErrorCountWithAdjacent(run: seq<string>, line: string, isError: string -> bool)
    requires (forall l | l in run :: isError(l)) && !isError(line)
    ensures ErrorCount(run + [line], isError) == |run|
  {
    assert (run + [line])[..|run|] == run;
    ErrorCountOfRun(run, isError);
  }

  lemma ErrorCountOfStretch(lines: seq<string>, isError: string -> bool, from: nat, n: nat)
    requires from + n <= |lines| && (forall l | l in lines[from..from + n] :: isError(l))
    requires from + n < |lines| ==> !isError(lines[from + n])
    ensures ErrorCount(lines[from..Min(from + n + 1, |lines|)], isError) == n
  {
    var run := lines[from..from + n];
    if from + n < |lines| {
      ErrorCountWithAdjacent(run, lines[from + n], isError);
      assert lines[from..from + n + 1] == run + [lines[from + n]];
    } else {
      ErrorCountOfRun(run, isError);
    }
  }

  lemma FlushedChunk(lines: seq<string>, from: nat, n: nat, clusters: seq<Chunk>)
    requires n > 0 && from + n <= |lines| && !BlankLine(lines[from])
    ensures var end := Min(from + n + 1, |lines|);
            Flushed(clusters, lines[from..end], from + 1, end, n) == if n < MIN_ERRORS then clusters
                else clusters + [BurstAt(lines, from, n)]
  {
    hide BuildLogChunk, BlankLine;
    var end := Min(from + n + 1, |lines|);
    var bounded := lines[from..end][..Min(MAX_LINES, end - from)];
    assert bounded[0] == lines[from] && bounded[0] in bounded;
    ChunkIffSomeLineIsNotBlank(bounded, from + 1, from + |bounded|);
    assert bounded == lines[from..Min(from + MAX_LINES, end)];
    BuiltAs(bounded, from + 1, from + |bounded|);
  }

  lemma BurstsOfRun(lines: seq<string>, isError: string -> bool, from: nat, n: nat)
    requires n > 0 && from + n <= |lines| && (forall i | from <= i < from + n :: isError(lines[i]))
    requires from + n < |lines| ==> !isError(lines[from + n])
    ensures var rest := Bursts(lines, isError, Min(from + n + 1, |lines|));
            Bursts(lines, isError, from) == if n < MIN_ERRORS then rest else [BurstAt(lines, from, n)] + rest
  {
    hide BurstAt;
    RunLengthIsUnique(lines, isError, from, n);
  }

  // Flushing a run with its adjacent line, if there is one, emits its burst and goes on after it.
  lemma FlushedIsBurst(lines: seq<string>, isError: string -> bool, from: nat, n: nat, clusters: seq<Chunk>)
    requires MatchesText(isError) && n > 0 && from + n <= |lines|
    requires forall l | l in lines[from..from + n] :: isError(l)
    requires from + n < |lines| ==> !isError(lines[from + n])
    ensures var end := Min(from + n + 1, |lines|);
            && ErrorCount(lines[from..end], isError) == n
            && clusters + Bursts(lines, isError, from)
                == Flushed(clusters, lines[from..end], from + 1, end, n) + Bursts(lines, isError, end)
  {
    hide Flushed, Bursts, BurstAt, ErrorCount, BlankLine;
    var end := Min(from + n + 1, |lines|);
    var run := lines[from..from + n];
    forall i | from <= i < from + n
      ensures isError(lines[i])
    {
      assert lines[i] == run[i - from];
    }
    ErrorCountOfStretch(lines, isError, from, n);
    FlushedChunk(lines, from, n, clusters);
    BurstsOfRun(lines, isError, from, n);
    assert clusters + ([BurstAt(lines, from, n)] + Bursts(lines, isError, end))
        == (clusters + [BurstAt(lines, from, n)]) + Bursts(lines, isError, end);
  }

  lemma BuiltAs(lines: seq<string>, startLine: nat, endLine: nat)
    ensures BuildLogChunk(lines, startLine, endLine).Some?
        ==> BuildLogChunk(lines, startLine, endLine).value == Chunk(lines, startLine, endLine, 0, 0)
  {
  }

  // ---- bursts and maximal runs ----

  // n >= 1 error lines from `from` on, which no longer run contains.
  predicate IsRun(lines: seq<string>, isError: string -> bool, from: nat, n: nat) {
    && 1 <= n && from + n <= |lines|
    && (forall i | from <= i < from + n :: isError(lines[i]))
    && (from > 0 ==> !isError(lines[from - 1]))
    && (from + n < |lines| ==> !isError(lines[from + n]))
  }

  predicate BurstOf(lines: seq<string>, b: Chunk, from: nat, n: nat) {
    && from + n <= |lines|
    && b.startLine == from + 1 && b.errors == n && b.clusterEnd == Min(from + n + 1, |lines|)
    && |b.lines| == Min(24, b.clusterEnd - from) && b.endLine == from + |b.lines|
        && b.lines == lines[from..b.endLine]
  }

  lemma {:induction false} BurstsAreRuns(lines: seq<string>, isError: string -> bool, from: nat)
    requires from <= |lines| && (0 < from < |lines| && isError(lines[from]) ==> !isError(lines[from - 1]))
    ensures forall b | b in Bursts(lines, isError, from) ::
              b.startLine > from && b.errors >= 2
              && IsRun(lines, isError, b.startLine - 1, b.errors) && BurstOf(lines, b, b.startLine - 1, b.errors)
    decreases |lines| - from
  {
    if from < |lines| {
      if !isError(lines[from]) {
        BurstsAreRuns(lines, isError, from + 1);
      } else {
        var n := RunLength(lines, isError, from);
        assert IsRun(lines, isError, from, n);
        BurstsAreRuns(lines, isError, from + n);
      }
    }
  }

  // Each chunk, with its adjacent line, ends before the next one starts.
  predicate InOrder(bs: seq<Chunk>) {
    forall i, j | 0 <= i < j < |bs| :: bs[i].clusterEnd < bs[j].startLine
  }

  lemma InOrderAfter(b: Chunk, rest: seq<Chunk>)
    requires InOrder(rest) && forall c | c in rest :: b.clusterEnd < c.startLine
    ensures InOrder([b] + rest)
  {
    forall i, j | 0 <= i < j < |[b] + rest|
      ensures ([b] + rest)[i].clusterEnd < ([b] + rest)[j].startLine
    {
      assert ([b] + rest)[j] in rest;
      if i > 0 {
        assert rest[i - 1].clusterEnd < rest[j - 1].startLine;
      }
    }
  }

  lemma {:induction false} BurstsAreInOrder(lines: seq<string>, isError: string -> bool, from: nat)
    requires from <= |lines|
    ensures InOrder(Bursts(lines, isError, from))
    decreases |lines| - from
  {
    if from < |lines| {
      if !isError(lines[from]) {
        BurstsAreInOrder(lines, isError, from + 1);
      } else {
        hide BurstAt, InOrder;
        var n := RunLength(lines, isError, from);
        BurstsAreInOrder(lines, isError, from + n);
        SkipAdjacent(lines, isError, from + n);
        BurstEnds(lines, from, n);
        InOrderAfter(BurstAt(lines, from, n), Bursts(lines, isError, from + n));
      }
    }
  }

  lemma BurstEnds(lines: seq<string>, from: nat, n: nat)
    requires from + n <= |lines|
    ensures BurstAt(lines, from, n).clusterEnd <= from + n + 1
  {
  }

  /** Every burst is that of a maximal run of two or more error lines: it starts at the run's first
      line, records its length and the end with the adjacent line, and spans at most 24 lines.
      Bursts are in order and do not overlap. */
  lemma BurstsAreMaximalRuns(lines: seq<string>, isError: string -> bool)
    ensures var bs := Bursts(lines, isError, 0);
            && (forall b | b in bs :: b.startLine > 0 && b.errors >= 2 && b.endLine <= b.clusterEnd
                  && IsRun(lines, isError, b.startLine - 1, b.errors) && BurstOf(lines, b, b.startLine - 1, b.errors))
            && (forall i, j | 0 <= i < j < |bs| :: bs[i].clusterEnd < bs[j].startLine)
  {
    BurstsAreRuns(lines, isError, 0);
    BurstsAreInOrder(lines, isError, 0);
  }

  // A line that is no error starts no burst.
  lemma SkipAdjacent(lines: seq<string>, isError: string -> bool, at: nat)
    requires at <= |lines| && (at < |lines| ==> !isError(lines[at]))
    ensures at < |lines| ==> Bursts(lines, isError, at) == Bursts(lines, isError, at + 1)
    ensures forall b | b in Bursts(lines, isError, at) :: b.startLine > at + 1
  {
    if at < |lines| {
      BurstsStartLater(lines, isError, at + 1);
    }
  }

  lemma {:induction false} BurstsStartLater(lines: seq<string>, isError: string -> bool, from: nat)
    requires from <= |lines|
    ensures forall b | b in Bursts(lines, isError, from) :: b.startLine > from
    decreases |lines| - from
  {
    if from < |lines| {
      BurstsStartLater(lines, isError, from + if isError(lines[from]) then RunLength(lines, isError, from) else 1);
    }
  }

  // A row of errors that starts before a maximal run ends before it.
  lemma RowsEndBeforeRuns(lines: seq<string>, isError: string -> bool, from: nat, start: nat, n: nat)
    requires from < start && IsRun(lines, isError, start, n) && isError(lines[from])
    ensures 0 < RunLength(lines, isError, from) && from + RunLength(lines, isError, from) <= start
  {
    var m := RunLength(lines, isError, from);
    assert from + m < start + 1;
  }

  lemma BurstsStep(lines: seq<string>, isError: string -> bool, from: nat)
    requires from < |lines|
    ensures var m := RunLength(lines, isError, from);
            var rest := Bursts(lines, isError, if isError(lines[from]) then from + m else from + 1);
            Bursts(lines, isError, from)
            == if isError(lines[from]) && m >= 2 then [BurstAt(lines, from, m)] + rest else rest
  {
    hide BurstAt;
  }

  /** Every maximal run of two or more error lines has its burst. */
  lemma {:induction false} EveryRunHasItsBurst(lines: seq<string>, isError: string -> bool, from: nat, start: nat,
          n: nat)
    requires from <= start && IsRun(lines, isError, start, n) && n >= 2
    ensures BurstAt(lines, start, n) in Bursts(lines, isError, from)
    ensures BurstOf(lines, BurstAt(lines, start, n), start, n)
    decreases |lines| - from
  {
    hide Bursts, RunLength;
    BurstsStep(lines, isError, from);
    if from == start {
      RunLengthIsUnique(lines, isError, start, n);
    } else if !isError(lines[from]) {
      EveryRunHasItsBurst(lines, isError, from + 1, start, n);
    } else {
      RowsEndBeforeRuns(lines, isError, from, start, n);
      EveryRunHasItsBurst(lines, isError, from + RunLength(lines, isError, from), start, n);
    }
  }

  /** Bursts and maximal runs of two or more error lines correspond one to one. */
  lemma BurstsCorrespondToRuns(lines: seq<string>, isError: string -> bool, start: nat, n: nat)
    ensures IsRun(lines, isError, start, n) && n >= 2
            <==> exists b :: b in Bursts(lines, isError, 0) && b.startLine == start + 1 && b.errors == n
    ensures var bs := Bursts(lines, isError, 0);
            forall i, j | 0 <= i < j < |bs| :: bs[i].startLine < bs[j].startLine
  {
    hide Bursts, IsRun;
    BurstsAreMaximalRuns(lines, isError);
    if IsRun(lines, isError, start, n) && n >= 2 {
      EveryRunHasItsBurst(lines, isError, 0, start, n);
      RunFits(lines, isError, start, n);
      assert BurstAt(lines, start, n) in Bursts(lines, isError, 0);
    }
    var bs := Bursts(lines, isError, 0);
    forall i, j | 0 <= i < j < |bs|
      ensures bs[i].startLine < bs[j].startLine
    {
      assert bs[i] in bs;
    }
  }

  lemma RunFits(lines: seq<string>, isError: string -> bool, start: nat, n: nat)
    requires IsRun(lines, isError, start, n)
    ensures start + n <= |lines|
  {
  }

  // ---- windows ----

  predicate WindowOf(lines: seq<string>, w: Chunk, windowSize: nat) {
    && 1 <= w.startLine <= w.endLine <= |lines|
    && w.endLine - w.startLine < windowSize && w.lines == lines[w.startLine - 1..w.endLine]
  }

  // The window holds line i.
  predicate Covers(w: Chunk, i: nat) {
    w.startLine <= i + 1 <= w.endLine
  }

  predicate Apart(ws: seq<Chunk>) {
    forall i, j | 0 <= i < j < |ws| :: ws[i].endLine < ws[j].startLine
  }

  lemma ApartAfter(w: Chunk, rest: seq<Chunk>)
    requires Apart(rest) && forall c | c in rest :: w.endLine < c.startLine
    ensures Apart([w] + rest)
  {
    forall i, j | 0 <= i < j < |[w] + rest|
      ensures ([w] + rest)[i].endLine < ([w] + rest)[j].startLine
    {
      assert ([w] + rest)[j] in rest;
      if i > 0 {
        assert rest[i - 1].endLine < rest[j - 1].startLine;
      }
    }
  }

  // The window from `start` on comes first, unless it is blank.
  lemma WindowsStep(lines: seq<string>, windowSize: nat, start: nat)
    requires windowSize > 0 && start < |lines|
    ensures var end, rest := Min(start + windowSize, |lines|), Windows(lines, windowSize, start + windowSize);
            var ws := Windows(lines, windowSize, start);
            ws == rest || ws == [Chunk(lines[start..end], start + 1, end, 0, 0)] + rest
  {
    hide BuildLogChunk;
    var end := Min(start + windowSize, |lines|);
    BuiltAs(lines[start..end], start + 1, end);
  }

  ghost predicate WindowsFrom(lines: seq<string>, windowSize: nat, start: nat, ws: seq<Chunk>) {
    forall w | w in ws :: WindowOf(lines, w, windowSize) && w.startLine > start
  }

  lemma WindowsFromEarlier(lines: seq<string>, windowSize: nat, start: nat, ws: seq<Chunk>)
    requires windowSize > 0 && start < |lines| && WindowsFrom(lines, windowSize, start + windowSize, ws) && Apart(ws)
    ensures var end := Min(start + windowSize, |lines|);
            var w := Chunk(lines[start..end], start + 1, end, 0, 0);
            && WindowsFrom(lines, windowSize, start, ws) && WindowsFrom(lines, windowSize, start, [w] + ws)
            && Apart([w] + ws)
  {
    hide Apart;
    var end := Min(start + windowSize, |lines|);
    ApartAfter(Chunk(lines[start..end], start + 1, end, 0, 0), ws);
  }

  lemma {:induction false} WindowsInOrder(lines: seq<string>, windowSize: nat, start: nat)
    requires windowSize > 0
    ensures WindowsFrom(lines, windowSize, start, Windows(lines, windowSize, start))
    ensures Apart(Windows(lines, windowSize, start))
    decreases |lines| - start
  {
    hide *;
    if start < |lines| {
      WindowsInOrder(lines, windowSize, start + windowSize);
      WindowsStep(lines, windowSize, start);
      WindowsFromEarlier(lines, windowSize, start, Windows(lines, windowSize, start + windowSize));
    } else {
      NoWindows(lines, windowSize, start);
    }
  }

  lemma NoWindows(lines: seq<string>, windowSize: nat, start: nat)
    requires windowSize > 0 && start >= |lines|
    ensures WindowsFrom(lines, windowSize, start, Windows(lines, windowSize, start))
    ensures Apart(Windows(lines, windowSize, start))
  {
  }

  // The window that holds line i: it starts at the last multiple of the window size up to i.
  predicate WindowAround(lines: seq<string>, w: Chunk, windowSize: nat, i: nat)
    requires windowSize > 0 && i < |lines|
  {
    w.startLine == i - i % windowSize + 1 && w.endLine == Min(i - i % windowSize + windowSize, |lines|)
  }

  lemma SmallMultiple(k: int, n: nat)
    requires k != 0
    ensures k * n >= n || k * n + n <= 0
  {
    if k >= 1 {
      assert (k - 1) * n >= 0;
    } else {
      assert (-k - 1) * n >= 0;
    }
  }

  lemma RemainderIn(i: nat, windowSize: nat, q: nat)
    requires windowSize > 0 && q * windowSize <= i < q * windowSize + windowSize
    ensures i % windowSize == i - q * windowSize
  {
    var d := i / windowSize;
    assert d * windowSize - q * windowSize == (d - q) * windowSize;
    if d != q {
      SmallMultiple(d - q, windowSize);
    }
  }

  lemma {:induction false} SomeWindowCovers(lines: seq<string>, windowSize: nat, start: nat, i: nat, q: nat)
    requires windowSize > 0 && start <= i < |lines| && !BlankLine(lines[i]) && start == q * windowSize
    ensures exists w :: w in Windows(lines, windowSize, start) && Covers(w, i) && WindowAround(lines, w, windowSize, i)
    decreases Max(0, |lines| - start)
  {
    hide BuildLogChunk, BlankLine;
    var end := Min(start + windowSize, |lines|);
    if i < end {
      var window := lines[start..end];
      assert window[i - start] in window;
      ChunkIffSomeLineIsNotBlank(window, start + 1, end);
      BuiltAs(window, start + 1, end);
      var w := Chunk(window, start + 1, end, 0, 0);
      RemainderIn(i, windowSize, q);
      assert Windows(lines, windowSize, start)[0] == w && Covers(w, i);
    } else {
      assert start + windowSize == (q + 1) * windowSize;
      SomeWindowCovers(lines, windowSize, start + windowSize, i, q + 1);
      var w :| w in Windows(lines, windowSize, start + windowSize) && Covers(w, i)
          && WindowAround(lines, w, windowSize, i);
      assert w in Windows(lines, windowSize, start);
    }
  }

  /** Every line that is not blank is in exactly one time window, the one that starts at the last
      multiple of the window size up to the line and ends a window size later or with the text. */
  lemma WindowsCoverEveryLineOnce(lines: seq<string>, windowSize: nat, i: nat)
    requires windowSize > 0 && i < |lines| && !BlankLine(lines[i])
    ensures var ws := Windows(lines, windowSize, 0);
            exists k: nat :: k < |ws| && Covers(ws[k], i) && WindowOf(lines, ws[k], windowSize)
              && WindowAround(lines, ws[k], windowSize, i)
              && forall m: nat | m < |ws| && Covers(ws[m], i) :: m == k
  {
    hide Windows, BlankLine, WindowAround, Covers, WindowOf;
    SomeWindowCovers(lines, windowSize, 0, i, 0);
    WindowsInOrder(lines, windowSize, 0);
    var ws := Windows(lines, windowSize, 0);
    var w :| w in ws && Covers(w, i) && WindowAround(lines, w, windowSize, i);
    var k: nat :| k < |ws| && ws[k] == w;
    forall m: nat | m < |ws| && Covers(ws[m], i)
      ensures m == k
    {
      OneWindowCovers(ws, i, k, m);
    }
  }

  lemma OneWindowCovers(ws: seq<Chunk>, i: nat, k: nat, m: nat)
    requires Apart(ws)
    requires k < |ws| && m < |ws| && Covers(ws[k], i) && Covers(ws[m], i)
    ensures k == m
  {
  }
}
