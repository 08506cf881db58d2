/** str.split, str.join and str.strip, as far as token counting depends on them. */
module Text {

  // The characters str.split() and str.strip() treat as whitespace.
  predicate IsSpace(c: char) {
    var n := c as int;
    || 0x09 <= n <= 0x0D || 0x1C <= n <= 0x20 || n == 0x85 || n == 0xA0 || n == 0x1680
    || 0x2000 <= n <= 0x200A || n == 0x2028 || n == 0x2029 || n == 0x202F || n == 0x205F || n == 0x3000
  }

  predicate IsWord(s: string) {
    s != "" && forall c | c in s :: !IsSpace(c)
  }

  // The length of the leading run of non-space characters.
  function WordLength(s: string): (k: nat)
    ensures k <= |s|
    ensures forall i | 0 <= i < k :: !IsSpace(s[i])
    ensures k < |s| ==> IsSpace(s[k])
  {
    if s == "" || IsSpace(s[0]) then 0 else 1 + WordLength(s[1..])
  }

  // text.split()
  function Words(s: string): (ws: seq<string>)
    ensures forall w | w in ws :: IsWord(w)
    decreases |s|
  {
    if s == "" then []
    else if IsSpace(s[0]) then Words(s[1..])
    else [s[..WordLength(s)]] + Words(s[WordLength(s)..])
  }

  // sep.join(parts)
  function Join(parts: seq<string>, sep: char): string {
    if parts == [] then ""
    else if |parts| == 1 then parts[0]
    else parts[0] + [sep] + Join(parts[1..], sep)
  }

  function LeftStrip(s: string): string {
    if s != "" && IsSpace(s[0]) then LeftStrip(s[1..]) else s
  }

  function RightStrip(s: string): (r: string)
    ensures r <= s
  {
    if s != "" && IsSpace(s[|s| - 1]) then RightStrip(s[..|s| - 1]) else s
  }

  // text.strip()
  function Strip(s: string): string {
    RightStrip(LeftStrip(s))
  }

  function AllWords(lines: seq<string>): seq<string> {
    if lines == [] then [] else Words(lines[0]) + AllWords(lines[1..])
  }

  lemma WordLengthIsUnique(s: string, k: nat)
    requires k <= |s| && (forall i | 0 <= i < k :: !IsSpace(s[i])) && (k < |s| ==> IsSpace(s[k]))
    ensures WordLength(s) == k
  {
  }

  lemma WordsOfText(s: string)
    requires s != "" && !IsSpace(s[0])
    ensures Words(s) == [s[..WordLength(s)]] + Words(s[WordLength(s)..])
  {
    hide IsSpace, IsWord, WordLength;
  }

  // Text after a space does not lengthen the first word.
  lemma FirstWord(a: string, rest: string)
    requires a != "" && !IsSpace(a[0]) && rest != "" && IsSpace(rest[0])
    ensures Words(a + rest) == [a[..WordLength(a)]] + Words(a[WordLength(a)..] + rest)
  {
    hide *;
    var k := WordLength(a);
    WordLengthIsUnique(a + rest, k);
    WordsOfText(a + rest);
    assert (a + rest)[..k] == a[..k] && (a + rest)[k..] == a[k..] + rest;
  }

  lemma WordLengthIsPositive(s: string)
    requires s != "" && !IsSpace(s[0])
    ensures WordLength(s) > 0
  {
  }

  lemma NoWords()
    ensures Words("") == []
  {
  }

  lemma LeadingSpace(s: string)
    requires s != "" && IsSpace(s[0])
    ensures Words(s) == Words(s[1..])
  {
    hide IsSpace, IsWord, WordLength;
  }

  /** A space between two texts splits them. */
  lemma {:induction false} WordsSplitAtSpace(a: string, c: char, b: string)
    requires IsSpace(c)
    ensures Words(a + [c] + b) == Words(a) + Words(b)
    decreases |a|
  {
    hide *;
    var s := a + [c] + b;
    if a == "" {
      LeadingSpace(s);
      NoWords();
      assert s[1..] == b;
    } else if IsSpace(a[0]) {
      LeadingSpace(s);
      LeadingSpace(a);
      assert s[1..] == a[1..] + [c] + b;
      WordsSplitAtSpace(a[1..], c, b);
    } else {
      var k := WordLength(a);
      WordsOfText(a);
      WordLengthIsPositive(a);
      FirstWord(a, [c] + b);
      assert s == a + ([c] + b) && a[k..] + ([c] + b) == a[k..] + [c] + b;
      WordsSplitAtSpace(a[k..], c, b);
      assert [a[..k]] + (Words(a[k..]) + Words(b)) == ([a[..k]] + Words(a[k..])) + Words(b);
    }
  }

  lemma WordsOfWord(w: string)
    requires IsWord(w)
    ensures Words(w) == [w]
  {
    WordLengthIsUnique(w, |w|);
    assert w[..|w|] == w && w[|w|..] == "";
  }

  /** " ".join and split are inverse on words. */
  lemma {:induction false} WordsOfJoinedWords(ws: seq<string>, sep: char)
    requires IsSpace(sep) && forall w | w in ws :: IsWord(w)
    ensures Words(Join(ws, sep)) == ws
  {
    if ws != [] {
      WordsOfWord(ws[0]);
      if |ws| > 1 {
        WordsSplitAtSpace(ws[0], sep, Join(ws[1..], sep));
        WordsOfJoinedWords(ws[1..], sep);
      }
    }
  }

  /** Joining lines keeps the word sequence. */
  lemma {:induction false} WordsOfJoinedLines(lines: seq<string>, sep: char)
    requires IsSpace(sep)
    ensures Words(Join(lines, sep)) == AllWords(lines)
  {
    if |lines| == 1 {
      assert AllWords(lines[1..]) == [];
    } else if lines != [] {
      WordsSplitAtSpace(lines[0], sep, Join(lines[1..], sep));
      WordsOfJoinedLines(lines[1..], sep);
    }
  }

  lemma {:induction false} WordsOfRightStrip(s: string)
    ensures Words(RightStrip(s)) == Words(s)
  {
    if s != "" && IsSpace(s[|s| - 1]) {
      WordsOfRightStrip(s[..|s| - 1]);
      WordsSplitAtSpace(s[..|s| - 1], s[|s| - 1], "");
      assert s[..|s| - 1] + [s[|s| - 1]] + "" == s;
    }
  }

  /** Stripping keeps the word sequence, and a text strips to nothing exactly if it has no words. */
  lemma WordsOfStrip(s: string)
    ensures Words(Strip(s)) == Words(s)
    ensures Strip(s) == "" <==> Words(s) == []
  {
    WordsOfLeftStrip(s);
    WordsOfRightStrip(LeftStrip(s));
    if Strip(s) != "" {
      FirstStaysOnRightStrip(LeftStrip(s));
    }
  }

  lemma {:induction false} WordsOfLeftStrip(s: string)
    ensures Words(LeftStrip(s)) == Words(s)
    ensures LeftStrip(s) != "" ==> !IsSpace(LeftStrip(s)[0])
  {
    if s != "" && IsSpace(s[0]) {
      WordsOfLeftStrip(s[1..]);
    }
  }

  lemma {:induction false} FirstStaysOnRightStrip(s: string)
    ensures RightStrip(s) != "" ==> s != "" && RightStrip(s)[0] == s[0]
  {
    if s != "" && IsSpace(s[|s| - 1]) {
      FirstStaysOnRightStrip(s[..|s| - 1]);
    }
  }

  predicate AllSpace(s: string) {
    forall c | c in s :: IsSpace(c)
  }

  lemma {:induction false} LeftStripCuts(s: string) returns (cut: string)
    ensures cut + LeftStrip(s) == s && AllSpace(cut)
  {
    if s != "" && IsSpace(s[0]) {
      var rest := LeftStripCuts(s[1..]);
      cut := [s[0]] + rest;
    } else {
      cut := "";
    }
  }

  lemma {:induction false} RightStripCuts(s: string) returns (cut: string)
    ensures RightStrip(s) + cut == s && AllSpace(cut)
    ensures RightStrip(s) != "" ==> !IsSpace(RightStrip(s)[|RightStrip(s)| - 1])
  {
    if s != "" && IsSpace(s[|s| - 1]) {
      var rest := RightStripCuts(s[..|s| - 1]);
      cut := rest + [s[|s| - 1]];
      assert RightStrip(s) + cut == s[..|s| - 1] + [s[|s| - 1]];
    } else {
      cut := "";
    }
  }

  /** Stripping cuts spaces off both ends and nothing else, and what is left neither starts nor ends
      with a space. */
  lemma StripCutsBothEnds(s: string) returns (left: string, right: string)
    ensures left + Strip(s) + right == s && AllSpace(left) && AllSpace(right)
    ensures var r := Strip(s); r != "" ==> !IsSpace(r[0]) && !IsSpace(r[|r| - 1])
  {
    hide IsSpace, LeftStrip, RightStrip;
    left := LeftStripCuts(s);
    right := RightStripCuts(LeftStrip(s));
    WordsOfLeftStrip(s);
    FirstStaysOnRightStrip(LeftStrip(s));
  }

  function TotalLength(parts: seq<string>): nat {
    if parts == [] then 0 else |parts[0]| + TotalLength(parts[1..])
  }

  /** The joined text is as long as its parts with one separator between neighbours, and every other
      character comes from a part. */
  lemma {:induction false} JoinedLength(parts: seq<string>, sep: char)
    ensures |Join(parts, sep)| == TotalLength(parts) + (if parts == [] then 0 else |parts| - 1)
    ensures forall c | c in Join(parts, sep) && c != sep :: exists p :: p in parts && c in p
  {
    if |parts| == 1 {
      assert TotalLength(parts[1..]) == 0;
    } else if parts != [] {
      JoinedLength(parts[1..], sep);
      forall c | c in Join(parts, sep) && c != sep
        ensures exists p :: p in parts && c in p
      {
        if c in parts[0] {
          assert parts[0] in parts;
        } else {
          var p :| p in parts[1..] && c in p;
          assert p in parts;
        }
      }
    }
  }

  // str.splitlines(): the characters that end a line.
  predicate IsLineBreak(c: char) {
    var n := c as int;
    0x0A <= n <= 0x0D || 0x1C <= n <= 0x1E || n == 0x85 || n == 0x2028 || n == 0x2029
  }

  function LineLength(s: string): (k: nat)
    ensures k <= |s|
    ensures k < |s| ==> IsLineBreak(s[k])
  {
    if s == "" || IsLineBreak(s[0]) then 0 else 1 + LineLength(s[1..])
  }

  // "\r\n" is one line break.
  function SplitLines(s: string): seq<string>
    decreases |s|
  {
    if s == "" then []
    else
      var k := LineLength(s);
      if k == |s| then [s] else [s[..k]] + SplitLines(AfterLine(s))
  }

  // The text after the first line and its break.
  function AfterLine(s: string): string
    requires LineLength(s) < |s|
  {
    var k := LineLength(s);
    if s[k] == '\r' && k + 1 < |s| && s[k + 1] == '\n' then s[k + 2..] else s[k + 1..]
  }

  // A line break is one space, or two for "\r\n".
  lemma BreaksAreSpaces(s: string)
    requires LineLength(s) < |s|
    ensures IsSpace(s[LineLength(s)])
    ensures var after := s[LineLength(s) + 1..];
            AfterLine(s) == after || (after != "" && IsSpace(after[0]) && AfterLine(s) == after[1..])
  {
  }

  lemma WordsOfFirstLine(s: string)
    requires LineLength(s) < |s|
    ensures Words(s) == Words(s[..LineLength(s)]) + Words(AfterLine(s))
  {
    hide *;
    var k := LineLength(s);
    BreaksAreSpaces(s);
    WordsSplitAtSpace(s[..k], s[k], s[k + 1..]);
    assert s[..k] + [s[k]] + s[k + 1..] == s;
    if AfterLine(s) != s[k + 1..] {
      LeadingSpace(s[k + 1..]);
    }
  }

  /** Cutting a text into lines keeps the word sequence. */
  lemma {:induction false} WordsOfLines(s: string)
    ensures AllWords(SplitLines(s)) == Words(s)
    decreases |s|
  {
    if s != "" {
      if LineLength(s) == |s| {
        assert SplitLines(s)[1..] == [];
      } else {
        WordsOfFirstLine(s);
        WordsOfLines(AfterLine(s));
        assert SplitLines(s)[1..] == SplitLines(AfterLine(s));
      }
    }
  }

  // What may end a line: one of the line boundaries of str.splitlines, or "\r\n".
  predicate IsLineEnd(s: string) {
    || s in ["\r\n", "\n", "\r", [0x0B as char], [0x0C as char], [0x1C as char], [0x1D as char], [0x1E as char]]
    || s in [[0x85 as char], [0x2028 as char], [0x2029 as char]]
  }

  predicate HoldsNoLineEnd(s: string) {
    forall i | 0 <= i < |s| :: !IsLineEnd([s[i]])
  }

  // Each line followed by its end.
  function WithEnds(lines: seq<string>, ends: seq<string>): string
    requires |ends| == |lines|
  {
    if lines == [] then "" else lines[0] + ends[0] + WithEnds(lines[1..], ends[1..])
  }

  predicate StartsWithNewline(s: string) {
    s != "" && s[0] == '\n'
  }

  // Every line has an end, except that the last may have none if it is not empty; "\r\n" is one end.
  predicate EndsOk(lines: seq<string>, ends: seq<string>)
    requires |ends| == |lines|
  {
    forall i | 0 <= i < |lines| ::
      && HoldsNoLineEnd(lines[i])
      && (IsLineEnd(ends[i]) || (i == |lines| - 1 && ends[i] == "" && lines[i] != ""))
      && !(ends[i] == "\r" && i + 1 < |lines| && lines[i + 1] == "" && StartsWithNewline(ends[i + 1]))
  }

  lemma {:induction false} FirstLineHoldsNoEnd(s: string)
    ensures HoldsNoLineEnd(s[..LineLength(s)])
    ensures LineLength(s) < |s| ==> IsLineEnd([s[LineLength(s)]])
  {
    if s != "" && !IsLineBreak(s[0]) {
      FirstLineHoldsNoEnd(s[1..]);
      var rest := s[1..][..LineLength(s[1..])];
      assert s[..LineLength(s)] == [s[0]] + rest;
    }
  }

  lemma EndsOkExtends(line: string, end: string, lines: seq<string>, ends: seq<string>)
    requires |ends| == |lines| && EndsOk(lines, ends) && HoldsNoLineEnd(line) && IsLineEnd(end)
    requires end == "\r" ==> !StartsWithNewline(WithEnds(lines, ends))
    ensures EndsOk([line] + lines, [end] + ends)
    ensures WithEnds([line] + lines, [end] + ends) == line + end + WithEnds(lines, ends)
  {
    hide IsLineEnd, HoldsNoLineEnd;
    assert ([line] + lines)[1..] == lines && ([end] + ends)[1..] == ends;
    forall i | 0 <= i < |lines|
      ensures ([line] + lines)[i + 1] == lines[i] && ([end] + ends)[i + 1] == ends[i]
    {
    }
  }

  lemma OneLine(s: string)
    requires s != "" && LineLength(s) == |s|
    ensures SplitLines(s) == [s]
  {
    hide IsLineBreak, LineLength;
  }

  lemma OneLineEnds(s: string)
    requires s != "" && HoldsNoLineEnd(s)
    ensures EndsOk([s], [""]) && WithEnds([s], [""]) == s
  {
    hide IsLineEnd, HoldsNoLineEnd;
    assert [s][1..] == [];
  }

  lemma MoreLines(s: string)
    requires LineLength(s) < |s|
    ensures s != "" && |AfterLine(s)| < |s| && SplitLines(s) == [s[..LineLength(s)]] + SplitLines(AfterLine(s))
  {
  }

  lemma NoLines()
    ensures SplitLines("") == [] && EndsOk([], []) && WithEnds([], []) == ""
  {
  }

  /** Cutting a text into lines takes out the line ends and nothing else: with them the lines are the
      text again, and no line holds one. */
  lemma {:induction false} LinesWithEndsAreTheText(s: string) returns (ends: seq<string>)
    ensures |ends| == |SplitLines(s)| && EndsOk(SplitLines(s), ends) && WithEnds(SplitLines(s), ends) == s
    decreases |s|
  {
    hide *;
    if s == "" {
      NoLines();
      ends := [];
    } else if LineLength(s) == |s| {
      OneLine(s);
      FirstLineHoldsNoEnd(s);
      assert s[..|s|] == s;
      OneLineEnds(s);
      ends := [""];
    } else {
      var after := AfterLine(s);
      MoreLines(s);
      FirstLineHoldsNoEnd(s);
      var end := EndOfLine(s);
      var rest := LinesWithEndsAreTheText(after);
      EndsOkExtends(s[..LineLength(s)], end, SplitLines(after), rest);
      ends := [end] + rest;
    }
  }

  // A newline right after a carriage return belongs to the same end.
  predicate TwoCharacterEnd(s: string, k: nat) {
    k + 1 < |s| && s[k] == '\r' && s[k + 1] == '\n'
  }

  lemma AfterLineIs(s: string)
    requires LineLength(s) < |s|
    ensures var k := LineLength(s);
            if TwoCharacterEnd(s, k) then AfterLine(s) == s[k + 2..] else AfterLine(s) == s[k + 1..]
  {
  }

  lemma CutAt(s: string, k: nat, n: nat)
    requires k + n <= |s|
    ensures s == s[..k] + s[k..k + n] + s[k + n..]
  {
  }

  lemma EndOfLine(s: string) returns (end: string)
    requires LineLength(s) < |s|
    ensures s == s[..LineLength(s)] + end + AfterLine(s) && IsLineEnd(end)
    ensures end == "\r" ==> !StartsWithNewline(AfterLine(s))
  {
    hide LineLength, IsLineBreak, AfterLine, IsLineEnd;
    FirstLineHoldsNoEnd(s);
    AfterLineIs(s);
    var k := LineLength(s);
    if TwoCharacterEnd(s, k) {
      end := s[k..k + 2];
      assert end == "\r\n";
      CarriageReturnNewline();
      CutAt(s, k, 2);
    } else {
      end := s[k..k + 1];
      assert end == [s[k]];
      CutAt(s, k, 1);
    }
  }

  lemma CarriageReturnNewline()
    ensures IsLineEnd("\r\n")
  {
  }

  lemma {:induction false} AllWordsConcat(a: seq<string>, b: seq<string>)
    ensures AllWords(a + b) == AllWords(a) + AllWords(b)
  {
    if a == [] {
      assert a + b == b;
    } else {
      assert (a + b)[1..] == a[1..] + b;
      AllWordsConcat(a[1..], b);
    }
  }

  // 1.3 tokens a word, truncated: the greatest number that is not above it.
  function TokensOfWords(n: nat): (tokens: nat)
    ensures 10 * tokens <= 13 * n < 10 * (tokens + 1)
  {
    13 * n / 10
  }

  // count_tokens
  function CountTokens(text: string): (tokens: nat)
    ensures 10 * tokens <= 13 * |Words(text)| < 10 * (tokens + 1)
  {
    TokensOfWords(|Words(text)|)
  }

  lemma TokensAreSuperadditive(a: nat, b: nat)
    ensures TokensOfWords(a + b) >= TokensOfWords(a) + TokensOfWords(b)
    ensures b >= 1 <==> TokensOfWords(b) >= 1
  {
  }
}
