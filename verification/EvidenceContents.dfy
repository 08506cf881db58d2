/** What the evidence packed by incidentops/retrieval/evidence_packer.py consists of: which results
    it shows and which it leaves out, with which text and score, and in which order. */
module EvidenceContents {
  import opened Text
  import Prelude
  import opened EvidencePacker

  // ---- texts ----

  lemma {:induction false} WordsOfRightStripped(lines: seq<string>)
    ensures AllWords(RightStripped(lines)) == AllWords(lines)
  {
    if lines != [] {
      hide Words, RightStrip;
      WordsOfRightStripped(lines[1..]);
      WordsOfRightStrip(lines[0]);
      StrippedCons(lines[0], lines[1..]);
      assert [lines[0]] + lines[1..] == lines;
    }
  }

  /** Cleaning keeps the words; it leaves nothing exactly of a text without words. */
  lemma CleanKeepsWords(text: string)
    ensures Words(Clean(text)) == Words(text) && (Clean(text) == "" <==> Words(text) == [])
  {
    hide *;
    var lines := SplitLines(Strip(text));
    CleanOf(text);
    NewlineIsSpace();
    WordsOfJoinedLines(RightStripped(lines), '\n');
    WordsOfRightStripped(lines);
    WordsOfLines(Strip(text));
    WordsOfStrip(text);
    NoWords();
    if Clean(text) != "" {
      CleanStartsWithText(text);
      SomeWord(Clean(text));
    }
  }

  lemma NewlineIsSpace()
    ensures IsSpace('\n')
  {
  }

  lemma SomeWord(s: string)
    requires s != "" && !IsSpace(s[0])
    ensures Words(s) != []
  {
    WordsOfText(s);
  }

  /** A text that fits once cleaned is shown whole. Of a longer one the first maxChars - 1 characters
      are shown without the spaces at their end, followed by three dots; and nothing at all if
      maxChars is below two. */
  lemma CompactShowsAPrefix(text: string, maxChars: int)
    ensures var cleaned, shown := Clean(text), Compact(text, maxChars);
            if |cleaned| <= maxChars then shown == cleaned
            else if maxChars < 2 then shown == ""
            else (
              && |shown| > 3 && shown[|shown| - 3..] == "..."
              && |shown| - 3 <= maxChars - 1 && shown[..|shown| - 3] <= cleaned
              && AllSpace(cleaned[|shown| - 3..maxChars - 1]) && !IsSpace(shown[|shown| - 4]))
  {
    hide Clean, IsSpace, RightStrip, AllSpace;
    var cleaned := Clean(text);
    if |cleaned| > maxChars >= 2 {
      var kept := cleaned[..maxChars - 1];
      CleanStartsWithText(text);
      RightStripKeepsStart(kept);
      var cut := RightStripCuts(kept);
      assert cut == cleaned[|RightStrip(kept)|..maxChars - 1] by {
        assert cut == kept[|RightStrip(kept)|..];
      }
    } else if |cleaned| > maxChars {
      assert cleaned[..0] == "";
      NothingToStrip();
    }
  }

  lemma NothingToStrip()
    ensures RightStrip("") == ""
  {
  }

  /** A text leaves nothing to pack if and only if it has no words, or must be cut to fewer than two
      characters. */
  lemma CompactIsEmptyIff(text: string, maxChars: int)
    ensures Compact(text, maxChars) == "" <==> Words(text) == [] || (maxChars < 2 && |Clean(text)| > maxChars)
  {
    hide Clean, Compact, Words, AllSpace, IsSpace;
    CompactShowsAPrefix(text, maxChars);
    CleanKeepsWords(text);
  }

  // ---- items ----

  // The rerank score if there is one other than zero, else the fused score, else zero.
  predicate ScoredAs(r: Result, score: real) {
    if r.rerank.Some? && r.rerank.value != 0.0 then score == r.rerank.value
    else score == if r.fused.Some? then r.fused.value else 0.0
  }

  // The item shows this result: compacted, and once more if fewer characters than that were left.
  ghost predicate Shows(i: Item, r: Result, l: Limits) {
    && i.signature == r.signature && i.sourceType == r.sourceType && ScoredAs(r, i.score)
    && (i.text == Compact(r.text, l.maxChars) || CutTo(i.text, Compact(r.text, l.maxChars), l.maxTotal))
  }

  ghost predicate CutTo(shown: string, text: string, maxTotal: int) {
    exists remaining :: 0 < remaining <= maxTotal && remaining < |text| && shown == Compact(text, remaining)
  }

  // No earlier result is about the same lines.
  predicate IsFirst(results: seq<Result>, k: nat) {
    k < |results| && forall i | 0 <= i < k :: results[i].signature != results[k].signature
  }

  ghost predicate ShowsSome(i: Item, results: seq<Result>, l: Limits, n: nat) {
    exists k: nat :: k < n && IsFirst(results, k) && Shows(i, results[k], l)
  }

  // The signatures of the first n results.
  function Signatures(results: seq<Result>, n: nat): set<Signature>
    requires n <= |results|
  {
    set i | 0 <= i < n :: results[i].signature
  }

  // The loop has stopped for lack of room.
  predicate Full(p: Packing, l: Limits) {
    |p.items| >= l.maxEvidence || p.total >= l.maxTotal - 1
  }

  // The steps of the loop: stop, skip, or pack.
  lemma StepCases(p: Packing, r: Result, l: Limits)
    requires !p.done
    ensures var q, text := Step(p, r, l), Compact(r.text, l.maxChars);
            var left := l.maxTotal - p.total;
            if r.signature in p.seen then q == p
            else if text == "" then q == p.(seen := p.seen + {r.signature})
            else if q.items == p.items then q.done && Full(q, l)
            else
              var shown := if |text| > left then Compact(text, left) else text;
              && left > 0 && q.seen == p.seen + {r.signature} && (q.done <==> |q.items| >= l.maxEvidence)
              && q.items == p.items + [Item(r.signature, r.sourceType, shown, Score(r))]
  {
    hide Compact;
    var text, left := Compact(r.text, l.maxChars), l.maxTotal - p.total;
    if r.signature !in p.seen && text != "" && left > 0 && Fitted(text, left) == "" {
      OneCharacterIsLeft(r.text, l.maxChars, left);
    }
  }

  // A text that is not blank is only cut to nothing when one character is left.
  lemma OneCharacterIsLeft(text: string, maxChars: int, left: int)
    requires Compact(text, maxChars) != "" && left > 0 && Fitted(Compact(text, maxChars), left) == ""
    ensures left == 1
  {
    hide Compact, Words, Clean, IsSpace, AllSpace;
    var c := Compact(text, maxChars);
    CompactIsEmptyIff(text, maxChars);
    CompactIsEmptyIff(c, left);
    CompactHasWords(text, maxChars);
  }

  lemma CompactHasWords(text: string, maxChars: int)
    requires Compact(text, maxChars) != ""
    ensures Words(Compact(text, maxChars)) != []
  {
    hide *;
    var c := Compact(text, maxChars);
    CompactShowsAPrefix(text, maxChars);
    NoWords();
    CompactIsEmptyIff(text, maxChars);
    CleanKeepsWords(text);
    if |Clean(text)| > maxChars {
      CleanStartsWithText(text);
      SomeWord(c);
    }
  }

  // ---- which results are shown ----

  // What the loop has done with result j: it is shown, or the first of its signature was blank, or
  // there was no room.
  ghost predicate AccountedFor(p: Packing, results: seq<Result>, l: Limits, j: nat)
    requires j < |results|
  {
    || (exists i :: i in p.items && i.signature == results[j].signature)
    || (exists k: nat :: k <= j && BlankAt(results, l, j, k))
    || (p.done && Full(p, l))
  }

  predicate BlankAt(results: seq<Result>, l: Limits, j: nat, k: nat)
    requires j < |results|
  {
    IsFirst(results, k) && results[k].signature == results[j].signature && Compact(results[k].text, l.maxChars) == ""
  }

  ghost predicate LoopOk(p: Packing, results: seq<Result>, l: Limits, n: nat)
    requires n <= |results|
  {
    && (if p.done then Full(p, l) else p.seen == Signatures(results, n))
    && (forall i | i in p.items :: ShowsSome(i, results, l, n))
    && (forall j | 0 <= j < n :: AccountedFor(p, results, l, j))
  }

  lemma StillAccountedFor(p: Packing, q: Packing, results: seq<Result>, l: Limits, j: nat)
    requires j < |results| && AccountedFor(p, results, l, j) && !p.done && p.items <= q.items
    ensures AccountedFor(q, results, l, j)
  {
    hide BlankAt;
    if i :| i in p.items && i.signature == results[j].signature {
      assert i in q.items;
    }
  }

  // A result with the signature of an earlier one is accounted for with it.
  lemma LikeEarlier(p: Packing, results: seq<Result>, l: Limits, i: nat, j: nat)
    requires i < j < |results| && results[i].signature == results[j].signature && AccountedFor(p, results, l, i)
    ensures AccountedFor(p, results, l, j)
  {
    if k: nat :| k <= i && BlankAt(results, l, i, k) {
      assert BlankAt(results, l, j, k);
    }
  }

  lemma ShowsLater(i: Item, results: seq<Result>, l: Limits, n: nat)
    requires ShowsSome(i, results, l, n)
    ensures ShowsSome(i, results, l, n + 1)
  {
  }

  lemma MoreSignatures(results: seq<Result>, n: nat)
    requires n < |results|
    ensures Signatures(results, n + 1) == Signatures(results, n) + {results[n].signature}
    ensures IsFirst(results, n) <==> results[n].signature !in Signatures(results, n)
  {
  }

  lemma ScoreIs(r: Result)
    ensures ScoredAs(r, Score(r))
  {
  }

  // The item packed for result n shows it.
  lemma PackedShows(p: Packing, results: seq<Result>, l: Limits, n: nat)
    requires n < |results| && IsFirst(results, n) && l.maxTotal - p.total > 0
    ensures var r := results[n];
            var text, left := Compact(r.text, l.maxChars), l.maxTotal - p.total;
            ShowsSome(Item(r.signature, r.sourceType, if |text| > left then Compact(text, left) else text, Score(r)),
              results, l, n + 1)
  {
    hide Compact, Score;
    ScoreIs(results[n]);
  }

  lemma StepIsAccountedFor(p: Packing, results: seq<Result>, l: Limits, n: nat)
    requires n < |results| && !p.done && LoopOk(p, results, l, n)
    ensures AccountedFor(Step(p, results[n], l), results, l, n)
  {
    hide Compact, Score, Step, Full, ShowsSome;
    var r := results[n];
    var q := Step(p, r, l);
    StepCases(p, r, l);
    MoreSignatures(results, n);
    if r.signature in p.seen {
      var i :| 0 <= i < n && results[i].signature == r.signature;
      LikeEarlier(p, results, l, i, n);
    } else if Compact(r.text, l.maxChars) == "" {
      assert BlankAt(results, l, n, n);
    } else if q.items != p.items {
      assert q.items[|p.items|] in q.items;
    }
  }

  lemma StepKeepsLoopOk(p: Packing, results: seq<Result>, l: Limits, n: nat)
    requires n < |results| && LoopOk(p, results, l, n)
    ensures LoopOk(Step(p, results[n], l), results, l, n + 1)
  {
    hide Compact, Score, Step, ShowsSome, IsFirst, Signatures, BlankAt;
    var r := results[n];
    var q := Step(p, r, l);
    forall i | i in p.items
      ensures ShowsSome(i, results, l, n + 1)
    {
      ShowsLater(i, results, l, n);
    }
    if p.done {
      DoneStays(p, r, l);
      assert AccountedFor(p, results, l, n);
    } else {
      StepIsAccountedFor(p, results, l, n);
      StepCases(p, r, l);
      MoreSignatures(results, n);
      if q.items != p.items {
        PackedShows(p, results, l, n);
      }
      forall j | 0 <= j < n
        ensures AccountedFor(q, results, l, j)
      {
        StillAccountedFor(p, q, results, l, j);
      }
    }
  }

  lemma {:induction false} LoopIsOk(results: seq<Result>, l: Limits, n: nat)
    requires n <= |results|
    ensures LoopOk(Packed(results, l, n), results, l, n)
  {
    hide *;
    if n == 0 {
      StartIsOk(results, l);
    } else {
      LoopIsOk(results, l, n - 1);
      StepKeepsLoopOk(Packed(results, l, n - 1), results, l, n - 1);
      OneMore(results, l, n);
    }
  }

  lemma StartIsOk(results: seq<Result>, l: Limits)
    ensures LoopOk(Packed(results, l, 0), results, l, 0)
  {
    hide Step, ShowsSome, AccountedFor;
    assert Signatures(results, 0) == {};
  }

  lemma OneMore(results: seq<Result>, l: Limits, n: nat)
    requires 1 <= n <= |results|
    ensures Packed(results, l, n) == Step(Packed(results, l, n - 1), results[n - 1], l)
  {
    hide Step;
  }

  // Sorting changes neither which items there are nor their characters.
  lemma EvidenceHoldsThePacked(results: seq<Result>, l: Limits)
    requires l.maxEvidence > 0
    ensures var e, p := Evidence(results, l), Packed(results, l, |results|);
            (forall i :: i in e <==> i in p.items) && |e| == |p.items| && TotalChars(e) == p.total
  {
    hide Packed, TotalChars, Take, Sorted, IsSorted, WithKey, DistinctSignatures, Long;
    var e, p := Evidence(results, l), Packed(results, l, |results|);
    EvidenceIsBounded(results, l);
    PackedOk(results, l, |results|);
    SortIsStable(p.items, Item(Signature("", Prelude.None, Prelude.None), "", "", 0.0));
    assert |Sorted(p.items)| == |p.items| by {
      assert |multiset(Sorted(p.items))| == |multiset(p.items)|;
    }
    AllEvidence(Sorted(p.items), l.maxEvidence);
    forall i
      ensures i in e <==> i in p.items
    {
      assert i in multiset(e) <==> i in multiset(p.items);
    }
  }

  /** Every item of the evidence shows a result, the first about its lines: its source type, its score
      and its compacted text, or what a smaller rest of the total left of that text. */
  lemma ItemsShowResults(results: seq<Result>, l: Limits, i: Item)
    requires i in Evidence(results, l)
    ensures exists k: nat :: k < |results| && IsFirst(results, k) && Shows(i, results[k], l)
  {
    hide Packed, Evidence, Shows, IsFirst, AccountedFor, Long;
    EvidenceIsBounded(results, l);
    LoopIsOk(results, l, |results|);
    EvidenceHoldsThePacked(results, l);
    assert ShowsSome(i, results, l, |results|);
  }

  /** No result is left out but for a reason: if the evidence shows nothing about a result's lines, the
      first result about them leaves nothing to pack, or the evidence is full, in number or with at
      most one character left. */
  lemma NothingIsLeftOut(results: seq<Result>, l: Limits, j: nat)
    requires j < |results| && l.maxEvidence > 0
    ensures var e := Evidence(results, l);
            || (exists i :: i in e && i.signature == results[j].signature)
            || (exists k: nat :: k <= j && IsFirst(results, k) && results[k].signature == results[j].signature
                  && Compact(results[k].text, l.maxChars) == "")
            || |e| == l.maxEvidence || TotalChars(e) >= l.maxTotal - 1
  {
    hide Packed, Evidence, ShowsSome, IsFirst, Compact, TotalChars;
    LoopIsOk(results, l, |results|);
    EvidenceHoldsThePacked(results, l);
    EvidenceIsBounded(results, l);
    var p := Packed(results, l, |results|);
    assert AccountedFor(p, results, l, j);
    if k: nat :| k <= j && BlankAt(results, l, j, k) {
      assert IsFirst(results, k);
    }
  }

  // ---- order ----

  const SOURCES := ["deploy", "logs", "code", "incident", "config", "api_doc", "runbook"]

  /** The sources rank in this order, and every other source after them. */
  lemma SourcesAreRanked(i: nat, j: nat, other: string)
    requires i < |SOURCES| && j < |SOURCES| && other !in SOURCES
    ensures Priority(SOURCES[i]) < Priority(SOURCES[j]) <==> i < j
    ensures Priority(SOURCES[i]) < Priority(other)
  {
    assert Priority(SOURCES[i]) == i && Priority(SOURCES[j]) == j;
  }

  // a is a prefix of b, or smaller at the first place where they differ.
  ghost predicate PathBefore(a: string, b: string) {
    || a <= b
    || exists k :: DiffersAt(a, b, k) && a[k] < b[k]
  }

  predicate DiffersAt(a: string, b: string, k: int) {
    0 <= k < |a| && k < |b| && a[..k] == b[..k] && a[k] != b[k]
  }

  lemma {:induction false} PathLeqIff(a: string, b: string)
    ensures PathLeq(a, b) <==> PathBefore(a, b)
  {
    if a != "" && b != "" {
      if a[0] == b[0] {
        PathLeqIff(a[1..], b[1..]);
        SameFirst(a, b);
      } else {
        assert a[..0] == b[..0];
        if a[0] < b[0] {
          assert DiffersAt(a, b, 0);
        } else {
          OnlyDiffersAt(a, b);
        }
      }
    }
  }

  lemma OnlyDiffersAt(a: string, b: string)
    requires a != "" && b != "" && a[0] != b[0]
    ensures forall k | DiffersAt(a, b, k) :: k == 0
    ensures !(a <= b)
  {
  }

  lemma SameFirst(a: string, b: string)
    requires a != "" && b != "" && a[0] == b[0]
    ensures PathBefore(a, b) <==> PathBefore(a[1..], b[1..])
  {
    var x, y := a[1..], b[1..];
    assert a == [a[0]] + x && b == [a[0]] + y;
    assert a <= b <==> x <= y by {
      if x <= y {
        assert a <= b;
      }
      if a <= b {
        assert x == y[..|x|];
      }
    }
    forall k | DiffersAt(x, y, k)
      ensures DiffersAt(a, b, k + 1)
    {
      assert a[..k + 1] == [a[0]] + x[..k] && b[..k + 1] == [a[0]] + y[..k];
    }
    forall k | DiffersAt(a, b, k)
      ensures k > 0 && DiffersAt(x, y, k - 1)
    {
      assert x[..k - 1] == a[..k][1..] && y[..k - 1] == b[..k][1..];
    }
    if PathBefore(x, y) && !(x <= y) {
      var k :| DiffersAt(x, y, k) && x[k] < y[k];
      assert DiffersAt(a, b, k + 1);
    }
    if PathBefore(a, b) && !(a <= b) {
      var k :| DiffersAt(a, b, k) && a[k] < b[k];
      assert DiffersAt(x, y, k - 1);
    }
  }

  /** The evidence goes from high scores to low; among equal scores by the rank of the source; and for
      one source by path, compared character by character. */
  lemma EvidenceIsOrdered(results: seq<Result>, l: Limits, i: nat, j: nat)
    requires i < j < |Evidence(results, l)|
    ensures var e := Evidence(results, l);
            var a, b := Priority(e[i].sourceType), Priority(e[j].sourceType);
            && e[i].score >= e[j].score
            && (e[i].score == e[j].score ==> a <= b)
            && (e[i].score == e[j].score && a == b ==> PathBefore(e[i].signature.path, e[j].signature.path))
  {
    hide Evidence, Packed, PathLeq, PathBefore, Priority, Long, DistinctSignatures, TotalChars;
    var e := Evidence(results, l);
    EvidenceIsBounded(results, l);
    assert KeyLeq(e[i], e[j]);
    PathLeqIff(e[i].signature.path, e[j].signature.path);
  }
}
