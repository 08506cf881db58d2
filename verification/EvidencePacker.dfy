/** pack_evidence and _compact_text of incidentops/retrieval/evidence_packer.py. Texts are taken
    after secret redaction; the injection flags do not affect the packing. */
module EvidencePacker {
  import opened Prelude
  import opened Text

  // Where a chunk comes from.
  datatype Signature = Signature(path: string, startLine: Option<int>, endLine: Option<int>)

  datatype Result = Result(signature: Signature, sourceType: string, text: string, rerank: Option<real>,
      fused: Option<real>)

  datatype Item = Item(signature: Signature, sourceType: string, text: string, score: real)

  datatype Limits = Limits(maxEvidence: int, maxChars: int, maxTotal: int)

  // SOURCE_PRIORITY
  function Priority(sourceType: string): nat {
    match sourceType
    case "deploy" => 0
    case "logs" => 1
    case "code" => 2
    case "incident" => 3
    case "config" => 4
    case "api_doc" => 5
    case "runbook" => 6
    case _ => 99
  }

  // r.get("rerank_score") or r.get("fused_score", 0.0): a zero falls through.
  function Score(r: Result): real {
    if r.rerank.Some? && r.rerank.value != 0.0 then r.rerank.value
    else if r.fused.Some? then r.fused.value
    else 0.0
  }

  // ---- _compact_text ----

  function RightStripped(lines: seq<string>): seq<string> {
    seq(|lines|, i requires 0 <= i < |lines| => RightStrip(lines[i]))
  }

  function Clean(text: string): string {
    Join(RightStripped(SplitLines(Strip(text))), '\n')
  }

  // The cut text with its mark, or nothing if nothing is left of it.
  function Truncated(cleaned: string, maxChars: int): string {
    var cut := RightStrip(cleaned[..Min(Max(maxChars - 1, 0), |cleaned|)]);
    if cut == "" then "" else cut + "..."
  }

  function Compact(text: string, maxChars: int): string {
    if |Clean(text)| <= maxChars then Clean(text) else Truncated(Clean(text), maxChars)
  }

  /** A compacted text has at most two characters more than the limit. */
  lemma CompactIsShort(text: string, maxChars: int)
    ensures Compact(text, maxChars) == "" || (maxChars > 0 && |Compact(text, maxChars)| <= maxChars + 2)
  {
  }

  // ---- the loop ----

  datatype Packing = Packing(items: seq<Item>, seen: set<Signature>, total: nat, done: bool)

  const EMPTY := Packing([], {}, 0, false)

  // The text a result is packed with when `remaining` characters are left.
  function Fitted(text: string, remaining: int): string {
    if |text| > remaining then Compact(text, remaining) else text
  }

  function Step(p: Packing, r: Result, l: Limits): Packing {
    if p.done || r.signature in p.seen then p
    else
      var q := p.(seen := p.seen + {r.signature});
      var text, remaining := Compact(r.text, l.maxChars), l.maxTotal - p.total;
      if text == "" then q
      else if remaining <= 0 || Fitted(text, remaining) == "" then q.(done := true)
      else
        var fitted := Fitted(text, remaining);
        Packing(p.items + [Item(r.signature, r.sourceType, fitted, Score(r))], q.seen, p.total + |fitted|,
            |p.items| + 1 >= l.maxEvidence)
  }

  function Packed(results: seq<Result>, l: Limits, k: nat): Packing
    requires k <= |results|
  {
    if k == 0 then EMPTY else Step(Packed(results, l, k - 1), results[k - 1], l)
  }

  // evidence[:n], where a negative n drops from the end.
  function Take(items: seq<Item>, n: int): seq<Item> {
    items[..if n >= 0 then Min(n, |items|) else Max(0, |items| + n)]
  }

  function Evidence(results: seq<Result>, l: Limits): seq<Item> {
    Take(Sorted(Packed(results, l, |results|).items), l.maxEvidence)
  }

  method PackEvidence(results: seq<Result>, l: Limits) returns (evidence: seq<Item>)
    ensures evidence == Evidence(results, l)
  {
    hide Compact, Sorted, Take;
    evidence := [];
    var seen: set<Signature>, total: nat, i := {}, 0, 0;
    while i < |results|
      invariant 0 <= i <= |results| && Packed(results, l, i) == Packing(evidence, seen, total, false)
    {
      var r := results[i];
      i := i + 1;
      if r.signature in seen {
        continue;
      }
      seen := seen + {r.signature};
      var text := Compact(r.text, l.maxChars);
      if text == "" {
        continue;
      }
      var remaining := l.maxTotal - total;
      if remaining <= 0 {
        PackingStops(results, l, i, |results|);
        break;
      }
      if |text| > remaining {
        text := Compact(text, remaining);
      }
      if text == "" {
        PackingStops(results, l, i, |results|);
        break;
      }
      evidence := evidence + [Item(r.signature, r.sourceType, text, Score(r))];
      total := total + |text|;
      if |evidence| >= l.maxEvidence {
        PackingStops(results, l, i, |results|);
        break;
      }
    }
    evidence := Take(Sorted(evidence), l.maxEvidence);
  }

  lemma {:induction false} PackingStops(results: seq<Result>, l: Limits, k: nat, n: nat)
    requires k <= n <= |results| && Packed(results, l, k).done
    ensures Packed(results, l, n) == Packed(results, l, k)
  {
    if k < n {
      hide Step;
      PackingStops(results, l, k, n - 1);
      DoneStays(Packed(results, l, n - 1), results[n - 1], l);
    }
  }

  lemma DoneStays(p: Packing, r: Result, l: Limits)
    requires p.done
    ensures Step(p, r, l) == p
  {
  }

  // ---- bounds ----

  function TotalChars(items: seq<Item>): nat {
    if items == [] then 0 else TotalChars(items[..|items| - 1]) + |items[|items| - 1].text|
  }

  predicate Short(i: Item, l: Limits) {
    i.text != "" && |i.text| <= l.maxChars + 2
  }

  predicate DistinctSignatures(items: seq<Item>) {
    forall i, j | 0 <= i < j < |items| :: items[i].signature != items[j].signature
  }

  // All texts are within two characters of the limit, but for a last one with a third.
  predicate TextsOk(items: seq<Item>, total: nat, l: Limits) {
    && (forall i | 0 <= i < |items| - 1 :: Short(items[i], l))
    && (items != [] ==>
          var last := items[|items| - 1];
          last.text != "" && |last.text| <= l.maxChars + 3
              && (|last.text| == l.maxChars + 3 ==> total == l.maxTotal + 2))
  }

  predicate PackingOk(p: Packing, l: Limits) {
    && (forall i | 0 <= i < |p.items| :: p.items[i].signature in p.seen)
    && DistinctSignatures(p.items)
    && p.total == TotalChars(p.items)
    && (p.items != [] ==> p.total <= l.maxTotal + 2)
    && TextsOk(p.items, p.total, l)
    && (!p.done ==> p.items == [] || |p.items| < l.maxEvidence)
    && |p.items| <= Max(1, l.maxEvidence)
  }

  lemma FittedIsShort(text: string, remaining: int, maxChars: int)
    requires text != "" && |text| <= maxChars + 2 && remaining > 0
    ensures var f := Fitted(text, remaining);
            |f| <= remaining + 2 && |f| <= maxChars + 3 && (|f| == maxChars + 3 ==> |f| == remaining + 2)
  {
    CompactIsShort(text, remaining);
  }

  lemma StepKeepsPackingOk(p: Packing, r: Result, l: Limits)
    requires PackingOk(p, l)
    ensures PackingOk(Step(p, r, l), l)
  {
    hide Compact, Fitted;
    var text, remaining := Compact(r.text, l.maxChars), l.maxTotal - p.total;
    CompactIsShort(r.text, l.maxChars);
    if text != "" && remaining > 0 {
      FittedIsShort(text, remaining, l.maxChars);
      var q := Step(p, r, l);
      assert |q.items| > |p.items| ==> q.items[..|q.items| - 1] == p.items;
    }
  }

  lemma {:induction false} PackedOk(results: seq<Result>, l: Limits, k: nat)
    requires k <= |results|
    ensures PackingOk(Packed(results, l, k), l)
  {
    if k > 0 {
      hide Step, PackingOk;
      PackedOk(results, l, k - 1);
      StepKeepsPackingOk(Packed(results, l, k - 1), results[k - 1], l);
    } else {
      assert PackingOk(EMPTY, l);
    }
  }

  // ---- sorting ----

  // str comparison, by code points.
  predicate PathLeq(a: string, b: string) {
    a == "" || (b != "" && (a[0] < b[0] || (a[0] == b[0] && PathLeq(a[1..], b[1..]))))
  }

  // (-score, priority, path) of a is at most that of b.
  predicate KeyLeq(a: Item, b: Item) {
    || a.score > b.score
    || (a.score == b.score && Priority(a.sourceType) < Priority(b.sourceType))
    || (a.score == b.score && Priority(a.sourceType) == Priority(b.sourceType)
        && PathLeq(a.signature.path, b.signature.path))
  }

  predicate SameKey(a: Item, b: Item) {
    KeyLeq(a, b) && KeyLeq(b, a)
  }

  lemma {:induction false} PathOrder(a: string, b: string, c: string)
    ensures PathLeq(a, b) || PathLeq(b, a)
    ensures PathLeq(a, b) && PathLeq(b, c) ==> PathLeq(a, c)
  {
    if a != "" && b != "" && c != "" {
      PathOrder(a[1..], b[1..], c[1..]);
    } else if a != "" && b != "" {
      PathOrder(a[1..], b[1..], "");
    }
  }

  lemma KeyOrder(a: Item, b: Item, c: Item)
    ensures KeyLeq(a, b) || KeyLeq(b, a)
    ensures KeyLeq(a, b) && KeyLeq(b, c) ==> KeyLeq(a, c)
  {
    PathOrder(a.signature.path, b.signature.path, c.signature.path);
  }

  // x goes behind everything it does not come before.
  function Insert(items: seq<Item>, x: Item): seq<Item> {
    if items == [] then [x]
    else
      var last := items[|items| - 1];
      if KeyLeq(last, x) then items + [x] else Insert(items[..|items| - 1], x) + [last]
  }

  // list.sort with this key.
  function Sorted(items: seq<Item>): seq<Item> {
    if items == [] then [] else Insert(Sorted(items[..|items| - 1]), items[|items| - 1])
  }

  predicate IsSorted(items: seq<Item>) {
    forall i, j | 0 <= i < j < |items| :: KeyLeq(items[i], items[j])
  }

  // The items with x's key, in order.
  function WithKey(items: seq<Item>, x: Item): seq<Item> {
    if items == [] then []
    else
      var before, last := WithKey(items[..|items| - 1], x), items[|items| - 1];
      if SameKey(last, x) then before + [last] else before
  }

  lemma WithKeySnoc(items: seq<Item>, last: Item, x: Item)
    ensures WithKey(items + [last], x) == if SameKey(last, x) then WithKey(items, x) + [last] else WithKey(items, x)
    ensures TotalChars(items + [last]) == TotalChars(items) + |last.text|
  {
    assert (items + [last])[..|items|] == items;
  }

  lemma {:induction false} InsertSorts(items: seq<Item>, x: Item)
    requires IsSorted(items)
    ensures IsSorted(Insert(items, x))
    ensures multiset(Insert(items, x)) == multiset(items) + multiset{x}
  {
    if items != [] {
      hide KeyLeq;
      var front, last := items[..|items| - 1], items[|items| - 1];
      assert items == front + [last];
      if KeyLeq(last, x) {
        forall i | 0 <= i < |items|
          ensures KeyLeq(items[i], x)
        {
          KeyOrder(items[i], last, x);
        }
      } else {
        InsertSorts(front, x);
        var t := Insert(front, x);
        KeyOrder(last, x, x);
        forall i | 0 <= i < |t|
          ensures KeyLeq(t[i], last)
        {
          assert t[i] in multiset(t);
          assert t[i] in front || t[i] == x;
        }
      }
    }
  }

  lemma {:induction false} InsertIsStable(items: seq<Item>, x: Item, y: Item)
    requires IsSorted(items)
    ensures WithKey(Insert(items, x), y) == WithKey(items + [x], y)
    ensures TotalChars(Insert(items, x)) == TotalChars(items) + |x.text|
  {
    if items == [] {
      assert [] + [x] == [x];
      WithKeySnoc([], x, y);
    } else {
      hide KeyLeq, IsSorted, WithKey, TotalChars;
      var front, last := items[..|items| - 1], items[|items| - 1];
      assert items == front + [last];
      WithKeySnoc(items, x, y);
      WithKeySnoc(front, last, y);
      if !KeyLeq(last, x) {
        SortedFront(items);
        InsertIsStable(front, x, y);
        WithKeySnoc(front, x, y);
        WithKeySnoc(Insert(front, x), last, y);
        NotBothSameKey(last, x, y);
      }
    }
  }

  lemma SortedFront(items: seq<Item>)
    requires IsSorted(items) && items != []
    ensures IsSorted(items[..|items| - 1])
  {
  }

  lemma NotBothSameKey(a: Item, b: Item, y: Item)
    requires !KeyLeq(a, b)
    ensures !(SameKey(a, y) && SameKey(b, y))
  {
    KeyOrder(a, y, b);
  }

  /** The sort puts the items in order of score, source priority and path, keeps each item, and
      keeps items of the same key in packing order. */
  lemma {:induction false} SortIsStable(items: seq<Item>, y: Item)
    ensures IsSorted(Sorted(items)) && multiset(Sorted(items)) == multiset(items)
    ensures WithKey(Sorted(items), y) == WithKey(items, y)
    ensures TotalChars(Sorted(items)) == TotalChars(items)
  {
    if items != [] {
      hide IsSorted, Insert;
      var front, last := items[..|items| - 1], items[|items| - 1];
      assert items == front + [last];
      SortIsStable(front, y);
      InsertSorts(Sorted(front), last);
      InsertIsStable(Sorted(front), last, y);
      WithKeySnoc(Sorted(front), last, y);
    } else {
      assert IsSorted([]);
    }
  }

  lemma TwoOccurrences<T>(s: seq<T>, i: nat, j: nat)
    requires i < j < |s| && s[i] == s[j]
    ensures multiset(s)[s[i]] >= 2
  {
    assert s == s[..j] + s[j..];
    assert s[..j][i] in multiset(s[..j]) && s[j..][0] in multiset(s[j..]);
  }

  lemma OneOccurrence<T>(s: seq<T>, k: nat)
    requires k < |s| && forall m | 0 <= m < |s| && m != k :: s[m] != s[k]
    ensures multiset(s)[s[k]] == 1
  {
    assert s == s[..k] + [s[k]] + s[k + 1..];
    assert s[k] !in multiset(s[..k]) && s[k] !in multiset(s[k + 1..]);
  }

  // Items with one signature would be one item of `a`, which is there once.
  lemma PermutationKeepsDistinct(a: seq<Item>, b: seq<Item>)
    requires multiset(a) == multiset(b) && DistinctSignatures(a)
    ensures DistinctSignatures(b)
  {
    forall i, j | 0 <= i < j < |b|
      ensures b[i].signature != b[j].signature
    {
      assert b[i] in multiset(b) && b[j] in multiset(b);
      assert b[i] in a && b[j] in a;
      var k :| 0 <= k < |a| && a[k] == b[i];
      var m :| 0 <= m < |a| && a[m] == b[j];
      OneOccurrence(a, k);
      if k == m {
        TwoOccurrences(b, i, j);
      }
    }
  }

  lemma AllEvidence(items: seq<Item>, n: int)
    requires items == [] || |items| <= Max(1, n)
    ensures n > 0 ==> Take(items, n) == items
    ensures n <= 0 ==> Take(items, n) == []
  {
  }

  // A third character over the limit.
  predicate Long(i: Item, l: Limits) {
    |i.text| > l.maxChars + 2
  }

  // Only the last packed item can have one, and then the total is two over.
  lemma LongIsLast(p: Packing, l: Limits, k: nat)
    requires PackingOk(p, l) && k < |p.items| && Long(p.items[k], l)
    ensures k == |p.items| - 1 && p.total == l.maxTotal + 2
  {
  }

  // In a permutation of the packed items, too, at most one item has a third character.
  lemma LongIsSingle(p: Packing, l: Limits, s: seq<Item>)
    requires PackingOk(p, l) && multiset(s) == multiset(p.items) && DistinctSignatures(s)
    ensures forall i, j | 0 <= i < j < |s| :: !(Long(s[i], l) && Long(s[j], l))
    ensures (exists i :: i in s && Long(i, l)) ==> p.total == l.maxTotal + 2
  {
    hide PackingOk, Long;
    forall i | 0 <= i < |s| && Long(s[i], l)
      ensures p.items != [] && s[i] == p.items[|p.items| - 1] && p.total == l.maxTotal + 2
    {
      assert s[i] in multiset(s);
      var k :| 0 <= k < |p.items| && p.items[k] == s[i];
      LongIsLast(p, l, k);
    }
  }

  /** At most max_evidence items with distinct signatures, none empty and none more than three
      characters over the limit, in total at most two characters over, sorted. At most one item is
      three over, and then the total is exactly two over. */
  lemma EvidenceIsBounded(results: seq<Result>, l: Limits)
    ensures var e := Evidence(results, l);
            && |e| <= Max(0, l.maxEvidence)
            && DistinctSignatures(e)
            && IsSorted(e)
            && (e != [] ==> TotalChars(e) <= l.maxTotal + 2)
            && (forall i | i in e :: i.text != "" && |i.text| <= l.maxChars + 3)
            && (forall i, j | 0 <= i < j < |e| :: !(Long(e[i], l) && Long(e[j], l)))
            && ((exists i :: i in e && Long(i, l)) ==> TotalChars(e) == l.maxTotal + 2)
            && (l.maxEvidence > 0 ==> multiset(e) == multiset(Packed(results, l, |results|).items))
  {
    hide Packed, Sorted, Take, KeyLeq, IsSorted, TotalChars, WithKey, DistinctSignatures, Long;
    var p := Packed(results, l, |results|);
    PackedOk(results, l, |results|);
    var s := Sorted(p.items);
    SortIsStable(p.items, Item(Signature("", None, None), "", "", 0.0));
    PermutationKeepsDistinct(p.items, s);
    LongIsSingle(p, l, s);
    assert |s| == |p.items| by {
      assert |multiset(s)| == |multiset(p.items)|;
    }
    AllEvidence(s, l.maxEvidence);
    NothingIsSorted();
    forall i | i in s
      ensures i.text != "" && |i.text| <= l.maxChars + 3
    {
      assert i in multiset(s);
      assert i in p.items;
    }
  }

  lemma NothingIsSorted()
    ensures IsSorted([]) && DistinctSignatures([]) && TotalChars([]) == 0
  {
  }

  // ---- the third character ----

  // Only newlines break lines, and no space stands before one.
  predicate Tidy(s: string) {
    && (forall i | 0 <= i < |s| :: IsLineBreak(s[i]) ==> s[i] == '\n')
    && (forall i | 0 <= i < |s| - 1 :: s[i + 1] == '\n' && s[i] != '\n' ==> !IsSpace(s[i]))
  }

  lemma {:induction false} LineIsPrefix(s: string)
    ensures var k := LineLength(s);
            forall i | 0 <= i < k :: !IsLineBreak(s[i])
  {
    if s != "" && !IsLineBreak(s[0]) {
      LineIsPrefix(s[1..]);
      assert forall i | 0 < i < LineLength(s) :: s[i] == s[1..][i - 1];
    }
  }

  lemma RightStripKeeps(s: string)
    requires s == "" || !IsSpace(s[|s| - 1])
    ensures RightStrip(s) == s
  {
  }

  lemma SplitLinesStep(s: string)
    requires s != ""
    ensures SplitLines(s) == if LineLength(s) == |s| then [s] else [s[..LineLength(s)]] + SplitLines(AfterLine(s))
  {
  }

  // The lines of a tidy text are already stripped, and joining them gives it back.
  lemma {:induction false} TidyLines(s: string)
    requires Tidy(s) && s != "" && !IsSpace(s[|s| - 1])
    ensures SplitLines(s) != [] && Join(RightStripped(SplitLines(s)), '\n') == s
    decreases |s|
  {
    hide *;
    var k := LineLength(s);
    SplitLinesStep(s);
    if k == |s| {
      RightStripKeeps(s);
      StrippedCons(s, []);
      NothingStripped();
      assert [s] + [] == [s];
      JoinOne(s);
    } else {
      BreaksAreNewlines(s);
      var rest := s[k + 1..];
      TidyTail(s, k + 1);
      TidyLines(rest);
      RightStripKeeps(s[..k]);
      StrippedCons(s[..k], SplitLines(rest));
      StrippedLength(SplitLines(rest));
      JoinMore(s[..k], RightStripped(SplitLines(rest)));
      assert s == s[..k] + ['\n'] + rest;
    }
  }

  lemma StrippedCons(line: string, lines: seq<string>)
    ensures RightStripped([line] + lines) == [RightStrip(line)] + RightStripped(lines)
  {
    hide RightStrip;
  }

  lemma NothingStripped()
    ensures RightStripped([]) == []
  {
  }

  lemma StrippedLength(lines: seq<string>)
    ensures |RightStripped(lines)| == |lines|
  {
  }

  lemma JoinOne(s: string)
    ensures Join([s], '\n') == s
  {
  }

  lemma JoinMore(s: string, lines: seq<string>)
    requires lines != []
    ensures Join([s] + lines, '\n') == s + ['\n'] + Join(lines, '\n')
  {
    assert ([s] + lines)[1..] == lines;
  }

  // The first line of a tidy text ends in a newline, is stripped, and is not the whole text.
  lemma BreaksAreNewlines(s: string)
    requires Tidy(s) && LineLength(s) < |s| && !IsSpace(s[|s| - 1])
    ensures var k := LineLength(s);
            && s[k] == '\n' && k + 1 < |s| && AfterLine(s) == s[k + 1..]
            && (k > 0 ==> !IsSpace(s[k - 1]))
  {
    LineIsPrefix(s);
  }

  lemma TidyTail(s: string, k: nat)
    requires Tidy(s) && k < |s|
    ensures Tidy(s[k..]) && s[k..][|s| - k - 1] == s[|s| - 1]
  {
    hide IsSpace, IsLineBreak;
    var t := s[k..];
    forall i | 0 <= i < |t| - 1
      ensures t[i + 1] == '\n' && t[i] != '\n' ==> !IsSpace(t[i])
    {
      assert t[i] == s[k + i] && t[i + 1] == s[k + i + 1];
    }
  }

  // A line of a cleaned text.
  predicate CleanLine(line: string) {
    (forall c | c in line :: !IsLineBreak(c)) && (line != "" ==> !IsSpace(line[|line| - 1]))
  }

  lemma {:induction false} JoinedLinesAreTidy(lines: seq<string>)
    requires forall l | l in lines :: CleanLine(l)
    ensures Tidy(Join(lines, '\n'))
  {
    if lines != [] {
      hide IsSpace, IsLineBreak;
      assert lines[0] in lines && CleanLine(lines[0]);
      assert forall i | 0 <= i < |lines[0]| :: lines[0][i] in lines[0];
      JoinedLinesAreTidy(lines[1..]);
    }
  }

  lemma {:induction false} RightStripEndsInText(s: string)
    ensures RightStrip(s) != "" ==> !IsSpace(RightStrip(s)[|RightStrip(s)| - 1])
  {
    if s != "" && IsSpace(s[|s| - 1]) {
      RightStripEndsInText(s[..|s| - 1]);
    }
  }

  lemma {:induction false} SplitLinesHaveNoBreaks(s: string)
    ensures forall l | l in SplitLines(s) :: forall c | c in l :: !IsLineBreak(c)
    decreases |s|
  {
    if s != "" {
      hide IsLineBreak, LineLength;
      LineIsPrefix(s);
      if LineLength(s) < |s| {
        SplitLinesHaveNoBreaks(AfterLine(s));
      }
    }
  }

  lemma CleanIsTidy(text: string)
    ensures Tidy(Clean(text))
  {
    hide IsSpace, IsLineBreak, Tidy, SplitLines, Strip, Join;
    var lines := SplitLines(Strip(text));
    SplitLinesHaveNoBreaks(Strip(text));
    forall l | l in RightStripped(lines)
      ensures CleanLine(l)
    {
      var i :| 0 <= i < |lines| && RightStrip(lines[i]) == l;
      assert lines[i] in lines;
      RightStripEndsInText(lines[i]);
    }
    JoinedLinesAreTidy(RightStripped(lines));
  }

  // A text that starts and ends with text is not stripped.
  lemma StripKeeps(s: string)
    requires s != "" && !IsSpace(s[0]) && !IsSpace(s[|s| - 1])
    ensures Strip(s) == s
  {
  }

  lemma {:induction false} RightStripKeepsStart(s: string)
    requires s != "" && !IsSpace(s[0])
    ensures RightStrip(s) != "" && RightStrip(s)[0] == s[0]
  {
    if IsSpace(s[|s| - 1]) {
      RightStripKeepsStart(s[..|s| - 1]);
    }
  }

  lemma CleanStartsWithText(text: string)
    requires Clean(text) != ""
    ensures !IsSpace(Clean(text)[0])
  {
    hide *;
    var s := Strip(text);
    CleanUnfolds(text);
    SplitLinesStep(s);
    StripStartsWithText(text);
    FirstLineOf(s);
    RightStripKeepsStart(SplitLines(s)[0]);
  }

  lemma CleanUnfolds(text: string)
    ensures var s := Strip(text);
            && (s == "" ==> Clean(text) == "")
            && (SplitLines(s) != [] && RightStrip(SplitLines(s)[0]) != ""
                ==> Clean(text) != "" && Clean(text)[0] == RightStrip(SplitLines(s)[0])[0])
  {
  }

  lemma StripStartsWithText(text: string)
    ensures Strip(text) != "" ==> !IsSpace(Strip(text)[0])
  {
    WordsOfLeftStrip(text);
    FirstStaysOnRightStrip(LeftStrip(text));
  }

  lemma FirstLineOf(s: string)
    ensures s == "" || IsSpace(s[0]) || (SplitLines(s) != [] && SplitLines(s)[0] != "" && SplitLines(s)[0][0] == s[0])
  {
    BreakIsSpace(s);
  }

  lemma BreakIsSpace(s: string)
    ensures s != "" && !IsSpace(s[0]) ==> LineLength(s) > 0
  {
  }

  // A cut of a cleaned text, with its mark, is clean.
  lemma MarkedCutIsClean(text: string, k: nat)
    requires k <= |Clean(text)| && RightStrip(Clean(text)[..k]) != ""
    ensures Clean(RightStrip(Clean(text)[..k]) + "...") == RightStrip(Clean(text)[..k]) + "..."
  {
    hide Clean, SplitLines, Join, Strip, IsSpace, IsLineBreak, RightStrip;
    var cut := RightStrip(Clean(text)[..k]);
    var s := cut + "...";
    assert cut <= Clean(text);
    CleanIsTidy(text);
    CleanStartsWithText(text);
    DotIsText();
    TidyCut(Clean(text), cut);
    StripKeeps(s);
    TidyLines(s);
    CleanOf(s);
  }

  lemma CleanOf(s: string)
    ensures Clean(s) == Join(RightStripped(SplitLines(Strip(s))), '\n')
  {
  }

  lemma DotIsText()
    ensures !IsSpace('.') && !IsLineBreak('.')
  {
  }

  lemma TidyCut(s: string, cut: string)
    requires Tidy(s) && cut <= s && cut != ""
    ensures Tidy(cut + "...")
  {
    hide IsSpace, IsLineBreak;
    DotIsText();
    var t := cut + "...";
    forall i | 0 <= i < |t| - 1
      ensures t[i + 1] == '\n' && t[i] != '\n' ==> !IsSpace(t[i])
    {
      if i + 1 < |cut| {
        assert t[i] == s[i] && t[i + 1] == s[i + 1];
      }
    }
  }

  /** One fitted text is more than two characters over the limit if and only if it had been cut
      to full length and exactly one character more than the limit is left in total. */
  lemma ThirdCharacterIff(text: string, remaining: int, maxChars: int)
    requires Compact(text, maxChars) != "" && remaining > 0
    ensures |Fitted(Compact(text, maxChars), remaining)| > maxChars + 2
            <==> |Compact(text, maxChars)| == maxChars + 2 && remaining == maxChars + 1
  {
    hide Clean, RightStrip;
    var c := Compact(text, maxChars);
    CompactIsShort(text, maxChars);
    FittedIsShort(c, remaining, maxChars);
    if |c| == maxChars + 2 && remaining == maxChars + 1 {
      var cut := RightStrip(Clean(text)[..maxChars - 1]);
      MarkedCutIsClean(text, maxChars - 1);
      assert c == cut + "..." && c[..maxChars] == cut + ".";
      DotIsText();
      RightStripKeeps(c[..maxChars]);
    }
  }

  // This result is packed with a third character: it is not skipped, its text is cut to full
  // length, and one character more than the limit is left.
  predicate ThirdStep(p: Packing, r: Result, l: Limits) {
    && !p.done && r.signature !in p.seen && Compact(r.text, l.maxChars) != ""
    && |Compact(r.text, l.maxChars)| == l.maxChars + 2 && l.maxTotal - p.total == l.maxChars + 1
  }

  predicate HasLong(items: seq<Item>, l: Limits) {
    exists i :: i in items && Long(i, l)
  }

  lemma LongAppended(items: seq<Item>, i: Item, l: Limits)
    ensures HasLong(items + [i], l) <==> HasLong(items, l) || Long(i, l)
  {
    assert i in items + [i] && forall x | x in items :: x in items + [i];
  }

  lemma StepPacksLongIff(p: Packing, r: Result, l: Limits)
    ensures HasLong(Step(p, r, l).items, l) <==> HasLong(p.items, l) || ThirdStep(p, r, l)
  {
    hide Compact, Fitted, HasLong;
    var text, remaining := Compact(r.text, l.maxChars), l.maxTotal - p.total;
    CompactIsShort(r.text, l.maxChars);
    if text != "" && remaining > 0 {
      ThirdCharacterIff(r.text, remaining, l.maxChars);
      LongAppended(p.items, Item(r.signature, r.sourceType, Fitted(text, remaining), Score(r)), l);
    }
  }

  predicate ThirdAt(results: seq<Result>, l: Limits, k: nat) {
    k < |results| && ThirdStep(Packed(results, l, k), results[k], l)
  }

  ghost predicate SomeThirdStep(results: seq<Result>, l: Limits, n: nat) {
    exists k: nat :: k < n && ThirdAt(results, l, k)
  }

  lemma SomeThirdStepUpTo(results: seq<Result>, l: Limits, n: nat)
    requires n > 0
    ensures SomeThirdStep(results, l, n) <==> SomeThirdStep(results, l, n - 1) || ThirdAt(results, l, n - 1)
  {
    hide ThirdAt;
  }

  lemma {:induction false} PackedLongIff(results: seq<Result>, l: Limits, n: nat)
    requires n <= |results|
    ensures HasLong(Packed(results, l, n).items, l) <==> SomeThirdStep(results, l, n)
  {
    if n > 0 {
      hide Step, ThirdStep, HasLong, SomeThirdStep;
      PackedLongIff(results, l, n - 1);
      StepPacksLongIff(Packed(results, l, n - 1), results[n - 1], l);
      SomeThirdStepUpTo(results, l, n);
    }
  }

  /** The evidence has a text with a third character over the limit if and only if some result, when
      its turn comes, is not skipped, is cut to full length and finds exactly limit + 1 characters left. */
  lemma EvidenceHasThirdCharacterIff(results: seq<Result>, l: Limits)
    ensures HasLong(Evidence(results, l), l) <==> l.maxEvidence > 0 && SomeThirdStep(results, l, |results|)
  {
    hide Packed, Evidence, SomeThirdStep, Long, IsSorted, TotalChars, DistinctSignatures;
    var e, items := Evidence(results, l), Packed(results, l, |results|).items;
    EvidenceIsBounded(results, l);
    PackedLongIff(results, l, |results|);
    if l.maxEvidence > 0 {
      forall i
        ensures i in e <==> i in items
      {
        assert i in multiset(e) <==> i in multiset(items);
      }
    }
  }

  /** One chunk is enough: with a limit of 2 and 3 characters in total, "aaaa" is packed as "a....". */
  lemma AThirdCharacterIsPossible()
    ensures var r := Result(Signature("p", None, None), "logs", "aaaa", None, None);
            var e := Evidence([r], Limits(1, 2, 3));
            |e| == 1 && |e[0].text| == 5
  {
    hide Compact, Fitted;
    var r, l := Result(Signature("p", None, None), "logs", "aaaa", None, None), Limits(1, 2, 3);
    FourLetters();
    ThirdCharacterIff("aaaa", 3, 2);
    FittedIsShort(Compact("aaaa", 2), 3, 2);
    var p := Packed([r], l, 1);
    assert Packed([r], l, 0) == EMPTY && p == Step(EMPTY, r, l);
    assert |p.items| == 1 && |p.items[0].text| == 5;
    assert p.items[..0] == [] && Sorted(p.items) == [p.items[0]];
  }

  lemma FourLetters()
    ensures |Compact("aaaa", 2)| == 4
  {
    var s := "aaaa";
    assert !IsSpace('a') && !IsLineBreak('a');
    StripKeeps(s);
    TidyLines(s);
    assert Clean(s) == s;
    assert s[..1] == "a";
    RightStripKeeps("a");
  }
}
