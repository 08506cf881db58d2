/** _weighted_rrf of incidentops/retrieval/hybrid_search.py. Scores and weights are real numbers. */
module RankFusion {
  import opened Prelude

  datatype Name = VectorBranch | LexicalBranch | MetadataBranch | GraphBranch

  // A search result: the chunk, by id and content, and the branch's own score, if it gave one.
  datatype Result = Result(id: nat, chunk: string, score: Option<real>)

  datatype Branch = Branch(name: Name, results: seq<Result>, weight: real)

  // A candidate's mutable entry.
  datatype Entry = Entry(chunk: string, scores: map<Name, real>, rrf: real, ranks: map<Name, nat>)

  function NewEntry(chunk: string): Entry {
    Entry(chunk, map[VectorBranch := 0.0, LexicalBranch := 0.0, MetadataBranch := 0.0], 0.0, map[])
  }

  function Positive(w: real): real {
    if w > 0.0 then w else 0.0
  }

  // What rank `rank` in a branch of weight w adds.
  function Contribution(w: real, k: int, rank: nat): real {
    Positive(w) / ((Max(k, 1) + rank) as real) * 100.0
  }

  function Scored(e: Entry, b: Branch, r: Result, k: int, rank: nat): Entry {
    e.(scores := e.scores[b.name := if r.score.Some? then r.score.value else 0.0],
       ranks := e.ranks[b.name := rank],
       rrf := e.rrf + Contribution(b.weight, k, rank))
  }

  // ---- the fused entry of one id, by its occurrences alone ----

  // After the first n results of branch b.
  function AfterResults(e: Option<Entry>, b: Branch, k: int, id: nat, n: nat): Option<Entry>
    requires n <= |b.results|
  {
    if n == 0 then e
    else
      var before, r := AfterResults(e, b, k, id, n - 1), b.results[n - 1];
      if r.id != id then before
      else Some(Scored(if before.Some? then before.value else NewEntry(r.chunk), b, r, k, n))
  }

  // After the first m branches.
  function AfterBranches(branches: seq<Branch>, k: int, id: nat, m: nat): Option<Entry>
    requires m <= |branches|
  {
    if m == 0 then None
    else AfterResults(AfterBranches(branches, k, id, m - 1), branches[m - 1], k, id, |branches[m - 1].results|)
  }

  function Find(c: map<nat, Entry>, id: nat): Option<Entry> {
    if id in c then Some(c[id]) else None
  }

  /** The in-place loop over all branches computes each id's entry from that id's occurrences. */
  method WeightedRrf(branches: seq<Branch>, k: int) returns (candidates: map<nat, Entry>)
    ensures forall id :: Find(candidates, id) == AfterBranches(branches, k, id, |branches|)
    // the candidates are the ids of some branch, each with the pointwise sum
    ensures forall id: nat :: id in candidates <==> exists b: nat, i: nat :: OccursAt(branches, id, b, i)
    ensures forall id | id in candidates :: candidates[id].rrf == Score(branches, k, id, |branches|)
  {
    candidates := map[];
    var m := 0;
    while m < |branches|
      invariant 0 <= m <= |branches|
      invariant forall id :: Find(candidates, id) == AfterBranches(branches, k, id, m)
    {
      var b := branches[m];
      var i := 0;
      while i < |b.results|
        invariant 0 <= i <= |b.results|
        invariant forall id :: Find(candidates, id) == AfterResults(AfterBranches(branches, k, id, m), b, k, id, i)
      {
        var r := b.results[i];
        var entry := if r.id in candidates then candidates[r.id] else NewEntry(r.chunk);
        candidates := candidates[r.id := Scored(entry, b, r, k, i + 1)];
        i := i + 1;
      }
      m := m + 1;
    }
    forall id: nat
      ensures id in candidates <==> exists b: nat, i: nat :: OccursAt(branches, id, b, i)
      ensures id in candidates ==> candidates[id].rrf == Score(branches, k, id, |branches|)
    {
      assert Find(candidates, id) == AfterBranches(branches, k, id, |branches|);
      FusionIsThePointwiseSum(branches, k, id, |branches|);
    }
  }

  // ---- the pointwise sum ----

  // What branch b adds to id over its first n results: 100 * max(w, 0) / (max(k, 1) + rank) for each
  // occurrence, ranks counted from 1.
  function BranchScore(b: Branch, k: int, id: nat, n: nat): real
    requires n <= |b.results|
  {
    if n == 0 then 0.0
    else if b.results[n - 1].id == id then
      BranchScore(b, k, id, n - 1)
      + (if b.weight > 0.0 then 100.0 * b.weight else 0.0) / ((if k > 1 then k else 1) as real + n as real)
    else BranchScore(b, k, id, n - 1)
  }

  function Score(branches: seq<Branch>, k: int, id: nat, m: nat): real
    requires m <= |branches|
  {
    if m == 0 then 0.0
    else Score(branches, k, id, m - 1) + BranchScore(branches[m - 1], k, id, |branches[m - 1].results|)
  }

  lemma ContributionIsTheQuotient(w: real, k: int, rank: nat)
    ensures Contribution(w, k, rank)
            == (if w > 0.0 then 100.0 * w else 0.0) / ((if k > 1 then k else 1) as real + rank as real)
  {
  }

  predicate Occurs(b: Branch, id: nat, i: nat) {
    i < |b.results| && b.results[i].id == id
  }

  function ScoreOf(e: Option<Entry>): real {
    if e.Some? then e.value.rrf else 0.0
  }

  lemma {:induction false} ResultsSum(e: Option<Entry>, b: Branch, k: int, id: nat, n: nat)
    requires n <= |b.results|
    ensures var r := AfterResults(e, b, k, id, n);
            && ScoreOf(r) == ScoreOf(e) + BranchScore(b, k, id, n)
            && (r.Some? <==> e.Some? || exists i: nat :: i < n && Occurs(b, id, i))
  {
    if n > 0 {
      hide Contribution;
      ContributionIsTheQuotient(b.weight, k, n);
      ResultsSum(e, b, k, id, n - 1);
      if b.results[n - 1].id == id {
        assert Occurs(b, id, n - 1);
      }
    }
  }

  predicate OccursAt(branches: seq<Branch>, id: nat, m: nat, i: nat) {
    m < |branches| && Occurs(branches[m], id, i)
  }

  /** The fused score is the sum over all occurrences, and the candidates are exactly the ids that
      occur in some branch. */
  lemma {:induction false} FusionIsThePointwiseSum(branches: seq<Branch>, k: int, id: nat, m: nat)
    requires m <= |branches|
    ensures ScoreOf(AfterBranches(branches, k, id, m)) == Score(branches, k, id, m)
    ensures AfterBranches(branches, k, id, m).Some? <==> exists b: nat, i: nat :: b < m && OccursAt(branches, id, b, i)
  {
    if m > 0 {
      hide BranchScore;
      var last := branches[m - 1];
      FusionIsThePointwiseSum(branches, k, id, m - 1);
      ResultsSum(AfterBranches(branches, k, id, m - 1), last, k, id, |last.results|);
      if i: nat :| i < |last.results| && Occurs(last, id, i) {
        assert OccursAt(branches, id, m - 1, i);
      }
    }
  }

  // ---- branches without duplicates ----

  predicate Distinct(b: Branch) {
    forall i, j | 0 <= i < j < |b.results| :: b.results[i].id != b.results[j].id
  }

  lemma {:induction false} NotRankedScoresZero(b: Branch, k: int, id: nat, n: nat)
    requires n <= |b.results| && forall i: nat | i < n :: !Occurs(b, id, i)
    ensures BranchScore(b, k, id, n) == 0.0
  {
    if n > 0 {
      assert !Occurs(b, id, n - 1);
      NotRankedScoresZero(b, k, id, n - 1);
    }
  }

  // In a branch without duplicates, an id adds the contribution of its one rank.
  lemma {:induction false} RankedScoresItsContribution(b: Branch, k: int, id: nat, i: nat, n: nat)
    requires Distinct(b) && Occurs(b, id, i) && i < n <= |b.results|
    ensures BranchScore(b, k, id, n) == Contribution(b.weight, k, i + 1)
  {
    hide Contribution;
    if i < n - 1 {
      RankedScoresItsContribution(b, k, id, i, n - 1);
    } else {
      ContributionIsTheQuotient(b.weight, k, n);
      NotRankedScoresZero(b, k, id, i);
    }
  }

  lemma QuotientsFall(a: real, d: real, e: real)
    requires a >= 0.0 && 0.0 < d <= e
    ensures 0.0 <= a / e <= a / d
  {
    var x, y := a / d, a / e;
    assert x * d == a && y * e == a;
    if x < y {
      assert x * d < y * d <= y * e;
    }
  }

  lemma ContributionsFall(w: real, k: int, rank: nat, worse: nat)
    requires rank <= worse
    ensures 0.0 <= Contribution(w, k, worse) <= Contribution(w, k, rank)
  {
    if Max(k, 1) + rank > 0 {
      QuotientsFall(Positive(w), (Max(k, 1) + rank) as real, (Max(k, 1) + worse) as real);
    }
  }

  function RankIn(e: Option<Entry>, name: Name): Option<nat> {
    if e.Some? && name in e.value.ranks then Some(e.value.ranks[name]) else None
  }

  // A branch records its own rank of the id and no other branch's.
  lemma {:induction false} ResultsRecordRank(e: Option<Entry>, b: Branch, k: int, id: nat, n: nat, name: Name)
    requires Distinct(b) && n <= |b.results|
    ensures var r := RankIn(AfterResults(e, b, k, id, n), name);
            && (name != b.name ==> r == RankIn(e, name))
            && (name == b.name ==> forall i: nat | i < n && Occurs(b, id, i) :: r == Some(i + 1))
            && ((forall i: nat | i < n :: !Occurs(b, id, i)) ==> r == RankIn(e, name))
  {
    if n > 0 {
      hide Contribution;
      ResultsRecordRank(e, b, k, id, n - 1, name);
      if b.results[n - 1].id == id {
        assert Occurs(b, id, n - 1);
      }
    }
  }

  /** branch_ranks of a candidate holds exactly its ranks in the branches it occurs in. */
  lemma {:induction false} EntriesRecordTheirRanks(branches: seq<Branch>, k: int, id: nat, m: nat, b: nat)
    requires b < m <= |branches| && (forall b | b in branches :: Distinct(b))
    requires forall i, j | 0 <= i < j < |branches| :: branches[i].name != branches[j].name
    ensures var r := RankIn(AfterBranches(branches, k, id, m), branches[b].name);
            && (forall i: nat | OccursAt(branches, id, b, i) :: r == Some(i + 1))
            && ((forall i: nat :: !OccursAt(branches, id, b, i)) ==> r == None)
  {
    hide AfterResults;
    var last := branches[m - 1];
    assert last in branches;
    var before := AfterBranches(branches, k, id, m - 1);
    ResultsRecordRank(before, last, k, id, |last.results|, branches[b].name);
    if b < m - 1 {
      EntriesRecordTheirRanks(branches, k, id, m - 1, b);
    } else {
      NotYetRecorded(branches, k, id, m - 1, last.name);
      assert forall i: nat :: OccursAt(branches, id, b, i) <==> Occurs(last, id, i);
    }
  }

  lemma {:induction false} NotYetRecorded(branches: seq<Branch>, k: int, id: nat, m: nat, name: Name)
    requires m <= |branches| && (forall b | b in branches :: Distinct(b))
    requires forall i | 0 <= i < m :: branches[i].name != name
    ensures RankIn(AfterBranches(branches, k, id, m), name) == None
  {
    if m > 0 {
      hide AfterResults;
      assert branches[m - 1] in branches;
      NotYetRecorded(branches, k, id, m - 1, name);
      ResultsRecordRank(AfterBranches(branches, k, id, m - 1), branches[m - 1], k, id, |branches[m - 1].results|, name);
    }
  }

  // y's place in the branch, if any, is no better than x's.
  ghost predicate NoWorse(b: Branch, x: nat, y: nat) {
    forall j: nat | Occurs(b, y, j) :: exists i: nat :: i <= j && Occurs(b, x, i)
  }

  lemma BranchScoreBounds(b: Branch, k: int, id: nat)
    requires Distinct(b)
    ensures 0.0 <= BranchScore(b, k, id, |b.results|) <= Contribution(b.weight, k, 1)
  {
    hide Contribution;
    if i: nat :| Occurs(b, id, i) {
      RankedScoresItsContribution(b, k, id, i, |b.results|);
      ContributionsFall(b.weight, k, 1, i + 1);
    } else {
      NotRankedScoresZero(b, k, id, |b.results|);
      ContributionsFall(b.weight, k, 1, 1);
    }
  }

  lemma BranchDominance(b: Branch, k: int, x: nat, y: nat)
    requires Distinct(b) && NoWorse(b, x, y)
    ensures BranchScore(b, k, x, |b.results|) >= BranchScore(b, k, y, |b.results|)
  {
    hide Contribution;
    if j: nat :| Occurs(b, y, j) {
      var i: nat :| i <= j && Occurs(b, x, i);
      RankedScoresItsContribution(b, k, x, i, |b.results|);
      RankedScoresItsContribution(b, k, y, j, |b.results|);
      ContributionsFall(b.weight, k, i + 1, j + 1);
    } else {
      NotRankedScoresZero(b, k, y, |b.results|);
      BranchScoreBounds(b, k, x);
    }
  }

  /** A chunk ranked no worse than another in every branch the other appears in scores at least
      as high. */
  lemma {:induction false} Dominance(branches: seq<Branch>, k: int, x: nat, y: nat, m: nat)
    requires m <= |branches|
    requires forall b | b in branches :: Distinct(b) && NoWorse(b, x, y)
    ensures Score(branches, k, x, m) >= Score(branches, k, y, m)
  {
    if m > 0 {
      hide BranchScore, Distinct, NoWorse;
      assert branches[m - 1] in branches;
      BranchDominance(branches[m - 1], k, x, y);
      Dominance(branches, k, x, y, m - 1);
    }
  }

  function Total(branches: seq<Branch>, m: nat): real
    requires m <= |branches|
  {
    if m == 0 then 0.0 else Total(branches, m - 1) + Positive(branches[m - 1].weight)
  }

  /** Scores lie between zero and 100 times the positive weights over max(k, 1) + 1. */
  lemma {:induction false} ScoresAreBounded(branches: seq<Branch>, k: int, id: nat, m: nat)
    requires m <= |branches| && forall b | b in branches :: Distinct(b)
    ensures 0.0 <= Score(branches, k, id, m) <= 100.0 * Total(branches, m) / ((Max(k, 1) + 1) as real)
  {
    if m > 0 {
      hide BranchScore, Distinct;
      var d := (Max(k, 1) + 1) as real;
      assert branches[m - 1] in branches;
      BranchScoreBounds(branches[m - 1], k, id);
      ScoresAreBounded(branches, k, id, m - 1);
      AddQuotients(Total(branches, m - 1), Positive(branches[m - 1].weight), d);
    }
  }

  lemma AddQuotients(a: real, b: real, d: real)
    requires d > 0.0
    ensures 100.0 * a / d + b / d * 100.0 == 100.0 * (a + b) / d
  {
  }

  // ---- the rank counts ----

  lemma QuotientTimesDivisor(a: real, d: real)
    requires d != 0.0
    ensures a / d * d == a
  {
  }

  /** In one branch without duplicates the score of the i-th result, counted from 0, is 100 * max(w, 0)
      divided by max(k, 1) + i + 1. */
  lemma OneBranchScore(b: Branch, k: int, id: nat, i: nat)
    requires Distinct(b) && Occurs(b, id, i)
    ensures Score([b], k, id, 1) * ((if k > 1 then k else 1) as real + i as real + 1.0)
            == if b.weight > 0.0 then 100.0 * b.weight else 0.0
  {
    RankedScoresItsContribution(b, k, id, i, |b.results|);
    ContributionIsTheQuotient(b.weight, k, i + 1);
    assert Score([b], k, id, 0) == 0.0;
    QuotientTimesDivisor(if b.weight > 0.0 then 100.0 * b.weight else 0.0,
        (if k > 1 then k else 1) as real + (i + 1) as real);
  }

  lemma QuotientsFallStrictly(a: real, d: real, e: real)
    requires a > 0.0 && 0.0 < d < e
    ensures 0.0 < a / e < a / d
  {
    var x, y := a / d, a / e;
    assert x * d == a && y * e == a;
    assert y > 0.0;
    assert (x - y) * d == y * (e - d) > 0.0;
  }

  lemma ContributionsFallStrictly(w: real, k: int, rank: nat, worse: nat)
    requires w > 0.0 && rank < worse
    ensures 0.0 < Contribution(w, k, worse) < Contribution(w, k, rank)
  {
    QuotientsFallStrictly(w, (Max(k, 1) + rank) as real, (Max(k, 1) + worse) as real);
  }

  // y does not occur among the first i + 1 results.
  ghost predicate Behind(b: Branch, y: nat, i: nat) {
    forall j: nat | Occurs(b, y, j) :: i < j
  }

  // x is in the branch and y is not, or behind it.
  ghost predicate Better(b: Branch, x: nat, y: nat) {
    exists i: nat :: Occurs(b, x, i) && Behind(b, y, i)
  }

  lemma BehindScoresLess(b: Branch, k: int, i: nat, y: nat)
    requires Distinct(b) && b.weight > 0.0 && Behind(b, y, i)
    ensures BranchScore(b, k, y, |b.results|) < Contribution(b.weight, k, i + 1)
  {
    hide Contribution, Distinct;
    ContributionsFallStrictly(b.weight, k, i + 1, i + 2);
    if j: nat :| Occurs(b, y, j) {
      RankedScoresItsContribution(b, k, y, j, |b.results|);
      ContributionsFallStrictly(b.weight, k, i + 1, j + 1);
    } else {
      NotRankedScoresZero(b, k, y, |b.results|);
    }
  }

  lemma BranchBetter(b: Branch, k: int, x: nat, y: nat)
    requires Distinct(b) && b.weight > 0.0 && Better(b, x, y)
    ensures BranchScore(b, k, x, |b.results|) > BranchScore(b, k, y, |b.results|)
  {
    hide Contribution, Distinct, Behind, BranchScore;
    var i: nat :| Occurs(b, x, i) && Behind(b, y, i);
    RankedScoresItsContribution(b, k, x, i, |b.results|);
    BehindScoresLess(b, k, i, y);
  }

  /** A chunk ranked no worse in every branch, and better in one of positive weight, scores strictly
      higher. */
  lemma {:induction false} StrictDominance(branches: seq<Branch>, k: int, x: nat, y: nat, m: nat, b: nat)
    requires b < m <= |branches|
    requires forall b | b in branches :: Distinct(b) && NoWorse(b, x, y)
    requires branches[b].weight > 0.0 && Better(branches[b], x, y)
    ensures Score(branches, k, x, m) > Score(branches, k, y, m)
  {
    hide BranchScore, Distinct, NoWorse, Better;
    assert branches[m - 1] in branches;
    if b == m - 1 {
      BranchBetter(branches[b], k, x, y);
      Dominance(branches, k, x, y, m - 1);
    } else {
      BranchDominance(branches[m - 1], k, x, y);
      StrictDominance(branches, k, x, y, m - 1, b);
    }
  }

  // ---- the rest of an entry ----

  function ScoreIn(e: Option<Entry>, name: Name): Option<real> {
    if e.Some? && name in e.value.scores then Some(e.value.scores[name]) else None
  }

  // The score a branch gives a result, zero if it gives none.
  function Given(r: Result): real {
    if r.score.Some? then r.score.value else 0.0
  }

  // A branch records its own score of the id; the other scores stay, or start at their defaults.
  lemma {:induction false} ResultsRecordScore(e: Option<Entry>, b: Branch, k: int, id: nat, n: nat, name: Name)
    requires Distinct(b) && n <= |b.results|
    ensures var r := AfterResults(e, b, k, id, n);
            && (name == b.name ==>
                  forall i: nat | i < n && Occurs(b, id, i) :: ScoreIn(r, name) == Some(Given(b.results[i])))
            && (r.Some? && (name != b.name || forall i: nat | i < n :: !Occurs(b, id, i)) ==>
                  ScoreIn(r, name) ==
                    if e.Some? then ScoreIn(e, name) else if name.GraphBranch? then None else Some(0.0))
  {
    if n > 0 {
      hide Contribution;
      ResultsRecordScore(e, b, k, id, n - 1, name);
      ResultsSum(e, b, k, id, n - 1);
      if b.results[n - 1].id == id {
        assert Occurs(b, id, n - 1);
      }
    }
  }

  lemma {:induction false} NoScoreYet(branches: seq<Branch>, k: int, id: nat, m: nat, name: Name)
    requires m <= |branches| && (forall b | b in branches :: Distinct(b))
    requires forall i: nat | i < m && branches[i].name == name :: forall j: nat :: !Occurs(branches[i], id, j)
    ensures var r := AfterBranches(branches, k, id, m);
            r.Some? ==> ScoreIn(r, name) == if name.GraphBranch? then None else Some(0.0)
  {
    if m > 0 {
      hide AfterResults, Occurs;
      assert branches[m - 1] in branches;
      NoScoreYet(branches, k, id, m - 1, name);
      ResultsRecordScore(AfterBranches(branches, k, id, m - 1), branches[m - 1], k, id, |branches[m - 1].results|,
          name);
    }
  }

  /** A candidate's entry holds the score each branch gave it, and zero for the vector, lexical and
      metadata branches it does not occur in. */
  lemma {:induction false} EntriesRecordTheirScores(branches: seq<Branch>, k: int, id: nat, m: nat, b: nat)
    requires b < m <= |branches| && (forall b | b in branches :: Distinct(b))
    requires forall i, j | 0 <= i < j < |branches| :: branches[i].name != branches[j].name
    ensures var r := AfterBranches(branches, k, id, m);
            && (forall i: nat | OccursAt(branches, id, b, i) ::
                  ScoreIn(r, branches[b].name) == Some(Given(branches[b].results[i])))
            && (r.Some? && (forall i: nat :: !OccursAt(branches, id, b, i)) ==>
                  ScoreIn(r, branches[b].name) == if branches[b].name.GraphBranch? then None else Some(0.0))
  {
    hide AfterResults, Given;
    var last := branches[m - 1];
    assert last in branches;
    var before := AfterBranches(branches, k, id, m - 1);
    ResultsRecordScore(before, last, k, id, |last.results|, branches[b].name);
    ResultsSum(before, last, k, id, |last.results|);
    assert forall i: nat :: OccursAt(branches, id, b, i) <==> Occurs(branches[b], id, i);
    if b < m - 1 {
      EntriesRecordTheirScores(branches, k, id, m - 1, b);
      FusionIsThePointwiseSum(branches, k, id, m - 1);
    } else {
      NoScoreYet(branches, k, id, m - 1, last.name);
    }
  }

  // The first occurrence of the id: in branch b at place i, and nowhere before.
  ghost predicate FirstAt(branches: seq<Branch>, id: nat, b: nat, i: nat) {
    && OccursAt(branches, id, b, i)
    && (forall c: nat, j: nat | OccursAt(branches, id, c, j) :: c > b || (c == b && j >= i))
  }

  lemma {:induction false} ResultsKeepChunk(e: Option<Entry>, b: Branch, k: int, id: nat, n: nat)
    requires n <= |b.results|
    ensures var r := AfterResults(e, b, k, id, n);
            && (e.Some? ==> r.Some? && r.value.chunk == e.value.chunk)
            && (e.None? ==> forall i: nat | i < n && Occurs(b, id, i) && (forall j: nat | j < i :: !Occurs(b, id, j)) ::
                  r.Some? && r.value.chunk == b.results[i].chunk)
  {
    if n > 0 {
      hide Contribution;
      ResultsKeepChunk(e, b, k, id, n - 1);
      ResultsSum(e, b, k, id, n - 1);
    }
  }

  /** A candidate keeps the chunk of its first occurrence. */
  lemma {:induction false} EntriesKeepTheFirstChunk(branches: seq<Branch>, k: int, id: nat, m: nat, b: nat, i: nat)
    requires b < m <= |branches| && FirstAt(branches, id, b, i)
    ensures var r := AfterBranches(branches, k, id, m); r.Some? && r.value.chunk == branches[b].results[i].chunk
  {
    hide AfterResults;
    var before := AfterBranches(branches, k, id, m - 1);
    ResultsKeepChunk(before, branches[m - 1], k, id, |branches[m - 1].results|);
    if b < m - 1 {
      EntriesKeepTheFirstChunk(branches, k, id, m - 1, b, i);
    } else {
      FusionIsThePointwiseSum(branches, k, id, m - 1);
      assert forall j: nat | j < i :: !OccursAt(branches, id, b, j);
      assert forall j: nat | j < i :: Occurs(branches[b], id, j) ==> OccursAt(branches, id, b, j);
    }
  }
}
