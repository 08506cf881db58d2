/** What the report and the store of incidentops/ingestion/indexer.py say about each other after a batch,
    and why documents are refused, written out. */
module BatchReports {
  import opened Prelude
  import opened Text
  import opened Segmentation
  import opened BatchIndexing

  // ---- why a document is refused ----

  /** A document is refused, before the store is touched, exactly for these reasons and with these
      codes. */
  lemma RefusalReasons(env: Env, d: Document)
    requires ValidEnv(env)
    ensures env.parse(d).Err? ==> Refusal(env, d) == Some("parser_exception")
    ensures env.parse(d) == Ok([]) ==> Refusal(env, d) == Some("no_chunks_parsed")
    ensures RawTexts(env, d).Ok? && |AllSubTexts(RawTexts(env, d).value, env.maxTokens)| > env.maxChunks ==>
              Refusal(env, d) == Some("too_many_chunks")
    ensures Pieces(env, d).Ok? ==>
              var texts := Pieces(env, d).value;
              var embedding := env.embed(texts);
              if texts != [] && (embedding == BackendError || (embedding.Vectors? && embedding.count != |texts|))
              then Refusal(env, d) == Some("embedding_error")
              else Refusal(env, d) == None
    ensures Pieces(env, d).Err? ==> Refusal(env, d).Some?
    ensures RawTexts(env, d).Err? <==> env.parse(d).Err? || env.parse(d) == Ok([])
  {
    hide AllSubTexts, Estimate;
  }

  /** A refused document changes nothing and is reported under the code of its refusal, unless its
      content is already stored. */
  lemma RefusedDocumentsChangeNothing(env: Env, s: Store, d: Document, f: Faults)
    requires ValidEnv(env) && Refusal(env, d).Some?
    requires d.externalId in s.docs ==> s.docs[d.externalId].hash != d.hash
    ensures IndexOne(env, s, d, f) == (s, Err(Refusal(env, d).value))
  {
    hide Refusal;
  }

  /** Without refusal and failures a document of new content is accepted, unless its vectors have the
      wrong dimension: as an update if its external id has a row, else as a creation. */
  lemma AcceptedUnlessRefused(env: Env, s: Store, d: Document)
    requires ValidEnv(env) && Refusal(env, d).None?
    requires d.externalId in s.docs ==> s.docs[d.externalId].hash != d.hash
    ensures var texts := Pieces(env, d).value;
            IndexOne(env, s, d, NO_FAULTS).1 ==
              if texts != [] && env.embed(texts).Vectors? && !env.embed(texts).dimensionOk then Err("embedding_failed")
              else if d.externalId in s.docs then Ok(Updated(|texts|))
              else Ok(Created(|texts|))
  {
    hide Pieces;
  }

  /** Of the documents of one external id in a batch only the first is looked at; every later one is
      rejected as a duplicate, whatever became of the first. */
  lemma DuplicatesAreRejected(env: Env, p: Progress, raws: seq<Document>, faults: seq<Faults>, i: nat, j: nat)
    requires ValidEnv(env) && |faults| >= |raws| && i < j < |raws|
    requires env.validate(raws[i]).Ok? && env.validate(raws[j]).Ok?
    requires env.validate(raws[i]).value.externalId == env.validate(raws[j]).value.externalId
    ensures var q := Batch(env, p, raws[..j], faults[..j]);
            var r := BatchStep(env, q, raws[j], faults[j]);
            && r.store == q.store && r.seen == q.seen
            && r.result == q.result.(skippedInvalid := q.result.skippedInvalid + 1,
                                     errors := q.result.errors + ["duplicate_external_id"])
  {
    hide IndexOne;
    var e := env.validate(raws[i]).value.externalId;
    SeenStays(env, p, raws[..j], faults[..j], i);
    assert raws[..j][i] == raws[i];
  }

  lemma {:induction false} SeenStays(env: Env, p: Progress, raws: seq<Document>, faults: seq<Faults>, i: nat)
    requires ValidEnv(env) && |faults| >= |raws| && i < |raws| && env.validate(raws[i]).Ok?
    ensures env.validate(raws[i]).value.externalId in Batch(env, p, raws, faults).seen
    decreases |raws|
  {
    hide BatchStep;
    var q := BatchStep(env, p, raws[0], faults[0]);
    if i == 0 {
      StepSees(env, p, raws[0], faults[0]);
      SeenGrows(env, q, raws[1..], faults[1..]);
    } else {
      SeenStays(env, q, raws[1..], faults[1..], i - 1);
    }
  }

  lemma StepSees(env: Env, p: Progress, raw: Document, f: Faults)
    requires ValidEnv(env)
    ensures p.seen <= BatchStep(env, p, raw, f).seen
    ensures env.validate(raw).Ok? ==> env.validate(raw).value.externalId in BatchStep(env, p, raw, f).seen
  {
    hide IndexOne;
  }

  lemma {:induction false} SeenGrows(env: Env, p: Progress, raws: seq<Document>, faults: seq<Faults>)
    requires ValidEnv(env) && |faults| >= |raws|
    ensures p.seen <= Batch(env, p, raws, faults).seen
    decreases |raws|
  {
    if raws != [] {
      hide BatchStep;
      StepSees(env, p, raws[0], faults[0]);
      SeenGrows(env, BatchStep(env, p, raws[0], faults[0]), raws[1..], faults[1..]);
    }
  }

  /** Indexing a document never touches the vectors of another external id. */
  lemma OthersKeepVectors(env: Env, s: Store, d: Document, f: Faults, e: string)
    requires ValidEnv(env) && StoreOk(env, s) && e != d.externalId
    ensures Live(IndexOne(env, s, d, f).0, e) <==> Live(s, e)
  {
    hide Pieces, Refusal, Holds;
    assert RowOk(env, s, e) && RowOk(env, s, d.externalId);
  }

  // ---- the counters ----

  // The external ids that have a new or another row in t than in s.
  function Written(s: Store, t: Store): set<string> {
    set e | e in t.docs && (e !in s.docs || s.docs[e] != t.docs[e])
  }

  ghost function TotalTexts(t: Store, es: set<string>): nat
    requires es <= t.docs.Keys
  {
    if es == {} then 0
    else
      var e :| e in es;
      |t.docs[e].texts| + TotalTexts(t, es - {e})
  }

  lemma {:induction false} TotalOfOneMore(t: Store, es: set<string>, e: string)
    requires es <= t.docs.Keys && e in es
    ensures TotalTexts(t, es) == |t.docs[e].texts| + TotalTexts(t, es - {e})
    decreases es
  {
    var x :| x in es && TotalTexts(t, es) == |t.docs[x].texts| + TotalTexts(t, es - {x});
    if x != e {
      TotalOfOneMore(t, es - {x}, e);
      TotalOfOneMore(t, es - {e}, x);
      assert es - {x} - {e} == es - {e} - {x};
    }
  }

  // The counters of a report that are about accepted documents.
  datatype Counters = Counters(created: nat, updated: nat, chunks: nat)

  function CountersOf(r: BatchResult): Counters {
    Counters(r.created, r.updated, r.chunksCreated)
  }

  function Plus(a: Counters, b: Counters): Counters {
    Counters(a.created + b.created, a.updated + b.updated, a.chunks + b.chunks)
  }

  // The counters as the two stores show them: new rows, rewritten rows, and the texts of both.
  ghost function Observed(s: Store, t: Store): Counters {
    Counters(|t.docs.Keys - s.docs.Keys|, |Written(s, t) * s.docs.Keys|, TotalTexts(t, Written(s, t)))
  }

  // Nothing was written and nothing counted.
  predicate WroteNothing(p: Progress, q: Progress) {
    q.store.docs == p.store.docs && CountersOf(q.result) == CountersOf(p.result)
  }

  // From s to t the row of e was written, and no other.
  predicate OneRow(s: Store, t: Store, e: string) {
    && t.docs.Keys == s.docs.Keys + {e}
    && (e in s.docs ==> s.docs[e] != t.docs[e])
    && (forall x | x in s.docs && x != e :: t.docs[x] == s.docs[x])
  }

  function OneCounted(s: Store, t: Store, e: string): Counters
    requires e in t.docs
  {
    Counters(if e in s.docs then 0 else 1, if e in s.docs then 1 else 0, |t.docs[e].texts|)
  }

  predicate WroteOne(p: Progress, q: Progress, e: string) {
    && e in q.seen && OneRow(p.store, q.store, e)
    && CountersOf(q.result) == Plus(CountersOf(p.result), OneCounted(p.store, q.store, e))
  }

  lemma StepCounts(env: Env, p: Progress, raw: Document, f: Faults)
    requires ValidEnv(env) && StoreOk(env, p.store)
    ensures var q, d := BatchStep(env, p, raw, f), Indexed(env, p, raw);
            WroteNothing(p, q) || (d.Some? && WroteOne(p, q, d.value.externalId))
  {
    hide Pieces, Refusal, StoreOk, Holds;
    var d := Indexed(env, p, raw);
    StepIndexes(env, p, raw, f);
    if d.Some? {
      OnlyReportedOperationsChangeRows(env, p.store, d.value, f);
      IdsAreKept(env, p.store, d.value, f);
      RowIsOk(env, p.store, d.value.externalId);
      ReportedSize(env, p.store, d.value, f);
    }
  }

  lemma RowIsOk(env: Env, s: Store, e: string)
    requires ValidEnv(env) && StoreOk(env, s)
    ensures RowOk(env, s, e)
  {
  }

  lemma ReportedSize(env: Env, s: Store, d: Document, f: Faults)
    requires ValidEnv(env)
    ensures var (t, r) := IndexOne(env, s, d, f);
            && (r == Ok(Unchanged) || r.Err? ==> t.docs == s.docs)
            && (r.Ok? && !r.value.Unchanged? ==>
                  d.externalId in t.docs && r.value.chunks == |t.docs[d.externalId].texts|)
  {
    hide Pieces, Refusal;
  }

  // Stores that agree on the rows show the same.
  lemma SameRowsShowTheSame(s: Store, s': Store, t: Store)
    requires s.docs == s'.docs
    ensures Observed(s, t) == Observed(s', t)
  {
    assert Written(s, t) == Written(s', t);
  }

  // One row was written on the way from s to t, and stayed as it is from u on.
  lemma WrittenSplits(s: Store, u: Store, t: Store, e: string)
    requires OneRow(s, u, e) && e in t.docs && t.docs[e] == u.docs[e] && u.docs.Keys <= t.docs.Keys
    ensures e in Written(s, t) && Written(s, t) - {e} == Written(u, t)
    ensures if e in s.docs then
              && t.docs.Keys - s.docs.Keys == t.docs.Keys - u.docs.Keys
              && Written(s, t) * s.docs.Keys == Written(u, t) * u.docs.Keys + {e}
            else
              && t.docs.Keys - s.docs.Keys == t.docs.Keys - u.docs.Keys + {e}
              && Written(s, t) * s.docs.Keys == Written(u, t) * u.docs.Keys
    ensures e !in Written(u, t) && e in u.docs
  {
  }

  lemma OneMoreRow(s: Store, u: Store, t: Store, e: string)
    requires OneRow(s, u, e) && e in t.docs && t.docs[e] == u.docs[e] && u.docs.Keys <= t.docs.Keys
    ensures Observed(s, t) == Plus(OneCounted(s, t, e), Observed(u, t))
  {
    hide Written, OneRow, TotalTexts;
    CountsSplit(s, u, t, e);
    TextsSplit(s, u, t, e);
  }

  lemma TextsSplit(s: Store, u: Store, t: Store, e: string)
    requires OneRow(s, u, e) && e in t.docs && t.docs[e] == u.docs[e] && u.docs.Keys <= t.docs.Keys
    ensures TotalTexts(t, Written(s, t)) == |t.docs[e].texts| + TotalTexts(t, Written(u, t))
  {
    hide *;
    WrittenSplits(s, u, t, e);
    WrittenIsThere(s, t);
    TotalOfOneMore(t, Written(s, t), e);
  }

  lemma CountsSplit(s: Store, u: Store, t: Store, e: string)
    requires OneRow(s, u, e) && e in t.docs && t.docs[e] == u.docs[e] && u.docs.Keys <= t.docs.Keys
    ensures |t.docs.Keys - s.docs.Keys| == (if e in s.docs then 0 else 1) + |t.docs.Keys - u.docs.Keys|
    ensures |Written(s, t) * s.docs.Keys| == (if e in s.docs then 1 else 0) + |Written(u, t) * u.docs.Keys|
  {
    hide *;
    WrittenSplits(s, u, t, e);
    if e in s.docs {
      CardOfOneMore(Written(u, t) * u.docs.Keys, Written(s, t) * s.docs.Keys, e);
    } else {
      CardOfOneMore(t.docs.Keys - u.docs.Keys, t.docs.Keys - s.docs.Keys, e);
    }
  }

  lemma WrittenIsThere(s: Store, t: Store)
    ensures Written(s, t) <= t.docs.Keys
  {
  }

  lemma CardOfOneMore(before: set<string>, after: set<string>, e: string)
    requires e !in before && after == before + {e}
    ensures |after| == |before| + 1
  {
  }

  // What was counted and what is observed move together.
  lemma ObserveNothing(p: Progress, u: Progress, q: Progress)
    requires WroteNothing(p, u) && CountersOf(q.result) == Plus(CountersOf(u.result), Observed(u.store, q.store))
    ensures CountersOf(q.result) == Plus(CountersOf(p.result), Observed(p.store, q.store))
  {
    SameRowsShowTheSame(p.store, u.store, q.store);
  }

  lemma ObserveOne(p: Progress, u: Progress, q: Progress, e: string)
    requires WroteOne(p, u, e) && CountersOf(q.result) == Plus(CountersOf(u.result), Observed(u.store, q.store))
    requires RowOf(q.store, e) == RowOf(u.store, e) && u.store.docs.Keys <= q.store.docs.Keys
    ensures CountersOf(q.result) == Plus(CountersOf(p.result), Observed(p.store, q.store))
    ensures p.store.docs.Keys <= q.store.docs.Keys
  {
    hide Observed;
    OneMoreRow(p.store, u.store, q.store, e);
  }

  lemma {:induction false} BatchObserves(env: Env, p: Progress, raws: seq<Document>, faults: seq<Faults>)
    requires ValidEnv(env) && |faults| >= |raws| && StoreOk(env, p.store)
    ensures var q := Batch(env, p, raws, faults);
            && p.store.docs.Keys <= q.store.docs.Keys
            && CountersOf(q.result) == Plus(CountersOf(p.result), Observed(p.store, q.store))
    decreases |raws|
  {
    if raws == [] {
      NothingWritten(p.store);
    } else {
      hide BatchStep, StoreOk, Observed, Indexed, WroteOne, RowOf, CountersOf, Plus;
      var u, d := BatchStep(env, p, raws[0], faults[0]), Indexed(env, p, raws[0]);
      StepCounts(env, p, raws[0], faults[0]);
      StepKeepsStoreOk(env, p, raws[0], faults[0]);
      BatchObserves(env, u, raws[1..], faults[1..]);
      var q := Batch(env, p, raws, faults);
      if WroteNothing(p, u) {
        ObserveNothing(p, u, q);
      } else {
        WroteOneIsSeen(p, u, d.value.externalId);
        BatchKeepsSeenRows(env, u, raws[1..], faults[1..], d.value.externalId);
        ObserveOne(p, u, q, d.value.externalId);
      }
    }
  }

  lemma WroteOneIsSeen(p: Progress, q: Progress, e: string)
    requires WroteOne(p, q, e)
    ensures e in q.seen
  {
  }

  lemma NothingWritten(s: Store)
    ensures Observed(s, s) == Counters(0, 0, 0)
  {
    assert Written(s, s) == {};
  }

  lemma StepKeepsStoreOk(env: Env, p: Progress, raw: Document, f: Faults)
    requires ValidEnv(env) && StoreOk(env, p.store)
    ensures StoreOk(env, BatchStep(env, p, raw, f).store)
  {
    hide StoreOk, IndexOne;
    if Indexed(env, p, raw).Some? {
      IndexOneKeepsStoreOk(env, p.store, Indexed(env, p, raw).value, f);
    }
  }

  /** The report of a batch agrees with the store: `created` is the number of external ids that have a
      row only afterwards, `updated` the number of those whose row was rewritten, and `chunksCreated`
      the number of texts in the rows of both. */
  lemma ReportAgreesWithStore(env: Env, store: Store, raws: seq<Document>, faults: seq<Faults>)
    requires ValidEnv(env) && |faults| >= |raws| && StoreOk(env, store)
    ensures var q := Batch(env, Start(store, |raws|), raws, faults);
            && q.result.created == |q.store.docs.Keys - store.docs.Keys|
            && q.result.updated == |set e | e in store.docs && e in q.store.docs && q.store.docs[e] != store.docs[e]|
            && q.result.chunksCreated == TotalTexts(q.store, Written(store, q.store))
  {
    hide Batch, StoreOk;
    BatchObserves(env, Start(store, |raws|), raws, faults);
    var q := Batch(env, Start(store, |raws|), raws, faults);
    assert Written(store, q.store) * store.docs.Keys
        == set e | e in store.docs && e in q.store.docs && q.store.docs[e] != store.docs[e];
  }
}
