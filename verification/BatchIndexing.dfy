/** index_normalized_documents and _index_one_document of incidentops/ingestion/indexer.py, run by
    one transaction. Validation, parsing and the embedding backend are functions of their inputs;
    the vector store may fail at every call. */
module BatchIndexing {
  import opened Prelude
  import opened FallbackPacker
  import opened Segmentation
  import opened Text

  datatype Document = Document(externalId: string, hash: string, content: string)

  // No embedding backend, a backend error, or `count` vectors of the right or a wrong dimension.
  datatype Embedding = NoBackend | BackendError | Vectors(count: nat, dimensionOk: bool)

  datatype Env = Env(
    validate: Document -> Result<Document, string>,
    parse: Document -> Result<seq<string>, string>,
    embed: seq<string> -> Embedding,
    maxTokens: nat,
    maxChunks: nat)

  predicate ValidEnv(env: Env) {
    env.maxTokens > 0 && env.maxChunks > 0 && Splittable(env.maxTokens)
  }

  // Whether the two vector-store calls of one document succeed, whether a failed call took effect
  // all the same, and whether the statements inside the savepoint succeed.
  datatype Faults = Faults(deleteOk: bool, deleteApplied: bool, upsertOk: bool, upsertApplied: bool, databaseOk: bool)

  const NO_FAULTS := Faults(true, true, true, true, true)

  // A document row with its chunk texts. `generation` names the chunk rows of one rewrite.
  datatype Row = Row(docId: nat, hash: string, texts: seq<string>, generation: nat)

  // `vectors` maps each generation with points in the vector store to its document id.
  datatype Store = Store(docs: map<string, Row>, vectors: map<nat, nat>, next: nat)

  const EMPTY_STORE := Store(map[], map[], 0)

  datatype Operation = Created(chunks: nat) | Updated(chunks: nat) | Unchanged

  // ---- the texts of a document ----

  function ChunkTexts(chunks: seq<LineChunk>): seq<string> {
    seq(|chunks|, i requires 0 <= i < |chunks| => chunks[i].text)
  }

  function RawTexts(env: Env, d: Document): Result<seq<string>, string>
    requires ValidEnv(env)
  {
    match env.parse(d)
    case Err(_) => Err("parser_exception")
    case Ok(raw) =>
      if raw == [] then Err("no_chunks_parsed")
      else if Estimate(raw, env.maxTokens) > env.maxChunks
          then Ok(ChunkTexts(FallbackChunks(d.content, env.maxChunks, env.maxTokens)))
      else Ok(raw)
  }

  // What is stored for a document: all pieces of its raw chunks, if they are not too many.
  function Pieces(env: Env, d: Document): Result<seq<string>, string>
    requires ValidEnv(env)
  {
    match RawTexts(env, d)
    case Err(code) => Err(code)
    case Ok(raw) =>
      if |AllSubTexts(raw, env.maxTokens)| > env.maxChunks then Err("too_many_chunks")
      else Ok(AllSubTexts(raw, env.maxTokens))
  }

  /** Parsing, and the bounded fallback for a document with too many segments. */
  method ParseDocument(env: Env, d: Document) returns (raw: Result<seq<string>, string>)
    requires ValidEnv(env)
    ensures raw == RawTexts(env, d)
  {
    hide FallbackChunks, Estimate;
    var parsed := env.parse(d);
    if parsed.Err? {
      return Err("parser_exception");
    }
    if parsed.value == [] {
      return Err("no_chunks_parsed");
    }
    if Estimate(parsed.value, env.maxTokens) > env.maxChunks {
      var chunks := BuildBoundedFallbackChunks(d.content, env.maxChunks, env.maxTokens);
      return Ok(ChunkTexts(chunks));
    }
    return parsed;
  }

  /** The nested loop with its early exit collects all pieces, or fails exactly when they are
      more than the limit. */
  method CollectPieces(raw: seq<string>, maxTokens: nat, maxChunks: nat) returns (r: Result<seq<string>, string>)
    requires Splittable(maxTokens)
    ensures r == if |AllSubTexts(raw, maxTokens)| > maxChunks then Err("too_many_chunks")
        else Ok(AllSubTexts(raw, maxTokens))
  {
    hide *;
    var out := [];
    var i := 0;
    assert raw[0..] == raw;
    while i < |raw|
      invariant 0 <= i <= |raw| && |out| <= maxChunks
      invariant AllSubTexts(raw, maxTokens) == out + AllSubTexts(raw[i..], maxTokens)
    {
      SubTextsOfFirst(raw, i, maxTokens);
      var subs;
      if CountTokens(raw[i]) > maxTokens {
        subs := SplitTextByTokens(raw[i], maxTokens, OVERLAP_TOKENS);
      } else {
        subs := [raw[i]];
      }
      ghost var before := out;
      var j := 0;
      while j < |subs|
        invariant 0 <= j <= |subs| && out == before + subs[..j] && |out| <= maxChunks
      {
        if |out| >= maxChunks {
          return Err("too_many_chunks");
        }
        out := out + [subs[j]];
        j := j + 1;
      }
      assert before + (subs + AllSubTexts(raw[i + 1..], maxTokens)) == out + AllSubTexts(raw[i + 1..], maxTokens);
      i := i + 1;
    }
    NoSubTexts(maxTokens);
    assert raw[i..] == [] && out + [] == out;
    r := Ok(out);
  }

  lemma NoSubTexts(maxTokens: nat)
    requires Splittable(maxTokens)
    ensures AllSubTexts([], maxTokens) == []
  {
  }

  lemma SubTextsOfFirst(raw: seq<string>, i: nat, maxTokens: nat)
    requires Splittable(maxTokens) && i < |raw|
    ensures WordsOfTokens(maxTokens) > WordsOfTokens(OVERLAP_TOKENS)
    ensures var subs := if CountTokens(raw[i]) > maxTokens then Split(raw[i], maxTokens, OVERLAP_TOKENS) else [raw[i]];
            AllSubTexts(raw[i..], maxTokens) == subs + AllSubTexts(raw[i + 1..], maxTokens)
  {
    hide Split, CountTokens, WordsOfTokens;
    assert raw[i..][0] == raw[i] && raw[i..][1..] == raw[i + 1..];
  }

  /** The bounded fallback replaces the parsed chunks only of documents whose parsed chunks
      would have hit the chunk limit. */
  lemma FallbackOnlyBeyondLimit(env: Env, d: Document)
    requires ValidEnv(env) && env.parse(d).Ok? && env.parse(d).value != []
    ensures |AllSubTexts(env.parse(d).value, env.maxTokens)| <= env.maxChunks ==>
              RawTexts(env, d) == env.parse(d) && Pieces(env, d) == Ok(AllSubTexts(env.parse(d).value, env.maxTokens))
  {
    EstimateIsLowerBound(env.parse(d).value, env.maxTokens);
  }

  // ---- one document ----

  // The embedding step before the store is touched: None, or the code it fails with.
  function EmbeddingError(env: Env, texts: seq<string>): Option<string> {
    if texts == [] then None
    else match env.embed(texts)
      case NoBackend => None
      case BackendError => Some("embedding_error")
      case Vectors(count, _) => if count != |texts| then Some("embedding_error") else None
  }

  predicate WrongDimension(env: Env, texts: seq<string>) {
    texts != [] && env.embed(texts).Vectors? && !env.embed(texts).dimensionOk
  }

  predicate Embeds(env: Env, texts: seq<string>) {
    texts != [] && env.embed(texts).Vectors? && env.embed(texts).dimensionOk
  }

  function WithoutVectorsOf(vectors: map<nat, nat>, docId: nat): map<nat, nat> {
    map g | g in vectors && vectors[g] != docId :: vectors[g]
  }

  // The codes a document is refused with before the store is touched.
  function Refusal(env: Env, d: Document): Option<string>
    requires ValidEnv(env)
  {
    match Pieces(env, d)
    case Err(code) => Some(code)
    case Ok(texts) => EmbeddingError(env, texts)
  }

  // The rewrite inside the savepoint, and the upsert; `s` has the old vectors removed.
  function Rewrite(env: Env, s: Store, d: Document, f: Faults, texts: seq<string>): (Store, Result<Operation, string>) {
    var current := d.externalId in s.docs;
    var docId := if current then s.docs[d.externalId].docId else s.next;
    var g := s.next + 1;
    if !f.databaseOk then (s, Err("index_error"))
    else if WrongDimension(env, texts) then (s, Err("embedding_failed"))
    else if Embeds(env, texts) && !f.upsertOk then
      // the savepoint rolls back; points that were written all the same are orphans
      (if f.upsertApplied then s.(vectors := s.vectors[g := docId], next := s.next + 2) else s,
       Err("vector_index_failed"))
    else
      (Store(s.docs[d.externalId := Row(docId, d.hash, texts, g)],
             if Embeds(env, texts) then s.vectors[g := docId] else s.vectors,
             s.next + 2),
       Ok(if current then Updated(|texts|) else Created(|texts|)))
  }

  function IndexOne(env: Env, s: Store, d: Document, f: Faults): (Store, Result<Operation, string>)
    requires ValidEnv(env)
  {
    var e := d.externalId;
    if e in s.docs && s.docs[e].hash == d.hash then (s, Ok(Unchanged))
    else if Refusal(env, d).Some? then (s, Err(Refusal(env, d).value))
    else
      var removed := s.(vectors := if e in s.docs then WithoutVectorsOf(s.vectors, s.docs[e].docId) else s.vectors);
      if e in s.docs && !f.deleteOk then (if f.deleteApplied then removed else s, Err("vector_index_failed"))
      else Rewrite(env, removed, d, f, Pieces(env, d).value)
  }

  // ---- a batch ----

  datatype BatchResult = BatchResult(
    received: nat, created: nat, updated: nat, skippedUnchanged: nat, skippedInvalid: nat, chunksCreated: nat,
        errors: seq<string>)

  datatype Progress = Progress(store: Store, seen: set<string>, result: BatchResult)

  function Rejected(p: Progress, code: string): Progress {
    p.(result := p.result.(skippedInvalid := p.result.skippedInvalid + 1, errors := p.result.errors + [code]))
  }

  function Accepted(p: Progress, op: Operation): Progress {
    p.(result := match op
       case Created(n) => p.result.(created := p.result.created + 1, chunksCreated := p.result.chunksCreated + n)
       case Updated(n) => p.result.(updated := p.result.updated + 1, chunksCreated := p.result.chunksCreated + n)
       case Unchanged => p.result.(skippedUnchanged := p.result.skippedUnchanged + 1))
  }

  function BatchStep(env: Env, p: Progress, raw: Document, f: Faults): Progress
    requires ValidEnv(env)
  {
    match env.validate(raw)
    case Err(code) => Rejected(p, code)
    case Ok(d) =>
      if d.externalId in p.seen then Rejected(p, "duplicate_external_id")
      else
        var (store, r) := IndexOne(env, p.store, d, f);
        var q := p.(store := store, seen := p.seen + {d.externalId});
        if r.Err? then Rejected(q, r.error) else Accepted(q, r.value)
  }

  function Batch(env: Env, p: Progress, raws: seq<Document>, faults: seq<Faults>): Progress
    requires ValidEnv(env) && |faults| >= |raws|
    decreases |raws|
  {
    if raws == [] then p else Batch(env, BatchStep(env, p, raws[0], faults[0]), raws[1..], faults[1..])
  }

  function Start(store: Store, n: nat): Progress {
    Progress(store, {}, BatchResult(n, 0, 0, 0, 0, 0, []))
  }

  class DocumentIndex {
    var docs: map<string, Row>
    var vectors: map<nat, nat>
    var next: nat

    function Snapshot(): Store
      reads this
    {
      Store(docs, vectors, next)
    }

    constructor ()
      ensures Snapshot() == EMPTY_STORE
    {
      docs, vectors, next := map[], map[], 0;
    }

    /** _index_one_document: the checks before the store is touched, the removal of the old
        vectors, and the rewrite. */
    method IndexOneDocument(env: Env, d: Document, f: Faults) returns (r: Result<Operation, string>)
      requires ValidEnv(env)
      modifies this
      ensures (Snapshot(), r) == IndexOne(env, old(Snapshot()), d, f)
    {
      hide RawTexts, AllSubTexts, EmbeddingError, WithoutVectorsOf, Rewrite;
      var e := d.externalId;
      if e in docs && docs[e].hash == d.hash {
        return Ok(Unchanged);
      }
      var raw := ParseDocument(env, d);
      if raw.Err? {
        return Err(raw.error);
      }
      var collected := CollectPieces(raw.value, env.maxTokens, env.maxChunks);
      if collected.Err? {
        return Err(collected.error);
      }
      var problem := EmbeddingError(env, collected.value);
      if problem.Some? {
        return Err(problem.value);
      }
      if e in docs {
        if f.deleteOk || f.deleteApplied {
          vectors := WithoutVectorsOf(vectors, docs[e].docId);
        }
        if !f.deleteOk {
          return Err("vector_index_failed");
        }
      }
      r := RewriteDocument(env, d, f, collected.value);
    }

    // The savepoint: the row and its chunks are written first and undone when a later step fails.
    method RewriteDocument(env: Env, d: Document, f: Faults, texts: seq<string>) returns (r: Result<Operation, string>)
      modifies this
      ensures (Snapshot(), r) == Rewrite(env, old(Snapshot()), d, f, texts)
    {
      var e := d.externalId;
      var current := e in docs;
      var docId, g := if current then docs[e].docId else next, next + 1;
      var saved := docs;
      docs := docs[e := Row(docId, d.hash, texts, g)];
      if !f.databaseOk {
        docs := saved;
        return Err("index_error");
      }
      if WrongDimension(env, texts) {
        docs := saved;
        return Err("embedding_failed");
      }
      if Embeds(env, texts) {
        if f.upsertOk || f.upsertApplied {
          vectors := vectors[g := docId];
          next := next + 2;
        }
        if !f.upsertOk {
          docs := saved;
          return Err("vector_index_failed");
        }
      } else {
        next := next + 2;
      }
      return Ok(if current then Updated(|texts|) else Created(|texts|));
    }

    method IndexDocuments(env: Env, raws: seq<Document>, faults: seq<Faults>)
            returns (result: BatchResult, invalidated: bool)
      requires ValidEnv(env) && |faults| >= |raws|
      modifies this
      ensures var p := Batch(env, Start(old(Snapshot()), |raws|), raws, faults);
              Snapshot() == p.store && result == p.result
      ensures invalidated <==> result.created > 0 || result.updated > 0
    {
      result := BatchResult(|raws|, 0, 0, 0, 0, 0, []);
      var seen := {};
      var i := 0;
      while i < |raws|
        invariant 0 <= i <= |raws|
        invariant Batch(env, Progress(Snapshot(), seen, result), raws[i..], faults[i..])
                  == Batch(env, Start(old(Snapshot()), |raws|), raws, faults)
      {
        ghost var p := Progress(Snapshot(), seen, result);
        assert raws[i..][0] == raws[i] && raws[i..][1..] == raws[i + 1..];
        assert faults[i..][0] == faults[i] && faults[i..][1..] == faults[i + 1..];
        match env.validate(raws[i]) {
          case Err(code) =>
            result := result.(skippedInvalid := result.skippedInvalid + 1, errors := result.errors + [code]);
          case Ok(d) =>
            if d.externalId in seen {
              result := result.(skippedInvalid := result.skippedInvalid + 1,
                  errors := result.errors + ["duplicate_external_id"]);
            } else {
              seen := seen + {d.externalId};
              var r := IndexOneDocument(env, d, faults[i]);
              match r {
                case Err(code) =>
                  result := result.(skippedInvalid := result.skippedInvalid + 1, errors := result.errors + [code]);
                case Ok(op) =>
                  result := Accepted(Progress(Snapshot(), seen, result), op).result;
              }
            }
        }
        assert Progress(Snapshot(), seen, result) == BatchStep(env, p, raws[i], faults[i]);
        i := i + 1;
      }
      invalidated := result.created > 0 || result.updated > 0;
    }
  }

  // ---- conservation ----

  function Processed(r: BatchResult): nat {
    r.created + r.updated + r.skippedUnchanged + r.skippedInvalid
  }

  lemma {:induction false} BatchCounts(env: Env, p: Progress, raws: seq<Document>, faults: seq<Faults>)
    requires ValidEnv(env) && |faults| >= |raws|
    ensures var q := Batch(env, p, raws, faults).result;
            && q.received == p.result.received
            && Processed(q) == Processed(p.result) + |raws|
            && |q.errors| - q.skippedInvalid == |p.result.errors| - p.result.skippedInvalid
    decreases |raws|
  {
    if raws != [] {
      BatchCounts(env, BatchStep(env, p, raws[0], faults[0]), raws[1..], faults[1..]);
    }
  }

  /** Every received document is counted exactly once, and every rejection has its error, whatever
      the store did. */
  lemma BatchConservesCounts(env: Env, store: Store, raws: seq<Document>, faults: seq<Faults>)
    requires ValidEnv(env) && |faults| >= |raws|
    ensures var r := Batch(env, Start(store, |raws|), raws, faults).result;
            r.received == r.created + r.updated + r.skippedUnchanged + r.skippedInvalid
                && |r.errors| == r.skippedInvalid
  {
    BatchCounts(env, Start(store, |raws|), raws, faults);
  }

  // ---- what is stored ----

  // d's content is what the row holds.
  predicate Holds(env: Env, row: Row, d: Document)
    requires ValidEnv(env)
  {
    row.hash == d.hash && Pieces(env, d) == Ok(row.texts)
  }

  // A row's ids are in use, its vectors are its own, and it is within the chunk limit.
  ghost predicate RowOk(env: Env, s: Store, e: string)
    requires ValidEnv(env)
  {
    e in s.docs ==>
      && s.docs[e].docId < s.next
      && s.docs[e].generation < s.next
      && (s.docs[e].generation in s.vectors ==> s.vectors[s.docs[e].generation] == s.docs[e].docId)
      && |s.docs[e].texts| <= env.maxChunks
  }

  ghost predicate StoreOk(env: Env, s: Store)
    requires ValidEnv(env)
  {
    && (forall e :: RowOk(env, s, e))
    && (forall g | g in s.vectors :: g < s.next)
    && (forall e, e' | e in s.docs && e' in s.docs && e != e' :: s.docs[e].docId != s.docs[e'].docId)
  }

  /** One document replaces its own row with its own content exactly when the operation reports a
      creation or an update; otherwise no row changes. */
  lemma OnlyReportedOperationsChangeRows(env: Env, s: Store, d: Document, f: Faults)
    requires ValidEnv(env)
    ensures var (t, r) := IndexOne(env, s, d, f);
            if r.Ok? && !r.value.Unchanged? then
              && t.docs.Keys == s.docs.Keys + {d.externalId}
              && Holds(env, t.docs[d.externalId], d)
              && (forall e | e in s.docs && e != d.externalId :: t.docs[e] == s.docs[e])
              && (r.value.Updated? <==> d.externalId in s.docs)
            else t.docs == s.docs
  {
    hide Pieces, EmbeddingError, WithoutVectorsOf, WrongDimension, Embeds;
  }

  // How ids move: rows get fresh generations, and a vector is lost or kept or new.
  lemma IdsAreKept(env: Env, s: Store, d: Document, f: Faults)
    requires ValidEnv(env) && StoreOk(env, s)
    ensures var t := IndexOne(env, s, d, f).0;
            && t.next >= s.next
            && (t.docs != s.docs ==>
                  && t.next == s.next + 2 && d.externalId in t.docs && t.docs[d.externalId].generation == s.next + 1
                  && t.docs[d.externalId].docId == if d.externalId in s.docs then s.docs[d.externalId].docId
                      else s.next)
            && (forall g | g in t.vectors :: (g in s.vectors && t.vectors[g] == s.vectors[g])
                  || (g == s.next + 1 && t.next == s.next + 2
                      && t.vectors[g] == if d.externalId in s.docs then s.docs[d.externalId].docId else s.next))
  {
    hide Pieces, Refusal, StoreOk;
  }

  lemma PiecesAreFew(env: Env, d: Document)
    requires ValidEnv(env)
    ensures Pieces(env, d).Ok? ==> |Pieces(env, d).value| <= env.maxChunks
  {
    hide RawTexts, AllSubTexts;
  }

  lemma IndexOneKeepsStoreOk(env: Env, s: Store, d: Document, f: Faults)
    requires ValidEnv(env) && StoreOk(env, s)
    ensures StoreOk(env, IndexOne(env, s, d, f).0)
  {
    hide IndexOne, Pieces;
    var t := IndexOne(env, s, d, f).0;
    OnlyReportedOperationsChangeRows(env, s, d, f);
    IdsAreKept(env, s, d, f);
    PiecesAreFew(env, d);
    forall e
      ensures RowOk(env, t, e)
    {
      assert RowOk(env, s, e);
    }
    forall e, e' | e in t.docs && e' in t.docs && e != e'
      ensures t.docs[e].docId != t.docs[e'].docId
    {
      assert RowOk(env, s, e) && RowOk(env, s, e');
    }
  }

  /** Over any sequence of documents and failures, each external id has one row with its own document
      id, at most maxChunks chunks, and only its own vectors. What the chunks hold: see below. */
  lemma {:induction false} BatchKeepsStoreOk(env: Env, p: Progress, raws: seq<Document>, faults: seq<Faults>)
    requires ValidEnv(env) && |faults| >= |raws| && StoreOk(env, p.store)
    ensures StoreOk(env, Batch(env, p, raws, faults).store)
    decreases |raws|
  {
    if raws != [] {
      var v := env.validate(raws[0]);
      if v.Ok? {
        IndexOneKeepsStoreOk(env, p.store, v.value, faults[0]);
      }
      BatchKeepsStoreOk(env, BatchStep(env, p, raws[0], faults[0]), raws[1..], faults[1..]);
    }
  }

  // ---- what a batch leaves behind ----

  // The document a batch step indexes, if any.
  function Indexed(env: Env, p: Progress, raw: Document): Option<Document> {
    match env.validate(raw)
    case Err(_) => None
    case Ok(d) => if d.externalId in p.seen then None else Some(d)
  }

  lemma StepIndexes(env: Env, p: Progress, raw: Document, f: Faults)
    requires ValidEnv(env)
    ensures var d, p' := Indexed(env, p, raw), BatchStep(env, p, raw, f);
            if d.Some? then p'.seen == p.seen + {d.value.externalId} && p'.store == IndexOne(env, p.store, d.value, f).0
            else p'.seen == p.seen && p'.store == p.store
  {
    hide IndexOne;
  }

  // The last accepted document of each external id, after one more document was indexed in s.
  function AcceptOne(env: Env, last: map<string, Document>, s: Store, d: Document, f: Faults): map<string, Document>
    requires ValidEnv(env)
  {
    var r := IndexOne(env, s, d, f).1;
    if r.Ok? && !r.value.Unchanged? then last[d.externalId := d] else last
  }

  function AcceptBatch(env: Env, last: map<string, Document>, p: Progress, raws: seq<Document>, faults: seq<Faults>)
    : map<string, Document>
    requires ValidEnv(env) && |faults| >= |raws|
    decreases |raws|
  {
    if raws == [] then last
    else
      var d := Indexed(env, p, raws[0]);
      var next := if d.Some? then AcceptOne(env, last, p.store, d.value, faults[0]) else last;
      AcceptBatch(env, next, BatchStep(env, p, raws[0], faults[0]), raws[1..], faults[1..])
  }

  // The rows are those of the last accepted documents, with their content.
  ghost predicate HoldsLast(env: Env, s: Store, last: map<string, Document>)
    requires ValidEnv(env)
  {
    s.docs.Keys == last.Keys && forall e | e in last :: last[e].externalId == e && Holds(env, s.docs[e], last[e])
  }

  lemma IndexOneKeepsContent(env: Env, last: map<string, Document>, s: Store, d: Document, f: Faults)
    requires ValidEnv(env) && HoldsLast(env, s, last)
    ensures HoldsLast(env, IndexOne(env, s, d, f).0, AcceptOne(env, last, s, d, f))
  {
    hide IndexOne, Holds;
    OnlyReportedOperationsChangeRows(env, s, d, f);
  }

  lemma {:induction false} BatchKeepsContent(
      env: Env, last: map<string, Document>, p: Progress, raws: seq<Document>, faults: seq<Faults>)
    requires ValidEnv(env) && |faults| >= |raws| && HoldsLast(env, p.store, last)
    ensures HoldsLast(env, Batch(env, p, raws, faults).store, AcceptBatch(env, last, p, raws, faults))
    decreases |raws|
  {
    if raws != [] {
      hide IndexOne, BatchStep, HoldsLast, AcceptOne;
      var d := Indexed(env, p, raws[0]);
      var next := if d.Some? then AcceptOne(env, last, p.store, d.value, faults[0]) else last;
      StepIndexes(env, p, raws[0], faults[0]);
      SameRowsSameContent(env, p.store, BatchStep(env, p, raws[0], faults[0]).store, last);
      if d.Some? {
        IndexOneKeepsContent(env, last, p.store, d.value, faults[0]);
      }
      BatchKeepsContent(env, next, BatchStep(env, p, raws[0], faults[0]), raws[1..], faults[1..]);
    }
  }

  lemma SameRowsSameContent(env: Env, s: Store, t: Store, last: map<string, Document>)
    requires ValidEnv(env) && HoldsLast(env, s, last)
    ensures s.docs == t.docs ==> HoldsLast(env, t, last)
  {
  }

  // One submitted batch and the failures its documents meet.
  datatype Submission = Submission(raws: seq<Document>, faults: seq<Faults>)

  predicate Submissions(history: seq<Submission>) {
    forall i | 0 <= i < |history| :: |history[i].faults| >= |history[i].raws|
  }

  // The store after a sequence of batches, and the last accepted documents.
  function StoreAfter(env: Env, history: seq<Submission>): Store
    requires ValidEnv(env) && Submissions(history)
  {
    if history == [] then EMPTY_STORE
    else
      var before, x := StoreAfter(env, history[..|history| - 1]), history[|history| - 1];
      Batch(env, Start(before, |x.raws|), x.raws, x.faults).store
  }

  function LastAccepted(env: Env, history: seq<Submission>): map<string, Document>
    requires ValidEnv(env) && Submissions(history)
  {
    if history == [] then map[]
    else
      var front, x := history[..|history| - 1], history[|history| - 1];
      AcceptBatch(env, LastAccepted(env, front), Start(StoreAfter(env, front), |x.raws|), x.raws, x.faults)
  }

  /** After any sequence of batches and failures there is exactly one row for each external id a
      document of which was ever accepted; it holds the pieces of the last accepted one, and no
      more of them than the limit. */
  lemma {:induction false} RowsHoldTheLastAcceptedContent(env: Env, history: seq<Submission>)
    requires ValidEnv(env) && Submissions(history)
    ensures HoldsLast(env, StoreAfter(env, history), LastAccepted(env, history))
    ensures StoreOk(env, StoreAfter(env, history))
  {
    if history != [] {
      hide Batch, AcceptBatch, HoldsLast, StoreOk;
      var front, x := history[..|history| - 1], history[|history| - 1];
      RowsHoldTheLastAcceptedContent(env, front);
      var start := Start(StoreAfter(env, front), |x.raws|);
      BatchKeepsContent(env, LastAccepted(env, front), start, x.raws, x.faults);
      BatchKeepsStoreOk(env, start, x.raws, x.faults);
    }
  }

  function RowOf(s: Store, e: string): Option<Row> {
    if e in s.docs then Some(s.docs[e]) else None
  }

  lemma {:induction false} BatchKeepsSeenRows(env: Env, p: Progress, raws: seq<Document>, faults: seq<Faults>,
          e: string)
    requires ValidEnv(env) && |faults| >= |raws| && e in p.seen
    ensures RowOf(Batch(env, p, raws, faults).store, e) == RowOf(p.store, e)
    decreases |raws|
  {
    if raws != [] {
      hide BatchStep, IndexOne, Holds;
      var d := Indexed(env, p, raws[0]);
      StepIndexes(env, p, raws[0], faults[0]);
      if d.Some? {
        OnlyReportedOperationsChangeRows(env, p.store, d.value, faults[0]);
      }
      BatchKeepsSeenRows(env, BatchStep(env, p, raws[0], faults[0]), raws[1..], faults[1..], e);
    }
  }

  lemma {:induction false} BatchSplits(env: Env, p: Progress, raws: seq<Document>, faults: seq<Faults>, i: nat)
    requires ValidEnv(env) && |faults| >= |raws| && i <= |raws|
    ensures Batch(env, p, raws, faults) == Batch(env, Batch(env, p, raws[..i], faults[..i]), raws[i..], faults[i..])
    decreases |raws|
  {
    hide BatchStep;
    if i == 0 {
      assert raws[..0] == [] && raws[0..] == raws && faults[0..] == faults;
    } else {
      BatchSplits(env, BatchStep(env, p, raws[0], faults[0]), raws[1..], faults[1..], i - 1);
      assert raws[..i][1..] == raws[1..][..i - 1] && faults[..i][1..] == faults[1..][..i - 1];
      assert raws[1..][i - 1..] == raws[i..] && faults[1..][i - 1..] == faults[i..];
    }
  }

  /** At the end of a batch, the row of every document that was created or updated at its turn holds
      that document's content, and the row of one found unchanged still has its hash, whatever
      failed afterwards. */
  lemma AcceptedContentStays(env: Env, p: Progress, raws: seq<Document>, faults: seq<Faults>, i: nat)
    requires ValidEnv(env) && |faults| >= |raws| && i < |raws|
    requires var d := Indexed(env, Batch(env, p, raws[..i], faults[..i]), raws[i]);
             d.Some? && IndexOne(env, Batch(env, p, raws[..i], faults[..i]).store, d.value, faults[i]).1.Ok?
    ensures var q := Batch(env, p, raws[..i], faults[..i]);
            var d, s := Indexed(env, q, raws[i]).value, Batch(env, p, raws, faults).store;
            && d.externalId in s.docs && s.docs[d.externalId].hash == d.hash
            && (!IndexOne(env, q.store, d, faults[i]).1.value.Unchanged? ==> Holds(env, s.docs[d.externalId], d))
  {
    hide BatchStep, IndexOne, Pieces, Indexed;
    var q := Batch(env, p, raws[..i], faults[..i]);
    var d := Indexed(env, q, raws[i]).value;
    BatchSplits(env, p, raws, faults, i);
    assert raws[i..][0] == raws[i] && faults[i..][0] == faults[i];
    StepIndexes(env, q, raws[i], faults[i]);
    OnlyReportedOperationsChangeRows(env, q.store, d, faults[i]);
    UnchangedMeansSameHash(env, q.store, d, faults[i]);
    BatchKeepsSeenRows(env, BatchStep(env, q, raws[i], faults[i]), raws[i..][1..], faults[i..][1..], d.externalId);
  }

  lemma UnchangedMeansSameHash(env: Env, s: Store, d: Document, f: Faults)
    requires ValidEnv(env)
    ensures IndexOne(env, s, d, f).1 == Ok(Unchanged) <==> d.externalId in s.docs && s.docs[d.externalId].hash == d.hash
  {
    hide Pieces, Refusal;
  }

  // ---- repeating a batch ----

  // What indexing a document reports the second time.
  function Again(r: Result<Operation, string>): Result<Operation, string> {
    if r.Ok? then Ok(Unchanged) else r
  }

  // Indexing d changes nothing and reports x.
  predicate Fixed(env: Env, s: Store, d: Document, x: Result<Operation, string>)
    requires ValidEnv(env)
  {
    IndexOne(env, s, d, NO_FAULTS) == (s, x)
  }

  lemma SecondTimeIsFixed(env: Env, s: Store, d: Document)
    requires ValidEnv(env)
    ensures var (t, r) := IndexOne(env, s, d, NO_FAULTS);
            Fixed(env, t, d, Again(r))
  {
    hide Pieces, Refusal;
    var (t, r) := IndexOne(env, s, d, NO_FAULTS);
    if r.Err? && d.externalId in s.docs && Refusal(env, d).None? {
      var id := s.docs[d.externalId].docId;
      assert WithoutVectorsOf(t.vectors, id) == t.vectors;
    }
  }

  // The row and the vectors of d's external id, which decide what indexing d does.
  predicate FixedRow(env: Env, s: Store, d: Document, x: Result<Operation, string>)
    requires ValidEnv(env)
  {
    var e := d.externalId;
    if e in s.docs && s.docs[e].hash == d.hash then x == Ok(Unchanged)
    else if Refusal(env, d).Some? then x == Err(Refusal(env, d).value)
    else
      && WrongDimension(env, Pieces(env, d).value) && x == Err("embedding_failed")
      && (e in s.docs ==> HasNoVectors(s, s.docs[e].docId))
  }

  predicate HasNoVectors(s: Store, docId: nat) {
    forall g | g in s.vectors :: s.vectors[g] != docId
  }

  lemma FixedMeans(env: Env, s: Store, d: Document, x: Result<Operation, string>)
    requires ValidEnv(env)
    ensures Fixed(env, s, d, x) <==> FixedRow(env, s, d, x)
  {
    hide Pieces, Refusal;
    var e := d.externalId;
    if e in s.docs {
      var kept := WithoutVectorsOf(s.vectors, s.docs[e].docId);
      if HasNoVectors(s, s.docs[e].docId) {
        assert kept == s.vectors;
      } else {
        assert kept.Keys != s.vectors.Keys;
      }
    }
  }

  // Indexing a document of another external id does not disturb this.
  lemma OthersKeepFixed(env: Env, s: Store, d: Document, x: Result<Operation, string>, other: Document, f: Faults)
    requires ValidEnv(env) && StoreOk(env, s) && Fixed(env, s, d, x) && other.externalId != d.externalId
    ensures Fixed(env, IndexOne(env, s, other, f).0, d, x)
  {
    hide Fixed, IndexOne, Pieces, Refusal, Holds, WrongDimension;
    var t := IndexOne(env, s, other, f).0;
    IdsAreKept(env, s, other, f);
    OnlyReportedOperationsChangeRows(env, s, other, f);
    assert RowOk(env, s, d.externalId) && RowOk(env, s, other.externalId);
    FixedMeans(env, s, d, x);
    FixedMeans(env, t, d, x);
  }

  lemma {:induction false} BatchKeepsFixed(env: Env, p: Progress, raws: seq<Document>, faults: seq<Faults>,
          d: Document, x: Result<Operation, string>)
    requires ValidEnv(env) && |faults| >= |raws| && StoreOk(env, p.store)
    requires d.externalId in p.seen && Fixed(env, p.store, d, x)
    ensures Fixed(env, Batch(env, p, raws, faults).store, d, x)
    decreases |raws|
  {
    if raws != [] {
      hide Fixed, IndexOne, StoreOk;
      var v := env.validate(raws[0]);
      if v.Ok? && v.value.externalId !in p.seen {
        IndexOneKeepsStoreOk(env, p.store, v.value, faults[0]);
        OthersKeepFixed(env, p.store, d, x, v.value, faults[0]);
      }
      BatchKeepsFixed(env, BatchStep(env, p, raws[0], faults[0]), raws[1..], faults[1..], d, x);
    }
  }

  predicate AllWell(faults: seq<Faults>) {
    forall i | 0 <= i < |faults| :: faults[i] == NO_FAULTS
  }

  // The second report: what was accepted is unchanged, what was rejected is rejected alike.
  predicate Repeats(first: BatchResult, second: BatchResult) {
    && second.received == first.received
    && second.created == 0 && second.updated == 0 && second.chunksCreated == 0
    && second.skippedUnchanged == first.created + first.updated + first.skippedUnchanged
    && second.skippedInvalid == first.skippedInvalid && second.errors == first.errors
  }

  lemma SecondStep(env: Env, p: Progress, q: Progress, raw: Document)
    requires ValidEnv(env) && q.seen == p.seen && Repeats(p.result, q.result)
    requires var d := Indexed(env, p, raw);
             d.Some? ==> Fixed(env, q.store, d.value, Again(IndexOne(env, p.store, d.value, NO_FAULTS).1))
    ensures var p', q' := BatchStep(env, p, raw, NO_FAULTS), BatchStep(env, q, raw, NO_FAULTS);
            q'.store == q.store && q'.seen == p'.seen && Repeats(p'.result, q'.result)
  {
    hide IndexOne;
  }

  lemma {:induction false} SecondPass(env: Env, p: Progress, q: Progress, raws: seq<Document>, faults: seq<Faults>)
    requires ValidEnv(env) && |faults| >= |raws| && AllWell(faults) && StoreOk(env, p.store)
    requires q.store == Batch(env, p, raws, faults).store && q.seen == p.seen && Repeats(p.result, q.result)
    ensures Batch(env, q, raws, faults).store == q.store
    ensures Repeats(Batch(env, p, raws, faults).result, Batch(env, q, raws, faults).result)
    decreases |raws|
  {
    if raws != [] {
      hide IndexOne, StoreOk, BatchStep, Indexed, Repeats, Fixed, ValidEnv;
      var p', q' := BatchStep(env, p, raws[0], faults[0]), BatchStep(env, q, raws[0], faults[0]);
      var d := Indexed(env, p, raws[0]);
      StepIndexes(env, p, raws[0], faults[0]);
      if d.Some? {
        IndexOneKeepsStoreOk(env, p.store, d.value, faults[0]);
        SecondTimeIsFixed(env, p.store, d.value);
        BatchKeepsFixed(env, p', raws[1..], faults[1..], d.value, Again(IndexOne(env, p.store, d.value, NO_FAULTS).1));
      }
      SecondStep(env, p, q, raws[0]);
      SecondPass(env, p', q', raws[1..], faults[1..]);
    }
  }

  /** Repeating a batch without store failures creates and updates nothing, leaves rows and
      vectors as they are, reports what was accepted as unchanged and repeats every error. */
  lemma RepeatingABatchChangesNothing(env: Env, store: Store, raws: seq<Document>, faults: seq<Faults>)
    requires ValidEnv(env) && |faults| >= |raws| && AllWell(faults) && StoreOk(env, store)
    ensures var first := Batch(env, Start(store, |raws|), raws, faults);
            var second := Batch(env, Start(first.store, |raws|), raws, faults);
            second.store == first.store && Repeats(first.result, second.result)
  {
    SecondPass(env, Start(store, |raws|), Start(Batch(env, Start(store, |raws|), raws, faults).store, |raws|), raws,
        faults);
  }

  // ---- lost vectors ----

  // The row's own chunks are in the vector store.
  predicate Live(s: Store, e: string) {
    e in s.docs && s.docs[e].generation in s.vectors
  }

  // Indexing d leaves the vectors of its row alone: it is skipped or refused, or the removal
  // fails without effect.
  predicate LeavesVectors(env: Env, s: Store, d: Document, f: Faults)
    requires ValidEnv(env)
  {
    var e := d.externalId;
    || (e in s.docs && s.docs[e].hash == d.hash)
    || Refusal(env, d).Some?
    || (e in s.docs && !f.deleteOk && !f.deleteApplied)
  }

  // Indexing d gets as far as publishing new vectors, and that succeeds.
  predicate Publishes(env: Env, s: Store, d: Document, f: Faults)
    requires ValidEnv(env)
  {
    var e := d.externalId;
    && !(e in s.docs && s.docs[e].hash == d.hash) && Refusal(env, d).None?
    && (e in s.docs ==> f.deleteOk) && f.databaseOk && f.upsertOk && Embeds(env, Pieces(env, d).value)
  }

  /** For every document, store and failure: the external id has its vectors afterwards if and only
      if it had them and they were left alone, or new ones were published. */
  lemma LiveAfterIndexingIff(env: Env, s: Store, d: Document, f: Faults)
    requires ValidEnv(env) && StoreOk(env, s)
    ensures Live(IndexOne(env, s, d, f).0, d.externalId)
            <==> (Live(s, d.externalId) && LeavesVectors(env, s, d, f)) || Publishes(env, s, d, f)
  {
    hide Pieces, Refusal, Holds;
    assert RowOk(env, s, d.externalId);
  }

  /** A replacement loses the vectors of a searchable row exactly when it is not refused before the
      store is touched, the removal does not fail without effect, and any later step fails or has
      nothing to publish: the database, the upsert, the embedding's dimension or its backend. */
  lemma ReplacementKeepsVectorsIff(env: Env, s: Store, d: Document, f: Faults)
    requires ValidEnv(env) && StoreOk(env, s) && Live(s, d.externalId) && s.docs[d.externalId].hash != d.hash
    ensures Live(IndexOne(env, s, d, f).0, d.externalId)
            <==> || Refusal(env, d).Some?
                 || (!f.deleteOk && !f.deleteApplied)
                 || (f.deleteOk && f.databaseOk && f.upsertOk && Embeds(env, Pieces(env, d).value))
  {
    hide Pieces, Refusal, Holds, IndexOne, Embeds;
    LiveAfterIndexingIff(env, s, d, f);
  }

  /** Indexing embeddable content without failures leaves it searchable by vector if and only if
      the row did not already claim that content, or its vectors were still there: content with
      an unchanged hash is skipped, whatever happened to its vectors. */
  lemma IndexingRestoresVectorsIff(env: Env, s: Store, d: Document)
    requires ValidEnv(env) && Refusal(env, d).None? && Embeds(env, Pieces(env, d).value)
    ensures var t := IndexOne(env, s, d, NO_FAULTS).0;
            Live(t, d.externalId)
            <==> !(d.externalId in s.docs && s.docs[d.externalId].hash == d.hash) || Live(s, d.externalId)
  {
    hide Pieces;
  }

  /** Whenever a replacement ends in an error after its vectors were removed, the old row stays
      without them, and indexing the old content again finds it unchanged and does not bring them
      back, whatever the failures of that second attempt. */
  lemma FailedReplacementLosesVectors(env: Env, s: Store, d: Document, f: Faults, former: Document, g: Faults)
    requires ValidEnv(env) && StoreOk(env, s)
    requires d.externalId in s.docs && !LeavesVectors(env, s, d, f) && IndexOne(env, s, d, f).1.Err?
    requires former.externalId == d.externalId && former.hash == s.docs[d.externalId].hash
    ensures var t := IndexOne(env, s, d, f).0;
            t.docs == s.docs && !Live(t, d.externalId) && IndexOne(env, t, former, g) == (t, Ok(Unchanged))
  {
    hide Pieces, Refusal, Holds;
    assert RowOk(env, s, d.externalId);
  }

  /** An embedding of the wrong dimension is such a replacement even if every store call succeeds. */
  lemma WrongDimensionLosesVectors(env: Env, s: Store, d: Document)
    requires ValidEnv(env) && StoreOk(env, s) && d.externalId in s.docs && s.docs[d.externalId].hash != d.hash
    requires Refusal(env, d).None? && WrongDimension(env, Pieces(env, d).value)
    ensures var (t, r) := IndexOne(env, s, d, NO_FAULTS);
            r == Err("embedding_failed") && t.docs == s.docs && !Live(t, d.externalId)
  {
    hide Pieces, Refusal, Holds;
    assert RowOk(env, s, d.externalId);
  }
}
