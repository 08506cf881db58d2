/** The relational store and the vector store together, from incidentops/ingestion/indexer.py,
    incidentops/retrieval/vector_store.py and incidentops/retrieval/vector_search.py.

    Any number of transactions index documents at the same time. Vector-store calls are atomic
    but not transactional: each takes effect at some later time, even after the transaction that
    sent it has rolled back or its worker has died, or it is lost. */
module TwoStoreIndex {
  import opened Prelude

  // The unique constraint of the documents table: one row per key.
  datatype Key = Key(project: nat, source: nat, externalId: string)

  // A document row with the ids of its chunk rows.
  datatype Doc = Doc(docId: nat, hash: string, chunks: set<nat>)

  // The payload fields deletion filters on.
  datatype Point = Point(project: nat, docId: nat)

  datatype Call = Delete(project: nat, docId: nat) | Upsert(point: Point, chunks: set<nat>)

  datatype State = State(
    docs: map<Key, Doc>,                 // committed
    txs: map<nat, map<Key, Doc>>,        // what each open transaction has written
    rowLocks: map<Key, nat>,
    calls: multiset<Call>,               // sent to the vector store, not yet applied
    points: map<nat, Point>,             // by chunk id
    usedChunks: set<nat>)

  const EMPTY := State(map[], map[], map[], multiset{}, map[], {})

  datatype Action =
    | Begin(t: nat)
    | SendDelete(t: nat, k: Key)
    | Write(t: nat, k: Key, doc: Doc)
    | UndoWrite(t: nat, k: Key)
    | SendUpsert(t: nat, k: Key)
    | Apply(call: Call)
    | Lose(call: Call)
    | Commit(t: nat)
    | Rollback(t: nat)

  function ApplyCall(points: map<nat, Point>, call: Call): map<nat, Point> {
    match call
    case Delete(project, docId) => map c | c in points && points[c] != Point(project, docId) :: points[c]
    case Upsert(p, chunks) => map c | c in points.Keys + chunks :: if c in chunks then p else points[c]
  }

  predicate Enabled(s: State, a: Action) {
    match a
    case Begin(t) => t !in s.txs
    case SendDelete(t, k) => t in s.txs && k in s.docs
    case Write(t, k, doc) =>
      && t in s.txs && (k in s.rowLocks ==> s.rowLocks[k] == t)
      && doc.chunks !! s.usedChunks
      && (k in s.docs ==> doc.docId == s.docs[k].docId)
    case UndoWrite(t, k) => t in s.txs && k in s.txs[t]
    case SendUpsert(t, k) => t in s.txs && k in s.txs[t]
    case Apply(call) => call in s.calls
    case Lose(call) => call in s.calls
    case Commit(t) => t in s.txs
    case Rollback(t) => t in s.txs
  }

  function Unlocked(s: State, t: nat): map<Key, nat> {
    map k | k in s.rowLocks && s.rowLocks[k] != t :: s.rowLocks[k]
  }

  function Next(s: State, a: Action): State
    requires Enabled(s, a)
  {
    match a
    case Begin(t) => s.(txs := s.txs[t := map[]])
    case SendDelete(t, k) => s.(calls := s.calls + multiset{Delete(k.project, s.docs[k].docId)})
    case Write(t, k, doc) =>
      s.(txs := s.txs[t := s.txs[t][k := doc]], rowLocks := s.rowLocks[k := t], usedChunks := s.usedChunks + doc.chunks)
    case UndoWrite(t, k) =>
      // rolling back to the savepoint also releases the lock taken inside it
      s.(txs := s.txs[t := s.txs[t] - {k}],
         rowLocks := if k in s.rowLocks && s.rowLocks[k] == t then s.rowLocks - {k} else s.rowLocks)
    case SendUpsert(t, k) =>
      s.(calls := s.calls + multiset{Upsert(Point(k.project, s.txs[t][k].docId), s.txs[t][k].chunks)})
    case Apply(call) => s.(calls := s.calls - multiset{call}, points := ApplyCall(s.points, call))
    case Lose(call) => s.(calls := s.calls - multiset{call})
    case Commit(t) => s.(docs := s.docs + s.txs[t], txs := s.txs - {t}, rowLocks := Unlocked(s, t))
    case Rollback(t) => s.(txs := s.txs - {t}, rowLocks := Unlocked(s, t))
  }

  function Run(s: State, acts: seq<Action>): Option<State>
    decreases |acts|
  {
    if acts == [] then Some(s)
    else if !Enabled(s, acts[0]) then None
    else Run(Next(s, acts[0]), acts[1..])
  }

  // ---- the invariant ----

  // A document version is either committed or written by an open transaction.
  datatype Place = Committed | In(t: nat)

  predicate Has(s: State, p: Place, k: Key) {
    match p
    case Committed => k in s.docs
    case In(t) => t in s.txs && k in s.txs[t]
  }

  function At(s: State, p: Place, k: Key): Doc
    requires Has(s, p, k)
  {
    match p
    case Committed => s.docs[k]
    case In(t) => s.txs[t][k]
  }

  predicate AllOrNone(points: map<nat, Point>, chunks: set<nat>) {
    chunks <= points.Keys || chunks !! points.Keys
  }

  // Every version's points are all there or all missing, and carry its own payload.
  predicate VersionOk(s: State, k: Key, d: Doc) {
    && d.chunks <= s.usedChunks
    && AllOrNone(s.points, d.chunks)
    && (forall c | c in d.chunks && c in s.points :: s.points[c] == Point(k.project, d.docId))
  }

  // A pending upsert is about exactly this version or about none of its chunks.
  predicate CallFits(call: Call, k: Key, d: Doc) {
    call.Upsert? ==> call.chunks !! d.chunks || (call.chunks == d.chunks && call.point == Point(k.project, d.docId))
  }

  ghost predicate VersionsOk(s: State) {
    forall p, k | Has(s, p, k) :: VersionOk(s, k, At(s, p, k))
  }

  ghost predicate VersionsDisjoint(s: State) {
    forall p, k, q, l | Has(s, p, k) && Has(s, q, l) && (p != q || k != l) :: At(s, p, k).chunks !! At(s, q, l).chunks
  }

  ghost predicate CallsOk(s: State) {
    && (forall call | call in s.calls && call.Upsert? :: call.chunks <= s.usedChunks)
    && (forall call, p, k | call in s.calls && Has(s, p, k) :: CallFits(call, k, At(s, p, k)))
  }

  ghost predicate Inv(s: State) {
    VersionsOk(s) && VersionsDisjoint(s) && CallsOk(s) && s.points.Keys <= s.usedChunks
  }

  // The same versions, or fewer, in other places.
  lemma MovedVersionsKeepInv(s: State, t: State)
    requires Inv(s) && t.points == s.points && t.calls <= s.calls && t.usedChunks == s.usedChunks
    requires forall p, k | Has(t, p, k) :: exists q :: Has(s, q, k) && At(s, q, k) == At(t, p, k)
    requires forall p, k, q | Has(t, p, k) && Has(t, q, k) && p != q ::
               exists p', q' :: p' != q' && Has(s, p', k) && Has(s, q', k) && At(s, p', k) == At(t, p, k)
                   && At(s, q', k) == At(t, q, k)
    ensures Inv(t)
  {
    forall p, k, q, l | Has(t, p, k) && Has(t, q, l) && (p != q || k != l)
      ensures At(t, p, k).chunks !! At(t, q, l).chunks
    {
      if k == l {
        var p', q' :| p' != q' && Has(s, p', k) && Has(s, q', k) && At(s, p', k) == At(t, p, k)
            && At(s, q', k) == At(t, q, k);
      } else {
        var p' :| Has(s, p', k) && At(s, p', k) == At(t, p, k);
        var q' :| Has(s, q', l) && At(s, q', l) == At(t, q, l);
      }
    }
    forall call, p, k | call in t.calls && Has(t, p, k)
      ensures CallFits(call, k, At(t, p, k))
    {
      var q :| Has(s, q, k) && At(s, q, k) == At(t, p, k);
      assert call in s.calls;
    }
    forall call | call in t.calls
      ensures call in s.calls
    {
    }
  }

  lemma ApplyKeepsVersion(s: State, call: Call, k: Key, d: Doc)
    requires VersionOk(s, k, d) && CallFits(call, k, d)
    ensures VersionOk(s.(points := ApplyCall(s.points, call)), k, d)
  {
    var after := ApplyCall(s.points, call);
    match call {
      case Delete(project, docId) =>
        if d.chunks <= s.points.Keys {
          if Point(k.project, d.docId) == Point(project, docId) {
            assert d.chunks !! after.Keys;
          } else {
            assert d.chunks <= after.Keys;
          }
        }
      case Upsert(_, chunks) =>
        assert after.Keys == s.points.Keys + chunks;
    }
  }

  lemma ApplyKeepsInv(s: State, call: Call)
    requires Inv(s) && call in s.calls
    ensures Inv(Next(s, Apply(call)))
  {
    var t := Next(s, Apply(call));
    forall p, k | Has(t, p, k)
      ensures VersionOk(t, k, At(t, p, k))
    {
      assert Has(s, p, k);
      ApplyKeepsVersion(s, call, k, At(s, p, k));
    }
    forall p, k | Has(t, p, k)
      ensures Has(s, p, k) && At(s, p, k) == At(t, p, k)
    {
    }
  }

  lemma WriteKeepsInv(s: State, t: nat, k: Key, doc: Doc)
    requires Inv(s) && Enabled(s, Write(t, k, doc))
    ensures Inv(Next(s, Write(t, k, doc)))
  {
    var n := Next(s, Write(t, k, doc));
    forall p, l | Has(n, p, l) && (p != In(t) || l != k)
      ensures Has(s, p, l) && At(s, p, l) == At(n, p, l)
    {
    }
    assert At(n, In(t), k) == doc;
  }

  lemma SendUpsertKeepsInv(s: State, t: nat, k: Key)
    requires Inv(s) && Enabled(s, SendUpsert(t, k))
    ensures Inv(Next(s, SendUpsert(t, k)))
  {
    var n := Next(s, SendUpsert(t, k));
    var d := At(s, In(t), k);
    forall p, l | Has(n, p, l)
      ensures Has(s, p, l) && At(s, p, l) == At(n, p, l)
          && CallFits(Upsert(Point(k.project, d.docId), d.chunks), l, At(n, p, l))
    {
      if p == In(t) && l == k {
      } else {
        assert At(s, p, l).chunks !! d.chunks;
      }
    }
  }

  lemma CommitKeepsInv(s: State, t: nat)
    requires Inv(s) && t in s.txs
    ensures Inv(Next(s, Commit(t)))
  {
    var n := Next(s, Commit(t));
    // where a version of n was before
    forall p, k | Has(n, p, k)
      ensures var q := if p.Committed? && k in s.txs[t] then In(t) else p; Has(s, q, k) && At(s, q, k) == At(n, p, k)
    {
    }
    forall p, k, q | Has(n, p, k) && Has(n, q, k) && p != q
      ensures exists p', q' :: p' != q' && Has(s, p', k) && Has(s, q', k)
                && At(s, p', k) == At(n, p, k) && At(s, q', k) == At(n, q, k)
    {
      var p' := if p.Committed? && k in s.txs[t] then In(t) else p;
      var q' := if q.Committed? && k in s.txs[t] then In(t) else q;
      assert Has(s, p', k) && Has(s, q', k);
    }
    MovedVersionsKeepInv(s, n);
  }

  lemma StepKeepsInv(s: State, a: Action)
    requires Inv(s) && Enabled(s, a)
    ensures Inv(Next(s, a))
  {
    var n := Next(s, a);
    match a {
      case Write(t, k, doc) => WriteKeepsInv(s, t, k, doc);
      case SendUpsert(t, k) => SendUpsertKeepsInv(s, t, k);
      case Apply(call) => ApplyKeepsInv(s, call);
      case Commit(t) => CommitKeepsInv(s, t);
      case _ =>
        forall p, k | Has(n, p, k)
          ensures Has(s, p, k) && At(s, p, k) == At(n, p, k)
        {
        }
    }
  }

  lemma {:induction false} RunKeepsInv(s: State, acts: seq<Action>)
    requires Inv(s) && Run(s, acts).Some?
    ensures Inv(Run(s, acts).value)
    decreases |acts|
  {
    if acts != [] {
      StepKeepsInv(s, acts[0]);
      RunKeepsInv(Next(s, acts[0]), acts[1..]);
    }
  }

  /** In every reachable state, whatever failed, crashed, raced or arrived late, the vectors a
      committed document has are those of all its chunks or of none. */
  lemma LiveVectorsAreAllOrNone(acts: seq<Action>, k: Key)
    requires Run(EMPTY, acts).Some? && k in Run(EMPTY, acts).value.docs
    ensures var s := Run(EMPTY, acts).value;
            var live := s.docs[k].chunks * s.points.Keys;
            live == {} || live == s.docs[k].chunks
  {
    RunKeepsInv(EMPTY, acts);
    assert Has(Run(EMPTY, acts).value, Committed, k);
  }

  // ---- what the calls and the transactions do ----

  /** Applying an upsert puts exactly its chunks there, with its payload, and leaves all other points
      alone; applying a delete removes exactly the points of that project and document. */
  lemma CallsDoWhatTheySay(points: map<nat, Point>, call: Call, c: nat)
    ensures call.Upsert? && c in call.chunks ==>
              c in ApplyCall(points, call) && ApplyCall(points, call)[c] == call.point
    ensures call.Upsert? && c !in call.chunks ==>
              (c in ApplyCall(points, call) <==> c in points)
              && (c in points ==> ApplyCall(points, call)[c] == points[c])
    ensures call.Delete? ==>
              (c in ApplyCall(points, call)
               <==> c in points && !(points[c].project == call.project && points[c].docId == call.docId))
              && (c in ApplyCall(points, call) ==> ApplyCall(points, call)[c] == points[c])
  {
  }

  /** A commit makes exactly the transaction's own versions the committed ones; a rollback, and the
      rollback of one write, leave the committed rows as they are and forget what was written. */
  lemma TransactionsAreAtomic(s: State, t: nat, k: Key, l: Key)
    requires t in s.txs
    ensures var n := Next(s, Commit(t));
            && t !in n.txs && (l in n.docs <==> l in s.docs || l in s.txs[t])
            && (l in s.txs[t] ==> n.docs[l] == s.txs[t][l])
            && (l in s.docs && l !in s.txs[t] ==> n.docs[l] == s.docs[l])
    ensures var n := Next(s, Rollback(t)); n.docs == s.docs && t !in n.txs && n.points == s.points
    ensures k in s.txs[t] ==>
              var n := Next(s, UndoWrite(t, k));
              && n.docs == s.docs && t in n.txs && k !in n.txs[t]
              && (l != k ==> (l in n.txs[t] <==> l in s.txs[t]) && (l in s.txs[t] ==> n.txs[t][l] == s.txs[t][l]))
  {
  }

  // Every written version is under its transaction's row lock.
  ghost predicate Locked(s: State) {
    forall t, k | t in s.txs && k in s.txs[t] :: k in s.rowLocks && s.rowLocks[k] == t
  }

  lemma {:induction false} RunKeepsLocked(s: State, acts: seq<Action>)
    requires Locked(s) && Run(s, acts).Some?
    ensures Locked(Run(s, acts).value)
    decreases |acts|
  {
    if acts != [] {
      StepKeepsLocked(s, acts[0]);
      RunKeepsLocked(Next(s, acts[0]), acts[1..]);
    }
  }

  lemma StepKeepsLocked(s: State, a: Action)
    requires Locked(s) && Enabled(s, a)
    ensures Locked(Next(s, a))
  {
    hide ApplyCall;
  }

  /** In every run at most one open transaction has written a version of a document. */
  lemma WritesExcludeEachOther(acts: seq<Action>, t: nat, u: nat, k: Key)
    requires Run(EMPTY, acts).Some?
    ensures var s := Run(EMPTY, acts).value;
            t in s.txs && u in s.txs && k in s.txs[t] && k in s.txs[u] ==> t == u
  {
    RunKeepsLocked(EMPTY, acts);
    var s := Run(EMPTY, acts).value;
    assert Locked(s);
    if t in s.txs && u in s.txs && k in s.txs[t] && k in s.txs[u] {
      assert s.rowLocks[k] == t && s.rowLocks[k] == u;
    }
  }

  // ---- an undisturbed indexing ----

  // Transaction t indexes document k: the old vectors are removed first, if there is a row.
  function IndexSteps(s: State, t: nat, k: Key, doc: Doc): seq<Action> {
    var upsert := Upsert(Point(k.project, doc.docId), doc.chunks);
    [Begin(t)]
    + (if k in s.docs then [SendDelete(t, k), Apply(Delete(k.project, s.docs[k].docId))] else [])
    + [Write(t, k, doc), SendUpsert(t, k), Apply(upsert), Commit(t)]
  }

  lemma {:induction false} RunAppend(s: State, a: seq<Action>, b: seq<Action>)
    requires Run(s, a).Some?
    ensures Run(s, a + b) == Run(Run(s, a).value, b)
    decreases |a|
  {
    if a == [] {
      assert a + b == b;
    } else {
      assert (a + b)[1..] == a[1..] + b;
      RunAppend(Next(s, a[0]), a[1..], b);
    }
  }

  lemma RunTwo(s: State, a: Action, b: Action)
    requires Enabled(s, a) && Enabled(Next(s, a), b)
    ensures Run(s, [a, b]) == Some(Next(Next(s, a), b))
  {
    hide Enabled, Next;
    assert [a, b][1..] == [b] && [b][1..] == [];
    assert Run(Next(Next(s, a), b), []) == Some(Next(Next(s, a), b));
    assert Run(Next(s, a), [b]) == Some(Next(Next(s, a), b));
  }

  lemma RunOne(s: State, a: Action)
    requires Enabled(s, a)
    ensures Run(s, [a]) == Some(Next(s, a))
  {
    hide Enabled, Next;
    assert [a][1..] == [];
    assert Run(Next(s, a), []) == Some(Next(s, a));
  }

  // The points of the replaced version are gone.
  function Cleared(s: State, k: Key): map<nat, Point> {
    if k in s.docs then ApplyCall(s.points, Delete(k.project, s.docs[k].docId)) else s.points
  }

  lemma RemovalRuns(s: State, t: nat, k: Key)
    requires t in s.txs && k in s.docs
    ensures var d := Delete(k.project, s.docs[k].docId);
            Run(s, [SendDelete(t, k), Apply(d)]) == Some(s.(points := ApplyCall(s.points, d)))
  {
    hide ApplyCall;
    var d := Delete(k.project, s.docs[k].docId);
    RunTwo(s, SendDelete(t, k), Apply(d));
    assert s.calls + multiset{d} - multiset{d} == s.calls;
  }

  lemma WriteAndSend(s: State, t: nat, k: Key, doc: Doc)
    requires t in s.txs && s.txs[t] == map[] && Enabled(s, Write(t, k, doc))
    ensures var v := Next(Next(s, Write(t, k, doc)), SendUpsert(t, k));
            && Run(s, [Write(t, k, doc), SendUpsert(t, k)]) == Some(v)
            && t in v.txs && v.txs[t] == map[k := doc] && v.docs == s.docs && v.points == s.points
            && v.calls == s.calls + multiset{Upsert(Point(k.project, doc.docId), doc.chunks)}
  {
    RunTwo(s, Write(t, k, doc), SendUpsert(t, k));
  }

  lemma ApplyAndCommit(s: State, t: nat, call: Call)
    requires t in s.txs && call in s.calls
    ensures var r := Run(s, [Apply(call), Commit(t)]);
            r.Some? && r.value.docs == s.docs + s.txs[t] && r.value.points == ApplyCall(s.points, call)
  {
    hide ApplyCall;
    RunTwo(s, Apply(call), Commit(t));
  }

  lemma WritingRuns(s: State, t: nat, k: Key, doc: Doc)
    requires t in s.txs && s.txs[t] == map[] && Enabled(s, Write(t, k, doc))
    ensures var upsert := Upsert(Point(k.project, doc.docId), doc.chunks);
            var r := Run(s, [Write(t, k, doc), SendUpsert(t, k), Apply(upsert), Commit(t)]);
            r.Some? && r.value.docs == s.docs[k := doc] && r.value.points == ApplyCall(s.points, upsert)
  {
    hide ApplyCall, Next, Run, Enabled;
    var upsert := Upsert(Point(k.project, doc.docId), doc.chunks);
    WriteAndSend(s, t, k, doc);
    var v := Run(s, [Write(t, k, doc), SendUpsert(t, k)]).value;
    ApplyAndCommit(v, t, upsert);
    RunAppend(s, [Write(t, k, doc), SendUpsert(t, k)], [Apply(upsert), Commit(t)]);
    assert [Write(t, k, doc), SendUpsert(t, k)] + [Apply(upsert), Commit(t)]
        == [Write(t, k, doc), SendUpsert(t, k), Apply(upsert), Commit(t)];
    assert s.docs + map[k := doc] == s.docs[k := doc];
  }

  lemma IndexStepsRun(s: State, t: nat, k: Key, doc: Doc)
    requires t !in s.txs && k !in s.rowLocks && doc.chunks !! s.usedChunks
    requires k in s.docs ==> doc.docId == s.docs[k].docId
    ensures var r := Run(s, IndexSteps(s, t, k, doc));
            && r.Some? && r.value.docs == s.docs[k := doc]
            && r.value.points == ApplyCall(Cleared(s, k), Upsert(Point(k.project, doc.docId), doc.chunks))
  {
    hide ApplyCall;
    var upsert := Upsert(Point(k.project, doc.docId), doc.chunks);
    var write := [Write(t, k, doc), SendUpsert(t, k), Apply(upsert), Commit(t)];
    var u := Next(s, Begin(t));
    RunOne(s, Begin(t));
    if k in s.docs {
      var remove := [SendDelete(t, k), Apply(Delete(k.project, s.docs[k].docId))];
      RemovalRuns(u, t, k);
      WritingRuns(u.(points := Cleared(s, k)), t, k, doc);
      RunAppend(u, remove, write);
      RunAppend(s, [Begin(t)], remove + write);
      assert [Begin(t)] + (remove + write) == IndexSteps(s, t, k, doc);
    } else {
      WritingRuns(u, t, k, doc);
      RunAppend(s, [Begin(t)], write);
      assert [Begin(t)] + [] + write == IndexSteps(s, t, k, doc);
    }
  }

  /** From every reachable state, indexing a document without disturbance ends with all its new chunks
      live under its own payload, none of the chunks it replaced, and every point of another document
      as it was; and a search over all points then returns every new chunk. */
  lemma UndisturbedIndexingPublishes(s: State, t: nat, k: Key, doc: Doc, hits: seq<Hit>)
    requires Inv(s) && t !in s.txs && k !in s.rowLocks
    requires doc.chunks !! s.usedChunks && (k in s.docs ==> doc.docId == s.docs[k].docId)
    ensures var r := Run(s, IndexSteps(s, t, k, doc));
            && r.Some? && r.value.docs == s.docs[k := doc]
            && (forall c | c in doc.chunks :: c in r.value.points && r.value.points[c] == Point(k.project, doc.docId))
            && (k in s.docs ==> s.docs[k].chunks !! r.value.points.Keys)
            && (forall c | c in s.points && s.points[c] != Point(k.project, doc.docId) ::
                  c in r.value.points && r.value.points[c] == s.points[c])
            && ((forall c | c in r.value.points :: exists h | h in hits :: h.chunk == c) ==>
                  forall c | c in doc.chunks ::
                    exists h | h in VectorSearch(r.value.docs, k.project, hits) :: h.chunk == c)
  {
    hide Run, IndexSteps, VectorSearch;
    IndexStepsRun(s, t, k, doc);
    var r := Run(s, IndexSteps(s, t, k, doc)).value;
    assert s.points.Keys <= s.usedChunks;
    if k in s.docs {
      assert Has(s, Committed, k);
      assert VersionOk(s, k, s.docs[k]);
    }
    if forall c | c in r.points :: exists h | h in hits :: h.chunk == c {
      forall c | c in doc.chunks
        ensures exists h | h in VectorSearch(r.docs, k.project, hits) :: h.chunk == c
      {
        assert c in r.points;
        var h :| h in hits && h.chunk == c;
        assert k in r.docs && c in r.docs[k].chunks;
      }
    }
  }

  // ---- searching ----

  datatype Hit = Hit(chunk: nat, score: real)

  // SELECT ... WHERE project_id = project
  predicate InProject(docs: map<Key, Doc>, project: nat, chunk: nat) {
    exists k | k in docs :: k.project == project && chunk in docs[k].chunks
  }

  // vector_search: the hits that are chunks of the project, in hit order.
  function VectorSearch(docs: map<Key, Doc>, project: nat, hits: seq<Hit>): (rows: seq<Hit>)
    ensures |rows| <= |hits|
    ensures forall r | r in rows ::
              r in hits && exists k | k in docs :: k.project == project && r.chunk in docs[k].chunks
    ensures forall h, k | h in hits && k in docs && k.project == project && h.chunk in docs[k].chunks :: h in rows
  {
    if hits == [] then []
    else
      var k := |hits| - 1;
      var before := VectorSearch(docs, project, hits[..k]);
      if InProject(docs, project, hits[k].chunk) then before + [hits[k]] else before
  }

  // The positions of the hits that are chunks of the project, in order.
  function Positions(docs: map<Key, Doc>, project: nat, hits: seq<Hit>): (at: seq<nat>)
    ensures forall i | 0 <= i < |at| :: at[i] < |hits|
    ensures forall i, j | 0 <= i < j < |at| :: at[i] < at[j]
  {
    if hits == [] then []
    else
      var k := |hits| - 1;
      var before := Positions(docs, project, hits[..k]);
      if InProject(docs, project, hits[k].chunk) then before + [k] else before
  }

  predicate Kept(docs: map<Key, Doc>, project: nat, hits: seq<Hit>, x: nat) {
    x < |hits| && InProject(docs, project, hits[x].chunk)
  }

  /** Exactly the hits whose chunk is in the project are kept. */
  lemma {:induction false} PositionsAreTheKeptOnes(docs: map<Key, Doc>, project: nat, hits: seq<Hit>, x: nat)
    ensures x in Positions(docs, project, hits) <==> Kept(docs, project, hits, x)
  {
    if hits != [] {
      PositionsAreTheKeptOnes(docs, project, hits[..|hits| - 1], x);
    }
  }

  // Row i is the hit at the i-th position.
  predicate Matches(hits: seq<Hit>, at: seq<nat>, rows: seq<Hit>) {
    |rows| == |at| && forall i | 0 <= i < |at| :: at[i] < |hits| && rows[i] == hits[at[i]]
  }

  lemma MatchesLonger(hits: seq<Hit>, k: nat, at: seq<nat>, rows: seq<Hit>)
    requires k < |hits| && Matches(hits[..k], at, rows)
    ensures Matches(hits, at, rows) && Matches(hits, at + [k], rows + [hits[k]])
  {
    forall i | 0 <= i < |at|
      ensures at[i] < k && rows[i] == hits[at[i]]
    {
      assert hits[..k][at[i]] == hits[at[i]];
    }
  }

  /** The rows keep the order of the hits: they are the hits at the increasing positions that hold
      a chunk of the project. */
  lemma {:induction false} SearchKeepsHitOrder(docs: map<Key, Doc>, project: nat, hits: seq<Hit>)
    ensures Matches(hits, Positions(docs, project, hits), VectorSearch(docs, project, hits))
  {
    hide InProject, Matches;
    if hits == [] {
      NoMatches(hits);
    } else {
      var k := |hits| - 1;
      SearchKeepsHitOrder(docs, project, hits[..k]);
      MatchesLonger(hits, k, Positions(docs, project, hits[..k]), VectorSearch(docs, project, hits[..k]));
    }
  }

  lemma NoMatches(hits: seq<Hit>)
    ensures Matches(hits, [], [])
  {
  }

  /** A search over all points shows each document of the project whole or not at all, in every
      reachable state, whatever orphan points the vector store holds. */
  lemma SearchNeverShowsPartOfADocument(acts: seq<Action>, k: Key, hits: seq<Hit>)
    requires Run(EMPTY, acts).Some? && k in Run(EMPTY, acts).value.docs
    requires forall c :: c in Run(EMPTY, acts).value.points <==> exists h :: h in hits && h.chunk == c
    ensures var s := Run(EMPTY, acts).value;
            var rows := VectorSearch(s.docs, k.project, hits);
            (forall c | c in s.docs[k].chunks :: exists r :: r in rows && r.chunk == c)
            || (forall c | c in s.docs[k].chunks :: !exists r :: r in rows && r.chunk == c)
  {
    var s := Run(EMPTY, acts).value;
    var rows := VectorSearch(s.docs, k.project, hits);
    LiveVectorsAreAllOrNone(acts, k);
    var chunks := s.docs[k].chunks;
    if chunks * s.points.Keys == chunks {
      forall c | c in chunks
        ensures exists r :: r in rows && r.chunk == c
      {
        assert c in chunks * s.points.Keys;
        var h :| h in hits && h.chunk == c;
        assert InProject(s.docs, k.project, c);
        assert h in rows;
      }
    } else {
      forall c | c in chunks
        ensures !exists r :: r in rows && r.chunk == c
      {
        assert c !in chunks * s.points.Keys;
      }
    }
  }
}
