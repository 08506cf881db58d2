/** The upload loop of incidentops/collector/service.py with the counters of
    incidentops/collector/models.py. Discovery, skip rules and normalization are an input per file;
    the size of a serialized batch and Core's response to each upload are parameters. */
module CollectorBatching {
  import opened Prelude

  datatype Document = Document(path: string, sizeBytes: nat, redactions: nat)

  // A discovered file: why it is skipped, if it is; otherwise its document, or why there is none.
  datatype File = File(skipReason: Option<string>, document: Option<Document>, normalizeReason: Option<string>)

  datatype Response = Response(created: int, updated: int, same: int, chunks: int)

  datatype Summary = Summary(
    filesSeen: nat, filesSkipped: nat, normalized: nat, redactions: nat,
    synced: int, created: int, updated: int, same: int, chunks: int, bytesUploaded: nat,
    reasons: map<string, int>)

  const NO_FILES := Summary(0, 0, 0, 0, 0, 0, 0, 0, 0, 0, map[])

  // `batchSize` is the smaller of the caller's and Core's, `maxBytes` Core's or the configured one.
  // `response(k)` is Core's answer to upload k; None is an upload that raises.
  datatype Limits = Limits(batchSize: int, maxBytes: int, size: seq<Document> -> int, response: nat -> Option<Response>)

  // `uploads` are the batches sent so far, the failed one included.
  datatype State = State(uploads: seq<seq<Document>>, batch: seq<Document>, summary: Summary, failed: bool)

  const START := State([], [], NO_FILES, false)

  function Count(reasons: map<string, int>, reason: string): int {
    if reason in reasons then reasons[reason] else 0
  }

  // CollectorSummary.skip
  function Skipped(s: Summary, reason: string): Summary {
    s.(filesSkipped := s.filesSkipped + 1, reasons := s.reasons[reason := Count(s.reasons, reason) + 1])
  }

  function Bytes(batch: seq<Document>): nat {
    if batch == [] then 0 else Bytes(batch[..|batch| - 1]) + batch[|batch| - 1].sizeBytes
  }

  function Recorded(s: Summary, r: Response, batch: seq<Document>): Summary {
    s.(created := s.created + r.created, updated := s.updated + r.updated, same := s.same + r.same,
       synced := s.synced + (r.created + r.updated + r.same),
       reasons := if r.same != 0 then s.reasons["unchanged" := Count(s.reasons, "unchanged") + r.same] else s.reasons,
       chunks := s.chunks + r.chunks, bytesUploaded := s.bytesUploaded + Bytes(batch))
  }

  // _upload_batch, and the emptied batch if it returns.
  function Upload(s: State, l: Limits): State {
    var r := l.response(|s.uploads|);
    if r.None? then s.(uploads := s.uploads + [s.batch], failed := true)
    else s.(uploads := s.uploads + [s.batch], batch := [], summary := Recorded(s.summary, r.value, s.batch))
  }

  function Reason(f: File): Option<string> {
    if f.skipReason.Some? then f.skipReason
    else if f.document.None? then Some(if f.normalizeReason.Some? then f.normalizeReason.value else "malformed_content")
    else None
  }

  function Counted(s: Summary, f: File): Summary {
    var seen := s.(filesSeen := s.filesSeen + 1);
    var reason := Reason(f);
    if reason.Some? then Skipped(seen, reason.value)
    else if f.document.Some? then seen.(normalized := seen.normalized + 1,
        redactions := seen.redactions + f.document.value.redactions)
    else seen
  }

  // Making room before a document, and the upload of a full batch after it.
  function Flushed(s: State, l: Limits, d: Document): State {
    if l.size(s.batch + [d]) > l.maxBytes && s.batch != [] then Upload(s, l) else s
  }

  function Appended(s: State, l: Limits, d: Document): State {
    var t := s.(batch := s.batch + [d]);
    if |t.batch| >= l.batchSize then Upload(t, l) else t
  }

  function Step(s: State, l: Limits, f: File): State {
    if s.failed then s
    else
      var t := s.(summary := Counted(s.summary, f));
      if Reason(f).Some? || f.document.None? then t
      else
        var u := Flushed(t, l, f.document.value);
        if u.failed then u else Appended(u, l, f.document.value)
  }

  // The state after the first k files; an upload that raises ends the loop.
  function After(files: seq<File>, l: Limits, k: nat): State
    requires k <= |files|
  {
    if k == 0 then START else Step(After(files, l, k - 1), l, files[k - 1])
  }

  function Final(files: seq<File>, l: Limits): State {
    var s := After(files, l, |files|);
    if !s.failed && s.batch != [] then Upload(s, l) else s
  }

  method SumBytes(batch: seq<Document>) returns (total: nat)
    ensures total == Bytes(batch)
  {
    total := 0;
    var i := 0;
    while i < |batch|
      invariant 0 <= i <= |batch| && total == Bytes(batch[..i])
    {
      assert batch[..i + 1][..i] == batch[..i];
      total := total + batch[i].sizeBytes;
      i := i + 1;
    }
    assert batch[..|batch|] == batch;
  }

  class CollectorSync {
    var uploads: seq<seq<Document>>
    var batch: seq<Document>
    var summary: Summary
    var failed: bool

    function Snapshot(): State
      reads this
    {
      State(uploads, batch, summary, failed)
    }

    constructor ()
      ensures Snapshot() == START
    {
      uploads, batch, summary, failed := [], [], NO_FILES, false;
    }

    method Skip(reason: string)
      modifies this
      ensures Snapshot() == old(Snapshot()).(summary := Skipped(old(summary), reason))
    {
      summary := summary.(filesSkipped := summary.filesSkipped + 1);
      summary := summary.(reasons := summary.reasons[reason := Count(summary.reasons, reason) + 1]);
    }

    method UploadBatch(l: Limits)
      modifies this
      ensures Snapshot() == Upload(old(Snapshot()), l)
    {
      hide Bytes;
      var r := l.response(|uploads|);
      uploads := uploads + [batch];
      if r.None? {
        failed := true;
        return;
      }
      var v := r.value;
      summary := summary.(created := summary.created + v.created, updated := summary.updated + v.updated,
                          same := summary.same + v.same);
      summary := summary.(synced := summary.synced + (v.created + v.updated + v.same));
      if v.same != 0 {
        summary := summary.(reasons := summary.reasons["unchanged" := Count(summary.reasons, "unchanged") + v.same]);
      }
      summary := summary.(chunks := summary.chunks + v.chunks);
      var total := SumBytes(batch);
      summary := summary.(bytesUploaded := summary.bytesUploaded + total);
      batch := [];
    }

    // The body of the loop for a file that is not skipped.
    method AddDocument(l: Limits, d: Document)
      requires !failed
      modifies this
      ensures var flushed := Flushed(old(Snapshot()), l, d);
              Snapshot() == if flushed.failed then flushed else Appended(flushed, l, d)
    {
      hide Upload;
      if l.size(batch + [d]) > l.maxBytes && batch != [] {
        UploadBatch(l);
      }
      if !failed {
        batch := batch + [d];
        if |batch| >= l.batchSize {
          UploadBatch(l);
        }
      }
    }

    /** The loop of sync: it uploads what Final says, and reports failure exactly if an upload
        raised. */
    method Sync(files: seq<File>, l: Limits) returns (ok: bool)
      requires Snapshot() == START
      modifies this
      ensures Snapshot() == Final(files, l) && ok == !failed
    {
      hide Upload, Flushed, Appended;
      var i := 0;
      while i < |files|
        invariant 0 <= i <= |files| && Snapshot() == After(files, l, i) && !failed
      {
        var f := files[i];
        summary := summary.(filesSeen := summary.filesSeen + 1);
        if f.skipReason.Some? {
          Skip(f.skipReason.value);
        } else if f.document.None? {
          Skip(if f.normalizeReason.Some? then f.normalizeReason.value else "malformed_content");
        } else {
          var d := f.document.value;
          summary := summary.(normalized := summary.normalized + 1, redactions := summary.redactions + d.redactions);
          AddDocument(l, d);
        }
        if failed {
          FailedStaysFailed(files, l, i + 1, |files|);
          return false;
        }
        i := i + 1;
      }
      if batch != [] {
        UploadBatch(l);
      }
      ok := !failed;
    }
  }

  lemma {:induction false} FailedStaysFailed(files: seq<File>, l: Limits, k: nat, n: nat)
    requires k <= n <= |files| && After(files, l, k).failed
    ensures After(files, l, n) == After(files, l, k)
  {
    if k < n {
      FailedStaysFailed(files, l, k, n - 1);
    }
  }

  // ---- the partition ----

  // The documents of the files that are neither skipped nor impossible to normalize.
  function Documents(files: seq<File>, k: nat): seq<Document>
    requires k <= |files|
  {
    if k == 0 then []
    else
      var before, f := Documents(files, k - 1), files[k - 1];
      if f.skipReason.None? && f.document.Some? then before + [f.document.value] else before
  }

  function Concat(batches: seq<seq<Document>>): seq<Document> {
    if batches == [] then [] else Concat(batches[..|batches| - 1]) + batches[|batches| - 1]
  }

  // Not empty, not over the batch size, and of two or more documents only within the byte limit.
  predicate BatchOk(b: seq<Document>, l: Limits) {
    b != [] && |b| <= Max(1, l.batchSize) && (|b| >= 2 ==> l.size(b) <= l.maxBytes)
  }

  predicate AllOk(batches: seq<seq<Document>>, l: Limits) {
    forall i | 0 <= i < |batches| :: BatchOk(batches[i], l)
  }

  // What is sent and held, up to `upTo`, is all documents in order; what is sent stays in bounds.
  predicate Partitions(s: State, l: Limits, documents: seq<Document>) {
    && AllOk(s.uploads, l)
    && (if s.failed then Concat(s.uploads) <= documents
        else Concat(s.uploads) + s.batch == documents
             && (s.batch == [] || (BatchOk(s.batch, l) && |s.batch| < l.batchSize)))
  }

  lemma UploadPartitions(s: State, l: Limits, documents: seq<Document>)
    requires AllOk(s.uploads, l) && BatchOk(s.batch, l) && !s.failed && Concat(s.uploads) + s.batch == documents
    ensures Partitions(Upload(s, l), l, documents)
  {
    hide BatchOk, Recorded;
    assert (s.uploads + [s.batch])[..|s.uploads|] == s.uploads;
    assert Concat(s.uploads + [s.batch]) == documents;
  }

  lemma AppendPartitions(s: State, l: Limits, documents: seq<Document>, d: Document)
    requires Partitions(s, l, documents) && !s.failed && (s.batch == [] || l.size(s.batch + [d]) <= l.maxBytes)
    ensures Partitions(Appended(s, l, d), l, documents + [d])
  {
    hide Upload;
    var t := s.(batch := s.batch + [d]);
    assert Concat(t.uploads) + t.batch == documents + [d];
    if |t.batch| >= l.batchSize {
      UploadPartitions(t, l, documents + [d]);
    }
  }

  lemma StepPartitions(s: State, l: Limits, documents: seq<Document>, f: File)
    requires Partitions(s, l, documents)
    ensures var more := if f.skipReason.None? && f.document.Some? then documents + [f.document.value] else documents;
            Partitions(Step(s, l, f), l, more)
  {
    hide Upload, BatchOk, Appended, Concat;
    if !s.failed && Reason(f).None? && f.document.Some? {
      var t, d := s.(summary := Counted(s.summary, f)), f.document.value;
      if l.size(t.batch + [d]) > l.maxBytes && t.batch != [] {
        UploadPartitions(t, l, documents);
        UploadEmpties(t, l);
      }
      if !Flushed(t, l, d).failed {
        AppendPartitions(Flushed(t, l, d), l, documents, d);
      }
    }
  }

  lemma UploadEmpties(s: State, l: Limits)
    ensures Upload(s, l).failed || Upload(s, l).batch == []
  {
  }

  lemma {:induction false} LoopPartitions(files: seq<File>, l: Limits, k: nat)
    requires k <= |files|
    ensures Partitions(After(files, l, k), l, Documents(files, k))
  {
    hide *;
    if k == 0 {
      NothingToPartition(files, l);
    } else {
      LoopPartitions(files, l, k - 1);
      StepPartitions(After(files, l, k - 1), l, Documents(files, k - 1), files[k - 1]);
      LoopStep(files, l, k);
    }
  }

  lemma NothingToPartition(files: seq<File>, l: Limits)
    ensures Partitions(After(files, l, 0), l, Documents(files, 0))
  {
    hide BatchOk, Step;
    assert Concat([]) == [];
  }

  lemma LoopStep(files: seq<File>, l: Limits, k: nat)
    requires 1 <= k <= |files|
    ensures After(files, l, k) == Step(After(files, l, k - 1), l, files[k - 1])
    ensures var f, before := files[k - 1], Documents(files, k - 1);
            Documents(files, k) ==
              if f.skipReason.None? && f.document.Some? then before + [f.document.value] else before
  {
    hide Step;
  }

  /** The uploaded batches concatenate to exactly the normalized documents in order, or to a prefix
      of them when an upload raises. Each is non-empty and at most max(1, batch_size) long, and of
      two or more documents only within the byte limit. */
  lemma UploadsPartitionTheDocuments(files: seq<File>, l: Limits)
    ensures var s := Final(files, l);
            && AllOk(s.uploads, l)
            && (if s.failed then Concat(s.uploads) <= Documents(files, |files|)
                else Concat(s.uploads) == Documents(files, |files|))
  {
    hide Upload, BatchOk;
    LoopPartitions(files, l, |files|);
    var s := After(files, l, |files|);
    if !s.failed {
      if s.batch != [] {
        UploadPartitions(s, l, Documents(files, |files|));
        UploadEmpties(s, l);
      }
      var t := Final(files, l);
      assert !t.failed ==> Concat(t.uploads) + [] == Concat(t.uploads);
    }
  }

  // ---- no batch is sent early ----

  // The batch was full, or the first document of the next one would have been too much.
  predicate Tight(b: seq<Document>, next: seq<Document>, l: Limits) {
    |b| >= l.batchSize || (next != [] && l.size(b + [next[0]]) > l.maxBytes)
  }

  // All batches begun so far: those sent, and the current one if it is not empty.
  function Begun(s: State): seq<seq<Document>> {
    if s.failed || s.batch == [] then s.uploads else s.uploads + [s.batch]
  }

  predicate AllTight(batches: seq<seq<Document>>, l: Limits) {
    forall i | 0 <= i < |batches| - 1 :: Tight(batches[i], batches[i + 1], l)
  }

  predicate TightSoFar(s: State, l: Limits) {
    && AllTight(Begun(s), l)
    && (!s.failed && s.batch == [] && s.uploads != [] ==> |s.uploads[|s.uploads| - 1]| >= l.batchSize)
  }

  lemma UploadBegun(s: State, l: Limits)
    requires !s.failed && s.batch != []
    ensures Begun(Upload(s, l)) == Begun(s)
  {
  }

  lemma StepIsTight(s: State, l: Limits, f: File)
    requires TightSoFar(s, l)
    ensures TightSoFar(Step(s, l, f), l)
  {
    hide Tight, Upload, Counted;
    if !s.failed && Reason(f).None? && f.document.Some? {
      var t, d := s.(summary := Counted(s.summary, f)), f.document.value;
      assert Begun(t) == Begun(s);
      var u := Flushed(t, l, d);
      if u != t {
        UploadBegun(t, l);
        UploadSends(t, l);
      }
      if !u.failed {
        var v := u.(batch := u.batch + [d]);
        AppendIsTight(t, u, l, d);
        UploadBegun(v, l);
        UploadSends(v, l);
      }
    }
  }

  lemma UploadSends(s: State, l: Limits)
    ensures Upload(s, l).uploads == s.uploads + [s.batch]
    ensures Upload(s, l).failed || Upload(s, l).batch == []
  {
  }

  // The batch that d goes into, after room was made for it.
  lemma AppendIsTight(t: State, u: State, l: Limits, d: Document)
    requires TightSoFar(t, l) && !t.failed && u == Flushed(t, l, d) && !u.failed
    ensures AllTight(Begun(u.(batch := u.batch + [d])), l)
  {
    hide Recorded;
    var v := u.(batch := u.batch + [d]);
    forall i | 0 <= i < |Begun(v)| - 1
      ensures Tight(Begun(v)[i], Begun(v)[i + 1], l)
    {
      if i < |Begun(t)| - 1 {
        assert Tight(Begun(t)[i], Begun(t)[i + 1], l);
      }
    }
  }

  /** A batch is only sent when it is full or the next document would take it over the byte limit. */
  lemma {:induction false} NoBatchIsSentEarly(files: seq<File>, l: Limits, k: nat)
    requires k <= |files|
    ensures TightSoFar(After(files, l, k), l)
  {
    if k > 0 {
      hide Step, TightSoFar;
      NoBatchIsSentEarly(files, l, k - 1);
      StepIsTight(After(files, l, k - 1), l, files[k - 1]);
    }
  }

  // ---- the counters ----

  // Skipped for this reason, or not normalized for it; without a reason given the content is malformed.
  predicate LeftOutFor(f: File, reason: string) {
    || f.skipReason == Some(reason)
    || (f.skipReason.None? && f.document.None?
        && (f.normalizeReason == Some(reason) || (f.normalizeReason.None? && reason == "malformed_content")))
  }

  function ReasonCount(files: seq<File>, reason: string, k: nat): nat
    requires k <= |files|
  {
    if k == 0 then 0
    else ReasonCount(files, reason, k - 1) + if LeftOutFor(files[k - 1], reason) then 1 else 0
  }

  // The total of one field over the responses to the first n uploads that returned.
  function ResponseTotal(l: Limits, field: Response -> int, n: nat): int {
    if n == 0 then 0
    else ResponseTotal(l, field, n - 1) + if l.response(n - 1).Some? then field(l.response(n - 1).value) else 0
  }

  // `sent` uploads have been answered; of the files, `seen` have been counted.
  predicate CountsOk(s: State, l: Limits) {
    var m := s.summary;
    && m.filesSeen == m.filesSkipped + m.normalized
    && m.synced == m.created + m.updated + m.same
    && m.created == ResponseTotal(l, (r: Response) => r.created, |s.uploads|)
    && m.updated == ResponseTotal(l, (r: Response) => r.updated, |s.uploads|)
    && m.same == ResponseTotal(l, (r: Response) => r.same, |s.uploads|)
    && m.chunks == ResponseTotal(l, (r: Response) => r.chunks, |s.uploads|)
  }

  lemma UploadCounts(s: State, l: Limits)
    requires CountsOk(s, l)
    ensures CountsOk(Upload(s, l), l)
  {
    hide Bytes;
  }

  lemma StepCounts(s: State, l: Limits, f: File)
    requires CountsOk(s, l)
    ensures CountsOk(Step(s, l, f), l)
  {
    hide Upload, ResponseTotal;
    if !s.failed {
      var t := s.(summary := Counted(s.summary, f));
      assert CountsOk(t, l);
      if Reason(f).None? && f.document.Some? {
        var d := f.document.value;
        UploadCounts(t, l);
        var u := Flushed(t, l, d);
        UploadCounts(u.(batch := u.batch + [d]), l);
      }
    }
  }

  lemma {:induction false} LoopCounts(files: seq<File>, l: Limits, k: nat)
    requires k <= |files|
    ensures CountsOk(After(files, l, k), l)
  {
    if k > 0 {
      hide Step, CountsOk;
      LoopCounts(files, l, k - 1);
      StepCounts(After(files, l, k - 1), l, files[k - 1]);
    }
  }

  /** After every file, and after the loop, each file seen is either skipped or normalized, and the
      synced documents are those Core reports as created, updated or unchanged. */
  lemma EveryFileIsCountedOnce(files: seq<File>, l: Limits, k: nat)
    requires k <= |files|
    ensures CountsOk(After(files, l, k), l) && CountsOk(Final(files, l), l)
  {
    hide CountsOk, Upload;
    LoopCounts(files, l, k);
    LoopCounts(files, l, |files|);
    UploadCounts(After(files, l, |files|), l);
  }

  // ---- what is uploaded ----

  function Redactions(documents: seq<Document>): nat {
    if documents == [] then 0
    else Redactions(documents[..|documents| - 1]) + documents[|documents| - 1].redactions
  }

  lemma {:induction false} BytesAdd(a: seq<Document>, b: seq<Document>)
    ensures Bytes(a + b) == Bytes(a) + Bytes(b)
  {
    if b == [] {
      assert a + b == a;
    } else {
      assert (a + b)[..|a + b| - 1] == a + b[..|b| - 1];
      BytesAdd(a, b[..|b| - 1]);
    }
  }

  // The uploads that returned: all but the last one if that raised.
  function Returned(s: State): seq<seq<Document>> {
    if s.failed && s.uploads != [] then s.uploads[..|s.uploads| - 1] else s.uploads
  }

  // The loop has failed exactly if the last upload raised; the others returned.
  predicate FailureOk(s: State, l: Limits) {
    && (s.failed ==> s.uploads != [])
    && (forall i | 0 <= i < |s.uploads| :: l.response(i).None? <==> s.failed && i == |s.uploads| - 1)
    && s.summary.bytesUploaded == Bytes(Concat(Returned(s)))
  }

  lemma UploadFailure(s: State, l: Limits)
    requires FailureOk(s, l) && !s.failed
    ensures FailureOk(Upload(s, l), l)
  {
    hide Bytes;
    assert (s.uploads + [s.batch])[..|s.uploads|] == s.uploads;
    BytesAdd(Concat(s.uploads), s.batch);
  }

  lemma SameFailure(s: State, t: State, l: Limits)
    requires s.failed == t.failed && s.uploads == t.uploads && s.summary.bytesUploaded == t.summary.bytesUploaded
    ensures FailureOk(s, l) <==> FailureOk(t, l)
  {
  }

  lemma StepFailure(s: State, l: Limits, f: File)
    requires FailureOk(s, l)
    ensures FailureOk(Step(s, l, f), l)
  {
    hide Upload, FailureOk;
    if !s.failed {
      var t := s.(summary := Counted(s.summary, f));
      SameFailure(s, t, l);
      if Reason(f).None? && f.document.Some? {
        UploadFailure(t, l);
        var u := Flushed(t, l, f.document.value);
        if !u.failed {
          var v := u.(batch := u.batch + [f.document.value]);
          SameFailure(u, v, l);
          UploadFailure(v, l);
        }
      }
    }
  }

  lemma {:induction false} LoopFailure(files: seq<File>, l: Limits, k: nat)
    requires k <= |files|
    ensures FailureOk(After(files, l, k), l)
  {
    if k == 0 {
      assert Returned(START) == [];
    } else {
      hide Step, FailureOk;
      LoopFailure(files, l, k - 1);
      StepFailure(After(files, l, k - 1), l, files[k - 1]);
    }
  }

  /** The sync fails if and only if an upload raises, which is then the last one; the bytes reported
      as uploaded are those of the documents in the uploads that returned. */
  lemma SyncFailsIff(files: seq<File>, l: Limits)
    ensures var s := Final(files, l);
            && (s.failed <==> exists i :: 0 <= i < |s.uploads| && l.response(i).None?)
            && (forall i | 0 <= i < |s.uploads| - 1 :: l.response(i).Some?)
            && s.summary.bytesUploaded
                == Bytes(Concat(if s.failed then s.uploads[..|s.uploads| - 1] else s.uploads))
  {
    hide Upload;
    LoopFailure(files, l, |files|);
    var s := After(files, l, |files|);
    if !s.failed && s.batch != [] {
      UploadFailure(s, l);
    }
    var t := Final(files, l);
    if t.failed {
      assert l.response(|t.uploads| - 1).None?;
    }
  }

  // The counters of the files so far.
  predicate TallyOk(m: Summary, files: seq<File>, k: nat)
    requires k <= |files|
  {
    && m.filesSeen == k && m.normalized == |Documents(files, k)| && m.filesSkipped == k - |Documents(files, k)|
    && m.redactions == Redactions(Documents(files, k))
  }

  lemma CountedTally(m: Summary, files: seq<File>, k: nat)
    requires 1 <= k <= |files| && TallyOk(m, files, k - 1)
    ensures TallyOk(Counted(m, files[k - 1]), files, k)
  {
    var f := files[k - 1];
    if f.skipReason.None? && f.document.Some? {
      var before := Documents(files, k - 1);
      assert Documents(files, k) == before + [f.document.value];
      assert (before + [f.document.value])[..|before|] == before;
    }
  }

  lemma StepTally(s: State, l: Limits, f: File)
    requires !s.failed
    ensures var m, n := Counted(s.summary, f), Step(s, l, f).summary;
            && n.filesSeen == m.filesSeen && n.normalized == m.normalized
            && n.filesSkipped == m.filesSkipped && n.redactions == m.redactions
  {
    hide Counted, Bytes;
  }

  /** As long as no upload raises: every file is seen; the normalized ones are the documents, the
      others are skipped; and the redactions are those of the documents. */
  lemma {:induction false} FilesAreTallied(files: seq<File>, l: Limits, k: nat)
    requires k <= |files| && !After(files, l, k).failed
    ensures var m := After(files, l, k).summary;
            && m.filesSeen == k && m.normalized == |Documents(files, k)| && m.filesSkipped == k - m.normalized
            && m.redactions == Redactions(Documents(files, k))
  {
    if k > 0 {
      hide Step, Documents, Redactions, Counted;
      FailedStays(After(files, l, k - 1), l, files[k - 1]);
      FilesAreTallied(files, l, k - 1);
      CountedTally(After(files, l, k - 1).summary, files, k);
      StepTally(After(files, l, k - 1), l, files[k - 1]);
    }
  }

  // Each reason is counted once per skipped file, and "unchanged" also per unchanged document.
  predicate ReasonsOk(s: State, files: seq<File>, k: nat, reason: string)
    requires k <= |files|
  {
    Count(s.summary.reasons, reason)
    == ReasonCount(files, reason, k) + if reason == "unchanged" then s.summary.same else 0
  }

  lemma UploadReasons(s: State, l: Limits, files: seq<File>, k: nat, reason: string)
    requires k <= |files| && ReasonsOk(s, files, k, reason)
    ensures ReasonsOk(Upload(s, l), files, k, reason)
  {
    hide Bytes, ReasonCount;
  }

  lemma UploadSees(s: State, l: Limits)
    ensures Upload(s, l).summary.filesSeen == s.summary.filesSeen
  {
  }

  lemma CountedReasons(s: State, files: seq<File>, k: nat, reason: string)
    requires 1 <= k <= |files| && ReasonsOk(s, files, k - 1, reason)
    ensures ReasonsOk(s.(summary := Counted(s.summary, files[k - 1])), files, k, reason)
  {
  }

  lemma StepReasons(s: State, l: Limits, files: seq<File>, k: nat, reason: string)
    requires 1 <= k <= |files| && ReasonsOk(s, files, k - 1, reason) && !s.failed
    ensures ReasonsOk(Step(s, l, files[k - 1]), files, k, reason)
    ensures Step(s, l, files[k - 1]).summary.filesSeen == s.summary.filesSeen + 1
  {
    hide Upload, ReasonsOk, Reason;
    var f := files[k - 1];
    var t := s.(summary := Counted(s.summary, f));
    CountedReasons(s, files, k, reason);
    if Reason(f).None? && f.document.Some? {
      var d := f.document.value;
      UploadReasons(t, l, files, k, reason);
      UploadSees(t, l);
      var u := Flushed(t, l, d);
      var v := u.(batch := u.batch + [d]);
      assert ReasonsOk(u, files, k, reason) ==> ReasonsOk(v, files, k, reason) by {
        SameReasons(u, v, files, k, reason);
      }
      UploadReasons(v, l, files, k, reason);
      UploadSees(v, l);
    }
  }

  lemma SameReasons(s: State, t: State, files: seq<File>, k: nat, reason: string)
    requires k <= |files| && s.summary == t.summary
    ensures ReasonsOk(s, files, k, reason) <==> ReasonsOk(t, files, k, reason)
  {
  }

  /** As long as no upload raises, the count under each reason is the number of files skipped for
      it; "unchanged" also counts the documents Core found unchanged. */
  lemma {:induction false} ReasonsAreCounted(files: seq<File>, l: Limits, k: nat, reason: string)
    requires k <= |files| && !After(files, l, k).failed
    ensures After(files, l, k).summary.filesSeen == k && ReasonsOk(After(files, l, k), files, k, reason)
  {
    if k > 0 {
      hide Step, ReasonsOk;
      FailedStays(After(files, l, k - 1), l, files[k - 1]);
      ReasonsAreCounted(files, l, k - 1, reason);
      StepReasons(After(files, l, k - 1), l, files, k, reason);
    } else {
      assert ReasonsOk(START, files, 0, reason);
    }
  }

  lemma FailedStays(s: State, l: Limits, f: File)
    ensures s.failed ==> Step(s, l, f) == s
  {
  }
}
