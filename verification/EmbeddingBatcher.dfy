/** AsyncEmbeddingBatcher of incidentops/retrieval/embeddings.py under every interleaving of its
    callers, its window task and the embedding provider.

    The event loop runs one coroutine at a time. The critical sections under the lock contain no
    await, so each of them is one step; everything between two of them may interleave. */
module EmbeddingBatcher {
  import opened Prelude

  type Vector = seq<real>

  // _EmbeddingBatchRequest; `future` is the number of the future it holds.
  datatype Request = Request(texts: seq<string>, future: nat, model: string, inputType: string)

  datatype Future = Waiting | Resolved(vectors: seq<Vector>) | Failed | Cancelled

  // The task in _flush_task: not created, before its swap, in the provider call, or done.
  datatype Window = NoTask | Sleeping | Flushing | Done

  // The batcher's fields and the futures it has created.
  datatype Core = Core(futures: seq<Future>, pending: seq<Request>, pendingTexts: nat, window: Window)

  const EMPTY := Core([], [], 0, NoTask)

  // ---- the steps ----

  predicate FlushNow(c: Core, maxTexts: nat, texts: seq<string>) {
    c.pendingTexts + |texts| >= maxTexts
  }

  function NewRequest(c: Core, texts: seq<string>, model: string, inputType: string): Request {
    Request(texts, |c.futures|, model, inputType)
  }

  // The critical section of embed.
  function Appended(c: Core, maxTexts: nat, r: Request): Core {
    Core(c.futures + [Waiting], c.pending + [r], c.pendingTexts + |r.texts|,
         if !FlushNow(c, maxTexts, r.texts) && (c.window.NoTask? || c.window.Done?) then Sleeping else c.window)
  }

  // The critical section of _flush, run by a caller or by the window task.
  function Swapped(c: Core, byWindow: bool): Core {
    c.(pending := [], pendingTexts := 0,
       window := if !byWindow then c.window else if c.pending == [] then Done else Flushing)
  }

  predicate Mixed(requests: seq<Request>) {
    exists r | r in requests :: r.model != requests[0].model || r.inputType != requests[0].inputType
  }

  predicate Owned(futures: seq<Future>, requests: seq<Request>) {
    forall r | r in requests :: r.future < |futures|
  }

  // The number of texts in the first k requests.
  function Offset(requests: seq<Request>, k: nat): nat
    requires k <= |requests|
  {
    if k == 0 then 0 else Offset(requests, k - 1) + |requests[k - 1].texts|
  }

  // The texts of the first k requests, one request after the other.
  function AllTexts(requests: seq<Request>, k: nat): (texts: seq<string>)
    requires k <= |requests|
    ensures |texts| == Offset(requests, k)
  {
    if k == 0 then [] else AllTexts(requests, k - 1) + requests[k - 1].texts
  }

  // vectors[a:b], which stops at the end of the list.
  function Slice(vectors: seq<Vector>, a: nat, b: nat): seq<Vector>
    requires a <= b
  {
    vectors[Min(a, |vectors|)..Min(b, |vectors|)]
  }

  lemma {:induction false} OffsetGrows(requests: seq<Request>, i: nat, k: nat)
    requires i <= k <= |requests|
    ensures Offset(requests, i) <= Offset(requests, k)
  {
    if i < k {
      OffsetGrows(requests, i, k - 1);
    }
  }

  // What the provider answered for request i.
  function Share(requests: seq<Request>, vectors: seq<Vector>, i: nat): seq<Vector>
    requires i < |requests|
  {
    Slice(vectors, Offset(requests, i), Offset(requests, i) + |requests[i].texts|)
  }

  // The futures after the first k requests of a batch have been given their shares, or the error.
  function Settled(futures: seq<Future>, requests: seq<Request>, answer: Option<seq<Vector>>,
          k: nat): (after: seq<Future>)
    requires k <= |requests| && Owned(futures, requests)
    ensures |after| == |futures|
  {
    if k == 0 then futures
    else
      var before := Settled(futures, requests, answer, k - 1);
      var f := requests[k - 1].future;
      if !before[f].Waiting? then before
      else before[f := if answer.Some? then Resolved(Share(requests, answer.value, k - 1)) else Failed]
  }

  class AsyncEmbeddingBatcher {
    const maxTexts: nat
    var futures: seq<Future>
    var pending: seq<Request>
    var pendingTexts: nat
    var window: Window

    function Snapshot(): Core
      reads this
    {
      Core(futures, pending, pendingTexts, window)
    }

    constructor (limit: int)
      ensures Snapshot() == EMPTY && maxTexts == Max(1, limit)
    {
      maxTexts := Max(1, limit);
      futures, pending, pendingTexts, window := [], [], 0, NoTask;
    }

    /** embed, up to the release of the lock. */
    method Append(texts: seq<string>, model: string, inputType: string) returns (future: nat, flushNow: bool)
      modifies this
      ensures Snapshot() == Appended(old(Snapshot()), maxTexts, NewRequest(old(Snapshot()), texts, model, inputType))
      ensures future == |old(futures)| && flushNow == FlushNow(old(Snapshot()), maxTexts, texts)
    {
      future, flushNow := |futures|, false;
      futures := futures + [Waiting];
      pending := pending + [Request(texts, future, model, inputType)];
      pendingTexts := pendingTexts + |texts|;
      if pendingTexts >= maxTexts {
        flushNow := true;
      } else if window.NoTask? || window.Done? {
        window := Sleeping;
      }
    }

    /** The critical section of _flush. */
    method Swap(byWindow: bool) returns (requests: seq<Request>)
      modifies this
      ensures Snapshot() == Swapped(old(Snapshot()), byWindow) && requests == old(pending)
    {
      requests := pending;
      pending, pendingTexts := [], 0;
      if byWindow {
        window := if requests == [] then Done else Flushing;
      }
    }

    /** _flush between its critical section and the futures: the batch is refused if two of its requests
        differ in model or input type; otherwise the provider is asked for all texts in order, and
        None is a call that raises. */
    static method AskProvider(requests: seq<Request>, provider: (seq<string>, string, string) -> Option<seq<Vector>>)
      returns (answer: Option<seq<Vector>>)
      requires requests != []
      ensures answer ==
                if forall i, j | 0 <= i < j < |requests| ::
                     requests[i].model == requests[j].model && requests[i].inputType == requests[j].inputType
                then provider(AllTexts(requests, |requests|), requests[0].model, requests[0].inputType)
                else None
    {
      var texts, mixed, first, i := [], false, requests[0], 0;
      while i < |requests|
        invariant 0 <= i <= |requests| && texts == AllTexts(requests, i)
        invariant mixed <==> exists k ::
                    0 <= k < i && (requests[k].model != first.model || requests[k].inputType != first.inputType)
      {
        texts := texts + requests[i].texts;
        if requests[i].model != first.model || requests[i].inputType != first.inputType {
          mixed := true;
        }
        i := i + 1;
      }
      if mixed {
        answer := None;
      } else {
        answer := provider(texts, first.model, first.inputType);
      }
    }

    /** _flush after the provider call: the running offset hands every request its own share, and
        futures that are already done are left alone. */
    method Settle(requests: seq<Request>, answer: Option<seq<Vector>>, byWindow: bool)
      requires Owned(futures, requests)
      modifies this
      ensures Snapshot() == old(Snapshot()).(futures := Settled(old(futures), requests, answer, |requests|),
                                             window := if byWindow then Done else old(window))
    {
      var offset, i := 0, 0;
      while i < |requests|
        invariant 0 <= i <= |requests| && offset == Offset(requests, i)
        invariant futures == Settled(old(futures), requests, answer, i)
        invariant pending == old(pending) && pendingTexts == old(pendingTexts) && window == old(window)
      {
        var f, count := requests[i].future, |requests[i].texts|;
        assert requests[i] in requests;
        if futures[f].Waiting? {
          futures := futures[f := if answer.Some? then Resolved(Slice(answer.value, offset, offset + count))
              else Failed];
        }
        offset := offset + count;
        i := i + 1;
      }
      if byWindow {
        window := Done;
      }
    }
  }

  // ---- runs ----

  // A swapped-out batch: `start` requests arrived before it.
  datatype Batch = Batch(start: nat, requests: seq<Request>, byWindow: bool)

  datatype Outcome = InProvider | Answered(vectors: seq<Vector>) | Errored | Abandoned

  datatype State = State(
    core: Core,
    arrivals: seq<Request>,
    batches: seq<Batch>,
    outcomes: seq<Outcome>,
    toSwap: set<nat>)        // callers told to flush that have not swapped yet, by future

  const INITIAL := State(EMPTY, [], [], [], {})

  // Cancel hits a caller waiting for its future; Abandon hits whoever awaits the provider, and
  // CancelledError is not an Exception, so no future of that batch is settled.
  datatype Action =
    | Arrive(texts: seq<string>, model: string, inputType: string)
    | CallerSwap(future: nat)
    | WindowSwap
    | Answer(batch: nat, vectors: seq<Vector>)
    | Error(batch: nat)
    | Abandon(batch: nat)
    | Cancel(future: nat)

  predicate InFlight(s: State, b: nat) {
    b < |s.batches| && b < |s.outcomes| && s.outcomes[b].InProvider? && Owned(s.core.futures, s.batches[b].requests)
  }

  predicate Enabled(s: State, a: Action) {
    match a
    case Arrive(texts, _, _) => texts != []
    case CallerSwap(f) => f in s.toSwap
    case WindowSwap => s.core.window.Sleeping?
    case Answer(b, _) => InFlight(s, b) && !Mixed(s.batches[b].requests)
    case Error(b) => InFlight(s, b)
    case Abandon(b) => InFlight(s, b)
    case Cancel(f) => f < |s.core.futures| && s.core.futures[f].Waiting?
  }

  function DoArrive(s: State, maxTexts: nat, r: Request): State {
    s.(core := Appended(s.core, maxTexts, r), arrivals := s.arrivals + [r],
       toSwap := if FlushNow(s.core, maxTexts, r.texts) then s.toSwap + {r.future} else s.toSwap)
  }

  // How many requests arrived before the pending ones.
  function Arrived(s: State): nat {
    Max(0, |s.arrivals| - |s.core.pending|)
  }

  function DoSwap(s: State, byWindow: bool): State {
    var t := s.(core := Swapped(s.core, byWindow));
    if s.core.pending == [] then t
    else t.(batches := s.batches + [Batch(Arrived(s), s.core.pending, byWindow)],
            outcomes := s.outcomes + [InProvider])
  }

  // The end of batch b, with its futures settled or left alone.
  function DoFinish(s: State, b: nat, outcome: Outcome): State
    requires InFlight(s, b)
  {
    var requests := s.batches[b].requests;
    var answer := if outcome.Answered? then Some(outcome.vectors) else None;
    s.(outcomes := s.outcomes[b := outcome],
       core := s.core.(futures := if outcome.Abandoned? then s.core.futures
           else Settled(s.core.futures, requests, answer, |requests|),
                       window := if s.batches[b].byWindow then Done else s.core.window))
  }

  function DoCancel(s: State, f: nat): State
    requires f < |s.core.futures|
  {
    s.(core := s.core.(futures := s.core.futures[f := Cancelled]))
  }

  function Next(s: State, maxTexts: nat, a: Action): State
    requires Enabled(s, a)
  {
    match a
    case Arrive(texts, model, inputType) => DoArrive(s, maxTexts, NewRequest(s.core, texts, model, inputType))
    case CallerSwap(f) => DoSwap(s.(toSwap := s.toSwap - {f}), false)
    case WindowSwap => DoSwap(s, true)
    case Answer(b, vectors) => DoFinish(s, b, Answered(vectors))
    case Error(b) => DoFinish(s, b, Errored)
    case Abandon(b) => DoFinish(s, b, Abandoned)
    case Cancel(f) => DoCancel(s, f)
  }

  function Run(s: State, maxTexts: nat, acts: seq<Action>): Option<State>
    decreases |acts|
  {
    if acts == [] then Some(s)
    else if !Enabled(s, acts[0]) then None
    else Run(Next(s, maxTexts, acts[0]), maxTexts, acts[1..])
  }

  // ---- the invariant ----

  // All requests of the batches, in order.
  function Requests(batches: seq<Batch>): seq<Request> {
    if batches == [] then [] else Requests(batches[..|batches| - 1]) + batches[|batches| - 1].requests
  }

  // Arrivals are numbered; the batches and then the pending list hold them in order.
  ghost predicate Partitioned(s: State) {
    && |s.core.futures| == |s.arrivals| && |s.core.pending| <= |s.arrivals| && |s.outcomes| == |s.batches|
    && (forall f | 0 <= f < |s.arrivals| :: s.arrivals[f].future == f)
    && Requests(s.batches) + s.core.pending == s.arrivals
  }

  predicate Placed(s: State, b: nat) {
    b < |s.batches| ==>
      var batch := s.batches[b];
      && batch.start + |batch.requests| + |s.core.pending| <= |s.arrivals|
      && batch.requests == s.arrivals[batch.start..batch.start + |batch.requests|]
  }

  ghost predicate InOrder(s: State) {
    && (forall b: nat :: Placed(s, b))
    && (forall b, c | 0 <= b < c < |s.batches| :: s.batches[b].start + |s.batches[b].requests| <= s.batches[c].start)
  }

  predicate CountOk(s: State, maxTexts: nat) {
    && s.core.pendingTexts == Offset(s.core.pending, |s.core.pending|)
    && (s.core.pendingTexts >= maxTexts >= 1 ==>
          s.core.pending != [] && s.core.pending[|s.core.pending| - 1].future in s.toSwap)
  }

  predicate InWindow(s: State, b: nat) {
    b < |s.batches| && b < |s.outcomes| && s.batches[b].byWindow && s.outcomes[b].InProvider?
  }

  // The window task is in the provider call exactly while its one batch is.
  ghost predicate WindowOk(s: State) {
    && (forall b: nat, c: nat | InWindow(s, b) && InWindow(s, c) :: b == c)
    && (s.core.window.Flushing? <==> exists b: nat :: InWindow(s, b))
  }

  // How a future stands, given the outcome of its batch.
  predicate Standing(future: Future, outcome: Outcome, share: seq<Vector>) {
    || future.Cancelled?
    || (match outcome
        case InProvider => future.Waiting?
        case Answered(_) => future == Resolved(share)
        case Errored => future.Failed?
        case Abandoned => future.Waiting?)
  }

  function ShareOf(batch: Batch, outcome: Outcome, i: nat): seq<Vector>
    requires i < |batch.requests|
  {
    if outcome.Answered? then Share(batch.requests, outcome.vectors, i) else []
  }

  predicate FutureOk(s: State, b: nat, i: nat) {
    b < |s.batches| && b < |s.outcomes| && i < |s.batches[b].requests| && s.batches[b].start + i < |s.core.futures| ==>
      Standing(s.core.futures[s.batches[b].start + i], s.outcomes[b], ShareOf(s.batches[b], s.outcomes[b], i))
  }

  ghost predicate FuturesOk(s: State) {
    && (forall b: nat, i: nat :: FutureOk(s, b, i))
    && (forall b: nat | b < |s.batches| && b < |s.outcomes| && s.outcomes[b].Answered? :: !Mixed(s.batches[b].requests))
    && (forall f: nat | Arrived(s) <= f < |s.core.futures| ::
        s.core.futures[f].Waiting? || s.core.futures[f].Cancelled?)
  }

  ghost predicate Inv(s: State, maxTexts: nat) {
    Partitioned(s) && InOrder(s) && CountOk(s, maxTexts) && WindowOk(s) && FuturesOk(s)
  }

  lemma {:induction false} SettledAt(futures: seq<Future>, requests: seq<Request>, answer: Option<seq<Vector>>,
          start: nat, k: nat, f: nat)
    requires k <= |requests| && Owned(futures, requests) && f < |futures|
    requires forall i | 0 <= i < |requests| :: requests[i].future == start + i
    ensures Settled(futures, requests, answer, k)[f] ==
              if start <= f < start + k && futures[f].Waiting? then
                (if answer.Some? then Resolved(Share(requests, answer.value, f - start)) else Failed)
              else futures[f]
  {
    if k > 0 {
      assert requests[k - 1] in requests;
      SettledAt(futures, requests, answer, start, k - 1, f);
      SettledAt(futures, requests, answer, start, k - 1, start + k - 1);
    }
  }

  lemma ArriveKeepsPlaces(s: State, maxTexts: nat, r: Request)
    requires Partitioned(s) && InOrder(s) && r.future == |s.core.futures|
    ensures Partitioned(DoArrive(s, maxTexts, r)) && InOrder(DoArrive(s, maxTexts, r))
  {
    var t := DoArrive(s, maxTexts, r);
    assert Requests(s.batches) + (s.core.pending + [r]) == (Requests(s.batches) + s.core.pending) + [r];
    forall b: nat
      ensures Placed(t, b)
    {
      assert Placed(s, b);
    }
  }

  lemma ArriveKeepsFutures(s: State, maxTexts: nat, r: Request)
    requires Partitioned(s) && InOrder(s) && FuturesOk(s)
    ensures FuturesOk(DoArrive(s, maxTexts, r))
  {
    hide Requests, Mixed, Share;
    var t := DoArrive(s, maxTexts, r);
    forall b: nat, i: nat
      ensures FutureOk(t, b, i)
    {
      assert FutureOk(s, b, i) && Placed(s, b);
    }
  }

  lemma ArriveKeepsInv(s: State, maxTexts: nat, r: Request)
    requires Inv(s, maxTexts) && r.future == |s.core.futures|
    ensures Inv(DoArrive(s, maxTexts, r), maxTexts)
  {
    hide Partitioned, InOrder, FuturesOk;
    var t := DoArrive(s, maxTexts, r);
    ArriveKeepsPlaces(s, maxTexts, r);
    ArriveKeepsFutures(s, maxTexts, r);
    OffsetOfPrefix(s.core.pending, [r], |s.core.pending|);
    assert forall b: nat :: InWindow(t, b) <==> InWindow(s, b);
  }

  lemma {:induction false} OffsetOfPrefix(a: seq<Request>, b: seq<Request>, k: nat)
    requires k <= |a|
    ensures Offset(a + b, k) == Offset(a, k)
  {
    if k > 0 {
      OffsetOfPrefix(a, b, k - 1);
    }
  }

  lemma SwapKeepsPartition(s: State, byWindow: bool)
    requires Partitioned(s)
    ensures Partitioned(DoSwap(s, byWindow)) && DoSwap(s, byWindow).core.pending == []
  {
    var t := DoSwap(s, byWindow);
    if s.core.pending != [] {
      assert t.batches[..|t.batches| - 1] == s.batches;
      assert Requests(t.batches) + [] == Requests(s.batches) + s.core.pending;
    }
  }

  lemma SwapKeepsOrder(s: State, byWindow: bool)
    requires Partitioned(s) && InOrder(s)
    ensures InOrder(DoSwap(s, byWindow))
  {
    hide Requests;
    var t := DoSwap(s, byWindow);
    assert Requests(s.batches) == s.arrivals[..Arrived(s)] && s.core.pending == s.arrivals[Arrived(s)..];
    forall b: nat
      ensures Placed(t, b)
      ensures b < |s.batches| ==> s.batches[b].start + |s.batches[b].requests| <= Arrived(s)
    {
      assert Placed(s, b);
    }
  }

  lemma SwapKeepsWindow(s: State, byWindow: bool)
    requires WindowOk(s) && |s.outcomes| == |s.batches| && (byWindow ==> s.core.window.Sleeping?)
    ensures WindowOk(DoSwap(s, byWindow))
  {
    var t := DoSwap(s, byWindow);
    forall b: nat
      ensures InWindow(t, b) <==> InWindow(s, b) || (b == |s.batches| && byWindow && s.core.pending != [])
    {
    }
    if byWindow && s.core.pending != [] {
      assert InWindow(t, |s.batches|);
    }
  }

  lemma SwapKeepsFutures(s: State, byWindow: bool)
    requires Partitioned(s) && InOrder(s) && FuturesOk(s)
    ensures FuturesOk(DoSwap(s, byWindow))
  {
    hide Requests, Mixed, Share;
    var t := DoSwap(s, byWindow);
    forall b: nat, i: nat
      ensures FutureOk(t, b, i)
    {
      assert FutureOk(s, b, i);
    }
  }

  // A swap by the window task, or by a caller that is then no longer to swap.
  lemma SwapKeepsInv(s: State, maxTexts: nat, byWindow: bool, toSwap: set<nat>)
    requires Inv(s, maxTexts) && (byWindow ==> s.core.window.Sleeping?)
    ensures Inv(DoSwap(s.(toSwap := toSwap), byWindow), maxTexts)
  {
    var u := s.(toSwap := toSwap);
    assert Partitioned(u) && WindowOk(u) by {
      assert forall b: nat :: InWindow(u, b) <==> InWindow(s, b);
    }
    assert InOrder(u) by {
      assert forall b: nat :: Placed(u, b) <==> Placed(s, b);
    }
    assert FuturesOk(u) by {
      assert forall b: nat, i: nat :: FutureOk(s, b, i) ==> FutureOk(u, b, i);
    }
    assert |u.outcomes| == |u.batches|;
    hide FuturesOk, InOrder, WindowOk, Partitioned, FutureOk, Placed, InWindow;
    SwapKeepsPartition(u, byWindow);
    SwapKeepsOrder(u, byWindow);
    SwapKeepsWindow(u, byWindow);
    SwapKeepsFutures(u, byWindow);
  }

  lemma CancelKeepsInv(s: State, maxTexts: nat, f: nat)
    requires Inv(s, maxTexts) && f < |s.core.futures|
    ensures Inv(DoCancel(s, f), maxTexts)
  {
    var t := DoCancel(s, f);
    assert forall b: nat :: Placed(s, b) ==> Placed(t, b);
    assert forall b: nat :: InWindow(t, b) <==> InWindow(s, b);
    forall b: nat, i: nat
      ensures FutureOk(t, b, i)
    {
      assert FutureOk(s, b, i);
    }
  }

  lemma FinishKeepsInv(s: State, maxTexts: nat, b: nat, outcome: Outcome)
    requires Inv(s, maxTexts) && InFlight(s, b) && !outcome.InProvider?
    requires outcome.Answered? ==> !Mixed(s.batches[b].requests)
    ensures Inv(DoFinish(s, b, outcome), maxTexts)
  {
    var t := DoFinish(s, b, outcome);
    FinishKeepsOrder(s, maxTexts, b, outcome);
    FinishKeepsFutures(s, maxTexts, b, outcome);
    FinishKeepsWindow(s, b, outcome);
  }

  lemma FinishKeepsWindow(s: State, b: nat, outcome: Outcome)
    requires WindowOk(s) && InFlight(s, b) && !outcome.InProvider?
    ensures WindowOk(DoFinish(s, b, outcome))
  {
    var t := DoFinish(s, b, outcome);
    forall c: nat
      ensures InWindow(t, c) <==> InWindow(s, c) && c != b
    {
    }
    if s.batches[b].byWindow {
      assert InWindow(s, b);
    } else if c: nat :| InWindow(s, c) {
      assert InWindow(t, c);
    }
  }

  lemma FinishKeepsOrder(s: State, maxTexts: nat, b: nat, outcome: Outcome)
    requires Inv(s, maxTexts) && InFlight(s, b)
    ensures var t := DoFinish(s, b, outcome);
            Partitioned(t) && InOrder(t) && CountOk(t, maxTexts)
  {
    var t := DoFinish(s, b, outcome);
    assert forall c: nat :: Placed(s, c) ==> Placed(t, c);
  }

  // What settling does to every future.
  lemma FinishedAt(s: State, maxTexts: nat, b: nat, outcome: Outcome, f: nat)
    requires Inv(s, maxTexts) && InFlight(s, b) && f < |s.core.futures|
    ensures var batch := s.batches[b];
            DoFinish(s, b, outcome).core.futures[f] ==
              if !outcome.Abandoned? && batch.start <= f < batch.start + |batch.requests|
                  && s.core.futures[f].Waiting? then
                (if outcome.Answered? then Resolved(ShareOf(batch, outcome, f - batch.start)) else Failed)
              else s.core.futures[f]
  {
    hide Settled, Share, FuturesOk, WindowOk, CountOk, Requests;
    assert Placed(s, b);
    var answer := if outcome.Answered? then Some(outcome.vectors) else None;
    SettledAt(s.core.futures, s.batches[b].requests, answer, s.batches[b].start, |s.batches[b].requests|, f);
  }

  lemma FinishKeepsFuture(s: State, maxTexts: nat, b: nat, outcome: Outcome, c: nat, i: nat)
    requires Inv(s, maxTexts) && InFlight(s, b) && !outcome.InProvider?
    ensures FutureOk(DoFinish(s, b, outcome), c, i)
  {
    hide Settled, ShareOf, WindowOk, CountOk, Requests, Mixed;
    assert FutureOk(s, c, i) && Placed(s, c) && Placed(s, b);
    if c < |s.batches| && i < |s.batches[c].requests| {
      FinishedAt(s, maxTexts, b, outcome, s.batches[c].start + i);
    }
  }

  lemma FinishKeepsFutures(s: State, maxTexts: nat, b: nat, outcome: Outcome)
    requires Inv(s, maxTexts) && InFlight(s, b) && !outcome.InProvider?
    requires outcome.Answered? ==> !Mixed(s.batches[b].requests)
    ensures FuturesOk(DoFinish(s, b, outcome))
  {
    hide Settled, WindowOk, CountOk, Requests, Mixed, FutureOk;
    forall c: nat, i: nat
      ensures FutureOk(DoFinish(s, b, outcome), c, i)
    {
      FinishKeepsFuture(s, maxTexts, b, outcome, c, i);
    }
    assert Placed(s, b);
    forall f: nat | f < |s.core.futures|
      ensures f >= Arrived(s) ==> DoFinish(s, b, outcome).core.futures[f] == s.core.futures[f]
    {
      FinishedAt(s, maxTexts, b, outcome, f);
    }
  }

  lemma StepKeepsInv(s: State, maxTexts: nat, a: Action)
    requires Inv(s, maxTexts) && Enabled(s, a)
    ensures Inv(Next(s, maxTexts, a), maxTexts)
  {
    hide Inv, DoArrive, DoSwap, DoFinish, DoCancel;
    match a {
      case Arrive(texts, model, inputType) => ArriveKeepsInv(s, maxTexts, NewRequest(s.core, texts, model, inputType));
      case CallerSwap(f) => SwapKeepsInv(s, maxTexts, false, s.toSwap - {f});
      case WindowSwap => SwapKeepsInv(s, maxTexts, true, s.toSwap);
      case Answer(b, vectors) => FinishKeepsInv(s, maxTexts, b, Answered(vectors));
      case Error(b) => FinishKeepsInv(s, maxTexts, b, Errored);
      case Abandon(b) => FinishKeepsInv(s, maxTexts, b, Outcome.Abandoned);
      case Cancel(f) => CancelKeepsInv(s, maxTexts, f);
    }
  }

  lemma {:induction false} RunKeepsInv(s: State, maxTexts: nat, acts: seq<Action>)
    requires Inv(s, maxTexts) && Run(s, maxTexts, acts).Some?
    ensures Inv(Run(s, maxTexts, acts).value, maxTexts)
    decreases |acts|
  {
    if acts != [] {
      StepKeepsInv(s, maxTexts, acts[0]);
      RunKeepsInv(Next(s, maxTexts, acts[0]), maxTexts, acts[1..]);
    }
  }

  lemma InitialInv(maxTexts: nat)
    ensures Inv(INITIAL, maxTexts)
  {
    assert Requests([]) == [];
  }

  // ---- what every run guarantees ----

  lemma Reachable(maxTexts: nat, acts: seq<Action>)
    requires Run(INITIAL, maxTexts, acts).Some?
    ensures Inv(Run(INITIAL, maxTexts, acts).value, maxTexts)
  {
    InitialInv(maxTexts);
    RunKeepsInv(INITIAL, maxTexts, acts);
  }

  /** The swapped-out batches followed by the pending list are the arrivals in order, the counter
      is the number of pending texts, and when it reaches the limit the caller that arrived last
      has been told to flush and has not swapped yet. */
  lemma NoRequestIsLostOrRepeated(maxTexts: nat, acts: seq<Action>)
    requires maxTexts >= 1 && Run(INITIAL, maxTexts, acts).Some?
    ensures var s := Run(INITIAL, maxTexts, acts).value;
            && Requests(s.batches) + s.core.pending == s.arrivals
            && s.core.pendingTexts == Offset(s.core.pending, |s.core.pending|)
            && (s.core.pendingTexts >= maxTexts ==> exists r | r in s.core.pending :: r.future in s.toSwap)
  {
    Reachable(maxTexts, acts);
    var s := Run(INITIAL, maxTexts, acts).value;
    if s.core.pendingTexts >= maxTexts {
      assert s.core.pending[|s.core.pending| - 1] in s.core.pending;
    }
  }

  lemma StepKeepsSettled(s: State, maxTexts: nat, a: Action, f: nat)
    requires Inv(s, maxTexts) && Enabled(s, a) && f < |s.core.futures| && !s.core.futures[f].Waiting?
    ensures f < |Next(s, maxTexts, a).core.futures| && Next(s, maxTexts, a).core.futures[f] == s.core.futures[f]
  {
    hide Inv;
    match a {
      case Arrive(_, _, _) =>
      case CallerSwap(_) =>
      case WindowSwap =>
      case Answer(b, vectors) => FinishedAt(s, maxTexts, b, Answered(vectors), f);
      case Error(b) => FinishedAt(s, maxTexts, b, Errored, f);
      case Abandon(b) => FinishedAt(s, maxTexts, b, Outcome.Abandoned, f);
      case Cancel(_) =>
    }
  }

  /** A future is settled at most once: whatever happens afterwards, it keeps its result. */
  lemma {:induction false} FuturesAreSettledOnce(s: State, maxTexts: nat, acts: seq<Action>, f: nat)
    requires Inv(s, maxTexts) && Run(s, maxTexts, acts).Some?
    requires f < |s.core.futures| && !s.core.futures[f].Waiting?
    ensures var t := Run(s, maxTexts, acts).value;
            f < |t.core.futures| && t.core.futures[f] == s.core.futures[f]
    decreases |acts|
  {
    if acts != [] {
      StepKeepsSettled(s, maxTexts, acts[0], f);
      StepKeepsInv(s, maxTexts, acts[0]);
      FuturesAreSettledOnce(Next(s, maxTexts, acts[0]), maxTexts, acts[1..], f);
    }
  }

  // ---- each caller gets its own vectors ----

  function EmbedAll(embed: (string, string, string) -> Vector, model: string, inputType: string,
          texts: seq<string>): seq<Vector> {
    seq(|texts|, k requires 0 <= k < |texts| => embed(model, inputType, texts[k]))
  }

  // The provider answered what it was asked: one vector per text, in order.
  ghost predicate Honest(embed: (string, string, string) -> Vector, batch: Batch, outcome: Outcome) {
    outcome.Answered? && batch.requests != [] ==>
      var first := batch.requests[0];
      outcome.vectors == EmbedAll(embed, first.model, first.inputType, AllTexts(batch.requests, |batch.requests|))
  }

  lemma {:induction false} OwnTexts(requests: seq<Request>, i: nat, k: nat)
    requires i < k <= |requests|
    ensures Offset(requests, i) + |requests[i].texts| <= Offset(requests, k)
    ensures AllTexts(requests, k)[Offset(requests, i)..Offset(requests, i) + |requests[i].texts|] == requests[i].texts
  {
    if i < k - 1 {
      OwnTexts(requests, i, k - 1);
    }
  }

  lemma HonestShare(embed: (string, string, string) -> Vector, batch: Batch, outcome: Outcome, i: nat)
    requires outcome.Answered? && Honest(embed, batch, outcome) && i < |batch.requests| && !Mixed(batch.requests)
    ensures var r := batch.requests[i];
            ShareOf(batch, outcome, i) == EmbedAll(embed, r.model, r.inputType, r.texts)
  {
    assert batch.requests[i] in batch.requests;
    OwnTexts(batch.requests, i, |batch.requests|);
    var texts := AllTexts(batch.requests, |batch.requests|);
    var r, from := batch.requests[i], Offset(batch.requests, i);
    assert EmbedAll(embed, r.model, r.inputType, texts)[from..from + |r.texts|]
        == EmbedAll(embed, r.model, r.inputType, texts[from..from + |r.texts|]);
  }

  predicate At(batches: seq<Batch>, b: nat, i: nat, r: Request) {
    b < |batches| && i < |batches[b].requests| && batches[b].requests[i] == r
  }

  lemma {:induction false} FindBatch(batches: seq<Batch>, f: nat)
    requires f < |Requests(batches)|
    ensures exists b: nat, i: nat :: At(batches, b, i, Requests(batches)[f])
  {
    var last := |batches| - 1;
    var before := |Requests(batches[..last])|;
    if f < before {
      FindBatch(batches[..last], f);
      var b: nat, i: nat :| At(batches[..last], b, i, Requests(batches)[f]);
      assert At(batches, b, i, Requests(batches)[f]);
    } else {
      assert At(batches, last, f - before, Requests(batches)[f]);
    }
  }

  // A resolved future got its share of an answer to a batch that held its request.
  lemma ResolvedFromItsBatch(s: State, maxTexts: nat, f: nat)
    requires Inv(s, maxTexts) && f < |s.core.futures| && s.core.futures[f].Resolved?
    ensures exists b: nat, i: nat ::
              At(s.batches, b, i, s.arrivals[f]) && b < |s.outcomes| && s.outcomes[b].Answered?
                  && !Mixed(s.batches[b].requests)
              && s.core.futures[f] == Resolved(ShareOf(s.batches[b], s.outcomes[b], i))
  {
    hide Share, Mixed;
    assert f < Arrived(s);
    FindBatch(s.batches, f);
    var b: nat, i: nat :| At(s.batches, b, i, Requests(s.batches)[f]);
    assert Placed(s, b) && FutureOk(s, b, i);
    assert s.arrivals[f] == Requests(s.batches)[f] == s.arrivals[s.batches[b].start + i];
  }

  /** In every interleaving, a caller that gets a result gets exactly the vectors of its own texts,
      in order, under its own model and input type, provided the provider answers what it is asked. */
  lemma EveryCallerGetsItsOwnVectors(embed: (string, string, string) -> Vector, maxTexts: nat, acts: seq<Action>,
          f: nat)
    requires Run(INITIAL, maxTexts, acts).Some?
    requires var s := Run(INITIAL, maxTexts, acts).value;
             && f < |s.core.futures| && s.core.futures[f].Resolved?
             && (forall b | 0 <= b < |s.batches| && b < |s.outcomes| :: Honest(embed, s.batches[b], s.outcomes[b]))
    ensures var s := Run(INITIAL, maxTexts, acts).value;
            && f < |s.arrivals|
            && s.core.futures[f].vectors == EmbedAll(embed, s.arrivals[f].model, s.arrivals[f].inputType,
                s.arrivals[f].texts)
  {
    Reachable(maxTexts, acts);
    var s := Run(INITIAL, maxTexts, acts).value;
    hide ShareOf, Mixed, EmbedAll, Honest;
    ResolvedFromItsBatch(s, maxTexts, f);
    var b: nat, i: nat :| At(s.batches, b, i, s.arrivals[f]) && b < |s.outcomes| && s.outcomes[b].Answered?
        && !Mixed(s.batches[b].requests)
      && s.core.futures[f] == Resolved(ShareOf(s.batches[b], s.outcomes[b], i));
    HonestShare(embed, s.batches[b], s.outcomes[b], i);
  }

  /** A batch can be answered if and only if its provider call is going on and its requests agree in
      model and input type. */
  lemma AnswerPossibleIff(s: State, maxTexts: nat, b: nat, vectors: seq<Vector>)
    requires Inv(s, maxTexts) && b < |s.batches|
    ensures b < |s.outcomes|
    ensures var rs := s.batches[b].requests;
            Enabled(s, Answer(b, vectors)) <==>
              s.outcomes[b].InProvider?
              && forall i, j | 0 <= i < j < |rs| :: rs[i].model == rs[j].model && rs[i].inputType == rs[j].inputType
  {
    hide Requests, Share;
    var rs := s.batches[b].requests;
    assert Placed(s, b);
    forall i | 0 <= i < |rs|
      ensures rs[i].future < |s.core.futures|
    {
      assert rs[i] == s.arrivals[s.batches[b].start + i];
    }
    if !Mixed(rs) {
      forall i | 0 <= i < |rs|
        ensures rs[i].model == rs[0].model && rs[i].inputType == rs[0].inputType
      {
        assert rs[i] in rs;
      }
    }
  }

  /** In every run with a provider that answers what it is asked, a caller that is not cancelled has the
      vectors of its own texts if and only if its batch has been answered. */
  lemma AnAnswerReachesEveryCaller(embed: (string, string, string) -> Vector, maxTexts: nat, acts: seq<Action>, b: nat,
          i: nat)
    requires Run(INITIAL, maxTexts, acts).Some?
    requires var s := Run(INITIAL, maxTexts, acts).value;
             && b < |s.batches| && i < |s.batches[b].requests|
             && (b < |s.outcomes| ==> Honest(embed, s.batches[b], s.outcomes[b]))
    ensures var s := Run(INITIAL, maxTexts, acts).value;
            var r := s.batches[b].requests[i];
            && r.future < |s.core.futures| && b < |s.outcomes|
            && (!s.core.futures[r.future].Cancelled? ==>
                  (s.core.futures[r.future] == Resolved(EmbedAll(embed, r.model, r.inputType, r.texts))
                   <==> s.outcomes[b].Answered?))
  {
    Reachable(maxTexts, acts);
    var s := Run(INITIAL, maxTexts, acts).value;
    hide Run, Share, Mixed, Requests, EmbedAll, Honest;
    assert Placed(s, b) && FutureOk(s, b, i);
    assert s.batches[b].requests[i] == s.arrivals[s.batches[b].start + i];
    if s.outcomes[b].Answered? {
      HonestShare(embed, s.batches[b], s.outcomes[b], i);
    }
  }

  // ---- stranded requests ----

  // Requests are pending and nobody is going to swap them: no caller, and no window task.
  predicate Stranded(s: State) {
    s.core.pending != [] && s.toSwap == {} && (s.core.window.NoTask? || s.core.window.Done?)
  }

  // The step after which the window task is done.
  predicate EndsWindow(s: State, a: Action) {
    match a
    case Answer(b, _) => b < |s.batches| && s.batches[b].byWindow
    case Error(b) => b < |s.batches| && s.batches[b].byWindow
    case Abandon(b) => b < |s.batches| && s.batches[b].byWindow
    case _ => false
  }

  /** Requests become stranded exactly when the window task returns from the provider while
      requests that armed nobody are pending, and stay so until another request arrives. */
  lemma StrandedIff(s: State, maxTexts: nat, a: Action)
    requires Enabled(s, a)
    ensures Stranded(Next(s, maxTexts, a)) <==>
              !a.Arrive? && (Stranded(s) || (EndsWindow(s, a) && s.core.pending != [] && s.toSwap == {}))
  {
    hide Settled, Mixed;
  }

  /** A request arrives without anybody being about to swap if and only if it stays below the
      limit while the window task is already in the provider call and no caller is to flush. */
  lemma ArrivalArmsNobodyIff(s: State, maxTexts: nat, texts: seq<string>, model: string, inputType: string)
    requires texts != []
    ensures var t := Next(s, maxTexts, Arrive(texts, model, inputType));
            (t.toSwap == {} && !t.core.window.Sleeping?)
            <==> s.toSwap == {} && s.core.window.Flushing? && s.core.pendingTexts + |texts| < maxTexts
  {
  }

  predicate NoArrival(acts: seq<Action>) {
    forall i | 0 <= i < |acts| :: !acts[i].Arrive?
  }

  /** Without a further arrival a stranded request is never answered, however long the run. */
  lemma {:induction false} StrandedUntilTheNextArrival(s: State, maxTexts: nat, acts: seq<Action>)
    requires Inv(s, maxTexts) && Stranded(s) && NoArrival(acts) && Run(s, maxTexts, acts).Some?
    ensures var t := Run(s, maxTexts, acts).value;
            && Stranded(t) && t.core.pending == s.core.pending
            && (forall r | r in t.core.pending && r.future < |t.core.futures| ::
                t.core.futures[r.future].Waiting? || t.core.futures[r.future].Cancelled?)
    decreases |acts|
  {
    if acts == [] {
      PendingIsUnsettled(s, maxTexts);
    } else {
      StrandedIff(s, maxTexts, acts[0]);
      StepKeepsInv(s, maxTexts, acts[0]);
      assert Next(s, maxTexts, acts[0]).core.pending == s.core.pending by {
        hide Settled, Mixed;
      }
      StrandedUntilTheNextArrival(Next(s, maxTexts, acts[0]), maxTexts, acts[1..]);
    }
  }

  lemma StepKeepsAbandoned(s: State, maxTexts: nat, a: Action, b: nat)
    requires Enabled(s, a) && b < |s.batches| && |s.outcomes| == |s.batches| && s.outcomes[b].Abandoned?
    ensures var t := Next(s, maxTexts, a);
            b < |t.batches| && b < |t.outcomes| && t.batches[b] == s.batches[b] && t.outcomes[b].Abandoned?
  {
    hide Settled, Mixed;
  }

  /** When whoever awaits the provider for a batch is cancelled, the other callers of that batch wait
      for ever: whatever happens afterwards, later arrivals included, no future of the batch gets a
      result or an error. */
  lemma {:induction false} AbandonedRequestsWaitForEver(s: State, maxTexts: nat, acts: seq<Action>, b: nat, i: nat)
    requires Inv(s, maxTexts) && Run(s, maxTexts, acts).Some?
    requires b < |s.batches| && b < |s.outcomes| && s.outcomes[b].Abandoned? && i < |s.batches[b].requests|
    ensures var f, t := s.batches[b].requests[i].future, Run(s, maxTexts, acts).value;
            f < |t.core.futures| && (t.core.futures[f].Waiting? || t.core.futures[f].Cancelled?)
    decreases |acts|
  {
    if acts == [] {
      hide Share, Mixed, Requests;
      assert Placed(s, b) && FutureOk(s, b, i);
      assert s.batches[b].requests[i] == s.arrivals[s.batches[b].start + i];
    } else {
      hide Next, Enabled;
      StepKeepsAbandoned(s, maxTexts, acts[0], b);
      StepKeepsInv(s, maxTexts, acts[0]);
      AbandonedRequestsWaitForEver(Next(s, maxTexts, acts[0]), maxTexts, acts[1..], b, i);
    }
  }

  /** In every run, a caller whose batch has been swapped out and who has not been cancelled is without
      an answer if and only if the provider call is still going on or was abandoned: a call that ends
      in any other way answers every caller of its batch. */
  lemma UnansweredIff(maxTexts: nat, acts: seq<Action>, b: nat, i: nat)
    requires Run(INITIAL, maxTexts, acts).Some?
    requires var s := Run(INITIAL, maxTexts, acts).value; b < |s.batches| && i < |s.batches[b].requests|
    ensures var s := Run(INITIAL, maxTexts, acts).value;
            var f := s.batches[b].requests[i].future;
            && f < |s.core.futures| && b < |s.outcomes|
            && (!s.core.futures[f].Cancelled? ==>
                  (s.core.futures[f].Waiting? <==> s.outcomes[b].InProvider? || s.outcomes[b].Abandoned?))
  {
    Reachable(maxTexts, acts);
    var s := Run(INITIAL, maxTexts, acts).value;
    hide Run, Share, Mixed, Requests;
    assert Placed(s, b) && FutureOk(s, b, i);
    assert s.batches[b].requests[i] == s.arrivals[s.batches[b].start + i];
  }

  lemma PendingIsUnsettled(s: State, maxTexts: nat)
    requires Inv(s, maxTexts)
    ensures forall r | r in s.core.pending && r.future < |s.core.futures| ::
        s.core.futures[r.future].Waiting? || s.core.futures[r.future].Cancelled?
  {
    forall r | r in s.core.pending && r.future < |s.core.futures|
      ensures s.core.futures[r.future].Waiting? || s.core.futures[r.future].Cancelled?
    {
      var k :| 0 <= k < |s.core.pending| && s.core.pending[k] == r;
      assert s.arrivals[|Requests(s.batches)| + k] == r;
    }
  }

  /** Two small requests are enough: the second arrives while the window task of the first is in
      the provider call, and is stranded when that call returns. */
  lemma ARequestCanBeStranded(v: Vector)
    ensures var acts := [Arrive(["a"], "m", "passage"), WindowSwap, Arrive(["b"], "m", "passage"), Answer(0, [v])];
            && Run(INITIAL, 16, acts).Some? && Stranded(Run(INITIAL, 16, acts).value)
  {
    var a1, a2, a3, a4 := Arrive(["a"], "m", "passage"), WindowSwap, Arrive(["b"], "m", "passage"), Answer(0, [v]);
    var s1 := Next(INITIAL, 16, a1);
    var s2 := Next(s1, 16, a2);
    var s3 := Next(s2, 16, a3);
    var r1, r2 := Request(["a"], 0, "m", "passage"), Request(["b"], 1, "m", "passage");
    assert s1.core == Core([Waiting], [r1], 1, Sleeping);
    assert s2.core == Core([Waiting], [], 0, Flushing) && s2.batches == [Batch(0, [r1], true)]
        && s2.outcomes == [InProvider];
    assert s3.core == Core([Waiting, Waiting], [r2], 1, Flushing) && s3.batches == s2.batches
        && s3.outcomes == s2.outcomes;
    assert Enabled(s3, a4);
    var s4 := Next(s3, 16, a4);
    assert Stranded(s4);
    var acts := [a1, a2, a3, a4];
    assert acts[1..] == [a2, a3, a4] && acts[1..][1..] == [a3, a4] && acts[1..][1..][1..] == [a4]
        && acts[1..][1..][1..][1..] == [];
    assert Run(s4, 16, []) == Some(s4);
    assert Run(s3, 16, [a4]) == Some(s4);
    assert Run(s2, 16, [a3, a4]) == Some(s4);
    assert Run(s1, 16, [a2, a3, a4]) == Some(s4);
  }
}
