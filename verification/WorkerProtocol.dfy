/** Dispatchers, workers, the job table and the stream, interleaved step by step.

    Every database transaction and every queue command is one step. A process may
    stop between any two of its steps, a publication may be lost or may be reported
    as failed after it took effect, acknowledgements may fail, and messages may be
    duplicated or delivered late. Clock, timings and outcomes are all adversarial. */
module WorkerProtocol {
  import opened Prelude
  import opened IndexJobs
  import opened JobStream

  // rag_index_max_retries, worker_job_max_retries, job_queue_claim_idle_ms
  datatype Config = Config(limit: int, maxRetries: int, idle: int)

  // One delivery of a message to a worker: received; inside the job body with the row
  // locked; body returned; body raised; successor or failure record written.
  datatype Phase = Received | Open(job: nat, row: Row) | BodyReturned | BodyRaised | Answered

  datatype Handling = Handling(worker: nat, msg: nat, held: bool, phase: Phase)

  // A message that was answered by a retry, and the entry appended for it.
  datatype Retried = Retried(message: nat, successor: nat)

  datatype State = State(
    clock: int,
    table: map<nat, Row>,
    locks: map<nat, nat>,            // job -> the handling whose transaction holds its row
    stream: Stream,
    handlings: map<nat, Handling>,
    next: nat,
    toPublish: multiset<nat>,        // claimed by some dispatcher, not yet published
    toCompensate: multiset<nat>,     // publication reported as failed, not yet undone
    returned: set<nat>,              // messages one of whose job bodies has returned
    retries: seq<Retried>)

  const INITIAL := State(0, map[], map[], EMPTY_STREAM, map[], 0, multiset{}, multiset{}, {}, [])

  // What clients and the passage of time do.
  datatype ClientAction =
    | Tick(to: int)
    | CreateJob(j: nat, version: nat)
    | Submit(jobType: JobType, target: nat)
    | SubmitMalformed

  // The transactions and publications of dispatch_recoverable_index_jobs.
  datatype DispatchAction =
    | ClaimJobs(js: set<nat>)
    | Publish(j: nat, appended: bool, reported: bool)
    | AbandonPublish(j: nat)
    | Compensate(j: nat)
    | AbandonCompensation(j: nat)

  // What workers do with messages. Skip is an execution that finds its row locked by a dispatcher's
  // transaction, which is a step of its own here, and returns without running.
  datatype WorkerAction =
    | Deliver(w: nat)
    | Reclaim(w: nat, m: nat)
    | Begin(h: nat, version: nat, committed: bool)
    | Skip(h: nat)
    | Finish(h: nat, j: nat, work: Work, committed: bool)
    | Cancel(h: nat)
    | RunOther(h: nat, ok: bool)
    | Retry(h: nat)
    | LogFailure(h: nat, error: string)
    | Ack(h: nat, ok: bool)
    | Crash(w: nat)

  datatype Action = Client(client: ClientAction) | Dispatcher(dispatch: DispatchAction) | Worker(worker: WorkerAction)

  // The WHERE clause of the dispatcher's claim.
  predicate Eligible(c: Config, r: Row, now: int) {
    && r.attempts < c.limit
    && (r.status.Pending? || (r.status.Queued? && r.queuedAt.Some? && r.queuedAt.value < now - c.idle))
  }

  function Claimed(table: map<nat, Row>, js: set<nat>, now: int): map<nat, Row> {
    map j | j in table :: if j in js then table[j].(status := Queued, queuedAt := Some(now)) else table[j]
  }

  // The compensating UPDATE ... WHERE status = 'queued'.
  function Compensated(table: map<nat, Row>, j: nat): map<nat, Row> {
    if j in table && table[j].status.Queued? then table[j := table[j].(status := Pending, queuedAt := None)] else table
  }

  function Append(s: State, jobType: JobType, target: nat, attempt: nat): State {
    s.(stream := XAdd(s.stream, Msg(|s.stream.log|, jobType, target, attempt)))
  }

  function WithPhase(s: State, h: nat, p: Phase): State
    requires h in s.handlings
  {
    s.(handlings := s.handlings[h := s.handlings[h].(phase := p)])
  }

  function BodyDone(s: State, h: nat): State
    requires h in s.handlings
  {
    WithPhase(s, h, BodyReturned).(returned := s.returned + {s.handlings[h].msg})
  }

  // Entry m was handed to worker w; a malformed entry is acknowledged on the spot.
  function DoReceive(s: State, m: nat, w: nat, stream: Stream): State
    requires m < |stream.log|
  {
    if stream.log[m].Malformed? then s.(stream := XAck(stream, m))
    else s.(stream := stream, next := s.next + 1, handlings := s.handlings[s.next := Handling(w, m, true, Received)])
  }

  // The job timeout cancels the body; an open transaction rolls back.
  function DoCancel(s: State, h: nat): State
    requires h in s.handlings
  {
    var p := s.handlings[h].phase;
    WithPhase(if p.Open? then s.(locks := s.locks - {p.job}) else s, h, BodyRaised)
  }

  // The first transaction of execute_index_document_job, up to the guards.
  function DoBegin(c: Config, s: State, h: nat, j: nat, version: nat, committed: bool): State
    requires h in s.handlings
  {
    if j !in s.table || j in s.locks || EarlyReturn(s.table[j]) then BodyDone(s, h)
    else match Settled(s.table[j], c.limit, version, s.clock)
      case Some(r) =>
        if committed then BodyDone(s.(table := s.table[j := r]), h) else WithPhase(s, h, BodyRaised)
      case None =>
        WithPhase(s.(locks := s.locks[j := h]), h, Open(j, Started(s.table[j])))
  }

  function DoFinish(c: Config, s: State, h: nat, j: nat, work: Work, committed: bool): State
    requires h in s.handlings && s.handlings[h].phase.Open? && !work.Cancelled?
  {
    var released := s.(locks := s.locks - {j});
    if !committed then WithPhase(released, h, BodyRaised)
    else
      var t := released.(table := s.table[j := Finished(s.handlings[h].phase.row, work, c.limit, s.clock)]);
      if work.Raised? then WithPhase(t, h, BodyRaised) else BodyDone(t, h)
  }

  function DoAck(s: State, h: nat, ok: bool): State
    requires h in s.handlings
  {
    var x := s.handlings[h];
    if ok then s.(stream := if x.held then XAck(s.stream, x.msg) else s.stream, handlings := s.handlings - {h})
    else if x.phase.BodyReturned? then s.(handlings := s.handlings[h := x.(held := false, phase := BodyRaised)])
    else s.(handlings := s.handlings - {h})
  }

  function DoCrash(s: State, w: nat): State {
    s.(handlings := map h | h in s.handlings && s.handlings[h].worker != w :: s.handlings[h],
       locks := map j | j in s.locks && s.locks[j] in s.handlings && s.handlings[s.locks[j]].worker != w :: s.locks[j])
  }

  predicate Holds(s: State, h: nat) {
    h in s.handlings && s.handlings[h].msg < |s.stream.log| && s.stream.log[s.handlings[h].msg].Msg?
  }

  function Job(s: State, h: nat): Entry
    requires Holds(s, h)
  {
    s.stream.log[s.handlings[h].msg]
  }

  // The successor is appended and remembered as this message's own.
  function DoRetry(s: State, h: nat): State
    requires Holds(s, h)
  {
    var t := Append(s, Job(s, h).jobType, Job(s, h).target, Job(s, h).attempt + 1);
    WithPhase(t.(retries := s.retries + [Retried(s.handlings[h].msg, |s.stream.log|)]), h, Answered)
  }

  // ---- when an action may happen, and the state after it ----

  predicate ClientEnabled(s: State, a: ClientAction) {
    match a
    case Tick(to) => s.clock <= to
    case CreateJob(j, _) => j !in s.table
    case _ => true
  }

  function ClientNext(s: State, a: ClientAction): State {
    match a
    case Tick(to) => s.(clock := to)
    case CreateJob(j, version) => s.(table := s.table[j := NewRow(version)])
    case Submit(jobType, target) => Append(s, jobType, target, 0)
    case SubmitMalformed => s.(stream := XAdd(s.stream, Malformed))
  }

  predicate DispatchEnabled(c: Config, s: State, a: DispatchAction) {
    match a
    case ClaimJobs(js) => forall j | j in js :: j in s.table && j !in s.locks && Eligible(c, s.table[j], s.clock)
    case Publish(j, appended, reported) => j in s.toPublish && (reported ==> appended)
    case AbandonPublish(j) => j in s.toPublish
    case Compensate(j) => j in s.toCompensate && j !in s.locks
    case AbandonCompensation(j) => j in s.toCompensate
  }

  function DispatchNext(s: State, a: DispatchAction): State {
    match a
    case ClaimJobs(js) => s.(table := Claimed(s.table, js, s.clock), toPublish := s.toPublish + multiset(js))
    case Publish(j, appended, reported) =>
      var t := if appended then Append(s, IndexDocument, j, 0) else s;
      t.(toPublish := s.toPublish - multiset{j},
         toCompensate := if reported then s.toCompensate else s.toCompensate + multiset{j})
    case AbandonPublish(j) => s.(toPublish := s.toPublish - multiset{j})
    case Compensate(j) => s.(toCompensate := s.toCompensate - multiset{j}, table := Compensated(s.table, j))
    case AbandonCompensation(j) => s.(toCompensate := s.toCompensate - multiset{j})
  }

  predicate WorkerEnabled(c: Config, s: State, a: WorkerAction) {
    match a
    case Deliver(_) => s.stream.cursor < |s.stream.log|
    case Reclaim(_, m) => m < |s.stream.log| && Claimable(s.stream, m, s.clock, c.idle)
    case Begin(h, _, _) => Holds(s, h) && s.handlings[h].phase.Received? && Job(s, h).jobType.IndexDocument?
    case Skip(h) => Holds(s, h) && s.handlings[h].phase.Received? && Job(s, h).jobType.IndexDocument?
    case Finish(h, j, work, _) =>
      Holds(s, h) && s.handlings[h].phase.Open? && s.handlings[h].phase.job == j && !work.Cancelled?
    case Cancel(h) => Holds(s, h) && (s.handlings[h].phase.Open? || s.handlings[h].phase.Received?)
    case RunOther(h, _) => Holds(s, h) && s.handlings[h].phase.Received? && !Job(s, h).jobType.IndexDocument?
    case Retry(h) => Holds(s, h) && s.handlings[h].phase.BodyRaised? && CanRetry(Job(s, h), c.maxRetries)
    case LogFailure(h, _) => Holds(s, h) && s.handlings[h].phase.BodyRaised? && !CanRetry(Job(s, h), c.maxRetries)
    case Ack(h, _) => Holds(s, h) && (s.handlings[h].phase.BodyReturned? || s.handlings[h].phase.Answered?)
    case Crash(_) => true
  }

  function WorkerNext(c: Config, s: State, a: WorkerAction): State
    requires WorkerEnabled(c, s, a)
  {
    match a
    case Deliver(w) => DoReceive(s, s.stream.cursor, w, XRead(s.stream, w, s.clock))
    case Reclaim(w, m) => DoReceive(s, m, w, XClaim(s.stream, m, w, s.clock))
    case Begin(h, version, committed) => DoBegin(c, s, h, Job(s, h).target, version, committed)
    case Skip(h) => BodyDone(s, h)
    case Finish(h, j, work, committed) => DoFinish(c, s, h, j, work, committed)
    case Cancel(h) => DoCancel(s, h)
    case RunOther(h, ok) => if ok then BodyDone(s, h) else WithPhase(s, h, BodyRaised)
    case Retry(h) => DoRetry(s, h)
    case LogFailure(h, error) => WithPhase(s.(stream := XAddFailure(s.stream, Job(s, h).id, Cut(error))), h, Answered)
    case Ack(h, ok) => DoAck(s, h, ok)
    case Crash(w) => DoCrash(s, w)
  }

  predicate Enabled(c: Config, s: State, a: Action) {
    match a
    case Client(x) => ClientEnabled(s, x)
    case Dispatcher(x) => DispatchEnabled(c, s, x)
    case Worker(x) => WorkerEnabled(c, s, x)
  }

  function Next(c: Config, s: State, a: Action): State
    requires Enabled(c, s, a)
  {
    match a
    case Client(x) => ClientNext(s, x)
    case Dispatcher(x) => DispatchNext(s, x)
    case Worker(x) => WorkerNext(c, s, x)
  }

  // The final state of a run, if every action is enabled in its turn.
  function Run(c: Config, s: State, acts: seq<Action>): Option<State>
    decreases |acts|
  {
    if acts == [] then Some(s)
    else if !Enabled(c, s, acts[0]) then None
    else Run(c, Next(c, s, acts[0]), acts[1..])
  }

  // ---- invariants ----

  ghost predicate RowsOk(c: Config, s: State) {
    forall j | j in s.table :: RowOk(s.table[j], c.limit)
  }

  // A row lock is held exactly by the handling inside the job's body, whose working copy
  // is the committed row as the execution started it.
  ghost predicate LocksOk(s: State) {
    && (forall j | j in s.locks ::
          && s.locks[j] in s.handlings && s.handlings[s.locks[j]].phase.Open?
          && s.handlings[s.locks[j]].phase.job == j)
    && (forall h | h in s.handlings && s.handlings[h].phase.Open? ::
          var j := s.handlings[h].phase.job;
          && j in s.locks && s.locks[j] == h
          && j in s.table && s.handlings[h].phase.row == Started(s.table[j]))
  }

  ghost predicate RunnableWhenOpen(c: Config, s: State) {
    forall h | h in s.handlings && s.handlings[h].phase.Open? ::
      var j := s.handlings[h].phase.job;
      s.handlings[h].phase.row.attempts <= c.limit && j in s.table && !Terminal(s.table[j], c.limit)
  }

  // The table and the locks only move together: both invariants at once.
  ghost predicate JobsOk(c: Config, s: State) {
    RowsOk(c, s) && LocksOk(s) && RunnableWhenOpen(c, s)
  }

  // A retry was appended for message m itself.
  ghost predicate OwnSuccessor(s: State, m: nat) {
    exists i :: 0 <= i < |s.retries| && s.retries[i].message == m
  }

  // Each retry is a later successor of its message, and no entry is the retry of two messages.
  ghost predicate RetriesOk(s: State) {
    && (forall i | 0 <= i < |s.retries| ::
          var r := s.retries[i];
          r.message < r.successor < |s.stream.log| && IsSuccessor(s.stream.log[r.message], s.stream.log[r.successor]))
    && (forall i, k | 0 <= i < k < |s.retries| :: s.retries[i].successor < s.retries[k].successor)
  }

  ghost predicate HandlingOk(s: State, h: nat)
    requires h in s.handlings
  {
    && h < s.next
    && Holds(s, h)
    && s.handlings[h].msg < s.stream.cursor
    && (s.handlings[h].phase.BodyReturned? ==> s.handlings[h].msg in s.returned)
    && (s.handlings[h].phase.Answered? ==>
          OwnSuccessor(s, s.handlings[h].msg) || HasFailure(s.stream, s.handlings[h].msg))
  }

  ghost predicate HandlingsOk(s: State) {
    forall h | h in s.handlings :: HandlingOk(s, h)
  }

  ghost predicate IdsOk(s: State) {
    forall m :: 0 <= m < |s.stream.log| && s.stream.log[m].Msg? ==> s.stream.log[m].id == m
  }

  ghost predicate AttemptsBounded(c: Config, s: State) {
    forall m :: 0 <= m < |s.stream.log| && s.stream.log[m].Msg? ==> s.stream.log[m].attempt <= Max(0, c.maxRetries)
  }

  // Why an entry may have left the pending list.
  ghost predicate Justified(s: State, m: nat) {
    m < |s.stream.log| && (s.stream.log[m].Malformed? || m in s.returned || OwnSuccessor(s, m)
        || HasFailure(s.stream, m))
  }

  ghost predicate AcksJustified(s: State) {
    forall m | m in s.stream.acked :: Justified(s, m)
  }

  ghost predicate StreamOk(c: Config, s: State) {
    WellFormed(s.stream) && IdsOk(s) && AttemptsBounded(c, s) && RetriesOk(s)
  }

  ghost predicate Inv(c: Config, s: State) {
    JobsOk(c, s) && HandlingsOk(s) && StreamOk(c, s) && AcksJustified(s)
  }

  lemma InitialInv(c: Config)
    ensures Inv(c, INITIAL)
  {
  }

  // Appending to the log or the failure list, or a larger returned set, keeps justifications.
  lemma JustificationIsStable(s: State, t: State, m: nat)
    requires s.stream.log <= t.stream.log && s.stream.failures <= t.stream.failures && s.returned <= t.returned
    requires s.retries <= t.retries && m < |s.stream.log|
    ensures OwnSuccessor(s, m) ==> OwnSuccessor(t, m)
    ensures HasFailure(s.stream, m) ==> HasFailure(t.stream, m)
    ensures Justified(s, m) ==> Justified(t, m)
  {
    if OwnSuccessor(s, m) {
      var i :| 0 <= i < |s.retries| && s.retries[i].message == m;
      assert t.retries[i].message == m;
    }
    if HasFailure(s.stream, m) {
      var k :| 0 <= k < |s.stream.failures| && s.stream.failures[k].jobId == s.stream.log[m].id;
      assert t.stream.failures[k].jobId == t.stream.log[m].id;
    }
  }

  lemma StepOnlyAppends(c: Config, s: State, a: Action)
    requires Enabled(c, s, a)
    ensures var t := Next(c, s, a);
            && s.stream.log <= t.stream.log && s.stream.failures <= t.stream.failures && s.returned <= t.returned
            && s.retries <= t.retries
  {
    hide WorkerNext, WorkerEnabled, DispatchEnabled, Claimed, Compensated;
    match a {
      case Client(_) =>
      case Dispatcher(_) =>
      case Worker(x) => WorkerOnlyAppends(c, s, x);
    }
  }

  lemma WorkerOnlyAppends(c: Config, s: State, a: WorkerAction)
    requires WorkerEnabled(c, s, a)
    ensures var t := WorkerNext(c, s, a);
            && s.stream.log <= t.stream.log && s.stream.failures <= t.stream.failures && s.returned <= t.returned
            && s.retries <= t.retries && s.next <= t.next && s.stream.cursor <= t.stream.cursor
  {
    hide Settled, Finished, Started, EarlyReturn, CanRetry, Claimable, DoBegin, DoFinish, DoCancel;
    match a {
      case Begin(h, version, committed) => BeginOnlyAppends(c, s, h, Job(s, h).target, version, committed);
      case Finish(h, j, work, committed) => FinishOnlyAppends(c, s, h, j, work, committed);
      case Cancel(h) => CancelOnlyAppends(s, h);
      case _ =>
    }
  }

  // What an execution leaves alone: the stream, the retries and the handling numbers.
  predicate SameStream(s: State, t: State) {
    t.stream == s.stream && t.retries == s.retries && t.next == s.next && s.returned <= t.returned
  }

  lemma BeginOnlyAppends(c: Config, s: State, h: nat, j: nat, version: nat, committed: bool)
    requires h in s.handlings
    ensures SameStream(s, DoBegin(c, s, h, j, version, committed))
  {
    hide Settled, Started, EarlyReturn;
  }

  lemma FinishOnlyAppends(c: Config, s: State, h: nat, j: nat, work: Work, committed: bool)
    requires h in s.handlings && s.handlings[h].phase.Open? && !work.Cancelled?
    ensures SameStream(s, DoFinish(c, s, h, j, work, committed))
  {
    hide Finished;
  }

  lemma CancelOnlyAppends(s: State, h: nat)
    requires h in s.handlings
    ensures SameStream(s, DoCancel(s, h))
  {
  }

  // ---- the job table and the row locks ----

  // A handling outside the job's body may come, go or change phase freely.
  lemma HandlingChangeKeepsJobs(c: Config, s: State, t: State, h: nat)
    requires JobsOk(c, s)
    requires t.table == s.table && t.locks == s.locks
    requires forall k | k != h :: k in t.handlings <==> k in s.handlings
    requires forall k | k in s.handlings && k in t.handlings && k != h :: t.handlings[k] == s.handlings[k]
    requires h in s.handlings ==> !s.handlings[h].phase.Open?
    requires h in t.handlings ==> !t.handlings[h].phase.Open?
    ensures JobsOk(c, t)
  {
  }

  // An unlocked row may be rewritten to any row a commit may leave.
  lemma RowChangeKeepsJobs(c: Config, s: State, j: nat, r: Row)
    requires JobsOk(c, s) && j !in s.locks && RowOk(r, c.limit)
    ensures JobsOk(c, s.(table := s.table[j := r]))
  {
  }

  lemma ClaimKeepsJobs(c: Config, s: State, js: set<nat>)
    requires JobsOk(c, s) && DispatchEnabled(c, s, ClaimJobs(js))
    ensures JobsOk(c, DispatchNext(s, ClaimJobs(js)))
  {
  }

  lemma LockingKeepsJobs(c: Config, s: State, h: nat, j: nat)
    requires JobsOk(c, s) && h in s.handlings && !s.handlings[h].phase.Open?
    requires j in s.table && j !in s.locks && s.table[j].attempts < c.limit && !EarlyReturn(s.table[j])
    ensures JobsOk(c, WithPhase(s.(locks := s.locks[j := h]), h, Open(j, Started(s.table[j]))))
  {
  }

  lemma SettledIsOk(r: Row, limit: int, version: nat, now: int)
    requires RowOk(r, limit)
    ensures Settled(r, limit, version, now).Some? ==> RowOk(Settled(r, limit, version, now).value, limit)
    ensures Settled(r, limit, version, now) == None ==> r.attempts < limit
  {
  }

  lemma BeginKeepsJobs(c: Config, s: State, h: nat, j: nat, version: nat, committed: bool)
    requires JobsOk(c, s) && h in s.handlings && !s.handlings[h].phase.Open?
    ensures JobsOk(c, DoBegin(c, s, h, j, version, committed))
  {
    var t := DoBegin(c, s, h, j, version, committed);
    if j !in s.table || j in s.locks || EarlyReturn(s.table[j]) {
      HandlingChangeKeepsJobs(c, s, t, h);
    } else {
      SettledIsOk(s.table[j], c.limit, version, s.clock);
      match Settled(s.table[j], c.limit, version, s.clock) {
        case Some(r) =>
          if committed {
            RowChangeKeepsJobs(c, s, j, r);
            HandlingChangeKeepsJobs(c, s.(table := s.table[j := r]), t, h);
          } else {
            HandlingChangeKeepsJobs(c, s, t, h);
          }
        case None =>
          LockingKeepsJobs(c, s, h, j);
      }
    }
  }

  // Releasing a row lock without touching the row: rollback.
  lemma ReleaseKeepsJobs(c: Config, s: State, h: nat)
    requires JobsOk(c, s) && h in s.handlings
    ensures JobsOk(c, DoCancel(s, h))
  {
  }

  lemma FinishKeepsJobs(c: Config, s: State, h: nat, j: nat, work: Work, committed: bool)
    requires JobsOk(c, s) && h in s.handlings && s.handlings[h].phase.Open? && s.handlings[h].phase.job == j
        && !work.Cancelled?
    ensures JobsOk(c, DoFinish(c, s, h, j, work, committed))
  {
    var released := DoCancel(s, h);
    ReleaseKeepsJobs(c, s, h);
    if committed {
      var r := Finished(s.handlings[h].phase.row, work, c.limit, s.clock);
      RowChangeKeepsJobs(c, released, j, r);
      HandlingChangeKeepsJobs(c, released.(table := s.table[j := r]), DoFinish(c, s, h, j, work, committed), h);
    }
  }

  lemma CrashKeepsJobs(c: Config, s: State, w: nat)
    requires JobsOk(c, s)
    ensures JobsOk(c, DoCrash(s, w))
  {
  }

  lemma ReceiveKeepsJobs(c: Config, s: State, m: nat, w: nat, stream: Stream)
    requires JobsOk(c, s) && s.next !in s.handlings && m < |stream.log|
    ensures JobsOk(c, DoReceive(s, m, w, stream))
  {
    HandlingChangeKeepsJobs(c, s, DoReceive(s, m, w, stream), s.next);
  }

  // Steps after the body, or of bodies that are not index jobs.
  lemma ReplyKeepsJobs(c: Config, s: State, a: WorkerAction)
    requires JobsOk(c, s) && WorkerEnabled(c, s, a) && (a.Skip? || a.RunOther? || a.Retry? || a.LogFailure? || a.Ack?)
    ensures JobsOk(c, WorkerNext(c, s, a))
  {
    HandlingChangeKeepsJobs(c, s, WorkerNext(c, s, a), a.h);
  }

  lemma WorkerKeepsJobs(c: Config, s: State, a: WorkerAction)
    requires JobsOk(c, s) && HandlingsOk(s) && WorkerEnabled(c, s, a)
    ensures JobsOk(c, WorkerNext(c, s, a))
  {
    assert s.next !in s.handlings;
    match a {
      case Deliver(w) => ReceiveKeepsJobs(c, s, s.stream.cursor, w, XRead(s.stream, w, s.clock));
      case Reclaim(w, m) => ReceiveKeepsJobs(c, s, m, w, XClaim(s.stream, m, w, s.clock));
      case Begin(h, version, committed) => BeginKeepsJobs(c, s, h, Job(s, h).target, version, committed);
      case Finish(h, j, work, committed) => FinishKeepsJobs(c, s, h, j, work, committed);
      case Cancel(h) => ReleaseKeepsJobs(c, s, h);
      case Crash(w) => CrashKeepsJobs(c, s, w);
      case _ => ReplyKeepsJobs(c, s, a);
    }
  }

  lemma StepKeepsJobs(c: Config, s: State, a: Action)
    requires JobsOk(c, s) && HandlingsOk(s) && Enabled(c, s, a) && c.limit >= 1
    ensures JobsOk(c, Next(c, s, a))
  {
    hide WorkerNext, WorkerEnabled;
    match a {
      case Client(CreateJob(j, version)) => RowChangeKeepsJobs(c, s, j, NewRow(version));
      case Dispatcher(ClaimJobs(js)) => ClaimKeepsJobs(c, s, js);
      case Dispatcher(Compensate(j)) =>
        if j in s.table && s.table[j].status.Queued? {
          RowChangeKeepsJobs(c, s, j, s.table[j].(status := Pending, queuedAt := None));
        }
      case Worker(x) => WorkerKeepsJobs(c, s, x);
      case _ =>
    }
  }

  // ---- the stream ----

  lemma AppendKeepsStream(c: Config, s: State, e: Entry)
    requires StreamOk(c, s) && (e.Msg? ==> e.id == |s.stream.log| && e.attempt <= Max(0, c.maxRetries))
    ensures StreamOk(c, s.(stream := XAdd(s.stream, e)))
  {
    CommandsKeepWellFormed(s.stream, e, 0, 0, 0, "");
  }

  // A delivery or an acknowledgement leaves the log alone.
  lemma SameLogKeepsStream(c: Config, s: State, t: State)
    requires StreamOk(c, s) && WellFormed(t.stream) && t.stream.log == s.stream.log && t.retries == s.retries
    ensures StreamOk(c, t)
  {
  }

  lemma ReceiveKeepsStream(c: Config, s: State, m: nat, w: nat, stream: Stream)
    requires StreamOk(c, s) && WellFormed(stream) && stream.log == s.stream.log && m < |stream.log|
    ensures StreamOk(c, DoReceive(s, m, w, stream))
  {
    CommandsKeepWellFormed(stream, Malformed, m, w, 0, "");
    SameLogKeepsStream(c, s, DoReceive(s, m, w, stream));
  }

  lemma RetryKeepsStream(c: Config, s: State, h: nat)
    requires StreamOk(c, s) && WorkerEnabled(c, s, Retry(h))
    ensures StreamOk(c, DoRetry(s, h))
  {
    AppendKeepsStream(c, s, Successor(Job(s, h), |s.stream.log|));
  }

  lemma WorkerKeepsStream(c: Config, s: State, a: WorkerAction)
    requires StreamOk(c, s) && WorkerEnabled(c, s, a)
    ensures StreamOk(c, WorkerNext(c, s, a))
  {
    match a {
      case Deliver(w) =>
        CommandsKeepWellFormed(s.stream, Malformed, 0, w, s.clock, "");
        ReceiveKeepsStream(c, s, s.stream.cursor, w, XRead(s.stream, w, s.clock));
      case Reclaim(w, m) =>
        CommandsKeepWellFormed(s.stream, Malformed, m, w, s.clock, "");
        ReceiveKeepsStream(c, s, m, w, XClaim(s.stream, m, w, s.clock));
      case Retry(h) =>
        RetryKeepsStream(c, s, h);
      case LogFailure(h, error) =>
        CommandsKeepWellFormed(s.stream, Malformed, Job(s, h).id, 0, 0, Cut(error));
        SameLogKeepsStream(c, s, WorkerNext(c, s, a));
      case Ack(h, _) =>
        CommandsKeepWellFormed(s.stream, Malformed, s.handlings[h].msg, 0, 0, "");
        SameLogKeepsStream(c, s, WorkerNext(c, s, a));
      case _ =>
        BodyKeepsStream(c, s, a);
    }
  }

  lemma BodyKeepsStream(c: Config, s: State, a: WorkerAction)
    requires WorkerEnabled(c, s, a) && (a.Begin? || a.Skip? || a.Finish? || a.Cancel? || a.RunOther? || a.Crash?)
    ensures var t := WorkerNext(c, s, a); t.stream == s.stream && t.next == s.next && t.retries == s.retries
  {
  }

  lemma StepKeepsStream(c: Config, s: State, a: Action)
    requires StreamOk(c, s) && Enabled(c, s, a)
    ensures StreamOk(c, Next(c, s, a))
  {
    match a {
      case Client(Submit(jobType, j)) => AppendKeepsStream(c, s, Msg(|s.stream.log|, jobType, j, 0));
      case Client(SubmitMalformed) => AppendKeepsStream(c, s, Malformed);
      case Dispatcher(Publish(j, _, _)) => AppendKeepsStream(c, s, Msg(|s.stream.log|, IndexDocument, j, 0));
      case Worker(x) => WorkerKeepsStream(c, s, x);
      case _ =>
    }
  }

  // ---- handlings and acknowledgements ----

  // The handling a worker's action is about.
  function Touched(s: State, a: WorkerAction): nat {
    if a.Deliver? || a.Reclaim? || a.Crash? then s.next else a.h
  }

  predicate SameHandling(s: State, t: State, h: nat) {
    && (h in t.handlings <==> h in s.handlings)
    && (h in s.handlings && h in t.handlings ==> t.handlings[h] == s.handlings[h])
  }

  lemma ExecutionTouchesOne(c: Config, s: State, a: WorkerAction, h: nat)
    requires WorkerEnabled(c, s, a) && (a.Begin? || a.Finish? || a.Cancel?) && h != a.h
    ensures SameHandling(s, WorkerNext(c, s, a), h)
  {
    hide Settled, Finished, Started, EarlyReturn, CanRetry, Claimable, DoReceive, DoAck, DoCrash, DoRetry;
  }

  lemma OthersStay(c: Config, s: State, a: WorkerAction, h: nat)
    requires WorkerEnabled(c, s, a) && h in WorkerNext(c, s, a).handlings && h != Touched(s, a)
    ensures h in s.handlings && WorkerNext(c, s, a).handlings[h] == s.handlings[h]
  {
    hide DoBegin, DoFinish, DoCancel, CanRetry, Claimable, XAck, XRead, XClaim, XAdd, XAddFailure;
    if a.Begin? || a.Finish? || a.Cancel? {
      ExecutionTouchesOne(c, s, a, h);
    }
  }

  lemma ReceivedHandling(c: Config, s: State, a: WorkerAction)
    requires HandlingsOk(s) && WellFormed(s.stream) && WorkerEnabled(c, s, a) && (a.Deliver? || a.Reclaim?)
    requires s.next in WorkerNext(c, s, a).handlings
    ensures HandlingOk(WorkerNext(c, s, a), s.next)
  {
  }

  lemma AnsweredHandling(c: Config, s: State, a: WorkerAction)
    requires HandlingsOk(s) && WorkerEnabled(c, s, a) && (a.Retry? || a.LogFailure?)
    ensures HandlingOk(WorkerNext(c, s, a), a.h)
  {
    var t := WorkerNext(c, s, a);
    var m := s.handlings[a.h].msg;
    if a.Retry? {
      assert t.retries[|s.retries|].message == m;
    } else {
      assert t.stream.failures[|s.stream.failures|].jobId == t.stream.log[m].id;
    }
  }

  lemma AckedHandling(c: Config, s: State, a: WorkerAction)
    requires HandlingsOk(s) && WorkerEnabled(c, s, a) && a.Ack? && a.h in WorkerNext(c, s, a).handlings
    ensures HandlingOk(WorkerNext(c, s, a), a.h)
  {
    hide OwnSuccessor, HasFailure, WellFormed, DoReceive, DoBegin, DoFinish, DoCancel, DoCrash;
  }

  lemma TouchedHandling(c: Config, s: State, a: WorkerAction)
    requires HandlingsOk(s) && WellFormed(s.stream) && WorkerEnabled(c, s, a)
    requires Touched(s, a) in WorkerNext(c, s, a).handlings
    ensures HandlingOk(WorkerNext(c, s, a), Touched(s, a))
  {
    hide OwnSuccessor, HasFailure, WellFormed;
    if a.Deliver? || a.Reclaim? {
      ReceivedHandling(c, s, a);
    } else if a.Retry? || a.LogFailure? {
      AnsweredHandling(c, s, a);
    } else if a.Ack? {
      AckedHandling(c, s, a);
    } else {
      BodyKeepsStream(c, s, a);
    }
  }

  lemma StepKeepsHandlings(c: Config, s: State, a: Action)
    requires HandlingsOk(s) && WellFormed(s.stream) && Enabled(c, s, a)
    ensures HandlingsOk(Next(c, s, a))
  {
    var t := Next(c, s, a);
    StepOnlyAppends(c, s, a);
    forall h | h in t.handlings
      ensures HandlingOk(t, h)
    {
      if a.Worker? && h == Touched(s, a.worker) {
        TouchedHandling(c, s, a.worker);
      } else {
        if a.Worker? {
          OthersStay(c, s, a.worker, h);
          WorkerOnlyAppends(c, s, a.worker);
        }
        JustificationIsStable(s, t, s.handlings[h].msg);
      }
    }
  }

  lemma NewAcksAreJustified(c: Config, s: State, a: WorkerAction, m: nat)
    requires HandlingsOk(s) && WellFormed(s.stream) && WorkerEnabled(c, s, a)
    requires m in WorkerNext(c, s, a).stream.acked && m !in s.stream.acked
    ensures Justified(WorkerNext(c, s, a), m)
  {
    hide OwnSuccessor, HasFailure, Settled, Finished, Started, EarlyReturn, CanRetry;
    WorkerOnlyAppends(c, s, a);
    if a.Ack? {
      JustificationIsStable(s, WorkerNext(c, s, a), s.handlings[a.h].msg);
    }
  }

  lemma StepKeepsJustification(c: Config, s: State, a: Action)
    requires HandlingsOk(s) && WellFormed(s.stream) && AcksJustified(s) && Enabled(c, s, a)
    ensures AcksJustified(Next(c, s, a))
  {
    var t := Next(c, s, a);
    StepOnlyAppends(c, s, a);
    forall m | m in t.stream.acked
      ensures Justified(t, m)
    {
      if m in s.stream.acked {
        JustificationIsStable(s, t, m);
      } else {
        NewAcksAreJustified(c, s, a.worker, m);
      }
    }
  }

  lemma StepKeepsInv(c: Config, s: State, a: Action)
    requires Inv(c, s) && Enabled(c, s, a) && c.limit >= 1
    ensures Inv(c, Next(c, s, a))
  {
    StepKeepsJobs(c, s, a);
    StepKeepsStream(c, s, a);
    StepKeepsHandlings(c, s, a);
    StepKeepsJustification(c, s, a);
  }

  lemma {:induction false} RunKeepsInv(c: Config, s: State, acts: seq<Action>)
    requires Inv(c, s) && c.limit >= 1 && Run(c, s, acts).Some?
    ensures Inv(c, Run(c, s, acts).value)
    decreases |acts|
  {
    if acts != [] {
      StepKeepsInv(c, s, acts[0]);
      RunKeepsInv(c, Next(c, s, acts[0]), acts[1..]);
    }
  }
}
