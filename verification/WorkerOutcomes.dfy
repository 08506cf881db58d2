/** What single steps of a worker do to a row and to a message, written out, and what follows from it
    over every run: which executions complete a job, which messages are retried, and which count as
    returned. From incidentops/worker/jobs.py and incidentops/worker/main.py. */
module WorkerOutcomes {
  import opened Prelude
  import opened IndexJobs
  import opened JobStream
  import opened WorkerProtocol
  import opened WorkerGuarantees

  // ---- one execution ----

  /** The start of an execution: a row that is gone, locked, completed or stale is left alone, an
      exhausted one fails, one of another version becomes stale, and any other is locked and run. */
  lemma BeginOutcome(c: Config, s: State, h: nat, version: nat)
    requires Inv(c, s) && WorkerEnabled(c, s, Begin(h, version, true))
    ensures var j, t := Job(s, h).target, WorkerNext(c, s, Begin(h, version, true));
            && h in t.handlings
            && (if j !in s.table || j in s.locks || s.table[j].status in {Completed, Stale}
                then t.table == s.table && t.locks == s.locks && t.handlings[h].phase == BodyReturned
                else if s.table[j].attempts >= c.limit
                then j in t.table && t.table[j].status == Failed && t.locks == s.locks
                  && t.handlings[h].phase == BodyReturned
                else if s.table[j].version != version
                then j in t.table && t.table[j].status == Stale && t.locks == s.locks
                  && t.handlings[h].phase == BodyReturned
                else t.table == s.table && t.locks == s.locks[j := h] && t.handlings[h].phase.Open?)
  {
    hide HandlingsOk, StreamOk, AcksJustified, LocksOk, RunnableWhenOpen, DoFinish, DoReceive, DoAck, DoCrash, DoRetry;
  }

  /** The end of an open execution. A committed result without errors completes the row, one with errors
      fails it under the first error; an exception puts it back to pending while attempts are left and
      fails it otherwise, and its message still needs an answer; without a commit the row is as before. */
  lemma FinishOutcome(c: Config, s: State, h: nat, j: nat, work: Work, committed: bool)
    requires Inv(c, s) && WorkerEnabled(c, s, Finish(h, j, work, committed))
    ensures var t := WorkerNext(c, s, Finish(h, j, work, committed));
            && j in s.table && j in t.table && j !in t.locks && h in t.handlings
            && (if !committed then t.table == s.table && t.handlings[h].phase == BodyRaised
                else
                  && t.table[j].attempts == s.table[j].attempts + 1
                  && (match work
                      case Indexed(errors) =>
                        && t.handlings[h].phase == BodyReturned
                        && (if errors == [] then t.table[j].status == Completed && t.table[j].errorCode == None
                            else t.table[j].status == Failed && t.table[j].errorCode == Some(errors[0]))
                      case Raised(error) =>
                        && t.handlings[h].phase == BodyRaised
                        && t.table[j].status == if t.table[j].attempts < c.limit then Pending else Failed))
  {
    hide HandlingsOk, StreamOk, AcksJustified, DoBegin, DoReceive, DoAck, DoCrash, DoRetry;
  }

  // ---- completed jobs ----

  predicate IsCompleted(s: State, j: nat) {
    j in s.table && s.table[j].status.Completed?
  }

  // The step commits an execution of j whose batch result has no error.
  predicate CompletesJob(a: Action, j: nat) {
    a.Worker? && a.worker.Finish? && a.worker.j == j && a.worker.committed && a.worker.work == Indexed([])
  }

  lemma FinishCompletesIff(c: Config, s: State, h: nat, i: nat, work: Work, committed: bool, j: nat)
    requires Inv(c, s) && WorkerEnabled(c, s, Finish(h, i, work, committed)) && !IsCompleted(s, j)
    ensures IsCompleted(WorkerNext(c, s, Finish(h, i, work, committed)), j)
            <==> CompletesJob(Worker(Finish(h, i, work, committed)), j)
  {
    hide Inv, Finished, Settled, Started, DoReceive, DoBegin, DoAck, DoCrash, DoRetry;
    FinishOutcome(c, s, h, i, work, committed);
  }

  lemma OtherStepsCompleteNothing(c: Config, s: State, a: WorkerAction, j: nat)
    requires WorkerEnabled(c, s, a) && !a.Finish? && !IsCompleted(s, j)
    ensures !IsCompleted(WorkerNext(c, s, a), j)
  {
    hide DoFinish, Finished, Started, XAck, XRead, XClaim, XAdd, XAddFailure, CanRetry, Claimable;
  }

  lemma DispatchCompletesNothing(c: Config, s: State, a: DispatchAction, j: nat)
    requires DispatchEnabled(c, s, a) && !IsCompleted(s, j)
    ensures !IsCompleted(DispatchNext(s, a), j)
  {
    hide XAdd, Eligible;
  }

  lemma StepCompletesIff(c: Config, s: State, a: Action, j: nat)
    requires Inv(c, s) && Enabled(c, s, a)
    ensures IsCompleted(Next(c, s, a), j) <==> IsCompleted(s, j) || CompletesJob(a, j)
  {
    if IsCompleted(s, j) {
      StepKeepsSettled(c, s, a, j, s.table[j]);
    } else {
      hide Inv, WorkerNext, WorkerEnabled, DispatchNext, DispatchEnabled;
      match a {
        case Client(_) =>
        case Dispatcher(x) => DispatchCompletesNothing(c, s, x, j);
        case Worker(x) =>
          if x.Finish? {
            FinishCompletesIff(c, s, x.h, x.j, x.work, x.committed, j);
          } else {
            OtherStepsCompleteNothing(c, s, x, j);
          }
      }
    }
  }

  predicate SomeCompletes(acts: seq<Action>, j: nat) {
    exists i :: 0 <= i < |acts| && CompletesJob(acts[i], j)
  }

  lemma {:induction false} RunCompletesIff(c: Config, s: State, acts: seq<Action>, j: nat)
    requires Inv(c, s) && c.limit >= 1 && Run(c, s, acts).Some?
    ensures IsCompleted(Run(c, s, acts).value, j) <==> IsCompleted(s, j) || SomeCompletes(acts, j)
    decreases |acts|
  {
    if acts != [] {
      hide Inv, IsCompleted, CompletesJob, Next, Enabled;
      StepCompletesIff(c, s, acts[0], j);
      StepKeepsInv(c, s, acts[0]);
      RunCompletesIff(c, Next(c, s, acts[0]), acts[1..], j);
      SomeOfRest(acts, j);
    }
  }

  lemma SomeOfRest(acts: seq<Action>, j: nat)
    requires acts != []
    ensures SomeCompletes(acts, j) <==> CompletesJob(acts[0], j) || SomeCompletes(acts[1..], j)
  {
    hide CompletesJob;
    if SomeCompletes(acts[1..], j) {
      var i :| 0 <= i < |acts[1..]| && CompletesJob(acts[1..][i], j);
      assert CompletesJob(acts[i + 1], j);
    }
    if i :| 0 < i < |acts| && CompletesJob(acts[i], j) {
      assert CompletesJob(acts[1..][i - 1], j);
    }
  }

  /** In every run a job is completed if and only if some execution of it committed a batch result
      without errors. */
  lemma CompletedIffIndexedWithoutErrors(c: Config, acts: seq<Action>, j: nat)
    requires c.limit >= 1 && Run(c, INITIAL, acts).Some?
    ensures IsCompleted(Run(c, INITIAL, acts).value, j) <==> SomeCompletes(acts, j)
  {
    InitialInv(c);
    RunCompletesIff(c, INITIAL, acts, j);
  }

  // ---- retries and failure records ----

  predicate IsRetryType(t: JobType) {
    t in {IndexDocument, EvaluatorAgent, ObserverAgent, AggregateEvents}
  }

  // Failure record i is of a message that was not to be retried any more.
  predicate FailureOk(c: Config, s: State, i: nat) {
    i < |s.stream.failures| ==>
      var m := s.stream.failures[i].jobId;
      && m < |s.stream.log| && s.stream.log[m].Msg?
      && (IsRetryType(s.stream.log[m].jobType) ==> s.stream.log[m].attempt >= c.maxRetries)
  }

  // Only messages of the retryable types carry an attempt.
  predicate AttemptOk(s: State, m: nat) {
    m < |s.stream.log| && s.stream.log[m].Msg? && !IsRetryType(s.stream.log[m].jobType) ==> s.stream.log[m].attempt == 0
  }

  ghost predicate PolicyOk(c: Config, s: State) {
    (forall i: nat :: FailureOk(c, s, i)) && (forall m: nat :: AttemptOk(s, m))
  }

  lemma SameLogKeepsPolicy(c: Config, s: State, t: State)
    requires PolicyOk(c, s) && t.stream.log == s.stream.log && t.stream.failures == s.stream.failures
    ensures PolicyOk(c, t)
  {
    forall i: nat
      ensures FailureOk(c, t, i) && AttemptOk(t, i)
    {
      assert FailureOk(c, s, i) && AttemptOk(s, i);
    }
  }

  lemma AppendKeepsPolicy(c: Config, s: State, t: State, e: Entry)
    requires PolicyOk(c, s) && t.stream.log == s.stream.log + [e] && t.stream.failures == s.stream.failures
    requires e.Msg? && !IsRetryType(e.jobType) ==> e.attempt == 0
    ensures PolicyOk(c, t)
  {
    hide IsRetryType;
    forall i: nat
      ensures FailureOk(c, t, i) && AttemptOk(t, i)
    {
      assert FailureOk(c, s, i) && AttemptOk(s, i);
    }
  }

  lemma RecordKeepsPolicy(c: Config, s: State, h: nat, error: string)
    requires PolicyOk(c, s) && StreamOk(c, s) && WorkerEnabled(c, s, LogFailure(h, error))
    ensures PolicyOk(c, WorkerNext(c, s, LogFailure(h, error)))
  {
    var t := WorkerNext(c, s, LogFailure(h, error));
    forall i: nat
      ensures FailureOk(c, t, i) && AttemptOk(t, i)
    {
      assert FailureOk(c, s, i) && AttemptOk(s, i);
    }
  }

  lemma RetryKeepsPolicy(c: Config, s: State, h: nat)
    requires PolicyOk(c, s) && WorkerEnabled(c, s, Retry(h))
    ensures PolicyOk(c, WorkerNext(c, s, Retry(h)))
  {
    AppendKeepsPolicy(c, s, WorkerNext(c, s, Retry(h)), Successor(Job(s, h), |s.stream.log|));
  }

  lemma OtherWorkersKeepStream(c: Config, s: State, a: WorkerAction)
    requires WorkerEnabled(c, s, a) && !a.Retry? && !a.LogFailure?
    ensures var t := WorkerNext(c, s, a); t.stream.log == s.stream.log && t.stream.failures == s.stream.failures
  {
    hide DoBegin, DoFinish, DoCancel, CanRetry, Claimable;
    match a {
      case Begin(h, version, committed) => BeginOnlyAppends(c, s, h, Job(s, h).target, version, committed);
      case Finish(h, j, work, committed) => FinishOnlyAppends(c, s, h, j, work, committed);
      case Cancel(h) => CancelOnlyAppends(s, h);
      case _ =>
    }
  }

  lemma StepKeepsPolicy(c: Config, s: State, a: Action)
    requires PolicyOk(c, s) && StreamOk(c, s) && Enabled(c, s, a)
    ensures PolicyOk(c, Next(c, s, a))
  {
    hide PolicyOk, StreamOk, WorkerNext, WorkerEnabled, DispatchEnabled, Claimed, Compensated, IsRetryType;
    var t := Next(c, s, a);
    match a {
      case Client(Submit(jobType, target)) => AppendKeepsPolicy(c, s, t, Msg(|s.stream.log|, jobType, target, 0));
      case Client(SubmitMalformed) => AppendKeepsPolicy(c, s, t, Malformed);
      case Dispatcher(Publish(j, appended, _)) =>
        if appended {
          AppendKeepsPolicy(c, s, t, Msg(|s.stream.log|, IndexDocument, j, 0));
        } else {
          SameLogKeepsPolicy(c, s, t);
        }
      case Worker(Retry(h)) => RetryKeepsPolicy(c, s, h);
      case Worker(LogFailure(h, error)) => RecordKeepsPolicy(c, s, h, error);
      case Worker(x) =>
        OtherWorkersKeepStream(c, s, x);
        SameLogKeepsPolicy(c, s, t);
      case _ => SameLogKeepsPolicy(c, s, t);
    }
  }

  lemma {:induction false} RunKeepsPolicy(c: Config, s: State, acts: seq<Action>)
    requires PolicyOk(c, s) && Inv(c, s) && c.limit >= 1 && Run(c, s, acts).Some?
    ensures PolicyOk(c, Run(c, s, acts).value)
    decreases |acts|
  {
    if acts != [] {
      hide PolicyOk, Next, Enabled;
      StepKeepsPolicy(c, s, acts[0]);
      StepKeepsInv(c, s, acts[0]);
      RunKeepsPolicy(c, Next(c, s, acts[0]), acts[1..]);
    }
  }

  /** In every run, a message of a retryable type (index document, evaluator, observer, event
      aggregation) gets a failure record only when its attempts have reached the retry limit, and a
      workflow or evaluation message is never a retry. */
  lemma OnlyExhaustedOrUnretryableMessagesFail(c: Config, acts: seq<Action>)
    requires c.limit >= 1 && Run(c, INITIAL, acts).Some?
    ensures var s := Run(c, INITIAL, acts).value;
            && (forall i | 0 <= i < |s.stream.failures| ::
                  var m := s.stream.failures[i].jobId;
                  && m < |s.stream.log| && s.stream.log[m].Msg?
                  && (s.stream.log[m].jobType in {IndexDocument, EvaluatorAgent, ObserverAgent, AggregateEvents}
                      ==> s.stream.log[m].attempt >= c.maxRetries))
            && (forall m | 0 <= m < |s.stream.log| && s.stream.log[m].Msg? ::
                  s.stream.log[m].jobType in {WorkflowRun, EvalRun} ==> s.stream.log[m].attempt == 0)
  {
    InitialInv(c);
    assert PolicyOk(c, INITIAL);
    RunKeepsPolicy(c, INITIAL, acts);
    var s := Run(c, INITIAL, acts).value;
    hide Run;
    forall i | 0 <= i < |s.stream.failures|
      ensures var m := s.stream.failures[i].jobId;
              && m < |s.stream.log| && s.stream.log[m].Msg?
              && (s.stream.log[m].jobType in {IndexDocument, EvaluatorAgent, ObserverAgent, AggregateEvents}
                  ==> s.stream.log[m].attempt >= c.maxRetries)
    {
      assert FailureOk(c, s, i);
    }
    forall m | 0 <= m < |s.stream.log| && s.stream.log[m].Msg?
      ensures s.stream.log[m].jobType in {WorkflowRun, EvalRun} ==> s.stream.log[m].attempt == 0
    {
      assert AttemptOk(s, m);
    }
  }

  /** A raised message below the limit can be answered by its retry and not by a failure record if its
      type is retryable, and the other way round otherwise. */
  lemma RaisedMessageIsRetriedIff(c: Config, s: State, h: nat, error: string)
    requires Holds(s, h) && s.handlings[h].phase.BodyRaised?
    ensures var e := Job(s, h);
            var retry := e.jobType in {IndexDocument, EvaluatorAgent, ObserverAgent, AggregateEvents}
              && e.attempt < c.maxRetries;
            && (WorkerEnabled(c, s, Retry(h)) <==> retry)
            && (WorkerEnabled(c, s, LogFailure(h, error)) <==> !retry)
            && (retry ==> WorkerNext(c, s, Retry(h)).stream.log
                          == s.stream.log + [Msg(|s.stream.log|, e.jobType, e.target, e.attempt + 1)])
  {
  }

  // ---- messages that count as returned ----

  // The step ends the body of handling h without an exception.
  predicate BodyEndsWell(a: Action, h: nat) {
    && a.Worker?
    && (match a.worker
        case Skip(k) => k == h
        case RunOther(k, ok) => k == h && ok
        case Begin(k, _, _) => k == h
        case Finish(k, _, work, committed) => k == h && work.Indexed? && committed
        case _ => false)
  }

  /** Only a body that ends without an exception makes its message count as returned: no timeout, crash,
      rollback or raised error does, so none of them alone justifies an acknowledgement. */
  lemma ReturnedOnlyByReturning(c: Config, s: State, a: Action, m: nat)
    requires Enabled(c, s, a) && m !in s.returned && m in Next(c, s, a).returned
    ensures exists h :: h in s.handlings && s.handlings[h].msg == m && BodyEndsWell(a, h)
  {
    assert a.Worker?;
    ReturnedByWorker(c, s, a.worker, m);
  }

  lemma ReturnedByWorker(c: Config, s: State, a: WorkerAction, m: nat)
    requires WorkerEnabled(c, s, a) && m !in s.returned && m in WorkerNext(c, s, a).returned
    ensures exists h :: h in s.handlings && s.handlings[h].msg == m && BodyEndsWell(Worker(a), h)
  {
    hide Settled, Finished, Started, EarlyReturn, XAck, XRead, XClaim, XAdd, XAddFailure, CanRetry, Claimable;
    assert a.Skip? || a.RunOther? || a.Begin? || a.Finish?;
    assert a.h in s.handlings && s.handlings[a.h].msg == m && BodyEndsWell(Worker(a), a.h);
  }
}
