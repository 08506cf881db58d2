/** What every run of the worker protocol guarantees, and what it always allows. */
module WorkerGuarantees {
  import opened Prelude
  import opened IndexJobs
  import opened JobStream
  import opened WorkerProtocol

  /** At most one execution of a job is open at a time, over any run. */
  lemma AtMostOneOpenExecution(c: Config, acts: seq<Action>, h: nat, k: nat)
    requires c.limit >= 1 && Run(c, INITIAL, acts).Some?
    ensures var s := Run(c, INITIAL, acts).value;
            && h in s.handlings && k in s.handlings && s.handlings[h].phase.Open? && s.handlings[k].phase.Open?
            && s.handlings[h].phase.job == s.handlings[k].phase.job
            ==> h == k
  {
    InitialInv(c);
    RunKeepsInv(c, INITIAL, acts);
  }

  /** "running" is never committed and no attempt count passes the limit. */
  lemma CommittedRowsAreWellFormed(c: Config, acts: seq<Action>, j: nat)
    requires c.limit >= 1 && Run(c, INITIAL, acts).Some?
    ensures var s := Run(c, INITIAL, acts).value;
            j in s.table ==> !s.table[j].status.Running? && s.table[j].attempts <= c.limit
  {
    InitialInv(c);
    RunKeepsInv(c, INITIAL, acts);
  }

  // ---- attempts count committed executions ----

  predicate CommitsExecution(a: Action, j: nat) {
    a.Worker? && a.worker.Finish? && a.worker.j == j && a.worker.committed
  }

  function Commits(acts: seq<Action>, j: nat): nat {
    if acts == [] then 0 else (if CommitsExecution(acts[0], j) then 1 else 0) + Commits(acts[1..], j)
  }

  function Attempts(s: State, j: nat): nat {
    if j in s.table then s.table[j].attempts else 0
  }

  lemma WorkerStepAttempts(c: Config, s: State, a: WorkerAction, j: nat)
    requires Inv(c, s) && WorkerEnabled(c, s, a)
    ensures Attempts(WorkerNext(c, s, a), j) == Attempts(s, j) + (if CommitsExecution(Worker(a), j) then 1 else 0)
  {
    hide HandlingsOk, StreamOk, AcksJustified, XAck, XRead, XClaim, XAdd, XAddFailure, CanRetry, Claimable;
  }

  lemma DispatchStepAttempts(c: Config, s: State, a: DispatchAction, j: nat)
    requires DispatchEnabled(c, s, a)
    ensures Attempts(DispatchNext(s, a), j) == Attempts(s, j)
  {
  }

  lemma StepAttempts(c: Config, s: State, a: Action, j: nat)
    requires Inv(c, s) && Enabled(c, s, a)
    ensures Attempts(Next(c, s, a), j) == Attempts(s, j) + (if CommitsExecution(a, j) then 1 else 0)
  {
    match a {
      case Client(_) =>
      case Dispatcher(x) => DispatchStepAttempts(c, s, x, j);
      case Worker(x) => WorkerStepAttempts(c, s, x, j);
    }
  }

  lemma {:induction false} RunAttempts(c: Config, s: State, acts: seq<Action>, j: nat)
    requires Inv(c, s) && c.limit >= 1 && Run(c, s, acts).Some?
    ensures Attempts(Run(c, s, acts).value, j) == Attempts(s, j) + Commits(acts, j)
    decreases |acts|
  {
    if acts != [] {
      StepAttempts(c, s, acts[0], j);
      StepKeepsInv(c, s, acts[0]);
      RunAttempts(c, Next(c, s, acts[0]), acts[1..], j);
    }
  }

  /** In every run the attempts of a job are the number of its executions that passed the
      guards and committed, so no job has more than `limit` committed executions. */
  lemma AttemptsCountCommittedExecutions(c: Config, acts: seq<Action>, j: nat)
    requires c.limit >= 1 && Run(c, INITIAL, acts).Some?
    ensures Attempts(Run(c, INITIAL, acts).value, j) == Commits(acts, j) <= c.limit
  {
    InitialInv(c);
    RunKeepsInv(c, INITIAL, acts);
    RunAttempts(c, INITIAL, acts, j);
  }

  lemma {:induction false} RunAppend(c: Config, s: State, a: seq<Action>, b: seq<Action>)
    requires Run(c, s, a).Some?
    ensures Run(c, s, a + b) == Run(c, Run(c, s, a).value, b)
    decreases |a|
  {
    if a == [] {
      assert a + b == b;
    } else {
      assert (a + b)[1..] == a[1..] + b;
      RunAppend(c, Next(c, s, a[0]), a[1..], b);
    }
  }

  lemma RunOne(c: Config, s: State, a: Action)
    requires Enabled(c, s, a)
    ensures Run(c, s, [a]) == Some(Next(c, s, a))
  {
    assert [a][1..] == [];
    assert Run(c, Next(c, s, a), []) == Some(Next(c, s, a));
  }

  lemma RunThen(c: Config, s: State, acts: seq<Action>, a: Action)
    requires Run(c, s, acts).Some? && Enabled(c, Run(c, s, acts).value, a)
    ensures Run(c, s, acts + [a]) == Some(Next(c, Run(c, s, acts).value, a))
  {
    RunAppend(c, s, acts, [a]);
    RunOne(c, Run(c, s, acts).value, a);
  }

  // None of the steps ends handling h of worker w: others may do anything.
  predicate LeavesOpen(acts: seq<Action>, h: nat, w: nat) {
    forall i | 0 <= i < |acts| :: !Ends(acts[i], h, w)
  }

  predicate Ends(a: Action, h: nat, w: nat) {
    a.Worker? && ((a.worker.Finish? && a.worker.h == h) || a.worker == Cancel(h) || a.worker == Crash(w))
  }

  // While an execution is open, nobody else touches its row or its handling.
  lemma ExecutionKeepsLockedRow(c: Config, s: State, a: WorkerAction, j: nat)
    requires LocksOk(s) && WorkerEnabled(c, s, a) && j in s.locks && j in s.table
    requires a.Begin? || (a.Finish? && a.h != s.locks[j]) || a.Cancel?
    ensures j in WorkerNext(c, s, a).table && WorkerNext(c, s, a).table[j] == s.table[j]
  {
    hide Settled, Finished, Started, EarlyReturn, CanRetry, Claimable, DoReceive, DoAck, DoCrash, DoRetry;
  }

  lemma WorkerKeepsOpen(c: Config, s: State, a: WorkerAction, h: nat)
    requires JobsOk(c, s) && HandlingsOk(s) && WorkerEnabled(c, s, a) && h in s.handlings && s.handlings[h].phase.Open?
    requires !Ends(Worker(a), h, s.handlings[h].worker)
    ensures var t, j := WorkerNext(c, s, a), s.handlings[h].phase.job;
            && h in t.handlings && t.handlings[h] == s.handlings[h]
            && j in s.table && j in t.table && t.table[j] == s.table[j]
  {
    hide DoBegin, DoFinish, DoCancel, Started, XAck, XRead, XClaim, XAdd, XAddFailure, CanRetry, Claimable, RowOk;
    assert HandlingOk(s, h);
    if a.Begin? || a.Finish? || a.Cancel? {
      ExecutionTouchesOne(c, s, a, h);
      ExecutionKeepsLockedRow(c, s, a, s.handlings[h].phase.job);
    }
  }

  lemma DispatchKeepsLockedRow(c: Config, s: State, a: DispatchAction, j: nat)
    requires DispatchEnabled(c, s, a) && j in s.locks && j in s.table
    ensures var t := DispatchNext(s, a); t.handlings == s.handlings && j in t.table && t.table[j] == s.table[j]
  {
    hide *;
    match a {
      case ClaimJobs(js) => ClaimSkipsLocked(c, s, js, j);
      case Compensate(k) => CompensationSkipsLocked(c, s, k, j);
      case _ => PublicationKeepsTable(s, a);
    }
  }

  lemma ClaimSkipsLocked(c: Config, s: State, js: set<nat>, j: nat)
    requires DispatchEnabled(c, s, ClaimJobs(js)) && j in s.locks && j in s.table
    ensures var t := DispatchNext(s, ClaimJobs(js));
            t.handlings == s.handlings && j in t.table && t.table[j] == s.table[j]
  {
  }

  lemma CompensationSkipsLocked(c: Config, s: State, k: nat, j: nat)
    requires DispatchEnabled(c, s, Compensate(k)) && j in s.locks && j in s.table
    ensures var t := DispatchNext(s, Compensate(k));
            t.handlings == s.handlings && j in t.table && t.table[j] == s.table[j]
  {
  }

  lemma PublicationKeepsTable(s: State, a: DispatchAction)
    requires a.Publish? || a.AbandonPublish? || a.AbandonCompensation?
    ensures DispatchNext(s, a).table == s.table && DispatchNext(s, a).handlings == s.handlings
  {
    hide Claimed, Compensated, XAdd;
  }

  lemma StepKeepsOpen(c: Config, s: State, a: Action, h: nat)
    requires Inv(c, s) && Enabled(c, s, a) && h in s.handlings && s.handlings[h].phase.Open?
    requires !Ends(a, h, s.handlings[h].worker)
    ensures var t, j := Next(c, s, a), s.handlings[h].phase.job;
            && h in t.handlings && t.handlings[h] == s.handlings[h]
            && j in s.table && j in t.table && t.table[j] == s.table[j]
  {
    hide WorkerNext, WorkerEnabled, DispatchNext, DispatchEnabled, HandlingsOk, StreamOk, AcksJustified;
    match a {
      case Client(_) =>
      case Dispatcher(x) => DispatchKeepsLockedRow(c, s, x, s.handlings[h].phase.job);
      case Worker(x) => WorkerKeepsOpen(c, s, x, h);
    }
  }

  lemma {:induction false} RunKeepsOpen(c: Config, s: State, acts: seq<Action>, h: nat)
    requires Inv(c, s) && c.limit >= 1 && Run(c, s, acts).Some? && h in s.handlings && s.handlings[h].phase.Open?
    requires LeavesOpen(acts, h, s.handlings[h].worker)
    ensures var t, j := Run(c, s, acts).value, s.handlings[h].phase.job;
            && Inv(c, t) && h in t.handlings && t.handlings[h] == s.handlings[h]
            && j in s.table && j in t.table && t.table[j] == s.table[j]
    decreases |acts|
  {
    if acts == [] {
      assert JobsOk(c, s);
    } else {
      hide Inv, Enabled, Next, Ends;
      StepKeepsInv(c, s, acts[0]);
      StepKeepsOpen(c, s, acts[0], h);
      RunKeepsOpen(c, Next(c, s, acts[0]), acts[1..], h);
    }
  }

  /** A timed-out execution leaves no trace in its row, whatever others do while it is open: the
      attempt it began is rolled back with it, so timeouts never use up the retry limit. If nobody
      does anything in between, table and locks are as before. */
  lemma TimeoutCostsNoAttempt(c: Config, s: State, h: nat, version: nat, acts: seq<Action>)
    requires Inv(c, s) && c.limit >= 1 && WorkerEnabled(c, s, Begin(h, version, true))
    requires WorkerNext(c, s, Begin(h, version, true)).handlings[h].phase.Open?
    requires LeavesOpen(acts, h, s.handlings[h].worker) && Run(c, WorkerNext(c, s, Begin(h, version, true)), acts).Some?
    ensures var r := Run(c, s, [Worker(Begin(h, version, true))] + acts + [Worker(Cancel(h))]);
            var j := Job(s, h).target;
            && r.Some? && j in s.table && j in r.value.table && r.value.table[j] == s.table[j] && j !in r.value.locks
            && h in r.value.handlings && r.value.handlings[h].phase == BodyRaised
            && (acts == [] ==> r.value.table == s.table && r.value.locks == s.locks)
  {
    var a, b := Worker(Begin(h, version, true)), Worker(Cancel(h));
    var t := Next(c, s, a);
    BeginThenCancel(c, s, h, version);
    StepKeepsInv(c, s, a);
    BeginOpens(c, s, h, version);
    RunKeepsOpen(c, t, acts, h);
    RunOne(c, s, a);
    RunAppend(c, s, [a], acts);
    CancelReleases(c, Run(c, t, acts).value, h);
    RunThen(c, s, [a] + acts, b);
  }

  lemma BeginOpens(c: Config, s: State, h: nat, version: nat)
    requires Inv(c, s) && WorkerEnabled(c, s, Begin(h, version, true))
    requires WorkerNext(c, s, Begin(h, version, true)).handlings[h].phase.Open?
    ensures var t, j := WorkerNext(c, s, Begin(h, version, true)), Job(s, h).target;
            && h in s.handlings && h in t.handlings && t.handlings[h].worker == s.handlings[h].worker
            && t.handlings[h].phase.job == j && j in s.table && t.table == s.table
  {
    hide Inv, DoFinish, DoReceive, DoAck, DoCrash, Settled, Started;
  }

  lemma CancelReleases(c: Config, s: State, h: nat)
    requires Inv(c, s) && h in s.handlings && s.handlings[h].phase.Open?
    ensures WorkerEnabled(c, s, Cancel(h))
    ensures var t := WorkerNext(c, s, Cancel(h));
            t.table == s.table && s.handlings[h].phase.job !in t.locks && h in t.handlings
                && t.handlings[h].phase == BodyRaised
  {
    assert HandlingOk(s, h);
  }

  lemma BeginThenCancel(c: Config, s: State, h: nat, version: nat)
    requires Inv(c, s) && WorkerEnabled(c, s, Begin(h, version, true))
    requires WorkerNext(c, s, Begin(h, version, true)).handlings[h].phase.Open?
    ensures var t := WorkerNext(c, s, Begin(h, version, true));
            && WorkerEnabled(c, t, Cancel(h))
            && DoCancel(t, h).table == s.table && DoCancel(t, h).locks == s.locks
                && DoCancel(t, h).handlings[h].phase == BodyRaised
  {
    hide Inv, DoFinish, DoReceive, DoAck, DoCrash, Settled, Started;
    var j := Job(s, h).target;
    assert j !in s.locks;
    assert s.locks[j := h] - {j} == s.locks;
  }

  // ---- absorbing states ----

  // The row of j is terminal, with the status and attempts of r.
  predicate SettledAs(c: Config, s: State, j: nat, r: Row) {
    j in s.table && s.table[j].status == r.status && s.table[j].attempts == r.attempts && Terminal(s.table[j], c.limit)
  }

  lemma BeginKeepsSettled(c: Config, s: State, h: nat, i: nat, version: nat, committed: bool, j: nat, r: Row)
    requires h in s.handlings && SettledAs(c, s, j, r)
    ensures SettledAs(c, DoBegin(c, s, h, i, version, committed), j, r)
  {
  }

  lemma WorkerKeepsSettled(c: Config, s: State, a: WorkerAction, j: nat, r: Row)
    requires Inv(c, s) && WorkerEnabled(c, s, a) && SettledAs(c, s, j, r)
    ensures SettledAs(c, WorkerNext(c, s, a), j, r)
  {
    hide HandlingsOk, StreamOk, AcksJustified, XAck, XRead, XClaim, XAdd, XAddFailure, CanRetry, Claimable;
    match a {
      case Begin(h, version, committed) => BeginKeepsSettled(c, s, h, Job(s, h).target, version, committed, j, r);
      case _ =>
    }
  }

  lemma DispatchKeepsSettled(c: Config, s: State, a: DispatchAction, j: nat, r: Row)
    requires DispatchEnabled(c, s, a) && SettledAs(c, s, j, r)
    ensures SettledAs(c, DispatchNext(s, a), j, r)
  {
  }

  lemma StepKeepsSettled(c: Config, s: State, a: Action, j: nat, r: Row)
    requires Inv(c, s) && Enabled(c, s, a) && SettledAs(c, s, j, r)
    ensures SettledAs(c, Next(c, s, a), j, r)
  {
    match a {
      case Client(_) =>
      case Dispatcher(x) => DispatchKeepsSettled(c, s, x, j, r);
      case Worker(x) => WorkerKeepsSettled(c, s, x, j, r);
    }
  }

  /** Completed, stale and exhausted-failed rows keep status and attempts through every
      continuation: duplicate and late deliveries, claims and compensating updates included. */
  lemma {:induction false} TerminalIsAbsorbing(c: Config, s: State, acts: seq<Action>, j: nat, r: Row)
    requires Inv(c, s) && c.limit >= 1 && Run(c, s, acts).Some? && SettledAs(c, s, j, r)
    ensures SettledAs(c, Run(c, s, acts).value, j, r)
    decreases |acts|
  {
    if acts != [] {
      StepKeepsSettled(c, s, acts[0], j, r);
      StepKeepsInv(c, s, acts[0]);
      TerminalIsAbsorbing(c, Next(c, s, acts[0]), acts[1..], j, r);
    }
  }

  // Handling h executes its job with this work result and the job ends completed.
  predicate CompletesWith(c: Config, s: State, h: nat, version: nat, work: Work)
    requires Holds(s, h)
  {
    var j := Job(s, h).target;
    var r := Run(c, s, [Worker(Begin(h, version, true)), Worker(Finish(h, j, work, true))]);
    r.Some? && j in r.value.table && r.value.table[j].status.Completed?
  }

  /** "failed" alone is not absorbing: a duplicate message can run a failed job again and
      complete it exactly when attempts are left and the index version still matches. */
  lemma FailedJobRunsAgain(c: Config, s: State, h: nat, version: nat)
    requires Inv(c, s) && WorkerEnabled(c, s, Begin(h, version, true))
    requires var j := Job(s, h).target; j in s.table && j !in s.locks && s.table[j].status.Failed?
    ensures (exists work :: CompletesWith(c, s, h, version, work))
            <==> s.table[Job(s, h).target].attempts < c.limit && s.table[Job(s, h).target].version == version
  {
    hide HandlingsOk, StreamOk, AcksJustified, DoReceive, DoAck, DoCrash, DoRetry;
    var j := Job(s, h).target;
    var a := Worker(Begin(h, version, true));
    var t := Next(c, s, a);
    RunOne(c, s, a);
    forall work: Work
      ensures CompletesWith(c, s, h, version, work) ==> t.handlings[h].phase.Open?
    {
      var b := Worker(Finish(h, j, work, true));
      assert [a, b] == [a] + [b];
      RunAppend(c, s, [a], [b]);
      assert Run(c, s, [a, b]) == Run(c, t, [b]);
    }
    if t.handlings[h].phase.Open? {
      var b := Worker(Finish(h, j, Indexed([]), true));
      RunThen(c, s, [a], b);
      assert [a] + [b] == [a, b];
      assert CompletesWith(c, s, h, version, Indexed([]));
    }
  }
}
