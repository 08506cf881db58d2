/** Nothing is lost: every entry and every unfinished job can still be brought to its end
    from every state any run can reach. */
module WorkerRecovery {
  import opened Prelude
  import opened IndexJobs
  import opened JobStream
  import opened WorkerProtocol
  import opened WorkerGuarantees

  /** At-least-once delivery, over any run: an entry is exactly one of undelivered, pending and
      acknowledged; it is acknowledged only if it is malformed, its job body returned, a
      successor with the next attempt number was appended, or a failure record was written; and
      no message passes the retry limit. */
  lemma EveryEntryIsAccountedFor(c: Config, acts: seq<Action>, m: nat)
    requires c.limit >= 1 && Run(c, INITIAL, acts).Some? && m < |Run(c, INITIAL, acts).value.stream.log|
    ensures var s := Run(c, INITIAL, acts).value;
            && (Undelivered(s.stream, m) || m in s.stream.pending || m in s.stream.acked)
            && !(Undelivered(s.stream, m) && (m in s.stream.pending || m in s.stream.acked))
            && !(m in s.stream.pending && m in s.stream.acked)
            && (m in s.stream.acked ==> Justified(s, m))
            && (s.stream.log[m].Msg? ==> s.stream.log[m].attempt <= Max(0, c.maxRetries))
  {
    InitialInv(c);
    RunKeepsInv(c, INITIAL, acts);
  }

  // Entry k was appended as the retry of message m.
  ghost predicate RetryOf(s: State, m: nat, k: nat) {
    exists i :: 0 <= i < |s.retries| && s.retries[i] == Retried(m, k)
  }

  /** The successor that justifies an acknowledgement is the message's own, over any run: it was
      appended later for this very message, and is no other message's retry. */
  lemma RetriesAreTheirOwn(c: Config, acts: seq<Action>, m: nat)
    requires c.limit >= 1 && Run(c, INITIAL, acts).Some?
    ensures var s := Run(c, INITIAL, acts).value;
            && (m in s.stream.acked && m < |s.stream.log| && s.stream.log[m].Msg? && m !in s.returned
                && !HasFailure(s.stream, m)
                ==> exists k: nat :: RetryOf(s, m, k))
            && (forall k: nat | RetryOf(s, m, k) ::
                  m < k < |s.stream.log| && IsSuccessor(s.stream.log[m], s.stream.log[k]))
            && (forall k: nat, n: nat | RetryOf(s, m, k) && RetryOf(s, n, k) :: m == n)
  {
    InitialInv(c);
    RunKeepsInv(c, INITIAL, acts);
    var s := Run(c, INITIAL, acts).value;
    hide Run;
    if m in s.stream.acked && m < |s.stream.log| && s.stream.log[m].Msg? && m !in s.returned
        && !HasFailure(s.stream, m) {
      assert Justified(s, m);
      var i :| 0 <= i < |s.retries| && s.retries[i].message == m;
      assert RetryOf(s, m, s.retries[i].successor);
    }
    forall k: nat, n: nat | RetryOf(s, m, k) && RetryOf(s, n, k)
      ensures m == n
    {
      var i :| 0 <= i < |s.retries| && s.retries[i] == Retried(m, k);
      var l :| 0 <= l < |s.retries| && s.retries[l] == Retried(n, k);
      assert i == l;
    }
  }

  predicate Unfinished(s: State, j: nat) {
    j in s.table && (s.table[j].status.Pending? || s.table[j].status.Queued?)
  }

  /** No job is stranded and no finished one is run again: in every run, the dispatcher's WHERE clause
      selects a job at exactly the times it should: at once if it is pending, once it has been idle long
      enough if it is queued, and never otherwise. */
  lemma NoJobIsStranded(c: Config, acts: seq<Action>, j: nat)
    requires c.limit >= 1 && Run(c, INITIAL, acts).Some? && j in Run(c, INITIAL, acts).value.table
    ensures var r := Run(c, INITIAL, acts).value.table[j];
            && (r.status.Queued? ==> r.queuedAt.Some?)
            && (forall now :: Eligible(c, r, now) <==>
                  r.status.Pending? || (r.status.Queued? && now > r.queuedAt.value + c.idle))
  {
    InitialInv(c);
    RunKeepsInv(c, INITIAL, acts);
  }

  /** With a retry limit below one, no row is ever selected, so every job stays stranded. */
  lemma ZeroLimitStrandsEveryJob(c: Config, acts: seq<Action>, j: nat, version: nat, now: int)
    ensures c.limit >= 1 <==> Eligible(c, NewRow(version), now)
    ensures c.limit < 1 && Run(c, INITIAL, acts).Some? && j in Run(c, INITIAL, acts).value.table
            ==> !Eligible(c, Run(c, INITIAL, acts).value.table[j], now)
  {
  }

  // A worker holding a fresh delivery of entry m.
  predicate HasDelivery(s: State, m: nat, h: nat) {
    Holds(s, h) && s.handlings[h].msg == m && s.handlings[h].phase == Received && s.handlings[h].held
  }

  // Reading moves nothing but the stream and the handlings.
  predicate SameJobs(s: State, t: State) {
    t.table == s.table && t.locks == s.locks && t.stream.log == s.stream.log
  }

  lemma DeliverNext(c: Config, s: State, w: nat)
    requires Inv(c, s) && s.stream.cursor < |s.stream.log| && c.limit >= 1
    ensures var t := WorkerNext(c, s, Deliver(w));
            && Inv(c, t) && SameJobs(s, t) && t.stream.cursor == s.stream.cursor + 1
            && (s.stream.log[s.stream.cursor].Msg? ==> HasDelivery(t, s.stream.cursor, s.next))
  {
    StepKeepsInv(c, s, Worker(Deliver(w)));
  }

  lemma {:induction false} DeliverUpTo(c: Config, s: State, w: nat, m: nat) returns (acts: seq<Action>, h: nat)
    requires Inv(c, s) && c.limit >= 1 && s.stream.cursor <= m < |s.stream.log| && s.stream.log[m].Msg?
    ensures Run(c, s, acts).Some? && Inv(c, Run(c, s, acts).value)
    ensures SameJobs(s, Run(c, s, acts).value) && HasDelivery(Run(c, s, acts).value, m, h) && NoBegin(acts)
    decreases m - s.stream.cursor
  {
    var a := Worker(Deliver(w));
    var t := Next(c, s, a);
    DeliverNext(c, s, w);
    if s.stream.cursor == m {
      RunOne(c, s, a);
      acts, h := [a], s.next;
    } else {
      var rest;
      rest, h := DeliverUpTo(c, t, w, m);
      acts := [a] + rest;
      RunOne(c, s, a);
      RunAppend(c, s, [a], rest);
    }
  }

  /** In every run an entry can be reclaimed, by any worker, exactly if it has been read and not been
      acknowledged, and was last handed over at least the idle time ago. */
  lemma ReclaimedOnceIdle(c: Config, acts: seq<Action>, w: nat, m: nat)
    requires c.limit >= 1 && Run(c, INITIAL, acts).Some?
    ensures var s := Run(c, INITIAL, acts).value;
            Enabled(c, s, Worker(Reclaim(w, m))) <==>
              && m < s.stream.cursor && m !in s.stream.acked
              && m in s.stream.pending && s.clock - s.stream.pending[m].since >= c.idle
  {
    InitialInv(c);
    RunKeepsInv(c, INITIAL, acts);
    hide Run, JobsOk;
  }

  /** No message is lost: from every reachable state, every well-formed entry that is not
      acknowledged can be delivered (again) to any worker. */
  lemma UnacknowledgedEntryCanBeDelivered(c: Config, s: State, w: nat, m: nat) returns (acts: seq<Action>, h: nat)
    requires Inv(c, s) && c.limit >= 1 && m < |s.stream.log| && s.stream.log[m].Msg? && m !in s.stream.acked
    ensures Run(c, s, acts).Some? && Inv(c, Run(c, s, acts).value)
    ensures SameJobs(s, Run(c, s, acts).value) && HasDelivery(Run(c, s, acts).value, m, h)
  {
    if m >= s.stream.cursor {
      acts, h := DeliverUpTo(c, s, w, m);
    } else {
      var due := s.stream.pending[m].since + c.idle;
      var a := Client(Tick(Max(s.clock, due)));
      var t := Next(c, s, a);
      var b := Worker(Reclaim(w, m));
      StepKeepsInv(c, s, a);
      assert Enabled(c, t, b);
      StepKeepsInv(c, t, b);
      RunOne(c, s, a);
      RunThen(c, s, [a], b);
      acts, h := [a] + [b], t.next;
    }
  }

  // Free j's row, wait until it is due, claim it and publish it.
  lemma PublishAgain(c: Config, s: State, j: nat) returns (acts: seq<Action>)
    requires Inv(c, s) && c.limit >= 1 && Unfinished(s, j) && j !in s.locks
    ensures Run(c, s, acts).Some?
    ensures var t := Run(c, s, acts).value;
            && Inv(c, t) && Unfinished(t, j) && j !in t.locks
            && t.table[j].attempts == s.table[j].attempts && t.table[j].version == s.table[j].version
            && |t.stream.log| == |s.stream.log| + 1 && t.stream.cursor == s.stream.cursor
            && t.stream.log[|s.stream.log|] == Msg(|s.stream.log|, IndexDocument, j, 0)
            && NoBegin(acts)
  {
    var due := if s.table[j].queuedAt.Some? then s.table[j].queuedAt.value + c.idle + 1 else 0;
    var a := Client(Tick(Max(s.clock, due)));
    var t := Next(c, s, a);
    StepKeepsInv(c, s, a);
    var b := Dispatcher(ClaimJobs({j}));
    var u := Next(c, t, b);
    StepKeepsInv(c, t, b);
    var d := Dispatcher(Publish(j, true, true));
    StepKeepsInv(c, u, d);
    RunOne(c, s, a);
    RunThen(c, s, [a], b);
    RunThen(c, s, [a] + [b], d);
    acts := [a] + [b] + [d];
  }

  // No execution is begun.
  predicate NoBegin(acts: seq<Action>) {
    forall i | 0 <= i < |acts| :: !(acts[i].Worker? && acts[i].worker.Begin?)
  }

  // All executions are begun by workers configured with this index version.
  predicate Configured(acts: seq<Action>, version: nat) {
    forall i | 0 <= i < |acts| && acts[i].Worker? && acts[i].worker.Begin? :: acts[i].worker.version == version
  }

  // How workers of this version can leave an unfinished row.
  predicate EndsAs(s: State, j: nat, r: Row, version: nat) {
    j in s.table && if r.version == version then s.table[j].status.Completed? else s.table[j].status.Stale?
  }

  lemma SettleDelivered(c: Config, s: State, h: nat, j: nat, version: nat) returns (acts: seq<Action>)
    requires Inv(c, s) && Unfinished(s, j) && j !in s.locks
    requires Holds(s, h) && s.handlings[h].phase.Received? && Job(s, h).jobType.IndexDocument? && Job(s, h).target == j
    ensures Run(c, s, acts).Some? && Configured(acts, version) && EndsAs(Run(c, s, acts).value, j, s.table[j], version)
  {
    var a := Worker(Begin(h, version, true));
    var t := Next(c, s, a);
    RunOne(c, s, a);
    acts := [a];
    if s.table[j].version == version {
      var b := Worker(Finish(h, j, Indexed([]), true));
      RunThen(c, s, [a], b);
      acts := [a] + [b];
    }
  }

  /** From every reachable state every unfinished job can still be brought to its end, by workers of
      any one configured index version: completed if the version is still the job's, else stale.
      Whatever messages were lost, workers crashed, executions rolled back or publications failed. */
  lemma UnfinishedJobCanComplete(c: Config, s: State, j: nat, version: nat)
    requires Inv(c, s) && c.limit >= 1 && Unfinished(s, j)
    ensures exists acts ::
              && Run(c, s, acts).Some? && Configured(acts, version)
              && EndsAs(Run(c, s, acts).value, j, s.table[j], version)
  {
    if j in s.locks {
      var a := Worker(Cancel(s.locks[j]));
      var t := Next(c, s, a);
      StepKeepsInv(c, s, a);
      var rest := FromUnlocked(c, t, j, version);
      RunOne(c, s, a);
      RunAppend(c, s, [a], rest);
      assert Configured([a] + rest, version);
    } else {
      var acts := FromUnlocked(c, s, j, version);
    }
  }

  lemma FromUnlocked(c: Config, s: State, j: nat, version: nat) returns (acts: seq<Action>)
    requires Inv(c, s) && c.limit >= 1 && Unfinished(s, j) && j !in s.locks
    ensures Run(c, s, acts).Some? && Configured(acts, version) && EndsAs(Run(c, s, acts).value, j, s.table[j], version)
  {
    var publish := PublishAgain(c, s, j);
    var t := Run(c, s, publish).value;
    var deliver, h := DeliverUpTo(c, t, 0, |s.stream.log|);
    RunAppend(c, s, publish, deliver);
    var u := Run(c, t, deliver).value;
    var settle := SettleDelivered(c, u, h, j, version);
    RunAppend(c, s, publish + deliver, settle);
    acts := publish + deliver + settle;
  }

  // ---- workers of another version ----

  // Job j has another index version, is not completed, and no execution of it is open.
  predicate NotDone(s: State, j: nat, version: nat) {
    j in s.table && j !in s.locks && !s.table[j].status.Completed? && s.table[j].version != version
  }

  lemma BeginKeepsNotDone(c: Config, s: State, h: nat, i: nat, version: nat, committed: bool, j: nat)
    requires h in s.handlings && NotDone(s, j, version)
    ensures NotDone(DoBegin(c, s, h, i, version, committed), j, version)
  {
  }

  lemma FinishKeepsNotDone(c: Config, s: State, h: nat, i: nat, work: Work, committed: bool, j: nat, version: nat)
    requires JobsOk(c, s) && h in s.handlings && s.handlings[h].phase.Open? && s.handlings[h].phase.job == i
    requires !work.Cancelled? && NotDone(s, j, version)
    ensures NotDone(DoFinish(c, s, h, i, work, committed), j, version)
  {
  }

  lemma WorkerKeepsNotDone(c: Config, s: State, a: WorkerAction, j: nat, version: nat)
    requires JobsOk(c, s) && WorkerEnabled(c, s, a) && NotDone(s, j, version) && (a.Begin? ==> a.version == version)
    ensures NotDone(WorkerNext(c, s, a), j, version)
  {
    hide JobsOk, DoBegin, DoFinish, CanRetry, Claimable, XAck, XRead, XClaim, XAdd, XAddFailure;
    match a {
      case Begin(h, _, committed) => BeginKeepsNotDone(c, s, h, Job(s, h).target, version, committed, j);
      case Finish(h, i, work, committed) => FinishKeepsNotDone(c, s, h, i, work, committed, j, version);
      case _ =>
    }
  }

  lemma DispatchKeepsNotDone(c: Config, s: State, a: DispatchAction, j: nat, version: nat)
    requires DispatchEnabled(c, s, a) && NotDone(s, j, version)
    ensures NotDone(DispatchNext(s, a), j, version)
  {
    hide XAdd, Eligible;
  }

  lemma StepKeepsNotDone(c: Config, s: State, a: Action, j: nat, version: nat)
    requires Inv(c, s) && Enabled(c, s, a) && NotDone(s, j, version)
    requires a.Worker? && a.worker.Begin? ==> a.worker.version == version
    ensures NotDone(Next(c, s, a), j, version)
  {
    match a {
      case Client(_) =>
      case Dispatcher(x) => DispatchKeepsNotDone(c, s, x, j, version);
      case Worker(x) => WorkerKeepsNotDone(c, s, x, j, version);
    }
  }

  /** Workers of another index version never complete a job, in any run. */
  lemma {:induction false} OtherVersionsNeverComplete(c: Config, s: State, acts: seq<Action>, j: nat, version: nat)
    requires Inv(c, s) && c.limit >= 1 && Run(c, s, acts).Some?
    requires Configured(acts, version) && NotDone(s, j, version)
    ensures NotDone(Run(c, s, acts).value, j, version)
    decreases |acts|
  {
    if acts != [] {
      hide Inv, NotDone, Next, Enabled;
      StepKeepsInv(c, s, acts[0]);
      StepKeepsNotDone(c, s, acts[0], j, version);
      OtherVersionsNeverComplete(c, Next(c, s, acts[0]), acts[1..], j, version);
    }
  }

  predicate Completes(c: Config, s: State, acts: seq<Action>, j: nat) {
    var r := Run(c, s, acts);
    r.Some? && j in r.value.table && r.value.table[j].status.Completed?
  }

  /** Workers of one index version can complete an unfinished job without an open execution if and
      only if it is the job's own version. */
  lemma CompletableIffOwnVersion(c: Config, s: State, j: nat, version: nat)
    requires Inv(c, s) && c.limit >= 1 && Unfinished(s, j) && j !in s.locks
    ensures (exists acts :: Configured(acts, version) && Completes(c, s, acts, j)) <==> s.table[j].version == version
  {
    hide Inv, Run;
    if s.table[j].version == version {
      var acts := FromUnlocked(c, s, j, version);
      assert Configured(acts, version) && Completes(c, s, acts, j);
    } else {
      forall acts | Configured(acts, version) && Run(c, s, acts).Some?
        ensures !Completes(c, s, acts, j)
      {
        OtherVersionsNeverComplete(c, s, acts, j, version);
      }
    }
  }

  /** A worker of another index version that executes an unfinished job and commits makes it stale. */
  lemma OtherVersionsMakeStale(c: Config, s: State, h: nat, version: nat)
    requires Inv(c, s) && WorkerEnabled(c, s, Begin(h, version, true))
    requires var j := Job(s, h).target; Unfinished(s, j) && j !in s.locks && s.table[j].version != version
    ensures var t := WorkerNext(c, s, Begin(h, version, true));
            Job(s, h).target in t.table && t.table[Job(s, h).target].status.Stale?
  {
    hide HandlingsOk, StreamOk, AcksJustified, LocksOk, RunnableWhenOpen, DoFinish, DoReceive, DoAck, DoCrash;
  }
}
