/** dispatch_recoverable_index_jobs of incidentops/worker/index_dispatch.py, run without
    interruption, and its place in the worker protocol. */
module IndexDispatch {
  import opened Prelude
  import opened IndexJobs
  import opened JobStream
  import opened WorkerProtocol
  import opened WorkerGuarantees

  // How one publication ends: accepted, reported as failed although the entry was
  // appended, or refused.
  datatype PublishReply = Accepted | AppendedButFailed | Refused

  // The WHERE clause, with rows locked by others skipped.
  predicate Due(c: Config, table: map<nat, Row>, locked: set<nat>, now: int, j: nat) {
    j in table && j !in locked && Eligible(c, table[j], now)
  }

  // ORDER BY created_at LIMIT n FOR UPDATE SKIP LOCKED over the jobs in creation order.
  function Selected(c: Config, order: seq<nat>, table: map<nat, Row>, locked: set<nat>, now: int,
          n: nat): (js: seq<nat>)
    ensures |js| <= n
    ensures forall j | j in js :: j in order && Due(c, table, locked, now, j)
    // a batch that is not full has left no eligible job behind
    ensures |js| < n ==> forall j | j in order && Due(c, table, locked, now, j) :: j in js
  {
    if order == [] || n == 0 then []
    else if Due(c, table, locked, now, order[0]) then
      [order[0]] + Selected(c, order[1..], table, locked, now, n - 1)
    else Selected(c, order[1..], table, locked, now, n)
  }

  // Older jobs come first: nothing selected was created after an eligible job left behind.
  lemma {:induction false} SelectedIsAPrefix(c: Config, order: seq<nat>, table: map<nat, Row>, locked: set<nat>,
          now: int, n: nat) returns (k: nat)
    ensures k <= |order| && Selected(c, order, table, locked, now, n) == Selected(c, order[..k], table, locked, now, k)
    ensures forall i | 0 <= i < k && Due(c, table, locked, now, order[i]) ::
              order[i] in Selected(c, order, table, locked, now, n)
  {
    if order == [] || n == 0 {
      k := 0;
    } else {
      var chosen := Due(c, table, locked, now, order[0]);
      var rest := SelectedIsAPrefix(c, order[1..], table, locked, now, if chosen then n - 1 else n);
      k := rest + 1;
      assert order[..k][1..] == order[1..][..rest];
      SelectedIsCapped(c, order[1..][..rest], table, locked, now, k);
      SelectedIsCapped(c, order[1..][..rest], table, locked, now, rest);
    }
  }

  // A limit at or above the number of jobs does not matter.
  lemma {:induction false} SelectedIsCapped(c: Config, order: seq<nat>, table: map<nat, Row>, locked: set<nat>,
          now: int, n: nat)
    requires n >= |order|
    ensures Selected(c, order, table, locked, now, n) == Selected(c, order, table, locked, now, |order|)
  {
    if order != [] {
      SelectedIsCapped(c, order[1..], table, locked, now, n);
      SelectedIsCapped(c, order[1..], table, locked, now, n - 1);
      SelectedIsCapped(c, order[1..], table, locked, now, |order|);
    }
  }

  function AsSet(js: seq<nat>): set<nat> {
    set j | j in js
  }

  // The protocol steps of publishing one claimed job.
  function PublishSteps(j: nat, reply: PublishReply): seq<Action> {
    [Dispatcher(Publish(j, !reply.Refused?, reply.Accepted?))]
        + (if reply.Accepted? then [] else [Dispatcher(Compensate(j))])
  }

  function DispatchSteps(js: seq<nat>, replies: seq<PublishReply>): seq<Action>
    requires |replies| >= |js|
  {
    if js == [] then []
    else
      var k := |js| - 1;
      DispatchSteps(js[..k], replies) + PublishSteps(js[k], replies[k])
  }

  function CountAccepted(replies: seq<PublishReply>): nat {
    if replies == [] then 0
    else CountAccepted(replies[..|replies| - 1]) + (if replies[|replies| - 1].Accepted? then 1 else 0)
  }

  lemma PublishStepsRun(c: Config, s: State, j: nat, reply: PublishReply)
    requires j in s.toPublish && j !in s.locks
    ensures var r := Run(c, s, PublishSteps(j, reply));
            && r.Some?
            && r.value.locks == s.locks
            && r.value.toPublish == s.toPublish - multiset{j}
            && r.value.toCompensate == s.toCompensate
            && r.value.table == (if reply.Accepted? then s.table else Compensated(s.table, j))
            && r.value.stream == (if reply.Refused? then s.stream
                else XAdd(s.stream, Msg(|s.stream.log|, IndexDocument, j, 0)))
  {
    var a := Dispatcher(Publish(j, !reply.Refused?, reply.Accepted?));
    var t := Next(c, s, a);
    RunOne(c, s, a);
    if !reply.Accepted? {
      RunThen(c, s, [a], Dispatcher(Compensate(j)));
      assert s.toCompensate + multiset{j} - multiset{j} == s.toCompensate;
      assert PublishSteps(j, reply) == [a] + [Dispatcher(Compensate(j))];
    } else {
      assert PublishSteps(j, reply) == [a];
    }
  }

  lemma StepsUnfold(jobs: seq<nat>, replies: seq<PublishReply>, i: nat)
    requires i < |jobs| <= |replies|
    ensures DispatchSteps(jobs[..i + 1], replies)
        == DispatchSteps(jobs[..i], replies) + PublishSteps(jobs[i], replies[i])
    ensures CountAccepted(replies[..i + 1]) == CountAccepted(replies[..i]) + (if replies[i].Accepted? then 1 else 0)
  {
    assert jobs[..i + 1][..i] == jobs[..i] && replies[..i + 1][..i] == replies[..i];
  }

  lemma NoSteps(c: Config, t: State, replies: seq<PublishReply>)
    ensures Run(c, t, DispatchSteps([], replies)) == Some(t) && CountAccepted([]) == 0
  {
  }

  lemma LeftToPublish(jobs: seq<nat>, all: multiset<nat>, i: nat)
    requires i < |jobs| && multiset(jobs) <= all
    ensures jobs[i] in all - multiset(jobs[..i])
    ensures all - multiset(jobs[..i]) - multiset{jobs[i]} == all - multiset(jobs[..i + 1])
  {
    assert jobs[..i + 1] == jobs[..i] + [jobs[i]];
    assert jobs == jobs[..i + 1] + jobs[i + 1..];
  }

  // The steps of job i extend the run of the jobs before it.
  lemma StepOn(c: Config, t: State, u: State, jobs: seq<nat>, replies: seq<PublishReply>, i: nat)
    requires i < |jobs| <= |replies| && Run(c, t, DispatchSteps(jobs[..i], replies)) == Some(u)
    requires u.toPublish == t.toPublish - multiset(jobs[..i]) && multiset(jobs) <= t.toPublish
    requires u.locks == t.locks && jobs[i] !in t.locks
    ensures var j := jobs[i];
            var r := Run(c, u, PublishSteps(j, replies[i]));
            && Run(c, t, DispatchSteps(jobs[..i + 1], replies)) == r
            && r.Some? && r.value.locks == t.locks
            && r.value.toPublish == t.toPublish - multiset(jobs[..i + 1]) && r.value.toCompensate == u.toCompensate
            && r.value.table == (if replies[i].Accepted? then u.table else Compensated(u.table, j))
            && r.value.stream == (if replies[i].Refused? then u.stream
                else XAdd(u.stream, Msg(|u.stream.log|, IndexDocument, j, 0)))
    ensures CountAccepted(replies[..i + 1]) == CountAccepted(replies[..i]) + (if replies[i].Accepted? then 1 else 0)
  {
    hide *;
    StepsUnfold(jobs, replies, i);
    LeftToPublish(jobs, t.toPublish, i);
    PublishStepsRun(c, u, jobs[i], replies[i]);
    RunAppend(c, t, DispatchSteps(jobs[..i], replies), PublishSteps(jobs[i], replies[i]));
  }

  class IndexDispatcher {
    const server: RedisServer
    var table: map<nat, Row>

    constructor (server: RedisServer, table: map<nat, Row>)
      ensures this.server == server && this.table == table
    {
      this.server := server;
      this.table := table;
    }

    /** Claims due jobs in one transaction, then publishes them one by one and returns a job
        whose publication failed to pending. The database and the stream end exactly as the
        protocol's run of these steps leaves them. */
    method Dispatch(asyncIndexing: bool, c: Config, order: seq<nat>, locked: set<nat>, now: int, batchSize: nat,
                    replies: seq<PublishReply>, ghost s: State)
      returns (published: nat)
      requires s.table == table && s.stream == server.stream && s.clock == now && s.locks.Keys == locked
      requires Distinct(order)
      requires |replies| >= batchSize
      modifies this, server
      ensures !asyncIndexing ==> published == 0 && table == old(table) && server.stream == old(server.stream)
      ensures asyncIndexing ==>
                var js := Selected(c, order, old(table), locked, now, batchSize);
                var acts := [Dispatcher(ClaimJobs(AsSet(js)))] + DispatchSteps(js, replies);
                && Run(c, s, acts).Some?
                && table == Run(c, s, acts).value.table
                && server.stream == Run(c, s, acts).value.stream
                && Run(c, s, acts).value.toPublish == s.toPublish
                && Run(c, s, acts).value.toCompensate == s.toCompensate
                && published == CountAccepted(replies[..|js|])
    {
      if !asyncIndexing {
        return 0;
      }
      var jobs := SelectJobs(c, order, now, batchSize, locked);
      SelectedIsDistinct(c, order, table, locked, now, batchSize);
      DistinctAsSet(jobs);
      ClaimAll(jobs, now);
      ghost var claim := Dispatcher(ClaimJobs(AsSet(jobs)));
      ghost var t := Next(c, s, claim);
      RunOne(c, s, claim);
      published := PublishAll(c, jobs, replies, t);
      RunAppend(c, s, [claim], DispatchSteps(jobs, replies));
    }

    // The claiming transaction: every selected row becomes queued now.
    method ClaimAll(jobs: seq<nat>, now: int)
      requires forall j | j in jobs :: j in table
      modifies this`table
      ensures table == Claimed(old(table), AsSet(jobs), now)
    {
      var i := 0;
      while i < |jobs|
        invariant 0 <= i <= |jobs|
        invariant table.Keys == old(table).Keys
        invariant forall j | j in table ::
                    table[j] == if j in jobs[..i] then old(table)[j].(status := Queued, queuedAt := Some(now))
                                else old(table)[j]
      {
        table := table[jobs[i] := table[jobs[i]].(status := Queued, queuedAt := Some(now))];
        i := i + 1;
      }
      assert jobs[..|jobs|] == jobs;
    }

    method PublishAll(c: Config, jobs: seq<nat>, replies: seq<PublishReply>, ghost t: State) returns (published: nat)
      requires t.table == table && t.stream == server.stream && |replies| >= |jobs|
      requires forall j | j in jobs :: j !in t.locks
      requires multiset(jobs) <= t.toPublish
      modifies this`table, server
      ensures var r := Run(c, t, DispatchSteps(jobs, replies));
              && r.Some? && table == r.value.table && server.stream == r.value.stream
              && r.value.toPublish == t.toPublish - multiset(jobs) && r.value.toCompensate == t.toCompensate
      ensures published == CountAccepted(replies[..|jobs|])
    {
      hide *;
      published := 0;
      ghost var u := t;
      NoSteps(c, t, replies);
      var i := 0;
      assert jobs[..0] == [] && replies[..0] == [];
      while i < |jobs|
        invariant 0 <= i <= |jobs|
        invariant published == CountAccepted(replies[..i])
        invariant Run(c, t, DispatchSteps(jobs[..i], replies)) == Some(u)
        invariant u.table == table && u.stream == server.stream && u.locks == t.locks
            && u.toCompensate == t.toCompensate
        invariant u.toPublish == t.toPublish - multiset(jobs[..i])
      {
        var j := jobs[i];
        StepOn(c, t, u, jobs, replies, i);
        u := Run(c, u, PublishSteps(j, replies[i])).value;
        var ok := PublishOne(j, replies[i]);
        if ok {
          published := published + 1;
        }
        i := i + 1;
      }
      assert jobs[..|jobs|] == jobs;
    }

    // One publication; if it is reported as failed, the compensating update runs.
    method PublishOne(j: nat, reply: PublishReply) returns (ok: bool)
      modifies this`table, server
      ensures ok == reply.Accepted?
      ensures table == if ok then old(table) else Compensated(old(table), j)
      ensures server.stream == if reply.Refused? then old(server.stream)
                               else XAdd(old(server.stream), Msg(|old(server.stream).log|, IndexDocument, j, 0))
    {
      if !reply.Refused? {
        server.stream := server.stream.(log := server.stream.log + [Msg(|server.stream.log|, IndexDocument, j, 0)]);
      }
      ok := reply.Accepted?;
      if !ok && j in table && table[j].status.Queued? {
        table := table[j := table[j].(status := Pending, queuedAt := None)];
      }
    }

    // The locked SELECT, over the jobs in creation order.
    method SelectJobs(c: Config, order: seq<nat>, now: int, n: nat, locked: set<nat>) returns (js: seq<nat>)
      ensures js == Selected(c, order, table, locked, now, n)
    {
      hide *;
      js := [];
      var i := 0;
      assert order[0..] == order;
      while i < |order| && |js| < n
        invariant 0 <= i <= |order| && |js| <= n
        invariant js + Selected(c, order[i..], table, locked, now, n - |js|)
            == Selected(c, order, table, locked, now, n)
      {
        SelectedUnfolds(c, order, table, locked, now, n - |js|, i);
        if Due(c, table, locked, now, order[i]) {
          ghost var rest := Selected(c, order[i + 1..], table, locked, now, n - |js| - 1);
          assert js + ([order[i]] + rest) == (js + [order[i]]) + rest;
          js := js + [order[i]];
        }
        i := i + 1;
      }
      NothingLeft(c, order[i..], table, locked, now, n - |js|);
    }
  }

  lemma SelectedUnfolds(c: Config, order: seq<nat>, table: map<nat, Row>, locked: set<nat>, now: int, k: nat, i: nat)
    requires i < |order| && k > 0
    ensures Selected(c, order[i..], table, locked, now, k) ==
              if Due(c, table, locked, now, order[i]) then [order[i]]
                  + Selected(c, order[i + 1..], table, locked, now, k - 1)
              else Selected(c, order[i + 1..], table, locked, now, k)
  {
    assert order[i..][0] == order[i] && order[i..][1..] == order[i + 1..];
  }

  lemma NothingLeft(c: Config, order: seq<nat>, table: map<nat, Row>, locked: set<nat>, now: int, k: nat)
    ensures order == [] || k == 0 ==> Selected(c, order, table, locked, now, k) == []
  {
  }

  predicate Distinct(js: seq<nat>) {
    forall i, k :: 0 <= i < k < |js| ==> js[i] != js[k]
  }

  lemma {:induction false} SelectedIsDistinct(c: Config, order: seq<nat>, table: map<nat, Row>, locked: set<nat>,
          now: int, n: nat)
    requires Distinct(order)
    ensures Distinct(Selected(c, order, table, locked, now, n))
  {
    if order != [] && n != 0 {
      SelectedIsDistinct(c, order[1..], table, locked, now, n - 1);
      SelectedIsDistinct(c, order[1..], table, locked, now, n);
    }
  }

  lemma {:induction false} DistinctAsSet(js: seq<nat>)
    requires Distinct(js)
    ensures multiset(js) == multiset(AsSet(js))
  {
    if js == [] {
      assert AsSet(js) == {};
    } else {
      DistinctAsSet(js[1..]);
      assert js == [js[0]] + js[1..];
      assert AsSet(js) == {js[0]} + AsSet(js[1..]);
      assert js[0] !in js[1..];
    }
  }

  // ---- what a dispatch leaves behind ----

  // The row of a claimed job after its publication.
  function AfterPublish(r: Row, reply: PublishReply): Row {
    if reply.Accepted? || r.status != Queued then r else r.(status := Pending, queuedAt := None)
  }

  // The log after publishing the first i jobs: one entry for each publication that was not refused.
  function PublishedLog(log: seq<Entry>, js: seq<nat>, replies: seq<PublishReply>, i: nat): seq<Entry>
    requires i <= |js| <= |replies|
  {
    if i == 0 then log
    else
      var before := PublishedLog(log, js, replies, i - 1);
      if replies[i - 1].Refused? then before else before + [Msg(|before|, IndexDocument, js[i - 1], 0)]
  }

  // The first i jobs have been published, and no other row was touched.
  ghost predicate PublishedUpTo(t: State, u: State, js: seq<nat>, replies: seq<PublishReply>, i: nat)
    requires i <= |js| <= |replies|
  {
    && u.table.Keys == t.table.Keys && u.stream.log == PublishedLog(t.stream.log, js, replies, i)
    && (forall k | 0 <= k < i && js[k] in t.table :: u.table[js[k]] == AfterPublish(t.table[js[k]], replies[k]))
    && (forall j | j in t.table && j !in js[..i] :: u.table[j] == t.table[j])
  }

  lemma PublishOneMore(t: State, u: State, v: State, js: seq<nat>, replies: seq<PublishReply>, i: nat)
    requires i < |js| <= |replies| && Distinct(js) && PublishedUpTo(t, u, js, replies, i)
    requires v.table == (if replies[i].Accepted? then u.table else Compensated(u.table, js[i]))
    requires v.stream == (if replies[i].Refused? then u.stream
                          else XAdd(u.stream, Msg(|u.stream.log|, IndexDocument, js[i], 0)))
    ensures PublishedUpTo(t, v, js, replies, i + 1)
  {
    assert js[..i + 1] == js[..i] + [js[i]];
    assert js[i] !in js[..i];
    forall k | 0 <= k < i
      ensures js[k] != js[i]
    {
    }
  }

  lemma NothingPublished(t: State, js: seq<nat>, replies: seq<PublishReply>)
    requires |js| <= |replies|
    ensures PublishedUpTo(t, t, js, replies, 0) && t.toPublish == t.toPublish - multiset(js[..0])
  {
  }

  lemma {:induction false} PublishingOutcome(c: Config, t: State, js: seq<nat>, replies: seq<PublishReply>, i: nat)
    requires i <= |js| <= |replies| && Distinct(js)
    requires (forall j | j in js :: j !in t.locks) && multiset(js) <= t.toPublish
    ensures var r := Run(c, t, DispatchSteps(js[..i], replies));
            && r.Some? && r.value.locks == t.locks && r.value.toPublish == t.toPublish - multiset(js[..i])
            && PublishedUpTo(t, r.value, js, replies, i)
  {
    hide *;
    if i == 0 {
      assert js[..0] == [];
      NoSteps(c, t, replies);
      NothingPublished(t, js, replies);
    } else {
      PublishingOutcome(c, t, js, replies, i - 1);
      var u := Run(c, t, DispatchSteps(js[..i - 1], replies)).value;
      StepOn(c, t, u, js, replies, i - 1);
      PublishOneMore(t, u, Run(c, t, DispatchSteps(js[..i], replies)).value, js, replies, i - 1);
    }
  }

  /** After a dispatch, every claimed job is queued since now, or pending without a time if its
      publication was reported as failed; no other row has changed; and the log has one first-attempt
      message for each publication that was not refused, in order. */
  lemma DispatchOutcome(c: Config, s: State, js: seq<nat>, replies: seq<PublishReply>)
    requires |js| <= |replies| && Distinct(js)
    requires forall j | j in js :: j in s.table && j !in s.locks && Eligible(c, s.table[j], s.clock)
    ensures var r := Run(c, s, [Dispatcher(ClaimJobs(AsSet(js)))] + DispatchSteps(js, replies));
            && r.Some? && r.value.table.Keys == s.table.Keys
            && (forall i | 0 <= i < |js| ::
                  && js[i] in s.table
                  && r.value.table[js[i]] ==
                      if replies[i].Accepted? then s.table[js[i]].(status := Queued, queuedAt := Some(s.clock))
                      else s.table[js[i]].(status := Pending, queuedAt := None))
            && (forall j | j in s.table && j !in js :: r.value.table[j] == s.table[j])
            && r.value.stream.log == PublishedLog(s.stream.log, js, replies, |js|)
  {
    hide Run, DispatchSteps, Eligible;
    var claim := Dispatcher(ClaimJobs(AsSet(js)));
    var t := Next(c, s, claim);
    DistinctAsSet(js);
    RunOne(c, s, claim);
    PublishingOutcome(c, t, js, replies, |js|);
    assert js[..|js|] == js;
    RunAppend(c, s, [claim], DispatchSteps(js, replies));
    forall i | 0 <= i < |js|
      ensures js[i] in s.table && t.table[js[i]] == s.table[js[i]].(status := Queued, queuedAt := Some(s.clock))
    {
      assert js[i] in js;
    }
  }

  /** The number a dispatch returns is that of the accepted publications. */
  lemma {:induction false} AcceptedAreCounted(replies: seq<PublishReply>, n: nat)
    requires n <= |replies|
    ensures CountAccepted(replies[..n]) == |set i | 0 <= i < n && replies[i].Accepted?|
  {
    if n > 0 {
      AcceptedAreCounted(replies, n - 1);
      assert replies[..n][..n - 1] == replies[..n - 1];
      var before := set i | 0 <= i < n - 1 && replies[i].Accepted?;
      var all := set i | 0 <= i < n && replies[i].Accepted?;
      assert all == if replies[n - 1].Accepted? then before + {n - 1} else before;
    }
  }
}
