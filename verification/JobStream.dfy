/** The job queue of incidentops/worker/queue.py and the message handling of
    incidentops/worker/main.py.

    A Redis stream read through one consumer group is a log of entries, the
    group's read cursor, the pending-entries list and the entries acknowledged so
    far. The server is shared by all workers; each worker's queue object keeps its
    own table of in-flight messages. */
module JobStream {
  import opened Prelude

  datatype JobType = IndexDocument | EvaluatorAgent | ObserverAgent | AggregateEvents | WorkflowRun | EvalRun

  // A stream entry without a "job" field is malformed. `id` is Job.id, `target`
  // the database id in the payload, `attempt` the payload's _worker_attempt.
  datatype Entry = Malformed | Msg(id: nat, jobType: JobType, target: nat, attempt: nat)

  // Who an entry was delivered to, and when.
  datatype Lease = Lease(consumer: nat, since: int)

  datatype Failure = Failure(jobId: nat, error: string)

  datatype Stream = Stream(
    log: seq<Entry>,
    cursor: nat,
    pending: map<nat, Lease>,
    acked: set<nat>,
    failures: seq<Failure>)

  const EMPTY_STREAM := Stream([], 0, map[], {}, [])

  // Every entry behind the cursor is pending or acknowledged, never both, and
  // entries at or past the cursor are neither.
  ghost predicate WellFormed(s: Stream) {
    && s.cursor <= |s.log|
    && s.pending.Keys !! s.acked
    && (forall m: nat {:trigger m in s.acked} {:trigger m in s.pending} ::
        m < s.cursor <==> m in s.pending || m in s.acked)
  }

  ghost predicate Undelivered(s: Stream, m: nat) {
    s.cursor <= m < |s.log|
  }

  // ---- the server commands ----

  function XAdd(s: Stream, e: Entry): Stream {
    s.(log := s.log + [e])
  }

  function XAddFailure(s: Stream, jobId: nat, error: string): Stream {
    s.(failures := s.failures + [Failure(jobId, error)])
  }

  // XREADGROUP ">": the next entry goes to the consumer.
  function XRead(s: Stream, consumer: nat, now: int): Stream
    requires s.cursor < |s.log|
  {
    s.(cursor := s.cursor + 1, pending := s.pending[s.cursor := Lease(consumer, now)])
  }

  predicate Claimable(s: Stream, m: nat, now: int, idle: int) {
    m in s.pending && now - s.pending[m].since >= idle
  }

  // XAUTOCLAIM: an idle pending entry changes hands.
  function XClaim(s: Stream, m: nat, consumer: nat, now: int): Stream
    requires m in s.pending
  {
    s.(pending := s.pending[m := Lease(consumer, now)])
  }

  // XACK removes an entry from the pending list; it is idempotent.
  function XAck(s: Stream, m: nat): Stream {
    if m in s.pending then s.(pending := s.pending - {m}, acked := s.acked + {m}) else s
  }

  lemma CommandsKeepWellFormed(s: Stream, e: Entry, m: nat, consumer: nat, now: int, error: string)
    requires WellFormed(s)
    ensures WellFormed(XAdd(s, e))
    ensures WellFormed(XAddFailure(s, m, error))
    ensures WellFormed(XAck(s, m))
    ensures s.cursor < |s.log| ==> WellFormed(XRead(s, consumer, now))
    ensures m in s.pending ==> WellFormed(XClaim(s, m, consumer, now))
  {
    assert forall k: nat :: k in XAck(s, m).pending || k in XAck(s, m).acked <==> k in s.pending || k in s.acked;
    if s.cursor < |s.log| {
      assert forall k: nat :: k in XRead(s, consumer, now).pending <==> k in s.pending || k == s.cursor;
    }
  }

  // ---- retry policy ----

  predicate Retryable(t: JobType) {
    t.IndexDocument? || t.EvaluatorAgent? || t.ObserverAgent? || t.AggregateEvents?
  }

  predicate CanRetry(e: Entry, maxRetries: int)
    requires e.Msg?
  {
    Retryable(e.jobType) && e.attempt < maxRetries
  }

  function Successor(e: Entry, id: nat): Entry
    requires e.Msg?
  {
    Msg(id, e.jobType, e.target, e.attempt + 1)
  }

  predicate IsSuccessor(e: Entry, f: Entry) {
    e.Msg? && f.Msg? && f.jobType == e.jobType && f.target == e.target && f.attempt == e.attempt + 1
  }

  // A later entry is a successor of entry m.
  predicate HasSuccessor(s: Stream, m: nat) {
    m < |s.log| && exists k :: m < k < |s.log| && IsSuccessor(s.log[m], s.log[k])
  }

  predicate HasFailure(s: Stream, m: nat) {
    m < |s.log| && s.log[m].Msg? && exists k :: 0 <= k < |s.failures| && s.failures[k].jobId == s.log[m].id
  }

  // error[:1000]
  function Cut(error: string): string {
    if |error| > 1000 then error[..1000] else error
  }

  // ---- the queue objects ----

  class RedisServer {
    var stream: Stream

    constructor ()
      ensures stream == EMPTY_STREAM && WellFormed(stream)
    {
      stream := EMPTY_STREAM;
    }
  }

  // What the server answers to XAUTOCLAIM: an error, nothing, or one idle entry.
  datatype ClaimReply = ClaimError | NothingIdle | Reclaimed(m: nat)

  class RedisQueue {
    const server: RedisServer
    const consumer: nat
    const claimIdleMs: int
    var inflight: map<nat, nat>

    constructor (server: RedisServer, consumer: nat, claimIdleMs: int)
      ensures this.server == server && this.consumer == consumer && this.claimIdleMs == claimIdleMs
      ensures inflight == map[]
    {
      this.server := server;
      this.consumer := consumer;
      this.claimIdleMs := claimIdleMs;
      inflight := map[];
    }

    method Enqueue(id: nat, jobType: JobType, target: nat, attempt: nat)
      modifies server
      ensures server.stream == XAdd(old(server.stream), Msg(id, jobType, target, attempt))
    {
      server.stream := server.stream.(log := server.stream.log + [Msg(id, jobType, target, attempt)]);
    }

    /** Reclaims an idle entry if the server offers one, otherwise reads the next new
        entry. A malformed entry is acknowledged on the spot. */
    method Dequeue(now: int, reply: ClaimReply) returns (job: Option<Entry>)
      requires WellFormed(server.stream)
      requires reply.Reclaimed? ==> Claimable(server.stream, reply.m, now, claimIdleMs)
      modifies this, server
      ensures WellFormed(server.stream)
      ensures server.stream.log == old(server.stream).log && server.stream.failures == old(server.stream).failures
      ensures server.stream == Delivered(old(server.stream), consumer, now, reply)
      ensures match Target(old(server.stream), reply)
              case None => job == None && inflight == old(inflight)
              case Some(m) =>
                var e := old(server.stream).log[m];
                if e.Malformed? then job == None && inflight == old(inflight) && m in server.stream.acked
                else && job == Some(e) && inflight == old(inflight)[e.id := m]
                     && m in server.stream.pending && server.stream.pending[m] == Lease(consumer, now)
      ensures reply.Reclaimed? ==> server.stream.cursor == old(server.stream).cursor
      ensures forall m | m in old(server.stream).pending && !(reply.Reclaimed? && m == reply.m) ::
                m in server.stream.pending && server.stream.pending[m] == old(server.stream).pending[m]
    {
      var s := server.stream;
      var found := false;
      var m := 0;
      if reply.Reclaimed? {
        m, found := reply.m, true;
        CommandsKeepWellFormed(s, Malformed, m, consumer, now, "");
        s := s.(pending := s.pending[m := Lease(consumer, now)]);
      }
      if !found {
        if s.cursor == |s.log| {
          return None;
        }
        m := s.cursor;
        CommandsKeepWellFormed(s, Malformed, m, consumer, now, "");
        s := s.(cursor := m + 1, pending := s.pending[m := Lease(consumer, now)]);
      }
      CommandsKeepWellFormed(s, Malformed, m, consumer, now, "");
      match s.log[m] {
        case Malformed =>
          server.stream := s.(pending := s.pending - {m}, acked := s.acked + {m});
          job := None;
        case Msg(id, _, _, _) =>
          inflight := inflight[id := m];
          server.stream := s;
          job := Some(s.log[m]);
      }
    }

    method Acknowledge(jobId: nat)
      modifies this, server
      ensures jobId in old(inflight) ==> old(inflight)[jobId] !in server.stream.pending
      ensures inflight == old(inflight) - {jobId}
      ensures server.stream == if jobId in old(inflight) then XAck(old(server.stream), old(inflight)[jobId])
          else old(server.stream)
    {
      if jobId in inflight {
        var m := inflight[jobId];
        inflight := inflight - {jobId};
        var s := server.stream;
        if m in s.pending {
          server.stream := s.(pending := s.pending - {m}, acked := s.acked + {m});
        }
      }
    }

    method Fail(jobId: nat, error: string)
      modifies this, server
      ensures server.stream.failures
              == old(server.stream).failures + [Failure(jobId, if |error| > 1000 then error[..1000] else error)]
      ensures inflight == old(inflight) - {jobId}
      ensures var logged := XAddFailure(old(server.stream), jobId, Cut(error));
              server.stream == if jobId in old(inflight) then XAck(logged, old(inflight)[jobId]) else logged
    {
      var held := jobId in inflight;
      var m := if held then inflight[jobId] else 0;
      inflight := inflight - {jobId};
      var text := Cut(error);
      server.stream := server.stream.(failures := server.stream.failures + [Failure(jobId, text)]);
      if held && m in server.stream.pending {
        var s := server.stream;
        server.stream := s.(pending := s.pending - {m}, acked := s.acked + {m});
      }
    }
  }

  // The entry a dequeue hands over: the reclaimed one, else the next unread one.
  function Target(s: Stream, reply: ClaimReply): (m: Option<nat>)
    ensures WellFormed(s) && (reply.Reclaimed? ==> reply.m in s.pending) && m.Some? ==> m.value < |s.log|
  {
    if reply.Reclaimed? then Some(reply.m)
    else if s.cursor < |s.log| then Some(s.cursor)
    else None
  }

  function Delivered(s: Stream, consumer: nat, now: int, reply: ClaimReply): Stream
    requires WellFormed(s) && (reply.Reclaimed? ==> reply.m in s.pending)
  {
    match Target(s, reply)
    case None => s
    case Some(m) =>
      var leased := if reply.Reclaimed? then XClaim(s, m, consumer, now) else XRead(s, consumer, now);
      if s.log[m].Malformed? then XAck(leased, m) else leased
  }

  // XACK of the message in flight for a job, if there is one.
  function AckJob(s: Stream, inflight: map<nat, nat>, jobId: nat): Stream {
    if jobId in inflight then XAck(s, inflight[jobId]) else s
  }

  // The stream after a message was handled: acknowledged, an error answered first.
  function Handled(s: Stream, inflight: map<nat, nat>, job: Entry, error: Option<string>, maxRetries: int,
                   freshId: nat): Stream
    requires job.Msg?
  {
    match error
    case None => AckJob(s, inflight, job.id)
    case Some(text) =>
      if CanRetry(job, maxRetries) then AckJob(XAdd(s, Successor(job, freshId)), inflight, job.id)
      else AckJob(XAddFailure(s, job.id, Cut(text)), inflight, job.id)
  }

  /** _process_job after the job body has returned (`error` is None) or raised. */
  method ProcessJob(q: RedisQueue, job: Entry, error: Option<string>, maxRetries: int, freshId: nat)
    requires job.Msg?
    requires WellFormed(q.server.stream)
    // the entry in flight may meanwhile have been reclaimed, and even acknowledged, by another worker
    requires job.id in q.inflight ==>
               var m := q.inflight[job.id];
               (m in q.server.stream.pending || m in q.server.stream.acked) && q.server.stream.log[m] == job
    modifies q, q.server
    ensures WellFormed(q.server.stream)
    ensures q.inflight == old(q.inflight) - {job.id}
    ensures q.server.stream == Handled(old(q.server.stream), old(q.inflight), job, error, maxRetries, freshId)
    // exactly the held message is acknowledged, if it has not been before
    ensures q.server.stream.acked == old(q.server.stream).acked
        + (if job.id in old(q.inflight) then {old(q.inflight)[job.id]} else {})
    // the four retryable types are retried below the limit, and nothing else is
    ensures error.None? ==> q.server.stream.log == old(q.server.stream).log
                            && q.server.stream.failures == old(q.server.stream).failures
    ensures error.Some? && job.jobType in {IndexDocument, EvaluatorAgent, ObserverAgent, AggregateEvents}
            && job.attempt < maxRetries ==>
              && q.server.stream.log == old(q.server.stream).log
                  + [Msg(freshId, job.jobType, job.target, job.attempt + 1)]
              && q.server.stream.failures == old(q.server.stream).failures
    ensures error.Some? && (job.jobType in {WorkflowRun, EvalRun} || job.attempt >= maxRetries) ==>
              var text := if |error.value| > 1000 then error.value[..1000] else error.value;
              && q.server.stream.log == old(q.server.stream).log
              && q.server.stream.failures == old(q.server.stream).failures + [Failure(job.id, text)]
    // success appends nothing; an error appends one successor or one failure record
    ensures var before := old(q.server.stream);
            && q.server.stream.log == before.log
                + (if error.Some? && CanRetry(job, maxRetries) then [Successor(job, freshId)] else [])
            && |q.server.stream.failures| == |before.failures|
                + (if error.Some? && !CanRetry(job, maxRetries) then 1 else 0)
    ensures job.id in old(q.inflight) && error.Some? ==>
              var m := old(q.inflight)[job.id];
              HasSuccessor(q.server.stream, m) || HasFailure(q.server.stream, m)
  {
    ghost var before := q.server.stream;
    ghost var m := if job.id in q.inflight then q.inflight[job.id] else 0;
    CommandsKeepWellFormed(before, Successor(job, freshId), m, 0, 0, "");
    match error {
      case None =>
        q.Acknowledge(job.id);
      case Some(text) =>
        if CanRetry(job, maxRetries) {
          q.Enqueue(freshId, job.jobType, job.target, job.attempt + 1);
          CommandsKeepWellFormed(q.server.stream, job, m, 0, 0, "");
          q.Acknowledge(job.id);
          assert q.server.stream.log[|before.log|] == Successor(job, freshId);
        } else {
          CommandsKeepWellFormed(before, job, job.id, 0, 0, Cut(text));
          CommandsKeepWellFormed(XAddFailure(before, job.id, Cut(text)), job, m, 0, 0, "");
          q.Fail(job.id, text);
          assert q.server.stream.failures[|before.failures|].jobId == job.id;
        }
    }
  }

  // ---- the in-process reference queue ----

  class InlineQueue {
    var jobs: seq<Entry>
    var failed: map<nat, string>

    constructor ()
      ensures jobs == [] && failed == map[]
    {
      jobs, failed := [], map[];
    }

    method Enqueue(id: nat, jobType: JobType, target: nat, attempt: nat)
      modifies this
      ensures jobs == old(jobs) + [Msg(id, jobType, target, attempt)] && failed == old(failed)
    {
      jobs := jobs + [Msg(id, jobType, target, attempt)];
    }

    method Dequeue() returns (job: Option<Entry>)
      modifies this
      ensures failed == old(failed)
      ensures if old(jobs) == [] then job == None && jobs == []
              else job == Some(old(jobs)[0]) && jobs == old(jobs)[1..]
    {
      if jobs == [] {
        return None;
      }
      job := Some(jobs[0]);
      jobs := jobs[1..];
    }

    method Fail(jobId: nat, error: string)
      modifies this
      ensures jobs == old(jobs)
      ensures failed == old(failed)[jobId := if |error| > 1000 then error[..1000] else error]
    {
      failed := failed[jobId := Cut(error)];
    }
  }

  // A sequence of calls to a queue: put a well-formed job, take one, report one done or failed.
  datatype Call =
    | Put(id: nat, jobType: JobType, target: nat, attempt: nat)
    | Take(now: int)
    | Done(jobId: nat)
    | GiveUp(jobId: nat, error: string)

  function InlineAnswers(jobs: seq<Entry>, calls: seq<Call>): seq<Option<Entry>>
    decreases |calls|
  {
    if calls == [] then []
    else match calls[0]
      case Put(id, jobType, target, attempt) => InlineAnswers(jobs + [Msg(id, jobType, target, attempt)], calls[1..])
      case Take(_) =>
        if jobs == [] then [None] + InlineAnswers(jobs, calls[1..])
        else [Some(jobs[0])] + InlineAnswers(jobs[1..], calls[1..])
      case Done(_) => InlineAnswers(jobs, calls[1..])
      case GiveUp(_, _) => InlineAnswers(jobs, calls[1..])
  }

  // The same calls against the stream, when nothing is idle long enough to be reclaimed.
  function RedisAnswers(s: Stream, inflight: map<nat, nat>, consumer: nat, calls: seq<Call>): seq<Option<Entry>>
    requires s.cursor <= |s.log|
    decreases |calls|
  {
    if calls == [] then []
    else match calls[0]
      case Put(id, jobType, target, attempt) =>
        RedisAnswers(XAdd(s, Msg(id, jobType, target, attempt)), inflight, consumer, calls[1..])
      case Take(now) =>
        if s.cursor == |s.log| then [None] + RedisAnswers(s, inflight, consumer, calls[1..])
        else
          var e, t := s.log[s.cursor], XRead(s, consumer, now);
          if e.Malformed? then [None] + RedisAnswers(XAck(t, s.cursor), inflight, consumer, calls[1..])
          else [Some(e)] + RedisAnswers(t, inflight[e.id := s.cursor], consumer, calls[1..])
      case Done(id) => RedisAnswers(AckJob(s, inflight, id), inflight - {id}, consumer, calls[1..])
      case GiveUp(id, error) =>
        RedisAnswers(AckJob(XAddFailure(s, id, Cut(error)), inflight, id), inflight - {id}, consumer, calls[1..])
  }

  /** Without reclaiming, the stream hands out jobs exactly as the in-process FIFO queue does,
      whatever is acknowledged or given up in between. */
  lemma {:induction false} RedisRefinesInline(s: Stream, inflight: map<nat, nat>, consumer: nat, calls: seq<Call>)
    requires s.cursor <= |s.log| && forall m | s.cursor <= m < |s.log| :: s.log[m].Msg?
    ensures RedisAnswers(s, inflight, consumer, calls) == InlineAnswers(s.log[s.cursor..], calls)
    decreases |calls|
  {
    if calls != [] {
      match calls[0] {
        case Put(id, jobType, target, attempt) =>
          var e := Msg(id, jobType, target, attempt);
          RedisRefinesInline(XAdd(s, e), inflight, consumer, calls[1..]);
          assert XAdd(s, e).log[s.cursor..] == s.log[s.cursor..] + [e];
        case Take(now) =>
          if s.cursor == |s.log| {
            RedisRefinesInline(s, inflight, consumer, calls[1..]);
          } else {
            RedisRefinesInline(XRead(s, consumer, now), inflight[s.log[s.cursor].id := s.cursor], consumer, calls[1..]);
            assert s.log[s.cursor..][1..] == s.log[s.cursor + 1..];
          }
        case Done(id) => RedisRefinesInline(AckJob(s, inflight, id), inflight - {id}, consumer, calls[1..]);
        case GiveUp(id, error) =>
          RedisRefinesInline(AckJob(XAddFailure(s, id, Cut(error)), inflight, id), inflight - {id}, consumer,
              calls[1..]);
      }
    }
  }
}
