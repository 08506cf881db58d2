/** Taking and handling a message, from incidentops/worker/queue.py and incidentops/worker/main.py, as
    runs of the worker protocol. */
module WorkerMessages {
  import opened Prelude
  import opened JobStream
  import opened WorkerProtocol
  import opened WorkerGuarantees

  // The protocol steps of one dequeue: nothing, a delivery or a reclaim.
  function DequeueSteps(s: Stream, w: nat, reply: ClaimReply): seq<Action>
    requires WellFormed(s) && (reply.Reclaimed? ==> reply.m in s.pending)
  {
    if reply.Reclaimed? then [Worker(Reclaim(w, reply.m))]
    else if s.cursor < |s.log| then [Worker(Deliver(w))]
    else []
  }

  // Worker w has begun to handle message m as handling h.
  predicate Handles(s: State, w: nat, m: nat, h: nat) {
    h in s.handlings && s.handlings[h] == Handling(w, m, true, Received)
  }

  /** A dequeue by worker w. The stream, the job handed over and the table of messages in flight end as
      the protocol's run of its steps says, which records the delivery as a new handling. */
  method Take(q: RedisQueue, now: int, reply: ClaimReply, ghost c: Config, ghost s: State) returns (job: Option<Entry>)
    requires s.stream == q.server.stream && WellFormed(s.stream) && s.clock == now && c.idle == q.claimIdleMs
    requires reply.Reclaimed? ==> Claimable(s.stream, reply.m, s.clock, c.idle)
    modifies q, q.server
    ensures var r := Run(c, s, DequeueSteps(s.stream, q.consumer, reply));
            && r.Some? && q.server.stream == r.value.stream
            && r.value.table == s.table && r.value.locks == s.locks && r.value.retries == s.retries
            && (match job
                case None => r.value.handlings == s.handlings && q.inflight == old(q.inflight)
                case Some(e) =>
                  && Target(s.stream, reply).Some?
                  && var m := Target(s.stream, reply).value;
                  && e == s.stream.log[m] && e.Msg?
                  && q.inflight == old(q.inflight)[e.id := m] && Handles(r.value, q.consumer, m, s.next))
  {
    ghost var steps := DequeueSteps(s.stream, q.consumer, reply);
    if reply.Reclaimed? {
      RunOne(c, s, Worker(Reclaim(q.consumer, reply.m)));
    } else if q.server.stream.cursor < |q.server.stream.log| {
      RunOne(c, s, Worker(Deliver(q.consumer)));
    }
    job := q.Dequeue(now, reply);
  }

  // The protocol steps of handling a message whose body has returned, or raised this error.
  function AnswerSteps(h: nat, job: Entry, error: Option<string>, maxRetries: int): seq<Action>
    requires job.Msg?
  {
    var ack := Worker(Ack(h, true));
    match error
    case None => [ack]
    case Some(text) =>
      if CanRetry(job, maxRetries) then [Worker(Retry(h)), ack] else [Worker(LogFailure(h, text)), ack]
  }

  // The handling is ready for its answer, and the queue object holds its message.
  predicate ReadyToAnswer(s: State, h: nat, job: Entry, error: Option<string>, inflight: map<nat, nat>) {
    && Holds(s, h) && Job(s, h) == job
    && s.handlings[h].phase == (if error.None? then BodyReturned else BodyRaised)
    && (s.handlings[h].held <==> job.id in inflight)
    && (job.id in inflight ==> inflight[job.id] == s.handlings[h].msg)
  }

  // What the steps leave: the stream as the queue object leaves it, and the handling is over.
  predicate AnsweredAs(c: Config, s: State, t: State, h: nat, job: Entry, error: Option<string>,
                       inflight: map<nat, nat>)
    requires job.Msg?
  {
    && t.stream == Handled(s.stream, inflight, job, error, c.maxRetries, |s.stream.log|)
    && t.handlings == s.handlings - {h} && t.table == s.table && t.locks == s.locks
  }

  lemma AckAlone(c: Config, s: State, h: nat, job: Entry, inflight: map<nat, nat>)
    requires job.Msg? && ReadyToAnswer(s, h, job, None, inflight)
    ensures WorkerEnabled(c, s, Ack(h, true))
    ensures AnsweredAs(c, s, WorkerNext(c, s, Ack(h, true)), h, job, None, inflight)
  {
    hide DoReceive, DoBegin, DoFinish, DoCancel, DoCrash, DoRetry, CanRetry, XAck;
  }

  lemma AnswerThenAck(c: Config, s: State, h: nat, job: Entry, text: string, inflight: map<nat, nat>)
    requires job.Msg? && ReadyToAnswer(s, h, job, Some(text), inflight)
    ensures var a := if CanRetry(job, c.maxRetries) then Retry(h) else LogFailure(h, text);
            && WorkerEnabled(c, s, a) && WorkerEnabled(c, WorkerNext(c, s, a), Ack(h, true))
            && AnsweredAs(c, s, WorkerNext(c, WorkerNext(c, s, a), Ack(h, true)), h, job, Some(text), inflight)
  {
    hide DoReceive, DoBegin, DoFinish, DoCancel, DoCrash, CanRetry, XAck;
  }

  lemma AnswerRuns(c: Config, s: State, h: nat, job: Entry, error: Option<string>, inflight: map<nat, nat>)
    requires job.Msg? && ReadyToAnswer(s, h, job, error, inflight)
    ensures var r := Run(c, s, AnswerSteps(h, job, error, c.maxRetries));
            r.Some? && AnsweredAs(c, s, r.value, h, job, error, inflight)
  {
    hide WorkerNext, WorkerEnabled, AnsweredAs, ReadyToAnswer, Run;
    var ack := Worker(Ack(h, true));
    match error {
      case None =>
        AckAlone(c, s, h, job, inflight);
        RunOne(c, s, ack);
      case Some(text) =>
        var a := if CanRetry(job, c.maxRetries) then Worker(Retry(h)) else Worker(LogFailure(h, text));
        AnswerThenAck(c, s, h, job, text, inflight);
        RunOne(c, s, a);
        RunThen(c, s, [a], ack);
        assert [a] + [ack] == [a, ack];
    }
  }

  /** _process_job once the body of handling h has returned or raised. The stream ends as the protocol's
      run of acknowledging, of retrying and acknowledging, or of recording the failure and
      acknowledging says; the handling is over and the database is not touched. */
  method Answer(q: RedisQueue, job: Entry, error: Option<string>, maxRetries: int, freshId: nat,
                ghost c: Config, ghost s: State, ghost h: nat)
    requires s.stream == q.server.stream && WellFormed(s.stream) && job.Msg?
    requires c.maxRetries == maxRetries && freshId == |s.stream.log|
    requires ReadyToAnswer(s, h, job, error, q.inflight) && s.handlings[h].msg < s.stream.cursor
    modifies q, q.server
    ensures var r := Run(c, s, AnswerSteps(h, job, error, maxRetries));
            && r.Some? && q.server.stream == r.value.stream && WellFormed(r.value.stream)
            && r.value.handlings == s.handlings - {h} && r.value.table == s.table && r.value.locks == s.locks
    ensures q.inflight == old(q.inflight) - {job.id}
  {
    AnswerRuns(c, s, h, job, error, q.inflight);
    ProcessJob(q, job, error, maxRetries, freshId);
  }
}
