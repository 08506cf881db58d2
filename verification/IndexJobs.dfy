/** The index-job row and its execution, from incidentops/worker/jobs.py. */
module IndexJobs {
  import opened Prelude

  datatype Status = Pending | Queued | Running | Completed | Stale | Failed

  datatype Row = Row(
    status: Status,
    attempts: nat,
    version: nat,
    queuedAt: Option<int>,
    errorCode: Option<string>,
    finishedAt: Option<int>)

  function NewRow(version: nat): Row {
    Row(Pending, 0, version, None, None, None)
  }

  // How the indexing work inside an execution ends: it returns with the error codes
  // of the batch result, it raises, or the worker's timeout cancels it.
  datatype Work = Indexed(errors: seq<string>) | Raised(error: string) | Cancelled

  // What the caller of the execution sees.
  datatype Outcome = Returned | Reraised | TimedOut

  predicate EarlyReturn(r: Row) {
    r.status.Completed? || r.status.Stale? || r.status.Running?
  }

  // The two guards that settle a row without running it.
  function Settled(r: Row, limit: int, version: nat, now: int): Option<Row> {
    if r.attempts >= limit then
      Some(r.(status := Failed, finishedAt := Some(now),
              errorCode := if r.errorCode == None || r.errorCode == Some("") then Some("retry_limit_exceeded")
                           else r.errorCode))
    else if r.version != version then
      Some(r.(status := Stale, finishedAt := Some(now), errorCode := Some("index_version_changed")))
    else None
  }

  // The uncommitted working copy of a row that passed the guards.
  function Started(r: Row): Row {
    r.(status := Running, attempts := r.attempts + 1)
  }

  function Truncated(s: string): string {
    if |s| > 64 then s[..64] else s
  }

  // The row committed when the work of a started row ends.
  function Finished(r: Row, work: Work, limit: int, now: int): Row
    requires !work.Cancelled?
  {
    match work
    case Indexed(errors) =>
      if errors == [] then r.(status := Completed, errorCode := None, finishedAt := Some(now))
      else r.(status := Failed, errorCode := Some(errors[0]), finishedAt := Some(now))
    case Raised(error) =>
      if r.attempts < limit then r.(status := Pending, errorCode := Some(Truncated(error)), finishedAt := None)
      else r.(status := Failed, errorCode := Some(Truncated(error)), finishedAt := Some(now))
  }

  // Rows no execution can leave any more.
  predicate Terminal(r: Row, limit: int) {
    r.status.Completed? || r.status.Stale? || (r.status.Failed? && r.attempts >= limit)
  }

  // What every committed row satisfies.
  predicate RowOk(r: Row, limit: int) {
    && !r.status.Running?
    && r.attempts <= limit
    && (r.status.Pending? || r.status.Queued? ==> r.attempts < limit)
    && (r.status.Queued? ==> r.queuedAt.Some?)
  }

  // The row is to be run: it is neither settled nor running, has attempts left and the version fits.
  predicate GuardsPass(r: Row, limit: int, version: nat) {
    r.status in {Pending, Queued, Failed} && r.attempts < limit && r.version == version
  }

  class IndexJob {
    var status: Status
    var attempts: nat
    var indexVersion: nat
    var queuedAt: Option<int>
    var errorCode: Option<string>
    var finishedAt: Option<int>

    function Snapshot(): Row
      reads this
    {
      Row(status, attempts, indexVersion, queuedAt, errorCode, finishedAt)
    }

    constructor (version: nat)
      ensures Snapshot() == NewRow(version) == Row(Pending, 0, version, None, None, None)
    {
      status, attempts, indexVersion := Pending, 0, version;
      queuedAt, errorCode, finishedAt := None, None, None;
    }

    /** execute_index_document_job on a row whose lock was obtained. The fields end as
        the transaction leaves them: committed, or rolled back by a cancellation. */
    method Execute(limit: int, version: nat, now: int, work: Work) returns (outcome: Outcome)
      modifies this
      ensures indexVersion == old(indexVersion) && queuedAt == old(queuedAt)
      // the attempt count moves by one exactly when the guards pass and the work was not cancelled
      ensures attempts == old(attempts) +
                (if EarlyReturn(old(Snapshot())) || Settled(old(Snapshot()), limit, version, now).Some?
                    || work.Cancelled?
                 then 0 else 1)
      ensures RowOk(old(Snapshot()), limit) ==> RowOk(Snapshot(), limit)
      ensures Terminal(old(Snapshot()), limit) ==> status == old(status) && attempts == old(attempts)
      ensures outcome.Reraised? ==> work.Raised? && (status.Pending? <==> attempts < limit)
      // a row that is completed, stale or running is left alone
      ensures old(status) in {Completed, Stale, Running} ==> Snapshot() == old(Snapshot()) && outcome == Returned
      // an exhausted row fails, keeping an earlier error code
      ensures old(status) in {Pending, Queued, Failed} && old(attempts) >= limit ==>
                && outcome == Returned && status == Failed && finishedAt == Some(now)
                && errorCode == (if old(errorCode) in {None, Some("")} then Some("retry_limit_exceeded")
                    else old(errorCode))
      // a row of another index version becomes stale
      ensures old(status) in {Pending, Queued, Failed} && old(attempts) < limit && indexVersion != version ==>
                && outcome == Returned && status == Stale && finishedAt == Some(now)
                && errorCode == Some("index_version_changed")
      // otherwise the work decides: only a result without errors completes the row
      ensures GuardsPass(old(Snapshot()), limit, version) ==>
                && (status == Completed <==> work == Indexed([]))
                && (match work
                    case Indexed(errors) =>
                      && outcome == Returned && finishedAt == Some(now)
                      && (if errors == [] then errorCode == None else status == Failed && errorCode == Some(errors[0]))
                    case Raised(error) =>
                      && outcome == Reraised && errorCode == Some(if |error| > 64 then error[..64] else error)
                      && (if old(attempts) + 1 < limit then status == Pending && finishedAt == None
                          else status == Failed && finishedAt == Some(now))
                    case Cancelled => outcome == TimedOut && Snapshot() == old(Snapshot()))
      ensures if EarlyReturn(old(Snapshot())) then Snapshot() == old(Snapshot()) && outcome == Returned
              else match Settled(old(Snapshot()), limit, version, now)
                case Some(r) => Snapshot() == r && outcome == Returned
                case None =>
                  if work.Cancelled? then Snapshot() == old(Snapshot()) && outcome == TimedOut
                  else && Snapshot() == Finished(Started(old(Snapshot())), work, limit, now)
                       && outcome == if work.Raised? then Reraised else Returned
    {
      if status.Completed? || status.Stale? || status.Running? {
        return Returned;
      }
      if attempts >= limit {
        status := Failed;
        errorCode := if errorCode == None || errorCode == Some("") then Some("retry_limit_exceeded") else errorCode;
        finishedAt := Some(now);
        return Returned;
      }
      if indexVersion != version {
        status := Stale;
        errorCode := Some("index_version_changed");
        finishedAt := Some(now);
        return Returned;
      }
      var saved := (status, attempts);
      status := Running;
      attempts := attempts + 1;
      match work {
        case Indexed(errors) =>
          status := if errors == [] then Completed else Failed;
          errorCode := if errors == [] then None else Some(errors[0]);
          finishedAt := Some(now);
          outcome := Returned;
        case Raised(error) =>
          var retryable := attempts < limit;
          status := if retryable then Pending else Failed;
          errorCode := Some(Truncated(error));
          finishedAt := if retryable then None else Some(now);
          outcome := Reraised;
        case Cancelled =>
          // CancelledError is not an Exception: the session closes and rolls back
          status, attempts := saved.0, saved.1;
          outcome := TimedOut;
      }
    }
  }
}
