/** What an execution leaves in the job tables when its attempt still holds the job. */
module WorkerLaws {
  import opened Prelude
  import opened Contracts
  import opened Jobs
  import opened Worker
  import JobInvariant
  import JobLaws
  import JobRuns

  /** The attempt ended with this failure, and the job waits for another attempt or has failed. */
  predicate EndsFailed(db: Db, after: Db, j: Uuid, error: string, code: string, again: bool)
    requires j in db.jobs && db.jobs[j].active.Some?
  {
    var a := db.jobs[j].active.value;
    && a in after.attempts && after.attempts[a].outcome == Some(Errored)
    && after.attempts[a].error == Some(error) && after.attempts[a].errorCode == Some(code)
    && after.attempts[a].failureKind == Some("execution")
    && j in after.jobs && after.jobs[j].status == if again then Queued else Failed
  }

  predicate EndsCompleted(db: Db, after: Db, j: Uuid, result: JobResult)
    requires j in db.jobs && db.jobs[j].active.Some?
  {
    var a := db.jobs[j].active.value;
    && a in after.attempts && after.attempts[a].outcome == Some(Succeeded)
    && after.attempts[a].outputRef == Some("job-output:" + Digits(j))
    && j in after.jobs && after.jobs[j].status == Completed && j in after.outputs && after.outputs[j] == result
  }

  /** Main theorem. While the attempt holds the job, an execution ends as it should: without a stored task it fails for
      good, a result is committed, a retryable error costs one attempt as long as the policy lists its code and leaves
      attempts, any other error is final, and after a cancellation or a lost lease nothing is reported. */
  lemma ExecutionEnds(db: Db, j: Uuid, token: Uuid, execution: Execution, now: Time)
    requires JobInvariant.Consistent(db) && LiveLease(db, j, token, now)
    ensures j in db.jobs && db.jobs[j].active.Some?
    ensures var job, after := db.jobs[j], JobRuns.Exec(db, Reports(db, j, token, execution, now));
      if j !in db.inputs then EndsFailed(db, after, j, "persisted task input is missing", "invalid_input", false)
      else match execution
        case Returned(result, cancelled) => if cancelled then after == db else EndsCompleted(db, after, j, result)
        case RaisedRetryable(error, code) =>
          EndsFailed(db, after, j, error, code, code in job.policy.retryable && job.attemptCount < job.policy.maxAttempts)
        case RaisedOther(error) => EndsFailed(db, after, j, error, "permanent", false)
        case RaisedCancelled => after == db
        case RaisedLate => after == db
  {
    hide JobInvariant.Consistent, FailureTx, CompleteTx, EndsFailed, EndsCompleted;
    if j !in db.inputs {
      ReportedFailure(db, j, token, MISSING_INPUT, "invalid_input", false, now);
    } else {
      match execution
      case Returned(result, _) => ReportedResult(db, j, token, result, now);
      case RaisedRetryable(error, code) => ReportedFailure(db, j, token, error, code, true, now);
      case RaisedOther(error) => ReportedFailure(db, j, token, error, "permanent", false, now);
      case _ =>
    }
  }

  lemma ReportedFailure(db: Db, j: Uuid, token: Uuid, error: string, code: string, retryable: bool, now: Time)
    requires JobInvariant.Consistent(db) && LiveLease(db, j, token, now)
    ensures var job, after := db.jobs[j], JobRuns.Exec(db, [FailureReport(j, token, error, code, retryable, now)]);
      EndsFailed(db, after, j, error, code,
                 retryable && code in job.policy.retryable && job.attemptCount < job.policy.maxAttempts)
  {
    hide JobInvariant.Consistent, FailureTx;
    JobLaws.FailureIsKept(db, j, token, error, code, "execution", retryable, now);
    JobRuns.FailureDecides(db, j, token, error, code, "execution", retryable, now);
    ExecOne(db, FailureReport(j, token, error, code, retryable, now));
  }

  lemma ReportedResult(db: Db, j: Uuid, token: Uuid, result: JobResult, now: Time)
    requires JobInvariant.Consistent(db) && LiveLease(db, j, token, now) && j in db.inputs
    ensures EndsCompleted(db, JobRuns.Exec(db, Reports(db, j, token, Returned(result, false), now)), j, result)
  {
    hide JobInvariant.Consistent, CompleteTx;
    var report := JobRuns.At(now, Complete(j, token, OutputRef(j), Some(result)));
    JobLaws.CompletionStores(db, j, token, OutputRef(j), result, now);
    ExecOne(db, report);
    assert [report] + [] == [report];
  }
}
