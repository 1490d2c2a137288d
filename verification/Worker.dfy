/** DurableWorker: an actor on the job tables. Whatever it does is a run of repository calls, so all that
    is proved of arbitrary runs holds of any number of workers. */
module Worker {
  import opened Prelude
  import opened Contracts
  import opened Jobs
  import opened JobRuns
  import JobInvariant
  import JobRepository

  /** A configuration that its validator accepted. */
  datatype ConfigFields = ConfigFields(workerId: string, concurrency: nat, lease: Time, heartbeat: Time)

  type Config = c: ConfigFields | c.workerId != "" && c.concurrency >= 1 && 0.0 < c.heartbeat < c.lease
    witness ConfigFields("w", 1, 30.0, 10.0)

  /** How the executor ended. `cancelled` tells whether the cancellation token was set by then. */
  datatype Execution =
    | Returned(result: JobResult, cancelled: bool)
    | RaisedCancelled
    | RaisedRetryable(error: string, code: string)
    | RaisedLate
    | RaisedOther(error: string)

  const MISSING_INPUT := "persisted task input is missing"
  const NO_SUCH_JOB := "no such job"

  function FailureReport(j: Uuid, token: Uuid, error: string, code: string, retryable: bool, now: Time): Timed {
    At(now, RecordFailure(j, token, error, code, "execution", retryable))
  }

  /** What a worker reports of an execution: the result unless it was cancelled, the error as retryable or
      permanent, and nothing when the executor was cancelled or found itself too late. A job that is not
      there any more makes the completion fail, and that failure is reported too. */
  function Reports(db: Db, j: Uuid, token: Uuid, execution: Execution, now: Time): seq<Timed> {
    if j !in db.inputs then [FailureReport(j, token, MISSING_INPUT, "invalid_input", false, now)]
    else match execution
      case Returned(result, cancelled) =>
        if cancelled then []
        else
          [At(now, Complete(j, token, OutputRef(j), Some(result)))]
          + if j in db.jobs then [] else [FailureReport(j, token, NO_SUCH_JOB, "permanent", false, now)]
      case RaisedCancelled => []
      case RaisedRetryable(error, code) => [FailureReport(j, token, error, code, true, now)]
      case RaisedLate => []
      case RaisedOther(error) => [FailureReport(j, token, error, "permanent", false, now)]
  }

  datatype Claimed = Claimed(job: Uuid, attempt: Uuid, token: Uuid)

  class DurableWorker {
    const repository: JobRepository.SqliteJobRepository
    const config: Config
    /** The attempts that are being executed. */
    var active: set<Uuid>
    var stopping: bool

    ghost predicate Valid()
      reads this, repository
    {
      repository.Valid() && |active| <= config.concurrency
    }

    constructor (repository: JobRepository.SqliteJobRepository, config: Config)
      requires repository.Valid()
      ensures Valid() && active == {} && !stopping && this.repository == repository && this.config == config
    {
      this.repository, this.config := repository, config;
      active, stopping := {}, false;
    }

    method RequestStop()
      modifies this`stopping
      ensures stopping
    {
      stopping := true;
    }

    /** Reclaims expired leases and claims at most one job, unless stopping or at capacity. */
    method RunCycle(done: set<Uuid>, now: Time) returns (busy: bool, claimed: Option<Claimed>, ghost calls: seq<Timed>)
      requires Valid()
      modifies this`active, repository
      ensures Valid()
      ensures repository.Tables() == Exec(old(repository.Tables()), calls)
      ensures calls == if stopping || |old(active) - done| >= config.concurrency then [At(now, ReclaimExpired)]
                       else [At(now, ReclaimExpired), At(now, Claim(config.workerId, config.lease))]
      ensures active == old(active) - done + if claimed.Some? then {claimed.value.attempt} else {}
      ensures claimed.Some? <==> |calls| == 2 && ClaimTarget(ReclaimTx(old(repository.Tables()), now), now).Some?
      ensures claimed.Some? ==> Some(claimed.value.job) == ClaimTarget(ReclaimTx(old(repository.Tables()), now), now)
      ensures busy <==> claimed.Some? || ExpiredJobs(old(repository.Tables()), now) != {}
      ensures claimed.Some? ==> HoldsUntil(repository.Tables(), claimed.value.job, claimed.value.token, now + config.lease)
    {
      hide JobInvariant.Consistent, ClaimTarget, ReclaimTx, ClaimTx, ExpiredJobs;
      ghost var db := repository.Tables();
      active := active - done;
      SubsetIsSmaller(active, old(active));
      var reclaimed := repository.ReclaimExpired(now);
      calls := [At(now, ReclaimExpired)];
      ExecOne(db, calls[0]);
      if stopping || |active| >= config.concurrency { return reclaimed != {}, None, calls; }
      ghost var before := repository.Tables();
      ClaimDecides(before, config.workerId, config.lease, now);
      var r := repository.Claim(config.workerId, config.lease, now);
      calls := [At(now, ReclaimExpired), At(now, Claim(config.workerId, config.lease))];
      ExecTwo(db, calls[0], calls[1]);
      if r.Err? || r.value.None? { return reclaimed != {}, None, calls; }
      var (j, a) := r.value.value;
      ClaimGivesLease(before, config.workerId, config.lease, now, j, a);
      claimed := Some(Claimed(j, a, repository.attempts[a].token));
      active := active + {a};
      busy := true;
    }

    /** Executes a claimed attempt and reports how it ended, with the attempt's own token. */
    method Execute(j: Uuid, token: Uuid, execution: Execution, now: Time) returns (ghost calls: seq<Timed>)
      requires Valid()
      modifies repository
      ensures Valid()
      ensures calls == Reports(old(repository.Tables()), j, token, execution, now)
      ensures repository.Tables() == Exec(old(repository.Tables()), calls)
      ensures !LiveLease(old(repository.Tables()), j, token, now) ==> repository.Tables() == old(repository.Tables())
    {
      hide JobInvariant.Consistent, CompleteTx, FailureTx;
      ghost var db := repository.Tables();
      calls := [];
      var task := repository.GetTask(j);
      if task.None? {
        calls := RecordFailure(j, token, MISSING_INPUT, "invalid_input", false, now);
        return;
      }
      match execution
      case Returned(result, cancelled) =>
        if cancelled { return; }
        var r := repository.Complete(j, token, OutputRef(j), Some(result), now);
        calls := [At(now, Complete(j, token, OutputRef(j), Some(result)))];
        ExecOne(db, calls[0]);
        NothingRetired(db, j, token, calls[0].call, now);
        NotFoundMeansNoJob(db, j, token, OutputRef(j), Some(result), now);
        if r == Err(NotFound) {
          ghost var first := calls[0];
          ghost var mid := repository.Tables();
          ghost var more := RecordFailure(j, token, NO_SUCH_JOB, "permanent", false, now);
          ExecTwo(db, first, more[0]);
          ExecOne(mid, more[0]);
          assert [first] + more == [first, more[0]];
          calls := [first] + more;
        }
      case RaisedCancelled =>
      case RaisedRetryable(error, code) => calls := RecordFailure(j, token, error, code, true, now);
      case RaisedLate =>
      case RaisedOther(error) => calls := RecordFailure(j, token, error, "permanent", false, now);
    }

    method RecordFailure(j: Uuid, token: Uuid, error: string, code: string, retryable: bool, now: Time)
      returns (ghost calls: seq<Timed>)
      requires Valid()
      modifies repository
      ensures Valid()
      ensures calls == [FailureReport(j, token, error, code, retryable, now)]
      ensures repository.Tables() == Exec(old(repository.Tables()), calls)
      ensures !LiveLease(old(repository.Tables()), j, token, now) ==> repository.Tables() == old(repository.Tables())
    {
      hide JobInvariant.Consistent, FailureTx;
      ghost var db := repository.Tables();
      var _ := repository.RecordFailure(j, token, error, code, "execution", retryable, now);
      calls := [FailureReport(j, token, error, code, retryable, now)];
      ExecOne(db, calls[0]);
      NothingRetired(db, j, token, calls[0].call, now);
    }

    /** One beat: renews the lease, or asks the executor to cancel when the job or the lease is lost. */
    method Beat(j: Uuid, token: Uuid, now: Time) returns (cancel: bool)
      requires Valid()
      modifies repository
      ensures Valid()
      ensures cancel <==> j !in old(repository.jobs) || old(repository.jobs)[j].status == Cancelled
                          || !LiveLease(old(repository.Tables()), j, token, now)
      ensures cancel ==> repository.Tables() == old(repository.Tables())
      ensures !cancel ==> HoldsUntil(repository.Tables(), j, token, now + config.lease)
    {
      hide JobInvariant.Consistent;
      var job := repository.GetJob(j);
      if job.None? || job.value.status == Cancelled { return true; }
      var r := repository.Heartbeat(j, token, config.lease, now);
      return r.Err?;
    }
  }

  function OutputRef(j: Uuid): string {
    "job-output:" + Digits(j)
  }

  lemma ExecOne(db: Db, a: Timed)
    ensures Exec(db, [a]) == Apply(db, a.call, a.now)
  {
    hide Apply;
    assert Exec(db, [a]) == Exec(Apply(db, a.call, a.now), [a][1..]);
  }

  lemma ExecTwo(db: Db, a: Timed, b: Timed)
    ensures Exec(db, [a, b]) == Apply(Apply(db, a.call, a.now), b.call, b.now)
  {
    hide Apply;
    assert [a, b][1..] == [b];
    ExecOne(Apply(db, a.call, a.now), b);
  }

  lemma NothingRetired(db: Db, j: Uuid, token: Uuid, call: Call, now: Time)
    requires HolderCall(call, j, token)
    ensures !LiveLease(db, j, token, now) ==> Apply(db, call, now) == db
  {
    hide Apply;
    if !LiveLease(db, j, token, now) { RetiredTokenIsInert(db, j, token, call, now); }
  }

  lemma NotFoundMeansNoJob(db: Db, j: Uuid, token: Uuid, outputRef: string, result: Option<JobResult>, now: Time)
    ensures var done := CompleteTx(db, j, token, outputRef, result, now);
      (done.1 == Err(NotFound) <==> j !in db.jobs) && (j !in db.jobs ==> done.0 == db && !LiveLease(db, j, token, now))
  {
  }

  predicate TookEffect(db: Db, after: Db, j: Uuid, execution: Execution)
    requires j in db.jobs
  {
    match execution
    case Returned(result, cancelled) =>
      if cancelled then after == db
      else j in after.jobs && after.jobs[j].status == Completed && j in after.outputs && after.outputs[j] == result
    case RaisedRetryable(_, code) =>
      j in after.jobs && after.jobs[j].status == if ShouldRetry(db.jobs[j], code, true) then Queued else Failed
    case RaisedOther(_) => j in after.jobs && after.jobs[j].status == Failed
    case _ => after == db
  }

  /** A live holder's report takes effect: the job is completed with the result, or sent back or failed. */
  lemma ReportsTakeEffect(db: Db, j: Uuid, token: Uuid, execution: Execution, now: Time)
    requires JobInvariant.Consistent(db) && LiveLease(db, j, token, now) && j in db.inputs
    ensures TookEffect(db, Exec(db, Reports(db, j, token, execution, now)), j, execution)
  {
    hide JobInvariant.KeysOk, JobInvariant.AttemptsOk, JobInvariant.DistinctOk, JobInvariant.NumbersOk, FailureTx;
    hide JobInvariant.SpacingOk, JobInvariant.TablesOk, JobInvariant.OutputsOk, CompleteTx, ShouldRetry;
    assert JobInvariant.JobOk(db, j);
    match execution
    case Returned(result, cancelled) =>
      ExecOne(db, At(now, Complete(j, token, OutputRef(j), Some(result))));
      CompletionTakesEffect(db, j, token, result, now);
      var complete := At(now, Complete(j, token, OutputRef(j), Some(result)));
      assert [complete] + [] == [complete];
    case RaisedRetryable(error, code) => FailureTakesEffect(db, j, token, error, code, true, now);
    case RaisedOther(error) => FailureTakesEffect(db, j, token, error, "permanent", false, now);
    case _ =>
  }

  lemma FailureTakesEffect(db: Db, j: Uuid, token: Uuid, error: string, code: string, retryable: bool, now: Time)
    requires JobInvariant.Consistent(db) && LiveLease(db, j, token, now)
    ensures var after := Exec(db, [FailureReport(j, token, error, code, retryable, now)]);
      j in after.jobs && after.jobs[j].status == if ShouldRetry(db.jobs[j], code, retryable) then Queued else Failed
    ensures !ShouldRetry(db.jobs[j], code, false)
  {
    hide JobInvariant.Consistent, FailureTx;
    FailureDecides(db, j, token, error, code, "execution", retryable, now);
    ExecOne(db, FailureReport(j, token, error, code, retryable, now));
  }

  lemma CompletionTakesEffect(db: Db, j: Uuid, token: Uuid, result: JobResult, now: Time)
    requires JobInvariant.Consistent(db) && LiveLease(db, j, token, now) && j in db.inputs
    ensures var after := CompleteTx(db, j, token, OutputRef(j), Some(result), now).0;
      && j in after.jobs && after.jobs[j].status == Completed && j in after.outputs && after.outputs[j] == result
  {
    hide JobInvariant.KeysOk, JobInvariant.AttemptsOk, JobInvariant.DistinctOk, JobInvariant.NumbersOk, OutputRef;
    hide JobInvariant.SpacingOk, JobInvariant.TablesOk, JobInvariant.OutputsOk, LogOf, JobInvariant.LogPath;
    assert JobInvariant.JobOk(db, j);
  }

  lemma ClaimDecides(db: Db, worker: string, lease: Time, now: Time)
    requires worker != "" && lease > 0.0
    ensures ClaimTx(db, worker, lease, now).1
            == Ok(if ClaimTarget(db, now).Some? then Some((ClaimTarget(db, now).value, db.nextUuid)) else None)
  {
  }

  lemma ClaimGivesLease(db: Db, worker: string, lease: Time, now: Time, j: Uuid, a: Uuid)
    requires ClaimTx(db, worker, lease, now).1 == Ok(Some((j, a)))
    ensures var db' := ClaimTx(db, worker, lease, now).0;
      a in db'.attempts && HoldsUntil(db', j, db'.attempts[a].token, now + lease)
  {
    hide IsNext, LogOf;
  }
}
