/** The job tables and, for every repository method, the transaction it commits. */
module Jobs {
  import opened Prelude
  import opened Contracts

  datatype JobRow = JobRow(
    taskId: Uuid,
    key: Key,
    priority: int,
    policy: RetryPolicy,
    status: JobStatus,
    attemptCount: nat,
    active: Option<Uuid>,
    createdAt: Time,
    updatedAt: Time,
    availableAt: Time,
    cancelledAt: Option<Time>)

  datatype Attempt = Attempt(
    jobId: Uuid,
    number: nat,
    workerId: string,
    token: Uuid,
    leaseExpiresAt: Time,
    startedAt: Time,
    endedAt: Option<Time>,
    outcome: Option<AttemptOutcome>,
    failureKind: Option<string>,
    errorCode: Option<string>,
    error: Option<string>,
    outputRef: Option<string>)

  datatype Transition = Transition(from: Option<JobStatus>, to: JobStatus, reason: string, at: Time)

  datatype OutboxRow = OutboxRow(attemptId: Uuid, createdAt: Time, publishedAt: Option<Time>)

  /** One value per table; `log` holds job_transitions grouped by job, in order. */
  datatype Db = Db(
    jobs: map<Uuid, JobRow>,
    idempotency: map<Key, Uuid>,
    inputs: map<Uuid, TaskInput>,
    attempts: map<Uuid, Attempt>,
    outputs: map<Uuid, JobResult>,
    outbox: map<Uuid, OutboxRow>,
    log: map<Uuid, seq<Transition>>,
    nextUuid: Uuid)

  const EMPTY: Db := Db(map[], map[], map[], map[], map[], map[], map[], 0)

  datatype JobError = NotFound | InvalidInput | InvalidState | InvalidTransition | LeaseConflict

  // ---- small parts shared by the transactions ----------------------------

  function Pow2(n: nat): (p: nat)
    ensures 1 <= p
  {
    if n == 0 then 1 else 2 * Pow2(n - 1)
  }

  function Min(x: Time, y: Time): Time {
    if x <= y then x else y
  }

  function Exponential(policy: RetryPolicy, n: nat): Time {
    policy.backoff * Pow2(n) as real
  }

  /** The wait that follows attempt number `count` when the job is put back. */
  function RetryDelay(policy: RetryPolicy, count: nat): Time {
    Min(Exponential(policy, if count >= 1 then count - 1 else 0), policy.maxBackoff)
  }

  function LogOf(db: Db, j: Uuid): seq<Transition> {
    if j in db.log then db.log[j] else []
  }

  function Logged(db: Db, j: Uuid, t: Transition): map<Uuid, seq<Transition>> {
    db.log[j := LogOf(db, j) + [t]]
  }

  /** The attempt that `token` may act for: the open, active attempt of a running job. */
  function ActiveAttempt(db: Db, j: Uuid, token: Uuid): Option<Uuid> {
    if && j in db.jobs && db.jobs[j].status == Running && db.jobs[j].active.Some?
       && db.jobs[j].active.value in db.attempts
       && db.attempts[db.jobs[j].active.value].token == token
       && db.attempts[db.jobs[j].active.value].endedAt.None?
    then db.jobs[j].active else None
  }

  /** `token` is the live lease of job `j` at time `now`. */
  predicate LiveLease(db: Db, j: Uuid, token: Uuid, now: Time) {
    var a := ActiveAttempt(db, j, token);
    a.Some? && a.value in db.attempts && now < db.attempts[a.value].leaseExpiresAt
  }

  // ---- enqueue --------------------------------------------------------------

  function NewJob(taskId: Uuid, key: Key, priority: int, policy: RetryPolicy, now: Time): JobRow {
    JobRow(taskId, key, priority, policy, Queued, 0, None, now, now, now, None)
  }

  predicate AcceptsEnqueue(taskId: Uuid, task: Option<TaskInput>, key: Key, priority: int) {
    && (task.Some? ==> task.value.taskId == taskId)
    && -100 <= priority <= 100
    && key != ClientKey("")
  }

  function EnqueueTx(db: Db, taskId: Uuid, task: Option<TaskInput>, key: Key, priority: int,
                     policy: RetryPolicy, now: Time): (Db, Result<Uuid, JobError>)
  {
    if !AcceptsEnqueue(taskId, task, key, priority) then (db, Err(InvalidInput))
    else if key in db.idempotency then (db, Ok(db.idempotency[key]))
    else
      var j := db.nextUuid;
      (db.(jobs := db.jobs[j := NewJob(taskId, key, priority, policy, now)],
           idempotency := db.idempotency[key := j],
           inputs := if task.Some? then db.inputs[j := task.value] else db.inputs,
           log := Logged(db, j, Transition(None, Queued, "enqueue", now)),
           nextUuid := j + 1),
       Ok(j))
  }

  // ---- claim ----------------------------------------------------------------

  predicate Claimable(db: Db, now: Time, j: Uuid) {
    && j in db.jobs
    && db.jobs[j].status == Queued
    && db.jobs[j].availableAt <= now
    && db.jobs[j].attemptCount < db.jobs[j].policy.maxAttempts
  }

  /** Claim order: highest priority, then oldest, then smallest identifier. */
  predicate Before(db: Db, i: Uuid, j: Uuid)
    requires i in db.jobs && j in db.jobs
  {
    var x, y := db.jobs[i], db.jobs[j];
    || x.priority > y.priority
    || (x.priority == y.priority && x.createdAt < y.createdAt)
    || (x.priority == y.priority && x.createdAt == y.createdAt && i <= j)
  }

  ghost predicate IsNext(db: Db, now: Time, j: Uuid) {
    && Claimable(db, now, j)
    && forall i :: Claimable(db, now, i) ==> Before(db, j, i)
  }

  ghost function ClaimTarget(db: Db, now: Time): Option<Uuid> {
    if exists j :: IsNext(db, now, j) then
      var j :| IsNext(db, now, j);
      Some(j)
    else None
  }

  function OpenAttempt(job: JobRow, j: Uuid, worker: string, token: Uuid, lease: Time, now: Time): Attempt {
    Attempt(j, job.attemptCount + 1, worker, token, now + lease, now, None, None, None, None, None, None)
  }

  /** The transaction that starts an attempt of job `j`. */
  function ClaimJob(db: Db, j: Uuid, worker: string, lease: Time, now: Time): Db
    requires j in db.jobs
  {
    var job := db.jobs[j];
    var a := db.nextUuid;
    db.(jobs := db.jobs[j := job.(status := Running, attemptCount := job.attemptCount + 1,
                                  active := Some(a), updatedAt := now)],
        attempts := db.attempts[a := OpenAttempt(job, j, worker, a + 1, lease, now)],
        log := Logged(db, j, Transition(Some(Queued), Running, "claim", now)),
        nextUuid := a + 2)
  }

  /** Result: the claimed job and its new attempt, or nothing to claim. */
  ghost function ClaimTx(db: Db, worker: string, lease: Time, now: Time)
    : (Db, Result<Option<(Uuid, Uuid)>, JobError>)
  {
    if lease <= 0.0 then (db, Err(InvalidInput))
    else match ClaimTarget(db, now)
      case None => (db, Ok(None))
      case Some(j) =>
        if worker == "" then (db, Err(InvalidInput))
        else if j !in db.jobs then (db, Ok(None))
        else (ClaimJob(db, j, worker, lease, now), Ok(Some((j, db.nextUuid))))
  }

  // ---- heartbeat ------------------------------------------------------------

  function HeartbeatTx(db: Db, j: Uuid, token: Uuid, lease: Time, now: Time): (Db, Result<Uuid, JobError>) {
    if lease <= 0.0 then (db, Err(InvalidInput))
    else if !LiveLease(db, j, token, now) then (db, Err(LeaseConflict))
    else
      var a := ActiveAttempt(db, j, token).value;
      (db.(attempts := db.attempts[a := db.attempts[a].(leaseExpiresAt := now + lease)],
           jobs := db.jobs[j := db.jobs[j].(updatedAt := now)]),
       Ok(a))
  }

  // ---- ending an attempt ------------------------------------------------------

  /** Closes attempt `a` of running job `j` as `ended` and moves the job to `target`. */
  function CloseAttempt(db: Db, j: Uuid, a: Uuid, ended: Attempt, target: JobStatus, available: Time,
                        cancelled: Option<Time>, reason: string, now: Time): Db
    requires j in db.jobs
  {
    db.(jobs := db.jobs[j := db.jobs[j].(status := target, active := None, updatedAt := now,
                                         availableAt := available, cancelledAt := cancelled)],
        attempts := db.attempts[a := ended],
        log := Logged(db, j, Transition(Some(Running), target, reason, now)))
  }

  /** A completion of `j` by `token` with the same output reference is already stored. */
  ghost predicate Delivered(db: Db, j: Uuid, token: Uuid, outputRef: string) {
    exists a :: a in db.attempts && IsDelivery(db.attempts[a], j, token, outputRef)
  }

  predicate IsDelivery(a: Attempt, j: Uuid, token: Uuid, outputRef: string) {
    a.jobId == j && a.token == token && a.outcome == Some(Succeeded) && a.outputRef == Some(outputRef)
  }

  ghost function CompleteTx(db: Db, j: Uuid, token: Uuid, outputRef: string, result: Option<JobResult>,
                            now: Time): (Db, Result<(), JobError>)
  {
    if j !in db.jobs then (db, Err(NotFound))
    else if db.jobs[j].status == Completed && Delivered(db, j, token, outputRef) then
      (db, if result.Some? && (j !in db.outputs || db.outputs[j] != result.value) then Err(InvalidState) else Ok(()))
    else if db.jobs[j].status != Running then (db, Err(InvalidState))
    else if !LiveLease(db, j, token, now) then (db, Err(LeaseConflict))
    else if result.Some? && j in db.outputs && db.outputs[j] != result.value then (db, Err(InvalidState))
    else if result.Some? && result.value.HasEvidence() && j !in db.inputs then (db, Err(InvalidState))
    else (CommitResult(db, j, ActiveAttempt(db, j, token).value, outputRef, result, now), Ok(()))
  }

  function CommitResult(db: Db, j: Uuid, a: Uuid, outputRef: string, result: Option<JobResult>, now: Time): Db
    requires j in db.jobs && a in db.attempts
  {
    var ended := db.attempts[a].(endedAt := Some(now), outcome := Some(Succeeded), error := None,
                                 outputRef := Some(outputRef));
    CloseAttempt(db, j, a, ended, Completed, db.jobs[j].availableAt, db.jobs[j].cancelledAt, "completed", now)
      .(outputs := if result.Some? && j !in db.outputs then db.outputs[j := result.value] else db.outputs,
        outbox := if result.Some? && result.value.HasEvidence()
                  then db.outbox[j := OutboxRow(a, now, None)] else db.outbox)
  }

  predicate ShouldRetry(job: JobRow, code: string, retryable: bool) {
    retryable && code in job.policy.retryable && job.attemptCount < job.policy.maxAttempts
  }

  function FailureTx(db: Db, j: Uuid, token: Uuid, error: string, code: string, kind: string,
                     retryable: bool, now: Time): (Db, Result<(), JobError>)
  {
    if j !in db.jobs then (db, Err(NotFound))
    else if db.jobs[j].status != Running then (db, Err(InvalidState))
    else if !LiveLease(db, j, token, now) then (db, Err(LeaseConflict))
    else (CommitFailure(db, j, ActiveAttempt(db, j, token).value, error, code, kind, retryable, now), Ok(()))
  }

  function CommitFailure(db: Db, j: Uuid, a: Uuid, error: string, code: string, kind: string,
                         retryable: bool, now: Time): Db
    requires j in db.jobs && a in db.attempts
  {
    var job := db.jobs[j];
    var retry := ShouldRetry(job, code, retryable);
    var ended := db.attempts[a].(endedAt := Some(now), outcome := Some(Errored), failureKind := Some(kind),
                                 errorCode := Some(code), error := Some(error));
    CloseAttempt(db, j, a, ended, if retry then Queued else Failed,
                 if retry then now + RetryDelay(job.policy, job.attemptCount) else now,
                 job.cancelledAt, (if retry then "retry:" else "failed:") + code, now)
  }

  function CancelTx(db: Db, j: Uuid, now: Time): (Db, Result<(), JobError>) {
    if j !in db.jobs then (db, Err(NotFound))
    else if db.jobs[j].status == Cancelled then (db, Ok(()))
    else if !AllowedTransition(db.jobs[j].status, Cancelled) then (db, Err(InvalidTransition))
    else (CommitCancel(db, j, now), Ok(()))
  }

  function CommitCancel(db: Db, j: Uuid, now: Time): Db
    requires j in db.jobs
  {
    var job := db.jobs[j];
    db.(jobs := db.jobs[j := job.(status := Cancelled, active := None, updatedAt := now,
                                  cancelledAt := Some(now))],
        attempts := if job.status == Running && job.active.Some? && job.active.value in db.attempts
                       && db.attempts[job.active.value].endedAt.None?
                    then db.attempts[job.active.value := Closed(db.attempts[job.active.value], Withdrawn, now)]
                    else db.attempts,
        log := Logged(db, j, Transition(Some(job.status), Cancelled, "cancel", now)))
  }

  function Closed(a: Attempt, outcome: AttemptOutcome, now: Time): Attempt {
    a.(endedAt := Some(now), outcome := Some(outcome))
  }

  // ---- reclaim ----------------------------------------------------------------

  /** The lease of running job `j` has run out by `now`. */
  predicate Expired(db: Db, j: Uuid, now: Time) {
    && j in db.jobs && db.jobs[j].status == Running && db.jobs[j].active.Some?
    && db.jobs[j].active.value in db.attempts
    && db.attempts[db.jobs[j].active.value].endedAt.None?
    && db.attempts[db.jobs[j].active.value].leaseExpiresAt <= now
  }

  predicate Exhausted(job: JobRow) {
    job.attemptCount >= job.policy.maxAttempts
  }

  function ReclaimedJob(job: JobRow, now: Time): JobRow {
    job.(status := if Exhausted(job) then Failed else Queued, active := None, updatedAt := now,
         availableAt := if Exhausted(job) then now else now + RetryDelay(job.policy, job.attemptCount))
  }

  function Reclaim1(job: JobRow, now: Time): Transition {
    Transition(Some(Running), if Exhausted(job) then Failed else Queued, "lease_expired", now)
  }

  function ExpiredJobs(db: Db, now: Time): set<Uuid> {
    set j | j in db.jobs && Expired(db, j, now)
  }

  /** The jobs in `due` are put back or failed, and their active attempts closed. */
  function ReclaimJobs(db: Db, due: set<Uuid>, now: Time): Db {
    db.(jobs := map j | j in db.jobs :: if j in due then ReclaimedJob(db.jobs[j], now) else db.jobs[j],
        attempts := map a | a in db.attempts ::
                      if ClosedBy(db, due, a) then Closed(db.attempts[a], LeaseExpired, now) else db.attempts[a],
        log := map j | j in db.log ::
                 if j in due && j in db.jobs then db.log[j] + [Reclaim1(db.jobs[j], now)] else db.log[j])
  }

  predicate ClosedBy(db: Db, due: set<Uuid>, a: Uuid)
    requires a in db.attempts
  {
    var j := db.attempts[a].jobId;
    j in due && j in db.jobs && db.jobs[j].active == Some(a)
  }

  /** What the loop over the expired rows does for one of them. */
  function ReclaimStep(db: Db, j: Uuid, now: Time): Db
    requires j in db.jobs && db.jobs[j].active.Some? && db.jobs[j].active.value in db.attempts
  {
    var job := db.jobs[j];
    CloseAttempt(db, j, job.active.value, Closed(db.attempts[job.active.value], LeaseExpired, now),
                 if Exhausted(job) then Failed else Queued, ReclaimedJob(job, now).availableAt, job.cancelledAt,
                 "lease_expired", now)
  }

  /** Every expired job is reclaimed, in one transaction. */
  function ReclaimTx(db: Db, now: Time): Db {
    ReclaimJobs(db, ExpiredJobs(db, now), now)
  }

  // ---- outbox -------------------------------------------------------------------

  function AcknowledgeTx(db: Db, j: Uuid, now: Time): Db {
    if j in db.outbox && db.outbox[j].publishedAt.None?
    then db.(outbox := db.outbox[j := db.outbox[j].(publishedAt := Some(now))])
    else db
  }

  // ---- every call, as one step ----------------------------------------------------

  datatype Call =
    | Enqueue(taskId: Uuid, task: Option<TaskInput>, key: Key, priority: int, policy: RetryPolicy)
    | Claim(worker: string, lease: Time)
    | Heartbeat(job: Uuid, token: Uuid, lease: Time)
    | Complete(job: Uuid, token: Uuid, outputRef: string, result: Option<JobResult>)
    | RecordFailure(job: Uuid, token: Uuid, error: string, code: string, kind: string, retryable: bool)
    | Cancel(job: Uuid)
    | ReclaimExpired
    | Acknowledge(job: Uuid)

  /** The tables after the call at time `now`, whether it succeeded or raised. */
  ghost function Apply(db: Db, call: Call, now: Time): Db {
    match call
    case Enqueue(taskId, task, key, priority, policy) => EnqueueTx(db, taskId, task, key, priority, policy, now).0
    case Claim(worker, lease) => ClaimTx(db, worker, lease, now).0
    case Heartbeat(j, token, lease) => HeartbeatTx(db, j, token, lease, now).0
    case Complete(j, token, ref, result) => CompleteTx(db, j, token, ref, result, now).0
    case RecordFailure(j, token, error, code, kind, retryable) =>
      FailureTx(db, j, token, error, code, kind, retryable, now).0
    case Cancel(j) => CancelTx(db, j, now).0
    case ReclaimExpired => ReclaimTx(db, now)
    case Acknowledge(j) => AcknowledgeTx(db, j, now)
  }
}
