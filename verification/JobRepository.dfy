/** SqliteJobRepository: the job tables and the methods that change them. A method
    that raises in the middle of its transaction leaves the tables as they were. */
module JobRepository {
  import opened Prelude
  import opened Contracts
  import opened Jobs
  import opened JobInvariant

  class SqliteJobRepository {
    var jobs: map<Uuid, JobRow>
    var idempotency: map<Key, Uuid>
    var inputs: map<Uuid, TaskInput>
    var attempts: map<Uuid, Attempt>
    var outputs: map<Uuid, JobResult>
    var outbox: map<Uuid, OutboxRow>
    var log: map<Uuid, seq<Transition>>
    var nextUuid: Uuid

    ghost function Tables(): Db
      reads this
    {
      Db(jobs, idempotency, inputs, attempts, outputs, outbox, log, nextUuid)
    }

    ghost predicate Valid()
      reads this
    {
      Consistent(Tables())
    }

    constructor ()
      ensures Valid() && Tables() == EMPTY
    {
      jobs, idempotency, inputs, attempts := map[], map[], map[], map[];
      outputs, outbox, log, nextUuid := map[], map[], map[], 0;
      new;
      EmptyIsConsistent();
    }

    method RecordTransition(j: Uuid, current: Option<JobStatus>, target: JobStatus, reason: string, now: Time)
      modifies this`log
      ensures log == old(log)[j := (if j in old(log) then old(log)[j] else []) + [Transition(current, target, reason, now)]]
    {
      log := log[j := (if j in log then log[j] else []) + [Transition(current, target, reason, now)]];
    }

    method Enqueue(taskId: Uuid, task: Option<TaskInput>, key: Key, priority: int, policy: RetryPolicy, now: Time)
      returns (r: Result<Uuid, JobError>)
      requires Valid()
      modifies this
      ensures (Tables(), r) == EnqueueTx(old(Tables()), taskId, task, key, priority, policy, now)
      ensures Valid()
    {
      hide Consistent, NewJob;
      if task.Some? && task.value.taskId != taskId { return Err(InvalidInput); }
      if !(-100 <= priority <= 100) || key == ClientKey("") { return Err(InvalidInput); }
      if key in idempotency { return Ok(idempotency[key]); }
      EnqueueKeeps(Tables(), taskId, task, key, priority, policy, now);
      var j := nextUuid;
      nextUuid := nextUuid + 1;
      jobs := jobs[j := NewJob(taskId, key, priority, policy, now)];
      idempotency := idempotency[key := j];
      if task.Some? { inputs := inputs[j := task.value]; }
      RecordTransition(j, None, Queued, "enqueue", now);
      return Ok(j);
    }

    method GetJob(j: Uuid) returns (r: Option<JobRow>)
      ensures r == if j in jobs then Some(jobs[j]) else None
    {
      r := if j in jobs then Some(jobs[j]) else None;
    }

    method GetJobByKey(key: Key) returns (r: Option<Uuid>)
      ensures r == if key in idempotency && idempotency[key] in jobs then Some(idempotency[key]) else None
    {
      r := if key in idempotency && idempotency[key] in jobs then Some(idempotency[key]) else None;
    }

    method GetResult(j: Uuid) returns (r: Option<JobResult>)
      ensures r == if j in outputs then Some(outputs[j]) else None
    {
      r := if j in outputs then Some(outputs[j]) else None;
    }

    /** The scan behind the claim: the first claimable job in claim order, if any. */
    method NextJob(now: Time) returns (best: Option<Uuid>)
      ensures best == ClaimTarget(Tables(), now)
      ensures best.None? <==> forall i :: i in jobs ==> !Claimable(Tables(), now, i)
      ensures best.Some? ==> IsNext(Tables(), now, best.value)
    {
      var todo := jobs.Keys;
      best := None;
      ghost var db := Tables();
      while todo != {}
        invariant todo <= jobs.Keys
        invariant best.None? ==> forall i :: i in jobs && i !in todo ==> !Claimable(db, now, i)
        invariant best.Some? ==> Claimable(db, now, best.value)
        invariant best.Some? ==> forall i :: i in jobs && i !in todo && Claimable(db, now, i) ==> Before(db, best.value, i)
        decreases |todo|
      {
        var i :| i in todo;
        todo := todo - {i};
        var row := jobs[i];
        if row.status == Queued && row.availableAt <= now && row.attemptCount < row.policy.maxAttempts {
          if best.None? {
            best := Some(i);
          } else {
            var b := jobs[best.value];
            if row.priority > b.priority
               || (row.priority == b.priority && row.createdAt < b.createdAt)
               || (row.priority == b.priority && row.createdAt == b.createdAt && i < best.value)
            {
              best := Some(i);
            }
          }
        }
      }
      if best.Some? { assert IsNext(db, now, best.value); }
    }

    method Claim(worker: string, lease: Time, now: Time) returns (r: Result<Option<(Uuid, Uuid)>, JobError>)
      requires Valid()
      modifies this
      ensures (Tables(), r) == ClaimTx(old(Tables()), worker, lease, now)
      ensures Valid()
    {
      ghost var db := Tables();
      hide Consistent, IsNext;
      ClaimKeeps(db, worker, lease, now);
      if lease <= 0.0 { return Err(InvalidInput); }
      var found := NextJob(now);
      if found.None? { return Ok(None); }
      assert found.value in jobs by { NextIsJob(db, now, found.value); }
      if worker == "" { return Err(InvalidInput); }
      var j := found.value;
      var attempt := OpenAttempt(jobs[j], j, worker, nextUuid + 1, lease, now);
      var a := nextUuid;
      nextUuid := nextUuid + 2;
      jobs := jobs[j := jobs[j].(status := Running, attemptCount := jobs[j].attemptCount + 1, active := Some(a),
                                 updatedAt := now)];
      attempts := attempts[a := attempt];
      RecordTransition(j, Some(Queued), Running, "claim", now);
      return Ok(Some((j, a)));
    }

    method FindActiveAttempt(j: Uuid, token: Uuid) returns (a: Option<Uuid>)
      ensures a == ActiveAttempt(Tables(), j, token)
      ensures a.Some? ==> j in jobs && a.value in attempts
    {
      a := None;
      if j in jobs && jobs[j].status == Running && jobs[j].active.Some? && jobs[j].active.value in attempts {
        var x := attempts[jobs[j].active.value];
        if x.token == token && x.endedAt.None? { a := jobs[j].active; }
      }
    }

    method Heartbeat(j: Uuid, token: Uuid, lease: Time, now: Time) returns (r: Result<Uuid, JobError>)
      requires Valid()
      modifies this
      ensures (Tables(), r) == HeartbeatTx(old(Tables()), j, token, lease, now)
      ensures Valid()
    {
      hide Consistent;
      HeartbeatKeeps(Tables(), j, token, lease, now);
      if lease <= 0.0 { return Err(InvalidInput); }
      var a := FindActiveAttempt(j, token);
      if a.None? || attempts[a.value].leaseExpiresAt <= now { return Err(LeaseConflict); }
      attempts := attempts[a.value := attempts[a.value].(leaseExpiresAt := now + lease)];
      jobs := jobs[j := jobs[j].(updatedAt := now)];
      return Ok(a.value);
    }

    method FindDelivery(j: Uuid, token: Uuid, outputRef: string) returns (found: bool)
      ensures found <==> Delivered(Tables(), j, token, outputRef)
    {
      var todo := attempts.Keys;
      found := false;
      while todo != {}
        invariant todo <= attempts.Keys
        invariant found ==> Delivered(Tables(), j, token, outputRef)
        invariant !found ==> forall a :: a in attempts && a !in todo ==> !IsDelivery(attempts[a], j, token, outputRef)
        decreases |todo|
      {
        var a :| a in todo;
        todo := todo - {a};
        if IsDelivery(attempts[a], j, token, outputRef) { found := true; }
      }
    }

    method Complete(j: Uuid, token: Uuid, outputRef: string, result: Option<JobResult>, now: Time)
      returns (r: Result<(), JobError>)
      requires Valid()
      modifies this
      ensures (Tables(), r) == CompleteTx(old(Tables()), j, token, outputRef, result, now)
      ensures Valid()
    {
      hide Consistent;
      hide Delivered;
      CompleteKeeps(Tables(), j, token, outputRef, result, now);
      if j !in jobs { return Err(NotFound); }
      if jobs[j].status == Completed {
        var delivered := FindDelivery(j, token, outputRef);
        if delivered {
          if result.Some? && (j !in outputs || outputs[j] != result.value) { return Err(InvalidState); }
          return Ok(());
        }
      }
      if jobs[j].status != Running { return Err(InvalidState); }
      var a := FindActiveAttempt(j, token);
      if a.None? || attempts[a.value].leaseExpiresAt <= now { return Err(LeaseConflict); }
      var stored := StoreCompletion(j, a.value, outputRef, result, now);
      if !stored { return Err(InvalidState); }
      return Ok(());
    }

    /** The writes of a completion by the live attempt `a`. A failure in the middle rolls them back. */
    method StoreCompletion(j: Uuid, a: Uuid, outputRef: string, result: Option<JobResult>, now: Time)
      returns (stored: bool)
      requires j in jobs && a in attempts
      modifies this
      ensures stored <==> (result.Some? ==> (j in old(outputs) ==> old(outputs)[j] == result.value)
                                            && (result.value.HasEvidence() ==> j in inputs))
      ensures Tables() == if stored then CommitResult(old(Tables()), j, a, outputRef, result, now) else old(Tables())
    {
      var savedAttempts, savedOutputs := attempts, outputs;
      attempts := attempts[a := attempts[a].(endedAt := Some(now), outcome := Some(Succeeded), error := None,
                                             outputRef := Some(outputRef))];
      if result.Some? {
        if j in outputs && outputs[j] != result.value {
          attempts := savedAttempts;
          return false;
        }
        if j !in outputs { outputs := outputs[j := result.value]; }
        if result.value.HasEvidence() {
          if j !in inputs {
            attempts, outputs := savedAttempts, savedOutputs;
            return false;
          }
          outbox := outbox[j := OutboxRow(a, now, None)];
        }
      }
      jobs := jobs[j := jobs[j].(status := Completed, active := None, updatedAt := now)];
      RecordTransition(j, Some(Running), Completed, "completed", now);
      return true;
    }

    method RecordFailure(j: Uuid, token: Uuid, error: string, code: string, kind: string, retryable: bool, now: Time)
      returns (r: Result<(), JobError>)
      requires Valid()
      modifies this
      ensures (Tables(), r) == FailureTx(old(Tables()), j, token, error, code, kind, retryable, now)
      ensures Valid()
    {
      hide Consistent, RetryDelay;
      FailureKeeps(Tables(), j, token, error, code, kind, retryable, now);
      if j !in jobs { return Err(NotFound); }
      if jobs[j].status != Running { return Err(InvalidState); }
      var a := FindActiveAttempt(j, token);
      if a.None? || attempts[a.value].leaseExpiresAt <= now { return Err(LeaseConflict); }
      var job := jobs[j];
      var retry := retryable && code in job.policy.retryable && job.attemptCount < job.policy.maxAttempts;
      var target := if retry then Queued else Failed;
      attempts := attempts[a.value := attempts[a.value].(endedAt := Some(now), outcome := Some(Errored),
                                                         failureKind := Some(kind), errorCode := Some(code),
                                                         error := Some(error))];
      var available := if retry then now + RetryDelay(job.policy, job.attemptCount) else now;
      jobs := jobs[j := job.(status := target, active := None, updatedAt := now, availableAt := available)];
      RecordTransition(j, Some(Running), target, (if retry then "retry:" else "failed:") + code, now);
      return Ok(());
    }

    method Cancel(j: Uuid, now: Time) returns (r: Result<(), JobError>)
      requires Valid()
      modifies this
      ensures (Tables(), r) == CancelTx(old(Tables()), j, now)
      ensures Valid()
    {
      hide Consistent, CommitCancel;
      CancelKeeps(Tables(), j, now);
      if j !in jobs { return Err(NotFound); }
      if jobs[j].status == Cancelled { return Ok(()); }
      if jobs[j].status != Queued && jobs[j].status != Running { return Err(InvalidTransition); }
      StoreCancellation(j, now);
      return Ok(());
    }

    method StoreCancellation(j: Uuid, now: Time)
      requires j in jobs
      modifies this
      ensures Tables() == CommitCancel(old(Tables()), j, now)
    {
      var job := jobs[j];
      if job.status == Running && job.active.Some? && job.active.value in attempts
         && attempts[job.active.value].endedAt.None?
      {
        attempts := attempts[job.active.value := Closed(attempts[job.active.value], Withdrawn, now)];
      }
      jobs := jobs[j := job.(status := Cancelled, active := None, updatedAt := now, cancelledAt := Some(now))];
      RecordTransition(j, Some(job.status), Cancelled, "cancel", now);
    }

    /** What the transaction does for one expired row. */
    method ReclaimRow(j: Uuid, now: Time)
      requires j in jobs && jobs[j].active.Some? && jobs[j].active.value in attempts
      modifies this
      ensures Tables() == ReclaimStep(old(Tables()), j, now)
    {
      var job := jobs[j];
      var target := if job.attemptCount >= job.policy.maxAttempts then Failed else Queued;
      attempts := attempts[job.active.value := Closed(attempts[job.active.value], LeaseExpired, now)];
      var available := if target == Failed then now else now + RetryDelay(job.policy, job.attemptCount);
      jobs := jobs[j := job.(status := target, active := None, updatedAt := now, availableAt := available)];
      RecordTransition(j, Some(Running), target, "lease_expired", now);
    }

    method FindExpired(now: Time) returns (rows: set<Uuid>)
      ensures rows == ExpiredJobs(Tables(), now)
      ensures forall j :: j in rows ==> j in jobs && jobs[j].status == Running
    {
      rows := set j | j in jobs && jobs[j].status == Running && jobs[j].active.Some?
                      && jobs[j].active.value in attempts
                      && attempts[jobs[j].active.value].endedAt.None?
                      && attempts[jobs[j].active.value].leaseExpiresAt <= now;
    }

    /** One transaction over every row whose lease has run out, in any order. */
    method ReclaimExpired(now: Time) returns (reclaimed: set<Uuid>)
      requires Valid()
      modifies this
      ensures Tables() == ReclaimTx(old(Tables()), now)
      ensures Valid()
      ensures reclaimed == old(ExpiredJobs(Tables(), now))
    {
      hide KeysOk, JobsOk, AttemptsOk, DistinctOk, NumbersOk, OutputsOk, SpacingOk, TablesOk;
      hide ReclaimStep, ReclaimJobs, Expired;
      ghost var db := Tables();
      var rows := FindExpired(now);
      reclaimed := {};
      ReclaimNone(db, now);
      while reclaimed != rows
        invariant reclaimed <= rows
        invariant Tables() == ReclaimJobs(db, reclaimed, now)
        decreases |rows - reclaimed|
      {
        var j :| j in rows - reclaimed;
        ActiveFacts(db, j);
        TablesFacts(db);
        ReclaimOneMore(db, reclaimed, j, now);
        ReclaimLeavesRest(db, reclaimed, j, now);
        ReclaimRow(j, now);
        reclaimed := reclaimed + {j};
      }
      ReclaimJobsKeeps(db, rows, now);
    }

    method GetTask(j: Uuid) returns (r: Option<TaskInput>)
      ensures r == if j in inputs then Some(inputs[j]) else None
    {
      r := if j in inputs then Some(inputs[j]) else None;
    }

    /** The unpublished events, oldest first, at most `limit` of them. */
    method PendingCompletions(limit: nat) returns (pending: seq<Uuid>)
      ensures |pending| <= limit
      ensures forall i :: 0 <= i < |pending| ==> pending[i] in outbox && outbox[pending[i]].publishedAt.None?
      ensures forall i, k :: 0 <= i < k < |pending| ==>
        pending[i] != pending[k] && outbox[pending[i]].createdAt <= outbox[pending[k]].createdAt
      ensures forall j :: j in outbox && outbox[j].publishedAt.None? && j !in pending ==>
        |pending| == limit && forall i :: 0 <= i < |pending| ==> outbox[pending[i]].createdAt <= outbox[j].createdAt
    {
      pending := [];
      var rest := set j | j in outbox && outbox[j].publishedAt.None?;
      while rest != {} && |pending| < limit
        invariant |pending| <= limit
        invariant forall j :: j in outbox && outbox[j].publishedAt.None? <==> j in rest || j in pending
        invariant forall i :: 0 <= i < |pending| ==> pending[i] !in rest
        invariant forall i, k :: 0 <= i < k < |pending| ==>
          pending[i] != pending[k] && outbox[pending[i]].createdAt <= outbox[pending[k]].createdAt
        invariant forall i, j :: 0 <= i < |pending| && j in rest ==> outbox[pending[i]].createdAt <= outbox[j].createdAt
        decreases |rest|
      {
        var j := Oldest(rest);
        rest := rest - {j};
        pending := pending + [j];
      }
    }

    method Oldest(rest: set<Uuid>) returns (oldest: Uuid)
      requires rest != {} && forall j :: j in rest ==> j in outbox
      ensures oldest in rest && forall j :: j in rest ==> outbox[oldest].createdAt <= outbox[j].createdAt
    {
      oldest :| oldest in rest;
      var todo := rest - {oldest};
      while todo != {}
        invariant todo <= rest && oldest in rest
        invariant forall j :: j in rest && j !in todo ==> outbox[oldest].createdAt <= outbox[j].createdAt
        decreases |todo|
      {
        var j :| j in todo;
        todo := todo - {j};
        if outbox[j].createdAt < outbox[oldest].createdAt { oldest := j; }
      }
    }

    method AcknowledgeCompletion(j: Uuid, now: Time)
      requires Valid()
      modifies this
      ensures Tables() == AcknowledgeTx(old(Tables()), j, now)
      ensures Valid()
    {
      hide Consistent;
      AcknowledgeKeeps(Tables(), j, now);
      if j in outbox && outbox[j].publishedAt.None? {
        outbox := outbox[j := outbox[j].(publishedAt := Some(now))];
      }
    }
  }

  lemma NextIsJob(db: Db, now: Time, j: Uuid)
    requires IsNext(db, now, j)
    ensures j in db.jobs && db.jobs[j].status == Queued
  {
  }

  lemma ReclaimLeavesRest(db: Db, due: set<Uuid>, j: Uuid, now: Time)
    requires j in db.jobs && j !in due && db.jobs[j].active.Some? && db.jobs[j].active.value in db.attempts
    ensures var db' := ReclaimJobs(db, due, now);
      j in db'.jobs && db'.jobs[j] == db.jobs[j] && db.jobs[j].active.value in db'.attempts
  {
  }

  lemma ReclaimNone(db: Db, now: Time)
    ensures ReclaimJobs(db, {}, now) == db
  {
    var none := ReclaimJobs(db, {}, now);
    assert none.jobs == db.jobs && none.attempts == db.attempts && none.log == db.log;
  }
}
