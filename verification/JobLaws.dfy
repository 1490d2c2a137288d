/** What each repository transaction decides, told from the rows before and after it. */
module JobLaws {
  import opened Prelude
  import opened Contracts
  import opened Jobs
  import opened JobInvariant

  // ---- enqueue ----------------------------------------------------------------------

  /** Nothing but the new job's own rows differs. */
  ghost predicate OthersAreLeft(db: Db, db': Db, j: Uuid) {
    && db'.attempts == db.attempts && db'.outputs == db.outputs && db'.outbox == db.outbox
    && (forall i :: i in db.jobs ==> i in db'.jobs && db'.jobs[i] == db.jobs[i])
    && (forall i :: i in db.inputs ==> i in db'.inputs && db'.inputs[i] == db.inputs[i])
    && (forall i :: i in db'.jobs && i !in db.jobs ==> i == j)
    && (forall i :: i in db'.inputs && i !in db.inputs ==> i == j)
  }

  /** A request under a new key stores a job with exactly what was asked for. It is queued, and can be claimed
      from that moment on. */
  lemma EnqueueStores(db: Db, taskId: Uuid, task: Option<TaskInput>, key: Key, priority: int, policy: RetryPolicy,
                      now: Time)
    requires Consistent(db) && key !in db.idempotency
    requires (task.Some? ==> task.value.taskId == taskId) && -100 <= priority <= 100 && key != ClientKey("")
    ensures var (db', r) := EnqueueTx(db, taskId, task, key, priority, policy, now);
      && r.Ok? && r.value !in db.jobs && OthersAreLeft(db, db', r.value)
      && key in db'.idempotency && db'.idempotency[key] == r.value && r.value in db'.jobs
      && var job := db'.jobs[r.value];
         && job.taskId == taskId && job.key == key && job.priority == priority && job.policy == policy
         && job.status == Queued && job.attemptCount == 0 && job.active == None
         && job.createdAt == now && job.updatedAt == now && job.cancelledAt == None
         && (r.value in db'.inputs <==> task.Some?) && (task.Some? ==> db'.inputs[r.value] == task.value)
         && LogOf(db', r.value) == [Transition(None, Queued, "enqueue", now)]
         && forall later :: Claimable(db', later, r.value) <==> now <= later
  {
    hide KeysOk, JobsOk, AttemptsOk, DistinctOk, NumbersOk, OutputsOk, SpacingOk, TablesOk;
    FreshIds(db);
    InputsHaveJobs(db);
  }

  lemma InputsHaveJobs(db: Db)
    requires TablesOk(db)
    ensures forall i :: i in db.inputs ==> i in db.jobs
  {
  }

  /** Everything else is refused without change. */
  lemma EnqueueRefuses(db: Db, taskId: Uuid, task: Option<TaskInput>, key: Key, priority: int, policy: RetryPolicy,
                       now: Time)
    ensures var (db', r) := EnqueueTx(db, taskId, task, key, priority, policy, now);
      && (r.Err? <==> (task.Some? && task.value.taskId != taskId) || priority < -100 || priority > 100 || key == ClientKey(""))
      && (r.Err? ==> r.error == InvalidInput && db' == db)
  {
  }

  // ---- claim -------------------------------------------------------------------------

  /** May be claimed at `now`: waiting, due, and with an attempt left. */
  predicate Waiting(db: Db, now: Time, j: Uuid) {
    && j in db.jobs && db.jobs[j].status == Queued
    && db.jobs[j].availableAt <= now && db.jobs[j].attemptCount < db.jobs[j].policy.maxAttempts
  }

  /** No waiting job has a higher priority, none of the same priority is older, and of those as old none has a
      smaller identifier. */
  ghost predicate GoesFirst(db: Db, now: Time, j: Uuid) {
    && Waiting(db, now, j)
    && forall i: Uuid :: Waiting(db, now, i) ==>
         var x, y := db.jobs[i], db.jobs[j];
         && x.priority <= y.priority
         && (x.priority == y.priority ==> x.createdAt >= y.createdAt && (x.createdAt == y.createdAt ==> i >= j))
  }

  /** A claim starts an attempt of the job that goes first, or finds nothing exactly when no job waits. */
  lemma ClaimTakesFirst(db: Db, worker: string, lease: Time, now: Time)
    requires Consistent(db) && worker != "" && lease > 0.0
    ensures var (db', r) := ClaimTx(db, worker, lease, now);
      && r.Ok?
      && (r.value.None? ==> db' == db && forall j :: !Waiting(db, now, j))
      && (r.value.Some? ==>
            && GoesFirst(db, now, r.value.value.0)
            && Started(db, db', r.value.value.0, r.value.value.1, worker, lease, now))
  {
    hide KeysOk, JobsOk, AttemptsOk, DistinctOk, NumbersOk, OutputsOk, SpacingOk, TablesOk, IsNext, ClaimJob, Started;
    hide Claimable, Waiting, Before;
    forall j ensures Claimable(db, now, j) <==> Waiting(db, now, j) { SameWaiting(db, now, j); }
    var r := ClaimTx(db, worker, lease, now).1;
    if ClaimTarget(db, now).Some? {
      var j := ClaimTarget(db, now).value;
      NextGoesFirst(db, now, j);
      ClaimStarts(db, j, worker, lease, now);
    } else {
      if j :| Waiting(db, now, j) { SomethingIsNext(db, now, j); }
    }
  }

  lemma SameWaiting(db: Db, now: Time, j: Uuid)
    ensures Claimable(db, now, j) <==> Waiting(db, now, j)
  {
  }

  lemma NextGoesFirst(db: Db, now: Time, j: Uuid)
    requires IsNext(db, now, j)
    ensures GoesFirst(db, now, j) && j in db.jobs
  {
    forall i: Uuid | Waiting(db, now, i)
      ensures var x, y := db.jobs[i], db.jobs[j];
        && x.priority <= y.priority
        && (x.priority == y.priority ==> x.createdAt >= y.createdAt && (x.createdAt == y.createdAt ==> i >= j))
    {
      SameWaiting(db, now, i);
      assert Before(db, j, i);
    }
  }

  /** Among waiting jobs one goes first. */
  lemma SomethingIsNext(db: Db, now: Time, j: Uuid)
    requires Waiting(db, now, j)
    ensures exists i :: IsNext(db, now, i)
  {
    hide Before;
    var waiting := set i | i in db.jobs && Claimable(db, now, i);
    SameWaiting(db, now, j);
    assert j in waiting;
    var first := FirstOf(db, waiting, now);
    assert IsNext(db, now, first) by { ClaimableIsIn(db, now, waiting); }
  }

  lemma ClaimableIsIn(db: Db, now: Time, waiting: set<Uuid>)
    requires waiting == set i | i in db.jobs && Claimable(db, now, i)
    ensures forall i :: Claimable(db, now, i) ==> i in waiting
  {
  }

  lemma BeforeIsOrder(db: Db, i: Uuid, j: Uuid, k: Uuid)
    requires i in db.jobs && j in db.jobs && k in db.jobs
    ensures Before(db, i, i) && (Before(db, i, j) || Before(db, j, i))
    ensures Before(db, i, j) && Before(db, j, k) ==> Before(db, i, k)
  {
  }

  lemma {:induction false} FirstOf(db: Db, js: set<Uuid>, now: Time) returns (first: Uuid)
    requires js != {} && forall i :: i in js ==> i in db.jobs
    ensures first in js && forall i :: i in js ==> Before(db, first, i)
    decreases |js|
  {
    var j :| j in js;
    if js == {j} {
      first := j;
    } else {
      assert js == (js - {j}) + {j};
      var rest := FirstOf(db, js - {j}, now);
      first := if Before(db, j, rest) then j else rest;
      forall i | i in js ensures Before(db, first, i) {
        if i != j { assert Before(db, rest, i) by { assert i in js - {j}; } }
        BeforeIsOrder(db, j, rest, i);
      }
    }
  }

  /** Attempt `a` of job `j` was started, with a fresh token and this lease. */
  ghost predicate Started(db: Db, db': Db, j: Uuid, a: Uuid, worker: string, lease: Time, now: Time) {
    && j in db.jobs && j in db'.jobs && a !in db.attempts && a in db'.attempts
    && var job, x := db'.jobs[j], db'.attempts[a];
       && job.status == Running && job.active == Some(a) && job.attemptCount == db.jobs[j].attemptCount + 1
       && x.jobId == j && x.number == job.attemptCount && x.workerId == worker
       && x.startedAt == now && x.leaseExpiresAt == now + lease && x.endedAt == None && x.outcome == None
       && (forall b :: b in db.attempts ==>
                 b in db'.attempts && db'.attempts[b] == db.attempts[b] && x.token != db.attempts[b].token)
       && (forall t :: LiveLease(db', j, x.token, t) <==> t < now + lease)
       && job.priority == db.jobs[j].priority && job.policy == db.jobs[j].policy && job.key == db.jobs[j].key
       && LogOf(db', j) == LogOf(db, j) + [Transition(Some(Queued), Running, "claim", now)]
  }

  lemma ClaimStarts(db: Db, j: Uuid, worker: string, lease: Time, now: Time)
    requires Consistent(db) && j in db.jobs
    ensures Started(db, ClaimJob(db, j, worker, lease, now), j, db.nextUuid, worker, lease, now)
  {
    hide KeysOk, JobsOk, DistinctOk, NumbersOk, OutputsOk, SpacingOk, TablesOk;
    FreshIds(db);
    forall b | b in db.attempts ensures db.attempts[b].token < db.nextUuid { assert AttemptOk(db, b); }
  }

  /** A token holds a job exactly as long as it belongs to an attempt of the job that has not ended and whose
      lease has not run out. */
  lemma TokenHolds(db: Db, j: Uuid, token: Uuid, now: Time)
    requires Consistent(db)
    ensures LiveLease(db, j, token, now) <==>
      exists a :: a in db.attempts && db.attempts[a].jobId == j && db.attempts[a].token == token
                  && db.attempts[a].endedAt == None && now < db.attempts[a].leaseExpiresAt
  {
    hide KeysOk, DistinctOk, NumbersOk, OutputsOk, SpacingOk, TablesOk, LogPath, LogLength;
    if a :| a in db.attempts && db.attempts[a].jobId == j && db.attempts[a].token == token
            && db.attempts[a].endedAt == None && now < db.attempts[a].leaseExpiresAt {
      assert AttemptOk(db, a);
      assert JobOk(db, j);
    }
    if LiveLease(db, j, token, now) { assert JobOk(db, j); }
  }

  // ---- heartbeat, completion ------------------------------------------------------------

  /** A heartbeat of the live token moves the end of its lease to one lease from now, and nothing else. */
  lemma HeartbeatExtends(db: Db, j: Uuid, token: Uuid, lease: Time, now: Time)
    requires Consistent(db) && lease > 0.0 && LiveLease(db, j, token, now)
    ensures var (db', r) := HeartbeatTx(db, j, token, lease, now);
      && r.Ok? && j in db.jobs && db.jobs[j].active == Some(r.value) && r.value in db.attempts
      && db'.attempts == db.attempts[r.value := db.attempts[r.value].(leaseExpiresAt := now + lease)]
      && db'.jobs == db.jobs[j := db.jobs[j].(updatedAt := now)]
      && (forall t :: LiveLease(db', j, token, t) <==> t < now + lease)
  {
    hide KeysOk, JobsOk, AttemptsOk, DistinctOk, NumbersOk, OutputsOk, SpacingOk, TablesOk;
  }

  /** Without a live token a heartbeat changes nothing. */
  lemma HeartbeatRefuses(db: Db, j: Uuid, token: Uuid, lease: Time, now: Time)
    requires lease > 0.0 && !LiveLease(db, j, token, now)
    ensures HeartbeatTx(db, j, token, lease, now) == (db, Err(LeaseConflict))
  {
  }

  /** A completion by the live token stores its result, closes the attempt, and leaves an event to publish
      exactly when the result has artifacts or asks for a review. */
  lemma CompletionStores(db: Db, j: Uuid, token: Uuid, outputRef: string, result: JobResult, now: Time)
    requires Consistent(db) && LiveLease(db, j, token, now) && j in db.inputs
    ensures var (db', r) := CompleteTx(db, j, token, outputRef, Some(result), now);
      && r == Ok(()) && j in db.jobs && db.jobs[j].active.Some? && db.jobs[j].active.value in db'.attempts
      && j in db'.jobs && db'.jobs[j].status == Completed && db'.jobs[j].active == None
      && j in db'.outputs && db'.outputs[j] == result
      && var a := db.jobs[j].active.value;
         && db'.attempts[a].outcome == Some(Succeeded) && db'.attempts[a].endedAt == Some(now)
         && db'.attempts[a].outputRef == Some(outputRef)
         && (j in db'.outbox <==> result.artifacts != [] || result.status == "escalated")
         && (j in db'.outbox ==> db'.outbox[j] == OutboxRow(a, now, None))
         && (forall t :: !LiveLease(db', j, token, t))
  {
    hide KeysOk, AttemptsOk, DistinctOk, NumbersOk, OutputsOk, SpacingOk, TablesOk, LogPath, LogLength, IsAttempt;
    assert JobOk(db, j);
  }

  /** The result must be published, and the task it belongs to was never stored. */
  predicate LacksInput(db: Db, j: Uuid, result: Option<JobResult>) {
    j !in db.inputs && result.Some? && (result.value.artifacts != [] || result.value.status == "escalated")
  }

  /** Which completions are refused when the job is not already complete. */
  lemma CompletionRefuses(db: Db, j: Uuid, token: Uuid, outputRef: string, result: Option<JobResult>, now: Time)
    requires Consistent(db) && (j in db.jobs ==> db.jobs[j].status != Completed)
    ensures var (db', r) := CompleteTx(db, j, token, outputRef, result, now);
      && (r == Err(NotFound) <==> j !in db.jobs)
      && (r == Err(LeaseConflict) <==> j in db.jobs && db.jobs[j].status == Running && !LiveLease(db, j, token, now))
      && (r == Err(InvalidState)
          <==> j in db.jobs && (db.jobs[j].status != Running || (LiveLease(db, j, token, now) && LacksInput(db, j, result))))
      && (r.Err? ==> db' == db)
  {
    hide KeysOk, AttemptsOk, DistinctOk, NumbersOk, OutputsOk, SpacingOk, TablesOk, LogPath, LogLength, IsAttempt, CommitResult;
    if j in db.jobs { assert JobOk(db, j); }
  }

  /** The attempt that `token` stands for completed the job with this output reference. */
  ghost predicate CompletedWith(db: Db, j: Uuid, token: Uuid, outputRef: string) {
    exists a :: a in db.attempts && db.attempts[a].jobId == j && db.attempts[a].token == token
                && db.attempts[a].outcome == Some(Succeeded) && db.attempts[a].outputRef == Some(outputRef)
  }

  /** A completion of a job that is complete already is accepted exactly when the token's own attempt completed it
      with the same output reference and, if a result comes along, that is the stored one; it never changes anything. */
  lemma RedeliveryDecides(db: Db, j: Uuid, token: Uuid, outputRef: string, result: Option<JobResult>, now: Time)
    requires j in db.jobs && db.jobs[j].status == Completed
    ensures var (db', r) := CompleteTx(db, j, token, outputRef, result, now);
      && db' == db && (r == Ok(()) || r == Err(InvalidState))
      && (r == Ok(()) <==>
            && CompletedWith(db, j, token, outputRef)
            && (result.Some? ==> j in db.outputs && db.outputs[j] == result.value))
  {
    hide LiveLease, CommitResult;
    assert Delivered(db, j, token, outputRef) <==> CompletedWith(db, j, token, outputRef) by {
      forall a | a in db.attempts
        ensures IsDelivery(db.attempts[a], j, token, outputRef) <==>
          && db.attempts[a].jobId == j && db.attempts[a].token == token
          && db.attempts[a].outcome == Some(Succeeded) && db.attempts[a].outputRef == Some(outputRef)
      {
      }
    }
  }

  // ---- failure, cancellation, reclaim ---------------------------------------------------

  /** A reported failure is kept with its attempt. */
  lemma FailureIsKept(db: Db, j: Uuid, token: Uuid, error: string, code: string, kind: string, retryable: bool, now: Time)
    requires Consistent(db) && LiveLease(db, j, token, now)
    ensures var (db', r) := FailureTx(db, j, token, error, code, kind, retryable, now);
      && r == Ok(()) && j in db.jobs && db.jobs[j].active.Some? && db.jobs[j].active.value in db'.attempts
      && j in db'.jobs && db'.jobs[j].active == None && db'.jobs[j].attemptCount == db.jobs[j].attemptCount
      && var x := db'.attempts[db.jobs[j].active.value];
         && x.outcome == Some(Errored) && x.endedAt == Some(now)
         && x.error == Some(error) && x.errorCode == Some(code) && x.failureKind == Some(kind)
  {
    hide KeysOk, JobsOk, AttemptsOk, DistinctOk, NumbersOk, OutputsOk, SpacingOk, TablesOk, LogOf, RetryDelay, ShouldRetry;
  }

  /** A failure is refused without change when the job is not there, not running, or held by another lease. */
  lemma FailureRefuses(db: Db, j: Uuid, token: Uuid, error: string, code: string, kind: string, retryable: bool,
                       now: Time)
    ensures var (db', r) := FailureTx(db, j, token, error, code, kind, retryable, now);
      && (r == Err(NotFound) <==> j !in db.jobs)
      && (r == Err(InvalidState) <==> j in db.jobs && db.jobs[j].status != Running)
      && (r == Err(LeaseConflict) <==> j in db.jobs && db.jobs[j].status == Running && !LiveLease(db, j, token, now))
      && (r.Err? ==> db' == db)
  {
    hide CommitFailure;
  }

  /** Cancelling a queued or running job ends it as cancelled, withdraws its open attempt, and takes the lease
      from its holder; a cancelled job stays as it is, and one that ended otherwise is refused. */
  lemma CancelDecides(db: Db, j: Uuid, now: Time)
    requires Consistent(db)
    ensures var (db', r) := CancelTx(db, j, now);
      && (r == Err(NotFound) <==> j !in db.jobs)
      && (r == Err(InvalidTransition) <==> j in db.jobs && (db.jobs[j].status == Completed || db.jobs[j].status == Failed))
      && (r.Err? ==> db' == db)
      && (r.Ok? ==> j in db.jobs && j in db'.jobs && db'.jobs[j].status == Cancelled && db'.jobs[j].active == None)
      && (r.Ok? && db.jobs[j].status == Cancelled ==> db' == db)
      && (r.Ok? && db.jobs[j].status != Cancelled ==> db'.jobs[j].cancelledAt == Some(now))
      && (r.Ok? && db.jobs[j].status == Running ==>
            && db.jobs[j].active.Some? && db.jobs[j].active.value in db'.attempts
            && db'.attempts[db.jobs[j].active.value].outcome == Some(Withdrawn)
            && db'.attempts[db.jobs[j].active.value].endedAt == Some(now))
      && (r.Ok? ==> forall token, later :: !LiveLease(db', j, token, later))
  {
    hide KeysOk, AttemptsOk, DistinctOk, NumbersOk, OutputsOk, SpacingOk, TablesOk, LogPath, LogLength, LogOf;
    if j in db.jobs { assert JobOk(db, j); }
  }

  /** The lease of running job `j` has run out by `now`. */
  predicate RanOut(db: Db, j: Uuid, now: Time) {
    && j in db.jobs && db.jobs[j].status == Running && db.jobs[j].active.Some? && db.jobs[j].active.value in db.attempts
    && db.attempts[db.jobs[j].active.value].leaseExpiresAt <= now
  }

  /** Reclaiming sends a job whose lease ran out back when an attempt is left, one retry delay later; otherwise the
      job has failed for good. Its attempt is closed, and its token never acts again. */
  lemma ReclaimDecides(db: Db, j: Uuid, now: Time)
    requires Consistent(db) && RanOut(db, j, now)
    ensures var job := db.jobs[j];
      var a := job.active.value;
      var db' := ReclaimTx(db, now);
      && j in db'.jobs && db'.jobs[j].status == (if job.attemptCount < job.policy.maxAttempts then Queued else Failed)
      && (forall later :: Claimable(db', later, j) <==>
            job.attemptCount < job.policy.maxAttempts && now + RetryDelay(job.policy, job.attemptCount) <= later)
      && a in db'.attempts && db'.attempts[a] == db.attempts[a].(endedAt := Some(now), outcome := Some(LeaseExpired))
      && (forall token, later :: !LiveLease(db', j, token, later))
      && db'.jobs[j].attemptCount == job.attemptCount && db'.jobs[j].policy == job.policy && db'.jobs[j].priority == job.priority
  {
    hide KeysOk, AttemptsOk, DistinctOk, NumbersOk, OutputsOk, SpacingOk, TablesOk, LogPath, LogLength, RetryDelay;
    assert JobOk(db, j);
  }

  /** Every other job is left alone. */
  lemma ReclaimLeavesOthers(db: Db, j: Uuid, now: Time)
    requires Consistent(db) && j in db.jobs && !RanOut(db, j, now)
    ensures j in ReclaimTx(db, now).jobs && ReclaimTx(db, now).jobs[j] == db.jobs[j]
    ensures forall a :: a in db.attempts && db.attempts[a].jobId == j ==>
      a in ReclaimTx(db, now).attempts && ReclaimTx(db, now).attempts[a] == db.attempts[a]
  {
    hide KeysOk, JobsOk, AttemptsOk, DistinctOk, NumbersOk, OutputsOk, SpacingOk, TablesOk, RetryDelay;
  }

  /** The events to publish are those of completed jobs whose row has no publication date; acknowledging sets that
      date once. */
  lemma AcknowledgeSetsDate(db: Db, j: Uuid, now: Time)
    ensures var db' := AcknowledgeTx(db, j, now);
      && db'.outbox.Keys == db.outbox.Keys && db' == db.(outbox := db'.outbox)
      && (forall i :: i in db.outbox && i != j ==> db'.outbox[i] == db.outbox[i])
      && (j in db.outbox ==> db'.outbox[j] == db.outbox[j].(publishedAt := db'.outbox[j].publishedAt))
      && (j in db.outbox && db.outbox[j].publishedAt.Some? ==> db'.outbox[j].publishedAt == db.outbox[j].publishedAt)
      && (j in db.outbox && db.outbox[j].publishedAt.None? ==> db'.outbox[j].publishedAt == Some(now))
  {
  }

  // ---- retry delays ---------------------------------------------------------------------------

  /** The delay after the first attempt is the back-off; each further one doubles, up to the cap. */
  lemma DelayDoubles(policy: RetryPolicy, n: nat)
    requires n >= 1
    ensures RetryDelay(policy, 1) == policy.backoff
    ensures RetryDelay(policy, n + 1)
            == if 2.0 * RetryDelay(policy, n) <= policy.maxBackoff then 2.0 * RetryDelay(policy, n) else policy.maxBackoff
  {
    var b, p := policy.backoff, Pow2(n - 1);
    assert Pow2(0) == 1;
    TimesOne(b);
    TimesTwo(b, p as real);
    assert Pow2(n) == 2 * p;
    assert (2 * p) as real == 2.0 * p as real;
  }

  lemma TimesOne(b: Time)
    ensures b * 1.0 == b
  {
  }

  lemma TimesTwo(b: Time, p: real)
    ensures b * (2.0 * p) == 2.0 * (b * p)
  {
  }
}
