/** What every call on the job tables keeps. */
module JobInvariant {
  import opened Prelude
  import opened Contracts
  import opened Jobs

  // ---- the transition log ---------------------------------------------------

  /** `log` is a path of the allowed graph, from the creation of the job to `status`. */
  predicate LogPath(log: seq<Transition>, status: JobStatus) {
    && |log| >= 1
    && log[0].from == None && log[0].to == Queued
    && (forall i :: 0 < i < |log| ==>
          log[i].from == Some(log[i - 1].to) && AllowedTransition(log[i - 1].to, log[i].to))
    && log[|log| - 1].to == status
  }

  /** How long the log of a job with `count` attempts is. */
  predicate LogLength(n: nat, status: JobStatus, count: nat, limit: nat) {
    match status
    case Queued => n == 2 * count + 1
    case Running => n == 2 * count
    case Cancelled => n == 2 * count + 1 || (n == 2 * count + 2 && count < limit)
    case _ => n == 2 * count + 1
  }

  // ---- rows -----------------------------------------------------------------

  predicate IsAttempt(db: Db, a: Uuid, j: Uuid, n: nat) {
    a in db.attempts && db.attempts[a].jobId == j && db.attempts[a].number == n
  }

  ghost predicate HasAttempt(db: Db, j: Uuid, n: nat) {
    exists a :: IsAttempt(db, a, j, n)
  }

  ghost predicate JobOk(db: Db, j: Uuid)
    requires j in db.jobs
  {
    var job := db.jobs[j];
    && j < db.nextUuid
    && (job.status == Running <==> job.active.Some?)
    && (job.active.Some? ==>
          && IsAttempt(db, job.active.value, j, job.attemptCount)
          && db.attempts[job.active.value].endedAt.None?)
    && job.attemptCount <= job.policy.maxAttempts
    && (job.status == Queued ==> job.attemptCount < job.policy.maxAttempts)
    && (job.cancelledAt.Some? <==> job.status == Cancelled)
    && (job.status != Completed ==> j !in db.outputs && j !in db.outbox)
    && j in db.log && LogPath(db.log[j], job.status)
    && LogLength(|db.log[j]|, job.status, job.attemptCount, job.policy.maxAttempts)
  }

  predicate AttemptOk(db: Db, a: Uuid)
    requires a in db.attempts
  {
    var x := db.attempts[a];
    && a < db.nextUuid && x.token < db.nextUuid
    && x.jobId in db.jobs
    && var job := db.jobs[x.jobId];
    && 1 <= x.number <= job.attemptCount
    && (x.endedAt.None? <==> x.outcome.None?)
    && (x.endedAt.None? <==> job.active == Some(a))
    && (x.outcome == Some(Succeeded) ==> job.status == Completed && x.number == job.attemptCount)
    && (x.number < job.attemptCount || job.status == Queued ==>
          x.outcome == Some(LeaseExpired)
          || (x.outcome == Some(Errored) && x.errorCode.Some? && x.errorCode.value in job.policy.retryable))
    && (x.outputRef.Some? ==> x.outcome == Some(Succeeded))
    && (x.error.Some? || x.errorCode.Some? || x.failureKind.Some? ==> x.outcome == Some(Errored))
  }

  /** Lease tokens are unique, and so is the number of an attempt within its job. */
  predicate Distinct(x: Attempt, y: Attempt) {
    x.token != y.token && (x.jobId == y.jobId ==> x.number != y.number)
  }

  predicate KeysOk(db: Db) {
    && (forall k :: k in db.idempotency ==> db.idempotency[k] in db.jobs && db.jobs[db.idempotency[k]].key == k)
    && (forall j :: j in db.jobs ==> db.jobs[j].key in db.idempotency && db.idempotency[db.jobs[j].key] == j)
  }

  /** Exactly the results with evidence have an outbox row, for the attempt that succeeded. */
  predicate OutputOk(db: Db, j: Uuid)
    requires j in db.outputs
  {
    && j in db.jobs && db.jobs[j].status == Completed
    && (db.outputs[j].HasEvidence() <==> j in db.outbox)
  }

  predicate OutboxOk(db: Db, j: Uuid)
    requires j in db.outbox
  {
    var a := db.outbox[j].attemptId;
    && j in db.outputs && j in db.inputs
    && a in db.attempts && db.attempts[a].jobId == j && db.attempts[a].outcome == Some(Succeeded)
  }

  /** Attempt `y` follows attempt `x` of the same job only after its retry delay. */
  predicate Spaced(db: Db, x: Attempt, y: Attempt) {
    x.jobId == y.jobId && y.number == x.number + 1 ==>
      && x.endedAt.Some? && x.jobId in db.jobs
      && y.startedAt >= x.endedAt.value + RetryDelay(db.jobs[x.jobId].policy, x.number)
  }

  /** A job that was put back becomes available one retry delay after its last attempt. */
  predicate WaitOk(db: Db, x: Attempt) {
    x.jobId in db.jobs && db.jobs[x.jobId].status == Queued && x.number == db.jobs[x.jobId].attemptCount ==>
      && x.endedAt.Some?
      && db.jobs[x.jobId].availableAt == x.endedAt.value + RetryDelay(db.jobs[x.jobId].policy, x.number)
  }

  ghost predicate JobsOk(db: Db) {
    forall j :: j in db.jobs ==> JobOk(db, j)
  }

  ghost predicate NumbersOk(db: Db) {
    forall j, n :: j in db.jobs && 1 <= n <= db.jobs[j].attemptCount ==> HasAttempt(db, j, n)
  }

  predicate AttemptsOk(db: Db) {
    forall a :: a in db.attempts ==> AttemptOk(db, a)
  }

  predicate DistinctOk(db: Db) {
    forall a, b :: a in db.attempts && b in db.attempts && a != b ==> Distinct(db.attempts[a], db.attempts[b])
  }

  predicate OutputsOk(db: Db) {
    && (forall j :: j in db.outputs ==> OutputOk(db, j))
    && (forall j :: j in db.outbox ==> OutboxOk(db, j))
  }

  predicate SpacingOk(db: Db) {
    && (forall a, b :: a in db.attempts && b in db.attempts ==> Spaced(db, db.attempts[a], db.attempts[b]))
    && (forall a :: a in db.attempts ==> WaitOk(db, db.attempts[a]))
  }

  predicate TablesOk(db: Db) {
    && db.log.Keys == db.jobs.Keys
    && (forall j :: j in db.inputs ==> j in db.jobs)
  }

  ghost predicate Consistent(db: Db) {
    && KeysOk(db) && JobsOk(db) && AttemptsOk(db) && DistinctOk(db) && NumbersOk(db)
    && OutputsOk(db) && SpacingOk(db) && TablesOk(db)
  }

  lemma EmptyIsConsistent()
    ensures Consistent(EMPTY)
  {
  }

  // ---- a change confined to one job -------------------------------------------

  /** `db'` differs from `db` at most in the rows of job `j` and in attempt `a`, which
      keeps its identity when it existed before. */
  ghost predicate LocalChange(db: Db, db': Db, j: Uuid, a: Uuid) {
    && db.nextUuid <= db'.nextUuid
    && (forall i :: i != j ==> (i in db.jobs <==> i in db'.jobs))
    && (forall i :: i != j && i in db.jobs ==> db'.jobs[i] == db.jobs[i])
    && (forall i :: i != j ==> (i in db.log <==> i in db'.log))
    && (forall i :: i != j && i in db.log ==> db'.log[i] == db.log[i])
    && (forall b :: b != a ==> (b in db.attempts <==> b in db'.attempts))
    && (forall b :: b != a && b in db.attempts ==> db'.attempts[b] == db.attempts[b])
    && (a in db.attempts ==> a in db'.attempts && SameIdentity(db.attempts[a], db'.attempts[a]))
    && (a in db'.attempts ==> db'.attempts[a].jobId == j)
    && (forall i :: i != j ==> (i in db.outputs <==> i in db'.outputs))
    && (forall i :: i != j && i in db.outputs ==> db'.outputs[i] == db.outputs[i])
    && (forall i :: i != j ==> (i in db.outbox <==> i in db'.outbox))
    && (forall i :: i != j && i in db.outbox ==> db'.outbox[i] == db.outbox[i])
    && (forall i :: i in db.inputs ==> i in db'.inputs)
    && (j in db.jobs ==> j in db'.jobs)
  }

  predicate SameIdentity(x: Attempt, y: Attempt) {
    x.jobId == y.jobId && x.number == y.number && x.token == y.token
  }

  /** The local obligations: everything `Consistent` says about job `j` and its attempts. */
  ghost predicate JobLocalOk(db': Db, j: Uuid) {
    && j in db'.jobs && JobOk(db', j)
    && (forall b :: b in db'.attempts && db'.attempts[b].jobId == j ==>
          AttemptOk(db', b) && WaitOk(db', db'.attempts[b]))
    && (forall b, c :: b in db'.attempts && c in db'.attempts && db'.attempts[b].jobId == db'.attempts[c].jobId == j
          ==> Spaced(db', db'.attempts[b], db'.attempts[c]))
    && (forall b, c :: b in db'.attempts && c in db'.attempts && db'.attempts[b].jobId == db'.attempts[c].jobId == j
          ==> b == c || db'.attempts[b].number != db'.attempts[c].number)
    && (j in db'.outputs ==> OutputOk(db', j))
    && (j in db'.outbox ==> OutboxOk(db', j))
  }

  /** A new attempt has a fresh token and the next number of its job. */
  predicate FreshAttempt(db: Db, db': Db, j: Uuid, a: Uuid) {
    var before := if j in db.jobs then db.jobs[j].attemptCount else 0;
    && j in db'.jobs
    && (if a in db.attempts || a !in db'.attempts then db'.jobs[j].attemptCount == before
        else
          && j in db.jobs
          && db'.jobs[j].attemptCount == before + 1 == db'.attempts[a].number
          && db'.attempts[a].token >= db.nextUuid)
  }

  lemma OtherJobsOk(db: Db, db': Db, j: Uuid, a: Uuid)
    requires LocalChange(db, db', j, a) && JobsOk(db) && JobLocalOk(db', j)
    ensures JobsOk(db')
  {
    forall i | i in db'.jobs && i != j ensures JobOk(db', i) {
      assert JobOk(db, i);
    }
  }

  lemma OtherNumbersOk(db: Db, db': Db, j: Uuid, a: Uuid)
    requires LocalChange(db, db', j, a) && NumbersOk(db) && FreshAttempt(db, db', j, a)
    ensures NumbersOk(db')
  {
    forall i, n | i in db'.jobs && 1 <= n <= db'.jobs[i].attemptCount ensures HasAttempt(db', i, n) {
      if i in db.jobs && n <= db.jobs[i].attemptCount {
        assert HasAttempt(db, i, n);
        var b :| IsAttempt(db, b, i, n);
        assert IsAttempt(db', b, i, n);
      } else {
        assert IsAttempt(db', a, i, n);
      }
    }
  }

  lemma OtherAttemptsOk(db: Db, db': Db, j: Uuid, a: Uuid)
    requires LocalChange(db, db', j, a) && AttemptsOk(db) && JobLocalOk(db', j)
    ensures AttemptsOk(db')
  {
    forall b | b in db'.attempts && db'.attempts[b].jobId != j ensures AttemptOk(db', b) {
      assert AttemptOk(db, b);
    }
  }

  lemma StillDistinct(db: Db, db': Db, j: Uuid, a: Uuid)
    requires LocalChange(db, db', j, a) && DistinctOk(db) && AttemptsOk(db) && FreshAttempt(db, db', j, a)
    ensures DistinctOk(db')
  {
    forall b, c | b in db'.attempts && c in db'.attempts && b != c
      ensures Distinct(db'.attempts[b], db'.attempts[c])
    {
      if a !in db.attempts && (b == a || c == a) {
        var d := if b == a then c else b;
        assert AttemptOk(db, d);
      } else {
        assert Distinct(db.attempts[b], db.attempts[c]);
      }
    }
  }

  lemma OtherOutputsOk(db: Db, db': Db, j: Uuid, a: Uuid)
    requires LocalChange(db, db', j, a) && OutputsOk(db) && JobLocalOk(db', j)
    ensures OutputsOk(db')
  {
    forall i | i in db'.outputs && i != j ensures OutputOk(db', i) {
      assert OutputOk(db, i);
    }
    forall i | i in db'.outbox && i != j ensures OutboxOk(db', i) {
      assert OutboxOk(db, i);
    }
  }

  lemma OtherSpacingOk(db: Db, db': Db, j: Uuid, a: Uuid)
    requires LocalChange(db, db', j, a) && SpacingOk(db) && AttemptsOk(db) && JobLocalOk(db', j)
    ensures SpacingOk(db')
  {
    forall b, c | b in db'.attempts && c in db'.attempts
      ensures Spaced(db', db'.attempts[b], db'.attempts[c])
    {
      if db'.attempts[b].jobId == db'.attempts[c].jobId && db'.attempts[b].jobId != j {
        assert Spaced(db, db.attempts[b], db.attempts[c]);
        assert AttemptOk(db, b);
      }
    }
    forall b | b in db'.attempts ensures WaitOk(db', db'.attempts[b]) {
      if db'.attempts[b].jobId != j {
        assert WaitOk(db, db.attempts[b]);
        assert AttemptOk(db, b);
      }
    }
  }

  /** A local change that is right for its own job keeps the whole database consistent. */
  lemma LocalChangeKeeps(db: Db, db': Db, j: Uuid, a: Uuid)
    requires Consistent(db)
    requires LocalChange(db, db', j, a) && FreshAttempt(db, db', j, a) && JobLocalOk(db', j)
    requires KeysOk(db') && TablesOk(db')
    ensures Consistent(db')
  {
    hide LocalChange, FreshAttempt, JobLocalOk;
    hide KeysOk, JobsOk, AttemptsOk, DistinctOk, NumbersOk, OutputsOk, SpacingOk, TablesOk;
    OtherJobsOk(db, db', j, a);
    OtherNumbersOk(db, db', j, a);
    OtherAttemptsOk(db, db', j, a);
    StillDistinct(db, db', j, a);
    OtherOutputsOk(db, db', j, a);
    OtherSpacingOk(db, db', j, a);
  }

  /** Everything `Consistent` says about job `j`, taken out of it. */
  lemma LocalFacts(db: Db, j: Uuid)
    requires JobsOk(db) && AttemptsOk(db) && DistinctOk(db) && OutputsOk(db) && SpacingOk(db) && j in db.jobs
    ensures JobLocalOk(db, j)
  {
    assert forall b, c :: b in db.attempts && c in db.attempts && b != c ==> Distinct(db.attempts[b], db.attempts[c]);
  }

  lemma TablesFacts(db: Db)
    requires TablesOk(db)
    ensures db.log.Keys == db.jobs.Keys
  {
  }

  lemma KeyFrame(db: Db, db': Db)
    requires KeysOk(db)
    requires db'.idempotency == db.idempotency && db'.jobs.Keys == db.jobs.Keys
    requires forall j :: j in db.jobs ==> db'.jobs[j].key == db.jobs[j].key
    requires TablesOk(db) && db'.log.Keys == db.log.Keys && db'.inputs == db.inputs
    ensures KeysOk(db') && TablesOk(db')
  {
  }

  // ---- one lemma per transaction ----------------------------------------------

  lemma FreshIds(db: Db)
    requires JobsOk(db) && AttemptsOk(db) && OutputsOk(db) && TablesOk(db)
    ensures db.nextUuid !in db.jobs && db.nextUuid !in db.attempts
    ensures db.nextUuid !in db.outputs && db.nextUuid !in db.outbox && db.nextUuid !in db.log
    ensures forall b :: b in db.attempts ==> db.attempts[b].jobId != db.nextUuid
  {
    forall i | i in db.jobs ensures i != db.nextUuid { assert JobOk(db, i); }
    forall b | b in db.attempts ensures b != db.nextUuid && db.attempts[b].jobId != db.nextUuid {
      assert AttemptOk(db, b);
    }
    forall i | i in db.outputs ensures i != db.nextUuid { assert OutputOk(db, i); }
    forall i | i in db.outbox ensures i != db.nextUuid { assert OutboxOk(db, i); }
  }

  lemma NewJobChange(db: Db, db': Db, j: Uuid, taskId: Uuid, task: Option<TaskInput>, key: Key, priority: int,
                     policy: RetryPolicy, now: Time)
    requires j == db.nextUuid && j !in db.jobs && j !in db.attempts
    requires j !in db.outputs && j !in db.outbox && j !in db.log
    requires AcceptsEnqueue(taskId, task, key, priority) && key !in db.idempotency
    requires db' == EnqueueTx(db, taskId, task, key, priority, policy, now).0
    ensures LocalChange(db, db', j, j) && FreshAttempt(db, db', j, j)
  {
  }

  lemma NewJobKeys(db: Db, db': Db, taskId: Uuid, task: Option<TaskInput>, key: Key, priority: int,
                   policy: RetryPolicy, now: Time)
    requires db.nextUuid !in db.jobs && db.nextUuid !in db.log
    requires AcceptsEnqueue(taskId, task, key, priority) && key !in db.idempotency
    requires db' == EnqueueTx(db, taskId, task, key, priority, policy, now).0
    requires KeysOk(db) && TablesOk(db)
    ensures KeysOk(db') && TablesOk(db')
  {
  }

  lemma NewJobLocal(db: Db, db': Db, taskId: Uuid, task: Option<TaskInput>, key: Key, priority: int,
                    policy: RetryPolicy, now: Time)
    requires db.nextUuid !in db.outputs && db.nextUuid !in db.outbox && db.nextUuid !in db.log
    requires forall b :: b in db.attempts ==> db.attempts[b].jobId != db.nextUuid
    requires AcceptsEnqueue(taskId, task, key, priority) && key !in db.idempotency
    requires db' == EnqueueTx(db, taskId, task, key, priority, policy, now).0
    ensures JobLocalOk(db', db.nextUuid)
  {
  }

  lemma EnqueueKeeps(db: Db, taskId: Uuid, task: Option<TaskInput>, key: Key, priority: int,
                     policy: RetryPolicy, now: Time)
    requires Consistent(db)
    ensures Consistent(EnqueueTx(db, taskId, task, key, priority, policy, now).0)
  {
    hide LocalChange, FreshAttempt, JobLocalOk;
    hide KeysOk, JobsOk, AttemptsOk, DistinctOk, NumbersOk, OutputsOk, SpacingOk, TablesOk;
    var db' := EnqueueTx(db, taskId, task, key, priority, policy, now).0;
    if AcceptsEnqueue(taskId, task, key, priority) && key !in db.idempotency {
      FreshIds(db);
      NewJobChange(db, db', db.nextUuid, taskId, task, key, priority, policy, now);
      NewJobKeys(db, db', taskId, task, key, priority, policy, now);
      NewJobLocal(db, db', taskId, task, key, priority, policy, now);
      LocalChangeKeeps(db, db', db.nextUuid, db.nextUuid);
    }
  }

  lemma ClaimChange(db: Db, db': Db, j: Uuid, worker: string, lease: Time, now: Time)
    requires j in db.jobs && db.nextUuid !in db.attempts
    requires db' == ClaimJob(db, j, worker, lease, now)
    ensures LocalChange(db, db', j, db.nextUuid) && FreshAttempt(db, db', j, db.nextUuid)
  {
  }

  lemma ClaimLocal(db: Db, db': Db, j: Uuid, worker: string, lease: Time, now: Time)
    requires JobLocalOk(db, j) && Claimable(db, now, j) && lease > 0.0
    requires db.nextUuid !in db.attempts
    requires db' == ClaimJob(db, j, worker, lease, now)
    ensures JobLocalOk(db', j)
  {
    var a := db.nextUuid;
    forall b | b in db'.attempts && db'.attempts[b].jobId == j
      ensures AttemptOk(db', b) && WaitOk(db', db'.attempts[b])
    {
      if b != a {
        assert AttemptOk(db, b) && WaitOk(db, db.attempts[b]);
      }
    }
    forall b, c | b in db'.attempts && c in db'.attempts && db'.attempts[b].jobId == db'.attempts[c].jobId == j
      ensures Spaced(db', db'.attempts[b], db'.attempts[c])
    {
      if b != a {
        assert AttemptOk(db, b) && WaitOk(db, db.attempts[b]);
        if c != a { assert Spaced(db, db.attempts[b], db.attempts[c]); }
      } else if c != a {
        assert AttemptOk(db, c);
      }
    }
  }

  lemma ClaimKeeps(db: Db, worker: string, lease: Time, now: Time)
    requires Consistent(db)
    ensures Consistent(ClaimTx(db, worker, lease, now).0)
  {
    hide LocalChange, FreshAttempt, JobLocalOk;
    hide KeysOk, JobsOk, AttemptsOk, DistinctOk, NumbersOk, OutputsOk, SpacingOk, TablesOk;
    var db' := ClaimTx(db, worker, lease, now).0;
    if db' != db {
      var j := ClaimTarget(db, now).value;
      assert Claimable(db, now, j);
      FreshIds(db);
      LocalFacts(db, j);
      ClaimChange(db, db', j, worker, lease, now);
      ClaimLocal(db, db', j, worker, lease, now);
      KeyFrame(db, db') by { assert db.log.Keys == db.jobs.Keys by { TablesFacts(db); } }
      LocalChangeKeeps(db, db', j, db.nextUuid);
    }
  }

  // Complete, record_failure, cancel and reclaim all close the active attempt.

  /** `ended` is attempt `x` closed at `now`, in a way that lets its job move to `target`. */
  predicate Closes(job: JobRow, x: Attempt, ended: Attempt, target: JobStatus, available: Time, now: Time) {
    && ended == x.(endedAt := ended.endedAt, outcome := ended.outcome, failureKind := ended.failureKind,
                   errorCode := ended.errorCode, error := ended.error, outputRef := ended.outputRef)
    && ended.endedAt == Some(now) && ended.outcome.Some?
    && (target == Completed || target == Failed || target == Cancelled || target == Queued)
    && (ended.outcome == Some(Succeeded) <==> target == Completed)
    && (ended.outputRef.Some? ==> target == Completed)
    && (ended.error.Some? || ended.errorCode.Some? || ended.failureKind.Some? ==> ended.outcome == Some(Errored))
    && (target == Queued ==>
          && job.attemptCount < job.policy.maxAttempts
          && available == now + RetryDelay(job.policy, job.attemptCount)
          && (ended.outcome == Some(LeaseExpired)
              || (ended.outcome == Some(Errored) && ended.errorCode.Some?
                  && ended.errorCode.value in job.policy.retryable)))
  }

  /** `db'` closes attempt `a` of `j`, and possibly stores the output of `j`. */
  ghost predicate ClosedTo(db: Db, db': Db, j: Uuid, a: Uuid, ended: Attempt, target: JobStatus, available: Time,
                     cancelled: Option<Time>, reason: string, now: Time)
    requires j in db.jobs
  {
    && db' == CloseAttempt(db, j, a, ended, target, available, cancelled, reason, now)
                .(outputs := db'.outputs, outbox := db'.outbox)
    && (cancelled.Some? <==> target == Cancelled)
    && db'.outputs - {j} == db.outputs - {j} && db'.outbox - {j} == db.outbox - {j}
    && (j in db'.outputs ==> OutputOk(db', j))
    && (j in db'.outbox ==> OutboxOk(db', j))
    && (target != Completed ==> j !in db'.outputs && j !in db'.outbox)
  }

  lemma CloseChange(db: Db, db': Db, j: Uuid, a: Uuid, ended: Attempt, target: JobStatus, available: Time,
                    cancelled: Option<Time>, reason: string, now: Time)
    requires j in db.jobs && a in db.attempts && db.attempts[a].jobId == j
    requires SameIdentity(db.attempts[a], ended)
    requires ClosedTo(db, db', j, a, ended, target, available, cancelled, reason, now)
    ensures LocalChange(db, db', j, a) && FreshAttempt(db, db', j, a)
  {
    SameOff(db.outputs, db'.outputs, j);
    SameOff(db.outbox, db'.outbox, j);
  }

  lemma SameOff<V>(m: map<Uuid, V>, m': map<Uuid, V>, j: Uuid)
    requires m' - {j} == m - {j}
    ensures forall i :: i != j ==> (i in m <==> i in m')
    ensures forall i :: i != j && i in m ==> m'[i] == m[i]
  {
    forall i | i != j ensures (i in m <==> i in m') && (i in m ==> m'[i] == m[i]) {
      assert i in m <==> i in m - {j};
      assert i in m' <==> i in m' - {j};
      assert i in m ==> (m - {j})[i] == (m' - {j})[i];
    }
  }

  lemma CloseLocal(db: Db, db': Db, j: Uuid, a: Uuid, ended: Attempt, target: JobStatus, available: Time,
                   cancelled: Option<Time>, reason: string, now: Time)
    requires JobLocalOk(db, j) && db.jobs[j].active == Some(a)
    requires Closes(db.jobs[j], db.attempts[a], ended, target, available, now)
    requires ClosedTo(db, db', j, a, ended, target, available, cancelled, reason, now)
    ensures JobLocalOk(db', j)
  {
    forall b | b in db'.attempts && db'.attempts[b].jobId == j
      ensures AttemptOk(db', b) && WaitOk(db', db'.attempts[b])
    {
      assert AttemptOk(db, b) && WaitOk(db, db.attempts[b]);
    }
    forall b, c | b in db'.attempts && c in db'.attempts && db'.attempts[b].jobId == db'.attempts[c].jobId == j
      ensures Spaced(db', db'.attempts[b], db'.attempts[c])
    {
      assert Spaced(db, db.attempts[b], db.attempts[c]);
      assert AttemptOk(db, c);
    }
  }

  lemma CloseKeeps(db: Db, db': Db, j: Uuid, a: Uuid, ended: Attempt, target: JobStatus, available: Time,
                   cancelled: Option<Time>, reason: string, now: Time)
    requires Consistent(db) && j in db.jobs && db.jobs[j].active == Some(a) && a in db.attempts
    requires Closes(db.jobs[j], db.attempts[a], ended, target, available, now)
    requires ClosedTo(db, db', j, a, ended, target, available, cancelled, reason, now)
    ensures Consistent(db')
  {
    hide LocalChange, FreshAttempt;
    hide KeysOk, JobsOk, AttemptsOk, DistinctOk, NumbersOk, OutputsOk, SpacingOk, TablesOk;
    LocalFacts(db, j);
    assert db.attempts[a].jobId == j by { assert JobOk(db, j); }
    CloseChange(db, db', j, a, ended, target, available, cancelled, reason, now);
    CloseLocal(db, db', j, a, ended, target, available, cancelled, reason, now);
    TablesFacts(db);
    KeyFrame(db, db');
    LocalChangeKeeps(db, db', j, a);
  }

  /** The active attempt of a job is open, belongs to it, and carries no outcome yet. */
  lemma ActiveFacts(db: Db, j: Uuid)
    requires JobsOk(db) && AttemptsOk(db) && j in db.jobs && db.jobs[j].status == Running
    ensures db.jobs[j].active.Some? && db.jobs[j].active.value in db.attempts
    ensures var x := db.attempts[db.jobs[j].active.value];
      && x.jobId == j && x.endedAt.None? && x.outcome.None? && x.outputRef.None?
      && x.error.None? && x.errorCode.None? && x.failureKind.None?
    ensures db.jobs[j].cancelledAt.None? && db.jobs[j].attemptCount <= db.jobs[j].policy.maxAttempts
    ensures j !in db.outputs && j !in db.outbox
  {
    assert JobOk(db, j);
    assert AttemptOk(db, db.jobs[j].active.value);
  }

  lemma FailureKeeps(db: Db, j: Uuid, token: Uuid, error: string, code: string, kind: string, retryable: bool,
                     now: Time)
    requires Consistent(db)
    ensures Consistent(FailureTx(db, j, token, error, code, kind, retryable, now).0)
  {
    hide KeysOk, JobsOk, AttemptsOk, DistinctOk, NumbersOk, OutputsOk, SpacingOk, TablesOk;
    var db' := FailureTx(db, j, token, error, code, kind, retryable, now).0;
    if db' != db {
      var job := db.jobs[j];
      var retry := ShouldRetry(job, code, retryable);
      ActiveFacts(db, j);
      CloseKeeps(db, db', j, job.active.value, db'.attempts[job.active.value], if retry then Queued else Failed,
                 if retry then now + RetryDelay(job.policy, job.attemptCount) else now, job.cancelledAt,
                 (if retry then "retry:" else "failed:") + code, now);
    }
  }

  lemma CompleteKeeps(db: Db, j: Uuid, token: Uuid, outputRef: string, result: Option<JobResult>, now: Time)
    requires Consistent(db)
    ensures Consistent(CompleteTx(db, j, token, outputRef, result, now).0)
  {
    hide KeysOk, JobsOk, AttemptsOk, DistinctOk, NumbersOk, OutputsOk, SpacingOk, TablesOk;
    var db' := CompleteTx(db, j, token, outputRef, result, now).0;
    if db' != db {
      var job := db.jobs[j];
      var a := job.active.value;
      ActiveFacts(db, j);
      assert db' == CommitResult(db, j, a, outputRef, result, now);
      assert db'.outputs - {j} == db.outputs - {j};
      assert db'.outbox - {j} == db.outbox - {j};
      CloseKeeps(db, db', j, a, db'.attempts[a], Completed, job.availableAt, job.cancelledAt, "completed", now);
    }
  }

  lemma CancelQueuedKeeps(db: Db, j: Uuid, now: Time)
    requires Consistent(db) && j in db.jobs && db.jobs[j].status == Queued
    ensures Consistent(CommitCancel(db, j, now))
  {
    hide LocalChange, FreshAttempt, JobLocalOk;
    hide KeysOk, JobsOk, AttemptsOk, DistinctOk, NumbersOk, OutputsOk, SpacingOk, TablesOk;
    var db' := CommitCancel(db, j, now);
    LocalFacts(db, j);
    FreshIds(db);
    CancelQueuedLocal(db, db', j, now);
    TablesFacts(db);
    KeyFrame(db, db');
    LocalChangeKeeps(db, db', j, db.nextUuid);
  }

  lemma CancelQueuedLocal(db: Db, db': Db, j: Uuid, now: Time)
    requires JobLocalOk(db, j) && db.jobs[j].status == Queued && db' == CommitCancel(db, j, now)
    requires db.nextUuid !in db.attempts
    ensures LocalChange(db, db', j, db.nextUuid) && FreshAttempt(db, db', j, db.nextUuid) && JobLocalOk(db', j)
  {
    assert db'.attempts == db.attempts;
    forall b | b in db'.attempts && db'.attempts[b].jobId == j ensures AttemptOk(db', b) {
      assert AttemptOk(db, b);
    }
    forall b, c | b in db'.attempts && c in db'.attempts && db'.attempts[b].jobId == db'.attempts[c].jobId == j
      ensures Spaced(db', db'.attempts[b], db'.attempts[c])
    {
      assert Spaced(db, db.attempts[b], db.attempts[c]);
    }
  }

  lemma CancelKeeps(db: Db, j: Uuid, now: Time)
    requires Consistent(db)
    ensures Consistent(CancelTx(db, j, now).0)
  {
    hide KeysOk, JobsOk, AttemptsOk, DistinctOk, NumbersOk, OutputsOk, SpacingOk, TablesOk;
    var db' := CancelTx(db, j, now).0;
    if db' != db && db.jobs[j].status == Queued {
      CancelQueuedKeeps(db, j, now);
    } else if db' != db {
      var job := db.jobs[j];
      ActiveFacts(db, j);
      var a := job.active.value;
      CloseKeeps(db, db', j, a, Closed(db.attempts[a], Withdrawn, now), Cancelled, job.availableAt, Some(now),
                 "cancel", now);
    }
  }

  // Reclaiming a set of expired jobs is closing them one after the other.

  lemma ReclaimOneMore(db: Db, due: set<Uuid>, j: Uuid, now: Time)
    requires j in db.jobs && j !in due && db.jobs[j].active.Some? && j in db.log
    requires db.jobs[j].active.value in db.attempts && db.attempts[db.jobs[j].active.value].jobId == j
    ensures ReclaimJobs(db, due + {j}, now) == ReclaimStep(ReclaimJobs(db, due, now), j, now)
  {
    var before, after := ReclaimJobs(db, due, now), ReclaimJobs(db, due + {j}, now);
    var one := ReclaimStep(before, j, now);
    assert after.jobs == one.jobs;
    assert after.log == one.log;
    assert after.attempts == one.attempts;
  }

  lemma ReclaimStepKeeps(db: Db, j: Uuid, now: Time)
    requires Consistent(db) && j in db.jobs && db.jobs[j].status == Running
    ensures db.jobs[j].active.Some? && db.jobs[j].active.value in db.attempts
    ensures Consistent(ReclaimStep(db, j, now))
  {
    hide KeysOk, JobsOk, AttemptsOk, DistinctOk, NumbersOk, OutputsOk, SpacingOk, TablesOk;
    ActiveFacts(db, j);
    var job := db.jobs[j];
    CloseKeeps(db, ReclaimStep(db, j, now), j, job.active.value,
               Closed(db.attempts[job.active.value], LeaseExpired, now), if Exhausted(job) then Failed else Queued,
               ReclaimedJob(job, now).availableAt, job.cancelledAt, "lease_expired", now);
  }

  lemma ReclaimJobsKeeps(db: Db, due: set<Uuid>, now: Time)
    requires Consistent(db)
    requires forall j :: j in due ==> j in db.jobs && db.jobs[j].status == Running
    ensures Consistent(ReclaimJobs(db, due, now))
    decreases |due|
  {
    hide KeysOk, JobsOk, AttemptsOk, DistinctOk, NumbersOk, OutputsOk, SpacingOk, TablesOk;
    if due == {} {
      var db' := ReclaimJobs(db, due, now);
      assert db'.jobs == db.jobs && db'.attempts == db.attempts && db'.log == db.log;
    } else {
      var j :| j in due;
      var rest := due - {j};
      assert due == rest + {j};
      ReclaimJobsKeeps(db, rest, now);
      ActiveFacts(db, j);
      TablesFacts(db);
      ReclaimOneMore(db, rest, j, now);
      ReclaimStepKeeps(ReclaimJobs(db, rest, now), j, now);
    }
  }

  lemma HeartbeatKeeps(db: Db, j: Uuid, token: Uuid, lease: Time, now: Time)
    requires Consistent(db)
    ensures Consistent(HeartbeatTx(db, j, token, lease, now).0)
  {
    hide LocalChange, FreshAttempt, JobLocalOk;
    hide KeysOk, JobsOk, AttemptsOk, DistinctOk, NumbersOk, OutputsOk, SpacingOk, TablesOk;
    var db' := HeartbeatTx(db, j, token, lease, now).0;
    if db' != db {
      var a := db.jobs[j].active.value;
      ActiveFacts(db, j);
      LocalFacts(db, j);
      HeartbeatLocal(db, db', j, a, lease, now);
      TablesFacts(db);
      KeyFrame(db, db');
      LocalChangeKeeps(db, db', j, a);
    }
  }

  lemma HeartbeatLocal(db: Db, db': Db, j: Uuid, a: Uuid, lease: Time, now: Time)
    requires JobLocalOk(db, j) && db.jobs[j].active == Some(a) && lease > 0.0 && now < db.attempts[a].leaseExpiresAt
    requires db' == db.(attempts := db.attempts[a := db.attempts[a].(leaseExpiresAt := now + lease)],
                        jobs := db.jobs[j := db.jobs[j].(updatedAt := now)])
    ensures LocalChange(db, db', j, a) && FreshAttempt(db, db', j, a) && JobLocalOk(db', j)
  {
    forall b | b in db'.attempts && db'.attempts[b].jobId == j
      ensures AttemptOk(db', b) && WaitOk(db', db'.attempts[b])
    {
      assert AttemptOk(db, b) && WaitOk(db, db.attempts[b]);
    }
    forall b, c | b in db'.attempts && c in db'.attempts && db'.attempts[b].jobId == db'.attempts[c].jobId == j
      ensures Spaced(db', db'.attempts[b], db'.attempts[c])
    {
      assert Spaced(db, db.attempts[b], db.attempts[c]);
    }
  }

  lemma AcknowledgeKeeps(db: Db, j: Uuid, now: Time)
    requires Consistent(db)
    ensures Consistent(AcknowledgeTx(db, j, now))
  {
    hide KeysOk, JobsOk, AttemptsOk, DistinctOk, NumbersOk, OutputsOk, SpacingOk, TablesOk;
    var db' := AcknowledgeTx(db, j, now);
    if db' != db {
      OutboxFrame(db, db', j);
      RestFrame(db, db');
    }
  }

  lemma OutboxFrame(db: Db, db': Db, j: Uuid)
    requires JobsOk(db) && OutputsOk(db)
    requires j in db.outbox && j in db'.outbox && db' == db.(outbox := db.outbox[j := db'.outbox[j]])
    requires db'.outbox[j].attemptId == db.outbox[j].attemptId
    ensures JobsOk(db') && OutputsOk(db')
  {
    forall i | i in db'.jobs ensures JobOk(db', i) { assert JobOk(db, i); }
    forall i | i in db'.outputs ensures OutputOk(db', i) { assert OutputOk(db, i); }
    forall i | i in db'.outbox ensures OutboxOk(db', i) { assert OutboxOk(db, i); }
  }

  lemma RestFrame(db: Db, db': Db)
    requires KeysOk(db) && AttemptsOk(db) && DistinctOk(db) && NumbersOk(db) && SpacingOk(db) && TablesOk(db)
    requires db' == db.(outbox := db'.outbox)
    ensures KeysOk(db') && AttemptsOk(db') && DistinctOk(db') && NumbersOk(db') && SpacingOk(db') && TablesOk(db')
  {
    forall a | a in db'.attempts ensures AttemptOk(db', a) { assert AttemptOk(db, a); }
    forall j, n | j in db'.jobs && 1 <= n <= db'.jobs[j].attemptCount ensures HasAttempt(db', j, n) {
      assert HasAttempt(db, j, n);
      var a :| IsAttempt(db, a, j, n);
      assert IsAttempt(db', a, j, n);
    }
    forall a, b | a in db'.attempts && b in db'.attempts ensures Spaced(db', db'.attempts[a], db'.attempts[b]) {
      assert Spaced(db, db.attempts[a], db.attempts[b]);
    }
    forall a | a in db'.attempts ensures WaitOk(db', db'.attempts[a]) { assert WaitOk(db, db.attempts[a]); }
  }

  /** Every repository call, successful or not, keeps the tables consistent. */
  lemma CallKeeps(db: Db, call: Call, now: Time)
    requires Consistent(db)
    ensures Consistent(Apply(db, call, now))
  {
    hide Consistent, ClaimTx, EnqueueTx, HeartbeatTx, CompleteTx, FailureTx, CancelTx, AcknowledgeTx, ReclaimJobs;
    match call
    case Enqueue(taskId, task, key, priority, policy) => EnqueueKeeps(db, taskId, task, key, priority, policy, now);
    case Claim(worker, lease) => ClaimKeeps(db, worker, lease, now);
    case Heartbeat(j, token, lease) => HeartbeatKeeps(db, j, token, lease, now);
    case Complete(j, token, ref, result) => CompleteKeeps(db, j, token, ref, result, now);
    case RecordFailure(j, token, error, code, kind, retryable) =>
      FailureKeeps(db, j, token, error, code, kind, retryable, now);
    case Cancel(j) => CancelKeeps(db, j, now);
    case ReclaimExpired => ReclaimJobsKeeps(db, ExpiredJobs(db, now), now);
    case Acknowledge(j) => AcknowledgeKeeps(db, j, now);
  }
}
