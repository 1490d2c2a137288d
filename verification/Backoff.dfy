/** Retry delays: exponential, capped, and bounded in total. */
module Backoff {
  import opened Prelude
  import opened Contracts
  import opened Jobs
  import opened JobInvariant
  import opened JobRuns

  /** The waits after attempts 1 to `n`, added up. */
  function TotalDelay(policy: RetryPolicy, n: nat): Time {
    if n == 0 then 0.0 else TotalDelay(policy, n - 1) + RetryDelay(policy, n)
  }

  lemma MulMonotone(b: Time, x: Time, y: Time)
    requires 0.0 <= b && x <= y
    ensures b * x <= b * y
  {
  }

  lemma {:induction false} Pow2Monotone(m: nat, n: nat)
    requires m <= n
    ensures Pow2(m) <= Pow2(n)
  {
    if m < n { Pow2Monotone(m, n - 1); }
  }

  lemma ExponentialGrows(policy: RetryPolicy, m: nat, n: nat)
    requires m <= n
    ensures policy.backoff <= Exponential(policy, m) <= Exponential(policy, n)
  {
    Pow2Monotone(m, n);
    MulMonotone(policy.backoff, 1.0, Pow2(m) as real);
    MulMonotone(policy.backoff, Pow2(m) as real, Pow2(n) as real);
  }

  /** Each delay lies between the base back-off and the cap. */
  lemma DelayInRange(policy: RetryPolicy, count: nat)
    ensures policy.backoff <= RetryDelay(policy, count) <= policy.maxBackoff
  {
    hide Exponential;
    ExponentialGrows(policy, 0, if count >= 1 then count - 1 else 0);
  }

  /** Later delays are never shorter. */
  lemma DelayNeverDecreases(policy: RetryPolicy, m: nat, n: nat)
    requires m <= n
    ensures RetryDelay(policy, m) <= RetryDelay(policy, n)
  {
    hide Exponential;
    ExponentialGrows(policy, if m >= 1 then m - 1 else 0, if n >= 1 then n - 1 else 0);
  }

  /** b + 2b + ... + 2^(n-1) b. */
  function Geometric(policy: RetryPolicy, n: nat): Time {
    policy.backoff * (Pow2(n) - 1) as real
  }

  function Caps(policy: RetryPolicy, n: nat): Time {
    n as real * policy.maxBackoff
  }

  lemma BoundsGrow(policy: RetryPolicy, n: nat)
    ensures Geometric(policy, n + 1) == Geometric(policy, n) + Exponential(policy, n)
    ensures Caps(policy, n + 1) == Caps(policy, n) + policy.maxBackoff
  {
    var b, p := policy.backoff, Pow2(n);
    assert b * (2 * p - 1) as real == b * (p - 1) as real + b * p as real;
  }

  lemma BoundsStart(policy: RetryPolicy)
    ensures Geometric(policy, 0) == 0.0 && Caps(policy, 0) == 0.0
  {
  }

  /** The first `n` delays together stay below both the geometric sum and `n` caps. */
  lemma {:induction false} TotalDelayBounded(policy: RetryPolicy, n: nat)
    ensures 0.0 <= TotalDelay(policy, n) <= Min(Geometric(policy, n), Caps(policy, n))
  {
    hide Exponential, Geometric, Caps, Pow2;
    if n == 0 {
      BoundsStart(policy);
    } else {
      TotalDelayBounded(policy, n - 1);
      DelayInRange(policy, n);
      BoundsGrow(policy, n - 1);
    }
  }

  lemma {:induction false} BoundsMonotone(policy: RetryPolicy, m: nat, n: nat)
    requires m <= n
    ensures Geometric(policy, m) <= Geometric(policy, n) && Caps(policy, m) <= Caps(policy, n)
  {
    hide Exponential, Geometric, Caps, Pow2;
    if m < n {
      BoundsMonotone(policy, m, n - 1);
      BoundsGrow(policy, n - 1);
      ExponentialGrows(policy, n - 1, n - 1);
    }
  }

  // ---- the delays that a run gives a job ----------------------------------------------

  predicate PutsBack(t: Transition) {
    t.from == Some(Running) && t.to == Queued
  }

  /** How often the job was put back: the entries of its log from running to queued. */
  function PutBacks(log: seq<Transition>): nat {
    if log == [] then 0 else PutBacks(log[..|log| - 1]) + if PutsBack(log[|log| - 1]) then 1 else 0
  }

  lemma PutBacksOfOneMore(log: seq<Transition>, t: Transition)
    ensures PutBacks(log + [t]) == PutBacks(log) + if PutsBack(t) then 1 else 0
  {
    assert (log + [t])[..|log|] == log;
  }

  /** The wait that a call gives job `j`: from the end of the attempt it closes, when it puts the job back,
      to the time from which the job can be claimed again. */
  ghost function DelayGiven(db: Db, call: Call, now: Time, j: Uuid): Time {
    var db' := Apply(db, call, now);
    if j in db.jobs && db.jobs[j].status == Running && j in db'.jobs && db'.jobs[j].status == Queued
       && db.jobs[j].active.Some? && db.jobs[j].active.value in db'.attempts
       && db'.attempts[db.jobs[j].active.value].endedAt.Some?
    then db'.jobs[j].availableAt - db'.attempts[db.jobs[j].active.value].endedAt.value
    else 0.0
  }

  /** The waits that a run gives job `j`, added up. */
  ghost function DelaysGiven(db: Db, run: seq<Timed>, j: Uuid): Time
    decreases |run|
  {
    if run == [] then 0.0
    else DelayGiven(db, run[0].call, run[0].now, j) + DelaysGiven(Apply(db, run[0].call, run[0].now), run[1..], j)
  }

  datatype Change = Stays | Starts | GoesBack | Ends

  /** What a call did to job `j`, as its row and its log tell. */
  ghost predicate Did(db: Db, db': Db, j: Uuid, c: Change, now: Time)
    requires j in db.jobs && j in db'.jobs
  {
    var x, y := db.jobs[j], db'.jobs[j];
    && y.policy == x.policy
    && (c.Stays? ==> y.status == x.status && y.attemptCount == x.attemptCount && LogOf(db', j) == LogOf(db, j))
    && (!c.Stays? ==> exists t :: !PutsBack(t) == !c.GoesBack? && LogOf(db', j) == LogOf(db, j) + [t])
    && (c.Starts? ==> x.status == Queued && y.status == Running && y.attemptCount == x.attemptCount + 1)
    && (c.GoesBack? ==>
          && x.status == Running && y.status == Queued && y.attemptCount == x.attemptCount
          && y.availableAt == now + RetryDelay(x.policy, x.attemptCount)
          && x.active.Some? && x.active.value in db'.attempts && db'.attempts[x.active.value].endedAt == Some(now))
    && (c.Ends? ==> Terminal(y.status) && !Terminal(x.status) && y.attemptCount == x.attemptCount)
  }

  /** A call that touches another job's row and log, or none. */
  lemma ElsewhereDoes(db: Db, db': Db, j: Uuid, now: Time)
    requires j in db.jobs && j in db'.jobs && LogOf(db', j) == LogOf(db, j)
    requires var x, y := db.jobs[j], db'.jobs[j];
      y.policy == x.policy && y.status == x.status && y.attemptCount == x.attemptCount
    ensures Did(db, db', j, Stays, now)
  {
  }

  lemma EnqueueDoes(db: Db, call: Call, now: Time, j: Uuid)
    requires call.Enqueue? && j in db.jobs && db.nextUuid !in db.jobs
    ensures j in Apply(db, call, now).jobs && Did(db, Apply(db, call, now), j, Stays, now)
  {
    hide Did;
    ElsewhereDoes(db, Apply(db, call, now), j, now);
  }

  lemma SameLog(db: Db, db': Db, j: Uuid)
    ensures db'.log == db.log ==> LogOf(db', j) == LogOf(db, j)
  {
  }

  lemma QuietDoes(db: Db, call: Call, now: Time, j: Uuid)
    requires (call.Heartbeat? || call.Acknowledge?) && j in db.jobs
    ensures j in Apply(db, call, now).jobs && Did(db, Apply(db, call, now), j, Stays, now)
  {
    hide Did, ActiveAttempt, LiveLease, LogOf, EnqueueTx, ClaimTx, CompleteTx, FailureTx, CancelTx, ReclaimTx;
    SameLog(db, Apply(db, call, now), j);
    ElsewhereDoes(db, Apply(db, call, now), j, now);
  }

  lemma ClaimedDoes(db: Db, i: Uuid, worker: string, lease: Time, now: Time, j: Uuid) returns (c: Change)
    requires i in db.jobs && db.jobs[i].status == Queued && j in db.jobs
    ensures Did(db, ClaimJob(db, i, worker, lease, now), j, c, now)
  {
    hide RetryDelay, LogOf;
    var db' := ClaimJob(db, i, worker, lease, now);
    var t := Transition(Some(Queued), Running, "claim", now);
    LogAfter(db, db', i, t, j);
    c := if i == j then Starts else Stays;
    assert !PutsBack(t);
  }

  lemma ClaimingDoes(db: Db, call: Call, now: Time, j: Uuid) returns (c: Change)
    requires call.Claim? && j in db.jobs
    ensures j in Apply(db, call, now).jobs && Did(db, Apply(db, call, now), j, c, now)
  {
    hide Did, ClaimJob;
    var db' := Apply(db, call, now);
    if db' == db {
      c := Stays;
      NothingDone(db, j, now);
    } else {
      c := ClaimedDoes(db, ClaimTarget(db, now).value, call.worker, call.lease, now, j);
      ClaimKeepsJob(db, ClaimTarget(db, now).value, call.worker, call.lease, now, j);
    }
  }

  lemma ClaimKeepsJob(db: Db, i: Uuid, worker: string, lease: Time, now: Time, j: Uuid)
    requires i in db.jobs && j in db.jobs
    ensures j in ClaimJob(db, i, worker, lease, now).jobs
  {
  }

  lemma LogAfter(db: Db, db': Db, i: Uuid, t: Transition, j: Uuid)
    requires db'.log == Logged(db, i, t)
    ensures LogOf(db', j) == if j == i then LogOf(db, j) + [t] else LogOf(db, j)
  {
  }

  lemma OneLogged(db: Db, db': Db, i: Uuid, t: Transition, j: Uuid, c: Change, now: Time)
    requires j in db.jobs && i in db'.jobs && db'.jobs == db.jobs[i := db'.jobs[i]] && db'.log == Logged(db, i, t)
    requires if i == j then !c.Stays? && !PutsBack(t) == !c.GoesBack? else c.Stays?
    requires i == j ==>
      var x, y := db.jobs[j], db'.jobs[j];
      && y.policy == x.policy && y.attemptCount == x.attemptCount
      && (c.Ends? ==> Terminal(y.status) && !Terminal(x.status))
      && (c.GoesBack? ==>
            && x.status == Running && y.status == Queued
            && y.availableAt == now + RetryDelay(x.policy, x.attemptCount)
            && x.active.Some? && x.active.value in db'.attempts && db'.attempts[x.active.value].endedAt == Some(now))
    requires !c.Starts?
    ensures Did(db, db', j, c, now)
  {
    hide RetryDelay, LogOf, PutsBack, Logged;
    LogAfter(db, db', i, t, j);
  }

  lemma FailingDoes(db: Db, call: Call, now: Time, j: Uuid) returns (c: Change)
    requires call.RecordFailure? && j in db.jobs
    ensures j in Apply(db, call, now).jobs && Did(db, Apply(db, call, now), j, c, now)
  {
    hide RetryDelay, ShouldRetry, LogOf, Did;
    var i, db' := call.job, Apply(db, call, now);
    if i in db.jobs && db.jobs[i].status == Running && LiveLease(db, i, call.token, now) {
      var retry := ShouldRetry(db.jobs[i], call.code, call.retryable);
      var t := Transition(Some(Running), if retry then Queued else Failed, (if retry then "retry:" else "failed:") + call.code, now);
      c := if i != j then Stays else if retry then GoesBack else Ends;
      OneLogged(db, db', i, t, j, c, now);
    } else {
      c := Stays;
      NothingDone(db, j, now);
    }
  }

  lemma NothingDone(db: Db, j: Uuid, now: Time)
    requires j in db.jobs
    ensures Did(db, db, j, Stays, now)
  {
  }

  lemma CompletingDoes(db: Db, call: Call, now: Time, j: Uuid) returns (c: Change)
    requires call.Complete? && j in db.jobs
    ensures j in Apply(db, call, now).jobs && Did(db, Apply(db, call, now), j, c, now)
  {
    hide RetryDelay, Jobs.Delivered, LogOf, Did;
    var i, db' := call.job, Apply(db, call, now);
    NothingDone(db, j, now);
    c := Stays;
    if db' != db {
      if i == j { c := Ends; }
      OneLogged(db, db', i, Transition(Some(Running), Completed, "completed", now), j, c, now);
    }
  }

  lemma CancellingDoes(db: Db, call: Call, now: Time, j: Uuid) returns (c: Change)
    requires call.Cancel? && j in db.jobs
    ensures j in Apply(db, call, now).jobs && Did(db, Apply(db, call, now), j, c, now)
  {
    hide RetryDelay, LogOf, Did;
    var i, db' := call.job, Apply(db, call, now);
    if i in db.jobs && db.jobs[i].status != Cancelled && AllowedTransition(db.jobs[i].status, Cancelled) {
      c := if i == j then Ends else Stays;
      OneLogged(db, db', i, Transition(Some(db.jobs[i].status), Cancelled, "cancel", now), j, c, now);
    } else {
      c := Stays;
      NothingDone(db, j, now);
    }
  }

  lemma ReclaimDoes(db: Db, now: Time, j: Uuid) returns (c: Change)
    requires j in db.jobs && j in db.log && ActiveBelongs(db, j)
    ensures j in ReclaimTx(db, now).jobs && Did(db, ReclaimTx(db, now), j, c, now)
  {
    hide RetryDelay;
    var db' := ReclaimTx(db, now);
    c := if !Jobs.Expired(db, j, now) then Stays else if Exhausted(db.jobs[j]) then Ends else GoesBack;
    if !c.Stays? {
      var t := Reclaim1(db.jobs[j], now);
      assert !PutsBack(t) == !c.GoesBack? && LogOf(db', j) == LogOf(db, j) + [t];
    }
  }

  lemma CallDoes(db: Db, call: Call, now: Time, j: Uuid) returns (c: Change)
    requires Consistent(db) && j in db.jobs
    ensures j in Apply(db, call, now).jobs && Did(db, Apply(db, call, now), j, c, now)
  {
    hide KeysOk, JobsOk, AttemptsOk, DistinctOk, NumbersOk, OutputsOk, SpacingOk, TablesOk, Did, ReclaimTx, ActiveBelongs;
    FreshIds(db);
    TablesFacts(db);
    ActiveBelongsToAll(db);
    if call.ReclaimExpired? {
      c := ReclaimDoes(db, now, j);
    } else if call.RecordFailure? {
      c := FailingDoes(db, call, now, j);
    } else if call.Complete? {
      c := CompletingDoes(db, call, now, j);
    } else if call.Cancel? {
      c := CancellingDoes(db, call, now, j);
    } else if call.Claim? {
      c := ClaimingDoes(db, call, now, j);
    } else if call.Enqueue? {
      c := Stays;
      EnqueueDoes(db, call, now, j);
    } else {
      c := Stays;
      QuietDoes(db, call, now, j);
    }
  }

  /** A job that is waiting was put back after every one of its attempts, a running one after all but the
      last; never more often than its attempts allow. */
  predicate PutBackOk(db: Db, j: Uuid) {
    j in db.jobs ==>
      var n, job := PutBacks(LogOf(db, j)), db.jobs[j];
      && n <= job.policy.maxAttempts - 1
      && (job.status == Queued ==> n == job.attemptCount)
      && (job.status == Running ==> n == job.attemptCount - 1)
  }

  lemma DidCounts(db: Db, db': Db, j: Uuid, c: Change, now: Time)
    requires j in db.jobs && j in db'.jobs && Did(db, db', j, c, now)
    ensures PutBacks(LogOf(db', j)) == PutBacks(LogOf(db, j)) + if c.GoesBack? then 1 else 0
  {
    hide LogOf, RetryDelay, PutBacks;
    if !c.Stays? {
      var t :| !PutsBack(t) == !c.GoesBack? && LogOf(db', j) == LogOf(db, j) + [t];
      PutBacksOfOneMore(LogOf(db, j), t);
    }
  }

  lemma DidKeeps(db: Db, db': Db, j: Uuid, c: Change, now: Time)
    requires j in db.jobs && j in db'.jobs && Did(db, db', j, c, now) && PutBackOk(db, j)
    requires var job := db'.jobs[j];
      job.attemptCount <= job.policy.maxAttempts && (job.status == Queued ==> job.attemptCount < job.policy.maxAttempts)
    ensures PutBackOk(db', j)
  {
    hide LogOf, RetryDelay, PutBacks;
    DidCounts(db, db', j, c, now);
  }

  lemma DelayGivenIs(db: Db, call: Call, now: Time, j: Uuid, c: Change)
    requires j in db.jobs && j in Apply(db, call, now).jobs && Did(db, Apply(db, call, now), j, c, now)
    ensures DelayGiven(db, call, now, j)
            == if c.GoesBack? then RetryDelay(db.jobs[j].policy, db.jobs[j].attemptCount) else 0.0
  {
    hide Apply, LogOf, RetryDelay, PutsBack;
  }

  lemma CallGives(db: Db, call: Call, now: Time, j: Uuid)
    requires Consistent(db) && j in db.jobs && PutBackOk(db, j)
    ensures var db' := Apply(db, call, now);
      && j in db'.jobs && PutBackOk(db', j) && db'.jobs[j].policy == db.jobs[j].policy
      && TotalDelay(db.jobs[j].policy, PutBacks(LogOf(db, j))) + DelayGiven(db, call, now, j)
         == TotalDelay(db.jobs[j].policy, PutBacks(LogOf(db', j)))
  {
    hide Apply, Consistent, LogOf, RetryDelay, DelayGiven, PutBacks, Did;
    var db' := Apply(db, call, now);
    var c := CallDoes(db, call, now, j);
    CallKeeps(db, call, now);
    QueuedHasAttemptsLeft(db', j);
    DidKeeps(db, db', j, c, now);
    DidCounts(db, db', j, c, now);
    DelayGivenIs(db, call, now, j, c);
    DidFrom(db, db', j, c, now);
  }

  lemma DidFrom(db: Db, db': Db, j: Uuid, c: Change, now: Time)
    requires j in db.jobs && j in db'.jobs && Did(db, db', j, c, now)
    ensures db'.jobs[j].policy == db.jobs[j].policy && (c.GoesBack? ==> db.jobs[j].status == Running)
  {
    hide LogOf, RetryDelay, PutsBack;
  }

  lemma QueuedHasAttemptsLeft(db: Db, j: Uuid)
    requires Consistent(db) && j in db.jobs
    ensures db.jobs[j].attemptCount <= db.jobs[j].policy.maxAttempts
    ensures db.jobs[j].status == Queued ==> db.jobs[j].attemptCount < db.jobs[j].policy.maxAttempts
  {
    hide KeysOk, AttemptsOk, DistinctOk, NumbersOk, OutputsOk, SpacingOk, TablesOk, LogPath;
    assert JobOk(db, j);
  }

  lemma OnlyEnqueueAdds(db: Db, call: Call, now: Time, j: Uuid)
    requires !call.Enqueue? && j !in db.jobs
    ensures j !in Apply(db, call, now).jobs
  {
    hide RetryDelay, Jobs.Delivered, ShouldRetry, IsNext, LogOf, LiveLease;
    if call.Heartbeat? { LeaseHasJob(db, call.job, call.token, now); }
  }

  lemma LeaseHasJob(db: Db, j: Uuid, token: Uuid, now: Time)
    ensures LiveLease(db, j, token, now) ==> j in db.jobs
  {
  }

  lemma EnqueueLogs(db: Db, call: Call, now: Time, j: Uuid)
    requires call.Enqueue? && j !in db.jobs && j !in db.log && j in Apply(db, call, now).jobs
    ensures var db' := Apply(db, call, now);
      db'.jobs[j].status == Queued && db'.jobs[j].attemptCount == 0 && LogOf(db', j) == [Transition(None, Queued, "enqueue", now)]
  {
  }

  lemma NothingPutBack(t: Transition)
    requires !PutsBack(t)
    ensures PutBacks([t]) == 0
  {
    PutBacksOfOneMore([], t);
    assert [] + [t] == [t];
  }

  lemma EnqueuedIsOk(db: Db, call: Call, now: Time, j: Uuid)
    requires call.Enqueue? && j !in db.jobs && j !in db.log && j in Apply(db, call, now).jobs
    ensures PutBackOk(Apply(db, call, now), j) && PutBacks(LogOf(Apply(db, call, now), j)) == 0
  {
    hide Apply, LogOf, PutBacks;
    EnqueueLogs(db, call, now, j);
    NothingPutBack(Transition(None, Queued, "enqueue", now));
  }

  lemma NewJobIsOk(db: Db, call: Call, now: Time, j: Uuid)
    requires Consistent(db) && j !in db.jobs
    ensures PutBackOk(Apply(db, call, now), j)
    ensures j in Apply(db, call, now).jobs ==> PutBacks(LogOf(Apply(db, call, now), j)) == 0
  {
    hide KeysOk, JobsOk, AttemptsOk, DistinctOk, NumbersOk, OutputsOk, SpacingOk, TablesOk, Apply, LogOf, PutBacks;
    TablesFacts(db);
    if call.Enqueue? {
      if j in Apply(db, call, now).jobs { EnqueuedIsOk(db, call, now, j); }
    } else {
      OnlyEnqueueAdds(db, call, now, j);
    }
  }

  lemma {:induction false} RunGives(db: Db, run: seq<Timed>, j: Uuid)
    requires Consistent(db) && PutBackOk(db, j)
    ensures j in db.jobs ==> j in Exec(db, run).jobs && Exec(db, run).jobs[j].policy == db.jobs[j].policy
    ensures var end := Exec(db, run);
      && PutBackOk(end, j)
      && (j in end.jobs ==>
            DelaysGiven(db, run, j) + TotalDelay(end.jobs[j].policy, if j in db.jobs then PutBacks(LogOf(db, j)) else 0)
            == TotalDelay(end.jobs[j].policy, PutBacks(LogOf(end, j))))
    decreases |run|
  {
    hide Consistent, Apply, PutBackOk, RetryDelay, DelayGiven;
    if run != [] {
      var next := Apply(db, run[0].call, run[0].now);
      CallKeeps(db, run[0].call, run[0].now);
      if j in db.jobs {
        CallGives(db, run[0].call, run[0].now, j);
      } else {
        NewJobIsOk(db, run[0].call, run[0].now, j);
        NothingGivenYet(db, run[0].call, run[0].now, j);
      }
      RunGives(next, run[1..], j);
    }
  }

  lemma NothingGivenYet(db: Db, call: Call, now: Time, j: Uuid)
    requires j !in db.jobs
    ensures DelayGiven(db, call, now, j) == 0.0
  {
    hide Apply;
  }

  /** Main theorem. Over every run, the waits given to a job are the retry delays of the attempts after which
      it was put back, at most max_attempts - 1 of them, and together at most
      min(b * (2^(max_attempts-1) - 1), (max_attempts-1) * cap). */
  lemma DelaysOfARun(run: seq<Timed>, j: Uuid)
    requires j in Exec(EMPTY, run).jobs
    ensures var job := Exec(EMPTY, run).jobs[j];
      var n := PutBacks(LogOf(Exec(EMPTY, run), j));
      && n <= job.policy.maxAttempts - 1
      && DelaysGiven(EMPTY, run, j) == TotalDelay(job.policy, n)
      && DelaysGiven(EMPTY, run, j) <= Min(Geometric(job.policy, job.policy.maxAttempts - 1),
                                           Caps(job.policy, job.policy.maxAttempts - 1))
  {
    hide Exec, RetryDelay, Geometric, Caps, Pow2, TotalDelay, DelaysGiven, LogOf;
    EmptyIsConsistent();
    RunGives(EMPTY, run, j);
    var job := Exec(EMPTY, run).jobs[j];
    var n := PutBacks(LogOf(Exec(EMPTY, run), j));
    TotalDelayBounded(job.policy, 0);
    TotalDelayBounded(job.policy, n);
    BoundsMonotone(job.policy, n, job.policy.maxAttempts - 1);
    BoundsStart(job.policy);
  }

  /** Over every run, attempt `n` of a job starts at least the first `n - 1` delays after attempt 1. */
  lemma {:induction false} BackoffAccumulates(run: seq<Timed>, clock: Time, j: Uuid, a: Uuid, b: Uuid, n: nat)
    requires Forward(clock, run) && n >= 1
    requires IsAttempt(Exec(EMPTY, run), a, j, 1) && IsAttempt(Exec(EMPTY, run), b, j, n)
    ensures j in Exec(EMPTY, run).jobs
    ensures var db := Exec(EMPTY, run);
      db.attempts[b].startedAt >= db.attempts[a].startedAt + TotalDelay(db.jobs[j].policy, n - 1)
    decreases n
  {
    hide Exec, KeysOk, JobsOk, OutputsOk, SpacingOk, TablesOk, RetryDelay;
    var db := Exec(EMPTY, run);
    EmptyIsConsistent();
    RunKeeps(EMPTY, clock, run);
    assert AttemptOk(db, b) && AttemptOk(db, a);
    if n == 1 {
      assert a != b ==> Distinct(db.attempts[a], db.attempts[b]);
    } else {
      assert HasAttempt(db, j, n - 1);
      var c :| IsAttempt(db, c, j, n - 1);
      BackoffAccumulates(run, clock, j, a, c, n - 1);
      RetriesAreSpaced(run, clock, c, b);
      assert TimelyAttempt(db.attempts[c], Clock(clock, run));
    }
  }
}
