/** What holds over every interleaving of repository calls, by any workers, live or stale. */
module JobRuns {
  import opened Prelude
  import opened Contracts
  import opened Jobs
  import opened JobInvariant

  datatype Timed = At(now: Time, call: Call)

  /** The clock never goes back: each call happens at or after the previous one. */
  predicate Forward(clock: Time, run: seq<Timed>)
    decreases |run|
  {
    run == [] || (clock <= run[0].now && Forward(run[0].now, run[1..]))
  }

  ghost function Exec(db: Db, run: seq<Timed>): Db
    decreases |run|
  {
    if run == [] then db else Exec(Apply(db, run[0].call, run[0].now), run[1..])
  }

  function Clock(clock: Time, run: seq<Timed>): Time
    decreases |run|
  {
    if run == [] then clock else Clock(run[0].now, run[1..])
  }

  predicate TimelyAttempt(x: Attempt, clock: Time) {
    && x.startedAt <= clock && x.startedAt < x.leaseExpiresAt
    && (x.endedAt.Some? ==> x.startedAt <= x.endedAt.value <= clock)
  }

  predicate TimelyJob(x: JobRow, clock: Time) {
    x.createdAt <= x.updatedAt <= clock
  }

  /** Attempts are well formed in time, and nothing is dated after the clock. */
  predicate Timely(db: Db, clock: Time) {
    && (forall a :: a in db.attempts ==> TimelyAttempt(db.attempts[a], clock))
    && (forall j :: j in db.jobs ==> TimelyJob(db.jobs[j], clock))
  }

  /** A call starts attempts and leases from `now` on, and ends attempts `now`. */
  lemma AttemptDates(db: Db, call: Call, now: Time, a: Uuid)
    requires a in Apply(db, call, now).attempts
    ensures var y := Apply(db, call, now).attempts[a];
      if a in db.attempts then
        && (y.startedAt == db.attempts[a].startedAt || (call.Claim? && y.startedAt == now))
        && (y.endedAt == db.attempts[a].endedAt || y.endedAt == Some(now) || (call.Claim? && y.endedAt.None?))
        && (y.leaseExpiresAt == db.attempts[a].leaseExpiresAt || y.leaseExpiresAt > now)
        && (y.startedAt != db.attempts[a].startedAt ==> y.endedAt.None? && y.leaseExpiresAt > now)
      else y.startedAt == now && y.endedAt.None? && y.leaseExpiresAt > now
  {
    hide IsNext, Delivered, RetryDelay, LogOf, ShouldRetry, AllowedTransition, Expired, ReclaimedJob, ClosedBy;
  }

  lemma CallKeepsTimelyAttempts(db: Db, clock: Time, call: Call, now: Time)
    requires Timely(db, clock) && clock <= now
    ensures forall a :: a in Apply(db, call, now).attempts ==> TimelyAttempt(Apply(db, call, now).attempts[a], now)
  {
    hide Apply, TimelyJob;
    forall a | a in Apply(db, call, now).attempts ensures TimelyAttempt(Apply(db, call, now).attempts[a], now) {
      AttemptDates(db, call, now, a);
      assert a in db.attempts ==> TimelyAttempt(db.attempts[a], clock);
    }
  }

  /** A call dates only the jobs it changes, and it dates them `now`. */
  lemma JobDates(db: Db, call: Call, now: Time, j: Uuid)
    requires j in Apply(db, call, now).jobs
    ensures var x := Apply(db, call, now).jobs[j];
      if j in db.jobs then x == db.jobs[j] || (x.createdAt == db.jobs[j].createdAt && x.updatedAt == now)
                           || (call.Enqueue? && x.createdAt == x.updatedAt == now)
      else x.createdAt == x.updatedAt == now
  {
    hide IsNext, Delivered, RetryDelay, LogOf, Closed, ClosedBy, Expired;
  }

  lemma CallKeepsTimelyJobs(db: Db, clock: Time, call: Call, now: Time)
    requires Timely(db, clock) && clock <= now
    ensures forall j :: j in Apply(db, call, now).jobs ==> TimelyJob(Apply(db, call, now).jobs[j], now)
  {
    hide Apply, TimelyAttempt;
    forall j | j in Apply(db, call, now).jobs ensures TimelyJob(Apply(db, call, now).jobs[j], now) {
      JobDates(db, call, now, j);
      assert j in db.jobs ==> TimelyJob(db.jobs[j], clock);
    }
  }

  lemma CallKeepsTimely(db: Db, clock: Time, call: Call, now: Time)
    requires Timely(db, clock) && clock <= now
    ensures Timely(Apply(db, call, now), now)
  {
    hide Apply, TimelyAttempt, TimelyJob;
    CallKeepsTimelyAttempts(db, clock, call, now);
    CallKeepsTimelyJobs(db, clock, call, now);
  }

  /** Any run from consistent tables ends in consistent, timely tables. */
  lemma {:induction false} RunKeeps(db: Db, clock: Time, run: seq<Timed>)
    requires Consistent(db) && Timely(db, clock) && Forward(clock, run)
    ensures Consistent(Exec(db, run)) && Timely(Exec(db, run), Clock(clock, run))
    decreases |run|
  {
    hide Consistent, Timely, Apply;
    if run != [] {
      CallKeeps(db, run[0].call, run[0].now);
      assert Timely(Apply(db, run[0].call, run[0].now), run[0].now) by {
        CallKeepsTimely(db, clock, run[0].call, run[0].now);
      }
      RunKeeps(Apply(db, run[0].call, run[0].now), run[0].now, run[1..]);
    }
  }

  // ---- fencing ---------------------------------------------------------------

  /** The calls a lease holder makes for job `j` with `token`. */
  predicate HolderCall(call: Call, j: Uuid, token: Uuid) {
    || (call.Heartbeat? && call.job == j && call.token == token)
    || (call.Complete? && call.job == j && call.token == token)
    || (call.RecordFailure? && call.job == j && call.token == token)
  }

  /** `token` was issued, and is not the live lease of `j` any more. */
  predicate Retired(db: Db, j: Uuid, token: Uuid, clock: Time) {
    token < db.nextUuid && !LiveLease(db, j, token, clock)
  }

  lemma NewRowsReviveNothing(db: Db, j: Uuid, token: Uuid, call: Call, now: Time)
    requires (call.Enqueue? || call.Claim?) && AttemptsOk(db) && token < db.nextUuid
    requires LiveLease(Apply(db, call, now), j, token, now)
    ensures LiveLease(db, j, token, now)
  {
    hide AttemptsOk, LogOf;
    var a := Apply(db, call, now).jobs[j].active.value;
    if a in db.attempts { OpenMeansActive(db, a); }
  }

  lemma HolderCallsReviveNothing(db: Db, j: Uuid, token: Uuid, call: Call, now: Time)
    requires (call.Heartbeat? || call.Complete? || call.RecordFailure?) && AttemptsOk(db)
    requires LiveLease(Apply(db, call, now), j, token, now)
    ensures LiveLease(db, j, token, now)
  {
    hide AttemptsOk, LogOf, RetryDelay, Delivered, ShouldRetry;
    var a := Apply(db, call, now).jobs[j].active.value;
    if a in db.attempts { OpenMeansActive(db, a); }
  }

  lemma OtherCallsReviveNothing(db: Db, j: Uuid, token: Uuid, call: Call, now: Time)
    requires (call.Cancel? || call.ReclaimExpired? || call.Acknowledge?) && AttemptsOk(db)
    requires LiveLease(Apply(db, call, now), j, token, now)
    ensures LiveLease(db, j, token, now)
  {
    hide AttemptsOk, LogOf, RetryDelay;
    var a := Apply(db, call, now).jobs[j].active.value;
    if a in db.attempts { OpenMeansActive(db, a); }
  }

  /** Once a lease has ended or run out, no call of anybody can revive it. */
  lemma RetiredStays(db: Db, j: Uuid, token: Uuid, clock: Time, call: Call, now: Time)
    requires AttemptsOk(db) && Retired(db, j, token, clock) && clock <= now
    ensures Retired(Apply(db, call, now), j, token, now)
  {
    hide AttemptsOk, Apply, LiveLease;
    NotLive(db, j, token, clock, now);
    IdsGrow(db, call, now);
    if LiveLease(Apply(db, call, now), j, token, now) {
      if call.Enqueue? || call.Claim? {
        NewRowsReviveNothing(db, j, token, call, now);
      } else if call.Heartbeat? || call.Complete? || call.RecordFailure? {
        HolderCallsReviveNothing(db, j, token, call, now);
      } else {
        OtherCallsReviveNothing(db, j, token, call, now);
      }
    }
  }

  lemma IdsGrow(db: Db, call: Call, now: Time)
    ensures db.nextUuid <= Apply(db, call, now).nextUuid
  {
    hide LogOf, RetryDelay, IsNext, Delivered, ShouldRetry;
  }

  lemma OpenMeansActive(db: Db, a: Uuid)
    requires AttemptsOk(db) && a in db.attempts
    ensures a < db.nextUuid
    ensures db.attempts[a].jobId in db.jobs
    ensures db.attempts[a].endedAt.None? <==> db.jobs[db.attempts[a].jobId].active == Some(a)
  {
    assert AttemptOk(db, a);
  }

  /** A call with a retired token leaves every table as it was. */
  lemma RetiredTokenIsInert(db: Db, j: Uuid, token: Uuid, call: Call, now: Time)
    requires HolderCall(call, j, token) && !LiveLease(db, j, token, now)
    ensures Apply(db, call, now) == db
  {
  }

  /** Main fencing theorem. Whatever the workers do after a lease has ended or run out, every later
      call that presents its token changes nothing. */
  lemma {:induction false} RetiredTokenNeverActs(db: Db, clock: Time, run: seq<Timed>, i: nat, j: Uuid, token: Uuid)
    requires Consistent(db) && Forward(clock, run) && Retired(db, j, token, clock)
    requires i < |run| && HolderCall(run[i].call, j, token)
    ensures Exec(db, run[..i + 1]) == Exec(db, run[..i])
    decreases i
  {
    hide Consistent, Apply, Retired, HolderCall;
    if i == 0 {
      assert run[..1] == [run[0]] && run[..0] == [];
      NotLive(db, j, token, clock, run[0].now);
      RetiredTokenIsInert(db, j, token, run[0].call, run[0].now);
      assert Exec(db, run[..1]) == Exec(Apply(db, run[0].call, run[0].now), run[..1][1..]);
    } else {
      var next := Apply(db, run[0].call, run[0].now);
      CallKeeps(db, run[0].call, run[0].now);
      assert AttemptsOk(db) by { AttemptsPart(db); }
      RetiredStays(db, j, token, clock, run[0].call, run[0].now);
      RetiredTokenNeverActs(next, run[0].now, run[1..], i - 1, j, token);
      assert run[..i + 1][1..] == run[1..][..i] && run[..i][1..] == run[1..][..i - 1];
    }
  }

  lemma AttemptsPart(db: Db)
    requires Consistent(db)
    ensures AttemptsOk(db)
  {
  }

  lemma NotLive(db: Db, j: Uuid, token: Uuid, clock: Time, now: Time)
    requires Retired(db, j, token, clock) && clock <= now
    ensures !LiveLease(db, j, token, now)
  {
  }

  /** At every instant the lease of a running job is either usable by its holder or reclaimable, never
      both: the heartbeat of its token succeeds exactly when reclaiming leaves the job running. */
  lemma LeaseIsUsableOrReclaimable(db: Db, j: Uuid, lease: Time, now: Time)
    requires Consistent(db) && j in db.jobs && db.jobs[j].status == Running && lease > 0.0
    ensures db.jobs[j].active.Some? && db.jobs[j].active.value in db.attempts
    ensures var token := db.attempts[db.jobs[j].active.value].token;
      && (LiveLease(db, j, token, now) <==> !Expired(db, j, now))
      && (HeartbeatTx(db, j, token, lease, now).1.Ok? <==> ReclaimTx(db, now).jobs[j].status == Running)
  {
    hide KeysOk, JobsOk, AttemptsOk, DistinctOk, NumbersOk, OutputsOk, SpacingOk, TablesOk;
    ActiveFacts(db, j);
  }

  // ---- one commit -------------------------------------------------------------

  /** A job's result appears only in a completion by its live lease, which becomes its one successful
      attempt; and a stored result is never replaced. */
  lemma CommitIsFenced(db: Db, j: Uuid, call: Call, now: Time)
    requires Consistent(db)
    ensures var db' := Apply(db, call, now);
      && (j in db.outputs ==> j in db'.outputs && db'.outputs[j] == db.outputs[j])
      && (j in db'.outputs && j !in db.outputs ==>
            && call.Complete? && call.job == j && call.result == Some(db'.outputs[j])
            && LiveLease(db, j, call.token, now)
            && var a := ActiveAttempt(db, j, call.token).value;
               a in db'.attempts && db'.attempts[a].outcome == Some(Succeeded))
  {
    hide KeysOk, AttemptsOk, DistinctOk, NumbersOk, SpacingOk, TablesOk, LogOf, LogPath, RetryDelay, IsNext;
    hide Delivered, ShouldRetry, AllowedTransition;
    if j in db.outputs { assert OutputOk(db, j); }
  }

  /** At most one attempt of a job ever succeeds, and at most one is open. */
  lemma OneWinner(db: Db, a: Uuid, b: Uuid)
    requires Consistent(db) && a in db.attempts && b in db.attempts && db.attempts[a].jobId == db.attempts[b].jobId
    requires (db.attempts[a].outcome == db.attempts[b].outcome == Some(Succeeded))
             || (db.attempts[a].endedAt.None? && db.attempts[b].endedAt.None?)
    ensures a == b
  {
    hide KeysOk, JobsOk, NumbersOk, OutputsOk, SpacingOk, TablesOk;
    assert AttemptOk(db, a) && AttemptOk(db, b);
    assert a != b ==> Distinct(db.attempts[a], db.attempts[b]);
  }

  /** `db'` says the same as `db` about job `j`. */
  ghost predicate SameJob(db: Db, db': Db, j: Uuid) {
    && j in db.jobs && j in db'.jobs && db'.jobs[j] == db.jobs[j]
    && (j in db.outputs <==> j in db'.outputs)
    && (j in db.outputs ==> db'.outputs[j] == db.outputs[j])
    && LogOf(db', j) == LogOf(db, j)
    && (forall a :: a in db.attempts && db.attempts[a].jobId == j ==>
          a in db'.attempts && db'.attempts[a] == db.attempts[a])
    && (forall a :: a in db'.attempts && db'.attempts[a].jobId == j ==>
          a in db.attempts && db'.attempts[a] == db.attempts[a])
  }

  /** Only job `i` and attempts of `i` differ. */
  ghost predicate SameOffJob(db: Db, db': Db, i: Uuid) {
    && (forall k :: k in db.jobs && k != i ==> k in db'.jobs && db'.jobs[k] == db.jobs[k])
    && (forall k :: k != i ==> (k in db.outputs <==> k in db'.outputs))
    && (forall k :: k in db.outputs && k != i ==> db'.outputs[k] == db.outputs[k])
    && (forall k :: k != i ==> LogOf(db', k) == LogOf(db, k))
    && (forall a :: a in db.attempts && db.attempts[a].jobId != i ==>
          a in db'.attempts && db'.attempts[a] == db.attempts[a])
    && (forall a :: a in db'.attempts && db'.attempts[a].jobId != i ==>
          a in db.attempts && db'.attempts[a] == db.attempts[a])
  }

  lemma SameOffJobIsSame(db: Db, db': Db, i: Uuid, j: Uuid)
    requires SameOffJob(db, db', i) && i != j && j in db.jobs
    ensures SameJob(db, db', j)
  {
  }

  /** The active attempt of a running job is an attempt of that job. */
  predicate ActiveBelongs(db: Db, i: Uuid)
    requires i in db.jobs
  {
    db.jobs[i].active.Some? && db.jobs[i].active.value in db.attempts ==>
      db.attempts[db.jobs[i].active.value].jobId == i
  }

  lemma EnqueueTouches(db: Db, call: Call, now: Time)
    requires call.Enqueue?
    ensures SameOffJob(db, Apply(db, call, now), db.nextUuid)
  {
  }

  lemma ClaimTouches(db: Db, call: Call, now: Time, i: Uuid)
    requires call.Claim? && db.nextUuid !in db.attempts
    requires Apply(db, call, now) != db ==> ClaimTarget(db, now) == Some(i)
    ensures SameOffJob(db, Apply(db, call, now), i)
  {
    hide IsNext;
  }

  lemma HeartbeatTouches(db: Db, call: Call, now: Time)
    requires call.Heartbeat? && (call.job in db.jobs ==> ActiveBelongs(db, call.job))
    ensures SameOffJob(db, Apply(db, call, now), call.job)
  {
    hide SameOffJob, LogOf;
    var i, db' := call.job, Apply(db, call, now);
    if db' == db {
      OneJobUpdated(db, db, i, db.log, None, None);
    } else {
      OneJobUpdated(db, db', i, db.log, Some(db'.jobs[i]), db.jobs[i].active);
    }
  }

  lemma FailureTouches(db: Db, call: Call, now: Time)
    requires call.RecordFailure?
    requires call.job in db.jobs ==> ActiveBelongs(db, call.job)
    ensures SameOffJob(db, Apply(db, call, now), call.job)
  {
    hide RetryDelay, ShouldRetry, SameOffJob, LogOf;
    var i, db' := call.job, Apply(db, call, now);
    if db' == db {
      OneJobUpdated(db, db, i, db.log, None, None);
    } else {
      OneJobUpdated(db, db', i, db'.log, Some(db'.jobs[i]), db.jobs[i].active);
    }
  }

  /** Updates of one job row, one of its attempts, and its log. */
  lemma OneJobUpdated(db: Db, db': Db, i: Uuid, log: map<Uuid, seq<Transition>>, row: Option<JobRow>, a: Option<Uuid>)
    requires db'.log == log && db'.outputs == db.outputs
    requires forall k :: k != i ==> (k in db.log <==> k in log) && (k in log ==> log[k] == db.log[k])
    requires db'.jobs == if row.Some? then db.jobs[i := row.value] else db.jobs
    requires db'.attempts == db.attempts
             || (a.Some? && a.value in db'.attempts && db'.attempts == db.attempts[a.value := db'.attempts[a.value]]
                 && db'.attempts[a.value].jobId == i && (a.value in db.attempts ==> db.attempts[a.value].jobId == i))
    ensures SameOffJob(db, db', i)
  {
  }

  lemma CompleteTouches(db: Db, call: Call, now: Time)
    requires call.Complete? && (call.job in db.jobs ==> ActiveBelongs(db, call.job))
    ensures SameOffJob(db, Apply(db, call, now), call.job)
  {
    hide Delivered;
  }

  lemma CancelTouches(db: Db, call: Call, now: Time)
    requires call.Cancel? && (call.job in db.jobs ==> ActiveBelongs(db, call.job))
    ensures SameOffJob(db, Apply(db, call, now), call.job)
  {
    hide AllowedTransition, SameOffJob, LogOf;
    var i, db' := call.job, Apply(db, call, now);
    if db' == db {
      OneJobUpdated(db, db, i, db.log, None, None);
    } else {
      OneJobUpdated(db, db', i, db'.log, Some(db'.jobs[i]), db.jobs[i].active);
    }
  }

  lemma ReclaimLeaves(db: Db, j: Uuid, now: Time)
    requires j in db.jobs && db.jobs[j].status != Running
    ensures SameJob(db, ReclaimTx(db, now), j)
  {
    hide RetryDelay;
  }

  lemma ActiveBelongsToAll(db: Db)
    requires JobsOk(db)
    ensures forall i :: i in db.jobs ==> ActiveBelongs(db, i)
  {
    forall i | i in db.jobs ensures ActiveBelongs(db, i) {
      assert JobOk(db, i);
    }
  }

  /** A terminal job never changes again: not its row, result, log or attempts. */
  lemma TerminalJobKeeps(db: Db, j: Uuid, call: Call, now: Time)
    requires Consistent(db) && j in db.jobs && Terminal(db.jobs[j].status)
    ensures SameJob(db, Apply(db, call, now), j)
  {
    hide KeysOk, JobsOk, AttemptsOk, DistinctOk, NumbersOk, OutputsOk, SpacingOk, TablesOk;
    hide SameJob, SameOffJob, ActiveBelongs, CommitResult, CommitFailure, CommitCancel, ReclaimJobs, EnqueueTx;
    FreshIds(db);
    ActiveBelongsToAll(db);
    TerminalRefl(db, j);
    var db' := Apply(db, call, now);
    if db' != db {
      match call
      case Enqueue(_, _, _, _, _) =>
        EnqueueTouches(db, call, now);
        SameOffJobIsSame(db, db', db.nextUuid, j);
      case Claim(_, _) =>
        var i := ClaimTarget(db, now).value;
        assert Claimable(db, now, i);
        ClaimTouches(db, call, now, i);
        SameOffJobIsSame(db, db', i, j);
      case Heartbeat(i, _, _) =>
        HeartbeatTouches(db, call, now);
        SameOffJobIsSame(db, db', i, j);
      case Complete(i, _, _, _) =>
        CompleteTouches(db, call, now);
        SameOffJobIsSame(db, db', i, j);
      case RecordFailure(i, _, _, _, _, _) =>
        FailureTouches(db, call, now);
        SameOffJobIsSame(db, db', i, j);
      case Cancel(i) =>
        CancelTouches(db, call, now);
        SameOffJobIsSame(db, db', i, j);
      case ReclaimExpired =>
        ReclaimLeaves(db, j, now);
      case Acknowledge(_) =>
        OutboxLeaves(db, db', j);
    }
  }

  lemma OutboxLeaves(db: Db, db': Db, j: Uuid)
    requires j in db.jobs && db' == db.(outbox := db'.outbox)
    ensures SameJob(db, db', j)
  {
  }

  lemma SameJobTransitive(db1: Db, db2: Db, db3: Db, j: Uuid)
    requires SameJob(db1, db2, j) && SameJob(db2, db3, j)
    ensures SameJob(db1, db3, j)
  {
    forall a | a in db3.attempts && db3.attempts[a].jobId == j ensures a in db1.attempts {
      assert a in db2.attempts;
    }
  }

  /** Terminal states are absorbing over every run. */
  lemma {:induction false} TerminalIsFinal(db: Db, clock: Time, run: seq<Timed>, j: Uuid)
    requires Consistent(db) && j in db.jobs && Terminal(db.jobs[j].status)
    ensures SameJob(db, Exec(db, run), j)
    decreases |run|
  {
    hide Consistent, Apply, SameJob;
    if run == [] {
      TerminalRefl(db, j);
    } else {
      var next := Apply(db, run[0].call, run[0].now);
      CallKeeps(db, run[0].call, run[0].now);
      TerminalJobKeeps(db, j, run[0].call, run[0].now);
      SameRow(db, next, j);
      TerminalIsFinal(next, run[0].now, run[1..], j);
      SameJobTransitive(db, next, Exec(next, run[1..]), j);
    }
  }

  lemma TerminalRefl(db: Db, j: Uuid)
    requires j in db.jobs
    ensures SameJob(db, db, j)
  {
  }

  lemma SameRow(db: Db, db': Db, j: Uuid)
    requires SameJob(db, db', j)
    ensures j in db'.jobs && db'.jobs[j] == db.jobs[j]
  {
  }

  /** A stored result is the result of the job for ever, whatever is called later. */
  lemma ResultIsFinal(db: Db, clock: Time, run: seq<Timed>, j: Uuid)
    requires Consistent(db) && j in db.outputs
    ensures j in Exec(db, run).outputs && Exec(db, run).outputs[j] == db.outputs[j]
  {
    hide KeysOk, JobsOk, AttemptsOk, DistinctOk, NumbersOk, SpacingOk, TablesOk, Exec;
    assert OutputOk(db, j);
    TerminalIsFinal(db, clock, run, j);
  }

  // ---- a live lease is safe from others ------------------------------------------

  /** The lease of `token` on job `j` is open and runs until `until`. */
  predicate HoldsUntil(db: Db, j: Uuid, token: Uuid, until: Time) {
    var a := ActiveAttempt(db, j, token);
    a.Some? && a.value in db.attempts && db.attempts[a.value].leaseExpiresAt == until
  }

  lemma SameJobHolds(db: Db, db': Db, j: Uuid, token: Uuid, until: Time)
    requires SameJob(db, db', j) && HoldsUntil(db, j, token, until) && ActiveBelongs(db, j)
    ensures HoldsUntil(db', j, token, until)
  {
  }

  lemma ReclaimSparesLive(db: Db, j: Uuid, token: Uuid, until: Time, now: Time)
    requires HoldsUntil(db, j, token, until) && now < until && j in db.jobs && ActiveBelongs(db, j)
    ensures HoldsUntil(ReclaimTx(db, now), j, token, until)
  {
    hide RetryDelay, LogOf;
  }

  /** Nobody but its holder, and a cancellation, can end or move a lease that has not run out. */
  lemma OthersLeaveLease(db: Db, j: Uuid, token: Uuid, until: Time, call: Call, now: Time)
    requires Consistent(db) && HoldsUntil(db, j, token, until) && now < until
    requires !HolderCall(call, j, token) && !(call.Cancel? && call.job == j)
    ensures HoldsUntil(Apply(db, call, now), j, token, until)
  {
    hide KeysOk, JobsOk, AttemptsOk, DistinctOk, NumbersOk, OutputsOk, SpacingOk, TablesOk;
    hide SameJob, SameOffJob, ActiveBelongs, CommitResult, CommitFailure, CommitCancel, ReclaimJobs, EnqueueTx;
    FreshIds(db);
    ActiveBelongsToAll(db);
    var db' := Apply(db, call, now);
    if db' != db {
      match call
      case Enqueue(_, _, _, _, _) =>
        EnqueueTouches(db, call, now);
        SameOffJobIsSame(db, db', db.nextUuid, j);
        SameJobHolds(db, db', j, token, until);
      case Claim(_, _) =>
        var i := ClaimTarget(db, now).value;
        ClaimTouches(db, call, now, i);
        SameOffJobIsSame(db, db', i, j);
        SameJobHolds(db, db', j, token, until);
      case Heartbeat(i, other, _) =>
        if i == j { OtherTokenIsInert(db, j, token, other, call, until, now); }
        HeartbeatTouches(db, call, now);
        SameOffJobIsSame(db, db', i, j);
        SameJobHolds(db, db', j, token, until);
      case Complete(i, other, _, _) =>
        if i == j { OtherTokenIsInert(db, j, token, other, call, until, now); }
        CompleteTouches(db, call, now);
        SameOffJobIsSame(db, db', i, j);
        SameJobHolds(db, db', j, token, until);
      case RecordFailure(i, other, _, _, _, _) =>
        if i == j { OtherTokenIsInert(db, j, token, other, call, until, now); }
        FailureTouches(db, call, now);
        SameOffJobIsSame(db, db', i, j);
        SameJobHolds(db, db', j, token, until);
      case Cancel(i) =>
        CancelTouches(db, call, now);
        SameOffJobIsSame(db, db', i, j);
        SameJobHolds(db, db', j, token, until);
      case ReclaimExpired => ReclaimSparesLive(db, j, token, until, now);
      case Acknowledge(_) =>
        OutboxLeaves(db, db', j);
        SameJobHolds(db, db', j, token, until);
    }
  }

  lemma OtherTokenIsInert(db: Db, j: Uuid, token: Uuid, other: Uuid, call: Call, until: Time, now: Time)
    requires HoldsUntil(db, j, token, until) && other != token && HolderCall(call, j, other)
    ensures Apply(db, call, now) == db
  {
    hide Apply;
    RetiredTokenIsInert(db, j, other, call, now);
  }

  /** Main theorem. While its lease lasts, and unless the job is cancelled, no interleaving of other calls
      takes a job away from its holder; so a worker that renews in time keeps it. */
  lemma {:induction false} LiveLeaseSurvives(db: Db, clock: Time, run: seq<Timed>, j: Uuid, token: Uuid, until: Time)
    requires Consistent(db) && Forward(clock, run) && HoldsUntil(db, j, token, until)
    requires forall i :: 0 <= i < |run| ==>
      run[i].now < until && !HolderCall(run[i].call, j, token) && !(run[i].call.Cancel? && run[i].call.job == j)
    ensures HoldsUntil(Exec(db, run), j, token, until)
    decreases |run|
  {
    hide Consistent, Apply, HoldsUntil, HolderCall;
    if run != [] {
      CallKeeps(db, run[0].call, run[0].now);
      OthersLeaveLease(db, j, token, until, run[0].call, run[0].now);
      LiveLeaseSurvives(Apply(db, run[0].call, run[0].now), run[0].now, run[1..], j, token, until);
    }
  }

  // ---- repeated calls ---------------------------------------------------------------

  /** A call only adds idempotency keys, and only an enqueue adds its own. */
  lemma KeysGrow(db: Db, call: Call, now: Time)
    ensures var db' := Apply(db, call, now);
      && (forall k :: k in db.idempotency ==> k in db'.idempotency && db'.idempotency[k] == db.idempotency[k])
      && (forall k :: k in db'.idempotency && k !in db.idempotency ==> call.Enqueue? && call.key == k)
  {
    hide IsNext, Delivered, RetryDelay, LogOf, ShouldRetry;
  }

  lemma {:induction false} KeyStays(db: Db, run: seq<Timed>, key: Key)
    requires key in db.idempotency
    ensures key in Exec(db, run).idempotency && Exec(db, run).idempotency[key] == db.idempotency[key]
    decreases |run|
  {
    hide Apply;
    if run != [] {
      KeysGrow(db, run[0].call, run[0].now);
      KeyStays(Apply(db, run[0].call, run[0].now), run[1..], key);
    }
  }

  /** Enqueuing under a key that was used, however long ago and with whatever arguments, returns the job
      of the first call and changes nothing. */
  lemma EnqueueCanBeRepeated(db: Db, first: Call, now: Time, run: seq<Timed>, again: Call, later: Time)
    requires first.Enqueue? && again.Enqueue? && again.key == first.key
    requires AcceptsEnqueue(first.taskId, first.task, first.key, first.priority)
    requires AcceptsEnqueue(again.taskId, again.task, again.key, again.priority)
    ensures var once := EnqueueTx(db, first.taskId, first.task, first.key, first.priority, first.policy, now);
      var db' := Exec(once.0, run);
      EnqueueTx(db', again.taskId, again.task, again.key, again.priority, again.policy, later) == (db', once.1)
  {
    hide Exec, NewJob, Logged, AcceptsEnqueue;
    var once := EnqueueTx(db, first.taskId, first.task, first.key, first.priority, first.policy, now);
    KeyStays(once.0, run, first.key);
  }

  lemma CommittedIsDelivered(db: Db, j: Uuid, token: Uuid, outputRef: string, result: Option<JobResult>, now: Time)
    requires Consistent(db) && CompleteTx(db, j, token, outputRef, result, now).1 == Ok(())
    ensures var db' := CompleteTx(db, j, token, outputRef, result, now).0;
      && j in db'.jobs && db'.jobs[j].status == Completed && Delivered(db', j, token, outputRef)
      && (result.Some? ==> j in db'.outputs && db'.outputs[j] == result.value)
  {
    hide KeysOk, JobsOk, AttemptsOk, DistinctOk, NumbersOk, OutputsOk, SpacingOk, TablesOk, LogOf;
    ActiveBelongsToAll(db);
    if db.jobs[j].status == Running {
      var a := ActiveAttempt(db, j, token).value;
      assert IsDelivery(CompleteTx(db, j, token, outputRef, result, now).0.attempts[a], j, token, outputRef);
    }
  }

  /** A worker that did not hear the answer to its completion may send it again at any later time: it is
      accepted and changes nothing. */
  lemma CompletionCanBeRepeated(db: Db, j: Uuid, token: Uuid, outputRef: string, result: Option<JobResult>, now: Time,
                                run: seq<Timed>, later: Time)
    requires Consistent(db) && CompleteTx(db, j, token, outputRef, result, now).1 == Ok(())
    ensures var db' := Exec(CompleteTx(db, j, token, outputRef, result, now).0, run);
      CompleteTx(db', j, token, outputRef, result, later) == (db', Ok(()))
  {
    hide Exec, Consistent, CommitResult;
    var done := CompleteTx(db, j, token, outputRef, result, now).0;
    CommittedIsDelivered(db, j, token, outputRef, result, now);
    CompleteKeeps(db, j, token, outputRef, result, now);
    TerminalIsFinal(done, now, run, j);
    var a :| a in done.attempts && IsDelivery(done.attempts[a], j, token, outputRef);
    assert IsDelivery(Exec(done, run).attempts[a], j, token, outputRef);
  }

  /** A failure reported by the live holder sends the job back exactly when the error may be retried and
      an attempt is left, one retry delay later; otherwise the job has failed for good. */
  lemma FailureDecides(db: Db, j: Uuid, token: Uuid, error: string, code: string, kind: string, retryable: bool,
                       now: Time)
    requires Consistent(db) && LiveLease(db, j, token, now)
    ensures var job := db.jobs[j];
      var db' := FailureTx(db, j, token, error, code, kind, retryable, now).0;
      var again := retryable && code in job.policy.retryable && job.attemptCount < job.policy.maxAttempts;
      && j in db'.jobs && db'.jobs[j].status == (if again then Queued else Failed)
      && (forall later :: Claimable(db', later, j) <==> again && now + RetryDelay(job.policy, job.attemptCount) <= later)
      && (forall later :: !LiveLease(db', j, token, later))
  {
    hide KeysOk, JobsOk, AttemptsOk, DistinctOk, NumbersOk, OutputsOk, SpacingOk, TablesOk, LogOf, RetryDelay;
  }

  // ---- the life of a job --------------------------------------------------------

  /** Over every run the log of a job is a path of the allowed graph that ends in its status, at most
      1 + 2 * max_attempts long, and its attempts are numbered 1 to attempt_count <= max_attempts. */
  lemma BoundedLife(run: seq<Timed>, clock: Time, j: Uuid)
    requires Forward(clock, run) && j in Exec(EMPTY, run).jobs
    ensures var db := Exec(EMPTY, run);
      var job := db.jobs[j];
      && LogPath(LogOf(db, j), job.status)
      && |LogOf(db, j)| <= 1 + 2 * job.policy.maxAttempts
      && job.attemptCount <= job.policy.maxAttempts
      && (job.status == Queued ==> job.attemptCount < job.policy.maxAttempts)
      && (job.status == Running <==> job.active.Some?)
      && (forall n :: 1 <= n <= job.attemptCount ==> HasAttempt(db, j, n))
      && (forall a :: a in db.attempts && db.attempts[a].jobId == j ==>
            && 1 <= db.attempts[a].number <= job.attemptCount <= job.policy.maxAttempts
            && (db.attempts[a].endedAt.None? <==> job.active == Some(a)))
  {
    hide Exec, KeysOk, DistinctOk, OutputsOk, SpacingOk, TablesOk, LogPath;
    EmptyIsConsistent();
    RunKeeps(EMPTY, clock, run);
    var db := Exec(EMPTY, run);
    assert JobOk(db, j);
    forall a | a in db.attempts && db.attempts[a].jobId == j
      ensures 1 <= db.attempts[a].number <= db.jobs[j].attemptCount
      ensures db.attempts[a].endedAt.None? <==> db.jobs[j].active == Some(a)
    {
      assert AttemptOk(db, a);
    }
  }

  /** Over every run, an attempt starts no earlier than one retry delay after its predecessor ended. */
  lemma RetriesAreSpaced(run: seq<Timed>, clock: Time, a: Uuid, b: Uuid)
    requires Forward(clock, run)
    requires a in Exec(EMPTY, run).attempts && b in Exec(EMPTY, run).attempts
    requires var db := Exec(EMPTY, run);
      db.attempts[a].jobId == db.attempts[b].jobId && db.attempts[b].number == db.attempts[a].number + 1
    ensures var db := Exec(EMPTY, run);
      var x, y := db.attempts[a], db.attempts[b];
      && x.endedAt.Some? && x.jobId in db.jobs
      && y.startedAt >= x.endedAt.value + RetryDelay(db.jobs[x.jobId].policy, x.number)
  {
    hide Exec, KeysOk, JobsOk, AttemptsOk, DistinctOk, NumbersOk, OutputsOk, TablesOk;
    EmptyIsConsistent();
    RunKeeps(EMPTY, clock, run);
    assert Spaced(Exec(EMPTY, run), Exec(EMPTY, run).attempts[a], Exec(EMPTY, run).attempts[b]);
  }
}
