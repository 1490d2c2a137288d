/** Dependency safety and one job per task, over every run of the goal, crashes included. */
module GoalSafety {
  import opened Prelude
  import opened Contracts
  import opened Goals
  import Jobs
  import JobInvariant
  import JobRuns
  import Substitution

  // ---- the invariant ------------------------------------------------------------

  /** A task in one of these statuses was launched, so all its dependencies must be complete. */
  predicate Launched(s: TaskStatus) {
    s == TRunning || s == TComplete || s == TFailed || s == TEscalated
  }

  /** The job under the key of task `t`. */
  predicate HasJob(w: World, t: Uuid) {
    KeyOf(w, t) in w.jobs.idempotency
  }

  predicate ResultIs(w: World, t: Uuid, status: string) {
    && HasJob(w, t) && w.jobs.idempotency[KeyOf(w, t)] in w.jobs.outputs
    && w.jobs.outputs[w.jobs.idempotency[KeyOf(w, t)]].status == status
  }

  predicate TaskOk(w: World, t: Uuid)
    requires t in w.tasks
  {
    var task := w.tasks[t];
    && (Launched(task.status) || HasJob(w, t) ==> DepsComplete(w, t))
    && (task.jobId.Some? ==> HasJob(w, t) && w.jobs.idempotency[KeyOf(w, t)] == task.jobId.value)
    && (task.status == TRunning ==> task.jobId.Some?)
    && (t in w.reviews ==> ResultIs(w, t, "escalated"))
    && (task.status == TComplete ==> Earned(w, t, task) || (t in w.reviews && w.reviews[t] == ReviewAccepted))
  }

  /** The job of the task committed a complete result that meets the goal's threshold, and the task holds it. */
  predicate Earned(w: World, t: Uuid, task: PlannedTask) {
    && ResultIs(w, t, "complete")
    && var r := w.jobs.outputs[w.jobs.idempotency[KeyOf(w, t)]];
       Confidence(r) >= w.threshold && task.result == Some(TaskResult(r)) && task.confidence == r.confidence
  }

  /** The plan is a set of distinct tasks whose dependencies are tasks of the plan. */
  ghost predicate PlanOk(w: World) {
    && (forall i, k :: 0 <= i < k < |w.order| ==> w.order[i] != w.order[k])
    && (forall t :: t in w.order <==> t in w.tasks)
    && (forall t, d :: t in w.tasks && d in w.tasks[t].dependsOn ==> d in w.tasks)
  }

  predicate TasksOk(w: World) {
    forall t :: t in w.tasks ==> TaskOk(w, t)
  }

  /** The input of a task's job: its contract, with the payload that its dependencies' results give. */
  predicate InputIs(w: World, t: Uuid, x: TaskInput)
    requires t in w.tasks
  {
    x == Contract(w, t, x.payload)
    && Substitution.Resolve(w.tasks[t].payload, Substitution.Declared(w.tasks[t]), w.tasks) == Ok(x.payload)
  }

  predicate InputOk(w: World, t: Uuid)
    requires t in w.tasks
  {
    HasJob(w, t) ==>
      var j := w.jobs.idempotency[KeyOf(w, t)];
      j in w.jobs.inputs && InputIs(w, t, w.jobs.inputs[j])
  }

  /** A task holds a result only once it is complete or escalated, or was rejected; an escalated task holds
      what its completed job returned. */
  predicate ResultFits(w: World, t: Uuid, task: PlannedTask) {
    && (task.result.Some? ==>
          || task.status == TComplete || task.status == TEscalated
          || (task.status == TFailed && t in w.reviews && w.reviews[t] == ReviewRejected))
    && (task.status == TEscalated ==>
          && HasJob(w, t)
          && var j := w.jobs.idempotency[KeyOf(w, t)];
             j in w.jobs.jobs && w.jobs.jobs[j].status == Completed && task.result == Some(TaskResult(ResultOf(w, j))))
  }

  predicate ResultsOk(w: World) {
    forall t :: t in w.tasks ==> ResultFits(w, t, w.tasks[t])
  }

  predicate InputsOk(w: World) {
    forall t :: t in w.tasks ==> InputOk(w, t)
  }

  /** Jobs under this goal's keys belong to its tasks. */
  predicate KeysOwned(w: World) {
    forall k :: k in w.jobs.idempotency && k.TaskKey? && k.goalId == w.goalId ==> k.taskId in w.tasks
  }

  ghost predicate GoalInv(w: World) {
    PlanOk(w) && TasksOk(w) && InputsOk(w) && ResultsOk(w) && KeysOwned(w) && JobInvariant.Consistent(w.jobs)
  }

  /** Dependency safety: what runs or ran had its dependencies complete, and so did what was enqueued. */
  predicate DependencySafe(w: World) {
    && (forall t :: t in w.tasks && Launched(w.tasks[t].status) ==> DepsComplete(w, t))
    && (forall j :: j in w.jobs.jobs && w.jobs.jobs[j].key.TaskKey? && w.jobs.jobs[j].key.goalId == w.goalId ==>
          w.jobs.jobs[j].key.taskId in w.tasks && DepsComplete(w, w.jobs.jobs[j].key.taskId))
  }

  // ---- writes that keep it --------------------------------------------------------

  /** What an operation must know before it makes a write. A `strict` write moves its task forward, and
      completes it only for a result that earned it. */
  predicate Legal(w: World, write: Write, strict: bool) {
    match write
    case UpdateTask(t, p) =>
      t in w.tasks ==>
        var next := Patched(w.tasks[t], p);
        && (Launched(next.status) ==> DepsComplete(w, t))
        && (w.tasks[t].status == TComplete ==> next == w.tasks[t])
        && (next.status == TComplete ==> Earned(w, t, next) || (t in w.reviews && w.reviews[t] == ReviewAccepted))
        && ResultFits(w, t, next)
        && (next.jobId.Some? ==> HasJob(w, t) && w.jobs.idempotency[KeyOf(w, t)] == next.jobId.value)
        && (next.status == TRunning ==> next.jobId.Some? && (w.tasks[t].status == TPending || w.tasks[t].status == TRunning))
        && Weight(next.status) <= Weight(w.tasks[t].status)
        && (strict ==> Weight(next.status) < Weight(w.tasks[t].status))
        && (strict && next.status == TComplete ==> Earned(w, t, next))
    case JobCall(call, now) =>
      call.Enqueue? && call.key.TaskKey? && call.key.goalId == w.goalId ==>
        && call.key.taskId in w.tasks && DepsComplete(w, call.key.taskId)
        && call.taskId == call.key.taskId && call.task.Some? && InputIs(w, call.key.taskId, call.task.value)
    case AddReview(t) => ResultIs(w, t, "escalated")
    case ResolveReview(t, _) => t in w.reviews && w.reviews[t] == ReviewPending
    case _ => true
  }

  /** A pending task has two changes ahead of it at most, a running one has one. */
  function Weight(s: TaskStatus): nat {
    match s
    case TPending => 2
    case TRunning => 1
    case _ => 0
  }

  ghost predicate AllLegal(w: World, writes: seq<Write>, strict: bool)
    decreases |writes|
  {
    writes == [] || (Legal(w, writes[0], strict) && AllLegal(Apply(w, writes[0]), writes[1..], strict))
  }

  /** A call on the job tables only adds keys, and never touches a stored result. */
  ghost predicate JobsGrow(db: Jobs.Db, db': Jobs.Db, call: Jobs.Call) {
    && (forall k :: k in db.idempotency ==> k in db'.idempotency && db'.idempotency[k] == db.idempotency[k])
    && (forall k :: k in db'.idempotency && k !in db.idempotency ==> call.Enqueue? && call.key == k)
    && (forall j :: j in db.outputs ==> j in db'.outputs && db'.outputs[j] == db.outputs[j])
    && (forall j :: j in db.jobs && db.jobs[j].status == Completed ==>
          j in db'.jobs && db'.jobs[j].status == Completed && (j in db.outputs <==> j in db'.outputs))
    && (forall j :: j in db.inputs ==> j in db'.inputs && db'.inputs[j] == db.inputs[j])
    && (call.Enqueue? && call.task.Some? && call.key in db'.idempotency && call.key !in db.idempotency ==>
          db'.idempotency[call.key] in db'.inputs && db'.inputs[db'.idempotency[call.key]] == call.task.value)
  }

  lemma FreshInput(db: Jobs.Db)
    requires JobInvariant.Consistent(db)
    ensures db.nextUuid !in db.inputs
  {
    hide JobInvariant.KeysOk, JobInvariant.NumbersOk, JobInvariant.DistinctOk, JobInvariant.SpacingOk;
    hide JobInvariant.JobsOk, JobInvariant.AttemptsOk, JobInvariant.OutputsOk;
    JobInvariant.FreshIds(db);
  }

  lemma InputsGrow(db: Jobs.Db, call: Jobs.Call, now: Time)
    requires db.nextUuid !in db.inputs
    ensures var db' := Jobs.Apply(db, call, now);
      && (forall j :: j in db.inputs ==> j in db'.inputs && db'.inputs[j] == db.inputs[j])
      && (call.Enqueue? && call.task.Some? && call.key in db'.idempotency && call.key !in db.idempotency ==>
            db'.idempotency[call.key] in db'.inputs && db'.inputs[db'.idempotency[call.key]] == call.task.value)
  {
    hide Jobs.IsNext, Jobs.Delivered, Jobs.RetryDelay, Jobs.LogOf, Jobs.ShouldRetry;
  }

  lemma CallsGrow(db: Jobs.Db, call: Jobs.Call, now: Time)
    requires JobInvariant.Consistent(db)
    ensures JobsGrow(db, Jobs.Apply(db, call, now), call)
  {
    hide JobInvariant.Consistent, Jobs.Apply;
    JobRuns.KeysGrow(db, call, now);
    FreshInput(db);
    InputsGrow(db, call, now);
    forall j | j in db.jobs && db.jobs[j].status == Completed
      ensures var db' := Jobs.Apply(db, call, now);
        j in db'.jobs && db'.jobs[j].status == Completed && (j in db.outputs <==> j in db'.outputs)
    {
      JobRuns.TerminalJobKeeps(db, j, call, now);
    }
    forall j | j in db.outputs ensures j in Jobs.Apply(db, call, now).outputs
                                       && Jobs.Apply(db, call, now).outputs[j] == db.outputs[j] {
      JobRuns.CommitIsFenced(db, j, call, now);
    }
  }

  lemma LegalKeepsTask(w: World, write: Write, t: Uuid, strict: bool)
    requires t in w.tasks && TasksOk(w) && Legal(w, write, strict)
    requires write.JobCall? ==> JobsGrow(w.jobs, Apply(w, write).jobs, write.call)
    ensures TaskOk(Apply(w, write), t)
  {
    hide Jobs.Apply, DepsComplete, SamePlan;
    var w' := Apply(w, write);
    assert TaskOk(w, t);
    DepsStay(w, w', t);
  }

  lemma DepsStay(w: World, w': World, t: Uuid)
    requires t in w.tasks && t in w'.tasks && w'.tasks[t].dependsOn == w.tasks[t].dependsOn
    requires forall d :: d in w.tasks && w.tasks[d].status == TComplete ==> d in w'.tasks && w'.tasks[d].status == TComplete
    ensures DepsComplete(w, t) ==> DepsComplete(w', t)
  {
  }

  /** What resolving a launched task's payload gives is settled: its dependencies are complete for good. */
  lemma LegalKeepsInput(w: World, write: Write, t: Uuid, strict: bool)
    requires t in w.tasks && TasksOk(w) && InputsOk(w) && Legal(w, write, strict)
    requires write.JobCall? ==> JobsGrow(w.jobs, Apply(w, write).jobs, write.call)
    ensures InputOk(Apply(w, write), t)
  {
    hide Jobs.Apply, Substitution.Resolve, SamePlan, Earned, ResultIs;
    var w' := Apply(w, write);
    assert TaskOk(w, t) && InputOk(w, t);
    if HasJob(w, t) && write.UpdateTask? {
      var declared := Substitution.Declared(w.tasks[t]);
      assert forall d :: d in declared ==> d in w.tasks && w.tasks[d].status == TComplete;
      assert Substitution.AgreeOn(declared, w.tasks, w'.tasks);
      Substitution.OnlyDeclaredResultsMatter(w.tasks[t].payload, declared, w.tasks, w'.tasks);
    }
  }

  lemma LegalKeepsResult(w: World, write: Write, t: Uuid, strict: bool)
    requires t in w.tasks && ResultsOk(w) && Legal(w, write, strict)
    requires write.JobCall? ==> JobsGrow(w.jobs, Apply(w, write).jobs, write.call)
    ensures ResultFits(Apply(w, write), t, Apply(w, write).tasks[t])
  {
    hide Jobs.Apply, SamePlan, Earned, ResultIs, DepsComplete, TaskResult, InputIs;
    assert ResultFits(w, t, w.tasks[t]);
  }

  /** Every legal write keeps the invariant. */
  lemma LegalKeeps(w: World, write: Write, strict: bool)
    requires GoalInv(w) && Legal(w, write, strict)
    ensures GoalInv(Apply(w, write))
  {
    hide Jobs.Apply, JobInvariant.Consistent, TaskOk, InputOk, InputIs, ResultFits;
    var w' := Apply(w, write);
    if write.JobCall? {
      CallsGrow(w.jobs, write.call, write.now);
      JobInvariant.CallKeeps(w.jobs, write.call, write.now);
    }
    assert PlanOk(w') by {
      forall t, d | t in w'.tasks && d in w'.tasks[t].dependsOn ensures d in w'.tasks {
        assert SameSpec(w.tasks[t], w'.tasks[t]);
      }
    }
    forall t | t in w'.tasks ensures TaskOk(w', t) {
      LegalKeepsTask(w, write, t, strict);
    }
    forall t | t in w'.tasks ensures InputOk(w', t) {
      LegalKeepsInput(w, write, t, strict);
    }
    forall t | t in w'.tasks ensures ResultFits(w', t, w'.tasks[t]) {
      LegalKeepsResult(w, write, t, strict);
    }
  }

  lemma {:induction false} AllLegalKeeps(w: World, writes: seq<Write>, strict: bool)
    requires GoalInv(w) && AllLegal(w, writes, strict)
    ensures GoalInv(ApplyAll(w, writes))
    decreases |writes|
  {
    hide GoalInv, Legal;
    if writes != [] {
      LegalKeeps(w, writes[0], strict);
      AllLegalKeeps(Apply(w, writes[0]), writes[1..], strict);
    }
  }

  lemma {:induction false} AllLegalAppend(w: World, a: seq<Write>, b: seq<Write>, strict: bool)
    requires AllLegal(w, a, strict) && AllLegal(ApplyAll(w, a), b, strict)
    ensures AllLegal(w, a + b, strict)
    decreases |a|
  {
    hide Legal;
    if a == [] {
      assert a + b == b;
    } else {
      assert (a + b)[1..] == a[1..] + b;
      AllLegalAppend(Apply(w, a[0]), a[1..], b, strict);
    }
  }

  lemma {:induction false} StrictIsLegal(w: World, writes: seq<Write>)
    requires AllLegal(w, writes, true)
    ensures AllLegal(w, writes, false)
    decreases |writes|
  {
    if writes != [] { StrictIsLegal(Apply(w, writes[0]), writes[1..]); }
  }

  /** Cutting an operation off after any of its writes leaves legal writes only. */
  lemma {:induction false} AllLegalPrefix(w: World, writes: seq<Write>, n: nat, strict: bool)
    requires AllLegal(w, writes, strict) && n <= |writes|
    ensures AllLegal(w, writes[..n], strict)
    decreases n
  {
    hide Legal;
    if n > 0 {
      assert writes[..n][1..] == writes[1..][..n - 1];
      AllLegalPrefix(Apply(w, writes[0]), writes[1..], n - 1, strict);
    }
  }

  // ---- every operation makes legal writes -------------------------------------------

  lemma RunningHasItsJob(w: World, t: Uuid)
    requires GoalInv(w) && t in w.tasks && w.tasks[t].status == TRunning
    ensures HasJob(w, t) && FindJob(w, t) == Some(w.jobs.idempotency[KeyOf(w, t)])
    ensures DepsComplete(w, t) && TaskOk(w, t) && ResultFits(w, t, w.tasks[t])
  {
    hide JobInvariant.JobsOk, JobInvariant.AttemptsOk, JobInvariant.DistinctOk, JobInvariant.NumbersOk;
    hide JobInvariant.OutputsOk, JobInvariant.SpacingOk, JobInvariant.TablesOk;
    assert TaskOk(w, t);
  }

  lemma IntakeTaskLegal(w: World, t: Uuid)
    requires GoalInv(w) && t in w.tasks && w.tasks[t].status == TRunning
    ensures AllLegal(w, IntakeTask(w, t).writes, true)
    ensures FindJob(w, t).Some?
  {
    hide GoalInv, TaskResult, Jobs.Apply;
    RunningHasItsJob(w, t);
    var ws := IntakeTask(w, t).writes;
    if ws != [] {
      assert Legal(w, ws[0], true);
      var w' := Apply(w, ws[0]);
      NothingIsLegal(w', true);
      NothingIsLegal(Apply(w', SetStatus(GPaused)), true);
      OneMoreLegal(w', SetStatus(GPaused), [], true);
      assert ws == [ws[0]] + [] || ws == [ws[0]] + ([SetStatus(GPaused)] + []);
      OneMoreLegal(w, ws[0], ws[1..], true);
    }
  }

  lemma {:induction false} IntakeLegal(w: World, i: nat)
    requires GoalInv(w) && i <= |w.order|
    ensures AllLegal(w, Intake(w, i).writes, true)
    decreases |w.order| - i
  {
    hide GoalInv, Legal, IntakeTask, AllLegal, SamePlan;
    if i < |w.order| {
      var t := w.order[i];
      if t !in w.tasks || w.tasks[t].status != TRunning {
        IntakeLegal(w, i + 1);
      } else {
        IntakeTaskLegal(w, t);
        var first := IntakeTask(w, t);
        if !first.stop {
          AllLegalKeeps(w, first.writes, true);
          KeepsOrder(w, ApplyAll(w, first.writes));
          IntakeLegal(ApplyAll(w, first.writes), i + 1);
          AllLegalAppend(w, first.writes, Intake(ApplyAll(w, first.writes), i + 1).writes, true);
        }
      }
    } else {
      NothingIsLegal(w, true);
    }
  }

  lemma NothingIsLegal(w: World, strict: bool)
    ensures AllLegal(w, [], strict)
  {
  }

  lemma OneMoreLegal(w: World, write: Write, rest: seq<Write>, strict: bool)
    requires Legal(w, write, strict) && AllLegal(Apply(w, write), rest, strict)
    ensures AllLegal(w, [write] + rest, strict)
  {
    assert ([write] + rest)[1..] == rest;
  }

  lemma {:induction false} BlockLegal(w: World, i: nat, changed: bool)
    requires GoalInv(w) && i <= |w.order|
    ensures AllLegal(w, Block(w, i, changed), true)
    decreases WithStatus(w, TPending), changed, |w.order| - i
  {
    hide GoalInv, AllLegal, SamePlan;
    if i == |w.order| {
      if changed { BlockLegal(w, 0, false); } else { NothingIsLegal(w, true); }
    } else {
      var t := w.order[i];
      if t in w.tasks && w.tasks[t].status == TPending && HasBlockingDep(w, t) {
        var write := UpdateTask(t, BLOCKED);
        assert Legal(w, write, true) by { TaskPart(w, t); }
        LegalKeeps(w, write, true);
        assert t in WithStatus(w, TPending) && t !in WithStatus(Apply(w, write), TPending);
        BlockLegal(Apply(w, write), i + 1, true);
        OneMoreLegal(w, write, Block(Apply(w, write), i + 1, true), true);
      } else {
        BlockLegal(w, i + 1, changed);
      }
    }
  }

  lemma TaskPart(w: World, t: Uuid)
    requires GoalInv(w) && t in w.tasks
    ensures TaskOk(w, t) && ResultFits(w, t, w.tasks[t])
  {
  }

  /** An enqueue under a task's key leaves the job it returns under that key. */
  lemma EnqueueGivesJob(w: World, t: Uuid, payload: Json, now: Time)
    requires t in w.tasks
    ensures var w' := Apply(w, JobCall(EnqueueCall(w, t, payload), now));
      HasJob(w', t) && w'.jobs.idempotency[KeyOf(w', t)] == EnqueuedJob(w, t)
  {
    hide Jobs.LogOf, Jobs.NewJob;
  }

  lemma LaunchOneLegal(w: World, t: Uuid, payload: Json, now: Time)
    requires GoalInv(w) && t in w.tasks && w.tasks[t].status == TPending && DepsComplete(w, t)
    requires Substitution.Resolve(w.tasks[t].payload, Substitution.Declared(w.tasks[t]), w.tasks) == Ok(payload)
    ensures var enqueue := JobCall(EnqueueCall(w, t, payload), now);
      var w' := Apply(w, enqueue);
      && Legal(w, enqueue, true) && GoalInv(w')
      && Legal(w', UpdateTask(t, StartPatch(EnqueuedJob(w, t), payload)), true)
      && GoalInv(Apply(w', UpdateTask(t, StartPatch(EnqueuedJob(w, t), payload))))
  {
    hide GoalInv, Jobs.EnqueueTx;
    var enqueue := JobCall(EnqueueCall(w, t, payload), now);
    var start := UpdateTask(t, StartPatch(EnqueuedJob(w, t), payload));
    LegalKeeps(w, enqueue, true);
    TaskPart(Apply(w, enqueue), t);
    EnqueueGivesJob(w, t, payload, now);
    assert Legal(Apply(w, enqueue), start, true);
    LegalKeeps(Apply(w, enqueue), start, true);
  }

  lemma {:induction false} LaunchLegal(w: World, i: nat, slots: int, now: Time, size: Json -> nat)
    requires GoalInv(w) && i <= |w.order|
    ensures AllLegal(w, Launch(w, i, slots, now, size), true)
    decreases |w.order| - i
  {
    hide GoalInv, AllLegal, Legal, Substitution.ResolvePayload, EnqueueCall;
    hide StartPatch, EnqueuedJob, DepsComplete, Apply, SamePlan, Substitution.Resolve;
    if i == |w.order| || slots <= 0 {
      NothingIsLegal(w, true);
    } else {
      var t := w.order[i];
      if t !in w.tasks || w.tasks[t].status != TPending || !DepsComplete(w, t) {
        LaunchLegal(w, i + 1, slots, now, size);
      } else {
        match Substitution.ResolvePayload(w.tasks[t], w.tasks, size)
        case Err(_) =>
          var fail := UpdateTask(t, UNRESOLVED);
          UnresolvedLegal(w, t);
          LegalKeeps(w, fail, true);
          KeepsOrder(w, Apply(w, fail));
          LaunchLegal(Apply(w, fail), i + 1, slots, now, size);
          OneMoreLegal(w, fail, Launch(Apply(w, fail), i + 1, slots, now, size), true);
        case Ok(payload) =>
          var enqueue := JobCall(EnqueueCall(w, t, payload), now);
          var start := UpdateTask(t, StartPatch(EnqueuedJob(w, t), payload));
          ResolvedPayload(w, t, payload, size);
          LaunchOneLegal(w, t, payload, now);
          var w' := Apply(w, enqueue);
          KeepsOrder(w, w');
          KeepsOrder(w', Apply(w', start));
          var rest := Launch(Apply(w', start), i + 1, slots - 1, now, size);
          LaunchLegal(Apply(w', start), i + 1, slots - 1, now, size);
          OneMoreLegal(w', start, rest, true);
          OneMoreLegal(w, enqueue, [start] + rest, true);
          assert [enqueue] + ([start] + rest) == [enqueue, start] + rest;
      }
    }
  }

  lemma ResolvedPayload(w: World, t: Uuid, payload: Json, size: Json -> nat)
    requires t in w.tasks && Substitution.ResolvePayload(w.tasks[t], w.tasks, size) == Ok(payload)
    ensures Substitution.Resolve(w.tasks[t].payload, Substitution.Declared(w.tasks[t]), w.tasks) == Ok(payload)
  {
    hide Substitution.Resolve;
  }

  lemma UnresolvedLegal(w: World, t: Uuid)
    requires GoalInv(w) && t in w.tasks && w.tasks[t].status == TPending && DepsComplete(w, t)
    ensures Legal(w, UpdateTask(t, UNRESOLVED), true)
  {
    hide GoalInv, DepsComplete;
    TaskPart(w, t);
  }

  lemma VerdictLegal(w: World)
    ensures AllLegal(w, Verdict(w), true)
  {
    NothingIsLegal(w, true);
    assert forall s :: Legal(w, SetStatus(s), true);
    var e := RecordEvent(Event("complete", []));
    NothingIsLegal(Apply(Apply(w, SetStatus(GComplete)), e), true);
    NothingIsLegal(Apply(w, SetStatus(GFailed)), true);
    OneMoreLegal(Apply(w, SetStatus(GComplete)), e, [], true);
    OneMoreLegal(w, SetStatus(GComplete), [e], true);
    OneMoreLegal(w, SetStatus(GFailed), [], true);
  }

  /** The worlds between the phases of a pass satisfy the invariant, and its writes are legal. */
  lemma PassPhases(w: World, pass: Pass, size: Json -> nat)
    requires GoalInv(w)
    ensures GoalInv(AfterIntake(w)) && GoalInv(AfterBlock(w)) && GoalInv(AfterLaunch(w, pass, size))
  {
    hide GoalInv, AllLegal, Intake, Block, Launch;
    IntakeLegal(w, 0);
    AllLegalKeeps(w, Intake(w, 0).writes, true);
    var w1 := AfterIntake(w);
    BlockLegal(w1, 0, false);
    AllLegalKeeps(w1, Block(w1, 0, false), true);
    var w2 := AfterBlock(w);
    LaunchLegal(w2, 0, Slots(w2, pass), pass.now, size);
    AllLegalKeeps(w2, Launch(w2, 0, Slots(w2, pass), pass.now, size), true);
  }

  lemma ReconcileLegal(w: World, pass: Pass, size: Json -> nat)
    requires GoalInv(w)
    ensures AllLegal(w, Reconcile(w, pass, size), true)
  {
    hide GoalInv, AllLegal, Intake, Block, Launch, Verdict;
    IntakeLegal(w, 0);
    NothingIsLegal(w, true);
    if w.status == GRunning && !Intake(w, 0).stop {
      PassPhases(w, pass, size);
      var w1, w2, w3 := AfterIntake(w), AfterBlock(w), AfterLaunch(w, pass, size);
      var a, b := Intake(w, 0).writes, Block(w1, 0, false);
      var c := Launch(w2, 0, Slots(w2, pass), pass.now, size);
      BlockLegal(w1, 0, false);
      AllLegalAppend(w, a, b, true);
      ApplyAllAppend(w, a, b);
      LaunchLegal(w2, 0, Slots(w2, pass), pass.now, size);
      AllLegalAppend(w, a + b, c, true);
      ApplyAllAppend(w, a + b, c);
      VerdictLegal(w3);
      AllLegalAppend(w, a + b + c, Verdict(w3), true);
    }
  }

  lemma ResumeLegal(w: World)
    ensures AllLegal(w, RESUME, true)
  {
    var w' := Apply(w, RESUME[0]);
    NothingIsLegal(Apply(w', RESUME[1]), true);
    OneMoreLegal(w', RESUME[1], [], true);
    OneMoreLegal(w, RESUME[0], [RESUME[1]], true);
    assert RESUME == [RESUME[0]] + [RESUME[1]];
  }

  lemma StartLegal(w: World, pass: Pass, size: Json -> nat)
    requires GoalInv(w)
    ensures AllLegal(w, Start(w, pass, size), true)
  {
    hide GoalInv, AllLegal, Reconcile;
    NothingIsLegal(w, true);
    if Startable(w.status) {
      ResumeLegal(w);
      AllLegalKeeps(w, RESUME, true);
      ReconcileLegal(ApplyAll(w, RESUME), pass, size);
      AllLegalAppend(w, RESUME, Reconcile(ApplyAll(w, RESUME), pass, size), true);
    }
  }

  lemma CancelTaskLegal(w: World, t: Uuid, now: Time)
    requires GoalInv(w) && t in w.tasks
    ensures AllLegal(w, CancelTask(w, t, now), true)
  {
    hide GoalInv, Jobs.Apply, DepsComplete, SamePlan;
    NothingIsLegal(w, true);
    TaskPart(w, t);
    var ws := CancelTask(w, t, now);
    var last := UpdateTask(t, CANCELLED);
    if |ws| == 1 {
      NothingIsLegal(Apply(w, last), true);
      OneMoreLegal(w, last, [], true);
    } else if |ws| == 2 {
      LegalKeeps(w, ws[0], true);
      var w' := Apply(w, ws[0]);
      TaskPart(w', t);
      NothingIsLegal(Apply(w', last), true);
      OneMoreLegal(w', last, [], true);
      OneMoreLegal(w, ws[0], [last], true);
      assert ws == [ws[0]] + [last];
    }
  }

  lemma {:induction false} CancelTasksLegal(w: World, i: nat, now: Time)
    requires GoalInv(w) && i <= |w.order|
    ensures AllLegal(w, CancelTasks(w, i, now), true)
    decreases |w.order| - i
  {
    hide GoalInv, AllLegal, Legal, CancelTask, SamePlan;
    if i == |w.order| || w.order[i] !in w.tasks {
      NothingIsLegal(w, true);
    } else {
      var first := CancelTask(w, w.order[i], now);
      CancelTaskLegal(w, w.order[i], now);
      AllLegalKeeps(w, first, true);
      KeepsOrder(w, ApplyAll(w, first));
      CancelTasksLegal(ApplyAll(w, first), i + 1, now);
      AllLegalAppend(w, first, CancelTasks(ApplyAll(w, first), i + 1, now), true);
    }
  }

  lemma StatusAndEventLegal(w: World, s: GoalStatus, e: Event, strict: bool)
    ensures AllLegal(w, [SetStatus(s), RecordEvent(e)], strict)
  {
    var w' := Apply(w, SetStatus(s));
    NothingIsLegal(Apply(w', RecordEvent(e)), strict);
    OneMoreLegal(w', RecordEvent(e), [], strict);
    OneMoreLegal(w, SetStatus(s), [RecordEvent(e)], strict);
    assert [SetStatus(s), RecordEvent(e)] == [SetStatus(s)] + [RecordEvent(e)];
  }

  lemma CancelLegal(w: World, now: Time)
    requires GoalInv(w)
    ensures AllLegal(w, Cancel(w, now), true)
  {
    hide GoalInv, AllLegal, CancelTasks, Affected;
    NothingIsLegal(w, true);
    if !(w.status == GCancelled || w.status == GComplete || w.status == GFailed) {
      CancelTasksLegal(w, 0, now);
      var e := Event("cancel", Affected(w, 0));
      StatusAndEventLegal(ApplyAll(w, CancelTasks(w, 0, now)), GCancelled, e, true);
      AllLegalAppend(w, CancelTasks(w, 0, now), [SetStatus(GCancelled), RecordEvent(e)], true);
    }
  }

  function VerdictPatch(accepted: bool): Patch {
    if accepted then APPROVED else REJECTED
  }

  lemma ResolvedLegal(w: World, t: Uuid, accepted: bool)
    requires GoalInv(w) && Reviewable(w, t)
    ensures AllLegal(w, [ResolveReview(t, accepted), UpdateTask(t, VerdictPatch(accepted))], false)
  {
    hide GoalInv, SamePlan, TaskResult;
    TaskPart(w, t);
    var resolve, update := ResolveReview(t, accepted), UpdateTask(t, VerdictPatch(accepted));
    var w' := Apply(w, resolve);
    assert Legal(w', update, false);
    NothingIsLegal(Apply(w', update), false);
    OneMoreLegal(w', update, [], false);
    OneMoreLegal(w, resolve, [update], false);
    assert [resolve, update] == [resolve] + [update];
  }

  lemma ApproveLegal(w: World, t: Uuid, pass: Pass, size: Json -> nat)
    requires GoalInv(w)
    ensures AllLegal(w, Approve(w, t, pass, size), false)
  {
    hide GoalInv, AllLegal, Legal, Start;
    NothingIsLegal(w, false);
    if Reviewable(w, t) {
      var accept := [ResolveReview(t, true), UpdateTask(t, APPROVED)];
      ResolvedLegal(w, t, true);
      AllLegalKeeps(w, accept, false);
      StartLegal(ApplyAll(w, accept), pass, size);
      StrictIsLegal(ApplyAll(w, accept), Start(ApplyAll(w, accept), pass, size));
      AllLegalAppend(w, accept, Start(ApplyAll(w, accept), pass, size), false);
    }
  }

  lemma RejectLegal(w: World, t: Uuid)
    requires GoalInv(w)
    ensures AllLegal(w, Reject(w, t), false)
  {
    hide GoalInv, AllLegal;
    NothingIsLegal(w, false);
    if Reviewable(w, t) {
      var refuse := [ResolveReview(t, false), UpdateTask(t, REJECTED)];
      ResolvedLegal(w, t, false);
      var w' := ApplyAll(w, refuse);
      SingleLegal(w', SetStatus(GFailed), false);
      AllLegalAppend(w, refuse, [SetStatus(GFailed)], false);
      assert Reject(w, t) == refuse + [SetStatus(GFailed)];
    }
  }

  lemma SingleLegal(w: World, write: Write, strict: bool)
    requires Legal(w, write, strict)
    ensures AllLegal(w, [write], strict)
  {
    NothingIsLegal(Apply(w, write), strict);
    OneMoreLegal(w, write, [], strict);
  }

  lemma StepLegal(w: World, step: Step, size: Json -> nat)
    requires GoalInv(w)
    ensures AllLegal(w, Writes(w, step, size), false)
  {
    hide GoalInv, AllLegal, Start, Reconcile, Cancel, Approve, Reject;
    NothingIsLegal(w, false);
    match step
    case StartGoal(pass) =>
      StartLegal(w, pass, size);
      StrictIsLegal(w, Start(w, pass, size));
    case ReconcileGoal(pass) =>
      ReconcileLegal(w, pass, size);
      StrictIsLegal(w, Reconcile(w, pass, size));
    case PauseGoal => if w.status == GRunning { StatusAndEventLegal(w, GPaused, Event("pause", []), false); }
    case CancelGoal(now) =>
      CancelLegal(w, now);
      StrictIsLegal(w, Cancel(w, now));
    case ApproveTask(t, pass) => ApproveLegal(w, t, pass, size);
    case RejectTask(t) => RejectLegal(w, t);
    case RejectPlan => SingleLegal(w, SetStatus(GFailed), false);
    case PublishReview(t) => if AskedForReview(w, t) { SingleLegal(w, AddReview(t), false); }
    case OutsideCall(call, now) => if Outside(w, call) { SingleLegal(w, JobCall(call, now), false); }
  }

  // ---- every run -----------------------------------------------------------------------

  /** A step keeps the invariant wherever it is cut off. */
  lemma StepKeeps(w: World, a: Attempted, size: Json -> nat)
    requires GoalInv(w)
    ensures GoalInv(ApplyAll(w, Take(Writes(w, a.step, size), a.cut)))
  {
    hide GoalInv, AllLegal, Writes;
    var writes := Writes(w, a.step, size);
    StepLegal(w, a.step, size);
    if a.cut < |writes| { AllLegalPrefix(w, writes, a.cut, false); }
    AllLegalKeeps(w, Take(writes, a.cut), false);
  }

  lemma {:induction false} RunKeeps(w: World, run: seq<Attempted>, size: Json -> nat)
    requires GoalInv(w)
    ensures GoalInv(RunGoal(w, run, size))
    decreases |run|
  {
    hide GoalInv, Writes, Take;
    if run != [] {
      StepKeeps(w, run[0], size);
      RunKeeps(ApplyAll(w, Take(Writes(w, run[0].step, size), run[0].cut)), run[1..], size);
    }
  }

  predicate Unstarted(task: PlannedTask) {
    task.status == TPending && task.jobId.None? && task.result.None?
  }

  /** A goal whose plan was just saved: every task pending, nothing enqueued or reviewed for it. */
  ghost predicate Fresh(w: World) {
    && PlanOk(w) && JobInvariant.Consistent(w.jobs)
    && (forall t :: t in w.tasks ==> Unstarted(w.tasks[t]) && t !in w.reviews)
    && (forall k :: k in w.jobs.idempotency && k.TaskKey? ==> k.goalId != w.goalId)
  }

  lemma FreshIsGood(w: World)
    requires Fresh(w)
    ensures GoalInv(w)
  {
    hide JobInvariant.Consistent;
  }

  lemma InvIsSafe(w: World)
    requires GoalInv(w)
    ensures DependencySafe(w)
  {
    hide JobInvariant.JobsOk, JobInvariant.AttemptsOk, JobInvariant.DistinctOk, JobInvariant.NumbersOk;
    hide JobInvariant.OutputsOk, JobInvariant.SpacingOk, JobInvariant.TablesOk;
    forall t | t in w.tasks && Launched(w.tasks[t].status) ensures DepsComplete(w, t) { assert TaskOk(w, t); }
    forall j | j in w.jobs.jobs && w.jobs.jobs[j].key.TaskKey? && w.jobs.jobs[j].key.goalId == w.goalId
      ensures w.jobs.jobs[j].key.taskId in w.tasks && DepsComplete(w, w.jobs.jobs[j].key.taskId)
    {
      assert w.jobs.jobs[j].key in w.jobs.idempotency;
      assert TaskOk(w, w.jobs.jobs[j].key.taskId);
    }
  }

  /** Main theorem. Over every run of starts, passes, pauses, cancellations and reviews, each possibly
      cut off between two store writes, and with any job calls in between: a task that is running,
      complete, failed or escalated has all its dependencies complete, and a job is enqueued only for
      such a task. */
  lemma RunsAreDependencySafe(w: World, run: seq<Attempted>, size: Json -> nat)
    requires Fresh(w)
    ensures DependencySafe(RunGoal(w, run, size))
  {
    hide GoalInv, Fresh, RunGoal, DependencySafe;
    FreshIsGood(w);
    RunKeeps(w, run, size);
    InvIsSafe(RunGoal(w, run, size));
  }

  /** Main theorem. Over the same runs, a complete task was accepted by a reviewer, or its job committed a
      complete result that meets the goal's threshold, and the task holds that result. */
  lemma CompleteTasksAreEarned(w: World, run: seq<Attempted>, size: Json -> nat, t: Uuid)
    requires Fresh(w) && t in w.tasks
    ensures var v := RunGoal(w, run, size);
      && t in v.tasks
      && (v.tasks[t].status == TComplete ==> Earned(v, t, v.tasks[t]) || (t in v.reviews && v.reviews[t] == ReviewAccepted))
  {
    hide GoalInv, Fresh, RunGoal, Earned;
    FreshIsGood(w);
    RunKeeps(w, run, size);
    RunSamePlan(w, run, size);
    TaskPart(RunGoal(w, run, size), t);
  }

  /** Main theorem. Over the same runs, the job of a task carries the task's contract, and its payload is
      what resolving the task's references gives, at any later time as well as when it was enqueued. */
  lemma JobInputsAreResolved(w: World, run: seq<Attempted>, size: Json -> nat, t: Uuid)
    requires Fresh(w) && t in w.tasks
    ensures t in RunGoal(w, run, size).tasks && InputOk(RunGoal(w, run, size), t)
  {
    hide GoalInv, Fresh, RunGoal, InputIs, InputOk;
    FreshIsGood(w);
    RunKeeps(w, run, size);
    RunSamePlan(w, run, size);
    InputPart(RunGoal(w, run, size), t);
  }

  lemma InputPart(w: World, t: Uuid)
    requires GoalInv(w) && t in w.tasks
    ensures InputOk(w, t)
  {
  }

  lemma {:induction false} CompleteSurvivesWrites(w: World, writes: seq<Write>, t: Uuid)
    requires AllLegal(w, writes, false) && t in w.tasks && w.tasks[t].status == TComplete
    ensures t in ApplyAll(w, writes).tasks && ApplyAll(w, writes).tasks[t] == w.tasks[t]
    decreases |writes|
  {
    hide Jobs.Apply, DepsComplete, Earned, SamePlan;
    if writes != [] { CompleteSurvivesWrites(Apply(w, writes[0]), writes[1..], t); }
  }

  /** A complete task never changes again: not its result, not its status, by no pass, crash, cancellation
      or review. */
  lemma {:induction false} CompleteIsFinal(w: World, run: seq<Attempted>, size: Json -> nat, t: Uuid)
    requires GoalInv(w) && t in w.tasks && w.tasks[t].status == TComplete
    ensures t in RunGoal(w, run, size).tasks && RunGoal(w, run, size).tasks[t] == w.tasks[t]
    decreases |run|
  {
    hide GoalInv, Writes, Take, AllLegal;
    if run != [] {
      var writes := Writes(w, run[0].step, size);
      StepLegal(w, run[0].step, size);
      if run[0].cut < |writes| { AllLegalPrefix(w, writes, run[0].cut, false); }
      TakeIsPrefix(writes, run[0].cut);
      CompleteSurvivesWrites(w, Take(writes, run[0].cut), t);
      StepKeeps(w, run[0], size);
      CompleteIsFinal(ApplyAll(w, Take(writes, run[0].cut)), run[1..], size, t);
    }
  }

  /** The result that the job of task `t` committed. */
  function Committed(w: World, t: Uuid): JobResult
    requires HasJob(w, t) && w.jobs.idempotency[KeyOf(w, t)] in w.jobs.outputs
  {
    w.jobs.outputs[w.jobs.idempotency[KeyOf(w, t)]]
  }

  lemma ReviewedTask(w: World, t: Uuid)
    requires GoalInv(w) && Reviewable(w, t)
    ensures ResultIs(w, t, "escalated") && w.tasks[t].status != TComplete
    ensures w.tasks[t].status == TEscalated ==> w.tasks[t].result == Some(TaskResult(Committed(w, t)))
    ensures w.tasks[t].status != TEscalated ==> w.tasks[t].result == None
  {
    hide GoalInv, DepsComplete, TaskResult;
    TaskPart(w, t);
  }

  lemma AcceptedTask(w: World, t: Uuid, pass: Pass, size: Json -> nat, cut: nat)
    requires GoalInv(w) && Reviewable(w, t) && cut >= 2
    ensures var v := ApplyAll(w, Take(Approve(w, t, pass, size), cut));
      GoalInv(v) && t in v.tasks && v.tasks[t] == Patched(w.tasks[t], APPROVED)
  {
    hide GoalInv, AllLegal, Legal, Start, Jobs.Apply;
    var accept := [ResolveReview(t, true), UpdateTask(t, APPROVED)];
    var w' := ApplyAll(w, accept);
    ResolvedLegal(w, t, true);
    AllLegalKeeps(w, accept, false);
    TwoWrites(w, accept[0], accept[1]);
    var rest := Start(w', pass, size);
    StartLegal(w', pass, size);
    StrictIsLegal(w', rest);
    if cut - 2 < |rest| { AllLegalPrefix(w', rest, cut - 2, false); }
    AllLegalKeeps(w', Take(rest, cut - 2), false);
    CompleteSurvivesWrites(w', Take(rest, cut - 2), t);
    assert Take(Approve(w, t, pass, size), cut) == accept + Take(rest, cut - 2);
    ApplyAllAppend(w, accept, Take(rest, cut - 2));
  }

  /** Main theorem. After whatever run, a task that a reviewer accepts is complete for good; it holds the
      result that its job committed if and only if a pass had taken up that outcome, so that the task was
      escalated, when it was accepted. Otherwise it stays complete without a result for ever. */
  lemma AcceptedHoldsResultIffTakenUp(w0: World, before: seq<Attempted>, t: Uuid, pass: Pass, cut: nat,
                                      after: seq<Attempted>, size: Json -> nat)
    requires Fresh(w0) && cut >= 2 && Reviewable(RunGoal(w0, before, size), t)
    ensures var w := RunGoal(w0, before, size);
      var v := RunGoal(ApplyAll(w, Take(Approve(w, t, pass, size), cut)), after, size);
      && HasJob(w, t) && w.jobs.idempotency[KeyOf(w, t)] in w.jobs.outputs
      && t in v.tasks && v.tasks[t].status == TComplete
      && (v.tasks[t].result == Some(TaskResult(Committed(w, t))) <==> w.tasks[t].status == TEscalated)
      && (v.tasks[t].result == None <==> w.tasks[t].status != TEscalated)
  {
    hide GoalInv, Fresh, RunGoal, Approve, Take, TaskResult;
    FreshIsGood(w0);
    RunKeeps(w0, before, size);
    var w := RunGoal(w0, before, size);
    ReviewedTask(w, t);
    AcceptedTask(w, t, pass, size, cut);
    CompleteIsFinal(ApplyAll(w, Take(Approve(w, t, pass, size), cut)), after, size, t);
  }

  // ---- one job per task ------------------------------------------------------------------

  /** Main theorem. Over the same runs each task has at most one job, the job a task records is that
      one, and a running task has recorded it. */
  lemma OneJobPerTask(w: World, run: seq<Attempted>, size: Json -> nat, t: Uuid)
    requires Fresh(w) && t in w.tasks
    ensures var w' := RunGoal(w, run, size);
      && t in w'.tasks
      && (forall i, j :: i in w'.jobs.jobs && j in w'.jobs.jobs ==>
            w'.jobs.jobs[i].key == KeyOf(w, t) && w'.jobs.jobs[j].key == KeyOf(w, t) ==> i == j)
      && (w'.tasks[t].jobId.Some? ==>
            w'.tasks[t].jobId.value in w'.jobs.jobs && w'.jobs.jobs[w'.tasks[t].jobId.value].key == KeyOf(w, t))
      && (w'.tasks[t].status == TRunning ==> w'.tasks[t].jobId.Some?)
  {
    hide RunGoal, JobInvariant.JobsOk, JobInvariant.AttemptsOk, JobInvariant.DistinctOk, JobInvariant.NumbersOk;
    hide JobInvariant.OutputsOk, JobInvariant.SpacingOk, JobInvariant.TablesOk;
    FreshIsGood(w);
    RunKeeps(w, run, size);
    RunSamePlan(w, run, size);
    var w' := RunGoal(w, run, size);
    assert TaskOk(w', t);
  }

  lemma {:induction false} RunSamePlan(w: World, run: seq<Attempted>, size: Json -> nat)
    ensures SamePlan(w, RunGoal(w, run, size))
    decreases |run|
  {
    hide Writes, Take;
    if run != [] {
      var w' := ApplyAll(w, Take(Writes(w, run[0].step, size), run[0].cut));
      RunSamePlan(w', run[1..], size);
    }
  }

  lemma {:induction false} WritesKeepJob(w: World, writes: seq<Write>, k: Key)
    requires GoalInv(w) && AllLegal(w, writes, false) && k in w.jobs.idempotency
    ensures var w' := ApplyAll(w, writes);
      k in w'.jobs.idempotency && w'.jobs.idempotency[k] == w.jobs.idempotency[k]
    decreases |writes|
  {
    hide GoalInv, Jobs.Apply, Legal;
    if writes != [] {
      LegalKeeps(w, writes[0], false);
      if writes[0].JobCall? { JobRuns.KeysGrow(w.jobs, writes[0].call, writes[0].now); }
      WritesKeepJob(Apply(w, writes[0]), writes[1..], k);
    }
  }

  /** Once a job stands under a task's key it stays there, so a launch after a cut between the enqueue
      and the task update takes up that same job. */
  lemma {:induction false} JobIsTakenUpAgain(w: World, run: seq<Attempted>, size: Json -> nat, t: Uuid)
    requires GoalInv(w) && t in w.tasks && HasJob(w, t)
    ensures var w' := RunGoal(w, run, size);
      && w'.goalId == w.goalId && t in w'.tasks && HasJob(w', t)
      && EnqueuedJob(w', t) == w.jobs.idempotency[KeyOf(w, t)]
      && (w'.tasks[t].jobId.Some? ==> w'.tasks[t].jobId.value == w.jobs.idempotency[KeyOf(w, t)])
    decreases |run|
  {
    hide GoalInv, Writes, Take, AllLegal, JobInvariant.Consistent;
    TaskPart(w, t);
    if run != [] {
      var writes := Writes(w, run[0].step, size);
      StepLegal(w, run[0].step, size);
      if run[0].cut < |writes| { AllLegalPrefix(w, writes, run[0].cut, false); }
      assert AllLegal(w, Take(writes, run[0].cut), false) by { TakeIsPrefix(writes, run[0].cut); }
      WritesKeepJob(w, Take(writes, run[0].cut), KeyOf(w, t));
      StepKeeps(w, run[0], size);
      JobIsTakenUpAgain(ApplyAll(w, Take(writes, run[0].cut)), run[1..], size, t);
    }
  }

  lemma TakeIsPrefix(writes: seq<Write>, cut: nat)
    ensures Take(writes, cut) == if cut < |writes| then writes[..cut] else writes
  {
  }

  // ---- a rerun ------------------------------------------------------------------------------

  /** Somebody already relies on task `t`: a dependent was launched or has a job. */
  ghost predicate ReliedOn(w: World, t: Uuid) {
    exists u :: u in w.tasks && t in w.tasks[u].dependsOn && (Launched(w.tasks[u].status) || HasJob(w, u))
  }

  /** What a rerun of `t` leaves behind, as far as dependency safety can tell. */
  ghost predicate Reran(w: World, w': World, t: Uuid) {
    && w'.goalId == w.goalId && w'.tasks.Keys == w.tasks.Keys && t in w.tasks && w'.tasks[t].status == TRunning
    && (forall u :: u in w.tasks && u != t ==> w'.tasks[u] == w.tasks[u])
    && (forall u :: u in w.tasks ==> (DepsComplete(w', u) <==> (DepsComplete(w, u) && t !in w.tasks[u].dependsOn)))
    && SameTaskJobs(w.jobs, w'.jobs)
  }

  /** Enqueuing under a rerun key leaves the jobs under task keys as they were. */
  ghost predicate SameTaskJobs(db: Jobs.Db, db': Jobs.Db) {
    && (forall j :: j in db'.jobs && db'.jobs[j].key.TaskKey? ==> j in db.jobs && db.jobs[j] == db'.jobs[j])
    && (forall j :: j in db.jobs ==> j in db'.jobs && db'.jobs[j] == db.jobs[j])
  }

  lemma RerunKeyAddsNoTaskJob(w: World, t: Uuid, payload: Json, now: Time)
    requires t in w.tasks && w.jobs.nextUuid !in w.jobs.jobs
    ensures SameTaskJobs(w.jobs, Jobs.Apply(w.jobs, RerunCall(w, t, payload), now))
  {
    hide Jobs.LogOf, RunNumber;
  }

  lemma AfterRerun(w: World, t: Uuid, payload: Json, now: Time)
    requires t in w.tasks && w.jobs.nextUuid !in w.jobs.jobs
    ensures Reran(w, ApplyAll(w, Rerun(w, t, payload, now)), t)
  {
    hide Jobs.Apply, SamePlan, RunNumber, DepsComplete, RerunCall, ApplyAll, SameTaskJobs;
    RerunKeyAddsNoTaskJob(w, t, payload, now);
    var ws := Rerun(w, t, payload, now);
    FourWrites(w, ws[0], ws[1], ws[2], ws[3]);
    assert ws == [ws[0], ws[1], ws[2], ws[3]];
    var w' := ApplyAll(w, ws);
    assert w'.jobs == Jobs.Apply(w.jobs, RerunCall(w, t, payload), now);
    assert w'.tasks == w.tasks[t := Patched(w.tasks[t], ws[1].patch)];
    forall u | u in w.tasks ensures DepsComplete(w', u) <==> (DepsComplete(w, u) && t !in w.tasks[u].dependsOn) {
      DepsAfterRerun(w, w', t, u);
    }
  }

  lemma DepsAfterRerun(w: World, w': World, t: Uuid, u: Uuid)
    requires t in w.tasks && u in w.tasks && w'.tasks.Keys == w.tasks.Keys && w'.tasks[t].status == TRunning
    requires forall u :: u in w.tasks && u != t ==> w'.tasks[u] == w.tasks[u]
    requires w'.tasks[t].dependsOn == w.tasks[t].dependsOn
    ensures DepsComplete(w', u) <==> (DepsComplete(w, u) && t !in w.tasks[u].dependsOn)
  {
  }

  lemma FreshUuid(w: World)
    requires GoalInv(w)
    ensures w.jobs.nextUuid !in w.jobs.jobs
  {
    hide JobInvariant.AttemptsOk, JobInvariant.DistinctOk, JobInvariant.NumbersOk, DepsComplete, PlanOk, TasksOk;
    hide JobInvariant.OutputsOk, JobInvariant.SpacingOk, KeysOwned;
  }

  lemma RerunKeepsIt(w: World, w': World, t: Uuid)
    requires GoalInv(w) && DependencySafe(w) && t in w.tasks && Rerunnable(w.tasks[t].status) && !ReliedOn(w, t)
    requires Reran(w, w', t)
    ensures DependencySafe(w')
  {
    hide JobInvariant.JobsOk, JobInvariant.AttemptsOk, JobInvariant.DistinctOk, JobInvariant.NumbersOk;
    hide JobInvariant.OutputsOk, JobInvariant.SpacingOk, JobInvariant.TablesOk, DepsComplete, PlanOk, TasksOk;
    forall j | j in w'.jobs.jobs && w'.jobs.jobs[j].key.TaskKey? && w'.jobs.jobs[j].key.goalId == w'.goalId
      ensures w'.jobs.jobs[j].key.taskId in w'.tasks && DepsComplete(w', w'.jobs.jobs[j].key.taskId)
    {
      assert w.jobs.jobs[j].key in w.jobs.idempotency;
    }
  }

  lemma RerunBreaksIt(w: World, w': World, t: Uuid)
    requires GoalInv(w) && t in w.tasks && ReliedOn(w, t)
    requires Reran(w, w', t)
    ensures !DependencySafe(w')
  {
    hide JobInvariant.JobsOk, JobInvariant.AttemptsOk, JobInvariant.DistinctOk, JobInvariant.NumbersOk;
    hide JobInvariant.OutputsOk, JobInvariant.SpacingOk, JobInvariant.TablesOk, DepsComplete, PlanOk, TasksOk;
    var u :| u in w.tasks && t in w.tasks[u].dependsOn && (Launched(w.tasks[u].status) || HasJob(w, u));
    assert !DepsComplete(w', u);
    if HasJob(w, u) {
      var j := w.jobs.idempotency[KeyOf(w, u)];
      assert w'.jobs.jobs[j].key == KeyOf(w, u);
    }
  }

  /** Where dependency safety ends: a rerun keeps it exactly when no dependent of the task was launched
      or has a job. */
  lemma RerunIsSafeUnlessReliedOn(w: World, t: Uuid, payload: Json, now: Time)
    requires GoalInv(w) && t in w.tasks && Rerunnable(w.tasks[t].status)
    ensures DependencySafe(ApplyAll(w, Rerun(w, t, payload, now))) <==> !ReliedOn(w, t)
  {
    hide GoalInv, DependencySafe, Reran, ReliedOn, ApplyAll, Rerun;
    InvIsSafe(w);
    FreshUuid(w);
    AfterRerun(w, t, payload, now);
    var w' := ApplyAll(w, Rerun(w, t, payload, now));
    if ReliedOn(w, t) { RerunBreaksIt(w, w', t); } else { RerunKeepsIt(w, w', t); }
  }
}
