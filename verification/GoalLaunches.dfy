/** What one pass makes of the pending tasks of a running goal: which it starts, with what, and how many. */
module GoalLaunches {
  import opened Prelude
  import opened Contracts
  import opened Goals
  import opened GoalSafety
  import opened GoalProgress
  import opened GoalRounds
  import opened GoalPasses
  import GoalLimits
  import JobInvariant
  import Jobs
  import Substitution

  // ---- what becomes of pending tasks -----------------------------------------------------------

  /** The row of a launched task: its job is the one under its key, and its payload has every reference replaced. */
  ghost predicate LaunchedRow(w: World, v: World, t: Uuid, payload: Json)
    requires t in w.tasks
  {
    && t in v.tasks && TaskKey(w.goalId, t) in v.jobs.idempotency
    && v.tasks[t] == w.tasks[t].(status := TRunning, jobId := Some(v.jobs.idempotency[TaskKey(w.goalId, t)]),
                                 resolved := Some(payload))
  }

  /** Launching gives a task that it starts this row. */
  ghost predicate StartsWell(w: World, v: World, t: Uuid, size: Json -> nat)
    requires t in w.tasks
  {
    exists payload :: LaunchedRow(w, v, t, payload) && Substitution.ResolvePayload(w.tasks[t], w.tasks, size) == Ok(payload)
  }

  lemma KeptKeys(db: Jobs.Db, call: Jobs.Call, now: Time, k: Key)
    requires k in db.idempotency
    ensures k in Jobs.Apply(db, call, now).idempotency && Jobs.Apply(db, call, now).idempotency[k] == db.idempotency[k]
  {
    hide Jobs.IsNext, Jobs.Delivered, Jobs.RetryDelay, Jobs.LogOf, Jobs.ShouldRetry;
  }

  /** Launching never takes a key away. */
  lemma {:induction false} LaunchKeepsKeys(w: World, i: nat, slots: int, now: Time, size: Json -> nat, k: Key)
    requires i <= |w.order| && k in w.jobs.idempotency
    ensures var v := ApplyAll(w, Launch(w, i, slots, now, size));
      k in v.jobs.idempotency && v.jobs.idempotency[k] == w.jobs.idempotency[k]
    decreases |w.order| - i
  {
    hide Jobs.Apply, Substitution.ResolvePayload, SamePlan, DepsComplete, EnqueueCall, StartPatch, EnqueuedJob;
    NoWrites(w);
    if i < |w.order| && slots > 0 {
      var u := w.order[i];
      if u !in w.tasks || w.tasks[u].status != TPending || !DepsComplete(w, u) {
        LaunchKeepsKeys(w, i + 1, slots, now, size, k);
      } else {
        match Substitution.ResolvePayload(w.tasks[u], w.tasks, size)
        case Err(_) =>
          var w1 := Apply(w, UpdateTask(u, UNRESOLVED));
          KeepsOrder(w, w1);
          LaunchKeepsKeys(w1, i + 1, slots, now, size, k);
          OneWriteFirst(w, UpdateTask(u, UNRESOLVED), Launch(w1, i + 1, slots, now, size));
        case Ok(payload) =>
          var w1 := Launched1(w, u, payload, now);
          Launched1Is(w, u, payload, now);
          KeepsOrder(w, w1);
          KeptKeys(w.jobs, EnqueueCall(w, u, payload), now, k);
          LaunchKeepsKeys(w1, i + 1, slots - 1, now, size, k);
          LaunchStep(w, u, payload, now, Launch(w1, i + 1, slots - 1, now, size));
      }
    }
  }

  lemma LaunchedAtOnce(w: World, u: Uuid, payload: Json, now: Time)
    requires u in w.tasks && w.tasks[u].status == TPending
    ensures LaunchedRow(w, Launched1(w, u, payload, now), u, payload)
  {
    hide Jobs.Apply, EnqueueCall, EnqueuedJob;
    EnqueueGivesJob(w, u, payload, now);
  }

  lemma RowStays(w: World, w1: World, v: World, t: Uuid, payload: Json)
    requires t in w.tasks && LaunchedRow(w, w1, t, payload) && LaunchesOnly(w1, v)
    requires var k := TaskKey(w.goalId, t);
      k in w1.jobs.idempotency ==> k in v.jobs.idempotency && v.jobs.idempotency[k] == w1.jobs.idempotency[k]
    ensures LaunchedRow(w, v, t, payload)
  {
    hide SamePlan;
    KeysPart(w1, v);
    assert LaunchesTo(w1.tasks[t], v.tasks[t]);
  }

  lemma StartsWellBefore(w: World, w1: World, v: World, u: Uuid, t: Uuid, size: Json -> nat)
    requires LaunchesOnly(w, w1) && u in w.tasks && t in w.tasks && u != t && w1.goalId == w.goalId
    requires forall x :: x in w.tasks && x != u ==> w1.tasks[x] == w.tasks[x]
    requires t in w1.tasks && StartsWell(w1, v, t, size)
    ensures StartsWell(w, v, t, size)
  {
    hide Substitution.Resolve, SamePlan;
    KeysPart(w, w1);
    assert LaunchesTo(w.tasks[u], w1.tasks[u]);
    assert Substitution.AgreeOn(Substitution.Declared(w.tasks[t]), w.tasks, w1.tasks);
    Substitution.OnlyDeclaredResultsMatter(w.tasks[t].payload, Substitution.Declared(w.tasks[t]), w.tasks, w1.tasks);
    var payload :| LaunchedRow(w1, v, t, payload) && Substitution.ResolvePayload(w1.tasks[t], w1.tasks, size) == Ok(payload);
    assert LaunchedRow(w, v, t, payload);
  }

  /** Launching from position `i` on: a pending task that runs afterwards was ready, and has its row. */
  lemma {:induction false} LaunchGivesRows(w: World, i: nat, slots: int, now: Time, size: Json -> nat, t: Uuid)
    requires i <= |w.order| && t in w.tasks && w.tasks[t].status == TPending
    ensures var v := ApplyAll(w, Launch(w, i, slots, now, size));
      && t in v.tasks && (v.tasks[t].status == TRunning ==> DepsComplete(w, t) && StartsWell(w, v, t, size))
    decreases |w.order| - i
  {
    hide Substitution.ResolvePayload, EnqueueCall, StartPatch, EnqueuedJob, SamePlan, LaunchesOnly, Apply, DepsComplete;
    hide StartsWell, LaunchesTo, ApplyAll;
    NoWrites(w);
    if i < |w.order| && slots > 0 {
      var u := w.order[i];
      if u !in w.tasks || w.tasks[u].status != TPending || !DepsComplete(w, u) {
        LaunchGivesRows(w, i + 1, slots, now, size, t);
      } else {
        match Substitution.ResolvePayload(w.tasks[u], w.tasks, size)
        case Err(_) => RowsAfterFailure(w, i, slots, now, size, t);
        case Ok(payload) => RowsAfterStart(w, i, slots, now, size, t, payload);
      }
    }
  }

  lemma {:induction false} RowsAfterFailure(w: World, i: nat, slots: int, now: Time, size: Json -> nat, t: Uuid)
    requires i < |w.order| && slots > 0 && t in w.tasks && w.tasks[t].status == TPending
    requires var u := w.order[i];
      u in w.tasks && w.tasks[u].status == TPending && DepsComplete(w, u)
      && Substitution.ResolvePayload(w.tasks[u], w.tasks, size).Err?
    ensures var v := ApplyAll(w, Launch(w, i, slots, now, size));
      && t in v.tasks && (v.tasks[t].status == TRunning ==> DepsComplete(w, t) && StartsWell(w, v, t, size))
    decreases |w.order| - i, 0
  {
    hide Substitution.ResolvePayload, SamePlan, LaunchesOnly, Apply, DepsComplete, StartsWell, LaunchesTo, ApplyAll;
    var u := w.order[i];
    var w1 := Apply(w, UpdateTask(u, UNRESOLVED));
    SameGoal(w, w1);
    KeepsOrder(w, w1);
    var rest := Launch(w1, i + 1, slots, now, size);
    UnresolvedIs(w, u);
    OneWriteFirst(w, UpdateTask(u, UNRESOLVED), rest);
    LaunchOutcome(w1, i + 1, slots, now, size, t);
    LaunchFacts(w, w1, ApplyAll(w1, rest), u, t, size);
    if t != u {
      LaunchGivesRows(w1, i + 1, slots, now, size, t);
      if ApplyAll(w1, rest).tasks[t].status == TRunning { StartsWellBefore(w, w1, ApplyAll(w1, rest), u, t, size); }
    }
  }

  lemma {:induction false} RowsAfterStart(w: World, i: nat, slots: int, now: Time, size: Json -> nat, t: Uuid,
                                          payload: Json)
    requires i < |w.order| && slots > 0 && t in w.tasks && w.tasks[t].status == TPending
    requires var u := w.order[i];
      u in w.tasks && w.tasks[u].status == TPending && DepsComplete(w, u)
      && Substitution.ResolvePayload(w.tasks[u], w.tasks, size) == Ok(payload)
    ensures var v := ApplyAll(w, Launch(w, i, slots, now, size));
      && t in v.tasks && (v.tasks[t].status == TRunning ==> DepsComplete(w, t) && StartsWell(w, v, t, size))
    decreases |w.order| - i, 0
  {
    hide Substitution.ResolvePayload, EnqueueCall, StartPatch, EnqueuedJob, SamePlan, LaunchesOnly, Apply, DepsComplete;
    hide StartsWell, LaunchesTo, ApplyAll, LaunchedRow;
    var u := w.order[i];
    var w1 := Launched1(w, u, payload, now);
    Launched1Is(w, u, payload, now);
    var rest := Launch(w1, i + 1, slots - 1, now, size);
    LaunchStep(w, u, payload, now, rest);
    LaunchOutcome(w1, i + 1, slots - 1, now, size, t);
    LaunchFacts(w, w1, ApplyAll(w1, rest), u, t, size);
    if t == u {
      LaunchedAtOnce(w, u, payload, now);
      LaunchedKey(w, w1, t, payload);
      LaunchKeepsKeys(w1, i + 1, slots - 1, now, size, TaskKey(w.goalId, t));
      RowStays(w, w1, ApplyAll(w1, rest), t, payload);
      assert StartsWell(w, ApplyAll(w1, rest), t, size) by { RowStartsWell(w, ApplyAll(w1, rest), t, payload, size); }
    } else {
      LaunchGivesRows(w1, i + 1, slots - 1, now, size, t);
      if ApplyAll(w1, rest).tasks[t].status == TRunning {
        SameGoal(w, w1);
        StartsWellBefore(w, w1, ApplyAll(w1, rest), u, t, size);
      }
    }
  }

  lemma SameGoal(w: World, v: World)
    requires SamePlan(w, v)
    ensures v.goalId == w.goalId && v.threshold == w.threshold && v.workspaceRoot == w.workspaceRoot
  {
  }

  lemma RowStartsWell(w: World, v: World, t: Uuid, payload: Json, size: Json -> nat)
    requires t in w.tasks && LaunchedRow(w, v, t, payload)
    requires Substitution.ResolvePayload(w.tasks[t], w.tasks, size) == Ok(payload)
    ensures StartsWell(w, v, t, size)
  {
    hide Substitution.ResolvePayload, LaunchedRow;
  }

  lemma LaunchedKey(w: World, v: World, t: Uuid, payload: Json)
    requires t in w.tasks && LaunchedRow(w, v, t, payload)
    ensures TaskKey(w.goalId, t) in v.jobs.idempotency
  {
  }

  // ---- what the pass makes of a pending task -------------------------------------------------

  /** The job of a launched task carries the task's own contract with the payload of its row. */
  predicate JobCarries(w: World, v: World, t: Uuid, payload: Json)
    requires t in w.tasks
  {
    && TaskKey(w.goalId, t) in v.jobs.idempotency
    && var j := v.jobs.idempotency[TaskKey(w.goalId, t)];
       j in v.jobs.inputs
       && v.jobs.inputs[j] == TaskInput(t, GoalOrigin(w.goalId), w.tasks[t].skill, payload, w.threshold, w.workspaceRoot)
  }

  /** Started with its references replaced by the results of its complete dependencies. */
  ghost predicate StartedProperly(w: World, v: World, t: Uuid, size: Json -> nat)
    requires t in w.tasks
  {
    exists payload ::
      && LaunchedRow(w, v, t, payload) && JobCarries(w, v, t, payload)
      && Substitution.Replaces(w.tasks[t].payload, payload, Substitution.Declared(w.tasks[t]), v.tasks)
      && payload.Dict? && size(payload) <= 65536
  }

  predicate AllDone(v: World, t: Uuid)
    requires t in v.tasks
  {
    forall d :: d in v.tasks[t].dependsOn ==> d in v.tasks && v.tasks[d].status == TComplete
  }

  /** The payload cannot be had: no value replaces all its references, or it is no object, or too large. */
  ghost predicate HasNoPayload(w: World, v: World, t: Uuid, size: Json -> nat)
    requires t in w.tasks
  {
    forall payload ::
      Substitution.Replaces(w.tasks[t].payload, payload, Substitution.Declared(w.tasks[t]), v.tasks) ==>
      !payload.Dict? || size(payload) > 65536
  }

  /** What may become of a pending task in one pass. */
  ghost predicate PendingOutcome(w: World, v: World, t: Uuid, size: Json -> nat)
    requires t in w.tasks
  {
    && t in v.tasks
    && match v.tasks[t].status
       case TPending => v.tasks[t] == w.tasks[t]
       case TBlocked => v.tasks[t] == w.tasks[t].(status := TBlocked, error := Some("dependency failed"))
       case TFailed =>
         && v.tasks[t] == w.tasks[t].(status := TFailed, error := Some("payload resolution"))
         && AllDone(v, t) && HasNoPayload(w, v, t, size)
       case TRunning => AllDone(v, t) && StartedProperly(w, v, t, size)
       case _ => false
  }

  lemma UnstoppedPass(w: World, pass: Pass, size: Json -> nat)
    requires GoalInv(w) && w.status == GRunning && !Intake(w, 0).stop
    ensures var v, w3 := AfterPass(w, pass, size), AfterLaunch(w, pass, size);
      && v.tasks == w3.tasks && v.jobs == w3.jobs
      && v.events == w3.events + if v.status == GComplete then [Event("complete", [])] else []
  {
    hide GoalInv, Intake, Block, Launch, Reconcile, AfterLaunch, Verdict;
    PassTasks(w, pass, size);
    PassEnds(w, pass, size);
    PassPhases(w, pass, size);
    IntakeLeavesStatus(w, 0);
    AfterLaunchRunning(w, pass, size);
    VerdictKeepsJobs(AfterLaunch(w, pass, size));
  }

  lemma VerdictKeepsJobs(w: World)
    requires w.status == GRunning
    ensures var v := ApplyAll(w, Verdict(w));
      v.jobs == w.jobs && v.events == w.events + if v.status == GComplete then [Event("complete", [])] else []
  {
    hide Jobs.Apply;
    var e := RecordEvent(Event("complete", []));
    NoWrites(w);
    TwoWrites(w, SetStatus(GComplete), e);
    OneWrite(w, SetStatus(GFailed));
  }

  /** A pending task before it is launched: blocked, or as it was. */
  lemma BeforeLaunch(w: World, t: Uuid)
    requires GoalInv(w) && t in w.tasks && w.tasks[t].status == TPending
    ensures t in AfterBlock(w).tasks && SamePlan(w, AfterBlock(w))
    ensures var row := AfterBlock(w).tasks[t];
      row == w.tasks[t] || row == w.tasks[t].(status := TBlocked, error := Some("dependency failed"))
  {
    hide GoalInv, Intake, Block, ApplyAll, SamePlan;
    IntakeLeavesAll(w);
    BlockOnlyBlocks(AfterIntake(w), 0, false);
    BlockGives(w);
    PhasesSamePlan(w);
  }

  lemma PhasesSamePlan(w: World)
    ensures SamePlan(w, AfterBlock(w)) && SamePlan(w, AfterIntake(w))
  {
    hide Intake, Block, SamePlan;
    SamePlanTransitive(w, AfterIntake(w), AfterBlock(w));
  }

  lemma LaunchedInPass(w: World, pass: Pass, size: Json -> nat, t: Uuid)
    requires t in AfterBlock(w).tasks && AfterBlock(w).tasks[t].status == TPending
    ensures var w2, w3 := AfterBlock(w), AfterLaunch(w, pass, size);
      && t in w3.tasks && LaunchesOnly(w2, w3) && LaunchesTo(w2.tasks[t], w3.tasks[t])
      && (w3.tasks[t].status == TRunning ==> DepsComplete(w2, t) && StartsWell(w2, w3, t, size))
      && (w3.tasks[t].status == TFailed ==>
            DepsComplete(w2, t) && Substitution.ResolvePayload(w2.tasks[t], w2.tasks, size).Err?)
  {
    hide Launch, Slots, AfterBlock, LaunchesOnly, LaunchesTo, DepsComplete, StartsWell, Substitution.ResolvePayload;
    var w2 := AfterBlock(w);
    LaunchOutcome(w2, 0, Slots(w2, pass), pass.now, size, t);
    LaunchGivesRows(w2, 0, Slots(w2, pass), pass.now, size, t);
    LaunchesPart(w2, AfterLaunch(w, pass, size), t);
  }

  lemma LaunchesPart(w: World, v: World, t: Uuid)
    requires LaunchesOnly(w, v) && t in w.tasks
    ensures t in v.tasks && LaunchesTo(w.tasks[t], v.tasks[t])
  {
  }

  lemma DepsCarry(w: World, v: World, t: Uuid)
    requires LaunchesOnly(w, v) && t in w.tasks
    ensures t in v.tasks && (DepsComplete(w, t) <==> DepsComplete(v, t))
    ensures DepsComplete(w, t) ==> Substitution.AgreeOn(Substitution.Declared(w.tasks[t]), w.tasks, v.tasks)
  {
    KeysPart(w, v);
    SpecPart(w, v, t);
    assert forall u :: u in w.tasks ==> LaunchesTo(w.tasks[u], v.tasks[u]);
  }

  /** A started task's payload and the input of its job, from what launching gave it. */
  lemma ProperlyStarted(w: World, w2: World, v: World, t: Uuid, size: Json -> nat)
    requires t in w.tasks && t in w2.tasks && t in v.tasks && w2.tasks[t] == w.tasks[t] && SamePlan(w, w2)
    requires SamePlan(w, v)
    requires StartsWell(w2, v, t, size) && GoalInv(v)
    requires Substitution.AgreeOn(Substitution.Declared(w.tasks[t]), w2.tasks, v.tasks)
    ensures StartedProperly(w, v, t, size)
  {
    hide GoalInv, Substitution.Resolve, Substitution.Replaces, Substitution.AgreeOn;
    var declared := Substitution.Declared(w.tasks[t]);
    var payload :| LaunchedRow(w2, v, t, payload) && Substitution.ResolvePayload(w2.tasks[t], w2.tasks, size) == Ok(payload);
    SameGoal(w, w2);
    SameGoal(w, v);
    SpecPart(w, v, t);
    Substitution.OnlyDeclaredResultsMatter(w.tasks[t].payload, declared, w2.tasks, v.tasks);
    Substitution.ResolveMeaning(w.tasks[t].payload, declared, v.tasks);
    InputPart(v, t);
    assert LaunchedRow(w, v, t, payload);
    assert JobCarries(w, v, t, payload);
  }

  /** Main theorem. In one pass a pending task stays as it is, is blocked, fails on its payload, or is started: with all
      its dependencies complete, its references replaced by their results, and a job under its key that carries
      the task's own contract. */
  lemma PassMovesPending(w: World, pass: Pass, size: Json -> nat, t: Uuid)
    requires GoalInv(w) && w.status == GRunning && t in w.tasks && w.tasks[t].status == TPending
    ensures PendingOutcome(w, AfterPass(w, pass, size), t, size)
  {
    hide GoalInv, Intake, Block, Launch, Slots, Verdict, ApplyAll, AfterLaunch, AfterBlock, AfterIntake, Reconcile, SamePlan;
    hide DepsComplete, StartedProperly, StartsWell, LaunchesOnly, AfterPass, AllDone, HasNoPayload;
    hide Substitution.ResolvePayload, Substitution.AgreeOn;
    var v := AfterPass(w, pass, size);
    if Intake(w, 0).stop {
      StoppedPass(w, pass, size);
      IntakeLeavesAll(w);
    } else {
      BeforeLaunch(w, t);
      UnstoppedPass(w, pass, size);
      ReconcileKeeps(w, pass, size);
      KeysPart(w, v);
      var w2, w3 := AfterBlock(w), AfterLaunch(w, pass, size);
      if w2.tasks[t].status == TPending {
        LaunchedInPass(w, pass, size, t);
        DepsCarry(w2, w3, t);
        SameDeps(w3, v, t);
        if w3.tasks[t].status == TRunning {
          SameStart(w2, w3, v, t, size);
          ProperlyStarted(w, w2, v, t, size);
        } else if w3.tasks[t].status == TFailed {
          StaysUnresolved(w, w2, v, t, size);
        }
      } else {
        LaunchedFrom(w, pass, size, t);
      }
    }
  }

  lemma SameDeps(w: World, v: World, t: Uuid)
    requires v.tasks == w.tasks && t in w.tasks
    ensures AllDone(v, t) <==> DepsComplete(w, t)
    ensures DepsComplete(v, t) <==> DepsComplete(w, t)
  {
  }

  lemma StaysUnresolved(w: World, w2: World, v: World, t: Uuid, size: Json -> nat)
    requires t in w.tasks && t in w2.tasks && w2.tasks[t] == w.tasks[t]
    requires Substitution.ResolvePayload(w2.tasks[t], w2.tasks, size).Err?
    requires Substitution.AgreeOn(Substitution.Declared(w.tasks[t]), w2.tasks, v.tasks)
    ensures HasNoPayload(w, v, t, size)
  {
    hide Substitution.Resolve, Substitution.Replaces, Substitution.AgreeOn;
    Substitution.OnlyDeclaredResultsMatter(w.tasks[t].payload, Substitution.Declared(w.tasks[t]), w2.tasks, v.tasks);
    Substitution.PayloadResolution(w.tasks[t], v.tasks, size);
  }

  lemma SameStart(w: World, v: World, v': World, t: Uuid, size: Json -> nat)
    requires t in w.tasks && StartsWell(w, v, t, size) && v'.tasks == v.tasks && v'.jobs == v.jobs
    ensures StartsWell(w, v', t, size)
  {
    hide Substitution.ResolvePayload;
    var payload :| LaunchedRow(w, v, t, payload) && Substitution.ResolvePayload(w.tasks[t], w.tasks, size) == Ok(payload);
    assert LaunchedRow(w, v', t, payload);
  }

  // ---- how many are started ---------------------------------------------------------------------

  lemma StartedCounts(w: World, t: Uuid, payload: Json, now: Time)
    requires t in w.tasks && w.tasks[t].status == TPending
    ensures GoalLimits.Running(Launched1(w, t, payload, now)) == GoalLimits.Running(w) + 1
  {
    hide Jobs.Apply, SamePlan, WithStatus, Patched, EnqueueCall, EnqueuedJob;
    var w1 := Apply(w, JobCall(EnqueueCall(w, t, payload), now));
    var p := StartPatch(EnqueuedJob(w, t), payload);
    StatusSetOfUpdate(w1, t, p, TRunning);
    SameStatuses(w, w1);
    StartedStatus(w.tasks[t], EnqueuedJob(w, t), payload);
  }

  lemma StartedStatus(task: PlannedTask, j: Uuid, payload: Json)
    ensures Patched(task, StartPatch(j, payload)).status == TRunning
  {
  }

  lemma SameStatuses(w: World, v: World)
    requires v.tasks == w.tasks
    ensures WithStatus(v, TRunning) == WithStatus(w, TRunning)
  {
  }

  lemma FailedCounts(w: World, t: Uuid)
    requires t in w.tasks && w.tasks[t].status == TPending
    ensures GoalLimits.Running(Apply(w, UpdateTask(t, UNRESOLVED))) == GoalLimits.Running(w)
  {
    hide SamePlan, WithStatus, Apply;
    StatusSetOfUpdate(w, t, UNRESOLVED, TRunning);
  }

  /** A task that could have been started was left waiting. */
  ghost predicate LeftWaiting(w: World, v: World, i: nat)
    requires i <= |w.order|
  {
    exists t :: t in w.order[i..] && t in w.tasks && t in v.tasks && v.tasks[t].status == TPending && DepsComplete(w, t)
  }

  /** Launching uses every slot before it leaves a ready task waiting. */
  lemma {:induction false} LaunchFills(w: World, i: nat, slots: int, now: Time, size: Json -> nat)
    requires i <= |w.order|
    ensures var v := ApplyAll(w, Launch(w, i, slots, now, size));
      && GoalLimits.Running(w) <= GoalLimits.Running(v) <= GoalLimits.Running(w) + GoalLimits.Free(slots)
      && (LeftWaiting(w, v, i) ==> GoalLimits.Running(v) == GoalLimits.Running(w) + GoalLimits.Free(slots))
    decreases |w.order| - i
  {
    hide Apply, GoalLimits.Running, SamePlan, Substitution.ResolvePayload, EnqueueCall, EnqueuedJob, StartPatch;
    hide DepsComplete, ApplyAll;
    hide LeftWaiting, LaunchesOnly;
    NoWrites(w);
    if i == |w.order| {
      NothingLeft(w, ApplyAll(w, []));
    } else if slots > 0 {
      var u := w.order[i];
      if u !in w.tasks || w.tasks[u].status != TPending || !DepsComplete(w, u) {
        LaunchFills(w, i + 1, slots, now, size);
        LeftSkips(w, i, slots, now, size);
      } else {
        match Substitution.ResolvePayload(w.tasks[u], w.tasks, size)
        case Err(_) =>
          var w1 := Apply(w, UpdateTask(u, UNRESOLVED));
          KeepsOrder(w, w1);
          UnresolvedIs(w, u);
          FailedCounts(w, u);
          LaunchFills(w1, i + 1, slots, now, size);
          var rest := Launch(w1, i + 1, slots, now, size);
          OneWriteFirst(w, UpdateTask(u, UNRESOLVED), rest);
          LaunchOutcome(w1, i + 1, slots, now, size, u);
          LeftMoves(w, w1, ApplyAll(w1, rest), i);
        case Ok(payload) =>
          var w1 := Launched1(w, u, payload, now);
          Launched1Is(w, u, payload, now);
          StartedCounts(w, u, payload, now);
          LaunchFills(w1, i + 1, slots - 1, now, size);
          var rest := Launch(w1, i + 1, slots - 1, now, size);
          LaunchStep(w, u, payload, now, rest);
          LaunchOutcome(w1, i + 1, slots - 1, now, size, u);
          LeftMoves(w, w1, ApplyAll(w1, rest), i);
      }
    }
  }

  lemma NothingLeft(w: World, v: World)
    ensures !LeftWaiting(w, v, |w.order|)
  {
  }

  /** A task that launching passed over is not ready. */
  lemma LeftSkips(w: World, i: nat, slots: int, now: Time, size: Json -> nat)
    requires i < |w.order|
    requires var u := w.order[i]; u !in w.tasks || w.tasks[u].status != TPending || !DepsComplete(w, u)
    ensures var v := ApplyAll(w, Launch(w, i + 1, slots, now, size)); LeftWaiting(w, v, i) ==> LeftWaiting(w, v, i + 1)
  {
    hide DepsComplete, Launch, ApplyAll, LaunchesOnly;
    var v := ApplyAll(w, Launch(w, i + 1, slots, now, size));
    assert w.order[i..] == [w.order[i]] + w.order[i + 1..];
    var u := w.order[i];
    if u in w.tasks {
      LaunchOutcome(w, i + 1, slots, now, size, u);
      LaunchesPart(w, v, u);
    }
  }

  lemma LeftMoves(w: World, w1: World, v: World, i: nat)
    requires i < |w.order| && w1.order == w.order && LaunchesOnly(w, w1) && LaunchesOnly(w1, v)
    requires w.order[i] in w.tasks && w.order[i] in w1.tasks && w1.tasks[w.order[i]].status != TPending
    ensures LeftWaiting(w, v, i) ==> LeftWaiting(w1, v, i + 1)
  {
    hide DepsComplete, SamePlan, LaunchesOnly;
    assert w.order[i..] == [w.order[i]] + w.order[i + 1..];
    var u := w.order[i];
    LaunchesPart(w1, v, u);
    if LeftWaiting(w, v, i) {
      var t :| t in w.order[i..] && t in w.tasks && t in v.tasks && v.tasks[t].status == TPending && DepsComplete(w, t);
      DepsCarry(w, w1, t);
      assert t in w1.order[i + 1..];
    }
  }

  /** The tasks that the pass started. */
  function StartedTasks(w: World, v: World): set<Uuid> {
    set t | t in v.tasks && v.tasks[t].status == TRunning && t in w.tasks && w.tasks[t].status == TPending
  }

  /** Main theorem. A pass that pauses nothing starts no more tasks than the goal's own limit and the limit over all goals
      leave room for; and it leaves a ready task waiting only when one of the two limits is reached. */
  lemma PassFillsSlots(w: World, pass: Pass, size: Json -> nat)
    requires GoalInv(w) && w.status == GRunning && forall t :: IsRunning(w, t) ==> !NeedsReview(w, t)
    ensures var v := AfterPass(w, pass, size);
      var running, started := |WithStatus(v, TRunning)|, |StartedTasks(w, v)|;
      && (started > 0 ==> running <= pass.perGoalLimit && pass.globalRunning + started <= pass.globalLimit)
      && ((exists t :: t in v.tasks && v.tasks[t].status == TPending && AllDone(v, t)) ==>
            running >= pass.perGoalLimit || pass.globalRunning + started >= pass.globalLimit)
  {
    hide GoalInv, Intake, Block, Launch, ApplyAll, AfterBlock, AfterIntake, AfterLaunch, AfterPass, SamePlan, DepsComplete;
    hide LeftWaiting, LaunchesOnly, NeedsReview, Slots, AllDone;
    PlanPart(w);
    IntakeStopsIff(w, 0);
    ClearMeansNone(w);
    var w2, w3 := AfterBlock(w), AfterLaunch(w, pass, size);
    UnstoppedPass(w, pass, size);
    var v := AfterPass(w, pass, size);
    forall t | t in v.tasks ensures AllDone(v, t) <==> DepsComplete(v, t) { SameDeps(v, v, t); }
    SameStatuses(w3, v);
    BlockKeepsRunning(w);
    FillsAfterBlock(w, pass, size);
    PassPhases(w, pass, size);
    PlanPart(w2);
    StartedAre(w, pass, size);
    SlotsAre(w2, pass);
    if t :| t in v.tasks && v.tasks[t].status == TPending && DepsComplete(v, t) {
      SameDeps(w3, v, t);
      LaunchedFrom(w, pass, size, t);
      DepsCarry(w2, w3, t);
      InPlan(w2, t);
      IsLeftWaiting(w2, w3, t);
    }
  }

  lemma SlotsAre(w: World, pass: Pass)
    ensures var own, all := pass.perGoalLimit - GoalLimits.Running(w), pass.globalLimit - pass.globalRunning;
      Slots(w, pass) == if own <= all then own else all
  {
  }

  /** The running tasks after the pass are those that intake left running and the started ones. */
  lemma StartedAre(w: World, pass: Pass, size: Json -> nat)
    requires GoalInv(w) && w.status == GRunning && !Intake(w, 0).stop
    requires GoalLimits.Running(AfterBlock(w)) == GoalLimits.Running(AfterIntake(w))
    ensures var v := AfterPass(w, pass, size);
      GoalLimits.Running(v) == GoalLimits.Running(AfterBlock(w)) + |StartedTasks(w, v)|
  {
    hide GoalInv, Intake, Block, Launch, ApplyAll, AfterBlock, AfterIntake, AfterPass, SamePlan, PendingOutcome;
    var before, v := AfterIntake(w), AfterPass(w, pass, size);
    ReconcileKeeps(w, pass, size);
    KeysPart(w, v);
    PhasesSamePlan(w);
    KeysPart(w, before);
    var kept, started := WithStatus(before, TRunning), StartedTasks(w, v);
    forall t | t in w.tasks ensures t in WithStatus(v, TRunning) <==> t in kept || t in started {
      TaskThroughPass(w, pass, size, t);
    }
    forall t | t in w.tasks && t in kept ensures t !in started { TaskThroughPass(w, pass, size, t); }
    assert WithStatus(v, TRunning) == kept + started;
    assert kept !! started;
  }

  lemma TaskThroughPass(w: World, pass: Pass, size: Json -> nat, t: Uuid)
    requires GoalInv(w) && w.status == GRunning && !Intake(w, 0).stop && t in w.tasks
    ensures t in AfterIntake(w).tasks && t in AfterPass(w, pass, size).tasks
    ensures AfterIntake(w).tasks[t].status == TPending <==> w.tasks[t].status == TPending
    ensures AfterIntake(w).tasks[t].status != TPending ==> AfterPass(w, pass, size).tasks[t] == AfterIntake(w).tasks[t]
  {
    hide GoalInv, Intake, Block, Launch, AfterBlock, AfterPass, SamePlan, NeedsReview, TakenUp, Clear;
    IntakeLeavesAll(w);
    PlanPart(w);
    if IsRunning(w, t) {
      InPlan(w, t);
      var k :| 0 <= k < |w.order| && w.order[k] == t;
      IntakeStopsIff(w, 0);
      ClearPrefix(w, k);
      IntakeReaches(w, 0, k);
      TakenUpRow(w, AfterIntake(w), t);
    }
    if AfterIntake(w).tasks[t].status != TPending {
      RestLeavesNonPending(w, pass, size, t);
    } else {
      ReconcileKeeps(w, pass, size);
      KeysPart(w, AfterPass(w, pass, size));
    }
  }

  lemma ClearPrefix(w: World, k: nat)
    requires k <= |w.order| && Clear(w, 0, |w.order|)
    ensures Clear(w, 0, k)
  {
    hide NeedsReview;
  }

  lemma IsLeftWaiting(w: World, v: World, t: Uuid)
    requires t in w.order && t in w.tasks && t in v.tasks && v.tasks[t].status == TPending && DepsComplete(w, t)
    ensures LeftWaiting(w, v, 0)
  {
    assert w.order[0..] == w.order;
  }

  lemma BlockKeepsRunning(w: World)
    ensures GoalLimits.Running(AfterBlock(w)) == GoalLimits.Running(AfterIntake(w))
  {
    hide Intake, Block;
    BlockGives(w);
    BlockOnlyBlocks(AfterIntake(w), 0, false);
    assert WithStatus(AfterBlock(w), TRunning) == WithStatus(AfterIntake(w), TRunning);
  }

  lemma FillsAfterBlock(w: World, pass: Pass, size: Json -> nat)
    ensures var w2, w3 := AfterBlock(w), AfterLaunch(w, pass, size);
      var free := GoalLimits.Free(Slots(w2, pass));
      && GoalLimits.Running(w2) <= GoalLimits.Running(w3) <= GoalLimits.Running(w2) + free
      && (LeftWaiting(w2, w3, 0) ==> GoalLimits.Running(w3) == GoalLimits.Running(w2) + free)
  {
    hide Launch, AfterBlock, Slots, GoalLimits.Running, LeftWaiting;
    LaunchFills(AfterBlock(w), 0, Slots(AfterBlock(w), pass), pass.now, size);
  }

  // ---- the jobs that a pass adds ---------------------------------------------------------------------

  /** A job as an enqueue without further wishes makes it: of normal priority, with three attempts and a back-off of
      one second that doubles up to a minute. */
  predicate PlainJob(job: Jobs.JobRow, now: Time) {
    && job.status == Queued && job.attemptCount == 0 && job.priority == 0
    && job.policy == RetryFields(3, 1.0, 60.0, {"timeout", "transient", "worker_lost"})
    && job.createdAt == now && job.availableAt == now && job.active == None && job.cancelledAt == None
  }

  /** Nothing but plain jobs was added, under new keys. */
  ghost predicate OnlyAddsJobs(db: Jobs.Db, db': Jobs.Db, now: Time) {
    && db'.attempts == db.attempts && db'.outputs == db.outputs && db'.outbox == db.outbox
    && (forall j :: j in db.jobs ==> j in db'.jobs && db'.jobs[j] == db.jobs[j])
    && (forall j :: j in db'.jobs && j !in db.jobs ==> PlainJob(db'.jobs[j], now))
    && (forall k :: k in db.idempotency ==> k in db'.idempotency && db'.idempotency[k] == db.idempotency[k])
  }

  predicate AllOld(db: Jobs.Db) {
    forall j :: j in db.jobs ==> j < db.nextUuid
  }

  lemma EnqueueAddsPlain(w: World, u: Uuid, payload: Json, now: Time)
    requires u in w.tasks && AllOld(w.jobs)
    ensures var db := Launched1(w, u, payload, now).jobs; AllOld(db) && OnlyAddsJobs(w.jobs, db, now)
  {
    hide EnqueueCall, Jobs.Apply, OnlyAddsJobs, AllOld;
    EnqueuePlain(w.jobs, u, Contract(w, u, payload), KeyOf(w, u), now);
    AppliesEnqueue(w.jobs, u, Contract(w, u, payload), KeyOf(w, u), now);
    EnqueueCallIs(w, u, payload);
  }

  lemma EnqueueCallIs(w: World, u: Uuid, payload: Json)
    requires u in w.tasks
    ensures EnqueueCall(w, u, payload) == Jobs.Enqueue(u, Some(Contract(w, u, payload)), KeyOf(w, u), 0, DEFAULT_RETRY)
  {
  }

  lemma EnqueuePlain(db: Jobs.Db, t: Uuid, task: TaskInput, key: Key, now: Time)
    requires AllOld(db) && task.taskId == t
    ensures var db' := Jobs.EnqueueTx(db, t, Some(task), key, 0, DEFAULT_RETRY, now).0;
      AllOld(db') && OnlyAddsJobs(db, db', now)
  {
    hide Jobs.LogOf, Jobs.Logged;
  }

  lemma AppliesEnqueue(db: Jobs.Db, t: Uuid, task: TaskInput, key: Key, now: Time)
    ensures Jobs.Apply(db, Jobs.Enqueue(t, Some(task), key, 0, DEFAULT_RETRY), now)
            == Jobs.EnqueueTx(db, t, Some(task), key, 0, DEFAULT_RETRY, now).0
  {
    hide Jobs.EnqueueTx;
  }

  lemma {:induction false} LaunchAddsPlain(w: World, i: nat, slots: int, now: Time, size: Json -> nat)
    requires i <= |w.order| && AllOld(w.jobs)
    ensures OnlyAddsJobs(w.jobs, ApplyAll(w, Launch(w, i, slots, now, size)).jobs, now)
    decreases |w.order| - i
  {
    hide Jobs.Apply, Substitution.ResolvePayload, SamePlan, DepsComplete, EnqueueCall, StartPatch, EnqueuedJob;
    hide ApplyAll, PlainJob, Launched1;
    NoWrites(w);
    if i < |w.order| && slots > 0 {
      var u := w.order[i];
      if u !in w.tasks || w.tasks[u].status != TPending || !DepsComplete(w, u) {
        LaunchAddsPlain(w, i + 1, slots, now, size);
      } else {
        match Substitution.ResolvePayload(w.tasks[u], w.tasks, size)
        case Err(_) =>
          var w1 := Apply(w, UpdateTask(u, UNRESOLVED));
          KeepsOrder(w, w1);
          LaunchAddsPlain(w1, i + 1, slots, now, size);
          OneWriteFirst(w, UpdateTask(u, UNRESOLVED), Launch(w1, i + 1, slots, now, size));
        case Ok(payload) =>
          var w1 := Launched1(w, u, payload, now);
          Launched1Is(w, u, payload, now);
          KeepsOrder(w, w1);
          EnqueueAddsPlain(w, u, payload, now);
          LaunchAddsPlain(w1, i + 1, slots - 1, now, size);
          LaunchedFirst(w, i, slots, now, size, payload);
      }
    }
  }

  lemma LaunchedFirst(w: World, i: nat, slots: int, now: Time, size: Json -> nat, payload: Json)
    requires i < |w.order| && slots > 0 && w.order[i] in w.tasks && w.tasks[w.order[i]].status == TPending
    requires DepsComplete(w, w.order[i])
    requires Substitution.ResolvePayload(w.tasks[w.order[i]], w.tasks, size) == Ok(payload)
    ensures var w1 := Launched1(w, w.order[i], payload, now);
      && w1.order == w.order
      && ApplyAll(w, Launch(w, i, slots, now, size)) == ApplyAll(w1, Launch(w1, i + 1, slots - 1, now, size))
  {
    hide Substitution.ResolvePayload, SamePlan, DepsComplete, EnqueueCall, StartPatch, EnqueuedJob, ApplyAll, Apply;
    var u := w.order[i];
    var w1 := Launched1(w, u, payload, now);
    Launched1Is(w, u, payload, now);
    LaunchStep(w, u, payload, now, Launch(w1, i + 1, slots - 1, now, size));
  }

  /** A pass leaves every job and its attempts alone; the jobs it adds are plain ones. */
  lemma PassAddsJobs(w: World, pass: Pass, size: Json -> nat)
    requires GoalInv(w)
    ensures OnlyAddsJobs(w.jobs, AfterPass(w, pass, size).jobs, pass.now)
  {
    hide GoalInv, Intake, Block, Launch, Slots, Verdict, ApplyAll, AfterIntake, Reconcile, PlainJob;
    NoWrites(w);
    if w.status == GRunning {
      IntakeJobs(w);
      if Intake(w, 0).stop {
        StoppedPass(w, pass, size);
      } else {
        UnstoppedPass(w, pass, size);
        BlockOnlyBlocks(AfterIntake(w), 0, false);
        BlockGives(w);
        OldIds(w);
        LaunchAddsPlain(AfterBlock(w), 0, Slots(AfterBlock(w), pass), pass.now, size);
      }
    } else {
      NoPass(w, pass, size);
    }
  }

  lemma NoPass(w: World, pass: Pass, size: Json -> nat)
    requires w.status != GRunning
    ensures Reconcile(w, pass, size) == []
  {
  }

  lemma IntakeJobs(w: World)
    requires GoalInv(w)
    ensures AfterIntake(w).jobs == w.jobs && ApplyAll(w, Intake(w, 0).writes).jobs == w.jobs
  {
    hide GoalInv, Intake, ApplyAll;
    IntakeLeavesAll(w);
  }

  lemma OldIds(w: World)
    requires GoalInv(w)
    ensures AllOld(w.jobs)
  {
    hide JobInvariant.AttemptsOk, JobInvariant.DistinctOk, JobInvariant.NumbersOk, DepsComplete, PlanOk, TasksOk;
    hide JobInvariant.OutputsOk, JobInvariant.SpacingOk, KeysOwned;
  }
}
