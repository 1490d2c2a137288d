/** What one pass makes of the tasks of a running goal, told from their rows and their jobs' rows. */
module GoalPasses {
  import opened Prelude
  import opened Contracts
  import opened Goals
  import opened GoalSafety
  import opened GoalProgress
  import opened GoalRounds
  import Jobs
  import JobInvariant

  // ---- what a running task's job answers -----------------------------------------------

  predicate IsRunning(w: World, t: Uuid) {
    t in w.tasks && w.tasks[t].status == TRunning
  }

  /** The job of task `t` is in this state. */
  predicate JobIs(w: World, t: Uuid, s: JobStatus) {
    && t in w.tasks && w.tasks[t].jobId.Some? && w.tasks[t].jobId.value in w.jobs.jobs
    && w.jobs.jobs[w.tasks[t].jobId.value].status == s
  }

  /** The job of task `t` completed and returned `r`, which is empty when it stored nothing. */
  predicate Returned(w: World, t: Uuid, r: JobResult) {
    && JobIs(w, t, Completed)
    && var j := w.tasks[t].jobId.value;
       if j in w.jobs.outputs then r == w.jobs.outputs[j] else r == JobResult("", None, None, [], None, Dict([]))
  }

  predicate GoodEnough(r: JobResult, threshold: real) {
    r.status == "complete" && if r.confidence.Some? then r.confidence.value >= threshold else 0.0 >= threshold
  }

  predicate GaveUp(r: JobResult) {
    r.status == "failed" || r.status == "no_agent_found"
  }

  /** The outcome of running task `t` needs a reviewer. */
  ghost predicate NeedsReview(w: World, t: Uuid) {
    exists r :: Returned(w, t, r) && !GoodEnough(r, w.threshold) && !GaveUp(r)
  }

  function Content(r: JobResult): Json {
    match r.output
    case Some(content) => content
    case None => r.raw
  }

  function ReasonOf(r: JobResult): string {
    match r.failureReason
    case Some(reason) => if reason == "" then r.status else reason
    case None => r.status
  }

  /** What becomes of a task whose job returned `r`. */
  predicate ResultRow(before: PlannedTask, after: PlannedTask, r: JobResult, threshold: real) {
    && (GoodEnough(r, threshold) ==>
          after == before.(status := TComplete, confidence := r.confidence, result := Some(Content(r))))
    && (GaveUp(r) ==>
          after == before.(status := TFailed, confidence := r.confidence, error := Some(ReasonOf(r))))
    && (!GoodEnough(r, threshold) && !GaveUp(r) ==>
          after == before.(status := TEscalated, confidence := r.confidence, result := Some(Content(r))))
  }

  /** What has become of running task `t`, by the state of its job. */
  ghost predicate TakenUp(w: World, v: World, t: Uuid)
    requires t in w.tasks
  {
    && t in v.tasks
    && var before, after := w.tasks[t], v.tasks[t];
       && (forall r :: Returned(w, t, r) ==> ResultRow(before, after, r, w.threshold))
       && (JobIs(w, t, Failed) ==> after == before.(status := TFailed, error := Some("failed")))
       && (JobIs(w, t, Cancelled) ==> after == before.(status := TFailed, error := Some("cancelled")))
       && (JobIs(w, t, Queued) || JobIs(w, t, Running) ==> after == before)
  }

  // ---- taking up one outcome ------------------------------------------------------------

  /** Only task `t` and the goal's status may differ. */
  predicate OnlyTask(w: World, v: World, t: Uuid) {
    && v.tasks.Keys == w.tasks.Keys && v.jobs == w.jobs && v.events == w.events && v.order == w.order
    && v.threshold == w.threshold && v.reviews == w.reviews
    && forall u :: u in w.tasks && u != t ==> v.tasks[u] == w.tasks[u]
  }

  predicate EndsPaused(writes: seq<Write>) {
    writes != [] && writes[|writes| - 1] == SetStatus(GPaused)
  }

  lemma ItsJob(w: World, t: Uuid)
    requires GoalInv(w) && IsRunning(w, t)
    ensures w.tasks[t].jobId.Some? && FindJob(w, t) == w.tasks[t].jobId && w.tasks[t].jobId.value in w.jobs.jobs
  {
    hide GoalInv, DepsComplete, ResultFits;
    RunningHasItsJob(w, t);
    var j := FindJob(w, t).value;
  }

  /** The task update that a result asks for, and whether the goal is paused after it. */
  lemma ResultWrites(w: World, t: Uuid, r: JobResult) returns (p: Patch)
    requires t in w.tasks
    ensures ResultRow(w.tasks[t], Patched(w.tasks[t], p), r, w.threshold)
    ensures var first := IntakeResult(w, t, r);
      && (first.stop <==> !GoodEnough(r, w.threshold) && !GaveUp(r))
      && first.writes == [UpdateTask(t, p)] + if first.stop then [SetStatus(GPaused)] else []
  {
    p := IntakeResult(w, t, r).writes[0].patch;
  }

  lemma RowUpdated(w: World, t: Uuid, p: Patch)
    requires t in w.tasks
    ensures var v := Apply(w, UpdateTask(t, p));
      && OnlyTask(w, v, t) && v.tasks[t] == Patched(w.tasks[t], p) && v.status == w.status
      && var v' := Apply(v, SetStatus(GPaused)); OnlyTask(w, v', t) && v'.tasks == v.tasks && v'.status == GPaused
  {
    hide Patched, SamePlan;
  }

  lemma ResultTakenUp(w: World, v: World, t: Uuid, r: JobResult)
    requires t in w.tasks && t in v.tasks && Returned(w, t, r) && ResultRow(w.tasks[t], v.tasks[t], r, w.threshold)
    ensures TakenUp(w, v, t)
  {
    hide ResultRow;
    assert forall x :: Returned(w, t, x) ==> x == r;
  }

  lemma OneResult(w: World, t: Uuid, r: JobResult)
    requires t in w.tasks && Returned(w, t, r)
    ensures var first := IntakeResult(w, t, r);
      var v := ApplyAll(w, first.writes);
      && TakenUp(w, v, t) && OnlyTask(w, v, t)
      && (first.stop <==> !GoodEnough(r, w.threshold) && !GaveUp(r))
      && v.status == (if first.stop then GPaused else w.status)
      && (first.stop ==> EndsPaused(first.writes))
  {
    hide ApplyAll, Apply, IntakeResult, GoodEnough, GaveUp, ResultRow, Patched, Returned;
    var p := ResultWrites(w, t, r);
    var update, pause := UpdateTask(t, p), SetStatus(GPaused);
    OneWrite(w, update);
    TwoWrites(w, update, pause);
    assert [update] + [] == [update] && [update] + [pause] == [update, pause];
    RowUpdated(w, t, p);
    ResultTakenUp(w, Apply(w, update), t, r);
    ResultTakenUp(w, Apply(Apply(w, update), pause), t, r);
  }

  lemma NoResult(w: World, t: Uuid)
    requires t in w.tasks && FindJob(w, t) == w.tasks[t].jobId && w.tasks[t].jobId.Some?
    requires w.tasks[t].jobId.value in w.jobs.jobs && !JobIs(w, t, Completed)
    ensures var first := IntakeTask(w, t);
      var v := ApplyAll(w, first.writes);
      TakenUp(w, v, t) && OnlyTask(w, v, t) && !first.stop && !NeedsReview(w, t) && v.status == w.status
  {
    hide Jobs.Apply, FindJob, IntakeResult;
    var ws := IntakeTask(w, t).writes;
    NoWrites(w);
    if |ws| == 1 { OneWrite(w, ws[0]); assert ws == [ws[0]]; }
  }

  /** No job of the task is stored: neither the one it records nor, when it records none, one under its key. */
  predicate JobIsGone(w: World, t: Uuid) {
    && t in w.tasks
    && match w.tasks[t].jobId
       case Some(j) => j !in w.jobs.jobs
       case None =>
         var key := TaskKey(w.goalId, t);
         key in w.jobs.idempotency ==> w.jobs.idempotency[key] !in w.jobs.jobs
  }

  /** A running task whose job is gone is pending again, without a job. */
  lemma LostJobIsLetGo(w: World, t: Uuid)
    requires JobIsGone(w, t)
    ensures ApplyAll(w, IntakeTask(w, t).writes)
            == w.(tasks := w.tasks[t := w.tasks[t].(status := TPending, jobId := None)])
    ensures !IntakeTask(w, t).stop
  {
    hide ApplyAll, Jobs.Apply;
    OneWrite(w, IntakeTask(w, t).writes[0]);
  }

  lemma OneOutcome(w: World, t: Uuid)
    requires GoalInv(w) && IsRunning(w, t)
    ensures var first := IntakeTask(w, t);
      var v := ApplyAll(w, first.writes);
      && TakenUp(w, v, t) && OnlyTask(w, v, t)
      && (first.stop <==> NeedsReview(w, t))
      && v.status == (if NeedsReview(w, t) then GPaused else w.status)
      && (first.stop ==> EndsPaused(first.writes))
  {
    hide GoalInv, ApplyAll, TakenUp, OnlyTask, IntakeResult, GoodEnough, GaveUp, FindJob, EndsPaused;
    ItsJob(w, t);
    if JobIs(w, t, Completed) {
      var r := ResultOf(w, w.tasks[t].jobId.value);
      assert Returned(w, t, r);
      assert forall x :: Returned(w, t, x) ==> x == r;
      OneResult(w, t, r);
    } else {
      NoResult(w, t);
    }
  }

  // ---- taking up all of them ---------------------------------------------------------------

  /** Intake touches running tasks from position `i` on only. */
  lemma {:induction false} IntakeLeaves(w: World, i: nat, u: Uuid)
    requires GoalInv(w) && i <= |w.order| && u in w.tasks && (u !in w.order[i..] || !IsRunning(w, u))
    ensures var v := ApplyAll(w, Intake(w, i).writes);
      && v.tasks.Keys == w.tasks.Keys && v.tasks[u] == w.tasks[u] && v.jobs == w.jobs && v.events == w.events
      && v.reviews == w.reviews && v.threshold == w.threshold
    decreases |w.order| - i
  {
    hide GoalInv, IntakeTask, TakenUp, NeedsReview, ApplyAll, AllLegal, SamePlan, EndsPaused;
    if i == |w.order| {
      NoWrites(w);
    } else {
      var t := w.order[i];
      assert w.order[i..] == [t] + w.order[i + 1..];
      if t !in w.tasks || w.tasks[t].status != TRunning {
        IntakeLeaves(w, i + 1, u);
      } else {
        var first := IntakeTask(w, t);
        OneOutcome(w, t);
        if !first.stop {
          var w' := ApplyAll(w, first.writes);
          IntakeTaskLegal(w, t);
          AllLegalKeeps(w, first.writes, true);
          IntakeLeaves(w', i + 1, u);
          ApplyAllAppend(w, first.writes, Intake(w', i + 1).writes);
        }
      }
    }
  }

  lemma SameJobSameOutcome(w: World, w': World, v: World, t: Uuid)
    requires t in w.tasks && t in w'.tasks && w'.tasks[t] == w.tasks[t] && w'.jobs == w.jobs
    requires w'.threshold == w.threshold
    ensures (TakenUp(w', v, t) <==> TakenUp(w, v, t)) && (NeedsReview(w', t) <==> NeedsReview(w, t))
  {
    assert forall r :: Returned(w', t, r) <==> Returned(w, t, r);
  }

  lemma SameRowSameOutcome(w: World, v: World, v': World, t: Uuid)
    requires t in w.tasks && TakenUp(w, v, t) && t in v'.tasks && v'.tasks[t] == v.tasks[t]
    ensures TakenUp(w, v', t)
  {
  }

  /** No running task between positions `i` and `k` needs a reviewer. */
  ghost predicate Clear(w: World, i: nat, k: nat)
    requires i <= k <= |w.order|
  {
    forall m :: i <= m < k && IsRunning(w, w.order[m]) ==> !NeedsReview(w, w.order[m])
  }

  /** The tasks after position `k` are as they were. */
  predicate SameRows(w: World, v: World, k: nat) {
    forall m :: k < m < |w.order| && w.order[m] in w.tasks ==>
      w.order[m] in v.tasks && v.tasks[w.order[m]] == w.tasks[w.order[m]]
  }

  /** What intake from position `i` on makes of the running task at position `k`. */
  ghost predicate Reached(w: World, i: nat, k: nat)
    requires i <= k < |w.order| && w.order[k] in w.tasks
  {
    var v := ApplyAll(w, Intake(w, i).writes);
    && TakenUp(w, v, w.order[k])
    && (NeedsReview(w, w.order[k]) ==>
          Intake(w, i).stop && v.status == GPaused && EndsPaused(Intake(w, i).writes) && SameRows(w, v, k))
  }

  lemma IntakeStep(w: World, i: nat)
    requires i < |w.order| && IsRunning(w, w.order[i])
    ensures var first := IntakeTask(w, w.order[i]);
      var w' := ApplyAll(w, first.writes);
      w'.order == w.order && Intake(w, i) == if first.stop then first
        else Phase(first.writes + Intake(w', i + 1).writes, Intake(w', i + 1).stop)
  {
    hide IntakeTask, ApplyAll;
  }

  lemma ReachedNow(w: World, k: nat)
    requires GoalInv(w) && k < |w.order| && IsRunning(w, w.order[k])
    ensures Reached(w, k, k)
  {
    hide GoalInv, IntakeTask, TakenUp, NeedsReview, ApplyAll, EndsPaused, Intake;
    var t := w.order[k];
    var first := IntakeTask(w, t);
    PlanPart(w);
    LaterOnly(w, k);
    OneOutcome(w, t);
    IntakeStep(w, k);
    if !first.stop {
      hide OnlyTask;
      var w' := ApplyAll(w, first.writes);
      IntakeTaskLegal(w, t);
      AllLegalKeeps(w, first.writes, true);
      ApplyAllAppend(w, first.writes, Intake(w', k + 1).writes);
      SameKeys(w, w', t);
      IntakeLeaves(w', k + 1, t);
      SameRowSameOutcome(w, w', ApplyAll(w, Intake(w, k).writes), t);
    }
  }

  lemma SameKeys(w: World, v: World, t: Uuid)
    requires OnlyTask(w, v, t)
    ensures v.tasks.Keys == w.tasks.Keys && v.order == w.order
  {
  }

  lemma ReachedLater(w: World, w': World, first: seq<Write>, i: nat, k: nat)
    requires i < k < |w.order| && w.order[k] in w.tasks && w' == ApplyAll(w, first) && OnlyTask(w, w', w.order[i])
    requires Intake(w, i) == Phase(first + Intake(w', i + 1).writes, Intake(w', i + 1).stop)
    requires PlanOk(w) && Reached(w', i + 1, k)
    ensures Reached(w, i, k)
  {
    hide IntakeTask, TakenUp, NeedsReview, ApplyAll, Intake;
    var rest := Intake(w', i + 1).writes;
    ApplyAllAppend(w, first, rest);
    LaterOnly(w, i);
    SameJobSameOutcome(w, w', ApplyAll(w', rest), w.order[k]);
  }

  lemma ReachedSkips(w: World, i: nat, k: nat)
    requires i < k < |w.order| && !IsRunning(w, w.order[i]) && w.order[k] in w.tasks && Reached(w, i + 1, k)
    ensures Reached(w, i, k)
  {
    hide TakenUp, NeedsReview, ApplyAll;
    assert Intake(w, i) == Intake(w, i + 1);
  }

  /** The running task at position `k` is taken up unless an earlier one stops the pass. */
  lemma {:induction false} IntakeReaches(w: World, i: nat, k: nat)
    requires GoalInv(w) && i <= k < |w.order| && IsRunning(w, w.order[k]) && Clear(w, i, k)
    ensures Reached(w, i, k)
    decreases |w.order| - i
  {
    hide GoalInv, IntakeTask, TakenUp, NeedsReview, ApplyAll, Intake, Reached;
    if i == k {
      ReachedNow(w, k);
    } else {
      var u := w.order[i];
      if u !in w.tasks || w.tasks[u].status != TRunning {
        IntakeReaches(w, i + 1, k);
        ReachedSkips(w, i, k);
      } else {
        IntakeStep(w, i);
        var first := IntakeTask(w, u);
        PlanPart(w);
        OneOutcome(w, u);
        assert !first.stop;
        var w' := ApplyAll(w, first.writes);
        IntakeTaskLegal(w, u);
        AllLegalKeeps(w, first.writes, true);
        StillClear(w, w', i, k);
        IntakeReaches(w', i + 1, k);
        ReachedLater(w, w', first.writes, i, k);
      }
    }
  }

  lemma LaterOnly(w: World, k: nat)
    requires PlanOk(w) && k < |w.order|
    ensures w.order[k] !in w.order[k + 1..]
    ensures forall m :: 0 <= m < |w.order| && m != k ==> w.order[m] != w.order[k]
  {
  }

  lemma StillClear(w: World, w': World, i: nat, k: nat)
    requires i < k < |w.order| && PlanOk(w) && OnlyTask(w, w', w.order[i]) && Clear(w, i, k)
    ensures i + 1 <= k < |w'.order| && Clear(w', i + 1, k) && w'.tasks[w.order[k]] == w.tasks[w.order[k]]
  {
    hide NeedsReview;
    LaterOnly(w, i);
    assert forall m :: 0 <= m < |w.order| ==> w.order[m] in w.tasks by { InPlanAll(w); }
    forall m | i + 1 <= m < k && IsRunning(w', w'.order[m]) ensures !NeedsReview(w', w'.order[m]) {
      SameJobSameOutcome(w, w', w', w.order[m]);
    }
  }

  lemma InPlanAll(w: World)
    requires PlanOk(w)
    ensures forall m :: 0 <= m < |w.order| ==> w.order[m] in w.tasks
  {
  }

  lemma {:induction false} IntakeStopsIff(w: World, i: nat)
    requires GoalInv(w) && i <= |w.order|
    ensures Intake(w, i).stop <==> !Clear(w, i, |w.order|)
    decreases |w.order| - i
  {
    hide GoalInv, IntakeTask, TakenUp, NeedsReview, ApplyAll;
    if i < |w.order| {
      var u := w.order[i];
      if u !in w.tasks || w.tasks[u].status != TRunning {
        IntakeStopsIff(w, i + 1);
      } else {
        PlanPart(w);
        var first := IntakeTask(w, u);
        OneOutcome(w, u);
        if !first.stop {
          var w' := ApplyAll(w, first.writes);
          IntakeTaskLegal(w, u);
          AllLegalKeeps(w, first.writes, true);
          IntakeStopsIff(w', i + 1);
          SameClear(w, w', i);
        }
      }
    }
  }

  lemma SameClear(w: World, w': World, i: nat)
    requires i < |w.order| && PlanOk(w) && OnlyTask(w, w', w.order[i]) && !NeedsReview(w, w.order[i])
    ensures Clear(w', i + 1, |w'.order|) <==> Clear(w, i, |w.order|)
  {
    hide NeedsReview;
    LaterOnly(w, i);
    InPlanAll(w);
    forall m | i + 1 <= m < |w.order| ensures NeedsReview(w', w.order[m]) <==> NeedsReview(w, w.order[m]) {
      SameJobSameOutcome(w, w', w', w.order[m]);
    }
    assert forall m :: i + 1 <= m < |w.order| ==> (IsRunning(w', w.order[m]) <==> IsRunning(w, w.order[m]));
  }

  // ---- the pass --------------------------------------------------------------------------------

  /** After intake a task that is not pending keeps its row to the end of the pass. */
  lemma RestLeavesNonPending(w: World, pass: Pass, size: Json -> nat, t: Uuid)
    requires GoalInv(w) && w.status == GRunning && !Intake(w, 0).stop
    requires t in AfterIntake(w).tasks && AfterIntake(w).tasks[t].status != TPending
    ensures t in AfterPass(w, pass, size).tasks
    ensures AfterPass(w, pass, size).tasks[t] == AfterIntake(w).tasks[t]
  {
    hide GoalInv, Intake, Block, Launch, Slots, Reconcile, AfterIntake, AfterPass;
    PassTasks(w, pass, size);
    BlockOnlyBlocks(AfterIntake(w), 0, false);
    BlockGives(w);
    LaunchedFrom(w, pass, size, t);
  }

  lemma BlockGives(w: World)
    ensures AfterBlock(w) == ApplyAll(AfterIntake(w), Block(AfterIntake(w), 0, false))
  {
  }

  /** Main theorem. A pass over a running goal takes up the outcomes of its running tasks in order. A good enough
      result completes its task with it, one that gave up or a job that ended otherwise fails it with its reason,
      and a job still at work leaves it alone. The first result that needs a reviewer escalates its task, pauses
      the goal, and is the end of the pass. */
  lemma PassTakesUp(w: World, pass: Pass, size: Json -> nat, k: nat)
    requires GoalInv(w) && w.status == GRunning && k < |w.order| && IsRunning(w, w.order[k]) && Clear(w, 0, k)
    ensures var v := AfterPass(w, pass, size);
      && TakenUp(w, v, w.order[k])
      && (NeedsReview(w, w.order[k]) ==>
            v.status == GPaused && EndsPaused(Reconcile(w, pass, size)) && SameRows(w, v, k)
            && v.jobs == w.jobs && v.events == w.events)
  {
    hide GoalInv, Intake, Block, Launch, Slots, Verdict, ApplyAll, TakenUp, NeedsReview, AfterLaunch, EndsPaused, SameRows;
    IntakeReaches(w, 0, k);
    IntakeLeavesAll(w);
    if Intake(w, 0).stop {
      StoppedPass(w, pass, size);
    } else {
      TakenUpRow(w, AfterIntake(w), w.order[k]);
      RestLeavesNonPending(w, pass, size, w.order[k]);
      SameRowSameOutcome(w, AfterIntake(w), AfterPass(w, pass, size), w.order[k]);
    }
  }

  lemma StoppedPass(w: World, pass: Pass, size: Json -> nat)
    requires w.status == GRunning && Intake(w, 0).stop
    ensures Reconcile(w, pass, size) == Intake(w, 0).writes
    ensures AfterPass(w, pass, size) == ApplyAll(w, Intake(w, 0).writes)
  {
    hide Intake, ApplyAll;
  }

  lemma IntakeLeavesAll(w: World)
    requires GoalInv(w)
    ensures var v := ApplyAll(w, Intake(w, 0).writes);
      && v.jobs == w.jobs && v.events == w.events && v.tasks.Keys == w.tasks.Keys
      && forall u :: u in w.tasks && !IsRunning(w, u) ==> v.tasks[u] == w.tasks[u]
  {
    hide GoalInv, Intake, ApplyAll;
    forall u | u in w.tasks && !IsRunning(w, u)
      ensures var v := ApplyAll(w, Intake(w, 0).writes); v.tasks.Keys == w.tasks.Keys && v.tasks[u] == w.tasks[u]
    {
      IntakeLeaves(w, 0, u);
    }
    IntakeLeavesRest(w, 0);
  }

  lemma {:induction false} IntakeLeavesRest(w: World, i: nat)
    requires GoalInv(w) && i <= |w.order|
    ensures var v := ApplyAll(w, Intake(w, i).writes); v.jobs == w.jobs && v.events == w.events && v.tasks.Keys == w.tasks.Keys
    decreases |w.order| - i
  {
    hide GoalInv, IntakeTask, TakenUp, NeedsReview, ApplyAll;
    if i == |w.order| {
      assert Intake(w, i) == Phase([], false);
      NoWrites(w);
    } else if !IsRunning(w, w.order[i]) {
      assert Intake(w, i) == Intake(w, i + 1);
      IntakeLeavesRest(w, i + 1);
    } else {
      var first := IntakeTask(w, w.order[i]);
      OneOutcome(w, w.order[i]);
      IntakeStep(w, i);
      if !first.stop {
        var w' := ApplyAll(w, first.writes);
        IntakeTaskLegal(w, w.order[i]);
        AllLegalKeeps(w, first.writes, true);
        IntakeLeavesRest(w', i + 1);
        ApplyAllAppend(w, first.writes, Intake(w', i + 1).writes);
      }
    }
  }

  lemma TakenUpRow(w: World, v: World, t: Uuid)
    requires GoalInv(w) && IsRunning(w, t) && TakenUp(w, v, t)
    ensures v.tasks[t].status != TPending
  {
    hide GoalInv, GoodEnough, GaveUp;
    ItsJob(w, t);
    if JobIs(w, t, Completed) { assert Returned(w, t, ResultOf(w, w.tasks[t].jobId.value)); }
  }

  /** A pass pauses the goal exactly when some running task needs a reviewer. */
  lemma PassPausesIff(w: World, pass: Pass, size: Json -> nat)
    requires GoalInv(w) && w.status == GRunning
    ensures AfterPass(w, pass, size).status == GPaused <==> exists t :: IsRunning(w, t) && NeedsReview(w, t)
  {
    hide GoalInv, Intake, ApplyAll, NeedsReview, Reconcile, AfterPass;
    PlanPart(w);
    IntakeStopsIff(w, 0);
    ClearMeansNone(w);
    if Intake(w, 0).stop {
      StoppedPass(w, pass, size);
      IntakeStopPauses(w, 0);
    } else {
      PassTasks(w, pass, size);
    }
  }

  lemma ClearMeansNone(w: World)
    requires PlanOk(w)
    ensures Clear(w, 0, |w.order|) <==> forall t :: IsRunning(w, t) ==> !NeedsReview(w, t)
  {
    hide NeedsReview;
    if Clear(w, 0, |w.order|) {
      forall t | IsRunning(w, t) ensures !NeedsReview(w, t) {
        InPlan(w, t);
        var m :| 0 <= m < |w.order| && w.order[m] == t;
      }
    }
  }
}
