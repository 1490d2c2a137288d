/** Runs of a goal in which the code falls short: an early acceptance, one that is cut off, and a late rerun. */
module GoalScenarios {
  import opened Prelude
  import opened Contracts
  import opened Goals
  import opened GoalSafety
  import opened FirstJob
  import GoalReviews
  import Jobs
  import JobInvariant
  import Substitution

  // ---- a goal with two tasks, the second of which depends on the first -----------------------

  const PASS := Pass(1, 1, 0, 0.0)
  const SIZE: Json -> nat := (_: Json) => 0
  const WHOLE := 100
  const NOTHING := Dict([])

  function NewTask(dependsOn: seq<Uuid>): PlannedTask {
    PlannedTask(0, "skill", NOTHING, dependsOn, TPending, None, None, None, None, None)
  }

  function LaunchedTask(dependsOn: seq<Uuid>, j: Uuid): PlannedTask {
    NewTask(dependsOn).(status := TRunning, jobId := Some(j), resolved := Some(NOTHING))
  }

  function GoalAt(status: GoalStatus, a: PlannedTask, b: PlannedTask, events: seq<Event>, jobs: Jobs.Db,
                  reviews: map<Uuid, ReviewStatus>): World {
    World(9, status, 0.5, "", [1, 2], map[1 := a, 2 := b], events, jobs, reviews)
  }

  /** As its plan leaves it. */
  const PLAN := GoalAt(GReady, NewTask([]), NewTask([1]), [], Jobs.EMPTY, map[])

  const RESUMED := [Event("resume", [])]

  const RESUMING := GoalAt(GRunning, NewTask([]), NewTask([1]), RESUMED, Jobs.EMPTY, map[])

  const INPUT := TaskInput(1, GoalOrigin(9), "skill", NOTHING, 0.5, "")

  function Open(status: GoalStatus, events: seq<Event>, jobs: Jobs.Db, reviews: map<Uuid, ReviewStatus>): World {
    GoalAt(status, LaunchedTask([], 0), NewTask([1]), events, jobs, reviews)
  }

  lemma PlanIsFresh()
    ensures Fresh(PLAN)
  {
    JobInvariant.EmptyIsConsistent();
  }

  /** One more step at the end of a run that leads to `v`. */
  lemma {:induction false} RunOneMore(w: World, run: seq<Attempted>, a: Attempted, v: World)
    requires RunGoal(w, run, SIZE) == v
    ensures RunGoal(w, run + [a], SIZE) == ApplyAll(v, Take(Writes(v, a.step, SIZE), a.cut))
    decreases |run|
  {
    hide Writes, Take, ApplyAll;
    if run == [] {
      assert run + [a] == [a];
      assert RunGoal(w, [a], SIZE) == RunGoal(ApplyAll(w, Take(Writes(w, a.step, SIZE), a.cut)), [a][1..], SIZE);
    } else {
      assert (run + [a])[1..] == run[1..] + [a];
      RunOneMore(ApplyAll(w, Take(Writes(w, run[0].step, SIZE), run[0].cut)), run[1..], a, v);
    }
  }

  /** The two writes that launch task `t` when its payload needs no resolving. */
  function LaunchOf(w: World, t: Uuid): seq<Write>
    requires t in w.tasks
  {
    [JobCall(EnqueueCall(w, t, NOTHING), 0.0), UpdateTask(t, StartPatch(EnqueuedJob(w, t), NOTHING))]
  }

  /** The last free slot goes to the first task that is ready. */
  lemma LaunchesFirstReady(w: World, i: nat)
    requires i < |w.order| && w.order[i] in w.tasks && w.tasks[w.order[i]].payload == NOTHING
    requires w.tasks[w.order[i]].status == TPending && DepsComplete(w, w.order[i])
    ensures Launch(w, i, 1, 0.0, SIZE) == LaunchOf(w, w.order[i])
  {
    hide Apply, EnqueueCall, EnqueuedJob, StartPatch, DepsComplete;
    var t := w.order[i];
    assert Substitution.ResolvePayload(w.tasks[t], w.tasks, SIZE) == Ok(NOTHING);
    var launch := LaunchOf(w, t);
    var next := Apply(Apply(w, launch[0]), launch[1]);
    KeepsOrder(w, Apply(w, launch[0]));
    KeepsOrder(Apply(w, launch[0]), next);
    assert Launch(next, i + 1, 0, 0.0, SIZE) == [];
    assert launch + [] == launch;
  }

  lemma ResumesPlan()
    ensures ApplyAll(PLAN, RESUME) == RESUMING
  {
    TwoWrites(PLAN, RESUME[0], RESUME[1]);
    assert RESUME == [RESUME[0], RESUME[1]];
  }

  lemma NothingToTakeUp(w: World)
    requires w.order == [1, 2] && w.tasks.Keys == {1, 2} && forall t :: t in w.tasks ==> w.tasks[t].status != TRunning
    ensures Intake(w, 0) == Phase([], false)
  {
    assert Intake(w, 2) == Phase([], false);
    assert Intake(w, 1) == Phase([], false);
  }

  lemma NothingToBlock(w: World)
    requires w.order == [1, 2] && w.tasks.Keys == {1, 2} && forall t :: t in w.tasks ==> !Blocking(w.tasks[t].status)
    ensures Block(w, 0, false) == []
  {
    assert Block(w, 2, false) == [];
    assert Block(w, 1, false) == [];
  }

  /** A pass that takes up `taken`, blocks nothing, launches `launch` and leaves the goal open. */
  lemma PassIs(w: World, taken: seq<Write>, w1: World, launch: seq<Write>, v: World)
    requires w.status == GRunning && Intake(w, 0) == Phase(taken, false) && ApplyAll(w, taken) == w1
    requires Block(w1, 0, false) == [] && Slots(w1, PASS) == 1
    requires Launch(w1, 0, 1, 0.0, SIZE) == launch && ApplyAll(w1, launch) == v && Verdict(v) == []
    ensures ApplyAll(w, Reconcile(w, PASS, SIZE)) == v && Reconcile(w, PASS, SIZE) == taken + launch
  {
    hide Apply, ApplyAll, Launch, Block, Intake, Slots, Verdict;
    NoWrites(w1);
    assert AfterBlock(w) == w1;
    assert Reconcile(w, PASS, SIZE) == taken + [] + launch + [] == taken + launch;
    ApplyAllAppend(w, taken, launch);
  }

  lemma FirstLaunch()
    ensures var jobs := Enqueued(INPUT, TaskKey(9, 1));
      ApplyAll(RESUMING, LaunchOf(RESUMING, 1)) == Open(GRunning, RESUMED, jobs, map[])
  {
    var launch := LaunchOf(RESUMING, 1);
    TwoWrites(RESUMING, launch[0], launch[1]);
  }

  lemma OneSlot(w: World)
    requires forall t :: t in w.tasks ==> w.tasks[t].status != TRunning
    ensures Slots(w, PASS) == 1
  {
    assert WithStatus(w, TRunning) == {};
  }

  lemma StillOpen(w: World, t: Uuid)
    requires t in w.tasks && w.tasks[t].status == TRunning
    ensures Verdict(w) == []
  {
  }

  lemma PlanStarts()
    ensures var v := Open(GRunning, RESUMED, Enqueued(INPUT, TaskKey(9, 1)), map[]);
      ApplyAll(PLAN, Take(Writes(PLAN, StartGoal(PASS), SIZE), WHOLE)) == v
  {
    hide Apply, ApplyAll, Reconcile, Launch, Block, Intake, Slots, Verdict, Enqueued, LaunchOf;
    var v := Open(GRunning, RESUMED, Enqueued(INPUT, TaskKey(9, 1)), map[]);
    ResumesPlan();
    NothingToTakeUp(RESUMING);
    NothingToBlock(RESUMING);
    OneSlot(RESUMING);
    LaunchesFirstReady(RESUMING, 0);
    FirstLaunch();
    StillOpen(v, 1);
    NoWrites(RESUMING);
    PassIs(RESUMING, [], RESUMING, LaunchOf(RESUMING, 1), v);
    LaunchIsTwo(RESUMING, 1);
    assert [] + LaunchOf(RESUMING, 1) == LaunchOf(RESUMING, 1);
    ApplyAllAppend(PLAN, RESUME, LaunchOf(RESUMING, 1));
  }

  lemma LaunchIsTwo(w: World, t: Uuid)
    requires t in w.tasks
    ensures |LaunchOf(w, t)| == 2
  {
  }

  lemma CallIs(w: World, call: Jobs.Call, now: Time)
    requires !call.Enqueue?
    ensures ApplyAll(w, Take(Writes(w, OutsideCall(call, now), SIZE), WHOLE)) == w.(jobs := Jobs.Apply(w.jobs, call, now))
  {
    hide Jobs.Apply;
    OneWrite(w, JobCall(call, now));
  }

  /** The first task is launched, and its job is claimed and returns `r`, before any further pass. */
  function Begun(r: JobResult): seq<Attempted> {
    [Attempted(StartGoal(PASS), WHOLE), Attempted(OutsideCall(CLAIM, 1.0), WHOLE),
     Attempted(OutsideCall(Completing(r), 2.0), WHOLE)]
  }

  ghost function JobEnded(r: JobResult): Jobs.Db {
    Finished(INPUT, TaskKey(9, 1), r)
  }

  lemma BegunLeads(r: JobResult)
    ensures RunGoal(PLAN, Begun(r), SIZE) == Open(GRunning, RESUMED, JobEnded(r), map[])
  {
    hide Writes, Take, ApplyAll, Jobs.Apply, Enqueued, Claimed;
    var run := Begun(r);
    PlanStarts();
    var w1 := Open(GRunning, RESUMED, Enqueued(INPUT, TaskKey(9, 1)), map[]);
    FirstJobIsClaimed(INPUT, TaskKey(9, 1));
    CallIs(w1, CLAIM, 1.0);
    var w2 := Open(GRunning, RESUMED, Claimed(INPUT, TaskKey(9, 1)), map[]);
    CallIs(w2, Completing(r), 2.0);
    assert RunGoal(PLAN, [], SIZE) == PLAN;
    RunOneMore(PLAN, [], run[0], PLAN);
    RunOneMore(PLAN, [] + [run[0]], run[1], w1);
    RunOneMore(PLAN, [] + [run[0]] + [run[1]], run[2], w2);
    assert run == [] + [run[0]] + [run[1]] + [run[2]];
  }

  // ---- accepted too early ------------------------------------------------------------------------

  const ASKS := JobResult("escalated", Some(0.2), None, [], Some(Dict([Entry("answer", Num(1.0))])), NOTHING)

  /** The goal is paused before a pass has seen that the job escalated; its review is published meanwhile. */
  const EARLY := Begun(ASKS) + [Attempted(PauseGoal, WHOLE), Attempted(PublishReview(1), WHOLE)]

  const HELD := RESUMED + [Event("pause", [])]

  lemma PauseIs(jobs: Jobs.Db)
    ensures var w := Open(GRunning, RESUMED, jobs, map[]);
      ApplyAll(w, Take(Writes(w, PauseGoal, SIZE), WHOLE)) == Open(GPaused, HELD, jobs, map[])
  {
    var w := Open(GRunning, RESUMED, jobs, map[]);
    TwoWrites(w, SetStatus(GPaused), RecordEvent(Event("pause", [])));
  }

  lemma ReviewIs()
    ensures var w := Open(GPaused, HELD, JobEnded(ASKS), map[]);
      ApplyAll(w, Take(Writes(w, PublishReview(1), SIZE), WHOLE))
      == Open(GPaused, HELD, JobEnded(ASKS), map[1 := ReviewPending])
  {
    hide Finished;
    FirstJobFinishes(INPUT, TaskKey(9, 1), ASKS);
    OneWrite(Open(GPaused, HELD, JobEnded(ASKS), map[]), AddReview(1));
  }

  lemma EarlyLeads()
    ensures RunGoal(PLAN, EARLY, SIZE) == Open(GPaused, HELD, JobEnded(ASKS), map[1 := ReviewPending])
  {
    hide Writes, Take, ApplyAll, JobEnded, Begun;
    BegunLeads(ASKS);
    PauseIs(JobEnded(ASKS));
    ReviewIs();
    var run := Begun(ASKS);
    var pause, publish := Attempted(PauseGoal, WHOLE), Attempted(PublishReview(1), WHOLE);
    RunOneMore(PLAN, run, pause, Open(GRunning, RESUMED, JobEnded(ASKS), map[]));
    RunOneMore(PLAN, run + [pause], publish, Open(GPaused, HELD, JobEnded(ASKS), map[]));
    assert EARLY == run + [pause] + [publish];
  }

  /** The failing input: a reviewer accepts the first task after EARLY. From then on the task is complete
      without a result for ever, although its job committed one. */
  lemma EarlyAcceptanceLosesTheResult(pass: Pass, cut: nat, later: seq<Attempted>)
    requires cut >= 2
    ensures Fresh(PLAN) && Reviewable(RunGoal(PLAN, EARLY, SIZE), 1)
    ensures var w := RunGoal(PLAN, EARLY, SIZE);
      var v := RunGoal(ApplyAll(w, Take(Approve(w, 1, pass, SIZE), cut)), later, SIZE);
      && HasJob(w, 1) && w.jobs.idempotency[KeyOf(w, 1)] in w.jobs.outputs && Committed(w, 1) == ASKS
      && 1 in v.tasks && v.tasks[1].status == TComplete && v.tasks[1].result == None
  {
    hide Writes, Take, ApplyAll, Finished, Approve, Fresh;
    PlanIsFresh();
    EarlyLeads();
    FirstJobFinishes(INPUT, TaskKey(9, 1), ASKS);
    var w := RunGoal(PLAN, EARLY, SIZE);
    assert Reviewable(w, 1);
    AcceptedHoldsResultIffTakenUp(PLAN, EARLY, 1, pass, cut, later, SIZE);
  }

  /** A further failing input: the same acceptance, cut off after its first write. The review is accepted and
      used up, and the task never completes. */
  lemma CutAcceptanceStrandsTask(pass: Pass, later: seq<Attempted>)
    ensures Fresh(PLAN) && Reviewable(RunGoal(PLAN, EARLY, SIZE), 1)
    ensures var w := RunGoal(PLAN, EARLY, SIZE);
      var v := RunGoal(ApplyAll(w, Take(Approve(w, 1, pass, SIZE), 1)), later, SIZE);
      && 1 in v.tasks && v.tasks[1].status != TComplete && 1 in v.reviews && v.reviews[1] == ReviewAccepted
  {
    hide Writes, Take, ApplyAll, Finished, Approve, Fresh;
    PlanIsFresh();
    EarlyLeads();
    assert Reviewable(RunGoal(PLAN, EARLY, SIZE), 1);
    GoalReviews.CutAcceptanceIsForEver(PLAN, EARLY, 1, pass, later, SIZE);
  }

  // ---- rerun although relied on -----------------------------------------------------------------------

  const DONE := JobResult("complete", Some(1.0), None, [], None, NOTHING)

  /** A pass takes up the complete outcome and launches the second task. */
  const SECOND := Begun(DONE) + [Attempted(ReconcileGoal(PASS), WHOLE)]

  const TAKEN_UP := LaunchedTask([], 0).(status := TComplete, confidence := Some(1.0), result := Some(NOTHING))

  ghost function Half(): World {
    GoalAt(GRunning, TAKEN_UP, NewTask([1]), RESUMED, JobEnded(DONE), map[])
  }

  lemma OutcomeIs()
    ensures var w := Open(GRunning, RESUMED, JobEnded(DONE), map[]);
      var first := IntakeTask(w, 1);
      !first.stop && |first.writes| == 1 && ApplyAll(w, first.writes) == Half()
  {
    hide Finished;
    FirstJobFinishes(INPUT, TaskKey(9, 1), DONE);
    var w := Open(GRunning, RESUMED, JobEnded(DONE), map[]);
    var p := NO_CHANGE.(status := Set(TComplete), confidence := Set(Some(1.0)), result := Set(Some(NOTHING)));
    assert IntakeTask(w, 1) == Phase([UpdateTask(1, p)], false);
    OneWrite(w, UpdateTask(1, p));
  }

  lemma TakesUp() returns (taken: seq<Write>)
    ensures var w := Open(GRunning, RESUMED, JobEnded(DONE), map[]);
      Intake(w, 0) == Phase(taken, false) && ApplyAll(w, taken) == Half() && |taken| == 1
  {
    hide JobEnded, IntakeTask, ApplyAll;
    OutcomeIs();
    var w := Open(GRunning, RESUMED, JobEnded(DONE), map[]);
    taken := IntakeTask(w, 1).writes;
    NothingToTakeUp(Half());
    assert Intake(Half(), 0) == Intake(Half(), 1);
    assert taken + [] == taken;
  }

  lemma SecondIsLaunched()
    ensures var v := ApplyAll(Half(), LaunchOf(Half(), 2));
      v.tasks.Keys == {1, 2} && v.tasks[2] == LaunchedTask([1], EnqueuedJob(Half(), 2)) && v.tasks[1] == TAKEN_UP
  {
    hide Jobs.Apply, JobEnded, EnqueueCall, EnqueuedJob, SamePlan;
    var launch := LaunchOf(Half(), 2);
    TwoWrites(Half(), launch[0], launch[1]);
    assert Apply(Half(), launch[0]).tasks == Half().tasks;
  }

  lemma SecondPass()
    ensures var w := Open(GRunning, RESUMED, JobEnded(DONE), map[]);
      ApplyAll(w, Reconcile(w, PASS, SIZE)) == ApplyAll(Half(), LaunchOf(Half(), 2)) && |Reconcile(w, PASS, SIZE)| == 3
  {
    hide Apply, ApplyAll, Launch, Block, Intake, Slots, Verdict, Reconcile, JobEnded, LaunchOf;
    var w := Open(GRunning, RESUMED, JobEnded(DONE), map[]);
    var taken := TakesUp();
    NothingToBlock(Half());
    OneSlot(Half());
    SkipsFirst();
    SecondIsLaunched();
    var v := ApplyAll(Half(), LaunchOf(Half(), 2));
    StillOpen(v, 2);
    PassIs(w, taken, Half(), LaunchOf(Half(), 2), v);
    LaunchIsTwo(Half(), 2);
  }

  lemma SecondLeads()
    ensures RunGoal(PLAN, SECOND, SIZE) == ApplyAll(Half(), LaunchOf(Half(), 2))
  {
    hide ApplyAll, RunGoal, Reconcile, JobEnded, LaunchOf, Begun, Half;
    BegunLeads(DONE);
    SecondPass();
    RunOneMore(PLAN, Begun(DONE), Attempted(ReconcileGoal(PASS), WHOLE), Open(GRunning, RESUMED, JobEnded(DONE), map[]));
  }

  lemma SkipsFirst()
    ensures Launch(Half(), 0, 1, 0.0, SIZE) == LaunchOf(Half(), 2)
  {
    hide LaunchOf, JobEnded;
    LaunchesFirstReady(Half(), 1);
  }

  /** The failing input: after SECOND the first task may be rerun, and a rerun, with whatever payload,
      leaves the second one running on an incomplete dependency. */
  lemma RerunBreaksDependencySafety(payload: Json, now: Time)
    ensures var w := RunGoal(PLAN, SECOND, SIZE);
      && Fresh(PLAN) && 1 in w.tasks && Rerunnable(w.tasks[1].status) && ReliedOn(w, 1)
      && DependencySafe(w) && !DependencySafe(ApplyAll(w, Rerun(w, 1, payload, now)))
  {
    hide Writes, Take, ApplyAll, JobEnded, Rerun, Fresh, GoalInv, DependencySafe, LaunchOf;
    PlanIsFresh();
    FreshIsGood(PLAN);
    RunKeeps(PLAN, SECOND, SIZE);
    RunsAreDependencySafe(PLAN, SECOND, SIZE);
    SecondLeads();
    SecondIsLaunched();
    var w := RunGoal(PLAN, SECOND, SIZE);
    assert 2 in w.tasks && 1 in w.tasks[2].dependsOn && Launched(w.tasks[2].status);
    RerunIsSafeUnlessReliedOn(w, 1, payload, now);
  }
}
