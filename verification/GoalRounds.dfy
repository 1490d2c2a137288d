/** Rounds of a goal: passes that each follow the end of the running tasks' jobs bring the goal to its end. */
module GoalRounds {
  import opened Prelude
  import opened Contracts
  import opened Goals
  import opened GoalSafety
  import opened GoalProgress
  import Jobs
  import Planner

  /** What the workers and publishers do, and then one pass that is not cut off. */
  datatype Round = Round(before: seq<Attempted>, pass: Pass)

  predicate FromOutside(before: seq<Attempted>) {
    forall k :: 0 <= k < |before| ==> before[k].step.OutsideCall? || before[k].step.PublishReview?
  }

  ghost function AfterPass(w: World, pass: Pass, size: Json -> nat): World {
    ApplyAll(w, Reconcile(w, pass, size))
  }

  ghost function RunRounds(w: World, rounds: seq<Round>, size: Json -> nat): World
    decreases |rounds|
  {
    if rounds == [] then w
    else RunRounds(AfterPass(RunGoal(w, rounds[0].before, size), rounds[0].pass, size), rounds[1..], size)
  }

  /** The job of every running task has ended. */
  predicate JobsEnded(w: World) {
    forall t :: t in w.tasks && w.tasks[t].status == TRunning ==>
      FindJob(w, t).Some? && Terminal(w.jobs.jobs[FindJob(w, t).value].status)
  }

  predicate NoneEscalated(w: World) {
    forall t :: t in w.tasks ==> w.tasks[t].status != TEscalated
  }

  /** In a running goal the jobs of the running tasks end before the pass, the pass has a free slot, and it
      leaves no task waiting for a reviewer. */
  ghost predicate Productive(w: World, round: Round, size: Json -> nat) {
    var v := RunGoal(w, round.before, size);
    && FromOutside(round.before)
    && (v.status == GRunning ==>
          JobsEnded(v) && Slots(AfterBlock(v), round.pass) > 0 && NoneEscalated(AfterPass(v, round.pass, size)))
  }

  ghost predicate AllProductive(w: World, rounds: seq<Round>, size: Json -> nat)
    decreases |rounds|
  {
    rounds == []
    || (Productive(w, rounds[0], size)
        && AllProductive(AfterPass(RunGoal(w, rounds[0].before, size), rounds[0].pass, size), rounds[1..], size))
  }

  predicate Ended(w: World) {
    w.status == GComplete || w.status == GFailed
  }

  // ---- what comes before the pass ------------------------------------------------------

  lemma OutsideLeaves(w: World, a: Attempted, size: Json -> nat)
    requires a.step.OutsideCall? || a.step.PublishReview?
    ensures var w' := ApplyAll(w, Take(Writes(w, a.step, size), a.cut)); w'.tasks == w.tasks && w'.status == w.status
  {
    hide Jobs.Apply, AskedForReview, Outside;
    var writes := Writes(w, a.step, size);
    if |writes| == 1 { OneWrite(w, writes[0]); }
    NoWrites(w);
  }

  lemma {:induction false} BeforeLeaves(w: World, before: seq<Attempted>, size: Json -> nat)
    requires FromOutside(before)
    ensures RunGoal(w, before, size).tasks == w.tasks && RunGoal(w, before, size).status == w.status
    decreases |before|
  {
    hide Writes, Take, ApplyAll;
    if before != [] {
      OutsideLeaves(w, before[0], size);
      BeforeLeaves(ApplyAll(w, Take(Writes(w, before[0].step, size), before[0].cut)), before[1..], size);
    }
  }

  // ---- a pass that takes up an outcome ---------------------------------------------------

  lemma EndedJobIsTakenUp(w: World, t: Uuid)
    requires t in w.tasks && FindJob(w, t).Some? && Terminal(w.jobs.jobs[FindJob(w, t).value].status)
    ensures var ws := IntakeTask(w, t).writes; ws != [] && ws[0].UpdateTask? && ws[0].task == t
  {
    hide TaskResult, Confidence, FailureText;
  }

  lemma TaskWritesAppend(w: World, a: seq<Write>, b: seq<Write>)
    requires a != [] && a[0].UpdateTask? && a[0].task in w.tasks
    ensures TaskWrites(w, a + b) >= 1
  {
  }

  /** Intake begins with an update as soon as some running task from position `i` on has an ended job. */
  lemma {:induction false} IntakeUpdates(w: World, i: nat, t: Uuid)
    requires i <= |w.order| && t in w.order[i..] && t in w.tasks && w.tasks[t].status == TRunning && JobsEnded(w)
    ensures var ws := Intake(w, i).writes; ws != [] && ws[0].UpdateTask? && ws[0].task in w.tasks
    decreases |w.order| - i
  {
    hide IntakeTask, FindJob;
    var u := w.order[i];
    if u in w.tasks && w.tasks[u].status == TRunning {
      EndedJobIsTakenUp(w, u);
    } else {
      IntakeUpdates(w, i + 1, t);
    }
  }

  lemma ReconcileStartsWithIntake(w: World, pass: Pass, size: Json -> nat)
    requires w.status == GRunning
    ensures exists rest :: Reconcile(w, pass, size) == Intake(w, 0).writes + rest
  {
    hide Intake, Block, Launch, Verdict, ApplyAll;
    var a := Intake(w, 0).writes;
    if Intake(w, 0).stop {
      assert Reconcile(w, pass, size) == a + [];
    } else {
      var w1, w2, w3 := AfterIntake(w), AfterBlock(w), AfterLaunch(w, pass, size);
      var rest := Block(w1, 0, false) + Launch(w2, 0, Slots(w2, pass), pass.now, size) + Verdict(w3);
      assert Reconcile(w, pass, size) == a + rest;
    }
  }

  lemma PassWithOutcomeLowers(w: World, pass: Pass, size: Json -> nat, t: Uuid)
    requires GoalInv(w) && w.status == GRunning && JobsEnded(w) && t in w.tasks && w.tasks[t].status == TRunning
    ensures Measure(AfterPass(w, pass, size)) < Measure(w)
  {
    hide GoalInv, Intake, Reconcile, ApplyAll, JobsEnded, Measure, TaskWrites;
    PlanPart(w);
    InPlan(w, t);
    assert w.order[0..] == w.order;
    IntakeUpdates(w, 0, t);
    ReconcileStartsWithIntake(w, pass, size);
    var rest :| Reconcile(w, pass, size) == Intake(w, 0).writes + rest;
    TaskWritesAppend(w, Intake(w, 0).writes, rest);
    TakeAll(Reconcile(w, pass, size));
    PassLowersMeasure(w, pass, size, |Reconcile(w, pass, size)|);
  }

  lemma TakeAll(writes: seq<Write>)
    ensures Take(writes, |writes|) == writes
  {
  }

  // ---- a pass with nothing to take up --------------------------------------------------------

  lemma {:induction false} NothingRunning(w: World, i: nat)
    requires i <= |w.order| && WithStatus(w, TRunning) == {}
    ensures Intake(w, i) == Phase([], false)
    decreases |w.order| - i
  {
    if i < |w.order| {
      assert w.order[i] in w.tasks ==> w.order[i] !in WithStatus(w, TRunning);
      NothingRunning(w, i + 1);
    }
  }

  lemma PendingBefore(w: World, t: Uuid)
    requires WithStatus(w, TRunning) == {} && t in AfterBlock(w).tasks && AfterBlock(w).tasks[t].status == TPending
    ensures t in w.tasks && w.tasks[t].status == TPending
  {
    hide Block, Intake;
    NothingRunning(w, 0);
    NoWrites(w);
    BlockOnlyBlocks(w, 0, false);
  }

  /** The tasks a pass leaves are those it launched. */
  lemma PassTasks(w: World, pass: Pass, size: Json -> nat)
    requires GoalInv(w) && w.status == GRunning && !Intake(w, 0).stop
    ensures AfterPass(w, pass, size).tasks == AfterLaunch(w, pass, size).tasks
    ensures var s := AfterPass(w, pass, size).status; s == GRunning || s == GComplete || s == GFailed
  {
    hide GoalInv, Intake, Block, Launch, Verdict, Reconcile, AfterLaunch;
    PassEnds(w, pass, size);
    PassPhases(w, pass, size);
    IntakeLeavesStatus(w, 0);
    AfterLaunchRunning(w, pass, size);
    VerdictEnds(AfterLaunch(w, pass, size));
  }

  lemma PassWithoutOutcomeMoves(w: World, pass: Pass, size: Json -> nat, rank: map<Uuid, nat>)
    requires GoalInv(w) && w.status == GRunning && Planner.Ranked(w.tasks, rank) && WithStatus(w, TRunning) == {}
    requires Slots(AfterBlock(w), pass) > 0 && NoneEscalated(AfterPass(w, pass, size))
    requires AfterPass(w, pass, size).status == GRunning
    ensures AfterPass(w, pass, size).tasks != w.tasks
  {
    hide GoalInv, Intake, Reconcile, ApplyAll, Slots, AfterBlock, AfterLaunch;
    NothingRunning(w, 0);
    NoStall(w, pass, size, rank);
    PassTasks(w, pass, size);
    var w' := AfterPass(w, pass, size);
    if t :| t in w'.tasks && w'.tasks[t].status == TRunning {
      assert t !in WithStatus(w, TRunning);
    } else {
      var t :| FailedOnPayload(w, pass, size, t);
      PendingBefore(w, t);
    }
  }

  /** A productive pass ends the goal or lowers the measure. */
  lemma PassLowersOrEnds(w: World, pass: Pass, size: Json -> nat, rank: map<Uuid, nat>)
    requires GoalInv(w) && w.status == GRunning && Planner.Ranked(w.tasks, rank)
    requires JobsEnded(w) && Slots(AfterBlock(w), pass) > 0 && NoneEscalated(AfterPass(w, pass, size))
    ensures Ended(AfterPass(w, pass, size))
            || (AfterPass(w, pass, size).status == GRunning && Measure(AfterPass(w, pass, size)) < Measure(w))
  {
    hide GoalInv, Intake, Reconcile, ApplyAll, JobsEnded, Measure, Slots, AfterBlock, AfterLaunch;
    if Intake(w, 0).stop { StopEscalates(w, pass, size); }
    PassTasks(w, pass, size);
    if AfterPass(w, pass, size).status == GRunning {
      if t :| t in WithStatus(w, TRunning) {
        PassWithOutcomeLowers(w, pass, size, t);
      } else {
        PassWithoutOutcomeMoves(w, pass, size, rank);
        TakeAll(Reconcile(w, pass, size));
        PassLowersMeasure(w, pass, size, |Reconcile(w, pass, size)|);
      }
    }
  }

  /** A pass that stops during intake leaves an escalated task. */
  lemma StopEscalates(w: World, pass: Pass, size: Json -> nat)
    requires w.status == GRunning && Intake(w, 0).stop
    ensures !NoneEscalated(AfterPass(w, pass, size))
  {
    hide Intake, ApplyAll;
    var t := IntakeStopEscalates(w, 0);
  }

  lemma {:induction false} IntakeStopEscalates(w: World, i: nat) returns (t: Uuid)
    requires i <= |w.order| && Intake(w, i).stop
    ensures var w' := ApplyAll(w, Intake(w, i).writes); t in w'.tasks && w'.tasks[t].status == TEscalated
    decreases |w.order| - i
  {
    hide IntakeTask, ApplyAll, SamePlan;
    var u := w.order[i];
    if u !in w.tasks || w.tasks[u].status != TRunning {
      t := IntakeStopEscalates(w, i + 1);
    } else {
      var first := IntakeTask(w, u);
      if first.stop {
        StopIsEscalation(w, u);
        t := u;
      } else {
        KeepsOrder(w, ApplyAll(w, first.writes));
        t := IntakeStopEscalates(ApplyAll(w, first.writes), i + 1);
        ApplyAllAppend(w, first.writes, Intake(ApplyAll(w, first.writes), i + 1).writes);
      }
    }
  }

  lemma StopIsEscalation(w: World, t: Uuid)
    requires t in w.tasks && IntakeTask(w, t).stop
    ensures var w' := ApplyAll(w, IntakeTask(w, t).writes); t in w'.tasks && w'.tasks[t].status == TEscalated
  {
    hide TaskResult, Confidence, FailureText, ResultOf, Jobs.Apply;
    var ws := IntakeTask(w, t).writes;
    TwoWrites(w, ws[0], ws[1]);
    assert ws == [ws[0], ws[1]];
  }

  // ---- many rounds ------------------------------------------------------------------------------

  lemma ReconcileKeeps(w: World, pass: Pass, size: Json -> nat)
    requires GoalInv(w)
    ensures GoalInv(AfterPass(w, pass, size)) && SamePlan(w, AfterPass(w, pass, size))
  {
    hide GoalInv, Reconcile, AllLegal;
    ReconcileLegal(w, pass, size);
    AllLegalKeeps(w, Reconcile(w, pass, size), true);
  }

  lemma EndedStays(w: World, round: Round, size: Json -> nat)
    requires FromOutside(round.before) && Ended(w)
    ensures Ended(AfterPass(RunGoal(w, round.before, size), round.pass, size))
  {
    BeforeLeaves(w, round.before, size);
    NoWrites(RunGoal(w, round.before, size));
  }

  lemma {:induction false} EndedForGood(w: World, rounds: seq<Round>, size: Json -> nat)
    requires Ended(w) && AllProductive(w, rounds, size)
    ensures Ended(RunRounds(w, rounds, size))
    decreases |rounds|
  {
    hide AfterPass, RunGoal, Ended;
    if rounds != [] {
      EndedStays(w, rounds[0], size);
      EndedForGood(AfterPass(RunGoal(w, rounds[0].before, size), rounds[0].pass, size), rounds[1..], size);
    }
  }

  /** More productive rounds than the measure end the goal. */
  lemma {:induction false} RoundsEnd(w: World, rounds: seq<Round>, size: Json -> nat, rank: map<Uuid, nat>)
    requires GoalInv(w) && w.status == GRunning && Planner.Ranked(w.tasks, rank)
    requires AllProductive(w, rounds, size) && |rounds| > Measure(w)
    ensures Ended(RunRounds(w, rounds, size))
    decreases |rounds|
  {
    hide GoalInv, AfterPass, RunGoal, Ended, JobsEnded, Slots, AfterBlock, NoneEscalated, SamePlan, FromOutside;
    var round := rounds[0];
    var v := RunGoal(w, round.before, size);
    var next := AfterPass(v, round.pass, size);
    BeforeLeaves(w, round.before, size);
    SameMeasure(w, v);
    RunKeeps(w, round.before, size);
    PassLowersOrEnds(v, round.pass, size, rank);
    ReconcileKeeps(v, round.pass, size);
    RankCarries(v, next, rank);
    if Ended(next) { EndedForGood(next, rounds[1..], size); } else { RoundsEnd(next, rounds[1..], size, rank); }
  }

  lemma SameMeasure(w: World, w': World)
    requires w'.tasks == w.tasks
    ensures Measure(w') == Measure(w)
  {
    assert WithStatus(w', TPending) == WithStatus(w, TPending) && WithStatus(w', TRunning) == WithStatus(w, TRunning);
  }

  /** Main theorem. Whatever happened to a goal of n tasks since its plan was accepted, if it is running then
      more than 2n rounds complete or fail it, as long as the jobs of the running tasks end before each pass,
      each pass has a free slot, and none escalates. */
  lemma RunningGoalsEnd(w: World, run: seq<Attempted>, rounds: seq<Round>, size: Json -> nat, rank: map<Uuid, nat>)
    requires Fresh(w) && Planner.Ranked(w.tasks, rank) && RunGoal(w, run, size).status == GRunning
    requires AllProductive(RunGoal(w, run, size), rounds, size) && |rounds| > 2 * |w.tasks|
    ensures Ended(RunRounds(RunGoal(w, run, size), rounds, size))
  {
    hide GoalInv, Fresh, RunGoal, AllProductive, Measure, Ended;
    FreshIsGood(w);
    RunKeeps(w, run, size);
    RunSamePlan(w, run, size);
    var v := RunGoal(w, run, size);
    RankCarries(w, v, rank);
    MeasureBounded(v);
    assert v.tasks.Keys == w.tasks.Keys;
    RoundsEnd(v, rounds, size, rank);
  }
}
