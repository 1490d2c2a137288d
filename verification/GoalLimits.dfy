/** The per-goal concurrency limit holds throughout every run, wherever a pass is cut off. */
module GoalLimits {
  import opened Prelude
  import opened Contracts
  import opened Goals
  import Jobs
  import Substitution

  function Running(w: World): nat {
    |WithStatus(w, TRunning)|
  }

  /** The write does not set a task running. */
  predicate Quiet(write: Write) {
    write.UpdateTask? ==> write.patch.status != Set(TRunning)
  }

  predicate AllQuiet(writes: seq<Write>) {
    forall i :: 0 <= i < |writes| ==> Quiet(writes[i])
  }

  lemma QuietLowers(w: World, write: Write)
    requires Quiet(write)
    ensures Running(Apply(w, write)) <= Running(w)
  {
    hide Jobs.Apply, SamePlan;
    assert WithStatus(Apply(w, write), TRunning) <= WithStatus(w, TRunning);
    SubsetIsSmaller(WithStatus(Apply(w, write), TRunning), WithStatus(w, TRunning));
  }

  lemma {:induction false} AllQuietLower(w: World, writes: seq<Write>)
    requires AllQuiet(writes)
    ensures Running(ApplyAll(w, writes)) <= Running(w)
    decreases |writes|
  {
    hide Quiet, Running;
    if writes != [] {
      QuietLowers(w, writes[0]);
      AllQuietLower(Apply(w, writes[0]), writes[1..]);
    }
  }

  lemma TakeQuiet(writes: seq<Write>, cut: nat)
    requires AllQuiet(writes)
    ensures AllQuiet(Take(writes, cut))
  {
  }

  lemma TakeSplits(a: seq<Write>, b: seq<Write>, cut: nat)
    ensures Take(a + b, cut) == if cut < |a| then Take(a, cut) else a + Take(b, cut - |a|)
  {
    if |a| <= cut < |a + b| { assert (a + b)[..cut] == a + b[..cut - |a|]; }
    if cut < |a| { assert (a + b)[..cut] == a[..cut]; }
  }

  lemma {:induction false} IntakeIsQuiet(w: World, i: nat)
    requires i <= |w.order|
    ensures AllQuiet(Intake(w, i).writes)
    decreases |w.order| - i
  {
    hide TaskResult, Confidence, FailureText, ResultOf, FindJob, Apply, SamePlan;
    if i < |w.order| {
      var t := w.order[i];
      if t !in w.tasks || w.tasks[t].status != TRunning {
        IntakeIsQuiet(w, i + 1);
      } else if !IntakeTask(w, t).stop {
        var next := ApplyAll(w, IntakeTask(w, t).writes);
        KeepsOrder(w, next);
        IntakeIsQuiet(next, i + 1);
      }
    }
  }

  lemma {:induction false} BlockIsQuiet(w: World, i: nat, changed: bool)
    requires i <= |w.order|
    ensures AllQuiet(Block(w, i, changed))
    decreases WithStatus(w, TPending), changed, |w.order| - i
  {
    hide SamePlan;
    if i == |w.order| {
      if changed { BlockIsQuiet(w, 0, false); }
    } else {
      var t := w.order[i];
      if t in w.tasks && w.tasks[t].status == TPending && HasBlockingDep(w, t) {
        var w' := Apply(w, UpdateTask(t, BLOCKED));
        assert t in WithStatus(w, TPending) && t !in WithStatus(w', TPending);
        BlockIsQuiet(w', i + 1, true);
      } else {
        BlockIsQuiet(w, i + 1, changed);
      }
    }
  }

  function Free(slots: int): nat {
    if slots > 0 then slots else 0
  }

  lemma StartTakesOne(w: World, t: Uuid, p: Patch)
    ensures Running(Apply(w, UpdateTask(t, p))) <= Running(w) + 1
  {
    hide SamePlan;
    var after := WithStatus(Apply(w, UpdateTask(t, p)), TRunning);
    assert after <= WithStatus(w, TRunning) + {t};
    SubsetIsSmaller(after, WithStatus(w, TRunning) + {t});
  }

  /** Launching, cut off anywhere, starts no more tasks than there are slots. */
  lemma {:induction false} LaunchTakesSlots(w: World, i: nat, slots: int, now: Time, size: Json -> nat, cut: nat)
    requires i <= |w.order|
    ensures Running(ApplyAll(w, Take(Launch(w, i, slots, now, size), cut))) <= Running(w) + Free(slots)
    decreases |w.order| - i
  {
    hide Apply, Running, SamePlan, Substitution.ResolvePayload, EnqueueCall, EnqueuedJob, DepsComplete;
    NoWrites(w);
    if i < |w.order| && slots > 0 && cut > 0 {
      var t := w.order[i];
      if t !in w.tasks || w.tasks[t].status != TPending || !DepsComplete(w, t) {
        LaunchTakesSlots(w, i + 1, slots, now, size, cut);
      } else {
        match Substitution.ResolvePayload(w.tasks[t], w.tasks, size)
        case Err(_) =>
          var fail := UpdateTask(t, UNRESOLVED);
          var next := Apply(w, fail);
          KeepsOrder(w, next);
          QuietLowers(w, fail);
          LaunchTakesSlots(next, i + 1, slots, now, size, cut - 1);
          TakeSplits([fail], Launch(next, i + 1, slots, now, size), cut);
          ApplyAllAppend(w, [fail], Take(Launch(next, i + 1, slots, now, size), cut - 1));
          OneWrite(w, fail);
        case Ok(payload) =>
          LaunchOneTakesSlot(w, i, slots, now, size, cut, payload);
      }
    }
  }

  lemma LaunchOneTakesSlot(w: World, i: nat, slots: int, now: Time, size: Json -> nat, cut: nat, payload: Json)
    requires i < |w.order| && slots > 0 && cut > 0
    requires var t := w.order[i];
      t in w.tasks && w.tasks[t].status == TPending && DepsComplete(w, t)
      && Substitution.ResolvePayload(w.tasks[t], w.tasks, size) == Ok(payload)
    ensures Running(ApplyAll(w, Take(Launch(w, i, slots, now, size), cut))) <= Running(w) + Free(slots)
    decreases |w.order| - i, 0
  {
    hide Apply, Running, SamePlan, Substitution.ResolvePayload, EnqueueCall, EnqueuedJob, DepsComplete;
    var t := w.order[i];
    var enqueue, start := JobCall(EnqueueCall(w, t, payload), now), UpdateTask(t, StartPatch(EnqueuedJob(w, t), payload));
    var w1 := Apply(w, enqueue);
    var w2 := Apply(w1, start);
    KeepsOrder(w, w1);
    KeepsOrder(w1, w2);
    QuietLowers(w, enqueue);
    OneWrite(w, enqueue);
    TwoWrites(w, enqueue, start);
    var rest := Launch(w2, i + 1, slots - 1, now, size);
    TakeSplits([enqueue, start], rest, cut);
    if cut == 1 {
      assert Take([enqueue, start] + rest, cut) == [enqueue];
    } else {
      StartTakesOne(w1, t, start.patch);
      LaunchTakesSlots(w2, i + 1, slots - 1, now, size, cut - 2);
      ApplyAllAppend(w, [enqueue, start], Take(rest, cut - 2));
    }
  }

  lemma SlotsWithinLimit(w: World, pass: Pass, limit: nat)
    requires Running(w) <= limit && pass.perGoalLimit <= limit
    ensures Running(w) + Free(Slots(w, pass)) <= limit
  {
  }

  /** One pass, cut off anywhere, stays within the limit. */
  lemma PassStaysWithin(w: World, pass: Pass, size: Json -> nat, cut: nat, limit: nat)
    requires Running(w) <= limit && pass.perGoalLimit <= limit
    ensures Running(ApplyAll(w, Take(Reconcile(w, pass, size), cut))) <= limit
  {
    hide Intake, Block, Launch, Verdict, Apply, Running, Slots, Take;
    var a := Intake(w, 0).writes;
    IntakeIsQuiet(w, 0);
    AllQuietLower(w, a);
    CutQuiet(w, a, cut);
    NoWrites(w);
    NothingToTake(cut);
    if w.status == GRunning && !Intake(w, 0).stop {
      var w1, w2, w3 := AfterIntake(w), AfterBlock(w), AfterLaunch(w, pass, size);
      var b := Block(w1, 0, false);
      BlockIsQuiet(w1, 0, false);
      AllQuietLower(w1, b);
      var c := Launch(w2, 0, Slots(w2, pass), pass.now, size);
      SlotsWithinLimit(w2, pass, limit);
      WholeLaunch(w2, pass, size);
      VerdictIsQuiet(w3);
      PiecesStayWithin(w, a, b, c, Verdict(w3), cut, pass, size, limit);
    }
  }

  lemma CutQuiet(w: World, writes: seq<Write>, cut: nat)
    requires AllQuiet(writes)
    ensures Running(ApplyAll(w, Take(writes, cut))) <= Running(w)
  {
    hide Running, Apply;
    TakeQuiet(writes, cut);
    AllQuietLower(w, Take(writes, cut));
  }

  lemma NothingToTake(cut: nat)
    ensures Take([], cut) == []
  {
  }

  lemma WholeLaunch(w: World, pass: Pass, size: Json -> nat)
    ensures var c := Launch(w, 0, Slots(w, pass), pass.now, size);
      Running(ApplyAll(w, c)) <= Running(w) + Free(Slots(w, pass))
  {
    hide Launch, Running, Slots;
    var c := Launch(w, 0, Slots(w, pass), pass.now, size);
    LaunchTakesSlots(w, 0, Slots(w, pass), pass.now, size, |c|);
    assert Take(c, |c|) == c;
  }

  lemma VerdictIsQuiet(w: World)
    ensures AllQuiet(Verdict(w))
  {
  }

  lemma PiecesStayWithin(w: World, a: seq<Write>, b: seq<Write>, c: seq<Write>, d: seq<Write>, cut: nat,
                         pass: Pass, size: Json -> nat, limit: nat)
    requires AllQuiet(a) && AllQuiet(b) && AllQuiet(d) && Running(w) <= limit
    requires var w2 := ApplyAll(ApplyAll(w, a), b);
      && c == Launch(w2, 0, Slots(w2, pass), pass.now, size)
      && Running(w2) + Free(Slots(w2, pass)) <= limit && Running(ApplyAll(w2, c)) <= limit
    ensures Running(ApplyAll(w, Take(a + b + c + d, cut))) <= limit
  {
    hide Apply, Running, Slots, Launch, Take, AllQuiet;
    TakeSplits(a + b + c, d, cut);
    TakeSplits(a + b, c, cut);
    TakeSplits(a, b, cut);
    var w1 := ApplyAll(w, a);
    var w2 := ApplyAll(w1, b);
    AllQuietLower(w, a);
    ApplyAllAppend(w, a, b);
    ApplyAllAppend(w, a + b, c);
    if cut < |a| {
      CutQuiet(w, a, cut);
    } else if cut < |a + b| {
      CutQuiet(w1, b, cut - |a|);
      ApplyAllAppend(w, a, Take(b, cut - |a|));
    } else if cut < |a + b + c| {
      LaunchTakesSlots(w2, 0, Slots(w2, pass), pass.now, size, cut - |a + b|);
      ApplyAllAppend(w, a + b, Take(c, cut - |a + b|));
    } else {
      CutQuiet(ApplyAll(w2, c), d, cut - |a + b + c|);
      ApplyAllAppend(w, a + b + c, Take(d, cut - |a + b + c|));
    }
  }

  lemma StartStaysWithin(w: World, pass: Pass, size: Json -> nat, cut: nat, limit: nat)
    requires Running(w) <= limit && pass.perGoalLimit <= limit
    ensures Running(ApplyAll(w, Take(Start(w, pass, size), cut))) <= limit
  {
    hide Apply, Running, Reconcile, Take;
    NoWrites(w);
    NothingToTake(cut);
    if Startable(w.status) { AfterQuiet(w, RESUME, pass, size, cut, limit); }
  }

  /** Some quiet writes, then a pass. */
  lemma AfterQuiet(w: World, first: seq<Write>, pass: Pass, size: Json -> nat, cut: nat, limit: nat)
    requires AllQuiet(first) && Running(w) <= limit && pass.perGoalLimit <= limit
    ensures Running(ApplyAll(w, Take(first + Reconcile(ApplyAll(w, first), pass, size), cut))) <= limit
  {
    hide Apply, Running, Reconcile, Take;
    var w' := ApplyAll(w, first);
    AllQuietLower(w, first);
    CutQuiet(w, first, cut);
    TakeSplits(first, Reconcile(w', pass, size), cut);
    if cut >= |first| {
      PassStaysWithin(w', pass, size, cut - |first|, limit);
      ApplyAllAppend(w, first, Take(Reconcile(w', pass, size), cut - |first|));
    }
  }

  lemma ApproveStaysWithin(w: World, t: Uuid, pass: Pass, size: Json -> nat, cut: nat, limit: nat)
    requires Running(w) <= limit && pass.perGoalLimit <= limit
    ensures Running(ApplyAll(w, Take(Approve(w, t, pass, size), cut))) <= limit
  {
    hide Apply, Running, Start, Take;
    NoWrites(w);
    NothingToTake(cut);
    if Reviewable(w, t) {
      var accept := [ResolveReview(t, true), UpdateTask(t, APPROVED)];
      var w' := ApplyAll(w, accept);
      AllQuietLower(w, accept);
      CutQuiet(w, accept, cut);
      TakeSplits(accept, Start(w', pass, size), cut);
      if cut >= 2 {
        StartStaysWithin(w', pass, size, cut - 2, limit);
        ApplyAllAppend(w, accept, Take(Start(w', pass, size), cut - 2));
      }
    }
  }

  lemma {:induction false} CancelIsQuiet(w: World, i: nat, now: Time)
    requires i <= |w.order|
    ensures AllQuiet(CancelTasks(w, i, now))
    decreases |w.order| - i
  {
    hide Apply, SamePlan;
    if i < |w.order| && w.order[i] in w.tasks {
      var next := ApplyAll(w, CancelTask(w, w.order[i], now));
      KeepsOrder(w, next);
      CancelIsQuiet(next, i + 1, now);
    }
  }

  /** The limits of the passes a step makes. */
  predicate WithinLimit(step: Step, limit: nat) {
    match step
    case StartGoal(pass) => pass.perGoalLimit <= limit
    case ReconcileGoal(pass) => pass.perGoalLimit <= limit
    case ApproveTask(_, pass) => pass.perGoalLimit <= limit
    case _ => true
  }

  lemma StepStaysWithin(w: World, a: Attempted, size: Json -> nat, limit: nat)
    requires Running(w) <= limit && WithinLimit(a.step, limit)
    ensures Running(ApplyAll(w, Take(Writes(w, a.step, size), a.cut))) <= limit
  {
    hide Apply, Running, Reconcile, Start, Approve, Take, CancelTasks, Affected;
    match a.step
    case StartGoal(pass) => StartStaysWithin(w, pass, size, a.cut, limit);
    case ReconcileGoal(pass) => PassStaysWithin(w, pass, size, a.cut, limit);
    case ApproveTask(t, pass) => ApproveStaysWithin(w, t, pass, size, a.cut, limit);
    case CancelGoal(now) =>
      CancelIsQuiet(w, 0, now);
      CutQuiet(w, Writes(w, a.step, size), a.cut);
    case _ => CutQuiet(w, Writes(w, a.step, size), a.cut);
  }

  /** Main theorem. Over every run, crashes included, a goal never has more running tasks than the largest
      per-goal limit its passes used. */
  lemma {:induction false} RunsStayWithinLimit(w: World, run: seq<Attempted>, size: Json -> nat, limit: nat)
    requires Running(w) <= limit && forall i :: 0 <= i < |run| ==> WithinLimit(run[i].step, limit)
    ensures Running(RunGoal(w, run, size)) <= limit
    decreases |run|
  {
    hide Running, Writes, Take;
    if run != [] {
      StepStaysWithin(w, run[0], size, limit);
      RunsStayWithinLimit(ApplyAll(w, Take(Writes(w, run[0].step, size), run[0].cut)), run[1..], size, limit);
    }
  }
}
