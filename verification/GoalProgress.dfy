/** What one reconcile pass achieves: exact blocking, a falling measure, and no stall. */
module GoalProgress {
  import opened Prelude
  import opened Contracts
  import opened Goals
  import opened GoalSafety
  import JobInvariant
  import Jobs
  import Substitution
  import Planner

  // ---- the measure ------------------------------------------------------------

  function Measure(w: World): nat {
    2 * |WithStatus(w, TPending)| + |WithStatus(w, TRunning)|
  }

  lemma OthersKeepStatus(w: World, w': World, t: Uuid, s: TaskStatus)
    requires t in w.tasks && t in w'.tasks && w'.tasks == w.tasks[t := w'.tasks[t]]
    ensures WithStatus(w', s) - {t} == WithStatus(w, s) - {t}
  {
  }

  lemma SizeWith(a: set<Uuid>, t: Uuid)
    ensures |a| == |a - {t}| + if t in a then 1 else 0
  {
    if t in a { assert a == (a - {t}) + {t}; } else { assert a == a - {t}; }
  }

  lemma StatusSetOfChange(w: World, w': World, t: Uuid, s: TaskStatus)
    requires t in w.tasks && t in w'.tasks && w'.tasks == w.tasks[t := w'.tasks[t]]
    ensures |WithStatus(w', s)| + (if w.tasks[t].status == s then 1 else 0)
            == |WithStatus(w, s)| + (if w'.tasks[t].status == s then 1 else 0)
  {
    OthersKeepStatus(w, w', t, s);
    SizeWith(WithStatus(w, s), t);
    SizeWith(WithStatus(w', s), t);
  }

  lemma StatusSetOfUpdate(w: World, t: Uuid, p: Patch, s: TaskStatus)
    requires t in w.tasks
    ensures var w' := Apply(w, UpdateTask(t, p));
      |WithStatus(w', s)| + (if w.tasks[t].status == s then 1 else 0)
      == |WithStatus(w, s)| + (if Patched(w.tasks[t], p).status == s then 1 else 0)
  {
    hide SamePlan, WithStatus, Patched;
    StatusSetOfChange(w, Apply(w, UpdateTask(t, p)), t, s);
  }

  lemma MeasureOfUpdate(w: World, t: Uuid, p: Patch)
    requires t in w.tasks
    ensures Measure(Apply(w, UpdateTask(t, p))) + Weight(w.tasks[t].status)
            == Measure(w) + Weight(Patched(w.tasks[t], p).status)
  {
    StatusSetOfUpdate(w, t, p, TPending);
    StatusSetOfUpdate(w, t, p, TRunning);
  }

  lemma MeasureBounded(w: World)
    ensures Measure(w) <= 2 * |w.tasks|
  {
    var p, r := WithStatus(w, TPending), WithStatus(w, TRunning);
    assert p !! r && p + r <= w.tasks.Keys;
    assert |p + r| == |p| + |r|;
    SubsetIsSmaller(p + r, w.tasks.Keys);
  }

  /** How many of the writes change the status of a task of the plan. */
  function TaskWrites(w: World, writes: seq<Write>): nat
    decreases |writes|
  {
    if writes == [] then 0
    else (if writes[0].UpdateTask? && writes[0].task in w.tasks then 1 else 0) + TaskWrites(w, writes[1..])
  }

  lemma MeasureOfLegal(w: World, write: Write, strict: bool)
    requires Legal(w, write, strict)
    ensures Measure(Apply(w, write)) <= Measure(w)
    ensures strict && write.UpdateTask? && write.task in w.tasks ==> Measure(Apply(w, write)) < Measure(w)
  {
    hide Jobs.Apply;
    if write.UpdateTask? && write.task in w.tasks {
      MeasureOfUpdate(w, write.task, write.patch);
    } else {
      var w' := Apply(w, write);
      assert WithStatus(w', TPending) == WithStatus(w, TPending) && WithStatus(w', TRunning) == WithStatus(w, TRunning);
    }
  }

  lemma {:induction false} TaskWritesSame(w: World, w': World, writes: seq<Write>)
    requires w'.tasks.Keys == w.tasks.Keys
    ensures TaskWrites(w', writes) == TaskWrites(w, writes)
    decreases |writes|
  {
    if writes != [] { TaskWritesSame(w, w', writes[1..]); }
  }

  lemma {:induction false} LegalNeverRaises(w: World, writes: seq<Write>, strict: bool)
    requires AllLegal(w, writes, strict)
    ensures Measure(ApplyAll(w, writes)) + (if strict then TaskWrites(w, writes) else 0) <= Measure(w)
    decreases |writes|
  {
    hide Legal, Measure;
    if writes != [] {
      MeasureOfLegal(w, writes[0], strict);
      LegalNeverRaises(Apply(w, writes[0]), writes[1..], strict);
      TaskWritesSame(w, Apply(w, writes[0]), writes[1..]);
    }
  }

  lemma {:induction false} NoTaskWrites(w: World, writes: seq<Write>)
    requires TaskWrites(w, writes) == 0
    ensures ApplyAll(w, writes).tasks == w.tasks
    decreases |writes|
  {
    hide Jobs.Apply;
    if writes != [] {
      TaskWritesSame(w, Apply(w, writes[0]), writes[1..]);
      NoTaskWrites(Apply(w, writes[0]), writes[1..]);
    }
  }

  /** Each task update of a pass, wherever it is cut off, lowers 2 * pending + running; so the measure
      falls strictly whenever the pass changed anything about a task. */
  lemma PassLowersMeasure(w: World, pass: Pass, size: Json -> nat, cut: nat)
    requires GoalInv(w)
    ensures var writes := Take(Reconcile(w, pass, size), cut);
      var w' := ApplyAll(w, writes);
      && Measure(w') + TaskWrites(w, writes) <= Measure(w)
      && (w'.tasks != w.tasks ==> Measure(w') < Measure(w))
  {
    hide GoalInv, AllLegal, Reconcile, Measure;
    var all := Reconcile(w, pass, size);
    ReconcileLegal(w, pass, size);
    if cut < |all| { AllLegalPrefix(w, all, cut, true); }
    var writes := Take(all, cut);
    LegalNeverRaises(w, writes, true);
    if TaskWrites(w, writes) == 0 { NoTaskWrites(w, writes); }
  }

  /** How many of the writes update task `t`. */
  function UpdatesOf(writes: seq<Write>, t: Uuid): nat
    decreases |writes|
  {
    if writes == [] then 0 else (if writes[0].UpdateTask? && writes[0].task == t then 1 else 0) + UpdatesOf(writes[1..], t)
  }

  lemma LegalLowersWeight(w: World, write: Write, strict: bool, t: Uuid)
    requires t in w.tasks && Legal(w, write, strict)
    ensures Weight(Apply(w, write).tasks[t].status) + (if strict && write.UpdateTask? && write.task == t then 1 else 0)
            <= Weight(w.tasks[t].status)
  {
    hide Jobs.Apply, SamePlan, DepsComplete, Earned, ResultFits;
  }

  lemma {:induction false} LegalPays(w: World, writes: seq<Write>, strict: bool, t: Uuid)
    requires t in w.tasks && AllLegal(w, writes, strict)
    ensures Weight(ApplyAll(w, writes).tasks[t].status) + (if strict then UpdatesOf(writes, t) else 0)
            <= Weight(w.tasks[t].status)
    decreases |writes|
  {
    hide Legal, Weight;
    if writes != [] {
      LegalLowersWeight(w, writes[0], strict, t);
      LegalPays(Apply(w, writes[0]), writes[1..], strict, t);
    }
  }

  /** The updates of task `t` that a step makes, except the one that records a reviewer's verdict. */
  ghost function PassUpdates(w: World, a: Attempted, size: Json -> nat, t: Uuid): nat {
    var writes := Take(Writes(w, a.step, size), a.cut);
    match a.step
    case ApproveTask(_, _) => if |writes| >= 2 then UpdatesOf(writes[2..], t) else 0
    case RejectTask(_) => 0
    case _ => UpdatesOf(writes, t)
  }

  ghost function AllPassUpdates(w: World, run: seq<Attempted>, size: Json -> nat, t: Uuid): nat
    decreases |run|
  {
    if run == [] then 0
    else PassUpdates(w, run[0], size, t)
         + AllPassUpdates(ApplyAll(w, Take(Writes(w, run[0].step, size), run[0].cut)), run[1..], size, t)
  }

  lemma TakeBeyond(a: seq<Write>, b: seq<Write>, cut: nat)
    requires cut >= |a|
    ensures Take(a + b, cut) == a + Take(b, cut - |a|) && (a + Take(b, cut - |a|))[|a|..] == Take(b, cut - |a|)
  {
  }

  lemma ApprovePays(w: World, u: Uuid, pass: Pass, size: Json -> nat, cut: nat, t: Uuid)
    requires GoalInv(w) && t in w.tasks && Reviewable(w, u) && cut >= 2
    ensures var writes := Take(Approve(w, u, pass, size), cut);
      |writes| >= 2 && Weight(ApplyAll(w, writes).tasks[t].status) + UpdatesOf(writes[2..], t) <= Weight(w.tasks[t].status)
  {
    hide GoalInv, AllLegal, Legal, Weight, Start, ApplyAll, Take, UpdatesOf, Reviewable;
    var accept := [ResolveReview(u, true), UpdateTask(u, APPROVED)];
    ResolvedLegal(w, u, true);
    AllLegalKeeps(w, accept, false);
    LegalPays(w, accept, false, t);
    var w' := ApplyAll(w, accept);
    var rest := Start(w', pass, size);
    StartLegal(w', pass, size);
    StrictPays(w', rest, cut - 2, t);
    TakeBeyond(accept, rest, cut);
    ApplyAllAppend(w, accept, Take(rest, cut - 2));
  }

  lemma ApproveNeeds(w: World, u: Uuid, pass: Pass, size: Json -> nat, cut: nat)
    requires |Take(Approve(w, u, pass, size), cut)| >= 2
    ensures Reviewable(w, u) && cut >= 2
  {
    hide Start, ApplyAll, Reviewable;
  }

  predicate MovesForward(step: Step) {
    step.StartGoal? || step.ReconcileGoal? || step.CancelGoal?
  }

  lemma ForwardStepPays(w: World, a: Attempted, size: Json -> nat, t: Uuid)
    requires GoalInv(w) && t in w.tasks && MovesForward(a.step)
    ensures Weight(ApplyAll(w, Take(Writes(w, a.step, size), a.cut)).tasks[t].status) + PassUpdates(w, a, size, t)
            <= Weight(w.tasks[t].status)
  {
    hide GoalInv, AllLegal, Legal, Weight, Start, Reconcile, Cancel, Take, UpdatesOf, ApplyAll;
    match a.step
    case StartGoal(pass) => StartLegal(w, pass, size); StrictPays(w, Start(w, pass, size), a.cut, t);
    case ReconcileGoal(pass) => ReconcileLegal(w, pass, size); StrictPays(w, Reconcile(w, pass, size), a.cut, t);
    case CancelGoal(now) => CancelLegal(w, now); StrictPays(w, Cancel(w, now), a.cut, t);
  }

  lemma StepPays(w: World, a: Attempted, size: Json -> nat, t: Uuid)
    requires GoalInv(w) && t in w.tasks
    ensures Weight(ApplyAll(w, Take(Writes(w, a.step, size), a.cut)).tasks[t].status) + PassUpdates(w, a, size, t)
            <= Weight(w.tasks[t].status)
  {
    hide GoalInv, AllLegal, Legal, Weight, Start, Reconcile, Cancel, Approve, ApplyAll, UpdatesOf;
    var all := Writes(w, a.step, size);
    var writes := Take(all, a.cut);
    if MovesForward(a.step) {
      ForwardStepPays(w, a, size, t);
    } else if a.step.ApproveTask? && |writes| >= 2 {
      ApproveNeeds(w, a.step.task, a.step.pass, size, a.cut);
      ApprovePays(w, a.step.task, a.step.pass, size, a.cut, t);
    } else {
      StepLegal(w, a.step, size);
      if a.cut < |all| { AllLegalPrefix(w, all, a.cut, false); }
      LegalPays(w, writes, false, t);
      if !a.step.ApproveTask? && !a.step.RejectTask? { NoUpdatesIn(all, a.cut, t); }
    }
  }

  lemma {:induction false} NoUpdatesIn(writes: seq<Write>, cut: nat, t: Uuid)
    requires forall i :: 0 <= i < |writes| ==> !writes[i].UpdateTask?
    ensures UpdatesOf(Take(writes, cut), t) == 0
    decreases |writes|
  {
    if writes != [] && cut > 0 {
      NoUpdatesIn(writes[1..], cut - 1, t);
      assert Take(writes, cut)[1..] == Take(writes[1..], cut - 1);
    }
  }

  lemma StrictPays(w: World, writes: seq<Write>, cut: nat, t: Uuid)
    requires t in w.tasks && AllLegal(w, writes, true)
    ensures Weight(ApplyAll(w, Take(writes, cut)).tasks[t].status) + UpdatesOf(Take(writes, cut), t)
            <= Weight(w.tasks[t].status)
  {
    hide AllLegal, Weight;
    if cut < |writes| { AllLegalPrefix(w, writes, cut, true); }
    LegalPays(w, Take(writes, cut), true, t);
  }

  lemma {:induction false} RunPays(w: World, run: seq<Attempted>, size: Json -> nat, t: Uuid)
    requires GoalInv(w) && t in w.tasks
    ensures t in RunGoal(w, run, size).tasks
    ensures Weight(RunGoal(w, run, size).tasks[t].status) + AllPassUpdates(w, run, size, t) <= Weight(w.tasks[t].status)
    decreases |run|
  {
    hide GoalInv, Weight, Writes, Take, PassUpdates;
    if run != [] {
      StepPays(w, run[0], size, t);
      StepKeeps(w, run[0], size);
      RunPays(ApplyAll(w, Take(Writes(w, run[0].step, size), run[0].cut)), run[1..], size, t);
    }
  }

  /** Over a whole run without reruns, the starts, passes and cancellations update each task at most twice. */
  lemma AtMostTwoChangesPerTask(w: World, run: seq<Attempted>, size: Json -> nat, t: Uuid)
    requires Fresh(w) && t in w.tasks
    ensures AllPassUpdates(w, run, size, t) <= 2
  {
    hide GoalInv, Fresh, AllPassUpdates, RunGoal;
    FreshIsGood(w);
    RunPays(w, run, size, t);
  }

  // ---- the blocking loop -----------------------------------------------------------

  /** A dependency path through pending tasks that ends in a failed, blocked or cancelled one. */
  ghost predicate DoomPath(w: World, p: seq<Uuid>) {
    && |p| >= 2
    && (forall k :: 0 <= k < |p| ==> p[k] in w.tasks)
    && (forall k :: 0 <= k < |p| - 1 ==> w.tasks[p[k]].status == TPending && p[k + 1] in w.tasks[p[k]].dependsOn)
    && Blocking(w.tasks[p[|p| - 1]].status)
  }

  ghost predicate Doomed(w: World, t: Uuid) {
    exists p :: DoomPath(w, p) && p[0] == t
  }

  /** `w'` differs from `w` only in pending tasks that were blocked. */
  ghost predicate BlocksOnly(w: World, w': World) {
    && w' == w.(tasks := w'.tasks) && w'.tasks.Keys == w.tasks.Keys
    && forall t :: t in w.tasks ==>
         w'.tasks[t] == w.tasks[t]
         || (w.tasks[t].status == TPending && w'.tasks[t] == Patched(w.tasks[t], BLOCKED))
  }

  lemma {:induction false} BlockOnlyBlocks(w: World, i: nat, changed: bool)
    requires i <= |w.order|
    ensures BlocksOnly(w, ApplyAll(w, Block(w, i, changed)))
    decreases WithStatus(w, TPending), changed, |w.order| - i
  {
    if i == |w.order| {
      if changed { BlockOnlyBlocks(w, 0, false); }
    } else {
      var t := w.order[i];
      if t in w.tasks && w.tasks[t].status == TPending && HasBlockingDep(w, t) {
        var w' := Apply(w, UpdateTask(t, BLOCKED));
        assert t in WithStatus(w, TPending) && t !in WithStatus(w', TPending);
        BlockOnlyBlocks(w', i + 1, true);
        OneWriteFirst(w, UpdateTask(t, BLOCKED), Block(w', i + 1, true));
      } else {
        BlockOnlyBlocks(w, i + 1, changed);
      }
    }
  }

  lemma OneWriteFirst(w: World, write: Write, rest: seq<Write>)
    ensures ApplyAll(w, [write] + rest) == ApplyAll(Apply(w, write), rest)
  {
    assert ([write] + rest)[1..] == rest;
  }

  /** After a pending task with a blocking dependency was blocked, a doom path of the new state is one
      of the old state, possibly one step longer. */
  lemma DoomStepsBack(w: World, t: Uuid, u: Uuid)
    requires t in w.tasks && w.tasks[t].status == TPending && HasBlockingDep(w, t)
    requires Doomed(Apply(w, UpdateTask(t, BLOCKED)), u)
    ensures Doomed(w, u)
  {
    var w' := Apply(w, UpdateTask(t, BLOCKED));
    var p :| DoomPath(w', p) && p[0] == u;
    forall k | 0 <= k < |p| - 1 ensures w.tasks[p[k]].status == TPending && p[k + 1] in w.tasks[p[k]].dependsOn {
      assert w'.tasks[p[k]].status == TPending;
    }
    if p[|p| - 1] == t {
      var d :| d in w.tasks[t].dependsOn && d in w.tasks && Blocking(w.tasks[d].status);
      var q := p + [d];
      assert DoomPath(w, q) && q[0] == u;
    } else {
      assert DoomPath(w, p);
    }
  }

  /** Soundness: whatever the loop blocks was doomed before it. */
  lemma {:induction false} BlockedWereDoomed(w: World, i: nat, changed: bool, u: Uuid)
    requires i <= |w.order| && u in w.tasks
    requires ApplyAll(w, Block(w, i, changed)).tasks[u] != w.tasks[u]
    ensures Doomed(w, u)
    decreases WithStatus(w, TPending), changed, |w.order| - i
  {
    hide Doomed, SamePlan;
    if i == |w.order| {
      if changed { BlockedWereDoomed(w, 0, false, u); }
    } else {
      var t := w.order[i];
      if t in w.tasks && w.tasks[t].status == TPending && HasBlockingDep(w, t) {
        var w' := Apply(w, UpdateTask(t, BLOCKED));
        assert t in WithStatus(w, TPending) && t !in WithStatus(w', TPending);
        OneWriteFirst(w, UpdateTask(t, BLOCKED), Block(w', i + 1, true));
        if u == t {
          DirectlyDoomed(w, t);
        } else {
          BlockedWereDoomed(w', i + 1, true, u);
          DoomStepsBack(w, t, u);
        }
      } else {
        BlockedWereDoomed(w, i + 1, changed, u);
      }
    }
  }

  lemma DirectlyDoomed(w: World, t: Uuid)
    requires t in w.tasks && w.tasks[t].status == TPending && HasBlockingDep(w, t)
    ensures Doomed(w, t)
  {
    var d :| d in w.tasks[t].dependsOn && d in w.tasks && Blocking(w.tasks[d].status);
    var p := [t, d];
    assert DoomPath(w, p) && p[0] == t;
  }

  predicate Settled(w: World, t: Uuid) {
    t in w.tasks && w.tasks[t].status == TPending ==> !HasBlockingDep(w, t)
  }

  /** The loop ends only when no pending task has a blocking dependency. */
  lemma {:induction false} BlockSettles(w: World, i: nat, changed: bool, t: Uuid)
    requires i <= |w.order| && t in w.order
    requires changed || forall k :: 0 <= k < i ==> Settled(w, w.order[k])
    ensures Settled(ApplyAll(w, Block(w, i, changed)), t)
    decreases WithStatus(w, TPending), changed, |w.order| - i
  {
    hide SamePlan;
    if i == |w.order| {
      if changed { BlockSettles(w, 0, false, t); }
    } else {
      var u := w.order[i];
      if u in w.tasks && w.tasks[u].status == TPending && HasBlockingDep(w, u) {
        var w' := Apply(w, UpdateTask(u, BLOCKED));
        assert u in WithStatus(w, TPending) && u !in WithStatus(w', TPending);
        assert w'.order == w.order;
        BlockSettles(w', i + 1, true, t);
        OneWriteFirst(w, UpdateTask(u, BLOCKED), Block(w', i + 1, true));
      } else {
        BlockSettles(w, i + 1, changed, t);
      }
    }
  }

  /** Completeness: along a doom path, everything before the end gets blocked. */
  lemma {:induction false} DoomedGetBlocked(w: World, p: seq<Uuid>, k: nat)
    requires PlanOk(w) && DoomPath(w, p) && k < |p|
    ensures Blocking(ApplyAll(w, Block(w, 0, false)).tasks[p[k]].status)
    decreases |p| - k
  {
    hide Block, PlanOk, BlocksOnly, Settled, ApplyAll, Blocking;
    var w' := ApplyAll(w, Block(w, 0, false));
    BlockOnlyBlocks(w, 0, false);
    if k < |p| - 1 {
      DoomedGetBlocked(w, p, k + 1);
      assert p[k] in w.order by { InPlan(w, p[k]); }
      BlockSettles(w, 0, false, p[k]);
      SettledIsBlocked(w, w', p[k], p[k + 1]);
    } else {
      BlockingStays(w, w', p[k]);
    }
  }

  lemma InPlan(w: World, t: Uuid)
    requires PlanOk(w) && t in w.tasks
    ensures t in w.order
  {
  }

  lemma BlockingStays(w: World, w': World, t: Uuid)
    requires BlocksOnly(w, w') && t in w.tasks && Blocking(w.tasks[t].status)
    ensures t in w'.tasks && Blocking(w'.tasks[t].status)
  {
  }

  lemma SettledIsBlocked(w: World, w': World, t: Uuid, d: Uuid)
    requires BlocksOnly(w, w') && t in w.tasks && w.tasks[t].status == TPending && d in w.tasks[t].dependsOn
    requires d in w'.tasks && Blocking(w'.tasks[d].status) && Settled(w', t)
    ensures t in w'.tasks && Blocking(w'.tasks[t].status)
  {
  }

  /** Main theorem. The blocking loop marks blocked exactly the pending tasks with a dependency path,
      through pending tasks only, to a failed, blocked or cancelled task, and changes nothing else. */
  lemma BlockMarksExactlyTheDoomed(w: World)
    requires PlanOk(w)
    ensures var w' := ApplyAll(w, Block(w, 0, false));
      && w' == w.(tasks := w'.tasks) && w'.tasks.Keys == w.tasks.Keys
      && forall t :: t in w.tasks ==>
           w'.tasks[t] == if w.tasks[t].status == TPending && Doomed(w, t) then Patched(w.tasks[t], BLOCKED) else w.tasks[t]
  {
    hide Block;
    var w' := ApplyAll(w, Block(w, 0, false));
    BlockOnlyBlocks(w, 0, false);
    forall t | t in w.tasks
      ensures w'.tasks[t] == if w.tasks[t].status == TPending && Doomed(w, t) then Patched(w.tasks[t], BLOCKED) else w.tasks[t]
    {
      if w'.tasks[t] != w.tasks[t] {
        BlockedWereDoomed(w, 0, false, t);
      } else if w.tasks[t].status == TPending && Doomed(w, t) {
        var p :| DoomPath(w, p) && p[0] == t;
        DoomedGetBlocked(w, p, 0);
      }
    }
  }

  /** Any dependency path, through whatever tasks. */
  ghost predicate DependencyPath(w: World, p: seq<Uuid>) {
    && |p| >= 1
    && (forall k :: 0 <= k < |p| ==> p[k] in w.tasks)
    && (forall k :: 0 <= k < |p| - 1 ==> p[k + 1] in w.tasks[p[k]].dependsOn)
  }

  ghost predicate DependsOnBlocking(w: World, t: Uuid) {
    exists p :: DependencyPath(w, p) && p[0] == t && Blocking(w.tasks[p[|p| - 1]].status)
  }

  lemma {:induction false} PathFindsDoom(w: World, p: seq<Uuid>) returns (q: seq<Uuid>)
    requires TasksOk(w) && DependencyPath(w, p) && Blocking(w.tasks[p[|p| - 1]].status)
    ensures DependencyPath(w, q) && q[0] == p[0] && Blocking(w.tasks[q[|q| - 1]].status)
    ensures forall k :: 0 <= k < |q| - 1 ==> w.tasks[q[k]].status == TPending
    decreases |p|
  {
    assert TaskOk(w, p[0]);
    if Blocking(w.tasks[p[0]].status) {
      q := [p[0]];
    } else {
      assert p[1] in w.tasks[p[0]].dependsOn;
      var rest := PathFindsDoom(w, p[1..]);
      q := [p[0]] + rest;
      if w.tasks[p[0]].status != TPending {
        CompleteAllTheWay(w, p, |p| - 1);
      }
    }
  }

  /** Behind a launched task everything is complete. */
  lemma {:induction false} CompleteAllTheWay(w: World, p: seq<Uuid>, k: nat)
    requires TasksOk(w) && DependencyPath(w, p) && Launched(w.tasks[p[0]].status) && 1 <= k < |p|
    ensures w.tasks[p[k]].status == TComplete
  {
    if k > 1 { CompleteAllTheWay(w, p, k - 1); }
    assert TaskOk(w, p[k - 1]);
    assert p[k] in w.tasks[p[k - 1]].dependsOn;
  }

  /** Under dependency safety, the blocked tasks are all the pending transitive dependents. */
  lemma DoomedMeansDependsOnBlocking(w: World, t: Uuid)
    requires GoalInv(w) && t in w.tasks && w.tasks[t].status == TPending
    ensures Doomed(w, t) <==> DependsOnBlocking(w, t)
  {
    hide GoalInv, Doomed, DependsOnBlocking;
    if Doomed(w, t) { DoomedDepends(w, t); }
    if DependsOnBlocking(w, t) {
      TasksPart(w);
      DependingIsDoomed(w, t);
    }
  }

  lemma TasksPart(w: World)
    requires GoalInv(w)
    ensures TasksOk(w)
  {
  }

  lemma DoomedDepends(w: World, t: Uuid)
    requires Doomed(w, t)
    ensures DependsOnBlocking(w, t)
  {
    var p :| DoomPath(w, p) && p[0] == t;
    assert DependencyPath(w, p);
  }

  lemma DependingIsDoomed(w: World, t: Uuid)
    requires TasksOk(w) && DependsOnBlocking(w, t) && t in w.tasks && w.tasks[t].status == TPending
    ensures Doomed(w, t)
  {
    hide TasksOk;
    var p :| DependencyPath(w, p) && p[0] == t && Blocking(w.tasks[p[|p| - 1]].status);
    var q := PathFindsDoom(w, p);
    assert DoomPath(w, q);
  }

  // ---- no stall -----------------------------------------------------------------------

  /** What launching may do to a task: start it, or fail it on its payload. */
  predicate LaunchesTo(x: PlannedTask, y: PlannedTask) {
    || y == x
    || (x.status == TPending && y.status == TRunning && y.result == x.result && SameSpec(x, y))
    || (x.status == TPending && y == Patched(x, UNRESOLVED))
  }

  ghost predicate LaunchesOnly(w: World, w': World) {
    && w'.status == w.status && SamePlan(w, w')
    && forall t :: t in w.tasks ==> LaunchesTo(w.tasks[t], w'.tasks[t])
  }

  /** The world after launching one task. */
  ghost function Launched1(w: World, t: Uuid, payload: Json, now: Time): World
    requires t in w.tasks
  {
    Apply(Apply(w, JobCall(EnqueueCall(w, t, payload), now)), UpdateTask(t, StartPatch(EnqueuedJob(w, t), payload)))
  }

  lemma Launched1Is(w: World, t: Uuid, payload: Json, now: Time)
    requires t in w.tasks && w.tasks[t].status == TPending
    ensures var w' := Launched1(w, t, payload, now);
      && LaunchesOnly(w, w') && w'.order == w.order && w'.tasks.Keys == w.tasks.Keys && SamePlan(w, w')
      && w'.tasks[t].status == TRunning && forall u :: u in w.tasks && u != t ==> w'.tasks[u] == w.tasks[u]
  {
    hide Jobs.Apply;
  }

  lemma LaunchStep(w: World, t: Uuid, payload: Json, now: Time, rest: seq<Write>)
    requires t in w.tasks
    ensures ApplyAll(w, [JobCall(EnqueueCall(w, t, payload), now), UpdateTask(t, StartPatch(EnqueuedJob(w, t), payload))] + rest)
            == ApplyAll(Launched1(w, t, payload, now), rest)
  {
    hide Apply, EnqueueCall, StartPatch, EnqueuedJob;
    var a, b := JobCall(EnqueueCall(w, t, payload), now), UpdateTask(t, StartPatch(EnqueuedJob(w, t), payload));
    OneWriteFirst(w, a, [b] + rest);
    OneWriteFirst(Apply(w, a), b, rest);
    assert [a, b] + rest == [a] + ([b] + rest);
  }

  lemma LaunchesOnlyTransitive(w1: World, w2: World, w3: World)
    requires LaunchesOnly(w1, w2) && LaunchesOnly(w2, w3)
    ensures LaunchesOnly(w1, w3)
  {
    forall t | t in w1.tasks ensures LaunchesTo(w1.tasks[t], w3.tasks[t]) {
      assert LaunchesTo(w1.tasks[t], w2.tasks[t]) && LaunchesTo(w2.tasks[t], w3.tasks[t]);
    }
    forall t | t in w1.tasks ensures SameSpec(w1.tasks[t], w3.tasks[t]) {
      assert SameSpec(w1.tasks[t], w2.tasks[t]) && SameSpec(w2.tasks[t], w3.tasks[t]);
    }
  }

  lemma UnresolvedIs(w: World, t: Uuid)
    requires t in w.tasks && w.tasks[t].status == TPending
    ensures var w' := Apply(w, UpdateTask(t, UNRESOLVED));
      && LaunchesOnly(w, w') && w'.order == w.order && w'.tasks.Keys == w.tasks.Keys && SamePlan(w, w')
      && w'.tasks[t].status == TFailed && forall u :: u in w.tasks && u != t ==> w'.tasks[u] == w.tasks[u]
  {
  }

  /** Launching from position `i` on: only pending tasks change; a task that could be launched while a
      slot was free was, unless some task is running; and a task that failed could not be resolved. */
  lemma {:induction false} LaunchOutcome(w: World, i: nat, slots: int, now: Time, size: Json -> nat, t: Uuid)
    requires i <= |w.order| && t in w.tasks
    ensures var w' := ApplyAll(w, Launch(w, i, slots, now, size));
      && LaunchesOnly(w, w')
      && (t in w.order[i..] && slots > 0 && DepsComplete(w, t) && w'.tasks[t].status == TPending ==>
            exists u :: u in w'.tasks && w'.tasks[u].status == TRunning)
      && (w.tasks[t].status == TPending && w'.tasks[t].status == TFailed ==>
            DepsComplete(w, t) && Substitution.ResolvePayload(w.tasks[t], w.tasks, size).Err?)
    decreases |w.order| - i
  {
    hide Substitution.ResolvePayload, EnqueueCall, StartPatch, EnqueuedJob;
    hide SamePlan, LaunchesTo, LaunchesOnly, Apply, DepsComplete;
    if i == |w.order| || slots <= 0 {
      LaunchesNothing(w);
    } else {
      var u := w.order[i];
      assert w.order[i..] == [u] + w.order[i + 1..];
      if u !in w.tasks || w.tasks[u].status != TPending || !DepsComplete(w, u) {
        LaunchOutcome(w, i + 1, slots, now, size, t);
        LaunchSkips(w, i, slots, now, size, t);
      } else {
        match Substitution.ResolvePayload(w.tasks[u], w.tasks, size)
        case Err(_) =>
          var w1 := Apply(w, UpdateTask(u, UNRESOLVED));
          UnresolvedIs(w, u);
          LaunchOutcome(w1, i + 1, slots, now, size, t);
          var rest := Launch(w1, i + 1, slots, now, size);
          OneWriteFirst(w, UpdateTask(u, UNRESOLVED), rest);
          LaunchesOnlyTransitive(w, w1, ApplyAll(w1, rest));
          LaunchFacts(w, w1, ApplyAll(w1, rest), u, t, size);
        case Ok(payload) =>
          var w1 := Launched1(w, u, payload, now);
          Launched1Is(w, u, payload, now);
          LaunchOutcome(w1, i + 1, slots - 1, now, size, t);
          var rest := Launch(w1, i + 1, slots - 1, now, size);
          LaunchStep(w, u, payload, now, rest);
          LaunchesOnlyTransitive(w, w1, ApplyAll(w1, rest));
          LaunchFacts(w, w1, ApplyAll(w1, rest), u, t, size);
          RunningStays(w1, ApplyAll(w1, rest), u);
      }
    }
  }

  lemma LaunchesNothing(w: World)
    ensures LaunchesOnly(w, ApplyAll(w, []))
  {
  }

  lemma LaunchSkips(w: World, i: nat, slots: int, now: Time, size: Json -> nat, t: Uuid)
    requires i < |w.order| && slots > 0 && t in w.tasks
    requires var u := w.order[i]; u !in w.tasks || w.tasks[u].status != TPending || !DepsComplete(w, u)
    requires LaunchesOnly(w, ApplyAll(w, Launch(w, i + 1, slots, now, size)))
    ensures Launch(w, i, slots, now, size) == Launch(w, i + 1, slots, now, size)
    ensures t == w.order[i] && DepsComplete(w, t) ==> ApplyAll(w, Launch(w, i, slots, now, size)).tasks[t].status != TPending
  {
    assert LaunchesTo(w.tasks[t], ApplyAll(w, Launch(w, i + 1, slots, now, size)).tasks[t]);
  }

  lemma RunningStays(w: World, w': World, u: Uuid)
    requires LaunchesOnly(w, w') && u in w.tasks && w.tasks[u].status == TRunning
    ensures u in w'.tasks && w'.tasks[u].status == TRunning
  {
    assert LaunchesTo(w.tasks[u], w'.tasks[u]);
  }

  /** Launching `u` first does not change what holds of `t` before and after. */
  lemma LaunchFacts(w: World, w1: World, w': World, u: Uuid, t: Uuid, size: Json -> nat)
    requires LaunchesOnly(w, w1) && LaunchesOnly(w1, w') && u in w.tasks && t in w.tasks
    requires forall x :: x in w.tasks && x != u ==> w1.tasks[x] == w.tasks[x]
    requires w.tasks[u].status == TPending && w1.tasks[u].status != TPending && DepsComplete(w, u)
    requires w1.tasks[u].status == TFailed ==> Substitution.ResolvePayload(w.tasks[u], w.tasks, size).Err?
    ensures DepsComplete(w, t) <==> DepsComplete(w1, t)
    ensures t in w'.tasks && w'.tasks.Keys == w.tasks.Keys
    ensures t == u ==> w'.tasks[t].status == w1.tasks[u].status
    ensures t != u && w.tasks[t].status == TPending && Substitution.ResolvePayload(w1.tasks[t], w1.tasks, size).Err? ==>
      Substitution.ResolvePayload(w.tasks[t], w.tasks, size).Err?
  {
    hide Substitution.Resolve, SamePlan;
    KeysPart(w, w1);
    KeysPart(w1, w');
    assert LaunchesTo(w1.tasks[u], w'.tasks[u]) && LaunchesTo(w.tasks[u], w1.tasks[u]);
    assert SameSpec(w.tasks[t], w1.tasks[t]) by { SpecPart(w, w1, t); }
    if t != u {
      assert Substitution.AgreeOn(Substitution.Declared(w.tasks[t]), w.tasks, w1.tasks);
      Substitution.OnlyDeclaredResultsMatter(w.tasks[t].payload, Substitution.Declared(w.tasks[t]), w.tasks, w1.tasks);
    }
  }

  lemma SpecPart(w: World, w': World, t: Uuid)
    requires SamePlan(w, w') && t in w.tasks
    ensures t in w'.tasks && SameSpec(w.tasks[t], w'.tasks[t])
  {
  }

  lemma KeysPart(w: World, w': World)
    requires SamePlan(w, w')
    ensures w'.tasks.Keys == w.tasks.Keys
  {
  }

  /** Among the pending tasks of a ranked plan one has no pending dependency. */
  lemma {:induction false} LeastPending(w: World, rank: map<Uuid, nat>, t: Uuid) returns (least: Uuid)
    requires Planner.Ranked(w.tasks, rank) && t in w.tasks && w.tasks[t].status == TPending
    ensures least in w.tasks && w.tasks[least].status == TPending
    ensures forall d :: d in w.tasks[least].dependsOn ==> d in w.tasks && w.tasks[d].status != TPending
    decreases rank[t]
  {
    if d :| d in w.tasks[t].dependsOn && w.tasks[d].status == TPending {
      least := LeastPending(w, rank, d);
    } else {
      least := t;
    }
  }

  /** A pass that got past intake ends in the launched world, with only the verdict added. */
  lemma PassEnds(w: World, pass: Pass, size: Json -> nat)
    requires w.status == GRunning && !Intake(w, 0).stop
    ensures ApplyAll(w, Reconcile(w, pass, size)) == ApplyAll(AfterLaunch(w, pass, size), Verdict(AfterLaunch(w, pass, size)))
  {
    hide Intake, Block, Launch, Verdict, Apply;
    var w1, w2, w3 := AfterIntake(w), AfterBlock(w), AfterLaunch(w, pass, size);
    var a, b := Intake(w, 0).writes, Block(w1, 0, false);
    var c := Launch(w2, 0, Slots(w2, pass), pass.now, size);
    ApplyAllAppend(w, a, b);
    ApplyAllAppend(w, a + b, c);
    ApplyAllAppend(w, a + b + c, Verdict(w3));
  }

  lemma VerdictEnds(w: World)
    requires w.status == GRunning
    ensures var w' := ApplyAll(w, Verdict(w));
      && w'.tasks == w.tasks
      && (w'.status == GRunning <==> exists t :: t in w.tasks && (w.tasks[t].status == TPending || w.tasks[t].status == TRunning))
      && (w'.status == GComplete <==> forall t :: t in w.tasks ==> w.tasks[t].status == TComplete)
      && w'.status in {GRunning, GComplete, GFailed}
  {
    hide Jobs.Apply;
    var e := RecordEvent(Event("complete", []));
    OneWriteFirst(w, SetStatus(GComplete), [e]);
    assert [SetStatus(GComplete), e] == [SetStatus(GComplete)] + [e];
    assert ApplyAll(Apply(w, SetStatus(GComplete)), [e]) == Apply(Apply(w, SetStatus(GComplete)), e);
    assert ApplyAll(w, [SetStatus(GFailed)]) == Apply(w, SetStatus(GFailed));
  }

  /** The blocking phase leaves the goal running and no pending task with a blocking dependency. */
  lemma AfterBlockSettled(w: World, t: Uuid)
    requires PlanOk(AfterIntake(w)) && t in AfterBlock(w).tasks
    ensures Settled(AfterBlock(w), t) && AfterBlock(w).status == AfterIntake(w).status
  {
    hide Block, Intake;
    var w1 := AfterIntake(w);
    BlockOnlyBlocks(w1, 0, false);
    BlockSettles(w1, 0, false, t);
  }

  lemma {:induction false} IntakeLeavesStatus(w: World, i: nat)
    requires i <= |w.order|
    ensures !Intake(w, i).stop ==> ApplyAll(w, Intake(w, i).writes).status == w.status
    decreases |w.order| - i
  {
    hide SamePlan, TaskResult, Confidence, FailureText, ResultOf;
    if i < |w.order| {
      var t := w.order[i];
      if t !in w.tasks || w.tasks[t].status != TRunning {
        IntakeLeavesStatus(w, i + 1);
      } else {
        var first := IntakeTask(w, t);
        if !first.stop {
          KeepsOrder(w, ApplyAll(w, first.writes));
          IntakeLeavesStatus(ApplyAll(w, first.writes), i + 1);
          ApplyAllAppend(w, first.writes, Intake(ApplyAll(w, first.writes), i + 1).writes);
          IntakeTaskLeavesStatus(w, t);
        }
      }
    }
  }

  lemma IntakeTaskLeavesStatus(w: World, t: Uuid)
    requires t in w.tasks && !IntakeTask(w, t).stop
    ensures ApplyAll(w, IntakeTask(w, t).writes).status == w.status
  {
    hide TaskResult, Confidence, FailureText, ResultOf, Jobs.Apply;
    var ws := IntakeTask(w, t).writes;
    if ws != [] { assert ApplyAll(w, ws) == Apply(w, ws[0]); }
  }

  /** This pass failed a task because its payload could not be resolved. */
  ghost predicate FailedOnPayload(w: World, pass: Pass, size: Json -> nat, t: Uuid) {
    && t in AfterBlock(w).tasks && AfterBlock(w).tasks[t].status == TPending
    && t in AfterLaunch(w, pass, size).tasks && AfterLaunch(w, pass, size).tasks[t].status == TFailed
    && Substitution.ResolvePayload(AfterBlock(w).tasks[t], AfterBlock(w).tasks, size).Err?
  }

  /** Main theorem. On an accepted plan, when a pass has a free slot, ends with no escalated task and
      leaves the goal running, it leaves some task running or has just failed one on its payload. */
  lemma NoStall(w: World, pass: Pass, size: Json -> nat, rank: map<Uuid, nat>)
    requires GoalInv(w) && w.status == GRunning && Planner.Ranked(w.tasks, rank)
    requires Slots(AfterBlock(w), pass) > 0
    requires var w' := ApplyAll(w, Reconcile(w, pass, size));
      w'.status == GRunning && forall t :: t in w'.tasks ==> w'.tasks[t].status != TEscalated
    ensures var w' := ApplyAll(w, Reconcile(w, pass, size));
      || (exists t :: t in w'.tasks && w'.tasks[t].status == TRunning)
      || (exists t :: FailedOnPayload(w, pass, size, t))
  {
    hide GoalInv, Intake, Block, Launch, Verdict, Reconcile, SamePlan, FailedOnPayload, Slots;
    PassDidNotStop(w, pass, size);
    PassEnds(w, pass, size);
    PassPhases(w, pass, size);
    var w2, w3 := AfterBlock(w), AfterLaunch(w, pass, size);
    IntakeLeavesStatus(w, 0);
    AfterLaunchRunning(w, pass, size);
    VerdictEnds(w3);
    if forall t :: t in w3.tasks ==> w3.tasks[t].status != TRunning {
      var t :| t in w3.tasks && w3.tasks[t].status == TPending;
      RankCarries(w, w3, rank);
      var least := LeastPending(w3, rank, t);
      PlanPart(AfterIntake(w));
      PlanPart(w2);
      StalledTask(w, pass, size, least);
    }
  }

  /** The planner and the scheduler together. Saving an accepted plan gives a goal that is fresh and
      ranked; the tasks are the ones its specifications ask for. */
  lemma AcceptedPlanIsFreshAndRanked(w: World, plan: Planner.Plan, specs: seq<Planner.TaskSpec>, first: Uuid,
                                     known: set<string>, rank: map<Uuid, nat>)
    requires |plan.order| == |specs| && forall i :: 0 <= i < |specs| ==> plan.order[i] == first + i
    requires Planner.TranslatesAll(specs, first, known, plan.tasks) && Planner.Ranked(plan.tasks, rank)
    requires w.order == plan.order && w.tasks == plan.tasks && w.reviews == map[]
    requires JobInvariant.Consistent(w.jobs)
    requires forall k :: k in w.jobs.idempotency && k.TaskKey? ==> k.goalId != w.goalId
    ensures Fresh(w) && Planner.Ranked(w.tasks, rank)
  {
    hide JobInvariant.Consistent;
    forall t ensures t in w.order <==> t in w.tasks {
      if t in w.tasks { assert w.order[t - first] == t; }
    }
    forall t | t in w.tasks ensures Unstarted(w.tasks[t]) {
      assert Planner.Translates(specs[t - first], t - first, |specs|, first, known, w.tasks[t]);
    }
  }

  /** Main theorem. Whatever happened to the goal since its plan was saved, crashes included, no pass
      with a free slot leaves it running and stuck. */
  lemma RunsDoNotStall(w: World, run: seq<Attempted>, pass: Pass, size: Json -> nat, rank: map<Uuid, nat>)
    requires Fresh(w) && Planner.Ranked(w.tasks, rank)
    requires var v := RunGoal(w, run, size);
      var v' := ApplyAll(v, Reconcile(v, pass, size));
      && v.status == GRunning && Slots(AfterBlock(v), pass) > 0
      && v'.status == GRunning && forall t :: t in v'.tasks ==> v'.tasks[t].status != TEscalated
    ensures var v := RunGoal(w, run, size);
      var v' := ApplyAll(v, Reconcile(v, pass, size));
      || (exists t :: t in v'.tasks && v'.tasks[t].status == TRunning)
      || (exists t :: FailedOnPayload(v, pass, size, t))
  {
    hide GoalInv, Fresh, RunGoal, Reconcile, AfterBlock, Slots, FailedOnPayload, SamePlan;
    FreshIsGood(w);
    RunKeeps(w, run, size);
    RunSamePlan(w, run, size);
    RankCarries(w, RunGoal(w, run, size), rank);
    NoStall(RunGoal(w, run, size), pass, size, rank);
  }

  lemma PlanPart(w: World)
    requires GoalInv(w)
    ensures PlanOk(w)
  {
  }

  lemma RankCarries(w: World, w': World, rank: map<Uuid, nat>)
    requires SamePlan(w, w') && Planner.Ranked(w.tasks, rank)
    ensures Planner.Ranked(w'.tasks, rank)
  {
    forall t, d | t in w'.tasks && d in w'.tasks[t].dependsOn ensures d in w'.tasks && rank[d] < rank[t] {
      assert SameSpec(w.tasks[t], w'.tasks[t]);
    }
  }

  lemma PassDidNotStop(w: World, pass: Pass, size: Json -> nat)
    requires w.status == GRunning && ApplyAll(w, Reconcile(w, pass, size)).status == GRunning
    ensures !Intake(w, 0).stop
  {
    if Intake(w, 0).stop { IntakeStopPauses(w, 0); }
  }

  lemma {:induction false} IntakeStopPauses(w: World, i: nat)
    requires i <= |w.order| && Intake(w, i).stop
    ensures ApplyAll(w, Intake(w, i).writes).status == GPaused
    decreases |w.order| - i
  {
    hide SamePlan, TaskResult, Confidence, FailureText, ResultOf, Jobs.Apply;
    var t := w.order[i];
    if t !in w.tasks || w.tasks[t].status != TRunning {
      IntakeStopPauses(w, i + 1);
    } else {
      var first := IntakeTask(w, t);
      if first.stop {
        assert first.writes == [first.writes[0]] + [SetStatus(GPaused)];
        OneWriteFirst(w, first.writes[0], [SetStatus(GPaused)]);
      } else {
        KeepsOrder(w, ApplyAll(w, first.writes));
        IntakeStopPauses(ApplyAll(w, first.writes), i + 1);
        ApplyAllAppend(w, first.writes, Intake(ApplyAll(w, first.writes), i + 1).writes);
      }
    }
  }

  lemma AfterLaunchRunning(w: World, pass: Pass, size: Json -> nat)
    requires GoalInv(AfterIntake(w))
    ensures AfterLaunch(w, pass, size).status == AfterIntake(w).status
    ensures SamePlan(w, AfterLaunch(w, pass, size))
  {
    hide Intake, Block, Launch, Slots, TasksOk, KeysOwned;
    var w1, w2 := AfterIntake(w), AfterBlock(w);
    BlockOnlyBlocks(w1, 0, false);
    LaunchStatus(w2, 0, Slots(w2, pass), pass.now, size);
    SamePlanTransitive(w, w1, w2);
    SamePlanTransitive(w, w2, AfterLaunch(w, pass, size));
  }

  lemma SamePlanTransitive(w1: World, w2: World, w3: World)
    requires SamePlan(w1, w2) && SamePlan(w2, w3)
    ensures SamePlan(w1, w3)
  {
    forall t | t in w1.tasks ensures SameSpec(w1.tasks[t], w3.tasks[t]) {
      assert SameSpec(w1.tasks[t], w2.tasks[t]) && SameSpec(w2.tasks[t], w3.tasks[t]);
    }
  }

  lemma {:induction false} LaunchStatus(w: World, i: nat, slots: int, now: Time, size: Json -> nat)
    requires i <= |w.order|
    ensures ApplyAll(w, Launch(w, i, slots, now, size)).status == w.status
    decreases |w.order| - i
  {
    hide Jobs.Apply, Substitution.ResolvePayload, SamePlan, DepsComplete;
    if i < |w.order| && slots > 0 {
      var u := w.order[i];
      if u !in w.tasks || w.tasks[u].status != TPending || !DepsComplete(w, u) {
        LaunchStatus(w, i + 1, slots, now, size);
      } else {
        match Substitution.ResolvePayload(w.tasks[u], w.tasks, size)
        case Err(_) =>
          var w1 := Apply(w, UpdateTask(u, UNRESOLVED));
          KeepsOrder(w, w1);
          LaunchStatus(w1, i + 1, slots, now, size);
          OneWriteFirst(w, UpdateTask(u, UNRESOLVED), Launch(w1, i + 1, slots, now, size));
        case Ok(payload) =>
          var w1 := Launched1(w, u, payload, now);
          Launched1Is(w, u, payload, now);
          KeepsOrder(w, w1);
          LaunchStatus(w1, i + 1, slots - 1, now, size);
          LaunchStep(w, u, payload, now, Launch(w1, i + 1, slots - 1, now, size));
      }
    }
  }

  /** A pending task that nothing pending holds back, with no task running and none escalated, is held
      back by a dependency that this pass failed on its payload. */
  lemma StalledTask(w: World, pass: Pass, size: Json -> nat, t: Uuid)
    requires PlanOk(AfterIntake(w)) && PlanOk(AfterBlock(w))
    requires Slots(AfterBlock(w), pass) > 0
    requires var w3 := AfterLaunch(w, pass, size);
      && t in w3.tasks && w3.tasks[t].status == TPending
      && (forall u :: u in w3.tasks ==> w3.tasks[u].status != TRunning && w3.tasks[u].status != TEscalated)
      && (forall d :: d in w3.tasks[t].dependsOn ==> d in w3.tasks && w3.tasks[d].status != TPending)
    ensures exists d :: FailedOnPayload(w, pass, size, d)
  {
    hide PlanOk, Intake, Block, Launch, Slots, AfterIntake, AfterBlock, AfterLaunch, FailedOnPayload;
    hide DepsComplete, LaunchesTo, LaunchesOnly;
    var w2, w3 := AfterBlock(w), AfterLaunch(w, pass, size);
    LaunchedFrom(w, pass, size, t);
    StillPending(w2.tasks[t], w3.tasks[t]);
    AfterBlockSettled(w, t);
    NotLaunched(w, pass, size, t);
    var d := MissingDep(w2, t);
    LaunchedFrom(w, pass, size, d);
    FailedWhileLaunching(w, pass, size, d);
  }

  lemma StillPending(x: PlannedTask, y: PlannedTask)
    requires LaunchesTo(x, y)
    ensures y.status == TPending ==> x.status == TPending
    ensures x.status != TComplete && !Blocking(x.status) && y.status !in {TPending, TRunning, TEscalated} ==>
      x.status == TPending && y.status == TFailed
  {
  }

  lemma MissingDep(w: World, t: Uuid) returns (d: Uuid)
    requires t in w.tasks && w.tasks[t].status == TPending && !DepsComplete(w, t) && Settled(w, t)
    ensures d in w.tasks[t].dependsOn
    ensures d in w.tasks ==> w.tasks[d].status != TComplete && !Blocking(w.tasks[d].status)
  {
    d :| d in w.tasks[t].dependsOn && !(d in w.tasks && w.tasks[d].status == TComplete);
  }

  lemma NotLaunched(w: World, pass: Pass, size: Json -> nat, t: Uuid)
    requires PlanOk(AfterBlock(w)) && Slots(AfterBlock(w), pass) > 0 && t in AfterBlock(w).tasks
    requires var w3 := AfterLaunch(w, pass, size);
      && t in w3.tasks && w3.tasks[t].status == TPending
      && forall u :: u in w3.tasks ==> w3.tasks[u].status != TRunning
    ensures !DepsComplete(AfterBlock(w), t)
  {
    hide Launch, Slots, AfterBlock, DepsComplete, LaunchesOnly;
    var w2 := AfterBlock(w);
    assert w2.order[0..] == w2.order;
    LaunchOutcome(w2, 0, Slots(w2, pass), pass.now, size, t);
  }

  lemma FailedWhileLaunching(w: World, pass: Pass, size: Json -> nat, d: Uuid)
    requires d in AfterBlock(w).tasks && d in AfterLaunch(w, pass, size).tasks
    requires LaunchesTo(AfterBlock(w).tasks[d], AfterLaunch(w, pass, size).tasks[d])
    requires var s := AfterBlock(w).tasks[d].status; s != TComplete && !Blocking(s)
    requires AfterLaunch(w, pass, size).tasks[d].status !in {TPending, TRunning, TEscalated}
    ensures FailedOnPayload(w, pass, size, d)
  {
    hide Launch, Slots, AfterBlock, DepsComplete, LaunchesOnly;
    var w2 := AfterBlock(w);
    LaunchOutcome(w2, 0, Slots(w2, pass), pass.now, size, d);
    StillPending(w2.tasks[d], AfterLaunch(w, pass, size).tasks[d]);
  }

  lemma LaunchedFrom(w: World, pass: Pass, size: Json -> nat, t: Uuid)
    requires t in AfterLaunch(w, pass, size).tasks
    ensures AfterLaunch(w, pass, size).tasks.Keys == AfterBlock(w).tasks.Keys
    ensures LaunchesOnly(AfterBlock(w), AfterLaunch(w, pass, size))
    ensures SameSpec(AfterBlock(w).tasks[t], AfterLaunch(w, pass, size).tasks[t])
    ensures LaunchesTo(AfterBlock(w).tasks[t], AfterLaunch(w, pass, size).tasks[t])
  {
    hide Launch, Slots, AfterBlock;
    var w2 := AfterBlock(w);
    LaunchOutcome(w2, 0, Slots(w2, pass), pass.now, size, t);
  }
}
