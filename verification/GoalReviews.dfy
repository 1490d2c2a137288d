/** An approval that is cut off between its two writes: the review is resolved, the task never completes. */
module GoalReviews {
  import opened Prelude
  import opened Contracts
  import opened Goals
  import opened GoalSafety
  import Jobs
  import JobInvariant
  import GoalProgress

  /** The review of the task is accepted, its job asked for that review, and yet the task is not complete. */
  ghost predicate Stranded(w: World, t: Uuid) {
    && GoalInv(w) && t in w.tasks && w.tasks[t].status != TComplete
    && ResultIs(w, t, "escalated") && t in w.reviews && w.reviews[t] == ReviewAccepted
  }

  predicate Updates(write: Write, t: Uuid) {
    write.UpdateTask? && write.task == t
  }

  lemma WriteKeepsStranded(w: World, write: Write, t: Uuid, strict: bool)
    requires Stranded(w, t) && Legal(w, write, strict) && (Updates(write, t) ==> strict)
    ensures Stranded(Apply(w, write), t)
  {
    hide GoalInv, Jobs.Apply, DepsComplete, SamePlan, ResultFits, TaskResult;
    LegalKeeps(w, write, strict);
    if write.JobCall? { GrowthKeepsResult(w, write.call, write.now, t); }
  }

  lemma GrowthKeepsResult(w: World, call: Jobs.Call, now: Time, t: Uuid)
    requires GoalInv(w) && ResultIs(w, t, "escalated")
    ensures ResultIs(Apply(w, JobCall(call, now)), t, "escalated")
  {
    hide JobInvariant.Consistent, Jobs.Apply, PlanOk, TasksOk, InputsOk, ResultsOk, KeysOwned;
    CallsGrow(w.jobs, call, now);
  }

  /** Writes that move tasks forward, or leave this one alone. */
  lemma {:induction false} WritesKeepStranded(w: World, writes: seq<Write>, t: Uuid, strict: bool)
    requires Stranded(w, t) && AllLegal(w, writes, strict)
    requires strict || forall k :: 0 <= k < |writes| ==> !Updates(writes[k], t)
    ensures Stranded(ApplyAll(w, writes), t)
    decreases |writes|
  {
    hide Stranded, Legal;
    if writes != [] {
      WriteKeepsStranded(w, writes[0], t, strict);
      WritesKeepStranded(Apply(w, writes[0]), writes[1..], t, strict);
    }
  }

  lemma CutKeepsStranded(w: World, writes: seq<Write>, cut: nat, t: Uuid, strict: bool)
    requires Stranded(w, t) && AllLegal(w, writes, strict)
    requires strict || forall k :: 0 <= k < |writes| ==> !Updates(writes[k], t)
    ensures Stranded(ApplyAll(w, Take(writes, cut)), t)
  {
    hide Stranded, AllLegal;
    if cut < |writes| { AllLegalPrefix(w, writes, cut, strict); }
    WritesKeepStranded(w, Take(writes, cut), t, strict);
  }

  lemma ApproveKeepsStranded(w: World, u: Uuid, pass: Pass, cut: nat, size: Json -> nat, t: Uuid)
    requires Stranded(w, t) && Reviewable(w, u)
    ensures Stranded(ApplyAll(w, Take(Approve(w, u, pass, size), cut)), t)
  {
    hide GoalInv, AllLegal, Legal, Start, ApplyAll, ResultIs, Take;
    var accept := [ResolveReview(u, true), UpdateTask(u, APPROVED)];
    ResolvedLegal(w, u, true);
    var rest := Start(ApplyAll(w, accept), pass, size);
    if cut < 2 {
      assert (accept + rest)[..cut] == accept[..cut] by { assert cut <= |accept|; }
      TakeIsPrefix(accept + rest, cut);
      TakeIsPrefix(accept, cut);
      CutKeepsStranded(w, accept, cut, t, false);
    } else {
      WritesKeepStranded(w, accept, t, false);
      StartLegal(ApplyAll(w, accept), pass, size);
      CutKeepsStranded(ApplyAll(w, accept), rest, cut - 2, t, true);
      GoalProgress.TakeBeyond(accept, rest, cut);
      ApplyAllAppend(w, accept, Take(rest, cut - 2));
    }
  }

  lemma StepKeepsStranded(w: World, a: Attempted, size: Json -> nat, t: Uuid)
    requires Stranded(w, t)
    ensures Stranded(ApplyAll(w, Take(Writes(w, a.step, size), a.cut)), t)
  {
    hide GoalInv, AllLegal, Start, Reconcile, Cancel, Approve, ApplyAll, Take, ResultIs, AskedForReview, Outside;
    var writes := Writes(w, a.step, size);
    if a.step.ApproveTask? && Reviewable(w, a.step.task) {
      ApproveKeepsStranded(w, a.step.task, a.step.pass, a.cut, size, t);
    } else if GoalProgress.MovesForward(a.step) {
      match a.step
      case StartGoal(pass) => StartLegal(w, pass, size); CutKeepsStranded(w, writes, a.cut, t, true);
      case ReconcileGoal(pass) => ReconcileLegal(w, pass, size); CutKeepsStranded(w, writes, a.cut, t, true);
      case CancelGoal(now) => CancelLegal(w, now); CutKeepsStranded(w, writes, a.cut, t, true);
    } else {
      StepLegal(w, a.step, size);
      if a.step.ApproveTask? { NoApproval(w, a.step.task, a.step.pass, size); }
      CutKeepsStranded(w, writes, a.cut, t, false);
    }
  }

  lemma NoApproval(w: World, t: Uuid, pass: Pass, size: Json -> nat)
    requires !Reviewable(w, t)
    ensures Approve(w, t, pass, size) == [] && Reject(w, t) == []
  {
  }

  lemma {:induction false} RunKeepsStranded(w: World, run: seq<Attempted>, size: Json -> nat, t: Uuid)
    requires Stranded(w, t)
    ensures Stranded(RunGoal(w, run, size), t)
    decreases |run|
  {
    hide Stranded, Writes, Take, ApplyAll;
    if run != [] {
      StepKeepsStranded(w, run[0], size, t);
      RunKeepsStranded(ApplyAll(w, Take(Writes(w, run[0].step, size), run[0].cut)), run[1..], size, t);
    }
  }

  lemma ResolvedOnly(w: World, t: Uuid, pass: Pass, size: Json -> nat)
    requires GoalInv(w) && Reviewable(w, t)
    ensures Stranded(ApplyAll(w, Take(Approve(w, t, pass, size), 1)), t)
  {
    hide GoalInv, AllLegal, Start, TaskResult;
    var accept := [ResolveReview(t, true), UpdateTask(t, APPROVED)];
    ResolvedLegal(w, t, true);
    AllLegalPrefix(w, accept, 1, false);
    AllLegalKeeps(w, accept[..1], false);
    ReviewedTask(w, t);
    var rest := Start(ApplyAll(w, accept), pass, size);
    assert (accept + rest)[..1] == accept[..1] == [ResolveReview(t, true)];
    OneWrite(w, ResolveReview(t, true));
  }

  /** Main theorem. After whatever run, an acceptance that is cut off after the review was resolved and before
      the task was updated can never be made good: the review stays accepted, a second verdict on it is
      refused, and the task never completes. */
  lemma CutAcceptanceIsForEver(w0: World, before: seq<Attempted>, t: Uuid, pass: Pass, after: seq<Attempted>,
                               size: Json -> nat)
    requires Fresh(w0) && Reviewable(RunGoal(w0, before, size), t)
    ensures var w := RunGoal(w0, before, size);
      var v := RunGoal(ApplyAll(w, Take(Approve(w, t, pass, size), 1)), after, size);
      && t in v.tasks && v.tasks[t].status != TComplete && t in v.reviews && v.reviews[t] == ReviewAccepted
      && (forall p :: Approve(v, t, p, size) == []) && Reject(v, t) == []
  {
    hide GoalInv, Fresh, RunGoal, Approve, Reject, Take, ApplyAll, ResultIs;
    FreshIsGood(w0);
    RunKeeps(w0, before, size);
    var w := RunGoal(w0, before, size);
    ResolvedOnly(w, t, pass, size);
    var w1 := ApplyAll(w, Take(Approve(w, t, pass, size), 1));
    RunKeepsStranded(w1, after, size, t);
    forall p ensures Approve(RunGoal(w1, after, size), t, p, size) == [] { NoApproval(RunGoal(w1, after, size), t, p, size); }
    NoApproval(RunGoal(w1, after, size), t, pass, size);
  }
}
