/** What the user's and the reviewer's operations do to a goal, told from its rows before and after. */
module GoalActions {
  import opened Prelude
  import opened Contracts
  import opened Goals
  import opened GoalSafety
  import GoalLaunches
  import GoalProgress
  import GoalRounds
  import Jobs
  import JobInvariant
  import JobLaws

  // ---- start and pause ---------------------------------------------------------------

  /** A start of a ready, paused or running goal records itself and makes one pass; otherwise it does nothing. */
  lemma StartResumes(w: World, pass: Pass, size: Json -> nat)
    ensures var v := ApplyAll(w, Start(w, pass, size));
      if w.status == GReady || w.status == GPaused || w.status == GRunning
      then v == GoalRounds.AfterPass(w.(status := GRunning, events := w.events + [Event("resume", [])]), pass, size)
      else v == w
  {
    hide Reconcile;
    NoWrites(w);
    if Startable(w.status) {
      TwoWrites(w, RESUME[0], RESUME[1]);
      assert RESUME == [RESUME[0], RESUME[1]];
      ApplyAllAppend(w, RESUME, Reconcile(ApplyAll(w, RESUME), pass, size));
    }
  }

  lemma PauseHolds(w: World)
    ensures ApplyAll(w, Pause(w))
            == if w.status == GRunning then w.(status := GPaused, events := w.events + [Event("pause", [])]) else w
  {
    NoWrites(w);
    TwoWrites(w, SetStatus(GPaused), RecordEvent(Event("pause", [])));
  }

  // ---- cancellation ---------------------------------------------------------------------

  predicate Open(s: TaskStatus) {
    s == TPending || s == TRunning
  }

  /** The open tasks of the plan from position `i` on, in order. */
  function OpenFrom(w: World, i: nat): seq<Uuid>
    requires i <= |w.order|
    decreases |w.order| - i
  {
    if i == |w.order| then []
    else (if w.order[i] in w.tasks && Open(w.tasks[w.order[i]].status) then [w.order[i]] else []) + OpenFrom(w, i + 1)
  }

  /** What a cancellation makes of task `t`. */
  predicate TaskCancelled(w: World, v: World, t: Uuid)
    requires t in w.tasks
  {
    && t in v.tasks
    && v.tasks[t] == if Open(w.tasks[t].status) then w.tasks[t].(status := TCancelled) else w.tasks[t]
  }

  /** What cancelling task `t` leaves. */
  ghost predicate LeavesCancelled(w: World, v: World, t: Uuid)
    requires t in w.tasks
  {
    && TaskCancelled(w, v, t) && v.order == w.order && v.events == w.events && v.tasks == w.tasks[t := v.tasks[t]]
    && (w.tasks[t].status == TRunning ==> w.tasks[t].jobId.Some? && JobEnds(w, v, w.tasks[t].jobId.value))
    && (forall j :: j in w.jobs.jobs && Terminal(w.jobs.jobs[j].status) ==>
          j in v.jobs.jobs && v.jobs.jobs[j] == w.jobs.jobs[j])
    && (forall j :: j in w.jobs.jobs && !CancelsJob(w, t, j) ==> j in v.jobs.jobs && v.jobs.jobs[j] == w.jobs.jobs[j])
  }

  lemma OneCancelled(w: World, t: Uuid, now: Time)
    requires GoalInv(w) && t in w.tasks
    ensures LeavesCancelled(w, ApplyAll(w, CancelTask(w, t, now)), t)
  {
    hide GoalInv, Jobs.Apply, DepsComplete, ApplyAll, LeavesCancelled, TaskOk, ResultFits;
    var ws, last := CancelTask(w, t, now), UpdateTask(t, CANCELLED);
    NoWrites(w);
    OneWrite(w, last);
    if w.tasks[t].status == TRunning {
      RunningHasItsJob(w, t);
      RunningRecordJobs(w);
      var j := w.tasks[t].jobId.value;
      TwoWrites(w, JobCall(Jobs.Cancel(j), now), last);
      if Terminal(w.jobs.jobs[j].status) {
        assert ws == [last];
        CancelledAlone(w, t);
      } else {
        assert ws == [JobCall(Jobs.Cancel(j), now), last];
        CancelledWithJob(w, t, j, now);
      }
    } else {
      assert ws == if w.tasks[t].status == TPending then [last] else [];
      CancelledAlone(w, t);
    }
  }

  lemma CancelledAlone(w: World, t: Uuid)
    requires t in w.tasks
    requires w.tasks[t].status == TRunning ==> RecordsJob(w, t) && Terminal(w.jobs.jobs[w.tasks[t].jobId.value].status)
    ensures LeavesCancelled(w, if Open(w.tasks[t].status) then Apply(w, UpdateTask(t, CANCELLED)) else w, t)
  {
    hide SamePlan;
  }

  lemma CancelledWithJob(w: World, t: Uuid, j: Uuid, now: Time)
    requires GoalInv(w) && t in w.tasks && w.tasks[t].status == TRunning && w.tasks[t].jobId == Some(j)
    requires j in w.jobs.jobs && !Terminal(w.jobs.jobs[j].status)
    ensures LeavesCancelled(w, Apply(Apply(w, JobCall(Jobs.Cancel(j), now)), UpdateTask(t, CANCELLED)), t)
  {
    hide GoalInv, Jobs.CancelTx, JobInvariant.Consistent, SamePlan;
    CancelsOneJob(w, j, now);
  }

  /** The cancellation of task `t` reaches job `j`. */
  predicate CancelsJob(w: World, t: Uuid, j: Uuid)
    requires t in w.tasks
  {
    w.tasks[t].status == TRunning && w.tasks[t].jobId == Some(j)
  }

  /** The job was cancelled, or had already ended. */
  predicate JobEnds(w: World, v: World, j: Uuid) {
    && j in w.jobs.jobs && j in v.jobs.jobs
    && if Terminal(w.jobs.jobs[j].status) then v.jobs.jobs[j] == w.jobs.jobs[j] else v.jobs.jobs[j].status == Cancelled
  }

  lemma CancelsOneJob(w: World, j: Uuid, now: Time)
    requires GoalInv(w) && j in w.jobs.jobs && !Terminal(w.jobs.jobs[j].status)
    ensures var db' := Jobs.CancelTx(w.jobs, j, now).0;
      && j in db'.jobs && db'.jobs[j].status == Cancelled
      && forall i :: i in w.jobs.jobs && i != j ==> i in db'.jobs && db'.jobs[i] == w.jobs.jobs[i]
  {
    hide JobInvariant.Consistent, PlanOk, TasksOk, InputsOk, ResultsOk, KeysOwned;
    JobLaws.CancelDecides(w.jobs, j, now);
  }

  /** Cancelling from position `i` on. */
  ghost predicate CancelledFrom(w: World, v: World, i: nat)
    requires i <= |w.order|
  {
    && v.tasks.Keys == w.tasks.Keys && v.events == w.events && v.order == w.order
    && (forall t :: t in w.order[i..] && t in w.tasks ==> TaskCancelled(w, v, t))
    && (forall t :: t in w.tasks && t !in w.order[i..] ==> v.tasks[t] == w.tasks[t])
    && (forall t :: t in w.order[i..] && t in w.tasks && w.tasks[t].status == TRunning ==>
          w.tasks[t].jobId.Some? && JobEnds(w, v, w.tasks[t].jobId.value))
    && (forall j :: j in w.jobs.jobs && Terminal(w.jobs.jobs[j].status) ==>
              j in v.jobs.jobs && v.jobs.jobs[j] == w.jobs.jobs[j])
  }

  lemma {:induction false} CancelsFrom(w: World, i: nat, now: Time)
    requires GoalInv(w) && i <= |w.order|
    ensures CancelledFrom(w, ApplyAll(w, CancelTasks(w, i, now)), i)
    decreases |w.order| - i
  {
    hide GoalInv, CancelTask, ApplyAll, TaskCancelled, JobEnds, CancelledFrom, CancelsJob, PlanOk, RecordsJob, AllLegal;
    GoalProgress.PlanPart(w);
    if i == |w.order| {
      NoWrites(w);
      NothingCancelled(w);
    } else {
      var t := w.order[i];
      PlannedIsTask(w, i);
      var first := CancelTask(w, t, now);
      var w' := ApplyAll(w, first);
      OneCancelled(w, t, now);
      CancelTaskLegal(w, t, now);
      AllLegalKeeps(w, first, true);
      CancelsFrom(w', i + 1, now);
      ApplyAllAppend(w, first, CancelTasks(w', i + 1, now));
      RunningRecordJobs(w);
      CancelledStep(w, w', ApplyAll(w', CancelTasks(w', i + 1, now)), i);
    }
  }

  lemma PlannedIsTask(w: World, i: nat)
    requires PlanOk(w) && i < |w.order|
    ensures w.order[i] in w.tasks
  {
    assert w.order[i] in w.order;
  }

  lemma RunningRecordJobs(w: World)
    requires GoalInv(w)
    ensures forall u :: u in w.tasks && w.tasks[u].status == TRunning ==> RecordsJob(w, u)
  {
    hide GoalInv, DepsComplete;
    forall u | u in w.tasks && w.tasks[u].status == TRunning ensures RecordsJob(w, u) { RunningHasItsJob(w, u); }
  }

  lemma NothingCancelled(w: World)
    ensures CancelledFrom(w, w, |w.order|)
  {
  }

  lemma CancelledStep(w: World, w': World, v: World, i: nat)
    requires PlanOk(w) && i < |w.order| && w.order[i] in w.tasks && w'.order == w.order && w'.events == w.events
    requires w'.tasks.Keys == w.tasks.Keys && TaskCancelled(w, w', w.order[i]) && CancelledFrom(w', v, i + 1)
    requires w'.tasks == w.tasks[w.order[i] := w'.tasks[w.order[i]]]
    requires var t := w.order[i]; w.tasks[t].status == TRunning ==>
        w.tasks[t].jobId.Some? && JobEnds(w, w', w.tasks[t].jobId.value)
    requires forall j :: j in w.jobs.jobs && Terminal(w.jobs.jobs[j].status) ==>
        j in w'.jobs.jobs && w'.jobs.jobs[j] == w.jobs.jobs[j]
    requires forall j :: j in w.jobs.jobs && !CancelsJob(w, w.order[i], j) ==>
        j in w'.jobs.jobs && w'.jobs.jobs[j] == w.jobs.jobs[j]
    requires forall u :: u in w.tasks && w.tasks[u].status == TRunning ==> RecordsJob(w, u)
    ensures CancelledFrom(w, v, i)
  {
    hide PlanOk, JobEnds, TaskCancelled, CancelsJob;
    var t := w.order[i];
    RestOfPlan(w, i);
    assert v.tasks[t] == w'.tasks[t] && TaskCancelled(w, v, t) by { TaskBehind(w, w', v, t, t); }
    forall u | u in w.order[i + 1..] && u in w.tasks ensures TaskCancelled(w, v, u) {
      assert TaskCancelled(w', v, u);
      TaskBehind(w, w', v, t, u);
    }
    forall u | u in w.order[i..] && u in w.tasks && w.tasks[u].status == TRunning
      ensures w.tasks[u].jobId.Some? && JobEnds(w, v, w.tasks[u].jobId.value)
    {
      assert u != t ==> w'.tasks[u] == w.tasks[u];
      JobsEndBehind(w, w', v, t, u);
    }
  }

  lemma RestOfPlan(w: World, i: nat)
    requires PlanOk(w) && i < |w.order|
    ensures w.order[i] !in w.order[i + 1..]
    ensures forall u :: u in w.order[i..] <==> u == w.order[i] || u in w.order[i + 1..]
  {
    assert w.order[i..] == [w.order[i]] + w.order[i + 1..];
  }

  lemma TaskBehind(w: World, w': World, v: World, t: Uuid, u: Uuid)
    requires t in w.tasks && u in w.tasks && w'.tasks.Keys == v.tasks.Keys == w.tasks.Keys && TaskCancelled(w, w', t)
    requires u == t ==> v.tasks[t] == w'.tasks[t]
    requires u != t ==> w'.tasks[u] == w.tasks[u] && TaskCancelled(w', v, u)
    ensures TaskCancelled(w, v, u)
  {
  }

  predicate RecordsJob(w: World, t: Uuid)
    requires t in w.tasks
  {
    w.tasks[t].jobId.Some? && w.tasks[t].jobId.value in w.jobs.jobs
  }

  lemma JobsEndBehind(w: World, w': World, v: World, t: Uuid, u: Uuid)
    requires u in w.tasks && t in w.tasks && w.tasks[u].status == TRunning && RecordsJob(w, u)
    requires w.tasks[t].status == TRunning ==> RecordsJob(w, t) && JobEnds(w, w', w.tasks[t].jobId.value)
    requires u != t ==> JobEnds(w', v, w.tasks[u].jobId.value)
    requires forall j :: j in w.jobs.jobs && Terminal(w.jobs.jobs[j].status) ==>
        j in w'.jobs.jobs && w'.jobs.jobs[j] == w.jobs.jobs[j]
    requires forall j :: j in w.jobs.jobs && !CancelsJob(w, t, j) ==>
        j in w'.jobs.jobs && w'.jobs.jobs[j] == w.jobs.jobs[j]
    requires forall j :: j in w'.jobs.jobs && Terminal(w'.jobs.jobs[j].status) ==>
        j in v.jobs.jobs && v.jobs.jobs[j] == w'.jobs.jobs[j]
    ensures w.tasks[u].jobId.Some? && JobEnds(w, v, w.tasks[u].jobId.value)
  {
  }

  lemma {:induction false} AffectedAreOpen(w: World, i: nat)
    requires i <= |w.order|
    ensures Affected(w, i) == OpenFrom(w, i)
    decreases |w.order| - i
  {
    if i < |w.order| { AffectedAreOpen(w, i + 1); }
  }

  /** Main theorem. Cancelling a goal that has not ended cancels every pending and running task and the jobs of the
      running ones that are not over, leaves every other task alone, and records which tasks it reached. */
  lemma CancelEnds(w: World, now: Time)
    requires GoalInv(w)
    ensures var v := ApplyAll(w, Cancel(w, now));
      if w.status == GCancelled || w.status == GComplete || w.status == GFailed then v == w
      else
        && v.status == GCancelled && v.events == w.events + [Event("cancel", OpenFrom(w, 0))]
        && (forall t :: t in w.tasks ==> TaskCancelled(w, v, t))
        && (forall t :: t in w.tasks && w.tasks[t].status == TRunning ==>
              w.tasks[t].jobId.Some? && JobEnds(w, v, w.tasks[t].jobId.value))
        && (forall j :: j in w.jobs.jobs && Terminal(w.jobs.jobs[j].status) ==>
                  j in v.jobs.jobs && v.jobs.jobs[j] == w.jobs.jobs[j])
  {
    hide GoalInv, CancelTasks, Affected, OpenFrom, ApplyAll, JobEnds, TaskCancelled;
    NoWrites(w);
    if !(w.status == GCancelled || w.status == GComplete || w.status == GFailed) {
      GoalProgress.PlanPart(w);
      CancelsFrom(w, 0, now);
      AffectedAreOpen(w, 0);
      var mid := ApplyAll(w, CancelTasks(w, 0, now));
      var e := RecordEvent(Event("cancel", Affected(w, 0)));
      TwoWrites(mid, SetStatus(GCancelled), e);
      ApplyAllAppend(w, CancelTasks(w, 0, now), [SetStatus(GCancelled), e]);
      assert w.order[0..] == w.order;
      CancelledCarries(w, mid, ApplyAll(w, Cancel(w, now)));
    }
  }

  lemma CancelledCarries(w: World, v: World, v': World)
    requires PlanOk(w) && CancelledFrom(w, v, 0) && v'.tasks == v.tasks && v'.jobs == v.jobs
    ensures forall t :: t in w.tasks ==> TaskCancelled(w, v', t)
    ensures forall t :: t in w.tasks && w.tasks[t].status == TRunning ==>
        w.tasks[t].jobId.Some? && JobEnds(w, v', w.tasks[t].jobId.value)
    ensures forall j :: j in w.jobs.jobs && Terminal(w.jobs.jobs[j].status) ==>
        j in v'.jobs.jobs && v'.jobs.jobs[j] == w.jobs.jobs[j]
  {
    assert w.order[0..] == w.order;
    forall t | t in w.tasks ensures TaskCancelled(w, v', t) { assert t in w.order[0..]; assert TaskCancelled(w, v, t); }
    forall t | t in w.tasks && w.tasks[t].status == TRunning
      ensures w.tasks[t].jobId.Some? && JobEnds(w, v', w.tasks[t].jobId.value)
    {
      assert t in w.order[0..];
      assert JobEnds(w, v, w.tasks[t].jobId.value);
    }
  }

  // ---- verdicts -------------------------------------------------------------------------

  /** An acceptance completes the task with what it holds, and starts the goal. */
  lemma ApprovalCompletes(w: World, t: Uuid, pass: Pass, size: Json -> nat)
    ensures var v := ApplyAll(w, Approve(w, t, pass, size));
      if t in w.tasks && t in w.reviews && w.reviews[t] == ReviewPending
      then v == ApplyAll(Accepted(w, t), Start(Accepted(w, t), pass, size))
      else v == w
  {
    hide Start, ApplyAll, Jobs.Apply;
    NoWrites(w);
    if Reviewable(w, t) {
      var a, b := ResolveReview(t, true), UpdateTask(t, APPROVED);
      TwoWrites(w, a, b);
      ApplyAllAppend(w, [a, b], Start(ApplyAll(w, [a, b]), pass, size));
    }
  }

  function Accepted(w: World, t: Uuid): World
    requires t in w.tasks
  {
    w.(reviews := w.reviews[t := ReviewAccepted], tasks := w.tasks[t := w.tasks[t].(status := TComplete)])
  }

  lemma ThreeWrites(w: World, a: Write, b: Write, c: Write)
    ensures ApplyAll(w, [a, b, c]) == Apply(Apply(Apply(w, a), b), c)
  {
    hide Apply, ApplyAll;
    TwoWrites(w, a, b);
    OneWrite(ApplyAll(w, [a, b]), c);
    ApplyAllAppend(w, [a, b], [c]);
    assert [a, b] + [c] == [a, b, c];
  }

  /** A rejection fails the task and the goal. */
  lemma RejectionFails(w: World, t: Uuid)
    ensures ApplyAll(w, Reject(w, t))
            == if t in w.tasks && t in w.reviews && w.reviews[t] == ReviewPending
               then w.(reviews := w.reviews[t := ReviewRejected], status := GFailed,
                       tasks := w.tasks[t := w.tasks[t].(status := TFailed, error := Some("rejected by reviewer"))])
               else w
  {
    hide ApplyAll, Jobs.Apply;
    NoWrites(w);
    if Reviewable(w, t) {
      var a, b, c := ResolveReview(t, false), UpdateTask(t, REJECTED), SetStatus(GFailed);
      ThreeWrites(w, a, b, c);
    }
  }

  /** A review is published for a task exactly when its job committed a result that asks for one, and only once. */
  lemma ReviewIsPublishedOnce(w: World, t: Uuid, size: Json -> nat)
    ensures var v := ApplyAll(w, Writes(w, PublishReview(t), size));
      var asked := ResultIs(w, t, "escalated") && t in w.tasks;
      v == if asked && t !in w.reviews then w.(reviews := w.reviews[t := ReviewPending]) else w
  {
    hide Start, Reconcile, Pause, Cancel, Approve, Reject, Jobs.Apply, ApplyAll;
    NoWrites(w);
    OneWrite(w, AddReview(t));
  }

  // ---- reruns -----------------------------------------------------------------------------

  predicate IsRerun(e: Event, t: Uuid) {
    e.action == "rerun" && t in e.affected
  }

  /** How many reruns of the task are recorded. */
  function Reruns(events: seq<Event>, t: Uuid): nat {
    |set k | 0 <= k < |events| && IsRerun(events[k], t)|
  }

  lemma {:induction false} RunNumberCounts(events: seq<Event>, t: Uuid, n: nat)
    requires n <= |events|
    ensures RunNumber(events, t, n) == 1 + |set k | 0 <= k < n && IsRerun(events[k], t)|
  {
    var upTo := set k | 0 <= k < n && IsRerun(events[k], t);
    if n == 0 {
      assert upTo == {};
    } else {
      RunNumberCounts(events, t, n - 1);
      var before := set k | 0 <= k < n - 1 && IsRerun(events[k], t);
      assert upTo == if IsRerun(events[n - 1], t) then before + {n - 1} else before;
    }
  }

  /** A rerun puts the task back to running under a new job, with nothing left of its last outcome, and records
      itself. The job is enqueued under a key that counts the reruns recorded so far, with the task's own contract. */
  lemma RerunStartsOver(w: World, t: Uuid, payload: Json, now: Time)
    requires GoalInv(w) && t in w.tasks
    ensures var key := RerunKey(w.goalId, t, 1 + Reruns(w.events, t));
      var v := ApplyAll(w, Rerun(w, t, payload, now));
      && key in v.jobs.idempotency
      && v.tasks == w.tasks[t := w.tasks[t].(status := TRunning, confidence := None, result := None, error := None,
                                             jobId := Some(v.jobs.idempotency[key]), resolved := Some(payload))]
      && v.status == GRunning && v.events == w.events + [Event("rerun", [t])] && v.reviews == w.reviews
      && (key in w.jobs.idempotency ==> v.jobs == w.jobs)
      && (key !in w.jobs.idempotency ==> NewJobFor(w, v, t, payload, v.jobs.idempotency[key], key, now))
  {
    hide GoalInv, Jobs.Apply, SamePlan, RunNumber, Reruns, ApplyAll, RerunCall, NewJobFor;
    RunNumberCounts(w.events, t, |w.events|);
    assert RunNumber(w.events, t, |w.events|) == 1 + Reruns(w.events, t) by { RerunsAre(w.events, t); }
    var ws := Rerun(w, t, payload, now);
    FourWrites(w, ws[0], ws[1], ws[2], ws[3]);
    assert ws == [ws[0], ws[1], ws[2], ws[3]];
    RerunEnqueues(w, t, payload, now);
    var enqueued, v := w.(jobs := Jobs.Apply(w.jobs, RerunCall(w, t, payload), now)), ApplyAll(w, ws);
    if RerunKey(w.goalId, t, 1 + Reruns(w.events, t)) !in w.jobs.idempotency {
      SameNewJob(w, enqueued, v, t, payload, w.jobs.nextUuid, RerunKey(w.goalId, t, 1 + Reruns(w.events, t)), now);
    }
  }

  lemma RerunsAre(events: seq<Event>, t: Uuid)
    ensures Reruns(events, t) == |set k | 0 <= k < |events| && IsRerun(events[k], t)|
  {
  }

  /** Job `j` is new and queued, and carries the task's own contract with this payload. */
  predicate NewJobFor(w: World, v: World, t: Uuid, payload: Json, j: Uuid, key: Key, now: Time)
    requires t in w.tasks
  {
    && j !in w.jobs.jobs && j in v.jobs.jobs && GoalLaunches.PlainJob(v.jobs.jobs[j], now) && v.jobs.jobs[j].key == key
    && v.jobs.jobs[j].taskId == t && j in v.jobs.inputs
    && v.jobs.inputs[j] == TaskInput(t, GoalOrigin(w.goalId), w.tasks[t].skill, payload, w.threshold, w.workspaceRoot)
  }

  lemma SameNewJob(w: World, v: World, v': World, t: Uuid, payload: Json, j: Uuid, key: Key, now: Time)
    requires t in w.tasks && NewJobFor(w, v, t, payload, j, key, now) && v'.jobs == v.jobs
    ensures NewJobFor(w, v', t, payload, j, key, now)
  {
  }

  lemma RerunEnqueues(w: World, t: Uuid, payload: Json, now: Time)
    requires GoalInv(w) && t in w.tasks
    ensures var key := RerunKey(w.goalId, t, RunNumber(w.events, t, |w.events|));
      var v := w.(jobs := Jobs.Apply(w.jobs, RerunCall(w, t, payload), now));
      && key in v.jobs.idempotency
      && (key in w.jobs.idempotency ==> v.jobs == w.jobs)
      && (key !in w.jobs.idempotency ==>
            v.jobs.idempotency[key] == w.jobs.nextUuid && NewJobFor(w, v, t, payload, w.jobs.nextUuid, key, now))
  {
    hide JobInvariant.Consistent, PlanOk, TasksOk, InputsOk, ResultsOk, KeysOwned, RunNumber, Jobs.LogOf;
    var key := RerunKey(w.goalId, t, RunNumber(w.events, t, |w.events|));
    FreshUuid(w);
  }

  /** A later rerun of the same task gets another key: nothing takes a recorded event away. */
  lemma RerunKeysDiffer(w: World, t: Uuid, payload: Json, now: Time, later: World)
    requires GoalInv(w) && t in w.tasks
    requires ApplyAll(w, Rerun(w, t, payload, now)).events <= later.events && later.goalId == w.goalId
    ensures RerunKey(w.goalId, t, 1 + Reruns(w.events, t)) != RerunKey(later.goalId, t, 1 + Reruns(later.events, t))
  {
    hide GoalInv, Rerun, ApplyAll, NewJobFor;
    RerunStartsOver(w, t, payload, now);
    MoreReruns(w.events, later.events, t);
  }

  lemma MoreReruns(events: seq<Event>, later: seq<Event>, t: Uuid)
    requires events + [Event("rerun", [t])] <= later
    ensures Reruns(later, t) > Reruns(events, t)
  {
    var before := set k | 0 <= k < |events| && IsRerun(events[k], t);
    var after := set k | 0 <= k < |later| && IsRerun(later[k], t);
    assert later[|events|] == Event("rerun", [t]);
    assert before + {|events|} <= after;
    SubsetIsSmaller(before + {|events|}, after);
  }
}
