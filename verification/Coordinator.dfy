/** GoalStore and DurableGoalCoordinator: the methods that drive one goal. Every write they commit is
    recorded in `trace`, so a crash between two writes leaves a prefix of what the method would add. */
module Coordinator {
  import opened Prelude
  import opened Contracts
  import opened Goals
  import GoalProgress
  import GoalSafety
  import JobInvariant
  import Jobs
  import JobRepository
  import Planner
  import Substitution

  /** A task as the store returns it. */
  datatype Row = Row(taskId: Uuid, task: PlannedTask)

  /** Why an operation raised without writing anything. */
  datatype GoalError =
    | WrongStatus(status: GoalStatus)
    | NoSuchTask
    | TaskNotRerunnable(task: TaskStatus)
    | Unresolved(payload: Substitution.PayloadError)

  class GoalStore {
    const goalId: Uuid
    const threshold: real
    const workspaceRoot: string
    var status: GoalStatus
    var order: seq<Uuid>
    var tasks: map<Uuid, PlannedTask>
    var events: seq<Event>

    ghost predicate Valid()
      reads this
    {
      && (forall i, k :: 0 <= i < k < |order| ==> order[i] != order[k])
      && (forall t :: t in order <==> t in tasks)
      && (forall t, d :: t in tasks && d in tasks[t].dependsOn ==> d in tasks)
    }

    constructor (goalId: Uuid, threshold: real, workspaceRoot: string)
      ensures Valid() && status == GPlanning && order == [] && tasks == map[] && events == []
      ensures this.goalId == goalId && this.threshold == threshold && this.workspaceRoot == workspaceRoot
    {
      this.goalId, this.threshold, this.workspaceRoot := goalId, threshold, workspaceRoot;
      status, order, tasks, events := GPlanning, [], map[], [];
    }

    /** Stores the first plan of the goal; a gated plan waits for a reviewer. */
    method SavePlan(plan: Planner.Plan, gated: bool)
      requires tasks == map[] && order == []
      requires (forall i, k :: 0 <= i < k < |plan.order| ==> plan.order[i] != plan.order[k])
      requires forall t :: t in plan.order <==> t in plan.tasks
      requires forall t, d :: t in plan.tasks && d in plan.tasks[t].dependsOn ==> d in plan.tasks
      modifies this
      ensures Valid() && order == plan.order && tasks == plan.tasks && events == old(events)
      ensures status == if gated then GPaused else GReady
    {
      for i := 0 to |plan.order|
        invariant order == plan.order[..i] && events == old(events)
        invariant forall t :: t in tasks <==> t in plan.order[..i]
        invariant forall t :: t in tasks ==> t in plan.tasks && tasks[t] == plan.tasks[t]
      {
        order := order + [plan.order[i]];
        tasks := tasks[plan.order[i] := plan.tasks[plan.order[i]]];
      }
      assert plan.order[..|plan.order|] == plan.order;
      status := if gated then GPaused else GReady;
    }

    method GetTasks() returns (rows: seq<Row>)
      requires Valid()
      ensures |rows| == |order|
      ensures forall i :: 0 <= i < |rows| ==> order[i] in tasks && rows[i] == Row(order[i], tasks[order[i]])
    {
      rows := [];
      for i := 0 to |order|
        invariant |rows| == i
        invariant forall k :: 0 <= k < i ==> order[k] in tasks && rows[k] == Row(order[k], tasks[order[k]])
      {
        assert order[i] in order;
        rows := rows + [Row(order[i], tasks[order[i]])];
      }
    }

    method UpdateTask(t: Uuid, p: Patch)
      modifies this`tasks
      ensures tasks == if t in old(tasks) then old(tasks)[t := Patched(old(tasks)[t], p)] else old(tasks)
    {
      if t in tasks { tasks := tasks[t := Patched(tasks[t], p)]; }
    }

    method SetGoalStatus(s: GoalStatus)
      modifies this`status
      ensures status == s
    {
      status := s;
    }

    method RecordEvent(e: Event)
      modifies this`events
      ensures events == old(events) + [e]
    {
      events := events + [e];
    }
  }

  class DurableGoalCoordinator {
    const store: GoalStore
    const jobs: JobRepository.SqliteJobRepository
    const perGoalLimit: int
    const globalLimit: int
    /** The rows of the review queue, which the coordinator never writes. */
    const reviews: map<Uuid, ReviewStatus>
    ghost var trace: seq<Write>

    ghost predicate Valid()
      reads this, store, jobs
    {
      store.Valid() && jobs.Valid()
    }

    ghost function State(): World
      reads this, store, jobs
    {
      World(store.goalId, store.status, store.threshold, store.workspaceRoot, store.order, store.tasks,
            store.events, jobs.Tables(), reviews)
    }

    constructor (store: GoalStore, jobs: JobRepository.SqliteJobRepository, perGoalLimit: int, globalLimit: int,
                 reviews: map<Uuid, ReviewStatus>)
      requires store.Valid() && jobs.Valid()
      ensures Valid() && trace == []
      ensures this.store == store && this.jobs == jobs && this.reviews == reviews
      ensures this.perGoalLimit == perGoalLimit && this.globalLimit == globalLimit
    {
      this.store, this.jobs, this.reviews := store, jobs, reviews;
      this.perGoalLimit, this.globalLimit, this.trace := perGoalLimit, globalLimit, [];
    }

    lemma PlanHolds()
      requires Valid()
      ensures GoalSafety.PlanOk(State())
    {
    }

    // ---- one committed write each --------------------------------------------------

    method Update(t: Uuid, p: Patch)
      requires Valid()
      modifies this`trace, store`tasks
      ensures Valid()
      ensures State() == Apply(old(State()), UpdateTask(t, p)) && trace == old(trace) + [UpdateTask(t, p)]
    {
      hide JobInvariant.Consistent;
      store.UpdateTask(t, p);
      trace := trace + [Goals.UpdateTask(t, p)];
    }

    method SetGoal(s: GoalStatus)
      requires Valid()
      modifies this`trace, store`status
      ensures Valid()
      ensures State() == Apply(old(State()), SetStatus(s)) && trace == old(trace) + [SetStatus(s)]
    {
      store.SetGoalStatus(s);
      trace := trace + [SetStatus(s)];
    }

    method Record(e: Event)
      requires Valid()
      modifies this`trace, store`events
      ensures Valid()
      ensures State() == Apply(old(State()), RecordEvent(e)) && trace == old(trace) + [RecordEvent(e)]
    {
      store.RecordEvent(e);
      trace := trace + [Goals.RecordEvent(e)];
    }

    /** Enqueues the job of a task under the task's own key. */
    method Submit(t: Uuid, payload: Json, now: Time) returns (j: Uuid)
      requires Valid() && t in store.tasks
      modifies this`trace, jobs
      ensures Valid()
      ensures j == EnqueuedJob(old(State()), t)
      ensures var w := old(State());
        && State() == Apply(w, JobCall(EnqueueCall(w, t, payload), now))
        && trace == old(trace) + [JobCall(EnqueueCall(w, t, payload), now)]
    {
      hide JobInvariant.Consistent, Jobs.NewJob, Jobs.LogOf;
      ghost var w := State();
      var input := TaskInput(t, GoalOrigin(store.goalId), store.tasks[t].skill, payload, store.threshold, store.workspaceRoot);
      var r := jobs.Enqueue(t, Some(input), TaskKey(store.goalId, t), 0, DEFAULT_RETRY, now);
      assert r.Ok?;
      j := r.value;
      trace := trace + [JobCall(EnqueueCall(w, t, payload), now)];
    }

    method CancelJob(j: Uuid, now: Time)
      requires Valid()
      modifies this`trace, jobs
      ensures Valid()
      ensures State() == Apply(old(State()), JobCall(Jobs.Cancel(j), now))
      ensures trace == old(trace) + [JobCall(Jobs.Cancel(j), now)]
    {
      hide JobInvariant.Consistent, Jobs.CancelTx;
      var _ := jobs.Cancel(j, now);
      trace := trace + [JobCall(Jobs.Cancel(j), now)];
    }

    // ---- intake of job outcomes --------------------------------------------------------

    method JobOf(t: Uuid) returns (j: Option<Uuid>)
      requires Valid() && t in store.tasks
      ensures j == FindJob(State(), t)
    {
      var recorded := store.tasks[t].jobId;
      if recorded.Some? {
        var row := jobs.GetJob(recorded.value);
        j := if row.Some? then recorded else None;
      } else {
        j := jobs.GetJobByKey(TaskKey(store.goalId, t));
      }
    }

    /** Takes up the outcome of the job of running task `t`; `stop` when the goal was paused for it. */
    method TakeOutcome(t: Uuid) returns (stop: bool)
      requires Valid() && t in store.tasks
      modifies this`trace, store`tasks, store`status
      ensures Valid()
      ensures var phase := IntakeTask(old(State()), t);
        && stop == phase.stop && trace == old(trace) + phase.writes
        && State() == ApplyAll(old(State()), phase.writes)
    {
      hide JobInvariant.Consistent, Apply, ApplyAll, TaskResult, Confidence, FailureText, Patched, SamePlan;
      ghost var w := State();
      stop := false;
      NoWrites(w);
      var j := JobOf(t);
      if j.None? {
        OneWrite(w, UpdateTask(t, NO_CHANGE.(status := Set(TPending), jobId := Set(None))));
        Update(t, NO_CHANGE.(status := Set(TPending), jobId := Set(None)));
        return;
      }
      var row := jobs.GetJob(j.value);
      match row.value.status
      case Completed =>
        var stored := jobs.GetResult(j.value);
        var r := if stored.Some? then stored.value else EMPTY_RESULT;
        stop := TakeResult(t, r);
      case Failed =>
        OneWrite(w, UpdateTask(t, NO_CHANGE.(status := Set(TFailed), error := Set(Some("failed")))));
        Update(t, NO_CHANGE.(status := Set(TFailed), error := Set(Some("failed"))));
      case Cancelled =>
        OneWrite(w, UpdateTask(t, NO_CHANGE.(status := Set(TFailed), error := Set(Some("cancelled")))));
        Update(t, NO_CHANGE.(status := Set(TFailed), error := Set(Some("cancelled"))));
      case _ =>
    }

    method TakeResult(t: Uuid, r: JobResult) returns (stop: bool)
      requires Valid() && t in store.tasks
      modifies this`trace, store`tasks, store`status
      ensures Valid()
      ensures var phase := IntakeResult(old(State()), t, r);
        && stop == phase.stop && trace == old(trace) + phase.writes
        && State() == ApplyAll(old(State()), phase.writes)
    {
      hide JobInvariant.Consistent, Apply, ApplyAll, TaskResult, Confidence, FailureText, Patched, SamePlan;
      ghost var w := State();
      stop := false;
      if r.status == "complete" && Confidence(r) >= store.threshold {
        var p := NO_CHANGE.(status := Set(TComplete), confidence := Set(r.confidence), result := Set(Some(TaskResult(r))));
        OneWrite(w, UpdateTask(t, p));
        Update(t, p);
      } else if r.status == "failed" || r.status == "no_agent_found" {
        var p := NO_CHANGE.(status := Set(TFailed), confidence := Set(r.confidence), error := Set(Some(FailureText(r))));
        OneWrite(w, UpdateTask(t, p));
        Update(t, p);
      } else {
        var p := NO_CHANGE.(status := Set(TEscalated), confidence := Set(r.confidence), result := Set(Some(TaskResult(r))));
        TwoWrites(w, UpdateTask(t, p), SetStatus(GPaused));
        Update(t, p);
        SetGoal(GPaused);
        stop := true;
      }
    }

    method GetRows() returns (rows: seq<Row>)
      requires Valid()
      ensures UpToDate(rows, State(), 0)
    {
      rows := store.GetTasks();
    }

    /** The loop over the running tasks. */
    method TakeOutcomes() returns (stop: bool)
      requires Valid()
      modifies this`trace, store`tasks, store`status
      ensures Valid()
      ensures var phase := Intake(old(State()), 0);
        && stop == phase.stop && trace == old(trace) + phase.writes
        && State() == ApplyAll(old(State()), phase.writes)
    {
      hide JobInvariant.Consistent, GoalStore.Valid, Apply, ApplyAll, IntakeTask;
      hide Intake, UpToDate, IntakeAt, SamePlan, TouchesOnly;
      ghost var w, before := State(), trace;
      ghost var done: seq<Write> := [];
      var rows := GetRows();
      IntakeStarts(w);
      for i := 0 to |rows|
        invariant Valid() && UpToDate(rows, State(), i)
        invariant trace == before + done && IntakeAt(w, done, State(), i)
      {
        ghost var now := State();
        var t := rows[i].taskId;
        RowIs(rows, now, i);
        IntakeSteps(w, done, now, i);
        if rows[i].task.status == TRunning {
          ghost var phase := IntakeTask(now, t);
          stop := TakeOutcome(t);
          if stop { return; }
          IntakeTouchesOnly(now, t);
          done := done + phase.writes;
        }
        StaysUpToDate(rows, now, State(), i);
      }
      IntakeEnds(w, done, State(), |rows|);
      stop := false;
    }

    // ---- blocking ------------------------------------------------------------------------

    /** Blocks, until nothing changes, every pending task with a failed, blocked or cancelled dependency. */
    method BlockDependents(rows: seq<Row>)
      requires Valid() && UpToDate(rows, State(), 0)
      modifies this`trace, store`tasks
      ensures Valid()
      ensures var writes := Block(old(State()), 0, false);
        trace == old(trace) + writes && State() == ApplyAll(old(State()), writes)
    {
      hide JobInvariant.Consistent, GoalStore.Valid, Apply, ApplyAll, Block, UpToDate;
      hide BlockAt, BlockRows, SamePlan, WithStatus, TouchesOnly, GoalSafety.PlanOk;
      ghost var w, before := State(), trace;
      ghost var done: seq<Write> := [];
      var failedIds := set r | r in rows && Blocking(r.task.status) :: r.taskId;
      PlanHolds();
      BlockStarts(w, rows, failedIds);
      var changed := true;
      while changed
        invariant Valid() && BlockRows(rows, failedIds, State())
        invariant trace == before + done && State() == ApplyAll(w, done)
        invariant if changed then BlockAt(w, done, State(), 0, false) else Block(w, 0, false) == done
        decreases WithStatus(State(), TPending), changed
      {
        changed := false;
        ghost var pending := WithStatus(State(), TPending);
        for i := 0 to |rows|
          invariant Valid() && BlockRows(rows, failedIds, State())
          invariant trace == before + done && BlockAt(w, done, State(), i, changed)
          invariant if changed then WithStatus(State(), TPending) < pending else WithStatus(State(), TPending) == pending
        {
          ghost var now := State();
          var t := rows[i].taskId;
          BlockSteps(w, done, now, i, changed, rows, failedIds);
          if MustBlock(rows[i], failedIds) {
            Update(t, BLOCKED);
            failedIds := failedIds + {t};
            changed := true;
            done := done + [UpdateTask(t, BLOCKED)];
          }
        }
        BlockScanEnds(w, done, State(), |rows|, changed, rows, failedIds);
      }
    }

    // ---- launching -------------------------------------------------------------------------

    method FreeSlots(globalRunning: int) returns (slots: int)
      requires Valid()
      ensures forall now :: slots == Slots(State(), Pass(perGoalLimit, globalLimit, globalRunning, now))
    {
      var running := set t | t in store.tasks && store.tasks[t].status == TRunning;
      assert running == WithStatus(State(), TRunning);
      var own, all := perGoalLimit - |running|, globalLimit - globalRunning;
      slots := if own <= all then own else all;
    }

    /** Enqueues the job of a task, then records it as running. */
    method LaunchTask(t: Uuid, payload: Json, now: Time)
      requires Valid() && t in store.tasks
      modifies this`trace, store`tasks, jobs
      ensures Valid()
      ensures var w := old(State());
        var enqueue, start := JobCall(EnqueueCall(w, t, payload), now), UpdateTask(t, StartPatch(EnqueuedJob(w, t), payload));
        trace == old(trace) + [enqueue, start] && State() == Apply(Apply(w, enqueue), start)
    {
      hide JobInvariant.Consistent, GoalStore.Valid, Apply, EnqueueCall, EnqueuedJob, SamePlan;
      var j := Submit(t, payload, now);
      Update(t, StartPatch(j, payload));
    }

    /** Launches pending tasks, in plan order, while a slot is free. `byId` was read before the blocking loop. */
    method LaunchReady(byId: map<Uuid, PlannedTask>, globalRunning: int, now: Time, size: Json -> nat)
      requires Valid() && Stale(byId, State())
      modifies this`trace, store`tasks, jobs
      ensures Valid()
      ensures var w := old(State());
        var writes := Launch(w, 0, Slots(w, Pass(perGoalLimit, globalLimit, globalRunning, now)), now, size);
        trace == old(trace) + writes && State() == ApplyAll(w, writes)
    {
      hide JobInvariant.Consistent, GoalStore.Valid, Apply, ApplyAll, Launch;
      hide UpToDate, LaunchAt, Stale, SamePlan, Slots;
      hide TouchesOnly, GoalSafety.PlanOk, EnqueueCall, EnqueuedJob, Substitution.ResolvePayload;
      ghost var w, before := State(), trace;
      ghost var done: seq<Write> := [];
      var rows := GetRows();
      var slots := FreeSlots(globalRunning);
      LaunchStarts(w, slots, now, size);
      ghost var slots0 := slots;
      for i := 0 to |rows|
        invariant Valid() && UpToDate(rows, State(), i) && Stale(byId, State())
        invariant trace == before + done && LaunchAt(w, slots0, now, size, done, State(), i, slots)
      {
        if slots <= 0 {
          LaunchEnds(w, slots0, now, size, done, State(), i, slots);
          return;
        }
        ghost var here := State();
        var t := rows[i].taskId;
        RowIs(rows, here, i);
        PlanHolds();
        StaleRow(byId, here, t, size);
        LaunchSteps(w, slots0, now, size, done, here, i, slots);
        if rows[i].task.status == TPending && Ready(rows[i].task, byId) {
          var payload := Substitution.ResolvePayload(rows[i].task, byId, size);
          match payload
          case Err(_) =>
            StaysStale(byId, here, t, UNRESOLVED);
            Update(t, UNRESOLVED);
            TouchesOne(here, t, UNRESOLVED);
            done := done + [UpdateTask(t, UNRESOLVED)];
          case Ok(p) =>
            ghost var writes := [JobCall(EnqueueCall(here, t, p), now), UpdateTask(t, StartPatch(EnqueuedJob(here, t), p))];
            LaunchedTouches(byId, here, t, p, now);
            LaunchTask(t, p, now);
            slots := slots - 1;
            done := done + writes;
        }
        StaysUpToDate(rows, here, State(), i);
      }
      LaunchEnds(w, slots0, now, size, done, State(), |rows|, slots);
    }

    // ---- the verdict ---------------------------------------------------------------------------

    method Judge()
      requires Valid()
      modifies this`trace, store`status, store`events
      ensures Valid()
      ensures trace == old(trace) + Verdict(old(State())) && State() == ApplyAll(old(State()), Verdict(old(State())))
    {
      hide JobInvariant.Consistent, GoalStore.Valid, Apply, ApplyAll, SamePlan;
      ghost var w := State();
      NoWrites(w);
      var statuses := set t | t in store.tasks :: store.tasks[t].status;
      assert forall t :: t in w.tasks ==> w.tasks[t].status in statuses;
      if statuses <= {TComplete} {
        TwoWrites(w, SetStatus(GComplete), RecordEvent(Event("complete", [])));
        SetGoal(GComplete);
        Record(Event("complete", []));
      } else if statuses * {TPending, TRunning} == {} {
        OneWrite(w, SetStatus(GFailed));
        OnlyFinished(statuses);
        SetGoal(GFailed);
      }
    }

    // ---- the operations ----------------------------------------------------------------------------

    /** One pass over the goal; `globalRunning` is the number of running jobs it counts. */
    method Reconcile(globalRunning: int, now: Time, size: Json -> nat)
      requires Valid()
      modifies this`trace, store, jobs
      ensures Valid()
      ensures var writes := Goals.Reconcile(old(State()), Pass(perGoalLimit, globalLimit, globalRunning, now), size);
        trace == old(trace) + writes && State() == ApplyAll(old(State()), writes)
    {
      hide JobInvariant.Consistent, GoalStore.Valid, Apply, ApplyAll, SamePlan, Launch;
      hide Block, Intake, Verdict, UpToDate, Stale, Slots;
      ghost var w, before := State(), trace;
      NoWrites(w);
      if store.status != GRunning { return; }
      var stop := TakeOutcomes();
      if stop { return; }
      ghost var w1 := State();
      PlanHolds();
      var rows := GetRows();
      var byId := ById(rows, w1);
      BlockDependents(rows);
      ghost var w2 := State();
      BlockingKeepsStale(byId, w1);
      LaunchReady(byId, globalRunning, now, size);
      ghost var w3 := State();
      Judge();
      ghost var pass := Pass(perGoalLimit, globalLimit, globalRunning, now);
      ghost var a, b, c := Intake(w, 0).writes, Block(w1, 0, false), Launch(w2, 0, Slots(w2, pass), now, size);
      ApplyAllAppend(w, a, b);
      ApplyAllAppend(w, a + b, c);
      ApplyAllAppend(w, a + b + c, Verdict(w3));
    }

    method Start(globalRunning: int, now: Time, size: Json -> nat) returns (r: Result<(), GoalError>)
      requires Valid()
      modifies this`trace, store, jobs
      ensures Valid()
      ensures r == if Startable(old(store.status)) then Ok(()) else Err(WrongStatus(old(store.status)))
      ensures var writes := Goals.Start(old(State()), Pass(perGoalLimit, globalLimit, globalRunning, now), size);
        trace == old(trace) + writes && State() == ApplyAll(old(State()), writes)
    {
      hide JobInvariant.Consistent, GoalStore.Valid, Apply, ApplyAll, SamePlan, Goals.Reconcile;
      ghost var w := State();
      NoWrites(w);
      if !(store.status == GReady || store.status == GPaused || store.status == GRunning) {
        return Err(WrongStatus(store.status));
      }
      TwoWrites(w, SetStatus(GRunning), RecordEvent(Event("resume", [])));
      SetGoal(GRunning);
      Record(Event("resume", []));
      ghost var resumed := State();
      Reconcile(globalRunning, now, size);
      ApplyAllAppend(w, RESUME, Goals.Reconcile(resumed, Pass(perGoalLimit, globalLimit, globalRunning, now), size));
      return Ok(());
    }

    method Pause() returns (r: Result<(), GoalError>)
      requires Valid()
      modifies this`trace, store`status, store`events
      ensures Valid()
      ensures r == if old(store.status) in {GPaused, GRunning} then Ok(()) else Err(WrongStatus(old(store.status)))
      ensures trace == old(trace) + Goals.Pause(old(State())) && State() == ApplyAll(old(State()), Goals.Pause(old(State())))
    {
      hide JobInvariant.Consistent, GoalStore.Valid, Apply, ApplyAll, SamePlan;
      ghost var w := State();
      NoWrites(w);
      if store.status == GPaused { return Ok(()); }
      if store.status != GRunning { return Err(WrongStatus(store.status)); }
      TwoWrites(w, SetStatus(GPaused), RecordEvent(Event("pause", [])));
      SetGoal(GPaused);
      Record(Event("pause", []));
      return Ok(());
    }

    method CancelOne(t: Uuid, status: TaskStatus, now: Time) returns (affected: bool)
      requires Valid() && t in store.tasks && store.tasks[t].status == status
      modifies this`trace, store`tasks, jobs
      ensures Valid()
      ensures affected <==> status == TRunning || status == TPending
      ensures var writes := CancelTask(old(State()), t, now);
        trace == old(trace) + writes && State() == ApplyAll(old(State()), writes)
    {
      hide JobInvariant.Consistent, GoalStore.Valid, Apply, ApplyAll, SamePlan;
      ghost var w := State();
      NoWrites(w);
      OneWrite(w, UpdateTask(t, CANCELLED));
      assert [] + [UpdateTask(t, CANCELLED)] == [UpdateTask(t, CANCELLED)];
      affected := false;
      if status == TRunning {
        var j := store.tasks[t].jobId;
        if j.Some? {
          var row := jobs.GetJob(j.value);
          if row.Some? && (row.value.status == Queued || row.value.status == Running) {
            ghost var call := JobCall(Jobs.Cancel(j.value), now);
            TwoWrites(w, call, UpdateTask(t, CANCELLED));
            assert [call] + [UpdateTask(t, CANCELLED)] == [call, UpdateTask(t, CANCELLED)];
            CancelJob(j.value, now);
          }
        }
        Update(t, CANCELLED);
        affected := true;
      } else if status == TPending {
        Update(t, CANCELLED);
        affected := true;
      }
    }

    /** Cancels every running or pending task, and the jobs of the running ones. */
    method CancelAll(now: Time) returns (affected: seq<Uuid>)
      requires Valid()
      modifies this`trace, store`tasks, jobs
      ensures Valid()
      ensures affected == Affected(old(State()), 0)
      ensures var writes := CancelTasks(old(State()), 0, now);
        trace == old(trace) + writes && State() == ApplyAll(old(State()), writes)
    {
      hide JobInvariant.Consistent, GoalStore.Valid, Apply, ApplyAll;
      hide SamePlan, UpToDate, CancelAt, CancelTask, TouchesOnly;
      ghost var w, before := State(), trace;
      NoWrites(w);
      affected := [];
      ghost var done: seq<Write> := [];
      var rows := GetRows();
      CancelStarts(w, now);
      for i := 0 to |rows|
        invariant Valid() && UpToDate(rows, State(), i) && UpToDate(rows, w, 0)
        invariant trace == before + done && CancelAt(w, now, done, State(), i, affected)
      {
        ghost var here := State();
        var t := rows[i].taskId;
        RowIs(rows, here, i);
        CancelSteps(w, now, done, here, i, affected, rows);
        CancelTouchesOnly(here, t, now);
        var hit := CancelOne(t, rows[i].task.status, now);
        if hit { affected := affected + [t]; }
        done := done + CancelTask(here, t, now);
        StaysUpToDate(rows, here, State(), i);
      }
      CancelEnds(w, now, done, State(), |rows|, affected, rows);
    }

    method Cancel(now: Time) returns (r: Result<(), GoalError>)
      requires Valid()
      modifies this`trace, store, jobs
      ensures Valid()
      ensures r == if old(store.status) in {GComplete, GFailed} then Err(WrongStatus(old(store.status))) else Ok(())
      ensures var writes := Goals.Cancel(old(State()), now);
        trace == old(trace) + writes && State() == ApplyAll(old(State()), writes)
    {
      hide JobInvariant.Consistent, GoalStore.Valid, Apply, ApplyAll, SamePlan, CancelTasks;
      ghost var w := State();
      NoWrites(w);
      if store.status == GCancelled { return Ok(()); }
      if store.status == GComplete || store.status == GFailed { return Err(WrongStatus(store.status)); }
      var affected := CancelAll(now);
      ghost var last := [SetStatus(GCancelled), RecordEvent(Event("cancel", affected))];
      ApplyAllAppend(w, CancelTasks(w, 0, now), last);
      TwoWrites(State(), SetStatus(GCancelled), RecordEvent(Event("cancel", affected)));
      SetGoal(GCancelled);
      Record(Event("cancel", affected));
      return Ok(());
    }

    method CountRuns(t: Uuid) returns (run: nat)
      ensures run == RunNumber(store.events, t, |store.events|)
    {
      run := 1;
      for i := 0 to |store.events|
        invariant run == RunNumber(store.events, t, i)
      {
        if store.events[i].action == "rerun" && t in store.events[i].affected { run := run + 1; }
      }
    }

    /** Runs a finished task again under a new key. */
    method Rerun(t: Uuid, now: Time, size: Json -> nat) returns (r: Result<(), GoalError>)
      requires Valid()
      modifies this`trace, store, jobs
      ensures Valid()
      ensures r.Ok? <==> t in old(store.tasks) && old(store.tasks)[t].status in {TFailed, TEscalated, TComplete}
                         && Substitution.ResolvePayload(old(store.tasks)[t], old(store.tasks), size).Ok?
      ensures r.Err? ==> trace == old(trace) && State() == old(State())
      ensures r.Ok? ==>
        var payload := Substitution.ResolvePayload(old(store.tasks)[t], old(store.tasks), size).value;
        var writes := Goals.Rerun(old(State()), t, payload, now);
        trace == old(trace) + writes && State() == ApplyAll(old(State()), writes)
    {
      hide JobInvariant.Consistent, GoalStore.Valid, Apply, ApplyAll, SamePlan, RunNumber, Substitution.ResolvePayload;
      if t !in store.tasks { return Err(NoSuchTask); }
      var task := store.tasks[t];
      if task.status != TFailed && task.status != TEscalated && task.status != TComplete {
        return Err(TaskNotRerunnable(task.status));
      }
      var run := CountRuns(t);
      var resolved := Substitution.ResolvePayload(task, store.tasks, size);
      match resolved
      case Err(e) => return Err(Unresolved(e));
      case Ok(payload) =>
        ghost var w := State();
        ghost var a := JobCall(RerunCall(w, t, payload), now);
        var j := Resubmit(t, payload, run, now);
        ghost var b := UpdateTask(t, RerunPatch(j, payload));
        ghost var c, d := SetStatus(GRunning), RecordEvent(Event("rerun", [t]));
        FourWrites(w, a, b, c, d);
        Update(t, RerunPatch(j, payload));
        SetGoal(GRunning);
        Record(Event("rerun", [t]));
        return Ok(());
    }

    method Resubmit(t: Uuid, payload: Json, run: nat, now: Time) returns (j: Uuid)
      requires Valid() && t in store.tasks && run == RunNumber(store.events, t, |store.events|)
      modifies this`trace, jobs
      ensures Valid()
      ensures var w := old(State());
        && State() == Apply(w, JobCall(RerunCall(w, t, payload), now))
        && trace == old(trace) + [JobCall(RerunCall(w, t, payload), now)]
        && j == if RerunKey(w.goalId, t, run) in w.jobs.idempotency then w.jobs.idempotency[RerunKey(w.goalId, t, run)]
                else w.jobs.nextUuid
    {
      hide JobInvariant.Consistent, Jobs.NewJob, Jobs.LogOf, RunNumber;
      ghost var w := State();
      var input := TaskInput(t, GoalOrigin(store.goalId), store.tasks[t].skill, payload, store.threshold, store.workspaceRoot);
      var r := jobs.Enqueue(t, Some(input), RerunKey(store.goalId, t, run), 0, DEFAULT_RETRY, now);
      assert r.Ok?;
      j := r.value;
      trace := trace + [JobCall(RerunCall(w, t, payload), now)];
    }
  }

  // ---- rows and the store ----------------------------------------------------------------

  /** The rows from position `i` on still say what the store says. */
  ghost predicate UpToDate(rows: seq<Row>, w: World, i: nat) {
    && |rows| == |w.order|
    && (forall j, k :: 0 <= j < k < |w.order| ==> w.order[j] != w.order[k])
    && forall k :: 0 <= k < |rows| ==>
         && rows[k].taskId == w.order[k] && w.order[k] in w.tasks
         && (i <= k ==> rows[k].task == w.tasks[w.order[k]])
  }

  lemma RowIs(rows: seq<Row>, w: World, i: nat)
    requires UpToDate(rows, w, i) && i < |rows|
    ensures |rows| == |w.order| && w.order[i] in w.tasks && rows[i] == Row(w.order[i], w.tasks[w.order[i]])
  {
  }

  /** `w'` differs from `w` in task `t` only, as far as tasks go. */
  ghost predicate TouchesOnly(w: World, w': World, t: Uuid) {
    && w'.order == w.order && w'.tasks.Keys == w.tasks.Keys
    && forall u :: u in w.tasks && u != t ==> w'.tasks[u] == w.tasks[u]
  }

  lemma StaysUpToDate(rows: seq<Row>, w: World, w': World, i: nat)
    requires UpToDate(rows, w, i) && i < |w.order|
    requires w' == w || TouchesOnly(w, w', w.order[i])
    ensures UpToDate(rows, w', i + 1)
  {
  }

  // ---- intake, position by position --------------------------------------------------------

  /** The loop over running tasks has written `done`, reached `now`, and is at position `i`. */
  ghost predicate IntakeAt(w: World, done: seq<Write>, now: World, i: nat) {
    && i <= |now.order| && now == ApplyAll(w, done)
    && Intake(w, 0) == Phase(done + Intake(now, i).writes, Intake(now, i).stop)
  }

  lemma IntakeStarts(w: World)
    ensures IntakeAt(w, [], w, 0)
  {
    assert [] + Intake(w, 0).writes == Intake(w, 0).writes;
  }

  lemma IntakeSteps(w: World, done: seq<Write>, now: World, i: nat)
    requires IntakeAt(w, done, now, i) && i < |now.order| && now.order[i] in now.tasks
    ensures now.tasks[now.order[i]].status != TRunning ==> IntakeAt(w, done, now, i + 1)
    ensures now.tasks[now.order[i]].status == TRunning ==>
      var phase := IntakeTask(now, now.order[i]);
      if phase.stop then
        Intake(w, 0) == Phase(done + phase.writes, true) && ApplyAll(now, phase.writes) == ApplyAll(w, done + phase.writes)
      else IntakeAt(w, done + phase.writes, ApplyAll(now, phase.writes), i + 1)
  {
    hide IntakeTask, Apply, SamePlan;
    if now.tasks[now.order[i]].status == TRunning {
      var phase := IntakeTask(now, now.order[i]);
      var next := ApplyAll(now, phase.writes);
      ApplyAllAppend(w, done, phase.writes);
      KeepsOrder(now, next);
      if !phase.stop {
        var rest := Intake(next, i + 1).writes;
        assert done + (phase.writes + rest) == (done + phase.writes) + rest;
      }
    }
  }

  lemma IntakeEnds(w: World, done: seq<Write>, now: World, i: nat)
    requires IntakeAt(w, done, now, i) && i == |now.order|
    ensures Intake(w, 0) == Phase(done, false) && now == ApplyAll(w, done)
  {
    assert done + [] == done;
  }

  // ---- blocking, position by position ------------------------------------------------------

  /** The blocking loop has written `done`, reached `now`, and is at position `i` of a scan. */
  ghost predicate BlockAt(w: World, done: seq<Write>, now: World, i: nat, changed: bool) {
    && i <= |now.order| && now == ApplyAll(w, done)
    && Block(w, 0, false) == done + Block(now, i, changed)
  }

  /** The rows, read before the loop, still tell with `failedIds` what is pending and what it depends on. */
  ghost predicate BlockRows(rows: seq<Row>, failedIds: set<Uuid>, now: World) {
    && |rows| == |now.order|
    && (forall t :: t in failedIds <==> t in now.tasks && Blocking(now.tasks[t].status))
    && forall k :: 0 <= k < |rows| ==>
         && rows[k].taskId == now.order[k] && now.order[k] in now.tasks
         && rows[k].task.dependsOn == now.tasks[now.order[k]].dependsOn
         && (rows[k].task.status == TPending && rows[k].taskId !in failedIds
             <==> now.tasks[now.order[k]].status == TPending)
  }

  lemma BlockStarts(w: World, rows: seq<Row>, failedIds: set<Uuid>)
    requires UpToDate(rows, w, 0) && GoalSafety.PlanOk(w)
    requires failedIds == set r | r in rows && Blocking(r.task.status) :: r.taskId
    ensures BlockRows(rows, failedIds, w) && BlockAt(w, [], w, 0, false) && w == ApplyAll(w, [])
  {
    hide Block;
    NoWrites(w);
    assert [] + Block(w, 0, false) == Block(w, 0, false);
    forall t ensures t in failedIds <==> t in w.tasks && Blocking(w.tasks[t].status) {
      if t in w.tasks && Blocking(w.tasks[t].status) {
        var k :| 0 <= k < |w.order| && w.order[k] == t;
        assert rows[k] in rows;
      }
    }
  }

  /** The loop's test on the rows is the test on the store. */
  predicate MustBlock(row: Row, failedIds: set<Uuid>) {
    row.task.status == TPending && row.taskId !in failedIds && exists d :: d in row.task.dependsOn && d in failedIds
  }

  lemma MustBlockMeans(rows: seq<Row>, failedIds: set<Uuid>, now: World, i: nat)
    requires BlockRows(rows, failedIds, now) && i < |rows|
    ensures |rows| == |now.order| && rows[i].taskId == now.order[i] && now.order[i] in now.tasks
    ensures MustBlock(rows[i], failedIds) <==> now.tasks[now.order[i]].status == TPending && HasBlockingDep(now, now.order[i])
  {
  }

  lemma BlockedRows(rows: seq<Row>, failedIds: set<Uuid>, now: World, t: Uuid)
    requires BlockRows(rows, failedIds, now) && t in now.tasks
    ensures BlockRows(rows, failedIds + {t}, Apply(now, UpdateTask(t, BLOCKED)))
  {
    hide SamePlan;
  }

  lemma BlockSteps(w: World, done: seq<Write>, now: World, i: nat, changed: bool, rows: seq<Row>, failedIds: set<Uuid>)
    requires BlockAt(w, done, now, i, changed) && BlockRows(rows, failedIds, now) && i < |rows|
    ensures var t := rows[i].taskId;
      if MustBlock(rows[i], failedIds) then
        var next := Apply(now, UpdateTask(t, BLOCKED));
        && BlockAt(w, done + [UpdateTask(t, BLOCKED)], next, i + 1, true)
        && BlockRows(rows, failedIds + {t}, next)
        && WithStatus(next, TPending) < WithStatus(now, TPending)
      else BlockAt(w, done, now, i + 1, changed)
  {
    hide SamePlan, BlockRows, MustBlock, HasBlockingDep;
    MustBlockMeans(rows, failedIds, now, i);
    if MustBlock(rows[i], failedIds) {
      var t := rows[i].taskId;
      var write := UpdateTask(t, BLOCKED);
      var next := Apply(now, write);
      assert t in WithStatus(now, TPending) && t !in WithStatus(next, TPending);
      BlockedRows(rows, failedIds, now, t);
      KeepsOrder(now, next);
      ApplyAllAppend(w, done, [write]);
      OneWrite(now, write);
      assert done + ([write] + Block(next, i + 1, true)) == (done + [write]) + Block(next, i + 1, true);
    }
  }

  lemma BlockScanEnds(w: World, done: seq<Write>, now: World, i: nat, changed: bool, rows: seq<Row>,
                      failedIds: set<Uuid>)
    requires BlockAt(w, done, now, i, changed) && BlockRows(rows, failedIds, now) && i == |rows|
    ensures now == ApplyAll(w, done)
    ensures if changed then BlockAt(w, done, now, 0, false) else Block(w, 0, false) == done
  {
    assert done + [] == done;
  }

  // ---- launching, position by position -------------------------------------------------------

  ghost predicate LaunchAt(w: World, slots0: int, now: Time, size: Json -> nat, done: seq<Write>, here: World,
                           i: nat, slots: int) {
    && i <= |here.order| && here == ApplyAll(w, done)
    && Launch(w, 0, slots0, now, size) == done + Launch(here, i, slots, now, size)
  }

  lemma LaunchStarts(w: World, slots: int, now: Time, size: Json -> nat)
    ensures LaunchAt(w, slots, now, size, [], w, 0, slots)
  {
    assert [] + Launch(w, 0, slots, now, size) == Launch(w, 0, slots, now, size);
  }

  lemma LaunchEnds(w: World, slots0: int, now: Time, size: Json -> nat, done: seq<Write>, here: World, i: nat,
                   slots: int)
    requires LaunchAt(w, slots0, now, size, done, here, i, slots) && (i == |here.order| || slots <= 0)
    ensures here == ApplyAll(w, done) && Launch(w, 0, slots0, now, size) == done
  {
    assert done + [] == done;
  }

  lemma LaunchSteps(w: World, slots0: int, now: Time, size: Json -> nat, done: seq<Write>, here: World, i: nat,
                    slots: int)
    requires LaunchAt(w, slots0, now, size, done, here, i, slots) && i < |here.order| && slots > 0
    requires here.order[i] in here.tasks
    ensures var t := here.order[i];
      if here.tasks[t].status != TPending || !DepsComplete(here, t) then LaunchAt(w, slots0, now, size, done, here, i + 1, slots)
      else match Substitution.ResolvePayload(here.tasks[t], here.tasks, size)
        case Err(_) =>
          LaunchAt(w, slots0, now, size, done + [UpdateTask(t, UNRESOLVED)], Apply(here, UpdateTask(t, UNRESOLVED)), i + 1, slots)
        case Ok(p) =>
          var enqueue, start := JobCall(EnqueueCall(here, t, p), now), UpdateTask(t, StartPatch(EnqueuedJob(here, t), p));
          LaunchAt(w, slots0, now, size, done + [enqueue, start], Apply(Apply(here, enqueue), start), i + 1, slots - 1)
  {
    hide Apply, SamePlan, EnqueueCall, EnqueuedJob, Substitution.ResolvePayload, DepsComplete;
    var t := here.order[i];
    if here.tasks[t].status == TPending && DepsComplete(here, t) {
      match Substitution.ResolvePayload(here.tasks[t], here.tasks, size)
      case Err(_) =>
        var write := UpdateTask(t, UNRESOLVED);
        var next := Apply(here, write);
        KeepsOrder(here, next);
        ApplyAllAppend(w, done, [write]);
        OneWrite(here, write);
        assert done + ([write] + Launch(next, i + 1, slots, now, size)) == (done + [write]) + Launch(next, i + 1, slots, now, size);
      case Ok(p) =>
        var enqueue, start := JobCall(EnqueueCall(here, t, p), now), UpdateTask(t, StartPatch(EnqueuedJob(here, t), p));
        var next := Apply(Apply(here, enqueue), start);
        KeepsOrder(here, Apply(here, enqueue));
        KeepsOrder(Apply(here, enqueue), next);
        ApplyAllAppend(w, done, [enqueue, start]);
        TwoWrites(here, enqueue, start);
        var rest := Launch(next, i + 1, slots - 1, now, size);
        assert done + ([enqueue, start] + rest) == (done + [enqueue, start]) + rest;
    }
  }

  /** Tasks read earlier in the pass: they may miss what was blocked or launched since, but still tell
      which tasks are complete and with what results. */
  ghost predicate Stale(byId: map<Uuid, PlannedTask>, w: World) {
    && byId.Keys == w.tasks.Keys
    && forall t :: t in w.tasks ==>
         byId[t].result == w.tasks[t].result && (byId[t].status == TComplete <==> w.tasks[t].status == TComplete)
  }

  function ById(rows: seq<Row>, ghost w: World): (byId: map<Uuid, PlannedTask>)
    requires UpToDate(rows, w, 0) && GoalSafety.PlanOk(w)
    ensures byId == w.tasks
  {
    assert forall r :: r in rows ==> exists k :: 0 <= k < |rows| && rows[k] == r;
    var byId := map r | r in rows :: r.taskId := r.task;
    assert forall k :: 0 <= k < |rows| ==> rows[k] in rows;
    byId
  }

  lemma BlockingKeepsStale(byId: map<Uuid, PlannedTask>, w: World)
    requires byId == w.tasks
    ensures Stale(byId, ApplyAll(w, Block(w, 0, false)))
  {
    hide Block;
    GoalProgress.BlockOnlyBlocks(w, 0, false);
  }

  predicate Ready(task: PlannedTask, byId: map<Uuid, PlannedTask>)
    requires forall d :: d in task.dependsOn ==> d in byId
  {
    forall d :: d in task.dependsOn ==> byId[d].status == TComplete
  }

  /** The earlier tasks decide about task `t` as the current ones would. */
  lemma StaleRow(byId: map<Uuid, PlannedTask>, w: World, t: Uuid, size: Json -> nat)
    requires Stale(byId, w) && GoalSafety.PlanOk(w) && t in w.tasks
    ensures forall d :: d in w.tasks[t].dependsOn ==> d in byId
    ensures Ready(w.tasks[t], byId) <==> DepsComplete(w, t)
    ensures Substitution.ResolvePayload(w.tasks[t], byId, size) == Substitution.ResolvePayload(w.tasks[t], w.tasks, size)
  {
    assert Substitution.AgreeOn(Substitution.Declared(w.tasks[t]), byId, w.tasks);
    Substitution.OnlyDeclaredResultsMatter(w.tasks[t].payload, Substitution.Declared(w.tasks[t]), byId, w.tasks);
  }

  lemma StaysStale(byId: map<Uuid, PlannedTask>, w: World, t: Uuid, p: Patch)
    requires Stale(byId, w) && t in w.tasks && w.tasks[t].status == TPending
    requires p.result.Keep? && p.status.Set? && p.status.v != TComplete
    ensures Stale(byId, Apply(w, UpdateTask(t, p)))
  {
    hide SamePlan;
  }

  lemma TouchesOne(w: World, t: Uuid, p: Patch)
    ensures TouchesOnly(w, Apply(w, UpdateTask(t, p)), t)
  {
    hide SamePlan;
  }

  lemma LaunchedTouches(byId: map<Uuid, PlannedTask>, w: World, t: Uuid, payload: Json, now: Time)
    requires Stale(byId, w) && t in w.tasks && w.tasks[t].status == TPending
    ensures var w1 := Apply(w, JobCall(EnqueueCall(w, t, payload), now));
      var w' := Apply(w1, UpdateTask(t, StartPatch(EnqueuedJob(w, t), payload)));
      Stale(byId, w') && TouchesOnly(w, w', t)
  {
    hide Jobs.Apply, SamePlan;
    var w1 := Apply(w, JobCall(EnqueueCall(w, t, payload), now));
    StaysStale(byId, w1, t, StartPatch(EnqueuedJob(w, t), payload));
  }

  lemma OnlyFinished(statuses: set<TaskStatus>)
    requires statuses * {TPending, TRunning} == {}
    ensures forall s :: s in statuses ==> s != TPending && s != TRunning
  {
    forall s | s in statuses ensures s != TPending && s != TRunning {
      assert s !in statuses * {TPending, TRunning};
    }
  }

  // ---- cancelling, position by position --------------------------------------------------------

  ghost predicate CancelAt(w: World, now: Time, done: seq<Write>, here: World, i: nat, affected: seq<Uuid>) {
    && i <= |here.order| && here.order == w.order && here == ApplyAll(w, done)
    && CancelTasks(w, 0, now) == done + CancelTasks(here, i, now)
    && Affected(w, 0) == affected + Affected(w, i)
  }

  lemma CancelStarts(w: World, now: Time)
    ensures CancelAt(w, now, [], w, 0, [])
  {
    assert [] + CancelTasks(w, 0, now) == CancelTasks(w, 0, now);
    assert [] + Affected(w, 0) == Affected(w, 0);
  }

  lemma CancelSteps(w: World, now: Time, done: seq<Write>, here: World, i: nat, affected: seq<Uuid>, rows: seq<Row>)
    requires CancelAt(w, now, done, here, i, affected) && i < |here.order|
    requires UpToDate(rows, w, 0) && UpToDate(rows, here, i)
    ensures here.order[i] in here.tasks
    ensures var t := here.order[i];
      var hit := here.tasks[t].status == TRunning || here.tasks[t].status == TPending;
      CancelAt(w, now, done + CancelTask(here, t, now), ApplyAll(here, CancelTask(here, t, now)), i + 1,
               if hit then affected + [t] else affected)
  {
    hide CancelTask, SamePlan, Apply, Affected, UpToDate;
    var t := here.order[i];
    CancelSameRow(w, here, i, rows);
    var first := CancelTask(here, t, now);
    var next := ApplyAll(here, first);
    KeepsOrder(here, next);
    ApplyAllAppend(w, done, first);
    assert done + (first + CancelTasks(next, i + 1, now)) == (done + first) + CancelTasks(next, i + 1, now);
    AffectedSteps(w, i, affected);
  }

  lemma CancelSameRow(w: World, here: World, i: nat, rows: seq<Row>)
    requires i < |here.order| == |w.order| && here.order == w.order && UpToDate(rows, w, 0) && UpToDate(rows, here, i)
    ensures here.order[i] in w.tasks && here.order[i] in here.tasks && here.tasks[here.order[i]] == w.tasks[here.order[i]]
  {
  }

  lemma AffectedSteps(w: World, i: nat, affected: seq<Uuid>)
    requires i < |w.order| && w.order[i] in w.tasks
    ensures var t := w.order[i];
      var hit := w.tasks[t].status == TRunning || w.tasks[t].status == TPending;
      affected + Affected(w, i) == (if hit then affected + [t] else affected) + Affected(w, i + 1)
  {
    var t := w.order[i];
    assert affected + ([t] + Affected(w, i + 1)) == (affected + [t]) + Affected(w, i + 1);
    assert [] + Affected(w, i + 1) == Affected(w, i + 1);
  }

  lemma CancelEnds(w: World, now: Time, done: seq<Write>, here: World, i: nat, affected: seq<Uuid>, rows: seq<Row>)
    requires CancelAt(w, now, done, here, i, affected) && UpToDate(rows, here, i) && i == |rows|
    ensures here == ApplyAll(w, done) && CancelTasks(w, 0, now) == done && Affected(w, 0) == affected
  {
    assert done + [] == done;
    assert affected + [] == affected;
  }

  lemma CancelTouchesOnly(w: World, t: Uuid, now: Time)
    requires t in w.tasks
    ensures TouchesOnly(w, ApplyAll(w, CancelTask(w, t, now)), t)
  {
    hide ApplyAll, TouchesOnly;
    WritesTouchOnly(w, CancelTask(w, t, now), t);
  }

  // ---- what a task's own writes leave alone ---------------------------------------------

  /** Taking up the outcome of one task changes no other task. */
  lemma IntakeTouchesOnly(w: World, t: Uuid)
    requires t in w.tasks
    ensures TouchesOnly(w, ApplyAll(w, IntakeTask(w, t).writes), t)
  {
    hide TaskResult, Confidence, FailureText, ResultOf, FindJob, ApplyAll, TouchesOnly;
    WritesTouchOnly(w, IntakeTask(w, t).writes, t);
  }

  predicate OnlyAbout(write: Write, t: Uuid) {
    write.UpdateTask? ==> write.task == t
  }

  lemma {:induction false} WritesTouchOnly(w: World, writes: seq<Write>, t: Uuid)
    requires forall i :: 0 <= i < |writes| ==> OnlyAbout(writes[i], t)
    ensures TouchesOnly(w, ApplyAll(w, writes), t)
    decreases |writes|
  {
    hide Jobs.Apply;
    if writes != [] {
      assert OnlyAbout(writes[0], t);
      KeepsOrder(w, Apply(w, writes[0]));
      WritesTouchOnly(Apply(w, writes[0]), writes[1..], t);
    }
  }
}
