/** One goal with its tasks, jobs and reviews, and the store writes of every operation on it.
    An operation is the sequence of writes it makes; a crash leaves a prefix of that sequence. */
module Goals {
  import opened Prelude
  import opened Contracts
  import Jobs
  import Substitution

  datatype Event = Event(action: string, affected: seq<Uuid>)

  datatype ReviewStatus = ReviewPending | ReviewAccepted | ReviewRejected

  datatype World = World(
    goalId: Uuid,
    status: GoalStatus,
    threshold: real,
    workspaceRoot: string,
    order: seq<Uuid>,
    tasks: map<Uuid, PlannedTask>,
    events: seq<Event>,
    jobs: Jobs.Db,
    reviews: map<Uuid, ReviewStatus>)

  /** The fields an update_task call names. */
  datatype Field<+T> = Keep | Set(v: T)

  datatype Patch = Patch(
    status: Field<TaskStatus>,
    confidence: Field<Option<real>>,
    result: Field<Option<Json>>,
    error: Field<Option<string>>,
    jobId: Field<Option<Uuid>>,
    resolved: Field<Option<Json>>)

  const NO_CHANGE := Patch(Keep, Keep, Keep, Keep, Keep, Keep)

  function Pick<T>(f: Field<T>, x: T): T {
    match f
    case Keep => x
    case Set(v) => v
  }

  function Patched(task: PlannedTask, p: Patch): PlannedTask {
    task.(status := Pick(p.status, task.status), confidence := Pick(p.confidence, task.confidence),
          result := Pick(p.result, task.result), error := Pick(p.error, task.error),
          jobId := Pick(p.jobId, task.jobId), resolved := Pick(p.resolved, task.resolved))
  }

  /** One committed write to one store. */
  datatype Write =
    | UpdateTask(task: Uuid, patch: Patch)
    | SetStatus(status: GoalStatus)
    | RecordEvent(event: Event)
    | JobCall(call: Jobs.Call, now: Time)
    | AddReview(task: Uuid)
    | ResolveReview(task: Uuid, accepted: bool)

  /** No write touches the identity of the goal, the plan, or what a task depends on. */
  ghost predicate SamePlan(w: World, w': World) {
    && w'.goalId == w.goalId && w'.threshold == w.threshold && w'.workspaceRoot == w.workspaceRoot
    && w'.order == w.order && w'.tasks.Keys == w.tasks.Keys
    && forall t :: t in w.tasks ==> SameSpec(w.tasks[t], w'.tasks[t])
  }

  predicate SameSpec(x: PlannedTask, y: PlannedTask) {
    y.dependsOn == x.dependsOn && y.payload == x.payload && y.skill == x.skill && y.projectId == x.projectId
  }

  ghost function Apply(w: World, write: Write): (w': World)
    ensures SamePlan(w, w')
  {
    match write
    case UpdateTask(t, p) => if t in w.tasks then w.(tasks := w.tasks[t := Patched(w.tasks[t], p)]) else w
    case SetStatus(s) => w.(status := s)
    case RecordEvent(e) => w.(events := w.events + [e])
    case JobCall(call, now) => w.(jobs := Jobs.Apply(w.jobs, call, now))
    case AddReview(t) => if t in w.reviews then w else w.(reviews := w.reviews[t := ReviewPending])
    case ResolveReview(t, accepted) => w.(reviews := w.reviews[t := if accepted then ReviewAccepted else ReviewRejected])
  }

  ghost function ApplyAll(w: World, writes: seq<Write>): (w': World)
    ensures SamePlan(w, w')
    decreases |writes|
  {
    if writes == [] then w else ApplyAll(Apply(w, writes[0]), writes[1..])
  }

  /** The limits of the coordinator, and what one pass reads from outside the goal: the clock and the
      number of running jobs it counts. */
  datatype Pass = Pass(perGoalLimit: int, globalLimit: int, globalRunning: int, now: Time)

  // ---- reading ----------------------------------------------------------------

  function KeyOf(w: World, t: Uuid): Key {
    TaskKey(w.goalId, t)
  }

  /** The job of a task: the recorded one, else the one under the task's key. */
  function FindJob(w: World, t: Uuid): (j: Option<Uuid>)
    requires t in w.tasks
    ensures j.Some? ==> j.value in w.jobs.jobs
  {
    if w.tasks[t].jobId.Some? then
      if w.tasks[t].jobId.value in w.jobs.jobs then w.tasks[t].jobId else None
    else if KeyOf(w, t) in w.jobs.idempotency && w.jobs.idempotency[KeyOf(w, t)] in w.jobs.jobs
    then Some(w.jobs.idempotency[KeyOf(w, t)]) else None
  }

  predicate DepsComplete(w: World, t: Uuid)
    requires t in w.tasks
  {
    forall d :: d in w.tasks[t].dependsOn ==> d in w.tasks && w.tasks[d].status == TComplete
  }

  /** Statuses that block the dependents of a task. */
  predicate Blocking(s: TaskStatus) {
    s == TFailed || s == TBlocked || s == TCancelled
  }

  predicate HasBlockingDep(w: World, t: Uuid)
    requires t in w.tasks
  {
    exists d :: d in w.tasks[t].dependsOn && d in w.tasks && Blocking(w.tasks[d].status)
  }

  function WithStatus(w: World, s: TaskStatus): set<Uuid> {
    set t | t in w.tasks && w.tasks[t].status == s
  }

  // ---- intake of job outcomes -----------------------------------------------------

  const EMPTY_RESULT := JobResult("", None, None, [], None, Dict([]))

  function ResultOf(w: World, j: Uuid): JobResult {
    if j in w.jobs.outputs then w.jobs.outputs[j] else EMPTY_RESULT
  }

  function TaskResult(r: JobResult): Json {
    if r.output.Some? then r.output.value else r.raw
  }

  function Confidence(r: JobResult): real {
    if r.confidence.Some? then r.confidence.value else 0.0
  }

  function FailureText(r: JobResult): string {
    if r.failureReason.Some? && r.failureReason.value != "" then r.failureReason.value else r.status
  }

  datatype Phase = Phase(writes: seq<Write>, stop: bool)

  /** What a pass writes for a task whose job completed with result `r`. */
  function IntakeResult(w: World, t: Uuid, r: JobResult): Phase {
    if r.status == "complete" && Confidence(r) >= w.threshold then
      Phase([UpdateTask(t, NO_CHANGE.(status := Set(TComplete), confidence := Set(r.confidence),
                                      result := Set(Some(TaskResult(r)))))], false)
    else if r.status == "failed" || r.status == "no_agent_found" then
      Phase([UpdateTask(t, NO_CHANGE.(status := Set(TFailed), confidence := Set(r.confidence),
                                      error := Set(Some(FailureText(r)))))], false)
    else
      Phase([UpdateTask(t, NO_CHANGE.(status := Set(TEscalated), confidence := Set(r.confidence),
                                      result := Set(Some(TaskResult(r))))),
             SetStatus(GPaused)], true)
  }

  /** What a pass writes for running task `t`. An escalated outcome pauses the goal and ends the pass. */
  function IntakeTask(w: World, t: Uuid): Phase
    requires t in w.tasks
  {
    match FindJob(w, t)
    case None => Phase([UpdateTask(t, NO_CHANGE.(status := Set(TPending), jobId := Set(None)))], false)
    case Some(j) =>
      match w.jobs.jobs[j].status
        case Completed => IntakeResult(w, t, ResultOf(w, j))
        case Failed => Phase([UpdateTask(t, NO_CHANGE.(status := Set(TFailed), error := Set(Some("failed"))))], false)
        case Cancelled => Phase([UpdateTask(t, NO_CHANGE.(status := Set(TFailed), error := Set(Some("cancelled"))))], false)
        case _ => Phase([], false)
  }

  ghost function Intake(w: World, i: nat): Phase
    requires i <= |w.order|
    decreases |w.order| - i
  {
    if i == |w.order| then Phase([], false)
    else
      var t := w.order[i];
      if t !in w.tasks || w.tasks[t].status != TRunning then Intake(w, i + 1)
      else
        var first := IntakeTask(w, t);
        if first.stop then first
        else
          var w' := ApplyAll(w, first.writes);
          var rest := Intake(w', i + 1);
          Phase(first.writes + rest.writes, rest.stop)
  }

  // ---- the blocking loop -------------------------------------------------------------

  const BLOCKED := NO_CHANGE.(status := Set(TBlocked), error := Set(Some("dependency failed")))

  /** The rest of the blocking loop: position `i` of the current scan, which has `changed` something. */
  ghost function Block(w: World, i: nat, changed: bool): seq<Write>
    requires i <= |w.order|
    decreases WithStatus(w, TPending), changed, |w.order| - i
  {
    if i == |w.order| then
      if changed then Block(w, 0, false) else []
    else
      var t := w.order[i];
      if t in w.tasks && w.tasks[t].status == TPending && HasBlockingDep(w, t) then
        var w' := Apply(w, UpdateTask(t, BLOCKED));
        assert t in WithStatus(w, TPending) && t !in WithStatus(w', TPending);
        [UpdateTask(t, BLOCKED)] + Block(w', i + 1, true)
      else Block(w, i + 1, changed)
  }

  // ---- launching ----------------------------------------------------------------------

  function Contract(w: World, t: Uuid, payload: Json): TaskInput
    requires t in w.tasks
  {
    TaskInput(t, GoalOrigin(w.goalId), w.tasks[t].skill, payload, w.threshold, w.workspaceRoot)
  }

  function EnqueueCall(w: World, t: Uuid, payload: Json): Jobs.Call
    requires t in w.tasks
  {
    Jobs.Enqueue(t, Some(Contract(w, t, payload)), KeyOf(w, t), 0, DEFAULT_RETRY)
  }

  function StartPatch(j: Uuid, payload: Json): Patch {
    NO_CHANGE.(status := Set(TRunning), jobId := Set(Some(j)), resolved := Set(Some(payload)))
  }

  /** The job that an enqueue for task `t` returns. */
  function EnqueuedJob(w: World, t: Uuid): Uuid {
    if KeyOf(w, t) in w.jobs.idempotency then w.jobs.idempotency[KeyOf(w, t)] else w.jobs.nextUuid
  }

  const UNRESOLVED := NO_CHANGE.(status := Set(TFailed), error := Set(Some("payload resolution")))

  ghost function Launch(w: World, i: nat, slots: int, now: Time, size: Json -> nat): seq<Write>
    requires i <= |w.order|
    decreases |w.order| - i
  {
    if i == |w.order| || slots <= 0 then []
    else
      var t := w.order[i];
      if t !in w.tasks || w.tasks[t].status != TPending || !DepsComplete(w, t) then Launch(w, i + 1, slots, now, size)
      else match Substitution.ResolvePayload(w.tasks[t], w.tasks, size)
        case Err(_) =>
          [UpdateTask(t, UNRESOLVED)] + Launch(Apply(w, UpdateTask(t, UNRESOLVED)), i + 1, slots, now, size)
        case Ok(payload) =>
          var enqueue := JobCall(EnqueueCall(w, t, payload), now);
          var start := UpdateTask(t, StartPatch(EnqueuedJob(w, t), payload));
          [enqueue, start] + Launch(Apply(Apply(w, enqueue), start), i + 1, slots - 1, now, size)
  }

  function Slots(w: World, pass: Pass): int {
    var own := pass.perGoalLimit - |WithStatus(w, TRunning)|;
    var all := pass.globalLimit - pass.globalRunning;
    if own <= all then own else all
  }

  // ---- the verdict ------------------------------------------------------------------------

  function Verdict(w: World): seq<Write> {
    if forall t :: t in w.tasks ==> w.tasks[t].status == TComplete then
      [SetStatus(GComplete), RecordEvent(Event("complete", []))]
    else if forall t :: t in w.tasks ==> w.tasks[t].status != TPending && w.tasks[t].status != TRunning then
      [SetStatus(GFailed)]
    else []
  }

  // ---- the operations --------------------------------------------------------------------------

  ghost function AfterIntake(w: World): World {
    ApplyAll(w, Intake(w, 0).writes)
  }

  ghost function AfterBlock(w: World): World {
    var w1 := AfterIntake(w);
    ApplyAll(w1, Block(w1, 0, false))
  }

  ghost function AfterLaunch(w: World, pass: Pass, size: Json -> nat): World {
    var w2 := AfterBlock(w);
    ApplyAll(w2, Launch(w2, 0, Slots(w2, pass), pass.now, size))
  }

  /** The writes of one reconcile pass. */
  ghost function Reconcile(w: World, pass: Pass, size: Json -> nat): seq<Write> {
    if w.status != GRunning then []
    else if Intake(w, 0).stop then Intake(w, 0).writes
    else
      var w1, w2, w3 := AfterIntake(w), AfterBlock(w), AfterLaunch(w, pass, size);
      Intake(w, 0).writes + Block(w1, 0, false) + Launch(w2, 0, Slots(w2, pass), pass.now, size) + Verdict(w3)
  }

  predicate Startable(s: GoalStatus) {
    s == GReady || s == GPaused || s == GRunning
  }

  const RESUME := [SetStatus(GRunning), RecordEvent(Event("resume", []))]

  ghost function Start(w: World, pass: Pass, size: Json -> nat): seq<Write> {
    if Startable(w.status) then RESUME + Reconcile(ApplyAll(w, RESUME), pass, size) else []
  }

  function Pause(w: World): seq<Write> {
    if w.status == GRunning then [SetStatus(GPaused), RecordEvent(Event("pause", []))] else []
  }

  const CANCELLED := NO_CHANGE.(status := Set(TCancelled))

  function CancelTask(w: World, t: Uuid, now: Time): seq<Write>
    requires t in w.tasks
  {
    if w.tasks[t].status == TRunning then
      var j := w.tasks[t].jobId;
      (if j.Some? && j.value in w.jobs.jobs && !Terminal(w.jobs.jobs[j.value].status)
       then [JobCall(Jobs.Cancel(j.value), now)] else []) + [UpdateTask(t, CANCELLED)]
    else if w.tasks[t].status == TPending then [UpdateTask(t, CANCELLED)]
    else []
  }

  ghost function CancelTasks(w: World, i: nat, now: Time): seq<Write>
    requires i <= |w.order|
    decreases |w.order| - i
  {
    if i == |w.order| || w.order[i] !in w.tasks then []
    else
      var first := CancelTask(w, w.order[i], now);
      var w' := ApplyAll(w, first);
      first + CancelTasks(w', i + 1, now)
  }

  function Affected(w: World, i: nat): seq<Uuid>
    requires i <= |w.order|
    decreases |w.order| - i
  {
    if i == |w.order| then []
    else
      var t := w.order[i];
      (if t in w.tasks && (w.tasks[t].status == TRunning || w.tasks[t].status == TPending) then [t] else [])
      + Affected(w, i + 1)
  }

  ghost function Cancel(w: World, now: Time): seq<Write> {
    if w.status == GCancelled || w.status == GComplete || w.status == GFailed then []
    else CancelTasks(w, 0, now) + [SetStatus(GCancelled), RecordEvent(Event("cancel", Affected(w, 0)))]
  }

  predicate Rerunnable(s: TaskStatus) {
    s == TFailed || s == TEscalated || s == TComplete
  }

  /** One more than the number of reruns recorded for task `t` among the first `n` events. */
  function RunNumber(events: seq<Event>, t: Uuid, n: nat): nat
    requires n <= |events|
  {
    if n == 0 then 1
    else RunNumber(events, t, n - 1) + if events[n - 1].action == "rerun" && t in events[n - 1].affected then 1 else 0
  }

  function RerunCall(w: World, t: Uuid, payload: Json): Jobs.Call
    requires t in w.tasks
  {
    Jobs.Enqueue(t, Some(Contract(w, t, payload)), RerunKey(w.goalId, t, RunNumber(w.events, t, |w.events|)), 0, DEFAULT_RETRY)
  }

  function RerunPatch(j: Uuid, payload: Json): Patch {
    Patch(Set(TRunning), Set(None), Set(None), Set(None), Set(Some(j)), Set(Some(payload)))
  }

  /** The writes of a rerun whose payload resolved to `payload`. */
  function Rerun(w: World, t: Uuid, payload: Json, now: Time): seq<Write>
    requires t in w.tasks
  {
    var key := RerunKey(w.goalId, t, RunNumber(w.events, t, |w.events|));
    var j := if key in w.jobs.idempotency then w.jobs.idempotency[key] else w.jobs.nextUuid;
    [JobCall(RerunCall(w, t, payload), now), UpdateTask(t, RerunPatch(j, payload)), SetStatus(GRunning),
     RecordEvent(Event("rerun", [t]))]
  }

  const APPROVED := NO_CHANGE.(status := Set(TComplete))
  const REJECTED := NO_CHANGE.(status := Set(TFailed), error := Set(Some("rejected by reviewer")))

  predicate Reviewable(w: World, t: Uuid) {
    t in w.tasks && t in w.reviews && w.reviews[t] == ReviewPending
  }

  ghost function Approve(w: World, t: Uuid, pass: Pass, size: Json -> nat): seq<Write> {
    if !Reviewable(w, t) then []
    else
      var accept := [ResolveReview(t, true), UpdateTask(t, APPROVED)];
      accept + Start(ApplyAll(w, accept), pass, size)
  }

  function Reject(w: World, t: Uuid): seq<Write> {
    if Reviewable(w, t) then [ResolveReview(t, false), UpdateTask(t, REJECTED), SetStatus(GFailed)] else []
  }

  /** The job of task `t` asked for a review and that result was committed. */
  predicate AskedForReview(w: World, t: Uuid) {
    && t in w.tasks && KeyOf(w, t) in w.jobs.idempotency
    && w.jobs.idempotency[KeyOf(w, t)] in w.jobs.outputs
    && w.jobs.outputs[w.jobs.idempotency[KeyOf(w, t)]].status == "escalated"
  }

  /** A step of the system around the goal. Calls are the workers' and other clients' calls on the job
      tables; they never use the idempotency keys of this goal's tasks. */
  datatype Step =
    | StartGoal(pass: Pass)
    | ReconcileGoal(pass: Pass)
    | PauseGoal
    | CancelGoal(now: Time)
    | ApproveTask(task: Uuid, pass: Pass)
    | RejectTask(task: Uuid)
    | RejectPlan
    | PublishReview(task: Uuid)
    | OutsideCall(call: Jobs.Call, now: Time)

  predicate Outside(w: World, call: Jobs.Call) {
    call.Enqueue? ==> !(call.key.TaskKey? && call.key.goalId == w.goalId)
  }

  ghost function Writes(w: World, step: Step, size: Json -> nat): seq<Write> {
    match step
    case StartGoal(pass) => Start(w, pass, size)
    case ReconcileGoal(pass) => Reconcile(w, pass, size)
    case PauseGoal => Pause(w)
    case CancelGoal(now) => Cancel(w, now)
    case ApproveTask(t, pass) => Approve(w, t, pass, size)
    case RejectTask(t) => Reject(w, t)
    case RejectPlan => [SetStatus(GFailed)]
    case PublishReview(t) => if AskedForReview(w, t) then [AddReview(t)] else []
    case OutsideCall(call, now) => if Outside(w, call) then [JobCall(call, now)] else []
  }

  /** A step that completed, or was cut off after some of its writes. */
  datatype Attempted = Attempted(step: Step, cut: nat)

  ghost function Take(writes: seq<Write>, cut: nat): seq<Write> {
    if cut < |writes| then writes[..cut] else writes
  }

  ghost function RunGoal(w: World, run: seq<Attempted>, size: Json -> nat): World
    decreases |run|
  {
    if run == [] then w
    else RunGoal(ApplyAll(w, Take(Writes(w, run[0].step, size), run[0].cut)), run[1..], size)
  }

  lemma {:induction false} ApplyAllAppend(w: World, a: seq<Write>, b: seq<Write>)
    ensures ApplyAll(w, a + b) == ApplyAll(ApplyAll(w, a), b)
    decreases |a|
  {
    if a == [] {
      assert a + b == b;
    } else {
      assert (a + b)[1..] == a[1..] + b;
      ApplyAllAppend(Apply(w, a[0]), a[1..], b);
    }
  }

  lemma NoWrites(w: World)
    ensures ApplyAll(w, []) == w
  {
  }

  lemma OneWrite(w: World, a: Write)
    ensures ApplyAll(w, [a]) == Apply(w, a)
  {
  }

  lemma TwoWrites(w: World, a: Write, b: Write)
    ensures ApplyAll(w, [a, b]) == Apply(Apply(w, a), b)
  {
    assert [a, b][1..] == [b];
    OneWrite(Apply(w, a), b);
  }

  lemma FourWrites(w: World, a: Write, b: Write, c: Write, d: Write)
    ensures ApplyAll(w, [a, b, c, d]) == Apply(Apply(Apply(Apply(w, a), b), c), d)
  {
    hide Apply, ApplyAll;
    TwoWrites(w, a, b);
    TwoWrites(ApplyAll(w, [a, b]), c, d);
    ApplyAllAppend(w, [a, b], [c, d]);
    assert [a, b] + [c, d] == [a, b, c, d];
  }

  lemma KeepsOrder(w: World, w': World)
    requires SamePlan(w, w')
    ensures w'.order == w.order
  {
  }
}
