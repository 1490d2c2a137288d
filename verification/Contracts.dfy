/** The frozen records that jobs, goals and publication exchange (core/contracts). */
module Contracts {
  import opened Prelude

  /** A JSON value. A string leaf that has the form of a dependency reference is
      kept in parsed form: `target` is None when its identifier is no UUID, and
      `path` is the dotted path split into its parts. */
  datatype Json =
    | Null
    | Bool(b: bool)
    | Num(r: real)
    | Str(s: string)
    | Ref(target: Option<Uuid>, path: seq<string>)
    | List(items: seq<Json>)
    | Dict(entries: seq<Entry>)

  datatype Entry = Entry(name: string, value: Json)

  datatype JobStatus = Queued | Running | Completed | Failed | Cancelled

  predicate Terminal(s: JobStatus) {
    s == Completed || s == Failed || s == Cancelled
  }

  /** The table of allowed job transitions. */
  predicate AllowedTransition(current: JobStatus, target: JobStatus) {
    match current
    case Queued => target == Running || target == Cancelled
    case Running => target != Running
    case _ => false
  }

  datatype AttemptOutcome = Succeeded | Errored | LeaseExpired | Withdrawn

  datatype RetryFields = RetryFields(
    maxAttempts: nat,
    backoff: Time,
    maxBackoff: Time,
    retryable: set<string>)

  /** A retry policy that its validators accepted. */
  type RetryPolicy = p: RetryFields | 1 <= p.maxAttempts && 0.0 <= p.backoff <= p.maxBackoff
    witness RetryFields(3, 1.0, 60.0, {"timeout", "transient", "worker_lost"})

  const DEFAULT_RETRY: RetryPolicy := RetryFields(3, 1.0, 60.0, {"timeout", "transient", "worker_lost"})

  /** Idempotency keys. Goal tasks use the two structured forms; a client key is
      free text with its surrounding white space already removed. */
  datatype Key =
    | TaskKey(goalId: Uuid, taskId: Uuid)
    | RerunKey(goalId: Uuid, taskId: Uuid, run: nat)
    | ClientKey(text: string)

  datatype Origin = GoalOrigin(goalId: Uuid) | OtherOrigin(name: string)

  datatype TaskInput = TaskInput(
    taskId: Uuid,
    origin: Origin,
    skill: string,
    payload: Json,
    threshold: real,
    workspaceRoot: string)

  /** One entry of a result's list of artifacts. Agents return whatever JSON they like; the entry is `wellFormed`
      when it is an object with a filename and a content that are texts UTF-8 can encode. */
  datatype Artifact = Artifact(filename: string, content: string, wellFormed: bool)

  /** What an agent run returned. `output` is the "result" entry when that entry
      is an object, and `raw` the whole returned object. */
  datatype JobResult = JobResult(
    status: string,
    confidence: Option<real>,
    failureReason: Option<string>,
    artifacts: seq<Artifact>,
    output: Option<Json>,
    raw: Json)
  {
    /** The result must be published: it has artifacts, or asks for a review. */
    predicate HasEvidence() {
      artifacts != [] || status == "escalated"
    }
  }

  // ---- goals ------------------------------------------------------------------

  datatype GoalStatus = GPlanning | GReady | GRunning | GPaused | GComplete | GFailed | GCancelled

  datatype TaskStatus = TPending | TRunning | TComplete | TFailed | TEscalated | TBlocked | TCancelled

  datatype PlannedTask = PlannedTask(
    projectId: Uuid,
    skill: string,
    payload: Json,
    dependsOn: seq<Uuid>,
    status: TaskStatus,
    confidence: Option<real>,
    result: Option<Json>,
    error: Option<string>,
    jobId: Option<Uuid>,
    resolved: Option<Json>)
}
