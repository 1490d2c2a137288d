/** The completion outbox: publishers that record artifacts, enqueue a review and acknowledge, any number
    of them at once, each of which may stop between any two of its steps. */
module Publication {
  import opened Prelude
  import opened Contracts
  import opened Artifacts
  import Jobs
  import JobInvariant
  import JobRuns

  /** The task_id column of the review queue. */
  datatype ReviewKey = UuidKey(id: Uuid) | TextKey(text: string)

  datatype Reference = Reference(id: VersionId, hash: Digest)

  datatype AgentOutput = Evidence(output: map<string, Json>, references: seq<Reference>) | OtherOutput(raw: Json)

  datatype ReviewRow = ReviewRow(
    skill: string,
    confidence: real,
    payload: Json,
    output: AgentOutput,
    deadline: Option<Time>,
    goalId: Option<Uuid>,
    plannedTaskId: Option<Uuid>,
    attemptId: Option<Uuid>,
    status: string)

  type Reviews = map<ReviewKey, ReviewRow>

  /** A committed completion with the task and the result it is about. */
  datatype Event = Event(job: Uuid, attempt: Uuid, createdAt: Time, task: TaskInput, result: JobResult)

  datatype Shared = Shared(jobs: Jobs.Db, store: Store, reviews: Reviews)

  // ---- one event ------------------------------------------------------------------

  predicate Present(db: Jobs.Db, j: Uuid) {
    j in db.outbox && j in db.inputs && j in db.outputs
  }

  function EventOf(db: Jobs.Db, j: Uuid): Event
    requires Present(db, j)
  {
    Event(j, db.outbox[j].attemptId, db.outbox[j].createdAt, db.inputs[j], db.outputs[j])
  }

  function KeyAt(e: Event, i: nat): AttemptKey
    requires i < |e.result.artifacts|
  {
    AttemptKey(e.attempt, IdentityKey(e.task.workspaceRoot, e.result.artifacts[i].filename))
  }

  function RecordContext(e: Event, backed: bool, now: Time): Context {
    Context(e.task.workspaceRoot, e.task.taskId, e.task.skill, Some(e.attempt), backed, now)
  }

  function ReviewKeyOf(e: Event): ReviewKey {
    if e.task.origin.GoalOrigin? then UuidKey(e.attempt) else UuidKey(e.task.taskId)
  }

  predicate Escalated(e: Event) {
    e.result.status == "escalated"
  }

  function Fields(entries: seq<Entry>): map<string, Json> {
    if entries == [] then map[] else map[entries[0].name := entries[0].value] + Fields(entries[1..])
  }

  /** {**output, "artifact_versions": references} */
  function EvidenceOf(e: Event, refs: seq<Reference>): AgentOutput {
    var output := if e.result.output.Some? && e.result.output.value.Dict? then Fields(e.result.output.value.entries) else map[];
    Evidence(output - {"artifact_versions"}, refs)
  }

  const REVIEW_SLA := 3600.0

  function ReviewFor(e: Event, refs: seq<Reference>): ReviewRow {
    var goal := e.task.origin.GoalOrigin?;
    ReviewRow(e.task.skill, if e.result.confidence.Some? then e.result.confidence.value else 0.0, e.task.payload,
              EvidenceOf(e, refs), Some(e.createdAt + REVIEW_SLA),
              if goal then Some(e.task.origin.goalId) else None, if goal then Some(e.task.taskId) else None,
              Some(e.attempt), "pending")
  }

  /** INSERT OR IGNORE. */
  function Inserted(reviews: Reviews, key: ReviewKey, row: ReviewRow): Reviews {
    if key in reviews then reviews else reviews[key := row]
  }

  /** The review row of the event holds exactly its attempt and its evidence. */
  predicate Reviewed(reviews: Reviews, e: Event, refs: seq<Reference>) {
    && ReviewKeyOf(e) in reviews
    && reviews[ReviewKeyOf(e)].attemptId == Some(e.attempt) && reviews[ReviewKeyOf(e)].output == EvidenceOf(e, refs)
  }

  /** The references to recorded versions; None when one of them cannot be read. */
  function References(s: Store, versions: seq<Recorded>, backed: bool): (refs: Option<seq<Reference>>)
    ensures refs.Some? ==> |refs.value| == |versions|
    ensures refs.Some? ==> forall i :: 0 <= i < |versions| ==>
      versions[i].id in s.tables.rows && refs.value[i] == Reference(versions[i].id, s.tables.rows[versions[i].id].hash)
  {
    if versions == [] then Some([])
    else
      var rest := References(s, versions[..|versions| - 1], backed);
      var id := versions[|versions| - 1].id;
      var row := GetVersion(s, id, backed);
      if rest.None? || row.None? || row.value.None? then None
      else Some(rest.value + [Reference(id, row.value.value.hash)])
  }

  // ---- the machine --------------------------------------------------------------------

  /** What a publisher knows while it works on an event. */
  datatype Publisher =
    | Idle
    | Recording(event: Event, versions: seq<Recorded>)
    | Referring(event: Event, refs: seq<Reference>)
    | Enqueued(event: Event, refs: seq<Reference>)
    | Cleared(event: Event)

  /** What a cleanup knows: first the objects that rows named, then also which objects it is to delete. */
  datatype Cleaner =
    | Off
    | Knowing(known: set<VersionId>)
    | Deleting(todo: set<VersionId>)

  datatype System = System(shared: Shared, publishers: map<nat, Publisher>, cleaners: map<nat, Cleaner>)

  /** The first six are the steps of a publisher, the next three those of a cleanup, which holds no lock
      between them. The others come from outside: direct routing records artifacts and enqueues reviews for
      no attempt, reviewers resolve, workers use the job tables. A recording is one step: it holds the lock
      that reading the known rows needs, and deletions in its course can wait (see Delivery.DeletionsCanWait). */
  datatype Action =
    | Begin(p: nat, job: Uuid, backed: bool, now: Time, fault: Fault)
    | Refer(p: nat, backed: bool)
    | Enqueue(p: nat)
    | Confirm(p: nat)
    | Acknowledge(p: nat, now: Time)
    | Stop(p: nat)
    | DirectRecord(batch: seq<Artifact>, ctx: Context, fault: Fault)
    | ReadKnown(c: nat)
    | ListObjects(c: nat)
    | Delete(c: nat, id: VersionId)
    | DirectReview(key: ReviewKey, row: ReviewRow)
    | Resolve(key: ReviewKey, status: string)
    | WorkerCall(call: Jobs.Call, now: Time)

  function At(m: System, p: nat): Publisher {
    if p in m.publishers then m.publishers[p] else Idle
  }

  function Goto(m: System, p: nat, at: Publisher): System {
    m.(publishers := m.publishers[p := at])
  }

  ghost function BeginStep(m: System, p: nat, job: Uuid, backed: bool, now: Time, fault: Fault): System {
    if At(m, p) != Idle || !Present(m.shared.jobs, job) then m
    else
      var e := EventOf(m.shared.jobs, job);
      var done := RecordTx(m.shared.store, e.result.artifacts, RecordContext(e, backed, now), fault);
      var m' := m.(shared := m.shared.(store := done.0));
      if done.1.None? then m' else Goto(m', p, Recording(e, done.1.value))
  }

  function ReferStep(m: System, p: nat, backed: bool): System {
    match At(m, p)
    case Recording(e, versions) =>
      var refs := References(m.shared.store, versions, backed);
      Goto(m, p, if refs.None? then Idle else Referring(e, refs.value))
    case _ => m
  }

  function EnqueueStep(m: System, p: nat): System {
    match At(m, p)
    case Referring(e, refs) =>
      if Escalated(e) then
        var reviews := Inserted(m.shared.reviews, ReviewKeyOf(e), ReviewFor(e, refs));
        Goto(m.(shared := m.shared.(reviews := reviews)), p, Enqueued(e, refs))
      else Goto(m, p, Enqueued(e, refs))
    case _ => m
  }

  function ConfirmStep(m: System, p: nat): System {
    match At(m, p)
    case Enqueued(e, refs) => Goto(m, p, if Escalated(e) && !Reviewed(m.shared.reviews, e, refs) then Idle else Cleared(e))
    case _ => m
  }

  function AcknowledgeStep(m: System, p: nat, now: Time): System {
    match At(m, p)
    case Cleared(e) => Goto(m.(shared := m.shared.(jobs := Jobs.AcknowledgeTx(m.shared.jobs, e.job, now))), p, Idle)
    case _ => m
  }

  function CleanerAt(m: System, c: nat): Cleaner {
    if c in m.cleaners then m.cleaners[c] else Off
  }

  function ReadKnownStep(m: System, c: nat): System {
    m.(cleaners := m.cleaners[c := Knowing(Known(m.shared.store.tables.rows))])
  }

  function ListObjectsStep(m: System, c: nat): System {
    match CleanerAt(m, c)
    case Knowing(known) => m.(cleaners := m.cleaners[c := Deleting(m.shared.store.objects.Keys - known)])
    case _ => m
  }

  function DeleteStep(m: System, c: nat, id: VersionId): System {
    match CleanerAt(m, c)
    case Deleting(todo) =>
      if id !in todo then m
      else m.(shared := m.shared.(store := m.shared.store.(objects := m.shared.store.objects - {id})),
              cleaners := m.cleaners[c := Deleting(todo - {id})])
    case _ => m
  }

  ghost function Step(m: System, a: Action): System {
    match a
    case Begin(p, job, backed, now, fault) => BeginStep(m, p, job, backed, now, fault)
    case Refer(p, backed) => ReferStep(m, p, backed)
    case Enqueue(p) => EnqueueStep(m, p)
    case Confirm(p) => ConfirmStep(m, p)
    case Acknowledge(p, now) => AcknowledgeStep(m, p, now)
    case Stop(p) => Goto(m, p, Idle)
    case DirectRecord(batch, ctx, fault) =>
      if ctx.attemptId.Some? then m else m.(shared := m.shared.(store := RecordTx(m.shared.store, batch, ctx, fault).0))
    case ReadKnown(c) => ReadKnownStep(m, c)
    case ListObjects(c) => ListObjectsStep(m, c)
    case Delete(c, id) => DeleteStep(m, c, id)
    case DirectReview(key, row) =>
      if row.attemptId.Some? then m else m.(shared := m.shared.(reviews := Inserted(m.shared.reviews, key, row)))
    case Resolve(key, status) =>
      if key in m.shared.reviews && m.shared.reviews[key].status == "pending"
      then m.(shared := m.shared.(reviews := m.shared.reviews[key := m.shared.reviews[key].(status := status)])) else m
    case WorkerCall(call, now) =>
      if call.Acknowledge? then m else m.(shared := m.shared.(jobs := Jobs.Apply(m.shared.jobs, call, now)))
  }

  ghost function RunSystem(m: System, run: seq<Action>): System
    decreases |run|
  {
    if run == [] then m else RunSystem(Step(m, run[0]), run[1..])
  }

  // ---- what stays ------------------------------------------------------------------------

  /** An event of `db` is an event of `db'` with the same attempt, task and result, and stays published. */
  ghost predicate EventsStay(db: Jobs.Db, db': Jobs.Db) {
    forall j :: Present(db, j) ==>
      Present(db', j) && EventOf(db', j) == EventOf(db, j)
      && (db.outbox[j].publishedAt.Some? ==> db'.outbox[j].publishedAt.Some?)
  }

  ghost predicate StoreStays(t: Tables, t': Tables) {
    && (forall k :: k in t.attempts ==> k in t'.attempts && t'.attempts[k] == t.attempts[k])
    && (forall id :: id in t.rows ==> id in t'.rows && t'.rows[id] == t.rows[id])
  }

  predicate SameReview(x: ReviewRow, y: ReviewRow) {
    y == x.(status := y.status)
  }

  ghost predicate ReviewsStay(r: Reviews, r': Reviews) {
    forall key :: key in r ==> key in r' && SameReview(r[key], r'[key])
  }

  ghost predicate Stays(s: Shared, s': Shared) {
    EventsStay(s.jobs, s'.jobs) && StoreStays(s.store.tables, s'.store.tables) && ReviewsStay(s.reviews, s'.reviews)
  }

  /** What is proved of the shared state about one event: every file has its version, and an escalated
      event has its review row. */
  ghost predicate HasVersions(t: Tables, e: Event) {
    forall i :: 0 <= i < |e.result.artifacts| ==> KeyAt(e, i) in t.attempts && t.attempts[KeyAt(e, i)] in t.rows
  }

  ghost function Refs(t: Tables, e: Event): (refs: seq<Reference>)
    requires HasVersions(t, e)
    ensures |refs| == |e.result.artifacts|
    ensures forall i :: 0 <= i < |refs| ==> refs[i] == Reference(t.attempts[KeyAt(e, i)], t.rows[t.attempts[KeyAt(e, i)]].hash)
  {
    seq(|e.result.artifacts|, i requires 0 <= i < |e.result.artifacts| =>
      Reference(t.attempts[KeyAt(e, i)], t.rows[t.attempts[KeyAt(e, i)]].hash))
  }

  ghost predicate Delivered(s: Shared, e: Event) {
    && HasVersions(s.store.tables, e)
    && (Escalated(e) ==> Reviewed(s.reviews, e, Refs(s.store.tables, e)))
  }

  lemma RefsStay(t: Tables, t': Tables, e: Event)
    requires StoreStays(t, t') && HasVersions(t, e)
    ensures HasVersions(t', e) && Refs(t', e) == Refs(t, e)
  {
  }

  lemma DeliveredStays(s: Shared, s': Shared, e: Event)
    requires Stays(s, s') && Delivered(s, e)
    ensures Delivered(s', e)
  {
    RefsStay(s.store.tables, s'.store.tables, e);
  }

  lemma StaysTransitive(s1: Shared, s2: Shared, s3: Shared)
    requires Stays(s1, s2) && Stays(s2, s3)
    ensures Stays(s1, s3)
  {
    hide EventOf, Present;
  }

  // ---- the invariant -----------------------------------------------------------------------

  /** No earlier artifact of the event has the same file. */
  predicate FirstOfItsFile(e: Event, i: nat) {
    i < |e.result.artifacts| && forall k :: 0 <= k < i ==> KeyAt(e, k) != KeyAt(e, i)
  }

  ghost predicate IsEvent(db: Jobs.Db, e: Event) {
    Present(db, e.job) && EventOf(db, e.job) == e
  }

  /** Versions recorded for an attempt belong to the event of that attempt, and hold its contents. */
  ghost predicate OwnContents(s: Shared) {
    && (forall k :: k in s.store.tables.attempts ==> exists j :: Present(s.jobs, j) && s.jobs.outbox[j].attemptId == k.attemptId)
    && (forall j, i: nat :: Present(s.jobs, j) && FirstOfItsFile(EventOf(s.jobs, j), i) ==>
          HoldsContent(s.store.tables, KeyAt(EventOf(s.jobs, j), i), s.jobs.outputs[j].artifacts[i].content))
  }

  predicate HoldsContent(t: Tables, k: AttemptKey, content: string) {
    k in t.attempts ==> t.attempts[k] in t.rows && t.rows[t.attempts[k]].content == content
  }

  /** A review row that carries an attempt is the row of that attempt's event. */
  ghost predicate OwnReviews(s: Shared) {
    forall key :: key in s.reviews && s.reviews[key].attemptId.Some? ==>
      exists j :: Present(s.jobs, j) && IsRowOf(s, key, EventOf(s.jobs, j))
  }

  ghost predicate IsRowOf(s: Shared, key: ReviewKey, e: Event) {
    && key == ReviewKeyOf(e) && key in s.reviews && Escalated(e) && HasVersions(s.store.tables, e)
    && SameReview(ReviewFor(e, Refs(s.store.tables, e)), s.reviews[key])
  }

  /** What a publisher holds is what the shared state says, whenever it was read. */
  ghost predicate PublisherOk(s: Shared, at: Publisher) {
    match at
    case Idle => true
    case Recording(e, versions) =>
      && IsEvent(s.jobs, e) && HasVersions(s.store.tables, e) && |versions| == |e.result.artifacts|
      && forall i :: 0 <= i < |versions| ==> versions[i].id == s.store.tables.attempts[KeyAt(e, i)]
    case Referring(e, refs) => IsEvent(s.jobs, e) && HasVersions(s.store.tables, e) && refs == Refs(s.store.tables, e)
    case Enqueued(e, refs) => IsEvent(s.jobs, e) && HasVersions(s.store.tables, e) && refs == Refs(s.store.tables, e)
    case Cleared(e) => IsEvent(s.jobs, e) && Delivered(s, e)
  }

  /** An acknowledged event was delivered. */
  ghost predicate AcknowledgedOk(s: Shared) {
    forall j :: Present(s.jobs, j) && s.jobs.outbox[j].publishedAt.Some? ==> Delivered(s, EventOf(s.jobs, j))
  }

  /** An object has the name of its version. */
  predicate NamedAlike(rows: Rows) {
    forall id :: id in rows && rows[id].objectId.Some? ==> rows[id].objectId.value == id
  }

  ghost predicate SharedInv(s: Shared) {
    && JobInvariant.Consistent(s.jobs) && Chained(s.store.tables) && NamedAlike(s.store.tables.rows)
    && OwnContents(s) && OwnReviews(s) && AcknowledgedOk(s)
  }

  ghost predicate Inv(m: System) {
    SharedInv(m.shared) && forall p :: p in m.publishers ==> PublisherOk(m.shared, m.publishers[p])
  }

  lemma PublisherStays(s: Shared, s': Shared, at: Publisher)
    requires Stays(s, s') && PublisherOk(s, at)
    ensures PublisherOk(s', at)
  {
    if at != Idle {
      assert IsEvent(s'.jobs, at.event);
      if at.Cleared? { DeliveredStays(s, s', at.event); } else { RefsStay(s.store.tables, s'.store.tables, at.event); }
    }
  }

  /** A step that moves publisher `p` to `at` and keeps everything shared. */
  lemma MoveKeeps(m: System, s': Shared, p: nat, at: Publisher)
    requires Inv(m) && SharedInv(s') && Stays(m.shared, s') && PublisherOk(s', at)
    ensures Inv(Goto(m.(shared := s'), p, at)) && Inv(m.(shared := s'))
  {
    hide SharedInv, Stays, PublisherOk;
    forall q | q in m.publishers ensures PublisherOk(s', m.publishers[q]) {
      PublisherStays(m.shared, s', m.publishers[q]);
    }
  }

  lemma StaysReflexive(s: Shared)
    ensures Stays(s, s)
  {
  }

  // ---- the store ---------------------------------------------------------------------------

  lemma RecordStays(s: Store, batch: seq<Artifact>, ctx: Context, fault: Fault)
    ensures StoreStays(s.tables, RecordTx(s, batch, ctx, fault).0.tables)
  {
    hide Failure, RecordFirst, Latest;
    RecordFirstIsLater(s, batch, |batch|, ctx);
    forall id | id in s.tables.rows ensures id in RecordTx(s, batch, ctx, fault).0.tables.rows {
      RecordFirstKeepsRows(s, batch, |batch|, ctx, id);
    }
  }

  /** Recording artifact by artifact notes no file but those of the batch. */
  lemma {:induction false} OnlyBatchIsNoted(s: Store, batch: seq<Artifact>, n: nat, ctx: Context, k: AttemptKey)
    requires n <= |batch| && k !in s.tables.attempts && k in RecordFirst(s, batch, n, ctx).0.tables.attempts
    ensures ctx.attemptId == Some(k.attemptId)
    ensures exists i :: 0 <= i < n && k.key == IdentityKey(ctx.workspaceRoot, batch[i].filename)
  {
    hide Latest;
    if n > 0 && k in RecordFirst(s, batch, n - 1, ctx).0.tables.attempts { OnlyBatchIsNoted(s, batch, n - 1, ctx, k); }
  }

  /** The first artifact of a file ends up in the version its attempt is given. */
  lemma {:induction false} FirstIsStored(s: Store, e: Event, backed: bool, now: Time, n: nat, i: nat)
    requires Chained(s.tables) && FirstOfItsFile(e, i) && KeyAt(e, i) !in s.tables.attempts && i < n <= |e.result.artifacts|
    ensures var after := RecordFirst(s, e.result.artifacts, n, RecordContext(e, backed, now)).0;
      HoldsContent(after.tables, KeyAt(e, i), e.result.artifacts[i].content)
    decreases n
  {
    hide RecordOne, Chained, Later;
    var ctx, batch := RecordContext(e, backed, now), e.result.artifacts;
    var before := RecordFirst(s, batch, n - 1, ctx).0;
    RecordFirstChains(s, batch, n - 1, ctx);
    if i < n - 1 {
      FirstIsStored(s, e, backed, now, n - 1, i);
      BatchIsNoted(s, batch, n - 1, ctx, i);
      OneKeepsContent(before, batch[n - 1], ctx, KeyAt(e, i), batch[i].content);
    } else {
      assert KeyAt(e, i) !in before.tables.attempts by { FirstIsNotYetNoted(s, e, backed, now, i); }
      RecordOneStores(before, batch[i], ctx);
      OneIsNoted(before, batch[i], ctx);
    }
  }

  lemma FirstIsNotYetNoted(s: Store, e: Event, backed: bool, now: Time, i: nat)
    requires FirstOfItsFile(e, i) && KeyAt(e, i) !in s.tables.attempts
    ensures KeyAt(e, i) !in RecordFirst(s, e.result.artifacts, i, RecordContext(e, backed, now)).0.tables.attempts
  {
    hide RecordFirst;
    var ctx, batch := RecordContext(e, backed, now), e.result.artifacts;
    assert forall k :: 0 <= k < i ==> KeyAt(e, k) == AttemptKey(e.attempt, IdentityKey(ctx.workspaceRoot, batch[k].filename));
    if KeyAt(e, i) in RecordFirst(s, batch, i, ctx).0.tables.attempts {
      OnlyBatchIsNoted(s, batch, i, ctx, KeyAt(e, i));
      assert false;
    }
  }

  lemma OneKeepsContent(s: Store, a: Artifact, ctx: Context, k: AttemptKey, content: string)
    requires k in s.tables.attempts && HoldsContent(s.tables, k, content)
    ensures HoldsContent(RecordOne(s, a, ctx).0.tables, k, content)
  {
    hide Latest;
    RecordOneIsLater(s, a, ctx);
  }

  // ---- the job tables ------------------------------------------------------------------------

  /** Two events of one attempt are the same event. */
  lemma AttemptHasOneEvent(db: Jobs.Db, i: Uuid, j: Uuid)
    requires JobInvariant.Consistent(db) && Present(db, i) && Present(db, j)
    requires db.outbox[i].attemptId == db.outbox[j].attemptId
    ensures i == j
  {
    hide JobInvariant.KeysOk, JobInvariant.JobsOk;
    hide JobInvariant.AttemptsOk, JobInvariant.DistinctOk, JobInvariant.NumbersOk;
    hide JobInvariant.SpacingOk, JobInvariant.TablesOk;
    assert JobInvariant.OutboxOk(db, i) && JobInvariant.OutboxOk(db, j);
  }

  lemma OutputsPart(db: Jobs.Db, j: Uuid)
    requires JobInvariant.Consistent(db) && j in db.outbox
    ensures Present(db, j) && j in db.jobs && db.jobs[j].status == Completed && j < db.nextUuid
  {
    hide JobInvariant.KeysOk, JobInvariant.AttemptsOk, JobInvariant.DistinctOk, JobInvariant.NumbersOk;
    hide JobInvariant.SpacingOk, JobInvariant.TablesOk;
    assert JobInvariant.OutboxOk(db, j);
    assert JobInvariant.OutputOk(db, j);
    assert JobInvariant.JobOk(db, j);
  }

  /** A worker's call leaves the row of an event as it is. */
  lemma CallLeavesEvent(db: Jobs.Db, call: Jobs.Call, now: Time, j: Uuid)
    requires JobInvariant.Consistent(db) && j in db.outbox && !call.Acknowledge?
    ensures var db' := Jobs.Apply(db, call, now);
      Present(db', j) && EventOf(db', j) == EventOf(db, j) && db'.outbox[j] == db.outbox[j]
  {
    hide JobInvariant.Consistent, Jobs.Apply;
    OutputsPart(db, j);
    JobRuns.CommitIsFenced(db, j, call, now);
    RowsLeft(db, call, now, j);
  }

  lemma RowsLeft(db: Jobs.Db, call: Jobs.Call, now: Time, j: Uuid)
    requires j in db.outbox && j in db.inputs && j in db.jobs && db.jobs[j].status == Completed && j < db.nextUuid
    requires !call.Acknowledge?
    ensures var db' := Jobs.Apply(db, call, now);
      && j in db'.outbox && db'.outbox[j] == db.outbox[j] && j in db'.inputs && db'.inputs[j] == db.inputs[j]
  {
    hide Jobs.IsNext, Jobs.Delivered, Jobs.RetryDelay, Jobs.LogOf, Jobs.ShouldRetry;
  }

  /** A worker's call publishes nothing. */
  lemma NewEventsAreUnpublished(db: Jobs.Db, call: Jobs.Call, now: Time, j: Uuid)
    requires !call.Acknowledge? && j in Jobs.Apply(db, call, now).outbox && Jobs.Apply(db, call, now).outbox[j].publishedAt.Some?
    ensures j in db.outbox && db.outbox[j].publishedAt.Some?
  {
    hide Jobs.IsNext, Jobs.Delivered, Jobs.RetryDelay, Jobs.LogOf, Jobs.ShouldRetry;
  }

  // ---- keeping the shared invariant ---------------------------------------------------------------

  lemma ReviewsStayOwn(s: Shared, s': Shared)
    requires OwnReviews(s) && Stays(s, s') && s'.reviews.Keys == s.reviews.Keys
    ensures OwnReviews(s')
  {
    forall key | key in s'.reviews && s'.reviews[key].attemptId.Some?
      ensures exists j :: Present(s'.jobs, j) && IsRowOf(s', key, EventOf(s'.jobs, j))
    {
      var j :| Present(s.jobs, j) && IsRowOf(s, key, EventOf(s.jobs, j));
      RowStays(s, s', key, EventOf(s.jobs, j));
      assert Present(s'.jobs, j) && EventOf(s'.jobs, j) == EventOf(s.jobs, j);
    }
  }

  lemma RowStays(s: Shared, s': Shared, key: ReviewKey, e: Event)
    requires Stays(s, s') && IsRowOf(s, key, e)
    ensures IsRowOf(s', key, e)
  {
    RefsStay(s.store.tables, s'.store.tables, e);
  }

  lemma AcknowledgedStays(s: Shared, s': Shared)
    requires AcknowledgedOk(s) && Stays(s, s')
    requires forall j :: Present(s'.jobs, j) && s'.jobs.outbox[j].publishedAt.Some? ==>
      Present(s.jobs, j) && s.jobs.outbox[j].publishedAt.Some?
    ensures AcknowledgedOk(s')
  {
    hide Delivered;
    forall j | Present(s'.jobs, j) && s'.jobs.outbox[j].publishedAt.Some? ensures Delivered(s', EventOf(s'.jobs, j)) {
      DeliveredStays(s, s', EventOf(s.jobs, j));
    }
  }

  /** Only the store changed, and new attempt keys are those of event `e`, noted with its contents. */
  lemma StoreChangeKeeps(s: Shared, s': Shared)
    requires SharedInv(s) && s' == s.(store := s'.store) && StoreStays(s.store.tables, s'.store.tables)
    requires Chained(s'.store.tables) && NamedAlike(s'.store.tables.rows) && OwnContents(s')
    ensures SharedInv(s') && Stays(s, s')
  {
    hide JobInvariant.Consistent, Chained, NamedAlike, OwnContents, OwnReviews, AcknowledgedOk, StoreStays;
    assert Stays(s, s');
    ReviewsStayOwn(s, s');
    AcknowledgedStays(s, s');
  }

  lemma SameKeysKeepContents(s: Shared, s': Shared)
    requires OwnContents(s) && s'.jobs == s.jobs && StoreStays(s.store.tables, s'.store.tables)
    requires s'.store.tables.attempts.Keys == s.store.tables.attempts.Keys
    ensures OwnContents(s')
  {
    forall j, i: nat | Present(s'.jobs, j) && FirstOfItsFile(EventOf(s'.jobs, j), i)
      ensures HoldsContent(s'.store.tables, KeyAt(EventOf(s'.jobs, j), i), s'.jobs.outputs[j].artifacts[i].content)
    {
      assert HoldsContent(s.store.tables, KeyAt(EventOf(s.jobs, j), i), s.jobs.outputs[j].artifacts[i].content);
    }
  }

  lemma RecordedContents(s: Shared, e: Event, backed: bool, now: Time)
    requires JobInvariant.Consistent(s.jobs) && Chained(s.store.tables) && OwnContents(s) && IsEvent(s.jobs, e)
    ensures var after := RecordFirst(s.store, e.result.artifacts, |e.result.artifacts|, RecordContext(e, backed, now)).0;
      OwnContents(s.(store := after))
  {
    hide JobInvariant.Consistent, Chained, RecordFirst, OwnContents;
    var ctx, batch := RecordContext(e, backed, now), e.result.artifacts;
    var after := RecordFirst(s.store, batch, |batch|, ctx).0;
    var s' := s.(store := after);
    StoreGrows(s.store, batch, ctx);
    forall k | k in after.tables.attempts ensures exists j :: Present(s.jobs, j) && s.jobs.outbox[j].attemptId == k.attemptId {
      if k in s.store.tables.attempts { KnownAttempt(s, k); }
      else { OnlyBatchIsNoted(s.store, batch, |batch|, ctx, k); assert s.jobs.outbox[e.job].attemptId == k.attemptId; }
    }
    forall j, i: nat | Present(s.jobs, j) && FirstOfItsFile(EventOf(s.jobs, j), i)
      ensures HoldsContent(after.tables, KeyAt(EventOf(s.jobs, j), i), s.jobs.outputs[j].artifacts[i].content)
    {
      RecordedContent(s, e, backed, now, j, i);
    }
    OwnContentsFrom(s');
  }

  lemma OwnContentsFrom(s: Shared)
    requires forall k :: k in s.store.tables.attempts ==>
      exists j :: Present(s.jobs, j) && s.jobs.outbox[j].attemptId == k.attemptId
    requires forall j, i: nat :: Present(s.jobs, j) && FirstOfItsFile(EventOf(s.jobs, j), i) ==>
      HoldsContent(s.store.tables, KeyAt(EventOf(s.jobs, j), i), s.jobs.outputs[j].artifacts[i].content)
    ensures OwnContents(s)
  {
  }

  lemma KnownAttempt(s: Shared, k: AttemptKey)
    requires OwnContents(s) && k in s.store.tables.attempts
    ensures exists j :: Present(s.jobs, j) && s.jobs.outbox[j].attemptId == k.attemptId
  {
  }

  lemma StoreGrows(s: Store, batch: seq<Artifact>, ctx: Context)
    ensures StoreStays(s.tables, RecordFirst(s, batch, |batch|, ctx).0.tables)
  {
    hide RecordFirst;
    RecordFirstIsLater(s, batch, |batch|, ctx);
    forall id | id in s.tables.rows ensures id in RecordFirst(s, batch, |batch|, ctx).0.tables.rows {
      RecordFirstKeepsRows(s, batch, |batch|, ctx, id);
    }
  }

  lemma RecordedContent(s: Shared, e: Event, backed: bool, now: Time, j: Uuid, i: nat)
    requires JobInvariant.Consistent(s.jobs) && Chained(s.store.tables) && OwnContents(s) && IsEvent(s.jobs, e)
    requires Present(s.jobs, j) && FirstOfItsFile(EventOf(s.jobs, j), i)
    ensures var after := RecordFirst(s.store, e.result.artifacts, |e.result.artifacts|, RecordContext(e, backed, now)).0;
      HoldsContent(after.tables, KeyAt(EventOf(s.jobs, j), i), s.jobs.outputs[j].artifacts[i].content)
  {
    hide JobInvariant.Consistent, Chained, RecordFirst;
    var ctx, batch := RecordContext(e, backed, now), e.result.artifacts;
    var after := RecordFirst(s.store, batch, |batch|, ctx).0;
    var k := KeyAt(EventOf(s.jobs, j), i);
    StoreGrows(s.store, batch, ctx);
    assert HoldsContent(s.store.tables, k, s.jobs.outputs[j].artifacts[i].content);
    if k !in s.store.tables.attempts && k in after.tables.attempts {
      OnlyBatchIsNoted(s.store, batch, |batch|, ctx, k);
      AttemptHasOneEvent(s.jobs, j, e.job);
      FirstIsStored(s.store, e, backed, now, |batch|, i);
    }
  }

  lemma RecordKeeps(s: Shared, e: Event, backed: bool, now: Time, fault: Fault)
    requires SharedInv(s) && IsEvent(s.jobs, e)
    ensures var done := RecordTx(s.store, e.result.artifacts, RecordContext(e, backed, now), fault);
      var s' := s.(store := done.0);
      && SharedInv(s') && Stays(s, s')
      && (done.1.Some? ==> PublisherOk(s', Recording(e, done.1.value)))
  {
    hide JobInvariant.Consistent, Chained, NamedAlike, OwnContents, OwnReviews;
    hide AcknowledgedOk, RecordFirst, Failure, StoreStays, Stays;
    var ctx, batch := RecordContext(e, backed, now), e.result.artifacts;
    var done := RecordTx(s.store, batch, ctx, fault);
    var s' := s.(store := done.0);
    RecordStays(s.store, batch, ctx, fault);
    RecordNamesAlike(s.store, batch, ctx, fault);
    RecordFirstChains(s.store, batch, |batch|, ctx);
    if done.1.Some? {
      RecordedContents(s, e, backed, now);
      StoreChangeKeeps(s, s');
      AllNoted(s.store, e, backed, now);
    } else {
      SameKeysKeepContents(s, s');
      StoreChangeKeeps(s, s');
    }
  }

  lemma AllNoted(s: Store, e: Event, backed: bool, now: Time)
    requires Chained(s.tables)
    ensures var after := RecordFirst(s, e.result.artifacts, |e.result.artifacts|, RecordContext(e, backed, now));
      && HasVersions(after.0.tables, e) && |after.1| == |e.result.artifacts|
      && forall i :: 0 <= i < |after.1| ==> after.1[i].id == after.0.tables.attempts[KeyAt(e, i)]
  {
    hide RecordFirst;
    var ctx, batch := RecordContext(e, backed, now), e.result.artifacts;
    RecordFirstChains(s, batch, |batch|, ctx);
    ResultsPerArtifact(s, batch, |batch|, ctx);
    forall i | 0 <= i < |batch|
      ensures var after := RecordFirst(s, batch, |batch|, ctx);
        KeyAt(e, i) in after.0.tables.attempts && after.0.tables.attempts[KeyAt(e, i)] == after.1[i].id
    {
      BatchIsNoted(s, batch, |batch|, ctx, i);
    }
  }

  lemma DirectRecordKeeps(s: Shared, batch: seq<Artifact>, ctx: Context, fault: Fault)
    requires SharedInv(s) && ctx.attemptId.None?
    ensures var s' := s.(store := RecordTx(s.store, batch, ctx, fault).0); SharedInv(s') && Stays(s, s')
  {
    hide JobInvariant.Consistent, Chained, NamedAlike, OwnContents, OwnReviews;
    hide AcknowledgedOk, RecordFirst, Failure, StoreStays, Stays;
    var s' := s.(store := RecordTx(s.store, batch, ctx, fault).0);
    RecordStays(s.store, batch, ctx, fault);
    RecordNamesAlike(s.store, batch, ctx, fault);
    RecordFirstChains(s.store, batch, |batch|, ctx);
    DirectNotesNothing(s.store, batch, ctx, fault);
    SameKeysKeepContents(s, s');
    StoreChangeKeeps(s, s');
  }

  lemma DirectNotesNothing(s: Store, batch: seq<Artifact>, ctx: Context, fault: Fault)
    requires ctx.attemptId.None?
    ensures RecordTx(s, batch, ctx, fault).0.tables.attempts.Keys == s.tables.attempts.Keys
  {
    hide RecordFirst, Failure;
    RecordStays(s, batch, ctx, fault);
    var t := RecordTx(s, batch, ctx, fault).0.tables;
    forall k | k in t.attempts ensures k in s.tables.attempts {
      if k !in s.tables.attempts { OnlyBatchIsNoted(s, batch, |batch|, ctx, k); }
    }
  }

  lemma {:induction false} FirstNamesAlike(s: Store, batch: seq<Artifact>, n: nat, ctx: Context)
    requires n <= |batch| && NamedAlike(s.tables.rows)
    ensures NamedAlike(RecordFirst(s, batch, n, ctx).0.tables.rows)
  {
    hide Latest;
    if n > 0 { FirstNamesAlike(s, batch, n - 1, ctx); }
  }

  lemma RecordNamesAlike(s: Store, batch: seq<Artifact>, ctx: Context, fault: Fault)
    requires NamedAlike(s.tables.rows)
    ensures NamedAlike(RecordTx(s, batch, ctx, fault).0.tables.rows)
  {
    hide RecordFirst, Failure;
    FirstNamesAlike(s, batch, |batch|, ctx);
  }

  /** Objects may come and go: what is shared about events does not speak of them. */
  lemma ObjectsKeep(s: Shared, objects: Objects)
    requires SharedInv(s)
    ensures var s' := s.(store := s.store.(objects := objects)); SharedInv(s') && Stays(s, s')
  {
    hide JobInvariant.Consistent, Chained, NamedAlike, OwnContents, OwnReviews, AcknowledgedOk, Stays;
    var s' := s.(store := s.store.(objects := objects));
    SameKeysKeepContents(s, s');
    StoreChangeKeeps(s, s');
  }

  // ---- every step keeps the invariant ---------------------------------------------------------------

  lemma CallKeepsContents(s: Shared, call: Jobs.Call, now: Time)
    requires SharedInv(s) && !call.Acknowledge?
    requires EventsStay(s.jobs, Jobs.Apply(s.jobs, call, now)) && JobInvariant.Consistent(Jobs.Apply(s.jobs, call, now))
    ensures OwnContents(s.(jobs := Jobs.Apply(s.jobs, call, now)))
  {
    hide JobInvariant.Consistent, Jobs.Apply, OwnReviews, AcknowledgedOk, Chained, NamedAlike;
    var s' := s.(jobs := Jobs.Apply(s.jobs, call, now));
    forall j, i: nat | Present(s'.jobs, j) && FirstOfItsFile(EventOf(s'.jobs, j), i)
      ensures HoldsContent(s'.store.tables, KeyAt(EventOf(s'.jobs, j), i), s'.jobs.outputs[j].artifacts[i].content)
    {
      var k := KeyAt(EventOf(s'.jobs, j), i);
      if k in s.store.tables.attempts {
        var j0 :| Present(s.jobs, j0) && s.jobs.outbox[j0].attemptId == k.attemptId;
        assert EventOf(s'.jobs, j0) == EventOf(s.jobs, j0);
        AttemptHasOneEvent(s'.jobs, j, j0);
        assert HoldsContent(s.store.tables, KeyAt(EventOf(s.jobs, j), i), s.jobs.outputs[j].artifacts[i].content);
      }
    }
  }

  lemma CallKeepsShared(s: Shared, call: Jobs.Call, now: Time)
    requires SharedInv(s) && !call.Acknowledge?
    ensures var s' := s.(jobs := Jobs.Apply(s.jobs, call, now)); SharedInv(s') && Stays(s, s')
  {
    hide JobInvariant.Consistent, Jobs.Apply, OwnReviews, AcknowledgedOk, OwnContents, Chained, NamedAlike;
    var s' := s.(jobs := Jobs.Apply(s.jobs, call, now));
    JobInvariant.CallKeeps(s.jobs, call, now);
    forall j | Present(s.jobs, j)
      ensures Present(s'.jobs, j) && EventOf(s'.jobs, j) == EventOf(s.jobs, j) && s'.jobs.outbox[j] == s.jobs.outbox[j]
    {
      CallLeavesEvent(s.jobs, call, now, j);
    }
    assert Stays(s, s');
    CallKeepsContents(s, call, now);
    ReviewsStayOwn(s, s');
    forall j | Present(s'.jobs, j) && s'.jobs.outbox[j].publishedAt.Some?
      ensures Present(s.jobs, j) && s.jobs.outbox[j].publishedAt.Some?
    {
      NewEventsAreUnpublished(s.jobs, call, now, j);
      OutputsPart(s.jobs, j);
    }
    AcknowledgedStays(s, s');
  }

  lemma AcknowledgeKeepsShared(s: Shared, e: Event, now: Time)
    requires SharedInv(s) && IsEvent(s.jobs, e) && Delivered(s, e)
    ensures var s' := s.(jobs := Jobs.AcknowledgeTx(s.jobs, e.job, now)); SharedInv(s') && Stays(s, s')
  {
    hide JobInvariant.Consistent, Chained, NamedAlike, Delivered, OwnReviews, HoldsContent;
    var s' := s.(jobs := Jobs.AcknowledgeTx(s.jobs, e.job, now));
    JobInvariant.AcknowledgeKeeps(s.jobs, e.job, now);
    assert Stays(s, s');
    ReviewsStayOwn(s, s');
    forall k | k in s'.store.tables.attempts
      ensures exists j :: Present(s'.jobs, j) && s'.jobs.outbox[j].attemptId == k.attemptId
    {
      var j :| Present(s.jobs, j) && s.jobs.outbox[j].attemptId == k.attemptId;
      assert Present(s'.jobs, j);
    }
    forall j | Present(s'.jobs, j) && s'.jobs.outbox[j].publishedAt.Some? ensures Delivered(s', EventOf(s'.jobs, j)) {
      DeliveredStays(s, s', EventOf(s.jobs, j));
    }
  }

  /** Only the reviews changed: a new row carries no attempt, or is the row of a recorded event. */
  lemma ReviewChangeKeeps(s: Shared, s': Shared, e: Option<Event>)
    requires SharedInv(s) && s' == s.(reviews := s'.reviews) && ReviewsStay(s.reviews, s'.reviews)
    requires forall key :: key in s'.reviews && key !in s.reviews && s'.reviews[key].attemptId.Some? ==>
      e.Some? && IsEvent(s.jobs, e.value) && IsRowOf(s', key, e.value)
    ensures SharedInv(s') && Stays(s, s')
  {
    hide JobInvariant.Consistent, Chained, NamedAlike, IsRowOf, HoldsContent, Delivered, ReviewsStay;
    assert Stays(s, s');
    forall key | key in s'.reviews && s'.reviews[key].attemptId.Some?
      ensures exists j :: Present(s'.jobs, j) && IsRowOf(s', key, EventOf(s'.jobs, j))
    {
      if key in s.reviews {
        ReviewStaysAt(s.reviews, s'.reviews, key);
        var j :| Present(s.jobs, j) && IsRowOf(s, key, EventOf(s.jobs, j));
        RowStays(s, s', key, EventOf(s.jobs, j));
      } else {
        assert IsRowOf(s', key, EventOf(s'.jobs, e.value.job));
      }
    }
    AcknowledgedStays(s, s');
  }

  lemma ReviewStaysAt(r: Reviews, r': Reviews, key: ReviewKey)
    requires ReviewsStay(r, r') && key in r
    ensures key in r' && r'[key].attemptId == r[key].attemptId && r'[key].output == r[key].output
  {
  }

  lemma EnqueueKeeps(m: System, p: nat)
    requires Inv(m)
    ensures Inv(EnqueueStep(m, p)) && Stays(m.shared, EnqueueStep(m, p).shared)
  {
    hide SharedInv, Stays;
    StaysReflexive(m.shared);
    match At(m, p)
    case Referring(e, refs) =>
      var s' := if Escalated(e)
        then m.shared.(reviews := Inserted(m.shared.reviews, ReviewKeyOf(e), ReviewFor(e, refs))) else m.shared;
      ReviewChangeKeeps(m.shared, s', Some(e));
      PublisherStays(m.shared, s', At(m, p));
      MoveKeeps(m, s', p, Enqueued(e, refs));
      assert m.(shared := s') == if Escalated(e) then m.(shared := s') else m;
    case _ =>
  }

  lemma ReferKeeps(m: System, p: nat, backed: bool)
    requires Inv(m)
    ensures Inv(ReferStep(m, p, backed)) && Stays(m.shared, ReferStep(m, p, backed).shared)
  {
    hide SharedInv, Stays;
    StaysReflexive(m.shared);
    match At(m, p)
    case Recording(e, versions) =>
      var refs := References(m.shared.store, versions, backed);
      MoveKeeps(m, m.shared, p, if refs.None? then Idle else Referring(e, refs.value));
      assert m.(shared := m.shared) == m;
    case _ =>
  }

  lemma ConfirmKeeps(m: System, p: nat)
    requires Inv(m)
    ensures Inv(ConfirmStep(m, p)) && Stays(m.shared, ConfirmStep(m, p).shared)
  {
    hide SharedInv, Stays;
    StaysReflexive(m.shared);
    match At(m, p)
    case Enqueued(e, refs) =>
      MoveKeeps(m, m.shared, p, if Escalated(e) && !Reviewed(m.shared.reviews, e, refs) then Idle else Cleared(e));
      assert m.(shared := m.shared) == m;
    case _ =>
  }

  lemma StepKeeps(m: System, a: Action)
    requires Inv(m)
    ensures Inv(Step(m, a)) && Stays(m.shared, Step(m, a).shared)
  {
    hide SharedInv, Stays, PublisherOk, ReferStep, EnqueueStep, ConfirmStep, RecordTx, Jobs.Apply, Jobs.AcknowledgeTx;
    StaysReflexive(m.shared);
    assert m.(shared := m.shared) == m;
    assert PublisherOk(m.shared, Idle) by { IdleIsOk(m.shared); }
    match a
    case Begin(p, job, backed, now, fault) => BeginKeeps(m, p, job, backed, now, fault);
    case Refer(p, backed) => ReferKeeps(m, p, backed);
    case Enqueue(p) => EnqueueKeeps(m, p);
    case Confirm(p) => ConfirmKeeps(m, p);
    case Acknowledge(p, now) => AcknowledgeKeeps(m, p, now);
    case Stop(p) => MoveKeeps(m, m.shared, p, Idle);
    case ReadKnown(c) => OnlyCleanersMove(m, ReadKnownStep(m, c));
    case ListObjects(c) => OnlyCleanersMove(m, ListObjectsStep(m, c));
    case Delete(c, id) => DeleteKeeps(m, c, id);
    case _ => OutsideKeeps(m, a);
  }

  lemma SamePublishersKeep(m: System, m': System)
    requires Inv(m) && m'.publishers == m.publishers && SharedInv(m'.shared) && Stays(m.shared, m'.shared)
    ensures Inv(m')
  {
    hide SharedInv, Stays, PublisherOk;
    forall q | q in m.publishers ensures PublisherOk(m'.shared, m.publishers[q]) {
      PublisherStays(m.shared, m'.shared, m.publishers[q]);
    }
  }

  lemma OnlyCleanersMove(m: System, m': System)
    requires Inv(m) && m' == m.(cleaners := m'.cleaners)
    ensures Inv(m') && Stays(m.shared, m'.shared)
  {
    hide SharedInv, Stays, PublisherOk;
    StaysReflexive(m.shared);
    SamePublishersKeep(m, m');
  }

  lemma DeleteKeeps(m: System, c: nat, id: VersionId)
    requires Inv(m)
    ensures Inv(DeleteStep(m, c, id)) && Stays(m.shared, DeleteStep(m, c, id).shared)
  {
    hide SharedInv, Stays, PublisherOk;
    StaysReflexive(m.shared);
    ObjectsKeep(m.shared, m.shared.store.objects - {id});
    SamePublishersKeep(m, DeleteStep(m, c, id));
  }

  lemma IdleIsOk(s: Shared)
    ensures PublisherOk(s, Idle)
  {
  }

  predicate FromOutside(a: Action) {
    a.DirectRecord? || a.DirectReview? || a.Resolve? || a.WorkerCall?
  }

  lemma OutsideKeepsShared(m: System, a: Action)
    requires SharedInv(m.shared) && FromOutside(a)
    ensures SharedInv(Step(m, a).shared) && Stays(m.shared, Step(m, a).shared)
  {
    hide SharedInv, Stays, PublisherOk, RecordTx, Jobs.Apply;
    StaysReflexive(m.shared);
    match a
    case DirectRecord(batch, ctx, fault) => if ctx.attemptId.None? { DirectRecordKeeps(m.shared, batch, ctx, fault); }
    case DirectReview(_, _) => ReviewChangeKeeps(m.shared, Step(m, a).shared, None);
    case Resolve(_, _) => ReviewChangeKeeps(m.shared, Step(m, a).shared, None);
    case WorkerCall(call, now) => if !call.Acknowledge? { CallKeepsShared(m.shared, call, now); }
  }

  lemma OutsideKeeps(m: System, a: Action)
    requires Inv(m) && FromOutside(a)
    ensures Inv(Step(m, a)) && Stays(m.shared, Step(m, a).shared)
  {
    hide SharedInv, Stays, PublisherOk, RecordTx, Jobs.Apply, Inserted;
    var s' := Step(m, a).shared;
    OutsideKeepsShared(m, a);
    IdleIsOk(s');
    MoveKeeps(m, s', 0, Idle);
    assert Step(m, a) == m.(shared := s');
  }

  lemma BeginKeeps(m: System, p: nat, job: Uuid, backed: bool, now: Time, fault: Fault)
    requires Inv(m)
    ensures Inv(BeginStep(m, p, job, backed, now, fault)) && Stays(m.shared, BeginStep(m, p, job, backed, now, fault).shared)
  {
    hide SharedInv, Stays, PublisherOk, RecordTx;
    StaysReflexive(m.shared);
    if At(m, p) == Idle && Present(m.shared.jobs, job) {
      var e := EventOf(m.shared.jobs, job);
      RecordKeeps(m.shared, e, backed, now, fault);
      var done := RecordTx(m.shared.store, e.result.artifacts, RecordContext(e, backed, now), fault);
      var s' := m.shared.(store := done.0);
      IdleIsOk(s');
      MoveKeeps(m, s', p, if done.1.Some? then Recording(e, done.1.value) else Idle);
    }
  }

  lemma AcknowledgeKeeps(m: System, p: nat, now: Time)
    requires Inv(m)
    ensures Inv(AcknowledgeStep(m, p, now)) && Stays(m.shared, AcknowledgeStep(m, p, now).shared)
  {
    hide SharedInv, Stays, Delivered, Jobs.AcknowledgeTx;
    StaysReflexive(m.shared);
    match At(m, p)
    case Cleared(e) =>
      AcknowledgeKeepsShared(m.shared, e, now);
      MoveKeeps(m, m.shared.(jobs := Jobs.AcknowledgeTx(m.shared.jobs, e.job, now)), p, Idle);
    case _ =>
  }

  lemma {:induction false} RunKeeps(m: System, run: seq<Action>)
    requires Inv(m)
    ensures Inv(RunSystem(m, run)) && Stays(m.shared, RunSystem(m, run).shared)
    decreases |run|
  {
    hide Inv, Stays, Step;
    if run == [] {
      StaysReflexive(m.shared);
    } else {
      StepKeeps(m, run[0]);
      RunKeeps(Step(m, run[0]), run[1..]);
      StaysTransitive(m.shared, Step(m, run[0]).shared, RunSystem(m, run).shared);
    }
  }

  // ---- what follows for every run -------------------------------------------------------------------

  function Start(accepts: Acceptance): System {
    System(Shared(Jobs.EMPTY, Empty(accepts), map[]), map[], map[])
  }

  lemma StartIsGood(accepts: Acceptance)
    ensures Inv(Start(accepts))
  {
    JobInvariant.EmptyIsConsistent();
  }

  lemma InvParts(s: Shared)
    requires SharedInv(s)
    ensures JobInvariant.Consistent(s.jobs) && Chained(s.store.tables) && NamedAlike(s.store.tables.rows)
    ensures OwnContents(s) && OwnReviews(s) && AcknowledgedOk(s)
  {
  }

  /** The version was recorded for the attempt. */
  predicate VersionBy(s: Shared, id: VersionId, attempt: Uuid) {
    id in s.store.tables.rows && s.store.tables.rows[id].attempt == Some(AttemptKey(attempt, id.key))
  }

  predicate ReviewBy(s: Shared, key: ReviewKey, attempt: Uuid) {
    key in s.reviews && s.reviews[key].attemptId == Some(attempt)
  }

  /** Main theorem. However publishers are interleaved, retried and cut off, an attempt adds at most one
      version of each file and at most one review row. */
  lemma ExactlyOnceEffect(accepts: Acceptance, run: seq<Action>, attempt: Uuid)
    ensures var s := RunSystem(Start(accepts), run).shared;
      && (forall i, k :: VersionBy(s, i, attempt) && VersionBy(s, k, attempt) && i.key == k.key ==> i == k)
      && (forall x, y :: ReviewBy(s, x, attempt) && ReviewBy(s, y, attempt) ==> x == y)
  {
    hide RunSystem, SharedInv, RowsChained, NamedAlike;
    hide JobInvariant.Consistent, IsRowOf, OwnContents, AcknowledgedOk, Stays;
    StartIsGood(accepts);
    RunKeeps(Start(accepts), run);
    var s := RunSystem(Start(accepts), run).shared;
    InvParts(s);
    forall x, y | ReviewBy(s, x, attempt) && ReviewBy(s, y, attempt) ensures x == y {
      var e := RowHasEvent(s, x);
      var f := RowHasEvent(s, y);
      AttemptHasOneEvent(s.jobs, e.job, f.job);
    }
  }

  lemma RowHasEvent(s: Shared, key: ReviewKey) returns (e: Event)
    requires OwnReviews(s) && key in s.reviews && s.reviews[key].attemptId.Some?
    ensures IsEvent(s.jobs, e) && IsRowOf(s, key, e) && ReviewKeyOf(e) == key
    ensures s.jobs.outbox[e.job].attemptId == e.attempt == s.reviews[key].attemptId.value
  {
    var j :| Present(s.jobs, j) && IsRowOf(s, key, EventOf(s.jobs, j));
    e := EventOf(s.jobs, j);
  }

  /** The first artifact of the same file as artifact `i`. */
  ghost function FirstOf(e: Event, i: nat): (f: nat)
    requires i < |e.result.artifacts|
    ensures f <= i && FirstOfItsFile(e, f) && KeyAt(e, f) == KeyAt(e, i)
  {
    if exists k :: 0 <= k < i && KeyAt(e, k) == KeyAt(e, i) then
      var k :| 0 <= k < i && KeyAt(e, k) == KeyAt(e, i);
      FirstOf(e, k)
    else i
  }

  /** The version that artifact `i` was given. */
  ghost function VersionOf(t: Tables, e: Event, i: nat): VersionRow
    requires i < |e.result.artifacts| && HasVersions(t, e)
  {
    t.rows[t.attempts[KeyAt(e, i)]]
  }

  /** Main theorem. In an acknowledged event every artifact was given a version, which holds the content of
      the first artifact of that file; when the event was escalated, its review row holds exactly its attempt
      and the references to those versions. */
  lemma AcknowledgedMeansDelivered(accepts: Acceptance, run: seq<Action>, j: Uuid)
    requires var s := RunSystem(Start(accepts), run).shared;
      j in s.jobs.outbox && s.jobs.outbox[j].publishedAt.Some?
    ensures var s := RunSystem(Start(accepts), run).shared;
      && Present(s.jobs, j) && Delivered(s, EventOf(s.jobs, j))
      && var e := EventOf(s.jobs, j);
         var t := s.store.tables;
         && (forall i: nat :: i < |e.result.artifacts| ==>
               var content := e.result.artifacts[FirstOf(e, i)].content;
               VersionOf(t, e, i).content == content
               && Refs(t, e)[i] == Reference(t.attempts[KeyAt(e, i)], Sha256(content)))
         && (Escalated(e) ==> s.reviews[ReviewKeyOf(e)].output == EvidenceOf(e, Refs(t, e)))
  {
    hide RunSystem, SharedInv, AttemptsPoint, NamedAlike, JobInvariant.Consistent, OwnReviews, Stays, FirstOf;
    StartIsGood(accepts);
    RunKeeps(Start(accepts), run);
    var s := RunSystem(Start(accepts), run).shared;
    InvParts(s);
    OutputsPart(s.jobs, j);
    var e := EventOf(s.jobs, j);
    forall i: nat | i < |e.result.artifacts|
      ensures HoldsContent(s.store.tables, KeyAt(e, i), e.result.artifacts[FirstOf(e, i)].content)
    {
      assert FirstOfItsFile(EventOf(s.jobs, j), FirstOf(e, i));
    }
  }

  /** Two artifacts of the event that name the same file have the same content. */
  predicate OneContentPerFile(e: Event) {
    forall i: nat, k: nat :: i < |e.result.artifacts| && k < |e.result.artifacts| && KeyAt(e, i) == KeyAt(e, k) ==>
      e.result.artifacts[i].content == e.result.artifacts[k].content
  }

  /** The version of every artifact holds the content of the first artifact of its file. */
  ghost predicate FirstContents(t: Tables, e: Event) {
    HasVersions(t, e) && forall i: nat :: i < |e.result.artifacts| ==>
      VersionOf(t, e, i).content == e.result.artifacts[FirstOf(e, i)].content
  }

  ghost predicate OwnContent(t: Tables, e: Event, i: nat)
    requires i < |e.result.artifacts| && HasVersions(t, e)
  {
    VersionOf(t, e, i).content == e.result.artifacts[i].content
  }

  lemma OwnContentsIff(t: Tables, e: Event)
    requires FirstContents(t, e)
    ensures (forall i: nat :: i < |e.result.artifacts| ==> OwnContent(t, e, i)) <==> OneContentPerFile(e)
  {
    hide HasVersions, FirstOf, KeyAt;
    if forall i: nat :: i < |e.result.artifacts| ==> OwnContent(t, e, i) {
      forall i: nat, k: nat | i < |e.result.artifacts| && k < |e.result.artifacts| && KeyAt(e, i) == KeyAt(e, k)
        ensures e.result.artifacts[i].content == e.result.artifacts[k].content
      {
        assert OwnContent(t, e, i) && OwnContent(t, e, k);
        assert VersionOf(t, e, i) == VersionOf(t, e, k);
      }
    } else {
      var i: nat :| i < |e.result.artifacts| && !OwnContent(t, e, i);
      assert KeyAt(e, FirstOf(e, i)) == KeyAt(e, i);
    }
  }

  /** Main theorem. An artifact of an acknowledged event is in the version it was given exactly when its
      content is that of the first artifact of its file, so the event's contents are all there exactly when
      no file comes twice with different contents. */
  lemma ContentsAreDeliveredIff(accepts: Acceptance, run: seq<Action>, j: Uuid)
    requires var s := RunSystem(Start(accepts), run).shared;
      j in s.jobs.outbox && s.jobs.outbox[j].publishedAt.Some?
    ensures var s := RunSystem(Start(accepts), run).shared;
      && Present(s.jobs, j) && HasVersions(s.store.tables, EventOf(s.jobs, j))
      && var e := EventOf(s.jobs, j);
         var t := s.store.tables;
         && (forall i: nat :: i < |e.result.artifacts| ==>
               (OwnContent(t, e, i) <==> e.result.artifacts[i].content == e.result.artifacts[FirstOf(e, i)].content))
         && ((forall i: nat :: i < |e.result.artifacts| ==> OwnContent(t, e, i)) <==> OneContentPerFile(e))
  {
    hide RunSystem, FirstOf, Start, Refs, EvidenceOf, KeyAt, HasVersions, Escalated, OneContentPerFile, ReviewKeyOf;
    AcknowledgedMeansDelivered(accepts, run, j);
    var s := RunSystem(Start(accepts), run).shared;
    OwnContentsIff(s.store.tables, EventOf(s.jobs, j));
  }

  /** The references of an event never change once its files are recorded. */
  lemma ReferencesNeverChange(m: System, run: seq<Action>, e: Event)
    requires Inv(m) && HasVersions(m.shared.store.tables, e)
    ensures var t' := RunSystem(m, run).shared.store.tables;
      HasVersions(t', e) && Refs(t', e) == Refs(m.shared.store.tables, e)
  {
    hide RunSystem, Inv, HasVersions;
    RunKeeps(m, run);
    RefsStay(m.shared.store.tables, RunSystem(m, run).shared.store.tables, e);
  }

  /** The review identity of the event belongs to somebody else. */
  predicate Taken(s: Shared, e: Event) {
    Escalated(e) && ReviewKeyOf(e) in s.reviews && s.reviews[ReviewKeyOf(e)].attemptId != Some(e.attempt)
  }

  /** An escalated event whose review identity belongs to somebody else is never acknowledged. */
  lemma TakenIsNeverAcknowledged(m: System, run: seq<Action>, j: Uuid)
    requires Inv(m) && Present(m.shared.jobs, j) && Taken(m.shared, EventOf(m.shared.jobs, j))
    ensures var db' := RunSystem(m, run).shared.jobs; Present(db', j) && db'.outbox[j].publishedAt.None?
  {
    hide RunSystem, JobInvariant.Consistent, Chained, NamedAlike, OwnContents, OwnReviews;
    RunKeeps(m, run);
    var e := EventOf(m.shared.jobs, j);
    var s' := RunSystem(m, run).shared;
    ReviewStaysAt(m.shared.reviews, s'.reviews, ReviewKeyOf(e));
    AcknowledgedPart(s', j);
  }

  /** Outside goals the review identity is the task id, so of two escalated jobs of one task at most one is
      ever acknowledged. */
  lemma OneReviewPerTask(accepts: Acceptance, run: seq<Action>, i: Uuid, j: Uuid)
    requires var db := RunSystem(Start(accepts), run).shared.jobs;
      && i != j && i in db.outbox && j in db.outbox && Present(db, i) && Present(db, j)
      && Escalated(EventOf(db, i)) && Escalated(EventOf(db, j))
      && db.inputs[i].origin.OtherOrigin? && db.inputs[j].origin.OtherOrigin? && db.inputs[i].taskId == db.inputs[j].taskId
    ensures var db := RunSystem(Start(accepts), run).shared.jobs;
      db.outbox[i].publishedAt.None? || db.outbox[j].publishedAt.None?
  {
    hide RunSystem, SharedInv, Chained, NamedAlike, JobInvariant.Consistent, OwnContents, OwnReviews, AcknowledgedOk, Stays;
    StartIsGood(accepts);
    RunKeeps(Start(accepts), run);
    var s := RunSystem(Start(accepts), run).shared;
    InvParts(s);
    AcknowledgedPart(s, i);
    AcknowledgedPart(s, j);
    if s.jobs.outbox[i].attemptId == s.jobs.outbox[j].attemptId { AttemptHasOneEvent(s.jobs, i, j); }
  }

  lemma AcknowledgedPart(s: Shared, j: Uuid)
    requires AcknowledgedOk(s) && Present(s.jobs, j)
    ensures s.jobs.outbox[j].publishedAt.Some? ==> Delivered(s, EventOf(s.jobs, j))
  {
  }
}
