/** What publishing leaves in the review queue and in the version table, column by column. */
module PublishedRows {
  import opened Prelude
  import opened Contracts
  import opened Artifacts
  import opened Publication
  import ArtifactLaws
  import Jobs
  import JobInvariant

  /** The object holds `value` under `name`: of several entries with that name the last one counts. */
  ghost predicate HoldsLast(entries: seq<Entry>, name: string, value: Json) {
    exists k :: 0 <= k < |entries| && entries[k] == Entry(name, value) && NotAfter(entries, name, k)
  }

  predicate NotAfter(entries: seq<Entry>, name: string, k: int) {
    forall l :: 0 <= l < |entries| && k < l ==> entries[l].name != name
  }

  /** The shown output has what the result's object holds, but for the entry that the references replace. */
  ghost predicate ShowsOutput(shown: map<string, Json>, output: Option<Json>) {
    forall name, value ::
      (name in shown && shown[name] == value) <==>
      (output.Some? && output.value.Dict? && name != "artifact_versions" && HoldsLast(output.value.entries, name, value))
  }

  lemma {:induction false} FieldsHoldLast(entries: seq<Entry>, name: string, value: Json)
    ensures name in Fields(entries) && Fields(entries)[name] == value <==> HoldsLast(entries, name, value)
  {
    if entries != [] {
      var rest := entries[1..];
      FieldsHoldLast(rest, name, value);
      if HoldsLast(rest, name, value) {
        var k :| 0 <= k < |rest| && rest[k] == Entry(name, value) && NotAfter(rest, name, k);
        LaterEntry(entries, name, value, k);
      }
      if HoldsLast(entries, name, value) { EarlierEntry(entries, name, value); }
      if name !in Fields(rest) && entries[0] == Entry(name, value) {
        NoFieldNoEntry(rest, name);
        FirstEntry(entries, name, value);
      }
    }
  }

  lemma LaterEntry(entries: seq<Entry>, name: string, value: Json, k: int)
    requires entries != [] && 0 <= k < |entries[1..]|
    requires entries[1..][k] == Entry(name, value) && NotAfter(entries[1..], name, k)
    ensures HoldsLast(entries, name, value)
  {
    forall l | 0 <= l < |entries| && k + 1 < l ensures entries[l].name != name { assert entries[1..][l - 1] == entries[l]; }
    assert entries[k + 1] == Entry(name, value) && NotAfter(entries, name, k + 1);
  }

  lemma FirstEntry(entries: seq<Entry>, name: string, value: Json)
    requires entries != [] && entries[0] == Entry(name, value)
    requires forall l :: 0 <= l < |entries[1..]| ==> entries[1..][l].name != name
    ensures HoldsLast(entries, name, value)
  {
    forall l | 0 <= l < |entries| && 0 < l ensures entries[l].name != name { assert entries[1..][l - 1] == entries[l]; }
    assert NotAfter(entries, name, 0);
  }

  lemma EarlierEntry(entries: seq<Entry>, name: string, value: Json)
    requires entries != [] && HoldsLast(entries, name, value)
    ensures HoldsLast(entries[1..], name, value) || (name !in Fields(entries[1..]) && entries[0] == Entry(name, value))
  {
    var rest := entries[1..];
    var k :| 0 <= k < |entries| && entries[k] == Entry(name, value) && NotAfter(entries, name, k);
    if k > 0 {
      assert rest[k - 1] == entries[k] && NotAfter(rest, name, k - 1);
    } else {
      assert forall l :: 0 <= l < |rest| ==> rest[l] == entries[l + 1];
      NoEntryNoField(rest, name);
    }
  }

  lemma {:induction false} NoEntryNoField(entries: seq<Entry>, name: string)
    requires forall l :: 0 <= l < |entries| ==> entries[l].name != name
    ensures name !in Fields(entries)
  {
    if entries != [] { NoEntryNoField(entries[1..], name); }
  }

  lemma {:induction false} NoFieldNoEntry(entries: seq<Entry>, name: string)
    requires name !in Fields(entries)
    ensures forall l :: 0 <= l < |entries| ==> entries[l].name != name
  {
    if entries != [] { NoFieldNoEntry(entries[1..], name); }
  }

  // ---- the review of an acknowledged event ----------------------------------------------

  /** Where the version of a file is noted for an attempt. */
  function NotedAt(attempt: Uuid, task: TaskInput, a: Artifact): AttemptKey {
    AttemptKey(attempt, task.workspaceRoot + "::" + a.filename)
  }

  /** The references name the versions of the artifacts, in their order. */
  predicate RefersTo(t: Tables, refs: seq<Reference>, attempt: Uuid, task: TaskInput, artifacts: seq<Artifact>) {
    && |refs| == |artifacts|
    && forall i :: 0 <= i < |refs| ==>
         var k := NotedAt(attempt, task, artifacts[i]);
         && k in t.attempts && t.attempts[k] in t.rows
         && refs[i] == Reference(t.attempts[k], t.rows[t.attempts[k]].hash)
  }

  /** The columns of the review that job `j`'s completion asks for. */
  ghost predicate ReviewColumns(s: Shared, j: Uuid, row: ReviewRow)
    requires j in s.jobs.outbox && j in s.jobs.inputs && j in s.jobs.outputs
  {
    var attempt, task, result := s.jobs.outbox[j].attemptId, s.jobs.inputs[j], s.jobs.outputs[j];
    && row.skill == task.skill && row.payload == task.payload && row.attemptId == Some(attempt)
    && row.confidence == (if result.confidence.Some? then result.confidence.value else 0.0)
    && row.deadline == Some(s.jobs.outbox[j].createdAt + 3600.0)
    && (forall g: Uuid :: row.goalId == Some(g) <==> task.origin == GoalOrigin(g))
    && row.plannedTaskId == (if row.goalId.Some? then Some(task.taskId) else None)
    && row.output.Evidence? && ShowsOutput(row.output.output, result.output)
    && RefersTo(s.store.tables, row.output.references, attempt, task, result.artifacts)
  }

  /** Main theorem. After whatever run, an acknowledged event whose result was escalated has its review under its
      own attempt when it came from a goal, else under its task, and every column is the one the event asks for. */
  lemma AcknowledgedReview(accepts: Acceptance, run: seq<Action>, j: Uuid)
    requires var s := RunSystem(Start(accepts), run).shared;
      && j in s.jobs.outbox && s.jobs.outbox[j].publishedAt.Some?
      && j in s.jobs.outputs && s.jobs.outputs[j].status == "escalated"
    ensures var s := RunSystem(Start(accepts), run).shared;
      && j in s.jobs.inputs
      && var task := s.jobs.inputs[j];
         var key := UuidKey(if task.origin.GoalOrigin? then s.jobs.outbox[j].attemptId else task.taskId);
         key in s.reviews && ReviewColumns(s, j, s.reviews[key])
  {
    hide RunSystem, SharedInv, AttemptsPoint, JobInvariant.Consistent, OwnReviews, OwnContents, AcknowledgedOk;
    hide ReviewFor, Delivered, ReviewColumns;
    StartIsGood(accepts);
    RunKeeps(Start(accepts), run);
    var s := RunSystem(Start(accepts), run).shared;
    InvParts(s);
    OutputsPart(s.jobs, j);
    AcknowledgedPart(s, j);
    var e := EventOf(s.jobs, j);
    DeliveredIsReviewed(s, e);
    var f := RowHasEvent(s, ReviewKeyOf(e));
    AttemptHasOneEvent(s.jobs, j, f.job);
    RowColumns(s, j, ReviewKeyOf(e));
  }

  lemma DeliveredIsReviewed(s: Shared, e: Event)
    requires Delivered(s, e) && Escalated(e)
    ensures HasVersions(s.store.tables, e) && Reviewed(s.reviews, e, Refs(s.store.tables, e))
  {
  }

  lemma RowColumns(s: Shared, j: Uuid, key: ReviewKey)
    requires Present(s.jobs, j) && IsRowOf(s, key, EventOf(s.jobs, j))
    ensures ReviewColumns(s, j, s.reviews[key])
  {
    hide Fields, ShowsOutput, RefersTo;
    var e := EventOf(s.jobs, j);
    EvidenceShows(e, Refs(s.store.tables, e));
    RefsRefer(s.store.tables, e);
  }

  lemma EvidenceShows(e: Event, refs: seq<Reference>)
    ensures ShowsOutput(EvidenceOf(e, refs).output, e.result.output)
  {
    hide Fields, HoldsLast;
    forall name, value
      ensures (name in EvidenceOf(e, refs).output && EvidenceOf(e, refs).output[name] == value) <==>
        (e.result.output.Some? && e.result.output.value.Dict? && name != "artifact_versions"
         && HoldsLast(e.result.output.value.entries, name, value))
    {
      if e.result.output.Some? && e.result.output.value.Dict? { FieldsHoldLast(e.result.output.value.entries, name, value); }
    }
  }

  lemma RefsRefer(t: Tables, e: Event)
    requires HasVersions(t, e)
    ensures RefersTo(t, Refs(t, e), e.attempt, e.task, e.result.artifacts)
  {
    forall i | 0 <= i < |e.result.artifacts| ensures KeyAt(e, i) == NotedAt(e.attempt, e.task, e.result.artifacts[i]) { }
  }

  // ---- the versions ----------------------------------------------------------------------------

  /** The version row is one that job `j`'s completion asks for: an artifact of its result, under its file, with
      the task, the skill and the attempt it came from. */
  predicate VersionColumns(db: Jobs.Db, j: Uuid, id: VersionId, row: VersionRow) {
    && Present(db, j)
    && row.attempt == Some(AttemptKey(db.outbox[j].attemptId, id.key))
    && row.taskId == db.inputs[j].taskId && row.skill == db.inputs[j].skill
    && exists i :: 0 <= i < |db.outputs[j].artifacts| && HoldsArtifact(row, id, db.inputs[j], db.outputs[j].artifacts[i])
  }

  predicate HoldsArtifact(row: VersionRow, id: VersionId, task: TaskInput, a: Artifact) {
    && row.filename == a.filename && row.content == a.content && row.hash == Sha256(a.content)
    && id.key == task.workspaceRoot + "::" + a.filename
  }

  /** Every version row that carries an attempt belongs to a completion. */
  ghost predicate OwnRows(s: Shared) {
    forall id :: id in s.store.tables.rows && s.store.tables.rows[id].attempt.Some? ==>
      exists j :: VersionColumns(s.jobs, j, id, s.store.tables.rows[id])
  }

  lemma RowsStayOwn(s: Shared, s': Shared)
    requires OwnRows(s) && EventsStay(s.jobs, s'.jobs)
    requires forall id :: id in s'.store.tables.rows && s'.store.tables.rows[id].attempt.Some? ==>
      || (id in s.store.tables.rows && s'.store.tables.rows[id] == s.store.tables.rows[id])
      || exists j :: VersionColumns(s.jobs, j, id, s'.store.tables.rows[id])
    ensures OwnRows(s')
  {
    forall id | id in s'.store.tables.rows && s'.store.tables.rows[id].attempt.Some?
      ensures exists j :: VersionColumns(s'.jobs, j, id, s'.store.tables.rows[id])
    {
      var row := s'.store.tables.rows[id];
      var j :| VersionColumns(s.jobs, j, id, row);
      assert EventOf(s'.jobs, j) == EventOf(s.jobs, j);
      assert VersionColumns(s'.jobs, j, id, row);
    }
  }

  /** A new row of a recording carries the columns of its call. */
  lemma RecordedRow(s: Store, batch: seq<Artifact>, ctx: Context, fault: Fault, id: VersionId)
    requires var rows' := RecordTx(s, batch, ctx, fault).0.tables.rows;
      id in rows' && (id in s.tables.rows ==> rows'[id] != s.tables.rows[id])
    ensures id !in s.tables.rows
    ensures exists i :: 0 <= i < |batch| && id.key == ArtifactLaws.FileOf(ctx, batch[i])
                        && ArtifactLaws.NewColumns(RecordTx(s, batch, ctx, fault).0.tables.rows[id], id, batch[i], ctx)
  {
    hide RecordFirst, Failure, ArtifactLaws.NewColumns;
    ArtifactLaws.RowsFrom(s, batch, |batch|, ctx);
    assert batch[..|batch|] == batch;
    if RecordTx(s, batch, ctx, fault).1.Some? {
      var rs := RecordFirst(s, batch, |batch|, ctx).1;
      var i :| 0 <= i < |rs| && rs[i] == Recorded(id, true);
      NewRowFile(s, batch, |batch|, ctx, i);
    }
  }

  /** A new row goes to the file of its artifact. */
  lemma {:induction false} NewRowFile(s: Store, batch: seq<Artifact>, n: nat, ctx: Context, i: nat)
    requires i < n <= |batch|
    ensures var rs := RecordFirst(s, batch, n, ctx).1;
      |rs| == n && (rs[i].recorded ==> rs[i].id.key == ArtifactLaws.FileOf(ctx, batch[i]))
  {
    hide Latest;
    ResultsPerArtifact(s, batch, n - 1, ctx);
    if i < n - 1 { NewRowFile(s, batch, n - 1, ctx, i); }
  }

  lemma BeginOwns(m: System, p: nat, job: Uuid, backed: bool, now: Time, fault: Fault)
    requires OwnRows(m.shared)
    ensures OwnRows(BeginStep(m, p, job, backed, now, fault).shared)
  {
    hide RecordTx, ArtifactLaws.NewColumns;
    if At(m, p) == Idle && Present(m.shared.jobs, job) {
      var s, e := m.shared, EventOf(m.shared.jobs, job);
      var ctx := RecordContext(e, backed, now);
      var rows' := RecordTx(s.store, e.result.artifacts, ctx, fault).0.tables.rows;
      forall id | id in rows' && (id in s.store.tables.rows ==> rows'[id] != s.store.tables.rows[id])
        ensures VersionColumns(s.jobs, job, id, rows'[id])
      {
        RecordedRow(s.store, e.result.artifacts, ctx, fault, id);
        ColumnsOfEvent(s.jobs, job, backed, now, id, rows'[id]);
      }
      RowsStayOwn(s, BeginStep(m, p, job, backed, now, fault).shared);
    }
  }

  lemma ColumnsOfEvent(db: Jobs.Db, j: Uuid, backed: bool, now: Time, id: VersionId, row: VersionRow)
    requires Present(db, j)
    requires var e := EventOf(db, j);
      var ctx := RecordContext(e, backed, now);
      exists i :: 0 <= i < |e.result.artifacts| && id.key == ArtifactLaws.FileOf(ctx, e.result.artifacts[i])
                  && ArtifactLaws.NewColumns(row, id, e.result.artifacts[i], ctx)
    ensures VersionColumns(db, j, id, row)
  {
    var e, ctx := EventOf(db, j), RecordContext(EventOf(db, j), backed, now);
    var i :| 0 <= i < |e.result.artifacts| && id.key == ArtifactLaws.FileOf(ctx, e.result.artifacts[i])
      && ArtifactLaws.NewColumns(row, id, e.result.artifacts[i], ctx);
    assert HoldsArtifact(row, id, db.inputs[j], db.outputs[j].artifacts[i]);
  }

  lemma DirectOwns(m: System, batch: seq<Artifact>, ctx: Context, fault: Fault)
    requires OwnRows(m.shared) && ctx.attemptId.None?
    ensures OwnRows(Step(m, DirectRecord(batch, ctx, fault)).shared)
  {
    hide RecordTx;
    var s, s' := m.shared, Step(m, DirectRecord(batch, ctx, fault)).shared;
    forall id | id in s'.store.tables.rows
                && (id in s.store.tables.rows ==> s'.store.tables.rows[id] != s.store.tables.rows[id])
      ensures s'.store.tables.rows[id].attempt.None?
    {
      RecordedRow(s.store, batch, ctx, fault, id);
    }
    RowsStayOwn(s, s');
  }

  lemma StepOwns(m: System, a: Action)
    requires Inv(m) && OwnRows(m.shared)
    ensures OwnRows(Step(m, a).shared)
  {
    hide Inv, SharedInv, PublisherOk, RecordTx, References, Jobs.Apply, Jobs.AcknowledgeTx, Inserted, OwnRows;
    StepKeeps(m, a);
    if a.Begin? {
      BeginOwns(m, a.p, a.job, a.backed, a.now, a.fault);
    } else if a.DirectRecord? {
      if a.ctx.attemptId.None? { DirectOwns(m, a.batch, a.ctx, a.fault); }
    } else {
      RowsStayOwn(m.shared, Step(m, a).shared);
    }
  }

  lemma {:induction false} RunOwns(m: System, run: seq<Action>)
    requires Inv(m) && OwnRows(m.shared)
    ensures OwnRows(RunSystem(m, run).shared)
    decreases |run|
  {
    hide Inv, OwnRows, Step;
    if run != [] {
      StepOwns(m, run[0]);
      StepKeeps(m, run[0]);
      RunOwns(Step(m, run[0]), run[1..]);
    }
  }

  /** Main theorem. After whatever run, a version row that carries an attempt holds an artifact of the completion that
      this attempt committed. */
  lemma VersionsAreOfTheirEvents(accepts: Acceptance, run: seq<Action>, id: VersionId)
    requires var rows := RunSystem(Start(accepts), run).shared.store.tables.rows; id in rows && rows[id].attempt.Some?
    ensures var s := RunSystem(Start(accepts), run).shared;
      exists j :: VersionColumns(s.jobs, j, id, s.store.tables.rows[id])
  {
    hide RunSystem, Inv, VersionColumns;
    StartIsGood(accepts);
    RunOwns(Start(accepts), run);
  }

  // ---- pending until resolved --------------------------------------------------------------

  /** No reviewer answered under this key. */
  predicate Unanswered(run: seq<Action>, key: ReviewKey) {
    forall i :: 0 <= i < |run| ==> !(run[i].Resolve? && run[i].key == key)
  }

  predicate PendingAt(s: Shared, key: ReviewKey) {
    key in s.reviews && s.reviews[key].attemptId.Some? ==> s.reviews[key].status == "pending"
  }

  /** A review that a publisher asked for waits for an answer until somebody answers it. */
  lemma {:induction false} UnansweredIsPending(m: System, run: seq<Action>, key: ReviewKey)
    requires PendingAt(m.shared, key) && Unanswered(run, key)
    ensures PendingAt(RunSystem(m, run).shared, key)
    decreases |run|
  {
    hide Step;
    if run != [] {
      StaysPending(m, run[0], key);
      UnansweredIsPending(Step(m, run[0]), run[1..], key);
    }
  }

  lemma StaysPending(m: System, a: Action, key: ReviewKey)
    requires PendingAt(m.shared, key) && !(a.Resolve? && a.key == key)
    ensures PendingAt(Step(m, a).shared, key)
  {
    hide RecordTx, References, Jobs.Apply, Jobs.AcknowledgeTx, EvidenceOf, Reviewed, Known;
  }
}
