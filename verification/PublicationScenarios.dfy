/** Runs of the publishers in which the code falls short: four end with an event that is not acknowledged, and one
    loses a content. */
module PublicationScenarios {
  import opened Prelude
  import opened Contracts
  import opened Artifacts
  import opened Publication
  import opened Delivery
  import opened FirstJob
  import opened ObjectBackends
  import Jobs

  function Input(workspaceRoot: string): TaskInput {
    TaskInput(1, OtherOrigin("router"), "skill", Dict([]), 0.5, workspaceRoot)
  }

  const KEY := ClientKey("k")

  ghost function JobEnded(root: string, r: JobResult): Jobs.Db {
    Finished(Input(root), KEY, r)
  }

  /** The job of task 1, with this workspace root, is enqueued, claimed, and returns `r`. */
  function JobRun(root: string, r: JobResult): seq<Action> {
    [WorkerCall(Jobs.Enqueue(1, Some(Input(root)), KEY, 0, DEFAULT_RETRY), 0.0), WorkerCall(CLAIM, 1.0),
     WorkerCall(Completing(r), 2.0)]
  }

  lemma {:induction false} RunAppend(m: System, a: seq<Action>, b: seq<Action>)
    ensures RunSystem(m, a + b) == RunSystem(RunSystem(m, a), b)
    decreases |a|
  {
    hide Step;
    if a == [] {
      assert a + b == b;
    } else {
      assert (a + b)[1..] == a[1..] + b;
      RunAppend(Step(m, a[0]), a[1..], b);
    }
  }

  lemma OneStep(m: System, a: Action)
    ensures RunSystem(m, [a]) == Step(m, a)
  {
    hide Step;
    assert RunSystem(m, [a]) == RunSystem(Step(m, a), [a][1..]);
  }

  lemma TwoSteps(m: System, a: Action, b: Action)
    ensures RunSystem(m, [a, b]) == Step(Step(m, a), b)
  {
    hide Step;
    OneStep(m, a);
    OneStep(Step(m, a), b);
    RunAppend(m, [a], [b]);
    assert [a] + [b] == [a, b];
  }

  lemma JobRuns(m: System, root: string, r: JobResult)
    requires m.shared.jobs == Jobs.EMPTY
    ensures RunSystem(m, JobRun(root, r)) == m.(shared := m.shared.(jobs := JobEnded(root, r)))
  {
    hide Claimed, Jobs.ClaimTx, Jobs.CompleteTx, RunSystem;
    FirstJobIsClaimed(Input(root), KEY);
    var run := JobRun(root, r);
    assert Step(m, run[0]) == m.(shared := m.shared.(jobs := FirstJob.Enqueued(Input(root), KEY)));
    TwoSteps(m, run[0], run[1]);
    assert Step(Step(m, run[0]), run[1]) == m.(shared := m.shared.(jobs := Claimed(Input(root), KEY)));
    OneStep(RunSystem(m, [run[0], run[1]]), run[2]);
    RunAppend(m, [run[0], run[1]], [run[2]]);
    assert [run[0], run[1]] + [run[2]] == run;
  }

  // ---- a taken review identity ------------------------------------------------------------

  const ASKS := JobResult("escalated", Some(0.2), None, [], None, Dict([]))

  /** A review that direct routing enqueued for task 1. */
  const ROUTED := ReviewRow("skill", 0.4, Dict([]), OtherOutput(Dict([])), None, None, None, None, "pending")

  const ROUTED_FIRST := [DirectReview(UuidKey(1), ROUTED)] + JobRun("", ASKS)

  lemma RoutedFirstLeads(accepts: Acceptance)
    ensures RunSystem(Start(accepts), ROUTED_FIRST)
            == System(Shared(JobEnded("", ASKS), Empty(accepts), map[UuidKey(1) := ROUTED]), map[], map[])
  {
    hide RunSystem, JobEnded, JobRun;
    var m := System(Shared(Jobs.EMPTY, Empty(accepts), map[UuidKey(1) := ROUTED]), map[], map[]);
    OneStep(Start(accepts), DirectReview(UuidKey(1), ROUTED));
    RunAppend(Start(accepts), [DirectReview(UuidKey(1), ROUTED)], JobRun("", ASKS));
    JobRuns(m, "", ASKS);
  }

  /** The failing input: the review of a job outside goals stands under its task, where direct routing has
      already put one. The event is there, asks for a review, and stays unpublished whatever happens. */
  lemma RoutedReviewBlocksPublication(accepts: Acceptance, later: seq<Action>)
    ensures var s := RunSystem(Start(accepts), ROUTED_FIRST).shared;
      && Present(s.jobs, 0) && Escalated(EventOf(s.jobs, 0)) && s.jobs.outbox[0].publishedAt.None?
      && Taken(s, EventOf(s.jobs, 0))
    ensures var db := RunSystem(Start(accepts), ROUTED_FIRST + later).shared.jobs;
      0 in db.outbox && db.outbox[0].publishedAt.None?
  {
    hide RunSystem, Finished, Inv;
    RoutedFirstLeads(accepts);
    FirstJobFinishes(Input(""), KEY, ASKS);
    StartIsGood(accepts);
    RunKeeps(Start(accepts), ROUTED_FIRST);
    TakenIsNeverAcknowledged(RunSystem(Start(accepts), ROUTED_FIRST), later, 0);
    RunAppend(Start(accepts), ROUTED_FIRST, later);
  }

  // ---- a lost object -----------------------------------------------------------------------------

  const FILE := Artifact("a.txt", "content", true)

  const WRITES := JobResult("complete", Some(1.0), None, [FILE], None, Dict([]))

  const NAME := VersionId(IdentityKey("", "a.txt"), 1)

  /** A cleanup reads the known rows, a publisher records the file, and the cleanup lists and deletes. */
  const SWEPT := [ReadKnown(0), Begin(0, 0, true, 3.0, NoFault), ListObjects(0), Delete(0, NAME), Stop(0)]

  const FILE_EVENT := Event(0, 1, 2.0, Input(""), WRITES)

  const FILE_ROW := VersionRow("content", Sha256("content"), "a.txt", 1, "skill", 3.0, Some(AttemptKey(1, NAME.key)), Some(NAME))

  const FILE_TABLES := Tables(map[NAME := FILE_ROW], map[AttemptKey(1, NAME.key) := NAME])

  /** Every shipped backend with room for the file takes it. */
  lemma FileIsTaken(b: Backend)
    requires b.maxSizeBytes >= 7
    ensures AcceptanceOf(b)(NAME, "content")
  {
    assert Digits(1) == "1";
    assert ObjectName(NAME) == "::a.txt" + "/" + "v1";
    SplitPart("::a.txt", "v1");
    SplitOnePart("v1");
    AsciiLength("content");
    NormalNamesAreTaken(b, ObjectName(NAME), "content");
  }

  function Held(accepts: Acceptance): Store {
    Store(FILE_TABLES, map[NAME := "content"], accepts)
  }

  function Bare(accepts: Acceptance): Store {
    Store(FILE_TABLES, map[], accepts)
  }

  lemma FileIsNew(accepts: Acceptance)
    ensures RecordOne(Empty(accepts), FILE, RecordContext(FILE_EVENT, true, 3.0)) == (Held(accepts), Recorded(NAME, true))
  {
    hide Latest;
    LatestIs(map[], NAME.key, 0);
  }

  lemma RecordsFile(accepts: Acceptance)
    requires accepts(NAME, "content")
    ensures RecordTx(Empty(accepts), [FILE], RecordContext(FILE_EVENT, true, 3.0), NoFault)
            == (Held(accepts), Some([Recorded(NAME, true)]))
  {
    hide RecordOne;
    var ctx := RecordContext(FILE_EVENT, true, 3.0);
    FileIsNew(accepts);
    assert RecordFirst(Empty(accepts), [FILE], 0, ctx) == (Empty(accepts), []);
    FailsOnlyWhenRaised(Empty(accepts), [FILE], 0, ctx);
    assert [] + [Recorded(NAME, true)] == [Recorded(NAME, true)];
  }

  ghost function Sweeping(store: Store, publishers: map<nat, Publisher>, cleaner: Cleaner): System {
    System(Shared(JobEnded("", WRITES), store, map[]), publishers, map[0 := cleaner])
  }

  const RECORDED := map[0 := Recording(FILE_EVENT, [Recorded(NAME, true)])]

  lemma KnowsNothing(accepts: Acceptance)
    ensures Step(System(Shared(JobEnded("", WRITES), Empty(accepts), map[]), map[], map[]), SWEPT[0])
            == Sweeping(Empty(accepts), map[], Knowing({}))
  {
    hide JobEnded;
    assert Known(Empty(accepts).tables.rows) == {};
  }

  lemma Records(accepts: Acceptance)
    requires accepts(NAME, "content")
    ensures Step(Sweeping(Empty(accepts), map[], Knowing({})), SWEPT[1]) == Sweeping(Held(accepts), RECORDED, Knowing({}))
  {
    hide Finished, RecordTx;
    FirstJobFinishes(Input(""), KEY, WRITES);
    RecordsFile(accepts);
    assert EventOf(JobEnded("", WRITES), 0) == FILE_EVENT;
  }

  lemma Lists(accepts: Acceptance)
    ensures Step(Sweeping(Held(accepts), RECORDED, Knowing({})), SWEPT[2]) == Sweeping(Held(accepts), RECORDED, Deleting({NAME}))
  {
    hide JobEnded;
    assert Held(accepts).objects.Keys - {} == {NAME};
  }

  lemma Deletes(accepts: Acceptance)
    ensures Step(Sweeping(Held(accepts), RECORDED, Deleting({NAME})), SWEPT[3])
            == Sweeping(Bare(accepts), RECORDED, Deleting({}))
    ensures Step(Sweeping(Bare(accepts), RECORDED, Deleting({})), SWEPT[4])
            == Sweeping(Bare(accepts), map[0 := Idle], Deleting({}))
  {
    hide JobEnded;
    assert Held(accepts).objects - {NAME} == map[];
    assert {NAME} - {NAME} == {};
  }

  lemma SweptLeads(accepts: Acceptance, m: System)
    requires m == System(Shared(JobEnded("", WRITES), Empty(accepts), map[]), map[], map[]) && accepts(NAME, "content")
    ensures RunSystem(m, SWEPT) == Sweeping(Bare(accepts), map[0 := Idle], Deleting({}))
  {
    hide RunSystem, Sweeping, Step, Held, Bare;
    KnowsNothing(accepts);
    Records(accepts);
    Lists(accepts);
    Deletes(accepts);
    TwoSteps(m, SWEPT[0], SWEPT[1]);
    TwoSteps(Sweeping(Held(accepts), RECORDED, Knowing({})), SWEPT[2], SWEPT[3]);
    OneStep(Sweeping(Bare(accepts), RECORDED, Deleting({})), SWEPT[4]);
    RunAppend(m, [SWEPT[0], SWEPT[1]], [SWEPT[2], SWEPT[3]]);
    RunAppend(m, [SWEPT[0], SWEPT[1]] + [SWEPT[2], SWEPT[3]], [SWEPT[4]]);
    assert SWEPT == [SWEPT[0], SWEPT[1]] + [SWEPT[2], SWEPT[3]] + [SWEPT[4]];
  }

  lemma SweptIsLost(accepts: Acceptance)
    ensures var m := Sweeping(Bare(accepts), map[0 := Idle], Deleting({}));
      && Present(m.shared.jobs, 0) && EventOf(m.shared.jobs, 0) == FILE_EVENT && m.shared.jobs.outbox[0].publishedAt.None?
      && !Taken(m.shared, FILE_EVENT) && LostAt(m.shared.store, FILE_EVENT, 0) && MissingFile(m.shared.store, FILE_EVENT, 0)
  {
    hide Finished, Latest;
    FirstJobFinishes(Input(""), KEY, WRITES);
  }

  /** The failing input: a cleanup that overlaps the recording deletes the object of a committed row. The
      event's review identity is free, and yet it stays unpublished while the backend is configured. */
  lemma SweptFileBlocksPublication(b: Backend, later: seq<Action>)
    requires b.maxSizeBytes >= 7
    requires forall k :: 0 <= k < |later| && later[k].Refer? ==> later[k].backed
    ensures var s := RunSystem(Start(AcceptanceOf(b)), JobRun("", WRITES) + SWEPT).shared;
      && Present(s.jobs, 0) && s.jobs.outbox[0].publishedAt.None?
      && !Taken(s, EventOf(s.jobs, 0)) && Lost(s.store, EventOf(s.jobs, 0))
    ensures var db := RunSystem(Start(AcceptanceOf(b)), JobRun("", WRITES) + SWEPT + later).shared.jobs;
      0 in db.outbox && db.outbox[0].publishedAt.None?
  {
    hide RunSystem, Finished, Inv, JobRun, Taken, LostAt, MissingFile, JobEnded, AcceptanceOf;
    var start := Start(AcceptanceOf(b));
    var run := JobRun("", WRITES) + SWEPT;
    FileIsTaken(b);
    JobRuns(start, "", WRITES);
    RunAppend(start, JobRun("", WRITES), SWEPT);
    SweptLeads(AcceptanceOf(b), RunSystem(start, JobRun("", WRITES)));
    SweptIsLost(AcceptanceOf(b));
    StartIsGood(AcceptanceOf(b));
    RunKeeps(start, run);
    LostIsNeverAcknowledged(RunSystem(start, run), later, 0, 0);
    RunAppend(start, run, later);
  }

  // ---- a refused object -----------------------------------------------------------------------------

  /** Main theorem. While a shipped backend stays configured, no event with files in a workspace with an
      absolute root is ever acknowledged. */
  lemma AbsoluteRootsAreNeverAcknowledged(b: Backend, run: seq<Action>, j: Uuid)
    requires AllBacked(run) && Present(RunSystem(Start(AcceptanceOf(b)), run).shared.jobs, j)
    requires var e := EventOf(RunSystem(Start(AcceptanceOf(b)), run).shared.jobs, j);
      e.result.artifacts != [] && e.task.workspaceRoot != "" && e.task.workspaceRoot[0] == '/'
    ensures RunSystem(Start(AcceptanceOf(b)), run).shared.jobs.outbox[j].publishedAt.None?
  {
    hide RunSystem, AcceptanceOf, AllBacked;
    var e := EventOf(RunSystem(Start(AcceptanceOf(b)), run).shared.jobs, j);
    forall v: nat, content: string ensures !AcceptanceOf(b)(VersionId(KeyAt(e, 0).key, v), content) {
      AbsoluteRootsAreRefused(b, e.task.workspaceRoot, e.result.artifacts[0].filename, v, content);
    }
    RefusedIsNeverAcknowledged(AcceptanceOf(b), run, j, 0);
  }

  const ABSOLUTE_EVENT := Event(0, 1, 2.0, Input("/work"), WRITES)

  lemma AbsoluteEnds(accepts: Acceptance)
    ensures var s := Shared(JobEnded("/work", WRITES), Empty(accepts), map[]);
      && Present(s.jobs, 0) && EventOf(s.jobs, 0) == ABSOLUTE_EVENT && s.jobs.outbox[0].publishedAt.None?
      && !Taken(s, ABSOLUTE_EVENT) && !Lost(s.store, ABSOLUTE_EVENT)
  {
    hide Finished, Latest;
    FirstJobFinishes(Input("/work"), KEY, WRITES);
  }

  lemma AbsoluteIsRejected(b: Backend)
    ensures Rejected(Empty(AcceptanceOf(b)), ABSOLUTE_EVENT)
  {
    hide Latest, AcceptanceOf;
    AbsoluteRootsAreRefused(b, "/work", "a.txt", 1, FILE.content);
    LatestIs(map[], KeyAt(ABSOLUTE_EVENT, 0).key, 0);
    assert RejectedAt(Empty(AcceptanceOf(b)), ABSOLUTE_EVENT, 0);
  }

  /** The failing input: under an absolute workspace root each shipped backend refuses the object of every new
      version. Nothing is taken or lost, and yet the event stays unpublished while the backend is configured. */
  lemma AbsoluteRootBlocksPublication(b: Backend, later: seq<Action>)
    requires AllBacked(later)
    ensures var s := RunSystem(Start(AcceptanceOf(b)), JobRun("/work", WRITES)).shared;
      && Present(s.jobs, 0) && s.jobs.outbox[0].publishedAt.None?
      && !Taken(s, EventOf(s.jobs, 0)) && !Lost(s.store, EventOf(s.jobs, 0)) && Rejected(s.store, EventOf(s.jobs, 0))
    ensures var db := RunSystem(Start(AcceptanceOf(b)), JobRun("/work", WRITES) + later).shared.jobs;
      0 in db.outbox && db.outbox[0].publishedAt.None?
  {
    hide RunSystem, Finished, Inv, Taken, Lost, Rejected, JobEnded, AcceptanceOf, Stays;
    var start := Start(AcceptanceOf(b));
    var run := JobRun("/work", WRITES) + later;
    JobRuns(start, "/work", WRITES);
    AbsoluteEnds(AcceptanceOf(b));
    AbsoluteIsRejected(b);
    StartIsGood(AcceptanceOf(b));
    RunKeeps(start, JobRun("/work", WRITES));
    RunKeeps(RunSystem(start, JobRun("/work", WRITES)), later);
    RunAppend(start, JobRun("/work", WRITES), later);
    EventStays(RunSystem(start, JobRun("/work", WRITES)).shared, RunSystem(start, run).shared, 0);
    AbsoluteRootsAreNeverAcknowledged(b, run, 0);
  }

  lemma EventStays(s: Shared, s': Shared, j: Uuid)
    requires Stays(s, s') && Present(s.jobs, j)
    ensures Present(s'.jobs, j) && EventOf(s'.jobs, j) == EventOf(s.jobs, j)
  {
  }

  // ---- a malformed artifact -------------------------------------------------------------------------

  /** The only artifact has no content. */
  const BROKEN := JobResult("complete", Some(1.0), None, [Artifact("a.txt", "", false)], None, Dict([]))

  lemma BrokenEnds(accepts: Acceptance)
    ensures var s := Shared(JobEnded("", BROKEN), Empty(accepts), map[]);
      Present(s.jobs, 0) && EventOf(s.jobs, 0) == Event(0, 1, 2.0, Input(""), BROKEN)
  {
    hide Finished;
    FirstJobFinishes(Input(""), KEY, BROKEN);
  }

  /** The failing input: an agent returns an artifact without a content. Its job is complete, and the event stays
      unpublished whatever happens. */
  lemma MalformedResultBlocksPublication(accepts: Acceptance, later: seq<Action>)
    ensures var db := RunSystem(Start(accepts), JobRun("", BROKEN) + later).shared.jobs;
      Present(db, 0) && Malformed(EventOf(db, 0)) && db.outbox[0].publishedAt.None?
  {
    hide RunSystem, Inv, JobEnded, JobRun, Stays;
    JobRuns(Start(accepts), "", BROKEN);
    BrokenEnds(accepts);
    StartIsGood(accepts);
    RunKeeps(Start(accepts), JobRun("", BROKEN));
    RunKeeps(RunSystem(Start(accepts), JobRun("", BROKEN)), later);
    RunAppend(Start(accepts), JobRun("", BROKEN), later);
    EventStays(RunSystem(Start(accepts), JobRun("", BROKEN)).shared,
               RunSystem(Start(accepts), JobRun("", BROKEN) + later).shared, 0);
    assert !BROKEN.artifacts[0].wellFormed;
    MalformedIsNeverAcknowledged(accepts, JobRun("", BROKEN) + later, 0);
  }

  // ---- a file that comes twice --------------------------------------------------------------------------

  const TWICE := JobResult("complete", Some(1.0), None, [Artifact("a.txt", "one", true), Artifact("a.txt", "two", true)], None, Dict([]))

  /** One publisher publishes the event without interference, with inline storage. */
  const PUBLISHED := [Begin(0, 0, false, 3.0, NoFault), Refer(0, false), Enqueue(0), Confirm(0), Acknowledge(0, 3.0)]

  const TWICE_EVENT := Event(0, 1, 2.0, Input(""), TWICE)

  const ONE_ROW := VersionRow("one", Sha256("one"), "a.txt", 1, "skill", 3.0, Some(AttemptKey(1, NAME.key)), None)

  function OnlyOne(accepts: Acceptance): Store {
    Store(Tables(map[NAME := ONE_ROW], map[AttemptKey(1, NAME.key) := NAME]), map[], accepts)
  }

  lemma FirstIsNew(accepts: Acceptance)
    ensures RecordOne(Empty(accepts), TWICE.artifacts[0], RecordContext(TWICE_EVENT, false, 3.0))
            == (OnlyOne(accepts), Recorded(NAME, true))
  {
    hide Latest;
    LatestIs(map[], NAME.key, 0);
  }

  lemma SecondIsReplayed(accepts: Acceptance)
    ensures RecordOne(OnlyOne(accepts), TWICE.artifacts[1], RecordContext(TWICE_EVENT, false, 3.0))
            == (OnlyOne(accepts), Recorded(NAME, false))
  {
    hide Latest;
  }

  lemma RecordsOnlyOne(accepts: Acceptance)
    ensures RecordFirst(Empty(accepts), TWICE.artifacts, 2, RecordContext(TWICE_EVENT, false, 3.0)).0 == OnlyOne(accepts)
  {
    hide RecordOne;
    var ctx := RecordContext(TWICE_EVENT, false, 3.0);
    FirstIsNew(accepts);
    SecondIsReplayed(accepts);
    assert RecordFirst(Empty(accepts), TWICE.artifacts, 0, ctx).0 == Empty(accepts);
    assert RecordFirst(Empty(accepts), TWICE.artifacts, 1, ctx).0 == OnlyOne(accepts);
  }

  lemma PublishedIsPublish(m: System)
    ensures RunSystem(m, PUBLISHED) == Publish(m, 0, 0, false, 3.0, NoFault)
  {
    hide RunSystem, BeginStep, ReferStep, EnqueueStep, ConfirmStep, AcknowledgeStep;
    var run := PUBLISHED;
    TwoSteps(m, run[0], run[1]);
    var m2 := ReferStep(BeginStep(m, 0, 0, false, 3.0, NoFault), 0, false);
    TwoSteps(m2, run[2], run[3]);
    OneStep(ConfirmStep(EnqueueStep(m2, 0), 0), run[4]);
    RunAppend(m, [run[0], run[1]], [run[2], run[3]]);
    RunAppend(m, [run[0], run[1]] + [run[2], run[3]], [run[4]]);
    assert run == [run[0], run[1]] + [run[2], run[3]] + [run[4]];
  }

  lemma TwiceEnds(accepts: Acceptance)
    ensures var s := Shared(JobEnded("", TWICE), Empty(accepts), map[]);
      && Present(s.jobs, 0) && EventOf(s.jobs, 0) == TWICE_EVENT && s.jobs.outbox[0].publishedAt.None?
      && !Taken(s, TWICE_EVENT)
  {
    hide Finished;
    FirstJobFinishes(Input(""), KEY, TWICE);
  }

  lemma PublishStores(m: System, p: nat, j: Uuid, backed: bool, now: Time, fault: Fault)
    ensures Publish(m, p, j, backed, now, fault).shared.store == BeginStep(m, p, j, backed, now, fault).shared.store
  {
    hide BeginStep, References, Inserted, Reviewed, Jobs.AcknowledgeTx;
  }

  /** The failing input: a result names one file twice. Its event is acknowledged, and the second content is in
      no version of any file. */
  lemma SecondContentIsLost(accepts: Acceptance)
    ensures var s := RunSystem(Start(accepts), JobRun("", TWICE) + PUBLISHED).shared;
      && Present(s.jobs, 0) && s.jobs.outbox[0].publishedAt.Some? && !OneContentPerFile(EventOf(s.jobs, 0))
      && EventOf(s.jobs, 0).result.artifacts[1].content == "two"
      && forall id :: id in s.store.tables.rows ==> s.store.tables.rows[id].content != "two"
  {
    hide RunSystem, Inv, JobEnded, JobRun, Publish, Taken, RecordOne, RecordFirst, Start, Stays;
    StartIs(accepts);
    JobRuns(Start(accepts), "", TWICE);
    StartIsGood(accepts);
    RunKeeps(Start(accepts), JobRun("", TWICE));
    var m := RunSystem(Start(accepts), JobRun("", TWICE));
    TwiceEnds(accepts);
    RunAppend(Start(accepts), JobRun("", TWICE), PUBLISHED);
    PublishedIsPublish(m);
    RunKeeps(m, PUBLISHED);
    EventStays(m.shared, RunSystem(m, PUBLISHED).shared, 0);
    PublicationSucceedsExactly(m, 0, 0, false, 3.0);
    RecordingFailsIff(m.shared.store, TWICE_EVENT, false, 3.0);
    RecordsOnlyOne(accepts);
    PublishStores(m, 0, 0, false, 3.0, NoFault);
    assert KeyAt(TWICE_EVENT, 0) == KeyAt(TWICE_EVENT, 1);
  }

  lemma StartIs(accepts: Acceptance)
    ensures Start(accepts) == System(Shared(Jobs.EMPTY, Empty(accepts), map[]), map[], map[])
  {
  }
}
