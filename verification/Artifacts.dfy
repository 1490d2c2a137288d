/** ArtifactStore: content versions of files, each attempt's versions, and the object backend. */
module Artifacts {
  import opened Prelude
  import opened Contracts

  /** SHA-256 of a content; the constructor keeps it injective. */
  datatype Digest = Sha256(content: string)

  /** The primary key of a version. It is also the name of the object that holds its content. */
  datatype VersionId = VersionId(key: string, version: nat)

  datatype AttemptKey = AttemptKey(attemptId: Uuid, key: string)

  datatype VersionRow = VersionRow(
    content: string,
    hash: Digest,
    filename: string,
    taskId: Uuid,
    skill: string,
    createdAt: Time,
    attempt: Option<AttemptKey>,
    objectId: Option<VersionId>)

  type Rows = map<VersionId, VersionRow>

  type Objects = map<VersionId, string>

  datatype Tables = Tables(rows: Rows, attempts: map<AttemptKey, VersionId>)

  /** What the object backend takes, by the name of the object and its content. */
  type Acceptance = (VersionId, string) -> bool

  /** The tables, and the objects of a backend that keeps each object under its own name. */
  datatype Store = Store(tables: Tables, objects: Objects, accepts: Acceptance)

  /** What a call of `record` says about its artifacts; `backed` when an object backend is configured. */
  datatype Context = Context(
    workspaceRoot: string,
    taskId: Uuid,
    skill: string,
    attemptId: Option<Uuid>,
    backed: bool,
    now: Time)

  datatype Recorded = Recorded(id: VersionId, recorded: bool)

  function IdentityKey(workspaceRoot: string, filename: string): string {
    workspaceRoot + "::" + filename
  }

  // ---- the latest version of a file ------------------------------------------------

  ghost predicate IsLatest(rows: Rows, key: string, v: nat) {
    && (v == 0 || VersionId(key, v) in rows)
    && forall id :: id in rows && id.key == key ==> id.version <= v
  }

  lemma {:induction false} LatestExists(ids: set<VersionId>, rows: Rows, key: string) returns (v: nat)
    requires ids <= rows.Keys
    ensures v == 0 || VersionId(key, v) in rows
    ensures forall id :: id in ids && id.key == key ==> id.version <= v
    decreases |ids|
  {
    if ids == {} {
      v := 0;
    } else {
      var id :| id in ids;
      v := LatestExists(ids - {id}, rows, key);
      if id.key == key && id.version > v { v := id.version; }
    }
  }

  /** MAX(version) of a file, 0 when it has no version. */
  ghost function Latest(rows: Rows, key: string): (v: nat)
    ensures IsLatest(rows, key, v)
  {
    assert exists v :: IsLatest(rows, key, v) by {
      var v := LatestExists(rows.Keys, rows, key);
      assert IsLatest(rows, key, v);
    }
    var v :| IsLatest(rows, key, v);
    v
  }

  lemma LatestIs(rows: Rows, key: string, v: nat)
    requires IsLatest(rows, key, v)
    ensures Latest(rows, key) == v
  {
  }

  // ---- record ------------------------------------------------------------------------

  function AttemptOf(ctx: Context, key: string): Option<AttemptKey> {
    if ctx.attemptId.Some? then Some(AttemptKey(ctx.attemptId.value, key)) else None
  }

  function Noted(t: Tables, attempt: Option<AttemptKey>, id: VersionId): Tables {
    if attempt.Some? then t.(attempts := t.attempts[attempt.value := id]) else t
  }

  predicate Replayed(t: Tables, attempt: Option<AttemptKey>) {
    attempt.Some? && attempt.value in t.attempts
  }

  function NewRow(a: Artifact, ctx: Context, id: VersionId): VersionRow {
    VersionRow(a.content, Sha256(a.content), a.filename, ctx.taskId, ctx.skill, ctx.now, AttemptOf(ctx, id.key),
               if ctx.backed then Some(id) else None)
  }

  /** One artifact: what the attempt recorded before, else the latest version when its content is the
      same, else a new version. */
  ghost function RecordOne(s: Store, a: Artifact, ctx: Context): (Store, Recorded) {
    var key := IdentityKey(ctx.workspaceRoot, a.filename);
    var attempt := AttemptOf(ctx, key);
    var v := Latest(s.tables.rows, key);
    if Replayed(s.tables, attempt) then (s, Recorded(s.tables.attempts[attempt.value], false))
    else if v > 0 && s.tables.rows[VersionId(key, v)].hash == Sha256(a.content) then
      (s.(tables := Noted(s.tables, attempt, VersionId(key, v))), Recorded(VersionId(key, v), false))
    else
      var id := VersionId(key, v + 1);
      (s.(tables := Noted(s.tables.(rows := s.tables.rows[id := NewRow(a, ctx, id)]), attempt, id),
          objects := Put(s.objects, id, a.content, ctx)),
       Recorded(id, true))
  }

  /** The artifact needs a new version, and the backend does not take its object. */
  ghost predicate Refused(s: Store, a: Artifact, ctx: Context) {
    var one := RecordOne(s, a, ctx).1;
    one.recorded && ctx.backed && !s.accepts(one.id, a.content)
  }

  /** Recording this artifact raises whatever else happens. */
  ghost predicate Raises(s: Store, a: Artifact, ctx: Context) {
    !a.wellFormed || Refused(s, a, ctx)
  }

  function Put(objects: Objects, id: VersionId, content: string, ctx: Context): Objects {
    if ctx.backed then objects[id := content] else objects
  }

  ghost function RecordFirst(s: Store, batch: seq<Artifact>, n: nat, ctx: Context): (Store, seq<Recorded>)
    requires n <= |batch|
  {
    if n == 0 then (s, [])
    else
      var before := RecordFirst(s, batch, n - 1, ctx);
      var one := RecordOne(before.0, batch[n - 1], ctx);
      (one.0, before.1 + [one.1])
  }

  /** What goes wrong during a call of `record`: putting the object or inserting the row of artifact `at`
      fails, or the process ends after `at` artifacts. `stored` and `removed` tell whether the failed put
      left an object, and whether deleting the object of the failed insert worked. */
  datatype Fault =
    | NoFault
    | PutFails(at: nat, stored: bool)
    | InsertFails(at: nat, removed: bool)
    | Crash(at: nat)

  /** The fault strikes artifact `i`, which gets a new version. */
  predicate Strikes(fault: Fault, i: nat, ctx: Context) {
    || (fault.PutFails? && fault.at == i && ctx.backed)
    || (fault.InsertFails? && fault.at == i)
  }

  /** The objects after artifact `a` was struck. */
  ghost function Struck(s: Store, a: Artifact, ctx: Context, fault: Fault): Objects {
    var id := RecordOne(s, a, ctx).1.id;
    match fault
    case PutFails(_, stored) => if stored then s.objects[id := a.content] else s.objects
    case InsertFails(_, removed) =>
      if !ctx.backed then s.objects else if removed then s.objects - {id} else s.objects[id := a.content]
    case _ => s.objects
  }

  /** The objects a failed call leaves, or None when artifact by artifact nothing fails from `n` on. */
  ghost function Failure(s: Store, batch: seq<Artifact>, n: nat, ctx: Context, fault: Fault): Option<Objects>
    requires n <= |batch|
    decreases |batch| - n
  {
    var here := RecordFirst(s, batch, n, ctx).0;
    if fault == Crash(n) then Some(here.objects)
    else if n == |batch| then None
    else if Raises(here, batch[n], ctx) then Some(here.objects)
    else if Strikes(fault, n, ctx) && RecordOne(here, batch[n], ctx).1.recorded then Some(Struck(here, batch[n], ctx, fault))
    else Failure(s, batch, n + 1, ctx, fault)
  }

  /** A call of `record`: its rows are committed together or not at all, its objects one by one. A
      malformed artifact and an object that the backend refuses abort it like any other error. */
  ghost function RecordTx(s: Store, batch: seq<Artifact>, ctx: Context, fault: Fault): (Store, Option<seq<Recorded>>) {
    var failed := Failure(s, batch, 0, ctx, fault);
    if failed.Some? then (s.(objects := failed.value), None)
    else (RecordFirst(s, batch, |batch|, ctx).0, Some(RecordFirst(s, batch, |batch|, ctx).1))
  }

  // ---- retention and cleanup -----------------------------------------------------------

  /** Older than the cut-off, and not the latest version of its file. */
  ghost predicate Due(rows: Rows, id: VersionId, cutoff: Time) {
    id in rows && rows[id].createdAt < cutoff && id.version < Latest(rows, id.key)
  }

  ghost function DueIds(rows: Rows, cutoff: Time): set<VersionId> {
    set id | id in rows && Due(rows, id, cutoff)
  }

  /** Old versions are deleted in one transaction; of their objects those in `gone` were reached. */
  ghost function DeleteTx(s: Store, cutoff: Time, gone: set<VersionId>): Store {
    var due := DueIds(s.tables.rows, cutoff);
    s.(tables := s.tables.(rows := s.tables.rows - due), objects := s.objects - (gone * NamedBy(s.tables.rows, due)))
  }

  function NamedBy(rows: Rows, ids: set<VersionId>): set<VersionId> {
    set id | id in ids && id in rows && rows[id].objectId.Some? :: rows[id].objectId.value
  }

  /** The objects that committed rows name. */
  function Known(rows: Rows): set<VersionId> {
    NamedBy(rows, rows.Keys)
  }

  /** Orphans are deleted one by one; those in `gone` were reached. */
  function CleanupTx(s: Store, gone: set<VersionId>): Store {
    s.(objects := s.objects - (gone - Known(s.tables.rows)))
  }

  datatype Op =
    | Record(batch: seq<Artifact>, ctx: Context, fault: Fault)
    | DeleteOlderThan(cutoff: Time, gone: set<VersionId>)
    | CleanupOrphans(gone: set<VersionId>)

  ghost function Apply(s: Store, op: Op): Store {
    match op
    case Record(batch, ctx, fault) => RecordTx(s, batch, ctx, fault).0
    case DeleteOlderThan(cutoff, gone) => DeleteTx(s, cutoff, gone)
    case CleanupOrphans(gone) => CleanupTx(s, gone)
  }

  ghost function Run(s: Store, ops: seq<Op>): Store
    decreases |ops|
  {
    if ops == [] then s else Run(Apply(s, ops[0]), ops[1..])
  }

  function Empty(accepts: Acceptance): Store {
    Store(Tables(map[], map[]), map[], accepts)
  }

  // ---- what every operation keeps ---------------------------------------------------------

  /** `t'` is a later state than `t`: attempts keep their versions, a surviving row is unchanged, and a
      row that is new or came back would have a version never used before. */
  ghost predicate Later(t: Tables, t': Tables) {
    && (forall k :: k in t.attempts ==> k in t'.attempts && t'.attempts[k] == t.attempts[k])
    && (forall key :: Latest(t.rows, key) <= Latest(t'.rows, key))
    && (forall id :: id in t'.rows ==>
          if id in t.rows then t'.rows[id] == t.rows[id] else id.version > Latest(t.rows, id.key))
  }

  lemma LaterTransitive(t1: Tables, t2: Tables, t3: Tables)
    requires Later(t1, t2) && Later(t2, t3)
    ensures Later(t1, t3)
  {
    hide Later;
    forall key ensures Latest(t1.rows, key) <= Latest(t3.rows, key) {
      LatestGrows(t1, t2, key);
      LatestGrows(t2, t3, key);
    }
    forall id | id in t3.rows
      ensures if id in t1.rows then t3.rows[id] == t1.rows[id] else id.version > Latest(t1.rows, id.key)
    {
      RowsFrom(t1, t2, t3, id);
    }
    forall k | k in t1.attempts ensures k in t3.attempts && t3.attempts[k] == t1.attempts[k] {
      StaysNoted(t1, t2, k);
      StaysNoted(t2, t3, k);
    }
    LaterFrom(t1, t3);
  }

  lemma LaterFrom(t: Tables, t': Tables)
    requires forall k :: k in t.attempts ==> k in t'.attempts && t'.attempts[k] == t.attempts[k]
    requires forall key :: Latest(t.rows, key) <= Latest(t'.rows, key)
    requires forall id :: id in t'.rows ==>
      if id in t.rows then t'.rows[id] == t.rows[id] else id.version > Latest(t.rows, id.key)
    ensures Later(t, t')
  {
  }

  lemma LatestGrows(t: Tables, t': Tables, key: string)
    requires Later(t, t')
    ensures Latest(t.rows, key) <= Latest(t'.rows, key)
  {
  }

  lemma RowsFrom(t1: Tables, t2: Tables, t3: Tables, id: VersionId)
    requires Later(t1, t2) && Later(t2, t3) && id in t3.rows
    ensures if id in t1.rows then t3.rows[id] == t1.rows[id] else id.version > Latest(t1.rows, id.key)
  {
    hide Later;
    LatestGrows(t1, t2, id.key);
    RowFrom(t2, t3, id);
    if id in t2.rows { RowFrom(t1, t2, id); }
    assert id in t1.rows ==> id.version <= Latest(t1.rows, id.key) by {
      assert IsLatest(t1.rows, id.key, Latest(t1.rows, id.key));
    }
  }

  lemma RowFrom(t: Tables, t': Tables, id: VersionId)
    requires Later(t, t') && id in t'.rows
    ensures if id in t.rows then t'.rows[id] == t.rows[id] else id.version > Latest(t.rows, id.key)
  {
  }

  lemma LatestOfAdd(rows: Rows, id: VersionId, row: VersionRow, key: string)
    requires id.version == Latest(rows, id.key) + 1
    ensures Latest(rows[id := row], key) == if key == id.key then id.version else Latest(rows, key)
  {
    LatestIs(rows[id := row], key, if key == id.key then id.version else Latest(rows, key));
  }

  lemma RecordOneIsLater(s: Store, a: Artifact, ctx: Context)
    ensures Later(s.tables, RecordOne(s, a, ctx).0.tables)
  {
    hide Latest;
    var key := IdentityKey(ctx.workspaceRoot, a.filename);
    var one := RecordOne(s, a, ctx);
    if one.1.recorded {
      forall k ensures Latest(s.tables.rows, k) <= Latest(one.0.tables.rows, k) {
        LatestOfAdd(s.tables.rows, one.1.id, NewRow(a, ctx, one.1.id), k);
      }
    }
  }

  lemma {:induction false} RecordFirstIsLater(s: Store, batch: seq<Artifact>, n: nat, ctx: Context)
    requires n <= |batch|
    ensures Later(s.tables, RecordFirst(s, batch, n, ctx).0.tables)
  {
    hide Later, RecordOne;
    if n == 0 {
      LaterReflexive(s.tables);
    } else {
      RecordFirstIsLater(s, batch, n - 1, ctx);
      var before := RecordFirst(s, batch, n - 1, ctx).0;
      RecordOneIsLater(before, batch[n - 1], ctx);
      LaterTransitive(s.tables, before.tables, RecordOne(before, batch[n - 1], ctx).0.tables);
    }
  }

  lemma LaterReflexive(t: Tables)
    ensures Later(t, t)
  {
  }

  lemma DeleteIsLater(s: Store, cutoff: Time, gone: set<VersionId>)
    ensures Later(s.tables, DeleteTx(s, cutoff, gone).tables)
    ensures forall key :: Latest(DeleteTx(s, cutoff, gone).tables.rows, key) == Latest(s.tables.rows, key)
  {
    var rows, rows' := s.tables.rows, DeleteTx(s, cutoff, gone).tables.rows;
    forall key ensures Latest(rows', key) == Latest(rows, key) {
      LatestIs(rows', key, Latest(rows, key));
    }
  }

  lemma OpIsLater(s: Store, op: Op)
    ensures Later(s.tables, Apply(s, op).tables)
  {
    hide Later, Failure, Latest;
    match op
    case Record(batch, ctx, fault) => RecordFirstIsLater(s, batch, |batch|, ctx); LaterReflexive(s.tables);
    case DeleteOlderThan(cutoff, gone) => DeleteIsLater(s, cutoff, gone);
    case CleanupOrphans(gone) => LaterReflexive(s.tables);
  }

  lemma {:induction false} RunIsLater(s: Store, ops: seq<Op>)
    ensures Later(s.tables, Run(s, ops).tables)
    decreases |ops|
  {
    hide Later, Apply;
    if ops == [] {
      LaterReflexive(s.tables);
    } else {
      OpIsLater(s, ops[0]);
      RunIsLater(Apply(s, ops[0]), ops[1..]);
      LaterTransitive(s.tables, Apply(s, ops[0]).tables, Run(s, ops).tables);
    }
  }

  /** Main theorem. Over any run, retention included, a version number is never used for two contents:
      a row that is still there is unchanged, one that was deleted does not come back, and the latest
      version of a file never goes down. */
  lemma VersionsAreNeverReused(s: Store, first: seq<Op>, later: seq<Op>, id: VersionId)
    requires id in s.tables.rows
    ensures var s1 := Run(s, first);
      var s2 := Run(s1, later);
      && (id in s2.tables.rows ==> s2.tables.rows[id] == s.tables.rows[id])
      && (id !in s1.tables.rows ==> id !in s2.tables.rows)
      && Latest(s2.tables.rows, id.key) >= id.version
  {
    hide Run, Latest;
    var s1 := Run(s, first);
    RunIsLater(s, first);
    RunIsLater(s1, later);
    LaterTransitive(s.tables, s1.tables, Run(s1, later).tables);
    assert Latest(s.tables.rows, id.key) <= Latest(s1.tables.rows, id.key);
    assert Latest(s1.tables.rows, id.key) <= Latest(Run(s1, later).tables.rows, id.key);
  }

  // ---- replay --------------------------------------------------------------------------

  /** After a batch, the attempt has the version of each of its files. */
  lemma {:induction false} BatchIsNoted(s: Store, batch: seq<Artifact>, n: nat, ctx: Context, i: nat)
    requires i < n <= |batch| && ctx.attemptId.Some?
    ensures var after := RecordFirst(s, batch, n, ctx);
      var k := AttemptKey(ctx.attemptId.value, IdentityKey(ctx.workspaceRoot, batch[i].filename));
      |after.1| == n && k in after.0.tables.attempts && after.0.tables.attempts[k] == after.1[i].id
    decreases n
  {
    hide RecordOne, Later;
    ResultsPerArtifact(s, batch, n, ctx);
    ResultsPerArtifact(s, batch, n - 1, ctx);
    var before := RecordFirst(s, batch, n - 1, ctx).0;
    if i < n - 1 {
      BatchIsNoted(s, batch, n - 1, ctx, i);
      RecordOneIsLater(before, batch[n - 1], ctx);
      StaysNoted(before.tables, RecordOne(before, batch[n - 1], ctx).0.tables,
                 AttemptKey(ctx.attemptId.value, IdentityKey(ctx.workspaceRoot, batch[i].filename)));
    } else {
      OneIsNoted(before, batch[i], ctx);
    }
  }

  lemma OneIsNoted(s: Store, a: Artifact, ctx: Context)
    requires ctx.attemptId.Some?
    ensures var k := AttemptKey(ctx.attemptId.value, IdentityKey(ctx.workspaceRoot, a.filename));
      var one := RecordOne(s, a, ctx);
      k in one.0.tables.attempts && one.0.tables.attempts[k] == one.1.id
  {
    hide Latest;
  }

  lemma {:induction false} ResultsPerArtifact(s: Store, batch: seq<Artifact>, n: nat, ctx: Context)
    requires n <= |batch|
    ensures |RecordFirst(s, batch, n, ctx).1| == n
  {
    hide RecordOne;
    if n > 0 { ResultsPerArtifact(s, batch, n - 1, ctx); }
  }

  /** The same attempt, workspace and files, as well formed as before; the rest of the call may differ. */
  predicate SameCall(batch: seq<Artifact>, ctx: Context, batch': seq<Artifact>, ctx': Context) {
    && ctx'.workspaceRoot == ctx.workspaceRoot && ctx'.attemptId == ctx.attemptId && ctx.attemptId.Some?
    && |batch'| == |batch|
    && forall i :: 0 <= i < |batch| ==>
         batch'[i].filename == batch[i].filename && batch'[i].wellFormed == batch[i].wellFormed
  }

  lemma {:induction false} ReplayFirst(s: Store, batch: seq<Artifact>, ctx: Context, s': Store,
                                       batch': seq<Artifact>, ctx': Context, n: nat)
    requires SameCall(batch, ctx, batch', ctx') && n <= |batch|
    requires Later(RecordFirst(s, batch, |batch|, ctx).0.tables, s'.tables)
    ensures RecordFirst(s', batch', n, ctx').0 == s'
    ensures var rs, rs' := RecordFirst(s, batch, |batch|, ctx).1, RecordFirst(s', batch', n, ctx').1;
      |rs| == |batch| && |rs'| == n && forall i :: 0 <= i < n ==> rs'[i] == Recorded(rs[i].id, false)
  {
    hide RecordOne, Later;
    ResultsPerArtifact(s, batch, |batch|, ctx);
    if n > 0 {
      ReplayFirst(s, batch, ctx, s', batch', ctx', n - 1);
      BatchIsNoted(s, batch, |batch|, ctx, n - 1);
      var k := AttemptKey(ctx.attemptId.value, IdentityKey(ctx.workspaceRoot, batch[n - 1].filename));
      assert k in s'.tables.attempts && s'.tables.attempts[k] == RecordFirst(s, batch, |batch|, ctx).0.tables.attempts[k] by {
        StaysNoted(RecordFirst(s, batch, |batch|, ctx).0.tables, s'.tables, k);
      }
      ReplayOne(s', batch'[n - 1], ctx');
    }
  }

  lemma ReplayOne(s: Store, a: Artifact, ctx: Context)
    requires Replayed(s.tables, AttemptOf(ctx, IdentityKey(ctx.workspaceRoot, a.filename)))
    ensures var k := AttemptOf(ctx, IdentityKey(ctx.workspaceRoot, a.filename)).value;
      RecordOne(s, a, ctx) == (s, Recorded(s.tables.attempts[k], false))
  {
  }

  lemma StaysNoted(t: Tables, t': Tables, k: AttemptKey)
    requires Later(t, t') && k in t.attempts
    ensures k in t'.attempts && t'.attempts[k] == t.attempts[k]
  {
  }

  /** Main theorem. Recording an attempt's files again, after anything else happened to the store, changes
      nothing and returns the same versions; no backend can refuse it. */
  lemma ReplayChangesNothing(s: Store, batch: seq<Artifact>, ctx: Context, fault: Fault, between: seq<Op>,
                             batch': seq<Artifact>, ctx': Context)
    requires SameCall(batch, ctx, batch', ctx') && RecordTx(s, batch, ctx, fault).1.Some?
    ensures var once := RecordTx(s, batch, ctx, fault);
      var s' := Run(once.0, between);
      var again := RecordTx(s', batch', ctx', NoFault);
      && again.1.Some? && again.0 == s' && |once.1.value| == |again.1.value| == |batch|
      && forall i :: 0 <= i < |batch| ==> again.1.value[i] == Recorded(once.1.value[i].id, false)
  {
    hide Run, RecordFirst, Later, Failure;
    var once := RecordTx(s, batch, ctx, fault);
    var s' := Run(once.0, between);
    RunIsLater(once.0, between);
    SuccessRaisesNothing(s, batch, 0, ctx, fault);
    ReplayFirst(s, batch, ctx, s', batch', ctx', |batch|);
    forall n | 0 <= n < |batch| ensures !Raises(RecordFirst(s', batch', n, ctx').0, batch'[n], ctx') {
      ReplayFirst(s, batch, ctx, s', batch', ctx', n);
      ReplayFirst(s, batch, ctx, s', batch', ctx', n + 1);
      LastRecorded(s', batch', n, ctx');
    }
    FailsOnlyWhenRaised(s', batch', 0, ctx');
  }

  lemma LastRecorded(s: Store, batch: seq<Artifact>, n: nat, ctx: Context)
    requires n < |batch|
    ensures var rs := RecordFirst(s, batch, n + 1, ctx).1;
      |rs| == n + 1 && rs[n] == RecordOne(RecordFirst(s, batch, n, ctx).0, batch[n], ctx).1
  {
    hide RecordOne;
    ResultsPerArtifact(s, batch, n, ctx);
  }

  lemma {:induction false} SuccessRaisesNothing(s: Store, batch: seq<Artifact>, n: nat, ctx: Context, fault: Fault)
    requires n <= |batch| && Failure(s, batch, n, ctx, fault).None?
    ensures forall k :: n <= k < |batch| ==> !Raises(RecordFirst(s, batch, k, ctx).0, batch[k], ctx)
    decreases |batch| - n
  {
    hide RecordFirst, RecordOne, Raises;
    if n < |batch| { SuccessRaisesNothing(s, batch, n + 1, ctx, fault); }
  }

  /** Without a fault a recording fails exactly when one of its artifacts raises. */
  lemma {:induction false} FailsOnlyWhenRaised(s: Store, batch: seq<Artifact>, n: nat, ctx: Context)
    requires n <= |batch|
    ensures Failure(s, batch, n, ctx, NoFault).None? <==>
      forall k :: n <= k < |batch| ==> !Raises(RecordFirst(s, batch, k, ctx).0, batch[k], ctx)
    decreases |batch| - n
  {
    hide RecordFirst, RecordOne, Raises;
    if n < |batch| { FailsOnlyWhenRaised(s, batch, n + 1, ctx); }
  }

  // ---- the version chain ------------------------------------------------------------------

  /** Without retention the versions of a file are 1..k and neighbours differ in content. */
  ghost predicate RowsChained(rows: Rows) {
    && (forall id :: id in rows ==> 1 <= id.version && rows[id].hash == Sha256(rows[id].content))
    && (forall id :: id in rows && id.version > 1 ==>
          VersionId(id.key, id.version - 1) in rows && rows[VersionId(id.key, id.version - 1)].hash != rows[id].hash)
  }

  /** Attempts point at rows of their file, and a row that carries an attempt is the one it points at. */
  ghost predicate AttemptsPoint(t: Tables) {
    && (forall k :: k in t.attempts ==> t.attempts[k].key == k.key && t.attempts[k] in t.rows)
    && (forall id :: id in t.rows && t.rows[id].attempt.Some? ==>
          t.rows[id].attempt.value in t.attempts && t.attempts[t.rows[id].attempt.value] == id)
  }

  ghost predicate Chained(t: Tables) {
    RowsChained(t.rows) && AttemptsPoint(t)
  }

  lemma AddToChain(rows: Rows, id: VersionId, row: VersionRow)
    requires RowsChained(rows) && id.version == Latest(rows, id.key) + 1 && row.hash == Sha256(row.content)
    requires id.version > 1 ==> rows[VersionId(id.key, id.version - 1)].hash != row.hash
    ensures RowsChained(rows[id := row]) && id !in rows
  {
    hide Latest;
  }

  lemma AddPoints(t: Tables, k: Option<AttemptKey>, id: VersionId, row: VersionRow)
    requires AttemptsPoint(t) && id !in t.rows && row.attempt == k
    requires k.Some? ==> k.value !in t.attempts && k.value.key == id.key
    ensures AttemptsPoint(Noted(t.(rows := t.rows[id := row]), k, id))
  {
  }

  lemma NotePoints(t: Tables, k: Option<AttemptKey>, id: VersionId)
    requires AttemptsPoint(t) && id in t.rows && (k.Some? ==> k.value !in t.attempts && k.value.key == id.key)
    ensures AttemptsPoint(Noted(t, k, id))
  {
  }

  lemma RecordOneChains(s: Store, a: Artifact, ctx: Context)
    requires Chained(s.tables)
    ensures Chained(RecordOne(s, a, ctx).0.tables)
    ensures RecordOne(s, a, ctx).1.id in RecordOne(s, a, ctx).0.tables.rows
  {
    hide Latest, RowsChained;
    var key := IdentityKey(ctx.workspaceRoot, a.filename);
    var k := AttemptOf(ctx, key);
    var v := Latest(s.tables.rows, key);
    if !Replayed(s.tables, k) {
      hide AttemptsPoint;
      if v > 0 && s.tables.rows[VersionId(key, v)].hash == Sha256(a.content) {
        NotePoints(s.tables, k, VersionId(key, v));
      } else {
        var id := VersionId(key, v + 1);
        AddToChain(s.tables.rows, id, NewRow(a, ctx, id));
        AddPoints(s.tables, k, id, NewRow(a, ctx, id));
      }
    }
  }

  lemma {:induction false} RecordFirstChains(s: Store, batch: seq<Artifact>, n: nat, ctx: Context)
    requires n <= |batch| && Chained(s.tables)
    ensures Chained(RecordFirst(s, batch, n, ctx).0.tables)
  {
    hide RecordOne, Chained;
    if n > 0 {
      RecordFirstChains(s, batch, n - 1, ctx);
      RecordOneChains(RecordFirst(s, batch, n - 1, ctx).0, batch[n - 1], ctx);
    }
  }

  lemma {:induction false} RunChains(s: Store, ops: seq<Op>)
    requires Chained(s.tables) && forall i :: 0 <= i < |ops| ==> !ops[i].DeleteOlderThan?
    ensures Chained(Run(s, ops).tables)
    decreases |ops|
  {
    hide Chained, RecordFirst, Failure;
    if ops != [] {
      if ops[0].Record? { RecordFirstChains(s, ops[0].batch, |ops[0].batch|, ops[0].ctx); }
      RunChains(Apply(s, ops[0]), ops[1..]);
    }
  }

  /** Main theorem. Without retention, whatever fails, the versions of each file are exactly 1..k, with
      adjacent contents different, and no attempt ever adds two versions of one file. */
  lemma VersionChain(accepts: Acceptance, ops: seq<Op>, key: string)
    requires forall i :: 0 <= i < |ops| ==> !ops[i].DeleteOlderThan?
    ensures var rows := Run(Empty(accepts), ops).tables.rows;
      && (forall v: nat :: VersionId(key, v) in rows <==> 1 <= v <= Latest(rows, key))
      && (forall v: nat, u: nat :: u == v + 1 && VersionId(key, v) in rows && VersionId(key, u) in rows ==>
            rows[VersionId(key, v)].content != rows[VersionId(key, u)].content)
      && (forall i, k :: i in rows && k in rows && rows[i].attempt.Some? && rows[i].attempt == rows[k].attempt ==> i == k)
  {
    hide Run, Latest;
    RunChains(Empty(accepts), ops);
    var rows := Run(Empty(accepts), ops).tables.rows;
    forall v: nat ensures VersionId(key, v) in rows <==> 1 <= v <= Latest(rows, key) {
      if 1 <= v <= Latest(rows, key) { DownTheChain(Run(Empty(accepts), ops).tables, key, Latest(rows, key), v); }
    }
  }

  lemma {:induction false} DownTheChain(t: Tables, key: string, top: nat, v: nat)
    requires Chained(t) && VersionId(key, top) in t.rows && 1 <= v <= top
    ensures VersionId(key, v) in t.rows
    decreases top - v
  {
    if v < top {
      DownTheChain(t, key, top, v + 1);
    }
  }

  // ---- the object backend ------------------------------------------------------------------

  /** Every object a row names exists and holds the row's content. */
  ghost predicate Backed(s: Store) {
    forall id :: id in s.tables.rows && s.tables.rows[id].objectId.Some? ==>
      && s.tables.rows[id].objectId.value == id
      && id in s.objects && s.objects[id] == s.tables.rows[id].content
  }

  lemma RecordOneBacks(s: Store, a: Artifact, ctx: Context)
    requires Backed(s)
    ensures Backed(RecordOne(s, a, ctx).0)
  {
    hide Latest;
  }

  lemma {:induction false} RecordFirstBacks(s: Store, batch: seq<Artifact>, n: nat, ctx: Context)
    requires n <= |batch| && Backed(s)
    ensures Backed(RecordFirst(s, batch, n, ctx).0)
  {
    hide RecordOne, Backed;
    if n > 0 {
      RecordFirstBacks(s, batch, n - 1, ctx);
      RecordOneBacks(RecordFirst(s, batch, n - 1, ctx).0, batch[n - 1], ctx);
    }
  }

  /** The rows of `t` are untouched in `t'`: what a rollback returns to. */
  lemma RollbackBacks(s: Store, here: Store, objects: Objects, extra: VersionId)
    requires Backed(here) && Later(s.tables, here.tables)
    requires forall id :: id in s.tables.rows ==> id in here.tables.rows
    requires forall id :: id != extra ==>
      (id in here.objects <==> id in objects) && (id in objects ==> objects[id] == here.objects[id])
    requires extra !in here.tables.rows
    ensures Backed(s.(objects := objects))
  {
    hide Latest;
  }

  lemma {:induction false} RecordFirstKeepsRows(s: Store, batch: seq<Artifact>, n: nat, ctx: Context, id: VersionId)
    requires n <= |batch| && id in s.tables.rows
    ensures id in RecordFirst(s, batch, n, ctx).0.tables.rows
  {
    hide Latest;
    if n > 0 { RecordFirstKeepsRows(s, batch, n - 1, ctx, id); }
  }

  lemma {:induction false} FailureBacks(s: Store, batch: seq<Artifact>, n: nat, ctx: Context, fault: Fault)
    requires n <= |batch| && Backed(s) && Failure(s, batch, n, ctx, fault).Some?
    ensures Backed(s.(objects := Failure(s, batch, n, ctx, fault).value))
    decreases |batch| - n
  {
    hide RecordFirst, RecordOne, Backed, Later, Struck;
    var here := RecordFirst(s, batch, n, ctx).0;
    RecordFirstBacks(s, batch, n, ctx);
    RecordFirstIsLater(s, batch, n, ctx);
    forall id | id in s.tables.rows ensures id in here.tables.rows { RecordFirstKeepsRows(s, batch, n, ctx, id); }
    if fault == Crash(n) || (n < |batch| && Raises(here, batch[n], ctx)) {
      var extra := UnusedId(here.tables.rows);
      RollbackBacks(s, here, here.objects, extra);
    } else if Strikes(fault, n, ctx) && RecordOne(here, batch[n], ctx).1.recorded {
      StruckTouchesOnly(here, batch[n], ctx, fault);
      RollbackBacks(s, here, Struck(here, batch[n], ctx, fault), RecordOne(here, batch[n], ctx).1.id);
    } else {
      FailureBacks(s, batch, n + 1, ctx, fault);
    }
  }

  lemma UnusedId(rows: Rows) returns (id: VersionId)
    ensures id !in rows
  {
    id := VersionId("", Latest(rows, "") + 1);
  }

  lemma StruckTouchesOnly(s: Store, a: Artifact, ctx: Context, fault: Fault)
    requires RecordOne(s, a, ctx).1.recorded
    ensures var id := RecordOne(s, a, ctx).1.id;
      var objects := Struck(s, a, ctx, fault);
      && id !in s.tables.rows
      && forall i :: i != id ==> (i in s.objects <==> i in objects) && (i in objects ==> objects[i] == s.objects[i])
  {
    hide Latest;
  }

  lemma OpBacks(s: Store, op: Op)
    requires Backed(s)
    ensures Backed(Apply(s, op))
  {
    hide Failure, RecordFirst, Latest;
    match op
    case Record(batch, ctx, fault) =>
      if Failure(s, batch, 0, ctx, fault).Some? { FailureBacks(s, batch, 0, ctx, fault); }
      else { RecordFirstBacks(s, batch, |batch|, ctx); }
    case DeleteOlderThan(cutoff, gone) =>
    case CleanupOrphans(gone) =>
  }

  lemma {:induction false} RunBacks(s: Store, ops: seq<Op>)
    requires Backed(s)
    ensures Backed(Run(s, ops))
    decreases |ops|
  {
    hide Backed, Apply;
    if ops != [] {
      OpBacks(s, ops[0]);
      RunBacks(Apply(s, ops[0]), ops[1..]);
    }
  }

  /** What get_version answers; reading a missing object raises. */
  function GetVersion(s: Store, id: VersionId, backed: bool): Option<Option<VersionRow>> {
    if id !in s.tables.rows then Some(None)
    else if backed && s.tables.rows[id].objectId.Some? then
      var o := s.tables.rows[id].objectId.value;
      if o in s.objects then Some(Some(s.tables.rows[id].(content := s.objects[o]))) else None
    else Some(Some(s.tables.rows[id]))
  }

  /** Main theorem. Over any run, whatever fails and whenever an object backend was configured, reading
      a version through the backend gives the inline row. */
  lemma BackendRefinesInline(accepts: Acceptance, ops: seq<Op>, id: VersionId, backed: bool)
    ensures var s := Run(Empty(accepts), ops);
      GetVersion(s, id, backed) == Some(if id in s.tables.rows then Some(s.tables.rows[id]) else None)
  {
    hide Run;
    RunBacks(Empty(accepts), ops);
  }

  /** A cleanup that ran to its end leaves exactly the objects that committed rows name. */
  lemma CleanupIsExact(accepts: Acceptance, ops: seq<Op>, gone: set<VersionId>)
    requires Run(Empty(accepts), ops).objects.Keys <= gone
    ensures var s := Apply(Run(Empty(accepts), ops), CleanupOrphans(gone)); s.objects.Keys == Known(s.tables.rows)
  {
    hide Run;
    RunBacks(Empty(accepts), ops);
  }

  // ---- what a record stores --------------------------------------------------------------------

  /** An artifact that its attempt had not recorded yet ends up in the version it is given. */
  lemma RecordOneStores(s: Store, a: Artifact, ctx: Context)
    requires Chained(s.tables) && !Replayed(s.tables, AttemptOf(ctx, IdentityKey(ctx.workspaceRoot, a.filename)))
    ensures var one := RecordOne(s, a, ctx);
      && one.1.id.key == IdentityKey(ctx.workspaceRoot, a.filename)
      && one.1.id in one.0.tables.rows && one.0.tables.rows[one.1.id].content == a.content
      && (one.1.recorded <==> one.1.id !in s.tables.rows)
  {
    hide Latest;
  }
}
