/** What recording, retention and cleanup make of the version table and of the objects, told from the rows
    before and after. */
module ArtifactLaws {
  import opened Prelude
  import opened Contracts
  import opened Artifacts

  function FileOf(ctx: Context, a: Artifact): string {
    ctx.workspaceRoot + "::" + a.filename
  }

  /** The newest version of the file has number `v`; 0 when it has none. */
  ghost predicate Newest(rows: Rows, file: string, v: nat) {
    && (v > 0 ==> VersionId(file, v) in rows)
    && forall id :: id in rows && id.key == file ==> id.version <= v
  }

  // ---- recording -----------------------------------------------------------------------------

  /** The columns of the row that an artifact adds. */
  predicate NewColumns(row: VersionRow, id: VersionId, a: Artifact, ctx: Context) {
    && row.content == a.content && row.hash == Sha256(a.content) && row.filename == a.filename
    && row.taskId == ctx.taskId && row.skill == ctx.skill && row.createdAt == ctx.now
    && row.attempt == (if ctx.attemptId.Some? then Some(AttemptKey(ctx.attemptId.value, id.key)) else None)
    && row.objectId == (if ctx.backed then Some(id) else None)
  }

  /** The answer when the file's newest version is `v` with hash `hash`: that version when the content is the
      same, else the next one. */
  predicate Continues(r: Recorded, file: string, v: nat, same: bool) {
    r == if same then Recorded(VersionId(file, v), false) else Recorded(VersionId(file, v + 1), true)
  }

  /** Artifact `p` is the last one before `i` with the file of artifact `i`. */
  predicate Precedes(batch: seq<Artifact>, p: nat, i: nat) {
    && p < i < |batch| && batch[p].filename == batch[i].filename
    && forall k :: p < k < i ==> batch[k].filename != batch[i].filename
  }

  predicate FirstOfFile(batch: seq<Artifact>, i: nat) {
    i < |batch| && forall k :: 0 <= k < i ==> batch[k].filename != batch[i].filename
  }

  /** What the first artifact of a file is answered: the attempt's own version if it has one, else by the newest
      version that was there. */
  ghost predicate FirstAnswer(t: Tables, a: Artifact, ctx: Context, r: Recorded) {
    var file := FileOf(ctx, a);
    if ctx.attemptId.Some? && AttemptKey(ctx.attemptId.value, file) in t.attempts
    then r == Recorded(t.attempts[AttemptKey(ctx.attemptId.value, file)], false)
    else exists v: nat :: Newest(t.rows, file, v)
           && Continues(r, file, v, v > 0 && t.rows[VersionId(file, v)].hash == Sha256(a.content))
  }

  /** What a further artifact of the file is answered: an attempt gets the version it has by now, and outside
      attempts a different content is the next version. */
  predicate NextAnswer(earlier: Artifact, before: Recorded, a: Artifact, ctx: Context, r: Recorded) {
    if ctx.attemptId.Some? then r == Recorded(before.id, false)
    else Continues(r, FileOf(ctx, a), before.id.version, a.content == earlier.content)
  }

  ghost predicate Answers(t: Tables, batch: seq<Artifact>, ctx: Context, rs: seq<Recorded>) {
    && |rs| == |batch|
    && (forall i: nat :: FirstOfFile(batch, i) ==> FirstAnswer(t, batch[i], ctx, rs[i]))
    && (forall p: nat, i: nat :: Precedes(batch, p, i) ==> NextAnswer(batch[p], rs[p], batch[i], ctx, rs[i]))
  }

  /** The rows afterwards: those there were, and one with the right columns for every answer that says so. */
  ghost predicate RowsAre(rows: Rows, rows': Rows, batch: seq<Artifact>, ctx: Context, rs: seq<Recorded>)
    requires |rs| == |batch|
  {
    && (forall id :: id in rows ==> id in rows' && rows'[id] == rows[id])
    && (forall i :: 0 <= i < |rs| && rs[i].recorded ==>
          rs[i].id !in rows && rs[i].id in rows' && NewColumns(rows'[rs[i].id], rs[i].id, batch[i], ctx))
    && (forall id :: id in rows' && id !in rows ==> Recorded(id, true) in rs)
  }

  ghost predicate AttemptsAre(t: Tables, t': Tables, batch: seq<Artifact>, ctx: Context, rs: seq<Recorded>)
    requires |rs| == |batch|
  {
    && (ctx.attemptId.None? ==> t'.attempts == t.attempts)
    && (ctx.attemptId.Some? ==>
          (forall i :: 0 <= i < |rs| ==>
             var k := AttemptKey(ctx.attemptId.value, FileOf(ctx, batch[i]));
             k in t'.attempts && t'.attempts[k] == rs[i].id)
          && (forall k :: k in t.attempts ==> k in t'.attempts && t'.attempts[k] == t.attempts[k])
          && (forall k :: k in t'.attempts && k !in t.attempts ==>
                k.attemptId == ctx.attemptId.value && exists i :: 0 <= i < |batch| && k.key == FileOf(ctx, batch[i])))
  }

  ghost predicate ObjectsAre(objects: Objects, objects': Objects, batch: seq<Artifact>, ctx: Context, rs: seq<Recorded>)
    requires |rs| == |batch|
  {
    && (!ctx.backed ==> objects' == objects)
    && (ctx.backed ==>
          (forall i :: 0 <= i < |rs| && rs[i].recorded ==> rs[i].id in objects' && objects'[rs[i].id] == batch[i].content)
          && (forall id :: Recorded(id, true) !in rs ==>
                (id in objects' <==> id in objects) && (id in objects ==> objects'[id] == objects[id])))
  }

  /** Main theorem. A recording leaves the tables as they were when it fails. When it succeeds, every artifact is
      answered from the tables there were and from the earlier artifacts of its file, each answer that says so
      added one row with that artifact's columns and its object, and nothing else changed but the attempt's notes. */
  lemma RecordDecides(s: Store, batch: seq<Artifact>, ctx: Context, fault: Fault)
    ensures var done := RecordTx(s, batch, ctx, fault);
      if done.1.None? then done.0.tables == s.tables && (!ctx.backed ==> done.0.objects == s.objects)
      else
        && Answers(s.tables, batch, ctx, done.1.value)
        && RowsAre(s.tables.rows, done.0.tables.rows, batch, ctx, done.1.value)
        && AttemptsAre(s.tables, done.0.tables, batch, ctx, done.1.value)
        && ObjectsAre(s.objects, done.0.objects, batch, ctx, done.1.value)
  {
    hide RecordFirst, Failure, Answers, RowsAre, AttemptsAre, ObjectsAre;
    ResultsPerArtifact(s, batch, |batch|, ctx);
    if RecordTx(s, batch, ctx, fault).1.None? {
      if !ctx.backed { FailureWithoutBackend(s, batch, 0, ctx, fault); }
    } else {
      AnswersFrom(s, batch, ctx);
      RowsFrom(s, batch, |batch|, ctx);
      NotesFrom(s, batch, ctx);
      ObjectsFrom(s, batch, |batch|, ctx);
      assert batch[..|batch|] == batch;
    }
  }

  lemma {:induction false} FirstWithoutBackend(s: Store, batch: seq<Artifact>, n: nat, ctx: Context)
    requires n <= |batch| && !ctx.backed
    ensures RecordFirst(s, batch, n, ctx).0.objects == s.objects
  {
    hide Latest;
    if n > 0 { FirstWithoutBackend(s, batch, n - 1, ctx); }
  }

  lemma {:induction false} FailureWithoutBackend(s: Store, batch: seq<Artifact>, n: nat, ctx: Context, fault: Fault)
    requires n <= |batch| && !ctx.backed && Failure(s, batch, n, ctx, fault).Some?
    ensures Failure(s, batch, n, ctx, fault).value == s.objects
    decreases |batch| - n
  {
    hide RecordFirst, RecordOne, Raises;
    FirstWithoutBackend(s, batch, n, ctx);
    if fault != Crash(n) && n < |batch| && Failure(s, batch, n, ctx, fault) == Failure(s, batch, n + 1, ctx, fault) {
      FailureWithoutBackend(s, batch, n + 1, ctx, fault);
    }
  }

  /** The answer to artifact `i` of a longer batch is the one it gets in its place. */
  lemma {:induction false} AnswerInPlace(s: Store, batch: seq<Artifact>, n: nat, ctx: Context, i: nat)
    requires i < n <= |batch|
    ensures var rs := RecordFirst(s, batch, n, ctx).1;
      |rs| == n && rs[i] == RecordOne(RecordFirst(s, batch, i, ctx).0, batch[i], ctx).1
  {
    hide RecordOne;
    ResultsPerArtifact(s, batch, n - 1, ctx);
    if i < n - 1 { AnswerInPlace(s, batch, n - 1, ctx, i); }
  }

  lemma NewestIs(rows: Rows, file: string)
    ensures Newest(rows, file, Latest(rows, file))
  {
  }

  lemma SameFile(ctx: Context, a: Artifact, b: Artifact)
    ensures FileOf(ctx, a) == FileOf(ctx, b) <==> a.filename == b.filename
  {
    var n := |ctx.workspaceRoot + "::"|;
    assert FileOf(ctx, a)[n..] == a.filename && FileOf(ctx, b)[n..] == b.filename;
  }

  /** The tables have the same versions and notes of the file. */
  ghost predicate AgreeOn(t: Tables, t': Tables, file: string) {
    && (forall id: VersionId :: id.key == file ==> (id in t'.rows <==> id in t.rows))
    && (forall id :: id in t'.rows && id in t.rows && id.key == file ==> t'.rows[id] == t.rows[id])
    && (forall k: AttemptKey :: k.key == file ==> (k in t'.attempts <==> k in t.attempts))
    && (forall k :: k in t'.attempts && k in t.attempts && k.key == file ==> t'.attempts[k] == t.attempts[k])
  }

  /** Other files leave the file's versions and the attempt's note for it as they are. */
  lemma {:induction false} UntouchedBefore(s: Store, batch: seq<Artifact>, n: nat, ctx: Context, file: string)
    requires n <= |batch| && forall k :: 0 <= k < n ==> FileOf(ctx, batch[k]) != file
    ensures AgreeOn(s.tables, RecordFirst(s, batch, n, ctx).0.tables, file)
  {
    hide RecordOne;
    if n > 0 {
      UntouchedBefore(s, batch, n - 1, ctx, file);
      OneLeavesOtherFiles(RecordFirst(s, batch, n - 1, ctx).0, batch[n - 1], ctx, file);
    }
  }

  lemma OneLeavesOtherFiles(s: Store, a: Artifact, ctx: Context, file: string)
    requires FileOf(ctx, a) != file
    ensures AgreeOn(s.tables, RecordOne(s, a, ctx).0.tables, file)
  {
    hide Latest;
  }

  lemma OneAnswer(s: Store, a: Artifact, ctx: Context)
    ensures FirstAnswer(s.tables, a, ctx, RecordOne(s, a, ctx).1)
  {
    hide Latest;
    var file, v := FileOf(ctx, a), Latest(s.tables.rows, FileOf(ctx, a));
    NewestIs(s.tables.rows, file);
    assert Continues(RecordOne(s, a, ctx).1, file, v, v > 0 && s.tables.rows[VersionId(file, v)].hash == Sha256(a.content))
      || Replayed(s.tables, AttemptOf(ctx, file));
  }

  lemma FirstAnswerReads(t: Tables, t': Tables, a: Artifact, ctx: Context, r: Recorded)
    requires FirstAnswer(t, a, ctx, r)
    requires AgreeOn(t', t, FileOf(ctx, a))
    ensures FirstAnswer(t', a, ctx, r)
  {
    var file := FileOf(ctx, a);
    if !(ctx.attemptId.Some? && AttemptKey(ctx.attemptId.value, file) in t.attempts) {
      var v: nat :| Newest(t.rows, file, v)
        && Continues(r, file, v, v > 0 && t.rows[VersionId(file, v)].hash == Sha256(a.content));
      assert Newest(t'.rows, file, v);
      assert Continues(r, file, v, v > 0 && t'.rows[VersionId(file, v)].hash == Sha256(a.content));
    }
  }

  /** Outside attempts, the newest version of a file is the one that its last artifact was answered. */
  lemma {:induction false} LastOfFile(s: Store, batch: seq<Artifact>, n: nat, ctx: Context, p: nat)
    requires p < n <= |batch| && ctx.attemptId.None?
    requires forall k :: p < k < n ==> FileOf(ctx, batch[k]) != FileOf(ctx, batch[p])
    ensures var after := RecordFirst(s, batch, n, ctx);
      var id := RecordOne(RecordFirst(s, batch, p, ctx).0, batch[p], ctx).1.id;
      && id == VersionId(FileOf(ctx, batch[p]), id.version) && id.version > 0 && Newest(after.0.tables.rows, id.key, id.version)
      && after.0.tables.rows[id].hash == Sha256(batch[p].content)
    decreases n
  {
    hide RecordOne, Newest;
    var before := RecordFirst(s, batch, n - 1, ctx).0;
    if p < n - 1 {
      LastOfFile(s, batch, n - 1, ctx, p);
      OneLeavesOtherFiles(before, batch[n - 1], ctx, FileOf(ctx, batch[p]));
      SameNewest(before.tables, RecordFirst(s, batch, n, ctx).0.tables, FileOf(ctx, batch[p]));
    } else {
      OneIsNewest(before, batch[p], ctx);
    }
  }

  lemma SameNewest(t: Tables, t': Tables, file: string)
    requires AgreeOn(t, t', file)
    ensures forall v: nat :: Newest(t.rows, file, v) ==> Newest(t'.rows, file, v)
    ensures forall v: nat :: v > 0 && Newest(t.rows, file, v) ==> t'.rows[VersionId(file, v)] == t.rows[VersionId(file, v)]
  {
  }

  lemma OneIsNewest(s: Store, a: Artifact, ctx: Context)
    requires ctx.attemptId.None?
    ensures var one := RecordOne(s, a, ctx);
      && one.1.id == VersionId(FileOf(ctx, a), one.1.id.version) && one.1.id.version > 0
      && Newest(one.0.tables.rows, one.1.id.key, one.1.id.version) && one.0.tables.rows[one.1.id].hash == Sha256(a.content)
  {
    hide Latest;
    NewestIs(s.tables.rows, FileOf(ctx, a));
  }

  lemma NewestIsUnique(rows: Rows, file: string, v: nat, u: nat)
    requires Newest(rows, file, v) && Newest(rows, file, u)
    ensures v == u
  {
  }

  lemma FirstIsAnswered(s: Store, batch: seq<Artifact>, ctx: Context, i: nat)
    requires FirstOfFile(batch, i)
    ensures FirstAnswer(s.tables, batch[i], ctx, RecordOne(RecordFirst(s, batch, i, ctx).0, batch[i], ctx).1)
  {
    hide RecordOne, RecordFirst, FirstAnswer;
    var before := RecordFirst(s, batch, i, ctx).0;
    forall k | 0 <= k < i ensures FileOf(ctx, batch[k]) != FileOf(ctx, batch[i]) { SameFile(ctx, batch[k], batch[i]); }
    UntouchedBefore(s, batch, i, ctx, FileOf(ctx, batch[i]));
    OneAnswer(before, batch[i], ctx);
    FirstAnswerReads(before.tables, s.tables, batch[i], ctx, RecordOne(before, batch[i], ctx).1);
  }

  lemma NextIsAnswered(s: Store, batch: seq<Artifact>, ctx: Context, p: nat, i: nat)
    requires Precedes(batch, p, i)
    ensures var one := RecordOne(RecordFirst(s, batch, p, ctx).0, batch[p], ctx).1;
      NextAnswer(batch[p], one, batch[i], ctx, RecordOne(RecordFirst(s, batch, i, ctx).0, batch[i], ctx).1)
  {
    hide RecordOne, RecordFirst, Latest;
    var before := RecordFirst(s, batch, i, ctx).0;
    var file := FileOf(ctx, batch[i]);
    AnswerInPlace(s, batch, i, ctx, p);
    if ctx.attemptId.Some? {
      BatchIsNoted(s, batch, i, ctx, p);
      ReplayOne(before, batch[i], ctx);
    } else {
      forall k | p < k < i ensures FileOf(ctx, batch[k]) != FileOf(ctx, batch[p]) { SameFile(ctx, batch[k], batch[p]); }
      LastOfFile(s, batch, i, ctx, p);
      OneAnswer(before, batch[i], ctx);
      var id := RecordOne(RecordFirst(s, batch, p, ctx).0, batch[p], ctx).1.id;
      var v: nat :| Newest(before.tables.rows, file, v)
        && Continues(RecordOne(before, batch[i], ctx).1, file, v,
                     v > 0 && before.tables.rows[VersionId(file, v)].hash == Sha256(batch[i].content));
      NewestIsUnique(before.tables.rows, file, v, id.version);
    }
  }

  lemma AnswersFrom(s: Store, batch: seq<Artifact>, ctx: Context)
    ensures Answers(s.tables, batch, ctx, RecordFirst(s, batch, |batch|, ctx).1)
  {
    hide RecordOne, RecordFirst, FirstAnswer, NextAnswer;
    var rs := RecordFirst(s, batch, |batch|, ctx).1;
    ResultsPerArtifact(s, batch, |batch|, ctx);
    forall i: nat | FirstOfFile(batch, i) ensures FirstAnswer(s.tables, batch[i], ctx, rs[i]) {
      AnswerInPlace(s, batch, |batch|, ctx, i);
      FirstIsAnswered(s, batch, ctx, i);
    }
    forall p: nat, i: nat | Precedes(batch, p, i) ensures NextAnswer(batch[p], rs[p], batch[i], ctx, rs[i]) {
      AnswerInPlace(s, batch, |batch|, ctx, p);
      AnswerInPlace(s, batch, |batch|, ctx, i);
      NextIsAnswered(s, batch, ctx, p, i);
    }
  }

  lemma OneRow(s: Store, a: Artifact, ctx: Context)
    ensures var one := RecordOne(s, a, ctx);
      && (!one.1.recorded ==> one.0.tables.rows == s.tables.rows && one.0.objects == s.objects)
      && (one.1.recorded ==>
            && one.1.id !in s.tables.rows && NewColumns(one.0.tables.rows[one.1.id], one.1.id, a, ctx)
            && one.0.tables.rows == s.tables.rows[one.1.id := one.0.tables.rows[one.1.id]]
            && one.0.objects == if ctx.backed then s.objects[one.1.id := a.content] else s.objects)
  {
    hide Latest;
    NewestIs(s.tables.rows, FileOf(ctx, a));
  }

  lemma {:induction false} RowsFrom(s: Store, batch: seq<Artifact>, n: nat, ctx: Context)
    requires n <= |batch|
    ensures var after := RecordFirst(s, batch, n, ctx);
      |after.1| == n && RowsAre(s.tables.rows, after.0.tables.rows, batch[..n], ctx, after.1)
  {
    hide RecordOne, NewColumns;
    if n > 0 {
      RowsFrom(s, batch, n - 1, ctx);
      OneRow(RecordFirst(s, batch, n - 1, ctx).0, batch[n - 1], ctx);
    }
  }

  lemma {:induction false} ObjectsFrom(s: Store, batch: seq<Artifact>, n: nat, ctx: Context)
    requires n <= |batch|
    ensures var after := RecordFirst(s, batch, n, ctx);
      |after.1| == n && ObjectsAre(s.objects, after.0.objects, batch[..n], ctx, after.1)
  {
    hide RecordOne, NewColumns;
    if n > 0 {
      RowsFrom(s, batch, n - 1, ctx);
      ObjectsFrom(s, batch, n - 1, ctx);
      OneRow(RecordFirst(s, batch, n - 1, ctx).0, batch[n - 1], ctx);
    }
  }

  lemma NotesFrom(s: Store, batch: seq<Artifact>, ctx: Context)
    ensures var after := RecordFirst(s, batch, |batch|, ctx);
      |after.1| == |batch| && AttemptsAre(s.tables, after.0.tables, batch, ctx, after.1)
  {
    hide RecordFirst;
    var after := RecordFirst(s, batch, |batch|, ctx);
    ResultsPerArtifact(s, batch, |batch|, ctx);
    if ctx.attemptId.None? {
      NothingNoted(s, batch, |batch|, ctx);
    } else {
      forall i | 0 <= i < |batch|
        ensures var k := AttemptKey(ctx.attemptId.value, FileOf(ctx, batch[i]));
          k in after.0.tables.attempts && after.0.tables.attempts[k] == after.1[i].id
      {
        BatchIsNoted(s, batch, |batch|, ctx, i);
      }
      RecordFirstIsLater(s, batch, |batch|, ctx);
      forall k | k in after.0.tables.attempts && k !in s.tables.attempts
        ensures k.attemptId == ctx.attemptId.value && exists i :: 0 <= i < |batch| && k.key == FileOf(ctx, batch[i])
      {
        OnlyBatchNoted(s, batch, |batch|, ctx, k);
      }
    }
  }

  lemma {:induction false} NothingNoted(s: Store, batch: seq<Artifact>, n: nat, ctx: Context)
    requires n <= |batch| && ctx.attemptId.None?
    ensures RecordFirst(s, batch, n, ctx).0.tables.attempts == s.tables.attempts
  {
    hide Latest;
    if n > 0 { NothingNoted(s, batch, n - 1, ctx); }
  }

  lemma {:induction false} OnlyBatchNoted(s: Store, batch: seq<Artifact>, n: nat, ctx: Context, k: AttemptKey)
    requires n <= |batch| && k !in s.tables.attempts && k in RecordFirst(s, batch, n, ctx).0.tables.attempts
    ensures ctx.attemptId == Some(k.attemptId) && exists i :: 0 <= i < n && k.key == FileOf(ctx, batch[i])
  {
    hide Latest;
    if n > 0 && k in RecordFirst(s, batch, n - 1, ctx).0.tables.attempts { OnlyBatchNoted(s, batch, n - 1, ctx, k); }
    else if n > 0 { assert k.key == FileOf(ctx, batch[n - 1]); }
  }

  // ---- when a recording fails ------------------------------------------------------------------

  /** Nothing stood in the way of a recording that answered `rs`. */
  ghost predicate Unhindered(accepts: Acceptance, batch: seq<Artifact>, ctx: Context, fault: Fault, rs: seq<Recorded>)
    requires |rs| == |batch|
  {
    && (fault.Crash? ==> fault.at > |batch|)
    && forall i :: 0 <= i < |batch| ==>
         && batch[i].wellFormed
         && (rs[i].recorded && ctx.backed ==> accepts(rs[i].id, batch[i].content))
         && (rs[i].recorded ==>
                   !(fault.InsertFails? && fault.at == i) && !(fault.PutFails? && fault.at == i && ctx.backed))
  }

  /** What is left of the objects when artifact `a`, whose answer would have been `r`, stops a recording that had made
      them `mid`: an object that the failed put stored, or one that the failed insert could not take back. */
  ghost predicate Leaves(accepts: Acceptance, a: Artifact, ctx: Context, fault: Fault, r: Recorded, n: nat,
                         mid: Objects, objects': Objects) {
    if !a.wellFormed || (r.recorded && ctx.backed && !accepts(r.id, a.content)) then objects' == mid
    else
      && r.recorded
      && match fault
         case PutFails(at, stored) => at == n && ctx.backed && objects' == if stored then mid[r.id := a.content] else mid
         case InsertFails(at, removed) =>
           at == n && objects' == if !ctx.backed then mid else if removed then mid - {r.id} else mid[r.id := a.content]
         case _ => false
  }

  /** The recording stopped after `n` artifacts: the process ended there, or the next artifact stopped it. */
  ghost predicate StoppedAt(s: Store, batch: seq<Artifact>, ctx: Context, fault: Fault, objects': Objects, n: nat,
                            rs: seq<Recorded>, mid: Objects) {
    && n <= |batch| && Answers(s.tables, batch[..n], ctx, rs) && ObjectsAre(s.objects, mid, batch[..n], ctx, rs)
    && if fault == Crash(n) then objects' == mid
       else n < |batch| && exists r :: Answers(s.tables, batch[..n + 1], ctx, rs + [r])
                                       && Leaves(s.accepts, batch[n], ctx, fault, r, n, mid, objects')
  }

  /** Main theorem. A recording succeeds only if nothing stood in its way. When it fails, it was stopped after some
      artifacts, whose objects stay behind. */
  lemma FailureLeaves(s: Store, batch: seq<Artifact>, ctx: Context, fault: Fault)
    ensures var done := RecordTx(s, batch, ctx, fault);
      if done.1.Some? then |done.1.value| == |batch| && Unhindered(s.accepts, batch, ctx, fault, done.1.value)
      else exists n, rs, mid :: StoppedAt(s, batch, ctx, fault, done.0.objects, n, rs, mid)
  {
    hide RecordFirst, Failure, Unhindered, StoppedAt;
    ResultsPerArtifact(s, batch, |batch|, ctx);
    if RecordTx(s, batch, ctx, fault).1.Some? {
      SuccessIsUnhindered(s, batch, 0, ctx, fault);
    } else {
      var n, rs, mid := StopsAt(s, batch, 0, ctx, fault);
    }
  }

  lemma {:induction false} SameBackend(s: Store, batch: seq<Artifact>, n: nat, ctx: Context)
    requires n <= |batch|
    ensures RecordFirst(s, batch, n, ctx).0.accepts == s.accepts
  {
    hide Latest;
    if n > 0 { SameBackend(s, batch, n - 1, ctx); }
  }

  lemma {:induction false} SuccessIsUnhindered(s: Store, batch: seq<Artifact>, n: nat, ctx: Context, fault: Fault)
    requires n <= |batch| && Failure(s, batch, n, ctx, fault).None? && (fault.Crash? ==> fault.at >= n)
    requires |RecordFirst(s, batch, |batch|, ctx).1| == |batch|
    requires forall i :: 0 <= i < n ==> Passes(s, batch, i, ctx, fault)
    ensures Unhindered(s.accepts, batch, ctx, fault, RecordFirst(s, batch, |batch|, ctx).1)
    decreases |batch| - n
  {
    hide RecordFirst, RecordOne;
    if n < |batch| {
      SameBackend(s, batch, n, ctx);
      SuccessIsUnhindered(s, batch, n + 1, ctx, fault);
    } else {
      forall i | 0 <= i < |batch|
        ensures RecordFirst(s, batch, |batch|, ctx).1[i] == RecordOne(RecordFirst(s, batch, i, ctx).0, batch[i], ctx).1
        ensures Passes(s, batch, i, ctx, fault)
      {
        AnswerInPlace(s, batch, |batch|, ctx, i);
      }
    }
  }

  ghost predicate Passes(s: Store, batch: seq<Artifact>, i: nat, ctx: Context, fault: Fault)
    requires i < |batch|
  {
    var r := RecordOne(RecordFirst(s, batch, i, ctx).0, batch[i], ctx).1;
    && batch[i].wellFormed && (r.recorded && ctx.backed ==> s.accepts(r.id, batch[i].content))
    && (r.recorded ==> !(fault.InsertFails? && fault.at == i) && !(fault.PutFails? && fault.at == i && ctx.backed))
  }

  lemma {:induction false} PrefixRecords(s: Store, batch: seq<Artifact>, n: nat, k: nat, ctx: Context)
    requires k <= n <= |batch|
    ensures RecordFirst(s, batch[..n], k, ctx) == RecordFirst(s, batch, k, ctx)
  {
    hide RecordOne;
    if k > 0 { PrefixRecords(s, batch, n, k - 1, ctx); }
  }

  lemma PrefixAnswers(s: Store, batch: seq<Artifact>, n: nat, ctx: Context)
    requires n <= |batch|
    ensures var after := RecordFirst(s, batch, n, ctx);
      Answers(s.tables, batch[..n], ctx, after.1) && ObjectsAre(s.objects, after.0.objects, batch[..n], ctx, after.1)
  {
    hide RecordFirst, Answers, ObjectsAre;
    PrefixRecords(s, batch, n, n, ctx);
    AnswersFrom(s, batch[..n], ctx);
    ObjectsFrom(s, batch, n, ctx);
    AnswersCount(s.tables, batch[..n], ctx, RecordFirst(s, batch, n, ctx).1);
  }

  lemma AnswersCount(t: Tables, batch: seq<Artifact>, ctx: Context, rs: seq<Recorded>)
    requires Answers(t, batch, ctx, rs)
    ensures |rs| == |batch|
  {
  }

  lemma {:induction false} StopsAt(s: Store, batch: seq<Artifact>, n: nat, ctx: Context, fault: Fault)
    returns (at: nat, rs: seq<Recorded>, mid: Objects)
    requires n <= |batch| && Failure(s, batch, n, ctx, fault).Some?
    ensures StoppedAt(s, batch, ctx, fault, Failure(s, batch, n, ctx, fault).value, at, rs, mid)
    decreases |batch| - n
  {
    hide RecordFirst, RecordOne, Answers, ObjectsAre, FirstAnswer;
    var here := RecordFirst(s, batch, n, ctx);
    at, rs, mid := n, here.1, here.0.objects;
    PrefixAnswers(s, batch, n, ctx);
    AnswersCount(s.tables, batch[..n], ctx, rs);
    if fault != Crash(n) && n < |batch| {
      var one := RecordOne(here.0, batch[n], ctx).1;
      SameBackend(s, batch, n, ctx);
      PrefixAnswers(s, batch, n + 1, ctx);
      LastRecorded(s, batch, n, ctx);
      assert RecordFirst(s, batch, n + 1, ctx).1 == rs + [one] by { NextResults(s, batch, n, ctx); }
      if Raises(here.0, batch[n], ctx) || (Strikes(fault, n, ctx) && one.recorded) {
        assert Leaves(s.accepts, batch[n], ctx, fault, one, n, mid, Failure(s, batch, n, ctx, fault).value);
      } else {
        at, rs, mid := StopsAt(s, batch, n + 1, ctx, fault);
      }
    }
  }

  lemma NextResults(s: Store, batch: seq<Artifact>, n: nat, ctx: Context)
    requires n < |batch|
    ensures var here := RecordFirst(s, batch, n, ctx);
      RecordFirst(s, batch, n + 1, ctx).1 == here.1 + [RecordOne(here.0, batch[n], ctx).1]
  {
    hide RecordOne;
  }

  // ---- retention and cleanup ------------------------------------------------------------------------

  /** A newer version of the same file is stored. */
  ghost predicate Superseded(rows: Rows, id: VersionId) {
    exists newer :: newer in rows && newer.key == id.key && newer.version > id.version
  }

  predicate NamedIn(rows: Rows, o: VersionId) {
    exists id :: id in rows && rows[id].objectId == Some(o)
  }

  /** Main theorem. Retention deletes exactly the rows created before the cut-off that a newer version of their
      file supersedes, leaves all others as they were, and reaches only objects that deleted rows named: when it
      was not stopped early, all of these. */
  lemma RetentionDecides(s: Store, cutoff: Time, gone: set<VersionId>)
    ensures var s' := Apply(s, DeleteOlderThan(cutoff, gone));
      && s'.tables.attempts == s.tables.attempts
      && (forall id :: id in s'.tables.rows <==>
            id in s.tables.rows && !(s.tables.rows[id].createdAt < cutoff && Superseded(s.tables.rows, id)))
      && (forall id :: id in s'.tables.rows ==> s'.tables.rows[id] == s.tables.rows[id])
      && (forall o :: o in s'.objects ==> o in s.objects && s'.objects[o] == s.objects[o])
      && (forall o :: o in s.objects && o !in s'.objects ==>
                o in gone && NamedByDeleted(s.tables.rows, s'.tables.rows, o))
      && (forall o :: o in gone && NamedByDeleted(s.tables.rows, s'.tables.rows, o) ==> o !in s'.objects)
  {
    hide Latest;
    forall id | id in s.tables.rows ensures id.version < Latest(s.tables.rows, id.key) <==> Superseded(s.tables.rows, id) {
      NewestIs(s.tables.rows, id.key);
    }
  }

  predicate NamedByDeleted(rows: Rows, rows': Rows, o: VersionId) {
    exists id :: id in rows && id !in rows' && rows[id].objectId == Some(o)
  }

  /** A cleanup touches no row, and of the objects it reaches it deletes exactly those that no row names. */
  lemma CleanupDecides(s: Store, gone: set<VersionId>)
    ensures var s' := Apply(s, CleanupOrphans(gone));
      && s'.tables == s.tables
      && (forall o :: o in s'.objects <==> o in s.objects && !(o in gone && !NamedIn(s.tables.rows, o)))
      && (forall o :: o in s'.objects ==> s'.objects[o] == s.objects[o])
  {
    forall o ensures o in Known(s.tables.rows) <==> NamedIn(s.tables.rows, o) { }
  }
}
