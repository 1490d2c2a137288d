/** When a publication succeeds, and the ways in which it cannot: its review identity is taken, an artifact is
    malformed, an object it shares is lost, or the backend refuses an object it needs. */
module Delivery {
  import opened Prelude
  import opened Contracts
  import opened Artifacts
  import opened Publication
  import Jobs
  import JobInvariant

  // ---- one publication from start to end ------------------------------------------------------------

  /** What publisher `p` does for one event when nobody interferes. */
  ghost function Publish(m: System, p: nat, j: Uuid, backed: bool, now: Time, fault: Fault): System {
    AcknowledgeStep(ConfirmStep(EnqueueStep(ReferStep(BeginStep(m, p, j, backed, now, fault), p, backed), p), p), p, now)
  }

  /** The row names an object, and that object is gone. */
  predicate Missing(s: Store, id: VersionId) {
    id in s.tables.rows && s.tables.rows[id].objectId.Some? && s.tables.rows[id].objectId.value !in s.objects
  }

  /** The stored version that recording artifact `i` of the event would return: what its attempt noted, else
      the latest version when it has the same content. */
  ghost function Given(t: Tables, e: Event, i: nat): Option<VersionId>
    requires i < |e.result.artifacts|
  {
    var k := KeyAt(e, i);
    var latest := VersionId(k.key, Latest(t.rows, k.key));
    if k in t.attempts then Some(t.attempts[k])
    else if latest.version > 0 && t.rows[latest].hash == Sha256(e.result.artifacts[i].content) then Some(latest)
    else None
  }

  ghost predicate LostAt(s: Store, e: Event, i: nat) {
    && FirstOfItsFile(e, i)
    && Given(s.tables, e, i).Some? && Missing(s, Given(s.tables, e, i).value)
  }

  /** A version that the event would share with what is stored has lost its object. */
  ghost predicate Lost(s: Store, e: Event) {
    exists i: nat :: LostAt(s, e, i)
  }

  /** The version that artifact `i` of the event would add to its file. */
  ghost function NewId(t: Tables, e: Event, i: nat): VersionId
    requires i < |e.result.artifacts|
  {
    VersionId(KeyAt(e, i).key, Latest(t.rows, KeyAt(e, i).key) + 1)
  }

  ghost predicate RejectedAt(s: Store, e: Event, i: nat) {
    && FirstOfItsFile(e, i)
    && Given(s.tables, e, i).None? && !s.accepts(NewId(s.tables, e, i), e.result.artifacts[i].content)
  }

  /** The event needs a new version of some file, and the backend does not take its object. */
  ghost predicate Rejected(s: Store, e: Event) {
    exists i: nat :: RejectedAt(s, e, i)
  }

  predicate Malformed(e: Event) {
    exists i :: 0 <= i < |e.result.artifacts| && !e.result.artifacts[i].wellFormed
  }

  lemma {:induction false} ReferencesExist(s: Store, versions: seq<Recorded>, backed: bool)
    requires forall i :: 0 <= i < |versions| ==> versions[i].id in s.tables.rows
    ensures References(s, versions, backed).Some? <==>
      forall i :: 0 <= i < |versions| ==> !(backed && Missing(s, versions[i].id))
  {
    if versions != [] { ReferencesExist(s, versions[..|versions| - 1], backed); }
  }

  lemma ReferFindsRefs(m: System, p: nat, backed: bool)
    requires Inv(m) && At(m, p).Recording?
    ensures var e := At(m, p).event;
      var versions := At(m, p).versions;
      && HasVersions(m.shared.store.tables, e)
      && ReferStep(m, p, backed) == Goto(m, p,
           if exists i :: 0 <= i < |versions| && backed && Missing(m.shared.store, versions[i].id) then Idle
           else Referring(e, Refs(m.shared.store.tables, e)))
  {
    hide JobInvariant.Consistent, Chained, OwnContents, OwnReviews, AcknowledgedOk, NamedAlike, Missing;
    var e, versions := At(m, p).event, At(m, p).versions;
    ReferencesExist(m.shared.store, versions, backed);
    var refs := References(m.shared.store, versions, backed);
    assert refs.Some? ==> refs.value == Refs(m.shared.store.tables, e);
  }

  /** Recording leaves the objects of stored rows alone, and puts those of its own. */
  lemma OneLosesNothing(s: Store, a: Artifact, ctx: Context, id: VersionId)
    requires NamedAlike(s.tables.rows)
    ensures Missing(RecordOne(s, a, ctx).0, id) <==> Missing(s, id)
  {
    hide Latest;
  }

  lemma {:induction false} RecordLosesNothing(s: Store, batch: seq<Artifact>, n: nat, ctx: Context, id: VersionId)
    requires n <= |batch| && NamedAlike(s.tables.rows)
    ensures Missing(RecordFirst(s, batch, n, ctx).0, id) <==> Missing(s, id)
  {
    hide RecordOne, NamedAlike, Missing;
    if n > 0 {
      RecordLosesNothing(s, batch, n - 1, ctx, id);
      FirstNamesAlike(s, batch, n - 1, ctx);
      OneLosesNothing(RecordFirst(s, batch, n - 1, ctx).0, batch[n - 1], ctx, id);
    }
  }

  /** Recording the artifacts of other files leaves the versions of a file as they are. */
  lemma {:induction false} OtherFilesStay(s: Store, batch: seq<Artifact>, n: nat, ctx: Context, key: string)
    requires n <= |batch| && forall k :: 0 <= k < n ==> IdentityKey(ctx.workspaceRoot, batch[k].filename) != key
    ensures var rows' := RecordFirst(s, batch, n, ctx).0.tables.rows;
      && Latest(rows', key) == Latest(s.tables.rows, key)
      && (forall v: nat :: VersionId(key, v) in rows' <==> VersionId(key, v) in s.tables.rows)
      && (forall v: nat :: VersionId(key, v) in rows' ==> rows'[VersionId(key, v)] == s.tables.rows[VersionId(key, v)])
  {
    hide Latest;
    if n > 0 { OtherFilesStay(s, batch, n - 1, ctx, key); }
    var rows' := RecordFirst(s, batch, n, ctx).0.tables.rows;
    assert IsLatest(rows', key, Latest(s.tables.rows, key));
    LatestIs(rows', key, Latest(s.tables.rows, key));
  }

  /** Recording returns the given version, or a new one when there is none. */
  lemma {:induction false} GivenIs(s: Store, e: Event, backed: bool, now: Time, n: nat, i: nat)
    requires FirstOfItsFile(e, i) && i < n <= |e.result.artifacts|
    ensures var t := RecordFirst(s, e.result.artifacts, n, RecordContext(e, backed, now)).0.tables;
      && KeyAt(e, i) in t.attempts
      && match Given(s.tables, e, i) case Some(id) => t.attempts[KeyAt(e, i)] == id case None => t.attempts[KeyAt(e, i)] !in s.tables.rows
    decreases n
  {
    hide RecordOne, Later, Latest;
    var ctx, batch := RecordContext(e, backed, now), e.result.artifacts;
    var before := RecordFirst(s, batch, n - 1, ctx).0;
    RecordOneIsLater(before, batch[n - 1], ctx);
    if i < n - 1 {
      GivenIs(s, e, backed, now, n - 1, i);
      StaysNoted(before.tables, RecordOne(before, batch[n - 1], ctx).0.tables, KeyAt(e, i));
    } else {
      OneReturnsGiven(s, e, backed, now, i);
    }
  }

  lemma OneReturnsGiven(s: Store, e: Event, backed: bool, now: Time, i: nat)
    requires FirstOfItsFile(e, i)
    ensures var ctx := RecordContext(e, backed, now);
      var t := RecordOne(RecordFirst(s, e.result.artifacts, i, ctx).0, e.result.artifacts[i], ctx).0.tables;
      && KeyAt(e, i) in t.attempts
      && match Given(s.tables, e, i) case Some(id) => t.attempts[KeyAt(e, i)] == id case None => t.attempts[KeyAt(e, i)] !in s.tables.rows
  {
    hide RecordFirst, Later, Latest;
    var ctx, batch := RecordContext(e, backed, now), e.result.artifacts;
    var before := RecordFirst(s, batch, i, ctx).0;
    assert forall k :: 0 <= k < i ==> KeyAt(e, k) == AttemptKey(e.attempt, IdentityKey(ctx.workspaceRoot, batch[k].filename));
    OtherFilesStay(s, batch, i, ctx, KeyAt(e, i).key);
    RecordFirstIsLater(s, batch, i, ctx);
    if KeyAt(e, i) in s.tables.attempts { StaysNoted(s.tables, before.tables, KeyAt(e, i)); }
    else { FirstIsNotYetNoted(s, e, backed, now, i); }
  }

  lemma {:induction false} AcceptanceStays(s: Store, batch: seq<Artifact>, n: nat, ctx: Context)
    requires n <= |batch|
    ensures RecordFirst(s, batch, n, ctx).0.accepts == s.accepts
  {
    hide Latest;
    if n > 0 { AcceptanceStays(s, batch, n - 1, ctx); }
  }

  lemma FirstIsRefused(s: Store, e: Event, backed: bool, now: Time, i: nat)
    requires FirstOfItsFile(e, i)
    ensures var ctx := RecordContext(e, backed, now);
      Refused(RecordFirst(s, e.result.artifacts, i, ctx).0, e.result.artifacts[i], ctx) <==> backed && RejectedAt(s, e, i)
  {
    hide RecordFirst, Later, Latest;
    var ctx, batch := RecordContext(e, backed, now), e.result.artifacts;
    var before := RecordFirst(s, batch, i, ctx).0;
    assert forall k :: 0 <= k < i ==> KeyAt(e, k) == AttemptKey(e.attempt, IdentityKey(ctx.workspaceRoot, batch[k].filename));
    OtherFilesStay(s, batch, i, ctx, KeyAt(e, i).key);
    AcceptanceStays(s, batch, i, ctx);
    RecordFirstIsLater(s, batch, i, ctx);
    if KeyAt(e, i) in s.tables.attempts { StaysNoted(s.tables, before.tables, KeyAt(e, i)); }
    else { FirstIsNotYetNoted(s, e, backed, now, i); }
  }

  /** A further artifact of a file is replayed, and so it needs no object. */
  lemma AgainIsNotRefused(s: Store, e: Event, backed: bool, now: Time, i: nat)
    requires i < |e.result.artifacts| && !FirstOfItsFile(e, i)
    ensures var ctx := RecordContext(e, backed, now);
      !Refused(RecordFirst(s, e.result.artifacts, i, ctx).0, e.result.artifacts[i], ctx)
  {
    hide RecordFirst;
    var ctx, batch := RecordContext(e, backed, now), e.result.artifacts;
    var k :| 0 <= k < i && KeyAt(e, k) == KeyAt(e, i);
    BatchIsNoted(s, batch, i, ctx, k);
    ReplayOne(RecordFirst(s, batch, i, ctx).0, batch[i], ctx);
  }

  /** Without a fault a recording fails exactly when the event is malformed or rejected. */
  lemma RecordingFailsIff(s: Store, e: Event, backed: bool, now: Time)
    ensures RecordTx(s, e.result.artifacts, RecordContext(e, backed, now), NoFault).1.None?
            <==> Malformed(e) || (backed && Rejected(s, e))
  {
    hide RecordFirst, Refused, FirstOfItsFile, RejectedAt, Failure;
    var ctx, batch := RecordContext(e, backed, now), e.result.artifacts;
    FailsOnlyWhenRaised(s, batch, 0, ctx);
    forall i: nat | i < |batch|
      ensures Raises(RecordFirst(s, batch, i, ctx).0, batch[i], ctx)
              <==> !batch[i].wellFormed || (backed && RejectedAt(s, e, i))
    {
      if FirstOfItsFile(e, i) { FirstIsRefused(s, e, backed, now, i); }
      else { AgainIsNotRefused(s, e, backed, now, i); }
      OnlyFirstRejected(s, e, i);
    }
    if Rejected(s, e) {
      var i: nat :| RejectedAt(s, e, i);
      OnlyFirstRejected(s, e, i);
      InBatch(e, i);
    }
  }

  lemma OnlyFirstRejected(s: Store, e: Event, i: nat)
    ensures RejectedAt(s, e, i) ==> FirstOfItsFile(e, i)
  {
  }

  /** What was recorded cannot be read exactly when it was lost before. */
  lemma UnreadableMeansLost(s: Store, e: Event, backed: bool, now: Time, versions: seq<Recorded>)
    requires Chained(s.tables) && NamedAlike(s.tables.rows)
    requires versions == RecordFirst(s, e.result.artifacts, |e.result.artifacts|, RecordContext(e, backed, now)).1
    ensures var after := RecordFirst(s, e.result.artifacts, |e.result.artifacts|, RecordContext(e, backed, now)).0;
      (exists i :: 0 <= i < |versions| && Missing(after, versions[i].id)) <==> Lost(s, e)
  {
    hide RecordFirst, Chained, Given, Missing, NamedAlike, FirstOfItsFile;
    var ctx, batch := RecordContext(e, backed, now), e.result.artifacts;
    var after := RecordFirst(s, batch, |batch|, ctx).0;
    AllNoted(s, e, backed, now);
    if i :| 0 <= i < |versions| && Missing(after, versions[i].id) {
      var f := FirstOf(e, i);
      InBatch(e, f);
      GivenIs(s, e, backed, now, |batch|, f);
      RecordLosesNothing(s, batch, |batch|, ctx, versions[i].id);
      MissingIsStored(s, versions[i].id);
      assert LostAt(s, e, f);
    }
    if Lost(s, e) {
      var i: nat :| LostAt(s, e, i);
      InBatch(e, i);
      GivenIs(s, e, backed, now, |batch|, i);
      RecordLosesNothing(s, batch, |batch|, ctx, versions[i].id);
    }
  }

  lemma InBatch(e: Event, i: nat)
    requires FirstOfItsFile(e, i)
    ensures i < |e.result.artifacts|
  {
  }

  lemma MissingIsStored(s: Store, id: VersionId)
    requires Missing(s, id)
    ensures id in s.tables.rows
  {
  }

  lemma ReviewIsOwnOrTaken(s: Shared, e: Event)
    requires SharedInv(s) && IsEvent(s.jobs, e) && HasVersions(s.store.tables, e) && Escalated(e)
    ensures var refs := Refs(s.store.tables, e);
      Reviewed(Inserted(s.reviews, ReviewKeyOf(e), ReviewFor(e, refs)), e, refs) <==> !Taken(s, e)
  {
    hide JobInvariant.Consistent, Chained, OwnContents, AcknowledgedOk, NamedAlike, HasVersions, Refs;
    if ReviewKeyOf(e) in s.reviews && s.reviews[ReviewKeyOf(e)].attemptId == Some(e.attempt) {
      var f := RowHasEvent(s, ReviewKeyOf(e));
      AttemptHasOneEvent(s.jobs, e.job, f.job);
    }
  }

  /** Main theorem. Publishing a pending event without interference or failure acknowledges it exactly when
      its review identity does not belong to somebody else, its artifacts are well formed and, with a
      backend, no stored version that it would be given has lost its object and no object that it needs is
      refused. */
  lemma PublicationSucceedsExactly(m: System, p: nat, j: Uuid, backed: bool, now: Time)
    requires Inv(m) && At(m, p) == Idle && Present(m.shared.jobs, j) && m.shared.jobs.outbox[j].publishedAt.None?
    ensures var e, store := EventOf(m.shared.jobs, j), m.shared.store;
      var db' := Publish(m, p, j, backed, now, NoFault).shared.jobs;
      && Present(db', j)
      && (db'.outbox[j].publishedAt.Some?
          <==> !Taken(m.shared, e) && !Malformed(e) && !(backed && (Lost(store, e) || Rejected(store, e))))
  {
    hide *;
    var e := EventOf(m.shared.jobs, j);
    var m1 := BeginStep(m, p, j, backed, now, NoFault);
    PublishIs(m, p, j, backed, now);
    RecordingFailsIff(m.shared.store, e, backed, now);
    if Malformed(e) || (backed && Rejected(m.shared.store, e)) {
      RefusedBegin(m, p, j, backed, now);
      IdleDoesNothing(m1, p, backed, now);
    } else {
      BeginKeeps(m, p, j, backed, now, NoFault);
      BeginRecords(m, p, j, backed, now);
      ReferFindsRefs(m1, p, backed);
      InvShared(m);
      UnreadableMeansLost(m.shared.store, e, backed, now, At(m1, p).versions);
      if backed && Lost(m.shared.store, e) {
        IdleStays(m1, p, now);
      } else {
        var refs := Refs(m1.shared.store.tables, e);
        RestOfPublish(m1, p, e, refs, now);
        TakenReadsReviews(m.shared, m1.shared, e);
        EventPart(m1, p);
        if Escalated(e) { ReviewIsOwnOrTaken(m1.shared, e); } else { NotTaken(m.shared, e); }
      }
    }
  }

  lemma RefusedBegin(m: System, p: nat, j: Uuid, backed: bool, now: Time)
    requires At(m, p) == Idle && Present(m.shared.jobs, j)
    requires RecordTx(m.shared.store, EventOf(m.shared.jobs, j).result.artifacts,
                      RecordContext(EventOf(m.shared.jobs, j), backed, now), NoFault).1.None?
    ensures var m1 := BeginStep(m, p, j, backed, now, NoFault); At(m1, p) == Idle && m1.shared.jobs == m.shared.jobs
  {
    hide RecordTx;
  }

  lemma IdleDoesNothing(m: System, p: nat, backed: bool, now: Time)
    requires At(m, p) == Idle
    ensures AcknowledgeStep(ConfirmStep(EnqueueStep(ReferStep(m, p, backed), p), p), p, now) == m
  {
  }

  lemma InvShared(m: System)
    requires Inv(m)
    ensures Chained(m.shared.store.tables) && NamedAlike(m.shared.store.tables.rows)
  {
    hide JobInvariant.Consistent, Chained, NamedAlike, OwnContents, OwnReviews, AcknowledgedOk;
  }

  lemma IdleStays(m: System, p: nat, now: Time)
    ensures AcknowledgeStep(ConfirmStep(EnqueueStep(Goto(m, p, Idle), p), p), p, now).shared.jobs == m.shared.jobs
  {
  }

  lemma PublishIs(m: System, p: nat, j: Uuid, backed: bool, now: Time)
    ensures var m1 := BeginStep(m, p, j, backed, now, NoFault);
      Publish(m, p, j, backed, now, NoFault) == AcknowledgeStep(ConfirmStep(EnqueueStep(ReferStep(m1, p, backed), p), p), p, now)
  {
  }

  lemma EnqueuesReview(m: System, p: nat, e: Event, refs: seq<Reference>)
    ensures var m' := EnqueueStep(Goto(m, p, Referring(e, refs)), p);
      && At(m', p) == Enqueued(e, refs) && m'.shared.jobs == m.shared.jobs
      && (Escalated(e) ==> m'.shared.reviews == Inserted(m.shared.reviews, ReviewKeyOf(e), ReviewFor(e, refs)))
  {
    hide Inserted, ReviewFor, ReviewKeyOf, Escalated;
  }

  lemma Acknowledges(m: System, p: nat, e: Event, refs: seq<Reference>, now: Time)
    requires At(m, p) == Enqueued(e, refs) && IsEvent(m.shared.jobs, e) && m.shared.jobs.outbox[e.job].publishedAt.None?
    ensures var db' := AcknowledgeStep(ConfirmStep(m, p), p, now).shared.jobs;
      && Present(db', e.job)
      && (db'.outbox[e.job].publishedAt.Some? <==> (Escalated(e) ==> Reviewed(m.shared.reviews, e, refs)))
  {
    hide Reviewed, Escalated, EventOf;
  }

  /** From the references on. */
  lemma RestOfPublish(m: System, p: nat, e: Event, refs: seq<Reference>, now: Time)
    requires IsEvent(m.shared.jobs, e) && m.shared.jobs.outbox[e.job].publishedAt.None?
    ensures var db' := AcknowledgeStep(ConfirmStep(EnqueueStep(Goto(m, p, Referring(e, refs)), p), p), p, now).shared.jobs;
      && Present(db', e.job)
      && (db'.outbox[e.job].publishedAt.Some? <==>
            (Escalated(e) ==> Reviewed(Inserted(m.shared.reviews, ReviewKeyOf(e), ReviewFor(e, refs)), e, refs)))
  {
    hide Reviewed, Inserted, ReviewFor, ReviewKeyOf, Escalated, EventOf, EnqueueStep, ConfirmStep, AcknowledgeStep;
    EnqueuesReview(m, p, e, refs);
    Acknowledges(EnqueueStep(Goto(m, p, Referring(e, refs)), p), p, e, refs, now);
  }

  lemma TakenReadsReviews(s: Shared, s': Shared, e: Event)
    requires s'.reviews == s.reviews
    ensures Taken(s, e) <==> Taken(s', e)
  {
  }

  lemma NotTaken(s: Shared, e: Event)
    requires !Escalated(e)
    ensures !Taken(s, e)
  {
  }

  lemma EventPart(m: System, p: nat)
    requires Inv(m) && At(m, p).Recording?
    ensures SharedInv(m.shared) && IsEvent(m.shared.jobs, At(m, p).event) && At(m, p).event.job in m.shared.jobs.outbox
  {
    hide SharedInv;
  }

  lemma BeginRecords(m: System, p: nat, j: Uuid, backed: bool, now: Time)
    requires At(m, p) == Idle && Present(m.shared.jobs, j)
    requires RecordTx(m.shared.store, EventOf(m.shared.jobs, j).result.artifacts,
                      RecordContext(EventOf(m.shared.jobs, j), backed, now), NoFault).1.Some?
    ensures var m1 := BeginStep(m, p, j, backed, now, NoFault);
      && At(m1, p).Recording? && At(m1, p).event == EventOf(m.shared.jobs, j)
      && m1.shared.jobs == m.shared.jobs && m1.shared.reviews == m.shared.reviews
      && (m1.shared.store, At(m1, p).versions)
         == RecordFirst(m.shared.store, At(m1, p).event.result.artifacts, |At(m1, p).event.result.artifacts|,
                        RecordContext(At(m1, p).event, backed, now))
      && IsEvent(m.shared.jobs, At(m1, p).event) && At(m1, p).event.job == j
  {
    hide RecordFirst, Failure;
  }

  // ---- lost for ever -------------------------------------------------------------------------------------

  lemma OneRowObjectStays(s: Store, a: Artifact, ctx: Context, id: VersionId)
    requires id in s.tables.rows
    ensures id in RecordOne(s, a, ctx).0.objects <==> id in s.objects
  {
    hide Latest;
  }

  lemma {:induction false} RowObjectsStay(s: Store, batch: seq<Artifact>, n: nat, ctx: Context, id: VersionId)
    requires n <= |batch| && id in s.tables.rows
    ensures id in RecordFirst(s, batch, n, ctx).0.objects <==> id in s.objects
  {
    hide RecordOne;
    if n > 0 {
      RowObjectsStay(s, batch, n - 1, ctx, id);
      RecordFirstKeepsRows(s, batch, n - 1, ctx, id);
      OneRowObjectStays(RecordFirst(s, batch, n - 1, ctx).0, batch[n - 1], ctx, id);
    }
  }

  lemma {:induction false} FailureLeavesRowObjects(s: Store, batch: seq<Artifact>, n: nat, ctx: Context, fault: Fault, id: VersionId)
    requires n <= |batch| && id in s.tables.rows && Failure(s, batch, n, ctx, fault).Some?
    ensures id in Failure(s, batch, n, ctx, fault).value <==> id in s.objects
    decreases |batch| - n
  {
    hide RecordFirst, RecordOne, Struck;
    var here := RecordFirst(s, batch, n, ctx).0;
    RowObjectsStay(s, batch, n, ctx, id);
    RecordFirstKeepsRows(s, batch, n, ctx, id);
    if fault == Crash(n) || (n < |batch| && Raises(here, batch[n], ctx)) {
    } else if Strikes(fault, n, ctx) && RecordOne(here, batch[n], ctx).1.recorded {
      StruckTouchesOnly(here, batch[n], ctx, fault);
    } else {
      FailureLeavesRowObjects(s, batch, n + 1, ctx, fault, id);
    }
  }

  lemma RecordRestoresNothing(s: Store, batch: seq<Artifact>, ctx: Context, fault: Fault, id: VersionId)
    requires Missing(s, id) && NamedAlike(s.tables.rows)
    ensures Missing(RecordTx(s, batch, ctx, fault).0, id)
  {
    hide RecordFirst, Failure;
    RecordStays(s, batch, ctx, fault);
    if Failure(s, batch, 0, ctx, fault).Some? { FailureLeavesRowObjects(s, batch, 0, ctx, fault, id); }
    else { RowObjectsStay(s, batch, |batch|, ctx, id); }
  }

  predicate HoldsReferences(at: Publisher, j: Uuid) {
    (at.Referring? || at.Enqueued? || at.Cleared?) && at.event.job == j
  }

  /** File `i` of the event is recorded, its version has lost its object, and no publisher has already read it. */
  ghost predicate Stuck(m: System, j: Uuid, i: nat) {
    && Inv(m) && Present(m.shared.jobs, j) && m.shared.jobs.outbox[j].publishedAt.None?
    && MissingFile(m.shared.store, EventOf(m.shared.jobs, j), i)
    && forall p :: p in m.publishers ==> !HoldsReferences(m.publishers[p], j)
  }

  predicate MissingFile(s: Store, e: Event, i: nat) {
    i < |e.result.artifacts| && KeyAt(e, i) in s.tables.attempts && Missing(s, s.tables.attempts[KeyAt(e, i)])
  }

  lemma StaysMissing(m: System, a: Action, id: VersionId)
    requires Inv(m) && Missing(m.shared.store, id)
    ensures Missing(Step(m, a).shared.store, id)
  {
    hide SharedInv, RecordTx, Jobs.Apply, Jobs.AcknowledgeTx, References, Inserted, PublisherOk;
    InvShared(m);
    match a
    case Begin(p, job, backed, now, fault) =>
      if Present(m.shared.jobs, job) {
        var e := EventOf(m.shared.jobs, job);
        RecordRestoresNothing(m.shared.store, e.result.artifacts, RecordContext(e, backed, now), fault, id);
      }
    case DirectRecord(batch, ctx, fault) => RecordRestoresNothing(m.shared.store, batch, ctx, fault, id);
    case _ =>
  }

  lemma StaysUnpublished(m: System, a: Action, j: Uuid)
    requires Inv(m) && Present(m.shared.jobs, j) && m.shared.jobs.outbox[j].publishedAt.None?
    requires forall p :: p in m.publishers ==> !HoldsReferences(m.publishers[p], j)
    ensures var db' := Step(m, a).shared.jobs; j in db'.outbox ==> db'.outbox[j].publishedAt.None?
  {
    hide SharedInv, RecordTx, Jobs.Apply, References, Inserted, PublisherOk;
    match a
    case WorkerCall(call, now) =>
      if !call.Acknowledge? && j in Jobs.Apply(m.shared.jobs, call, now).outbox
         && Jobs.Apply(m.shared.jobs, call, now).outbox[j].publishedAt.Some? {
        NewEventsAreUnpublished(m.shared.jobs, call, now, j);
      }
    case _ =>
  }

  lemma ReadsNothing(m: System, p: nat, j: Uuid, i: nat)
    requires Stuck(m, j, i) && At(m, p).Recording? && At(m, p).event.job == j
    ensures ReferStep(m, p, true) == Goto(m, p, Idle)
  {
    hide SharedInv, Missing;
    var e, versions := At(m, p).event, At(m, p).versions;
    ReferFindsRefs(m, p, true);
    assert versions[i].id == m.shared.store.tables.attempts[KeyAt(e, i)];
  }

  lemma NobodyReads(m: System, a: Action, j: Uuid, i: nat)
    requires Stuck(m, j, i) && (a.Refer? ==> a.backed)
    ensures forall p :: p in Step(m, a).publishers ==> !HoldsReferences(Step(m, a).publishers[p], j)
  {
    hide SharedInv, RecordTx, Jobs.Apply, Jobs.AcknowledgeTx, References, Inserted, PublisherOk, MissingFile;
    if a.Refer? && At(m, a.p).Recording? && At(m, a.p).event.job == j { ReadsNothing(m, a.p, j, i); }
  }

  lemma StuckStays(m: System, a: Action, j: Uuid, i: nat)
    requires Stuck(m, j, i) && (a.Refer? ==> a.backed)
    ensures Stuck(Step(m, a), j, i)
  {
    hide Inv, Step, Missing, HoldsReferences;
    StepKeeps(m, a);
    var e := EventOf(m.shared.jobs, j);
    assert Present(Step(m, a).shared.jobs, j) && EventOf(Step(m, a).shared.jobs, j) == e;
    StaysMissing(m, a, m.shared.store.tables.attempts[KeyAt(e, i)]);
    StaysUnpublished(m, a, j);
    NobodyReads(m, a, j, i);
  }

  /** As long as the backend stays configured, an event whose recorded file lost its object is never
      acknowledged, although its review identity may be free. */
  lemma {:induction false} LostIsNeverAcknowledged(m: System, run: seq<Action>, j: Uuid, i: nat)
    requires Stuck(m, j, i) && forall k :: 0 <= k < |run| && run[k].Refer? ==> run[k].backed
    ensures var s' := RunSystem(m, run).shared;
      Present(s'.jobs, j) && s'.jobs.outbox[j].publishedAt.None? && MissingFile(s'.store, EventOf(s'.jobs, j), i)
    decreases |run|
  {
    hide Inv, Step, HoldsReferences;
    if run != [] {
      StuckStays(m, run[0], j, i);
      LostIsNeverAcknowledged(Step(m, run[0]), run[1..], j, i);
    }
  }

  // ---- refused for ever ------------------------------------------------------------------------------------

  /** The backend takes no version of the file, whatever its content. */
  ghost predicate RefusesKey(accepts: Acceptance, key: string) {
    forall v: nat, content: string :: !accepts(VersionId(key, v), content)
  }

  /** The backend stays configured: every recording puts its new versions there. */
  predicate AllBacked(run: seq<Action>) {
    forall k :: 0 <= k < |run| ==> (run[k].Begin? ==> run[k].backed) && (run[k].DirectRecord? ==> run[k].ctx.backed)
  }

  predicate NoVersion(s: Store, key: string) {
    forall id :: id in s.tables.rows ==> id.key != key
  }

  lemma {:induction false} FirstAddsNoVersion(s: Store, batch: seq<Artifact>, n: nat, ctx: Context, key: string)
    requires n <= |batch| && ctx.backed && RefusesKey(s.accepts, key) && NoVersion(s, key)
    requires forall k :: 0 <= k < n ==> !Refused(RecordFirst(s, batch, k, ctx).0, batch[k], ctx)
    ensures NoVersion(RecordFirst(s, batch, n, ctx).0, key)
  {
    hide RecordOne, Refused;
    if n > 0 {
      FirstAddsNoVersion(s, batch, n - 1, ctx, key);
      AcceptanceStays(s, batch, n - 1, ctx);
      OneAddsNoVersion(RecordFirst(s, batch, n - 1, ctx).0, batch[n - 1], ctx, key);
    }
  }

  lemma OneAddsNoVersion(s: Store, a: Artifact, ctx: Context, key: string)
    requires ctx.backed && RefusesKey(s.accepts, key) && NoVersion(s, key) && !Refused(s, a, ctx)
    ensures NoVersion(RecordOne(s, a, ctx).0, key)
  {
    hide Latest;
  }

  lemma RecordAddsNoVersion(s: Store, batch: seq<Artifact>, ctx: Context, fault: Fault, key: string)
    requires ctx.backed && RefusesKey(s.accepts, key) && NoVersion(s, key)
    ensures NoVersion(RecordTx(s, batch, ctx, fault).0, key) && RecordTx(s, batch, ctx, fault).0.accepts == s.accepts
  {
    hide RecordFirst, Failure, RefusesKey, Refused;
    AcceptanceStays(s, batch, |batch|, ctx);
    if Failure(s, batch, 0, ctx, fault).None? {
      SuccessRaisesNothing(s, batch, 0, ctx, fault);
      FirstAddsNoVersion(s, batch, |batch|, ctx, key);
    }
  }

  lemma StepAddsNoVersion(m: System, a: Action, key: string)
    requires RefusesKey(m.shared.store.accepts, key) && NoVersion(m.shared.store, key) && AllBacked([a])
    ensures NoVersion(Step(m, a).shared.store, key) && Step(m, a).shared.store.accepts == m.shared.store.accepts
  {
    hide RecordTx, Jobs.Apply, Jobs.AcknowledgeTx, References, Inserted, RefusesKey, NoVersion;
    assert [a][0] == a;
    match a
    case Begin(p, job, backed, now, fault) =>
      if Present(m.shared.jobs, job) {
        var e := EventOf(m.shared.jobs, job);
        RecordAddsNoVersion(m.shared.store, e.result.artifacts, RecordContext(e, backed, now), fault, key);
      }
    case DirectRecord(batch, ctx, fault) => RecordAddsNoVersion(m.shared.store, batch, ctx, fault, key);
    case Delete(c, id) => SameTables(m.shared.store, Step(m, a).shared.store, key);
    case _ =>
  }

  lemma SameTables(s: Store, s': Store, key: string)
    requires s'.tables == s.tables
    ensures NoVersion(s', key) <==> NoVersion(s, key)
  {
  }

  lemma {:induction false} RunAddsNoVersion(m: System, run: seq<Action>, key: string)
    requires RefusesKey(m.shared.store.accepts, key) && NoVersion(m.shared.store, key) && AllBacked(run)
    ensures NoVersion(RunSystem(m, run).shared.store, key)
    decreases |run|
  {
    hide Step, RefusesKey, NoVersion;
    if run != [] {
      StepAddsNoVersion(m, run[0], key);
      RunAddsNoVersion(Step(m, run[0]), run[1..], key);
    }
  }

  /** Main theorem. As long as the backend stays configured, an event with a file that the backend refuses by
      its name is never acknowledged, however often its publication is tried. */
  lemma RefusedIsNeverAcknowledged(accepts: Acceptance, run: seq<Action>, j: Uuid, i: nat)
    requires AllBacked(run) && Present(RunSystem(Start(accepts), run).shared.jobs, j)
    requires var e := EventOf(RunSystem(Start(accepts), run).shared.jobs, j);
      i < |e.result.artifacts| && RefusesKey(accepts, KeyAt(e, i).key)
    ensures RunSystem(Start(accepts), run).shared.jobs.outbox[j].publishedAt.None?
  {
    hide RunSystem, RefusesKey, Inv, AllBacked;
    StartIsGood(accepts);
    RunKeeps(Start(accepts), run);
    var m := RunSystem(Start(accepts), run);
    RunAddsNoVersion(Start(accepts), run, KeyAt(EventOf(m.shared.jobs, j), i).key);
    AcknowledgedHasVersion(m, j, i);
  }

  lemma AcknowledgedHasVersion(m: System, j: Uuid, i: nat)
    requires Inv(m) && Present(m.shared.jobs, j) && i < |EventOf(m.shared.jobs, j).result.artifacts|
    ensures m.shared.jobs.outbox[j].publishedAt.Some? ==> !NoVersion(m.shared.store, KeyAt(EventOf(m.shared.jobs, j), i).key)
  {
    hide JobInvariant.Consistent, NamedAlike, OwnContents, OwnReviews, RowsChained, KeyAt, Reviewed;
    AcknowledgedPart(m.shared, j);
  }

  // ---- malformed for ever ------------------------------------------------------------------------------------

  /** No version was recorded for the attempt of a malformed event. */
  ghost predicate NoneForMalformed(s: Shared) {
    forall j, k :: Present(s.jobs, j) && Malformed(EventOf(s.jobs, j)) && k in s.store.tables.attempts ==>
      k.attemptId != s.jobs.outbox[j].attemptId
  }

  lemma BeginRecordsNoMalformed(m: System, job: Uuid, backed: bool, now: Time, fault: Fault)
    requires Inv(m) && Present(m.shared.jobs, job) && NoneForMalformed(m.shared)
    ensures var e := EventOf(m.shared.jobs, job);
      NoneForMalformed(m.shared.(store := RecordTx(m.shared.store, e.result.artifacts, RecordContext(e, backed, now), fault).0))
  {
    hide JobInvariant.Consistent, RecordFirst, Failure, SharedInv, PublisherOk, Malformed, Raises;
    var e := EventOf(m.shared.jobs, job);
    var ctx := RecordContext(e, backed, now);
    var done := RecordTx(m.shared.store, e.result.artifacts, ctx, fault);
    if done.1.Some? {
      SuccessIsWellFormed(m.shared.store, e, ctx, fault);
      InvParts(m.shared);
      forall j, k | Present(m.shared.jobs, j) && Malformed(EventOf(m.shared.jobs, j)) && k in done.0.tables.attempts
        ensures k.attemptId != m.shared.jobs.outbox[j].attemptId
      {
        if k !in m.shared.store.tables.attempts {
          OnlyBatchIsNoted(m.shared.store, e.result.artifacts, |e.result.artifacts|, ctx, k);
          if m.shared.jobs.outbox[j].attemptId == m.shared.jobs.outbox[job].attemptId { AttemptHasOneEvent(m.shared.jobs, j, job); }
        }
      }
    }
  }

  lemma SuccessIsWellFormed(s: Store, e: Event, ctx: Context, fault: Fault)
    requires RecordTx(s, e.result.artifacts, ctx, fault).1.Some?
    ensures !Malformed(e)
  {
    hide RecordFirst, Failure, Refused;
    SuccessRaisesNothing(s, e.result.artifacts, 0, ctx, fault);
  }

  lemma CallMakesNoMalformed(m: System, call: Jobs.Call, now: Time)
    requires Inv(m) && NoneForMalformed(m.shared) && !call.Acknowledge?
    ensures NoneForMalformed(m.shared.(jobs := Jobs.Apply(m.shared.jobs, call, now)))
  {
    hide JobInvariant.Consistent, Jobs.Apply, PublisherOk, Malformed, OwnReviews, AcknowledgedOk, Chained, NamedAlike;
    var s, db' := m.shared, Jobs.Apply(m.shared.jobs, call, now);
    JobInvariant.CallKeeps(s.jobs, call, now);
    forall j, k | Present(db', j) && Malformed(EventOf(db', j)) && k in s.store.tables.attempts
      ensures k.attemptId != db'.outbox[j].attemptId
    {
      KnownAttempt(s, k);
      var j0 :| Present(s.jobs, j0) && s.jobs.outbox[j0].attemptId == k.attemptId;
      CallLeavesEvent(s.jobs, call, now, j0);
      if db'.outbox[j].attemptId == k.attemptId { AttemptHasOneEvent(db', j, j0); }
    }
  }

  lemma StepRecordsNoMalformed(m: System, a: Action)
    requires Inv(m) && NoneForMalformed(m.shared)
    ensures NoneForMalformed(Step(m, a).shared)
  {
    hide SharedInv, RecordTx, Jobs.Apply, References, Inserted, PublisherOk, Malformed;
    match a
    case Begin(p, job, backed, now, fault) =>
      if Present(m.shared.jobs, job) { BeginRecordsNoMalformed(m, job, backed, now, fault); }
    case DirectRecord(batch, ctx, fault) => if ctx.attemptId.None? { DirectNotesNothing(m.shared.store, batch, ctx, fault); }
    case WorkerCall(call, now) => if !call.Acknowledge? { CallMakesNoMalformed(m, call, now); }
    case _ =>
  }

  lemma {:induction false} RunRecordsNoMalformed(m: System, run: seq<Action>)
    requires Inv(m) && NoneForMalformed(m.shared)
    ensures NoneForMalformed(RunSystem(m, run).shared)
    decreases |run|
  {
    hide Inv, Step, NoneForMalformed;
    if run != [] {
      StepKeeps(m, run[0]);
      StepRecordsNoMalformed(m, run[0]);
      RunRecordsNoMalformed(Step(m, run[0]), run[1..]);
    }
  }

  /** An event with a malformed artifact is never acknowledged. */
  lemma MalformedIsNeverAcknowledged(accepts: Acceptance, run: seq<Action>, j: Uuid)
    requires Present(RunSystem(Start(accepts), run).shared.jobs, j)
    requires Malformed(EventOf(RunSystem(Start(accepts), run).shared.jobs, j))
    ensures RunSystem(Start(accepts), run).shared.jobs.outbox[j].publishedAt.None?
  {
    hide RunSystem, SharedInv, Stays;
    StartIsGood(accepts);
    RunKeeps(Start(accepts), run);
    RunRecordsNoMalformed(Start(accepts), run);
    var s := RunSystem(Start(accepts), run).shared;
    InvParts(s);
    AcknowledgedPart(s, j);
    var e := EventOf(s.jobs, j);
    var i :| 0 <= i < |e.result.artifacts| && !e.result.artifacts[i].wellFormed;
    assert KeyAt(e, i).attemptId == e.attempt;
  }

  // ---- deletions during a recording ---------------------------------------------------------------------

  function Without(s: Store, gone: set<VersionId>): Store {
    s.(objects := s.objects - gone)
  }

  /** Recording artifact by artifact while cleanups delete the objects `gone(k)` after the first `k` of them. */
  ghost function SweptFirst(s: Store, batch: seq<Artifact>, n: nat, ctx: Context, gone: nat -> set<VersionId>)
    : (Store, seq<Recorded>)
    requires n <= |batch|
  {
    if n == 0 then (Without(s, gone(0)), [])
    else
      var before := SweptFirst(s, batch, n - 1, ctx, gone);
      var one := RecordOne(before.0, batch[n - 1], ctx);
      (Without(one.0, gone(n)), before.1 + [one.1])
  }

  /** The objects that a failed recording leaves when cleanups delete in its course. */
  ghost function SweptFailure(s: Store, batch: seq<Artifact>, n: nat, ctx: Context, fault: Fault, gone: nat -> set<VersionId>)
    : Option<Objects>
    requires n <= |batch|
    decreases |batch| - n
  {
    var here := SweptFirst(s, batch, n, ctx, gone).0;
    if fault == Crash(n) then Some(here.objects)
    else if n == |batch| then None
    else if Raises(here, batch[n], ctx) then Some(here.objects)
    else if Strikes(fault, n, ctx) && RecordOne(here, batch[n], ctx).1.recorded then
      Some(Struck(here, batch[n], ctx, fault) - gone(n + 1))
    else SweptFailure(s, batch, n + 1, ctx, fault, gone)
  }

  /** A recording in whose course cleanups delete objects. */
  ghost function SweptTx(s: Store, batch: seq<Artifact>, ctx: Context, fault: Fault, gone: nat -> set<VersionId>)
    : (Store, Option<seq<Recorded>>)
  {
    var failed := SweptFailure(s, batch, 0, ctx, fault, gone);
    if failed.Some? then (s.(objects := failed.value), None)
    else (SweptFirst(s, batch, |batch|, ctx, gone).0, Some(SweptFirst(s, batch, |batch|, ctx, gone).1))
  }

  /** What was deleted before the object of the artifact was put is there again. */
  lemma OneWithout(s: Store, a: Artifact, ctx: Context, late: set<VersionId>) returns (left: set<VersionId>)
    ensures left <= late && RecordOne(Without(s, late), a, ctx) == (Without(RecordOne(s, a, ctx).0, left), RecordOne(s, a, ctx).1)
  {
    hide Latest;
    var one := RecordOne(s, a, ctx);
    left := if one.1.recorded && ctx.backed then late - {one.1.id} else late;
    assert RecordOne(Without(s, late), a, ctx).0 == Without(one.0, left);
  }

  lemma StruckWithout(s: Store, a: Artifact, ctx: Context, fault: Fault, late: set<VersionId>) returns (left: set<VersionId>)
    ensures left <= late && Struck(Without(s, late), a, ctx, fault) == Struck(s, a, ctx, fault) - left
    ensures Raises(Without(s, late), a, ctx) <==> Raises(s, a, ctx)
    ensures RecordOne(Without(s, late), a, ctx).1 == RecordOne(s, a, ctx).1
  {
    hide Latest;
    var id := RecordOne(s, a, ctx).1.id;
    var stored := (fault.PutFails? && fault.stored) || (fault.InsertFails? && ctx.backed && !fault.removed);
    left := if stored then late - {id} else late;
  }

  predicate AllFrom(late: set<VersionId>, gone: nat -> set<VersionId>, n: nat) {
    forall id :: id in late ==> exists k: nat :: k <= n && id in gone(k)
  }

  lemma WithoutTwice(s: Store, a: set<VersionId>, b: set<VersionId>)
    ensures Without(Without(s, a), b) == Without(s, a + b)
  {
    assert s.objects - a - b == s.objects - (a + b);
  }

  lemma {:induction false} SweptFirstIs(s: Store, batch: seq<Artifact>, n: nat, ctx: Context, gone: nat -> set<VersionId>)
    returns (late: set<VersionId>)
    requires n <= |batch|
    ensures AllFrom(late, gone, n)
    ensures SweptFirst(s, batch, n, ctx, gone) == (Without(RecordFirst(s, batch, n, ctx).0, late), RecordFirst(s, batch, n, ctx).1)
  {
    hide RecordOne, Without;
    if n == 0 {
      late := gone(0);
    } else {
      var earlier := SweptFirstIs(s, batch, n - 1, ctx, gone);
      var before := RecordFirst(s, batch, n - 1, ctx).0;
      var left := OneWithout(before, batch[n - 1], ctx, earlier);
      WithoutTwice(RecordOne(before, batch[n - 1], ctx).0, left, gone(n));
      late := left + gone(n);
    }
  }

  lemma {:induction false} SweptFailureIs(s: Store, batch: seq<Artifact>, n: nat, ctx: Context, fault: Fault,
                                          gone: nat -> set<VersionId>) returns (late: set<VersionId>)
    requires n <= |batch|
    ensures AllFrom(late, gone, |batch|)
    ensures SweptFailure(s, batch, n, ctx, fault, gone)
            == match Failure(s, batch, n, ctx, fault) case None => None case Some(objects) => Some(objects - late)
    decreases |batch| - n
  {
    hide RecordOne, RecordFirst, SweptFirst, Struck, Raises;
    var here := RecordFirst(s, batch, n, ctx).0;
    late := SweptFirstIs(s, batch, n, ctx, gone);
    if fault == Crash(n) || n == |batch| {
    } else {
      var left := StruckWithout(here, batch[n], ctx, fault, late);
      if Raises(here, batch[n], ctx) {
      } else if Strikes(fault, n, ctx) && RecordOne(here, batch[n], ctx).1.recorded {
        late := left + gone(n + 1);
        assert Struck(here, batch[n], ctx, fault) - left - gone(n + 1) == Struck(here, batch[n], ctx, fault) - late;
      } else {
        late := SweptFailureIs(s, batch, n + 1, ctx, fault, gone);
      }
    }
  }

  /** Why a recording may be one step of the machine: however cleanups delete in its course, and whether it
      succeeds, fails, is refused or crashes, its result is that of the undisturbed recording, and the stores
      end up as if some of those deletions had come right after it. */
  lemma DeletionsCanWait(s: Store, batch: seq<Artifact>, ctx: Context, fault: Fault, gone: nat -> set<VersionId>)
    returns (late: set<VersionId>)
    ensures AllFrom(late, gone, |batch|)
    ensures SweptTx(s, batch, ctx, fault, gone)
            == (Without(RecordTx(s, batch, ctx, fault).0, late), RecordTx(s, batch, ctx, fault).1)
  {
    hide RecordFirst, SweptFirst, Failure, SweptFailure;
    late := SweptFailureIs(s, batch, 0, ctx, fault, gone);
    if Failure(s, batch, 0, ctx, fault).None? { late := SweptFirstIs(s, batch, |batch|, ctx, gone); }
  }

  /** A cleanup that is to delete these objects can do so now, one after the other. */
  lemma {:induction false} DeletesAll(m: System, c: nat, late: set<VersionId>) returns (run: seq<Action>)
    requires CleanerAt(m, c).Deleting? && late <= CleanerAt(m, c).todo
    ensures forall k :: 0 <= k < |run| ==> run[k].Delete?
    ensures RunSystem(m, run).shared == m.shared.(store := Without(m.shared.store, late))
    ensures RunSystem(m, run).publishers == m.publishers
    decreases |late|
  {
    if late == {} {
      run := [];
      assert m.shared.store.objects - late == m.shared.store.objects;
    } else {
      var id :| id in late;
      var m' := DeleteStep(m, c, id);
      var rest := DeletesAll(m', c, late - {id});
      run := [Delete(c, id)] + rest;
      assert run[1..] == rest;
      WithoutTwice(m.shared.store, {id}, late - {id});
      assert {id} + (late - {id}) == late;
    }
  }

  /** So a recording that a cleanup disturbs is a run of the machine: the recording, and then deletions. */
  lemma SweptRecordingIsARun(m: System, p: nat, j: Uuid, backed: bool, now: Time, fault: Fault, c: nat,
                             gone: nat -> set<VersionId>) returns (run: seq<Action>)
    requires At(m, p) == Idle && Present(m.shared.jobs, j) && CleanerAt(m, c).Deleting?
    requires forall k: nat :: gone(k) <= CleanerAt(m, c).todo
    ensures var e := EventOf(m.shared.jobs, j);
      var swept := SweptTx(m.shared.store, e.result.artifacts, RecordContext(e, backed, now), fault, gone);
      var m' := RunSystem(m, run);
      && m'.shared == m.shared.(store := swept.0)
      && At(m', p) == if swept.1.None? then Idle else Recording(e, swept.1.value)
  {
    hide RecordTx, SweptTx, RunSystem, Without;
    var e := EventOf(m.shared.jobs, j);
    var late := DeletionsCanWait(m.shared.store, e.result.artifacts, RecordContext(e, backed, now), fault, gone);
    var m1 := BeginStep(m, p, j, backed, now, fault);
    forall id | id in late ensures id in CleanerAt(m1, c).todo {
      var k: nat :| id in gone(k);
      assert gone(k) <= CleanerAt(m, c).todo;
    }
    var rest := DeletesAll(m1, c, late);
    run := [Begin(p, j, backed, now, fault)] + rest;
    BeginThen(m, p, j, backed, now, fault, rest);
  }

  lemma BeginThen(m: System, p: nat, j: Uuid, backed: bool, now: Time, fault: Fault, rest: seq<Action>)
    ensures RunSystem(m, [Begin(p, j, backed, now, fault)] + rest) == RunSystem(BeginStep(m, p, j, backed, now, fault), rest)
  {
    hide BeginStep;
    assert ([Begin(p, j, backed, now, fault)] + rest)[1..] == rest;
  }
}
