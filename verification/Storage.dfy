/** The ArtifactStore class. A failed transaction gives back its rows, but not the objects it put. */
module Storage {
  import opened Prelude
  import opened Contracts
  import opened Artifacts

  class ArtifactStore {
    /** An object backend is configured. */
    const backed: bool
    /** The objects that the backend takes. */
    const accepts: Acceptance
    var rows: Rows
    var attempts: map<AttemptKey, VersionId>
    var objects: Objects

    ghost function State(): Store
      reads this
    {
      Store(Tables(rows, attempts), objects, accepts)
    }

    constructor (backed: bool, accepts: Acceptance)
      ensures State() == Empty(accepts) && this.backed == backed && this.accepts == accepts
    {
      this.backed, this.accepts := backed, accepts;
      rows, attempts, objects := map[], map[], map[];
    }

    method LatestVersion(key: string) returns (v: nat)
      ensures v == Latest(rows, key)
    {
      v := 0;
      var todo := rows.Keys;
      while todo != {}
        invariant todo <= rows.Keys
        invariant v == 0 || VersionId(key, v) in rows
        invariant forall id :: id in rows && id !in todo && id.key == key ==> id.version <= v
        decreases |todo|
      {
        var id :| id in todo;
        todo := todo - {id};
        if id.key == key && id.version > v { v := id.version; }
      }
      LatestIs(rows, key, v);
    }

    /** Records artifact `i` of a batch inside the open transaction, or raises, or is struck by the fault. */
    method RecordArtifact(a: Artifact, i: nat, ctx: Context, fault: Fault) returns (r: Option<Recorded>)
      requires ctx.backed == backed
      modifies this
      ensures var s := old(State());
        var one := RecordOne(s, a, ctx);
        if Raises(s, a, ctx) then r == None && State() == s
        else if Strikes(fault, i, ctx) && one.1.recorded
        then r == None && State() == s.(objects := Struck(s, a, ctx, fault))
        else r == Some(one.1) && State() == one.0
    {
      hide Latest;
      if !a.wellFormed { return None; }
      var key := IdentityKey(ctx.workspaceRoot, a.filename);
      var attempt := AttemptOf(ctx, key);
      if attempt.Some? && attempt.value in attempts { return Some(Recorded(attempts[attempt.value], false)); }
      var v := LatestVersion(key);
      if v > 0 && rows[VersionId(key, v)].hash == Sha256(a.content) {
        if attempt.Some? { attempts := attempts[attempt.value := VersionId(key, v)]; }
        return Some(Recorded(VersionId(key, v), false));
      }
      var id := VersionId(key, v + 1);
      if backed {
        if !accepts(id, a.content) { return None; }
        if fault.PutFails? && fault.at == i {
          if fault.stored { objects := objects[id := a.content]; }
          return None;
        }
        objects := objects[id := a.content];
      }
      if fault.InsertFails? && fault.at == i {
        if backed && fault.removed { objects := objects - {id}; }
        return None;
      }
      rows := rows[id := NewRow(a, ctx, id)];
      if attempt.Some? { attempts := attempts[attempt.value := id]; }
      return Some(Recorded(id, true));
    }

    /** Records a batch in one transaction; None when it failed and was rolled back. */
    method Record(batch: seq<Artifact>, workspaceRoot: string, taskId: Uuid, skill: string, attemptId: Option<Uuid>,
                  now: Time, fault: Fault)
      returns (r: Option<seq<Recorded>>)
      modifies this
      ensures (State(), r) == RecordTx(old(State()), batch, Context(workspaceRoot, taskId, skill, attemptId, backed, now), fault)
    {
      hide RecordOne, Struck, Raises;
      ghost var s := State();
      var ctx := Context(workspaceRoot, taskId, skill, attemptId, backed, now);
      var rows0, attempts0 := rows, attempts;
      var results: seq<Recorded> := [];
      for i := 0 to |batch|
        invariant (State(), results) == RecordFirst(s, batch, i, ctx)
        invariant Failure(s, batch, 0, ctx, fault) == Failure(s, batch, i, ctx, fault)
      {
        if fault == Crash(i) {
          rows, attempts := rows0, attempts0;
          return None;
        }
        var one := RecordArtifact(batch[i], i, ctx, fault);
        if one.None? {
          rows, attempts := rows0, attempts0;
          return None;
        }
        results := results + [one.value];
      }
      if fault == Crash(|batch|) {
        rows, attempts := rows0, attempts0;
        return None;
      }
      return Some(results);
    }

    /** A row, its content read through the backend; None when the object cannot be read. */
    method GetVersion(id: VersionId) returns (r: Option<Option<VersionRow>>)
      ensures r == Artifacts.GetVersion(State(), id, backed)
    {
      if id !in rows { return Some(None); }
      var row := rows[id];
      if backed && row.objectId.Some? {
        if row.objectId.value !in objects { return None; }
        row := row.(content := objects[row.objectId.value]);
      }
      return Some(Some(row));
    }

    /** Deletes objects one by one, until all are gone or it was stopped after `reach` of them. */
    method DeleteObjects(targets: set<VersionId>, reach: nat) returns (deleted: set<VersionId>)
      modifies this`objects
      ensures objects == old(objects) - deleted
      ensures deleted <= targets && (|deleted| < reach ==> deleted == targets)
    {
      deleted := {};
      var todo := targets;
      while todo != {} && |deleted| < reach
        invariant todo + deleted == targets
        invariant objects == old(objects) - deleted
        decreases |todo|
      {
        var id :| id in todo;
        objects := objects - {id};
        todo, deleted := todo - {id}, deleted + {id};
      }
    }

    /** Deletes the objects that no row names, or `reach` of them. */
    method CleanupOrphans(reach: nat) returns (deleted: set<VersionId>)
      modifies this`objects
      ensures State() == CleanupTx(old(State()), deleted)
      ensures deleted <= old(objects).Keys - Known(rows)
      ensures |deleted| < reach ==> deleted == old(objects).Keys - Known(rows)
    {
      var known := NamedBy(rows, rows.Keys);
      deleted := DeleteObjects(objects.Keys - known, reach);
      assert deleted - known == deleted;
    }

    method FindDue(cutoff: Time) returns (due: set<VersionId>)
      ensures due == DueIds(rows, cutoff)
    {
      hide Latest;
      due := {};
      var ids := rows.Keys;
      while ids != {}
        invariant ids <= rows.Keys
        invariant forall id :: id in due <==> id in rows && id !in ids && Due(rows, id, cutoff)
        decreases |ids|
      {
        var id :| id in ids;
        ids := ids - {id};
        var latest := LatestVersion(id.key);
        if rows[id].createdAt < cutoff && id.version < latest { due := due + {id}; }
      }
    }

    /** Deletes old versions in one transaction, then their objects, or `reach` of those. */
    method DeleteOlderThan(cutoff: Time, reach: nat) returns (deleted: set<VersionId>)
      modifies this`rows, this`objects
      ensures State() == DeleteTx(old(State()), cutoff, deleted)
      ensures var named := NamedBy(old(rows), DueIds(old(rows), cutoff));
        deleted <= named && (|deleted| < reach ==> deleted == named)
    {
      hide DueIds, NamedBy;
      var due := FindDue(cutoff);
      var named := NamedBy(rows, due);
      rows := rows - due;
      deleted := DeleteObjects(named, reach);
      assert deleted * named == deleted;
    }
  }
}
