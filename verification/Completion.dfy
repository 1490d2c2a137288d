/** ReviewQueue and CompletionPublisher: replaying committed completions into the stores. */
module Completion {
  import opened Prelude
  import opened Artifacts
  import opened Publication
  import opened Delivery
  import Jobs
  import JobInvariant
  import JobRepository
  import Storage

  class ReviewQueue {
    var rows: Reviews

    constructor ()
      ensures rows == map[]
    {
      rows := map[];
    }

    method Enqueue(key: ReviewKey, row: ReviewRow)
      modifies this
      ensures rows == Inserted(old(rows), key, row)
    {
      if key !in rows { rows := rows[key := row]; }
    }

    method GetByTaskId(key: ReviewKey) returns (r: Option<ReviewRow>)
      ensures r == if key in rows then Some(rows[key]) else None
    {
      r := if key in rows then Some(rows[key]) else None;
    }

    /** Only a pending row can be resolved, and only its status changes. */
    method Resolve(key: ReviewKey, status: string) returns (resolved: bool)
      modifies this
      ensures resolved <==> key in old(rows) && old(rows)[key].status == "pending"
      ensures rows == if resolved then old(rows)[key := old(rows)[key].(status := status)] else old(rows)
    {
      resolved := key in rows && rows[key].status == "pending";
      if resolved { rows := rows[key := rows[key].(status := status)]; }
    }
  }

  class CompletionPublisher {
    const jobs: JobRepository.SqliteJobRepository
    const artifacts: Storage.ArtifactStore
    const reviews: ReviewQueue

    ghost predicate Valid()
      reads this, jobs, artifacts, reviews
    {
      jobs.Valid()
    }

    ghost function State(): Shared
      reads this, jobs, artifacts, reviews
    {
      Shared(jobs.Tables(), artifacts.State(), reviews.rows)
    }

    constructor (jobs: JobRepository.SqliteJobRepository, artifacts: Storage.ArtifactStore, reviews: ReviewQueue)
      requires jobs.Valid()
      ensures Valid() && this.jobs == jobs && this.artifacts == artifacts && this.reviews == reviews
    {
      this.jobs, this.artifacts, this.reviews := jobs, artifacts, reviews;
    }

    method FindReferences(versions: seq<Recorded>) returns (refs: Option<seq<Reference>>)
      ensures refs == References(artifacts.State(), versions, artifacts.backed)
    {
      var found: seq<Reference> := [];
      for i := 0 to |versions|
        invariant References(artifacts.State(), versions[..i], artifacts.backed) == Some(found)
      {
        assert versions[..i + 1][..i] == versions[..i];
        var row := artifacts.GetVersion(versions[i].id);
        if row.None? || row.value.None? {
          UnreadableReference(artifacts.State(), versions, i, artifacts.backed);
          return None;
        }
        found := found + [Reference(versions[i].id, row.value.value.hash)];
      }
      assert versions[..|versions|] == versions;
      return Some(found);
    }

    /** Publishes one event; a failure leaves what was stored so far. */
    method Publish(j: Uuid, now: Time, fault: Fault)
      requires Valid() && j in jobs.outbox
      modifies jobs, artifacts, reviews
      ensures Valid()
      ensures State() == PublishAlone(old(State()), j, artifacts.backed, now, fault)
    {
      hide JobInvariant.Consistent, RecordTx, References, Inserted, Reviewed, ReviewFor, EvidenceOf, Jobs.AcknowledgeTx;
      var attempt, createdAt := jobs.outbox[j].attemptId, jobs.outbox[j].createdAt;
      var task := jobs.GetTask(j);
      var result := jobs.GetResult(j);
      if task.None? || result.None? { return; }
      var e := Event(j, attempt, createdAt, task.value, result.value);
      var versions := artifacts.Record(e.result.artifacts, e.task.workspaceRoot, e.task.taskId, e.task.skill,
                                       Some(attempt), now, fault);
      if versions.None? { return; }
      var refs := FindReferences(versions.value);
      if refs.None? { return; }
      if e.result.status == "escalated" {
        reviews.Enqueue(ReviewKeyOf(e), ReviewFor(e, refs.value));
        var review := reviews.GetByTaskId(ReviewKeyOf(e));
        if review.None? || review.value.attemptId != Some(attempt) || review.value.output != EvidenceOf(e, refs.value) {
          assert !Reviewed(reviews.rows, e, refs.value) by { ReviewedIs(reviews.rows, e, refs.value); }
          return;
        }
        ReviewedIs(reviews.rows, e, refs.value);
      }
      jobs.AcknowledgeCompletion(j, now);
    }

    /** Publishes the pending events one after the other; no failure stops the others. */
    method PublishPending(now: Time, faults: Uuid -> Fault) returns (ghost pending: seq<Uuid>)
      requires Valid()
      modifies jobs, artifacts, reviews
      ensures Valid()
      ensures forall i :: 0 <= i < |pending| ==> pending[i] in old(jobs.outbox) && old(jobs.outbox)[pending[i]].publishedAt.None?
      ensures forall j :: j in old(jobs.outbox) && old(jobs.outbox)[j].publishedAt.None? && j !in pending ==> |pending| == 100
      ensures State() == PublishAll(old(State()), pending, artifacts.backed, now, faults)
    {
      hide JobInvariant.Consistent, PublishAlone;
      ghost var s := State();
      var events := jobs.PendingCompletions(100);
      pending := events;
      for i := 0 to |events|
        invariant Valid() && jobs.outbox.Keys == old(jobs.outbox).Keys
        invariant State() == PublishAll(s, events[..i], artifacts.backed, now, faults)
      {
        assert events[i] in events;
        ghost var here := State();
        Publish(events[i], now, faults(events[i]));
        SameEvents(here, events[i], artifacts.backed, now, faults(events[i]));
        assert events[..i + 1][..i] == events[..i];
      }
      assert events[..|events|] == events;
    }
  }

  /** One publication without interference: the effect on the stores of its steps in order. */
  ghost function PublishAlone(s: Shared, j: Uuid, backed: bool, now: Time, fault: Fault): Shared {
    if !Present(s.jobs, j) then s
    else
      var e := EventOf(s.jobs, j);
      var done := RecordTx(s.store, e.result.artifacts, RecordContext(e, backed, now), fault);
      var s1 := s.(store := done.0);
      if done.1.None? then s1
      else
        var refs := References(s1.store, done.1.value, backed);
        if refs.None? then s1
        else
          var s2 := if Escalated(e) then s1.(reviews := Inserted(s1.reviews, ReviewKeyOf(e), ReviewFor(e, refs.value))) else s1;
          if Escalated(e) && !Reviewed(s2.reviews, e, refs.value) then s2
          else s2.(jobs := Jobs.AcknowledgeTx(s2.jobs, j, now))
  }

  ghost function PublishAll(s: Shared, events: seq<Uuid>, backed: bool, now: Time, faults: Uuid -> Fault): Shared
    decreases |events|
  {
    if events == [] then s
    else
      var last := events[|events| - 1];
      PublishAlone(PublishAll(s, events[..|events| - 1], backed, now, faults), last, backed, now, faults(last))
  }

  /** The method does what an idle publisher of the machine does when nobody else moves. */
  lemma PublishAloneIsPublish(s: Shared, p: nat, j: Uuid, backed: bool, now: Time, fault: Fault)
    ensures Publish(System(s, map[], map[]), p, j, backed, now, fault).shared == PublishAlone(s, j, backed, now, fault)
  {
    hide RecordTx, References, Inserted, Reviewed, ReviewFor, EvidenceOf, Jobs.AcknowledgeTx;
  }

  lemma ReviewedIs(reviews: Reviews, e: Event, refs: seq<Reference>)
    ensures Reviewed(reviews, e, refs) <==>
      ReviewKeyOf(e) in reviews && reviews[ReviewKeyOf(e)].attemptId == Some(e.attempt)
      && reviews[ReviewKeyOf(e)].output == EvidenceOf(e, refs)
  {
  }

  lemma SameEvents(s: Shared, j: Uuid, backed: bool, now: Time, fault: Fault)
    ensures PublishAlone(s, j, backed, now, fault).jobs.outbox.Keys == s.jobs.outbox.Keys
  {
    hide RecordTx, References, Inserted, Reviewed, ReviewFor, EvidenceOf;
  }

  lemma {:induction false} UnreadableReference(s: Store, versions: seq<Recorded>, i: nat, backed: bool)
    requires i < |versions|
    requires GetVersion(s, versions[i].id, backed).None? || GetVersion(s, versions[i].id, backed).value.None?
    ensures References(s, versions, backed).None?
    decreases |versions|
  {
    if i < |versions| - 1 { UnreadableReference(s, versions[..|versions| - 1], i, backed); }
  }
}
