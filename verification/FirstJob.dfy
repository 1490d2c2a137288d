/** One job in empty tables, from its enqueue to its completion. */
module FirstJob {
  import opened Prelude
  import opened Contracts
  import opened Jobs

  lemma OnlyJobIsNext(db: Db, j: Uuid, now: Time)
    requires db.jobs.Keys == {j} && Claimable(db, now, j)
    ensures ClaimTarget(db, now) == Some(j)
  {
    assert IsNext(db, now, j);
  }

  /** The tables after the first enqueue, its claim at time 1, and its completion at time 2. */
  function Enqueued(input: TaskInput, key: Key): Db {
    EnqueueTx(EMPTY, input.taskId, Some(input), key, 0, DEFAULT_RETRY, 0.0).0
  }

  function Claimed(input: TaskInput, key: Key): Db
    requires key != ClientKey("")
  {
    ClaimJob(Enqueued(input, key), 0, "worker", 10.0, 1.0)
  }

  ghost function Finished(input: TaskInput, key: Key, r: JobResult): Db
    requires key != ClientKey("")
  {
    Apply(Claimed(input, key), Completing(r), 2.0)
  }

  const CLAIM := Claim("worker", 10.0)

  function Completing(r: JobResult): Call {
    Complete(0, 2, "output", Some(r))
  }

  lemma FirstJobIsClaimed(input: TaskInput, key: Key)
    requires key != ClientKey("")
    ensures Apply(Enqueued(input, key), CLAIM, 1.0) == Claimed(input, key)
  {
    OnlyJobIsNext(Enqueued(input, key), 0, 1.0);
  }

  lemma FirstJobFinishes(input: TaskInput, key: Key, r: JobResult)
    requires key != ClientKey("")
    ensures var db := Finished(input, key, r);
      && db.jobs.Keys == {0} && db.jobs[0].status == Completed
      && db.idempotency == map[key := 0] && db.inputs == map[0 := input] && db.outputs == map[0 := r]
      && db.outbox == (if r.HasEvidence() then map[0 := OutboxRow(1, 2.0, None)] else map[])
      && db.nextUuid == 3
  {
    var db := Claimed(input, key);
    assert LiveLease(db, 0, 2, 2.0);
  }
}
