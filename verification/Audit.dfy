/** AuditLog: an append-only history in which every event names the hash of the one before it. */
module Audit {
  import opened Prelude
  import opened Contracts

  type Hash = nat

  datatype Event = Event(
    actor: string,
    action: string,
    reason: string,
    evidenceVersion: string,
    extra: Json,
    priorHash: Option<Hash>)

  datatype Item = Item(sequence: nat, event: Event, hash: Hash, createdAt: Time)

  function Prior(items: seq<Item>, i: nat): Option<Hash>
    requires i <= |items|
  {
    if i == 0 then None else Some(items[i - 1].hash)
  }

  predicate Linked(items: seq<Item>, i: nat, digest: Event -> Hash)
    requires i < |items|
  {
    items[i].event.priorHash == Prior(items, i) && items[i].hash == digest(items[i].event)
  }

  predicate Chained(items: seq<Item>, digest: Event -> Hash) {
    forall i :: 0 <= i < |items| ==> Linked(items, i, digest)
  }

  predicate HashesDistinct(items: seq<Item>) {
    forall i, k :: 0 <= i < k < |items| ==> items[i].hash != items[k].hash
  }

  /** Two different events of these logs have the same hash. */
  predicate Collide(a: seq<Item>, b: seq<Item>) {
    exists i, k :: 0 <= i < |a| && 0 <= k < |b| && a[i].hash == b[k].hash && a[i].event != b[k].event
  }

  class AuditLog {
    const digest: Event -> Hash
    var items: seq<Item>

    ghost predicate Valid()
      reads this
    {
      Chained(items, digest) && HashesDistinct(items)
    }

    constructor (digest: Event -> Hash)
      ensures Valid() && items == [] && this.digest == digest
    {
      this.digest := digest;
      items := [];
    }

    /** Adds an event. The unique index on the hash refuses it only when a different event of the log has
        that hash. */
    method Append(actor: string, action: string, reason: string, evidenceVersion: string, extra: Json, now: Time)
      returns (r: Option<Item>)
      requires Valid()
      modifies this
      ensures Valid()
      ensures r.Some? ==> items == old(items) + [r.value]
                          && r.value.event == Event(actor, action, reason, evidenceVersion, extra, Prior(old(items), |old(items)|))
                          && r.value.createdAt == now
      ensures r.None? ==>
        var event := Event(actor, action, reason, evidenceVersion, extra, Prior(old(items), |old(items)|));
        items == old(items) && exists i :: 0 <= i < |items| && items[i].hash == digest(event) && items[i].event != event
      ensures r.Some? ==> r.value.hash !in HashesOf(old(items))
    {
      var prior := if items == [] then None else Some(items[|items| - 1].hash);
      var event := Event(actor, action, reason, evidenceVersion, extra, prior);
      var hash := digest(event);
      if exists i :: 0 <= i < |items| && items[i].hash == hash {
        RepeatIsCollision(items, Item(|items| + 1, event, hash, now), digest);
        return None;
      }
      var item := Item(|items| + 1, event, hash, now);
      ChainExtends(items, item, digest);
      items := items + [item];
      return Some(item);
    }

    method Export() returns (events: seq<Item>)
      requires Valid()
      ensures events == items && Chained(events, digest) && HashesDistinct(events)
    {
      events := items;
    }
  }

  /** Accepts exactly the chained logs. */
  method Verify(events: seq<Item>, digest: Event -> Hash) returns (ok: bool)
    ensures ok <==> Chained(events, digest)
  {
    var prior: Option<Hash> := None;
    for i := 0 to |events|
      invariant prior == Prior(events, i)
      invariant forall k :: 0 <= k < i ==> Linked(events, k, digest)
    {
      var event := events[i].event;
      if event.priorHash != prior { assert !Linked(events, i, digest); return false; }
      var hash := digest(event);
      if hash != events[i].hash { assert !Linked(events, i, digest); return false; }
      prior := Some(hash);
    }
    return true;
  }

  lemma ChainExtends(items: seq<Item>, item: Item, digest: Event -> Hash)
    requires Chained(items, digest)
    requires item.event.priorHash == Prior(items, |items|) && item.hash == digest(item.event)
    ensures Chained(items + [item], digest)
  {
    var longer := items + [item];
    forall i | 0 <= i < |longer| ensures Linked(longer, i, digest) {
      if i < |items| { assert Linked(items, i, digest); }
    }
  }

  function HashesOf(items: seq<Item>): set<Hash> {
    set i | 0 <= i < |items| :: items[i].hash
  }

  // ---- what a verified log proves ------------------------------------------------

  /** The logs have the same events and hashes up to position `n`. */
  predicate Agree(a: seq<Item>, b: seq<Item>, n: nat)
    requires n <= |a| && n <= |b|
  {
    forall j :: 0 <= j < n ==> a[j].event == b[j].event && a[j].hash == b[j].hash
  }

  /** Equal hashes mean equal positions and equal histories, in one log or in two, or a collision. */
  lemma {:induction false} EqualHashesMeanEqualPasts(a: seq<Item>, b: seq<Item>, digest: Event -> Hash, i: nat, k: nat)
    requires Chained(a, digest) && Chained(b, digest)
    requires i < |a| && k < |b| && a[i].hash == b[k].hash
    ensures Collide(a, b) || (i == k && Agree(a, b, i + 1))
    decreases i
  {
    assert Linked(a, i, digest) && Linked(b, k, digest);
    if a[i].event == b[k].event && i > 0 && k > 0 { EqualHashesMeanEqualPasts(a, b, digest, i - 1, k - 1); }
  }

  /** The hashes of a verified log are pairwise distinct, unless two of its events collide. */
  lemma ChainedHashesDiffer(items: seq<Item>, digest: Event -> Hash)
    requires Chained(items, digest)
    ensures HashesDistinct(items) || Collide(items, items)
  {
    if i, k :| 0 <= i < k < |items| && items[i].hash == items[k].hash {
      EqualHashesMeanEqualPasts(items, items, digest, i, k);
    }
  }

  /** A hash that is in the log already belongs to a different event. */
  lemma RepeatIsCollision(items: seq<Item>, item: Item, digest: Event -> Hash)
    requires Chained(items, digest) && HashesDistinct(items)
    requires item.event.priorHash == Prior(items, |items|) && item.hash == digest(item.event)
    requires exists i :: 0 <= i < |items| && items[i].hash == item.hash
    ensures exists i :: 0 <= i < |items| && items[i].hash == item.hash && items[i].event != item.event
  {
    var i :| 0 <= i < |items| && items[i].hash == item.hash;
    assert Linked(items, i, digest);
    assert items[i].event.priorHash == Prior(items, i);
  }

  /** Main theorem. Two logs that verify and end in the same hash have the same length and the same events
      at every position, or two different events of theirs have the same hash. No assumption is made about
      the hash function. */
  lemma LastHashFixesTheLog(a: seq<Item>, b: seq<Item>, digest: Event -> Hash)
    requires Chained(a, digest) && Chained(b, digest) && a != [] && b != []
    requires a[|a| - 1].hash == b[|b| - 1].hash
    ensures Collide(a, b) || (|a| == |b| && Agree(a, b, |a|))
  {
    EqualHashesMeanEqualPasts(a, b, digest, |a| - 1, |b| - 1);
  }

  /** So a log that was altered in any event, and still verifies, can keep its last hash only by a collision. */
  lemma AlterationShows(a: seq<Item>, b: seq<Item>, digest: Event -> Hash, i: nat)
    requires Chained(a, digest) && Chained(b, digest) && !Collide(a, b)
    requires i < |a| && (i >= |b| || a[i].event != b[i].event) && b != []
    ensures a[|a| - 1].hash != b[|b| - 1].hash
  {
    if a[|a| - 1].hash == b[|b| - 1].hash { LastHashFixesTheLog(a, b, digest); }
  }

  /** What verification alone cannot see: a log cut off after `n` events verifies as well, and dates and
      sequence numbers are outside the hash. */
  lemma CutsAndDatesGoUnseen(items: seq<Item>, digest: Event -> Hash, n: nat, other: seq<Item>)
    requires Chained(items, digest) && n <= |items| == |other|
    requires forall i :: 0 <= i < |items| ==> other[i].event == items[i].event && other[i].hash == items[i].hash
    ensures Chained(items[..n], digest) && Chained(other, digest)
  {
    forall i | 0 <= i < n ensures Linked(items[..n], i, digest) { assert Linked(items, i, digest); }
    forall i | 0 <= i < |other| ensures Linked(other, i, digest) { assert Linked(items, i, digest); }
  }
}
