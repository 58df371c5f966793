/** lease_reaper.py: one reap pass, drained in batches. */
module Reaper {
  import opened Prelude
  import opened Jobs
  import opened LeaseModel
  import opened PriorityQueue

  class LeaseReaper {
    const queue: RedisPriorityQueue
    const batch: int

    constructor (queue: RedisPriorityQueue, batch: int)
      ensures this.queue == queue && this.batch == batch
    {
      this.queue := queue;
      this.batch := batch;
    }

    /** clock(i) is the time the i-th script of the pass reads. Without interference the pass
        ends, leaves no lease that had expired when it began, takes none that has not expired,
        and returns by how much the number of leases fell. */
    method ReapOnce(clock: nat -> Micros) returns (total: nat, ghost batches: seq<seq<JobId>>)
      requires queue.Valid()
      requires batch >= 1
      requires forall i: nat, j: nat | i <= j :: clock(i) <= clock(j)
      modifies queue
      ensures queue.Valid()
      ensures IsPass(old(queue.State()), clock, batch, batches)
      ensures queue.State() == Reaped(old(queue.State()), Flat(batches))
      ensures forall id | id in Flat(batches) ::
        id in old(queue.processing) && ExpiredBySome(old(queue.processing)[id], clock)
      ensures forall id | id in queue.processing :: queue.processing[id] > clock(0)
      ensures total == |Flat(batches)| == |old(queue.processing)| - |queue.processing|
    {
      total, batches := 0, [];
      ghost var before := queue.State();
      var i: nat := 0;
      assert Taken(before, clock, batches, total) && AreBatches(before, clock, batch, batches);
      hide Reaped, IsExpiredBatch, WellFormed, AreBatches, ExpiredBySome, Flat;
      while true
        invariant queue.Valid() && WellFormed(before) && i == |batches|
        invariant Taken(before, clock, batches, total)
        invariant AreBatches(before, clock, batch, batches) && AllFull(batches, batch)
        decreases |queue.processing|
      {
        ghost var ids;
        var n;
        n, ids := PassOver(clock(i), before, clock, batches, total);
        total := total + n;
        OneBatchMore(before, clock, batch, batches, ids);
        ghost var sofar := batches;
        batches := batches + [ids];
        if n < batch {
          assert clock(0) <= clock(i);
          assert batches[..|sofar|] == sofar;
          break;
        }
        i := i + 1;
      }
    }

    /** The pass has taken these batches so far. */
    ghost predicate Taken(before: Store, clock: nat -> Micros, batches: seq<seq<JobId>>, total: nat)
      reads queue
    {
      && queue.State() == Reaped(before, Flat(batches))
      && total == |Flat(batches)| == |before.processing| - |queue.processing|
      && forall id | id in Flat(batches) :: id in before.processing && ExpiredBySome(before.processing[id], clock)
    }

    /** One batch of a pass that has already taken some leases back. */
    method PassOver(now: Micros, ghost before: Store, ghost clock: nat -> Micros, ghost batches: seq<seq<JobId>>, total: nat)
      returns (n: nat, ghost ids: seq<JobId>)
      requires queue.Valid() && WellFormed(before) && Taken(before, clock, batches, total) && now == clock(|batches|)
      modifies queue
      ensures queue.Valid() && Taken(before, clock, batches + [ids], total + n)
      ensures n == |ids| && |queue.processing| == |old(queue.processing)| - n
      ensures IsExpiredBatch(Reaped(before, Flat(batches)).processing, now, batch, ids)
      ensures n < batch ==> forall id | id in queue.processing :: queue.processing[id] > now
    {
      ghost var prior := queue.State();
      n, ids := queue.ReapExpired(now, batch);
      FlatMore(batches, ids);
      ReapedTwice(before, Flat(batches), ids);
      AllWereThere(before, clock, Flat(batches), ids, |batches|, batch);
      ReapMovesLeasesToTheQueue(prior, ids);
    }
  }

  lemma AllWereThere(before: Store, clock: nat -> Micros, taken: seq<JobId>, ids: seq<JobId>, i: nat, limit: int)
    requires WellFormed(before) && IsExpiredBatch(Reaped(before, taken).processing, clock(i), limit, ids)
    ensures forall id | id in ids :: id in before.processing && ExpiredBySome(before.processing[id], clock)
  {
    ReapMovesLeasesToTheQueue(before, taken);
    forall id | id in ids ensures id in before.processing && ExpiredBySome(before.processing[id], clock) {
      assert before.processing[id] <= clock(i);
    }
  }

  ghost predicate ExpiredBySome(deadline: Micros, clock: nat -> Micros) {
    exists i: nat :: deadline <= clock(i)
  }

  // ---------------------------------------------------------------- batches

  /** The ids of all batches, in order. */
  function Flat(batches: seq<seq<JobId>>): seq<JobId> {
    if batches == [] then [] else Flat(batches[..|batches| - 1]) + batches[|batches| - 1]
  }

  /** Each batch is what a script found at its time, after the batches before it. */
  ghost predicate AreBatches(s: Store, clock: nat -> Micros, limit: int, batches: seq<seq<JobId>>) {
    batches == [] ||
    var k := |batches| - 1;
    && AreBatches(s, clock, limit, batches[..k])
    && IsExpiredBatch(Reaped(s, Flat(batches[..k])).processing, clock(k), limit, batches[k])
  }

  ghost predicate AllFull(batches: seq<seq<JobId>>, limit: int) {
    forall ids | ids in batches :: |ids| >= limit
  }

  /** A whole pass: only its last batch is short. */
  ghost predicate IsPass(s: Store, clock: nat -> Micros, limit: int, batches: seq<seq<JobId>>) {
    && batches != [] && AreBatches(s, clock, limit, batches)
    && AllFull(batches[..|batches| - 1], limit) && |batches[|batches| - 1]| < limit
  }

  lemma FlatMore(batches: seq<seq<JobId>>, ids: seq<JobId>)
    ensures Flat(batches + [ids]) == Flat(batches) + ids
  {
    assert (batches + [ids])[..|batches|] == batches;
  }

  lemma OneBatchMore(s: Store, clock: nat -> Micros, limit: int, batches: seq<seq<JobId>>, ids: seq<JobId>)
    requires AreBatches(s, clock, limit, batches)
    requires IsExpiredBatch(Reaped(s, Flat(batches)).processing, clock(|batches|), limit, ids)
    ensures AreBatches(s, clock, limit, batches + [ids])
  {
    hide IsExpiredBatch, Reaped;
    assert (batches + [ids])[..|batches|] == batches;
  }
}
