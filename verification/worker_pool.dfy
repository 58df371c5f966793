/** worker_pool.py: one pass of the heartbeat monitor, and the renewal of leases. */
module WorkerPools {
  import opened Prelude
  import opened Jobs
  import opened LeaseModel
  import opened PriorityQueue
  import opened Retries
  import opened Workers
  import opened System

  /** What the monitor reads of one worker. */
  datatype Seen = Seen(heartbeat: Micros, job: Option<Job>)

  function Reset(job: Job): Job {
    job.(status := Pending)
  }

  /** The requeue calls of one pass, in the order of the list. */
  function AfterCheck(s: Store, seen: seq<Seen>, now: Micros): Store {
    if seen == [] then s
    else
      var k := |seen| - 1;
      var t := AfterCheck(s, seen[..k], now);
      if IsStale(seen[k].heartbeat, now) && seen[k].job.Some? then Requeued(t, Reset(seen[k].job.value)) else t
  }

  function StaleCount(seen: seq<Seen>, now: Micros): nat {
    if seen == [] then 0
    else StaleCount(seen[..|seen| - 1], now) + (if IsStale(seen[|seen| - 1].heartbeat, now) then 1 else 0)
  }

  lemma {:induction false} StaleCountIs(seen: seq<Seen>, now: Micros)
    ensures StaleCount(seen, now) == |set i | 0 <= i < |seen| && now - seen[i].heartbeat > 10_000_000|
  {
    var all := set i | 0 <= i < |seen| && now - seen[i].heartbeat > 10_000_000;
    if seen == [] {
      assert all == {};
    } else {
      var k := |seen| - 1;
      var before := set i | 0 <= i < k && now - seen[..k][i].heartbeat > 10_000_000;
      StaleCountIs(seen[..k], now);
      assert all == before + (if now - seen[k].heartbeat > 10_000_000 then {k} else {});
    }
  }

  class WorkerPool {
    var workers: seq<Workers.Worker>
    const queue: RedisPriorityQueue
    const retryManager: RetryManager

    constructor (queue: RedisPriorityQueue, retryManager: RetryManager)
      ensures this.queue == queue && this.retryManager == retryManager && workers == []
    {
      this.queue := queue;
      this.retryManager := retryManager;
      workers := [];
    }

    /** What the monitor finds when the pass begins. */
    ghost predicate Sees(seen: seq<Seen>)
      reads this, workers, set w | w in workers && w.current != null :: w.current
    {
      && |seen| == |workers|
      && forall i | 0 <= i < |workers| ::
           && seen[i].heartbeat == workers[i].lastHeartbeat
           && seen[i].job == if workers[i].current == null then None else Some(workers[i].current.rec)
    }

    /** Each worker is its own thread and holds its own Job object. */
    ghost predicate Separate()
      reads this, workers
    {
      forall i, j | 0 <= i < |workers| && 0 <= j < |workers| && i != j ::
        && workers[i] != workers[j]
        && (workers[i].current != null ==> workers[i].current != workers[j].current)
    }

    /** One pass: exactly the workers silent for more than ten seconds are stopped and replaced,
        each at its own index, the others are left alone, and the store is as after requeueing the stale workers' jobs. */
    method CheckOnce(now: Micros, ghost seen: seq<Seen>) returns (replaced: nat)
      requires queue.Valid() && Separate() && Sees(seen)
      modifies this`workers, queue, workers, set w | w in workers && w.current != null :: w.current
      ensures queue.Valid()
      ensures queue.State() == AfterCheck(old(queue.State()), seen, now)
      ensures replaced == |set i | 0 <= i < |seen| && now - seen[i].heartbeat > 10_000_000|
      ensures |workers| == |seen|
      ensures forall i | 0 <= i < |seen| && now - seen[i].heartbeat > 10_000_000 ::
        && fresh(workers[i]) && !old(workers)[i].running
        && workers[i].running && workers[i].current == null && workers[i].lastHeartbeat == now
      ensures forall i | 0 <= i < |seen| && now - seen[i].heartbeat <= 10_000_000 ::
        workers[i] == old(workers)[i] && unchanged(old(workers)[i])
    {
      replaced := 0;
      ghost var before := workers;
      for i := 0 to |workers|
        invariant |workers| == |before| && queue.Valid()
        invariant queue.State() == AfterCheck(old(queue.State()), seen[..i], now)
        invariant replaced == StaleCount(seen[..i], now)
        invariant forall k | i <= k < |before| :: workers[k] == before[k]
        invariant forall k | 0 <= k < |before| && (k >= i || !IsStale(seen[k].heartbeat, now)) :: unchanged(before[k])
        invariant forall k | i <= k < |before| && before[k].current != null :: unchanged(before[k].current)
        invariant forall k | 0 <= k < i && IsStale(seen[k].heartbeat, now) ::
          && fresh(workers[k]) && !before[k].running
          && workers[k].running && workers[k].current == null && workers[k].lastHeartbeat == now
        invariant forall k | 0 <= k < i && !IsStale(seen[k].heartbeat, now) :: workers[k] == before[k]
      {
        assert seen[..i + 1][..i] == seen[..i];
        if IsStale(workers[i].lastHeartbeat, now) {
          Replace(i, now);
          replaced := replaced + 1;
        }
      }
      assert seen[..|seen|] == seen;
      StaleCountIs(seen, now);
    }

    /** Requeues the job of one stale worker, if its lease is still held, stops the worker and
        puts a new one in its place. */
    method Replace(i: nat, now: Micros)
      requires queue.Valid() && i < |workers|
      modifies this`workers, queue, workers[i], workers[i].current
      ensures queue.Valid()
      ensures old(workers[i].current) == null ==> queue.State() == old(queue.State())
      ensures old(workers[i].current) != null ==>
        queue.State() == Requeued(old(queue.State()), Reset(old(workers[i].current.rec)))
      ensures !old(workers[i]).running
      ensures old(workers[i].current) != null ==>
        old(workers[i].current).rec == old(workers[i].current.rec).(status := Pending)
      ensures |workers| == |old(workers)| && fresh(workers[i]) && workers == old(workers)[i := workers[i]]
      ensures workers[i].running && workers[i].current == null && workers[i].lastHeartbeat == now
    {
      var worker := workers[i];
      var stalled := worker.current;
      if stalled != null {
        stalled.rec := stalled.rec.(status := Pending);
        var held := queue.Requeue(stalled.rec);
      }
      worker.Stop();
      var replacement := new Workers.Worker(queue, retryManager, now);
      workers := workers[i := replacement];
    }

    /** Extends the lease of every job a worker of the pool is running. */
    method RenewLeases(now: Micros) returns (n: nat, ghost ids: set<JobId>)
      requires queue.Valid()
      modifies queue
      ensures queue.Valid()
      ensures ids == set w | w in workers && w.current != null :: w.current.rec.id
      ensures queue.processing.Keys == old(queue.processing.Keys)
      ensures forall id | id in queue.processing ::
        queue.processing[id] == if id in ids then now + queue.leaseSeconds else old(queue.processing)[id]
      ensures queue.State() == Renewed(old(queue.State()), ids, now + queue.leaseSeconds)
      ensures n == |Extended(old(queue.State()), ids, now + queue.leaseSeconds)|
    {
      var running: seq<JobId> := [];
      for i := 0 to |workers|
        invariant forall id :: id in running <==> exists k | 0 <= k < i :: workers[k].current != null && workers[k].current.rec.id == id
      {
        var job := workers[i].current;
        if job != null {
          running := running + [job.rec.id];
        }
      }
      ids := set w | w in workers && w.current != null :: w.current.rec.id;
      assert Elements(running) == ids;
      if running == [] {
        assert queue.State() == Renewed(queue.State(), ids, now + queue.leaseSeconds);
        assert Extended(queue.State(), ids, now + queue.leaseSeconds) == {};
        return 0, ids;
      }
      n := queue.Renew(now, running);
    }
  }

  // ---------------------------------------------------------------- what a pass means

  /** The index is the first stale worker of the pass that holds this job id. */
  ghost predicate FirstHolder(seen: seq<Seen>, now: Micros, i: nat, id: JobId) {
    && HoldsStale(seen, now, i, id)
    && forall j | 0 <= j < i :: !HoldsStale(seen, now, j, id)
  }

  ghost predicate HoldsStale(seen: seq<Seen>, now: Micros, i: nat, id: JobId) {
    i < |seen| && now - seen[i].heartbeat > 10_000_000 && seen[i].job.Some? && seen[i].job.value.id == id
  }

  ghost predicate HeldByStale(seen: seq<Seen>, now: Micros, id: JobId) {
    exists i: nat :: HoldsStale(seen, now, i, id)
  }

  /** What a pass over these workers makes of the leases, and of the queue. */
  ghost predicate LeasesAfterPass(s: Store, seen: seq<Seen>, now: Micros, t: Store) {
    && WellFormed(t)
    && (forall id :: id in t.processing <==> id in s.processing && !HeldByStale(seen, now, id))
    && (forall id | id in t.processing :: t.processing[id] == s.processing[id])
  }

  ghost predicate QueueAfterPass(s: Store, seen: seq<Seen>, now: Micros, t: Store) {
    && (forall m | m in s.queue :: m in t.queue)
    && (forall i: nat, id | FirstHolder(seen, now, i, id) && id in s.processing :: Reset(seen[i].job.value) in t.queue)
    && (forall m | m in t.queue && m !in s.queue :: m.id in s.processing && AddedBy(seen, now, m))
  }

  /** The record is that of the first stale worker of the pass that holds its id. */
  ghost predicate AddedBy(seen: seq<Seen>, now: Micros, m: Job) {
    exists i: nat :: FirstHolder(seen, now, i, m.id) && Reset(seen[i].job.value) == m
  }

  lemma HoldersBefore(seen: seq<Seen>, now: Micros, k: nat)
    requires |seen| == k + 1
    ensures forall i: nat, id :: HoldsStale(seen[..k], now, i, id) <==> i < k && HoldsStale(seen, now, i, id)
    ensures forall i: nat, id :: FirstHolder(seen[..k], now, i, id) <==> i < k && FirstHolder(seen, now, i, id)
    ensures forall id :: HeldByStale(seen, now, id) <==> HeldByStale(seen[..k], now, id) || HoldsStale(seen, now, k, id)
    ensures forall id :: FirstHolder(seen, now, k, id) <==> HoldsStale(seen, now, k, id) && !HeldByStale(seen[..k], now, id)
  {
  }

  lemma AddedStays(seen: seq<Seen>, now: Micros, k: nat)
    requires |seen| == k + 1
    ensures forall m | AddedBy(seen[..k], now, m) :: AddedBy(seen, now, m)
    ensures forall i: nat, id | FirstHolder(seen[..k], now, i, id) :: i < k && seen[..k][i] == seen[i]
  {
  }

  /** The requeue call of one stale worker's job, after the pass has seen the ones before. */
  lemma HolderChangesLeases(s: Store, seen: seq<Seen>, now: Micros, k: nat, t0: Store)
    requires WellFormed(s) && |seen| == k + 1 && LeasesAfterPass(s, seen[..k], now, t0)
    requires IsStale(seen[k].heartbeat, now) && seen[k].job.Some?
    ensures LeasesAfterPass(s, seen, now, Requeued(t0, Reset(seen[k].job.value)))
    ensures seen[k].job.value.id in t0.processing <==>
      seen[k].job.value.id in s.processing && FirstHolder(seen, now, k, seen[k].job.value.id)
  {
    hide HoldsStale, FirstHolder, HeldByStale, WellFormed, IsStale, Scored;
    HoldersBefore(seen, now, k);
    HolderOf(seen, now, k);
    RequeueIsClean(t0, Reset(seen[k].job.value));
  }

  /** Every first holder's record is there: those seen before, and this one. */
  lemma FirstHoldersAreAdded(s: Store, seen: seq<Seen>, now: Micros, k: nat, q0: map<Job, int>, q: map<Job, int>)
    requires |seen| == k + 1 && (forall m | m in q0 :: m in q)
    requires forall i: nat, id | FirstHolder(seen[..k], now, i, id) && id in s.processing :: Reset(seen[..k][i].job.value) in q0
    requires forall id | FirstHolder(seen, now, k, id) && id in s.processing :: Reset(seen[k].job.value) in q
    ensures forall i: nat, id | FirstHolder(seen, now, i, id) && id in s.processing :: Reset(seen[i].job.value) in q
  {
    HoldersBefore(seen, now, k);
    forall i: nat, id | FirstHolder(seen, now, i, id) && id in s.processing ensures Reset(seen[i].job.value) in q {
      if i != k {
        assert FirstHolder(seen[..k], now, i, id) && seen[..k][i] == seen[i];
      }
    }
  }

  lemma HolderChangesQueue(s: Store, seen: seq<Seen>, now: Micros, k: nat, t0: Store)
    requires |seen| == k + 1 && QueueAfterPass(s, seen[..k], now, t0)
    requires IsStale(seen[k].heartbeat, now) && seen[k].job.Some?
    requires var id := seen[k].job.value.id;
      id in t0.processing <==> id in s.processing && FirstHolder(seen, now, k, id)
    ensures QueueAfterPass(s, seen, now, Requeued(t0, Reset(seen[k].job.value)))
  {
    hide IsStale, HoldsStale, FirstHolder, AddedBy, Requeued;
    var id0, m0 := seen[k].job.value.id, Reset(seen[k].job.value);
    RequeuedQueue(t0, m0);
    AddedStays(seen, now, k);
    ThisHolderAdds(seen, now, k);
    FirstHoldersAreAdded(s, seen, now, k, t0.queue, Requeued(t0, m0).queue);
  }

  lemma RequeuedQueue(s: Store, job: Job)
    ensures var q := Requeued(s, job).queue;
      && (forall m | m in q :: m in s.queue || (m == job && job.id in s.processing))
      && (forall m | m in s.queue :: m in q)
      && (job.id in s.processing ==> job in q)
  {
  }

  lemma ThisHolderAdds(seen: seq<Seen>, now: Micros, k: nat)
    requires |seen| == k + 1 && seen[k].job.Some?
    ensures FirstHolder(seen, now, k, seen[k].job.value.id) ==> AddedBy(seen, now, Reset(seen[k].job.value))
    ensures forall id | FirstHolder(seen, now, k, id) :: id == seen[k].job.value.id
  {
    HolderOf(seen, now, k);
  }

  /** A worker that is not stale, or holds no job, changes nothing. */
  lemma BystanderChangesNothing(s: Store, seen: seq<Seen>, now: Micros, k: nat, t: Store)
    requires |seen| == k + 1 && LeasesAfterPass(s, seen[..k], now, t) && QueueAfterPass(s, seen[..k], now, t)
    requires !IsStale(seen[k].heartbeat, now) || seen[k].job.None?
    ensures LeasesAfterPass(s, seen, now, t) && QueueAfterPass(s, seen, now, t)
  {
    HoldersBefore(seen, now, k);
    HolderOf(seen, now, k);
    AddedStays(seen, now, k);
    forall i: nat, id | FirstHolder(seen, now, i, id) ensures FirstHolder(seen[..k], now, i, id) && i < k && seen[..k][i] == seen[i] {
      assert !HoldsStale(seen, now, k, id);
    }
    hide HoldsStale, FirstHolder, HeldByStale, WellFormed, AddedBy;
  }

  lemma HolderOf(seen: seq<Seen>, now: Micros, k: nat)
    requires k < |seen|
    ensures forall id :: HoldsStale(seen, now, k, id) <==>
      IsStale(seen[k].heartbeat, now) && seen[k].job.Some? && seen[k].job.value.id == id
  {
  }

  /** After a pass, the lease of an id that stale workers held is gone, other leases are
      untouched, and for each such id whose lease was live exactly one record has been added to
      the queue, the first holder's, however many stale workers held the id; for an id whose
      lease was already lost nothing is added. */
  lemma {:induction false} MonitorPassIsExact(s: Store, seen: seq<Seen>, now: Micros)
    requires WellFormed(s)
    ensures LeasesAfterPass(s, seen, now, AfterCheck(s, seen, now)) && QueueAfterPass(s, seen, now, AfterCheck(s, seen, now))
  {
    if seen != [] {
      var k := |seen| - 1;
      MonitorPassIsExact(s, seen[..k], now);
      if IsStale(seen[k].heartbeat, now) && seen[k].job.Some? {
        HolderChangesLeases(s, seen, now, k, AfterCheck(s, seen[..k], now));
        HolderChangesQueue(s, seen, now, k, AfterCheck(s, seen[..k], now));
      } else {
        BystanderChangesNothing(s, seen, now, k, AfterCheck(s, seen[..k], now));
      }
    }
  }
}
