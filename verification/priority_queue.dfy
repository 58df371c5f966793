/** priority_queue.py: the queue and its leases, updated in place by one method per script. */
module PriorityQueue {
  import opened Prelude
  import opened Jobs
  import opened LeaseModel

  class RedisPriorityQueue {
    var queue: map<Job, int>
    var processing: map<JobId, Micros>
    var payload: map<JobId, Job>
    var leaseScore: map<JobId, int>
    const leaseSeconds: Micros

    ghost function State(): Store
      reads this
    {
      Store(queue, processing, payload, leaseScore)
    }

    ghost predicate Valid()
      reads this
    {
      WellFormed(State())
    }

    constructor (leaseSeconds: Micros)
      ensures Valid() && State() == EMPTY_STORE && this.leaseSeconds == leaseSeconds
    {
      queue, processing, payload, leaseScore := map[], map[], map[], map[];
      this.leaseSeconds := leaseSeconds;
    }

    method Push(job: Job)
      requires Valid()
      modifies this
      ensures Valid() && State() == Pushed(old(State()), job)
      ensures queue == old(queue)[job := Score(job)] && processing == old(processing) && payload == old(payload)
    {
      queue := queue[job := Score(job)];
    }

    /** ZPOPMAX, without the removal. */
    method MaxMember() returns (popped: Option<Job>)
      ensures CanPop(queue, popped)
    {
      if queue == map[] {
        return None;
      }
      var best :| best in queue;
      var rest := queue.Keys - {best};
      while rest != {}
        invariant best in queue && rest <= queue.Keys
        invariant forall other | other in queue && other !in rest :: queue[other] <= queue[best]
        decreases rest
      {
        var m :| m in rest;
        rest := rest - {m};
        if queue[m] > queue[best] {
          best := m;
        }
      }
      popped := Some(best);
    }

    /** The part the two popping scripts share: the member leaves the queue and is leased. */
    method Lease(m: Job, deadline: Micros)
      requires Valid() && IsMax(queue, m)
      modifies this
      ensures Valid() && State() == Popped(old(State()), Some(m), deadline)
    {
      var sc := queue[m];
      queue := queue - {m};
      processing := processing[m.id := deadline];
      payload := payload[m.id := m];
      leaseScore := leaseScore[m.id := sc];
    }

    method Pop(now: Micros) returns (job: Option<Job>)
      requires Valid()
      modifies this
      ensures Valid()
      ensures CanPop(old(queue), job)
      ensures job.None? <==> old(queue) == map[]
      ensures job.Some? ==> job.value in old(queue) && forall m | m in old(queue) :: old(queue)[m] <= old(queue)[job.value]
      ensures State() == Popped(old(State()), job, now + leaseSeconds)
      ensures queue == if job.None? then old(queue) else old(queue) - {job.value}
      ensures job.Some? ==> LeasedAs(State(), job.value, now + leaseSeconds, old(queue)[job.value])
      ensures forall id | job.None? || id != job.value.id :: SameLease(old(State()), State(), id)
    {
      job := MaxMember();
      if job.Some? {
        Lease(job.value, now + leaseSeconds);
      }
    }

    /** One script for the acknowledgement and the next lease. */
    method Take(now: Micros, ack: Option<Job>) returns (acked: Option<bool>, job: Option<Job>)
      requires Valid()
      modifies this
      ensures Valid()
      ensures CanPop(old(queue), job)
      ensures job.None? <==> old(queue) == map[]
      ensures job.Some? ==> job.value in old(queue) && forall m | m in old(queue) :: old(queue)[m] <= old(queue)[job.value]
      ensures State() == Taken(old(State()), IdOf(ack), job, now + leaseSeconds)
      ensures queue == if job.None? then old(queue) else old(queue) - {job.value}
      ensures job.Some? ==> LeasedAs(State(), job.value, now + leaseSeconds, old(queue)[job.value])
      ensures ack.Some? && (job.None? || ack.value.id != job.value.id) ==> ack.value.id !in processing
      ensures forall id | (job.None? || id != job.value.id) && (ack.None? || id != ack.value.id) ::
        SameLease(old(State()), State(), id)
      ensures acked == if ack.Some? then Some(ack.value.id in old(processing)) else None
    {
      acked := None;
      ghost var before := State();
      if ack.Some? {
        var id := ack.value.id;
        acked := Some(id in processing);
        processing := processing - {id};
        payload := payload - {id};
        leaseScore := leaseScore - {id};
      }
      job := MaxMember();
      assert CanPop(before.queue, job);
      if job.Some? {
        Lease(job.value, now + leaseSeconds);
      }
      assert State() == Taken(before, IdOf(ack), job, now + leaseSeconds);
      hide Taken, LeasedAs, SameLease, WellFormed;
      WhatTakenIs(before, IdOf(ack), job, now + leaseSeconds);
    }

    method Ack(job: Job) returns (held: bool)
      requires Valid()
      modifies this
      ensures Valid() && State() == Released(old(State()), job.id)
      ensures held <==> job.id in old(processing)
      ensures queue == old(queue) && job.id !in processing && forall id | id != job.id :: SameLease(old(State()), State(), id)
    {
      held := job.id in processing;
      processing := processing - {job.id};
      payload := payload - {job.id};
      leaseScore := leaseScore - {job.id};
    }

    method Requeue(job: Job) returns (held: bool)
      requires Valid()
      modifies this
      ensures Valid() && State() == Requeued(old(State()), job)
      ensures held <==> job.id in old(processing)
      ensures queue == if held then old(queue)[job := Score(job)] else old(queue)
      ensures job.id !in processing && forall id | id != job.id :: SameLease(old(State()), State(), id)
    {
      held := job.id in processing;
      if !held {
        return;
      }
      processing := processing - {job.id};
      payload := payload - {job.id};
      leaseScore := leaseScore - {job.id};
      queue := queue[job := Score(job)];
    }

    /** ZADD XX CH for one id. */
    method Extend(id: JobId, deadline: Micros) returns (changed: bool)
      modifies this`processing
      ensures changed <==> id in old(processing) && old(processing)[id] != deadline
      ensures processing == if changed then old(processing)[id := deadline] else old(processing)
    {
      changed := id in processing && processing[id] != deadline;
      if changed {
        processing := processing[id := deadline];
      }
    }

    /** Extends one id at a time; reports how many deadlines moved. */
    method Renew(now: Micros, ids: seq<JobId>) returns (n: nat)
      requires Valid()
      modifies this
      ensures Valid()
      ensures State() == Renewed(old(State()), Elements(ids), now + leaseSeconds)
      ensures n == |Extended(old(State()), Elements(ids), now + leaseSeconds)|
      ensures n == |set id | id in old(processing) && id in ids && old(processing)[id] != now + leaseSeconds|
      ensures processing.Keys == old(processing.Keys)
      ensures forall id | id in processing :: processing[id] == if id in ids then now + leaseSeconds else old(processing)[id]
    {
      n := 0;
      ghost var before := State();
      var deadline := now + leaseSeconds;
      NothingExtended(before, deadline);
      for i := 0 to |ids|
        invariant State() == Renewed(before, Elements(ids[..i]), deadline)
        invariant n == |Extended(before, Elements(ids[..i]), deadline)|
      {
        hide Renewed, Extended, Elements;
        var changed := Extend(ids[i], deadline);
        ExtendedByOne(before, ids, i, deadline);
        if changed {
          n := n + 1;
        }
      }
      assert ids[..|ids|] == ids;
      assert Extended(before, Elements(ids), deadline) ==
        set id | id in before.processing && id in ids && before.processing[id] != deadline;
    }

    method Earliest(candidates: set<JobId>) returns (id: JobId)
      requires candidates != {} && candidates <= processing.Keys
      ensures id in candidates && forall other | other in candidates :: processing[id] <= processing[other]
    {
      id :| id in candidates;
      var rest := candidates - {id};
      while rest != {}
        invariant id in candidates && rest <= candidates
        invariant forall other | other in candidates && other !in rest :: processing[id] <= processing[other]
        decreases rest
      {
        var next :| next in rest;
        rest := rest - {next};
        if processing[next] < processing[id] {
          id := next;
        }
      }
    }

    /** ZRANGEBYSCORE -inf now LIMIT 0 limit; a negative limit means all of them. */
    method ExpiredBatch(now: Micros, limit: int) returns (ids: seq<JobId>)
      ensures IsExpiredBatch(processing, now, limit, ids)
      ensures forall i, j | 0 <= i < j < |ids| :: ids[i] != ids[j] && processing[ids[i]] <= processing[ids[j]]
      ensures forall id | id in ids :: id in processing && processing[id] <= now
      ensures forall id, other | id in ids && other in processing && other !in ids :: processing[id] <= processing[other]
      ensures limit >= 0 ==> |ids| <= limit
      ensures |ids| == limit || forall id | id in processing && processing[id] <= now :: id in ids
    {
      ids := [];
      var rest := set id | id in processing && processing[id] <= now;
      while |ids| != limit && rest != {}
        invariant rest == set id | id in processing && processing[id] <= now && id !in ids
        invariant Distinct(ids) && forall id | id in ids :: id in processing && processing[id] <= now
        invariant forall i, j | 0 <= i < j < |ids| :: processing[ids[i]] <= processing[ids[j]]
        invariant forall id, other | id in ids && other in rest :: processing[id] <= processing[other]
        invariant limit >= 0 ==> |ids| <= limit
        decreases rest
      {
        var id := Earliest(rest);
        ids := ids + [id];
        rest := rest - {id};
      }
      assert forall other | other in processing && processing[other] <= now && other !in ids :: other in rest;
    }

    /** Takes one lease back; its payload, if there is one, goes back on the queue. */
    method TakeBack(id: JobId) returns (requeued: bool)
      modifies this
      ensures State() == ReapedOne(old(State()), id)
      ensures requeued <==> id in old(payload)
    {
      requeued := id in payload;
      if requeued {
        queue := queue[payload[id] := if id in leaseScore then leaseScore[id] else 0];
      }
      processing := processing - {id};
      payload := payload - {id};
      leaseScore := leaseScore - {id};
    }

    /** One reap script. Every id it finds has its payload, so it returns as many jobs
        as it takes leases: the branch for a missing payload never runs. */
    method ReapExpired(now: Micros, limit: int) returns (requeued: nat, ghost ids: seq<JobId>)
      requires Valid()
      modifies this
      ensures Valid()
      ensures IsExpiredBatch(old(processing), now, limit, ids)
      ensures State() == Reaped(old(State()), ids)
      ensures requeued == |ids| && |processing| == |old(processing)| - requeued
      ensures forall id | id in ids :: id !in processing && old(payload)[id] in queue
      ensures forall m | m in old(queue) :: m in queue
      ensures forall m | m in queue && m !in old(queue) :: m.id in ids && m.id in old(payload) && old(payload)[m.id] == m
      ensures forall id | id !in ids :: SameLease(old(State()), State(), id)
    {
      var batch := ExpiredBatch(now, limit);
      ids := batch;
      requeued := 0;
      ghost var before := State();
      for i := 0 to |batch|
        invariant State() == Reaped(before, batch[..i])
        invariant requeued == i
      {
        NextToReap(before, batch, i);
        hide Reaped, ReapedOne;
        var one := TakeBack(batch[i]);
        if one {
          requeued := requeued + 1;
        }
      }
      assert batch[..|batch|] == batch;
      ReapCount(before, batch);
      ReapMovesLeasesToTheQueue(before, batch);
    }

    method InFlight() returns (n: nat)
      ensures n == |processing|
    {
      n := |processing|;
    }

    method Size() returns (n: nat)
      ensures n == |queue|
    {
      n := |queue|;
    }
  }

  /** This record is leased to the deadline, with this score. */
  predicate LeasedAs(s: Store, m: Job, deadline: Micros, score: int) {
    && m.id in s.processing && s.processing[m.id] == deadline
    && m.id in s.payload && s.payload[m.id] == m
    && m.id in s.leaseScore && s.leaseScore[m.id] == score
  }

  /** Nothing is different about the lease of this id. */
  predicate SameLease(s: Store, t: Store, id: JobId) {
    && (id in t.processing <==> id in s.processing) && (id in t.payload <==> id in s.payload)
    && (id in s.processing && id in t.processing ==> t.processing[id] == s.processing[id])
    && (id in s.payload && id in t.payload ==> t.payload[id] == s.payload[id])
  }

  lemma WhatTakenIs(s: Store, ack: Option<JobId>, popped: Option<Job>, deadline: Micros)
    requires CanPop(s.queue, popped)
    ensures var t := Taken(s, ack, popped, deadline);
      && (popped.None? ==> t.queue == s.queue)
      && (popped.Some? ==> t.queue == s.queue - {popped.value} && LeasedAs(t, popped.value, deadline, s.queue[popped.value]))
      && (ack.Some? && (popped.None? || ack.value != popped.value.id) ==> ack.value !in t.processing)
      && (forall id | (popped.None? || id != popped.value.id) && ack != Some(id) :: SameLease(s, t, id))
  {
  }

  lemma NothingExtended(s: Store, deadline: Micros)
    ensures Renewed(s, Elements([]), deadline) == s && Extended(s, Elements([]), deadline) == {}
  {
    assert Renewed(s, {}, deadline).processing == s.processing;
  }

  lemma RenewedByOne(s: Store, done: set<JobId>, id: JobId, deadline: Micros)
    ensures var p, q := Renewed(s, done, deadline).processing, Renewed(s, done + {id}, deadline).processing;
      q == if id in p && p[id] != deadline then p[id := deadline] else p
  {
  }

  lemma ExtendedMore(s: Store, done: set<JobId>, id: JobId, deadline: Micros)
    ensures var p := Renewed(s, done, deadline).processing;
      |Extended(s, done + {id}, deadline)| == |Extended(s, done, deadline)| + (if id in p && p[id] != deadline then 1 else 0)
  {
    var p := Renewed(s, done, deadline).processing;
    var moved := id in p && p[id] != deadline;
    assert Extended(s, done + {id}, deadline) == Extended(s, done, deadline) + (if moved then {id} else {});
  }

  /** One id more: its deadline moves unless it is there already, or not leased. */
  lemma ExtendedByOne(s: Store, ids: seq<JobId>, i: nat, deadline: Micros)
    requires i < |ids|
    ensures var t := Renewed(s, Elements(ids[..i]), deadline); var id := ids[i];
      var moved := id in t.processing && t.processing[id] != deadline;
      && Renewed(s, Elements(ids[..i + 1]), deadline) == t.(processing := if moved then t.processing[id := deadline] else t.processing)
      && |Extended(s, Elements(ids[..i + 1]), deadline)| == |Extended(s, Elements(ids[..i]), deadline)| + (if moved then 1 else 0)
  {
    hide Elements, Extended;
    ElementsMore(ids, i);
    RenewedByOne(s, Elements(ids[..i]), ids[i], deadline);
    ExtendedMore(s, Elements(ids[..i]), ids[i], deadline);
  }

  lemma NextToReap(s: Store, batch: seq<JobId>, i: nat)
    requires WellFormed(s) && Distinct(batch) && i < |batch| && forall id | id in batch :: id in s.processing
    ensures Reaped(s, batch[..i + 1]) == ReapedOne(Reaped(s, batch[..i]), batch[i])
    ensures batch[i] in Reaped(s, batch[..i]).payload
  {
    assert batch[..i + 1][..i] == batch[..i] && batch[i] !in batch[..i];
    ReapMovesLeasesToTheQueue(s, batch[..i]);
  }
}
