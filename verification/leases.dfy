/** What every step of the system does to every lease, told by the event and the workers: nothing
    else grants a lease, moves its deadline or ends it. */
module Leases {
  import opened Prelude
  import opened Jobs
  import opened LeaseModel
  import opened System

  /** A take that pops a copy of the job and leases it. */
  ghost predicate Pops(e: Event, id: JobId) {
    (e.Take? || e.TakeLostReply?) && e.popped.Some? && e.popped.value.id == id
  }

  /** A take or an exit that carries the acknowledgement of the job and gets through. */
  ghost predicate Acknowledged(s: Sys, e: Event, id: JobId)
    requires Enabled(s, e)
  {
    (e.Take? || e.TakeLostReply? || (e.Exit? && e.landed))
    && s.workers[e.w].pending.Some? && s.workers[e.w].pending.value.id == id
  }

  /** The monitor gives back the job of a worker it replaces. */
  ghost predicate HandedBack(s: Sys, e: Event, id: JobId)
    requires Enabled(s, e)
  {
    e.Replace? && e.landed && s.workers[e.w].current.Some? && s.workers[e.w].current.value.id == id
  }

  ghost predicate InBatch(e: Event, id: JobId) {
    e.Reap? && id in e.ids
  }

  /** The worker is in the list of this pool, and runs the job. */
  predicate WorksFor(x: Worker, p: PoolId, id: JobId) {
    x.listed && x.pool == p && x.current.Some? && x.current.value.id == id
  }

  /** A monitor renews, a third of the lease and a second at least after it last tried, and a
      worker in the list of its own pool runs the job. */
  ghost predicate IsRenewed(s: Sys, e: Event, id: JobId)
    requires Enabled(s, e)
  {
    && e.MonitorPass? && e.landed
    && s.now - s.pools[e.p].lastRenew >= 1_000_000 && 3 * (s.now - s.pools[e.p].lastRenew) >= s.lease
    && exists w | w in s.workers :: WorksFor(s.workers[w], e.p, id)
  }

  function LeaseOf(s: Store, id: JobId): Option<Micros> {
    if id in s.processing then Some(s.processing[id]) else None
  }

  /** The lease after the step: a pop grants one, whatever was there; an acknowledgement, a job
      handed back and a reap end one; a renewal moves the deadline of one that is there. */
  ghost function MovedLease(s: Sys, e: Event, id: JobId): Option<Micros>
    requires Enabled(s, e)
  {
    if Pops(e, id) then Some(s.now + s.lease)
    else if Acknowledged(s, e, id) || HandedBack(s, e, id) || InBatch(e, id) then None
    else if IsRenewed(s, e, id) && id in s.store.processing then Some(s.now + s.lease)
    else LeaseOf(s.store, id)
  }

  lemma TakeMovesLease(s: Sys, e: Event, id: JobId)
    requires Enabled(s, e) && (e.Take? || e.TakeLostReply?)
    ensures LeaseOf(Apply(s, e).store, id) == MovedLease(s, e, id)
    ensures Pops(e, id) ==> id in Apply(s, e).store.payload && Apply(s, e).store.payload[id] == e.popped.value
    ensures Pops(e, id) && e.Take? ==> Apply(s, e).workers[e.w].current == Some(e.popped.value.(status := Running))
  {
    hide CanPop;
  }

  lemma GoingMovesLease(s: Sys, e: Event, id: JobId)
    requires Enabled(s, e) && (e.Exit? || e.Replace?)
    ensures LeaseOf(Apply(s, e).store, id) == MovedLease(s, e, id)
    ensures HandedBack(s, e, id) && id in s.store.processing ==>
      s.workers[e.w].current.value.(status := Pending) in Apply(s, e).store.queue
  {
  }

  lemma HeldIsRun(s: Sys, p: PoolId, id: JobId)
    ensures id in HeldBy(s, p) <==> exists w | w in s.workers :: WorksFor(s.workers[w], p, id)
  {
    if w :| w in s.workers && WorksFor(s.workers[w], p, id) {
      assert id in HeldBy(s, p);
    }
  }

  lemma PassMovesLease(s: Sys, e: Event, id: JobId)
    requires Enabled(s, e) && e.MonitorPass?
    ensures LeaseOf(Apply(s, e).store, id) == MovedLease(s, e, id)
  {
    HeldIsRun(s, e.p, id);
    hide HeldBy, WorksFor, Passed;
  }

  lemma ReapedLease(s: Store, ids: seq<JobId>, id: JobId)
    requires WellFormed(s) && forall i | i in ids :: i in s.processing
    ensures LeaseOf(Reaped(s, ids), id) == if id in ids then None else LeaseOf(s, id)
    ensures id in ids ==> id in s.payload && s.payload[id] in Reaped(s, ids).queue
  {
    ReapMovesLeasesToTheQueue(s, ids);
    hide Reaped;
  }

  lemma ReapMovesLease(s: Sys, e: Event, id: JobId)
    requires WellFormed(s.store) && Enabled(s, e) && e.Reap?
    ensures LeaseOf(Apply(s, e).store, id) == MovedLease(s, e, id)
    ensures InBatch(e, id) ==> id in s.store.payload && s.store.payload[id] in Apply(s, e).store.queue
  {
    assert forall i | i in e.ids :: i in s.store.processing;
    hide Reaped, WellFormed, LeaseOf, IsExpiredBatch;
    ReapedLease(s.store, e.ids, id);
  }

  lemma RecordersKeepTheStore(s: Sys, e: Event)
    requires Enabled(s, e) && (e.Succeed? || e.Fail? || e.FailUnrecorded?)
    ensures Apply(s, e).store == s.store
  {
    hide Decided;
  }

  lemma OthersKeepTheLeases(s: Sys, e: Event)
    requires Enabled(s, e) && !e.Succeed? && !e.Fail? && !e.FailUnrecorded?
    requires !e.Take? && !e.TakeLostReply? && !e.Exit? && !e.Replace? && !e.MonitorPass? && !e.Reap?
    ensures Apply(s, e).store.processing == s.store.processing
  {
  }

  lemma OthersMoveNoLease(s: Sys, e: Event, id: JobId)
    requires Enabled(s, e)
    requires !e.Take? && !e.TakeLostReply? && !e.Exit? && !e.Replace? && !e.MonitorPass? && !e.Reap?
    ensures LeaseOf(Apply(s, e).store, id) == MovedLease(s, e, id)
  {
    hide Apply, Enabled;
    if e.Succeed? || e.Fail? || e.FailUnrecorded? {
      RecordersKeepTheStore(s, e);
    } else {
      OthersKeepTheLeases(s, e);
    }
  }

  /** Every step does to every lease exactly what its event says. A job popped is leased with the
      record popped, and runs if the reply arrives; a job handed back is queued as pending, and a job reaped as it was popped. */
  lemma StepMovesLease(s: Sys, e: Event, id: JobId)
    requires WellFormed(s.store) && Enabled(s, e)
    ensures LeaseOf(Apply(s, e).store, id) == MovedLease(s, e, id)
    ensures Pops(e, id) ==> id in Apply(s, e).store.payload && Apply(s, e).store.payload[id] == e.popped.value
    ensures Pops(e, id) && e.Take? ==> Apply(s, e).workers[e.w].current == Some(e.popped.value.(status := Running))
    ensures HandedBack(s, e, id) && id in s.store.processing ==>
      s.workers[e.w].current.value.(status := Pending) in Apply(s, e).store.queue
    ensures InBatch(e, id) ==> id in s.store.payload && s.store.payload[id] in Apply(s, e).store.queue
  {
    hide LeaseOf, MovedLease, Apply, IsMax, WellFormed;
    if e.Take? || e.TakeLostReply? {
      TakeMovesLease(s, e, id);
    } else if e.Exit? || e.Replace? {
      GoingMovesLease(s, e, id);
    } else if e.MonitorPass? {
      PassMovesLease(s, e, id);
    } else if e.Reap? {
      ReapMovesLease(s, e, id);
    } else {
      OthersMoveNoLease(s, e, id);
    }
  }

  // ---------------------------------------------------------------- when a monitor renews

  /** When a pool's monitor last went round, and when it last tried to renew. */
  datatype Rounds = Rounds(pass: Micros, tried: Micros)

  /** A third of the lease, and a second at least. */
  predicate IsInterval(since: Micros, lease: Micros) {
    since >= 1_000_000 && 3 * since >= lease
  }

  /** One event more, at its time. A monitor goes round as its pool starts, and its first try counts
      from the start of the clock. */
  function Logged(log: map<PoolId, Rounds>, e: Event, now: Micros, lease: Micros): map<PoolId, Rounds> {
    match e
    case StartPool(p, uptime) => log[p := Rounds(now, if IsInterval(uptime, lease) then now else now - uptime)]
    case MonitorPass(p, _) =>
      if p !in log then log
      else log[p := Rounds(now, if IsInterval(now - log[p].tried, lease) then now else log[p].tried)]
    case CrashPool(p) => log - {p}
    case _ => log
  }

  ghost function LogAfter(s: Sys, es: seq<Event>, log: map<PoolId, Rounds>): map<PoolId, Rounds>
    requires Valid(s, es)
    decreases |es|
  {
    if es == [] then log else LogAfter(Apply(s, es[0]), es[1..], Logged(log, es[0], s.now, s.lease))
  }

  ghost predicate PoolsAreAs(s: Sys, log: map<PoolId, Rounds>) {
    s.pools.Keys == log.Keys
    && forall p | p in log :: s.pools[p].lastPass == log[p].pass && s.pools[p].lastRenew == log[p].tried
  }

  lemma StepIsLogged(s: Sys, e: Event, log: map<PoolId, Rounds>)
    requires PoolsAreAs(s, log) && Enabled(s, e)
    ensures PoolsAreAs(Apply(s, e), Logged(log, e, s.now, s.lease))
  {
    if PoolStep(e) {
      hide Renewed, HeldBy;
    } else {
      hide Apply, Enabled;
      PoolsStay(s, e);
    }
  }

  predicate PoolStep(e: Event) {
    e.StartPool? || e.CrashPool? || e.MonitorPass?
  }

  lemma PoolsStay(s: Sys, e: Event)
    requires Enabled(s, e) && !PoolStep(e)
    ensures Apply(s, e).pools == s.pools
  {
  }

  lemma {:induction false} RunIsLogged(s: Sys, es: seq<Event>, log: map<PoolId, Rounds>)
    requires PoolsAreAs(s, log) && Valid(s, es)
    ensures PoolsAreAs(Exec(s, es), LogAfter(s, es, log))
    decreases |es|
  {
    hide PoolsAreAs, Apply, Enabled, Logged;
    if es != [] {
      StepIsLogged(s, es[0], log);
      RunIsLogged(Apply(s, es[0]), es[1..], Logged(log, es[0], s.now, s.lease));
    }
  }

  /** After any run a monitor may go round exactly a second or more after it last did, and renews
      the lease of a job exactly if a worker in its pool's list runs it, the call gets through, and
      it last tried a third of the lease and a second ago or more. */
  lemma RenewsExactlyWhenDue(s: Sys, es: seq<Event>, p: PoolId, landed: bool, id: JobId)
    requires Initial(s) && Valid(s, es)
    ensures var t, log := Exec(s, es), LogAfter(s, es, map[]);
      && (Enabled(t, MonitorPass(p, landed)) <==> p in log && t.now >= log[p].pass + 1_000_000)
      && (Enabled(t, MonitorPass(p, landed)) && id in t.store.processing ==>
            LeaseOf(Apply(t, MonitorPass(p, landed)).store, id) ==
              if landed && IsInterval(t.now - log[p].tried, t.lease) && exists w | w in t.workers :: WorksFor(t.workers[w], p, id)
              then Some(t.now + t.lease) else LeaseOf(t.store, id))
  {
    hide *;
    NoPools(s);
    RunIsLogged(s, es, map[]);
    RenewsWhenLogged(Exec(s, es), LogAfter(s, es, map[]), p, landed, id);
  }

  lemma NoPools(s: Sys)
    requires Initial(s)
    ensures PoolsAreAs(s, map[])
  {
  }

  lemma RenewsWhenLogged(t: Sys, log: map<PoolId, Rounds>, p: PoolId, landed: bool, id: JobId)
    requires PoolsAreAs(t, log)
    ensures Enabled(t, MonitorPass(p, landed)) <==> p in log && t.now >= log[p].pass + 1_000_000
    ensures Enabled(t, MonitorPass(p, landed)) && id in t.store.processing ==>
      LeaseOf(Apply(t, MonitorPass(p, landed)).store, id) ==
        if landed && IsInterval(t.now - log[p].tried, t.lease) && exists w | w in t.workers :: WorksFor(t.workers[w], p, id)
        then Some(t.now + t.lease) else LeaseOf(t.store, id)
  {
    if Enabled(t, MonitorPass(p, landed)) {
      PassMovesLease(t, MonitorPass(p, landed), id);
    }
    hide Apply, WorksFor;
  }
}
