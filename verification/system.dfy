/** The whole system as a state machine: the Redis structures, every worker thread and pool
    monitor, the scheduler's position inside poll, the reaper, and one clock.

    Each Lua script and each single Redis command is one step; steps of different processes
    interleave freely. A call can be lost on the way there or on the way back, and any process
    can die between two steps. Everything a step leaves open (which of several equal scores is
    popped, how long a task runs, whether it succeeds, the jitter) is part of the event. */
module System {
  import opened Prelude
  import opened Jobs
  import opened LeaseModel
  import opened DeadLetters
  import opened DelayedJobs
  import opened Retries

  type WorkerId = nat
  type PoolId = nat

  const HEARTBEAT_TIMEOUT: Micros := 10 * SECOND
  const ERROR_BACKOFF: Micros := SECOND
  const IDLE_SLEEP: Micros := 100_000
  const MONITOR_SLEEP: Micros := SECOND

  /** One worker thread. `listed` says that it is still in pool.workers; recordedAt is when the
      outcome behind the pending acknowledgement was recorded. */
  datatype Worker = Worker(
    pool: PoolId,
    listed: bool,
    running: bool,
    current: Option<Job>,
    pending: Option<Job>,
    recordedAt: Micros,
    heartbeat: Micros,
    wakeAt: Micros
  )

  /** One monitor thread: when it last went round its loop, last tried to renew, and last
      renewed, how many tries have failed since, and how often it went round since the last try. */
  datatype Pool = Pool(lastPass: Micros, lastRenew: Micros, lastGood: Micros, misses: nat, rounds: nat)

  /** Where the single scheduler is: idle, or inside poll with `due` still to go and the head
      of `due` perhaps already pushed but not yet removed. */
  datatype Scheduler = Idle | Polling(due: seq<Job>, pushed: bool)

  /** origin keeps every record ever pushed by a submission, accepted the ids whose submitter
      was told so; done counts the times a job's task ran to its end. */
  datatype Sys = Sys(
    lease: Micros,
    store: Store,
    delayed: map<Job, Micros>,
    dlq: seq<DeadRecord>,
    done: multiset<JobId>,
    origin: map<JobId, Job>,
    accepted: set<JobId>,
    workers: map<WorkerId, Worker>,
    pools: map<PoolId, Pool>,
    sched: Scheduler,
    now: Micros,
    lastDrain: Micros
  )

  datatype Event =
    | Submit(job: Job, replied: bool)
    | StartPool(p: PoolId, uptime: Micros)
    | Spawn(w: WorkerId, p: PoolId)
    | Take(w: WorkerId, popped: Option<Job>)
    | TakeLostRequest(w: WorkerId)
    | TakeLostReply(w: WorkerId, popped: Option<Job>)
    | Succeed(w: WorkerId)
    | Fail(w: WorkerId, error: string, jitter: Micros)
    | FailUnrecorded(w: WorkerId, error: string, jitter: Micros, landed: bool)
    | Stop(w: WorkerId, unlist: bool)
    | Exit(w: WorkerId, landed: bool)
    | Replace(w: WorkerId, landed: bool, replied: bool, spare: WorkerId)
    | MonitorPass(p: PoolId, landed: bool)
    | Reap(ids: seq<JobId>, limit: int)
    | PollRead(due: seq<Job>)
    | PollPush
    | PollRemove
    | Tick(elapsed: Micros)
    | CrashWorker(w: WorkerId)
    | CrashPool(p: PoolId)
    | CrashScheduler

  // ---------------------------------------------------------------- the steps of a worker

  predicate Free(s: Sys, w: WorkerId) {
    w in s.workers && s.workers[w].current.None? && s.now >= s.workers[w].wakeAt
  }

  function PendingId(x: Worker): Option<JobId> {
    IdOf(x.pending)
  }

  function StoreTaken(s: Sys, w: WorkerId, popped: Option<Job>): Store
    requires w in s.workers && CanPop(s.store.queue, popped)
  {
    Taken(s.store, PendingId(s.workers[w]), popped, s.now + s.lease)
  }

  function AfterTake(s: Sys, w: WorkerId, popped: Option<Job>): Sys
    requires w in s.workers && CanPop(s.store.queue, popped)
  {
    var x := s.workers[w].(pending := None);
    s.(store := StoreTaken(s, w, popped),
       workers := s.workers[w := if popped.Some? then x.(current := Some(popped.value.(status := Running)))
                                 else x.(heartbeat := s.now, wakeAt := s.now + IDLE_SLEEP)])
  }

  function TakeRaised(x: Worker, now: Micros): Worker {
    x.(heartbeat := now, wakeAt := now + ERROR_BACKOFF)
  }

  /** The script ran and its reply was lost: the job is leased, and nobody knows. */
  function AfterLostReply(s: Sys, w: WorkerId, popped: Option<Job>): Sys
    requires w in s.workers && CanPop(s.store.queue, popped)
  {
    s.(store := StoreTaken(s, w, popped), workers := s.workers[w := TakeRaised(s.workers[w], s.now)])
  }

  predicate Busy(s: Sys, w: WorkerId) {
    w in s.workers && s.workers[w].current.Some?
  }

  /** The worker once the outcome of its job is recorded: the acknowledgement is pending. */
  function Recorded(x: Worker, outcome: Job, now: Micros): Worker {
    x.(current := None, pending := Some(outcome), recordedAt := now, heartbeat := now)
  }

  function Decided(s: Sys, w: WorkerId, error: string, jitter: Micros): Decision
    requires Busy(s, w)
  {
    Decide(s.workers[w].current.value, error, s.now, jitter)
  }

  function Written(s: Sys, d: Decision): Sys {
    s.(dlq := DeadAfter(s.dlq, d, s.now), delayed := DelayedAfter(s.delayed, d))
  }

  function AfterSuccess(s: Sys, w: WorkerId): Sys
    requires Busy(s, w)
  {
    var job := s.workers[w].current.value;
    s.(done := s.done + multiset{job.id},
       workers := s.workers[w := Recorded(s.workers[w], job.(status := Done), s.now)])
  }

  function AfterFailure(s: Sys, w: WorkerId, error: string, jitter: Micros): Sys
    requires Busy(s, w)
  {
    var d := Decided(s, w, error, jitter);
    Written(s, d).(workers := s.workers[w := Recorded(s.workers[w], d.job, s.now)])
  }

  /** Recording the failure raised: the lease is kept and no acknowledgement becomes pending. */
  function AfterFailureUnrecorded(s: Sys, w: WorkerId, error: string, jitter: Micros, landed: bool): Sys
    requires Busy(s, w)
  {
    var t := if landed then Written(s, Decided(s, w, error, jitter)) else s;
    t.(workers := s.workers[w := s.workers[w].(current := None, heartbeat := s.now)])
  }

  /** Leaving the loop flushes the last acknowledgement, once, and the thread is gone. */
  function AfterExit(s: Sys, w: WorkerId, landed: bool): Sys
    requires w in s.workers
  {
    s.(store := if landed then Acked(s.store, PendingId(s.workers[w])) else s.store, workers := s.workers - {w})
  }

  // ---------------------------------------------------------------- the steps of a pool

  predicate IsStale(lastHeartbeat: Micros, now: Micros) {
    now - lastHeartbeat > HEARTBEAT_TIMEOUT
  }

  predicate Stale(s: Sys, w: WorkerId) {
    w in s.workers && s.workers[w].listed && IsStale(s.workers[w].heartbeat, s.now)
  }

  function NewWorker(p: PoolId, now: Micros): Worker {
    Worker(p, true, true, None, None, now, now, now)
  }

  /** check_once on one stale worker. When requeue raises, the worker is left in the list; the
      stalled thread itself lives on either way. */
  function AfterReplace(s: Sys, w: WorkerId, landed: bool, replied: bool, spare: WorkerId): Sys
    requires w in s.workers
  {
    var x := s.workers[w];
    var y := if x.current.Some? then x.(current := Some(x.current.value.(status := Pending))) else x;
    var z := if replied then y.(listed := false, running := false) else y;
    var workers := s.workers[w := z];
    s.(store := if landed && y.current.Some? then Requeued(s.store, y.current.value) else s.store,
       workers := if replied then workers[spare := NewWorker(x.pool, s.now)] else workers)
  }

  /** renew_interval is max(1.0, lease / 3) seconds; both sides times three. */
  predicate RenewalDue(elapsed: Micros, lease: Micros) {
    3 * elapsed >= Max(3 * SECOND, lease)
  }

  function HeldBy(s: Sys, p: PoolId): set<JobId> {
    set w | w in s.workers && s.workers[w].listed && s.workers[w].pool == p && s.workers[w].current.Some?
      :: s.workers[w].current.value.id
  }

  function Passed(pool: Pool, now: Micros, due: bool, landed: bool): Pool {
    if !due then pool.(lastPass := now, rounds := pool.rounds + 1)
    else if landed then Pool(now, now, now, 0, 0)
    else pool.(lastPass := now, lastRenew := now, misses := pool.misses + 1, rounds := 0)
  }

  function AfterPass(s: Sys, p: PoolId, landed: bool): Sys
    requires p in s.pools
  {
    var due := RenewalDue(s.now - s.pools[p].lastRenew, s.lease);
    s.(store := if due && landed then Renewed(s.store, HeldBy(s, p), s.now + s.lease) else s.store,
       pools := s.pools[p := Passed(s.pools[p], s.now, due, landed)])
  }

  /** The monitor goes round once as the pool starts, with nothing to renew yet; `uptime` is what
      the monotonic clock shows then, and its last renewal counts as at zero. */
  function NewPool(s: Sys, uptime: Micros): Pool {
    Pool(s.now, if RenewalDue(uptime, s.lease) then s.now else s.now - uptime, s.now, 0, 0)
  }

  // ---------------------------------------------------------------- the steps of the scheduler

  function AfterPollRemove(s: Sys): Sys
    requires s.sched.Polling? && s.sched.due != []
  {
    s.(delayed := s.delayed - {s.sched.due[0]},
       sched := if |s.sched.due| == 1 then Idle else Polling(s.sched.due[1..], false))
  }

  /** The delayed set is sorted by retry time, and what poll still has to do is due and there. */
  ghost predicate SchedulerOk(s: Sys) {
    && (forall d | d in s.delayed :: s.delayed[d] == d.nextRetryTime)
    && (s.sched.Polling? ==> s.sched.due != [] && Distinct(s.sched.due))
    && (s.sched.Polling? ==> forall d | d in s.sched.due :: d in s.delayed && d.nextRetryTime <= s.now)
  }

  // ---------------------------------------------------------------- events

  ghost predicate Enabled(s: Sys, e: Event) {
    match e
    case Submit(job, _) =>
      job.id !in s.origin && job.attempt == 0 && job.status == Pending && job.submitTime <= s.now
    case StartPool(p, uptime) => p !in s.pools && uptime >= 0
    case Spawn(w, p) => w !in s.workers && p in s.pools
    case Take(w, popped) => Free(s, w) && s.workers[w].running && CanPop(s.store.queue, popped)
    case TakeLostRequest(w) => Free(s, w) && s.workers[w].running
    case TakeLostReply(w, popped) => Free(s, w) && s.workers[w].running && CanPop(s.store.queue, popped)
    case Succeed(w) => Busy(s, w)
    case Fail(w, error, jitter) => Busy(s, w) && IsJitter(jitter) && !Decided(s, w, error, jitter).NoDate?
    case FailUnrecorded(w, error, jitter, landed) => Busy(s, w) && IsJitter(jitter)
    case Stop(w, _) => w in s.workers
    case Exit(w, _) => Free(s, w) && !s.workers[w].running
    case Replace(w, landed, replied, spare) =>
      Stale(s, w) && spare !in s.workers && (replied ==> landed) && (s.workers[w].current.None? ==> replied)
    case MonitorPass(p, _) => p in s.pools && s.now >= s.pools[p].lastPass + MONITOR_SLEEP
    case Reap(ids, limit) => IsExpiredBatch(s.store.processing, s.now, limit, ids)
    case PollRead(due) => s.sched.Idle? && IsDueList(s.delayed, s.now, due)
    case PollPush => s.sched.Polling? && s.sched.due != [] && !s.sched.pushed
    case PollRemove => s.sched.Polling? && s.sched.due != [] && s.sched.pushed
    case Tick(elapsed) => elapsed > 0
    case CrashWorker(w) => w in s.workers
    case CrashPool(p) => p in s.pools
    case CrashScheduler => true
  }

  ghost function Apply(s: Sys, e: Event): Sys
    requires Enabled(s, e)
  {
    match e
    case Submit(job, replied) =>
      s.(store := Pushed(s.store, job), origin := s.origin[job.id := job],
         accepted := if replied then s.accepted + {job.id} else s.accepted)
    case StartPool(p, uptime) => s.(pools := s.pools[p := NewPool(s, uptime)])
    case Spawn(w, p) => s.(workers := s.workers[w := NewWorker(p, s.now)])
    case Take(w, popped) => AfterTake(s, w, popped)
    case TakeLostRequest(w) => s.(workers := s.workers[w := TakeRaised(s.workers[w], s.now)])
    case TakeLostReply(w, popped) => AfterLostReply(s, w, popped)
    case Succeed(w) => AfterSuccess(s, w)
    case Fail(w, error, jitter) => AfterFailure(s, w, error, jitter)
    case FailUnrecorded(w, error, jitter, landed) => AfterFailureUnrecorded(s, w, error, jitter, landed)
    case Stop(w, unlist) =>
      var x := s.workers[w].(running := false);
      s.(workers := s.workers[w := if unlist then x.(listed := false) else x])
    case Exit(w, landed) => AfterExit(s, w, landed)
    case Replace(w, landed, replied, spare) => AfterReplace(s, w, landed, replied, spare)
    case MonitorPass(p, landed) => AfterPass(s, p, landed)
    case Reap(ids, limit) =>
      s.(store := Reaped(s.store, ids), lastDrain := if |ids| < limit then s.now else s.lastDrain)
    case PollRead(due) => s.(sched := if due == [] then Idle else Polling(due, false))
    case PollPush =>
      s.(store := LeaseModel.Pushed(s.store, Promoted(s.sched.due[0])), sched := s.sched.(pushed := true))
    case PollRemove => AfterPollRemove(s)
    case Tick(elapsed) => s.(now := s.now + elapsed)
    case CrashWorker(w) => s.(workers := s.workers - {w})
    case CrashPool(p) =>
      s.(pools := s.pools - {p}, workers := map w | w in s.workers && s.workers[w].pool != p :: s.workers[w])
    case CrashScheduler => s.(sched := Idle)
  }

  ghost predicate Initial(s: Sys) {
    && s.store == EMPTY_STORE && s.delayed == map[] && s.dlq == [] && s.done == multiset{}
    && s.origin == map[] && s.accepted == {} && s.workers == map[] && s.pools == map[]
    && s.sched == Idle && s.lastDrain == s.now
  }

  // ---------------------------------------------------------------- runs

  ghost predicate Valid(s: Sys, es: seq<Event>)
    decreases |es|
  {
    es == [] || (Enabled(s, es[0]) && Valid(Apply(s, es[0]), es[1..]))
  }

  /** The state a run ends in. A statement about the end of every run is one about every
      state of every run, because each prefix of a run is a run. */
  ghost function Exec(s: Sys, es: seq<Event>): Sys
    requires Valid(s, es)
    decreases |es|
  {
    if es == [] then s else Exec(Apply(s, es[0]), es[1..])
  }

  /** Every state of the run, its end included, satisfies p. */
  ghost predicate Always(s: Sys, es: seq<Event>, p: Sys -> bool)
    requires Valid(s, es)
    decreases |es|
  {
    p(s) && (es == [] || Always(Apply(s, es[0]), es[1..], p))
  }

  lemma {:induction false} RunTwice(s: Sys, a: seq<Event>, b: seq<Event>)
    requires Valid(s, a) && Valid(Exec(s, a), b)
    ensures Valid(s, a + b) && Exec(s, a + b) == Exec(Exec(s, a), b)
    decreases |a|
  {
    if a == [] {
      assert a + b == b;
    } else {
      assert (a + b)[1..] == a[1..] + b;
      RunTwice(Apply(s, a[0]), a[1..], b);
    }
  }

  /** A run in two parts. */
  lemma {:induction false} RunSplits(s: Sys, a: seq<Event>, b: seq<Event>)
    requires Valid(s, a + b)
    ensures Valid(s, a) && Valid(Exec(s, a), b) && Exec(s, a + b) == Exec(Exec(s, a), b)
    decreases |a|
  {
    if a == [] {
      assert a + b == b;
    } else {
      assert (a + b)[1..] == a[1..] + b;
      RunSplits(Apply(s, a[0]), a[1..], b);
    }
  }

  lemma RunOfOne(s: Sys, e: Event)
    requires Enabled(s, e)
    ensures Valid(s, [e]) && Exec(s, [e]) == Apply(s, e)
  {
  }

  /** One more event at the end of a run. */
  lemma RunMore(s: Sys, es: seq<Event>, e: Event)
    requires Valid(s, es) && Enabled(Exec(s, es), e)
    ensures Valid(s, es + [e]) && Exec(s, es + [e]) == Apply(Exec(s, es), e)
  {
    hide Enabled, Apply;
    RunOfOne(Exec(s, es), e);
    RunTwice(s, es, [e]);
  }

  /** The run goes to t. */
  ghost predicate LeadsTo(s: Sys, es: seq<Event>, t: Sys) {
    Valid(s, es) && Exec(s, es) == t
  }

  lemma WhatLeadsToSays(s: Sys, es: seq<Event>, t: Sys)
    requires LeadsTo(s, es, t)
    ensures Valid(s, es) && Exec(s, es) == t
  {
  }

  lemma Then(s: Sys, a: seq<Event>, t: Sys, b: seq<Event>, u: Sys)
    requires LeadsTo(s, a, t) && LeadsTo(t, b, u)
    ensures LeadsTo(s, a + b, u)
  {
    hide Enabled, Apply;
    RunTwice(s, a, b);
  }

  lemma RunOfOneLeads(s: Sys, e: Event)
    requires Enabled(s, e)
    ensures LeadsTo(s, [e], Apply(s, e))
  {
    hide Enabled, Apply;
    RunOfOne(s, e);
  }

  lemma ThenOne(s: Sys, a: seq<Event>, t: Sys, e: Event)
    requires LeadsTo(s, a, t) && Enabled(t, e)
    ensures LeadsTo(s, a + [e], Apply(t, e))
  {
    hide Enabled, Apply;
    RunMore(s, a, e);
  }

  lemma TickIs(s: Sys, elapsed: Micros)
    requires elapsed > 0
    ensures Enabled(s, Tick(elapsed)) && Apply(s, Tick(elapsed)) == s.(now := s.now + elapsed)
  {
  }

  lemma ReadIs(s: Sys, due: seq<Job>)
    requires due != [] && s.sched.Idle? && IsDueList(s.delayed, s.now, due)
    ensures Enabled(s, PollRead(due)) && Apply(s, PollRead(due)) == s.(sched := Polling(due, false))
  {
  }

  lemma DueByNow(delayed: map<Job, Micros>, now: Micros, d: Job)
    requires delayed.Keys == {d} && delayed[d] <= now
    ensures IsDueList(delayed, now, [d])
  {
  }

  lemma OriginStays(s: Sys, e: Event, id: JobId)
    requires id in s.origin && Enabled(s, e)
    ensures id in Apply(s, e).origin
  {
    hide Taken, Requeued, Renewed, HeldBy, Acked, Decide, CanPop, IsDueList, IsExpiredBatch;
  }

  lemma {:induction false} OriginLasts(s: Sys, es: seq<Event>, id: JobId)
    requires Valid(s, es) && id in s.origin
    ensures id in Exec(s, es).origin
    decreases |es|
  {
    if es != [] {
      OriginStays(s, es[0], id);
      OriginLasts(Apply(s, es[0]), es[1..], id);
    }
  }

  // ---------------------------------------------------------------- quiet steps

  /** Steps that move no copy of a job and record no outcome. */
  predicate IsQuiet(e: Event) {
    e.StartPool? || e.Spawn? || e.TakeLostRequest? || e.Stop? || e.MonitorPass? || e.CrashWorker? || e.CrashPool?
  }

  ghost predicate SameJobs(x: Worker, y: Worker) {
    x.current == y.current && x.pending == y.pending
  }

  /** No copy has moved, and every worker has its jobs or is new and has none. */
  ghost predicate Quiet(s: Sys, t: Sys) {
    && t.store == s.store.(processing := t.store.processing) && t.store.processing.Keys == s.store.processing.Keys
    && t.dlq == s.dlq && t.done == s.done && t.origin == s.origin && t.accepted == s.accepted && t.now == s.now
    && t.delayed == s.delayed && t.sched == s.sched
    && forall w | w in t.workers ::
         || (t.workers[w].current.None? && t.workers[w].pending.None?)
         || (w in s.workers && SameJobs(t.workers[w], s.workers[w]))
  }

  lemma WorkersQuiet(s: Sys, e: Event)
    requires Enabled(s, e) && (e.Spawn? || e.TakeLostRequest? || e.Stop? || e.CrashWorker?)
    ensures Quiet(s, Apply(s, e))
  {
    assert Apply(s, e) == s.(workers := Apply(s, e).workers);
  }

  lemma PoolsQuiet(s: Sys, e: Event)
    requires Enabled(s, e) && (e.StartPool? || e.CrashPool?)
    ensures Quiet(s, Apply(s, e))
  {
    assert Apply(s, e) == s.(workers := Apply(s, e).workers, pools := Apply(s, e).pools);
  }

  lemma PassQuiet(s: Sys, p: PoolId, landed: bool)
    requires p in s.pools
    ensures Quiet(s, AfterPass(s, p, landed))
  {
  }

  lemma QuietEffect(s: Sys, e: Event)
    requires Enabled(s, e) && IsQuiet(e)
    ensures Quiet(s, Apply(s, e))
  {
    hide Quiet, AfterPass;
    if e.MonitorPass? {
      PassQuiet(s, e.p, e.landed);
    } else {
      hide Apply, Enabled;
      if e.StartPool? || e.CrashPool? {
        PoolsQuiet(s, e);
      } else {
        WorkersQuiet(s, e);
      }
    }
  }
}
