/** Fault-free work runs out: a measure that every productive step lowers, whatever the tasks
    do, and a productive step whenever it is not yet zero. */
module Draining {
  import opened Prelude
  import opened Jobs
  import opened LeaseModel
  import opened DeadLetters
  import opened DelayedJobs
  import opened Retries
  import opened System
  import opened Copies
  import opened NoLoss
  import opened FaultFree

  // ---------------------------------------------------------------- the measure

  function Remaining(job: Job): nat {
    if job.attempt < LastAttempt(job) then LastAttempt(job) - job.attempt else 0
  }

  /** Six steps at most lie between one attempt and the next. */
  function QueueWork(job: Job): nat {
    6 * Remaining(job)
  }

  function HeldWork(job: Job): nat {
    6 * Remaining(job) + 2
  }

  function WorkerWork(x: Worker): nat {
    (if x.current.Some? then Max(1, 6 * Remaining(x.current.value) - 1) else 0) + (if x.pending.Some? then 1 else 0)
  }

  ghost function Sum(jobs: set<Job>, work: Job -> nat): nat
    decreases |jobs|
  {
    if jobs == {} then 0 else var j :| j in jobs; work(j) + Sum(jobs - {j}, work)
  }

  ghost function SumWorkers(ws: map<WorkerId, Worker>): nat
    decreases |ws|
  {
    if ws == map[] then 0
    else var w :| w in ws; KeyRemoved(ws, w); WorkerWork(ws[w]) + SumWorkers(ws - {w})
  }

  ghost function HeldSet(s: Sys): set<Job> {
    set d | d in s.delayed && !Promoting(s, d)
  }

  ghost function DueSet(s: Sys): set<Job> {
    if s.sched.Polling? then Elements(s.sched.due) else {}
  }

  ghost function Work(s: Sys): nat {
    Sum(s.store.queue.Keys, QueueWork) + SumWorkers(s.workers) + Sum(HeldSet(s), HeldWork)
    + |HeldSet(s) - DueSet(s)| + (if s.sched.Polling? && s.sched.pushed then 1 else 0)
  }

  lemma {:induction false} SumWithout(jobs: set<Job>, job: Job, work: Job -> nat)
    requires job in jobs
    ensures Sum(jobs, work) == work(job) + Sum(jobs - {job}, work)
    decreases |jobs|
  {
    var j :| j in jobs && Sum(jobs, work) == work(j) + Sum(jobs - {j}, work);
    if j != job {
      SumWithout(jobs - {j}, job, work);
      assert jobs - {j} - {job} == jobs - {job} - {j};
      SumWithout(jobs - {job}, j, work);
    }
  }

  lemma {:induction false} SumWorkersWithout(ws: map<WorkerId, Worker>, w: WorkerId)
    requires w in ws
    ensures SumWorkers(ws) == WorkerWork(ws[w]) + SumWorkers(ws - {w})
    decreases |ws|
  {
    var v :| v in ws && SumWorkers(ws) == WorkerWork(ws[v]) + SumWorkers(ws - {v});
    if v != w {
      KeyRemoved(ws, v);
      KeyRemoved(ws, w);
      SumWorkersWithout(ws - {v}, w);
      assert ws - {v} - {w} == ws - {w} - {v};
      SumWorkersWithout(ws - {w}, v);
    }
  }

  lemma SumAdds(jobs: set<Job>, job: Job, work: Job -> nat)
    ensures Sum(jobs + {job}, work) <= Sum(jobs, work) + work(job)
  {
    SumWithout(jobs + {job}, job, work);
    if job in jobs {
      assert jobs + {job} == jobs;
    } else {
      assert jobs + {job} - {job} == jobs;
    }
  }

  lemma SumWorkersChanges(ws: map<WorkerId, Worker>, w: WorkerId, x: Worker)
    ensures SumWorkers(ws[w := x]) + (if w in ws then WorkerWork(ws[w]) else 0) == SumWorkers(ws) + WorkerWork(x)
  {
    var t := ws[w := x];
    SumWorkersWithout(t, w);
    if w in ws {
      SumWorkersWithout(ws, w);
      assert t - {w} == ws - {w};
    } else {
      assert t - {w} == ws;
    }
  }

  // ---------------------------------------------------------------- every step

  ghost predicate Productive(s: Sys, e: Event)
    requires Enabled(s, e)
  {
    match e
    case Take(w, popped) => popped.Some? || s.workers[w].pending.Some?
    case Exit(w, _) => s.workers[w].pending.Some?
    case PollRead(due) => due != []
    case _ => e.Succeed? || e.Fail? || e.PollPush? || e.PollRemove?
  }

  ghost function Gain(s: Sys, e: Event): nat
    requires Enabled(s, e)
  {
    if Productive(s, e) then 1 else 0
  }

  lemma SchedulerSideSame(s: Sys, t: Sys)
    requires t.delayed == s.delayed && (t.sched == s.sched)
    ensures HeldSet(t) == HeldSet(s) && DueSet(t) == DueSet(s)
  {
  }

  lemma PopWorks(s: Sys, m: Job)
    requires CopiesOk(s) && m in s.store.queue
    ensures Sum((s.store.queue - {m}).Keys, QueueWork) + QueueWork(m) == Sum(s.store.queue.Keys, QueueWork)
    ensures 6 * Remaining(m) >= 6
  {
    assert Runnable(s, m);
    hide CopiesOk, Sum;
    SumWithout(s.store.queue.Keys, m, QueueWork);
    assert (s.store.queue - {m}).Keys == s.store.queue.Keys - {m};
  }

  lemma TakeWorks(s: Sys, w: WorkerId, popped: Option<Job>)
    requires CopiesOk(s) && Free(s, w) && CanPop(s.store.queue, popped)
    ensures Work(AfterTake(s, w, popped)) + (if popped.Some? || s.workers[w].pending.Some? then 1 else 0) <= Work(s)
  {
    hide CopiesOk, HeldSet, DueSet, Sum, SumWorkers, Remaining, LastAttempt;
    var t := AfterTake(s, w, popped);
    SumWorkersChanges(s.workers, w, t.workers[w]);
    if popped.Some? {
      PopWorks(s, popped.value);
      assert Remaining(popped.value.(status := Running)) == Remaining(popped.value) by { SameRemaining(popped.value, Running); }
    }
    SchedulerSideSame(s, t);
  }

  lemma SameRemaining(job: Job, status: JobStatus)
    ensures Remaining(job.(status := status)) == Remaining(job)
  {
  }

  lemma SuccessWorks(s: Sys, w: WorkerId)
    requires CopiesOk(s) && Busy(s, w)
    ensures Work(AfterSuccess(s, w)) + 1 <= Work(s)
  {
    var t := AfterSuccess(s, w);
    assert WorkerCopies(s, s.workers[w]);
    SumWorkersChanges(s.workers, w, t.workers[w]);
    SchedulerSideSame(s, t);
  }

  lemma HeldSetGains(s: Sys, t: Sys, job: Job)
    requires t.sched == s.sched && t.delayed.Keys == s.delayed.Keys + {job} && !Promoting(s, job)
    ensures HeldSet(t) == HeldSet(s) + {job} && DueSet(t) == DueSet(s)
  {
  }

  lemma HeldWorkAdds(s: Sys, t: Sys, job: Job)
    requires t.sched == s.sched && t.delayed.Keys == s.delayed.Keys + {job} && !Promoting(s, job)
    ensures Sum(HeldSet(t), HeldWork) <= Sum(HeldSet(s), HeldWork) + HeldWork(job)
    ensures |HeldSet(t) - DueSet(t)| <= |HeldSet(s) - DueSet(s)| + 1
    ensures DueSet(t) == DueSet(s)
  {
    hide *;
    HeldSetGains(s, t, job);
    SumAdds(HeldSet(s), job, HeldWork);
    Subset(HeldSet(t) - DueSet(t), HeldSet(s) - DueSet(s) + {job});
  }

  lemma FailureWeighs(s: Sys, w: WorkerId, error: string, jitter: Micros)
    requires CopiesOk(s) && Enabled(s, Fail(w, error, jitter))
    ensures var out := Decided(s, w, error, jitter); var x := Recorded(s.workers[w], out.job, s.now);
      && (out.Retry? ==> WorkerWork(x) + HeldWork(out.job) + 2 <= WorkerWork(s.workers[w]))
      && (out.DeadLetter? ==> WorkerWork(x) + 1 <= WorkerWork(s.workers[w]))
      && (out.Retry? ==> !Promoting(s, out.job))
  {
  }

  lemma FailureWorks(s: Sys, w: WorkerId, error: string, jitter: Micros)
    requires CopiesOk(s) && Enabled(s, Fail(w, error, jitter))
    ensures Work(AfterFailure(s, w, error, jitter)) + 1 <= Work(s)
  {
    FailureWeighs(s, w, error, jitter);
    hide CopiesOk, HeldSet, DueSet, Sum, SumWorkers, WorkerWork, HeldWork, Promoting, Decide;
    var t, out := AfterFailure(s, w, error, jitter), Decided(s, w, error, jitter);
    SumWorkersChanges(s.workers, w, t.workers[w]);
    if out.DeadLetter? {
      SchedulerSideSame(s, t);
    } else {
      HeldWorkAdds(s, t, out.job);
    }
  }

  lemma {:induction false} Subset(a: set<Job>, b: set<Job>)
    requires a <= b
    ensures |a| <= |b|
    decreases |a|
  {
    if x :| x in a {
      Subset(a - {x}, b - {x});
    }
  }

  lemma PushWorks(s: Sys)
    requires CopiesOk(s) && Enabled(s, PollPush)
    ensures Work(Apply(s, PollPush)) + 1 <= Work(s)
  {
    var t, d := Apply(s, PollPush), s.sched.due[0];
    assert d in HeldSet(s) && d in DueSet(s);
    assert HeldSet(t) == HeldSet(s) - {d} && DueSet(t) == DueSet(s);
    assert HeldSet(t) - DueSet(t) == HeldSet(s) - DueSet(s);
    SumWithout(HeldSet(s), d, HeldWork);
    SumAdds(s.store.queue.Keys, Promoted(d), QueueWork);
    assert t.store.queue.Keys == s.store.queue.Keys + {Promoted(d)};
  }

  lemma ReadWorks(s: Sys, due: seq<Job>)
    requires Enabled(s, PollRead(due))
    ensures Work(Apply(s, PollRead(due))) + (if due != [] then 1 else 0) <= Work(s)
  {
    var t := Apply(s, PollRead(due));
    NothingPromoting(s);
    NothingPromoting(t);
    hide HeldSet, Sum, SumWorkers, Enabled;
    if due != [] {
      assert due[0] in Elements(due) && due[0] in s.delayed;
      Subset(HeldSet(t) - DueSet(t), s.delayed.Keys - {due[0]});
    } else {
      assert DueSet(t) == DueSet(s);
    }
  }

  lemma NothingPromoting(s: Sys)
    requires s.sched.Polling? ==> !s.sched.pushed
    ensures HeldSet(s) == s.delayed.Keys
  {
  }

  lemma RemoveWorks(s: Sys)
    requires CopiesOk(s) && Enabled(s, PollRemove)
    ensures Work(AfterPollRemove(s)) + 1 <= Work(s)
  {
    var t := AfterPollRemove(s);
    assert s.sched.due == [s.sched.due[0]] + s.sched.due[1..];
    assert HeldSet(t) == HeldSet(s);
    assert HeldSet(t) - DueSet(t) == HeldSet(s) - DueSet(s);
  }

  lemma ExitWorks(s: Sys, w: WorkerId)
    requires Free(s, w)
    ensures Work(AfterExit(s, w, true)) + (if s.workers[w].pending.Some? then 1 else 0) <= Work(s)
  {
    var t := AfterExit(s, w, true);
    SumWorkersWithout(s.workers, w);
    SchedulerSideSame(s, t);
  }

  lemma OtherEffect(s: Sys, e: Event)
    requires Enabled(s, e) && (e.StartPool? || (e.Reap? && e.ids == []) || e.Tick?)
    ensures var t := Apply(s, e);
      && t.store.queue == s.store.queue && t.delayed == s.delayed && t.sched == s.sched && t.workers == s.workers
  {
  }

  lemma PassEffect(s: Sys, p: PoolId, landed: bool)
    requires p in s.pools
    ensures var t := AfterPass(s, p, landed);
      && t.store.queue == s.store.queue && t.delayed == s.delayed && t.sched == s.sched && t.workers == s.workers
  {
    hide HeldBy, RenewalDue;
  }

  lemma WorkerEffect(s: Sys, e: Event)
    requires Enabled(s, e) && (e.Spawn? || e.Stop? || e.TakeLostRequest?)
    ensures var t := Apply(s, e);
      && t.store == s.store && t.delayed == s.delayed && t.sched == s.sched
      && e.w in t.workers && t.workers == s.workers[e.w := t.workers[e.w]]
      && WorkerWork(t.workers[e.w]) == (if e.w in s.workers then WorkerWork(s.workers[e.w]) else 0)
  {
  }

  lemma OtherWorks(s: Sys, e: Event)
    requires Enabled(s, e)
    requires e.StartPool? || e.Spawn? || e.Stop? || e.TakeLostRequest? || (e.Reap? && e.ids == []) || e.Tick?
    ensures Work(Apply(s, e)) <= Work(s)
  {
    hide Apply, Enabled, HeldSet, DueSet, Sum, SumWorkers;
    var t := Apply(s, e);
    if e.Spawn? || e.Stop? || e.TakeLostRequest? {
      WorkerEffect(s, e);
      SumWorkersChanges(s.workers, e.w, t.workers[e.w]);
    } else {
      OtherEffect(s, e);
    }
    SchedulerSideSame(s, t);
  }

  lemma PassWorks(s: Sys, p: PoolId, landed: bool)
    requires p in s.pools
    ensures Work(AfterPass(s, p, landed)) <= Work(s)
  {
    hide HeldSet, DueSet, Sum, SumWorkers, AfterPass;
    PassEffect(s, p, landed);
    SchedulerSideSame(s, AfterPass(s, p, landed));
  }

  lemma StepWorks(s: Sys, e: Event)
    requires CopiesOk(s) && Enabled(s, e) && Faultless(e) && !e.Submit?
    ensures Work(Apply(s, e)) + Gain(s, e) <= Work(s)
  {
    hide CopiesOk, Work;
    match e {
      case Take(w, popped) => TakeWorks(s, w, popped);
      case Succeed(w) => SuccessWorks(s, w);
      case Fail(w, error, jitter) => FailureWorks(s, w, error, jitter);
      case Exit(w, _) => ExitWorks(s, w);
      case PollRead(due) => ReadWorks(s, due);
      case PollPush => PushWorks(s);
      case PollRemove => RemoveWorks(s);
      case MonitorPass(p, landed) => PassWorks(s, p, landed);
      case _ => OtherWorks(s, e);
    }
  }

  ghost function ProductiveSteps(s: Sys, es: seq<Event>): nat
    requires Valid(s, es)
    decreases |es|
  {
    if es == [] then 0 else Gain(s, es[0]) + ProductiveSteps(Apply(s, es[0]), es[1..])
  }

  ghost predicate NoSubmissions(es: seq<Event>) {
    forall e | e in es :: !e.Submit?
  }

  /** However the tasks turn out and however the processes interleave, a faultless run without
      new submissions makes at most as many productive steps as its start has work. */
  lemma {:induction false} DrainingTerminates(s: Sys, es: seq<Event>)
    requires CopiesOk(s) && Valid(s, es) && FaultlessRun(es) && NoSubmissions(es)
    ensures ProductiveSteps(s, es) + Work(Exec(s, es)) <= Work(s)
    decreases |es|
  {
    if es != [] {
      StepWorks(s, es[0]);
      StepKeepsCopies(s, es[0]);
      DrainingTerminates(Apply(s, es[0]), es[1..]);
    }
  }

  // ---------------------------------------------------------------- progress

  lemma {:induction false} SortedKeys<K(!new)>(m: map<K, Micros>) returns (keys: seq<K>)
    ensures Distinct(keys) && forall k :: k in keys <==> k in m
    ensures forall i, j | 0 <= i < j < |keys| :: m[keys[i]] <= m[keys[j]]
    decreases |m|
  {
    keys := [];
    if m != map[] {
      var last := LatestKey(m);
      KeyRemoved(m, last);
      var rest := SortedKeys(m - {last});
      keys := rest + [last];
    }
  }

  lemma {:induction false} LatestKey<K(!new)>(m: map<K, Micros>) returns (last: K)
    requires m != map[]
    ensures last in m && forall k | k in m :: m[k] <= m[last]
    decreases |m|
  {
    last :| last in m;
    var rest := m - {last};
    KeyRemoved(m, last);
    if rest != map[] {
      var other := LatestKey(rest);
      forall k | k in m ensures m[k] <= Max(m[last], m[other]) {
        if k != last { assert k in rest; }
      }
      last := if m[other] > m[last] then other else last;
    }
  }

  lemma DueListExists(delayed: map<Job, Micros>, now: Micros) returns (due: seq<Job>)
    ensures IsDueList(delayed, now, due)
  {
    due := SortedKeys(map d | d in delayed && delayed[d] <= now :: delayed[d]);
  }

  /** es does some work, faultlessly and with safe promotions. */
  ghost predicate Progress(s: Sys, es: seq<Event>) {
    Valid(s, es) && FaultlessRun(es) && Guarded(s, es) && NoSubmissions(es) && NoStops(es) && ProductiveSteps(s, es) >= 1
  }

  ghost predicate NoStops(es: seq<Event>) {
    forall e | e in es :: !e.Stop?
  }

  lemma LoopingStaysOne(s: Sys, e: Event, w: WorkerId)
    requires w in s.workers && s.workers[w].running && Enabled(s, e) && Faultless(e) && !e.Stop?
    ensures w in Apply(s, e).workers && Apply(s, e).workers[w].running
  {
  }

  lemma {:induction false} LoopingStays(s: Sys, es: seq<Event>, w: WorkerId)
    requires w in s.workers && s.workers[w].running && Valid(s, es) && FaultlessRun(es) && NoStops(es)
    ensures w in Exec(s, es).workers && Exec(s, es).workers[w].running
    decreases |es|
  {
    if es != [] {
      LoopingStaysOne(s, es[0], w);
      LoopingStays(Apply(s, es[0]), es[1..], w);
    }
  }

  lemma {:induction false} GuardedTwice(s: Sys, a: seq<Event>, b: seq<Event>)
    requires Valid(s, a) && Guarded(s, a) && Valid(Exec(s, a), b) && Guarded(Exec(s, a), b)
    ensures Valid(s, a + b) && Guarded(s, a + b)
    decreases |a|
  {
    RunTwice(s, a, b);
    if a == [] {
      assert a + b == b;
    } else {
      assert (a + b)[1..] == a[1..] + b;
      GuardedTwice(Apply(s, a[0]), a[1..], b);
    }
  }

  lemma OneStep(s: Sys, e: Event)
    requires Enabled(s, e) && Faultless(e) && Guard(s, e) && Productive(s, e) && !e.Submit? && !e.Stop?
    ensures Progress(s, [e])
  {
  }

  lemma WaitThenStep(s: Sys, until: Micros, e: Event)
    requires var t := s.(now := s.now + Max(1, until - s.now));
      Enabled(t, e) && Faultless(e) && Guard(t, e) && Productive(t, e) && !e.Submit? && !e.Stop?
    ensures Progress(s, [Tick(Max(1, until - s.now)), e])
  {
    var tick := Tick(Max(1, until - s.now));
    OneStep(Apply(s, tick), e);
    assert [tick, e][1..] == [e];
  }

  /** A worker out of a job that has an acknowledgement to send, or a queue to take from. */
  lemma WorkerProgress(s: Sys, w: WorkerId) returns (es: seq<Event>)
    requires w in s.workers && s.workers[w].current.None?
    requires s.workers[w].pending.Some? || (s.workers[w].running && s.store.queue != map[])
    ensures Progress(s, es)
  {
    var until := s.workers[w].wakeAt;
    var popped := PopExists(s.store.queue);
    var e := if s.workers[w].running then Take(w, popped) else Exit(w, true);
    WaitThenStep(s, until, e);
    es := [Tick(Max(1, until - s.now)), e];
  }

  lemma SchedulerProgress(s: Sys) returns (es: seq<Event>)
    requires SchedulerOk(s) && s.delayed != map[]
    requires forall w | w in s.workers :: s.workers[w].pending.None?
    ensures Progress(s, es)
  {
    if s.sched.Polling? {
      var e := if s.sched.pushed then PollRemove else PollPush;
      assert e.PollPush? ==> !AckUnsent(s, s.sched.due[0].id);
      OneStep(s, e);
      es := [e];
    } else {
      var d :| d in s.delayed;
      var until := s.delayed[d];
      var t := s.(now := s.now + Max(1, until - s.now));
      var due := DueListExists(t.delayed, t.now);
      assert d in due;
      WaitThenStep(s, until, PollRead(due));
      es := [Tick(Max(1, until - s.now)), PollRead(due)];
    }
  }

  lemma {:induction false} IdleWorkersWeighNothing(ws: map<WorkerId, Worker>)
    requires forall w | w in ws :: ws[w].current.None? && ws[w].pending.None?
    ensures SumWorkers(ws) == 0
    decreases |ws|
  {
    if ws != map[] {
      var w :| w in ws;
      SumWorkersWithout(ws, w);
      KeyRemoved(ws, w);
      IdleWorkersWeighNothing(ws - {w});
    }
  }

  /** While there is work and a worker in its loop, a productive step is at most a wait away. */
  lemma WorkCanGoOn(s: Sys, looping: WorkerId) returns (es: seq<Event>)
    requires CopiesOk(s) && looping in s.workers && s.workers[looping].running && Work(s) > 0
    ensures Progress(s, es)
  {
    WhatCopiesOkSays(s);
    if w :| w in s.workers && s.workers[w].current.Some? {
      OneStep(s, Succeed(w));
      es := [Succeed(w)];
    } else if w :| w in s.workers && s.workers[w].pending.Some? {
      es := WorkerProgress(s, w);
    } else if s.store.queue != map[] {
      es := WorkerProgress(s, looping);
    } else {
      IdleWorkersWeighNothing(s.workers);
      NoQueueNoDelay(s);
      es := SchedulerProgress(s);
    }
  }

  lemma NoQueueNoDelay(s: Sys)
    requires SchedulerOk(s) && Work(s) > 0 && s.store.queue == map[] && SumWorkers(s.workers) == 0
    ensures s.delayed != map[]
  {
    NoDelayNoScheduling(s);
  }

  lemma NoDelayNoScheduling(s: Sys)
    requires SchedulerOk(s)
    ensures s.delayed == map[] ==> s.sched.Idle? && HeldSet(s) == {}
  {
    assert s.sched.Polling? ==> s.sched.due[0] in s.sched.due;
  }

  /** When the work has run out, every job ever submitted is done exactly once or dead exactly
      once, never both, and no lease is left. */
  lemma DrainedMeansSettled(s: Sys, es: seq<Event>)
    requires Initial(s) && Valid(s, es) && FaultlessRun(es) && Work(Exec(s, es)) == 0
    ensures var t := Exec(s, es);
      && (forall id | id in t.origin :: (t.done[id] == 1 && !DeadLettered(t.dlq, id)) || (t.done[id] == 0 && DeadLettered(t.dlq, id)))
      && (forall id :: DeadCount(t.dlq, id) <= 1)
      && t.store.processing == map[] && t.store.queue == map[]
  {
    hide *;
    StartsSingle(s);
    FaultlessDeliveryIsExactlyOnce(s, es);
    RunKeepsCopies(s, es);
    NothingLeft(Exec(s, es));
    CountedOut(Exec(s, es));
  }

  /** With nothing left to do, each id is in the one place or the other. */
  lemma CountedOut(t: Sys)
    requires Placed(CensusOf(t), t.origin.Keys, true, false)
    requires t.store.processing.Keys <= CensusOf(t).running + CensusOf(t).unacked
    requires t.store.queue == map[] && HeldIds(t) == {} && IdsIn(t.workers, Current) == {} && IdsIn(t.workers, Unacked) == {}
    requires forall id | id in t.done :: t.done[id] == 1
    ensures forall id | id in t.origin ::
      (t.done[id] == 1 && !DeadLettered(t.dlq, id)) || (t.done[id] == 0 && DeadLettered(t.dlq, id))
    ensures t.store.processing == map[]
  {
    assert t.store.processing.Keys == {};
    forall id | id in t.origin
      ensures (t.done[id] == 1 && !DeadLettered(t.dlq, id)) || (t.done[id] == 0 && DeadLettered(t.dlq, id))
    {
      assert id in DeadIds(t.dlq) <==> DeadLettered(t.dlq, id);
    }
  }

  lemma NothingLeft(s: Sys)
    requires CopiesOk(s) && Work(s) == 0
    ensures s.store.queue == map[] && HeldIds(s) == {} && IdsIn(s.workers, Current) == {} && IdsIn(s.workers, Unacked) == {}
  {
    if m :| m in s.store.queue {
      assert Runnable(s, m);
      SumWithout(s.store.queue.Keys, m, QueueWork);
    }
    if d :| d in HeldSet(s) {
      SumWithout(HeldSet(s), d, HeldWork);
    }
    forall w | w in s.workers ensures s.workers[w].current.None? && s.workers[w].pending.None? {
      SumWorkersWithout(s.workers, w);
    }
    assert s.store.queue == map[];
    assert forall d | d in s.delayed && !Promoting(s, d) :: d in HeldSet(s);
  }

  /** As long as one worker is in its loop, some faultless continuation with safe promotions does
      all the work. */
  lemma {:induction false} WorkCanEnd(s: Sys, looping: WorkerId) returns (es: seq<Event>)
    requires CopiesOk(s) && looping in s.workers && s.workers[looping].running
    ensures Valid(s, es) && FaultlessRun(es) && Guarded(s, es) && NoSubmissions(es) && Work(Exec(s, es)) == 0
    decreases Work(s)
  {
    if Work(s) == 0 {
      es := [];
    } else {
      var a := WorkCanGoOn(s, looping);
      var t := Exec(s, a);
      DrainingTerminates(s, a);
      RunKeepsCopies(s, a);
      LoopingStays(s, a, looping);
      var b := WorkCanEnd(t, looping);
      RunTwice(s, a, b);
      GuardedTwice(s, a, b);
      es := a + b;
    }
  }

  /** After any faultless run, promotions safe or not, as long as one worker is in its loop, some
      faultless continuation with safe promotions finishes every job ever submitted: it is done
      exactly once or dead exactly once. */
  lemma EverythingCanFinish(s: Sys, es: seq<Event>, looping: WorkerId) returns (more: seq<Event>)
    requires Initial(s) && Valid(s, es) && FaultlessRun(es)
    requires looping in Exec(s, es).workers && Exec(s, es).workers[looping].running
    ensures Valid(Exec(s, es), more) && FaultlessRun(more) && Guarded(Exec(s, es), more) && NoSubmissions(more)
    ensures var t := Exec(Exec(s, es), more);
      && (forall id | id in Exec(s, es).origin :: id in t.origin)
      && (forall id | id in t.origin :: (t.done[id] == 1 && !DeadLettered(t.dlq, id)) || (t.done[id] == 0 && DeadLettered(t.dlq, id)))
      && (forall id :: DeadCount(t.dlq, id) <= 1)
      && t.store.processing == map[] && t.store.queue == map[]
  {
    RunKeepsCopies(s, es);
    more := WorkCanEnd(Exec(s, es), looping);
    RunTwice(s, es, more);
    forall id | id in Exec(s, es).origin ensures id in Exec(Exec(s, es), more).origin {
      OriginLasts(Exec(s, es), more, id);
    }
    hide CopiesOk, Work, DeadCount, FaultlessRun, Initial;
    DrainedMeansSettled(s, es + more);
  }
}
