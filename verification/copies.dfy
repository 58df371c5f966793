/** What is true of every copy of a job, wherever it is and however often it was duplicated:
    it is the submitted job, its attempt count is in bounds, it has waited out its backoff, and
    its score is the one it was submitted with. */
module Copies {
  import opened Prelude
  import opened Jobs
  import opened LeaseModel
  import opened DeadLetters
  import opened DelayedJobs
  import opened Retries
  import opened System

  /** The record differs from the submitted one in its progress fields only. */
  predicate SameJob(job: Job, origin: Job) {
    job == origin.(attempt := job.attempt, status := job.status, nextRetryTime := job.nextRetryTime, error := job.error)
  }

  /** The record is a copy of a submitted job. */
  predicate IsCopy(origin: map<JobId, Job>, job: Job) {
    job.id in origin && SameJob(job, origin[job.id])
  }

  /** The sum of the backoffs before attempt a, without jitter: 1 + 2 + 4 + ... seconds. */
  function BackoffBefore(attempt: nat): Micros {
    (Pow2(attempt) - 1) * SECOND
  }

  predicate CanRun(origin: map<JobId, Job>, now: Micros, job: Job) {
    IsCopy(origin, job) && job.attempt < LastAttempt(job) && now >= job.submitTime + BackoffBefore(job.attempt)
  }

  predicate CanWait(origin: map<JobId, Job>, job: Job) {
    && IsCopy(origin, job) && 1 <= job.attempt < LastAttempt(job)
    && job.nextRetryTime >= job.submitTime + BackoffBefore(job.attempt) && job.status == Pending
  }

  predicate IsBuried(origin: map<JobId, Job>, now: Micros, r: DeadRecord) {
    && IsCopy(origin, r.job) && r.job.attempt == LastAttempt(r.job)
    && r.job.submitTime + BackoffBefore(r.job.attempt - 1) <= r.deadAt <= now
  }

  ghost predicate CopyOf(s: Sys, job: Job) {
    IsCopy(s.origin, job)
  }

  /** A copy that may run now. */
  ghost predicate Runnable(s: Sys, job: Job) {
    CanRun(s.origin, s.now, job)
  }

  /** A copy waiting for its retry time. */
  ghost predicate Waiting(s: Sys, job: Job) {
    CanWait(s.origin, job) && job in s.delayed && s.delayed[job] == job.nextRetryTime
  }

  ghost predicate Buried(s: Sys, r: DeadRecord) {
    IsBuried(s.origin, s.now, r)
  }

  ghost predicate WorkerCopies(s: Sys, x: Worker) {
    && (x.current.Some? ==> Runnable(s, x.current.value))
    && (x.pending.Some? ==> CopyOf(s, x.pending.value))
  }

  ghost predicate CopiesOk(s: Sys) {
    && WellFormed(s.store) && Scored(s.store)
    && (forall id | id in s.origin :: s.origin[id].id == id)
    && (forall m | m in s.store.queue :: Runnable(s, m))
    && (forall id | id in s.store.payload :: Runnable(s, s.store.payload[id]))
    && (forall d | d in s.delayed :: Waiting(s, d))
    && (forall r | r in s.dlq :: Buried(s, r))
    && (forall id | id in s.done :: id in s.origin)
    && (forall w | w in s.workers :: WorkerCopies(s, s.workers[w]))
    && SchedulerOk(s)
  }

  // ---------------------------------------------------------------- preservation

  /** A step that records no outcome: it moves copies about and may drop delayed entries. */
  lemma StoreCopies(s: Sys, t: Sys)
    requires CopiesOk(s) && WellFormed(t.store) && Scored(t.store)
    requires t.dlq == s.dlq && t.done == s.done && t.origin == s.origin && t.now == s.now
    requires forall d | d in t.delayed :: d in s.delayed && t.delayed[d] == s.delayed[d]
    requires forall m | m in t.store.queue :: m in s.store.queue || Runnable(s, m)
    requires forall id | id in t.store.payload :: Runnable(s, t.store.payload[id])
    requires forall w | w in t.workers :: WorkerCopies(s, t.workers[w])
    requires SchedulerOk(t)
    ensures CopiesOk(t)
  {
    hide IsCopy, CanRun, CanWait, IsBuried, WellFormed, Scored, SchedulerOk;
  }

  lemma WhatCopiesOkSays(s: Sys)
    requires CopiesOk(s)
    ensures WellFormed(s.store) && Scored(s.store)
    ensures forall id | id in s.store.payload :: Runnable(s, s.store.payload[id])
    ensures forall w | w in s.workers :: WorkerCopies(s, s.workers[w])
    ensures SchedulerOk(s) && forall d | d in s.delayed :: Waiting(s, d)
  {
  }

  lemma StatusIsFree(origin: map<JobId, Job>, now: Micros, job: Job, status: JobStatus)
    ensures CanRun(origin, now, job.(status := status)) == CanRun(origin, now, job)
  {
  }

  lemma PoppedCopies(s: Sys, popped: Option<Job>)
    requires CopiesOk(s) && CanPop(s.store.queue, popped) && popped.Some?
    ensures Runnable(s, popped.value) && Runnable(s, popped.value.(status := Running))
  {
    hide CanWait, IsBuried, WellFormed, Scored, SchedulerOk;
    StatusIsFree(s.origin, s.now, popped.value, Running);
  }

  lemma TakenStoreCopies(s: Sys, ack: Option<JobId>, popped: Option<Job>, deadline: Micros)
    requires CopiesOk(s) && CanPop(s.store.queue, popped)
    ensures var t := Taken(s.store, ack, popped, deadline);
      && WellFormed(t) && Scored(t)
      && (forall m | m in t.queue :: m in s.store.queue)
      && (forall id | id in t.payload :: Runnable(s, t.payload[id]))
  {
    hide *;
    WhatCopiesOkSays(s);
    TakeIsClean(s.store, ack, popped, deadline);
    if popped.Some? { PoppedCopies(s, popped); }
  }

  lemma TakeCopies(s: Sys, w: WorkerId, popped: Option<Job>)
    requires CopiesOk(s) && Free(s, w) && CanPop(s.store.queue, popped)
    ensures CopiesOk(AfterTake(s, w, popped))
  {
    hide CopiesOk, Runnable, Waiting, CopyOf, Taken, CanPop, WellFormed, Scored, SchedulerOk;
    WhatCopiesOkSays(s);
    TakenStoreCopies(s, PendingId(s.workers[w]), popped, s.now + s.lease);
    if popped.Some? { PoppedCopies(s, popped); }
    TakeLeavesScheduler(s, w, popped);
    StoreCopies(s, AfterTake(s, w, popped));
  }

  lemma LostReplyCopies(s: Sys, w: WorkerId, popped: Option<Job>)
    requires CopiesOk(s) && Free(s, w) && CanPop(s.store.queue, popped)
    ensures CopiesOk(AfterLostReply(s, w, popped))
  {
    hide CopiesOk, Runnable, Waiting, CopyOf, Taken, CanPop, WellFormed, Scored, SchedulerOk;
    WhatCopiesOkSays(s);
    TakenStoreCopies(s, PendingId(s.workers[w]), popped, s.now + s.lease);
    SameScheduler(s, AfterLostReply(s, w, popped));
    StoreCopies(s, AfterLostReply(s, w, popped));
  }

  lemma TakeLeavesScheduler(s: Sys, w: WorkerId, popped: Option<Job>)
    requires SchedulerOk(s) && Free(s, w) && CanPop(s.store.queue, popped)
    ensures SchedulerOk(AfterTake(s, w, popped))
  {
    hide CanPop;
    SameScheduler(s, AfterTake(s, w, popped));
  }

  lemma SameScheduler(s: Sys, t: Sys)
    requires SchedulerOk(s) && t.delayed == s.delayed && t.sched == s.sched && t.now >= s.now
    ensures SchedulerOk(t)
  {
  }

  lemma RequeuedStoreCopies(s: Sys, job: Job)
    requires CopiesOk(s) && Runnable(s, job)
    ensures var t := Requeued(s.store, job);
      && WellFormed(t) && Scored(t)
      && (forall m | m in t.queue :: m in s.store.queue || Runnable(s, m))
      && (forall id | id in t.payload :: Runnable(s, t.payload[id]))
  {
    hide *;
    WhatCopiesOkSays(s);
    RequeueIsClean(s.store, job);
  }

  lemma ReplaceCopies(s: Sys, w: WorkerId, landed: bool, replied: bool, spare: WorkerId)
    requires CopiesOk(s) && w in s.workers && spare !in s.workers
    ensures CopiesOk(AfterReplace(s, w, landed, replied, spare))
  {
    hide CopiesOk, CanRun, Waiting, IsCopy, WellFormed, Scored, SchedulerOk, Requeued;
    WhatCopiesOkSays(s);
    assert WorkerCopies(s, s.workers[w]);
    if s.workers[w].current.Some? {
      StatusIsFree(s.origin, s.now, s.workers[w].current.value, Pending);
      RequeuedStoreCopies(s, s.workers[w].current.value.(status := Pending));
    }
    SameScheduler(s, AfterReplace(s, w, landed, replied, spare));
    StoreCopies(s, AfterReplace(s, w, landed, replied, spare));
  }

  lemma ReapCopies(s: Sys, ids: seq<JobId>, limit: int)
    requires CopiesOk(s) && Enabled(s, Reap(ids, limit))
    ensures CopiesOk(Apply(s, Reap(ids, limit)))
  {
    hide CopiesOk, Runnable, Waiting, Scored, SchedulerOk, Reaped, WorkerCopies;
    WhatCopiesOkSays(s);
    ReapMovesLeasesToTheQueue(s.store, ids);
    SameScheduler(s, Apply(s, Reap(ids, limit)));
    StoreCopies(s, Apply(s, Reap(ids, limit)));
  }

  lemma BackoffAdds(attempt: nat, jitter: Micros)
    requires IsJitter(jitter)
    ensures BackoffBefore(attempt) + Backoff(attempt + 1, jitter) >= BackoffBefore(attempt + 1)
    ensures Backoff(attempt + 1, jitter) >= SECOND
  {
  }

  /** What handle_failure makes of a copy that was running. */
  lemma DecidedCopies(origin: map<JobId, Job>, now: Micros, job: Job, error: string, jitter: Micros)
    requires CanRun(origin, now, job) && IsJitter(jitter)
    ensures var d := Decide(job, error, now, jitter);
      && IsCopy(origin, d.job)
      && (d.Retry? ==> CanWait(origin, d.job))
      && (d.DeadLetter? ==> IsBuried(origin, now, DeadRecord(d.job, now)))
  {
    BackoffAdds(job.attempt, jitter);
  }

  lemma WrittenCopies(s: Sys, w: WorkerId, error: string, jitter: Micros)
    requires CopiesOk(s) && Busy(s, w) && IsJitter(jitter)
    ensures CopiesOk(Written(s, Decided(s, w, error, jitter)))
    ensures CopyOf(s, Decided(s, w, error, jitter).job)
  {
    hide CanRun, CanWait, IsBuried, IsCopy, WellFormed, Scored, Decide;
    assert WorkerCopies(s, s.workers[w]);
    DecidedCopies(s.origin, s.now, s.workers[w].current.value, error, jitter);
    assert forall e | e in s.delayed :: Waiting(s, e);
    assert forall v | v in s.workers :: WorkerCopies(s, s.workers[v]);
  }

  /** A worker has put its job away. */
  lemma RecordedCopies(s: Sys, w: WorkerId, x: Worker, done: multiset<JobId>)
    requires CopiesOk(s) && w in s.workers && WorkerCopies(s, x)
    requires forall id | id in done :: id in s.done || id in s.origin
    ensures CopiesOk(s.(done := done, workers := s.workers[w := x]))
  {
    hide CanRun, CanWait, IsBuried, IsCopy, WellFormed, Scored;
    assert forall v | v in s.workers :: WorkerCopies(s, s.workers[v]);
    assert forall d | d in s.delayed :: Waiting(s, d);
  }

  lemma SucceedCopies(s: Sys, w: WorkerId)
    requires CopiesOk(s) && Busy(s, w)
    ensures CopiesOk(AfterSuccess(s, w))
  {
    assert WorkerCopies(s, s.workers[w]);
    hide CopiesOk;
    RecordedCopies(s, w, AfterSuccess(s, w).workers[w], AfterSuccess(s, w).done);
  }

  lemma FailCopies(s: Sys, w: WorkerId, error: string, jitter: Micros)
    requires CopiesOk(s) && Busy(s, w) && IsJitter(jitter)
    ensures CopiesOk(AfterFailure(s, w, error, jitter))
  {
    hide CopiesOk, Decide, IsCopy;
    var t := Written(s, Decided(s, w, error, jitter));
    WrittenCopies(s, w, error, jitter);
    RecordedCopies(t, w, AfterFailure(s, w, error, jitter).workers[w], t.done);
  }

  lemma UnrecordedCopies(s: Sys, w: WorkerId, error: string, jitter: Micros, landed: bool)
    requires CopiesOk(s) && Busy(s, w) && IsJitter(jitter)
    ensures CopiesOk(AfterFailureUnrecorded(s, w, error, jitter, landed))
  {
    hide CopiesOk, Decide, CopyOf;
    WhatCopiesOkSays(s);
    var t := if landed then Written(s, Decided(s, w, error, jitter)) else s;
    WrittenCopies(s, w, error, jitter);
    assert WorkerCopies(s, s.workers[w]);
    assert s.workers[w].pending.Some? ==> CopyOf(t, s.workers[w].pending.value) by { SameOrigin(s, t); }
    RecordedCopies(t, w, AfterFailureUnrecorded(s, w, error, jitter, landed).workers[w], t.done);
  }

  lemma SameOrigin(s: Sys, t: Sys)
    requires t.origin == s.origin
    ensures forall j :: CopyOf(s, j) <==> CopyOf(t, j)
  {
    hide IsCopy;
  }

  lemma SchedulingCopies(s: Sys, e: Event)
    requires CopiesOk(s) && Enabled(s, e) && (e.PollRead? || e.PollRemove? || e.CrashScheduler?)
    ensures CopiesOk(Apply(s, e))
  {
    hide CopiesOk, Waiting, Runnable, WorkerCopies, WellFormed, Scored;
    WhatCopiesOkSays(s);
    StoreCopies(s, Apply(s, e));
  }

  lemma PushCopies(s: Sys)
    requires CopiesOk(s) && Enabled(s, PollPush)
    ensures CopiesOk(Apply(s, PollPush))
  {
    hide CopiesOk, Waiting, Runnable, WorkerCopies;
    WhatCopiesOkSays(s);
    WaitingIsRunnable(s, s.sched.due[0]);
    StoreCopies(s, Apply(s, PollPush));
  }

  lemma WaitingIsRunnable(s: Sys, d: Job)
    requires Waiting(s, d) && d.nextRetryTime <= s.now
    ensures Runnable(s, Promoted(d))
  {
  }

  lemma CopiesOutlastSubmissions(origin: map<JobId, Job>, job: Job, now: Micros)
    requires job.id !in origin
    ensures var grown := origin[job.id := job];
      && (forall j | IsCopy(origin, j) :: IsCopy(grown, j))
      && (forall j | CanRun(origin, now, j) :: CanRun(grown, now, j))
      && (forall j | CanWait(origin, j) :: CanWait(grown, j))
      && (forall r | IsBuried(origin, now, r) :: IsBuried(grown, now, r))
  {
    hide BackoffBefore, LastAttempt, SameJob;
  }

  lemma OriginGrows(s: Sys, job: Job)
    requires CopiesOk(s) && job.id !in s.origin
    ensures CopiesOk(s.(origin := s.origin[job.id := job]))
  {
    hide IsCopy, CanRun, CanWait, IsBuried, WellFormed, Scored;
    CopiesOutlastSubmissions(s.origin, job, s.now);
    assert forall v | v in s.workers :: WorkerCopies(s, s.workers[v]);
    assert forall d | d in s.delayed :: Waiting(s, d);
    assert forall r | r in s.dlq :: Buried(s, r);
  }

  lemma SubmitCopies(s: Sys, job: Job, replied: bool)
    requires CopiesOk(s) && Enabled(s, Submit(job, replied))
    ensures CopiesOk(Apply(s, Submit(job, replied)))
  {
    hide CopiesOk, Waiting, WorkerCopies, CanRun;
    var t := s.(origin := s.origin[job.id := job]);
    OriginGrows(s, job);
    NewJobCanRun(t.origin, s.now, job);
    WhatCopiesOkSays(t);
    SameScheduler(t, Apply(s, Submit(job, replied)));
    StoreCopies(t, Apply(s, Submit(job, replied)));
  }

  lemma NewJobCanRun(origin: map<JobId, Job>, now: Micros, job: Job)
    requires job.id in origin && origin[job.id] == job && job.attempt == 0 && job.submitTime <= now
    ensures CanRun(origin, now, job)
  {
  }

  lemma QuietCopies(s: Sys, e: Event)
    requires CopiesOk(s) && Enabled(s, e) && IsQuiet(e)
    ensures CopiesOk(Apply(s, e))
  {
    hide Apply, Enabled, CopiesOk, Runnable, Waiting;
    QuietEffect(s, e);
    WhatCopiesOkSays(s);
    StoreCopies(s, Apply(s, e));
  }

  lemma ExitCopies(s: Sys, w: WorkerId, landed: bool)
    requires CopiesOk(s) && w in s.workers
    ensures CopiesOk(AfterExit(s, w, landed))
  {
    hide CopiesOk, Runnable, Waiting;
    WhatCopiesOkSays(s);
    StoreCopies(s, AfterExit(s, w, landed));
  }

  lemma TickCopies(s: Sys, elapsed: Micros)
    requires CopiesOk(s) && elapsed > 0
    ensures CopiesOk(s.(now := s.now + elapsed))
  {
  }

  lemma StepKeepsCopies(s: Sys, e: Event)
    requires CopiesOk(s) && Enabled(s, e)
    ensures CopiesOk(Apply(s, e))
  {
    hide CopiesOk;
    match e {
      case Submit(job, replied) => SubmitCopies(s, job, replied);
      case Succeed(w) => SucceedCopies(s, w);
      case Fail(w, error, jitter) => FailCopies(s, w, error, jitter);
      case FailUnrecorded(w, error, jitter, landed) => UnrecordedCopies(s, w, error, jitter, landed);
      case Replace(w, landed, replied, spare) => ReplaceCopies(s, w, landed, replied, spare);
      case Reap(ids, limit) => ReapCopies(s, ids, limit);
      case Tick(elapsed) => TickCopies(s, elapsed);
      case Exit(w, landed) => ExitCopies(s, w, landed);
      case Take(w, popped) => TakeCopies(s, w, popped);
      case TakeLostReply(w, popped) => LostReplyCopies(s, w, popped);
      case PollPush => PushCopies(s);
      case _ =>
        if e.PollRead? || e.PollRemove? || e.CrashScheduler? {
          SchedulingCopies(s, e);
        } else {
          QuietCopies(s, e);
        }
    }
  }

  lemma {:induction false} RunKeepsCopies(s: Sys, es: seq<Event>)
    requires CopiesOk(s) && Valid(s, es)
    ensures CopiesOk(Exec(s, es))
    decreases |es|
  {
    if es != [] {
      StepKeepsCopies(s, es[0]);
      RunKeepsCopies(Apply(s, es[0]), es[1..]);
    }
  }

  // ---------------------------------------------------------------- results

  /** In every run, duplicates and reruns after a lost lease included, a copy that can still run
      has attempts left, and a dead letter used up exactly all of them. */
  lemma AttemptsAreBounded(s: Sys, es: seq<Event>)
    requires Initial(s) && Valid(s, es)
    ensures var t := Exec(s, es);
      && (forall m | m in t.store.queue :: m.attempt < Max(1, m.maxRetries))
      && (forall id | id in t.store.payload :: t.store.payload[id].attempt < Max(1, t.store.payload[id].maxRetries))
      && (forall d | d in t.delayed :: 1 <= d.attempt < Max(1, d.maxRetries))
      && (forall r | r in t.dlq :: r.job.attempt == Max(1, r.job.maxRetries))
  {
    RunKeepsCopies(s, es);
    var t := Exec(s, es);
    assert forall id | id in t.store.payload :: Runnable(t, t.store.payload[id]);
    assert forall d | d in t.delayed :: Waiting(t, d);
    assert forall r | r in t.dlq :: Buried(t, r);
  }

  lemma RunnableHasWaited(s: Sys, m: Job)
    requires Runnable(s, m)
    ensures s.now >= m.submitTime + (Pow2(m.attempt) - 1) * SECOND
  {
  }

  lemma BuriedHasWaited(s: Sys, r: DeadRecord)
    requires Buried(s, r)
    ensures r.job.attempt >= 1 && r.deadAt >= r.job.submitTime + (Pow2(r.job.attempt - 1) - 1) * SECOND
  {
  }

  /** In every run, a copy on attempt a is queued or leased only once the whole backoff before
      attempt a has passed since submission, and a job dead-lettered on attempt m was given up
      only after the backoff before attempt m - 1. */
  lemma BackoffIsWaitedOut(s: Sys, es: seq<Event>)
    requires Initial(s) && Valid(s, es)
    ensures var t := Exec(s, es);
      && (forall m | m in t.store.queue :: t.now >= m.submitTime + (Pow2(m.attempt) - 1) * SECOND)
      && (forall id | id in t.store.payload :: var m := t.store.payload[id];
            t.now >= m.submitTime + (Pow2(m.attempt) - 1) * SECOND)
      && (forall r | r in t.dlq :: r.job.attempt >= 1
            && r.deadAt >= r.job.submitTime + (Pow2(r.job.attempt - 1) - 1) * SECOND)
  {
    RunKeepsCopies(s, es);
    var t := Exec(s, es);
    hide Pow2, Runnable, Buried, Waiting, WellFormed, Scored, SchedulerOk, WorkerCopies;
    forall m | m in t.store.queue ensures t.now >= m.submitTime + (Pow2(m.attempt) - 1) * SECOND {
      RunnableHasWaited(t, m);
    }
    forall id | id in t.store.payload
      ensures var m := t.store.payload[id]; t.now >= m.submitTime + (Pow2(m.attempt) - 1) * SECOND
    {
      RunnableHasWaited(t, t.store.payload[id]);
    }
    forall r | r in t.dlq
      ensures r.job.attempt >= 1 && r.deadAt >= r.job.submitTime + (Pow2(r.job.attempt - 1) - 1) * SECOND
    {
      BuriedHasWaited(t, r);
    }
  }
}
