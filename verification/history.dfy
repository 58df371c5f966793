/** What every copy of a job tells of its past: a copy that has not failed is the submitted record,
    and one that has carries the error of a failure that happened, on the attempt it says, with a
    retry time that follows from the time of that failure. */
module History {
  import opened Prelude
  import opened Jobs
  import opened LeaseModel
  import opened DeadLetters
  import opened DelayedJobs
  import opened Retries
  import opened System
  import opened Copies

  /** An attempt of a job that failed, counted from one, with its error and its time. */
  datatype Failure = Failure(id: JobId, attempt: nat, error: string, at: Micros)

  ghost function FailuresAt(s: Sys, e: Event): set<Failure>
    requires Enabled(s, e)
  {
    if e.Fail? || e.FailUnrecorded?
    then {Failure(s.workers[e.w].current.value.id, s.workers[e.w].current.value.attempt + 1, e.error, s.now)}
    else {}
  }

  /** The failures of a run, with those before it. */
  ghost function FailuresAfter(s: Sys, es: seq<Event>, past: set<Failure>): set<Failure>
    requires Valid(s, es)
    decreases |es|
  {
    if es == [] then past else FailuresAfter(Apply(s, es[0]), es[1..], past + FailuresAt(s, es[0]))
  }

  /** The failure is the last one of this copy: the copy names it, and its retry was due half a
      second times two to the attempt after it, and at most half a second later. */
  predicate LeftBy(f: Failure, job: Job) {
    && f.id == job.id && f.attempt == job.attempt && job.error == Some(f.error)
    && f.at + Pow2(job.attempt) * 500_000 <= job.nextRetryTime <= f.at + Pow2(job.attempt) * 500_000 + 500_000
  }

  ghost predicate HasFailed(past: set<Failure>, job: Job) {
    job.attempt >= 1 && exists f | f in past :: LeftBy(f, job)
  }

  /** As submitted, whatever its status. */
  predicate IsUntried(origin: map<JobId, Job>, job: Job) {
    job.attempt == 0 && job.id in origin && job.(status := origin[job.id].status) == origin[job.id]
  }

  ghost predicate Explained(origin: map<JobId, Job>, past: set<Failure>, job: Job) {
    IsUntried(origin, job) || HasFailed(past, job)
  }

  ghost predicate DiedOf(past: set<Failure>, r: DeadRecord) {
    exists f | f in past ::
      f.id == r.job.id && f.attempt == r.job.attempt && r.job.error == Some(f.error) && f.at == r.deadAt
  }

  ghost predicate IsReady(s: Sys, past: set<Failure>, job: Job) {
    job.status == Pending && Explained(s.origin, past, job)
  }

  ghost predicate IsWaiting(past: set<Failure>, job: Job) {
    job.status == Pending && HasFailed(past, job)
  }

  ghost predicate DeadInOrder(s: Sys, past: set<Failure>) {
    && (forall r | r in s.dlq :: r.job.status == Dead && DiedOf(past, r))
    && (forall i, j | 0 <= i < j < |s.dlq| :: s.dlq[i].deadAt >= s.dlq[j].deadAt)
  }

  ghost predicate Runs(s: Sys, past: set<Failure>, x: Worker) {
    x.current.Some? ==> Explained(s.origin, past, x.current.value)
  }

  ghost predicate StoreTells(s: Sys, past: set<Failure>, store: Store) {
    && (forall m | m in store.queue :: IsReady(s, past, m))
    && (forall id | id in store.payload :: IsReady(s, past, store.payload[id]))
  }

  ghost predicate WorkersTell(s: Sys, past: set<Failure>, ws: map<WorkerId, Worker>) {
    forall w | w in ws :: Runs(s, past, ws[w])
  }

  ghost predicate Tells(s: Sys, past: set<Failure>) {
    && (forall f | f in past :: f.at <= s.now)
    && StoreTells(s, past, s.store)
    && (forall d | d in s.delayed :: IsWaiting(past, d))
    && WorkersTell(s, past, s.workers)
    && DeadInOrder(s, past)
  }

  // ---------------------------------------------------------------- preservation

  /** A step in which nothing fails: copies move about, and delayed entries may go. */
  lemma MovingTells(s: Sys, t: Sys, past: set<Failure>)
    requires Tells(s, past) && t.now >= s.now && t.dlq == s.dlq && t.origin == s.origin
    requires StoreTells(s, past, t.store) && WorkersTell(s, past, t.workers)
    requires forall d | d in t.delayed :: d in s.delayed
    ensures Tells(t, past)
  {
    hide Explained, HasFailed, DiedOf;
  }

  lemma WhatTellsSays(s: Sys, past: set<Failure>)
    requires Tells(s, past)
    ensures StoreTells(s, past, s.store) && WorkersTell(s, past, s.workers)
    ensures forall d | d in s.delayed :: IsWaiting(past, d)
  {
  }

  lemma TakenStoreTells(s: Sys, past: set<Failure>, ack: Option<JobId>, popped: Option<Job>, deadline: Micros)
    requires StoreTells(s, past, s.store) && WellFormed(s.store) && CanPop(s.store.queue, popped)
    ensures StoreTells(s, past, Taken(s.store, ack, popped, deadline))
    ensures popped.Some? ==> Explained(s.origin, past, popped.value.(status := Running))
  {
    TakeIsClean(s.store, ack, popped, deadline);
    hide Taken, WellFormed;
  }

  lemma TakeTells(s: Sys, past: set<Failure>, e: Event)
    requires Tells(s, past) && WellFormed(s.store) && Enabled(s, e) && (e.Take? || e.TakeLostReply?)
    ensures Tells(Apply(s, e), past)
  {
    hide Tells, StoreTells, Explained, WellFormed, Taken, CanPop;
    WhatTellsSays(s, past);
    TakenStoreTells(s, past, PendingId(s.workers[e.w]), e.popped, s.now + s.lease);
    MovingTells(s, Apply(s, e), past);
  }

  lemma ResetTells(origin: map<JobId, Job>, past: set<Failure>, job: Job)
    requires Explained(origin, past, job)
    ensures Explained(origin, past, job.(status := Pending))
  {
    if f :| f in past && LeftBy(f, job) {
      assert LeftBy(f, job.(status := Pending));
    }
  }

  lemma RequeuedStoreTells(s: Sys, past: set<Failure>, job: Job)
    requires StoreTells(s, past, s.store) && WellFormed(s.store) && Explained(s.origin, past, job)
    ensures StoreTells(s, past, Requeued(s.store, job.(status := Pending)))
  {
    ResetTells(s.origin, past, job);
    RequeueIsClean(s.store, job.(status := Pending));
    hide Requeued, WellFormed, Explained;
  }

  lemma ReplaceTells(s: Sys, past: set<Failure>, w: WorkerId, landed: bool, replied: bool, spare: WorkerId)
    requires Tells(s, past) && WellFormed(s.store) && w in s.workers
    ensures Tells(AfterReplace(s, w, landed, replied, spare), past)
  {
    hide Tells, StoreTells, Explained, WellFormed, Requeued;
    WhatTellsSays(s, past);
    assert Runs(s, past, s.workers[w]);
    if s.workers[w].current.Some? {
      ResetTells(s.origin, past, s.workers[w].current.value);
      RequeuedStoreTells(s, past, s.workers[w].current.value);
    }
    MovingTells(s, AfterReplace(s, w, landed, replied, spare), past);
  }

  lemma ReapTells(s: Sys, past: set<Failure>, ids: seq<JobId>, limit: int)
    requires Tells(s, past) && WellFormed(s.store) && Enabled(s, Reap(ids, limit))
    ensures Tells(Apply(s, Reap(ids, limit)), past)
  {
    hide Tells, Reaped, StoreTells, WorkersTell, IsExpiredBatch;
    WhatTellsSays(s, past);
    ReapedStoreTells(s, past, ids);
    MovingTells(s, Apply(s, Reap(ids, limit)), past);
  }

  lemma ReapedStoreTells(s: Sys, past: set<Failure>, ids: seq<JobId>)
    requires StoreTells(s, past, s.store) && WellFormed(s.store)
    ensures StoreTells(s, past, Reaped(s.store, ids))
  {
    ReapMovesLeasesToTheQueue(s.store, ids);
    hide Reaped, IsReady;
  }

  lemma ExitTells(s: Sys, past: set<Failure>, w: WorkerId, landed: bool)
    requires Tells(s, past) && w in s.workers
    ensures Tells(AfterExit(s, w, landed), past)
  {
    WhatTellsSays(s, past);
    hide Tells, IsReady, Runs;
    MovingTells(s, AfterExit(s, w, landed), past);
  }

  lemma PushTells(s: Sys, past: set<Failure>)
    requires Tells(s, past) && SchedulerOk(s) && Enabled(s, PollPush)
    ensures Tells(Apply(s, PollPush), past)
  {
    WhatTellsSays(s, past);
    var d := s.sched.due[0];
    assert d in s.delayed;
    hide Tells, HasFailed, WorkersTell;
    assert IsReady(s, past, Promoted(d)) by { ResetTells(s.origin, past, d); }
    MovingTells(s, Apply(s, PollPush), past);
  }

  lemma SubmitTells(s: Sys, past: set<Failure>, job: Job, replied: bool)
    requires Tells(s, past) && Enabled(s, Submit(job, replied))
    ensures Tells(Apply(s, Submit(job, replied)), past)
  {
    var t := s.(origin := s.origin[job.id := job]);
    assert IsReady(t, past, job);
    hide HasFailed, DiedOf;
    assert forall j | Explained(s.origin, past, j) :: Explained(t.origin, past, j);
    assert Tells(t, past);
    hide Tells, IsReady, WorkersTell;
    WhatTellsSays(t, past);
    MovingTells(t, Apply(s, Submit(job, replied)), past);
  }

  lemma QuietTells(s: Sys, past: set<Failure>, e: Event)
    requires Tells(s, past) && Enabled(s, e) && IsQuiet(e)
    ensures Tells(Apply(s, e), past)
  {
    hide Tells, IsReady, Explained, Apply, Enabled;
    QuietEffect(s, e);
    WhatTellsSays(s, past);
    MovingTells(s, Apply(s, e), past);
  }

  lemma OtherTells(s: Sys, past: set<Failure>, e: Event)
    requires Tells(s, past) && Enabled(s, e) && (e.PollRead? || e.PollRemove? || e.Tick? || e.CrashScheduler?)
    ensures Tells(Apply(s, e), past)
  {
    WhatTellsSays(s, past);
    hide Tells, StoreTells, WorkersTell, IsDueList;
    MovingTells(s, Apply(s, e), past);
  }

  lemma SuccessTells(s: Sys, past: set<Failure>, w: WorkerId)
    requires Tells(s, past) && Busy(s, w)
    ensures Tells(AfterSuccess(s, w), past)
  {
    WhatTellsSays(s, past);
    hide Tells, StoreTells, Explained;
    MovingTells(s, AfterSuccess(s, w), past);
  }

  // ---------------------------------------------------------------- a failure

  /** What recording a failure writes. */
  lemma DecisionTells(job: Job, error: string, now: Micros, jitter: Micros, past: set<Failure>)
    requires IsJitter(jitter) && Failure(job.id, job.attempt + 1, error, now) in past
    ensures var d := Decide(job, error, now, jitter);
      && (d.Retry? ==> IsWaiting(past, d.job))
      && (d.DeadLetter? ==> d.job.status == Dead && DiedOf(past, DeadRecord(d.job, now)))
  {
    var f, d := Failure(job.id, job.attempt + 1, error, now), Decide(job, error, now, jitter);
    hide Pow2;
    assert d.Retry? ==> LeftBy(f, d.job);
  }

  lemma MoreFailures(s: Sys, past: set<Failure>, more: set<Failure>)
    requires Tells(s, past) && forall f | f in more :: f.at <= s.now
    ensures Tells(s, past + more)
  {
    hide LeftBy, IsUntried;
    assert forall j | HasFailed(past, j) :: HasFailed(past + more, j);
    assert forall r | DiedOf(past, r) :: DiedOf(past + more, r);
    hide HasFailed, DiedOf;
  }

  lemma WrittenTells(s: Sys, past: set<Failure>, d: Decision)
    requires Tells(s, past) && (d.Retry? ==> IsWaiting(past, d.job))
    requires d.DeadLetter? ==> d.job.status == Dead && DiedOf(past, DeadRecord(d.job, s.now))
    ensures Tells(Written(s, d), past)
  {
    hide HasFailed, Explained;
    forall r | r in s.dlq ensures r.deadAt <= s.now {
      assert DiedOf(past, r);
    }
    hide DiedOf;
  }

  lemma WorkerTells(t: Sys, past: set<Failure>, w: WorkerId, x: Worker)
    requires Tells(t, past) && x.current.None?
    ensures Tells(t.(workers := t.workers[w := x]), past)
  {
    WhatTellsSays(t, past);
    hide Tells, StoreTells, Explained;
    MovingTells(t, t.(workers := t.workers[w := x]), past);
  }

  lemma FailureTells(s: Sys, past: set<Failure>, e: Event)
    requires Tells(s, past) && Enabled(s, e) && (e.Fail? || e.FailUnrecorded?)
    ensures Tells(Apply(s, e), past + FailuresAt(s, e))
  {
    hide Tells, Decide, IsWaiting, DiedOf;
    var all, d := past + FailuresAt(s, e), Decided(s, e.w, e.error, e.jitter);
    MoreFailures(s, past, FailuresAt(s, e));
    DecisionTells(s.workers[e.w].current.value, e.error, s.now, e.jitter, all);
    WrittenTells(s, all, d);
    var t := if e.FailUnrecorded? && !e.landed then s else Written(s, d);
    assert Apply(s, e) == t.(workers := t.workers[e.w := Apply(s, e).workers[e.w]]);
    WorkerTells(t, all, e.w, Apply(s, e).workers[e.w]);
  }

  lemma StepTells(s: Sys, past: set<Failure>, e: Event)
    requires Tells(s, past) && WellFormed(s.store) && SchedulerOk(s) && Enabled(s, e)
    ensures Tells(Apply(s, e), past + FailuresAt(s, e))
  {
    hide Tells, WellFormed, SchedulerOk;
    assert !e.Fail? && !e.FailUnrecorded? ==> past + FailuresAt(s, e) == past;
    match e {
      case Submit(job, replied) => SubmitTells(s, past, job, replied);
      case Take(w, popped) => TakeTells(s, past, e);
      case TakeLostReply(w, popped) => TakeTells(s, past, e);
      case Succeed(w) => SuccessTells(s, past, w);
      case Fail(w, error, jitter) => FailureTells(s, past, e);
      case FailUnrecorded(w, error, jitter, landed) => FailureTells(s, past, e);
      case Exit(w, landed) => ExitTells(s, past, w, landed);
      case Replace(w, landed, replied, spare) => ReplaceTells(s, past, w, landed, replied, spare);
      case Reap(ids, limit) => ReapTells(s, past, ids, limit);
      case PollPush => PushTells(s, past);
      case _ =>
        if IsQuiet(e) {
          QuietTells(s, past, e);
        } else {
          OtherTells(s, past, e);
        }
    }
  }

  lemma {:induction false} RunTells(s: Sys, es: seq<Event>, past: set<Failure>)
    requires Tells(s, past) && CopiesOk(s) && Valid(s, es)
    ensures Tells(Exec(s, es), FailuresAfter(s, es, past))
    decreases |es|
  {
    hide Tells, CopiesOk, WellFormed, SchedulerOk, Apply, Enabled, FailuresAt;
    if es != [] {
      WhatCopiesOkSays(s);
      StepTells(s, past, es[0]);
      StepKeepsCopies(s, es[0]);
      RunTells(Apply(s, es[0]), es[1..], past + FailuresAt(s, es[0]));
    }
  }

  // ---------------------------------------------------------------- results

  /** In every run: what is queued or leased is pending, and is either as it was submitted or what
      the last failure of an attempt made of it, with its error and its retry time; so is what a
      worker runs. What is delayed has failed. What is dead died of the failure it names, when it
      happened, and the dead letters are kept with the newest first. */
  lemma CopiesTellTheirHistory(s: Sys, es: seq<Event>)
    requires Initial(s) && Valid(s, es)
    ensures var t, past := Exec(s, es), FailuresAfter(s, es, {});
      && (forall m | m in t.store.queue :: m.status == Pending && Explained(t.origin, past, m))
      && (forall id | id in t.store.payload ::
            t.store.payload[id].status == Pending && Explained(t.origin, past, t.store.payload[id]))
      && (forall d | d in t.delayed :: d.status == Pending && HasFailed(past, d))
      && (forall w | w in t.workers && t.workers[w].current.Some? :: Explained(t.origin, past, t.workers[w].current.value))
      && (forall r | r in t.dlq :: r.job.status == Dead && DiedOf(past, r))
      && (forall i, j | 0 <= i < j < |t.dlq| :: t.dlq[i].deadAt >= t.dlq[j].deadAt)
  {
    RunTells(s, es, {});
    hide Explained, HasFailed, DiedOf;
    var t, past := Exec(s, es), FailuresAfter(s, es, {});
    assert forall m | m in t.store.queue :: IsReady(t, past, m);
    assert forall w | w in t.workers :: Runs(t, past, t.workers[w]);
  }

  /** In every run, whatever is on attempt one or later carries an error, and no retry is further
      ahead than its backoff and the largest jitter. */
  lemma RetriesComeInTime(s: Sys, es: seq<Event>)
    requires Initial(s) && Valid(s, es)
    ensures var t := Exec(s, es);
      && (forall d | d in t.delayed ::
            d.error.Some? && d.nextRetryTime <= t.now + Pow2(d.attempt) * SECOND / 2 + SECOND / 2)
      && (forall m | m in t.store.queue && m.attempt >= 1 :: m.error.Some?)
      && (forall id | id in t.store.payload && t.store.payload[id].attempt >= 1 :: t.store.payload[id].error.Some?)
  {
    RunTells(s, es, {});
    hide *;
    TellsInTime(Exec(s, es), FailuresAfter(s, es, {}));
  }

  lemma TellsInTime(t: Sys, past: set<Failure>)
    requires Tells(t, past)
    ensures forall d | d in t.delayed ::
      d.error.Some? && d.nextRetryTime <= t.now + Pow2(d.attempt) * SECOND / 2 + SECOND / 2
    ensures forall m | m in t.store.queue && m.attempt >= 1 :: m.error.Some?
    ensures forall id | id in t.store.payload && t.store.payload[id].attempt >= 1 :: t.store.payload[id].error.Some?
  {
    hide Pow2;
    assert forall m | m in t.store.queue :: IsReady(t, past, m);
    forall d | d in t.delayed
      ensures d.error.Some? && d.nextRetryTime <= t.now + Pow2(d.attempt) * SECOND / 2 + SECOND / 2
    {
      assert IsWaiting(past, d);
      var f :| f in past && LeftBy(f, d);
      assert Pow2(d.attempt) * SECOND / 2 == Pow2(d.attempt) * 500_000;
    }
  }
}
