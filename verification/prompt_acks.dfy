/** The backoff floor discharges the promotion guard, and a single failed take is enough to
    leave the window it gives. */
module PromptAcks {
  import opened Prelude
  import opened Jobs
  import opened LeaseModel
  import opened DeadLetters
  import opened DelayedJobs
  import opened Retries
  import opened System
  import opened Copies
  import opened NoLoss
  import opened PromotionGuard

  /** Every live worker's unsent acknowledgement is less than a second old. */
  ghost predicate Prompt(s: Sys) {
    forall w | w in s.workers && s.workers[w].pending.Some? :: s.now < s.workers[w].recordedAt + SECOND
  }

  /** What stands behind an unsent acknowledgement: the job is done or dead, or this very
      attempt's retry is still delayed, and was not due for a second after it was recorded. */
  ghost predicate Backed(s: Sys, x: Worker) {
    x.pending.Some? ==>
      || x.pending.value.id in s.done
      || DeadLettered(s.dlq, x.pending.value.id)
      || (x.pending.value in s.delayed && x.pending.value.nextRetryTime >= x.recordedAt + SECOND)
  }

  ghost predicate AllBacked(s: Sys) {
    SchedulerOk(s) && forall w | w in s.workers :: Backed(s, s.workers[w])
  }

  /** Within the window, the promotion guard holds by itself. */
  lemma WindowImpliesGuard(s: Sys)
    requires AllBacked(s) && Prompt(s) && Enabled(s, PollPush)
    ensures PromotionSafe(s, s.sched.due[0])
  {
  }

  ghost predicate SamePending(s: Sys, t: Sys, w: WorkerId) {
    w in t.workers && t.workers[w].pending.Some? ==>
      w in s.workers && t.workers[w].pending == s.workers[w].pending && t.workers[w].recordedAt == s.workers[w].recordedAt
  }

  lemma BackedStays(s: Sys, t: Sys)
    requires AllBacked(s) && SchedulerOk(t)
    requires s.done <= t.done && forall r | r in s.dlq :: r in t.dlq
    requires forall d | d in s.delayed && d.nextRetryTime > s.now :: d in t.delayed
    requires Prompt(s)
    requires forall w | w in t.workers && t.workers[w].pending.Some? ::
      Backed(t, t.workers[w]) || SamePending(s, t, w)
    ensures AllBacked(t)
  {
  }

  lemma RecordingIsBacked(s: Sys, e: Event)
    requires AllBacked(s) && Prompt(s) && Enabled(s, e) && (e.Succeed? || e.Fail? || e.FailUnrecorded?)
    requires SchedulerOk(Apply(s, e))
    ensures AllBacked(Apply(s, e))
  {
    var t := Apply(s, e);
    hide Apply, Enabled, SchedulerOk, Prompt;
    OutcomesStay(s, e);
    NewPendingIsBacked(s, e);
    PendingElsewhere(s, e);
    BackedStays(s, t);
  }

  lemma NewPendingIsBacked(s: Sys, e: Event)
    requires SchedulerOk(s) && Enabled(s, e) && (e.Succeed? || e.Fail? || e.FailUnrecorded?)
    ensures e.w in Apply(s, e).workers
    ensures !e.FailUnrecorded? ==> Backed(Apply(s, e), Apply(s, e).workers[e.w])
    ensures e.w in s.workers
    ensures e.FailUnrecorded? ==> Apply(s, e).workers[e.w].pending == s.workers[e.w].pending
    ensures e.FailUnrecorded? ==> Apply(s, e).workers[e.w].recordedAt == s.workers[e.w].recordedAt
  {
    if e.Fail? {
      BackoffAdds(s.workers[e.w].current.value.attempt, e.jitter);
      WrittenShows(s, e.w, e.error, e.jitter);
    }
  }

  lemma PendingElsewhere(s: Sys, e: Event)
    requires Enabled(s, e) && (e.Succeed? || e.Fail? || e.FailUnrecorded?)
    ensures forall w | w in Apply(s, e).workers && w != e.w :: w in s.workers && Apply(s, e).workers[w] == s.workers[w]
  {
  }

  lemma PendingOfTakers(s: Sys, e: Event, w: WorkerId)
    requires Enabled(s, e) && (e.Take? || e.TakeLostReply? || e.Exit? || e.Replace?)
    ensures SamePending(s, Apply(s, e), w)
  {
    hide Taken, CanPop;
  }

  lemma PendingOfQuiet(s: Sys, e: Event, w: WorkerId)
    requires Enabled(s, e) && IsQuiet(e)
    ensures SamePending(s, Apply(s, e), w)
  {
  }

  lemma PendingOfOthers(s: Sys, e: Event, w: WorkerId)
    requires Enabled(s, e)
    requires e.Submit? || e.Reap? || e.PollRead? || e.PollPush? || e.PollRemove? || e.Tick? || e.CrashScheduler?
    ensures SamePending(s, Apply(s, e), w)
  {
  }

  /** No step that records no outcome makes an acknowledgement pending. */
  lemma NoNewPending(s: Sys, e: Event, w: WorkerId)
    requires Enabled(s, e) && !e.Succeed? && !e.Fail? && !e.FailUnrecorded?
    ensures SamePending(s, Apply(s, e), w)
  {
    hide Apply, Enabled, SamePending;
    if e.Take? || e.TakeLostReply? || e.Exit? || e.Replace? {
      PendingOfTakers(s, e, w);
    } else if IsQuiet(e) {
      PendingOfQuiet(s, e, w);
    } else {
      PendingOfOthers(s, e, w);
    }
  }

  /** Outcomes stay, and so do entries that are not due yet. */
  ghost predicate OutcomesKept(s: Sys, t: Sys) {
    s.done <= t.done && (forall r | r in s.dlq :: r in t.dlq)
    && forall d | d in s.delayed && d.nextRetryTime > s.now :: d in t.delayed
  }

  lemma RecordingKeepsOutcomes(s: Sys, e: Event)
    requires Enabled(s, e) && (e.Succeed? || e.Fail? || e.FailUnrecorded?)
    ensures OutcomesKept(s, Apply(s, e))
  {
    hide Decide;
  }

  lemma RemovalKeepsOutcomes(s: Sys)
    requires Enabled(s, PollRemove) && SchedulerOk(s)
    ensures OutcomesKept(s, Apply(s, PollRemove))
  {
  }

  lemma OthersKeepOutcomes(s: Sys, e: Event)
    requires Enabled(s, e) && !e.Succeed? && !e.Fail? && !e.FailUnrecorded? && !e.PollRemove?
    ensures OutcomesKept(s, Apply(s, e))
  {
    hide OutcomesKept;
    assert Apply(s, e).done == s.done && Apply(s, e).dlq == s.dlq && Apply(s, e).delayed == s.delayed;
    SameOutcomesKept(s, Apply(s, e));
  }

  lemma SameOutcomesKept(s: Sys, t: Sys)
    requires t.done == s.done && t.dlq == s.dlq && t.delayed == s.delayed
    ensures OutcomesKept(s, t)
  {
  }

  lemma OutcomesStay(s: Sys, e: Event)
    requires Enabled(s, e) && SchedulerOk(s)
    ensures OutcomesKept(s, Apply(s, e))
  {
    hide Apply, Enabled, OutcomesKept, SchedulerOk;
    if e.Succeed? || e.Fail? || e.FailUnrecorded? {
      RecordingKeepsOutcomes(s, e);
    } else if e.PollRemove? {
      RemovalKeepsOutcomes(s);
    } else {
      OthersKeepOutcomes(s, e);
    }
  }

  lemma StepKeepsBacking(s: Sys, e: Event)
    requires AllBacked(s) && Prompt(s) && Enabled(s, e) && SchedulerOk(Apply(s, e))
    ensures AllBacked(Apply(s, e))
  {
    hide Apply, Enabled, SchedulerOk, Prompt;
    if e.Succeed? || e.Fail? || e.FailUnrecorded? {
      RecordingIsBacked(s, e);
    } else {
      var t := Apply(s, e);
      forall w | w in t.workers && t.workers[w].pending.Some? ensures SamePending(s, t, w) {
        NoNewPending(s, e, w);
      }
      OutcomesStay(s, e);
      BackedStays(s, t);
    }
  }

  lemma {:induction false} PromptRunIsGuarded(s: Sys, es: seq<Event>)
    requires AllBacked(s) && CopiesOk(s) && Valid(s, es) && Always(s, es, Prompt)
    ensures Guarded(s, es)
    decreases |es|
  {
    if es != [] {
      var e, t := es[0], Apply(s, es[0]);
      if e.PollPush? {
        WindowImpliesGuard(s);
      }
      StepKeepsCopies(s, e);
      WhatCopiesOkSays(t);
      StepKeepsBacking(s, e);
      PromptRunIsGuarded(t, es[1..]);
    }
  }

  /** The backoff floor of one second: in every run in which each acknowledgement is confirmed,
      or its worker is gone, less than a second after the outcome was recorded, every promotion
      is safe and no accepted job is lost. Crashes and lost replies may happen at any point. */
  lemma PromptRunsLoseNothing(s: Sys, es: seq<Event>)
    requires Initial(s) && Valid(s, es) && Always(s, es, Prompt)
    ensures Guarded(s, es) && NoJobLost(Exec(s, es))
  {
    PromptRunIsGuarded(s, es);
    NoAcceptedJobIsLost(s, es);
  }

  // ---------------------------------------------------------------- one failed take is too many

  /** The worker cannot act before `until`, and still has the acknowledgement to send. */
  ghost predicate Sleeping(s: Sys, w: WorkerId, ack: Job, until: Micros) {
    && w in s.workers && s.workers[w].current.None?
    && s.workers[w].pending == Some(ack) && s.workers[w].wakeAt >= until
  }

  ghost predicate Spares(e: Event, w: WorkerId, p: PoolId) {
    e != CrashWorker(w) && e != CrashPool(p)
  }

  predicate ActsAsWorker(e: Event) {
    e.Take? || e.TakeLostRequest? || e.TakeLostReply? || e.Succeed? || e.Fail? || e.FailUnrecorded? || e.Exit?
  }

  lemma OthersActElsewhere(s: Sys, e: Event, w: WorkerId)
    requires Enabled(s, e) && ActsAsWorker(e) && e.w != w && w in s.workers
    ensures w in Apply(s, e).workers && Apply(s, e).workers[w] == s.workers[w]
  {
  }

  lemma SleeperDoesNotAct(s: Sys, e: Event, w: WorkerId, ack: Job, until: Micros)
    requires Sleeping(s, w, ack, until) && s.now < until && Enabled(s, e) && ActsAsWorker(e)
    ensures e.w != w
  {
  }

  lemma SleeperIsLeft(s: Sys, e: Event, w: WorkerId, ack: Job, until: Micros)
    requires Sleeping(s, w, ack, until) && Enabled(s, e) && Spares(e, w, s.workers[w].pool)
    requires e.Spawn? || e.Stop? || e.Replace? || e.CrashWorker? || e.CrashPool?
    ensures Sleeping(Apply(s, e), w, ack, until) && Apply(s, e).workers[w].pool == s.workers[w].pool
  {
  }

  lemma SameWorkers(s: Sys, e: Event)
    requires Enabled(s, e) && !ActsAsWorker(e) && !e.Spawn? && !e.Stop? && !e.Replace? && !e.CrashWorker? && !e.CrashPool?
    ensures Apply(s, e).workers == s.workers
  {
  }

  lemma SleeperStays(s: Sys, e: Event, w: WorkerId, ack: Job, until: Micros)
    requires Sleeping(s, w, ack, until) && s.now < until && Enabled(s, e) && Spares(e, w, s.workers[w].pool)
    ensures Sleeping(Apply(s, e), w, ack, until) && Apply(s, e).workers[w].pool == s.workers[w].pool
  {
    hide Apply, Enabled;
    if ActsAsWorker(e) {
      SleeperDoesNotAct(s, e, w, ack, until);
      OthersActElsewhere(s, e, w);
    } else if e.Spawn? || e.Stop? || e.Replace? || e.CrashWorker? || e.CrashPool? {
      SleeperIsLeft(s, e, w, ack, until);
    } else {
      SameWorkers(s, e);
    }
  }

  lemma ClockOnlyAdvances(s: Sys, e: Event)
    requires Enabled(s, e)
    ensures Apply(s, e).now >= s.now
  {
  }

  lemma {:induction false} ClockAdvancesThrough(s: Sys, es: seq<Event>)
    requires Valid(s, es)
    ensures Exec(s, es).now >= s.now
    decreases |es|
  {
    if es != [] {
      ClockOnlyAdvances(s, es[0]);
      ClockAdvancesThrough(Apply(s, es[0]), es[1..]);
    }
  }

  lemma {:induction false} SleeperSleepsOn(s: Sys, es: seq<Event>, w: WorkerId, ack: Job, until: Micros)
    requires Sleeping(s, w, ack, until) && Valid(s, es)
    requires forall e | e in es :: Spares(e, w, s.workers[w].pool)
    requires Exec(s, es).now < until
    ensures w in Exec(s, es).workers && Exec(s, es).workers[w].pending == Some(ack)
    decreases |es|
  {
    if es != [] {
      ClockOnlyAdvances(s, es[0]);
      ClockAdvancesThrough(Apply(s, es[0]), es[1..]);
      SleeperStays(s, es[0], w, ack, until);
      SleeperSleepsOn(Apply(s, es[0]), es[1..], w, ack, until);
    }
  }

  /** The error back-off of the worker is as long as the window. Once one take that carried an
      acknowledgement has raised, request or reply lost, the worker does not get rid of the
      acknowledgement inside the window any more, unless its process dies. */
  lemma FailedTakeMissesTheWindow(s: Sys, e: Event, es: seq<Event>)
    requires Enabled(s, e) && (e.TakeLostRequest? || e.TakeLostReply?)
    requires s.workers[e.w].pending.Some? && s.workers[e.w].recordedAt <= s.now
    requires Valid(Apply(s, e), es) && forall f | f in es :: Spares(f, e.w, s.workers[e.w].pool)
    requires Exec(Apply(s, e), es).now < s.workers[e.w].recordedAt + SECOND
    ensures var t := Exec(Apply(s, e), es); e.w in t.workers && t.workers[e.w].pending == s.workers[e.w].pending
  {
    SleeperSleepsOn(Apply(s, e), es, e.w, s.workers[e.w].pending.value, s.workers[e.w].recordedAt + SECOND);
  }

  // ---------------------------------------------------------------- and it can cost the job

  /** One worker in one pool, and nothing queued. */
  ghost predicate Alone(s: Sys) {
    s.workers.Keys == {0} && 0 in s.pools && s.store.queue == map[]
  }

  /** A submitted job in the hands of the only worker. */
  ghost predicate FirstAttempt(s: Sys, job: Job) {
    && Alone(s) && job.id in s.accepted && s.delayed == map[] && s.sched.Idle? && s.dlq == [] && s.done == multiset{}
    && s.workers[0].running && s.workers[0].wakeAt <= s.now
    && s.workers[0].current == Some(job.(status := Running))
  }

  /** Nothing goes wrong but deaths of workers. */
  ghost predicate Ordinary(es: seq<Event>) {
    forall e | e in es :: IsPlain(e) || (e.Submit? && e.replied) || e.PollRead? || e.PollPush?
  }

  /** Not even those. */
  ghost predicate Uneventful(es: seq<Event>) {
    Ordinary(es) && forall e | e in es :: !e.CrashWorker?
  }

  lemma LeadsToFirstAttempt(s: Sys, job: Job) returns (es: seq<Event>, t: Sys)
    requires Initial(s) && job.attempt == 0 && job.status == Pending && job.submitTime <= s.now
    ensures LeadsTo(s, es, t) && Pushless(es) && Uneventful(es) && FirstAttempt(t, job) && t.now == s.now
  {
    var e1, e2, e3, e4 := StartPool(0, 0), Spawn(0, 0), Submit(job, true), Take(0, Some(job));
    var s1 := Apply(s, e1);
    var s2 := Apply(s1, e2);
    var s3 := Apply(s2, e3);
    assert s3.store.queue == map[job := Score(job)] && IsMax(s3.store.queue, job);
    t := Apply(s3, e4);
    assert FirstAttempt(t, job) && t.now == s.now;
    assert LeadsTo(s, [], s);
    hide Enabled, Apply, FirstAttempt, Initial, IsMax, LeadsTo;
    ThenOne(s, [], s, e1);
    ThenOne(s, [] + [e1], s1, e2);
    ThenOne(s, [] + [e1] + [e2], s2, e3);
    ThenOne(s, [] + [e1] + [e2] + [e3], s3, e4);
    es := [] + [e1] + [e2] + [e3] + [e4];
  }

  /** Its retry is delayed and its acknowledgement unsent. */
  ghost predicate RetryRecorded(s: Sys, retry: Job) {
    && Alone(s) && retry.id in s.accepted && s.sched.Idle? && s.dlq == [] && s.done == multiset{}
    && s.delayed == map[retry := s.now + SECOND]
    && s.workers[0].running && s.workers[0].wakeAt <= s.now
    && s.workers[0].current.None? && s.workers[0].pending == Some(retry)
  }

  lemma FirstFailure(s: Sys, job: Job) returns (e: Event, t: Sys, retry: Job)
    requires FirstAttempt(s, job) && s.now + 2 * SECOND <= MAX_DATETIME && job.attempt == 0 && job.maxRetries >= 2
    ensures LeadsTo(s, [e], t) && e.Fail? && RetryRecorded(t, retry) && retry.id == job.id
  {
    e := Fail(0, "boom", 0);
    assert Pow2(1) == 2;
    retry := Decided(s, 0, "boom", 0).job;
    t := Apply(s, e);
    RunOfOne(s, e);
  }

  /** The request of the next take is lost. */
  lemma LostTake(s: Sys, retry: Job) returns (e: Event, t: Sys)
    requires RetryRecorded(s, retry)
    ensures LeadsTo(s, [e], t) && e.TakeLostRequest? && StillOwing(t, retry)
  {
    e := TakeLostRequest(0);
    t := Apply(s, e);
    RunOfOne(s, e);
  }

  ghost predicate StillOwing(s: Sys, retry: Job) {
    && Alone(s) && retry.id in s.accepted && s.sched.Idle? && s.dlq == [] && s.done == multiset{}
    && s.delayed == map[retry := s.now + SECOND]
    && PendingId(s.workers[0]) == Some(retry.id) && s.workers[0].running && s.workers[0].current.None?
    && s.workers[0].wakeAt == s.now + SECOND
  }

  /** The retry is about to be promoted, and the worker about to try again. */
  ghost predicate BothDue(t: Sys, retry: Job) {
    && Alone(t) && t.sched == Polling([retry], false)
    && PendingId(t.workers[0]) == Some(retry.id) && Free(t, 0) && t.workers[0].running
  }

  /** The retry falls due before the worker tries again. */
  lemma RetryFallsDue(s: Sys, retry: Job) returns (es: seq<Event>, t: Sys)
    requires StillOwing(s, retry)
    ensures LeadsTo(s, es, t) && Pushless(es) && Uneventful(es)
    ensures retry.id in t.accepted && Enabled(t, PollPush) && t.sched.due[0] == retry && !PromotionSafe(t, retry)
    ensures BothDue(t, retry)
  {
    hide PromotionSafe, IsDueList, PendingId, LeadsTo;
    var s1, e1, e2 := s.(now := s.now + SECOND), Tick(SECOND), PollRead([retry]);
    t := s1.(sched := Polling([retry], false));
    DueByNow(s1.delayed, s1.now, retry);
    NotSafe(t, retry);
    TickIs(s, SECOND);
    ReadIs(s1, [retry]);
    hide Enabled, Apply, StillOwing;
    RunOfOneLeads(s, e1);
    ThenOne(s, [e1], s1, e2);
    es := [e1] + [e2];
  }

  lemma NotSafe(s: Sys, entry: Job)
    requires s.dlq == [] && s.done == multiset{} && s.delayed.Keys == {entry}
    requires 0 in s.workers && PendingId(s.workers[0]) == Some(entry.id)
    ensures !PromotionSafe(s, entry)
  {
  }

  /** At-least-once delivery fails without the guard. From a fresh system, for every job that may
      be retried, a run in which nothing goes wrong but one failed attempt, one take request lost
      right after it, and deaths of workers, loses the accepted job for good. */
  lemma OneLostRequestCanLoseAJob(s: Sys, job: Job)
    returns (before: seq<Event>, failure: Event, lost: Event, after: seq<Event>)
    requires Initial(s) && s.now + 2 * SECOND <= MAX_DATETIME
    requires job.attempt == 0 && job.status == Pending && job.submitTime <= s.now && job.maxRetries >= 2
    ensures Ordinary(before) && failure.Fail? && lost.TakeLostRequest? && Ordinary(after)
    ensures LosesForGood(s, before + [failure] + [lost] + after, job.id)
  {
    hide *;
    var s1, s2, s3, s4, retry, due, late;
    before, s1 := LeadsToFirstAttempt(s, job);
    failure, s2, retry := FirstFailure(s1, job);
    lost, s3 := LostTake(s2, retry);
    due, s4 := RetryFallsDue(s3, retry);
    Then(s, before, s1, [failure], s2);
    Then(s, before + [failure], s2, [lost], s3);
    Then(s, before + [failure] + [lost], s3, due, s4);
    PushlessTwice(before, failure, lost, due);
    UneventfulIsOrdinary(before);
    UneventfulIsOrdinary(due);
    late := UnsafeRunLoses(s, before + [failure] + [lost] + due, s4, job.id);
    OrdinaryTwice(due, late);
    after := due + late;
    assert before + [failure] + [lost] + due + late == before + [failure] + [lost] + after;
  }

  lemma PushlessTwice(a: seq<Event>, e: Event, f: Event, b: seq<Event>)
    requires Pushless(a) && !e.PollPush? && !f.PollPush? && Pushless(b)
    ensures Pushless(a + [e] + [f] + b)
  {
  }

  lemma UneventfulIsOrdinary(es: seq<Event>)
    requires Uneventful(es)
    ensures Ordinary(es)
  {
  }

  lemma OrdinaryTwice(a: seq<Event>, b: seq<Event>)
    requires Ordinary(a) && Ordinary(b)
    ensures Ordinary(a + b)
  {
  }

  /** The run ends with an accepted job lost, whatever happens afterwards. */
  ghost predicate LosesForGood(s: Sys, es: seq<Event>, id: JobId) {
    && Valid(s, es) && id in Exec(s, es).accepted
    && forall more | Valid(Exec(s, es), more) :: Lost(Exec(Exec(s, es), more), id)
  }

  lemma UnsafeRunLoses(s: Sys, a: seq<Event>, t: Sys, id: JobId) returns (more: seq<Event>)
    requires Initial(s) && LeadsTo(s, a, t) && Pushless(a) && id in t.accepted
    requires Enabled(t, PollPush) && t.sched.due[0].id == id && !PromotionSafe(t, t.sched.due[0])
    ensures LosesForGood(s, a + more, id) && Ordinary(more)
  {
    StartsConsistent(s);
    hide *;
    WhatLeadsToSays(s, a, t);
    PushlessIsGuarded(s, a);
    RunKeepsInv(s, a);
    var late, u := UnsafePromotionAtLast(t);
    more := [PollPush] + late;
    PlainIsOrdinary(late);
    Then(s, a, t, more, u);
    WhatLeadsToSays(t, more, u);
    AcceptedLasts(t, more, id);
    LostStays(s, a + more, u, id);
  }

  lemma UnsafePromotionAtLast(s: Sys) returns (late: seq<Event>, u: Sys)
    requires Inv(s) && Enabled(s, PollPush) && !PromotionSafe(s, s.sched.due[0])
    ensures Plain(late) && LeadsTo(s, [PollPush] + late, u) && Lost(u, s.sched.due[0].id)
  {
    hide Enabled, Apply, Inv, PromotionSafe, Lost, Plain;
    late := UnsafePromotionLosesTheJob(s);
    u := Exec(Apply(s, PollPush), late);
    RunOfOne(s, PollPush);
    assert LeadsTo(s, [PollPush], Apply(s, PollPush)) && LeadsTo(Apply(s, PollPush), late, u);
    Then(s, [PollPush], Apply(s, PollPush), late, u);
  }

  lemma StartsConsistent(s: Sys)
    requires Initial(s)
    ensures Inv(s)
  {
  }

  lemma PlainIsOrdinary(es: seq<Event>)
    requires Plain(es)
    ensures Ordinary([PollPush] + es)
  {
  }

  lemma LostStays(s: Sys, es: seq<Event>, t: Sys, id: JobId)
    requires Initial(s) && LeadsTo(s, es, t) && id in t.accepted && Lost(t, id)
    ensures LosesForGood(s, es, id)
  {
    RunKeepsCopies(s, es);
    AcceptedIsSubmitted(s, es);
    hide Apply, Enabled, Lost, CopiesOk, Initial;
    forall more | Valid(t, more) ensures Lost(Exec(t, more), id) {
      LostIsForever(t, more, id);
    }
  }

  lemma {:induction false} AcceptedLasts(s: Sys, es: seq<Event>, id: JobId)
    requires Valid(s, es) && id in s.accepted
    ensures id in Exec(s, es).accepted
    decreases |es|
  {
    if es != [] {
      AcceptedStays(s, es[0], id);
      AcceptedLasts(Apply(s, es[0]), es[1..], id);
    }
  }

  lemma AcceptedStays(s: Sys, e: Event, id: JobId)
    requires Enabled(s, e)
    ensures id in s.accepted ==> id in Apply(s, e).accepted
    ensures s.accepted <= s.origin.Keys ==> Apply(s, e).accepted <= Apply(s, e).origin.Keys
  {
  }

  lemma {:induction false} AcceptedIsSubmitted(s: Sys, es: seq<Event>)
    requires Valid(s, es) && s.accepted <= s.origin.Keys
    ensures Exec(s, es).accepted <= Exec(s, es).origin.Keys
    decreases |es|
  {
    if es != [] {
      AcceptedStays(s, es[0], 0);
      AcceptedIsSubmitted(Apply(s, es[0]), es[1..]);
    }
  }
}
