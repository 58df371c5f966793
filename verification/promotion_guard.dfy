/** The promotion guard is exact: with it no run loses the job, and without it some run does,
    for good. */
module PromotionGuard {
  import opened Prelude
  import opened Jobs
  import opened LeaseModel
  import opened System
  import opened NoLoss
  import opened Copies

  /** In no durable place, and no worker is running it. */
  ghost predicate Lost(s: Sys, id: JobId) {
    !Located(s, id) && forall w | w in s.workers && s.workers[w].current.Some? :: s.workers[w].current.value.id != id
  }

  // ---------------------------------------------------------------- loss is permanent

  ghost predicate Absent(s: Sys, id: JobId) {
    Lost(s, id) && id in s.origin && CopiesOk(s)
  }

  lemma TakeLeavesLost(s: Sys, w: WorkerId, popped: Option<Job>, id: JobId)
    requires Lost(s, id) && WellFormed(s.store) && Free(s, w) && CanPop(s.store.queue, popped)
    ensures Lost(AfterTake(s, w, popped), id)
    ensures Lost(AfterLostReply(s, w, popped), id)
  {
  }

  lemma ReapLeavesLost(s: Sys, ids: seq<JobId>, id: JobId)
    requires Lost(s, id) && WellFormed(s.store)
    ensures !Queued(Reaped(s.store, ids), id) && id !in Reaped(s.store, ids).processing
  {
    ReapMovesLeasesToTheQueue(s.store, ids);
  }

  lemma WriteLeavesLost(s: Sys, w: WorkerId, error: string, jitter: Micros, id: JobId)
    requires Lost(s, id) && Busy(s, w)
    ensures Lost(Written(s, Decided(s, w, error, jitter)), id)
  {
  }

  lemma RecordLeavesLost(s: Sys, e: Event, id: JobId)
    requires Lost(s, id) && Enabled(s, e) && (e.Succeed? || e.Fail? || e.FailUnrecorded?)
    ensures Lost(Apply(s, e), id)
  {
    if e.Succeed? {
      assert s.workers[e.w].current.value.id != id;
    } else {
      WriteLeavesLost(s, e.w, e.error, e.jitter, id);
    }
  }

  lemma SchedulerLeavesLost(s: Sys, e: Event, id: JobId)
    requires Lost(s, id) && SchedulerOk(s) && Enabled(s, e)
    requires e.PollRead? || e.PollPush? || e.PollRemove? || e.CrashScheduler?
    ensures Lost(Apply(s, e), id)
  {
    if e.PollPush? {
      assert s.sched.due[0] in s.delayed;
    }
  }

  lemma QuietLeavesLost(s: Sys, e: Event, id: JobId)
    requires Lost(s, id) && Enabled(s, e) && IsQuiet(e)
    ensures Lost(Apply(s, e), id)
  {
    hide Apply, Enabled;
    QuietEffect(s, e);
  }

  lemma ExitLeavesLost(s: Sys, w: WorkerId, landed: bool, id: JobId)
    requires Lost(s, id) && w in s.workers
    ensures Lost(AfterExit(s, w, landed), id)
  {
  }

  lemma ReplaceLeavesLost(s: Sys, w: WorkerId, landed: bool, replied: bool, spare: WorkerId, id: JobId)
    requires Lost(s, id) && WellFormed(s.store) && Enabled(s, Replace(w, landed, replied, spare))
    ensures Lost(AfterReplace(s, w, landed, replied, spare), id)
  {
  }

  lemma StoreStepLeavesLost(s: Sys, e: Event, id: JobId)
    requires Lost(s, id) && WellFormed(s.store) && Enabled(s, e)
    requires e.Take? || e.TakeLostReply? || e.Reap? || e.Replace? || e.Exit?
    ensures Lost(Apply(s, e), id)
  {
    match e {
      case Take(w, popped) => TakeLeavesLost(s, w, popped, id);
      case TakeLostReply(w, popped) => TakeLeavesLost(s, w, popped, id);
      case Reap(ids, limit) => ReapLeavesLost(s, ids, id);
      case Replace(w, landed, replied, spare) => ReplaceLeavesLost(s, w, landed, replied, spare, id);
      case Exit(w, landed) => ExitLeavesLost(s, w, landed, id);
    }
  }

  lemma OuterStepLeavesLost(s: Sys, e: Event, id: JobId)
    requires Lost(s, id) && id in s.origin && Enabled(s, e) && (e.Submit? || e.Tick?)
    ensures Lost(Apply(s, e), id)
  {
  }

  lemma StepLeavesLost(s: Sys, e: Event, id: JobId)
    requires Absent(s, id) && Enabled(s, e)
    ensures Absent(Apply(s, e), id)
  {
    WhatCopiesOkSays(s);
    StepKeepsCopies(s, e);
    OriginStays(s, e, id);
    hide Lost, CopiesOk, WellFormed, Apply, Enabled, Waiting, Runnable, SchedulerOk, Scored;
    if e.Take? || e.TakeLostReply? || e.Reap? || e.Replace? || e.Exit? {
      StoreStepLeavesLost(s, e, id);
    } else if e.Submit? || e.Tick? {
      OuterStepLeavesLost(s, e, id);
    } else if e.Succeed? || e.Fail? || e.FailUnrecorded? {
      RecordLeavesLost(s, e, id);
    } else if e.PollRead? || e.PollPush? || e.PollRemove? || e.CrashScheduler? {
      SchedulerLeavesLost(s, e, id);
    } else {
      QuietLeavesLost(s, e, id);
    }
  }

  /** Once a job is lost, no continuation of any kind brings it back. */
  lemma {:induction false} LostIsForever(s: Sys, es: seq<Event>, id: JobId)
    requires Absent(s, id) && Valid(s, es)
    ensures Lost(Exec(s, es), id)
    decreases |es|
  {
    if es != [] {
      StepLeavesLost(s, es[0], id);
      LostIsForever(Apply(s, es[0]), es[1..], id);
    }
  }

  // ---------------------------------------------------------------- the unsafe promotion

  ghost predicate Pushless(es: seq<Event>) {
    forall e | e in es :: !e.PollPush?
  }

  lemma {:induction false} PushlessIsGuarded(s: Sys, es: seq<Event>)
    requires Valid(s, es) && Pushless(es)
    ensures Guarded(s, es)
    decreases |es|
  {
    if es != [] {
      PushlessIsGuarded(Apply(s, es[0]), es[1..]);
    }
  }

  /** No call is lost, no lease runs out, and nothing new is promoted; workers may die. */
  ghost predicate Plain(es: seq<Event>) {
    forall e | e in es :: IsPlain(e)
  }

  lemma PlainIsPushless(es: seq<Event>)
    requires Plain(es)
    ensures Pushless(es)
  {
  }

  predicate IsPlain(e: Event) {
    e.StartPool? || e.Spawn? || e.Take? || (e.Exit? && e.landed) || e.Tick? || e.PollRemove? || e.CrashWorker?
  }

  /** A worker that is started, takes the next job and dies. */
  lemma TakeAndDie(s: Sys, h: WorkerId, p: PoolId, m: Job) returns (es: seq<Event>)
    requires h !in s.workers && p in s.pools && IsMax(s.store.queue, m)
    ensures Valid(s, es) && Plain(es)
    ensures Exec(s, es) == s.(store := Popped(s.store, Some(m), s.now + s.lease))
  {
    hide IsMax, Popped, Valid, Exec;
    var x := NewWorker(p, s.now);
    var s1 := s.(workers := s.workers[h := x]);
    var s2 := s1.(store := Popped(s.store, Some(m), s.now + s.lease),
                  workers := s1.workers[h := x.(current := Some(m.(status := Running)))]);
    assert s2.workers - {h} == s.workers;
    assert Enabled(s, Spawn(h, p)) && Apply(s, Spawn(h, p)) == s1;
    assert Enabled(s1, Take(h, Some(m))) && Apply(s1, Take(h, Some(m))) == s2;
    assert Enabled(s2, CrashWorker(h)) && Apply(s2, CrashWorker(h)) == s2.(workers := s.workers);
    hide Enabled, Apply;
    RunOfOne(s, Spawn(h, p));
    es := [Spawn(h, p)];
    RunMore(s, es, Take(h, Some(m)));
    es := es + [Take(h, Some(m))];
    RunMore(s, es, CrashWorker(h));
    es := es + [CrashWorker(h)];
  }

  /** Workers that take a job and die can empty the queue: every queued id is then leased. */
  lemma {:induction false} DrainIntoLeases(s: Sys, h: WorkerId, p: PoolId) returns (es: seq<Event>)
    requires h !in s.workers && p in s.pools
    ensures Valid(s, es) && Plain(es)
    ensures var t := Exec(s, es); t == s.(store := t.store) && t.store.queue == map[]
    decreases |s.store.queue|
  {
    if s.store.queue == map[] {
      es := [];
    } else {
      var m := MaxExists(s.store.queue);
      var a := TakeAndDie(s, h, p, m);
      var t := Exec(s, a);
      KeyRemoved(s.store.queue, m);
      var b := DrainIntoLeases(t, h, p);
      RunTwice(s, a, b);
      es := a + b;
    }
  }

  lemma {:induction false} KillAll(s: Sys) returns (es: seq<Event>)
    ensures Valid(s, es) && Plain(es) && Exec(s, es) == s.(workers := map[])
    decreases |s.workers|
  {
    if s.workers == map[] {
      es := [];
    } else {
      var w :| w in s.workers;
      var t := Apply(s, CrashWorker(w));
      KeyRemoved(s.workers, w);
      var b := KillAll(t);
      es := [CrashWorker(w)] + b;
      assert es[1..] == b;
    }
  }

  /** The late acknowledgement itself: on an empty queue it only removes its lease. */
  lemma LateAck(s: Sys, w: WorkerId, id: JobId) returns (es: seq<Event>)
    requires w in s.workers && s.workers[w].current.None? && PendingId(s.workers[w]) == Some(id)
    requires s.store.queue == map[]
    ensures Valid(s, es) && Plain(es)
    ensures var t := Exec(s, es); t == s.(now := t.now, store := Released(s.store, id), workers := t.workers)
  {
    var wait := Tick(Max(1, s.workers[w].wakeAt - s.now));
    var s1 := Apply(s, wait);
    var e := if s.workers[w].running then Take(w, None) else Exit(w, true);
    assert Enabled(s1, e);
    RunOfOne(s, wait);
    RunMore(s, [wait], e);
    es := [wait] + [e];
  }

  /** The promotion runs to its end, and a new pool comes up. */
  lemma PromotionCompletes(s: Sys, p: PoolId) returns (es: seq<Event>)
    requires Enabled(s, PollPush) && p !in s.pools
    ensures var t := Apply(s, PollPush);
      && Valid(t, es) && Plain(es)
      && Exec(t, es).delayed == s.delayed - {s.sched.due[0]}
      && p in Exec(t, es).pools
      && Exec(t, es) == s.(store := t.store, delayed := Exec(t, es).delayed, pools := Exec(t, es).pools, sched := Exec(t, es).sched)
  {
    var s1 := Apply(s, PollPush);
    var s2 := Apply(s1, PollRemove);
    RunOfOne(s1, PollRemove);
    RunMore(s1, [PollRemove], StartPool(p, 0));
    es := [PollRemove] + [StartPool(p, 0)];
  }

  /** Somebody leases every queued copy, the late acknowledgement arrives, everybody dies. */
  lemma LateAckAfterDrain(s: Sys, h: WorkerId, p: PoolId, w: WorkerId, id: JobId) returns (es: seq<Event>)
    requires h !in s.workers && p in s.pools
    requires w in s.workers && s.workers[w].current.None? && PendingId(s.workers[w]) == Some(id)
    ensures Valid(s, es) && Plain(es)
    ensures var t := Exec(s, es);
      && t.store.queue == map[] && id !in t.store.processing && t.workers == map[]
      && t.done == s.done && t.dlq == s.dlq && t.delayed == s.delayed
  {
    var b := DrainIntoLeases(s, h, p);
    var s4 := Exec(s, b);
    var c := LateAck(s4, w, id);
    var s5 := Exec(s4, c);
    var d := KillAll(s5);
    RunTwice(s, b, c);
    RunTwice(s, b + c, d);
    es := b + c + d;
  }

  /** Somebody still has the acknowledgement to send, and nothing else of the job is recorded. */
  lemma TheLateWorker(s: Sys) returns (w: WorkerId)
    requires Inv(s) && Enabled(s, PollPush) && !PromotionSafe(s, s.sched.due[0])
    ensures w in s.workers && s.workers[w].current.None? && PendingId(s.workers[w]) == Some(s.sched.due[0].id)
    ensures !SettledElsewhere(s, s.sched.due[0])
  {
    w :| w in s.workers && PendingId(s.workers[w]) == Some(s.sched.due[0].id);
    assert WorkerOk(s, s.workers[w]);
  }

  /** From any consistent state in which poll is about to promote an entry behind which an
      acknowledgement is unsent and nothing else is recorded, some run loses the job: the
      promotion completes, somebody leases the copy, and the acknowledgement deletes that lease. */
  lemma UnsafePromotionLosesTheJob(s: Sys) returns (es: seq<Event>)
    requires Inv(s) && Enabled(s, PollPush) && !PromotionSafe(s, s.sched.due[0])
    ensures Valid(Apply(s, PollPush), es) && Plain(es)
    ensures Lost(Exec(Apply(s, PollPush), es), s.sched.due[0].id)
  {
    var id := s.sched.due[0].id;
    hide Inv, Enabled, Apply, PromotionSafe;
    var w := TheLateWorker(s);
    var p := FreshNumber(s.pools.Keys);
    var h := FreshNumber(s.workers.Keys);
    var s1 := Apply(s, PollPush);
    var a := PromotionCompletes(s, p);
    var s3 := Exec(s1, a);
    var b := LateAckAfterDrain(s3, h, p, w, id);
    RunTwice(s1, a, b);
    es := a + b;
  }

  /** Promoting an entry is safe exactly when the guard holds: then no continuation with safe
      promotions loses the job, and otherwise one of them does. */
  lemma PromotionGuardIsExact(s0: Sys, es: seq<Event>)
    requires Initial(s0) && Valid(s0, es) && Guarded(s0, es)
    requires Enabled(Exec(s0, es), PollPush)
    ensures var s := Exec(s0, es); var t := Apply(s, PollPush); var entry := s.sched.due[0];
      PromotionSafe(s, entry) <==>
        forall more | Valid(t, more) && Guarded(t, more) :: !Lost(Exec(t, more), entry.id)
  {
    var s := Exec(s0, es);
    var t, entry := Apply(s, PollPush), s.sched.due[0];
    RunKeepsInv(s0, es);
    RunKeepsCopies(s0, es);
    assert Waiting(s, entry);
    hide Apply, Enabled;
    if PromotionSafe(s, entry) {
      StepKeepsInv(s, PollPush);
      forall more | Valid(t, more) && Guarded(t, more) ensures !Lost(Exec(t, more), entry.id) {
        RunKeepsInv(t, more);
        OriginLasts(t, more, entry.id);
        assert Safe(Exec(t, more), entry.id);
      }
    } else {
      var more := UnsafePromotionLosesTheJob(s);
      PlainIsPushless(more);
      hide Plain, Pushless;
      PushlessIsGuarded(t, more);
    }
  }
}
