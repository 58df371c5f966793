/** At-least-once completion: whatever crashes and lost calls a run has had, every job that is
    not lost can still be finished, all of them by one continuation, and a lost one never can. */
module Completion {
  import opened Prelude
  import opened Jobs
  import opened LeaseModel
  import opened DeadLetters
  import opened DelayedJobs
  import opened System
  import opened Copies
  import opened NoLoss
  import opened PromotionGuard
  import opened FaultFree
  import opened Draining

  ghost predicate Finished(s: Sys, id: JobId) {
    id in s.done || DeadLettered(s.dlq, id)
  }

  ghost predicate RunningSomewhere(s: Sys, id: JobId) {
    exists w | w in s.workers && s.workers[w].current.Some? :: s.workers[w].current.value.id == id
  }

  ghost predicate HeldSomewhere(s: Sys, id: JobId) {
    exists d | d in s.delayed && !Promoting(s, d) :: d.id == id
  }

  /** Where no lease is needed to keep the job: that holds on until it is finished. */
  ghost predicate Tracked(s: Sys, id: JobId) {
    Queued(s.store, id) || RunningSomewhere(s, id) || HeldSomewhere(s, id) || Finished(s, id)
  }

  // ---------------------------------------------------------------- faultless steps keep track

  lemma TakeTracks(s: Sys, w: WorkerId, popped: Option<Job>, id: JobId)
    requires Tracked(s, id) && Free(s, w) && CanPop(s.store.queue, popped)
    ensures Tracked(AfterTake(s, w, popped), id)
  {
    var t := AfterTake(s, w, popped);
    if m :| m in s.store.queue && m.id == id {
      if popped == Some(m) {
        assert t.workers[w].current.value.id == id;
      } else {
        assert m in t.store.queue;
      }
    } else if v :| v in s.workers && s.workers[v].current.Some? && s.workers[v].current.value.id == id {
      assert v in t.workers && t.workers[v] == s.workers[v];
    } else if HeldSomewhere(s, id) {
      assert HeldSomewhere(t, id);
    }
  }

  /** A recording finishes the worker's job, or puts it among the delayed ones. */
  lemma RecordTracks(s: Sys, w: WorkerId, t: Sys, id: JobId)
    requires Tracked(s, id) && Busy(s, w) && w in t.workers && t.workers == s.workers[w := t.workers[w]]
    requires t.store == s.store && t.sched == s.sched && s.done <= t.done && (forall r | r in s.dlq :: r in t.dlq)
    requires forall d | d in s.delayed :: d in t.delayed
    requires var own := s.workers[w].current.value.id; Finished(t, own) || HeldSomewhere(t, own)
    ensures Tracked(t, id)
  {
    if v :| v in s.workers && s.workers[v].current.Some? && s.workers[v].current.value.id == id {
      assert v != w ==> t.workers[v] == s.workers[v];
    } else if d :| d in s.delayed && !Promoting(s, d) && d.id == id {
      assert d in t.delayed && !Promoting(t, d);
    }
  }

  lemma FailureTracks(s: Sys, w: WorkerId, error: string, jitter: Micros, id: JobId)
    requires Tracked(s, id) && SchedulerOk(s) && Enabled(s, Fail(w, error, jitter))
    ensures Tracked(AfterFailure(s, w, error, jitter), id)
  {
    var t, d := AfterFailure(s, w, error, jitter), Decided(s, w, error, jitter);
    WrittenShows(s, w, error, jitter);
    assert d.Retry? ==> d.job in t.delayed && !Promoting(t, d.job);
    hide Decided, Promoting, Tracked;
    RecordTracks(s, w, t, id);
  }

  lemma PushTracks(s: Sys, id: JobId)
    requires Tracked(s, id) && SchedulerOk(s) && Enabled(s, PollPush)
    ensures Tracked(Apply(s, PollPush), id)
  {
    var t, entry := Apply(s, PollPush), s.sched.due[0];
    if m :| m in s.store.queue && m.id == id {
      assert m in t.store.queue;
    } else if RunningSomewhere(s, id) {
      assert RunningSomewhere(t, id);
    } else if d :| d in s.delayed && !Promoting(s, d) && d.id == id {
      if d == entry {
        assert Promoted(entry) in t.store.queue;
      } else {
        assert d in t.delayed && !Promoting(t, d);
      }
    }
  }

  /** Steps that keep the queue, the jobs being run, the entries not being promoted and the
      outcomes. */
  ghost predicate KeepsTrack(s: Sys, t: Sys) {
    && (forall m | m in s.store.queue :: m in t.store.queue)
    && (forall w | w in s.workers && s.workers[w].current.Some? :: w in t.workers && t.workers[w].current == s.workers[w].current)
    && (forall d | d in s.delayed && !Promoting(s, d) :: d in t.delayed && !Promoting(t, d))
    && t.done == s.done && t.dlq == s.dlq
  }

  lemma QuietTracks(s: Sys, t: Sys, id: JobId)
    requires Tracked(s, id) && KeepsTrack(s, t)
    ensures Tracked(t, id)
  {
    if m :| m in s.store.queue && m.id == id {
      assert m in t.store.queue;
    } else if w :| w in s.workers && s.workers[w].current.Some? && s.workers[w].current.value.id == id {
      assert w in t.workers;
    } else if d :| d in s.delayed && !Promoting(s, d) && d.id == id {
      assert d in t.delayed;
    }
  }

  lemma SchedulerKeepsTrack(s: Sys, e: Event)
    requires SchedulerOk(s) && Enabled(s, e) && (e.PollRead? || e.PollRemove?)
    ensures KeepsTrack(s, Apply(s, e))
  {
  }

  lemma QuietKeepsTrack(s: Sys, e: Event)
    requires Enabled(s, e) && (e.StartPool? || e.Spawn? || e.TakeLostRequest? || e.Stop? || e.MonitorPass?)
    ensures KeepsTrack(s, Apply(s, e))
  {
    hide HeldBy, RenewalDue;
  }

  lemma OtherKeepsTrack(s: Sys, e: Event)
    requires Enabled(s, e) && (e.Submit? || e.Exit? || (e.Reap? && e.ids == []) || e.Tick?)
    ensures KeepsTrack(s, Apply(s, e))
  {
    hide IdOf;
  }

  lemma SchedulerTracks(s: Sys, e: Event, id: JobId)
    requires Tracked(s, id) && SchedulerOk(s) && Enabled(s, e) && (e.PollRead? || e.PollRemove?)
    ensures Tracked(Apply(s, e), id)
  {
    SchedulerKeepsTrack(s, e);
    hide Tracked, KeepsTrack, Apply, Enabled, SchedulerOk;
    QuietTracks(s, Apply(s, e), id);
  }

  lemma OtherTracks(s: Sys, e: Event, id: JobId)
    requires Tracked(s, id) && Enabled(s, e)
    requires e.Submit? || e.StartPool? || e.Spawn? || e.TakeLostRequest? || e.Stop? || e.Exit?
      || e.MonitorPass? || (e.Reap? && e.ids == []) || e.Tick?
    ensures Tracked(Apply(s, e), id)
  {
    hide Tracked, KeepsTrack, Apply, Enabled;
    if e.StartPool? || e.Spawn? || e.TakeLostRequest? || e.Stop? || e.MonitorPass? {
      QuietKeepsTrack(s, e);
    } else {
      OtherKeepsTrack(s, e);
    }
    QuietTracks(s, Apply(s, e), id);
  }

  lemma StepKeepsTracked(s: Sys, e: Event, id: JobId)
    requires Tracked(s, id) && SchedulerOk(s) && Enabled(s, e) && Faultless(e)
    ensures Tracked(Apply(s, e), id)
  {
    hide Tracked, SchedulerOk, KeepsTrack;
    match e {
      case Take(w, popped) => TakeTracks(s, w, popped, id);
      case Succeed(w) =>
        assert s.workers[w].current.value.id in AfterSuccess(s, w).done;
        RecordTracks(s, w, AfterSuccess(s, w), id);
      case Fail(w, error, jitter) => FailureTracks(s, w, error, jitter, id);
      case PollPush => PushTracks(s, id);
      case PollRead(_) => SchedulerTracks(s, e, id);
      case PollRemove => SchedulerTracks(s, e, id);
      case _ => OtherTracks(s, e, id);
    }
  }

  lemma {:induction false} RunKeepsTracked(s: Sys, es: seq<Event>, id: JobId)
    requires Tracked(s, id) && CopiesOk(s) && Valid(s, es) && FaultlessRun(es)
    ensures Tracked(Exec(s, es), id)
    decreases |es|
  {
    if es != [] {
      WhatCopiesOkSays(s);
      StepKeepsTracked(s, es[0], id);
      StepKeepsCopies(s, es[0]);
      RunKeepsTracked(Apply(s, es[0]), es[1..], id);
    }
  }

  lemma PlacesAreCounted(s: Sys, id: JobId)
    ensures RunningSomewhere(s, id) ==> id in IdsIn(s.workers, Current)
    ensures HeldSomewhere(s, id) ==> id in HeldIds(s)
  {
    if w :| w in s.workers && s.workers[w].current.Some? && s.workers[w].current.value.id == id {
      assert id in SlotIds(s.workers[w], Current);
    }
  }

  lemma NoWorkMeansFinished(s: Sys, id: JobId)
    requires Tracked(s, id) && CopiesOk(s) && Work(s) == 0
    ensures Finished(s, id)
  {
    PlacesAreCounted(s, id);
    NothingLeft(s);
    hide CopiesOk, Work;
  }

  // ---------------------------------------------------------------- getting every job back

  /** The scheduler restarts, every lease runs out and is reaped, and a new worker starts. */
  ghost predicate Restarted(s: Sys, p: PoolId, w: WorkerId, ids: seq<JobId>, t: Sys) {
    && t.store == Reaped(s.store, ids) && (forall id :: id in ids <==> id in s.store.processing)
    && t.sched == Idle && t.delayed == s.delayed && t.done == s.done && t.dlq == s.dlq
    && p !in s.pools && w !in s.workers && w in t.workers && t.workers == s.workers[w := t.workers[w]] && t.workers[w].running
  }

  lemma LeadsToReaped(s: Sys, ids: seq<JobId>) returns (es: seq<Event>)
    requires IsExpiredBatch(s.store.processing, s.now, -1, ids)
    ensures Valid(s, es) && Pushless(es) && Exec(s, es) == s.(store := Reaped(s.store, ids))
  {
    assert Enabled(s, Reap(ids, -1)) && Apply(s, Reap(ids, -1)) == s.(store := Reaped(s.store, ids));
    hide Enabled, Apply, Reaped, IsExpiredBatch;
    RunOfOne(s, Reap(ids, -1));
    es := [Reap(ids, -1)];
  }

  lemma LeadsToAllExpired(s: Sys) returns (es: seq<Event>, ids: seq<JobId>, wait: Micros)
    ensures Valid(s, es) && Pushless(es)
    ensures Exec(s, es) == s.(sched := Idle, now := s.now + wait)
    ensures IsExpiredBatch(s.store.processing, s.now + wait, -1, ids) && forall id :: id in ids <==> id in s.store.processing
  {
    ids, wait := AllExpire(s.store.processing, s.now);
    hide IsExpiredBatch;
    var s1 := s.(sched := Idle);
    assert Enabled(s, CrashScheduler) && Apply(s, CrashScheduler) == s1;
    assert Enabled(s1, Tick(wait)) && Apply(s1, Tick(wait)) == s.(sched := Idle, now := s.now + wait);
    hide *;
    RunOfOne(s, CrashScheduler);
    RunMore(s, [CrashScheduler], Tick(wait));
    es := [CrashScheduler] + [Tick(wait)];
    assert Pushless(es) by { TwoPushless(CrashScheduler, Tick(wait)); }
  }

  /** Every lease runs out in the end. */
  lemma AllExpire(processing: map<JobId, Micros>, now: Micros) returns (ids: seq<JobId>, wait: Micros)
    ensures wait > 0 && IsExpiredBatch(processing, now + wait, -1, ids)
    ensures forall id :: id in ids <==> id in processing
  {
    ids := SortedKeys(processing);
    wait := if ids == [] then 1 else Max(1, processing[ids[|ids| - 1]] - now);
    assert forall id | id in ids :: processing[id] <= now + wait;
  }

  lemma TwoPushless(a: Event, b: Event)
    requires !a.PollPush? && !b.PollPush?
    ensures Pushless([a] + [b])
  {
  }

  lemma LeadsToNewWorker(s: Sys) returns (es: seq<Event>, p: PoolId, w: WorkerId)
    ensures Valid(s, es) && Pushless(es)
    ensures p !in s.pools && w !in s.workers
    ensures var t := Exec(s, es);
      && t == s.(pools := t.pools, workers := t.workers)
      && w in t.workers && t.workers == s.workers[w := t.workers[w]] && t.workers[w].running
  {
    p := FreshNumber(s.pools.Keys);
    w := FreshNumber(s.workers.Keys);
    var s1 := Apply(s, StartPool(p, 0));
    var s2 := Apply(s1, Spawn(w, p));
    assert s2 == s.(pools := s2.pools, workers := s.workers[w := s2.workers[w]]) && s2.workers[w].running;
    assert Enabled(s, StartPool(p, 0)) && Enabled(s1, Spawn(w, p));
    hide *;
    RunOfOne(s, StartPool(p, 0));
    RunMore(s, [StartPool(p, 0)], Spawn(w, p));
    es := [StartPool(p, 0)] + [Spawn(w, p)];
    assert Pushless(es) by { TwoPushless(StartPool(p, 0), Spawn(w, p)); }
  }

  lemma LeadsToRestart(s: Sys) returns (es: seq<Event>, p: PoolId, w: WorkerId, ids: seq<JobId>)
    ensures Valid(s, es) && Pushless(es) && Restarted(s, p, w, ids, Exec(s, es))
  {
    var a, b, c, wait;
    a, ids, wait := LeadsToAllExpired(s);
    hide IsExpiredBatch, Reaped;
    b := LeadsToReaped(Exec(s, a), ids);
    c, p, w := LeadsToNewWorker(Exec(Exec(s, a), b));
    RunTwice(s, a, b);
    RunTwice(s, a + b, c);
    es := a + b + c;
  }

  lemma RestartFindsThem(s: Sys, p: PoolId, w: WorkerId, ids: seq<JobId>, t: Sys, id: JobId)
    requires WellFormed(s.store) && Restarted(s, p, w, ids, t) && !Lost(s, id)
    ensures Tracked(t, id)
  {
    ReapMovesLeasesToTheQueue(s.store, ids);
    if m :| m in s.store.queue && m.id == id {
      assert m in t.store.queue;
    } else if id in s.store.processing {
      assert s.store.payload[id] in t.store.queue;
    } else if d :| d in s.delayed && d.id == id {
      assert d in t.delayed && !Promoting(t, d);
    } else if !Finished(s, id) {
      var v :| v in s.workers && s.workers[v].current.Some? && s.workers[v].current.value.id == id;
      assert t.workers[v].current.value.id == id;
    }
  }

  /** From any state a run can reach, one continuation with safe promotions finishes every job
      that is not lost. */
  lemma LiveJobsCanBeFinished(s: Sys) returns (es: seq<Event>)
    requires CopiesOk(s)
    ensures Valid(s, es) && Guarded(s, es)
    ensures forall id | !Lost(s, id) :: Finished(Exec(s, es), id)
  {
    WhatCopiesOkSays(s);
    var a, p, w, ids := LeadsToRestart(s);
    var t := Exec(s, a);
    RunKeepsCopies(s, a);
    PushlessIsGuarded(s, a);
    var b := WorkCanEnd(t, w);
    GuardedTwice(s, a, b);
    RunTwice(s, a, b);
    RunKeepsCopies(t, b);
    es := a + b;
    hide CopiesOk, Lost, Tracked, Finished, Restarted, Guarded, FaultlessRun, Work;
    forall id | !Lost(s, id) ensures Finished(Exec(s, es), id) {
      RestartFindsThem(s, p, w, ids, t, id);
      RunKeepsTracked(t, b, id);
      NoWorkMeansFinished(Exec(t, b), id);
    }
  }

  /** After any run, guarded or not, a submitted job can still be finished if and only if it is
      not lost: it is in some durable place, or some worker runs it. */
  lemma CompletionIsExact(s0: Sys, es0: seq<Event>, id: JobId)
    requires Initial(s0) && Valid(s0, es0) && id in Exec(s0, es0).origin
    ensures var s := Exec(s0, es0);
      !Lost(s, id) <==> exists es :: Valid(s, es) && Finished(Exec(s, es), id)
  {
    RunKeepsCopies(s0, es0);
    var s := Exec(s0, es0);
    hide CopiesOk;
    if Lost(s, id) {
      forall es | Valid(s, es) ensures !Finished(Exec(s, es), id) {
        LostIsForever(s, es, id);
      }
    } else {
      var es := LiveJobsCanBeFinished(s);
    }
  }

  /** At least once: after any run with safe promotions, whatever crashed and whichever calls
      were lost, one continuation with safe promotions completes or dead-letters every job ever
      submitted, each accepted one among them. */
  lemma EveryJobCanBeFinished(s0: Sys, es0: seq<Event>) returns (es: seq<Event>)
    requires Initial(s0) && Valid(s0, es0) && Guarded(s0, es0)
    ensures var s := Exec(s0, es0);
      && Valid(s, es) && Guarded(s, es) && s.accepted <= s.origin.Keys
      && forall id | id in s.origin :: Finished(Exec(s, es), id)
  {
    RunKeepsInv(s0, es0);
    RunKeepsCopies(s0, es0);
    var s := Exec(s0, es0);
    es := LiveJobsCanBeFinished(s);
    forall id | id in s.origin ensures !Lost(s, id) {
      assert Safe(s, id);
    }
  }
}
