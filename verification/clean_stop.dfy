/** A clean stop strands nothing: while the workers' own calls work and every failure is recorded,
    each lease is of a job that some worker runs or has still to acknowledge, whatever expires, is
    replaced, restarts or is promoted early meanwhile. */
module CleanStop {
  import opened Prelude
  import opened Jobs
  import opened LeaseModel
  import opened System
  import opened Copies

  /** Nobody dies, no reply with a job is lost, failures are recorded, and the last
      acknowledgement arrives. */
  predicate CallsWork(e: Event) {
    && !e.CrashWorker? && !e.CrashPool? && !e.FailUnrecorded?
    && (e.TakeLostReply? ==> e.popped.None?) && (e.Exit? ==> e.landed)
  }

  predicate Holds(x: Worker, id: JobId) {
    (x.current.Some? && x.current.value.id == id) || (x.pending.Some? && x.pending.value.id == id)
  }

  ghost predicate SomebodyHolds(ws: map<WorkerId, Worker>, id: JobId) {
    exists w | w in ws :: Holds(ws[w], id)
  }

  predicate OneAtATime(x: Worker) {
    x.current.Some? ==> x.pending.None?
  }

  ghost predicate Owned(s: Sys) {
    && (forall w | w in s.workers :: OneAtATime(s.workers[w]))
    && (forall id | id in s.store.processing :: SomebodyHolds(s.workers, id))
  }

  lemma TakeStaysOwned(s: Sys, w: WorkerId, popped: Option<Job>)
    requires Owned(s) && Free(s, w) && CanPop(s.store.queue, popped)
    ensures Owned(AfterTake(s, w, popped))
  {
    var t := AfterTake(s, w, popped);
    forall id | id in t.store.processing ensures SomebodyHolds(t.workers, id) {
      if popped.Some? && popped.value.id == id {
        assert Holds(t.workers[w], id);
      } else {
        assert id in s.store.processing && PendingId(s.workers[w]) != Some(id);
        var v :| v in s.workers && Holds(s.workers[v], id);
        assert v != w && t.workers[v] == s.workers[v];
      }
    }
  }

  /** A worker changes that still holds what it held, and leases go but do not come. */
  lemma HolderStays(s: Sys, t: Sys, w: WorkerId)
    requires Owned(s) && w in t.workers && t.workers == s.workers[w := t.workers[w]] && OneAtATime(t.workers[w])
    requires t.store.processing.Keys <= s.store.processing.Keys
    requires forall id | w in s.workers && Holds(s.workers[w], id) :: Holds(t.workers[w], id)
    ensures Owned(t)
  {
    forall id | id in t.store.processing ensures SomebodyHolds(t.workers, id) {
      var v :| v in s.workers && Holds(s.workers[v], id);
      assert v in t.workers && Holds(t.workers[v], id);
    }
  }

  lemma SameHoldersStay(s: Sys, t: Sys)
    requires Owned(s) && t.workers == s.workers && t.store.processing.Keys <= s.store.processing.Keys
    ensures Owned(t)
  {
  }

  lemma ExitStaysOwned(s: Sys, w: WorkerId)
    requires Owned(s) && Free(s, w)
    ensures Owned(AfterExit(s, w, true))
  {
    var t := AfterExit(s, w, true);
    forall id | id in t.store.processing ensures SomebodyHolds(t.workers, id) {
      assert id in s.store.processing && PendingId(s.workers[w]) != Some(id);
      var v :| v in s.workers && Holds(s.workers[v], id);
      assert v != w && t.workers[v] == s.workers[v];
    }
  }

  /** The stalled thread lives on, and its replacement holds nothing. */
  lemma ReplaceStaysOwned(s: Sys, w: WorkerId, landed: bool, replied: bool, spare: WorkerId)
    requires Owned(s) && w in s.workers && spare !in s.workers
    ensures Owned(AfterReplace(s, w, landed, replied, spare))
  {
    var t := AfterReplace(s, w, landed, replied, spare);
    forall id | id in t.store.processing ensures SomebodyHolds(t.workers, id) {
      assert id in s.store.processing;
      var v :| v in s.workers && Holds(s.workers[v], id);
      assert v in t.workers && Holds(t.workers[v], id);
    }
  }

  lemma RecordingStaysOwned(s: Sys, e: Event)
    requires Owned(s) && Enabled(s, e) && (e.Succeed? || e.Fail?)
    ensures Owned(Apply(s, e))
  {
    var t := Apply(s, e);
    assert OneAtATime(s.workers[e.w]);
    assert t.workers == s.workers[e.w := t.workers[e.w]] && t.store == s.store;
    assert t.workers[e.w].current.None? && Holds(t.workers[e.w], s.workers[e.w].current.value.id);
    hide Apply, Enabled, Owned;
    HolderStays(s, t, e.w);
  }

  lemma WorkerEventStaysOwned(s: Sys, e: Event)
    requires Owned(s) && Enabled(s, e) && (e.Spawn? || e.Stop? || e.TakeLostRequest? || (e.TakeLostReply? && e.popped.None?))
    ensures Owned(Apply(s, e))
  {
    var t := Apply(s, e);
    assert e.w in s.workers ==> OneAtATime(s.workers[e.w]);
    assert t.workers == s.workers[e.w := t.workers[e.w]] && t.store.processing.Keys <= s.store.processing.Keys;
    hide Owned;
    HolderStays(s, t, e.w);
  }

  lemma ReapStaysOwned(s: Sys, ids: seq<JobId>, limit: int)
    requires Owned(s) && WellFormed(s.store) && Enabled(s, Reap(ids, limit))
    ensures Owned(Apply(s, Reap(ids, limit)))
  {
    hide Owned, WellFormed, Reaped, IsExpiredBatch;
    ReapMovesLeasesToTheQueue(s.store, ids);
    SameHoldersStay(s, Apply(s, Reap(ids, limit)));
  }

  lemma PassStaysOwned(s: Sys, p: PoolId, landed: bool)
    requires Owned(s) && p in s.pools
    ensures Owned(AfterPass(s, p, landed))
  {
    hide Owned;
    SameHoldersStay(s, AfterPass(s, p, landed));
  }

  lemma OtherStaysOwned(s: Sys, e: Event)
    requires Owned(s) && Enabled(s, e)
    requires e.Submit? || e.StartPool? || e.PollRead? || e.PollPush? || e.PollRemove? || e.Tick? || e.CrashScheduler?
    ensures Owned(Apply(s, e))
  {
    hide Owned;
    SameHoldersStay(s, Apply(s, e));
  }

  lemma StepStaysOwned(s: Sys, e: Event)
    requires Owned(s) && WellFormed(s.store) && Enabled(s, e) && CallsWork(e)
    ensures Owned(Apply(s, e))
  {
    hide Owned, WellFormed;
    match e {
      case Take(w, popped) => TakeStaysOwned(s, w, popped);
      case Exit(w, _) => ExitStaysOwned(s, w);
      case Replace(w, landed, replied, spare) => ReplaceStaysOwned(s, w, landed, replied, spare);
      case Reap(ids, limit) => ReapStaysOwned(s, ids, limit);
      case MonitorPass(p, landed) => PassStaysOwned(s, p, landed);
      case Succeed(_) => RecordingStaysOwned(s, e);
      case Fail(_, _, _) => RecordingStaysOwned(s, e);
      case _ =>
        hide Apply, Enabled;
        if e.Spawn? || e.Stop? || e.TakeLostRequest? || e.TakeLostReply? {
          WorkerEventStaysOwned(s, e);
        } else {
          OtherStaysOwned(s, e);
        }
    }
  }

  ghost predicate CallsWorked(es: seq<Event>) {
    forall e | e in es :: CallsWork(e)
  }

  lemma {:induction false} RunStaysOwned(s: Sys, es: seq<Event>)
    requires Owned(s) && CopiesOk(s) && Valid(s, es) && CallsWorked(es)
    ensures Owned(Exec(s, es))
    decreases |es|
  {
    if es != [] {
      WhatCopiesOkSays(s);
      StepStaysOwned(s, es[0]);
      StepKeepsCopies(s, es[0]);
      RunStaysOwned(Apply(s, es[0]), es[1..]);
    }
  }

  /** Every lease has its worker, at every point of every such run. */
  lemma EveryLeaseHasItsWorker(s: Sys, es: seq<Event>)
    requires Initial(s) && Valid(s, es) && CallsWorked(es)
    ensures var t := Exec(s, es); forall id | id in t.store.processing :: SomebodyHolds(t.workers, id)
  {
    RunStaysOwned(s, es);
  }

  /** Clean stop: for any schedule of outcomes, expiries, replacements, restarts of the scheduler
      and promotions, and whenever the workers were stopped: once all have left their loops, no
      lease is left, and every later reap finds nothing. */
  lemma CleanStopStrandsNothing(s: Sys, es: seq<Event>, now: Micros, limit: int, ids: seq<JobId>)
    requires Initial(s) && Valid(s, es) && CallsWorked(es) && Exec(s, es).workers == map[]
    ensures Exec(s, es).store.processing == map[]
    ensures IsExpiredBatch(Exec(s, es).store.processing, now, limit, ids) ==> ids == []
  {
    EveryLeaseHasItsWorker(s, es);
    assert Exec(s, es).store.processing.Keys == {};
    if ids != [] {
      assert ids[0] in ids;
    }
  }
}
