/** A dead worker's job is back on the queue within the lease plus the reap interval. */
module Recovery {
  import opened Prelude
  import opened Jobs
  import opened LeaseModel
  import opened System
  import opened Copies
  import opened Leases

  /** No deadline lies further ahead than one lease, and none that the last complete reap pass
      could have found expired is left. */
  ghost predicate DeadlinesOk(s: Sys) {
    && s.lastDrain <= s.now
    && forall id | id in s.store.processing :: s.lastDrain < s.store.processing[id] <= s.now + s.lease
  }

  /** Only taking and renewing set a deadline, and only to one lease from now. */
  ghost predicate DeadlinesMoved(s: Sys, t: Sys) {
    && t.lease == s.lease && t.now >= s.now && t.lastDrain == s.lastDrain
    && forall id | id in t.store.processing ::
         || t.store.processing[id] == s.now + s.lease
         || (id in s.store.processing && t.store.processing[id] == s.store.processing[id])
  }

  lemma TakeMovesDeadlines(s: Sys, e: Event)
    requires Enabled(s, e) && (e.Take? || e.TakeLostReply?)
    ensures DeadlinesMoved(s, Apply(s, e))
  {
    hide CanPop;
  }

  lemma WorkersMoveDeadlines(s: Sys, e: Event)
    requires Enabled(s, e) && (e.Exit? || e.Replace? || e.MonitorPass?)
    ensures DeadlinesMoved(s, Apply(s, e))
  {
  }

  lemma OthersLeaveDeadlines(s: Sys, e: Event)
    requires Enabled(s, e) && !e.Reap? && !e.Take? && !e.TakeLostReply? && !e.Exit? && !e.Replace? && !e.MonitorPass?
    ensures DeadlinesMoved(s, Apply(s, e))
  {
  }

  lemma DeadlinesMove(s: Sys, e: Event)
    requires Enabled(s, e) && !e.Reap?
    ensures DeadlinesMoved(s, Apply(s, e))
  {
    hide *;
    if e.Take? || e.TakeLostReply? {
      TakeMovesDeadlines(s, e);
    } else if e.Exit? || e.Replace? || e.MonitorPass? {
      WorkersMoveDeadlines(s, e);
    } else {
      OthersLeaveDeadlines(s, e);
    }
  }

  lemma ReapKeepsDeadlines(s: Sys, ids: seq<JobId>, limit: int)
    requires DeadlinesOk(s) && WellFormed(s.store) && Enabled(s, Reap(ids, limit)) && s.lease > 0
    ensures DeadlinesOk(Apply(s, Reap(ids, limit))) && Apply(s, Reap(ids, limit)).lease == s.lease
  {
    hide WellFormed, Reaped, Distinct;
    ReapMovesLeasesToTheQueue(s.store, ids);
  }

  lemma StepKeepsDeadlines(s: Sys, e: Event)
    requires DeadlinesOk(s) && CopiesOk(s) && Enabled(s, e) && s.lease > 0
    ensures DeadlinesOk(Apply(s, e)) && Apply(s, e).lease == s.lease
  {
    hide CopiesOk, Apply, Enabled, WellFormed;
    WhatCopiesOkSays(s);
    if e.Reap? {
      ReapKeepsDeadlines(s, e.ids, e.limit);
    } else {
      DeadlinesMove(s, e);
    }
  }

  lemma {:induction false} RunKeepsDeadlines(s: Sys, es: seq<Event>)
    requires DeadlinesOk(s) && CopiesOk(s) && Valid(s, es) && s.lease > 0
    ensures DeadlinesOk(Exec(s, es)) && CopiesOk(Exec(s, es)) && Exec(s, es).lease == s.lease
    decreases |es|
  {
    if es != [] {
      StepKeepsDeadlines(s, es[0]);
      StepKeepsCopies(s, es[0]);
      RunKeepsDeadlines(Apply(s, es[0]), es[1..]);
    }
  }

  // ---------------------------------------------------------------- leases nobody renews

  /** A complete reap pass ends at least every `interval`. */
  ghost predicate ReapedWithin(s: Sys, interval: Micros) {
    s.now <= s.lastDrain + interval
  }

  ghost predicate LeasedUntil(s: Sys, id: JobId, until: Micros) {
    id in s.store.processing && s.store.processing[id] <= until
  }

  /** The reaper takes the lease of the job back, with the job in the queue after. */
  ghost predicate TakesBack(s: Sys, e: Event, id: JobId)
    requires Enabled(s, e)
  {
    InBatch(e, id) && id in s.store.processing
    && id !in Apply(s, e).store.processing && Queued(Apply(s, e).store, id)
  }

  /** The ways a lease can end, or be taken over by the pop of a second copy. */
  ghost predicate Ends(s: Sys, e: Event, id: JobId)
    requires Enabled(s, e)
  {
    TakesBack(s, e, id) || Pops(e, id) || Acknowledged(s, e, id) || HandedBack(s, e, id)
  }

  ghost predicate EndsIn(s: Sys, es: seq<Event>, id: JobId)
    requires Valid(s, es)
    decreases |es|
  {
    es != [] && (Ends(s, es[0], id) || EndsIn(Apply(s, es[0]), es[1..], id))
  }

  /** No pool with a worker in its list that runs the job renews. */
  ghost predicate NeverRenewed(s: Sys, es: seq<Event>, id: JobId)
    requires Valid(s, es)
    decreases |es|
  {
    es == [] || (!IsRenewed(s, es[0], id) && NeverRenewed(Apply(s, es[0]), es[1..], id))
  }

  lemma UnlessEndedOrRenewed(s: Sys, e: Event, id: JobId, until: Micros)
    requires LeasedUntil(s, id, until) && WellFormed(s.store) && Enabled(s, e)
    ensures Ends(s, e, id) || IsRenewed(s, e, id) || LeasedUntil(Apply(s, e), id, until)
  {
    StepMovesLease(s, e, id);
    hide Apply, Enabled, WellFormed, Acknowledged, HandedBack, IsRenewed, Pops;
    if InBatch(e, id) {
      PayloadHasItsId(s.store, id);
    }
  }

  lemma PayloadHasItsId(s: Store, id: JobId)
    requires WellFormed(s) && id in s.payload
    ensures s.payload[id].id == id
  {
  }

  lemma {:induction false} LeaseRunsOut(s: Sys, es: seq<Event>, id: JobId, until: Micros, interval: Micros)
    requires DeadlinesOk(s) && CopiesOk(s) && s.lease > 0 && LeasedUntil(s, id, until)
    requires Valid(s, es) && Always(s, es, t => ReapedWithin(t, interval)) && NeverRenewed(s, es, id)
    requires Exec(s, es).now >= until + interval
    ensures EndsIn(s, es, id)
    decreases |es|
  {
    if es != [] && !Ends(s, es[0], id) {
      WhatCopiesOkSays(s);
      UnlessEndedOrRenewed(s, es[0], id, until);
      StepKeepsDeadlines(s, es[0]);
      StepKeepsCopies(s, es[0]);
      hide CopiesOk, Ends, Apply, Enabled, IsRenewed, WellFormed;
      LeaseRunsOut(Apply(s, es[0]), es[1..], id, until, interval);
    }
  }

  /** Whether the job's worker is alive or not: if from some point on no pool that lists a worker
      on the job renews, whatever other pools renew, and reap passes keep finishing every
      `interval`, then by one lease plus one interval later the reaper has taken the lease back
      and put its job in the queue, or before that the job was acknowledged, handed back by a
      monitor, or popped again. */
  lemma UnrenewedLeasesEnd(s0: Sys, es0: seq<Event>, es: seq<Event>, id: JobId, interval: Micros)
    requires Initial(s0) && Valid(s0, es0) && s0.lease > 0
    requires var s := Exec(s0, es0);
      && id in s.store.processing
      && Valid(s, es) && NeverRenewed(s, es, id) && Always(s, es, t => ReapedWithin(t, interval))
      && Exec(s, es).now >= s.now + s.lease + interval
    ensures EndsIn(Exec(s0, es0), es, id)
  {
    RunKeepsDeadlines(s0, es0);
    var s := Exec(s0, es0);
    LeaseRunsOut(s, es, id, s.now + s.lease, interval);
  }

  // ---------------------------------------------------------------- orphans

  predicate HasNotToDoWith(x: Worker, id: JobId) {
    && (x.current.Some? ==> x.current.value.id != id)
    && (x.pending.Some? ==> x.pending.value.id != id)
  }

  /** Nobody alive holds the job or has it to acknowledge. */
  ghost predicate Orphaned(s: Sys, id: JobId) {
    forall w | w in s.workers :: HasNotToDoWith(s.workers[w], id)
  }

  lemma TakeKeepsOrphan(s: Sys, e: Event, id: JobId)
    requires Orphaned(s, id) && Enabled(s, e) && (e.Take? || e.TakeLostReply?) && !Pops(e, id)
    ensures Orphaned(Apply(s, e), id)
  {
    assert HasNotToDoWith(s.workers[e.w], id);
    hide StoreTaken, CanPop;
  }

  lemma RecordingKeepsOrphan(s: Sys, e: Event, id: JobId)
    requires Orphaned(s, id) && Enabled(s, e) && (e.Succeed? || e.Fail? || e.FailUnrecorded?)
    ensures Orphaned(Apply(s, e), id)
  {
    assert HasNotToDoWith(s.workers[e.w], id);
  }

  lemma GoingKeepsOrphan(s: Sys, e: Event, id: JobId)
    requires Orphaned(s, id) && Enabled(s, e) && (e.Exit? || e.Replace?)
    ensures Orphaned(Apply(s, e), id)
  {
    hide Requeued, Acked;
    assert HasNotToDoWith(s.workers[e.w], id);
  }

  lemma QuietKeepsOrphan(s: Sys, e: Event, id: JobId)
    requires Orphaned(s, id) && Enabled(s, e) && IsQuiet(e)
    ensures Orphaned(Apply(s, e), id)
  {
    hide Apply, Enabled;
    QuietEffect(s, e);
    var t := Apply(s, e);
    forall w | w in t.workers ensures HasNotToDoWith(t.workers[w], id) {
      if w in s.workers {
        assert HasNotToDoWith(s.workers[w], id);
      }
    }
  }

  lemma OtherKeepsOrphan(s: Sys, e: Event, id: JobId)
    requires Orphaned(s, id) && Enabled(s, e)
    requires e.Submit? || e.Reap? || e.PollRead? || e.PollPush? || e.PollRemove? || e.Tick? || e.CrashScheduler?
    ensures Orphaned(Apply(s, e), id)
  {
    assert Apply(s, e).workers == s.workers;
    hide Apply, Enabled;
  }

  /** A job stays orphaned until a copy of it is popped. */
  lemma StepKeepsOrphan(s: Sys, e: Event, id: JobId)
    requires Orphaned(s, id) && Enabled(s, e) && !Pops(e, id)
    ensures Orphaned(Apply(s, e), id)
  {
    hide Orphaned, Apply, Enabled;
    if e.Take? || e.TakeLostReply? {
      TakeKeepsOrphan(s, e, id);
    } else if e.Succeed? || e.Fail? || e.FailUnrecorded? {
      RecordingKeepsOrphan(s, e, id);
    } else if e.Exit? || e.Replace? {
      GoingKeepsOrphan(s, e, id);
    } else if e.Submit? || e.Reap? || e.PollRead? || e.PollPush? || e.PollRemove? || e.Tick? || e.CrashScheduler? {
      OtherKeepsOrphan(s, e, id);
    } else {
      QuietKeepsOrphan(s, e, id);
    }
  }

  /** Nobody renews, acknowledges or hands back an orphan. */
  lemma OrphanIsLeftAlone(s: Sys, e: Event, id: JobId)
    requires Orphaned(s, id) && Enabled(s, e)
    ensures !IsRenewed(s, e, id) && !Acknowledged(s, e, id) && !HandedBack(s, e, id)
  {
    if e.MonitorPass? {
      forall w | w in s.workers ensures !WorksFor(s.workers[w], e.p, id) {
        assert HasNotToDoWith(s.workers[w], id);
      }
    }
    if e.Take? || e.TakeLostReply? || e.Exit? || e.Replace? {
      assert HasNotToDoWith(s.workers[e.w], id);
    }
  }

  ghost predicate Waits(s: Sys, id: JobId, until: Micros) {
    Orphaned(s, id) && LeasedUntil(s, id, until)
  }

  /** Only the reaper ends an orphaned lease, unless a second copy of the job is popped: every
      other step leaves it as it is. */
  lemma StepLeavesOrphan(s: Sys, e: Event, id: JobId, until: Micros)
    requires Waits(s, id, until) && WellFormed(s.store) && Enabled(s, e)
    ensures TakesBack(s, e, id) || Pops(e, id) || Waits(Apply(s, e), id, until)
  {
    hide Orphaned, LeasedUntil, Acknowledged, HandedBack, IsRenewed, TakesBack, Pops, Apply, Enabled, WellFormed;
    OrphanIsLeftAlone(s, e, id);
    UnlessEndedOrRenewed(s, e, id, until);
    if !Pops(e, id) {
      StepKeepsOrphan(s, e, id);
    }
  }

  /** Some step of the run takes the lease of the job back, or pops a copy of the job. */
  ghost predicate Recovered(s: Sys, es: seq<Event>, id: JobId)
    requires Valid(s, es)
    decreases |es|
  {
    es != [] && (TakesBack(s, es[0], id) || Pops(es[0], id) || Recovered(Apply(s, es[0]), es[1..], id))
  }

  lemma {:induction false} OrphanIsReaped(s: Sys, es: seq<Event>, id: JobId, until: Micros, interval: Micros)
    requires DeadlinesOk(s) && CopiesOk(s) && s.lease > 0 && Waits(s, id, until)
    requires Valid(s, es) && Always(s, es, t => ReapedWithin(t, interval))
    requires Exec(s, es).now >= until + interval
    ensures Recovered(s, es, id)
    decreases |es|
  {
    if es != [] && !TakesBack(s, es[0], id) && !Pops(es[0], id) {
      WhatCopiesOkSays(s);
      StepLeavesOrphan(s, es[0], id, until);
      StepKeepsDeadlines(s, es[0]);
      StepKeepsCopies(s, es[0]);
      OrphanIsReaped(Apply(s, es[0]), es[1..], id, until, interval);
    }
  }

  /** Whenever, in any run, a lease has no live holder left (a crash, or a take whose reply was
      lost) and reap passes keep finishing every `interval`, then by one lease plus one interval
      later, whatever else happens meanwhile and however many copies of the job are queued, the
      reaper has taken the lease back and put its job in the queue, unless a queued copy of the
      job was popped before that. */
  lemma OrphanedJobsComeBack(s0: Sys, es0: seq<Event>, es: seq<Event>, id: JobId, interval: Micros)
    requires Initial(s0) && Valid(s0, es0) && s0.lease > 0
    requires var s := Exec(s0, es0);
      && id in s.store.processing && Orphaned(s, id)
      && Valid(s, es) && Always(s, es, t => ReapedWithin(t, interval))
      && Exec(s, es).now >= s.now + s.lease + interval
    ensures Recovered(Exec(s0, es0), es, id)
  {
    RunKeepsDeadlines(s0, es0);
    var s := Exec(s0, es0);
    OrphanIsReaped(s, es, id, s.now + s.lease, interval);
  }
}
