/** No accepted job is lost, and exactly when the promotion of a retry is safe.

    Leases are keyed by job id, not by holder, so an acknowledgement removes whichever lease is
    under its id. If a retry is promoted and leased again while the acknowledgement of its failed
    attempt is still unsent, that acknowledgement deletes the new lease. */
module NoLoss {
  import opened Prelude
  import opened Jobs
  import opened LeaseModel
  import opened DeadLetters
  import opened DelayedJobs
  import opened Retries
  import opened System

  /** Somewhere durable: queued, leased, delayed, dead-lettered or done. */
  ghost predicate Located(s: Sys, id: JobId) {
    || Queued(s.store, id)
    || id in s.store.processing
    || id in s.done
    || DeadLettered(s.dlq, id)
    || exists d | d in s.delayed :: d.id == id
  }

  ghost predicate NoJobLost(s: Sys) {
    forall id | id in s.accepted :: Located(s, id)
  }

  /** The entry poll has pushed and is about to remove: it backs nothing any more. */
  ghost predicate Promoting(s: Sys, d: Job) {
    s.sched.Polling? && s.sched.pushed && s.sched.due != [] && s.sched.due[0] == d
  }

  /** An outcome of the job is recorded and not yet promoted away. */
  ghost predicate Settled(s: Sys, id: JobId) {
    || id in s.done
    || DeadLettered(s.dlq, id)
    || exists d | d in s.delayed && !Promoting(s, d) :: d.id == id
  }

  ghost predicate Safe(s: Sys, id: JobId) {
    Queued(s.store, id) || id in s.store.processing || Settled(s, id)
  }

  ghost predicate WorkerOk(s: Sys, x: Worker) {
    x.pending.Some? ==> x.current.None? && Settled(s, x.pending.value.id)
  }

  ghost predicate Inv(s: Sys) {
    && WellFormed(s.store)
    && SchedulerOk(s)
    && s.accepted <= s.origin.Keys
    && (forall id | id in s.origin :: Safe(s, id))
    && (forall w | w in s.workers :: WorkerOk(s, s.workers[w]))
  }

  // ---------------------------------------------------------------- the promotion guard

  ghost predicate AckUnsent(s: Sys, id: JobId) {
    exists w | w in s.workers :: PendingId(s.workers[w]) == Some(id)
  }

  /** An outcome of the job is recorded somewhere other than in this delayed entry. */
  ghost predicate SettledElsewhere(s: Sys, entry: Job) {
    || entry.id in s.done
    || DeadLettered(s.dlq, entry.id)
    || exists d | d in s.delayed && d != entry :: d.id == entry.id
  }

  /** Promoting this entry is safe: no live worker still has to acknowledge its job, unless
      another recorded outcome stands behind that acknowledgement. */
  ghost predicate PromotionSafe(s: Sys, entry: Job) {
    AckUnsent(s, entry.id) ==> SettledElsewhere(s, entry)
  }

  ghost predicate Guard(s: Sys, e: Event)
    requires Enabled(s, e)
  {
    e.PollPush? ==> PromotionSafe(s, s.sched.due[0])
  }

  ghost predicate Guarded(s: Sys, es: seq<Event>)
    requires Valid(s, es)
    decreases |es|
  {
    es == [] || (Guard(s, es[0]) && Guarded(Apply(s, es[0]), es[1..]))
  }

  // ---------------------------------------------------------------- preservation

  /** Steps that leave the outcomes alone and keep every submitted id somewhere. */
  lemma StoreStep(s: Sys, t: Sys)
    requires Inv(s) && WellFormed(t.store)
    requires t.done == s.done && t.dlq == s.dlq && t.delayed == s.delayed && t.sched == s.sched && t.now >= s.now
    requires t.origin == s.origin && t.accepted == s.accepted
    requires forall id | Queued(s.store, id) || id in s.store.processing ::
      Queued(t.store, id) || id in t.store.processing || Settled(s, id)
    requires forall w | w in t.workers :: t.workers[w].pending.Some? ==>
      && t.workers[w].current.None?
      && exists v | v in s.workers :: PendingId(s.workers[v]) == PendingId(t.workers[w])
    ensures Inv(t)
  {
  }

  lemma TakeKeepsIds(s: Store, ack: Option<JobId>, popped: Option<Job>, deadline: Micros, id: JobId)
    requires CanPop(s.queue, popped) && (Queued(s, id) || id in s.processing)
    ensures var t := Taken(s, ack, popped, deadline);
      Queued(t, id) || id in t.processing || ack == Some(id)
  {
  }

  /** The taken store still has every id but the acknowledged one, which is settled. */
  lemma TakenKeepsIds(s: Sys, w: WorkerId, popped: Option<Job>)
    requires Inv(s) && Free(s, w) && CanPop(s.store.queue, popped)
    ensures var t := StoreTaken(s, w, popped);
      && WellFormed(t)
      && forall id | Queued(s.store, id) || id in s.store.processing ::
           Queued(t, id) || id in t.processing || Settled(s, id)
  {
    var ack := PendingId(s.workers[w]);
    assert WorkerOk(s, s.workers[w]) && WellFormed(s.store);
    hide Inv, WellFormed, Taken, CanPop, Queued, Settled;
    TakeIsClean(s.store, ack, popped, s.now + s.lease);
    var t := StoreTaken(s, w, popped);
    forall id | Queued(s.store, id) || id in s.store.processing
      ensures Queued(t, id) || id in t.processing || Settled(s, id)
    {
      TakeKeepsIds(s.store, ack, popped, s.now + s.lease, id);
    }
  }

  lemma OthersOwe(s: Sys, w: WorkerId, x: Worker)
    requires Inv(s) && w in s.workers && (x.pending.None? || (x.current.None? && x.pending == s.workers[w].pending))
    ensures forall v | v in s.workers[w := x] && s.workers[w := x][v].pending.Some? ::
      && s.workers[w := x][v].current.None?
      && v in s.workers && PendingId(s.workers[v]) == PendingId(s.workers[w := x][v])
  {
    assert forall v | v in s.workers :: WorkerOk(s, s.workers[v]);
    hide Settled;
  }

  lemma TakeKeepsInv(s: Sys, w: WorkerId, popped: Option<Job>)
    requires Inv(s) && Free(s, w) && CanPop(s.store.queue, popped)
    ensures Inv(AfterTake(s, w, popped)) && Inv(AfterLostReply(s, w, popped))
  {
    hide Inv, WellFormed, Taken, CanPop, Queued, Settled, StoreTaken;
    TakenKeepsIds(s, w, popped);
    OthersOwe(s, w, AfterTake(s, w, popped).workers[w]);
    OthersOwe(s, w, AfterLostReply(s, w, popped).workers[w]);
    StoreStep(s, AfterTake(s, w, popped));
    StoreStep(s, AfterLostReply(s, w, popped));
  }

  lemma RequeueKeepsIds(s: Store, job: Job, id: JobId)
    requires Queued(s, id) || id in s.processing
    ensures Queued(Requeued(s, job), id) || id in Requeued(s, job).processing
  {
  }

  lemma ReplaceKeepsInv(s: Sys, w: WorkerId, landed: bool, replied: bool, spare: WorkerId)
    requires Inv(s) && Enabled(s, Replace(w, landed, replied, spare))
    ensures Inv(AfterReplace(s, w, landed, replied, spare))
  {
    var t := AfterReplace(s, w, landed, replied, spare);
    if t.store != s.store {
      var job := s.workers[w].current.value.(status := Pending);
      forall id | Queued(s.store, id) || id in s.store.processing
        ensures Queued(t.store, id) || id in t.store.processing
      {
        RequeueKeepsIds(s.store, job, id);
      }
    }
    forall v | v in t.workers && t.workers[v].pending.Some?
      ensures v in s.workers && PendingId(s.workers[v]) == PendingId(t.workers[v]) && t.workers[v].current.None?
    {
      assert WorkerOk(s, s.workers[v]);
    }
    StoreStep(s, t);
  }

  lemma ReapKeepsInv(s: Sys, ids: seq<JobId>, t: Sys)
    requires Inv(s) && t.(lastDrain := s.lastDrain) == s.(store := Reaped(s.store, ids))
    ensures Inv(t)
  {
    ReapMovesLeasesToTheQueue(s.store, ids);
    forall id | Queued(s.store, id) || id in s.store.processing
      ensures Queued(t.store, id) || id in t.store.processing
    {
      if id in s.store.processing && id in ids {
        assert s.store.payload[id] in t.store.queue;
      } else if Queued(s.store, id) {
        var m :| m in s.store.queue && m.id == id;
        assert m in t.store.queue;
      }
    }
    StoreStep(s, t);
  }

  /** Recording an outcome settles the id; the new delayed entry is due later than anything
      poll is promoting, so it is not the entry poll is about to remove. */
  lemma RecordKeepsInv(s: Sys, w: WorkerId, t: Sys, written: bool)
    requires Inv(s) && Busy(s, w)
    requires w in t.workers && t.workers == s.workers[w := t.workers[w]]
    requires t.(done := s.done, dlq := s.dlq, delayed := s.delayed, workers := s.workers) == s
    requires s.done <= t.done && (forall r | r in s.dlq :: r in t.dlq)
    requires forall d | d in s.delayed :: d in t.delayed && t.delayed[d] == d.nextRetryTime
    requires forall d | d in t.delayed && d !in s.delayed :: t.delayed[d] == d.nextRetryTime
    requires t.workers[w].current.None?
    requires t.workers[w].pending.Some? ==> written && t.workers[w].pending.value.id == s.workers[w].current.value.id
    requires written ==>
      || s.workers[w].current.value.id in t.done
      || DeadLettered(t.dlq, s.workers[w].current.value.id)
      || exists d | d in t.delayed && d.nextRetryTime > s.now :: d.id == s.workers[w].current.value.id
    ensures Inv(t)
  {
  }

  lemma WrittenShows(s: Sys, w: WorkerId, error: string, jitter: Micros)
    requires SchedulerOk(s) && Busy(s, w) && IsJitter(jitter)
    ensures var d := Decided(s, w, error, jitter); var t := Written(s, d); var id := s.workers[w].current.value.id;
      && d.job.id == id
      && (d.DeadLetter? ==> DeadLettered(t.dlq, id))
      && (d.Retry? ==> d.job in t.delayed && d.job.nextRetryTime > s.now)
  {
  }

  lemma PushKeepsInv(s: Sys)
    requires Inv(s) && Enabled(s, PollPush) && PromotionSafe(s, s.sched.due[0])
    ensures Inv(Apply(s, PollPush))
  {
    var t, entry := Apply(s, PollPush), s.sched.due[0];
    assert Promoted(entry) in t.store.queue;
    forall id | Settled(s, id) && (id != entry.id || SettledElsewhere(s, entry)) ensures Settled(t, id) {
      if id in s.done || DeadLettered(s.dlq, id) {
      } else if id == entry.id {
        var d :| d in s.delayed && d != entry && d.id == id;
        assert d in t.delayed && !Promoting(t, d);
      } else {
        var d :| d in s.delayed && d.id == id;
        assert d in t.delayed && !Promoting(t, d);
      }
    }
    forall id | id in t.origin ensures Safe(t, id) {
      assert Safe(s, id);
      if m :| m in s.store.queue && m.id == id {
        assert m in t.store.queue;
      }
    }
    forall w | w in t.workers ensures WorkerOk(t, t.workers[w]) {
      assert WorkerOk(s, s.workers[w]);
      if s.workers[w].pending.Some? && s.workers[w].pending.value.id == entry.id {
        assert PendingId(s.workers[w]) == Some(entry.id);
        assert AckUnsent(s, entry.id);
      }
    }
  }

  lemma SchedulerStep(s: Sys, t: Sys)
    requires Inv(s) && SchedulerOk(t)
    requires t.(sched := s.sched, delayed := s.delayed) == s
    requires forall d | d in s.delayed && !Promoting(s, d) :: d in t.delayed && !Promoting(t, d)
    ensures Inv(t)
  {
  }

  lemma SubmitKeepsInv(s: Sys, job: Job, replied: bool)
    requires Inv(s) && Enabled(s, Submit(job, replied))
    ensures Inv(Apply(s, Submit(job, replied)))
  {
  }

  lemma QuietStep(s: Sys, t: Sys)
    requires Inv(s) && Quiet(s, t)
    ensures Inv(t)
  {
    forall w | w in t.workers && t.workers[w].pending.Some?
      ensures t.workers[w].current.None? && w in s.workers && PendingId(s.workers[w]) == PendingId(t.workers[w])
    {
      assert w in s.workers && WorkerOk(s, s.workers[w]);
    }
    StoreStep(s, t);
  }

  lemma SuccessKeepsInv(s: Sys, w: WorkerId)
    requires Inv(s) && Busy(s, w)
    ensures Inv(AfterSuccess(s, w))
  {
    assert SchedulerOk(s);
    hide Inv, SchedulerOk;
    RecordKeepsInv(s, w, AfterSuccess(s, w), true);
  }

  lemma FailureKeepsInv(s: Sys, w: WorkerId, error: string, jitter: Micros)
    requires Inv(s) && Enabled(s, Fail(w, error, jitter))
    ensures Inv(AfterFailure(s, w, error, jitter))
  {
    assert SchedulerOk(s);
    hide Inv;
    WrittenShows(s, w, error, jitter);
    hide DeadLettered;
    RecordKeepsInv(s, w, AfterFailure(s, w, error, jitter), true);
  }

  lemma UnrecordedKeepsInv(s: Sys, w: WorkerId, error: string, jitter: Micros, landed: bool)
    requires Inv(s) && Busy(s, w) && IsJitter(jitter)
    ensures Inv(AfterFailureUnrecorded(s, w, error, jitter, landed))
  {
    assert SchedulerOk(s) && WorkerOk(s, s.workers[w]);
    hide Inv;
    WrittenShows(s, w, error, jitter);
    RecordKeepsInv(s, w, AfterFailureUnrecorded(s, w, error, jitter, landed), false);
  }

  lemma RecordingKeepsInv(s: Sys, e: Event)
    requires Inv(s) && Enabled(s, e) && (e.Succeed? || e.Fail? || e.FailUnrecorded?)
    ensures Inv(Apply(s, e))
  {
    hide Inv, AfterSuccess, AfterFailure, AfterFailureUnrecorded;
    match e {
      case Succeed(w) => SuccessKeepsInv(s, w);
      case Fail(w, error, jitter) => FailureKeepsInv(s, w, error, jitter);
      case FailUnrecorded(w, error, jitter, landed) => UnrecordedKeepsInv(s, w, error, jitter, landed);
    }
  }

  lemma ExitKeepsInv(s: Sys, w: WorkerId, landed: bool)
    requires Inv(s) && Enabled(s, Exit(w, landed))
    ensures Inv(AfterExit(s, w, landed))
  {
    var t := AfterExit(s, w, landed);
    assert WorkerOk(s, s.workers[w]);
    forall v | v in t.workers && t.workers[v].pending.Some?
      ensures v in s.workers && PendingId(s.workers[v]) == PendingId(t.workers[v]) && t.workers[v].current.None?
    {
      assert WorkerOk(s, s.workers[v]);
    }
    StoreStep(s, t);
  }

  /** The entries not being promoted are still there, and still not being promoted. */
  ghost predicate EntriesKept(s: Sys, t: Sys) {
    SchedulerOk(t) && forall d | d in s.delayed && !Promoting(s, d) :: d in t.delayed && !Promoting(t, d)
  }

  lemma RemovalKeepsEntries(s: Sys)
    requires SchedulerOk(s) && Enabled(s, PollRemove)
    ensures EntriesKept(s, AfterPollRemove(s))
  {
    assert s.sched.due == [s.sched.due[0]] + s.sched.due[1..];
  }

  lemma ReadingKeepsEntries(s: Sys, e: Event)
    requires SchedulerOk(s) && Enabled(s, e) && (e.PollRead? || e.CrashScheduler?)
    ensures EntriesKept(s, Apply(s, e))
  {
  }

  lemma SchedulingKeepsEntries(s: Sys, e: Event)
    requires Inv(s) && Enabled(s, e) && (e.PollRead? || e.PollRemove? || e.CrashScheduler?)
    ensures EntriesKept(s, Apply(s, e))
  {
    assert SchedulerOk(s);
    hide Inv, EntriesKept, SchedulerOk;
    if e.PollRemove? {
      RemovalKeepsEntries(s);
    } else {
      ReadingKeepsEntries(s, e);
    }
  }

  lemma SchedulingKeepsInv(s: Sys, e: Event)
    requires Inv(s) && Enabled(s, e) && (e.PollRead? || e.PollRemove? || e.CrashScheduler?)
    ensures Inv(Apply(s, e))
  {
    hide Inv;
    SchedulingKeepsEntries(s, e);
    SchedulerStep(s, Apply(s, e));
  }

  lemma QuietKeepsInv(s: Sys, e: Event)
    requires Inv(s) && Enabled(s, e) && IsQuiet(e)
    ensures Inv(Apply(s, e))
  {
    hide *;
    QuietEffect(s, e);
    QuietStep(s, Apply(s, e));
  }

  lemma TickKeepsInv(s: Sys, elapsed: Micros)
    requires Inv(s) && elapsed > 0
    ensures Inv(s.(now := s.now + elapsed))
  {
    var t := s.(now := s.now + elapsed);
    assert forall w | w in s.workers :: WorkerOk(s, s.workers[w]);
    StoreStep(s, t);
  }

  lemma SchedulerOrTickKeepsInv(s: Sys, e: Event)
    requires Inv(s) && Enabled(s, e) && (e.Tick? || e.PollRead? || e.PollRemove? || e.CrashScheduler?)
    ensures Inv(Apply(s, e))
  {
    hide Inv;
    if e.Tick? {
      TickKeepsInv(s, e.elapsed);
    } else {
      SchedulingKeepsInv(s, e);
    }
  }

  lemma StepKeepsInv(s: Sys, e: Event)
    requires Inv(s) && Enabled(s, e) && Guard(s, e)
    ensures Inv(Apply(s, e))
  {
    hide Inv, PromotionSafe;
    match e {
      case Submit(job, replied) => SubmitKeepsInv(s, job, replied);
      case Take(w, popped) => TakeKeepsInv(s, w, popped);
      case TakeLostReply(w, popped) => TakeKeepsInv(s, w, popped);
      case Exit(w, landed) => ExitKeepsInv(s, w, landed);
      case Replace(w, landed, replied, spare) => ReplaceKeepsInv(s, w, landed, replied, spare);
      case Reap(ids, limit) => ReapKeepsInv(s, ids, Apply(s, e));
      case PollPush => PushKeepsInv(s);
      case _ =>
        hide Apply, Enabled;
        if e.Succeed? || e.Fail? || e.FailUnrecorded? {
          RecordingKeepsInv(s, e);
        } else if e.Tick? || e.PollRead? || e.PollRemove? || e.CrashScheduler? {
          SchedulerOrTickKeepsInv(s, e);
        } else {
          QuietKeepsInv(s, e);
        }
    }
  }

  lemma {:induction false} RunKeepsInv(s: Sys, es: seq<Event>)
    requires Inv(s) && Valid(s, es) && Guarded(s, es)
    ensures Inv(Exec(s, es))
    decreases |es|
  {
    if es != [] {
      StepKeepsInv(s, es[0]);
      RunKeepsInv(Apply(s, es[0]), es[1..]);
    }
  }

  /** In every run whose promotions are safe, at every point, every accepted job is queued,
      leased, delayed, dead-lettered or done. */
  lemma NoAcceptedJobIsLost(s: Sys, es: seq<Event>)
    requires Initial(s) && Valid(s, es) && Guarded(s, es)
    ensures NoJobLost(Exec(s, es))
  {
    RunKeepsInv(s, es);
    var t := Exec(s, es);
    forall id | id in t.accepted ensures Located(t, id) {
      assert Safe(t, id);
    }
  }
}
