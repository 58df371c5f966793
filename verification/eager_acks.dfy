/** Acknowledging on the next take refines acknowledging at once.

    The eager system releases the lease in the same step that records the outcome. Deleting the
    leases of jobs whose outcome has been recorded since they were last popped maps every
    unbroken run of the real system, step by step, to a run of the eager one that pops the same
    jobs in the same order: failed takes that keep the acknowledgement and send it again, lost
    replies, unrecorded failures and acknowledgements that never arrive included. */
module EagerAcks {
  import opened Prelude
  import opened Jobs
  import opened LeaseModel
  import opened DelayedJobs
  import opened Retries
  import opened System
  import opened Copies
  import opened NoLoss
  import opened FaultFree

  function Acknowledged(s: Sys, w: WorkerId): Sys
    requires w in s.workers
  {
    s.(store := Acked(s.store, PendingId(s.workers[w])), workers := s.workers[w := s.workers[w].(pending := None)])
  }

  /** The step of the eager system: an outcome is acknowledged as soon as it is recorded. */
  ghost function EagerApply(s: Sys, e: Event): Sys
    requires Enabled(s, e)
  {
    var t := Apply(s, e);
    if e.Succeed? || e.Fail? then Acknowledged(t, e.w) else t
  }

  ghost predicate EagerValid(s: Sys, es: seq<Event>)
    decreases |es|
  {
    es == [] || (Enabled(s, es[0]) && EagerValid(EagerApply(s, es[0]), es[1..]))
  }

  ghost function EagerExec(s: Sys, es: seq<Event>): Sys
    requires EagerValid(s, es)
    decreases |es|
  {
    if es == [] then s else EagerExec(EagerApply(s, es[0]), es[1..])
  }

  // ---------------------------------------------------------------- the abstraction

  function Without(s: Store, ids: set<JobId>): Store {
    Store(s.queue, s.processing - ids, s.payload - ids, s.leaseScore - ids)
  }

  function NothingPending(ws: map<WorkerId, Worker>): map<WorkerId, Worker> {
    map w | w in ws :: ws[w].(pending := None)
  }

  ghost function Eager(s: Sys, spent: set<JobId>): Sys {
    s.(store := Without(s.store, spent), workers := NothingPending(s.workers))
  }

  /** The jobs whose outcome has been recorded since they were last popped. */
  ghost function SpentAfter(s: Sys, e: Event, spent: set<JobId>): set<JobId>
    requires Enabled(s, e)
  {
    match e
    case Take(_, popped) => spent - TakenId(popped)
    case TakeLostReply(_, popped) => spent - TakenId(popped)
    case Succeed(w) => spent + SlotIds(s.workers[w], Current)
    case Fail(w, _, _) => spent + SlotIds(s.workers[w], Current)
    case _ => spent
  }

  ghost function SpentAlong(s: Sys, es: seq<Event>, spent: set<JobId>): set<JobId>
    requires Valid(s, es)
    decreases |es|
  {
    if es == [] then spent else SpentAlong(Apply(s, es[0]), es[1..], SpentAfter(s, es[0], spent))
  }

  /** Every unsent acknowledgement is of such a job, and nobody runs one. */
  ghost predicate Owes(ws: map<WorkerId, Worker>, spent: set<JobId>) {
    IdsIn(ws, Unacked) <= spent && IdsIn(ws, Current) !! spent
  }

  /** The step is the same step of the eager system. */
  ghost predicate Refined(s: Sys, e: Event, spent: set<JobId>)
    requires Enabled(s, e)
  {
    var left := SpentAfter(s, e, spent);
    && Enabled(Eager(s, spent), e) && Eager(Apply(s, e), left) == EagerApply(Eager(s, spent), e)
    && Owes(Apply(s, e).workers, left)
  }

  // ---------------------------------------------------------------- on the store and the workers

  lemma KeysWithout<V>(m: map<JobId, V>, gone: set<JobId>, spent: set<JobId>, id: JobId, v: V)
    requires gone <= spent
    ensures m - gone - spent == m - spent
    ensures (m - gone)[id := v] - (spent - {id}) == (m - spent)[id := v]
  {
  }

  lemma TakeWithout(s: Store, ack: Option<JobId>, popped: Option<Job>, deadline: Micros, spent: set<JobId>)
    requires CanPop(s.queue, popped) && (ack.Some? ==> ack.value in spent)
    ensures Without(Taken(s, ack, popped, deadline), spent - TakenId(popped)) == Taken(Without(s, spent), None, popped, deadline)
  {
    AckWithout(s, ack, spent);
    if popped.Some? {
      var m, gone := popped.value, if ack.Some? then {ack.value} else {};
      KeysWithout(s.processing, gone, spent, m.id, deadline);
      KeysWithout(s.payload, gone, spent, m.id, m);
      KeysWithout(s.leaseScore, gone, spent, m.id, s.queue[m]);
      assert Acked(s, ack) == Store(s.queue, s.processing - gone, s.payload - gone, s.leaseScore - gone);
    } else {
      assert spent - {} == spent;
    }
  }

  lemma AckWithout(s: Store, ack: Option<JobId>, spent: set<JobId>)
    requires ack.Some? ==> ack.value in spent
    ensures Without(Acked(s, ack), spent) == Without(s, spent)
  {
  }

  lemma RecordWithout(s: Store, spent: set<JobId>, id: JobId)
    ensures Without(s, spent + {id}) == Released(Without(s, spent), id)
  {
  }

  lemma RenewWithout(s: Store, ids: set<JobId>, deadline: Micros, spent: set<JobId>)
    ensures Without(Renewed(s, ids, deadline), spent) == Renewed(Without(s, spent), ids, deadline)
  {
  }

  lemma WorkersWithout(ws: map<WorkerId, Worker>, w: WorkerId, x: Worker)
    ensures NothingPending(ws[w := x]) == NothingPending(ws)[w := x.(pending := None)]
    ensures NothingPending(ws - {w}) == NothingPending(ws) - {w}
    ensures w in ws ==> w in NothingPending(ws) && NothingPending(ws)[w] == ws[w].(pending := None)
    ensures w !in ws ==> w !in NothingPending(ws)
  {
  }

  lemma OwedIsSpent(s: Sys, w: WorkerId, spent: set<JobId>)
    requires w in s.workers && Owes(s.workers, spent)
    ensures SlotIds(s.workers[w], Unacked) <= spent
    ensures PendingId(s.workers[w]).Some? ==> PendingId(s.workers[w]).value in spent
  {
    SlotIsIn(s, w);
  }

  lemma QueuedIsApart(s: Sys, popped: Option<Job>)
    requires Single(s, false, true) && CanPop(s.store.queue, popped)
    ensures TakenId(popped) !! IdsIn(s.workers, Unacked) && TakenId(popped) !! IdsIn(s.workers, Current)
  {
    PopLoses(s.store.queue, popped);
    assert CensusOf(s).queued == QueuedIds(s.store.queue);
    hide QueuedIds, IdsIn, HeldIds, DeadIds, Unique;
  }

  // ---------------------------------------------------------------- the steps

  lemma TakeRefines(s: Sys, w: WorkerId, popped: Option<Job>, spent: set<JobId>)
    requires Owes(s.workers, spent) && Enabled(s, Take(w, popped))
    ensures Enabled(Eager(s, spent), Take(w, popped))
    ensures Eager(AfterTake(s, w, popped), spent - TakenId(popped)) == AfterTake(Eager(s, spent), w, popped)
  {
    hide IsMax, Without, Taken, NothingPending, Owes, SlotIds, TakenId;
    TakenEagerly(s, w, popped, spent);
    WorkersWithout(s.workers, w, AfterTake(s, w, popped).workers[w]);
    WorkersWithout(s.workers, w, s.workers[w]);
    QueueWithout(s.store, spent);
  }

  lemma TakenEagerly(s: Sys, w: WorkerId, popped: Option<Job>, spent: set<JobId>)
    requires w in s.workers && Owes(s.workers, spent) && CanPop(s.store.queue, popped)
    ensures CanPop(Without(s.store, spent).queue, popped)
    ensures Without(StoreTaken(s, w, popped), spent - TakenId(popped)) == Taken(Without(s.store, spent), None, popped, s.now + s.lease)
  {
    hide CanPop, Without, Taken, Owes, SlotIds, TakenId, IdOf;
    OwedIsSpent(s, w, spent);
    QueueWithout(s.store, spent);
    TakeWithout(s.store, PendingId(s.workers[w]), popped, s.now + s.lease, spent);
  }

  lemma QueueWithout(s: Store, spent: set<JobId>)
    ensures Without(s, spent).queue == s.queue
  {
  }

  lemma TakeOwes(s: Sys, w: WorkerId, popped: Option<Job>, spent: set<JobId>)
    requires Single(s, false, true) && Owes(s.workers, spent) && Free(s, w) && CanPop(s.store.queue, popped)
    ensures Owes(AfterTake(s, w, popped).workers, spent - TakenId(popped))
  {
    QueuedIsApart(s, popped);
    assert UniqueWorkers(s.workers, true);
    hide UniqueWorkers, Single, IdsIn, CanPop;
    TakeInWorkers(s, w, popped, AfterTake(s, w, popped), true);
  }

  lemma LostReplyRefines(s: Sys, w: WorkerId, popped: Option<Job>, spent: set<JobId>)
    requires Owes(s.workers, spent) && Enabled(s, TakeLostReply(w, popped))
    ensures Enabled(Eager(s, spent), TakeLostReply(w, popped))
    ensures Eager(AfterLostReply(s, w, popped), spent - TakenId(popped)) == AfterLostReply(Eager(s, spent), w, popped)
  {
    hide IsMax, Without, Taken, NothingPending, Owes, SlotIds, TakenId;
    TakenEagerly(s, w, popped, spent);
    WorkersWithout(s.workers, w, TakeRaised(s.workers[w], s.now));
    WorkersWithout(s.workers, w, s.workers[w]);
    QueueWithout(s.store, spent);
  }

  lemma LostReplyOwes(s: Sys, w: WorkerId, popped: Option<Job>, spent: set<JobId>)
    requires Single(s, false, true) && Owes(s.workers, spent) && Enabled(s, TakeLostReply(w, popped))
    ensures Owes(AfterLostReply(s, w, popped).workers, spent - TakenId(popped))
  {
    QueuedIsApart(s, popped);
    assert UniqueWorkers(s.workers, true);
    hide UniqueWorkers, Single, IdsIn, CanPop;
    SameSlots(s.workers, w, TakeRaised(s.workers[w], s.now), true);
  }

  /** Recording an outcome, and in the eager system releasing the lease at once. */
  lemma RecordRefines(s: Sys, t: Sys, w: WorkerId, spent: set<JobId>)
    requires Busy(s, w) && w in t.workers && t.store == s.store && t.workers == s.workers[w := t.workers[w]]
    requires t.workers[w].pending.Some? && t.workers[w].pending.value.id == s.workers[w].current.value.id
    ensures Eager(t, spent + SlotIds(s.workers[w], Current))
      == Acknowledged(t.(store := Eager(s, spent).store, workers := Eager(s, spent).workers[w := t.workers[w]]), w)
  {
    hide Without, NothingPending;
    RecordWithout(s.store, spent, t.workers[w].pending.value.id);
    WorkersWithout(s.workers, w, t.workers[w]);
  }

  lemma RecordOwes(s: Sys, w: WorkerId, x: Worker, spent: set<JobId>)
    requires Single(s, false, true) && Owes(s.workers, spent) && Busy(s, w) && x.current.None? && x.pending.Some?
    requires x.pending.value.id == s.workers[w].current.value.id
    ensures Owes(s.workers[w := x], spent + SlotIds(s.workers[w], Current))
  {
    hide Single, IdsIn;
    RecordInWorkers(s, w, x, false, true);
  }

  lemma SuccessRefines(s: Sys, w: WorkerId, spent: set<JobId>)
    requires Busy(s, w)
    ensures Busy(Eager(s, spent), w)
    ensures Eager(AfterSuccess(s, w), spent + SlotIds(s.workers[w], Current)) == Acknowledged(AfterSuccess(Eager(s, spent), w), w)
  {
    WorkersWithout(s.workers, w, s.workers[w]);
    hide Without, NothingPending, Acked, SlotIds;
    RecordRefines(s, AfterSuccess(s, w), w, spent);
  }

  lemma SameDecision(s: Sys, w: WorkerId, error: string, jitter: Micros, spent: set<JobId>)
    requires Busy(s, w)
    ensures Busy(Eager(s, spent), w) && Decided(Eager(s, spent), w, error, jitter) == Decided(s, w, error, jitter)
    ensures Eager(s, spent).workers[w] == s.workers[w].(pending := None)
  {
    WorkersWithout(s.workers, w, s.workers[w]);
  }

  lemma FailureRefines(s: Sys, w: WorkerId, error: string, jitter: Micros, spent: set<JobId>)
    requires Busy(s, w)
    ensures Busy(Eager(s, spent), w)
    ensures Eager(AfterFailure(s, w, error, jitter), spent + SlotIds(s.workers[w], Current))
      == Acknowledged(AfterFailure(Eager(s, spent), w, error, jitter), w)
  {
    SameDecision(s, w, error, jitter, spent);
    hide Without, NothingPending, Acked, SlotIds;
    assert Decided(s, w, error, jitter).job.id == s.workers[w].current.value.id;
    hide Decided;
    RecordRefines(s, AfterFailure(s, w, error, jitter), w, spent);
  }

  lemma UnrecordedRefines(s: Sys, w: WorkerId, error: string, jitter: Micros, landed: bool, spent: set<JobId>)
    requires Single(s, false, true) && Owes(s.workers, spent) && Busy(s, w)
    ensures Busy(Eager(s, spent), w)
    ensures Eager(AfterFailureUnrecorded(s, w, error, jitter, landed), spent)
      == AfterFailureUnrecorded(Eager(s, spent), w, error, jitter, landed)
    ensures Owes(AfterFailureUnrecorded(s, w, error, jitter, landed).workers, spent)
  {
    SameDecision(s, w, error, jitter, spent);
    NobodyRunsAndOwes(s, w, true);
    hide Without, NothingPending, Decided, Single, IdsIn, SlotIds;
    var x := s.workers[w].(current := None, heartbeat := s.now);
    WorkersWithout(s.workers, w, x);
    RecordInWorkers(s, w, x, false, true);
    assert SlotIds(x, Unacked) == {} by { NothingOwed(x); }
  }

  lemma NothingOwed(x: Worker)
    requires x.pending.None?
    ensures SlotIds(x, Unacked) == {}
  {
  }

  lemma ExitRefines(s: Sys, w: WorkerId, landed: bool, spent: set<JobId>)
    requires Single(s, false, true) && Owes(s.workers, spent) && Enabled(s, Exit(w, landed))
    ensures Enabled(Eager(s, spent), Exit(w, landed))
    ensures Eager(AfterExit(s, w, landed), spent) == AfterExit(Eager(s, spent), w, landed)
    ensures Owes(AfterExit(s, w, landed).workers, spent)
  {
    WorkerGoes(s.workers, w, true);
    OwedIsSpent(s, w, spent);
    hide Single, IdsIn, UniqueWorkers, Without, NothingPending, SlotIds;
    WorkersWithout(s.workers, w, s.workers[w]);
    AckWithout(s.store, PendingId(s.workers[w]), spent);
  }

  lemma HeldBySame(s: Sys, p: PoolId, spent: set<JobId>)
    ensures HeldBy(Eager(s, spent), p) == HeldBy(s, p)
  {
    var u := Eager(s, spent);
    assert forall w | w in s.workers :: w in u.workers && u.workers[w] == s.workers[w].(pending := None);
    forall id | id in HeldBy(s, p) ensures id in HeldBy(u, p) {
      var w :| w in s.workers && s.workers[w].listed && s.workers[w].pool == p && s.workers[w].current.Some?
        && s.workers[w].current.value.id == id;
      assert u.workers[w].current.value.id == id;
    }
    forall id | id in HeldBy(u, p) ensures id in HeldBy(s, p) {
      var w :| w in u.workers && u.workers[w].listed && u.workers[w].pool == p && u.workers[w].current.Some?
        && u.workers[w].current.value.id == id;
      assert s.workers[w].current.value.id == id;
    }
  }

  lemma PassRefines(s: Sys, p: PoolId, landed: bool, spent: set<JobId>)
    requires p in s.pools
    ensures Eager(s, spent).pools == s.pools && Eager(s, spent).now == s.now
    ensures Eager(AfterPass(s, p, landed), spent) == AfterPass(Eager(s, spent), p, landed)
    ensures AfterPass(s, p, landed).workers == s.workers
  {
    hide HeldBy, Without, NothingPending, Renewed, RenewalDue, Passed;
    HeldBySame(s, p, spent);
    RenewWithout(s.store, HeldBy(s, p), s.now + s.lease, spent);
  }

  lemma WorkerEventRefines(s: Sys, e: Event, spent: set<JobId>)
    requires Enabled(s, e) && (e.Spawn? || e.Stop? || e.TakeLostRequest?)
    ensures Enabled(Eager(s, spent), e) && Eager(Apply(s, e), spent) == Apply(Eager(s, spent), e)
  {
    hide Without, NothingPending;
    WorkersWithout(s.workers, e.w, if e.w in s.workers then s.workers[e.w] else Apply(s, e).workers[e.w]);
    WorkersWithout(s.workers, e.w, Apply(s, e).workers[e.w]);
  }

  lemma WorkerEventOwes(s: Sys, e: Event, spent: set<JobId>)
    requires Single(s, false, true) && Owes(s.workers, spent) && Enabled(s, e) && (e.Spawn? || e.Stop? || e.TakeLostRequest?)
    ensures Owes(Apply(s, e).workers, spent)
  {
    var x := Apply(s, e).workers[e.w];
    assert Apply(s, e).workers == s.workers[e.w := x];
    assert forall slot :: SlotIds(x, slot) == HeldBefore(s.workers, e.w, slot);
    assert UniqueWorkers(s.workers, true) && (x.current.Some? ==> x.pending.None?);
    hide Single, UniqueWorkers, IdsIn, SlotIds, Apply, Enabled;
    SameSlots(s.workers, e.w, x, true);
  }

  lemma FewerOwe(ws: map<WorkerId, Worker>, left: map<WorkerId, Worker>, spent: set<JobId>)
    requires UniqueWorkers(ws, true) && Owes(ws, spent) && forall w | w in left :: w in ws && left[w] == ws[w]
    ensures Owes(left, spent)
  {
    WorkersGo(ws, left, true);
    hide UniqueWorkers, IdsIn;
  }

  lemma CrashOwes(s: Sys, e: Event, spent: set<JobId>)
    requires Single(s, false, true) && Owes(s.workers, spent) && Enabled(s, e) && (e.CrashWorker? || e.CrashPool?)
    ensures Owes(Apply(s, e).workers, spent)
  {
    hide Owes, UniqueWorkers;
    FewerOwe(s.workers, Apply(s, e).workers, spent);
  }

  lemma CrashRefines(s: Sys, e: Event, spent: set<JobId>)
    requires Enabled(s, e) && (e.CrashWorker? || e.CrashPool?)
    ensures Enabled(Eager(s, spent), e) && Eager(Apply(s, e), spent) == Apply(Eager(s, spent), e)
  {
    hide Without;
    var u := Eager(s, spent);
    match e {
      case CrashWorker(w) => WorkersWithout(s.workers, w, s.workers[w]);
      case CrashPool(p) => assert Eager(Apply(s, e), spent).workers == Apply(u, e).workers;
    }
  }

  lemma SchedulerRefines(s: Sys, e: Event, spent: set<JobId>)
    requires Enabled(s, e) && (e.PollRead? || e.PollPush? || e.PollRemove?)
    ensures Enabled(Eager(s, spent), e) && Eager(Apply(s, e), spent) == Apply(Eager(s, spent), e)
    ensures Apply(s, e).workers == s.workers
  {
    hide NothingPending, IsDueList;
  }

  lemma ReapRefines(s: Sys, limit: int, spent: set<JobId>)
    requires Enabled(s, Reap([], limit))
    ensures Enabled(Eager(s, spent), Reap([], limit))
    ensures Eager(Apply(s, Reap([], limit)), spent) == Apply(Eager(s, spent), Reap([], limit))
    ensures Apply(s, Reap([], limit)).workers == s.workers
  {
    hide NothingPending;
  }

  lemma OtherRefines(s: Sys, e: Event, spent: set<JobId>)
    requires Enabled(s, e) && (e.Submit? || e.StartPool? || e.Tick?)
    ensures Enabled(Eager(s, spent), e) && Eager(Apply(s, e), spent) == Apply(Eager(s, spent), e)
    ensures Apply(s, e).workers == s.workers
  {
    hide NothingPending;
  }

  lemma TakeStepRefines(s: Sys, w: WorkerId, popped: Option<Job>, spent: set<JobId>)
    requires Single(s, false, true) && Owes(s.workers, spent) && Enabled(s, Take(w, popped))
    ensures Refined(s, Take(w, popped), spent)
  {
    hide Single, Eager, Owes, TakenId, AfterTake, CanPop;
    TakeRefines(s, w, popped, spent);
    TakeOwes(s, w, popped, spent);
  }

  lemma LostReplyStepRefines(s: Sys, w: WorkerId, popped: Option<Job>, spent: set<JobId>)
    requires Single(s, false, true) && Owes(s.workers, spent) && Enabled(s, TakeLostReply(w, popped))
    ensures Refined(s, TakeLostReply(w, popped), spent)
  {
    hide Single, Eager, Owes, TakenId, AfterLostReply, CanPop;
    LostReplyRefines(s, w, popped, spent);
    LostReplyOwes(s, w, popped, spent);
  }

  lemma ExitStepRefines(s: Sys, w: WorkerId, landed: bool, spent: set<JobId>)
    requires Single(s, false, true) && Owes(s.workers, spent) && Enabled(s, Exit(w, landed))
    ensures Refined(s, Exit(w, landed), spent)
  {
    hide Single, Eager, Owes, AfterExit;
    ExitRefines(s, w, landed, spent);
  }

  lemma WorkerStepRefines(s: Sys, e: Event, spent: set<JobId>)
    requires Single(s, false, true) && Owes(s.workers, spent) && Enabled(s, e)
    requires e.Spawn? || e.Stop? || e.TakeLostRequest? || e.CrashWorker? || e.CrashPool?
    ensures Refined(s, e, spent)
  {
    hide Single, Eager, Owes, Apply, Enabled;
    if e.CrashWorker? || e.CrashPool? {
      CrashRefines(s, e, spent);
      CrashOwes(s, e, spent);
    } else {
      WorkerEventRefines(s, e, spent);
      WorkerEventOwes(s, e, spent);
    }
  }

  lemma SuccessStepRefines(s: Sys, w: WorkerId, spent: set<JobId>)
    requires Single(s, false, true) && Owes(s.workers, spent) && Busy(s, w)
    ensures Refined(s, Succeed(w), spent)
  {
    SuccessRefines(s, w, spent);
    RecordOwes(s, w, AfterSuccess(s, w).workers[w], spent);
    hide Single, Eager, Owes, SlotIds, Acknowledged;
  }

  lemma FailureStepRefines(s: Sys, w: WorkerId, error: string, jitter: Micros, spent: set<JobId>)
    requires Single(s, false, true) && Owes(s.workers, spent) && Enabled(s, Fail(w, error, jitter))
    ensures Refined(s, Fail(w, error, jitter), spent)
  {
    hide Eager, SlotIds, Acknowledged, Decide, Single, Owes;
    SameDecision(s, w, error, jitter, spent);
    FailureRefines(s, w, error, jitter, spent);
    RecordedWorker(s, w, error, jitter);
    RecordOwes(s, w, AfterFailure(s, w, error, jitter).workers[w], spent);
    hide AfterFailure, Decided;
  }

  lemma RecordedWorker(s: Sys, w: WorkerId, error: string, jitter: Micros)
    requires Busy(s, w)
    ensures var t := AfterFailure(s, w, error, jitter);
      && w in t.workers && t.workers == s.workers[w := t.workers[w]]
      && t.workers[w].current.None? && t.workers[w].pending.Some?
      && t.workers[w].pending.value.id == s.workers[w].current.value.id
  {
  }

  lemma UnrecordedStepRefines(s: Sys, w: WorkerId, error: string, jitter: Micros, landed: bool, spent: set<JobId>)
    requires Single(s, false, true) && Owes(s.workers, spent) && Enabled(s, FailUnrecorded(w, error, jitter, landed))
    ensures Refined(s, FailUnrecorded(w, error, jitter, landed), spent)
  {
    hide Eager, SlotIds, Single, Owes;
    UnrecordedRefines(s, w, error, jitter, landed, spent);
    hide AfterFailureUnrecorded;
  }

  lemma PassStepRefines(s: Sys, p: PoolId, landed: bool, spent: set<JobId>)
    requires Owes(s.workers, spent) && Enabled(s, MonitorPass(p, landed))
    ensures Refined(s, MonitorPass(p, landed), spent)
  {
    hide Owes, Eager, AfterPass;
    PassRefines(s, p, landed, spent);
  }

  lemma OtherStepRefines(s: Sys, e: Event, spent: set<JobId>)
    requires Owes(s.workers, spent) && Enabled(s, e) && Calm(e)
    requires e.Submit? || e.StartPool? || e.Reap? || e.PollRead? || e.PollPush? || e.PollRemove? || e.Tick?
    ensures Refined(s, e, spent)
  {
    hide Owes, Eager, Apply, Enabled;
    if e.PollRead? || e.PollPush? || e.PollRemove? {
      SchedulerRefines(s, e, spent);
    } else if e.Reap? {
      ReapRefines(s, e.limit, spent);
    } else {
      OtherRefines(s, e, spent);
    }
  }

  /** One step of the real system is the same step of the eager one. */
  lemma StepRefines(s: Sys, e: Event, spent: set<JobId>)
    requires Single(s, false, true) && Owes(s.workers, spent) && Enabled(s, e) && Unbroken(s, e)
    ensures Refined(s, e, spent)
  {
    hide Single, Eager, Owes, Apply, Refined, SpentAfter;
    match e {
      case Take(w, popped) => TakeStepRefines(s, w, popped, spent);
      case TakeLostReply(w, popped) => LostReplyStepRefines(s, w, popped, spent);
      case Exit(w, landed) => ExitStepRefines(s, w, landed, spent);
      case Succeed(w) => SuccessStepRefines(s, w, spent);
      case Fail(w, error, jitter) => FailureStepRefines(s, w, error, jitter, spent);
      case FailUnrecorded(w, error, jitter, landed) => UnrecordedStepRefines(s, w, error, jitter, landed, spent);
      case MonitorPass(p, landed) => PassStepRefines(s, p, landed, spent);
      case _ =>
        hide Enabled;
        if e.Spawn? || e.Stop? || e.TakeLostRequest? || e.CrashWorker? || e.CrashPool? {
          WorkerStepRefines(s, e, spent);
        } else {
          OtherStepRefines(s, e, spent);
        }
    }
  }

  lemma OneMoreRefines(s: Sys, es: seq<Event>, spent: set<JobId>)
    requires es != [] && Valid(s, es) && Refined(s, es[0], spent)
    requires var t, left := Apply(s, es[0]), SpentAfter(s, es[0], spent);
      EagerValid(Eager(t, left), es[1..])
      && EagerExec(Eager(t, left), es[1..]) == Eager(Exec(t, es[1..]), SpentAlong(t, es[1..], left))
    ensures EagerValid(Eager(s, spent), es)
    ensures EagerExec(Eager(s, spent), es) == Eager(Exec(s, es), SpentAlong(s, es, spent))
    ensures SpentAlong(s, es, spent) == SpentAlong(Apply(s, es[0]), es[1..], SpentAfter(s, es[0], spent))
  {
    hide Eager, Owes, Apply, Enabled, EagerApply, SpentAfter;
  }

  lemma RefinedOwes(s: Sys, e: Event, spent: set<JobId>)
    requires Enabled(s, e) && Refined(s, e, spent)
    ensures Owes(Apply(s, e).workers, SpentAfter(s, e, spent))
  {
    hide Apply, Enabled, Owes, SpentAfter, EagerApply, Eager;
  }

  lemma NoStepRefines(s: Sys, spent: set<JobId>)
    ensures Valid(s, []) && EagerValid(Eager(s, spent), []) && SpentAlong(s, [], spent) == spent
    ensures EagerExec(Eager(s, spent), []) == Eager(Exec(s, []), spent) && Exec(s, []) == s
  {
  }

  lemma UnbrokenRunTail(s: Sys, es: seq<Event>)
    requires es != [] && Valid(s, es) && UnbrokenRun(s, es)
    ensures Enabled(s, es[0]) && Unbroken(s, es[0]) && Calm(es[0]) && Guard(s, es[0])
    ensures Valid(Apply(s, es[0]), es[1..]) && UnbrokenRun(Apply(s, es[0]), es[1..])
    ensures Exec(s, es) == Exec(Apply(s, es[0]), es[1..])
  {
    hide Apply, Enabled, Guard;
  }

  lemma {:induction false} RunRefines(s: Sys, es: seq<Event>, spent: set<JobId>)
    requires Single(s, false, true) && CopiesOk(s) && Owes(s.workers, spent) && Valid(s, es) && UnbrokenRun(s, es)
    ensures var t, left := Exec(s, es), SpentAlong(s, es, spent);
      EagerValid(Eager(s, spent), es) && EagerExec(Eager(s, spent), es) == Eager(t, left) && Owes(t.workers, left)
    decreases |es|
  {
    hide *;
    if es == [] {
      NoStepRefines(s, spent);
    } else {
      UnbrokenRunTail(s, es);
      WhatCopiesOkSays(s);
      StepRefines(s, es[0], spent);
      RefinedOwes(s, es[0], spent);
      StepStaysSingle(s, es[0], false, true);
      StepKeepsCopies(s, es[0]);
      RunRefines(Apply(s, es[0]), es[1..], SpentAfter(s, es[0], spent));
      OneMoreRefines(s, es, spent);
    }
  }

  /** Every run of the real system without expiry, stall or scheduler crash is, event for event,
      a run of the eager system from the same start: the same jobs are popped in the same order.
      The two end in the same state, but that the real one still holds the leases of jobs whose
      outcome has been recorded since they were last popped. Nobody runs such a job, and without
      faults those are just the leases of the jobs still to be acknowledged. */
  lemma PiggybackedAcksRefineEagerOnes(s: Sys, es: seq<Event>)
    requires Initial(s) && Valid(s, es) && UnbrokenRun(s, es)
    ensures EagerValid(s, es)
    ensures var t, u, spent := Exec(s, es), EagerExec(s, es), SpentAlong(s, es, {});
      && u == t.(store := Without(t.store, spent), workers := NothingPending(t.workers))
      && IdsIn(t.workers, Unacked) <= spent && IdsIn(t.workers, Current) !! spent
      && (FaultlessRun(es) ==> u.store.processing.Keys == t.store.processing.Keys - IdsIn(t.workers, Unacked))
  {
    StartsSingle(s);
    SingleIsApart(s, true, true);
    assert Eager(s, {}) == s && Owes(s.workers, {});
    hide Single, CopiesOk, Calm, Guarded, Faultless, Initial;
    RunRefines(s, es, {});
    if FaultlessRun(es) {
      LeasesAreOwned(s, es);
      OnlyUnackedIsSpent(Exec(s, es), SpentAlong(s, es, {}));
    }
  }

  lemma OnlyUnackedIsSpent(t: Sys, spent: set<JobId>)
    requires t.store.processing.Keys <= CensusOf(t).running + CensusOf(t).unacked && Owes(t.workers, spent)
    ensures Without(t.store, spent).processing.Keys == t.store.processing.Keys - IdsIn(t.workers, Unacked)
  {
    hide IdsIn, QueuedIds, HeldIds, DeadIds;
  }
}
