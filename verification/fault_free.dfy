/** Runs without faults: no crash, stall or expired lease, and no call lost but take requests and
    replies to submissions.

    Delivery is then exactly once: every job is in one place at a time, and the work runs out. A
    job is leased only while a worker runs it or has its outcome still to acknowledge, and
    exactly then if promotions are safe. With lost replies, unrecorded failures and dead workers
    there is, under safe promotions, still no job in two places. */
module FaultFree {
  import opened Prelude
  import opened Jobs
  import opened LeaseModel
  import opened DeadLetters
  import opened DelayedJobs
  import opened Retries
  import opened System
  import opened Copies
  import opened NoLoss
  import opened CleanStop

  /** No expired lease is taken back, no stalled worker replaced, and the scheduler lives. */
  predicate Calm(e: Event) {
    !e.Replace? && !e.CrashScheduler? && (e.Reap? ==> e.ids == [])
  }

  /** A calm step with a safe promotion, if it is one. Workers and pools may die, and any call
      may be lost. */
  ghost predicate Unbroken(s: Sys, e: Event)
    requires Enabled(s, e)
  {
    Calm(e) && Guard(s, e)
  }

  /** A calm step, nobody dies, and the only calls lost are take requests and submission
      replies. Promotions need not be safe. */
  predicate Faultless(e: Event) {
    && Calm(e)
    && !e.CrashWorker? && !e.CrashPool? && !e.TakeLostReply? && !e.FailUnrecorded? && (e.Exit? ==> e.landed)
  }

  ghost predicate FaultlessRun(es: seq<Event>) {
    forall e | e in es :: Faultless(e)
  }

  // ---------------------------------------------------------------- where every job is

  datatype Census = Census(
    queued: set<JobId>,
    running: set<JobId>,
    held: set<JobId>,
    dead: set<JobId>,
    done: set<JobId>,
    unacked: set<JobId>
  )

  /** The id a worker holds in one of its two slots: the current job, or the pending one. */
  datatype Slot = Current | Unacked

  function SlotIds(x: Worker, slot: Slot): set<JobId> {
    var job := if slot.Current? then x.current else x.pending;
    if job.Some? then {job.value.id} else {}
  }

  ghost function QueuedIds(queue: map<Job, int>): set<JobId> {
    set m | m in queue :: m.id
  }

  ghost function IdsIn(ws: map<WorkerId, Worker>, slot: Slot): set<JobId> {
    set w, id | w in ws && id in SlotIds(ws[w], slot) :: id
  }

  ghost function HeldIds(s: Sys): set<JobId> {
    set d | d in s.delayed && !Promoting(s, d) :: d.id
  }

  ghost function DeadIds(dlq: seq<DeadRecord>): set<JobId> {
    set r | r in dlq :: r.job.id
  }

  ghost function CensusOf(s: Sys): Census {
    Census(QueuedIds(s.store.queue), IdsIn(s.workers, Current), HeldIds(s), DeadIds(s.dlq),
           (set id | id in s.done), IdsIn(s.workers, Unacked))
  }

  /** No id is in two places; if `whole`, each is in one; if `safe`, whatever is still to be
      acknowledged is recorded and not promoted away. */
  ghost predicate Placed(c: Census, all: set<JobId>, whole: bool, safe: bool) {
    && c.queued !! c.running !! c.held !! c.dead !! c.done
    && Everywhere(c) <= all && (whole ==> Everywhere(c) == all)
    && (safe ==> c.unacked <= c.held + c.dead + c.done)
  }

  ghost function Everywhere(c: Census): set<JobId> {
    c.queued + c.running + c.held + c.dead + c.done
  }

  // No place holds an id twice.

  ghost predicate UniqueQueue(queue: map<Job, int>) {
    forall m, n | m in queue && n in queue && m.id == n.id :: m == n
  }

  ghost predicate UniqueIn(ws: map<WorkerId, Worker>, slot: Slot) {
    forall v, w | v in ws && w in ws && v != w :: SlotIds(ws[v], slot) !! SlotIds(ws[w], slot)
  }

  /** Two workers may owe an acknowledgement of one job after an unsafe promotion only. */
  predicate Counts(slot: Slot, safe: bool) {
    slot.Current? || safe
  }

  ghost predicate UniqueWorkers(ws: map<WorkerId, Worker>, safe: bool) {
    && (forall slot | Counts(slot, safe) :: UniqueIn(ws, slot))
    && forall w | w in ws :: ws[w].current.Some? ==> ws[w].pending.None?
  }

  ghost predicate UniqueHeld(s: Sys) {
    forall d, e | d in s.delayed && e in s.delayed && !Promoting(s, d) && !Promoting(s, e) && d.id == e.id :: d == e
  }

  ghost predicate UniqueDead(dlq: seq<DeadRecord>) {
    forall i, j | 0 <= i < j < |dlq| :: dlq[i].job.id != dlq[j].job.id
  }

  ghost predicate UniqueDone(done: multiset<JobId>) {
    forall id | id in done :: done[id] == 1
  }

  ghost predicate Unique(s: Sys, safe: bool) {
    && UniqueQueue(s.store.queue) && UniqueWorkers(s.workers, safe)
    && UniqueHeld(s) && UniqueDead(s.dlq) && UniqueDone(s.done)
  }

  ghost predicate Single(s: Sys, whole: bool, safe: bool) {
    Unique(s, safe) && Placed(CensusOf(s), s.origin.Keys, whole, safe)
  }

  // ---------------------------------------------------------------- how one update changes it

  lemma QueueLoses(queue: map<Job, int>, m: Job)
    requires UniqueQueue(queue) && m in queue
    ensures UniqueQueue(queue - {m}) && QueuedIds(queue - {m}) == QueuedIds(queue) - {m.id}
    ensures m.id in QueuedIds(queue)
  {
  }

  lemma QueueGains(queue: map<Job, int>, m: Job, score: int)
    requires UniqueQueue(queue) && m.id !in QueuedIds(queue)
    ensures UniqueQueue(queue[m := score]) && QueuedIds(queue[m := score]) == QueuedIds(queue) + {m.id}
  {
  }

  function HeldBefore(ws: map<WorkerId, Worker>, w: WorkerId, slot: Slot): set<JobId> {
    if w in ws then SlotIds(ws[w], slot) else {}
  }

  lemma SlotChanges(ws: map<WorkerId, Worker>, w: WorkerId, x: Worker, slot: Slot)
    requires UniqueIn(ws, slot)
    requires SlotIds(x, slot) <= HeldBefore(ws, w, slot) || SlotIds(x, slot) !! IdsIn(ws, slot)
    ensures UniqueIn(ws[w := x], slot)
    ensures IdsIn(ws[w := x], slot) == IdsIn(ws, slot) - HeldBefore(ws, w, slot) + SlotIds(x, slot)
  {
    var t := ws[w := x];
    assert forall v | v in ws :: SlotIds(ws[v], slot) <= IdsIn(ws, slot);
    forall id
      ensures id in IdsIn(t, slot) <==> id in IdsIn(ws, slot) - HeldBefore(ws, w, slot) + SlotIds(x, slot)
    {
      OneIdChanges(ws, w, x, slot, id);
    }
  }

  lemma OneIdChanges(ws: map<WorkerId, Worker>, w: WorkerId, x: Worker, slot: Slot, id: JobId)
    requires UniqueIn(ws, slot)
    ensures id in IdsIn(ws[w := x], slot) <==> (id in IdsIn(ws, slot) && id !in HeldBefore(ws, w, slot)) || id in SlotIds(x, slot)
  {
    var t := ws[w := x];
    if id in SlotIds(x, slot) {
      assert w in t && id in SlotIds(t[w], slot);
    } else if id in IdsIn(t, slot) {
      var v :| v in t && id in SlotIds(t[v], slot);
      assert v in ws && id in SlotIds(ws[v], slot);
    }
    if id in IdsIn(ws, slot) && id !in HeldBefore(ws, w, slot) {
      var v :| v in ws && id in SlotIds(ws[v], slot);
      assert v in t && id in SlotIds(t[v], slot);
    }
  }

  /** One worker changes to x, or is new. */
  lemma WorkerChanges(ws: map<WorkerId, Worker>, w: WorkerId, x: Worker, safe: bool)
    requires UniqueWorkers(ws, safe) && (x.current.Some? ==> x.pending.None?)
    requires forall slot | Counts(slot, safe) ::
      SlotIds(x, slot) <= HeldBefore(ws, w, slot) || SlotIds(x, slot) !! IdsIn(ws, slot)
    ensures UniqueWorkers(ws[w := x], safe)
    ensures forall slot | Counts(slot, safe) ::
      IdsIn(ws[w := x], slot) == IdsIn(ws, slot) - HeldBefore(ws, w, slot) + SlotIds(x, slot)
  {
    forall slot | Counts(slot, safe)
      ensures UniqueIn(ws[w := x], slot)
      ensures IdsIn(ws[w := x], slot) == IdsIn(ws, slot) - HeldBefore(ws, w, slot) + SlotIds(x, slot)
    {
      SlotChanges(ws, w, x, slot);
    }
  }

  lemma WorkerGoes(ws: map<WorkerId, Worker>, w: WorkerId, safe: bool)
    requires UniqueWorkers(ws, safe) && w in ws
    ensures UniqueWorkers(ws - {w}, safe)
    ensures forall slot | Counts(slot, safe) :: IdsIn(ws - {w}, slot) == IdsIn(ws, slot) - SlotIds(ws[w], slot)
  {
    var t := ws - {w};
    forall slot | Counts(slot, safe) ensures UniqueIn(t, slot) {
      assert UniqueIn(ws, slot);
    }
    forall slot, id | Counts(slot, safe) && id in IdsIn(ws, slot) && id !in SlotIds(ws[w], slot) ensures id in IdsIn(t, slot) {
      var v :| v in ws && id in SlotIds(ws[v], slot);
      assert v in t && id in SlotIds(t[v], slot);
    }
    forall slot, id | Counts(slot, safe) && id in IdsIn(t, slot) ensures id in IdsIn(ws, slot) - SlotIds(ws[w], slot) {
      assert UniqueIn(ws, slot);
    }
  }

  lemma WorkersGo(ws: map<WorkerId, Worker>, left: map<WorkerId, Worker>, safe: bool)
    requires UniqueWorkers(ws, safe) && forall w | w in left :: w in ws && left[w] == ws[w]
    ensures UniqueWorkers(left, safe) && forall slot :: IdsIn(left, slot) <= IdsIn(ws, slot)
  {
    forall slot | Counts(slot, safe) ensures UniqueIn(left, slot) {
      assert UniqueIn(ws, slot);
    }
  }

  lemma DeadGains(dlq: seq<DeadRecord>, r: DeadRecord)
    requires UniqueDead(dlq) && r.job.id !in DeadIds(dlq)
    ensures UniqueDead([r] + dlq) && DeadIds([r] + dlq) == DeadIds(dlq) + {r.job.id}
  {
  }

  lemma HeldGains(s: Sys, t: Sys, d: Job)
    requires UniqueHeld(s) && d.id !in HeldIds(s)
    requires t.sched == s.sched && t.delayed.Keys == s.delayed.Keys + {d} && !Promoting(s, d)
    ensures UniqueHeld(t) && HeldIds(t) == HeldIds(s) + {d.id}
  {
  }

  lemma HeldLoses(s: Sys, t: Sys, d: Job)
    requires UniqueHeld(s) && d in s.delayed && !Promoting(s, d) && t.delayed == s.delayed
    requires forall e | e in s.delayed :: Promoting(t, e) <==> e == d
    requires forall e | e in s.delayed :: !Promoting(s, e)
    ensures UniqueHeld(t) && HeldIds(t) == HeldIds(s) - {d.id} && d.id in HeldIds(s)
  {
  }

  lemma HeldSame(s: Sys, t: Sys)
    requires UniqueHeld(s)
    requires forall e :: e in s.delayed && !Promoting(s, e) <==> e in t.delayed && !Promoting(t, e)
    ensures UniqueHeld(t) && HeldIds(t) == HeldIds(s)
  {
  }

  // ---------------------------------------------------------------- every step

  /** The same jobs waiting, dead and done, and the same submitted. */
  ghost predicate SameOutcomes(s: Sys, t: Sys) {
    t.delayed == s.delayed && t.sched == s.sched && t.dlq == s.dlq && t.done == s.done && t.origin == s.origin
  }

  /** What is left to show when only the queue and the workers have changed. */
  lemma MovedStaysSingle(s: Sys, t: Sys, c: Census, whole: bool, safe: bool)
    requires Single(s, whole, safe) && SameOutcomes(s, t)
    requires UniqueQueue(t.store.queue) && UniqueWorkers(t.workers, safe)
    requires c.(unacked := {}) == CensusOf(s).(queued := QueuedIds(t.store.queue),
                                               running := IdsIn(t.workers, Current), unacked := {})
    requires safe ==> c.unacked == IdsIn(t.workers, Unacked)
    requires Placed(c, t.origin.Keys, whole, safe)
    ensures Single(t, whole, safe)
  {
    HeldSame(s, t);
    hide QueuedIds, IdsIn, HeldIds, DeadIds, UniqueQueue, UniqueWorkers, UniqueHeld, UniqueDead, UniqueDone;
    assert CensusOf(t).(unacked := {}) == c.(unacked := {});
    UnackedMatters(c, CensusOf(t), t.origin.Keys, whole, safe);
  }

  /** What is unacknowledged matters under safe promotions only. */
  lemma UnackedMatters(c: Census, d: Census, all: set<JobId>, whole: bool, safe: bool)
    requires Placed(c, all, whole, safe) && d.(unacked := {}) == c.(unacked := {}) && (safe ==> d.unacked == c.unacked)
    ensures Placed(d, all, whole, safe)
  {
  }

  lemma TakeKeepsPlaces(c: Census, all: set<JobId>, k: set<JobId>, p: set<JobId>, whole: bool, safe: bool)
    requires Placed(c, all, whole, safe) && k <= c.queued
    ensures Placed(c.(queued := c.queued - k, running := c.running + k, unacked := c.unacked - p), all, whole, safe)
  {
  }

  lemma TakeInWorkers(s: Sys, w: WorkerId, popped: Option<Job>, t: Sys, safe: bool)
    requires UniqueWorkers(s.workers, safe) && Free(s, w) && CanPop(s.store.queue, popped) && t == AfterTake(s, w, popped)
    requires popped.Some? ==> popped.value.id !in IdsIn(s.workers, Current)
    ensures UniqueWorkers(t.workers, safe)
    ensures IdsIn(t.workers, Current) == IdsIn(s.workers, Current) + TakenId(popped)
    ensures safe ==> IdsIn(t.workers, Unacked) == IdsIn(s.workers, Unacked) - SlotIds(s.workers[w], Unacked)
  {
    var x := t.workers[w];
    assert t.workers == s.workers[w := x];
    assert SlotIds(x, Current) == TakenId(popped) && SlotIds(x, Unacked) == {};
    assert SlotIds(s.workers[w], Current) == {};
    hide AfterTake, UniqueWorkers, IdsIn, CanPop;
    WorkerChanges(s.workers, w, x, safe);
    assert Counts(Current, safe) && Counts(Unacked, safe) == safe;
  }

  function TakenId(popped: Option<Job>): set<JobId> {
    if popped.Some? then {popped.value.id} else {}
  }

  lemma PopLoses(queue: map<Job, int>, popped: Option<Job>)
    requires UniqueQueue(queue) && CanPop(queue, popped)
    ensures var left := if popped.Some? then queue - {popped.value} else queue;
      UniqueQueue(left) && QueuedIds(left) == QueuedIds(queue) - TakenId(popped)
    ensures TakenId(popped) <= QueuedIds(queue)
  {
    if popped.Some? {
      QueueLoses(queue, popped.value);
    }
  }

  lemma TakenKeys(s: Store, ack: Option<JobId>, popped: Option<Job>, deadline: Micros)
    requires CanPop(s.queue, popped)
    ensures var t := Taken(s, ack, popped, deadline);
      && t.queue == (if popped.Some? then s.queue - {popped.value} else s.queue)
      && t.processing.Keys == s.processing.Keys - (if ack.Some? then {ack.value} else {}) + TakenId(popped)
  {
  }

  lemma TakeLeavesOutcomes(s: Sys, w: WorkerId, popped: Option<Job>)
    requires Free(s, w) && CanPop(s.store.queue, popped)
    ensures var t := AfterTake(s, w, popped);
      && SameOutcomes(s, t)
      && t.store.queue == (if popped.Some? then s.store.queue - {popped.value} else s.store.queue)
      && t.store.processing.Keys == s.store.processing.Keys - SlotIds(s.workers[w], Unacked) + TakenId(popped)
  {
    TakenKeys(s.store, PendingId(s.workers[w]), popped, s.now + s.lease);
    hide Taken, CanPop;
  }

  lemma TakeStaysSingle(s: Sys, w: WorkerId, popped: Option<Job>, whole: bool, safe: bool)
    requires Single(s, whole, safe) && Free(s, w) && CanPop(s.store.queue, popped)
    ensures Single(AfterTake(s, w, popped), whole, safe)
  {
    hide QueuedIds, IdsIn, HeldIds, DeadIds, UniqueQueue, UniqueWorkers, UniqueHeld, UniqueDead, UniqueDone;
    hide Placed, CanPop, AfterTake, SlotIds, TakenId;
    var t, c := AfterTake(s, w, popped), CensusOf(s);
    var k, p := TakenId(popped), SlotIds(s.workers[w], Unacked);
    PopLoses(s.store.queue, popped);
    TakeLeavesOutcomes(s, w, popped);
    TakeKeepsPlaces(c, s.origin.Keys, k, p, whole, safe);
    SinglesAreApart(s, popped, whole, safe);
    TakeInWorkers(s, w, popped, t, safe);
    MovedStaysSingle(s, t, c.(queued := c.queued - k, running := c.running + k, unacked := c.unacked - p), whole, safe);
  }

  lemma SinglesAreApart(s: Sys, popped: Option<Job>, whole: bool, safe: bool)
    requires Single(s, whole, safe) && TakenId(popped) <= QueuedIds(s.store.queue)
    ensures popped.Some? ==> popped.value.id !in IdsIn(s.workers, Current)
  {
    hide QueuedIds, IdsIn, HeldIds, DeadIds, Unique;
  }

  lemma SlotIsIn(s: Sys, w: WorkerId)
    requires w in s.workers
    ensures forall slot :: SlotIds(s.workers[w], slot) <= IdsIn(s.workers, slot)
  {
  }

  /** A worker whose job and acknowledgement do not change. */
  lemma SameSlots(ws: map<WorkerId, Worker>, w: WorkerId, x: Worker, safe: bool)
    requires UniqueWorkers(ws, safe) && forall slot :: SlotIds(x, slot) == HeldBefore(ws, w, slot)
    requires x.current.Some? ==> x.pending.None?
    ensures UniqueWorkers(ws[w := x], safe) && forall slot :: IdsIn(ws[w := x], slot) == IdsIn(ws, slot)
  {
    WorkerChanges(ws, w, x, safe);
    forall slot ensures IdsIn(ws[w := x], slot) == IdsIn(ws, slot) {
      SameIds(ws, w, x, slot);
    }
  }

  lemma SameIds(ws: map<WorkerId, Worker>, w: WorkerId, x: Worker, slot: Slot)
    requires SlotIds(x, slot) == HeldBefore(ws, w, slot)
    ensures IdsIn(ws[w := x], slot) == IdsIn(ws, slot)
  {
    var t := ws[w := x];
    forall id | id in IdsIn(ws, slot) ensures id in IdsIn(t, slot) {
      var v :| v in ws && id in SlotIds(ws[v], slot);
      assert v in t && id in SlotIds(t[v], slot);
    }
  }

  /** The job of a lost reply is nobody's any more. */
  lemma LostReplyStaysSingle(s: Sys, w: WorkerId, popped: Option<Job>, safe: bool)
    requires Single(s, false, safe) && Free(s, w) && CanPop(s.store.queue, popped)
    ensures Single(AfterLostReply(s, w, popped), false, safe)
  {
    hide QueuedIds, IdsIn, HeldIds, DeadIds, UniqueQueue, UniqueWorkers, UniqueHeld, UniqueDead, UniqueDone;
    hide Taken, CanPop, TakenId, SlotIds, TakeRaised;
    var t, c := AfterLostReply(s, w, popped), CensusOf(s);
    PopLoses(s.store.queue, popped);
    TakenKeys(s.store, PendingId(s.workers[w]), popped, s.now + s.lease);
    RaisedIsTheSame(s, w, safe);
    MovedStaysSingle(s, t, c.(queued := c.queued - TakenId(popped)), false, safe);
  }

  lemma RaisedIsTheSame(s: Sys, w: WorkerId, safe: bool)
    requires UniqueWorkers(s.workers, safe) && w in s.workers
    ensures var ws := s.workers[w := TakeRaised(s.workers[w], s.now)];
      UniqueWorkers(ws, safe) && forall slot :: IdsIn(ws, slot) == IdsIn(s.workers, slot)
  {
    assert s.workers[w].current.Some? ==> s.workers[w].pending.None?;
    hide UniqueWorkers, UniqueIn, IdsIn;
    SameSlots(s.workers, w, TakeRaised(s.workers[w], s.now), safe);
  }

  lemma ExitStaysSingle(s: Sys, w: WorkerId, landed: bool, whole: bool, safe: bool)
    requires Single(s, whole, safe) && Free(s, w)
    ensures Single(AfterExit(s, w, landed), whole, safe)
  {
    var t, c, p := AfterExit(s, w, landed), CensusOf(s), SlotIds(s.workers[w], Unacked);
    assert SlotIds(s.workers[w], Current) == {};
    hide IdsIn, QueuedIds, HeldIds, DeadIds, UniqueWorkers, UniqueQueue, UniqueHeld, UniqueDead, UniqueDone, SlotIds, Placed;
    WorkerGoes(s.workers, w, safe);
    assert Counts(Current, safe) && Counts(Unacked, safe) == safe;
    TakeKeepsPlaces(c, s.origin.Keys, {}, p, whole, safe);
    MovedStaysSingle(s, t, c.(queued := c.queued - {}, running := c.running + {}, unacked := c.unacked - p), whole, safe);
  }

  /** The worker's running id is no longer run; with its outcome recorded it is unacknowledged. */
  lemma RecordInWorkers(s: Sys, w: WorkerId, x: Worker, whole: bool, safe: bool)
    requires Single(s, whole, safe) && Busy(s, w) && x.current.None?
    requires x.pending.Some? ==> x.pending.value.id == s.workers[w].current.value.id
    ensures var id := s.workers[w].current.value.id;
      && UniqueWorkers(s.workers[w := x], safe)
      && IdsIn(s.workers[w := x], Current) == IdsIn(s.workers, Current) - {id}
      && (safe ==> IdsIn(s.workers[w := x], Unacked) == IdsIn(s.workers, Unacked) + SlotIds(x, Unacked))
      && id in IdsIn(s.workers, Current) && SlotIds(x, Unacked) <= {id}
  {
    var id := s.workers[w].current.value.id;
    SlotIsIn(s, w);
    assert SlotIds(s.workers[w], Current) == {id} && SlotIds(s.workers[w], Unacked) == {} && SlotIds(x, Current) == {};
    assert IdsIn(s.workers, Current) == CensusOf(s).running && IdsIn(s.workers, Unacked) == CensusOf(s).unacked;
    hide UniqueWorkers, IdsIn, QueuedIds, HeldIds, DeadIds;
    WorkerChanges(s.workers, w, x, safe);
    assert Counts(Current, safe) && Counts(Unacked, safe) == safe;
  }

  /** A recording puts the job in one of three places, or nowhere; `owed` is what the worker is
      left to acknowledge. */
  ghost predicate RecordedIn(c: Census, id: JobId, owed: set<JobId>, d: Census) {
    var r := c.(running := c.running - {id}, unacked := c.unacked + owed);
    d == r.(done := c.done + {id}) || d == r.(dead := c.dead + {id}) || d == r.(held := c.held + {id}) || (d == r && owed == {})
  }

  lemma RecordKeepsPlaces(c: Census, all: set<JobId>, id: JobId, owed: set<JobId>, whole: bool, safe: bool, d: Census)
    requires Placed(c, all, whole, safe) && id in c.running && owed <= {id} && (whole ==> owed == {id})
    requires RecordedIn(c, id, owed, d)
    ensures Placed(d, all, whole, safe)
    ensures id !in c.held && id !in c.dead && id !in c.done
  {
  }

  /** What is left to show when a worker has put its job away. */
  lemma RecordedStaysSingle(s: Sys, t: Sys, w: WorkerId, x: Worker, d: Census, whole: bool, safe: bool)
    requires Single(s, whole, safe) && Busy(s, w) && x.current.None? && t.workers == s.workers[w := x]
    requires x.pending.Some? ==> x.pending.value.id == s.workers[w].current.value.id
    requires whole ==> x.pending.Some?
    requires t.store == s.store && t.origin == s.origin && UniqueHeld(t) && UniqueDead(t.dlq) && UniqueDone(t.done)
    requires RecordedIn(CensusOf(s), s.workers[w].current.value.id, SlotIds(x, Unacked), d)
    requires d.held == HeldIds(t) && d.dead == DeadIds(t.dlq) && d.done == (set id | id in t.done)
    ensures Single(t, whole, safe)
  {
    var c, id := CensusOf(s), s.workers[w].current.value.id;
    assert whole ==> SlotIds(x, Unacked) == {id};
    hide QueuedIds, IdsIn, HeldIds, DeadIds, UniqueQueue, UniqueWorkers, UniqueHeld, UniqueDead, UniqueDone, Placed, SlotIds;
    RecordInWorkers(s, w, x, whole, safe);
    RecordKeepsPlaces(c, s.origin.Keys, id, SlotIds(x, Unacked), whole, safe, d);
    assert CensusOf(t).(unacked := {}) == d.(unacked := {});
    UnackedMatters(d, CensusOf(t), s.origin.Keys, whole, safe);
  }

  /** The job a worker runs is in no place where outcomes go. */
  lemma RunningIsElsewhere(s: Sys, w: WorkerId, whole: bool, safe: bool)
    requires Single(s, whole, safe) && Busy(s, w)
    ensures var id := s.workers[w].current.value.id; id !in HeldIds(s) && id !in DeadIds(s.dlq) && id !in s.done
  {
    SlotIsIn(s, w);
    assert CensusOf(s).running == IdsIn(s.workers, Current);
    assert s.workers[w].current.value.id in SlotIds(s.workers[w], Current);
    hide QueuedIds, IdsIn, HeldIds, DeadIds, Unique;
  }

  lemma SuccessStaysSingle(s: Sys, w: WorkerId, whole: bool, safe: bool)
    requires Single(s, whole, safe) && Busy(s, w)
    ensures Single(AfterSuccess(s, w), whole, safe)
  {
    hide QueuedIds, IdsIn, HeldIds, DeadIds, UniqueQueue, UniqueWorkers, UniqueHeld, UniqueDead, Placed;
    var t, c, id := AfterSuccess(s, w), CensusOf(s), s.workers[w].current.value.id;
    RunningIsElsewhere(s, w, whole, safe);
    HeldSame(s, t);
    var d := c.(running := c.running - {id}, unacked := c.unacked + {id}, done := c.done + {id});
    RecordedStaysSingle(s, t, w, t.workers[w], d, whole, safe);
  }

  lemma BurialStaysSingle(s: Sys, w: WorkerId, x: Worker, r: DeadRecord, whole: bool, safe: bool)
    requires Single(s, whole, safe) && Busy(s, w) && x.current.None? && r.job.id == s.workers[w].current.value.id
    requires x.pending == Some(r.job) || (x.pending.None? && !whole)
    ensures Single(s.(dlq := [r] + s.dlq, workers := s.workers[w := x]), whole, safe)
  {
    hide QueuedIds, IdsIn, HeldIds, DeadIds, UniqueQueue, UniqueWorkers, UniqueHeld, UniqueDead, UniqueDone, Placed, SlotIds;
    var t, c, id := s.(dlq := [r] + s.dlq, workers := s.workers[w := x]), CensusOf(s), r.job.id;
    RunningIsElsewhere(s, w, whole, safe);
    DeadGains(s.dlq, r);
    HeldSame(s, t);
    var d := c.(running := c.running - {id}, unacked := c.unacked + SlotIds(x, Unacked), dead := c.dead + {id});
    RecordedStaysSingle(s, t, w, x, d, whole, safe);
  }

  lemma RetryStaysSingle(s: Sys, w: WorkerId, x: Worker, job: Job, whole: bool, safe: bool)
    requires Single(s, whole, safe) && Busy(s, w) && x.current.None? && job.id == s.workers[w].current.value.id
    requires x.pending == Some(job) || (x.pending.None? && !whole)
    requires !Promoting(s, job)
    ensures Single(s.(delayed := s.delayed[job := job.nextRetryTime], workers := s.workers[w := x]), whole, safe)
  {
    hide QueuedIds, IdsIn, HeldIds, DeadIds, UniqueQueue, UniqueWorkers, UniqueHeld, UniqueDead, UniqueDone, Placed, SlotIds;
    hide Promoting;
    var t, c, id := s.(delayed := s.delayed[job := job.nextRetryTime], workers := s.workers[w := x]), CensusOf(s), job.id;
    RunningIsElsewhere(s, w, whole, safe);
    HeldGains(s, t, job);
    var d := c.(running := c.running - {id}, unacked := c.unacked + SlotIds(x, Unacked), held := c.held + {id});
    RecordedStaysSingle(s, t, w, x, d, whole, safe);
  }

  lemma FailureStaysSingle(s: Sys, w: WorkerId, error: string, jitter: Micros, whole: bool, safe: bool)
    requires Single(s, whole, safe) && SchedulerOk(s) && Enabled(s, Fail(w, error, jitter))
    ensures Single(AfterFailure(s, w, error, jitter), whole, safe)
  {
    var t, out := AfterFailure(s, w, error, jitter), Decided(s, w, error, jitter);
    hide Single;
    if out.DeadLetter? {
      BurialStaysSingle(s, w, t.workers[w], DeadRecord(out.job, s.now), whole, safe);
    } else {
      BackoffAdds(s.workers[w].current.value.attempt, jitter);
      RetryStaysSingle(s, w, t.workers[w], out.job, whole, safe);
    }
  }

  /** The job is dropped, or recorded without an acknowledgement to follow. */
  lemma UnrecordedStaysSingle(s: Sys, w: WorkerId, error: string, jitter: Micros, landed: bool, safe: bool)
    requires Single(s, false, safe) && SchedulerOk(s) && Busy(s, w) && IsJitter(jitter)
    requires s.workers[w].pending.None?
    ensures Single(AfterFailureUnrecorded(s, w, error, jitter, landed), false, safe)
  {
    var t, out := AfterFailureUnrecorded(s, w, error, jitter, landed), Decided(s, w, error, jitter);
    hide Single;
    if landed && out.DeadLetter? {
      BurialStaysSingle(s, w, t.workers[w], DeadRecord(out.job, s.now), false, safe);
    } else if landed && out.Retry? {
      BackoffAdds(s.workers[w].current.value.attempt, jitter);
      RetryStaysSingle(s, w, t.workers[w], out.job, false, safe);
    } else {
      DroppedStaysSingle(s, w, t.workers[w], safe);
    }
  }

  lemma DroppedStaysSingle(s: Sys, w: WorkerId, x: Worker, safe: bool)
    requires Single(s, false, safe) && Busy(s, w) && x.current.None? && x.pending.None?
    ensures Single(s.(workers := s.workers[w := x]), false, safe)
  {
    hide QueuedIds, IdsIn, HeldIds, DeadIds, UniqueQueue, UniqueWorkers, UniqueHeld, UniqueDead, UniqueDone, Placed;
    var t, c, id := s.(workers := s.workers[w := x]), CensusOf(s), s.workers[w].current.value.id;
    HeldSame(s, t);
    RecordedStaysSingle(s, t, w, x, c.(running := c.running - {id}, unacked := c.unacked + {}), false, safe);
  }

  lemma SubmitKeepsPlaces(c: Census, all: set<JobId>, id: JobId, whole: bool, safe: bool)
    requires Placed(c, all, whole, safe) && id !in all
    ensures Placed(c.(queued := c.queued + {id}), all + {id}, whole, safe) && id !in c.queued
  {
  }

  lemma SubmitStaysSingle(s: Sys, job: Job, replied: bool, whole: bool, safe: bool)
    requires Single(s, whole, safe) && Enabled(s, Submit(job, replied))
    ensures Single(Apply(s, Submit(job, replied)), whole, safe)
  {
    var t, c := Apply(s, Submit(job, replied)), CensusOf(s);
    SubmitKeepsPlaces(c, s.origin.Keys, job.id, whole, safe);
    QueueGains(s.store.queue, job, Score(job));
    HeldSame(s, t);
    hide QueuedIds, IdsIn, HeldIds, DeadIds, UniqueQueue, UniqueWorkers, UniqueHeld, UniqueDead, UniqueDone, Placed;
    assert CensusOf(t) == c.(queued := c.queued + {job.id}) && t.origin.Keys == s.origin.Keys + {job.id};
  }

  lemma PushStaysSingle(s: Sys, whole: bool, safe: bool)
    requires Single(s, whole, safe) && SchedulerOk(s) && Enabled(s, PollPush)
    requires safe ==> PromotionSafe(s, s.sched.due[0])
    ensures Single(Apply(s, PollPush), whole, safe)
  {
    var t, d, c := Apply(s, PollPush), s.sched.due[0], CensusOf(s);
    hide QueuedIds, IdsIn, UniqueQueue, UniqueWorkers, UniqueDead, UniqueDone, UniqueHeld, HeldIds, DeadIds;
    HeldLoses(s, t, d);
    SettledIsCounted(s, d);
    UnackedIsUnsent(s, d.id);
    hide SettledElsewhere, AckUnsent, Promoting;
    PushKeepsPlaces(c, s.origin.Keys, d.id, whole, safe);
    QueueGains(s.store.queue, Promoted(d), Score(Promoted(d)));
    hide Placed;
    assert CensusOf(t) == c.(queued := c.queued + {d.id}, held := c.held - {d.id});
  }

  /** An outcome recorded elsewhere is one more place, which no waiting job is in. */
  lemma SettledIsCounted(s: Sys, d: Job)
    requires UniqueHeld(s) && d in s.delayed && (s.sched.Polling? ==> !s.sched.pushed)
    ensures SettledElsewhere(s, d) ==> d.id in DeadIds(s.dlq) || d.id in CensusOf(s).done
  {
  }

  lemma UnackedIsUnsent(s: Sys, id: JobId)
    ensures id in IdsIn(s.workers, Unacked) ==> AckUnsent(s, id)
  {
  }

  lemma PushKeepsPlaces(c: Census, all: set<JobId>, id: JobId, whole: bool, safe: bool)
    requires Placed(c, all, whole, safe) && id in c.held
    ensures (safe ==> id !in c.unacked) ==> Placed(c.(queued := c.queued + {id}, held := c.held - {id}), all, whole, safe)
    ensures id !in c.queued && id !in c.dead && id !in c.done
  {
  }

  lemma RemoveStaysSingle(s: Sys, whole: bool, safe: bool)
    requires Single(s, whole, safe) && SchedulerOk(s) && Enabled(s, PollRemove)
    ensures Single(AfterPollRemove(s), whole, safe)
  {
    HeldSame(s, AfterPollRemove(s));
  }

  /** Nothing that Single looks at has changed, or only which delayed entry comes next. */
  lemma SameStaysSingle(s: Sys, t: Sys, whole: bool, safe: bool)
    requires Single(s, whole, safe) && t.store.queue == s.store.queue
    requires t.delayed == s.delayed && t.dlq == s.dlq && t.done == s.done && t.origin == s.origin
    requires forall d | d in s.delayed :: Promoting(t, d) <==> Promoting(s, d)
    requires UniqueWorkers(t.workers, safe) && forall slot :: IdsIn(t.workers, slot) == IdsIn(s.workers, slot)
    ensures Single(t, whole, safe)
  {
    HeldSame(s, t);
    hide QueuedIds, IdsIn, HeldIds, DeadIds, UniqueQueue, UniqueWorkers, UniqueHeld, UniqueDead, UniqueDone, Placed;
    assert CensusOf(t) == CensusOf(s);
  }

  lemma PassStaysSingle(s: Sys, p: PoolId, landed: bool, whole: bool, safe: bool)
    requires Single(s, whole, safe) && p in s.pools
    ensures Single(AfterPass(s, p, landed), whole, safe)
  {
    SameStaysSingle(s, AfterPass(s, p, landed), whole, safe);
  }

  lemma WorkerStaysSingle(s: Sys, e: Event, whole: bool, safe: bool)
    requires Single(s, whole, safe) && Enabled(s, e) && (e.Spawn? || e.Stop? || e.TakeLostRequest?)
    ensures Single(Apply(s, e), whole, safe)
  {
    var t := Apply(s, e);
    var x := t.workers[e.w];
    assert t == s.(workers := s.workers[e.w := x]);
    assert forall slot :: SlotIds(x, slot) == HeldBefore(s.workers, e.w, slot);
    assert UniqueWorkers(s.workers, safe) && (x.current.Some? ==> x.pending.None?);
    hide Apply, Enabled, UniqueWorkers, IdsIn, SlotIds, Single;
    SameSlots(s.workers, e.w, x, safe);
    SameStaysSingle(s, t, whole, safe);
  }

  lemma WorkersLeft(s: Sys, e: Event)
    requires Enabled(s, e) && (e.CrashWorker? || e.CrashPool?)
    ensures var t := Apply(s, e);
      && t.store == s.store && SameOutcomes(s, t)
      && forall w | w in t.workers :: w in s.workers && t.workers[w] == s.workers[w]
  {
  }

  lemma FewerStayPlaced(c: Census, all: set<JobId>, running: set<JobId>, unacked: set<JobId>, safe: bool)
    requires Placed(c, all, false, safe) && running <= c.running && unacked <= c.unacked
    ensures Placed(c.(running := running, unacked := unacked), all, false, safe)
  {
  }

  lemma CrashStaysSingle(s: Sys, e: Event, safe: bool)
    requires Single(s, false, safe) && Enabled(s, e) && (e.CrashWorker? || e.CrashPool?)
    ensures Single(Apply(s, e), false, safe)
  {
    hide QueuedIds, IdsIn, HeldIds, DeadIds, UniqueQueue, UniqueWorkers, UniqueHeld, UniqueDead, UniqueDone, Apply, Enabled, Placed;
    var t, c := Apply(s, e), CensusOf(s);
    WorkersLeft(s, e);
    WorkersGo(s.workers, t.workers, safe);
    FewerStayPlaced(c, s.origin.Keys, IdsIn(t.workers, Current), IdsIn(t.workers, Unacked), safe);
    MovedStaysSingle(s, t, c.(running := IdsIn(t.workers, Current), unacked := IdsIn(t.workers, Unacked)), false, safe);
  }

  lemma OtherStaysSingle(s: Sys, e: Event, whole: bool, safe: bool)
    requires Single(s, whole, safe) && Enabled(s, e) && Calm(e)
    requires e.StartPool? || e.Reap? || e.PollRead? || e.Tick?
    ensures Single(Apply(s, e), whole, safe)
  {
    assert UniqueWorkers(s.workers, safe);
    hide Single, UniqueWorkers, IdsIn;
    SameStaysSingle(s, Apply(s, e), whole, safe);
  }

  lemma NobodyRunsAndOwes(s: Sys, w: WorkerId, safe: bool)
    requires Single(s, false, safe) && Busy(s, w)
    ensures s.workers[w].pending.None?
  {
  }

  /** Calls whose loss, or workers whose death, leaves a job in no place. */
  lemma LosingStaysSingle(s: Sys, e: Event, safe: bool)
    requires Single(s, false, safe) && SchedulerOk(s) && Enabled(s, e)
    requires e.TakeLostReply? || e.FailUnrecorded? || e.CrashWorker? || e.CrashPool?
    ensures Single(Apply(s, e), false, safe)
  {
    hide Single, SchedulerOk;
    match e {
      case TakeLostReply(w, popped) => LostReplyStaysSingle(s, w, popped, safe);
      case FailUnrecorded(w, error, jitter, landed) =>
        NobodyRunsAndOwes(s, w, safe);
        UnrecordedStaysSingle(s, w, error, jitter, landed, safe);
      case CrashWorker(w) => CrashStaysSingle(s, e, safe);
      case CrashPool(p) => CrashStaysSingle(s, e, safe);
    }
  }

  lemma SingleIsApart(s: Sys, whole: bool, safe: bool)
    requires Single(s, whole, safe)
    ensures Single(s, false, safe) && Single(s, whole, false)
  {
    hide IdsIn, QueuedIds, HeldIds, DeadIds, UniqueQueue, UniqueHeld, UniqueDead, UniqueDone;
  }

  /** A calm step puts no job in two places, safe promotions keep what is unacknowledged where it
      was recorded, and a faultless step loses sight of no job. */
  lemma StepStaysSingle(s: Sys, e: Event, whole: bool, safe: bool)
    requires Single(s, whole, safe) && SchedulerOk(s) && Enabled(s, e) && Calm(e)
    requires (whole ==> Faultless(e)) && (safe ==> Guard(s, e))
    ensures Single(Apply(s, e), whole, safe)
  {
    hide Single, SchedulerOk, PromotionSafe;
    match e {
      case Submit(job, replied) => SubmitStaysSingle(s, job, replied, whole, safe);
      case Take(w, popped) => TakeStaysSingle(s, w, popped, whole, safe);
      case Succeed(w) => SuccessStaysSingle(s, w, whole, safe);
      case Fail(w, error, jitter) => FailureStaysSingle(s, w, error, jitter, whole, safe);
      case Exit(w, landed) => ExitStaysSingle(s, w, landed, whole, safe);
      case MonitorPass(p, landed) => PassStaysSingle(s, p, landed, whole, safe);
      case PollPush => PushStaysSingle(s, whole, safe);
      case PollRemove => RemoveStaysSingle(s, whole, safe);
      case _ =>
        hide Apply, Enabled;
        if e.Spawn? || e.Stop? || e.TakeLostRequest? {
          WorkerStaysSingle(s, e, whole, safe);
        } else if e.TakeLostReply? || e.FailUnrecorded? || e.CrashWorker? || e.CrashPool? {
          LosingStaysSingle(s, e, safe);
        } else {
          OtherStaysSingle(s, e, whole, safe);
        }
    }
  }

  ghost predicate UnbrokenRun(s: Sys, es: seq<Event>)
    requires Valid(s, es)
  {
    Guarded(s, es) && forall e | e in es :: Calm(e)
  }

  lemma {:induction false} RunStaysSingle(s: Sys, es: seq<Event>, whole: bool, safe: bool)
    requires Single(s, whole, safe) && CopiesOk(s) && Valid(s, es) && forall e | e in es :: Calm(e)
    requires (whole ==> FaultlessRun(es)) && (safe ==> Guarded(s, es))
    ensures Single(Exec(s, es), whole, safe) && CopiesOk(Exec(s, es))
    decreases |es|
  {
    if es != [] {
      WhatCopiesOkSays(s);
      StepStaysSingle(s, es[0], whole, safe);
      StepKeepsCopies(s, es[0]);
      hide Single, CopiesOk, Apply, Enabled, Guard;
      RunStaysSingle(Apply(s, es[0]), es[1..], whole, safe);
    }
  }

  // ---------------------------------------------------------------- when leases match workers

  /** A job is leased exactly while some worker runs it or owes its acknowledgement. */
  ghost predicate LeasesMatch(s: Sys) {
    forall id :: id in s.store.processing <==> SomebodyHolds(s.workers, id)
  }

  /** The step sends an acknowledgement of a job that another worker runs or owes, and does not
      lease that job anew. */
  ghost predicate TakesAway(s: Sys, e: Event)
    requires Enabled(s, e)
  {
    && (e.Take? || e.Exit?)
    && var ack := PendingId(s.workers[e.w]);
       ack.Some? && (e.Take? ==> ack.value !in TakenId(e.popped)) && SomebodyHolds(s.workers - {e.w}, ack.value)
  }

  ghost predicate NeverTakesAway(s: Sys, es: seq<Event>)
    requires Valid(s, es)
    decreases |es|
  {
    es == [] || (!TakesAway(s, es[0]) && NeverTakesAway(Apply(s, es[0]), es[1..]))
  }

  /** Held by the one worker, or by another. */
  lemma HeldByThisOrOthers(ws: map<WorkerId, Worker>, w: WorkerId, id: JobId)
    ensures SomebodyHolds(ws, id) <==> SomebodyHolds(ws - {w}, id) || (w in ws && Holds(ws[w], id))
  {
    if v :| v in ws && Holds(ws[v], id) {
      assert v != w ==> v in ws - {w} && Holds((ws - {w})[v], id);
    }
    if v :| v in ws - {w} && Holds((ws - {w})[v], id) {
      assert v in ws && Holds(ws[v], id);
    }
  }

  lemma HeldAfterwards(ws: map<WorkerId, Worker>, w: WorkerId, x: Worker, id: JobId)
    ensures SomebodyHolds(ws[w := x], id) <==> SomebodyHolds(ws - {w}, id) || Holds(x, id)
  {
    HeldByThisOrOthers(ws[w := x], w, id);
    assert ws[w := x] - {w} == ws - {w};
  }

  lemma TakeMatches(s: Sys, w: WorkerId, popped: Option<Job>)
    requires LeasesMatch(s) && Enabled(s, Take(w, popped))
    ensures LeasesMatch(AfterTake(s, w, popped)) <==> !TakesAway(s, Take(w, popped))
  {
    var t, ack := AfterTake(s, w, popped), PendingId(s.workers[w]);
    var x := t.workers[w];
    TakenKeys(s.store, ack, popped, s.now + s.lease);
    assert t.workers == s.workers[w := x];
    assert forall id: JobId :: Holds(s.workers[w], id) <==> PendingId(s.workers[w]) == Some(id);
    assert forall id: JobId :: Holds(x, id) <==> id in TakenId(popped);
    hide Taken, CanPop, SomebodyHolds, Holds, TakenId;
    forall id ensures (id in t.store.processing <==> SomebodyHolds(t.workers, id))
      <==> !(ack == Some(id) && id !in TakenId(popped) && SomebodyHolds(s.workers - {w}, id))
    {
      HeldByThisOrOthers(s.workers, w, id);
      HeldAfterwards(s.workers, w, x, id);
    }
  }

  lemma ExitMatches(s: Sys, w: WorkerId)
    requires LeasesMatch(s) && Enabled(s, Exit(w, true))
    ensures LeasesMatch(AfterExit(s, w, true)) <==> !TakesAway(s, Exit(w, true))
  {
    var t, ack := AfterExit(s, w, true), PendingId(s.workers[w]);
    assert forall id: JobId :: Holds(s.workers[w], id) <==> PendingId(s.workers[w]) == Some(id);
    assert t.workers == s.workers - {w};
    assert forall id :: id in t.store.processing <==> id in s.store.processing && ack != Some(id);
    hide SomebodyHolds, Holds;
    forall id ensures (id in t.store.processing <==> SomebodyHolds(t.workers, id))
      <==> !(ack == Some(id) && SomebodyHolds(s.workers - {w}, id))
    {
      HeldByThisOrOthers(s.workers, w, id);
    }
  }

  /** One worker changes, or is new, but holds what it held. */
  lemma SameHolderMatches(s: Sys, t: Sys, w: WorkerId)
    requires LeasesMatch(s) && w in t.workers && t.workers == s.workers[w := t.workers[w]]
    requires t.store.processing.Keys == s.store.processing.Keys
    requires forall id :: Holds(t.workers[w], id) <==> w in s.workers && Holds(s.workers[w], id)
    ensures LeasesMatch(t)
  {
    hide SomebodyHolds, Holds;
    forall id ensures id in t.store.processing <==> SomebodyHolds(t.workers, id) {
      HeldByThisOrOthers(s.workers, w, id);
      HeldAfterwards(s.workers, w, t.workers[w], id);
    }
  }

  lemma WorkerMatches(s: Sys, e: Event)
    requires LeasesMatch(s) && Enabled(s, e) && (e.Spawn? || e.Stop? || e.TakeLostRequest?)
    ensures LeasesMatch(Apply(s, e))
  {
    var t := Apply(s, e);
    assert t.workers == s.workers[e.w := t.workers[e.w]] && t.store == s.store;
    hide LeasesMatch;
    SameHolderMatches(s, t, e.w);
  }

  lemma RecordingMatches(s: Sys, e: Event)
    requires LeasesMatch(s) && Enabled(s, e) && (e.Succeed? || e.Fail?) && OneAtATime(s.workers[e.w])
    ensures LeasesMatch(Apply(s, e))
  {
    var t := Apply(s, e);
    assert t.workers == s.workers[e.w := t.workers[e.w]] && t.store == s.store;
    assert t.workers[e.w].current.None? && t.workers[e.w].pending.Some?;
    assert t.workers[e.w].pending.value.id == s.workers[e.w].current.value.id;
    hide LeasesMatch, Apply, Enabled;
    SameHolderMatches(s, t, e.w);
  }

  lemma OtherMatches(s: Sys, e: Event)
    requires LeasesMatch(s) && Enabled(s, e)
    requires e.Submit? || e.StartPool? || e.PollRead? || e.PollPush? || e.PollRemove? || e.Tick? || (e.Reap? && e.ids == [])
    ensures LeasesMatch(Apply(s, e))
  {
    assert Apply(s, e).workers == s.workers && Apply(s, e).store.processing == s.store.processing;
  }

  lemma PassMatches(s: Sys, p: PoolId, landed: bool)
    requires LeasesMatch(s) && p in s.pools
    ensures LeasesMatch(AfterPass(s, p, landed))
  {
    assert AfterPass(s, p, landed).store.processing.Keys == s.store.processing.Keys;
    hide HeldBy, RenewalDue, Renewed, SomebodyHolds;
  }

  lemma AckMatches(s: Sys, e: Event)
    requires LeasesMatch(s) && Enabled(s, e) && Faultless(e) && (e.Take? || e.Exit?)
    ensures LeasesMatch(Apply(s, e)) <==> !TakesAway(s, e)
  {
    hide LeasesMatch, TakesAway;
    match e {
      case Take(w, popped) => TakeMatches(s, w, popped);
      case Exit(w, _) => ExitMatches(s, w);
    }
  }

  lemma BystanderMatches(s: Sys, e: Event)
    requires LeasesMatch(s) && Owned(s) && Enabled(s, e) && Faultless(e) && !e.Take? && !e.Exit?
    ensures LeasesMatch(Apply(s, e))
  {
    if e.MonitorPass? {
      hide LeasesMatch, Owned;
      PassMatches(s, e.p, e.landed);
    } else if e.Succeed? || e.Fail? {
      assert OneAtATime(s.workers[e.w]);
      hide LeasesMatch, Owned, Apply;
      RecordingMatches(s, e);
    } else {
      hide LeasesMatch, Owned, Apply, Enabled;
      if e.Spawn? || e.Stop? || e.TakeLostRequest? {
        WorkerMatches(s, e);
      } else {
        OtherMatches(s, e);
      }
    }
  }

  /** A faultless step keeps leases and workers in step unless it takes a lease away. */
  lemma StepMatches(s: Sys, e: Event)
    requires LeasesMatch(s) && Owned(s) && Enabled(s, e) && Faultless(e)
    ensures LeasesMatch(Apply(s, e)) <==> !TakesAway(s, e)
  {
    hide LeasesMatch, Owned, Apply, Enabled;
    if e.Take? || e.Exit? {
      AckMatches(s, e);
    } else {
      BystanderMatches(s, e);
    }
  }

  lemma {:induction false} RunMatchesExactly(s: Sys, es: seq<Event>)
    requires LeasesMatch(s) && Owned(s) && CopiesOk(s) && Valid(s, es) && FaultlessRun(es)
    ensures Always(s, es, LeasesMatch) <==> NeverTakesAway(s, es)
    decreases |es|
  {
    if es != [] {
      FaultlessIsCalm(es);
      StepMatches(s, es[0]);
      if LeasesMatch(Apply(s, es[0])) {
        WhatCopiesOkSays(s);
        StepStaysOwned(s, es[0]);
        StepKeepsCopies(s, es[0]);
        hide LeasesMatch, Owned, CopiesOk, Apply, Enabled, TakesAway;
        RunMatchesExactly(Apply(s, es[0]), es[1..]);
      } else {
        NotNowNotAlways(Apply(s, es[0]), es[1..]);
      }
    }
  }

  lemma NotNowNotAlways(s: Sys, es: seq<Event>)
    requires Valid(s, es) && !LeasesMatch(s)
    ensures !Always(s, es, LeasesMatch)
  {
    hide LeasesMatch, Enabled, Apply;
  }

  /** Throughout a faultless run each job is leased exactly while a worker runs it or owes its
      acknowledgement, if and only if no acknowledgement is sent of a job that another worker
      runs or owes, unless by a take that leases the job anew. */
  lemma LeasesMatchExactly(s: Sys, es: seq<Event>)
    requires Initial(s) && Valid(s, es) && FaultlessRun(es)
    ensures Always(s, es, LeasesMatch) <==> NeverTakesAway(s, es)
  {
    RunMatchesExactly(s, es);
  }

  /** Safe promotions leave one worker at most with a job to run or to acknowledge. */
  lemma NobodyElseHolds(s: Sys, w: WorkerId, v: WorkerId)
    requires Single(s, true, true) && w in s.workers && v in s.workers && v != w && s.workers[w].pending.Some?
    ensures !Holds(s.workers[v], s.workers[w].pending.value.id)
  {
    SlotIsIn(s, w);
    SlotIsIn(s, v);
    assert UniqueIn(s.workers, Unacked) by { assert Counts(Unacked, true); }
    assert s.workers[w].pending.value.id in SlotIds(s.workers[w], Unacked);
    assert CensusOf(s).running == IdsIn(s.workers, Current) && CensusOf(s).unacked == IdsIn(s.workers, Unacked);
  }

  lemma SafeTakesNothingAway(s: Sys, e: Event)
    requires Single(s, true, true) && Enabled(s, e) && (e.Take? || e.Exit?)
    ensures !TakesAway(s, e)
  {
    hide Single;
    if s.workers[e.w].pending.Some? {
      forall v | v in s.workers && v != e.w ensures !Holds(s.workers[v], s.workers[e.w].pending.value.id) {
        NobodyElseHolds(s, e.w, v);
      }
    }
  }

  lemma {:induction false} SafeRunMatches(s: Sys, es: seq<Event>)
    requires LeasesMatch(s) && Single(s, true, true) && Owned(s) && CopiesOk(s)
    requires Valid(s, es) && FaultlessRun(es) && Guarded(s, es)
    ensures NeverTakesAway(s, es) && LeasesMatch(Exec(s, es))
    decreases |es|
  {
    if es != [] {
      FaultlessIsCalm(es);
      WhatCopiesOkSays(s);
      if es[0].Take? || es[0].Exit? {
        SafeTakesNothingAway(s, es[0]);
      }
      StepMatches(s, es[0]);
      StepStaysSingle(s, es[0], true, true);
      StepStaysOwned(s, es[0]);
      StepKeepsCopies(s, es[0]);
      hide LeasesMatch, Single, Owned, CopiesOk, Apply, Enabled, Guard;
      SafeRunMatches(Apply(s, es[0]), es[1..]);
    }
  }

  /** Whoever holds a job runs it or owes its acknowledgement. */
  lemma HoldersAreCounted(ws: map<WorkerId, Worker>, id: JobId)
    ensures SomebodyHolds(ws, id) <==> id in IdsIn(ws, Current) + IdsIn(ws, Unacked)
  {
    if w :| w in ws && Holds(ws[w], id) {
      assert id in SlotIds(ws[w], Current) || id in SlotIds(ws[w], Unacked);
    }
    forall slot, w | w in ws && id in SlotIds(ws[w], slot) ensures SomebodyHolds(ws, id) {
      assert Holds(ws[w], id);
    }
  }

  lemma LeasesAreOwned(s: Sys, es: seq<Event>)
    requires Initial(s) && Valid(s, es) && FaultlessRun(es)
    ensures var t := Exec(s, es); t.store.processing.Keys <= CensusOf(t).running + CensusOf(t).unacked
    ensures var t := Exec(s, es);
      Guarded(s, es) ==> t.store.processing.Keys == CensusOf(t).running + CensusOf(t).unacked
  {
    var t := Exec(s, es);
    FaultlessIsCalm(es);
    EveryLeaseHasItsWorker(s, es);
    if Guarded(s, es) {
      StartsSingle(s);
      SafeRunMatches(s, es);
    }
    hide SomebodyHolds, IdsIn, FaultlessRun, Guarded, Initial;
    forall id ensures SomebodyHolds(t.workers, id) <==> id in IdsIn(t.workers, Current) + IdsIn(t.workers, Unacked) {
      HoldersAreCounted(t.workers, id);
    }
  }

  // ---------------------------------------------------------------- exactly once

  /** Delivery counts of one id: completed runs, and dead letters. */
  ghost function DeadCount(dlq: seq<DeadRecord>, id: JobId): nat {
    |set k | 0 <= k < |dlq| && dlq[k].job.id == id|
  }

  /** In every faultless run, at every point, every submitted job is in exactly one of: queued,
      running, waiting for a retry, dead, done; it completed at most once, and was
      dead-lettered at most once; and it is leased only while a worker runs it or has its outcome
      still to acknowledge. If promotions were safe, it is leased exactly then, and what is still
      to be acknowledged is where it was recorded. */
  lemma FaultlessDeliveryIsExactlyOnce(s: Sys, es: seq<Event>)
    requires Initial(s) && Valid(s, es) && FaultlessRun(es)
    ensures var t := Exec(s, es); var c, leased := CensusOf(t), t.store.processing.Keys;
      && Placed(c, t.origin.Keys, true, false)
      && (forall id | id in t.done :: t.done[id] == 1)
      && (forall id :: DeadCount(t.dlq, id) <= 1)
      && leased <= c.running + c.unacked
      && (Guarded(s, es) ==> Placed(c, t.origin.Keys, true, true) && leased == c.running + c.unacked)
  {
    hide *;
    var t := Exec(s, es);
    StartsSingle(s);
    FaultlessIsCalm(es);
    RunStaysSingle(s, es, true, false);
    LeasesAreOwned(s, es);
    WhatSingleSays(t, false);
    if Guarded(s, es) {
      RunStaysSingle(s, es, true, true);
      WhatSingleSays(t, true);
    }
  }

  lemma FaultlessIsCalm(es: seq<Event>)
    requires FaultlessRun(es)
    ensures (forall e | e in es :: Calm(e)) && CallsWorked(es)
  {
  }

  lemma WhatSingleSays(t: Sys, safe: bool)
    requires Single(t, true, safe)
    ensures Placed(CensusOf(t), t.origin.Keys, true, safe)
    ensures (forall id | id in t.done :: t.done[id] == 1) && (forall id :: DeadCount(t.dlq, id) <= 1)
  {
    DeadOnce(t.dlq);
    hide CensusOf, Placed, DeadCount;
  }

  lemma StartsSingle(s: Sys)
    requires Initial(s)
    ensures Single(s, true, true) && Single(s, true, false) && CopiesOk(s)
  {
    assert Placed(CensusOf(s), {}, true, true);
  }

  lemma DeadOnce(dlq: seq<DeadRecord>)
    requires UniqueDead(dlq)
    ensures forall id :: DeadCount(dlq, id) <= 1
  {
    forall id ensures DeadCount(dlq, id) <= 1 {
      var where := set k | 0 <= k < |dlq| && dlq[k].job.id == id;
      if k :| k in where {
        assert where == {k};
      } else {
        assert where == {};
      }
    }
  }
}
