/** The ledger of the whole system: every step is one store operation or none, so leases are
    conserved in every run; and retries can put two copies of a job on the queue. */
module LeaseAccounts {
  import opened Prelude
  import opened Jobs
  import opened LeaseModel
  import opened DelayedJobs
  import opened Retries
  import opened System
  import L = LeaseLedger

  /** The store operation an event performs. */
  ghost function OpOf(s: Sys, e: Event): Option<L.Op>
    requires Enabled(s, e)
  {
    match e
    case Submit(job, _) => Some(L.Push(job))
    case Take(w, popped) => Some(L.Take(PendingId(s.workers[w]), popped, s.now + s.lease))
    case TakeLostReply(w, popped) => Some(L.Take(PendingId(s.workers[w]), popped, s.now + s.lease))
    case Exit(w, landed) =>
      if landed && s.workers[w].pending.Some? then Some(L.Ack(s.workers[w].pending.value.id)) else None
    case Replace(w, landed, _, _) =>
      if landed && s.workers[w].current.Some? then Some(L.Requeue(s.workers[w].current.value.(status := Pending))) else None
    case MonitorPass(p, landed) =>
      if landed && RenewalDue(s.now - s.pools[p].lastRenew, s.lease) then Some(L.Renew(HeldBy(s, p), s.now + s.lease)) else None
    case Reap(ids, limit) => Some(L.Reap(ids, s.now, limit))
    case PollPush => Some(L.Push(Promoted(s.sched.due[0])))
    case _ => None
  }

  ghost function OpsAlong(s: Sys, es: seq<Event>): seq<L.Op>
    requires Valid(s, es)
    decreases |es|
  {
    if es == [] then []
    else (match OpOf(s, es[0]) case None => [] case Some(op) => [op]) + OpsAlong(Apply(s, es[0]), es[1..])
  }

  /** No lease has been granted yet. */
  function Opened(s: Store): L.Ledger {
    L.Ledger(s, 0, 0, 0, 0, 0)
  }

  /** The event does to the store what the operation does, or leaves it alone. */
  ghost predicate IsAnOp(s: Sys, e: Event, l: L.Ledger)
    requires Enabled(s, e)
  {
    match OpOf(s, e)
    case None => Apply(s, e).store == s.store
    case Some(op) => L.Allowed(l.store, op) && L.After(l, op).store == Apply(s, e).store
  }

  lemma TakeIsAnOp(s: Sys, e: Event, l: L.Ledger)
    requires Enabled(s, e) && l.store == s.store && (e.Take? || e.TakeLostReply?)
    ensures IsAnOp(s, e, l)
  {
    hide Taken, CanPop;
  }

  lemma GivingBackIsAnOp(s: Sys, e: Event, l: L.Ledger)
    requires Enabled(s, e) && l.store == s.store && (e.Exit? || e.Replace? || e.Reap?)
    ensures IsAnOp(s, e, l)
  {
    hide Reaped, IsExpiredBatch, Requeued, Released;
  }

  lemma PassIsAnOp(s: Sys, e: Event, l: L.Ledger)
    requires Enabled(s, e) && l.store == s.store && (e.MonitorPass? || e.Submit? || e.PollPush?)
    ensures IsAnOp(s, e, l)
  {
    hide Renewed, HeldBy;
  }

  lemma OtherIsNoOp(s: Sys, e: Event, l: L.Ledger)
    requires Enabled(s, e)
    requires e.StartPool? || e.Spawn? || e.TakeLostRequest? || e.Succeed? || e.Fail? || e.FailUnrecorded? || e.Stop?
      || e.PollRead? || e.PollRemove? || e.Tick? || e.CrashWorker? || e.CrashPool? || e.CrashScheduler?
    ensures IsAnOp(s, e, l)
  {
    hide Decide;
  }

  lemma EventIsAnOp(s: Sys, e: Event, l: L.Ledger)
    requires Enabled(s, e) && l.store == s.store
    ensures IsAnOp(s, e, l)
  {
    hide Enabled, IsAnOp;
    if e.Take? || e.TakeLostReply? {
      TakeIsAnOp(s, e, l);
    } else if e.Exit? || e.Replace? || e.Reap? {
      GivingBackIsAnOp(s, e, l);
    } else if e.MonitorPass? || e.Submit? || e.PollPush? {
      PassIsAnOp(s, e, l);
    } else {
      OtherIsNoOp(s, e, l);
    }
  }

  lemma {:induction false} RunIsOps(s: Sys, es: seq<Event>, l: L.Ledger)
    requires Valid(s, es) && l.store == s.store
    ensures L.AllAllowed(l, OpsAlong(s, es)) && L.AfterAll(l, OpsAlong(s, es)).store == Exec(s, es).store
    decreases |es|
  {
    if es != [] {
      EventIsAnOp(s, es[0], l);
      assert IsAnOp(s, es[0], l);
      var rest := OpsAlong(Apply(s, es[0]), es[1..]);
      hide Apply, Enabled, OpOf, L.Allowed, L.After;
      match OpOf(s, es[0])
      case None =>
        RunIsOps(Apply(s, es[0]), es[1..], l);
        assert OpsAlong(s, es) == rest;
      case Some(op) =>
        RunIsOps(Apply(s, es[0]), es[1..], L.After(l, op));
        assert OpsAlong(s, es) == [op] + rest && ([op] + rest)[1..] == rest;
    }
  }

  /** In every run: leases granted = held acknowledgements + effective requeues + reaped
      + overwritten + in flight, and without the overwritten ones exactly if no take popped a
      job that was leased. */
  lemma RunsConserveLeases(s: Sys, es: seq<Event>)
    requires Initial(s) && Valid(s, es)
    ensures var ops := OpsAlong(s, es);
      && L.AllAllowed(Opened(s.store), ops)
      && var t := L.AfterAll(Opened(s.store), ops);
         && t.store == Exec(s, es).store
         && t.granted == t.acked + t.requeued + t.reaped + t.overwritten + |t.store.processing|
         && (L.Balanced(t) <==> L.NeverOverwrites(Opened(s.store), ops))
  {
    RunIsOps(s, es, Opened(s.store));
    L.LeasesAreConserved(Opened(s.store), OpsAlong(s, es));
    L.BalanceIsExact(Opened(s.store), OpsAlong(s, es));
  }

  // ---------------------------------------------------------------- two copies of one job

  /** Two records of one job are queued, at the same score, and two workers are free. */
  ghost predicate TwoCopies(s: Sys, a: Job, b: Job) {
    && a != b && a.id == b.id && Score(a) == Score(b) && s.store.queue == map[a := Score(a), b := Score(b)]
    && s.store.processing == map[]
    && forall w | 0 <= w < 2 :: FreeHand(s, w)
  }

  ghost predicate FreeHand(s: Sys, w: WorkerId) {
    w in s.workers && s.workers[w].running && s.workers[w].current.None? && s.workers[w].pending.None?
    && s.workers[w].wakeAt <= s.now
  }

  /** The first of two workers has the only job there is. */
  ghost predicate InHand(s: Sys, job: Job) {
    && s.store == Popped(Store(map[job := Score(job)], map[], map[], map[]), Some(job), s.now + s.lease)
    && s.delayed == map[] && s.sched.Idle?
    && 0 in s.workers && s.workers[0].running && s.workers[0].wakeAt <= s.now
    && s.workers[0].current == Some(job.(status := Running)) && s.workers[0].pending.None?
    && FreeHand(s, 1)
  }

  /** No call is lost and nobody dies. */
  ghost predicate NoFault(es: seq<Event>) {
    forall e | e in es :: IsNoFault(e)
  }

  predicate IsNoFault(e: Event) {
    e.StartPool? || e.Spawn? || (e.Submit? && e.replied) || e.Take? || e.Tick? || e.Reap? || e.PollRead? || e.PollPush?
  }

  lemma LeadsInHand(s: Sys, job: Job) returns (es: seq<Event>)
    requires Initial(s) && job.attempt == 0 && job.status == Pending && job.submitTime <= s.now
    ensures Valid(s, es) && NoFault(es) && InHand(Exec(s, es), job) && Exec(s, es).now == s.now
  {
    var e1, e2, e3, e4 := StartPool(0, 0), Spawn(0, 0), Spawn(1, 0), Submit(job, true);
    var e5 := Event.Take(0, Some(job));
    var s1 := Apply(s, e1);
    var s2 := Apply(s1, e2);
    var s3 := Apply(s2, e3);
    var s4 := Apply(s3, e4);
    assert s4.store == Store(map[job := Score(job)], map[], map[], map[]) && IsMax(s4.store.queue, job);
    var s5 := Apply(s4, e5);
    assert InHand(s5, job) && s5.now == s.now;
    hide *;
    RunOfOne(s, e1);
    es := [e1];
    RunMore(s, es, e2); es := es + [e2];
    RunMore(s, es, e3); es := es + [e3];
    RunMore(s, es, e4); es := es + [e4];
    RunMore(s, es, e5); es := es + [e5];
    assert NoFault(es) by {
      assert es == [e1] + [e2] + [e3] + [e4] + [e5];
      FiveOfNoFault(e1, e2, e3, e4, e5);
    }
  }

  lemma FiveOfNoFault(a: Event, b: Event, c: Event, d: Event, e: Event)
    requires IsNoFault(a) && IsNoFault(b) && IsNoFault(c) && IsNoFault(d) && IsNoFault(e)
    ensures NoFault([a] + [b] + [c] + [d] + [e])
  {
  }

  /** The retry is written, but the call raises; the worker goes on and the lease runs out. */
  ghost predicate LeftBehind(s: Sys, job: Job, retry: Job) {
    && s.store.queue == map[] && s.store.processing.Keys == {job.id} && s.store.processing[job.id] <= s.now
    && s.store.payload == map[job.id := job] && s.store.leaseScore == map[job.id := Score(job)]
    && retry.id == job.id && retry.attempt == job.attempt + 1 && Score(retry) == Score(job)
    && s.delayed == map[retry := retry.nextRetryTime] && retry.nextRetryTime <= s.now && s.sched.Idle?
    && FreeHand(s, 0) && FreeHand(s, 1)
  }

  lemma LeadsToLeftBehind(s: Sys, job: Job) returns (e1: Event, e2: Event, retry: Job)
    requires InHand(s, job) && job.attempt == 0 && job.maxRetries >= 2 && s.now + 2 * SECOND <= MAX_DATETIME
    ensures Valid(s, [e1] + [e2]) && LeftBehind(Exec(s, [e1] + [e2]), job, retry)
    ensures e1.FailUnrecorded? && e1.landed && e2.Tick?
  {
    e1, e2 := FailUnrecorded(0, "boom", 0, true), Tick(Max(SECOND, s.lease));
    assert Pow2(1) == 2;
    retry := Decided(s, 0, "boom", 0).job;
    var s1 := Apply(s, e1);
    var s2 := Apply(s1, e2);
    assert LeftBehind(s2, job, retry);
    hide *;
    RunOfOne(s, e1);
    RunMore(s, [e1], e2);
  }

  lemma LeadsToTwoCopies(s: Sys, job: Job, retry: Job) returns (es: seq<Event>)
    requires LeftBehind(s, job, retry)
    ensures Valid(s, es) && NoFault(es) && TwoCopies(Exec(s, es), job, Promoted(retry))
  {
    var e1, e2, e3 := Reap([job.id], 1), PollRead([retry]), PollPush;
    var s1 := s.(store := Reaped(s.store, [job.id]));
    var s2 := s1.(sched := Polling([retry], false));
    var s3 := s2.(store := LeaseModel.Pushed(s1.store, Promoted(retry)), sched := Polling([retry], true));
    ReapIs(s, job.id);
    DueByNow(s1.delayed, s1.now, retry);
    TheOnlyLeaseIsReaped(s.store, job);
    hide Reaped, Enabled, Apply, IsDueList;
    ReadIs(s1, [retry]);
    PushIs(s2, retry);
    CopiesMeet(s, job, retry, s3);
    hide *;
    RunOfOne(s, e1);
    es := [e1];
    RunMore(s, es, e2); es := es + [e2];
    RunMore(s, es, e3); es := es + [e3];
    assert NoFault(es) by { ThreeOfNoFault(e1, e2, e3); }
  }

  lemma ThreeOfNoFault(a: Event, b: Event, c: Event)
    requires IsNoFault(a) && IsNoFault(b) && IsNoFault(c)
    ensures NoFault([a] + [b] + [c])
  {
  }

  lemma ReapIs(s: Sys, id: JobId)
    requires s.store.processing.Keys == {id} && s.store.processing[id] <= s.now
    ensures Enabled(s, Reap([id], 1)) && Apply(s, Reap([id], 1)) == s.(store := Reaped(s.store, [id]))
  {
    hide Reaped;
  }

  lemma PushIs(s: Sys, d: Job)
    requires s.sched == Polling([d], false)
    ensures Enabled(s, PollPush)
    ensures Apply(s, PollPush) == s.(store := LeaseModel.Pushed(s.store, Promoted(d)), sched := Polling([d], true))
  {
  }

  lemma CopiesMeet(s: Sys, job: Job, retry: Job, t: Sys)
    requires LeftBehind(s, job, retry) && t.workers == s.workers && t.now == s.now
    requires t.store.queue == map[job := Score(job)][Promoted(retry) := Score(retry)] && t.store.processing == map[]
    ensures TwoCopies(t, job, Promoted(retry))
  {
    assert FreeHand(s, 0) && FreeHand(s, 1);
  }

  lemma TheOnlyLeaseIsReaped(s: Store, job: Job)
    requires s.queue == map[] && s.processing.Keys == {job.id}
    requires s.payload == map[job.id := job] && s.leaseScore == map[job.id := Score(job)]
    ensures Reaped(s, [job.id]).queue == map[job := Score(job)] && Reaped(s, [job.id]).processing == map[]
  {
    assert [job.id][..0] == [];
    assert Reaped(s, [job.id]) == ReapedOne(s, job.id);
  }

  /** Both copies are popped: the second pop overwrites the lease of the first. */
  lemma BothArePopped(s: Sys, a: Job, b: Job) returns (es: seq<Event>)
    requires TwoCopies(s, a, b)
    ensures Valid(s, es) && NoFault(es) && |Exec(s, es).store.processing| == 1
    ensures L.AllAllowed(Opened(s.store), OpsAlong(s, es))
    ensures L.AfterAll(Opened(s.store), OpsAlong(s, es)).overwritten == 1
  {
    var e1, e2 := Event.Take(0, Some(a)), Event.Take(1, Some(b));
    var o1, o2 := L.Take(None, Some(a), s.now + s.lease), L.Take(None, Some(b), s.now + s.lease);
    var s1 := FirstIsPopped(s, a, b);
    SecondIsPopped(s1, a, b, s.now + s.lease);
    hide *;
    es := [e1] + [e2];
    RunOfOne(s, e1);
    RunMore(s, [e1], e2);
    OpsOfTwo(s, e1, e2, o1, o2);
    TwoOps(s, s1, e1, e2, o1, o2);
    assert NoFault(es) by { TwoOfNoFault(e1, e2); }
  }

  lemma TwoOfNoFault(a: Event, b: Event)
    requires IsNoFault(a) && IsNoFault(b)
    ensures NoFault([a] + [b])
  {
  }

  lemma FirstIsPopped(s: Sys, a: Job, b: Job) returns (t: Sys)
    requires TwoCopies(s, a, b)
    ensures var e, o := Event.Take(0, Some(a)), L.Take(None, Some(a), s.now + s.lease);
      && Enabled(s, e) && Apply(s, e) == t && OpOf(s, e) == Some(o) && !L.Overwrites(s.store, o)
    ensures t.store.queue == map[b := Score(b)] && t.store.processing == map[a.id := s.now + s.lease]
    ensures FreeHand(t, 1) && t.now == s.now && t.lease == s.lease
  {
    assert FreeHand(s, 0) && FreeHand(s, 1);
    t := Apply(s, Event.Take(0, Some(a)));
  }

  lemma SecondIsPopped(s: Sys, a: Job, b: Job, deadline: Micros)
    requires FreeHand(s, 1) && a.id == b.id && deadline == s.now + s.lease
    requires s.store.queue == map[b := Score(b)] && s.store.processing == map[a.id := deadline]
    ensures var e, o := Event.Take(1, Some(b)), L.Take(None, Some(b), deadline);
      && Enabled(s, e) && OpOf(s, e) == Some(o) && L.Overwrites(s.store, o)
      && Apply(s, e).store.processing == map[a.id := deadline]
  {
  }

  lemma OpsOfTwo(s: Sys, e1: Event, e2: Event, o1: L.Op, o2: L.Op)
    requires Enabled(s, e1) && Enabled(Apply(s, e1), e2) && OpOf(s, e1) == Some(o1) && OpOf(Apply(s, e1), e2) == Some(o2)
    ensures Valid(s, [e1] + [e2]) && OpsAlong(s, [e1] + [e2]) == [o1, o2]
  {
    hide Enabled, Apply, OpOf;
    var s1, s2 := Apply(s, e1), Apply(Apply(s, e1), e2);
    assert ([e1] + [e2])[1..] == [e2] && [e2][1..] == [];
    assert Valid(s2, []) && OpsAlong(s2, []) == [];
    assert Valid(s1, [e2]) && OpsAlong(s1, [e2]) == [o2] + [] == [o2];
  }

  lemma TwoOps(s: Sys, s1: Sys, e1: Event, e2: Event, o1: L.Op, o2: L.Op)
    requires Enabled(s, e1) && s1 == Apply(s, e1) && Enabled(s1, e2)
    requires OpOf(s, e1) == Some(o1) && OpOf(s1, e2) == Some(o2) && o1.Take? && o2.Take?
    requires !L.Overwrites(s.store, o1) && L.Overwrites(s1.store, o2)
    ensures L.AllAllowed(Opened(s.store), [o1, o2])
    ensures L.AfterAll(Opened(s.store), [o1, o2]).overwritten == 1
  {
    hide Enabled, Apply, OpOf, L.Allowed, L.Overwrites, Taken, L.AllAllowed, L.AfterAll;
    var l0 := Opened(s.store);
    EventIsAnOp(s, e1, l0);
    EventIsAnOp(s1, e2, L.After(l0, o1));
    TwoAtOnce(l0, o1, o2);
  }

  lemma TwoAtOnce(l: L.Ledger, o1: L.Op, o2: L.Op)
    requires L.Allowed(l.store, o1) && L.Allowed(L.After(l, o1).store, o2)
    ensures L.AllAllowed(l, [o1, o2]) && L.AfterAll(l, [o1, o2]) == L.After(L.After(l, o1), o2)
  {
    hide L.Allowed, L.After;
    assert [o1, o2][1..] == [o2] && [o2][1..] == [];
    var l2 := L.After(L.After(l, o1), o2);
    assert L.AllAllowed(l2, []) && L.AfterAll(l2, []) == l2;
  }

  ghost function FirstOps(s: Sys, e: Event): seq<L.Op>
    requires Enabled(s, e)
  {
    match OpOf(s, e) case None => [] case Some(op) => [op]
  }

  lemma OpsAreOps(s: Sys, es: seq<Event>)
    requires Valid(s, es) && es != []
    ensures OpsAlong(s, es) == FirstOps(s, es[0]) + OpsAlong(Apply(s, es[0]), es[1..])
  {
    hide Enabled, Apply, OpOf;
  }

  lemma {:induction false} OpsTwice(s: Sys, a: seq<Event>, b: seq<Event>)
    requires Valid(s, a) && Valid(Exec(s, a), b) && Valid(s, a + b)
    ensures OpsAlong(s, a + b) == OpsAlong(s, a) + OpsAlong(Exec(s, a), b)
    decreases |a|
  {
    hide Enabled, Apply, OpOf;
    if a == [] {
      assert a + b == b;
    } else {
      assert (a + b)[1..] == a[1..] + b && (a + b)[0] == a[0];
      OpsTwice(Apply(s, a[0]), a[1..], b);
      OpsAreOps(s, a);
      OpsAreOps(s, a + b);
    }
  }

  /** What a run of operations adds does not depend on what was counted before. */
  lemma {:induction false} OverwritesAdd(l: L.Ledger, a: seq<L.Op>, b: seq<L.Op>)
    requires L.AllAllowed(l, a) && L.AllAllowed(Opened(L.AfterAll(l, a).store), b)
    ensures L.AllAllowed(l, a + b)
    ensures L.AfterAll(l, a + b).overwritten
      == L.AfterAll(l, a).overwritten + L.AfterAll(Opened(L.AfterAll(l, a).store), b).overwritten
    decreases |a|, |b|
  {
    if a == [] {
      assert a + b == b;
      SameOverwrites(l, Opened(l.store), b);
    } else {
      assert (a + b)[1..] == a[1..] + b;
      OverwritesAdd(L.After(l, a[0]), a[1..], b);
    }
  }

  lemma {:induction false} SameOverwrites(l: L.Ledger, k: L.Ledger, ops: seq<L.Op>)
    requires l.store == k.store && L.AllAllowed(k, ops)
    ensures L.AllAllowed(l, ops)
    ensures L.AfterAll(l, ops).overwritten - l.overwritten == L.AfterAll(k, ops).overwritten - k.overwritten
    decreases |ops|
  {
    if ops != [] {
      SameOverwrites(L.After(l, ops[0]), L.After(k, ops[0]), ops[1..]);
    }
  }

  lemma UnbalancedAtLast(s: Sys, a: seq<Event>, b: seq<Event>)
    requires Initial(s) && Valid(s, a) && Valid(Exec(s, a), b) && Valid(s, a + b)
    requires var t := Exec(s, a);
      && L.AllAllowed(Opened(t.store), OpsAlong(t, b))
      && L.AfterAll(Opened(t.store), OpsAlong(t, b)).overwritten == 1
    ensures L.AllAllowed(Opened(s.store), OpsAlong(s, a + b))
    ensures !L.Balanced(L.AfterAll(Opened(s.store), OpsAlong(s, a + b)))
  {
    hide Enabled, Apply, Initial, Exec, Valid, L.Balanced;
    OpsTwice(s, a, b);
    RunIsOps(s, a, Opened(s.store));
    OverwritesAdd(Opened(s.store), OpsAlong(s, a), OpsAlong(Exec(s, a), b));
    RunsConserveLeases(s, a + b);
    L.OverwritesAreCounted(Opened(s.store), OpsAlong(s, a + b));
  }

  /** The care in pushing is not what the system takes: for every job that may be retried, from a
      fresh start, a run whose one fault is a failure whose recording raised after the write puts
      two copies of the job on the queue and pops both, and the balance of leases is off. */
  lemma SecondCopyBreaksTheBalance(s: Sys, job: Job) returns (before: seq<Event>, fault: Event, after: seq<Event>)
    requires Initial(s) && s.now + 2 * SECOND <= MAX_DATETIME
    requires job.attempt == 0 && job.status == Pending && job.submitTime <= s.now && job.maxRetries >= 2
    ensures NoFault(before) && fault.FailUnrecorded? && fault.landed && NoFault(after)
    ensures var es := before + [fault] + after;
      && Valid(s, es) && |Exec(s, es).store.processing| == 1
      && L.AllAllowed(Opened(s.store), OpsAlong(s, es))
      && !L.Balanced(L.AfterAll(Opened(s.store), OpsAlong(s, es)))
  {
    hide *;
    before := LeadsInHand(s, job);
    var wait, retry;
    fault, wait, retry := LeadsToLeftBehind(Exec(s, before), job);
    RunTwice(s, before, [fault] + [wait]);
    var a := before + ([fault] + [wait]);
    var c := LeadsToTwoCopies(Exec(s, a), job, retry);
    RunTwice(s, a, c);
    var d := BothArePopped(Exec(s, a + c), job, Promoted(retry));
    RunTwice(s, a + c, d);
    UnbalancedAtLast(s, a + c, d);
    WaitIsNoFault(wait, c, d);
    after := [wait] + c + d;
    assert a + c + d == before + [fault] + after;
  }

  lemma WaitIsNoFault(wait: Event, c: seq<Event>, d: seq<Event>)
    requires wait.Tick? && NoFault(c) && NoFault(d)
    ensures NoFault([wait] + c + d)
  {
  }
}
