/** Any sequence of store operations, by any number of clients: every lease granted is
    acknowledged, requeued, reaped, still in flight, or overwritten by the pop of a second copy,
    exactly once. No lease is overwritten, and no job is in two places, as long as a job is
    pushed only while it is neither queued nor leased. */
module LeaseLedger {
  import opened Prelude
  import opened Jobs
  import opened LeaseModel

  datatype Op =
    | Push(job: Job)
    | Take(ack: Option<JobId>, popped: Option<Job>, deadline: Micros)
    | Ack(id: JobId)
    | Requeue(job: Job)
    | Renew(ids: set<JobId>, deadline: Micros)
    | Reap(expired: seq<JobId>, now: Micros, limit: int)

  /** The store, the leases granted, and how they went: acknowledgements that returned held,
      requeues that returned 1, reaped leases, and leases a pop of the same id replaced. */
  datatype Ledger = Ledger(store: Store, granted: nat, acked: nat, requeued: nat, reaped: nat, overwritten: nat)

  ghost predicate Allowed(s: Store, op: Op) {
    match op
    case Take(_, popped, _) => CanPop(s.queue, popped)
    case Reap(ids, now, limit) => IsExpiredBatch(s.processing, now, limit, ids)
    case _ => true
  }

  function Held(s: Store, id: JobId): nat {
    if id in s.processing then 1 else 0
  }

  /** The take pops a job that is leased, after its acknowledgement. */
  predicate Overwrites(s: Store, op: Op) {
    op.Take? && op.popped.Some? && op.popped.value.id in Acked(s, op.ack).processing
  }

  ghost function After(l: Ledger, op: Op): Ledger
    requires Allowed(l.store, op)
  {
    var s := l.store;
    match op
    case Push(job) => l.(store := Pushed(s, job))
    case Take(ack, popped, deadline) =>
      l.(store := Taken(s, ack, popped, deadline),
         acked := l.acked + (if ack.Some? then Held(s, ack.value) else 0),
         granted := l.granted + (if popped.Some? then 1 else 0),
         overwritten := l.overwritten + (if Overwrites(s, op) then 1 else 0))
    case Ack(id) => l.(store := Released(s, id), acked := l.acked + Held(s, id))
    case Requeue(job) => l.(store := Requeued(s, job), requeued := l.requeued + Held(s, job.id))
    case Renew(ids, deadline) => l.(store := Renewed(s, ids, deadline))
    case Reap(ids, _, _) => l.(store := Reaped(s, ids), reaped := l.reaped + |ids|)
  }

  ghost predicate AllAllowed(l: Ledger, ops: seq<Op>)
    decreases |ops|
  {
    ops == [] || (Allowed(l.store, ops[0]) && AllAllowed(After(l, ops[0]), ops[1..]))
  }

  ghost function AfterAll(l: Ledger, ops: seq<Op>): Ledger
    requires AllAllowed(l, ops)
    decreases |ops|
  {
    if ops == [] then l else AfterAll(After(l, ops[0]), ops[1..])
  }

  predicate Conserved(l: Ledger) {
    l.granted == l.acked + l.requeued + l.reaped + l.overwritten + |l.store.processing|
  }

  predicate Balanced(l: Ledger) {
    l.granted == l.acked + l.requeued + l.reaped + |l.store.processing|
  }

  // ---------------------------------------------------------------- conservation

  lemma ReleaseSize(s: Store, id: JobId)
    ensures |Released(s, id).processing| == |s.processing| - Held(s, id)
  {
  }

  lemma KeyAdded<K, V>(m: map<K, V>, k: K, v: V)
    ensures |m[k := v]| == |m| + (if k in m then 0 else 1)
  {
    if k in m { assert m[k := v].Keys == m.Keys; }
  }

  lemma TakeSize(s: Store, ack: Option<JobId>, popped: Option<Job>, deadline: Micros)
    requires CanPop(s.queue, popped)
    ensures |Taken(s, ack, popped, deadline).processing| + (if Overwrites(s, Take(ack, popped, deadline)) then 1 else 0) ==
      |s.processing| - (if ack.Some? then Held(s, ack.value) else 0) + (if popped.Some? then 1 else 0)
  {
    hide IsMax;
    if ack.Some? { ReleaseSize(s, ack.value); }
    if popped.Some? { KeyAdded(Acked(s, ack).processing, popped.value.id, deadline); }
  }

  lemma StepConserves(l: Ledger, op: Op)
    requires WellFormed(l.store) && Conserved(l) && Allowed(l.store, op)
    ensures Conserved(After(l, op))
  {
    var s := l.store;
    hide WellFormed, Taken, Released, Reaped, IsExpiredBatch;
    match op {
      case Push(job) =>
      case Take(ack, popped, deadline) => TakeSize(s, ack, popped, deadline);
      case Ack(id) => ReleaseSize(s, id);
      case Requeue(job) => ReleaseSize(s, job.id);
      case Renew(ids, deadline) => assert Renewed(s, ids, deadline).processing.Keys == s.processing.Keys;
      case Reap(ids, now, limit) => ReapSize(s, ids, now, limit);
    }
  }

  lemma ReapSize(s: Store, ids: seq<JobId>, now: Micros, limit: int)
    requires WellFormed(s) && IsExpiredBatch(s.processing, now, limit, ids)
    ensures |Reaped(s, ids).processing| == |s.processing| - |ids|
  {
    ReapCount(s, ids);
  }

  lemma StepStaysWellFormed(l: Ledger, op: Op)
    requires WellFormed(l.store) && Allowed(l.store, op)
    ensures WellFormed(After(l, op).store)
  {
    hide Taken, Reaped, Requeued;
    match op {
      case Take(ack, popped, deadline) => TakeIsClean(l.store, ack, popped, deadline);
      case Requeue(job) => RequeueIsClean(l.store, job);
      case Reap(ids, _, _) => ReapMovesLeasesToTheQueue(l.store, ids);
      case _ =>
    }
  }

  /** Conservation of leases, after any operations in any order, whatever is pushed: in
      particular the reaper and the monitor never both give back the same lease. */
  lemma {:induction false} LeasesAreConserved(l: Ledger, ops: seq<Op>)
    requires WellFormed(l.store) && Conserved(l) && AllAllowed(l, ops)
    ensures var t := AfterAll(l, ops);
      && WellFormed(t.store)
      && t.granted == t.acked + t.requeued + t.reaped + t.overwritten + |t.store.processing|
    decreases |ops|
  {
    if ops != [] {
      StepConserves(l, ops[0]);
      StepStaysWellFormed(l, ops[0]);
      hide WellFormed, After, Allowed;
      LeasesAreConserved(After(l, ops[0]), ops[1..]);
    }
  }

  // ---------------------------------------------------------------- when the balance holds

  ghost predicate NeverOverwrites(l: Ledger, ops: seq<Op>)
    requires AllAllowed(l, ops)
    decreases |ops|
  {
    ops == [] || (!Overwrites(l.store, ops[0]) && NeverOverwrites(After(l, ops[0]), ops[1..]))
  }

  lemma {:induction false} OverwritesAreCounted(l: Ledger, ops: seq<Op>)
    requires AllAllowed(l, ops)
    ensures AfterAll(l, ops).overwritten >= l.overwritten
    ensures NeverOverwrites(l, ops) <==> AfterAll(l, ops).overwritten == l.overwritten
    decreases |ops|
  {
    if ops != [] {
      OverwritesAreCounted(After(l, ops[0]), ops[1..]);
    }
  }

  /** Grants = held acknowledgements + effective requeues + reaped + in flight holds at the end of
      a sequence of operations if and only if no take popped a job that was leased. */
  lemma BalanceIsExact(l: Ledger, ops: seq<Op>)
    requires WellFormed(l.store) && Balanced(l) && l.overwritten == 0 && AllAllowed(l, ops)
    ensures Balanced(AfterAll(l, ops)) <==> NeverOverwrites(l, ops)
  {
    LeasesAreConserved(l, ops);
    OverwritesAreCounted(l, ops);
  }

  /** One queue member per id, and never an id both queued and leased. */
  ghost predicate InOnePlace(s: Store) {
    && WellFormed(s)
    && (forall m, n | m in s.queue && n in s.queue && m.id == n.id :: m == n)
    && (forall m | m in s.queue :: m.id !in s.processing)
  }

  /** A job is pushed only while it is neither queued nor leased. */
  ghost predicate FreshPushes(l: Ledger, ops: seq<Op>)
    requires AllAllowed(l, ops)
    decreases |ops|
  {
    ops == [] ||
    (&& (ops[0].Push? ==> !Queued(l.store, ops[0].job.id) && ops[0].job.id !in l.store.processing)
     && FreshPushes(After(l, ops[0]), ops[1..]))
  }

  lemma ReapOnePlace(s: Store, ids: seq<JobId>)
    requires InOnePlace(s) && forall id | id in ids :: id in s.processing
    ensures InOnePlace(Reaped(s, ids))
  {
    ReapMovesLeasesToTheQueue(s, ids);
  }

  lemma TakeOnePlace(s: Store, ack: Option<JobId>, popped: Option<Job>, deadline: Micros)
    requires InOnePlace(s) && CanPop(s.queue, popped)
    ensures InOnePlace(Taken(s, ack, popped, deadline)) && !Overwrites(s, Take(ack, popped, deadline))
  {
    TakeIsClean(s, ack, popped, deadline);
  }

  lemma PushOnePlace(s: Store, job: Job)
    requires InOnePlace(s) && !Queued(s, job.id) && job.id !in s.processing
    ensures InOnePlace(Pushed(s, job))
  {
  }

  lemma ReleaseOnePlace(s: Store, id: JobId)
    requires InOnePlace(s)
    ensures InOnePlace(Released(s, id))
  {
  }

  lemma RequeueOnePlace(s: Store, job: Job)
    requires InOnePlace(s)
    ensures InOnePlace(Requeued(s, job))
  {
  }

  lemma RenewOnePlace(s: Store, ids: set<JobId>, deadline: Micros)
    requires InOnePlace(s)
    ensures InOnePlace(Renewed(s, ids, deadline))
  {
  }

  lemma StepKeepsOnePlace(l: Ledger, op: Op)
    requires InOnePlace(l.store) && Allowed(l.store, op)
    requires op.Push? ==> !Queued(l.store, op.job.id) && op.job.id !in l.store.processing
    ensures InOnePlace(After(l, op).store) && !Overwrites(l.store, op)
  {
    hide InOnePlace, Taken, Reaped, Queued;
    match op {
      case Push(job) => PushOnePlace(l.store, job);
      case Take(ack, popped, deadline) => TakeOnePlace(l.store, ack, popped, deadline);
      case Ack(id) => ReleaseOnePlace(l.store, id);
      case Requeue(job) => RequeueOnePlace(l.store, job);
      case Renew(ids, deadline) => RenewOnePlace(l.store, ids, deadline);
      case Reap(ids, now, limit) => ReapOnePlace(l.store, ids);
    }
  }

  /** With that care in pushing, each job stays in one place and the balance holds. */
  lemma {:induction false} FreshPushesKeepTheBalance(l: Ledger, ops: seq<Op>)
    requires InOnePlace(l.store) && Balanced(l) && l.overwritten == 0 && AllAllowed(l, ops) && FreshPushes(l, ops)
    ensures InOnePlace(AfterAll(l, ops).store) && NeverOverwrites(l, ops) && Balanced(AfterAll(l, ops))
    decreases |ops|
  {
    if ops != [] {
      StepKeepsOnePlace(l, ops[0]);
      StepConserves(l, ops[0]);
      assert InOnePlace(After(l, ops[0]).store);
      hide InOnePlace, Allowed;
      FreshPushesKeepTheBalance(After(l, ops[0]), ops[1..]);
    }
  }

  // ---------------------------------------------------------------- not held means consumed

  /** The operation takes this lease back. */
  predicate Consumes(op: Op, id: JobId) {
    match op
    case Take(ack, _, _) => ack == Some(id)
    case Ack(other) => other == id
    case Requeue(job) => job.id == id
    case Reap(ids, _, _) => id in ids
    case _ => false
  }

  lemma OthersKeepTheLease(l: Ledger, op: Op, id: JobId)
    requires WellFormed(l.store) && Allowed(l.store, op) && id in l.store.processing && !Consumes(op, id)
    ensures id in After(l, op).store.processing
  {
    hide Reaped;
    if op.Reap? {
      ReapMovesLeasesToTheQueue(l.store, op.expired);
    }
  }

  /** An acknowledgement that finds its lease not held, after it was granted, came too late:
      some acknowledgement, requeue or reap in between found this lease held and took it. */
  lemma {:induction false} NotHeldWasConsumed(l: Ledger, ops: seq<Op>, id: JobId) returns (k: nat)
    requires WellFormed(l.store) && AllAllowed(l, ops)
    requires id in l.store.processing && id !in AfterAll(l, ops).store.processing
    ensures k < |ops| && Consumes(ops[k], id)
    ensures AllAllowed(l, ops[..k]) && id in AfterAll(l, ops[..k]).store.processing
    decreases |ops|
  {
    if Consumes(ops[0], id) {
      k := 0;
      assert ops[..0] == [];
    } else {
      OthersKeepTheLease(l, ops[0], id);
      StepStaysWellFormed(l, ops[0]);
      hide WellFormed, After, Allowed, Consumes;
      var j := NotHeldWasConsumed(After(l, ops[0]), ops[1..], id);
      k := j + 1;
      assert ops[..k][0] == ops[0] && ops[..k][1..] == ops[1..][..j];
    }
  }
}
