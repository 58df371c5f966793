/** What the methods of the scheduler, the reaper and the monitor do is a run of the state
    machine in which nobody else moves, as Workers.TurnIsARun says of a worker's turn. */
module Passes {
  import opened Prelude
  import opened Jobs
  import opened LeaseModel
  import opened DelayedJobs
  import opened System
  import R = Reaper
  import P = WorkerPools

  // ---------------------------------------------------------------- poll

  /** A push and a removal for each entry. */
  function Pairs(n: nat): seq<Event> {
    if n == 0 then [] else [PollPush, PollRemove] + Pairs(n - 1)
  }

  function PlacesOf(s: Sys): Places {
    Places(s.store.queue, s.delayed)
  }

  ghost predicate PolledTo(s: Sys, p: Places, t: Sys) {
    t == s.(store := s.store.(queue := p.queue), delayed := p.delayed, sched := Idle)
  }

  lemma {:induction false} PollingFromTheFront(p: Places, d: Job, rest: seq<Job>)
    ensures AfterPolling(p, [d] + rest) == AfterPolling(AfterRemove(AfterPush(p, d), d), rest)
    decreases |rest|
  {
    if rest == [] {
      assert [d] + rest == [d] && [d][..0] == [];
    } else {
      var k := |rest| - 1;
      assert ([d] + rest)[..k + 1] == [d] + rest[..k];
      PollingFromTheFront(p, d, rest[..k]);
    }
  }

  lemma OnePair(s: Sys, t: Sys)
    requires s.sched.Polling? && s.sched.due != [] && !s.sched.pushed
    requires var d := s.sched.due[0]; var p := AfterRemove(AfterPush(PlacesOf(s), d), d);
      t == s.(store := s.store.(queue := p.queue), delayed := p.delayed,
              sched := if |s.sched.due| == 1 then Idle else Polling(s.sched.due[1..], false))
    ensures LeadsTo(s, [PollPush] + [PollRemove], t)
  {
    var s1 := Apply(s, PollPush);
    assert Apply(s1, PollRemove) == t;
    RunOfOne(s, PollPush);
    ThenOne(s, [PollPush], s1, PollRemove);
  }

  lemma FirstPair(s: Sys, due: seq<Job>, t: Sys) returns (u: Sys)
    requires due != [] && s.sched == Polling(due, false)
    requires PolledTo(s, AfterPolling(PlacesOf(s), due), t)
    ensures LeadsTo(s, [PollPush] + [PollRemove], u)
    ensures u.sched == if |due| == 1 then Idle else Polling(due[1..], false)
    ensures PolledTo(u, AfterPolling(PlacesOf(u), due[1..]), t)
  {
    var d, rest := due[0], due[1..];
    assert due == [d] + rest;
    PollingFromTheFront(PlacesOf(s), d, rest);
    var p := AfterRemove(AfterPush(PlacesOf(s), d), d);
    u := s.(store := s.store.(queue := p.queue), delayed := p.delayed, sched := if |due| == 1 then Idle else Polling(rest, false));
    OnePair(s, u);
    hide LeadsTo, AfterPolling, AfterPush, AfterRemove;
  }

  lemma PairsMore(n: nat)
    requires n > 0
    ensures [PollPush] + [PollRemove] + Pairs(n - 1) == Pairs(n)
  {
  }

  lemma {:induction false} PairsAreARun(s: Sys, due: seq<Job>, t: Sys)
    requires s.sched == if due == [] then Idle else Polling(due, false)
    requires PolledTo(s, AfterPolling(PlacesOf(s), due), t)
    ensures LeadsTo(s, Pairs(|due|), t)
    decreases |due|
  {
    if due == [] {
      assert s == t;
    } else {
      hide *;
      var u := FirstPair(s, due, t);
      PairsAreARun(u, due[1..], t);
      Then(s, [PollPush] + [PollRemove], u, Pairs(|due| - 1), t);
      PairsMore(|due|);
    }
  }

  /** A poll is a read, then a push and a removal for each entry due. */
  lemma PollIsARun(s: Sys, due: seq<Job>, t: Sys)
    requires s.sched.Idle? && IsDueList(s.delayed, s.now, due)
    requires PolledTo(s, AfterPolling(PlacesOf(s), due), t)
    ensures LeadsTo(s, [PollRead(due)] + Pairs(|due|), t)
  {
    var s1 := s.(sched := if due == [] then Idle else Polling(due, false));
    assert Enabled(s, PollRead(due)) && Apply(s, PollRead(due)) == s1;
    hide Enabled, Apply, AfterPolling, IsDueList;
    RunOfOne(s, PollRead(due));
    PairsAreARun(s1, due, t);
    Then(s, [PollRead(due)], s1, Pairs(|due|), t);
  }

  // ---------------------------------------------------------------- the reap pass

  /** One batch after another, each at its time. */
  function ReapEvents(now: Micros, clock: nat -> Micros, limit: int, batches: seq<seq<JobId>>): seq<Event> {
    if batches == [] then []
    else
      var k := |batches| - 1;
      var last := if k == 0 then now else clock(k - 1);
      ReapEvents(now, clock, limit, batches[..k])
      + (if clock(k) > last then [Tick(clock(k) - last)] else []) + [Reap(batches[k], limit)]
  }

  ghost predicate ReapedTo(s: Sys, clock: nat -> Micros, limit: int, batches: seq<seq<JobId>>, t: Sys) {
    var k := |batches| - 1;
    && t == s.(store := Reaped(s.store, R.Flat(batches)), now := if k < 0 then s.now else clock(k), lastDrain := t.lastDrain)
    && (k >= 0 && |batches[k]| < limit ==> t.lastDrain == t.now)
  }

  lemma WaitAndReap(s: Sys, at: Micros, ids: seq<JobId>, limit: int) returns (t: Sys)
    requires at >= s.now && IsExpiredBatch(s.store.processing, at, limit, ids)
    ensures LeadsTo(s, (if at > s.now then [Tick(at - s.now)] else []) + [Reap(ids, limit)], t)
    ensures t == s.(store := Reaped(s.store, ids), now := at, lastDrain := t.lastDrain)
    ensures |ids| < limit ==> t.lastDrain == t.now
  {
    var s1 := s.(now := at);
    t := s1.(store := Reaped(s.store, ids), lastDrain := if |ids| < limit then at else s.lastDrain);
    assert Enabled(s1, Reap(ids, limit)) && Apply(s1, Reap(ids, limit)) == t;
    assert at > s.now ==> Enabled(s, Tick(at - s.now)) && Apply(s, Tick(at - s.now)) == s1;
    hide Enabled, Apply, IsExpiredBatch, Reaped;
    if at > s.now {
      RunOfOne(s, Tick(at - s.now));
      ThenOne(s, [Tick(at - s.now)], s1, Reap(ids, limit));
    } else {
      RunOfOne(s, Reap(ids, limit));
      assert [] + [Reap(ids, limit)] == [Reap(ids, limit)];
    }
  }

  /** A reap pass is its batches, one Reap after another; when it ends it counts as drained. */
  lemma {:induction false} ReapPassIsARun(s: Sys, clock: nat -> Micros, limit: int, batches: seq<seq<JobId>>) returns (t: Sys)
    requires R.AreBatches(s.store, clock, limit, batches)
    requires clock(0) >= s.now && forall i: nat, j: nat | i <= j :: clock(i) <= clock(j)
    ensures LeadsTo(s, ReapEvents(s.now, clock, limit, batches), t) && ReapedTo(s, clock, limit, batches, t)
    decreases |batches|
  {
    if batches == [] {
      t := s;
    } else {
      var k := |batches| - 1;
      assert k > 0 ==> clock(k - 1) <= clock(k);
      var u := ReapPassIsARun(s, clock, limit, batches[..k]);
      t := OneMoreBatch(s, clock, limit, batches, u);
    }
  }

  lemma LastEvents(now: Micros, clock: nat -> Micros, limit: int, batches: seq<seq<JobId>>)
    requires batches != []
    ensures var k := |batches| - 1; var last := if k == 0 then now else clock(k - 1);
      ReapEvents(now, clock, limit, batches) == ReapEvents(now, clock, limit, batches[..k])
        + ((if clock(k) > last then [Tick(clock(k) - last)] else []) + [Reap(batches[k], limit)])
  {
    hide LeadsTo;
  }

  lemma OneMoreBatch(s: Sys, clock: nat -> Micros, limit: int, batches: seq<seq<JobId>>, u: Sys) returns (t: Sys)
    requires batches != [] && R.AreBatches(s.store, clock, limit, batches)
    requires var k := |batches| - 1; clock(k) >= if k == 0 then s.now else clock(k - 1)
    requires var fewer := batches[..|batches| - 1];
      LeadsTo(s, ReapEvents(s.now, clock, limit, fewer), u) && ReapedTo(s, clock, limit, fewer, u)
    ensures LeadsTo(s, ReapEvents(s.now, clock, limit, batches), t) && ReapedTo(s, clock, limit, batches, t)
  {
    hide *;
    var k := |batches| - 1;
    var ids, fewer := batches[k], batches[..k];
    LastBatchIsLegal(s, clock, limit, batches, u);
    t := WaitAndReap(u, clock(k), ids, limit);
    ReapedFurther(s, clock, limit, batches, u, t);
    var tail := (if clock(k) > u.now then [Tick(clock(k) - u.now)] else []) + [Reap(ids, limit)];
    Then(s, ReapEvents(s.now, clock, limit, fewer), u, tail, t);
    LastEvents(s.now, clock, limit, batches);
  }

  lemma LastBatchIsLegal(s: Sys, clock: nat -> Micros, limit: int, batches: seq<seq<JobId>>, u: Sys)
    requires batches != [] && R.AreBatches(s.store, clock, limit, batches)
    requires ReapedTo(s, clock, limit, batches[..|batches| - 1], u)
    ensures var k := |batches| - 1;
      && IsExpiredBatch(u.store.processing, clock(k), limit, batches[k])
      && u.now == (if k == 0 then s.now else clock(k - 1))
  {
    hide IsExpiredBatch, Reaped, R.Flat;
  }

  lemma ReapedFurther(s: Sys, clock: nat -> Micros, limit: int, batches: seq<seq<JobId>>, u: Sys, t: Sys)
    requires batches != [] && ReapedTo(s, clock, limit, batches[..|batches| - 1], u)
    requires var k := |batches| - 1;
      && t == u.(store := Reaped(u.store, batches[k]), now := clock(k), lastDrain := t.lastDrain)
      && (|batches[k]| < limit ==> t.lastDrain == t.now)
    ensures ReapedTo(s, clock, limit, batches, t)
  {
    var k := |batches| - 1;
    ReapedTwice(s.store, R.Flat(batches[..k]), batches[k]);
    hide Reaped;
  }

  // ---------------------------------------------------------------- the monitor pass

  /** These are the workers in the pool's list. */
  ghost predicate ListIs(s: Sys, p: PoolId, list: seq<WorkerId>) {
    Distinct(list) && forall w :: w in list <==> w in s.workers && s.workers[w].listed && s.workers[w].pool == p
  }

  /** The pool lists these workers, and this is what its monitor finds. */
  ghost predicate Lists(s: Sys, p: PoolId, ids: seq<WorkerId>, seen: seq<P.Seen>) {
    && ListIs(s, p, ids) && |ids| == |seen|
    && forall i | 0 <= i < |ids| ::
         && ids[i] in s.workers
         && s.workers[ids[i]].heartbeat == seen[i].heartbeat && s.workers[ids[i]].current == seen[i].job
  }

  /** A worker in the pool's list, running and without a job, that has just given a sign of life. */
  predicate HasJustStarted(x: Worker, p: PoolId, now: Micros) {
    x.running && x.listed && x.pool == p && x.current.None? && x.pending.None? && x.heartbeat == now
  }

  /** The worker has been stopped and taken off the list. The thread lives on, and the job it runs,
      if any, is marked as pending. */
  predicate IsStopped(x: Worker, y: Worker) {
    && !y.listed && !y.running && y == x.(listed := false, running := false, current := y.current)
    && match x.current
       case None => y.current.None?
       case Some(job) => y.current == Some(job.(status := Pending))
  }

  ghost predicate IsNew(s: Sys, t: Sys, p: PoolId, w: WorkerId) {
    w !in s.workers && w in t.workers && HasJustStarted(t.workers[w], p, s.now)
  }

  /** The first k have been checked: of those the ones silent for more than ten seconds are
      stopped and off the list, with a new worker at their place in it. Nobody else has changed. */
  ghost predicate CheckedTo(s: Sys, p: PoolId, ids: seq<WorkerId>, seen: seq<P.Seen>, k: nat, t: Sys, list: seq<WorkerId>)
    requires k <= |ids| == |seen|
  {
    && t == s.(store := P.AfterCheck(s.store, seen[..k], s.now), workers := t.workers)
    && ListIs(t, p, list) && |list| == |ids|
    && (forall i | 0 <= i < |ids| ::
         && ids[i] in t.workers && ids[i] in s.workers
         && if i < k && s.now - seen[i].heartbeat > 10_000_000
            then IsStopped(s.workers[ids[i]], t.workers[ids[i]]) && IsNew(s, t, p, list[i])
            else t.workers[ids[i]] == s.workers[ids[i]] && list[i] == ids[i])
    && (forall w | w in s.workers && w !in ids :: w in t.workers && t.workers[w] == s.workers[w])
  }

  ghost predicate AreReplacements(es: seq<Event>) {
    forall e | e in es :: e.Replace? && e.landed && e.replied
  }

  lemma ListReplaced(u: Sys, t: Sys, p: PoolId, list: seq<WorkerId>, k: nat, spare: WorkerId)
    requires ListIs(u, p, list) && k < |list| && spare !in u.workers
    requires t.workers.Keys == u.workers.Keys + {spare}
    requires forall w | w in u.workers && w != list[k] :: t.workers[w] == u.workers[w]
    requires IsStopped(u.workers[list[k]], t.workers[list[k]]) && HasJustStarted(t.workers[spare], p, t.now)
    ensures ListIs(t, p, list[k := spare])
  {
    var after := list[k := spare];
    forall w ensures w in after <==> w in t.workers && t.workers[w].listed && t.workers[w].pool == p {
      if w in list && w != list[k] {
        var i :| 0 <= i < |list| && list[i] == w;
        assert after[i] == w;
      }
      assert after[k] == spare;
    }
  }

  lemma OneReplacement(s: Sys, p: PoolId, ids: seq<WorkerId>, seen: seq<P.Seen>, k: nat, u: Sys, list: seq<WorkerId>)
    returns (e: Event, t: Sys, after: seq<WorkerId>)
    requires Lists(s, p, ids, seen) && k < |ids| == |seen| && CheckedTo(s, p, ids, seen, k, u, list)
    requires s.now - seen[k].heartbeat > 10_000_000
    ensures LeadsTo(u, [e], t) && AreReplacements([e]) && CheckedTo(s, p, ids, seen, k + 1, t, after)
  {
    hide *;
    var spare := FreshNumber(u.workers.Keys);
    e := Replace(ids[k], true, true, spare);
    NextToCheck(s, p, ids, seen, k, u, list);
    ReplaceIs(u, ids[k], spare);
    t, after := Apply(u, e), list[k := spare];
    CheckOneMore(s.store, seen, k, s.now);
    ListReplaced(u, t, p, list, k, spare);
    RunOfOneLeads(u, e);
    SpareIsNew(s, u, t, p, ids, seen, k, list, spare);
    ReplacedFurther(s, p, ids, seen, k, u, list, t, spare);
    OneReplaces(e);
  }

  lemma NextToCheck(s: Sys, p: PoolId, ids: seq<WorkerId>, seen: seq<P.Seen>, k: nat, u: Sys, list: seq<WorkerId>)
    requires Lists(s, p, ids, seen) && k < |ids| == |seen| && CheckedTo(s, p, ids, seen, k, u, list)
    ensures ids[k] in u.workers && ids[k] in s.workers && u.workers[ids[k]] == s.workers[ids[k]]
    ensures var x := u.workers[ids[k]];
      x.listed && x.pool == p && x.heartbeat == seen[k].heartbeat && x.current == seen[k].job
    ensures ListIs(u, p, list) && |list| == |ids| && list[k] == ids[k]
    ensures u == s.(store := P.AfterCheck(s.store, seen[..k], s.now), workers := u.workers)
  {
    hide P.AfterCheck, IsNew;
    assert ids[k] in ids;
  }

  /** What a replacement does to one silent worker. */
  lemma ReplaceIs(u: Sys, w: WorkerId, spare: WorkerId)
    requires w in u.workers && spare !in u.workers && u.workers[w].listed && u.now - u.workers[w].heartbeat > 10_000_000
    ensures Enabled(u, Replace(w, true, true, spare))
    ensures var x, t := u.workers[w], Apply(u, Replace(w, true, true, spare));
      && t == u.(store := if x.current.Some? then Requeued(u.store, P.Reset(x.current.value)) else u.store, workers := t.workers)
      && t.workers.Keys == u.workers.Keys + {spare}
      && IsStopped(x, t.workers[w])
      && (forall v | v in u.workers && v != w :: t.workers[v] == u.workers[v])
      && HasJustStarted(t.workers[spare], x.pool, u.now)
  {
    hide Requeued;
  }

  lemma SpareIsNew(s: Sys, u: Sys, t: Sys, p: PoolId, ids: seq<WorkerId>, seen: seq<P.Seen>, k: nat, list: seq<WorkerId>, spare: WorkerId)
    requires Lists(s, p, ids, seen) && k < |ids| == |seen| && CheckedTo(s, p, ids, seen, k, u, list) && spare !in u.workers
    requires spare in t.workers && HasJustStarted(t.workers[spare], p, s.now)
    ensures IsNew(s, t, p, spare)
  {
    hide P.AfterCheck, ListIs;
  }

  lemma OneReplaces(e: Event)
    requires e.Replace? && e.landed && e.replied
    ensures AreReplacements([e])
  {
  }

  lemma ReplacedFurther(s: Sys, p: PoolId, ids: seq<WorkerId>, seen: seq<P.Seen>, k: nat, u: Sys, list: seq<WorkerId>,
                        t: Sys, spare: WorkerId)
    requires Lists(s, p, ids, seen) && k < |ids| && CheckedTo(s, p, ids, seen, k, u, list)
    requires s.now - seen[k].heartbeat > 10_000_000 && spare !in u.workers
    requires t == s.(store := P.AfterCheck(s.store, seen[..k + 1], s.now), workers := t.workers)
    requires t.workers.Keys == u.workers.Keys + {spare} && IsNew(s, t, p, spare) && ListIs(t, p, list[k := spare])
    requires IsStopped(s.workers[ids[k]], t.workers[ids[k]])
    requires forall w | w in u.workers && w != ids[k] :: t.workers[w] == u.workers[w]
    ensures CheckedTo(s, p, ids, seen, k + 1, t, list[k := spare])
  {
    hide P.AfterCheck, P.StaleCount;
    assert forall w | w in ids :: w in s.workers;
  }

  lemma CheckOneMore(s: Store, seen: seq<P.Seen>, k: nat, now: Micros)
    requires k < |seen|
    ensures P.AfterCheck(s, seen[..k + 1], now) ==
      (if IsStale(seen[k].heartbeat, now) && seen[k].job.Some? then Requeued(P.AfterCheck(s, seen[..k], now), P.Reset(seen[k].job.value))
       else P.AfterCheck(s, seen[..k], now))
    ensures P.StaleCount(seen[..k + 1], now) == P.StaleCount(seen[..k], now) + (if IsStale(seen[k].heartbeat, now) then 1 else 0)
    ensures IsStale(seen[k].heartbeat, now) <==> now - seen[k].heartbeat > 10_000_000
  {
    assert seen[..k + 1][..k] == seen[..k];
  }

  lemma {:induction false} ChecksAreARun(s: Sys, p: PoolId, ids: seq<WorkerId>, seen: seq<P.Seen>, k: nat)
    returns (es: seq<Event>, t: Sys, list: seq<WorkerId>)
    requires Lists(s, p, ids, seen) && k <= |ids| == |seen|
    ensures LeadsTo(s, es, t) && AreReplacements(es) && |es| == P.StaleCount(seen[..k], s.now)
    ensures CheckedTo(s, p, ids, seen, k, t, list)
    decreases k
  {
    hide *;
    if k == 0 {
      es, t, list := [], s, ids;
      NoneChecked(s, p, ids, seen);
    } else {
      var u, before;
      es, u, before := ChecksAreARun(s, p, ids, seen, k - 1);
      CheckOneMore(s.store, seen, k - 1, s.now);
      if s.now - seen[k - 1].heartbeat > 10_000_000 {
        var e;
        e, t, list := OneReplacement(s, p, ids, seen, k - 1, u, before);
        Then(s, es, u, [e], t);
        BothReplace(es, e);
        es := es + [e];
      } else {
        t, list := u, before;
        NotReplaced(s, p, ids, seen, k - 1, u, before);
      }
    }
  }

  lemma NoneChecked(s: Sys, p: PoolId, ids: seq<WorkerId>, seen: seq<P.Seen>)
    requires Lists(s, p, ids, seen)
    ensures LeadsTo(s, [], s) && AreReplacements([]) && 0 == P.StaleCount(seen[..0], s.now)
    ensures CheckedTo(s, p, ids, seen, 0, s, ids)
  {
    assert seen[..0] == [];
  }

  lemma BothReplace(es: seq<Event>, e: Event)
    requires AreReplacements(es) && AreReplacements([e])
    ensures AreReplacements(es + [e])
  {
    assert e in [e];
  }

  lemma NotReplaced(s: Sys, p: PoolId, ids: seq<WorkerId>, seen: seq<P.Seen>, k: nat, u: Sys, list: seq<WorkerId>)
    requires Lists(s, p, ids, seen) && k < |ids| && CheckedTo(s, p, ids, seen, k, u, list)
    requires s.now - seen[k].heartbeat <= 10_000_000
    ensures CheckedTo(s, p, ids, seen, k + 1, u, list)
  {
    CheckOneMore(s.store, seen, k, s.now);
    hide P.AfterCheck, P.StaleCount, ListIs, IsNew;
  }

  /** A pass of check_once is one Replace for each worker of the list that has been silent for
      more than ten seconds, in the order of the list. It leaves the store as the method does, and
      the list as long as it was: each such worker is stopped, and its place is taken by a new
      worker without a job. */
  lemma MonitorPassIsARun(s: Sys, p: PoolId, ids: seq<WorkerId>, seen: seq<P.Seen>)
    returns (es: seq<Event>, t: Sys, list: seq<WorkerId>)
    requires Lists(s, p, ids, seen)
    ensures LeadsTo(s, es, t) && forall e | e in es :: e.Replace? && e.landed && e.replied
    ensures |es| == |set i | 0 <= i < |seen| && s.now - seen[i].heartbeat > 10_000_000|
    ensures t == s.(store := P.AfterCheck(s.store, seen, s.now), workers := t.workers)
    ensures ListIs(t, p, list) && |list| == |ids|
    ensures forall i | 0 <= i < |ids| ::
      && ids[i] in t.workers
      && if s.now - seen[i].heartbeat > 10_000_000
         then IsStopped(s.workers[ids[i]], t.workers[ids[i]]) && IsNew(s, t, p, list[i])
         else t.workers[ids[i]] == s.workers[ids[i]] && list[i] == ids[i]
    ensures forall w | w in s.workers && w !in ids :: w in t.workers && t.workers[w] == s.workers[w]
  {
    es, t, list := ChecksAreARun(s, p, ids, seen, |ids|);
    assert seen[..|seen|] == seen;
    P.StaleCountIs(seen, s.now);
  }

  // ---------------------------------------------------------------- renewal

  /** A renewal pass, due a third of the lease but at least a second after the last one, does to
      the leases what renew_leases does: those of the jobs that the workers of its own pool's list
      run are moved to one lease from now, and no other. A pass not due, or lost, moves none. */
  lemma RenewalIsARun(s: Sys, p: PoolId, ids: seq<WorkerId>, seen: seq<P.Seen>, landed: bool)
    requires Lists(s, p, ids, seen) && Enabled(s, MonitorPass(p, landed))
    ensures var t, since := Apply(s, MonitorPass(p, landed)), s.now - s.pools[p].lastRenew;
      && t.store == s.store.(processing := t.store.processing) && t.workers == s.workers
      && t.store.processing.Keys == s.store.processing.Keys
      && forall id | id in s.store.processing :: t.store.processing[id] ==
           if landed && since >= 1_000_000 && 3 * since >= s.lease
              && exists i :: 0 <= i < |seen| && seen[i].job.Some? && seen[i].job.value.id == id
           then s.now + s.lease else s.store.processing[id]
    ensures var t, since := Apply(s, MonitorPass(p, landed)), s.now - s.pools[p].lastRenew;
      landed && since >= 1_000_000 && 3 * since >= s.lease ==>
        t.store == Renewed(s.store, set i | 0 <= i < |seen| && seen[i].job.Some? :: seen[i].job.value.id, s.now + s.lease)
  {
    RunsAreHeld(s, p, ids, seen);
    hide HeldBy, Lists;
  }

  lemma RunsAreHeld(s: Sys, p: PoolId, ids: seq<WorkerId>, seen: seq<P.Seen>)
    requires Lists(s, p, ids, seen)
    ensures HeldBy(s, p) == set i | 0 <= i < |seen| && seen[i].job.Some? :: seen[i].job.value.id
  {
    var held := set i | 0 <= i < |seen| && seen[i].job.Some? :: seen[i].job.value.id;
    forall id | id in HeldBy(s, p) ensures id in held {
      var w :| w in s.workers && s.workers[w].listed && s.workers[w].pool == p && s.workers[w].current.Some?
        && s.workers[w].current.value.id == id;
      var i :| 0 <= i < |ids| && ids[i] == w;
      assert seen[i].job.Some?;
    }
    forall i | 0 <= i < |seen| && seen[i].job.Some? ensures seen[i].job.value.id in HeldBy(s, p) {
      assert ids[i] in ids;
    }
  }
}
