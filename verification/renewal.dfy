/** A running job of a live pool keeps its lease. */
module Renewal {
  import opened Prelude
  import opened Jobs
  import opened LeaseModel
  import opened System
  import opened Copies
  import opened Leases
  import opened Recovery

  /** Monitors go round at least once every `period`. They sleep a second in between, so they
      never go round more often than that. */
  ghost predicate MonitorsPrompt(s: Sys, period: Micros) {
    forall p | p in s.pools :: s.now <= s.pools[p].lastPass + period
  }

  /** At most this many renewals in a row fail. */
  ghost predicate MissAllowed(s: Sys, e: Event, most: nat)
    requires Enabled(s, e)
  {
    e.MonitorPass? && !e.landed && RenewalDue(s.now - s.pools[e.p].lastRenew, s.lease) ==>
      s.pools[e.p].misses < most
  }

  /** Throughout the run the monitors are prompt, and no more renewals in a row fail. */
  ghost predicate WellKept(s: Sys, es: seq<Event>, period: Micros, most: nat)
    requires Valid(s, es)
    decreases |es|
  {
    MonitorsPrompt(s, period)
    && (es == [] || (MissAllowed(s, es[0], most) && WellKept(Apply(s, es[0]), es[1..], period, most)))
  }

  /** The longest time after a renewal attempt at which no other is due yet. */
  function Wait(lease: Micros): (wait: Micros)
    ensures wait >= 0
  {
    (Max(3 * SECOND, lease) - 1) / 3
  }

  /** How late the last pass before a renewal is due can be: passes are a second apart at least,
      which bounds their number, and a period at most. */
  function LatestPass(lease: Micros, period: Micros): Micros {
    Min(Wait(lease), Wait(lease) / MONITOR_SLEEP * period)
  }

  /** The longest time from one renewal attempt to the next: that pass, and the next one. */
  function Gap(lease: Micros, period: Micros): Micros {
    LatestPass(lease, period) + period
  }

  ghost predicate PoolTimes(s: Sys, pool: Pool, period: Micros, most: nat) {
    && pool.lastGood <= pool.lastPass <= s.now && pool.lastRenew <= pool.lastPass
    && pool.misses <= most
    && RoundsFit(pool.lastPass - Max(pool.lastRenew, pool.lastGood), pool.rounds, period)
    && pool.lastPass - Max(pool.lastRenew, pool.lastGood) <= Wait(s.lease)
    && pool.lastRenew - pool.lastGood <= pool.misses * Gap(s.lease, period)
  }

  /** So many rounds of the monitor can take this long. */
  predicate RoundsFit(time: Micros, rounds: nat, period: Micros) {
    rounds * MONITOR_SLEEP <= time <= rounds * period
  }

  /** Each job a listed worker runs, if leased, is leased for a full lease from the pool's last
      renewal on. */
  ghost predicate HoldsLease(s: Sys, x: Worker) {
    x.pool in s.pools && (x.listed && x.current.Some? && x.current.value.id in s.store.processing ==>
      s.store.processing[x.current.value.id] >= s.pools[x.pool].lastGood + s.lease)
  }

  ghost predicate RenewalOk(s: Sys, period: Micros, most: nat) {
    && (forall p | p in s.pools :: PoolTimes(s, s.pools[p], period, most))
    && (forall w | w in s.workers :: HoldsLease(s, s.workers[w]))
  }

  lemma OneMissMore(gap: Micros, misses: nat)
    ensures (misses + 1) * gap == misses * gap + gap
  {
  }

  lemma DueIsPastTheWait(elapsed: Micros, lease: Micros)
    ensures RenewalDue(elapsed, lease) <==> elapsed > Wait(lease)
  {
  }

  lemma OneRoundMore(time: Micros, more: Micros, rounds: nat, period: Micros)
    requires RoundsFit(time, rounds, period) && MONITOR_SLEEP <= more <= period
    ensures RoundsFit(time + more, rounds + 1, period)
  {
    OneMissMore(period, rounds);
  }

  /** No pass before a renewal is due is later than the latest. */
  lemma LatestPassIsLatest(time: Micros, rounds: nat, lease: Micros, period: Micros)
    requires RoundsFit(time, rounds, period) && time <= Wait(lease) && period >= MONITOR_SLEEP
    ensures time <= LatestPass(lease, period)
  {
    var most := Wait(lease) / MONITOR_SLEEP;
    assert rounds <= most;
    assert (most - rounds) * period >= 0;
    assert most * period == rounds * period + (most - rounds) * period;
  }

  lemma PassKeepsTimes(s: Sys, p: PoolId, landed: bool, period: Micros, most: nat)
    requires Enabled(s, MonitorPass(p, landed)) && MissAllowed(s, MonitorPass(p, landed), most)
    requires PoolTimes(s, s.pools[p], period, most) && s.now <= s.pools[p].lastPass + period && period >= MONITOR_SLEEP
    ensures PoolTimes(s, AfterPass(s, p, landed).pools[p], period, most)
  {
    hide RenewalDue, Wait, HeldBy, Renewed, LatestPass, RoundsFit;
    var pool := s.pools[p];
    var time, more := pool.lastPass - Max(pool.lastRenew, pool.lastGood), s.now - pool.lastPass;
    OneMissMore(Gap(s.lease, period), pool.misses);
    DueIsPastTheWait(s.now - pool.lastRenew, s.lease);
    LatestPassIsLatest(time, pool.rounds, s.lease, period);
    OneRoundMore(time, more, pool.rounds, period);
    NoRounds(period);
  }

  lemma NoRounds(period: Micros)
    ensures RoundsFit(0, 0, period)
  {
  }

  lemma PassKeepsLease(s: Sys, p: PoolId, landed: bool, x: Worker)
    requires p in s.pools && s.pools[p].lastGood <= s.now
    requires HoldsLease(s, x) && s.pools[x.pool].lastGood <= s.now
    requires x.listed && x.current.Some? && x.pool == p ==> x.current.value.id in HeldBy(s, p)
    ensures HoldsLease(AfterPass(s, p, landed), x)
  {
  }

  lemma PassKeepsRenewal(s: Sys, p: PoolId, landed: bool, period: Micros, most: nat)
    requires RenewalOk(s, period, most) && MonitorsPrompt(s, period) && period >= MONITOR_SLEEP
    requires Enabled(s, MonitorPass(p, landed)) && MissAllowed(s, MonitorPass(p, landed), most)
    ensures RenewalOk(AfterPass(s, p, landed), period, most)
  {
    var t := AfterPass(s, p, landed);
    assert t.workers == s.workers && t.now == s.now && t.lease == s.lease && t.pools == s.pools[p := t.pools[p]];
    forall q | q in t.pools ensures PoolTimes(t, t.pools[q], period, most) {
      assert PoolTimes(s, s.pools[q], period, most);
      PassKeepsTimes(s, p, landed, period, most);
    }
    forall w | w in t.workers ensures HoldsLease(t, t.workers[w]) {
      var x := s.workers[w];
      assert HoldsLease(s, x) && PoolTimes(s, s.pools[x.pool], period, most) && PoolTimes(s, s.pools[p], period, most);
      hide HoldsLease, AfterPass;
      PassKeepsLease(s, p, landed, x);
    }
  }

  /** The worker has kept its job and its pool, or has just leased its job, or has none. */
  ghost predicate JobKept(s: Sys, t: Sys, w: WorkerId)
    requires w in t.workers
  {
    var y := t.workers[w];
    && y.pool in s.pools
    && (y.listed && y.current.Some? ==>
          || (y.current.value.id in t.store.processing && t.store.processing[y.current.value.id] >= s.now + s.lease)
          || (w in s.workers && s.workers[w].listed && s.workers[w].current.Some? && y.pool == s.workers[w].pool
              && s.workers[w].current.value.id == y.current.value.id))
  }

  ghost predicate PoolsKnown(s: Sys) {
    forall v | v in s.workers :: s.workers[v].pool in s.pools
  }

  lemma TakersKeepJobs(s: Sys, e: Event, w: WorkerId)
    requires Enabled(s, e) && PoolsKnown(s) && (e.Take? || e.TakeLostRequest? || e.TakeLostReply?)
    requires w in Apply(s, e).workers
    ensures JobKept(s, Apply(s, e), w)
  {
    hide CanPop;
  }

  lemma RecordersKeepJobs(s: Sys, e: Event, w: WorkerId)
    requires Enabled(s, e) && PoolsKnown(s) && (e.Succeed? || e.Fail? || e.FailUnrecorded? || e.Exit?)
    requires w in Apply(s, e).workers
    ensures JobKept(s, Apply(s, e), w)
  {
    hide Decided;
  }

  lemma OthersKeepJobs(s: Sys, e: Event, w: WorkerId)
    requires Enabled(s, e) && PoolsKnown(s) && (e.Spawn? || e.Stop? || e.Replace? || e.CrashWorker?)
    requires w in Apply(s, e).workers
    ensures JobKept(s, Apply(s, e), w)
  {
  }

  lemma NobodyMoves(s: Sys, e: Event)
    requires Enabled(s, e)
    requires e.Submit? || e.Reap? || e.PollRead? || e.PollPush? || e.PollRemove? || e.Tick? || e.CrashScheduler?
    ensures Apply(s, e).workers == s.workers
  {
  }

  lemma WorkersKeepJobs(s: Sys, e: Event, w: WorkerId)
    requires Enabled(s, e) && PoolsKnown(s) && !PoolStep(e) && w in Apply(s, e).workers
    ensures JobKept(s, Apply(s, e), w)
  {
    hide Apply, Enabled;
    if e.Take? || e.TakeLostRequest? || e.TakeLostReply? {
      TakersKeepJobs(s, e, w);
    } else if e.Succeed? || e.Fail? || e.FailUnrecorded? || e.Exit? {
      RecordersKeepJobs(s, e, w);
    } else if e.Spawn? || e.Stop? || e.Replace? || e.CrashWorker? {
      OthersKeepJobs(s, e, w);
    } else {
      NobodyMoves(s, e);
    }
  }

  lemma PoolsComeAndGo(s: Sys, e: Event, period: Micros, most: nat)
    requires RenewalOk(s, period, most) && Enabled(s, e) && (e.StartPool? || e.CrashPool?)
    ensures RenewalOk(Apply(s, e), period, most)
  {
    var t := Apply(s, e);
    forall p | p in t.pools ensures PoolTimes(t, t.pools[p], period, most) {
      if p in s.pools { assert PoolTimes(s, s.pools[p], period, most); }
    }
    forall w | w in t.workers ensures HoldsLease(t, t.workers[w]) {
      assert HoldsLease(s, s.workers[w]);
    }
  }

  /** Other steps never bring a deadline below one lease from a past renewal. */
  lemma StoreKeepsRenewal(s: Sys, t: Sys, period: Micros, most: nat)
    requires RenewalOk(s, period, most) && t.pools == s.pools && t.lease == s.lease && t.now >= s.now
    requires forall id | id in t.store.processing ::
      t.store.processing[id] >= s.now + s.lease || (id in s.store.processing && t.store.processing[id] == s.store.processing[id])
    requires forall w | w in t.workers :: JobKept(s, t, w)
    ensures RenewalOk(t, period, most)
  {
    forall p | p in t.pools ensures PoolTimes(t, t.pools[p], period, most) {
      assert PoolTimes(s, s.pools[p], period, most);
    }
    forall w | w in t.workers ensures HoldsLease(t, t.workers[w]) {
      assert JobKept(s, t, w);
      assert PoolTimes(s, s.pools[t.workers[w].pool], period, most);
      if w in s.workers { assert HoldsLease(s, s.workers[w]); }
    }
  }

  lemma RenewalKnowsPools(s: Sys, period: Micros, most: nat)
    requires RenewalOk(s, period, most)
    ensures PoolsKnown(s)
  {
    assert forall w | w in s.workers :: HoldsLease(s, s.workers[w]);
  }

  /** Reaping leaves the deadlines of the leases it does not take. */
  lemma ReapMovesDeadlines(s: Sys, ids: seq<JobId>, limit: int)
    requires WellFormed(s.store) && Enabled(s, Reap(ids, limit))
    ensures var t := Apply(s, Reap(ids, limit));
      && t.pools == s.pools && t.lease == s.lease && t.now == s.now
      && forall id | id in t.store.processing :: id in s.store.processing && t.store.processing[id] == s.store.processing[id]
  {
    ReapMovesLeasesToTheQueue(s.store, ids);
    hide WellFormed, Reaped;
  }

  lemma OtherStepKeepsRenewal(s: Sys, e: Event, period: Micros, most: nat)
    requires RenewalOk(s, period, most) && WellFormed(s.store) && Enabled(s, e) && !PoolStep(e)
    ensures RenewalOk(Apply(s, e), period, most)
  {
    hide Apply, Enabled, RenewalOk, WellFormed, JobKept, PoolsKnown;
    var t := Apply(s, e);
    if e.Reap? {
      ReapMovesDeadlines(s, e.ids, e.limit);
    } else {
      DeadlinesMove(s, e);
      PoolsStay(s, e);
    }
    RenewalKnowsPools(s, period, most);
    forall w | w in t.workers ensures JobKept(s, t, w) {
      WorkersKeepJobs(s, e, w);
    }
    StoreKeepsRenewal(s, t, period, most);
  }

  lemma StepKeepsRenewal(s: Sys, e: Event, period: Micros, most: nat)
    requires RenewalOk(s, period, most) && WellFormed(s.store) && Enabled(s, e) && MissAllowed(s, e, most)
    requires MonitorsPrompt(s, period) && period >= MONITOR_SLEEP
    ensures RenewalOk(Apply(s, e), period, most)
  {
    hide RenewalOk, AfterPass, WellFormed, MonitorsPrompt, MissAllowed;
    if e.MonitorPass? {
      PassKeepsRenewal(s, e.p, e.landed, period, most);
    } else {
      hide Apply, Enabled;
      if PoolStep(e) {
        PoolsComeAndGo(s, e, period, most);
      } else {
        OtherStepKeepsRenewal(s, e, period, most);
      }
    }
  }

  lemma {:induction false} RunKeepsRenewal(s: Sys, es: seq<Event>, period: Micros, most: nat)
    requires RenewalOk(s, period, most) && CopiesOk(s) && Valid(s, es)
    requires WellKept(s, es, period, most) && period >= MONITOR_SLEEP
    ensures RenewalOk(Exec(s, es), period, most) && MonitorsPrompt(Exec(s, es), period) && Exec(s, es).lease == s.lease
    decreases |es|
  {
    if es != [] {
      WhatCopiesOkSays(s);
      StepKeepsRenewal(s, es[0], period, most);
      StepKeepsCopies(s, es[0]);
      LeaseIsConstant(s, es[0]);
      RunKeepsRenewal(Apply(s, es[0]), es[1..], period, most);
    }
  }

  lemma LeaseIsConstant(s: Sys, e: Event)
    requires Enabled(s, e)
    ensures Apply(s, e).lease == s.lease
  {
  }

  /** The longest a job can go unrenewed when that many renewals in a row may fail. */
  function LongestGap(lease: Micros, period: Micros, most: nat): Micros {
    (most + 1) * Gap(lease, period)
  }

  lemma LiveLeaseIsAhead(t: Sys, x: Worker, period: Micros, most: nat)
    requires MonitorsPrompt(t, period) && period >= MONITOR_SLEEP
    requires HoldsLease(t, x) && PoolTimes(t, t.pools[x.pool], period, most)
    requires t.lease > LongestGap(t.lease, period, most)
    requires x.listed && x.current.Some? && x.current.value.id in t.store.processing
    ensures t.store.processing[x.current.value.id] > t.now
  {
    hide RoundsFit, LatestPass, Wait;
    var pool := t.pools[x.pool];
    LatestPassIsLatest(pool.lastPass - Max(pool.lastRenew, pool.lastGood), pool.rounds, t.lease, period);
    GapsGrow(t.lease, period, pool.misses, most);
  }

  lemma GapsGrow(lease: Micros, period: Micros, a: nat, b: nat)
    requires a <= b && period >= 0
    ensures LongestGap(lease, period, a) <= LongestGap(lease, period, b)
    ensures LongestGap(lease, period, a) == a * Gap(lease, period) + Gap(lease, period)
  {
    var gap := Gap(lease, period);
    assert gap >= 0;
    hide Gap;
    assert (b - a) * gap >= 0;
    assert (b + 1) * gap == (a + 1) * gap + (b - a) * gap;
  }

  /** With monitors that go round every period, and a lease longer than the longest gap between
      renewals: in every run in which no more renewals in a row fail than that gap allows for,
      the reaper never finds the lease of a job expired that a worker of a live pool runs. */
  lemma LiveWorkersAreNeverReaped(s: Sys, es: seq<Event>, period: Micros, most: nat, w: WorkerId, ids: seq<JobId>, limit: int)
    requires Initial(s) && Valid(s, es) && WellKept(s, es, period, most) && period >= MONITOR_SLEEP
    requires s.lease > LongestGap(s.lease, period, most)
    requires var t := Exec(s, es);
      && w in t.workers && t.workers[w].listed && t.workers[w].current.Some?
      && Enabled(t, Reap(ids, limit))
    ensures Exec(s, es).workers[w].current.value.id !in ids
  {
    RunKeepsRenewal(s, es, period, most);
    var t := Exec(s, es);
    var x := t.workers[w];
    assert HoldsLease(t, x);
    if x.current.value.id in t.store.processing {
      LiveLeaseIsAhead(t, x, period, most);
    }
  }

  /** With passes exactly a second apart, the gap is the least whole number of seconds that is
      not below renew_interval. */
  lemma GapInSeconds(lease: Micros)
    ensures var gap := Gap(lease, MONITOR_SLEEP);
      && gap % SECOND == 0 && 3 * gap >= Max(3 * SECOND, lease) && 3 * (gap - SECOND) < Max(3 * SECOND, lease)
  {
  }

  lemma TwoGaps(lease: Micros)
    ensures lease > 2 * Gap(lease, MONITOR_SLEEP) <==> 2 * SECOND < lease <= 3 * SECOND || lease > 4 * SECOND
  {
    GapInSeconds(lease);
    var k := Gap(lease, MONITOR_SLEEP) / SECOND;
    assert Gap(lease, MONITOR_SLEEP) == k * SECOND;
    hide Gap;
    if k >= 4 {
      assert 3 * (k - 1) >= 2 * k + 1;
    } else {
      assert k == 1 || k == 2 || k == 3;
    }
  }

  /** With passes exactly a second apart, a lease is long enough without failed renewals if and
      only if it is over one second, and with no two in a row if and only if it is over four, or
      over two and at most three. No lease, and no monitor, survives two failures in a row. */
  lemma LongEnoughLeases(lease: Micros, period: Micros, most: nat)
    ensures lease > LongestGap(lease, MONITOR_SLEEP, 0) <==> lease > SECOND
    ensures lease > LongestGap(lease, MONITOR_SLEEP, 1) <==> 2 * SECOND < lease <= 3 * SECOND || lease > 4 * SECOND
    ensures most >= 2 && period >= MONITOR_SLEEP ==> lease <= LongestGap(lease, period, most)
  {
    GapInSeconds(lease);
    TwoGaps(lease);
    if most >= 2 && period >= MONITOR_SLEEP {
      GapIsPastTheWait(lease, period);
      GapsGrow(lease, period, 2, most);
    }
  }

  /** The default lease of 30 s survives one failed renewal if and only if no pass comes more than
      five seconds after the one before. */
  lemma DefaultLeaseSurvivesOneFailure(period: Micros)
    requires period >= MONITOR_SLEEP
    ensures 30 * SECOND > LongestGap(30 * SECOND, period, 1) <==> period <= 5 * SECOND
  {
  }

  /** By the time the gap is over a renewal is due. */
  lemma GapIsPastTheWait(lease: Micros, period: Micros)
    requires period >= MONITOR_SLEEP
    ensures Gap(lease, period) > Wait(lease) && 3 * Gap(lease, period) >= lease
  {
    var rounds := Wait(lease) / MONITOR_SLEEP;
    OneMissMore(period, rounds);
    assert (rounds + 1) * period >= (rounds + 1) * MONITOR_SLEEP by {
      assert (rounds + 1) * (period - MONITOR_SLEEP) >= 0;
    }
  }

  // ---------------------------------------------------------------- the bound is exact

  /** A well-kept run to t. */
  ghost predicate Reaches(s: Sys, es: seq<Event>, period: Micros, most: nat, t: Sys) {
    Valid(s, es) && WellKept(s, es, period, most) && Exec(s, es) == t
  }

  lemma {:induction false} ReachesTwice(s: Sys, a: seq<Event>, t: Sys, b: seq<Event>, u: Sys, period: Micros, most: nat)
    requires Reaches(s, a, period, most, t) && Reaches(t, b, period, most, u)
    ensures Reaches(s, a + b, period, most, u)
    decreases |a|
  {
    hide Enabled, Apply, MonitorsPrompt, MissAllowed;
    RunTwice(s, a, b);
    if a == [] {
      assert a + b == b;
    } else {
      assert (a + b)[1..] == a[1..] + b;
      ReachesTwice(Apply(s, a[0]), a[1..], t, b, u, period, most);
    }
  }

  lemma ReachesBy(t: Sys, e: Event, period: Micros, most: nat)
    requires MonitorsPrompt(t, period) && Enabled(t, e) && MissAllowed(t, e, most) && MonitorsPrompt(Apply(t, e), period)
    ensures Reaches(t, [e], period, most, Apply(t, e))
  {
    hide Enabled, Apply, MonitorsPrompt, MissAllowed;
    RunOfOne(t, e);
    assert [e][1..] == [] && WellKept(Apply(t, e), [], period, most);
  }

  /** One more event at the end of a run. */
  lemma ReachesMore(s: Sys, es: seq<Event>, t: Sys, e: Event, period: Micros, most: nat)
    requires Reaches(s, es, period, most, t)
    requires MonitorsPrompt(t, period) && Enabled(t, e) && MissAllowed(t, e, most) && MonitorsPrompt(Apply(t, e), period)
    ensures Reaches(s, es + [e], period, most, Apply(t, e))
  {
    hide *;
    ReachesBy(t, e, period, most);
    ReachesTwice(s, es, t, [e], Apply(t, e), period, most);
  }

  /** A worker runs the job and one pool has just gone round. */
  ghost predicate AtWork(s: Sys, id: JobId, renewed: Micros, good: Micros, misses: nat, rounds: nat) {
    s.pools == map[0 := Pool(s.now, renewed, good, misses, rounds)] && Leased(s, id, good)
  }

  ghost predicate Leased(s: Sys, id: JobId, good: Micros) {
    && s.store.processing == map[id := good + s.lease]
    && 0 in s.workers && s.workers[0].listed && s.workers[0].current.Some? && s.workers[0].current.value.id == id
  }

  lemma LeadsToWork(s: Sys, job: Job, period: Micros, most: nat) returns (es: seq<Event>, t: Sys)
    requires Initial(s) && job.attempt == 0 && job.status == Pending && job.submitTime <= s.now && period >= MONITOR_SLEEP
    ensures Reaches(s, es, period, most, t) && AtWork(t, job.id, t.now, t.now, 0, 0) && t.lease == s.lease
  {
    var e1, e2, e3, e4 := StartPool(0, Max(3 * SECOND, s.lease)), Spawn(0, 0), Submit(job, true), Take(0, Some(job));
    var s1 := Apply(s, e1);
    var s2 := Apply(s1, e2);
    var s3 := Apply(s2, e3);
    assert s3.store.queue == map[job := Score(job)] && IsMax(s3.store.queue, job) && s3.store.processing == map[];
    t := Apply(s3, e4);
    assert AtWork(t, job.id, t.now, t.now, 0, 0) && t.lease == s.lease;
    assert MonitorsPrompt(s, period) && MonitorsPrompt(s1, period) && MonitorsPrompt(s2, period);
    assert MonitorsPrompt(s3, period) && MonitorsPrompt(t, period);
    assert MissAllowed(s, e1, most) && MissAllowed(s1, e2, most) && MissAllowed(s2, e3, most) && MissAllowed(s3, e4, most);
    es := [];
    assert Reaches(s, es, period, most, s);
    hide *;
    ReachesMore(s, es, s, e1, period, most); es := es + [e1];
    ReachesMore(s, es, s1, e2, period, most); es := es + [e2];
    ReachesMore(s, es, s2, e3, period, most); es := es + [e3];
    ReachesMore(s, es, s3, e4, period, most); es := es + [e4];
  }

  lemma NothingMissed(s: Sys, id: JobId, renewed: Micros, good: Micros, misses: nat, rounds: nat, period: Micros, most: nat)
    requires AtWork(s, id, renewed, good, misses, rounds) && period >= MONITOR_SLEEP
    ensures Reaches(s, [], period, most, s)
  {
  }

  /** The next pass as late as the passes after it allow. */
  lemma FirstStep(time: Micros, left: nat, period: Micros) returns (step: Micros)
    requires RoundsFit(time, left, period) && left > 0 && period >= MONITOR_SLEEP
    ensures MONITOR_SLEEP <= step <= period && RoundsFit(time - step, left - 1, period)
  {
    step := Min(period, time - (left - 1) * MONITOR_SLEEP);
    OneMissMore(period, left - 1);
    assert (left - 1) * (period - MONITOR_SLEEP) >= 0;
    assert (left - 1) * (period - MONITOR_SLEEP) == (left - 1) * period - (left - 1) * MONITOR_SLEEP;
  }

  lemma PassIs(s: Sys, renewed: Micros, good: Micros, misses: nat, rounds: nat, last: Micros)
    requires s.pools == map[0 := Pool(last, renewed, good, misses, rounds)] && s.now >= last + MONITOR_SLEEP
    requires s.now - renewed <= Wait(s.lease)
    ensures var e := MonitorPass(0, true);
      Enabled(s, e) && Apply(s, e) == s.(pools := map[0 := Pool(s.now, renewed, good, misses, rounds + 1)])
  {
    DueIsPastTheWait(s.now - renewed, s.lease);
    hide Wait;
  }

  lemma TickAndPass(s: Sys, id: JobId, step: Micros, renewed: Micros, good: Micros, misses: nat, rounds: nat,
                    period: Micros, most: nat) returns (u: Sys)
    requires AtWork(s, id, renewed, good, misses, rounds) && MONITOR_SLEEP <= step <= period
    requires s.now + step - renewed <= Wait(s.lease)
    ensures Reaches(s, [Tick(step), MonitorPass(0, true)], period, most, u)
    ensures AtWork(u, id, renewed, good, misses, rounds + 1) && u.now == s.now + step && u.lease == s.lease
  {
    hide Wait, Reaches;
    var s1 := s.(now := s.now + step);
    u := s1.(pools := map[0 := Pool(s1.now, renewed, good, misses, rounds + 1)]);
    TickIs(s, step);
    PassIs(s1, renewed, good, misses, rounds, s.now);
    DueIsPastTheWait(s1.now - renewed, s.lease);
    assert MonitorsPrompt(s, period) && MonitorsPrompt(s1, period) && MonitorsPrompt(u, period);
    assert MissAllowed(s, Tick(step), most) && MissAllowed(s1, MonitorPass(0, true), most);
    hide Enabled, Apply, MonitorsPrompt, MissAllowed;
    ReachesBy(s, Tick(step), period, most);
    ReachesMore(s, [Tick(step)], s1, MonitorPass(0, true), period, most);
    assert [Tick(step)] + [MonitorPass(0, true)] == [Tick(step), MonitorPass(0, true)];
  }

  /** Going round so many more times before a renewal is due, in exactly this time. */
  lemma LeadsToLaterPass(s: Sys, id: JobId, renewed: Micros, good: Micros, misses: nat, rounds: nat,
                         left: nat, time: Micros, period: Micros, most: nat)
    returns (es: seq<Event>, t: Sys)
    requires AtWork(s, id, renewed, good, misses, rounds) && RoundsFit(time, left, period) && period >= MONITOR_SLEEP
    requires s.now + time - renewed <= Wait(s.lease)
    ensures Reaches(s, es, period, most, t)
    ensures AtWork(t, id, renewed, good, misses, rounds + left) && t.now == s.now + time && t.lease == s.lease
    decreases left
  {
    if left == 0 {
      es, t := [], s;
      NothingMissed(s, id, renewed, good, misses, rounds, period, most);
    } else {
      hide *;
      var step := FirstStep(time, left, period);
      var u := TickAndPass(s, id, step, renewed, good, misses, rounds, period, most);
      var rest;
      rest, t := LeadsToLaterPass(u, id, renewed, good, misses, rounds + 1, left - 1, time - step, period, most);
      ReachesTwice(s, [Tick(step), MonitorPass(0, true)], u, rest, t, period, most);
      es := [Tick(step), MonitorPass(0, true)] + rest;
    }
  }

  lemma LatestPassFits(lease: Micros, period: Micros)
    requires period >= MONITOR_SLEEP
    ensures RoundsFit(LatestPass(lease, period), Wait(lease) / MONITOR_SLEEP, period) && LatestPass(lease, period) <= Wait(lease)
  {
    var rounds := Wait(lease) / MONITOR_SLEEP;
    assert rounds * (period - MONITOR_SLEEP) >= 0;
    assert rounds * (period - MONITOR_SLEEP) == rounds * period - rounds * MONITOR_SLEEP;
  }

  /** From one renewal attempt to the last instant before the next must be made. */
  lemma LeadsToLastInstant(s: Sys, id: JobId, good: Micros, misses: nat, period: Micros, most: nat)
    returns (es: seq<Event>, t: Sys, rounds: nat)
    requires AtWork(s, id, s.now, good, misses, 0) && period >= MONITOR_SLEEP
    ensures Reaches(s, es, period, most, t)
    ensures t.now == s.now + Gap(s.lease, period) && t.lease == s.lease && Leased(t, id, good)
    ensures t.pools == map[0 := Pool(t.now - period, s.now, good, misses, rounds)]
  {
    hide Enabled, Apply, Reaches, Wait, LatestPass, RoundsFit;
    var t0;
    rounds := Wait(s.lease) / MONITOR_SLEEP;
    LatestPassFits(s.lease, period);
    es, t0 := LeadsToLaterPass(s, id, s.now, good, misses, 0, rounds, LatestPass(s.lease, period), period, most);
    var e := Tick(period);
    t := t0.(now := t0.now + period);
    TickIs(t0, period);
    assert MonitorsPrompt(t0, period) && MonitorsPrompt(t, period) && MissAllowed(t0, e, most);
    hide MonitorsPrompt, MissAllowed;
    ReachesMore(s, es, t0, e, period, most);
    es := es + [e];
  }

  /** From one failed renewal to the next. */
  lemma LeadsToMiss(s: Sys, id: JobId, good: Micros, misses: nat, period: Micros, most: nat) returns (es: seq<Event>, t: Sys)
    requires AtWork(s, id, s.now, good, misses, 0) && misses < most && period >= MONITOR_SLEEP
    ensures Reaches(s, es, period, most, t)
    ensures t.now == s.now + Gap(s.lease, period) && t.lease == s.lease && AtWork(t, id, t.now, good, misses + 1, 0)
  {
    hide Enabled, Apply, Reaches, Gap, MonitorsPrompt, MissAllowed;
    var t0, rounds;
    es, t0, rounds := LeadsToLastInstant(s, id, good, misses, period, most);
    t := t0.(pools := map[0 := Pool(t0.now, t0.now, good, misses + 1, 0)]);
    MissedRenewal(t0, t, s.now, good, misses, rounds, period, most);
    ReachesMore(s, es, t0, MonitorPass(0, false), period, most);
    es := es + [MonitorPass(0, false)];
  }

  lemma MissedRenewal(t: Sys, t': Sys, renewed: Micros, good: Micros, misses: nat, rounds: nat, period: Micros, most: nat)
    requires t.pools == map[0 := Pool(t.now - period, renewed, good, misses, rounds)] && period >= MONITOR_SLEEP
    requires t.now == renewed + Gap(t.lease, period) && misses < most
    requires t' == t.(pools := map[0 := Pool(t.now, t.now, good, misses + 1, 0)])
    ensures Enabled(t, MonitorPass(0, false)) && Apply(t, MonitorPass(0, false)) == t'
    ensures MissAllowed(t, MonitorPass(0, false), most) && MonitorsPrompt(t, period) && MonitorsPrompt(t', period)
  {
    GapIsPastTheWait(t.lease, period);
    DueIsPastTheWait(t.now - renewed, t.lease);
    hide Gap, Wait;
  }

  lemma LeadsToAllMisses(s: Sys, id: JobId, good: Micros, misses: nat, period: Micros, most: nat) returns (es: seq<Event>, t: Sys)
    requires misses <= most && AtWork(s, id, s.now, good, misses, 0) && period >= MONITOR_SLEEP
    requires s.now == good + misses * Gap(s.lease, period)
    ensures Reaches(s, es, period, most, t)
    ensures t.now == good + most * Gap(s.lease, period) && t.lease == s.lease && AtWork(t, id, t.now, good, most, 0)
    decreases most - misses
  {
    hide *;
    if misses == most {
      es, t := [], s;
      NothingMissed(s, id, s.now, good, misses, 0, period, most);
    } else {
      var head, rest, t0;
      head, t0 := LeadsToMiss(s, id, good, misses, period, most);
      OneMissMore(Gap(s.lease, period), misses);
      rest, t := LeadsToAllMisses(t0, id, good, misses + 1, period, most);
      ReachesTwice(s, head, t0, rest, t, period, most);
      es := head + rest;
    }
  }

  lemma ExpiredByNow(t: Sys, id: JobId, good: Micros, period: Micros, most: nat)
    requires Leased(t, id, good) && period >= MONITOR_SLEEP
    requires t.now == good + most * Gap(t.lease, period) + Gap(t.lease, period) && t.lease <= LongestGap(t.lease, period, most)
    ensures Enabled(t, Reap([id], 1))
    ensures 0 in t.workers && t.workers[0].listed && t.workers[0].current.Some? && t.workers[0].current.value.id == id
  {
    GapsGrow(t.lease, period, most, most);
    hide Gap, LongestGap;
  }

  /** The gap is exact: for every lease no longer than it, whatever the job, some run with prompt
      monitors, and no more failed renewals in a row than allowed, lets the reaper take the lease
      of a job that a listed worker is running. */
  lemma ShorterLeasesAreReaped(s: Sys, job: Job, period: Micros, most: nat) returns (es: seq<Event>)
    requires Initial(s) && s.lease <= LongestGap(s.lease, period, most) && period >= MONITOR_SLEEP
    requires job.attempt == 0 && job.status == Pending && job.submitTime <= s.now
    ensures Valid(s, es) && WellKept(s, es, period, most)
    ensures var t := Exec(s, es);
      && 0 in t.workers && t.workers[0].listed
      && t.workers[0].current.Some? && t.workers[0].current.value.id == job.id
      && Enabled(t, Reap([job.id], 1))
  {
    hide *;
    var a, b, c, t1, t2, t3, rounds;
    a, t1 := LeadsToWork(s, job, period, most);
    b, t2 := LeadsToAllMisses(t1, job.id, t1.now, 0, period, most);
    c, t3, rounds := LeadsToLastInstant(t2, job.id, t1.now, most, period, most);
    ExpiredByNow(t3, job.id, t1.now, period, most);
    ReachesTwice(s, a, t1, b, t2, period, most);
    ReachesTwice(s, a + b, t2, c, t3, period, most);
    es := a + b + c;
    WhatReachesSays(s, es, period, most, t3);
  }

  lemma WhatReachesSays(s: Sys, es: seq<Event>, period: Micros, most: nat, t: Sys)
    requires Reaches(s, es, period, most, t)
    ensures Valid(s, es) && WellKept(s, es, period, most) && Exec(s, es) == t
  {
  }
}
