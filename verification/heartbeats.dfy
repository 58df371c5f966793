/** Who may be replaced, who may take a job and who may leave, read off the events of a run and
    their times: a worker is replaced only after ten seconds without a sign of life. */
module Heartbeats {
  import opened Prelude
  import opened Jobs
  import opened System

  /** What its events so far say of a worker: its pool, whether it is in the pool's list and has
      been told to stop, when it last gave a sign of life, until when it sleeps, and when it took
      the job it has not finished. */
  datatype Trace = Trace(pool: PoolId, listed: bool, stopped: bool, sign: Micros, rest: Micros, open: Option<Micros>)

  type Log = map<WorkerId, Trace>

  function Started(p: PoolId, now: Micros): Trace {
    Trace(p, true, false, now, now, None)
  }

  /** One event more, at its time. An empty take is followed by a sleep of a tenth of a second,
      one that raised by a sleep of a second; a sign of life is either of them, or the end of a
      task, however it ends. */
  function Logged(log: Log, e: Event, now: Micros): Log {
    match e
    case Spawn(w, p) => log[w := Started(p, now)]
    case Take(w, popped) =>
      if w !in log then log
      else if popped.Some? then log[w := log[w].(open := Some(now))]
      else log[w := log[w].(sign := now, rest := now + 100_000)]
    case TakeLostRequest(w) => if w !in log then log else log[w := log[w].(sign := now, rest := now + 1_000_000)]
    case TakeLostReply(w, _) => if w !in log then log else log[w := log[w].(sign := now, rest := now + 1_000_000)]
    case Succeed(w) => if w !in log then log else log[w := log[w].(sign := now, open := None)]
    case Fail(w, _, _) => if w !in log then log else log[w := log[w].(sign := now, open := None)]
    case FailUnrecorded(w, _, _, _) => if w !in log then log else log[w := log[w].(sign := now, open := None)]
    case Stop(w, unlist) =>
      if w !in log then log else log[w := log[w].(stopped := true, listed := log[w].listed && !unlist)]
    case Replace(w, _, replied, spare) =>
      if w !in log || !replied then log
      else log[w := log[w].(stopped := true, listed := false)][spare := Started(log[w].pool, now)]
    case Exit(w, _) => log - {w}
    case CrashWorker(w) => log - {w}
    case CrashPool(p) => map w | w in log && log[w].pool != p :: log[w]
    case _ => log
  }

  /** The log after a run that began with this one. */
  ghost function LogAfter(s: Sys, es: seq<Event>, log: Log): Log
    requires Valid(s, es)
    decreases |es|
  {
    if es == [] then log else LogAfter(Apply(s, es[0]), es[1..], Logged(log, es[0], s.now))
  }

  // ---------------------------------------------------------------- the workers are as logged

  predicate IsAs(x: Worker, y: Trace) {
    && x.pool == y.pool && x.listed == y.listed && x.running == !y.stopped
    && x.heartbeat == y.sign && x.wakeAt == y.rest && x.current.Some? == y.open.Some?
  }

  ghost predicate AreAs(s: Sys, log: Log) {
    s.workers.Keys == log.Keys && forall w | w in log :: IsAs(s.workers[w], log[w])
  }

  lemma TakesAreLogged(s: Sys, e: Event, log: Log)
    requires AreAs(s, log) && Enabled(s, e) && (e.Take? || e.TakeLostRequest? || e.TakeLostReply?)
    ensures AreAs(Apply(s, e), Logged(log, e, s.now))
  {
    hide StoreTaken;
  }

  lemma EndsAreLogged(s: Sys, e: Event, log: Log)
    requires AreAs(s, log) && Enabled(s, e) && (e.Succeed? || e.Fail? || e.FailUnrecorded?)
    ensures AreAs(Apply(s, e), Logged(log, e, s.now))
  {
    hide Decided, Written;
  }

  lemma PoolsAreLogged(s: Sys, e: Event, log: Log)
    requires AreAs(s, log) && Enabled(s, e) && (e.Spawn? || e.Stop?)
    ensures AreAs(Apply(s, e), Logged(log, e, s.now))
  {
  }

  lemma ReplacingIsLogged(s: Sys, e: Event, log: Log)
    requires AreAs(s, log) && Enabled(s, e) && e.Replace?
    ensures AreAs(Apply(s, e), Logged(log, e, s.now))
  {
    hide LeaseModel.Requeued, IsStale;
  }

  lemma LeavingIsLogged(s: Sys, e: Event, log: Log)
    requires AreAs(s, log) && Enabled(s, e) && (e.Exit? || e.CrashWorker?)
    ensures AreAs(Apply(s, e), Logged(log, e, s.now))
  {
    assert Apply(s, e).workers == s.workers - {e.w};
    hide Apply, Enabled, IsAs;
  }

  lemma PoolsDie(s: Sys, p: PoolId, log: Log)
    requires AreAs(s, log) && Enabled(s, CrashPool(p))
    ensures AreAs(Apply(s, CrashPool(p)), Logged(log, CrashPool(p), s.now))
  {
    assert forall w | w in log :: s.workers[w].pool == log[w].pool;
    hide IsAs;
  }

  lemma OthersAreNotLogged(s: Sys, e: Event, log: Log)
    requires Enabled(s, e)
    requires e.Submit? || e.StartPool? || e.MonitorPass? || e.Reap? || e.PollRead? || e.PollPush? || e.PollRemove?
      || e.Tick? || e.CrashScheduler?
    ensures Apply(s, e).workers == s.workers && Logged(log, e, s.now) == log
  {
  }

  lemma StepIsLogged(s: Sys, e: Event, log: Log)
    requires AreAs(s, log) && Enabled(s, e)
    ensures AreAs(Apply(s, e), Logged(log, e, s.now))
  {
    hide AreAs, Apply, Enabled, Logged;
    if e.Take? || e.TakeLostRequest? || e.TakeLostReply? {
      TakesAreLogged(s, e, log);
    } else if e.Succeed? || e.Fail? || e.FailUnrecorded? {
      EndsAreLogged(s, e, log);
    } else if e.Spawn? || e.Stop? {
      PoolsAreLogged(s, e, log);
    } else if e.Replace? {
      ReplacingIsLogged(s, e, log);
    } else if e.Exit? || e.CrashWorker? {
      LeavingIsLogged(s, e, log);
    } else if e.CrashPool? {
      PoolsDie(s, e.p, log);
    } else {
      OthersAreNotLogged(s, e, log);
      SameWorkersAreAs(s, Apply(s, e), log);
    }
  }

  lemma SameWorkersAreAs(s: Sys, t: Sys, log: Log)
    requires AreAs(s, log) && t.workers == s.workers
    ensures AreAs(t, log)
  {
  }

  lemma {:induction false} RunIsLogged(s: Sys, es: seq<Event>, log: Log)
    requires AreAs(s, log) && Valid(s, es)
    ensures AreAs(Exec(s, es), LogAfter(s, es, log))
    decreases |es|
  {
    hide AreAs, Apply, Enabled, Logged;
    if es != [] {
      StepIsLogged(s, es[0], log);
      RunIsLogged(Apply(s, es[0]), es[1..], Logged(log, es[0], s.now));
    }
  }

  // ---------------------------------------------------------------- what a worker may do

  /** After any run the monitor may replace a worker exactly if it is in its pool's list and its
      last sign of life is more than ten seconds ago, with or without the call getting through;
      without a job there is no call that could fail. */
  lemma ReplacedExactlyAfterTenSeconds(s: Sys, es: seq<Event>, w: WorkerId, landed: bool, replied: bool, spare: WorkerId)
    requires Initial(s) && Valid(s, es)
    ensures var t, log := Exec(s, es), LogAfter(s, es, map[]);
      Enabled(t, Replace(w, landed, replied, spare)) <==>
        && w in log && log[w].listed && t.now - log[w].sign > 10_000_000
        && spare !in log && (replied ==> landed) && (log[w].open.None? ==> replied)
  {
    RunIsLogged(s, es, map[]);
    assert forall v | v in LogAfter(s, es, map[]) :: v in Exec(s, es).workers;
  }

  /** A worker may take exactly if it has no job, is not asleep and has not been stopped, and may
      leave exactly if it has been. What it gets is a job of the highest score, and nothing exactly
      if the queue is empty. */
  lemma TakesExactlyWhenAwake(s: Sys, es: seq<Event>, w: WorkerId, popped: Option<Job>, landed: bool)
    requires Initial(s) && Valid(s, es)
    ensures var t, log := Exec(s, es), LogAfter(s, es, map[]);
      && var awake := w in log && log[w].open.None? && t.now >= log[w].rest;
      && (Enabled(t, TakeLostRequest(w)) <==> awake && !log[w].stopped)
      && (Enabled(t, Take(w, popped)) <==> awake && !log[w].stopped && IsAnswer(t.store.queue, popped))
      && (Enabled(t, Exit(w, landed)) <==> awake && log[w].stopped)
  {
    RunIsLogged(s, es, map[]);
  }

  predicate IsAnswer(queue: map<Job, int>, popped: Option<Job>) {
    match popped
    case None => |queue| == 0
    case Some(m) => m in queue && forall other | other in queue :: queue[other] <= queue[m]
  }

  // ---------------------------------------------------------------- who is never replaced

  predicate IsSign(e: Event, w: WorkerId) {
    || (e.Take? && e.w == w && e.popped.None?)
    || ((e.TakeLostRequest? || e.TakeLostReply? || e.Succeed? || e.Fail? || e.FailUnrecorded?) && e.w == w)
  }

  ghost predicate SignedSince(log: Log, w: WorkerId, time: Micros) {
    w in log ==> log[w].sign >= time
  }

  lemma SignsAdvance(s: Sys, e: Event, log: Log, w: WorkerId, time: Micros)
    requires SignedSince(log, w, time) && Enabled(s, e) && time <= s.now
    ensures SignedSince(Logged(log, e, s.now), w, time) && time <= Apply(s, e).now
  {
  }

  lemma {:induction false} RunsOnlyAdvance(s: Sys, es: seq<Event>, log: Log, w: WorkerId, time: Micros)
    requires SignedSince(log, w, time) && Valid(s, es) && time <= s.now
    ensures SignedSince(LogAfter(s, es, log), w, time)
    decreases |es|
  {
    hide SignedSince, Apply, Enabled, Logged;
    if es != [] {
      SignsAdvance(s, es[0], log, w, time);
      RunsOnlyAdvance(Apply(s, es[0]), es[1..], Logged(log, es[0], s.now), w, time);
    }
  }

  lemma {:induction false} LogTwice(s: Sys, a: seq<Event>, b: seq<Event>, log: Log)
    requires Valid(s, a) && Valid(Exec(s, a), b) && Valid(s, a + b)
    ensures LogAfter(s, a + b, log) == LogAfter(Exec(s, a), b, LogAfter(s, a, log))
    decreases |a|
  {
    hide Apply, Enabled, Logged;
    if a == [] {
      assert a + b == b;
    } else {
      assert (a + b)[1..] == a[1..] + b;
      LogTwice(Apply(s, a[0]), a[1..], b, Logged(log, a[0], s.now));
    }
  }

  /** Within ten seconds of an empty or failed take, of a success or of a failure, nothing lets
      the monitor replace the worker. */
  lemma NotReplacedSoonAfterASign(s: Sys, a: seq<Event>, e: Event, b: seq<Event>, w: WorkerId,
                                  landed: bool, replied: bool, spare: WorkerId)
    requires Initial(s) && Valid(s, a) && Enabled(Exec(s, a), e) && Valid(Apply(Exec(s, a), e), b)
    requires IsSign(e, w) && Exec(Apply(Exec(s, a), e), b).now <= Exec(s, a).now + 10_000_000
    ensures !Enabled(Exec(Apply(Exec(s, a), e), b), Replace(w, landed, replied, spare))
  {
    var t, log := Exec(s, a), LogAfter(s, a, map[]);
    var u := Apply(t, e);
    hide Apply, Enabled, Initial, AreAs;
    RunMore(s, a, e);
    RunTwice(s, a + [e], b);
    RunOfOne(t, e);
    LogTwice(s, a, [e], map[]);
    LogOfOne(t, e, log);
    LogTwice(s, a + [e], b, map[]);
    SignIsLogged(t, e, log, w);
    RunsOnlyAdvance(u, b, Logged(log, e, t.now), w, t.now);
    ReplacedExactlyAfterTenSeconds(s, a + [e] + b, w, landed, replied, spare);
  }

  lemma EmptyIsLogged(s: Sys)
    requires Initial(s)
    ensures AreAs(s, map[])
  {
  }

  lemma LogOfOne(s: Sys, e: Event, log: Log)
    requires Enabled(s, e)
    ensures Valid(s, [e]) && LogAfter(s, [e], log) == Logged(log, e, s.now)
  {
  }

  lemma SignIsLogged(s: Sys, e: Event, log: Log, w: WorkerId)
    requires Enabled(s, e) && IsSign(e, w)
    ensures SignedSince(Logged(log, e, s.now), w, s.now) && s.now <= Apply(s, e).now
  {
  }

  /** The worker has not been at its task for longer than `task`, nor idle for longer than `pause`. */
  ghost predicate IsBrisk(log: Log, now: Micros, w: WorkerId, pause: nat, task: nat) {
    w in log ==>
      match log[w].open
      case None => now <= log[w].sign + pause
      case Some(taken) => now <= taken + task
  }

  ghost predicate StaysBrisk(s: Sys, es: seq<Event>, log: Log, w: WorkerId, pause: nat, task: nat)
    requires Valid(s, es)
    decreases |es|
  {
    IsBrisk(log, s.now, w, pause, task)
    && (es == [] || StaysBrisk(Apply(s, es[0]), es[1..], Logged(log, es[0], s.now), w, pause, task))
  }

  /** It had not been idle too long when it took its task. */
  ghost predicate OpenedInTime(log: Log, w: WorkerId, pause: nat) {
    w in log && log[w].open.Some? ==> log[w].open.value <= log[w].sign + pause
  }

  lemma StepOpensInTime(s: Sys, e: Event, log: Log, w: WorkerId, pause: nat, task: nat)
    requires AreAs(s, log) && Enabled(s, e)
    requires OpenedInTime(log, w, pause) && IsBrisk(log, s.now, w, pause, task) && pause + task <= 10_000_000
    ensures OpenedInTime(Logged(log, e, s.now), w, pause)
    ensures !(e.Replace? && e.w == w)
  {
    NotStaleWhileBrisk(s, log, w, pause, task);
    hide Apply, AreAs;
  }

  lemma NotStaleWhileBrisk(s: Sys, log: Log, w: WorkerId, pause: nat, task: nat)
    requires AreAs(s, log)
    requires OpenedInTime(log, w, pause) && IsBrisk(log, s.now, w, pause, task) && pause + task <= 10_000_000
    ensures !Stale(s, w) && (w in s.workers <==> w in log)
  {
  }

  lemma {:induction false} BriskRunDoesNotReplace(s: Sys, es: seq<Event>, log: Log, w: WorkerId, pause: nat, task: nat)
    requires AreAs(s, log) && Valid(s, es) && OpenedInTime(log, w, pause)
    requires StaysBrisk(s, es, log, w, pause, task) && pause + task <= 10_000_000
    ensures forall e | e in es :: !(e.Replace? && e.w == w)
    decreases |es|
  {
    hide AreAs, Apply, Enabled, Logged, OpenedInTime, IsBrisk;
    if es != [] {
      StepOpensInTime(s, es[0], log, w, pause, task);
      StepIsLogged(s, es[0], log);
      BriskRunDoesNotReplace(Apply(s, es[0]), es[1..], Logged(log, es[0], s.now), w, pause, task);
      assert es == [es[0]] + es[1..];
    }
  }

  /** A worker that ends each task within `task` of taking it, and otherwise tries to take again
      within `pause`, is never replaced if the two together come to ten seconds at most. */
  lemma LiveWorkersAreNeverReplaced(s: Sys, es: seq<Event>, w: WorkerId, pause: nat, task: nat)
    requires Initial(s) && Valid(s, es) && StaysBrisk(s, es, map[], w, pause, task) && pause + task <= 10_000_000
    ensures forall e | e in es :: !(e.Replace? && e.w == w)
  {
    EmptyIsLogged(s);
    BriskRunDoesNotReplace(s, es, map[], w, pause, task);
  }
}
