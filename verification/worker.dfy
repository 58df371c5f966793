/** worker.py: the loop of one worker thread, driven by a script of what happens to it. */
module Workers {
  import opened Prelude
  import opened Jobs
  import opened LeaseModel
  import opened PriorityQueue
  import opened DeadLetters
  import opened Retries
  import opened System

  /** How recording a failure goes: it works, or the call raises, its write landed or not. */
  datatype Recording = Works | RaisesUnwritten | RaisesWritten

  datatype Outcome = Returns | Throws(error: string, jitter: Micros, recording: Recording)

  /** One time round the loop: the take raises, its script run or not, or it returns, and if it
      brought a job the task ends in some way at `finished`. */
  datatype Turn =
    | TakeRaises(at: Micros, landed: bool)
    | TakeReturns(at: Micros, finished: Micros, outcome: Outcome)

  /** What a worker reads and writes. */
  datatype View = View(
    store: Store,
    delayed: map<Job, Micros>,
    dlq: seq<DeadRecord>,
    pending: Option<Job>,
    heartbeat: Micros
  )

  function WrittenTo(v: View, d: Decision, now: Micros): View {
    v.(dlq := DeadAfter(v.dlq, d, now), delayed := DelayedAfter(v.delayed, d))
  }

  /** The worker after its task has ended: an acknowledgement is pending exactly when the
      outcome is recorded. */
  function AfterTask(v: View, job: Job, outcome: Outcome, now: Micros): View {
    match outcome
    case Returns => v.(pending := Some(job.(status := Done)), heartbeat := now)
    case Throws(error, jitter, recording) =>
      var d := Decide(job, error, now, jitter);
      var w := if recording.RaisesUnwritten? then v else WrittenTo(v, d, now);
      w.(pending := if recording.Works? && !d.NoDate? then Some(d.job) else v.pending, heartbeat := now)
  }

  function AfterTurn(v: View, turn: Turn, popped: Option<Job>, lease: Micros): View
    requires CanPop(v.store.queue, popped)
  {
    var taken := Taken(v.store, IdOf(v.pending), popped, turn.at + lease);
    match turn
    case TakeRaises(at, landed) => v.(store := if landed then taken else v.store, heartbeat := at)
    case TakeReturns(at, finished, outcome) =>
      var u := v.(store := taken, pending := None);
      if popped.None? then u.(heartbeat := at)
      else AfterTask(u, popped.value.(status := Running), outcome, finished)
  }

  predicate TurnOk(turn: Turn) {
    turn.TakeReturns? && turn.outcome.Throws? ==> 0 <= turn.outcome.jitter <= 500_000
  }

  /** No call of the turn fails, and no retry lies beyond the last datetime. */
  predicate Clean(v: View, turn: Turn, popped: Option<Job>) {
    && turn.TakeReturns?
    && (popped.Some? && turn.outcome.Throws? ==>
          && turn.outcome.recording.Works?
          && !Decide(popped.value.(status := Running), turn.outcome.error, turn.finished, turn.outcome.jitter).NoDate?)
  }

  class Worker {
    const queue: RedisPriorityQueue
    const retryManager: RetryManager
    var current: JobObject?
    var pending: JobObject?
    var running: bool
    var lastHeartbeat: Micros

    constructor (queue: RedisPriorityQueue, retryManager: RetryManager, now: Micros)
      ensures this.queue == queue && this.retryManager == retryManager
      ensures current == null && pending == null && running && lastHeartbeat == now
    {
      this.queue := queue;
      this.retryManager := retryManager;
      current, pending, running, lastHeartbeat := null, null, true, now;
    }

    ghost function State(): View
      reads this, queue, retryManager.delayedQueue, retryManager.dlq, pending
    {
      View(queue.State(), retryManager.delayedQueue.delayed, retryManager.dlq.records,
           if pending == null then None else Some(pending.rec), lastHeartbeat)
    }

    method Stop()
      modifies this`running
      ensures !running
    {
      running := false;
    }

    /** The job becomes the current one, and running. */
    method Begin(job: Job) returns (live: JobObject)
      modifies this`current
      ensures fresh(live) && current == live && live.rec == job.(status := Running)
    {
      live := new JobObject(job);
      current := live;
      live.rec := live.rec.(status := Running);
    }

    /** Runs the task and records its outcome. */
    method RunTask(job: JobObject, outcome: Outcome, now: Micros)
      requires queue.Valid() && current == job && pending == null
      requires outcome.Throws? ==> IsJitter(outcome.jitter)
      modifies this, job, retryManager.delayedQueue, retryManager.dlq
      ensures queue.Valid() && running == old(running) && current == null
      ensures pending == null || pending == job
      ensures State() == AfterTask(old(State()), old(job.rec), outcome, now) && lastHeartbeat == now
    {
      var outcomeRecorded := false;
      match outcome {
        case Returns =>
          job.rec := job.rec.(status := Done);
          outcomeRecorded := true;
        case Throws(error, jitter, recording) =>
          if recording != RaisesUnwritten {
            var raised := retryManager.HandleFailure(job, error, now, jitter);
            outcomeRecorded := !raised && recording == Works;
          }
      }
      if outcomeRecorded {
        pending := job;
      }
      lastHeartbeat := now;
      current := null;
    }

    /** One time round the loop. */
    method TakeTurn(turn: Turn) returns (ghost popped: Option<Job>)
      requires queue.Valid() && current == null && TurnOk(turn)
      modifies this, queue, retryManager.delayedQueue, retryManager.dlq
      ensures queue.Valid() && current == null && running == old(running)
      ensures pending == null || pending == old(pending) || fresh(pending)
      ensures CanPop(old(queue.queue), popped)
      ensures State() == AfterTurn(old(State()), turn, popped, queue.leaseSeconds)
      ensures lastHeartbeat == if turn.TakeRaises? || popped.None? then turn.at else turn.finished
    {
      var ack := if pending == null then None else Some(pending.rec);
      hide Taken, CanPop, WellFormed, Decide, DeadAfter, DelayedAfter;
      match turn {
        case TakeRaises(at, landed) =>
          if landed {
            var acked, job;
            acked, job := queue.Take(at, ack);
            popped := job;
          } else {
            popped := PopExists(queue.queue);
          }
          lastHeartbeat := at;
        case TakeReturns(at, finished, outcome) =>
          var acked, job;
          acked, job := queue.Take(at, ack);
          popped := job;
          pending := null;
          if job.None? {
            lastHeartbeat := at;
            return;
          }
          var live := Begin(job.value);
          RunTask(live, outcome, finished);
      }
    }

    /** The thread from start to exit. It is told to stop when the script ends; leaving the loop
        it sends its last acknowledgement, which is not tried again if the call raises. */
    method Run(script: seq<Turn>, flushRaises: bool) returns (ghost pops: seq<Option<Job>>)
      requires queue.Valid() && current == null && pending == null
      requires forall turn | turn in script :: TurnOk(turn)
      modifies this, queue, retryManager.delayedQueue, retryManager.dlq
      ensures queue.Valid() && current == null
      ensures Follows(old(State()), script, pops, queue.leaseSeconds)
      ensures var v := AfterScript(old(State()), script, pops, queue.leaseSeconds);
        && queue.State() == (if flushRaises then v.store else Acked(v.store, IdOf(v.pending)))
        && retryManager.delayedQueue.delayed == v.delayed && retryManager.dlq.records == v.dlq
      ensures AllClean(old(State()), script, pops, queue.leaseSeconds) && !flushRaises ==>
        queue.processing.Keys <= old(queue.processing.Keys)
    {
      pops := [];
      ghost var start := State();
      for i := 0 to |script|
        invariant queue.Valid() && current == null && (pending == null || fresh(pending))
        invariant |pops| == i && Follows(start, script[..i], pops, queue.leaseSeconds)
        invariant State() == AfterScript(start, script[..i], pops, queue.leaseSeconds)
      {
        hide AfterTurn, CanPop, TurnOk;
        ghost var popped := TakeTurn(script[i]);
        OneTurnMore(start, script[..i], pops, script[i], popped, queue.leaseSeconds);
        assert script[..i + 1] == script[..i] + [script[i]];
        pops := pops + [popped];
      }
      assert script[..|script|] == script;
      CleanScriptOwesOneAck(start, script, pops, queue.leaseSeconds);
      if pending != null && !flushRaises {
        var held := queue.Ack(pending.rec);
      }
    }
  }

  // ---------------------------------------------------------------- what a turn means

  /** A turn that gets no job: what it does to the worker, and to the leases. */
  lemma IdleTurn(v: View, turn: Turn, popped: Option<Job>, lease: Micros)
    requires CanPop(v.store.queue, popped)
    ensures turn.TakeRaises? ==>
      var u := AfterTurn(v, turn, popped, lease);
      && u.heartbeat == turn.at && u.pending == v.pending && u.delayed == v.delayed && u.dlq == v.dlq
      && if turn.landed then TookTo(v, popped, turn.at + lease, u) else u.store == v.store
    ensures turn.TakeReturns? && popped.None? ==>
      var u := AfterTurn(v, turn, popped, lease);
      && u.heartbeat == turn.at && u.pending.None? && u.delayed == v.delayed && u.dlq == v.dlq
      && TookTo(v, popped, turn.at + lease, u)
  {
    TakeTookTo(v, popped, turn.at + lease, AfterTurn(v, turn, popped, lease));
    hide Taken;
  }

  /** The acknowledgement owed has been sent and the job popped, if any, leased to the deadline. */
  predicate TookTo(v: View, popped: Option<Job>, deadline: Micros, u: View) {
    var kept := if v.pending.Some? then v.store.processing - {v.pending.value.id} else v.store.processing;
    match popped
    case None => u.store.processing == kept && u.store.queue == v.store.queue
    case Some(m) => u.store.processing == kept[m.id := deadline] && u.store.queue == v.store.queue - {m}
  }

  lemma TakeTookTo(v: View, popped: Option<Job>, deadline: Micros, u: View)
    requires CanPop(v.store.queue, popped)
    ensures u.store == Taken(v.store, IdOf(v.pending), popped, deadline) ==> TookTo(v, popped, deadline, u)
  {
    hide CanPop;
  }

  /** A turn that gets a job. If the task returns, its acknowledgement is owed; if it throws, the
      failure is written unless the call raised before, and the acknowledgement owed only if the
      call did not raise at all. */
  lemma BusyTurn(v: View, turn: Turn, job: Job, lease: Micros)
    requires CanPop(v.store.queue, Some(job)) && turn.TakeReturns?
    ensures var u := AfterTurn(v, turn, Some(job), lease);
      u.heartbeat == turn.finished && TookTo(v, Some(job), turn.at + lease, u)
    ensures turn.outcome.Returns? ==>
      var u := AfterTurn(v, turn, Some(job), lease);
      u.pending == Some(job.(status := Done)) && u.delayed == v.delayed && u.dlq == v.dlq
    ensures turn.outcome.Throws? && turn.outcome.recording.RaisesUnwritten? ==>
      var u := AfterTurn(v, turn, Some(job), lease);
      u.pending.None? && u.delayed == v.delayed && u.dlq == v.dlq
    ensures turn.outcome.Throws? && !turn.outcome.recording.RaisesUnwritten? ==>
      FailureWritten(v, turn, job, AfterTurn(v, turn, Some(job), lease))
  {
    TakeTookTo(v, Some(job), turn.at + lease, AfterTurn(v, turn, Some(job), lease));
    hide Taken, CanPop, TookTo;
  }

  /** The failed job is dead, or delayed, or cannot be dated. */
  predicate FailureWritten(v: View, turn: Turn, job: Job, u: View)
    requires turn.TakeReturns? && turn.outcome.Throws?
  {
    var failed := job.(attempt := job.attempt + 1, error := Some(turn.outcome.error));
    var due := turn.finished + Pow2(failed.attempt) * 500_000 + turn.outcome.jitter;
    var owed := (j: Job) => u.pending == (if turn.outcome.recording.Works? then Some(j) else None);
    if failed.attempt >= failed.maxRetries then
      var dead := failed.(status := Dead);
      u.delayed == v.delayed && u.dlq == [DeadRecord(dead, turn.finished)] + v.dlq && owed(dead)
    else if due <= 253_402_300_799_999_999 then
      var next := failed.(status := Pending, nextRetryTime := due);
      u.delayed == v.delayed[next := due] && u.dlq == v.dlq && owed(next)
    else
      u.delayed == v.delayed && u.dlq == v.dlq && u.pending.None?
  }

  // ---------------------------------------------------------------- scripts

  ghost predicate Follows(v: View, script: seq<Turn>, pops: seq<Option<Job>>, lease: Micros)
    decreases |script|, 0
  {
    |pops| == |script| &&
    if script == [] then true
    else
      var k := |script| - 1;
      Follows(v, script[..k], pops[..k], lease)
      && CanPop(AfterScript(v, script[..k], pops[..k], lease).store.queue, pops[k])
  }

  ghost function AfterScript(v: View, script: seq<Turn>, pops: seq<Option<Job>>, lease: Micros): View
    requires Follows(v, script, pops, lease)
    decreases |script|, 1
  {
    if script == [] then v
    else
      var k := |script| - 1;
      AfterTurn(AfterScript(v, script[..k], pops[..k], lease), script[k], pops[k], lease)
  }

  ghost predicate AllClean(v: View, script: seq<Turn>, pops: seq<Option<Job>>, lease: Micros)
    requires Follows(v, script, pops, lease)
    decreases |script|
  {
    script == [] ||
    var k := |script| - 1;
    AllClean(v, script[..k], pops[..k], lease)
    && Clean(AfterScript(v, script[..k], pops[..k], lease), script[k], pops[k])
  }

  lemma OneTurnMore(v: View, script: seq<Turn>, pops: seq<Option<Job>>, turn: Turn, popped: Option<Job>, lease: Micros)
    requires Follows(v, script, pops, lease) && CanPop(AfterScript(v, script, pops, lease).store.queue, popped)
    ensures Follows(v, script + [turn], pops + [popped], lease)
    ensures AfterScript(v, script + [turn], pops + [popped], lease) == AfterTurn(AfterScript(v, script, pops, lease), turn, popped, lease)
  {
  }

  /** While every call works, a worker owes at most one acknowledgement, and every lease it took
      is that one's or was there before. */
  lemma {:induction false} CleanScriptOwesOneAck(v: View, script: seq<Turn>, pops: seq<Option<Job>>, lease: Micros)
    requires v.pending.None? && Follows(v, script, pops, lease)
    ensures var t := AfterScript(v, script, pops, lease);
      AllClean(v, script, pops, lease) ==>
        Acked(t.store, IdOf(t.pending)).processing.Keys <= v.store.processing.Keys
    decreases |script|
  {
    if script != [] {
      var k := |script| - 1;
      CleanScriptOwesOneAck(v, script[..k], pops[..k], lease);
    }
  }

  // ---------------------------------------------------------------- the state machine's steps

  /** The events of the whole system that one turn of worker w consists of. */
  function EventsOf(w: WorkerId, turn: Turn, popped: Option<Job>): seq<Event> {
    match turn
    case TakeRaises(_, landed) => [if landed then TakeLostReply(w, popped) else TakeLostRequest(w)]
    case TakeReturns(at, finished, outcome) =>
      if popped.None? then [Take(w, popped)]
      else [Take(w, popped)] + (if finished > at then [Tick(finished - at)] else []) + [EndOf(w, popped.value, outcome, finished)]
  }

  function EndOf(w: WorkerId, job: Job, outcome: Outcome, now: Micros): Event {
    match outcome
    case Returns => Succeed(w)
    case Throws(error, jitter, recording) =>
      if recording.Works? && !Decide(job.(status := Running), error, now, jitter).NoDate? then Fail(w, error, jitter)
      else FailUnrecorded(w, error, jitter, !recording.RaisesUnwritten?)
  }

  ghost function ViewOf(s: Sys, w: WorkerId): View
    requires w in s.workers
  {
    View(s.store, s.delayed, s.dlq, s.workers[w].pending, s.workers[w].heartbeat)
  }

  lemma EndIsAnEvent(s: Sys, w: WorkerId, job: Job, outcome: Outcome)
    requires Busy(s, w) && s.workers[w].current.value == job.(status := Running) && s.workers[w].pending.None?
    requires outcome.Throws? ==> IsJitter(outcome.jitter)
    ensures var e := EndOf(w, job, outcome, s.now);
      && Enabled(s, e) && w in Apply(s, e).workers
      && ViewOf(Apply(s, e), w) == AfterTask(ViewOf(s, w), job.(status := Running), outcome, s.now)
      && Apply(s, e).workers[w].current.None?
  {
    hide Decide, DeadAfter, DelayedAfter;
  }

  lemma TakeIsAnEvent(s: Sys, w: WorkerId, turn: Turn, popped: Option<Job>)
    requires Free(s, w) && s.workers[w].running && turn.at == s.now && CanPop(s.store.queue, popped)
    ensures var e := EventsOf(w, turn, popped)[0]; var t := Apply(s, e);
      && Enabled(s, e) && w in t.workers && t.now == s.now
      && (turn.TakeRaises? || popped.None? ==>
            ViewOf(t, w) == AfterTurn(ViewOf(s, w), turn, popped, s.lease) && t.workers[w].current.None?)
      && (turn.TakeReturns? && popped.Some? ==>
            && t.workers[w].current == Some(popped.value.(status := Running)) && t.workers[w].pending.None?
            && AfterTask(ViewOf(t, w), popped.value.(status := Running), turn.outcome, turn.finished)
               == AfterTurn(ViewOf(s, w), turn, popped, s.lease))
  {
    hide Taken, CanPop, IsMax, AfterTask, EndOf;
  }

  lemma WaitIsAnEvent(s: Sys, wait: Micros, e: Event, es: seq<Event>)
    requires wait >= 0 && Enabled(s.(now := s.now + wait), e)
    requires es == (if wait > 0 then [Tick(wait)] else []) + [e]
    ensures Valid(s, es) && Exec(s, es) == Apply(s.(now := s.now + wait), e)
  {
    hide Apply, Enabled;
    var t := s.(now := s.now + wait);
    assert [e][1..] == [] && Valid(t, [e]) && Exec(t, [e]) == Apply(t, e);
    if wait > 0 {
      TickIs(s, wait);
      assert es[1..] == [e];
    } else {
      assert t == s && es == [e];
    }
  }

  /** A turn of the loop is a run of the whole system in which nobody else moves: what the worker
      method is proved to do is what the state machine's steps do. */
  lemma TurnIsARun(s: Sys, w: WorkerId, turn: Turn, popped: Option<Job>)
    requires Free(s, w) && s.workers[w].running && turn.at == s.now && TurnOk(turn)
    requires turn.TakeReturns? ==> turn.finished >= turn.at
    requires CanPop(s.store.queue, popped)
    ensures var es := EventsOf(w, turn, popped);
      && Valid(s, es) && w in Exec(s, es).workers
      && ViewOf(Exec(s, es), w) == AfterTurn(ViewOf(s, w), turn, popped, s.lease)
      && Exec(s, es).workers[w].current.None?
  {
    hide Enabled, Apply, AfterTurn, AfterTask, EndOf, Taken, CanPop, IsMax;
    TakeIsAnEvent(s, w, turn, popped);
    var es := EventsOf(w, turn, popped);
    var s1 := Apply(s, es[0]);
    if turn.TakeRaises? || popped.None? {
      assert es[1..] == [];
    } else {
      var end, wait := EndOf(w, popped.value, turn.outcome, turn.finished), turn.finished - turn.at;
      EndIsAnEvent(s1.(now := turn.finished), w, popped.value, turn.outcome);
      assert ViewOf(s1.(now := turn.finished), w) == ViewOf(s1, w);
      WaitIsAnEvent(s1, wait, end, es[1..]);
    }
  }
}
