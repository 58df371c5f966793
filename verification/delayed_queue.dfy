/** delayed_queue.py: retries waiting for their time, and the poll that promotes them.

    poll pushes an entry onto the main queue before it removes it from the delayed set, as two
    separate Redis calls, so it can be interrupted between any two of them. */
module DelayedJobs {
  import opened Prelude
  import opened Jobs
  import opened PriorityQueue

  /** The record poll pushes for a delayed entry. */
  function Promoted(entry: Job): Job {
    entry.(status := Pending)
  }

  /** A legal answer of ZRANGEBYSCORE -inf now on the delayed set. */
  ghost predicate IsDueList(delayed: map<Job, Micros>, now: Micros, due: seq<Job>) {
    && Distinct(due)
    && HoldsExactlyTheDue(delayed, now, due)
    && (forall i, j | 0 <= i < j < |due| :: delayed[due[i]] <= delayed[due[j]])
  }

  ghost predicate HoldsExactlyTheDue(delayed: map<Job, Micros>, now: Micros, due: seq<Job>) {
    && (forall d | d in due :: d in delayed && delayed[d] <= now)
    && (forall d | d in delayed && delayed[d] <= now :: d in due)
  }

  class DelayedQueue {
    var delayed: map<Job, Micros>

    constructor ()
      ensures delayed == map[]
    {
      delayed := map[];
    }

    method Add(job: Job)
      modifies this
      ensures delayed == old(delayed)[job := job.nextRetryTime]
    {
      delayed := delayed[job := job.nextRetryTime];
    }

    method DueList(now: Micros) returns (due: seq<Job>)
      ensures IsDueList(delayed, now, due)
    {
      due := [];
      var rest := set d | d in delayed && delayed[d] <= now;
      while rest != {}
        invariant rest == set d | d in delayed && delayed[d] <= now && d !in due
        invariant Distinct(due) && forall d | d in due :: d in delayed && delayed[d] <= now
        invariant forall i, j | 0 <= i < j < |due| :: delayed[due[i]] <= delayed[due[j]]
        invariant forall d, other | d in due && other in rest :: delayed[d] <= delayed[other]
        decreases rest
      {
        var next := Soonest(rest);
        due := due + [next];
        rest := rest - {next};
      }
      assert forall d | d in delayed && delayed[d] <= now && d !in due :: d in rest;
    }

    method Soonest(candidates: set<Job>) returns (best: Job)
      requires candidates != {} && candidates <= delayed.Keys
      ensures best in candidates && forall other | other in candidates :: delayed[best] <= delayed[other]
    {
      best :| best in candidates;
      var rest := candidates - {best};
      while rest != {}
        invariant best in candidates && rest <= candidates
        invariant forall other | other in candidates && other !in rest :: delayed[best] <= delayed[other]
        decreases rest
      {
        var next :| next in rest;
        rest := rest - {next};
        if delayed[next] < delayed[best] {
          best := next;
        }
      }
    }

    method Poll(main: RedisPriorityQueue, now: Micros) returns (n: nat, ghost due: seq<Job>)
      requires main.Valid()
      modifies this, main
      ensures main.Valid()
      ensures IsDueList(old(delayed), now, due) && n == |due|
      ensures forall i, j | 0 <= i < j < |due| :: due[i] != due[j] && old(delayed)[due[i]] <= old(delayed)[due[j]]
      ensures forall d :: d in due <==> d in old(delayed) && old(delayed)[d] <= now
      ensures forall d :: d in delayed <==> d in old(delayed) && old(delayed)[d] > now
      ensures forall d | d in delayed :: delayed[d] == old(delayed)[d]
      ensures forall d | d in due :: d.(status := Pending) in main.queue && main.queue[d.(status := Pending)] == Score(d)
      ensures forall m | m in old(main.queue) :: m in main.queue
      ensures forall m | m in main.queue ::
        (m in old(main.queue) && main.queue[m] == old(main.queue)[m]) || exists d | d in due :: m == d.(status := Pending)
      ensures Places(main.queue, delayed) == AfterPolling(Places(old(main.queue), old(delayed)), due)
      ensures main.State() == old(main.State()).(queue := main.queue)
    {
      var entries := DueList(now);
      due := entries;
      n := |entries|;
      if entries == [] {
        return;
      }
      ghost var before := Places(main.queue, delayed);
      for i := 0 to |entries|
        invariant main.Valid() && main.State() == old(main.State()).(queue := main.queue)
        invariant Places(main.queue, delayed) == AfterPolling(before, entries[..i])
      {
        var data := new DictObject(ToDict(entries[i]));
        var job := FromDict(data);
        DictRoundTrip(entries[i], ToDict(entries[i]));
        main.Push(job.value.(status := Pending));
        delayed := delayed - {entries[i]};
        assert entries[..i + 1][..i] == entries[..i];
      }
      assert entries[..|entries|] == entries;
      hide AfterPolling;
      PolledMeans(before, now, entries);
    }
  }

  // ---------------------------------------------------------------- interruption

  /** The two sorted sets poll moves entries between. */
  datatype Places = Places(queue: map<Job, int>, delayed: map<Job, Micros>)

  function AfterPush(p: Places, entry: Job): Places {
    p.(queue := p.queue[Promoted(entry) := Score(Promoted(entry))])
  }

  function AfterRemove(p: Places, entry: Job): Places {
    p.(delayed := p.delayed - {entry})
  }

  function AfterPolling(p: Places, done: seq<Job>): Places {
    if done == [] then p
    else AfterRemove(AfterPush(AfterPolling(p, done[..|done| - 1]), done[|done| - 1]), done[|done| - 1])
  }

  /** A poll stopped after `whole` entries, and perhaps one more push. */
  function Interrupted(p: Places, due: seq<Job>, whole: nat, pushed: bool): Places
    requires whole <= |due| && (pushed ==> whole < |due|)
  {
    var q := AfterPolling(p, due[..whole]);
    if pushed then AfterPush(q, due[whole]) else q
  }

  /** q is p with the entries in gone off the delayed set and those in sent on the queue. */
  ghost predicate Moved(p: Places, gone: set<Job>, sent: set<Job>, q: Places) {
    Dropped(p.delayed, gone, q.delayed) && Sent(p.queue, sent, q.queue)
  }

  ghost predicate Dropped(delayed: map<Job, Micros>, gone: set<Job>, left: map<Job, Micros>) {
    && (forall d :: d in left <==> d in delayed && d !in gone)
    && (forall d | d in left :: left[d] == delayed[d])
  }

  ghost predicate Sent(queue: map<Job, int>, sent: set<Job>, grown: map<Job, int>) {
    && (forall d | d in sent :: Promoted(d) in grown && grown[Promoted(d)] == Score(d))
    && (forall m | m in queue :: m in grown)
    && (forall m | m in grown :: SentOne(sent, m) || (m in queue && grown[m] == queue[m]))
  }

  ghost predicate SentOne(sent: set<Job>, m: Job) {
    exists d | d in sent :: Promoted(d) == m
  }

  /** What a poll does: the records due are queued with the status pending, each under its score,
      and nothing else is; and they and no others are gone from the delayed set. */
  lemma PolledMeans(p: Places, now: Micros, due: seq<Job>)
    requires IsDueList(p.delayed, now, due)
    ensures var q := AfterPolling(p, due);
      && (forall d :: d in q.delayed <==> d in p.delayed && p.delayed[d] > now)
      && (forall d | d in q.delayed :: q.delayed[d] == p.delayed[d])
      && (forall d | d in due :: d.(status := Pending) in q.queue && q.queue[d.(status := Pending)] == Score(d))
      && (forall m | m in p.queue :: m in q.queue)
      && (forall m | m in q.queue ::
            (m in p.queue && q.queue[m] == p.queue[m]) || exists d | d in due :: m == d.(status := Pending))
  {
    PollingMoves(p, due);
    hide AfterPolling, Score;
    var q := AfterPolling(p, due);
    forall m | m in q.queue
      ensures (m in p.queue && q.queue[m] == p.queue[m]) || exists d | d in due :: m == d.(status := Pending)
    {
      if SentOne(Elements(due), m) {
        var d :| d in Elements(due) && Promoted(d) == m;
        assert d in due;
      }
    }
  }

  lemma DroppedTwice(a: map<Job, Micros>, gone: set<Job>, b: map<Job, Micros>, gone': set<Job>, c: map<Job, Micros>)
    requires Dropped(a, gone, b) && Dropped(b, gone', c)
    ensures Dropped(a, gone + gone', c)
  {
  }

  lemma SentTwice(a: map<Job, int>, sent: set<Job>, b: map<Job, int>, sent': set<Job>, c: map<Job, int>)
    requires Sent(a, sent, b) && Sent(b, sent', c)
    ensures Sent(a, sent + sent', c)
  {
    forall d | d in sent ensures Promoted(d) in c && c[Promoted(d)] == Score(d) {
      assert Promoted(d) in b && (SentOne(sent', Promoted(d)) ==> Score(Promoted(d)) == Score(d));
    }
    forall m | m in c ensures SentOne(sent + sent', m) || (m in a && c[m] == a[m]) {
      if SentOne(sent', m) || SentOne(sent, m) {
        var d :| (d in sent || d in sent') && Promoted(d) == m;
        assert d in sent + sent';
      }
    }
  }

  lemma MovedTwice(p: Places, gone: set<Job>, sent: set<Job>, q: Places, gone': set<Job>, sent': set<Job>, r: Places)
    requires Moved(p, gone, sent, q) && Moved(q, gone', sent', r)
    ensures Moved(p, gone + gone', sent + sent', r)
  {
    hide Dropped, Sent;
    DroppedTwice(p.delayed, gone, q.delayed, gone', r.delayed);
    SentTwice(p.queue, sent, q.queue, sent', r.queue);
  }

  lemma PushMoves(p: Places, entry: Job)
    ensures Moved(p, {}, {entry}, AfterPush(p, entry))
  {
    assert SentOne({entry}, Promoted(entry));
  }

  lemma RemoveMoves(p: Places, entry: Job)
    ensures Moved(p, {entry}, {}, AfterRemove(p, entry))
  {
  }

  lemma {:induction false} PollingMoves(p: Places, done: seq<Job>)
    ensures Moved(p, Elements(done), Elements(done), AfterPolling(p, done))
  {
    if done == [] {
      assert Moved(p, {}, {}, p);
    } else {
      var k := |done| - 1;
      PollingMoves(p, done[..k]);
      var e, q := Elements(done[..k]), AfterPolling(p, done[..k]);
      ElementsMore(done, k);
      assert done[..k + 1] == done;
      hide Moved, AfterPush, AfterRemove, Elements;
      PushMoves(q, done[k]);
      RemoveMoves(AfterPush(q, done[k]), done[k]);
      MovedTwice(p, e, e, q, {}, {done[k]}, AfterPush(q, done[k]));
      assert e + {} == e;
      MovedTwice(p, e, e + {done[k]}, AfterPush(q, done[k]), {done[k]}, {}, AfterPolling(p, done));
      assert e + {done[k]} + {} == e + {done[k]};
    }
  }

  lemma DroppedOnce(a: map<Job, Micros>, gone: set<Job>, b: map<Job, Micros>, c: map<Job, Micros>)
    requires Dropped(a, gone, b) && Dropped(a, gone, c)
    ensures b == c
  {
  }

  lemma SentOnce(a: map<Job, int>, sent: set<Job>, b: map<Job, int>, c: map<Job, int>)
    requires Sent(a, sent, b) && Sent(a, sent, c)
    ensures b == c
  {
    forall m ensures (m in b <==> m in c) && (m in b ==> b[m] == c[m]) {
      if SentOne(sent, m) {
        var d :| d in sent && Promoted(d) == m;
        assert b[m] == Score(d) && c[m] == Score(d);
      }
    }
  }

  lemma MovedOnce(p: Places, gone: set<Job>, sent: set<Job>, q: Places, r: Places)
    requires Moved(p, gone, sent, q) && Moved(p, gone, sent, r)
    ensures q == r
  {
    hide Dropped, Sent;
    DroppedOnce(p.delayed, gone, q.delayed, r.delayed);
    SentOnce(p.queue, sent, q.queue, r.queue);
  }

  /** At every intermediate point of the loop a due job is on the queue or still delayed. */
  lemma NothingIsInBetween(p: Places, now: Micros, due: seq<Job>, whole: nat, pushed: bool, entry: Job)
    requires IsDueList(p.delayed, now, due) && whole <= |due| && (pushed ==> whole < |due|)
    requires entry in p.delayed
    ensures var q := Interrupted(p, due, whole, pushed); entry in q.delayed || Promoted(entry) in q.queue
    ensures entry !in due ==> entry in Interrupted(p, due, whole, pushed).delayed
  {
    PollingMoves(p, due[..whole]);
  }

  lemma InterruptedMoves(p: Places, due: seq<Job>, whole: nat, pushed: bool)
    requires whole <= |due| && (pushed ==> whole < |due|)
    ensures Moved(p, Elements(due[..whole]), Elements(due[..if pushed then whole + 1 else whole]),
                  Interrupted(p, due, whole, pushed))
  {
    PollingMoves(p, due[..whole]);
    if pushed {
      var q, e := AfterPolling(p, due[..whole]), Elements(due[..whole]);
      PushMoves(q, due[whole]);
      MovedTwice(p, e, e, q, {}, {due[whole]}, AfterPush(q, due[whole]));
      ElementsMore(due, whole);
      assert e + {} == e;
    }
  }

  lemma DueAgain(p: Places, now: Micros, due: seq<Job>, whole: nat, k: nat, q: Places,
                 later: Micros, rest: seq<Job>, all: seq<Job>)
    requires HoldsExactlyTheDue(p.delayed, now, due) && whole <= k <= |due| && now <= later
    requires Moved(p, Elements(due[..whole]), Elements(due[..k]), q) && k <= whole + 1
    requires HoldsExactlyTheDue(q.delayed, later, rest) && HoldsExactlyTheDue(p.delayed, later, all)
    ensures Elements(due[..whole]) + Elements(rest) == Elements(all)
    ensures Elements(due[..k]) + Elements(rest) == Elements(all)
  {
    assert forall d | d in due[..whole] :: d in due;
    assert forall d | d in due[..k] :: d in due;
    assert forall d | d in due[..whole] :: d in due[..k];
    forall d ensures d in due[..whole] || d in rest <==> d in all {
    }
  }

  /** A poll interrupted anywhere and run again later, with no pop in between, reaches exactly
      the state of one uninterrupted poll at the later time. */
  lemma PollIsRestartable(p: Places, now: Micros, due: seq<Job>, whole: nat, pushed: bool,
                          later: Micros, rest: seq<Job>, all: seq<Job>)
    requires IsDueList(p.delayed, now, due) && whole <= |due| && (pushed ==> whole < |due|)
    requires now <= later
    requires IsDueList(Interrupted(p, due, whole, pushed).delayed, later, rest)
    requires IsDueList(p.delayed, later, all)
    ensures AfterPolling(Interrupted(p, due, whole, pushed), rest) == AfterPolling(p, all)
  {
    var q := Interrupted(p, due, whole, pushed);
    var k := if pushed then whole + 1 else whole;
    InterruptedMoves(p, due, whole, pushed);
    DueAgain(p, now, due, whole, k, q, later, rest, all);
    PollingMoves(q, rest);
    MovedTwice(p, Elements(due[..whole]), Elements(due[..k]), q, Elements(rest), Elements(rest), AfterPolling(q, rest));
    PollingMoves(p, all);
    MovedOnce(p, Elements(all), Elements(all), AfterPolling(q, rest), AfterPolling(p, all));
  }
}
