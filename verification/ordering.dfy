/** Recovered jobs keep their place: after any history the queue drains in the order of
    submission, whichever way its members came back onto it. */
module Ordering {
  import opened Prelude
  import opened Jobs
  import opened LeaseModel
  import opened System
  import opened Copies

  /** What an uninterrupted drain pops, whichever of several equal scores comes first. */
  ghost predicate Drains(queue: map<Job, int>, popped: seq<Job>)
    decreases |popped|
  {
    if popped == [] then queue == map[]
    else IsMax(queue, popped[0]) && Drains(queue - {popped[0]}, popped[1..])
  }

  ghost predicate InPlace(queue: map<Job, int>) {
    forall m | m in queue :: queue[m] == Score(m) && Datable(m)
  }

  lemma {:induction false} DrainIsSorted(queue: map<Job, int>, popped: seq<Job>)
    requires Drains(queue, popped) && InPlace(queue)
    ensures Elements(popped) == queue.Keys && Distinct(popped)
    ensures forall i, j | 0 <= i < j < |popped| :: !Before(popped[j], popped[i])
    decreases |popped|
  {
    if popped != [] {
      var m, rest := popped[0], popped[1..];
      DrainIsSorted(queue - {m}, rest);
      assert popped == [m] + rest;
      forall j | 0 < j < |popped| ensures popped[j] != m && !Before(popped[j], m) {
        assert popped[j] == rest[j - 1] && rest[j - 1] in Elements(rest);
        ScoreIsLexicographic(popped[j], m);
      }
      assert Elements(popped) == Elements(rest) + {m};
    }
  }

  /** Every run, then a drain: the pops are exactly the queue's members, each once, by
      submitted priority from high to low and by submission time within a priority. */
  lemma RecoveredJobsKeepTheirPlace(s: Sys, es: seq<Event>, popped: seq<Job>)
    requires Initial(s) && Valid(s, es) && Drains(Exec(s, es).store.queue, popped)
    requires forall id | id in Exec(s, es).origin :: Datable(Exec(s, es).origin[id])
    ensures var t := Exec(s, es);
      && Elements(popped) == t.store.queue.Keys && Distinct(popped)
      && (forall i | 0 <= i < |popped| :: popped[i].id in t.origin)
      && (forall i, j | 0 <= i < j < |popped| :: !Before(t.origin[popped[j].id], t.origin[popped[i].id]))
  {
    RunKeepsCopies(s, es);
    DrainsInPlace(Exec(s, es), popped);
  }

  lemma DrainsInPlace(t: Sys, popped: seq<Job>)
    requires CopiesOk(t) && Drains(t.store.queue, popped)
    requires forall id | id in t.origin :: Datable(t.origin[id])
    ensures Elements(popped) == t.store.queue.Keys && Distinct(popped)
    ensures forall i | 0 <= i < |popped| :: popped[i].id in t.origin
    ensures forall i, j | 0 <= i < j < |popped| :: !Before(t.origin[popped[j].id], t.origin[popped[i].id])
  {
    hide CopiesOk, Drains, InPlace;
    QueueIsInPlace(t);
    DrainIsSorted(t.store.queue, popped);
    forall i | 0 <= i < |popped| ensures popped[i].id in t.origin && SameJob(popped[i], t.origin[popped[i].id]) {
      assert popped[i] in Elements(popped);
    }
  }

  lemma QueueIsInPlace(t: Sys)
    requires CopiesOk(t) && forall id | id in t.origin :: Datable(t.origin[id])
    ensures InPlace(t.store.queue) && forall m | m in t.store.queue :: CopyOf(t, m)
  {
  }
}
