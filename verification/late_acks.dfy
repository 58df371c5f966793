/** A late acknowledgement takes the lease of a job away while another worker runs it, with
    nothing wrong but one lost take request. */
module LateAcks {
  import opened Prelude
  import opened Jobs
  import opened DelayedJobs
  import opened Retries
  import opened System
  import opened FaultFree
  import opened PromptAcks

  /** A listed worker runs the job, and no lease stands behind it. */
  ghost predicate RunsUnleased(s: Sys, w: WorkerId, id: JobId) {
    && w in s.workers && s.workers[w].listed && s.workers[w].running
    && s.workers[w].current.Some? && s.workers[w].current.value.id == id
    && id !in s.store.processing
  }

  /** The retry is promoted, and a second worker is there to take it. */
  ghost predicate RetryQueued(s: Sys, retry: Job) {
    && s.workers.Keys == {0, 1} && s.store.queue == map[Promoted(retry) := Score(retry)]
    && PendingId(s.workers[0]) == Some(retry.id) && Free(s, 0) && s.workers[0].running
    && s.workers[1] == NewWorker(0, s.now)
  }

  lemma RetryIsPromoted(s: Sys, retry: Job) returns (e1: Event, e2: Event, t: Sys)
    requires BothDue(s, retry)
    ensures e1.PollPush? && e2.Spawn? && LeadsTo(s, [e1] + [e2], t) && RetryQueued(t, retry)
  {
    e1, e2 := PollPush, Spawn(1, 0);
    var s1 := Apply(s, e1);
    t := Apply(s1, e2);
    assert RetryQueued(t, retry);
    hide *;
    RunOfOneLeads(s, e1);
    ThenOne(s, [e1], s1, e2);
  }

  /** The second worker takes the retry; then the first sends its acknowledgement. */
  lemma RetryIsUnleased(s: Sys, retry: Job) returns (e1: Event, e2: Event, t: Sys)
    requires RetryQueued(s, retry)
    ensures e1.Take? && e2.Take? && LeadsTo(s, [e1] + [e2], t) && RunsUnleased(t, 1, retry.id)
  {
    e1, e2 := Event.Take(1, Some(Promoted(retry))), Event.Take(0, None);
    var s1 := Apply(s, e1);
    assert s1.store.queue == map[];
    t := Apply(s1, e2);
    assert RunsUnleased(t, 1, retry.id);
    hide *;
    RunOfOneLeads(s, e1);
    ThenOne(s, [e1], s1, e2);
  }

  lemma UneventfulIsFaultless(es: seq<Event>)
    requires Uneventful(es)
    ensures FaultlessRun(es)
  {
  }

  lemma FaultlessTogether(a: seq<Event>, b: Event, c: Event, d: seq<Event>, e: Event, f: Event, g: Event, h: Event)
    requires FaultlessRun(a) && FaultlessRun(d)
    requires b.Fail? && c.TakeLostRequest? && e.PollPush? && f.Spawn? && g.Take? && h.Take?
    ensures FaultlessRun(a + [b] + [c] + d + ([e] + [f]) + ([g] + [h]))
  {
  }

  /** Faultless runs do let workers run without a lease: from a fresh system, for every job that
      may be retried, one failed attempt and one take request lost right after it lead there. */
  lemma FaultlessRunsCanUnlease(s: Sys, job: Job) returns (es: seq<Event>)
    requires Initial(s) && s.now + 2 * SECOND <= MAX_DATETIME
    requires job.attempt == 0 && job.status == Pending && job.submitTime <= s.now && job.maxRetries >= 2
    ensures Valid(s, es) && FaultlessRun(es) && RunsUnleased(Exec(s, es), 1, job.id)
  {
    hide *;
    var s1, s2, s3, s4, s5, s6, retry, before, due, failure, lost, push, spawn, take, ack;
    before, s1 := LeadsToFirstAttempt(s, job);
    failure, s2, retry := FirstFailure(s1, job);
    lost, s3 := LostTake(s2, retry);
    due, s4 := RetryFallsDue(s3, retry);
    push, spawn, s5 := RetryIsPromoted(s4, retry);
    take, ack, s6 := RetryIsUnleased(s5, retry);
    Then(s, before, s1, [failure], s2);
    Then(s, before + [failure], s2, [lost], s3);
    Then(s, before + [failure] + [lost], s3, due, s4);
    Then(s, before + [failure] + [lost] + due, s4, [push] + [spawn], s5);
    Then(s, before + [failure] + [lost] + due + ([push] + [spawn]), s5, [take] + [ack], s6);
    es := before + [failure] + [lost] + due + ([push] + [spawn]) + ([take] + [ack]);
    WhatLeadsToSays(s, es, s6);
    UneventfulIsFaultless(before);
    UneventfulIsFaultless(due);
    FaultlessTogether(before, failure, lost, due, push, spawn, take, ack);
  }
}
