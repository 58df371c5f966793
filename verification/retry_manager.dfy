/** retry_manager.py: attempt counting, exponential backoff and the dead-letter decision. */
module Retries {
  import opened Prelude
  import opened Jobs
  import opened DeadLetters
  import opened DelayedJobs

  /** BASE_DELAY, 0.5 s, and the upper end of the jitter, which is the same. */
  const BASE_DELAY: Micros := 500_000

  /** The last instant a datetime can hold: 9999-12-31T23:59:59.999999. */
  const MAX_DATETIME: Micros := 253_402_300_799_999_999

  predicate IsJitter(jitter: Micros) {
    0 <= jitter <= BASE_DELAY
  }

  function Backoff(attempt: nat, jitter: Micros): Micros {
    BASE_DELAY * Pow2(attempt) + jitter
  }

  /** What handle_failure decides. NoDate is its OverflowError: the retry time is past the
      last datetime, and nothing has been written. */
  datatype Decision = DeadLetter(job: Job) | Retry(job: Job) | NoDate(job: Job)

  function Decide(job: Job, error: string, now: Micros, jitter: Micros): Decision {
    var failed := job.(attempt := job.attempt + 1, error := Some(error));
    if failed.attempt >= failed.maxRetries then
      DeadLetter(failed.(status := Dead))
    else
      var due := now + Backoff(failed.attempt, jitter);
      if due > MAX_DATETIME then NoDate(failed) else Retry(failed.(nextRetryTime := due, status := Pending))
  }

  /** What recording the decision writes to the dead letters, and to the delayed set. */
  function DeadAfter(dlq: seq<DeadRecord>, d: Decision, now: Micros): seq<DeadRecord> {
    if d.DeadLetter? then [DeadRecord(d.job, now)] + dlq else dlq
  }

  function DelayedAfter(delayed: map<Job, Micros>, d: Decision): map<Job, Micros> {
    if d.Retry? then delayed[d.job := d.job.nextRetryTime] else delayed
  }

  /** The attempt on which a job is given up. */
  function LastAttempt(job: Job): nat {
    Max(1, job.maxRetries)
  }

  class RetryManager {
    const delayedQueue: DelayedQueue
    const dlq: DeadLetterQueue

    constructor (delayedQueue: DelayedQueue, dlq: DeadLetterQueue)
      ensures this.delayedQueue == delayedQueue && this.dlq == dlq
    {
      this.delayedQueue := delayedQueue;
      this.dlq := dlq;
    }

    /** Updates the live job in place and records it in exactly one place, or, when the retry
        time has no date, in none. */
    method HandleFailure(job: JobObject, error: string, now: Micros, jitter: Micros) returns (raised: bool)
      requires 0 <= jitter <= 500_000
      modifies job, delayedQueue, dlq
      ensures job.rec.attempt == old(job.rec.attempt) + 1 && job.rec.error == Some(error)
      ensures job.rec == old(job.rec).(attempt := job.rec.attempt, error := job.rec.error,
                                       status := job.rec.status, nextRetryTime := job.rec.nextRetryTime)
      ensures job.rec.attempt >= job.rec.maxRetries ==>
        && !raised && job.rec.status == Dead && job.rec.nextRetryTime == old(job.rec.nextRetryTime)
        && dlq.records == [DeadRecord(job.rec, now)] + old(dlq.records) && delayedQueue.delayed == old(delayedQueue.delayed)
      ensures job.rec.attempt < job.rec.maxRetries && !raised ==>
        && job.rec.status == Pending && job.rec.nextRetryTime == now + Pow2(job.rec.attempt) * 500_000 + jitter
        && dlq.records == old(dlq.records) && delayedQueue.delayed == old(delayedQueue.delayed)[job.rec := job.rec.nextRetryTime]
      ensures raised <==>
        && job.rec.attempt < job.rec.maxRetries
        && now + Pow2(job.rec.attempt) * 500_000 + jitter > 253_402_300_799_999_999
      ensures raised ==>
        && job.rec.status == old(job.rec.status) && job.rec.nextRetryTime == old(job.rec.nextRetryTime)
        && dlq.records == old(dlq.records) && delayedQueue.delayed == old(delayedQueue.delayed)
      ensures job.rec == Decide(old(job.rec), error, now, jitter).job
      ensures match Decide(old(job.rec), error, now, jitter)
        case DeadLetter(dead) =>
          !raised && dlq.records == [DeadRecord(dead, now)] + old(dlq.records) && delayedQueue.delayed == old(delayedQueue.delayed)
        case Retry(next) =>
          !raised && delayedQueue.delayed == old(delayedQueue.delayed)[next := next.nextRetryTime] && dlq.records == old(dlq.records)
        case NoDate(_) =>
          raised && delayedQueue.delayed == old(delayedQueue.delayed) && dlq.records == old(dlq.records)
    {
      job.rec := job.rec.(attempt := job.rec.attempt + 1);
      job.rec := job.rec.(error := Some(error));
      if job.rec.attempt >= job.rec.maxRetries {
        job.rec := job.rec.(status := Dead);
        dlq.Add(job.rec, now);
        return false;
      }
      var delay := BASE_DELAY * Pow2(job.rec.attempt) + jitter;
      if now + delay > MAX_DATETIME {
        return true;
      }
      job.rec := job.rec.(nextRetryTime := now + delay);
      job.rec := job.rec.(status := Pending);
      delayedQueue.Add(job.rec);
      raised := false;
    }
  }
}
