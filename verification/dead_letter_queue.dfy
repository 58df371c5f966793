/** dead_letter_queue.py: terminal storage, newest record first. */
module DeadLetters {
  import opened Prelude
  import opened Jobs

  datatype DeadRecord = DeadRecord(job: Job, deadAt: Micros)

  ghost predicate DeadLettered(records: seq<DeadRecord>, id: JobId) {
    exists r | r in records :: r.job.id == id
  }

  class DeadLetterQueue {
    var records: seq<DeadRecord>

    constructor ()
      ensures records == []
    {
      records := [];
    }

    method Add(job: Job, now: Micros)
      modifies this
      ensures records == [DeadRecord(job, now)] + old(records)
    {
      records := [DeadRecord(job, now)] + records;
    }

    method GetAll() returns (all: seq<DeadRecord>)
      ensures all == records
    {
      all := records;
    }

    method Size() returns (n: nat)
      ensures n == |records|
    {
      n := |records|;
    }
  }
}
