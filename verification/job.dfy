/** job.py: the job record, its dictionary form, and the score the queue sorts it by. */
module Jobs {
  import opened Prelude

  /** A UUID, read as the 128-bit number it is. */
  type JobId = nat

  datatype JobStatus = Pending | Running | Done | Failed | Dead

  /** The record every structure stores. The payload is kept as opaque text. */
  datatype Job = Job(
    id: JobId,
    taskName: string,
    payload: string,
    priority: int,
    maxRetries: int,
    attempt: nat,
    status: JobStatus,
    submitTime: Micros,
    nextRetryTime: Micros,
    error: Option<string>
  )

  function IdOf(job: Option<Job>): Option<JobId> {
    if job.None? then None else Some(job.value.id)
  }

  /** The live Job object a worker, the retry manager and the monitor update in place. */
  class JobObject {
    var rec: Job

    constructor (rec: Job)
      ensures this.rec == rec
    {
      this.rec := rec;
    }
  }

  // ---------------------------------------------------------------- dictionary form

  /** What a dictionary holds under "status": text after to_dict, an enum member after from_dict. */
  datatype StatusField = Text(text: string) | Member(status: JobStatus)

  datatype JobDict = JobDict(
    id: JobId,
    taskName: string,
    payload: string,
    priority: int,
    maxRetries: int,
    attempt: nat,
    status: StatusField,
    submitTime: Micros,
    nextRetryTime: Micros,
    error: Option<string>
  )

  class DictObject {
    var fields: JobDict

    constructor (fields: JobDict)
      ensures this.fields == fields
    {
      this.fields := fields;
    }
  }

  function StatusValue(status: JobStatus): string {
    match status
    case Pending => "pending"
    case Running => "running"
    case Done => "done"
    case Failed => "failed"
    case Dead => "dead"
  }

  /** The enum lookup: None stands for its ValueError. A member looks itself up. */
  function StatusOf(field: StatusField): Option<JobStatus> {
    match field
    case Member(status) => Some(status)
    case Text(text) =>
      if text == "pending" then Some(Pending)
      else if text == "running" then Some(Running)
      else if text == "done" then Some(Done)
      else if text == "failed" then Some(Failed)
      else if text == "dead" then Some(Dead)
      else None
  }

  function ToDict(job: Job): JobDict {
    JobDict(job.id, job.taskName, job.payload, job.priority, job.maxRetries, job.attempt,
            Text(StatusValue(job.status)), job.submitTime, job.nextRetryTime, job.error)
  }

  function Decoded(d: JobDict): Option<Job> {
    match StatusOf(d.status)
    case None => None
    case Some(status) =>
      Some(Job(d.id, d.taskName, d.payload, d.priority, d.maxRetries, d.attempt,
               status, d.submitTime, d.nextRetryTime, d.error))
  }

  /** What is written under each key. */
  lemma DictHoldsTheJob(job: Job)
    ensures var d := ToDict(job);
      && d.id == job.id && d.taskName == job.taskName && d.payload == job.payload && d.priority == job.priority
      && d.maxRetries == job.maxRetries && d.attempt == job.attempt && d.submitTime == job.submitTime
      && d.nextRetryTime == job.nextRetryTime && d.error == job.error && d.status.Text?
    ensures ToDict(job).status.text == match job.status
      case Pending => "pending" case Running => "running" case Done => "done" case Failed => "failed" case Dead => "dead"
  {
  }

  /** Builds the record, leaving the enum member behind in the caller's dictionary. */
  method FromDict(data: DictObject) returns (job: Option<Job>)
    modifies data
    ensures job == Decoded(old(data.fields))
    ensures job.None? ==> data.fields == old(data.fields)
    ensures job.Some? ==> data.fields == old(data.fields).(status := Member(job.value.status))
    ensures job.Some? ==> Decoded(data.fields) == job
  {
    var status := StatusOf(data.fields.status);
    if status.None? {
      return None;
    }
    data.fields := data.fields.(status := Member(status.value));
    var d := data.fields;
    job := Some(Job(d.id, d.taskName, d.payload, d.priority, d.maxRetries, d.attempt,
                    status.value, d.submitTime, d.nextRetryTime, d.error));
  }

  /** Reading back what was written gives the record, so distinct records are distinct
      members of a sorted set; and only the five status texts can be read at all. */
  lemma DictRoundTrip(job: Job, d: JobDict)
    ensures Decoded(ToDict(job)) == Some(job)
    ensures d.status.Text? && Decoded(d).Some? ==> ToDict(Decoded(d).value) == d
    ensures Decoded(d).None? <==> d.status.Text? && forall st: JobStatus :: StatusValue(st) != d.status.text
  {
  }

  // ---------------------------------------------------------------- score

  /** Scores are scaled by 10^18, which makes priority - timestamp / 1e12 a whole number. */
  const SCALE: int := 1_000_000_000_000_000_000

  function Score(job: Job): int {
    job.priority * SCALE - job.submitTime
  }

  /** Higher priority first, and the earlier submission first within a priority. */
  predicate Before(a: Job, b: Job) {
    a.priority > b.priority || (a.priority == b.priority && a.submitTime < b.submitTime)
  }

  /** Whatever the timestamps, the first of two jobs comes before the second if and only if it was
      submitted less than 10^12 s later for each step of priority it is ahead. */
  lemma PriorityIsWorthTenToTheTwelve(a: Job, b: Job)
    ensures Score(a) > Score(b) <==>
      a.submitTime - b.submitTime < (a.priority - b.priority) * 1_000_000_000_000_000_000
  {
  }

  /** Timestamps on which the tie-breaker cannot spill into the priority. */
  predicate Datable(job: Job) {
    0 <= job.submitTime < SCALE
  }

  lemma ScoreIsLexicographic(a: Job, b: Job)
    requires Datable(a) && Datable(b)
    ensures Score(a) > Score(b) <==> Before(a, b)
    ensures Before(a, b) <==> a.priority > b.priority || (a.priority == b.priority && a.submitTime < b.submitTime)
  {
  }
}
