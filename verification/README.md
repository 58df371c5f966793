# Orion Queue: a model of leased, at-least-once delivery

Orion Queue keeps jobs in Redis. A pop does not delete a job, it leases it: the job moves into a
processing set under a deadline, and the worker acknowledges it once its outcome is recorded. A
dead worker's lease runs out and the reaper puts the job back. The repository's claim is that no
accepted job is lost, whichever process dies and whichever call fails. This project models the code
behind that claim and proves when it holds, and when it does not.

## How the model is built

Time is a whole number of microseconds on one clock, a job id is the 128-bit number behind its
UUID, and a member of a sorted set is the job record itself.

1. **The structures**, in the form the code has them: classes with fields that methods update in
   place, each method proved against a function on values. `priority_queue.dfy` has one method per
   Lua script on top of `lease_model.dfy`; `delayed_queue.dfy`, `dead_letter_queue.dfy`,
   `retry_manager.dfy`, `lease_reaper.dfy`, `worker.dfy`, `worker_pool.dfy` and `job.dfy` follow
   the files of the same names.
2. **The whole system** (`system.dfy`): a state machine whose steps are single Redis commands and
   scripts, with lost requests, lost replies, stalled workers that live on after being replaced,
   interrupted polls, and crashes of workers, pools and the scheduler. An event carries every
   choice its step leaves open, so a run is a sequence of events and a theorem about the end of
   every run is one about every reachable state. `Workers.TurnIsARun` and `passes.dfy` tie the
   methods of the worker, the scheduler, the reaper and the monitor to these steps.
   `leases.dfy`, `heartbeats.dfy` and `history.dfy` say what the steps do from outside: from the
   events, their times and the numbers of the source alone.
3. **The theorems**, in the other files.

## What is proved

- **No loss, and exactly when.** Leases are keyed by job id, not by holder, so an acknowledgement
  deletes whoever's lease is under its id. In every run in which poll promotes a retry only when no
  unsent acknowledgement for its job is left (or another recorded outcome stands behind it), no
  accepted job is lost (`no_loss.dfy`). The guard is exact: at a promotion that violates it, some
  continuation loses the job, and a lost job never comes back (`promotion_guard.dfy`).
- **At least once.** After any run whatever, one continuation completes or dead-letters every job
  that is not lost, and none finishes a lost one; so with safe promotions every submitted job can
  still be finished, whatever crashed and whichever calls were lost (`completion.dfy`).
- **Timing discharges the guard, barely.** The first backoff is at least one second, so
  acknowledgements confirmed within a second make every promotion safe. But the worker's error
  back-off is one second too: one failed take leaves that window, and one lost take request after
  a failed attempt is enough to lose a job for good (`prompt_acks.dfy`).
- **Self-healing.** A worker may be replaced exactly when its pool lists it and its last empty or
  failed take, success or failure is more than ten seconds back in the run; so one that finishes
  its tasks and comes back in time never is (`heartbeats.dfy`).
- **Recovery and renewal.** Every change of every lease is accounted for by the event that made it
  (`leases.dfy`). A lease that its own pool no longer renews ends within one lease plus the reap
  interval, holder alive or not and whatever other pools renew; and within that time the reaper has
  taken an orphaned lease back and queued its job, however many copies are queued, unless a copy
  was popped before (`recovery.dfy`). A running job of a live pool is never reaped if and only if
  the lease exceeds the longest gap between renewals, which is computed from the lease, the one
  second at least and the period at most between monitor passes, and the failures in a row
  (`renewal.dfy`).
- **Without faults, exactly once.** Without crash, stall or expiry, and with no call lost but take
  requests and submission replies, every job is in one place, completes or dies exactly once, and
  the work runs out by a measure, whether promotions are safe or not (`fault_free.dfy`,
  `draining.dfy`). A job is leased only while a worker runs it or has still to acknowledge it;
  exactly then if and only if no acknowledgement is sent of a job another worker runs or owes,
  which safe promotions rule out and one lost take request can bring about (`late_acks.dfy`).
- **A clean stop strands nothing.** As long as the workers' own calls work and failures are
  recorded, whatever expires, is replaced, restarts or is promoted early, every lease has a worker
  that runs or owes its job, and none is left when all have stopped (`clean_stop.dfy`).
- **Piggybacked acknowledgements.** Acknowledging on the next take refines acknowledging at once,
  in every run with safe promotions and without expiry, stall or scheduler crash: failed takes
  that keep the acknowledgement, lost replies, unrecorded failures and dead workers included
  (`eager_acks.dfy`).
- **Every copy of a job**, duplicates included, stays in its attempt bounds, waits out its backoff
  and keeps its place in the queue (`copies.dfy`, `ordering.dfy`). It is as submitted, or carries
  the error of a failure that happened and a retry time that follows from the time of that failure,
  no more than the jitter late; a dead letter names the failure it died of (`history.dfy`).
  Binary64 rounding does not disturb the order of scores (`float_scores.dfy`).
- **Leases are conserved.** Every lease granted is acknowledged, requeued, reaped, in flight, or
  overwritten by the pop of a second copy; without the last exactly when no take pops a leased job
  (`lease_ledger.dfy`). Runs of the system are such sequences, and some do pop a second copy
  (`lease_accounts.dfy`).

## Where the code and its documentation differ

- The documentation promises that a job is never lost, only run twice (`README.md:91-95`,
  `worker.py:64-70`, `worker_main.py:104-105`). `PromptAcks.OneLostRequestCanLoseAJob` builds a run
  of the code that loses an accepted job with nothing but one failed attempt, one lost request
  right after it and later deaths of workers.
- `config.py:58-64` says that a live worker never loses its lease, and `worker_pool.py:127-128` that
  after a missed renewal there are two more before the lease runs out. With monitor passes exactly
  a second apart, `Renewal.LongEnoughLeases` and `Renewal.ShorterLeasesAreReaped` show that the
  first fails for `LEASE_SECONDS` of one second or less, which nothing in the code forbids, and for
  no others; and that the second fails for every lease: a renewal is tried at the first pass that
  is a third of the lease after the last try, so the third try can come once the lease has run out.
- A retry dated past the year 9999 (attempt 39 and up) raises inside `handle_failure`. The model
  has that branch (`Retries.Decide`); such a job is rerun from its lease instead of dead-lettered.

## Model

| member | source | states |
|---|---|---|
| `NoLoss.NoAcceptedJobIsLost` | worker.py:97-184 | in every run of the whole system from empty whose promotions are safe, each accepted id is queued, leased, delayed, dead-lettered or done |
| `NoLoss.StepKeepsInv` | priority_queue.py:36-123 | every step, lost calls and crashes included, keeps: the three lease keys agree, every submitted id is somewhere, and every unsent acknowledgement has a recorded outcome not yet promoted away behind it |
| `PromotionGuard.PromotionGuardIsExact` | delayed_queue.py:17-27 | at any reachable promotion, the guard holds if and only if no continuation with safe promotions loses the job |
| `PromotionGuard.UnsafePromotionLosesTheJob` | priority_queue.py:78-83 | from any consistent state about to make an unsafe promotion, a run without further promotions ends with the job in no structure and no worker running it |
| `PromotionGuard.LostIsForever` | priority_queue.py:36-123 | once a job is lost no continuation of any kind brings it back |
| `PromptAcks.PromptRunsLoseNothing` | retry_manager.py:12-27 | in every run in which each acknowledgement is confirmed, or its worker gone, less than 1 s after the outcome was recorded, every promotion is safe and no job is lost |
| `PromptAcks.WindowImpliesGuard` | retry_manager.py:21-27 | inside that window the promotion guard follows from the one-second floor of the backoff |
| `PromptAcks.FailedTakeMissesTheWindow` | worker.py:114-126 | after one take with a pending acknowledgement has raised, the worker does not get rid of it within the second unless its process dies |
| `PromptAcks.OneLostRequestCanLoseAJob` | worker.py:112-135 | from a fresh system, for every job that may be retried, a run in which nothing goes wrong but one failed attempt, one take request lost right after it, and deaths of workers, loses the accepted job, whatever happens afterwards |
| `Completion.CompletionIsExact` | worker.py:64-70 | after any run, guarded or not, some continuation completes or dead-letters a submitted job if and only if it is in some durable place or a worker runs it |
| `Completion.EveryJobCanBeFinished` | lease_reaper.py:28-55 | after any run with safe promotions, whatever crashed and whichever calls were lost, one continuation with safe promotions completes or dead-letters every job submitted |
| `Recovery.OrphanedJobsComeBack` | config.py:66-68 | in any run, once a lease has no live holder and reap passes keep finishing every interval, then by lease + interval later the reaper has taken that lease back and put its job in the queue, or a queued copy of the job has been popped |
| `Recovery.StepLeavesOrphan` | priority_queue.py:108-123 | whatever step happens, an orphaned lease stays, unowned and with no later deadline, but for a reap that takes it back and a pop of a second copy of the job |
| `Recovery.UnrenewedLeasesEnd` | worker_pool.py:101-111 | in any run, whether the holder lives or not: once no pool that lists a worker on the job renews, whatever other pools renew, and reap passes keep finishing every interval, then by lease + interval later the reaper has taken the lease back and queued the job, or the job was acknowledged, handed back or popped again |
| `Leases.StepMovesLease` | priority_queue.py:36-123 | every step does to every lease what its event says: a pop grants one until now + lease, with the record popped; an acknowledgement, a job handed back and a reap end one; a renewal a third of the lease and a second after the last try moves those of the jobs run by its own pool's listed workers to now + lease; nothing else touches one |
| `Leases.RenewsExactlyWhenDue` | worker_pool.py:113-132 | after any run a monitor may go round if and only if its last pass is a second or more ago, and then renews a lease if and only if a worker in its own list runs the job, the call gets through, and its last try, read off the events of the run, is max(1 s, lease / 3) or more ago |
| `Recovery.StepKeepsDeadlines` | priority_queue.py:98-123 | no deadline lies more than one lease ahead, and none that the last drained reap pass could have found expired remains |
| `Renewal.LiveWorkersAreNeverReaped` | worker_pool.py:101-132 | with monitor passes between 1 s and a given period apart, and a lease longer than the gap that these and the allowed number of failed renewals in a row can open, the reaper never finds the lease of a job expired that a listed worker runs |
| `Renewal.ShorterLeasesAreReaped` | worker_pool.py:34-38 | for every lease no longer than that gap, every period and every job, a run whose monitor passes are 1 s at least and the period at most apart, with no more failures in a row, lets the reaper take a running job's lease |
| `Renewal.LongEnoughLeases` | worker_pool.py:120-132 | with passes exactly 1 s apart the lease exceeds the gap if and only if it is over 1 s, if no renewal fails; if and only if it is over 2 s and at most 3 s, or over 4 s, if no two in a row fail; and for any period no lease does if two in a row may |
| `Renewal.DefaultLeaseSurvivesOneFailure` | config.py:58-64 | the default lease of 30 s survives one failed renewal if and only if monitor passes are at most 5 s apart |
| `Renewal.PassKeepsTimes` | worker_pool.py:120-132 | the timing of a pass (which leases it moves is `Leases.StepMovesLease`): it keeps the bounds between passes, rounds since the last renewal attempt, failures so far and last successful renewal |
| `Heartbeats.ReplacedExactlyAfterTenSeconds` | worker_pool.py:62-97 | after any run, a worker may be replaced if and only if its pool lists it and the last event that is a sign of life of it (start, empty or failed take, success, failure) is more than 10 s ago |
| `Heartbeats.NotReplacedSoonAfterASign` | worker.py:114-184 | in any run, no replacement is possible within 10 s after an empty or failed take, a success or a failure of the worker |
| `Heartbeats.LiveWorkersAreNeverReplaced` | worker_pool.py:11-18 | a worker that ends every task within one time and otherwise takes again within another is never replaced if the two come to at most 10 s |
| `Heartbeats.TakesExactlyWhenAwake` | worker.py:112-135 | after any run, a worker may take if and only if it has no job, has not been stopped, and 0.1 s have passed since an empty take and 1 s since a failed one; it gets a job of the highest score, and nothing if and only if the queue is empty; it may leave if and only if it has been stopped |
| `FaultFree.FaultlessDeliveryIsExactlyOnce` | worker.py:112-184 | in every run without crash, stall, expiry, lost take reply, unrecorded failure or lost exit acknowledgement, promotions safe or not, every job is in exactly one of queue, worker, delayed set, dead letters and done, at most once there, and leased only while run or unacknowledged; exactly then if promotions were safe |
| `FaultFree.LeasesMatchExactly` | priority_queue.py:56-73 | throughout such a run each job is leased exactly while run or unacknowledged, if and only if no acknowledgement is sent of a job that another worker runs or owes, unless by a take that leases it anew |
| `LateAcks.FaultlessRunsCanUnlease` | worker.py:114-126 | from a fresh system, for every job that may be retried, such a run with one failed attempt and one lost take request ends with a listed worker running the job without a lease |
| `FaultFree.StepStaysSingle` | worker.py:128-184 | every such step keeps that each job is in exactly one place; every safe step but expiry, stall and scheduler crash keeps that none is in two |
| `CleanStop.CleanStopStrandsNothing` | worker.py:97-110 | in every run in which no worker or pool dies, no reply with a job is lost, failures are recorded and exit acknowledgements arrive, whatever expires, is replaced, restarts or is promoted early: when all workers have left their loops, no lease is left and a reap finds nothing |
| `CleanStop.EveryLeaseHasItsWorker` | worker.py:112-135 | at every point of such a run some worker runs or has still to acknowledge each leased job |
| `Draining.DrainingTerminates` | retry_manager.py:12-27 | whatever the tasks do and whichever promotions are unsafe, a faultless run without submissions makes at most as many productive steps as its start has work |
| `Draining.WorkCanGoOn` | worker.py:112-135 | while there is work and a worker in its loop, a faultless productive step with safe promotions is at most a wait away |
| `Draining.EverythingCanFinish` | delayed_queue.py:17-27 | after any faultless run that leaves a worker in its loop, promotions safe or not, a faultless continuation with safe promotions ends with every job done exactly once or dead exactly once, and with no lease and no queue entry |
| `Draining.DrainedMeansSettled` | dead_letter_queue.py:11-14 | when the work of a faultless run has run out, every job is done exactly once or dead exactly once, never both, and no lease and no queue entry is left |
| `EagerAcks.PiggybackedAcksRefineEagerOnes` | worker.py:98-135 | every run with safe promotions and without expiry, stall or scheduler crash is, event for event, a run of the loop that acknowledges at once: same pops in the same order, same final state but for leases of jobs with an outcome recorded since they were last popped, which nobody runs; without faults just the unacknowledged ones |
| `EagerAcks.StepRefines` | priority_queue.py:50-83 | deleting the leases of such jobs commutes with every such step, takes that raised and unrecorded failures included |
| `Copies.AttemptsAreBounded` | retry_manager.py:13-19 | in every run every queued or leased copy has attempt below max(1, max_retries), every delayed one too and at least 1, and every dead letter exactly max(1, max_retries) |
| `Copies.BackoffIsWaitedOut` | retry_manager.py:21-27 | in every run a queued or leased copy on attempt a is there no earlier than submission + (2^a - 1) s, and a dead letter of attempt m no earlier than submission + (2^(m-1) - 1) s |
| `Copies.StepKeepsCopies` | priority_queue.py:87-94 | every step, duplicates and lost leases included, leaves every copy equal to the submitted job but for its progress fields, with its own score, in its attempt bounds and its backoff waited out |
| `History.CopiesTellTheirHistory` | retry_manager.py:12-27 | in every run: what is queued or leased is pending and either the submitted record or what a failed attempt of the run made of it, with its attempt, its error and a retry time 0.5 * 2^attempt s after that failure and at most 0.5 s more; so is what a worker runs, and what is delayed has failed; each dead letter names the failure it died of and when, newest first |
| `History.RetriesComeInTime` | retry_manager.py:21-27 | in every run each copy with attempt 1 or more carries an error, and each delayed one is due within 0.5 * 2^attempt + 0.5 s |
| `Ordering.RecoveredJobsKeepTheirPlace` | priority_queue.py:161-168 | after any run, a drain pops exactly the queue's members, each once, by submitted priority and then submission time, whichever way they came onto the queue |
| `Ordering.DrainIsSorted` | priority_queue.py:36-48 | repeated ZPOPMAX empties a queue whose scores are the jobs' own in that order |
| `LeaseLedger.LeasesAreConserved` | priority_queue.py:36-123 | over any operations, whatever is pushed: leases granted = held acks + effective requeues + reaped + overwritten + in flight |
| `LeaseLedger.BalanceIsExact` | priority_queue.py:69-71 | without the overwritten ones the balance holds if and only if no take pops a job that is still leased after its acknowledgement |
| `LeaseLedger.FreshPushesKeepTheBalance` | priority_queue.py:36-123 | if pushes are of ids neither queued nor leased, nothing is overwritten, each id has one queue member, and none is both queued and leased |
| `LeaseLedger.NotHeldWasConsumed` | priority_queue.py:76-83 | if an acknowledgement finds a lease not held that was granted, some acknowledgement, requeue or reap in between found it held and took it |
| `LeaseAccounts.RunsConserveLeases` | priority_queue.py:36-123 | every run of the whole system is such a sequence of operations, with both results |
| `LeaseAccounts.SecondCopyBreaksTheBalance` | worker.py:156-168 | for every job that may be retried, a run whose one fault is a failure recorded by a call that raised puts two copies on the queue and pops both, and the balance is off |
| `LeaseModel.ReapMovesLeasesToTheQueue` | priority_queue.py:108-123 | a reap queues the payload of each lease it takes, leaves the others as they were, and drops nothing from the queue |
| `LeaseModel.ReapCount` | priority_queue.py:110-122 | the number of leases falls by one per id reaped: no payload is ever missing |
| `PriorityQueue.RedisPriorityQueue.Push` | priority_queue.py:167-168 | adds the job under its score, or re-scores it if it is there |
| `PriorityQueue.RedisPriorityQueue.Pop` | priority_queue.py:36-48 | pops a member of maximal score, if any, and leases it until now + lease with its payload and score |
| `PriorityQueue.RedisPriorityQueue.Take` | priority_queue.py:56-73 | leaves the store as an ack followed by a pop would, and reports whether the acknowledged lease was held |
| `PriorityQueue.RedisPriorityQueue.Ack` | priority_queue.py:78-83 | removes whatever lease is under the id; true exactly if there was one |
| `PriorityQueue.RedisPriorityQueue.Requeue` | priority_queue.py:87-94 | returns the job to the queue exactly if its lease is held, and otherwise changes nothing |
| `PriorityQueue.RedisPriorityQueue.Renew` | priority_queue.py:98-104 | moves the deadlines of the existing leases asked for, creates none, and counts the deadlines that changed |
| `PriorityQueue.RedisPriorityQueue.ExpiredBatch` | priority_queue.py:109 | the earliest expired leases, in order of deadline, up to the limit |
| `PriorityQueue.RedisPriorityQueue.ReapExpired` | priority_queue.py:108-123 | takes back such a batch and returns its size, which is how far the number of leases falls |
| `Reaper.LeaseReaper.ReapOnce` | lease_reaper.py:28-41 | ends, leaves no lease that had expired when it began, takes none not expired, in batches of which only the last is short, and returns exactly how far the number of leases fell |
| `DelayedJobs.DelayedQueue.Poll` | delayed_queue.py:17-27 | queues exactly the entries due, with status pending, nothing else changed and each under its score, in the order of their times, and removes exactly those from the delayed set |
| `DelayedJobs.PollIsRestartable` | delayed_queue.py:17-27 | a poll stopped between any two calls and run again later reaches the state of one uninterrupted poll at the later time |
| `DelayedJobs.NothingIsInBetween` | delayed_queue.py:22-26 | at every intermediate point each delayed entry is still delayed or its promoted record is on the queue |
| `Retries.RetryManager.HandleFailure` | retry_manager.py:12-27 | attempt + 1 and the error on the live job; at max_retries it is dead and the newest dead letter; before, it is pending and delayed until now + 0.5 * 2^attempt s + jitter; or, if that is past the year 9999, the call raises with nothing written |
| `Workers.Worker.TakeTurn` | worker.py:112-184 | one time round the loop, for every outcome of the take, the task and the recording; the heartbeat is the time of the take if it raised or found nothing, and of the end of the task otherwise |
| `Workers.IdleTurn` | worker.py:114-135 | a take that raises keeps the acknowledgement owed; one that finds nothing has sent it; neither touches the delayed set or the dead letters |
| `Workers.BusyTurn` | worker.py:137-184 | the job is leased until the take + lease; if the task returns, the done job is owed; if it throws, the failed job is dead or delayed unless the recording raised first, and owed only if it did not raise at all |
| `Workers.Worker.Run` | worker.py:97-110 | the whole thread over any script of such turns; if every call works, it exits holding no lease it took |
| `Workers.TurnIsARun` | worker.py:112-184 | a turn of the loop is a run of the state machine's worker steps with the same effect |
| `Passes.PollIsARun` | delayed_queue.py:17-27 | the poll method's result is that of the state machine's read followed by a push and a removal for each entry due |
| `Passes.ReapPassIsARun` | lease_reaper.py:28-41 | the batches of a reap pass, each at its time, are Reap events with the same result, and the pass counts as drained when its last batch is short |
| `Passes.MonitorPassIsARun` | worker_pool.py:62-99 | a check_once pass is one Replace event for each listed worker silent for more than 10 s, with the same store; afterwards the list is as long as before, with a new running worker without a job in the place of each of those, and nobody else has changed |
| `Passes.RenewalIsARun` | worker_pool.py:101-111 | a renewal pass of a pool, if due and not lost, does to the leases what the method does for the workers in its list: it moves exactly theirs to now + lease; otherwise it moves none |
| `Workers.CleanScriptOwesOneAck` | worker.py:112-179 | while every call works, at most one acknowledgement is owed and every lease taken is that one's |
| `WorkerPools.WorkerPool.CheckOnce` | worker_pool.py:62-99 | one monitor pass: the list keeps its length; exactly the workers whose heartbeat is more than 10 s old are stopped and replaced at their own index by new idle ones, their number is returned, and the others are untouched |
| `WorkerPools.MonitorPassIsExact` | worker_pool.py:71-94 | after a pass the leases of ids that stale workers held are gone, each such live lease added exactly one record, the first holder's, and lost leases added nothing, even when two stale workers hold one id |
| `WorkerPools.WorkerPool.RenewLeases` | worker_pool.py:101-111 | extends exactly the live leases of the jobs its workers run |
| `Jobs.FromDict` | job.py:47-50 | builds the record or fails, and leaves the enum member in the caller's dictionary, so that reading it again gives the same record |
| `Jobs.DictHoldsTheJob` | job.py:33-45 | each key holds the field of its name, and the status its text |
| `Jobs.DictRoundTrip` | job.py:33-50 | reading back what was written gives the record, writing back what was read gives the text, and exactly the five status texts can be read |
| `Jobs.ScoreIsLexicographic` | priority_queue.py:161-165 | for timestamps in [0, 10^12) s scores order by priority and then by earlier submission |
| `Jobs.PriorityIsWorthTenToTheTwelve` | priority_queue.py:161-165 | for all timestamps and priorities, a job's score is the higher if and only if it was submitted less than 10^12 s later for each step of priority it is ahead |
| `FloatScores.PrioritiesStayApart` | priority_queue.py:162-165 | with any round-to-nearest binary64, jobs of different priority are never tied or inverted for timestamps up to 5 * 10^11 s |
| `FloatScores.SubmissionOrderIsKept` | priority_queue.py:162-165 | rounding never inverts two submissions of one priority |
| `FloatScores.FourMillisecondsAreEnough` | job.py:14-18 | CRITICAL jobs submitted at least 4 ms apart, up to 10^11 s, get strictly ordered scores |

## Left out

- HTTP routes, probes, metrics, signal handling, entrypoints, the benchmark and the crash script: plumbing; a submission is one push of a fresh id.
- Job status records (`job_store.py`): best-effort writes that never affect delivery.
- JSON text and its decoding by Lua: a record and its encoding are taken as one to one; unreadable or foreign queue entries, dictionaries with missing keys, and `clear` are not represented.
- Which of several equal scores ZPOPMAX returns first, and the order of equal deadlines: left open, so every result holds for any choice.
- Task bodies and the registry: a task ends or throws, as the event says; an unregistered task throws.
- The distribution of the jitter: any value from 0 to 0.5 s.
- Clock skew, daylight saving and memory races between threads: one clock, and a worker's step from the task's end to `current_job = None` is atomic with respect to its pool's monitor, as is the monitor's reading of the running ids.
- Duration of calls and socket timeouts: a call happens, or is lost, at one instant.
- Two schedulers polling at once: documented as unsupported (`README.md:299-301`).
- The `_monitor` loop, `scale_up` and `scale_down` as methods: they are the events MonitorPass, Spawn and Stop of the state machine.
- Negative attempt numbers: an attempt counts from zero, as every submission starts it.
- ReapOnce: asks for a batch of at least 1, because with a smaller one the exit test `n < batch` of the source can never hold and the pass does not end; interference by other processes is in the state machine, where a pass is a series of Reap events.
- PiggybackedAcksRefineEagerOnes: leaves out expired leases taken back, stalled workers replaced and scheduler crashes; then finished jobs come back in the one loop and not in the other, or a job is promoted twice.
