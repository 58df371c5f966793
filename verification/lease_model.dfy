/** The Redis keys behind priority_queue.py as one value, and each Lua script as a function on it.

    The scripts run atomically, so a script is one step. A member of a sorted set is the job
    record itself: adding a member that is already there only sets its score. */
module LeaseModel {
  import opened Prelude
  import opened Jobs

  datatype Store = Store(
    queue: map<Job, int>,
    processing: map<JobId, Micros>,
    payload: map<JobId, Job>,
    leaseScore: map<JobId, int>
  )

  const EMPTY_STORE := Store(map[], map[], map[], map[])

  /** The three lease keys hold the same ids, each under the payload it names. */
  ghost predicate WellFormed(s: Store) {
    && s.payload.Keys == s.processing.Keys
    && s.leaseScore.Keys == s.processing.Keys
    && forall id | id in s.payload :: s.payload[id].id == id
  }

  /** Every score stored anywhere is the score of the job it is stored with. */
  ghost predicate Scored(s: Store) {
    && (forall m | m in s.queue :: s.queue[m] == Score(m))
    && (forall id | id in s.payload && id in s.leaseScore :: s.leaseScore[id] == Score(s.payload[id]))
  }

  ghost predicate Queued(s: Store, id: JobId) {
    exists m | m in s.queue :: m.id == id
  }

  // ---------------------------------------------------------------- scripts

  function Pushed(s: Store, job: Job): Store {
    s.(queue := s.queue[job := Score(job)])
  }

  /** What ZPOPMAX may return; which of several equal scores comes first is left open. */
  predicate IsMax(queue: map<Job, int>, m: Job) {
    m in queue && forall other | other in queue :: queue[other] <= queue[m]
  }

  predicate CanPop(queue: map<Job, int>, popped: Option<Job>) {
    match popped
    case None => queue == map[]
    case Some(m) => IsMax(queue, m)
  }

  function Released(s: Store, id: JobId): Store {
    s.(processing := s.processing - {id}, payload := s.payload - {id}, leaseScore := s.leaseScore - {id})
  }

  function Popped(s: Store, popped: Option<Job>, deadline: Micros): Store
    requires CanPop(s.queue, popped)
  {
    match popped
    case None => s
    case Some(m) =>
      Store(s.queue - {m},
            s.processing[m.id := deadline],
            s.payload[m.id := m],
            s.leaseScore[m.id := s.queue[m]])
  }

  function Acked(s: Store, ack: Option<JobId>): Store {
    if ack.None? then s else Released(s, ack.value)
  }

  /** The combined script: acknowledge, then lease the next job. */
  function Taken(s: Store, ack: Option<JobId>, popped: Option<Job>, deadline: Micros): Store
    requires CanPop(s.queue, popped)
  {
    Popped(Acked(s, ack), popped, deadline)
  }

  function Requeued(s: Store, job: Job): Store {
    if job.id in s.processing then Pushed(Released(s, job.id), job) else s
  }

  function Renewed(s: Store, ids: set<JobId>, deadline: Micros): Store {
    s.(processing := map id | id in s.processing :: if id in ids then deadline else s.processing[id])
  }

  /** The leases a renewal reports: those that exist and whose deadline it moves. */
  function Extended(s: Store, ids: set<JobId>, deadline: Micros): set<JobId> {
    set id | id in s.processing && id in ids && s.processing[id] != deadline
  }

  /** A legal answer of ZRANGEBYSCORE -inf now LIMIT 0 limit: the earliest expired leases. */
  ghost predicate IsExpiredBatch(processing: map<JobId, Micros>, now: Micros, limit: int, ids: seq<JobId>) {
    && Distinct(ids)
    && (forall id | id in ids :: id in processing && processing[id] <= now)
    && (forall i, j | 0 <= i < j < |ids| :: processing[ids[i]] <= processing[ids[j]])
    && (limit >= 0 ==> |ids| <= limit)
    && (forall other | other in processing && processing[other] <= now && other !in ids ::
          && |ids| == limit
          && forall id | id in ids :: processing[id] <= processing[other])
  }

  /** One lease taken back: its three entries gone, its payload on the queue under its old score. */
  function ReapedOne(s: Store, id: JobId): Store {
    var rest := Released(s, id);
    if id !in s.payload then rest
    else rest.(queue := s.queue[s.payload[id] := if id in s.leaseScore then s.leaseScore[id] else 0])
  }

  function Reaped(s: Store, ids: seq<JobId>): Store {
    if ids == [] then s else ReapedOne(Reaped(s, ids[..|ids| - 1]), ids[|ids| - 1])
  }

  // ---------------------------------------------------------------- facts about the scripts

  lemma MaxExists(queue: map<Job, int>) returns (m: Job)
    requires queue != map[]
    ensures IsMax(queue, m)
    decreases |queue|
  {
    var k :| k in queue;
    var rest := queue - {k};
    if rest == map[] {
      assert queue.Keys - {k} == rest.Keys == {};
      assert queue.Keys == {k};
      m := k;
    } else {
      assert rest.Keys == queue.Keys - {k};
      var m0 := MaxExists(rest);
      m := if queue[m0] >= queue[k] then m0 else k;
      forall other | other in queue ensures queue[other] <= queue[m] {
        if other != k { assert other in rest; }
      }
    }
  }

  lemma PopExists(queue: map<Job, int>) returns (popped: Option<Job>)
    ensures CanPop(queue, popped)
  {
    popped := None;
    if queue != map[] {
      var m := MaxExists(queue);
      popped := Some(m);
    }
  }

  /** Taking moves one queue member under a lease, with its score, and adds nothing else. */
  lemma TakeIsClean(s: Store, ack: Option<JobId>, popped: Option<Job>, deadline: Micros)
    requires WellFormed(s) && CanPop(s.queue, popped)
    ensures var t := Taken(s, ack, popped, deadline);
      && WellFormed(t) && (Scored(s) ==> Scored(t))
      && (forall m | m in t.queue :: m in s.queue)
      && (forall id | id in t.payload ::
            (id in s.payload && t.payload[id] == s.payload[id] && ack != Some(id)) || popped == Some(t.payload[id]))
  {
  }

  lemma RequeueIsClean(s: Store, job: Job)
    requires WellFormed(s)
    ensures var t := Requeued(s, job);
      && WellFormed(t) && (Scored(s) ==> Scored(t))
      && (forall m | m in t.queue :: m in s.queue || m == job)
      && (forall id | id in t.payload :: id in s.payload && t.payload[id] == s.payload[id])
  {
  }

  /** These leases have been taken back: a reaped id is queued, any other lease is untouched,
      nothing has left the queue, and nothing has entered it but payloads of reaped leases. */
  ghost predicate TakenBack(s: Store, ids: seq<JobId>, t: Store) {
    WellFormed(s) && WellFormed(t) && LeasesLeft(s, ids, t) && QueueGrown(s, ids, t.queue)
  }

  ghost predicate LeasesLeft(s: Store, ids: seq<JobId>, t: Store)
    requires WellFormed(s) && WellFormed(t)
  {
    && (forall id | id in t.processing :: id in s.processing && id !in ids)
    && (forall id | id in s.processing && id !in ids :: id in t.processing
          && t.processing[id] == s.processing[id] && t.payload[id] == s.payload[id] && t.leaseScore[id] == s.leaseScore[id])
  }

  ghost predicate QueueGrown(s: Store, ids: seq<JobId>, queue: map<Job, int>)
    requires WellFormed(s)
  {
    && (forall id | id in s.processing && id in ids :: s.payload[id] in queue)
    && (forall m | m in s.queue :: m in queue)
    && (forall m | m in queue :: m in s.queue || (m.id in ids && m.id in s.payload && s.payload[m.id] == m))
  }

  lemma OneLeaseLess(s: Store, ids: seq<JobId>, t: Store, id: JobId)
    requires WellFormed(s) && WellFormed(t) && LeasesLeft(s, ids, t)
    ensures WellFormed(ReapedOne(t, id)) && LeasesLeft(s, ids + [id], ReapedOne(t, id))
  {
  }

  lemma OneJobMore(s: Store, ids: seq<JobId>, t: Store, id: JobId)
    requires TakenBack(s, ids, t)
    ensures QueueGrown(s, ids + [id], ReapedOne(t, id).queue)
  {
  }

  lemma OneTakenBack(s: Store, ids: seq<JobId>, t: Store, id: JobId)
    requires TakenBack(s, ids, t) && (Scored(s) ==> Scored(t))
    ensures TakenBack(s, ids + [id], ReapedOne(t, id)) && (Scored(s) ==> Scored(ReapedOne(t, id)))
  {
    hide Scored, WellFormed, LeasesLeft, QueueGrown, ReapedOne;
    ScoresStay(t, id);
    OneLeaseLess(s, ids, t, id);
    OneJobMore(s, ids, t, id);
  }

  lemma ScoresStay(t: Store, id: JobId)
    requires WellFormed(t)
    ensures Scored(t) ==> Scored(ReapedOne(t, id))
  {
  }

  /** Reaping is conservative. */
  lemma {:induction false} ReapMovesLeasesToTheQueue(s: Store, ids: seq<JobId>)
    requires WellFormed(s)
    ensures TakenBack(s, ids, Reaped(s, ids)) && (Scored(s) ==> Scored(Reaped(s, ids)))
  {
    if ids != [] {
      var rest, id := ids[..|ids| - 1], ids[|ids| - 1];
      assert ids == rest + [id];
      ReapMovesLeasesToTheQueue(s, rest);
      hide TakenBack, ReapedOne, Scored;
      OneTakenBack(s, rest, Reaped(s, rest), id);
    }
  }

  /** Reaping in two goes is reaping once. */
  lemma {:induction false} ReapedTwice(s: Store, a: seq<JobId>, b: seq<JobId>)
    ensures Reaped(Reaped(s, a), b) == Reaped(s, a + b)
  {
    if b == [] {
      assert a + b == a;
    } else {
      var k := |b| - 1;
      assert (a + b)[..|a + b| - 1] == a + b[..k];
      ReapedTwice(s, a, b[..k]);
    }
  }

  lemma LastIsDistinct(ids: seq<JobId>)
    requires Distinct(ids) && ids != []
    ensures Distinct(ids[..|ids| - 1]) && ids[|ids| - 1] !in ids[..|ids| - 1]
  {
  }

  /** Distinct leases are counted one by one: every id found has its payload. */
  lemma {:induction false} ReapCount(s: Store, ids: seq<JobId>)
    requires WellFormed(s) && Distinct(ids) && forall id | id in ids :: id in s.processing
    ensures |Reaped(s, ids).processing| == |s.processing| - |ids|
  {
    if ids != [] {
      LastIsDistinct(ids);
      hide Distinct, WellFormed, ReapedOne;
      var rest, id := ids[..|ids| - 1], ids[|ids| - 1];
      ReapCount(s, rest);
      ReapMovesLeasesToTheQueue(s, rest);
      assert id in Reaped(s, rest).processing;
      ReapedOneSize(Reaped(s, rest), id);
    }
  }

  lemma ReapedOneSize(s: Store, id: JobId)
    requires id in s.processing
    ensures |ReapedOne(s, id).processing| == |s.processing| - 1
  {
  }

  lemma KeyRemoved<K, V>(m: map<K, V>, k: K)
    requires k in m
    ensures |m - {k}| == |m| - 1
  {
  }
}
