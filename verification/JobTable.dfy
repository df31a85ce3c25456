/**
 The atomic steps of the in-memory store on its job map and its per-job lock map, one function or
 relation for each critical section. Selections are relations: the hash map gives no order to ties.
 */
module JobTable {
  import opened JobModel
  import opened Ranking

  datatype JobLock = JobLock(workerId: string, expiresAt: Time)

  type JobMap = map<Id, Job>
  type LockMap = map<Id, JobLock>

  const LOCK_TTL: Time := 30 * MINUTE

  /** What a memory fetch stamps as the server of a claimed job. */
  const MEMORY_SERVER := "memory-storage"

  function Updated(jobs: JobMap, job: Job): JobMap {
    if job.id in jobs then jobs[job.id := job] else jobs
  }

  /** Compare-and-swap on the state kind: what it answers. */
  function CasAnswer(jobs: JobMap, job: Job, expected: Kind): Result<bool> {
    if job.id !in jobs then Err(JobNotFound(job.id))
    else Ok(jobs[job.id].state.Kind() == expected)
  }

  function Swapped(jobs: JobMap, job: Job, expected: Kind): JobMap {
    if CasAnswer(jobs, job, expected) == Ok(true) then jobs[job.id := job] else jobs
  }

  predicate AtCapacity(jobs: JobMap, maxJobs: Option<nat>) {
    maxJobs.Some? && |jobs| >= maxJobs.value
  }

  function Inserted(jobs: JobMap, job: Job, maxJobs: Option<nat>): JobMap {
    if AtCapacity(jobs, maxJobs) then jobs else jobs[job.id := job]
  }

  predicate Expired(job: Job, now: Time) {
    job.expiresAt.Some? && job.expiresAt.value <= now
  }

  function ExpiredIds(jobs: JobMap, now: Time): set<Id> {
    set id | id in jobs && Expired(jobs[id], now)
  }

  function LiveLocks(locks: LockMap, now: Time): LockMap {
    map id | id in locks && locks[id].expiresAt > now :: locks[id]
  }

  predicate IsStranded(job: Job, staleBefore: Time) {
    job.state.Processing? && job.state.startedAt < staleBefore
  }

  function Stranded(jobs: JobMap, staleBefore: Time): set<Id> {
    set id | id in jobs && IsStranded(jobs[id], staleBefore)
  }

  predicate IsStamped(job: Job, server: string) {
    job.state.Processing? && job.state.serverName == server
  }

  function Stamped(jobs: JobMap, server: string): set<Id> {
    set id | id in jobs && IsStamped(jobs[id], server)
  }

  /** Put the listed jobs back to Enqueued, leaving the others alone. */
  function Requeue(jobs: JobMap, ids: set<Id>, at: Time): (r: JobMap)
    ensures r.Keys == jobs.Keys
  {
    map id | id in jobs :: if id in ids then jobs[id].Requeued(at) else jobs[id]
  }

  lemma RequeueOneMore(jobs: JobMap, ids: set<Id>, b: Id, at: Time)
    requires b in jobs && b !in ids
    ensures Requeue(jobs, ids, at)[b := jobs[b].Requeued(at)] == Requeue(jobs, ids + {b}, at)
    ensures Requeue(jobs, ids, at)[b] == jobs[b]
  {
  }

  /** `out` holds the records of `ids` as a promotion rewrites them, in that order. */
  ghost predicate ArePromoted(jobs: JobMap, ids: seq<Id>, out: seq<Job>, now: Time) {
    |out| == |ids| && forall i :: 0 <= i < |ids| ==> ids[i] in jobs && out[i] == jobs[ids[i]].Requeued(now)
  }

  lemma AnotherPromotion(jobs: JobMap, due: seq<Id>, i: nat, out: seq<Job>, now: Time)
    requires i < |due| && due[i] in jobs && ArePromoted(jobs, due[..i], out, now)
    ensures ArePromoted(jobs, due[..i + 1], out + [jobs[due[i]].Requeued(now)], now)
  {
  }

  // ----- selection -----

  /** Highest priority first, then oldest first. */
  function RankKey(job: Job): Key {
    Key(-job.priority, job.createdAt, "")
  }

  predicate IsDue(job: Job, kind: Kind, now: Time) {
    && job.state.Kind() == kind
    && match job.state
       case Scheduled(_, at, _) => at <= now
       case AwaitingRetry(_, at, _) => at <= now
       case _ => false
  }

  function DueKeys(jobs: JobMap, kind: Kind, now: Time): map<Id, Key> {
    map id | id in jobs && IsDue(jobs[id], kind, now) :: RankKey(jobs[id])
  }

  predicate QueueMatches(job: Job, queues: Option<seq<string>>) {
    queues.None? || queues.value == [] || job.queue in queues.value
  }

  predicate IsEligible(jobs: JobMap, locks: LockMap, now: Time, queues: Option<seq<string>>, id: Id) {
    id in jobs && Available(jobs[id], now) && QueueMatches(jobs[id], queues) && id !in locks
  }

  function EligibleKeys(jobs: JobMap, locks: LockMap, now: Time, queues: Option<seq<string>>): map<Id, Key> {
    map id | id in jobs && IsEligible(jobs, locks, now, queues, id) :: RankKey(jobs[id])
  }

  /** What a fetch may return: nothing if nothing is eligible, else a best-ranked eligible job. */
  ghost predicate Fetchable(jobs: JobMap, locks: LockMap, now: Time, queues: Option<seq<string>>, r: Option<Id>) {
    match r
    case None => forall id :: !IsEligible(jobs, locks, now, queues, id)
    case Some(b) =>
      && IsEligible(jobs, locks, now, queues, b)
      && forall id :: IsEligible(jobs, locks, now, queues, id) ==> !Before(RankKey(jobs[id]), RankKey(jobs[b]))
  }

  /** The record a fetch writes and hands to the worker. */
  function Claimed(job: Job, worker: string, now: Time): Job {
    job.(state := Processing(now, worker, MEMORY_SERVER))
  }

  function FetchedJobs(jobs: JobMap, r: Option<Id>, worker: string, now: Time): JobMap
    requires r.Some? ==> r.value in jobs
  {
    if r.None? then jobs else jobs[r.value := Claimed(jobs[r.value], worker, now)]
  }

  function FetchedLocks(locks: LockMap, r: Option<Id>, worker: string, now: Time): LockMap {
    if r.None? then locks else locks[r.value := JobLock(worker, now + LOCK_TTL)]
  }

  /** The job map after the listed jobs were claimed. */
  function ClaimedAll(jobs: JobMap, ids: set<Id>, worker: string, now: Time): JobMap {
    map id | id in jobs :: if id in ids then Claimed(jobs[id], worker, now) else jobs[id]
  }

  function LockedAll(locks: LockMap, ids: set<Id>, worker: string, now: Time): LockMap {
    map id | id in locks.Keys + ids :: if id in ids then JobLock(worker, now + LOCK_TTL) else locks[id]
  }

  /** A best-ranked eligible job is the top one; if there is none, nothing is eligible. */
  lemma BestIsTop(jobs: JobMap, locks: LockMap, now: Time, queues: Option<seq<string>>, r: Option<Id>)
    requires Fetchable(jobs, locks, now, queues, r)
    ensures r.None? ==> EligibleKeys(jobs, locks, now, queues) == map[]
    ensures r.Some? ==> TopPrefix(EligibleKeys(jobs, locks, now, queues), 1, [r.value])
  {
    var keys := EligibleKeys(jobs, locks, now, queues);
    forall id | id in keys
      ensures IsEligible(jobs, locks, now, queues, id)
    {
    }
    if r.Some? {
      assert r.value in keys;
      assert |keys| >= 1 by { assert keys.Keys != {}; KeysSize(keys); }
    }
  }

  /** The first eligible job of the sorted available ones is a best-ranked eligible one. */
  lemma FirstInOrder(jobs: JobMap, locks: LockMap, now: Time, queues: Option<seq<string>>, keys: map<Id, Key>,
                     order: seq<Id>, i: nat)
    requires keys == map id | id in jobs && Available(jobs[id], now) :: RankKey(jobs[id])
    requires SortedListing(keys, order) && i < |order|
    requires IsEligible(jobs, locks, now, queues, order[i])
    requires forall j :: 0 <= j < i ==> !IsEligible(jobs, locks, now, queues, order[j])
    ensures Fetchable(jobs, locks, now, queues, Some(order[i]))
  {
    forall id | IsEligible(jobs, locks, now, queues, id)
      ensures !Before(RankKey(jobs[id]), RankKey(jobs[order[i]]))
    {
      assert id in keys && id in Elements(order) && order[i] in Elements(order);
      var j :| 0 <= j < |order| && order[j] == id;
      assert i <= j;
    }
  }

  lemma NothingInOrder(jobs: JobMap, locks: LockMap, now: Time, queues: Option<seq<string>>, keys: map<Id, Key>,
                       order: seq<Id>)
    requires keys == map id | id in jobs && Available(jobs[id], now) :: RankKey(jobs[id])
    requires SortedListing(keys, order)
    requires forall j :: 0 <= j < |order| ==> !IsEligible(jobs, locks, now, queues, order[j])
    ensures Fetchable(jobs, locks, now, queues, None)
  {
    forall id
      ensures !IsEligible(jobs, locks, now, queues, id)
    {
      if id in keys {
        assert id in Elements(order);
        var j :| 0 <= j < |order| && order[j] == id;
      }
    }
  }

  /**
   Part way through a batch of claims at one instant: `ids` are the best-ranked of the jobs eligible at the
   start, they are claimed, everything else is as it was.
   */
  ghost predicate Claiming(jobs: JobMap, locks: LockMap, now: Time, queues: Option<seq<string>>, worker: string,
                           ids: seq<Id>, jobs': JobMap, locks': LockMap)
  {
    var keys := EligibleKeys(jobs, locks, now, queues);
    && TopPrefix(keys, |ids|, ids)
    && jobs' == ClaimedAll(jobs, Elements(ids), worker, now)
    && locks' == LockedAll(locks, Elements(ids), worker, now)
    && EligibleKeys(jobs', locks', now, queues) == keys - Elements(ids)
  }

  lemma ClaimingStarts(jobs: JobMap, locks: LockMap, now: Time, queues: Option<seq<string>>, worker: string)
    ensures Claiming(jobs, locks, now, queues, worker, [], jobs, locks)
  {
    assert Elements([]) == {};
    NoneClaimed(jobs, locks, worker, now);
    assert EligibleKeys(jobs, locks, now, queues) - {} == EligibleKeys(jobs, locks, now, queues);
  }

  lemma NoneClaimed(jobs: JobMap, locks: LockMap, worker: string, now: Time)
    ensures ClaimedAll(jobs, {}, worker, now) == jobs
    ensures LockedAll(locks, {}, worker, now) == locks
  {
  }

  /** One more fetch extends the batch by the next job in rank order. */
  lemma ClaimingStep(jobs: JobMap, locks: LockMap, now: Time, queues: Option<seq<string>>, worker: string,
                     ids: seq<Id>, jobs': JobMap, locks': LockMap, b: Id)
    requires Claiming(jobs, locks, now, queues, worker, ids, jobs', locks')
    requires Fetchable(jobs', locks', now, queues, Some(b))
    ensures b in jobs && b !in ids && jobs'[b] == jobs[b]
    ensures Claiming(jobs, locks, now, queues, worker, ids + [b],
                     FetchedJobs(jobs', Some(b), worker, now), FetchedLocks(locks', Some(b), worker, now))
  {
    var keys := EligibleKeys(jobs, locks, now, queues);
    BestIsTop(jobs', locks', now, queues, Some(b));
    assert b in EligibleKeys(jobs', locks', now, queues);
    Compose(keys, |ids|, ids, 1, [b]);
    FetchTakesOne(jobs', locks', now, queues, b, worker);
    MinusOne(keys, ids, b);
    OneMore(jobs, locks, Elements(ids), b, worker, now);
  }

  lemma MinusOne(keys: map<Id, Key>, ids: seq<Id>, b: Id)
    ensures Elements(ids + [b]) == Elements(ids) + {b}
    ensures keys - Elements(ids) - {b} == keys - Elements(ids + [b])
  {
    assert Elements(ids + [b]) == Elements(ids) + {b};
  }

  lemma OneMore(jobs: JobMap, locks: LockMap, ids: set<Id>, b: Id, worker: string, now: Time)
    requires b in jobs && b !in ids
    ensures ClaimedAll(jobs, ids + {b}, worker, now) ==
      ClaimedAll(jobs, ids, worker, now)[b := Claimed(jobs[b], worker, now)]
    ensures LockedAll(locks, ids + {b}, worker, now) ==
      LockedAll(locks, ids, worker, now)[b := JobLock(worker, now + LOCK_TTL)]
  {
  }

  /** When a fetch finds nothing, the batch holds every job that was eligible. */
  lemma ClaimingEnds(jobs: JobMap, locks: LockMap, now: Time, queues: Option<seq<string>>, worker: string,
                     ids: seq<Id>, jobs': JobMap, locks': LockMap, n: nat)
    requires Claiming(jobs, locks, now, queues, worker, ids, jobs', locks') && |ids| <= n
    requires Fetchable(jobs', locks', now, queues, None)
    ensures TopPrefix(EligibleKeys(jobs, locks, now, queues), n, ids)
  {
    BestIsTop(jobs', locks', now, queues, None);
    Remaining(EligibleKeys(jobs, locks, now, queues), ids);
  }

  /** Claiming one job takes exactly that one out of the eligible set. */
  lemma FetchTakesOne(jobs: JobMap, locks: LockMap, now: Time, queues: Option<seq<string>>, b: Id, worker: string)
    requires IsEligible(jobs, locks, now, queues, b)
    ensures EligibleKeys(FetchedJobs(jobs, Some(b), worker, now),
                         FetchedLocks(locks, Some(b), worker, now), now, queues)
         == EligibleKeys(jobs, locks, now, queues) - {b}
  {
  }

  /** Promoting the claimed jobs takes exactly those out of the due set. */
  lemma ClaimTakesThose(jobs: JobMap, kind: Kind, now: Time, ids: set<Id>, at: Time)
    requires ids <= DueKeys(jobs, kind, now).Keys
    ensures DueKeys(Requeue(jobs, ids, at), kind, now) == DueKeys(jobs, kind, now) - ids
  {
    var after := Requeue(jobs, ids, at);
    forall id | id in jobs
      ensures IsDue(after[id], kind, now) <==> IsDue(jobs[id], kind, now) && id !in ids
    {
      assert id in ids ==> id in DueKeys(jobs, kind, now);
    }
  }

  /**
   Claiming `k` and then `m` promotes what claiming `k + m` may promote, in the same order; when no two
   due jobs tie, any claim `u` of `k + m` is that one.
   */
  lemma ClaimInTwoSteps(jobs: JobMap, kind: Kind, now: Time, at: Time,
                        k: nat, s: seq<Id>, m: nat, t: seq<Id>, u: seq<Id>)
    requires TopPrefix(DueKeys(jobs, kind, now), k, s)
    requires TopPrefix(DueKeys(Requeue(jobs, Elements(s), at), kind, now), m, t)
    requires TopPrefix(DueKeys(jobs, kind, now), k + m, u)
    ensures TopPrefix(DueKeys(jobs, kind, now), k + m, s + t)
    ensures Requeue(Requeue(jobs, Elements(s), at), Elements(t), at) == Requeue(jobs, Elements(s + t), at)
    ensures NoTies(DueKeys(jobs, kind, now)) ==> u == s + t
  {
    var due := DueKeys(jobs, kind, now);
    ClaimTakesThose(jobs, kind, now, Elements(s), at);
    Compose(due, k, s, m, t);
    assert Requeue(Requeue(jobs, Elements(s), at), Elements(t), at) == Requeue(jobs, Elements(s + t), at) by {
      RequeueTwice(jobs, s, t, at);
    }
    if NoTies(due) {
      Unique(due, k + m, u, s + t);
    }
  }

  lemma RequeueTwice(jobs: JobMap, s: seq<Id>, t: seq<Id>, at: Time)
    ensures Requeue(Requeue(jobs, Elements(s), at), Elements(t), at) == Requeue(jobs, Elements(s + t), at)
  {
    forall id | id in jobs
      ensures id in Elements(s + t) <==> id in Elements(s) || id in Elements(t)
    {
    }
  }

  // ----- what selections come to, field by field -----

  /** `a` does not come after `b`: higher priority, or the same and not younger. */
  predicate NotBehind(a: Job, b: Job) {
    a.priority > b.priority || (a.priority == b.priority && a.createdAt <= b.createdAt)
  }

  /** `ids` are at most `n` of the waiting jobs, best first, and none is left out that would be better or would fit. */
  ghost predicate BestFirst(jobs: JobMap, waiting: set<Id>, n: nat, ids: seq<Id>) {
    && Distinct(ids)
    && |ids| <= n
    && (forall i :: 0 <= i < |ids| ==> ids[i] in jobs && ids[i] in waiting)
    && (forall i, j :: 0 <= i < j < |ids| ==> NotBehind(jobs[ids[i]], jobs[ids[j]]))
    && (forall x :: x in waiting && x !in ids ==>
          |ids| == n && x in jobs && forall i :: 0 <= i < |ids| ==> NotBehind(jobs[ids[i]], jobs[x]))
  }

  /**
   The jobs a worker may start on: in a listed queue, under no live lock, and Enqueued, or Scheduled or
   AwaitingRetry with their time reached.
   */
  function WaitingIds(jobs: JobMap, locks: LockMap, now: Time, queues: Option<seq<string>>): set<Id> {
    set id | id in jobs
      && (queues.Some? && |queues.value| > 0 ==> jobs[id].queue in queues.value)
      && (id in locks ==> locks[id].expiresAt <= now)
      && (|| jobs[id].state.Enqueued?
          || (jobs[id].state.Scheduled? && jobs[id].state.enqueueAt <= now)
          || (jobs[id].state.AwaitingRetry? && jobs[id].state.retryAt <= now))
  }

  /** The jobs a promotion out of `kind` may take. */
  function RipeIds(jobs: JobMap, kind: Kind, now: Time): set<Id> {
    set id | id in jobs
      && (|| (kind.ScheduledKind? && jobs[id].state.Scheduled? && jobs[id].state.enqueueAt <= now)
          || (kind.AwaitingRetryKind? && jobs[id].state.AwaitingRetry? && jobs[id].state.retryAt <= now))
  }

  /** Eligible under the locks that a cleanup at `now` leaves: waiting, by the fields alone. */
  lemma EligibleIff(jobs: JobMap, locks: LockMap, now: Time, queues: Option<seq<string>>, id: Id)
    ensures IsEligible(jobs, LiveLocks(locks, now), now, queues, id) <==> id in WaitingIds(jobs, locks, now, queues)
  {
  }

  lemma RankIff(a: Job, b: Job)
    ensures !Before(RankKey(b), RankKey(a)) <==> NotBehind(a, b)
  {
  }

  lemma TopIsBestFirst(jobs: JobMap, keys: map<Id, Key>, n: nat, ids: seq<Id>)
    requires TopPrefix(keys, n, ids)
    requires forall id :: id in keys ==> id in jobs && keys[id] == RankKey(jobs[id])
    ensures BestFirst(jobs, keys.Keys, n, ids)
  {
    DistinctSize(ids);
    KeysSize(keys);
    forall i | 0 <= i < |ids|
      ensures ids[i] in keys
    {
      assert ids[i] in Elements(ids);
    }
    forall x | x in keys && x !in ids
      ensures |ids| == n
    {
      if |ids| == |keys| {
        SubsetSize(Elements(ids), keys.Keys);
      }
    }
  }

  /** What a fetch may return: a waiting job that no other is ahead of, or nothing when none waits. */
  lemma FetchableIff(jobs: JobMap, locks: LockMap, now: Time, queues: Option<seq<string>>, r: Option<Id>)
    ensures var waiting := WaitingIds(jobs, locks, now, queues);
      Fetchable(jobs, LiveLocks(locks, now), now, queues, r) <==>
      if r.None? then waiting == {}
      else r.value in waiting && forall id :: id in waiting ==> NotBehind(jobs[r.value], jobs[id])
  {
    var waiting := WaitingIds(jobs, locks, now, queues);
    forall id
      ensures IsEligible(jobs, LiveLocks(locks, now), now, queues, id) <==> id in waiting
    {
      EligibleIff(jobs, locks, now, queues, id);
    }
  }

  /** What a batch of fetches may return. */
  lemma BatchIsBestFirst(jobs: JobMap, locks: LockMap, now: Time, queues: Option<seq<string>>, n: nat, ids: seq<Id>)
    requires TopPrefix(EligibleKeys(jobs, LiveLocks(locks, now), now, queues), n, ids)
    ensures BestFirst(jobs, WaitingIds(jobs, locks, now, queues), n, ids)
  {
    var keys := EligibleKeys(jobs, LiveLocks(locks, now), now, queues);
    forall id
      ensures id in keys <==> id in WaitingIds(jobs, locks, now, queues)
    {
      EligibleIff(jobs, locks, now, queues, id);
    }
    assert keys.Keys == WaitingIds(jobs, locks, now, queues);
    TopIsBestFirst(jobs, keys, n, ids);
  }

  /** What a promotion may take. */
  lemma DueIsBestFirst(jobs: JobMap, kind: Kind, now: Time, n: nat, ids: seq<Id>)
    requires TopPrefix(DueKeys(jobs, kind, now), n, ids)
    ensures BestFirst(jobs, RipeIds(jobs, kind, now), n, ids)
  {
    var keys := DueKeys(jobs, kind, now);
    assert keys.Keys == RipeIds(jobs, kind, now);
    TopIsBestFirst(jobs, keys, n, ids);
  }
}
