/** The in-memory storage backend: hash maps changed in place, one critical section per operation. */
module MemoryStorage {
  import opened JobModel
  import opened Ranking
  import opened JobTable
  import opened Heartbeat
  import opened NamedLocks
  import R = Recurring

  /** Ids of all kinds with their number of jobs, kinds without jobs left out. */
  function CountsByScan(jobs: JobMap): map<Kind, nat> {
    map k | k in KindsOf(jobs) :: |IdsOfKind(jobs, k)|
  }

  /** Newest first. */
  function NewestKeys(jobs: JobMap, kind: Option<Kind>): map<Id, Key> {
    map id | id in jobs && (kind.None? || jobs[id].state.Kind() == kind.value) :: Key(-jobs[id].createdAt, 0, "")
  }

  function Page(s: seq<Id>, limit: Option<nat>, offset: Option<nat>): (r: seq<Id>) {
    var start := if offset.Some? then offset.value else 0;
    var end := if limit.Some? then Min(start + limit.value, |s|) else |s|;
    if start >= |s| then [] else s[start..end]
  }

  /** A page of the newest-first listing of the stored jobs of that kind. */
  ghost predicate IsListing(jobs: JobMap, kind: Option<Kind>, limit: Option<nat>, offset: Option<nat>, out: seq<Job>) {
    exists full :: SortedListing(NewestKeys(jobs, kind), full) && Fetches(jobs, Page(full, limit, offset), out)
  }

  /** By the fields alone: `full` lists the jobs of the kind, newest first. */
  ghost predicate IsNewestFirst(jobs: JobMap, kind: Option<Kind>, full: seq<Id>) {
    && Distinct(full)
    && (forall id :: id in full <==> id in jobs && (kind.Some? ==> jobs[id].state.Kind() == kind.value))
    && (forall i, j :: 0 <= i < j < |full| ==> jobs[full[i]].createdAt >= jobs[full[j]].createdAt)
  }

  /** `out` holds the records of `full` after the first `skipped`, `limit` at most. */
  ghost predicate IsSlice(jobs: JobMap, full: seq<Id>, skipped: nat, limit: Option<nat>, out: seq<Job>) {
    && (forall i :: 0 <= i < |out| ==>
          skipped + i < |full| && full[skipped + i] in jobs && out[i] == jobs[full[skipped + i]])
    && (limit.Some? ==> |out| <= limit.value)
    && (skipped + |out| < |full| ==> limit.Some? && |out| == limit.value)
  }

  /** By the fields alone: of the jobs of the kind, newest first, those after the first `offset`, `limit` at most. */
  ghost predicate IsPage(jobs: JobMap, kind: Option<Kind>, limit: Option<nat>, offset: Option<nat>, out: seq<Job>) {
    exists full ::
      && IsNewestFirst(jobs, kind, full)
      && IsSlice(jobs, full, if offset.Some? then offset.value else 0, limit, out)
  }

  lemma ListingIsPage(jobs: JobMap, kind: Option<Kind>, limit: Option<nat>, offset: Option<nat>, out: seq<Job>)
    requires IsListing(jobs, kind, limit, offset, out)
    ensures IsPage(jobs, kind, limit, offset, out)
  {
    var keys := NewestKeys(jobs, kind);
    var full :| SortedListing(keys, full) && Fetches(jobs, Page(full, limit, offset), out);
    ListedNewestFirst(jobs, kind, full);
    PageIsSlice(jobs, full, limit, offset, out);
  }

  lemma ListedNewestFirst(jobs: JobMap, kind: Option<Kind>, full: seq<Id>)
    requires SortedListing(NewestKeys(jobs, kind), full)
    ensures IsNewestFirst(jobs, kind, full)
  {
    forall id
      ensures id in full <==> id in NewestKeys(jobs, kind)
    {
      assert id in Elements(full) <==> id in NewestKeys(jobs, kind);
    }
  }

  lemma PageIsSlice(jobs: JobMap, full: seq<Id>, limit: Option<nat>, offset: Option<nat>, out: seq<Job>)
    requires Fetches(jobs, Page(full, limit, offset), out)
    ensures IsSlice(jobs, full, if offset.Some? then offset.value else 0, limit, out)
  {
  }

  /** `out` holds the records stored under `ids`, in that order. */
  ghost predicate Fetches(jobs: JobMap, ids: seq<Id>, out: seq<Job>) {
    |out| == |ids| && forall i :: 0 <= i < |ids| ==> ids[i] in jobs && out[i] == jobs[ids[i]]
  }

  /** `out` holds the records of `ids` as a claim rewrites them, in that order. */
  ghost predicate AreClaims(jobs: JobMap, ids: seq<Id>, out: seq<Job>, worker: string, now: Time) {
    |out| == |ids| && forall i :: 0 <= i < |ids| ==> ids[i] in jobs && out[i] == Claimed(jobs[ids[i]], worker, now)
  }

  lemma AnotherClaim(jobs: JobMap, ids: seq<Id>, out: seq<Job>, worker: string, now: Time, b: Id, job: Job)
    requires AreClaims(jobs, ids, out, worker, now) && b in jobs && job == Claimed(jobs[b], worker, now)
    ensures AreClaims(jobs, ids + [b], out + [job], worker, now)
  {
  }

  /** `due` holds the templates stored under `ids`, in that order. */
  ghost predicate AreTemplates(m: R.Templates, ids: seq<Id>, due: seq<R.Template>) {
    |due| == |ids| && forall i :: 0 <= i < |ids| ==> ids[i] in m && due[i] == m[ids[i]]
  }

  lemma PromotedAreStored(jobs: JobMap, ids: seq<Id>, out: seq<Job>, now: Time)
    requires ArePromoted(jobs, ids, out, now)
    ensures Fetches(Requeue(jobs, Elements(ids), now), ids, out)
  {
    forall i | 0 <= i < |ids|
      ensures ids[i] in Elements(ids)
    {
    }
  }

  /** Look up the records of a list of stored ids. */
  method Lookup(jobs: JobMap, ids: seq<Id>) returns (out: seq<Job>)
    requires forall i :: 0 <= i < |ids| ==> ids[i] in jobs
    ensures Fetches(jobs, ids, out)
  {
    out := [];
    for i := 0 to |ids|
      invariant |out| == i && forall j :: 0 <= j < i ==> out[j] == jobs[ids[j]]
    {
      out := out + [jobs[ids[i]]];
    }
  }

  function KindsOf(jobs: JobMap): set<Kind> {
    set id | id in jobs :: jobs[id].state.Kind()
  }

  lemma CountOneMore(jobs: JobMap, id: Id, job: Job)
    requires id !in jobs
    ensures var k := job.state.Kind(); var c := CountsByScan(jobs);
      CountsByScan(jobs[id := job]) == c[k := (if k in c then c[k] else 0) + 1]
  {
    var k := job.state.Kind();
    var more := jobs[id := job];
    KindsOneMore(jobs, id, job);
    IdsOneMore(jobs, id, job);
  }

  lemma KindsOneMore(jobs: JobMap, id: Id, job: Job)
    requires id !in jobs
    ensures KindsOf(jobs[id := job]) == KindsOf(jobs) + {job.state.Kind()}
  {
    var more := jobs[id := job];
    forall o | o in KindsOf(jobs)
      ensures o in KindsOf(more)
    {
      var i :| i in jobs && jobs[i].state.Kind() == o;
      assert i in more && more[i] == jobs[i];
    }
    assert id in more && more[id] == job;
  }

  lemma IdsOneMore(jobs: JobMap, id: Id, job: Job)
    requires id !in jobs
    ensures forall o :: |IdsOfKind(jobs[id := job], o)| == |IdsOfKind(jobs, o)| + if o == job.state.Kind() then 1 else 0
    ensures job.state.Kind() !in KindsOf(jobs) ==> IdsOfKind(jobs, job.state.Kind()) == {}
  {
    forall o: Kind
      ensures |IdsOfKind(jobs[id := job], o)| == |IdsOfKind(jobs, o)| + if o == job.state.Kind() then 1 else 0
    {
      IdsOneMoreOf(jobs, id, job, o);
    }
  }

  lemma IdsOneMoreOf(jobs: JobMap, id: Id, job: Job, o: Kind)
    requires id !in jobs
    ensures |IdsOfKind(jobs[id := job], o)| == |IdsOfKind(jobs, o)| + if o == job.state.Kind() then 1 else 0
  {
    var ids := IdsOfKind(jobs, o);
    assert IdsOfKind(jobs[id := job], o) == if o == job.state.Kind() then ids + {id} else ids;
  }

  /** Locks taken at `now` outlive a cleanup at `now`. */
  lemma FetchedLocksLive(locks: LockMap, found: Option<Id>, worker: string, now: Time)
    ensures var l := FetchedLocks(LiveLocks(locks, now), found, worker, now); LiveLocks(l, now) == l
  {
  }

  /** By the fields alone: exactly the jobs of `ids` are Processing for the worker, each under a lock of its own. */
  ghost predicate AreHandedOut(jobs: JobMap, ids: seq<Id>, worker: string, now: Time, out: seq<Job>,
                               jobs': JobMap, locks': LockMap)
  {
    && |out| == |ids|
    && jobs'.Keys == jobs.Keys
    && (forall i :: 0 <= i < |ids| ==>
          && ids[i] in jobs
          && out[i] == jobs[ids[i]].(state := Processing(now, worker, "memory-storage"))
          && jobs'[ids[i]] == out[i]
          && ids[i] in locks'
          && locks'[ids[i]] == JobLock(worker, now + 1_800_000_000_000))
    && (forall id :: id in jobs && id !in ids ==> jobs'[id] == jobs[id])
  }

  lemma ClaimsAreHandedOut(jobs: JobMap, live: LockMap, ids: seq<Id>, worker: string, now: Time, out: seq<Job>,
                           jobs': JobMap, locks': LockMap)
    requires AreClaims(jobs, ids, out, worker, now) && jobs' == ClaimedAll(jobs, Elements(ids), worker, now)
    requires ids == [] || locks' == LockedAll(live, Elements(ids), worker, now)
    ensures AreHandedOut(jobs, ids, worker, now, out, jobs', locks')
  {
    forall i | 0 <= i < |ids|
      ensures ids[i] in Elements(ids)
    {
    }
  }

  /** `ids` are at most `n` of the enabled templates whose time has come, the earliest, in that order. */
  ghost predicate EarliestFirst(m: R.Templates, now: Time, n: nat, ids: seq<Id>) {
    && Distinct(ids)
    && |ids| <= n
    && (forall i :: 0 <= i < |ids| ==> ids[i] in m && m[ids[i]].enabled && m[ids[i]].nextRunAt <= now)
    && (forall i, j :: 0 <= i < j < |ids| ==> m[ids[i]].nextRunAt <= m[ids[j]].nextRunAt)
    && (forall x :: x in m && m[x].enabled && m[x].nextRunAt <= now && x !in ids ==>
          |ids| == n && forall i :: 0 <= i < |ids| ==> m[ids[i]].nextRunAt <= m[x].nextRunAt)
  }

  /** By the fields alone: exactly the templates of `ids` are moved 3650 days away. */
  ghost predicate ArePutOff(m: R.Templates, ids: seq<Id>, now: Time, m': R.Templates) {
    && m'.Keys == m.Keys
    && forall id :: id in m ==>
         m'[id] == if id in ids then m[id].(nextRunAt := now + 315_360_000_000_000_000) else m[id]
  }

  lemma ParkedArePutOff(m: R.Templates, ids: seq<Id>, now: Time)
    ensures ArePutOff(m, ids, now, R.Parked(m, Elements(ids), now))
  {
  }

  lemma DueIsEarliestFirst(m: R.Templates, now: Time, n: nat, ids: seq<Id>)
    requires TopPrefix(R.DueKeys(m, now), n, ids)
    ensures EarliestFirst(m, now, n, ids)
  {
    var keys := R.DueKeys(m, now);
    DistinctSize(ids);
    KeysSize(keys);
    forall i | 0 <= i < |ids|
      ensures ids[i] in keys
    {
      assert ids[i] in Elements(ids);
    }
    forall x | x in keys && x !in ids
      ensures |ids| == n
    {
      if |ids| == |keys| {
        SubsetSize(Elements(ids), keys.Keys);
      }
    }
  }

  /** The jobs of `ids` are Enqueued in their own queue since `at`, else unchanged; the others are as they were. */
  ghost predicate IsRequeued(jobs: JobMap, ids: set<Id>, at: Time, jobs': JobMap) {
    && jobs'.Keys == jobs.Keys
    && forall id :: id in jobs ==>
         jobs'[id] == if id in ids then jobs[id].(state := Enqueued(at, jobs[id].queue)) else jobs[id]
  }

  /** Either answer of a fetch, by the fields alone. */
  lemma FetchableMeans(jobs: JobMap, locks: LockMap, now: Time, queues: Option<seq<string>>)
    ensures forall r :: Fetchable(jobs, LiveLocks(locks, now), now, queues, r) ==>
      var waiting := WaitingIds(jobs, locks, now, queues);
      if r.None? then waiting == {}
      else r.value in waiting && forall id :: id in waiting ==> NotBehind(jobs[r.value], jobs[id])
  {
    forall r | Fetchable(jobs, LiveLocks(locks, now), now, queues, r)
      ensures var waiting := WaitingIds(jobs, locks, now, queues);
        if r.None? then waiting == {}
        else r.value in waiting && forall id :: id in waiting ==> NotBehind(jobs[r.value], jobs[id])
    {
      FetchableIff(jobs, locks, now, queues, r);
    }
  }

  class MemoryStorage {
    var jobs: JobMap
    var locks: LockMap
    var recurring: R.Templates
    var servers: Registry
    var namedLocks: LockTable
    const maxJobs: Option<nat>

    constructor (maxJobs: Option<nat>)
      ensures jobs == map[] && locks == map[] && recurring == map[] && servers == map[] && namedLocks == map[]
      ensures this.maxJobs == maxJobs
    {
      jobs, locks, recurring, servers, namedLocks := map[], map[], map[], map[], map[];
      this.maxJobs := maxJobs;
    }

    // ----- monitoring -----

    method Get(id: Id) returns (r: Option<Job>)
      ensures r == if id in jobs then Some(jobs[id]) else None
    {
      r := if id in jobs then Some(jobs[id]) else None;
    }

    method Update(job: Job) returns (r: Result<()>)
      modifies this`jobs
      ensures jobs == Updated(old(jobs), job)
      ensures r == if job.id in old(jobs) then Ok(()) else Err(JobNotFound(job.id))
      ensures jobs == if r.Ok? then old(jobs)[job.id := job] else old(jobs)
    {
      if job.id in jobs {
        jobs := jobs[job.id := job];
        r := Ok(());
      } else {
        r := Err(JobNotFound(job.id));
      }
    }

    method UpdateIfState(job: Job, expected: Kind) returns (r: Result<bool>)
      modifies this`jobs
      ensures jobs == Swapped(old(jobs), job, expected)
      ensures r == CasAnswer(old(jobs), job, expected)
      ensures r.Err? <==> job.id !in old(jobs)
      ensures r == Ok(true) <==> job.id in old(jobs) && old(jobs)[job.id].state.Kind() == expected
      ensures jobs == if r == Ok(true) then old(jobs)[job.id := job] else old(jobs)
    {
      if job.id !in jobs {
        r := Err(JobNotFound(job.id));
      } else if jobs[job.id].state.Kind() != expected {
        r := Ok(false);
      } else {
        jobs := jobs[job.id := job];
        r := Ok(true);
      }
    }

    method Delete(id: Id) returns (r: bool)
      modifies this`jobs
      ensures jobs == old(jobs) - {id}
      ensures r <==> id in old(jobs)
    {
      r := id in jobs;
      jobs := jobs - {id};
    }

    method List(kind: Option<Kind>, limit: Option<nat>, offset: Option<nat>) returns (out: seq<Job>)
      ensures IsListing(jobs, kind, limit, offset, out)
      ensures IsPage(jobs, kind, limit, offset, out)
    {
      var full := Sort(NewestKeys(jobs, kind));
      forall x | x in full
        ensures x in jobs
      {
        assert x in Elements(full);
      }
      out := Lookup(jobs, Page(full, limit, offset));
      ListingIsPage(jobs, kind, limit, offset, out);
    }

    method GetJobCounts() returns (counts: map<Kind, nat>)
      ensures counts == CountsByScan(jobs)
      ensures forall k :: k in counts <==> exists id :: id in jobs && jobs[id].state.Kind() == k
      ensures forall k :: k in counts ==> counts[k] == |set id | id in jobs && jobs[id].state.Kind() == k|
    {
      counts := map[];
      var rest := jobs.Keys;
      ghost var seen: JobMap := map[];
      while rest != {}
        invariant rest <= jobs.Keys
        invariant seen.Keys == jobs.Keys - rest
        invariant forall id :: id in seen ==> seen[id] == jobs[id]
        invariant counts == CountsByScan(seen)
        decreases rest
      {
        var id :| id in rest;
        var k := jobs[id].state.Kind();
        CountOneMore(seen, id, jobs[id]);
        counts := counts[k := (if k in counts then counts[k] else 0) + 1];
        seen := seen[id := jobs[id]];
        rest := rest - {id};
      }
      assert seen == jobs;
    }

    // ----- job store -----

    method Enqueue(job: Job) returns (r: Result<()>)
      modifies this`jobs
      ensures jobs == Inserted(old(jobs), job, maxJobs)
      ensures r == if AtCapacity(old(jobs), maxJobs) then Err(CapacityExceeded) else Ok(())
      ensures r.Ok? <==> maxJobs.None? || |old(jobs)| < maxJobs.value
      ensures jobs == if r.Ok? then old(jobs)[job.id := job] else old(jobs)
    {
      if AtCapacity(jobs, maxJobs) {
        return Err(CapacityExceeded);
      }
      jobs := jobs[job.id := job];
      r := Ok(());
    }

    /** Promote due scheduled jobs or due retries: select, sort, truncate and transition in one section. */
    method ClaimDue(kind: Kind, now: Time, limit: nat, clock: Time) returns (claimed: seq<Job>, ghost ids: seq<Id>)
      modifies this`jobs
      ensures TopPrefix(DueKeys(old(jobs), kind, now), limit, ids)
      ensures jobs == Requeue(old(jobs), Elements(ids), clock)
      ensures Fetches(jobs, ids, claimed)
      ensures BestFirst(old(jobs), RipeIds(old(jobs), kind, now), limit, ids)
      ensures IsRequeued(old(jobs), Elements(ids), clock, jobs)
    {
      ghost var before := jobs;
      var due := SortAndTake(DueKeys(jobs, kind, now), limit);
      ids := due;
      forall i | 0 <= i < |due|
        ensures due[i] in jobs
      {
        assert due[i] in Elements(due);
      }
      claimed := [];
      for i := 0 to |due|
        invariant jobs == Requeue(old(jobs), Elements(due[..i]), clock)
        invariant ArePromoted(old(jobs), due[..i], claimed, clock)
      {
        Growing(due, i);
        RequeueOneMore(old(jobs), Elements(due[..i]), due[i], clock);
        jobs := jobs[due[i] := jobs[due[i]].Requeued(clock)];
        AnotherPromotion(old(jobs), due, i, claimed, clock);
        claimed := claimed + [jobs[due[i]]];
      }
      assert due[..|due|] == due;
      PromotedAreStored(old(jobs), due, claimed, clock);
      DueIsBestFirst(before, kind, now, limit, ids);
    }

    /** Keep the jobs that have not expired, one look at each; the count is the size before minus the size after. */
    method DeleteExpiredJobs(now: Time) returns (removed: nat)
      modifies this`jobs
      ensures jobs == old(jobs) - ExpiredIds(old(jobs), now)
      ensures removed == |ExpiredIds(old(jobs), now)|
      ensures forall id :: id in jobs <==>
        id in old(jobs) && (old(jobs)[id].expiresAt.None? || old(jobs)[id].expiresAt.value > now)
      ensures forall id :: id in jobs ==> jobs[id] == old(jobs)[id]
      ensures removed == |old(jobs)| - |jobs|
    {
      var before := |jobs|;
      var rest := jobs.Keys;
      while rest != {}
        invariant rest <= jobs.Keys
        invariant forall id :: id in jobs <==> id in old(jobs) && (id in rest || !Expired(old(jobs)[id], now))
        invariant forall id :: id in jobs ==> jobs[id] == old(jobs)[id]
        decreases rest
      {
        var id :| id in rest;
        match jobs[id].expiresAt {
          case None =>
          case Some(at) =>
            if at <= now {
              jobs := jobs - {id};
            }
        }
        rest := rest - {id};
      }
      assert jobs == old(jobs) - ExpiredIds(old(jobs), now);
      removed := before - |jobs|;
    }

    // ----- job locker -----

    method CleanupExpiredLocks(now: Time)
      modifies this`locks
      ensures locks == LiveLocks(old(locks), now)
      ensures forall id :: id in locks <==> id in old(locks) && old(locks)[id].expiresAt > now
      ensures forall id :: id in locks ==> locks[id] == old(locks)[id]
    {
      var rest := locks.Keys;
      while rest != {}
        invariant rest <= locks.Keys
        invariant forall id :: id in locks <==> id in old(locks) && (id in rest || old(locks)[id].expiresAt > now)
        invariant forall id :: id in locks ==> locks[id] == old(locks)[id]
        decreases rest
      {
        var id :| id in rest;
        if locks[id].expiresAt <= now {
          locks := locks - {id};
        }
        rest := rest - {id};
      }
      assert locks == LiveLocks(old(locks), now);
    }

    /** Requeue every job in `ids`, dropping its lock first. */
    method RequeueAll(ids: set<Id>, now: Time) returns (n: nat)
      requires ids <= jobs.Keys
      modifies this`jobs, this`locks
      ensures jobs == Requeue(old(jobs), ids, now)
      ensures locks == old(locks) - ids
      ensures n == |ids|
    {
      n := 0;
      var rest := ids;
      while rest != {}
        invariant rest <= ids
        invariant jobs == Requeue(old(jobs), ids - rest, now)
        invariant locks == old(locks) - (ids - rest)
        invariant n + |rest| == |ids|
        decreases rest
      {
        var id :| id in rest;
        assert ids - (rest - {id}) == (ids - rest) + {id};
        locks := locks - {id};
        jobs := jobs[id := jobs[id].Requeued(now)];
        rest := rest - {id};
        n := n + 1;
      }
      assert ids - {} == ids;
    }

    method RequeueStrandedJobs(staleBefore: Time, now: Time) returns (recovered: nat)
      modifies this`jobs, this`locks
      ensures jobs == Requeue(old(jobs), Stranded(old(jobs), staleBefore), now)
      ensures locks == old(locks) - Stranded(old(jobs), staleBefore)
      ensures recovered == |Stranded(old(jobs), staleBefore)|
      ensures var gone := set id | id in old(jobs)
          && old(jobs)[id].state.Processing? && old(jobs)[id].state.startedAt < staleBefore;
        && IsRequeued(old(jobs), gone, now, jobs)
        && locks == old(locks) - gone
        && recovered == |gone|
    {
      assert Stranded(jobs, staleBefore) ==
        set id | id in jobs && jobs[id].state.Processing? && jobs[id].state.startedAt < staleBefore;
      recovered := RequeueAll(Stranded(jobs, staleBefore), now);
    }

    /** Clear expired locks, then claim the best-ranked available, unlocked job of the listed queues. */
    method FetchAndLockJob(worker: string, queues: Option<seq<string>>, now: Time)
      returns (r: Option<Job>, ghost found: Option<Id>)
      modifies this`jobs, this`locks
      ensures Fetchable(old(jobs), LiveLocks(old(locks), now), now, queues, found)
      ensures jobs == FetchedJobs(old(jobs), found, worker, now)
      ensures locks == FetchedLocks(LiveLocks(old(locks), now), found, worker, now)
      ensures r == if found.None? then None else Some(Claimed(old(jobs)[found.value], worker, now))
      ensures var waiting := WaitingIds(old(jobs), old(locks), now, queues);
        if found.None? then waiting == {}
        else found.value in waiting && forall id :: id in waiting ==> NotBehind(old(jobs)[found.value], old(jobs)[id])
      ensures found.None? ==> r.None? && jobs == old(jobs)
      ensures found.Some? ==>
        var job := old(jobs)[found.value].(state := Processing(now, worker, "memory-storage"));
        r == Some(job) && jobs == old(jobs)[found.value := job]
      ensures forall id :: found != Some(id) ==>
        && (id in locks <==> id in old(locks) && old(locks)[id].expiresAt > now)
        && (id in locks ==> locks[id] == old(locks)[id])
      ensures found.Some? ==> found.value in locks && locks[found.value] == JobLock(worker, now + 1_800_000_000_000)
    {
      FetchableMeans(jobs, locks, now, queues);
      CleanupExpiredLocks(now);
      var keys := map id | id in jobs && Available(jobs[id], now) :: RankKey(jobs[id]);
      var order := Sort(keys);
      var i := 0;
      while i < |order|
        invariant 0 <= i <= |order|
        invariant jobs == old(jobs) && locks == LiveLocks(old(locks), now)
        invariant forall j :: 0 <= j < i ==> !IsEligible(jobs, locks, now, queues, order[j])
      {
        var id := order[i];
        assert id in Elements(order);
        if QueueMatches(jobs[id], queues) && id !in locks {
          found := Some(id);
          FirstInOrder(jobs, locks, now, queues, keys, order, i);
          locks := locks[id := JobLock(worker, now + LOCK_TTL)];
          jobs := jobs[id := Claimed(jobs[id], worker, now)];
          return Some(jobs[id]), found;
        }
        i := i + 1;
      }
      NothingInOrder(jobs, locks, now, queues, keys, order);
      return None, None;
    }

    method TryAcquireJobLock(id: Id, worker: string, seconds: nat, now: Time) returns (r: bool)
      modifies this`locks
      ensures r <==> id !in LiveLocks(old(locks), now)
      ensures locks == if r then LiveLocks(old(locks), now)[id := JobLock(worker, now + seconds * SECOND)]
                       else LiveLocks(old(locks), now)
      ensures r <==> (id in old(locks) ==> old(locks)[id].expiresAt <= now)
      ensures r ==> id in locks && locks[id] == JobLock(worker, now + seconds * 1_000_000_000)
      ensures forall x :: !(r && x == id) ==>
        (x in locks <==> x in old(locks) && old(locks)[x].expiresAt > now) && (x in locks ==> locks[x] == old(locks)[x])
    {
      CleanupExpiredLocks(now);
      if id in locks {
        return false;
      }
      locks := locks[id := JobLock(worker, now + seconds * SECOND)];
      r := true;
    }

    method ReleaseJobLock(id: Id, worker: string) returns (r: bool)
      modifies this`locks
      ensures r <==> id in old(locks) && old(locks)[id].workerId == worker
      ensures locks == if r then old(locks) - {id} else old(locks)
    {
      r := id in locks && locks[id].workerId == worker;
      if r {
        locks := locks - {id};
      }
    }

    /**
     Claim up to `limit` jobs (10 by default, at most 100) one fetch at a time: exactly what sorting the
     eligible jobs and taking a prefix gives, each left Processing under a lock of the caller.
     */
    method FetchAvailableJobsAtomic(worker: string, limit: Option<nat>, queues: Option<seq<string>>, now: Time)
      returns (out: seq<Job>, ghost ids: seq<Id>)
      modifies this`jobs, this`locks
      ensures var n := Min(if limit.Some? then limit.value else 10, 100);
        TopPrefix(EligibleKeys(old(jobs), LiveLocks(old(locks), now), now, queues), n, ids)
      ensures AreClaims(old(jobs), ids, out, worker, now)
      ensures jobs == ClaimedAll(old(jobs), Elements(ids), worker, now)
      ensures locks == if limit == Some(0) then old(locks)
                       else LockedAll(LiveLocks(old(locks), now), Elements(ids), worker, now)
      ensures var n := if limit.None? then 10 else if limit.value > 100 then 100 else limit.value;
        BestFirst(old(jobs), WaitingIds(old(jobs), old(locks), now, queues), n, ids)
      ensures AreHandedOut(old(jobs), ids, worker, now, out, jobs, locks)
    {
      ghost var before, held := jobs, locks;
      var n := Min(if limit.Some? then limit.value else 10, 100);
      ghost var live := LiveLocks(locks, now);
      out, ids := [], [];
      ClaimingStarts(jobs, live, now, queues, worker);
      while |out| < n
        invariant |out| <= n && AreClaims(old(jobs), ids, out, worker, now)
        invariant Claiming(old(jobs), live, now, queues, worker, ids, jobs, LiveLocks(locks, now))
        invariant if ids == [] then locks == old(locks) else locks == LiveLocks(locks, now)
        decreases n - |out|
      {
        ghost var jobs', locks' := jobs, locks;
        var r;
        ghost var found;
        r, found := FetchAndLockJob(worker, queues, now);
        FetchedLocksLive(locks', found, worker, now);
        if r.None? {
          ClaimingEnds(old(jobs), live, now, queues, worker, ids, jobs', LiveLocks(locks', now), n);
          break;
        }
        ClaimingStep(old(jobs), live, now, queues, worker, ids, jobs', LiveLocks(locks', now), found.value);
        AnotherClaim(old(jobs), ids, out, worker, now, found.value, r.value);
        out, ids := out + [r.value], ids + [found.value];
      }
      BatchIsBestFirst(before, held, now, queues, n, ids);
      ClaimsAreHandedOut(before, live, ids, worker, now, out, jobs, locks);
    }

    // ----- recurring templates -----

    method UpsertRecurringJob(r: R.Template)
      modifies this`recurring
      ensures recurring == old(recurring)[r.id := r]
    {
      recurring := recurring[r.id := r];
    }

    method RemoveRecurringJob(id: Id) returns (r: bool)
      modifies this`recurring
      ensures recurring == old(recurring) - {id}
      ensures r <==> id in old(recurring)
    {
      r := id in recurring;
      recurring := recurring - {id};
    }

    /** Claim due templates, earliest first, and park them far in the future. */
    method FetchDueRecurringJobs(now: Time, limit: nat) returns (due: seq<R.Template>, ghost ids: seq<Id>)
      modifies this`recurring
      ensures TopPrefix(R.DueKeys(old(recurring), now), limit, ids)
      ensures recurring == R.Parked(old(recurring), Elements(ids), now)
      ensures AreTemplates(old(recurring), ids, due)
      ensures EarliestFirst(old(recurring), now, limit, ids)
      ensures ArePutOff(old(recurring), ids, now, recurring)
    {
      ghost var before := recurring;
      var order := SortAndTake(R.DueKeys(recurring, now), limit);
      ids := order;
      forall i | 0 <= i < |order|
        ensures order[i] in recurring
      {
        assert order[i] in Elements(order);
      }
      due := [];
      for i := 0 to |order|
        invariant recurring == R.Parked(old(recurring), Elements(order[..i]), now)
        invariant AreTemplates(old(recurring), order[..i], due)
      {
        Growing(order, i);
        due := due + [recurring[order[i]]];
        recurring := recurring[order[i] := recurring[order[i]].(nextRunAt := now + R.PARK)];
      }
      assert order[..|order|] == order;
      DueIsEarliestFirst(before, now, limit, ids);
      ParkedArePutOff(before, ids, now);
    }

    // ----- server registry -----

    method RegisterServer(info: ServerInfo)
      modifies this`servers
      ensures servers == old(servers)[info.serverId := info]
    {
      servers := servers[info.serverId := info];
    }

    method HeartbeatServer(id: Id, now: Time) returns (r: bool)
      modifies this`servers
      ensures servers == Bumped(old(servers), id, now)
      ensures r <==> id in old(servers)
      ensures servers == if r then old(servers)[id := old(servers)[id].(lastHeartbeat := now)] else old(servers)
    {
      r := id in servers;
      if r {
        servers := servers[id := servers[id].(lastHeartbeat := now)];
      }
    }

    method DeregisterServer(id: Id) returns (r: bool)
      modifies this`servers
      ensures servers == old(servers) - {id}
      ensures r <==> id in old(servers)
    {
      r := id in servers;
      servers := servers - {id};
    }

    /** Any listing of the rows whose heartbeat is stale. */
    method ListDeadServers(staleBefore: Time) returns (dead: seq<Id>)
      ensures Distinct(dead) && Elements(dead) == Dead(servers, staleBefore)
      ensures forall id :: id in dead <==> id in servers && servers[id].lastHeartbeat < staleBefore
    {
      dead := [];
      var rest := Dead(servers, staleBefore);
      while rest != {}
        invariant rest <= Dead(servers, staleBefore)
        invariant Distinct(dead) && Elements(dead) == Dead(servers, staleBefore) - rest
        decreases rest
      {
        var id :| id in rest;
        dead := dead + [id];
        rest := rest - {id};
      }
    }

    method ReclaimJobsFromServer(server: Id, now: Time) returns (reclaimed: nat)
      modifies this`jobs, this`locks
      ensures jobs == Requeue(old(jobs), Stamped(old(jobs), server), now)
      ensures locks == old(locks) - Stamped(old(jobs), server)
      ensures reclaimed == |Stamped(old(jobs), server)|
      ensures var gone := set id | id in old(jobs)
          && old(jobs)[id].state.Processing? && old(jobs)[id].state.serverName == server;
        && IsRequeued(old(jobs), gone, now, jobs)
        && locks == old(locks) - gone
        && reclaimed == |gone|
    {
      assert Stamped(jobs, server) ==
        set id | id in jobs && jobs[id].state.Processing? && jobs[id].state.serverName == server;
      reclaimed := RequeueAll(Stamped(jobs, server), now);
    }

    // ----- named locks -----

    method TryAcquireLock(resource: string, owner: string, ttl: nat, now: Time) returns (r: bool)
      modifies this`namedLocks
      ensures namedLocks == Acquired(old(namedLocks), resource, owner, now, ttl)
      ensures r <==> !HeldByOther(old(namedLocks), resource, owner, now)
      ensures r <==> (resource in old(namedLocks) && old(namedLocks)[resource].expiresAt > now ==>
                        old(namedLocks)[resource].owner == owner)
      ensures namedLocks == if r then old(namedLocks)[resource := NamedLock(owner, now + ttl)] else old(namedLocks)
    {
      if HeldByOther(namedLocks, resource, owner, now) {
        return false;
      }
      namedLocks := namedLocks[resource := NamedLock(owner, now + ttl)];
      r := true;
    }

    method ReleaseLock(resource: string, owner: string) returns (r: bool)
      modifies this`namedLocks
      ensures namedLocks == Released(old(namedLocks), resource, owner)
      ensures r <==> Owns(old(namedLocks), resource, owner)
      ensures r <==> resource in old(namedLocks) && old(namedLocks)[resource].owner == owner
      ensures namedLocks == if r then old(namedLocks) - {resource} else old(namedLocks)
    {
      r := Owns(namedLocks, resource, owner);
      if r {
        namedLocks := namedLocks - {resource};
      }
    }

    method CleanupExpiredNamedLocks(now: Time) returns (removed: nat)
      modifies this`namedLocks
      ensures namedLocks == Unexpired(old(namedLocks), now)
      ensures removed == |set r | r in old(namedLocks) && old(namedLocks)[r].expiresAt <= now|
      ensures forall r :: r in namedLocks <==> r in old(namedLocks) && old(namedLocks)[r].expiresAt > now
      ensures forall r :: r in namedLocks ==> namedLocks[r] == old(namedLocks)[r]
    {
      var before := |namedLocks|;
      ghost var gone := set r | r in namedLocks && namedLocks[r].expiresAt <= now;
      var rest := namedLocks.Keys;
      while rest != {}
        invariant rest <= namedLocks.Keys
        invariant forall r :: r in namedLocks <==> r in old(namedLocks) && (r in rest || r !in gone)
        invariant forall r :: r in namedLocks ==> namedLocks[r] == old(namedLocks)[r]
        decreases rest
      {
        var r :| r in rest;
        if namedLocks[r].expiresAt <= now {
          namedLocks := namedLocks - {r};
        }
        rest := rest - {r};
      }
      assert namedLocks == old(namedLocks) - gone;
      removed := before - |namedLocks|;
    }
  }
}
