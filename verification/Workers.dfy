/**
 The loops that drive a store: executing a job, polling recurring templates, the heartbeat cycle and the
 dashboard's retry, each run here without interference from others. The interleaved runs of the same
 steps are in Protocol, Recurring and Heartbeat.
 */
module Workers {
  import opened JobModel
  import opened Ranking
  import opened JobTable
  import opened Processor
  import opened Heartbeat
  import opened MemoryStorage
  import R = Recurring

  /** What writing a handler's result does to the store, and what it answers. */
  function Stored(jobs: JobMap, r: Result<Option<Job>>): JobMap {
    if r.Ok? && r.value.Some? then Updated(jobs, r.value.value) else jobs
  }

  function Answer(jobs: JobMap, r: Result<Option<Job>>): Result<()> {
    match r
    case Err(e) => Err(e)
    case Ok(None) => Ok(())
    case Ok(Some(j)) => if j.id in jobs then Ok(()) else Err(JobNotFound(j.id))
  }

  class JobProcessor {
    const storage: MemoryStorage
    const cfg: Config

    constructor (storage: MemoryStorage, cfg: Config)
      ensures this.storage == storage && this.cfg == cfg
    {
      this.storage := storage;
      this.cfg := cfg;
    }

    method CompleteJobSuccessfully(job0: Job, o: Outcome, now: Time) returns (r: Result<()>)
      requires o.Success?
      modifies storage`jobs
      ensures storage.jobs == Stored(old(storage.jobs), Completed(cfg, job0, o, now))
      ensures r == Answer(old(storage.jobs), Completed(cfg, job0, o, now))
    {
      var job := job0;
      if job.state.IsFinal() {
        return Ok(());
      }
      match job.SetState(Succeeded(now, o.duration, o.result)) {
        case Err(e) =>
          return Err(e);
        case Ok(j) =>
          job := j;
      }
      job := job.(expiresAt := Some(now + cfg.succeededTtl));
      job := job.(metadata := ExecMetadata(job.metadata, o.metadata));
      r := storage.Update(job);
    }

    method FailJobPermanently(job0: Job, error: string, now: Time) returns (r: Result<()>)
      modifies storage`jobs
      ensures storage.jobs == Stored(old(storage.jobs), FailedForGood(cfg, job0, error, now))
      ensures r == Answer(old(storage.jobs), FailedForGood(cfg, job0, error, now))
    {
      var job := job0;
      if job.state.IsFinal() {
        return Ok(());
      }
      match job.SetState(Failed(now, error, None)) {
        case Err(e) =>
          return Err(e);
        case Ok(j) =>
          job := j;
      }
      job := job.(expiresAt := Some(now + cfg.failedTtl));
      r := storage.Update(job);
    }

    method HandleJobRetry(job0: Job, error: string, retryAt: Option<Time>, d: Draw) returns (r: Result<()>)
      modifies storage`jobs
      ensures storage.jobs == Stored(old(storage.jobs), Retried(cfg, job0, error, retryAt, d))
      ensures r == Answer(old(storage.jobs), Retried(cfg, job0, error, retryAt, d))
    {
      var job := job0;
      if job.state.IsFinal() {
        return Ok(());
      }
      if !ShouldRetryAttempt(cfg, job, None) {
        r := FailJobPermanently(job, error, d.now);
        return;
      }
      match job.SetState(AwaitingRetry(d.now, RetryTime(cfg, job, retryAt, d), error)) {
        case Err(e) =>
          return Err(e);
        case Ok(j) =>
          job := j;
      }
      r := storage.Update(job);
    }

    /** Timeouts and execution errors. */
    method HandleError(job: Job, errorType: string, error: string, d: Draw) returns (r: Result<()>)
      modifies storage`jobs
      ensures storage.jobs == Stored(old(storage.jobs), Errored(cfg, job, errorType, error, d))
      ensures r == Answer(old(storage.jobs), Errored(cfg, job, errorType, error, d))
    {
      if ShouldRetryAttempt(cfg, job, Some(errorType)) {
        r := HandleJobRetry(job, error, None, d);
      } else {
        r := FailJobPermanently(job, error, d.now);
      }
    }

    method Settle(job: Job, o: Outcome, d: Draw) returns (r: Result<()>)
      modifies storage`jobs
      ensures storage.jobs == Stored(old(storage.jobs), Settled(cfg, job, o, d))
      ensures r == Answer(old(storage.jobs), Settled(cfg, job, o, d))
    {
      match o {
        case NoWorker => r := FailJobPermanently(job, "No worker registered for method: " + job.methodName, d.now);
        case Success(_, _, _) => r := CompleteJobSuccessfully(job, o, d.now);
        case RetryAsked(error, retryAt) => r := HandleJobRetry(job, error, retryAt, d);
        case Failure(error) => r := FailJobPermanently(job, error, d.now);
        case ExecutionError(errorType, error) => r := HandleError(job, errorType, error, d);
        case TimedOut(error) => r := HandleError(job, "TimeoutError", error, d);
      }
    }

    /**
     One execution. A claimed job is written back whatever the outcome; an Enqueued one is first stamped
     with this server; a final, scheduled or waiting one is refused and nothing is written.
     */
    method ProcessJob(job0: Job, o: Outcome, started: Time, d: Draw) returns (r: Result<()>)
      modifies storage`jobs
      ensures job0.state.Processing? || job0.state.Enqueued? ==>
        && storage.jobs == Updated(old(storage.jobs),
                                   WrittenBack(cfg, if job0.state.Processing? then job0 else Stamp(cfg, job0, started),
                                               o, d))
        && r == if job0.id in old(storage.jobs) then Ok(()) else Err(JobNotFound(job0.id))
      ensures (job0.state.Processing? || job0.state.Enqueued?) && job0.id in old(storage.jobs) ==>
        && job0.id in storage.jobs
        && (storage.jobs[job0.id].state.AwaitingRetry? <==> RunsAgain(cfg, job0, o))
        && storage.jobs[job0.id].attempt == Made(job0)
        && forall id :: id in old(storage.jobs) && id != job0.id ==>
             id in storage.jobs && storage.jobs[id] == old(storage.jobs)[id]
      ensures !(job0.state.Processing? || job0.state.Enqueued?) ==> storage.jobs == old(storage.jobs)
      ensures r.Err? && r.error.InvalidTransition? <==>
        job0.state.Scheduled? || job0.state.AwaitingRetry? || (job0.state.IsFinal() && !o.NoWorker?)
    {
      var job := Attempted(job0);
      RunsAgainIff(cfg, job0, o, started, d);
      if o.NoWorker? {
        NoWorkerSettles(cfg, job0, o, started, d);
        r := Settle(job, o, d);
        return;
      }
      if !job.state.Processing? {
        match job.SetState(Processing(started, cfg.workerId, cfg.serverName)) {
          case Err(e) =>
            return Err(e);
          case Ok(j) =>
            job := j;
        }
        var saved := storage.Update(job);
        if saved.Err? {
          return saved;
        }
      }
      r := Settle(job, o, d);
    }
  }

  /** Whether the job was claimed before or is taken over first makes no difference to its retry. */
  lemma RunsAgainIff(cfg: Config, job: Job, o: Outcome, started: Time, d: Draw)
    ensures job.state.Processing? ==>
      (WrittenBack(cfg, job, o, d).state.AwaitingRetry? <==> RunsAgain(cfg, job, o))
    ensures job.state.Enqueued? ==>
      (WrittenBack(cfg, Stamp(cfg, job, started), o, d).state.AwaitingRetry? <==> RunsAgain(cfg, job, o))
  {
    if job.state.Processing? {
      RetriedIff(cfg, job, o, d);
    } else if job.state.Enqueued? {
      RetriedIff(cfg, Stamp(cfg, job, started), o, d);
    }
  }

  /** Without a worker the job fails from where it is, as it would have after being taken over. */
  lemma NoWorkerSettles(cfg: Config, job: Job, o: Outcome, started: Time, d: Draw)
    requires o.NoWorker?
    ensures var r := Settled(cfg, Attempted(job), o, d);
      && (job.state.Processing? ==> r == Ok(Some(WrittenBack(cfg, job, o, d))))
      && (job.state.Enqueued? ==> r == Ok(Some(WrittenBack(cfg, Stamp(cfg, job, started), o, d))))
      && (job.state.IsFinal() ==> r == Ok(None))
      && (job.state.Scheduled? || job.state.AwaitingRetry? ==> r == Err(InvalidTransition))
  {
  }

  /** An Enqueued job taken over by this server. */
  function Stamp(cfg: Config, job: Job, started: Time): Job {
    job.(state := Processing(started, cfg.workerId, cfg.serverName))
  }

  // ----- recurring poller -----

  /** The job a firing creates. */
  function Materialized(r: R.Template, uuid: Id, clock: Time): Job {
    Job(uuid, r.methodName, r.payload, clock, Enqueued(clock, r.queue), r.queue, 0, 0, 0, map[], None, None, None)
  }

  /** The templates after the claimed ones were written back. */
  function WrittenBackAll(next: R.NextAfter, m: R.Templates, ids: set<Id>, now: Time, clock: Time): R.Templates {
    map id | id in m :: if id in ids then R.Advanced(next, m[id], now, clock) else m[id]
  }

  const RECURRING_BATCH: nat := 256

  /**
   One poll: claim due templates, materialize each, advance it and write it back. `uuids` are the fresh ids
   of the jobs it may create; a store at capacity refuses a job but the template still advances.
   */
  method TickOnce(storage: MemoryStorage, next: R.NextAfter, now: Time, clock: Time, uuids: seq<Id>)
    returns (count: nat, ghost ids: seq<Id>)
    requires |uuids| >= RECURRING_BATCH && Distinct(uuids)
    requires forall u :: u in uuids ==> u !in storage.jobs
    requires forall id :: id in storage.recurring ==> storage.recurring[id].id == id
    modifies storage`jobs, storage`recurring
    ensures EarliestFirst(old(storage.recurring), now, 256, ids) && count == |ids|
    ensures AreAdvanced(next, old(storage.recurring), ids, now, clock, storage.recurring)
    ensures Materializing(old(storage.jobs), storage.jobs, old(storage.recurring),
                          ids, uuids, |ids|, clock, storage.maxJobs)
  {
    var due;
    due, ids := storage.FetchDueRecurringJobs(now, RECURRING_BATCH);
    count := |due|;
    SettleTemplates(storage, next, due, now, clock, uuids, old(storage.recurring), ids);
    AllAreAdvanced(next, old(storage.recurring), ids, now, clock);
  }

  /** Materialize each claimed template, advance it and write it back. */
  method SettleTemplates(storage: MemoryStorage, next: R.NextAfter, due: seq<R.Template>, now: Time, clock: Time,
                         uuids: seq<Id>, ghost m: R.Templates, ghost ids: seq<Id>)
    requires |due| <= |uuids| && Distinct(uuids) && Distinct(ids)
    requires forall u :: u in uuids ==> u !in storage.jobs
    requires AreTemplates(m, ids, due) && forall id :: id in m ==> m[id].id == id
    requires storage.recurring == R.Parked(m, Elements(ids), now)
    modifies storage`jobs, storage`recurring
    ensures storage.recurring == WrittenBackAll(next, m, Elements(ids), now, clock)
    ensures Materializing(old(storage.jobs), storage.jobs, m, ids, uuids, |ids|, clock, storage.maxJobs)
  {
    PartlyBackEnds(next, m, ids, now, clock);
    for i := 0 to |due|
      invariant storage.recurring == PartlyBack(next, m, ids, i, now, clock)
      invariant Materializing(old(storage.jobs), storage.jobs, m, ids, uuids, i, clock, storage.maxJobs)
    {
      var r := due[i];
      MaterializeOneMore(old(storage.jobs), storage.jobs, m, ids, uuids, i, clock, storage.maxJobs);
      var _ := storage.Enqueue(Materialized(r, uuids[i], clock));
      PartlyBackOneMore(next, m, ids, i, now, clock);
      storage.UpsertRecurringJob(R.Advanced(next, r, now, clock));
    }
  }

  /**
   By the fields alone: exactly the templates of `ids` ran at `now` and wait for the next occurrence after it,
   or are disabled where there is none.
   */
  ghost predicate AreAdvanced(next: R.NextAfter, m: R.Templates, ids: seq<Id>, now: Time, clock: Time, m': R.Templates)
  {
    && m'.Keys == m.Keys
    && (forall id :: id in m && id !in ids ==> m'[id] == m[id])
    && (forall id :: id in m && id in ids && next(m[id].cron, now).Some? ==>
          m'[id] == m[id].(lastRunAt := Some(now), nextRunAt := next(m[id].cron, now).value, updatedAt := clock))
    && (forall id :: id in m && id in ids && next(m[id].cron, now).None? ==>
          m'[id] == m[id].(lastRunAt := Some(now), enabled := false))
  }

  lemma AllAreAdvanced(next: R.NextAfter, m: R.Templates, ids: seq<Id>, now: Time, clock: Time)
    ensures AreAdvanced(next, m, ids, now, clock, WrittenBackAll(next, m, Elements(ids), now, clock))
  {
  }

  /**
   The first `i` claimed templates have been materialized: old jobs are untouched, each new id holds the job
   of its template, and without a capacity limit every one of them is stored.
   */
  ghost predicate Materializing(jobs: JobMap, jobs': JobMap, m: R.Templates, ids: seq<Id>, uuids: seq<Id>, i: nat,
                                clock: Time, maxJobs: Option<nat>)
  {
    && i <= |ids| <= |uuids|
    && (forall id :: id in jobs ==> id in jobs' && jobs'[id] == jobs[id])
    && jobs'.Keys <= jobs.Keys + Elements(uuids[..i])
    && forall j :: 0 <= j < i ==> IsMaterialized(jobs', m, ids, uuids, j, clock, maxJobs)
  }

  /** The `j`-th new id holds the job of the `j`-th template; only a full store may have refused it. */
  ghost predicate IsMaterialized(jobs: JobMap, m: R.Templates, ids: seq<Id>, uuids: seq<Id>, j: nat, clock: Time,
                                 maxJobs: Option<nat>)
    requires j < |ids| <= |uuids|
  {
    && (maxJobs.None? ==> uuids[j] in jobs)
    && (uuids[j] in jobs ==> ids[j] in m && IsJobOf(jobs[uuids[j]], m[ids[j]], uuids[j], clock))
  }

  /** By the fields alone: a fresh job of the template's method and payload, waiting in the template's queue. */
  predicate IsJobOf(job: Job, r: R.Template, uuid: Id, clock: Time) {
    && job.id == uuid
    && job.methodName == r.methodName
    && job.payload == r.payload
    && job.queue == r.queue
    && job.state == Enqueued(clock, r.queue)
    && job.createdAt == clock
    && job.priority == 0 && job.maxRetries == 0 && job.attempt == 0
    && job.metadata == map[] && job.jobType.None? && job.timeoutSeconds.None? && job.expiresAt.None?
  }

  lemma MaterializeOneMore(jobs: JobMap, jobs': JobMap, m: R.Templates, ids: seq<Id>, uuids: seq<Id>, i: nat,
                           clock: Time, maxJobs: Option<nat>)
    requires Materializing(jobs, jobs', m, ids, uuids, i, clock, maxJobs)
    requires i < |ids| && ids[i] in m && Distinct(uuids) && forall u :: u in uuids ==> u !in jobs
    ensures Materializing(jobs, Inserted(jobs', Materialized(m[ids[i]], uuids[i], clock), maxJobs), m, ids,
                          uuids, i + 1, clock, maxJobs)
  {
    var job := Materialized(m[ids[i]], uuids[i], clock);
    var jobs'' := Inserted(jobs', job, maxJobs);
    Growing(uuids, i);
    forall j | 0 <= j < i + 1
      ensures IsMaterialized(jobs'', m, ids, uuids, j, clock, maxJobs)
    {
      assert uuids[j] != uuids[i] || j == i;
      assert j < i ==> IsMaterialized(jobs', m, ids, uuids, j, clock, maxJobs);
    }
  }

  /** Part way through a poll: the first `i` claimed templates are written back, the others still parked. */
  ghost function PartlyBack(next: R.NextAfter, m: R.Templates, ids: seq<Id>, i: nat, now: Time,
                            clock: Time): R.Templates
    requires i <= |ids|
  {
    map id | id in m ::
      if id in ids[..i] then R.Advanced(next, m[id], now, clock)
      else if id in ids then m[id].(nextRunAt := now + R.PARK)
      else m[id]
  }

  lemma PartlyBackOneMore(next: R.NextAfter, m: R.Templates, ids: seq<Id>, i: nat, now: Time, clock: Time)
    requires i < |ids| && ids[i] in m && Distinct(ids)
    ensures PartlyBack(next, m, ids, i, now, clock)[ids[i] := R.Advanced(next, m[ids[i]], now, clock)]
         == PartlyBack(next, m, ids, i + 1, now, clock)
  {
    assert ids[..i + 1] == ids[..i] + [ids[i]];
  }

  /** Before the first template is written back they are all parked; after the last none is. */
  lemma PartlyBackEnds(next: R.NextAfter, m: R.Templates, ids: seq<Id>, now: Time, clock: Time)
    ensures PartlyBack(next, m, ids, 0, now, clock) == R.Parked(m, Elements(ids), now)
    ensures PartlyBack(next, m, ids, |ids|, now, clock) == WrittenBackAll(next, m, Elements(ids), now, clock)
  {
    assert ids[..0] == [] && ids[..|ids|] == ids;
  }

  // ----- heartbeat cycle -----

  /** Jobs stamped with one of the given servers. */
  function StampedByAny(jobs: JobMap, servers: set<Id>): set<Id> {
    set id | id in jobs && jobs[id].state.Processing? && jobs[id].state.serverName in servers
  }

  /** Bump the own row, then take back the jobs of every other stale server and drop its row. */
  method BumpAndScan(storage: MemoryStorage, self: Id, timeout: Time, now: Time, clock: Time)
    modifies storage`jobs, storage`locks, storage`servers
    ensures var bumped := Bumped(old(storage.servers), self, now); var dead := Dead(bumped, now - timeout) - {self};
      && storage.servers == bumped - dead
      && storage.jobs == Requeue(old(storage.jobs), StampedByAny(old(storage.jobs), dead), clock)
      && storage.locks == old(storage.locks) - StampedByAny(old(storage.jobs), dead)
    ensures SilentAreDropped(old(storage.servers), self, timeout, now, storage.servers)
    ensures SilentAreReclaimed(old(storage.servers), self, timeout, now, clock,
                               old(storage.jobs), old(storage.locks), storage.jobs, storage.locks)
  {
    ghost var rows, jobs, locks := storage.servers, storage.jobs, storage.locks;
    var _ := storage.HeartbeatServer(self, now);
    var dead := storage.ListDeadServers(now - timeout);
    ghost var silent := Elements(dead) - {self};
    TakeOverEach(storage, self, dead, clock);
    assert silent == Dead(Bumped(rows, self, now), now - timeout) - {self};
    DeadAreSilent(rows, self, timeout, now, clock, jobs, locks);
  }

  /** Take back the jobs of each listed peer and drop its row. */
  method TakeOverEach(storage: MemoryStorage, self: Id, dead: seq<Id>, clock: Time)
    requires Distinct(dead)
    modifies storage`jobs, storage`locks, storage`servers
    ensures storage.servers == old(storage.servers) - (Elements(dead) - {self})
    ensures TakenBack(old(storage.jobs), old(storage.locks), Elements(dead) - {self}, clock,
                      storage.jobs, storage.locks)
  {
    ghost var done: set<Id> := {};
    assert Requeue(storage.jobs, StampedByAny(storage.jobs, {}), clock) == storage.jobs;
    for i := 0 to |dead|
      invariant done == Elements(dead[..i]) - {self}
      invariant storage.servers == old(storage.servers) - done
      invariant TakenBack(old(storage.jobs), old(storage.locks), done, clock, storage.jobs, storage.locks)
    {
      Growing(dead, i);
      if dead[i] == self {
        continue;
      }
      DropOneMore(old(storage.servers), done, dead[i]);
      TakeBackOneMore(old(storage.jobs), old(storage.locks), done, dead[i], clock, storage.jobs, storage.locks);
      var _ := storage.ReclaimJobsFromServer(dead[i], clock);
      var _ := storage.DeregisterServer(dead[i]);
      done := done + {dead[i]};
    }
    assert dead[..|dead|] == dead;
  }

  /** By the fields alone: gone are exactly the rows other than the own that are silent for longer than the timeout. */
  ghost predicate SilentAreDropped(servers: Registry, self: Id, timeout: Time, now: Time, servers': Registry) {
    && (forall id :: id in servers' <==>
          id in servers && (id == self || servers[id].lastHeartbeat >= now - timeout))
    && (forall id :: id in servers' ==>
          servers'[id] == if id == self then servers[id].(lastHeartbeat := now) else servers[id])
  }

  /** By the fields alone: back in their queues and unlocked are exactly the jobs executing on such a server. */
  ghost predicate SilentAreReclaimed(servers: Registry, self: Id, timeout: Time, now: Time, clock: Time,
                                     jobs: JobMap, locks: LockMap, jobs': JobMap, locks': LockMap)
  {
    var gone := set id | id in jobs && jobs[id].state.Processing? && jobs[id].state.serverName != self
                         && jobs[id].state.serverName in servers
                         && servers[jobs[id].state.serverName].lastHeartbeat < now - timeout;
    IsRequeued(jobs, gone, clock, jobs') && locks' == locks - gone
  }

  lemma DeadAreSilent(servers: Registry, self: Id, timeout: Time, now: Time, clock: Time, jobs: JobMap, locks: LockMap)
    ensures var bumped := Bumped(servers, self, now); var dead := Dead(bumped, now - timeout) - {self};
      && SilentAreDropped(servers, self, timeout, now, bumped - dead)
      && SilentAreReclaimed(servers, self, timeout, now, clock, jobs, locks,
                            Requeue(jobs, StampedByAny(jobs, dead), clock), locks - StampedByAny(jobs, dead))
  {
    var dead := Dead(Bumped(servers, self, now), now - timeout) - {self};
    var gone := set id | id in jobs && jobs[id].state.Processing? && jobs[id].state.serverName != self
                         && jobs[id].state.serverName in servers
                         && servers[jobs[id].state.serverName].lastHeartbeat < now - timeout;
    assert StampedByAny(jobs, dead) == gone;
  }

  /** The jobs of the servers in `done` are back in their queues and unlocked. */
  ghost predicate TakenBack(jobs: JobMap, locks: LockMap, done: set<Id>, clock: Time, jobs': JobMap, locks': LockMap) {
    && jobs' == Requeue(jobs, StampedByAny(jobs, done), clock)
    && locks' == locks - StampedByAny(jobs, done)
  }

  lemma DropOneMore(servers: Registry, done: set<Id>, peer: Id)
    ensures servers - done - {peer} == servers - (done + {peer})
  {
  }

  lemma TakeBackOneMore(jobs: JobMap, locks: LockMap, done: set<Id>, peer: Id, clock: Time, jobs': JobMap,
                        locks': LockMap)
    requires TakenBack(jobs, locks, done, clock, jobs', locks') && peer !in done
    ensures TakenBack(jobs, locks, done + {peer}, clock,
                      Requeue(jobs', Stamped(jobs', peer), clock), locks' - Stamped(jobs', peer))
  {
  }

  // ----- dashboard -----

  /** Retry a failed job: read it, check it, compare-and-swap it back to Enqueued. */
  method RetryJob(storage: MemoryStorage, id: Id, now: Time) returns (r: Result<bool>)
    requires Keyed(storage.jobs)
    modifies storage`jobs
    ensures r == Ok(id in old(storage.jobs) && old(storage.jobs)[id].state.Failed?)
    ensures storage.jobs == if r == Ok(true) then old(storage.jobs)[id := old(storage.jobs)[id].Requeued(now)]
                            else old(storage.jobs)
    ensures r == Ok(true) ==>
      var job := old(storage.jobs)[id];
      storage.jobs == old(storage.jobs)[id := job.(state := Enqueued(now, job.queue))]
  {
    var found := storage.Get(id);
    match found {
      case None => return Ok(false);
      case Some(job) =>
        if !job.state.Failed? {
          return Ok(false);
        }
        r := storage.UpdateIfState(job.Requeued(now), FailedKind);
    }
  }

  // ----- server start -----

  /** The sweep a starting server makes before its workers run. */
  method StartupSweep(storage: MemoryStorage, staleAfter: Time, now: Time, clock: Time) returns (recovered: nat)
    modifies storage`jobs, storage`locks
    ensures storage.jobs == Requeue(old(storage.jobs), Stranded(old(storage.jobs), now - staleAfter), clock)
    ensures storage.locks == old(storage.locks) - Stranded(old(storage.jobs), now - staleAfter)
    ensures forall id :: id in storage.jobs && storage.jobs[id].state.Processing? ==>
      storage.jobs[id].state.startedAt >= now - staleAfter
    ensures var gone := set id | id in old(storage.jobs) && old(storage.jobs)[id].state.Processing?
                                 && old(storage.jobs)[id].state.startedAt < now - staleAfter;
      && IsRequeued(old(storage.jobs), gone, clock, storage.jobs)
      && storage.locks == old(storage.locks) - gone
      && recovered == |gone|
  {
    recovered := storage.RequeueStrandedJobs(now - staleAfter, clock);
  }
}
