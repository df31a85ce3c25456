/**
 Servers, workers, sweeps and dashboard requests sharing one in-memory store: every atomic step of the
 claim / execute / recover protocol, and what holds over whole runs of interleaved steps.
 */
module Protocol {
  import opened JobModel
  import opened Ranking
  import opened JobTable
  import opened Processor

  /** A worker task or a dashboard request. Worker names are not unique across servers; threads are. */
  type Thread = nat

  /**
   `running` holds the private copy each executing worker works on, `views` the copy each dashboard
   request read. The last three fields record what was ever stored, deleted on request, and swept.
   */
  datatype System = System(
    jobs: JobMap,
    locks: LockMap,
    clock: Time,
    running: map<Thread, Job>,
    views: map<Thread, Job>,
    used: set<Id>,
    deleted: set<Id>,
    swept: map<Id, (Job, Time)>)

  /**
   Clock readings named `now` were taken earlier, outside the critical section; so was the capacity check
   that decides whether an enqueue is accepted.
   */
  datatype Step =
    | EnqueueStep(job: Job, accepted: bool)
    | DeleteStep(id: Id)
    | ExpireStep(now: Time)
    | CleanLocksStep(now: Time)
    | TakeLockStep(id: Id, worker: string, seconds: nat)
    | DropLockStep(id: Id, worker: string)
    | FetchStep(thread: Thread, worker: string, queues: Option<seq<string>>, found: Option<Id>)
    | FinishStep(thread: Thread, cfg: Config, outcome: Outcome, draw: Draw)
    | CrashStep(thread: Thread)
    | SweepStep(now: Time, staleAfter: Time)
    | ReclaimStep(server: string)
    | ClaimStep(kind: Kind, now: Time, limit: nat, ids: seq<Id>)
    | ReadStep(thread: Thread, id: Id)
    | RetryStep(thread: Thread)

  ghost predicate Init(s: System) {
    s == System(map[], map[], s.clock, map[], map[], {}, {}, map[])
  }

  /** The job a dashboard request writes when it retries the copy it read. */
  function RetryCopy(s: System, thread: Thread, now: Time): Job
    requires thread in s.views
  {
    s.views[thread].Requeued(now)
  }

  // Each step happens at time `t.clock`; `s` is the state before it with the clock moved there.

  ghost predicate DoEnqueue(s: System, job: Job, accepted: bool, t: System) {
    && job.id !in s.used
    && t == if accepted then s.(jobs := s.jobs[job.id := job], used := s.used + {job.id}) else s
  }

  ghost predicate DoDelete(s: System, id: Id, t: System) {
    t == if id in s.jobs then s.(jobs := s.jobs - {id}, deleted := s.deleted + {id}) else s
  }

  ghost predicate DoExpire(s: System, now: Time, t: System) {
    var gone := ExpiredIds(s.jobs, now);
    && now <= t.clock
    && t == s.(jobs := s.jobs - gone, swept := s.swept + map id | id in gone :: (s.jobs[id], now))
  }

  ghost predicate DoTakeLock(s: System, id: Id, worker: string, seconds: nat, t: System) {
    t == if id in s.locks then s else s.(locks := s.locks[id := JobLock(worker, t.clock + seconds * SECOND)])
  }

  ghost predicate DoDropLock(s: System, id: Id, worker: string, t: System) {
    t == if id in s.locks && s.locks[id].workerId == worker then s.(locks := s.locks - {id}) else s
  }

  ghost predicate DoFetch(s: System, thread: Thread, worker: string, queues: Option<seq<string>>, found: Option<Id>,
                          t: System)
  {
    && thread !in s.running
    && Fetchable(s.jobs, s.locks, t.clock, queues, found)
    && t == if found.None? then s
            else s.(jobs := FetchedJobs(s.jobs, found, worker, t.clock),
                    locks := FetchedLocks(s.locks, found, worker, t.clock),
                    running := s.running[thread := Claimed(s.jobs[found.value], worker, t.clock)])
  }

  ghost predicate DoFinish(s: System, thread: Thread, cfg: Config, outcome: Outcome, draw: Draw, t: System) {
    && thread in s.running
    && s.running[thread].state.Processing?
    && draw.now <= t.clock
    && t == s.(jobs := Updated(s.jobs, WrittenBack(cfg, s.running[thread], outcome, draw)),
               running := s.running - {thread})
  }

  ghost predicate DoRequeue(s: System, ids: set<Id>, t: System) {
    t == s.(jobs := Requeue(s.jobs, ids, t.clock), locks := s.locks - ids)
  }

  ghost predicate DoClaim(s: System, kind: Kind, now: Time, limit: nat, ids: seq<Id>, t: System) {
    && now <= t.clock
    && TopPrefix(DueKeys(s.jobs, kind, now), limit, ids)
    && t == s.(jobs := Requeue(s.jobs, Elements(ids), t.clock))
  }

  ghost predicate DoRead(s: System, thread: Thread, id: Id, t: System) {
    t == if id in s.jobs && s.jobs[id].state.Failed? then s.(views := s.views[thread := s.jobs[id]]) else s
  }

  ghost predicate DoRetry(s: System, thread: Thread, t: System) {
    && thread in s.views
    && t == s.(jobs := Swapped(s.jobs, RetryCopy(s, thread, t.clock), FailedKind), views := s.views - {thread})
  }

  /** One step of some actor. Server ids are `name#uuid`. */
  ghost predicate Next(s: System, l: Step, t: System) {
    && s.clock <= t.clock
    && var s := s.(clock := t.clock);
       match l
       case EnqueueStep(job, accepted) => DoEnqueue(s, job, accepted, t)
       case DeleteStep(id) => DoDelete(s, id, t)
       case ExpireStep(now) => DoExpire(s, now, t)
       case CleanLocksStep(now) => now <= t.clock && t == s.(locks := LiveLocks(s.locks, now))
       case TakeLockStep(id, worker, seconds) => DoTakeLock(s, id, worker, seconds, t)
       case DropLockStep(id, worker) => DoDropLock(s, id, worker, t)
       case FetchStep(thread, worker, queues, found) => DoFetch(s, thread, worker, queues, found, t)
       case FinishStep(thread, cfg, outcome, draw) => DoFinish(s, thread, cfg, outcome, draw, t)
       case CrashStep(thread) => t == s.(running := s.running - {thread})
       case SweepStep(now, staleAfter) => now <= t.clock && DoRequeue(s, Stranded(s.jobs, now - staleAfter), t)
       case ReclaimStep(server) => '#' in server && DoRequeue(s, Stamped(s.jobs, server), t)
       case ClaimStep(kind, now, limit, ids) => DoClaim(s, kind, now, limit, ids, t)
       case ReadStep(thread, id) => DoRead(s, thread, id, t)
       case RetryStep(thread) => DoRetry(s, thread, t)
  }

  ghost predicate IsRun(tr: seq<System>, steps: seq<Step>) {
    && |tr| == |steps| + 1
    && Init(tr[0])
    && forall i {:trigger steps[i]} :: 0 <= i < |steps| ==> Next(tr[i], steps[i], tr[i + 1])
  }

  // ----- what one step does to one record -----

  /** The record of `id` is untouched, or changed in the one way its step allows. */
  ghost predicate Effect(s: System, l: Step, t: System, id: Id) {
    || (id !in s.jobs && id !in t.jobs)
    || (id in s.jobs && id in t.jobs && t.jobs[id] == s.jobs[id])
    || match l
       case EnqueueStep(job, _) =>
         id == job.id && id !in s.used && id in t.used && id in t.jobs && t.jobs[id] == job
       case DeleteStep(i) =>
         id == i && id in s.jobs && id !in t.jobs && id in t.deleted
       case ExpireStep(now) =>
         id in s.jobs && id !in t.jobs && Expired(s.jobs[id], now) && id in t.swept && t.swept[id] == (s.jobs[id], now)
       case FetchStep(_, worker, _, found) =>
         && found == Some(id) && id in s.jobs && id in t.jobs
         && Available(s.jobs[id], t.clock) && t.jobs[id] == Claimed(s.jobs[id], worker, t.clock)
       case FinishStep(thread, cfg, outcome, draw) =>
         && thread in s.running && s.running[thread].id == id && s.running[thread].state.Processing?
         && id in s.jobs && id in t.jobs && t.jobs[id] == WrittenBack(cfg, s.running[thread], outcome, draw)
       case SweepStep(now, staleAfter) =>
         id in s.jobs && id in t.jobs && IsStranded(s.jobs[id], now - staleAfter)
         && t.jobs[id] == s.jobs[id].Requeued(t.clock)
       case ReclaimStep(server) =>
         id in s.jobs && id in t.jobs && IsStamped(s.jobs[id], server) && t.jobs[id] == s.jobs[id].Requeued(t.clock)
       case ClaimStep(kind, now, _, _) =>
         id in s.jobs && id in t.jobs && IsDue(s.jobs[id], kind, now) && t.jobs[id] == s.jobs[id].Requeued(t.clock)
       case RetryStep(thread) =>
         && thread in s.views && s.views[thread].id == id && id in s.jobs && s.jobs[id].state.Failed?
         && id in t.jobs && t.jobs[id] == RetryCopy(s, thread, t.clock)
       case _ => false
  }

  /** What one step does to the executing workers. */
  ghost predicate RunningFrame(s: System, l: Step, t: System) {
    && s.clock <= t.clock
    && (t.running == match l
                     case FetchStep(thread, worker, _, Some(id)) =>
                       if id in s.jobs then s.running[thread := Claimed(s.jobs[id], worker, t.clock)] else s.running
                     case FinishStep(thread, _, _, _) => s.running - {thread}
                     case CrashStep(thread) => s.running - {thread}
                     case _ => s.running)
    && (l.FetchStep? ==> l.thread !in s.running)
    && (l.FetchStep? && l.found.Some? ==>
          && l.found.value in s.jobs
          && l.found.value in t.jobs
          && Available(s.jobs[l.found.value], t.clock)
          && t.jobs[l.found.value] == Claimed(s.jobs[l.found.value], l.worker, t.clock))
    && (l.SweepStep? ==> l.now <= t.clock)
    && (l.ReclaimStep? ==> '#' in l.server)
    && (l.ClaimStep? ==> l.now <= t.clock)
  }

  /** What one step does to the record of what was stored, deleted and swept. */
  ghost predicate LedgerFrame(s: System, l: Step, t: System) {
    && s.used <= t.used
    && s.deleted <= t.deleted
    && s.swept.Keys <= t.swept.Keys
    && (forall id :: id in t.used && id !in s.used ==> id in t.jobs)
    && (forall id :: id in t.swept ==>
          || (id in s.swept && t.swept[id] == s.swept[id])
          || (id in s.jobs && Expired(s.jobs[id], t.swept[id].1) && t.swept[id].0 == s.jobs[id]))
  }

  /** A view is kept, or is the Failed record just read. */
  ghost predicate ViewsFrame(s: System, l: Step, t: System) {
    forall th :: th in t.views ==>
      || (th in s.views && t.views[th] == s.views[th])
      || (t.views[th].id in s.jobs && s.jobs[t.views[th].id] == t.views[th] && t.views[th].state.Failed?)
      || !Keyed(s.jobs)
  }

  ghost predicate Frame(s: System, l: Step, t: System) {
    RunningFrame(s, l, t) && LedgerFrame(s, l, t) && ViewsFrame(s, l, t)
  }

  /** All that the run proofs need to know about a step. */
  ghost predicate Summary(s: System, l: Step, t: System) {
    && Frame(s, l, t)
    && forall id :: Effect(s, l, t, id)
  }

  lemma StepEffect(s: System, l: Step, t: System, id: Id)
    requires Next(s, l, t)
    ensures Effect(s, l, t, id)
  {
  }

  /** What becomes of the record of `id`, whatever the step: exactly this, in terms of its fields. */
  ghost predicate Becomes(s: System, l: Step, t: System, id: Id) {
    var kept := (id in t.jobs <==> id in s.jobs) && (id in s.jobs ==> t.jobs[id] == s.jobs[id]);
    match l
    case EnqueueStep(job, accepted) =>
      if accepted && id == job.id then id in t.jobs && t.jobs[id] == job else kept
    case DeleteStep(i) => if id == i then id !in t.jobs else kept
    case ExpireStep(now) =>
      if id in s.jobs && s.jobs[id].expiresAt.Some? && s.jobs[id].expiresAt.value <= now then id !in t.jobs else kept
    case FetchStep(_, worker, _, found) =>
      if found == Some(id)
      then id in s.jobs && id in t.jobs
           && t.jobs[id] == s.jobs[id].(state := Processing(t.clock, worker, "memory-storage"))
      else kept
    case FinishStep(thread, cfg, outcome, draw) =>
      if thread in s.running && s.running[thread].state.Processing? && s.running[thread].id == id && id in s.jobs
      then id in t.jobs && t.jobs[id] == WrittenBack(cfg, s.running[thread], outcome, draw)
      else kept
    case SweepStep(now, staleAfter) =>
      if id in s.jobs && s.jobs[id].state.Processing? && s.jobs[id].state.startedAt < now - staleAfter
      then id in t.jobs && t.jobs[id] == s.jobs[id].(state := Enqueued(t.clock, s.jobs[id].queue))
      else kept
    case ReclaimStep(server) =>
      if id in s.jobs && s.jobs[id].state.Processing? && s.jobs[id].state.serverName == server
      then id in t.jobs && t.jobs[id] == s.jobs[id].(state := Enqueued(t.clock, s.jobs[id].queue))
      else kept
    case ClaimStep(_, _, _, ids) =>
      if id in s.jobs && id in ids
      then id in t.jobs && t.jobs[id] == s.jobs[id].(state := Enqueued(t.clock, s.jobs[id].queue))
      else kept
    case RetryStep(thread) =>
      if thread in s.views && s.views[thread].id == id && id in s.jobs && s.jobs[id].state.Failed?
      then id in t.jobs && t.jobs[id] == s.views[thread].(state := Enqueued(t.clock, s.views[thread].queue))
      else kept
    case _ => kept
  }

  lemma StepBecomes(s: System, l: Step, t: System, id: Id)
    requires Next(s, l, t)
    ensures Becomes(s, l, t, id)
  {
    if l.SweepStep? || l.ReclaimStep? || l.ClaimStep? {
      RequeueBecomes(s, l, t, id);
    }
  }

  lemma RequeueBecomes(s: System, l: Step, t: System, id: Id)
    requires Next(s, l, t) && (l.SweepStep? || l.ReclaimStep? || l.ClaimStep?)
    ensures Becomes(s, l, t, id)
  {
    var ids := if l.SweepStep? then Stranded(s.jobs, l.now - l.staleAfter)
               else if l.ReclaimStep? then Stamped(s.jobs, l.server) else Elements(l.ids);
    assert t.jobs == Requeue(s.jobs, ids, t.clock);
  }

  /** What becomes of the lock on `id`: exactly this. */
  ghost predicate LockBecomes(s: System, l: Step, t: System, id: Id) {
    var kept := (id in t.locks <==> id in s.locks) && (id in s.locks ==> t.locks[id] == s.locks[id]);
    match l
    case CleanLocksStep(now) => if id in s.locks && s.locks[id].expiresAt <= now then id !in t.locks else kept
    case TakeLockStep(i, worker, seconds) =>
      if id == i && id !in s.locks
      then id in t.locks && t.locks[id] == JobLock(worker, t.clock + seconds * 1_000_000_000)
      else kept
    case DropLockStep(i, worker) =>
      if id == i && id in s.locks && s.locks[id].workerId == worker then id !in t.locks else kept
    case FetchStep(_, worker, _, found) =>
      if found == Some(id)
      then id !in s.locks && id in t.locks && t.locks[id] == JobLock(worker, t.clock + 1_800_000_000_000)
      else kept
    case SweepStep(now, staleAfter) =>
      if id in s.jobs && s.jobs[id].state.Processing? && s.jobs[id].state.startedAt < now - staleAfter
      then id !in t.locks else kept
    case ReclaimStep(server) =>
      if id in s.jobs && s.jobs[id].state.Processing? && s.jobs[id].state.serverName == server
      then id !in t.locks else kept
    case _ => kept
  }

  lemma StepLockBecomes(s: System, l: Step, t: System, id: Id)
    requires Next(s, l, t)
    ensures LockBecomes(s, l, t, id)
  {
    if l.SweepStep? || l.ReclaimStep? {
      RequeueUnlocks(s, l, t, id);
    }
  }

  lemma RequeueUnlocks(s: System, l: Step, t: System, id: Id)
    requires Next(s, l, t) && (l.SweepStep? || l.ReclaimStep?)
    ensures LockBecomes(s, l, t, id)
  {
    var ids := if l.SweepStep? then Stranded(s.jobs, l.now - l.staleAfter) else Stamped(s.jobs, l.server);
    assert t.locks == s.locks - ids;
  }

  lemma StepRunningFrame(s: System, l: Step, t: System)
    requires Next(s, l, t)
    ensures RunningFrame(s, l, t)
  {
  }

  lemma StepLedgerFrame(s: System, l: Step, t: System)
    requires Next(s, l, t)
    ensures LedgerFrame(s, l, t)
  {
  }

  lemma ViewsKept(s: System, l: Step, t: System)
    requires Next(s, l, t) && !l.ReadStep?
    ensures t.views == s.views || (l.RetryStep? && t.views == s.views - {l.thread})
  {
  }

  lemma StepViewsFrame(s: System, l: Step, t: System)
    requires Next(s, l, t)
    ensures ViewsFrame(s, l, t)
  {
    if !l.ReadStep? {
      ViewsKept(s, l, t);
    }
  }

  lemma StepSummary(s: System, l: Step, t: System)
    requires Next(s, l, t)
    ensures Summary(s, l, t)
  {
    StepRunningFrame(s, l, t);
    StepLedgerFrame(s, l, t);
    StepViewsFrame(s, l, t);
    forall id
      ensures Effect(s, l, t, id)
    {
      StepEffect(s, l, t, id);
    }
  }

  // ----- what every run keeps -----

  /** Bookkeeping that needs no timing assumption. */
  ghost predicate Sound(s: System) {
    && Keyed(s.jobs)
    && s.jobs.Keys <= s.used
    && (forall th :: th in s.running ==> SoundCopy(s, s.running[th]))
    && (forall th :: th in s.views ==> s.views[th].id in s.used && s.views[th].state.Failed?)
  }

  ghost predicate SoundCopy(s: System, job: Job) {
    && job.id in s.used
    && job.state.Processing?
    && job.state.startedAt <= s.clock
    && job.state.serverName == MEMORY_SERVER
  }

  lemma StepSound(s: System, l: Step, t: System)
    requires Sound(s) && Summary(s, l, t)
    ensures Sound(t)
  {
    forall id | id in t.jobs
      ensures t.jobs[id].id == id && id in t.used
    {
      assert Effect(s, l, t, id);
    }
    forall th | th in t.running
      ensures SoundCopy(t, t.running[th])
    {
      assert th in s.running ==> SoundCopy(s, s.running[th]);
    }
  }

  lemma {:induction false} RunSound(tr: seq<System>, steps: seq<Step>, n: nat)
    requires IsRun(tr, steps) && n < |tr|
    ensures Sound(tr[n])
    decreases n
  {
    if n > 0 {
      RunSound(tr, steps, n - 1);
      StepSummary(tr[n - 1], steps[n - 1], tr[n]);
      StepSound(tr[n - 1], steps[n - 1], tr[n]);
    }
  }

  // ----- timed exclusivity -----

  /** At most one thread executes a job, and the store still holds the record its fetch wrote. */
  ghost predicate Exclusive(s: System) {
    && (forall a, b :: a in s.running && b in s.running && s.running[a].id == s.running[b].id ==> a == b)
    && (forall th :: th in s.running ==> Intact(s, s.running[th]))
  }

  /** The stored record, unless deleted, is the worker's copy. */
  ghost predicate Intact(s: System, job: Job) {
    job.id in s.jobs ==> s.jobs[job.id] == job
  }

  /** No execution is still going more than `d` after its start, and every sweep leaves `stale` alone. */
  ghost predicate Timely(d: Time, stale: Time, s: System, l: Step, t: System) {
    && (forall th :: th in s.running && s.running[th].state.Processing? ==>
          t.clock <= s.running[th].state.startedAt + d)
    && (l.SweepStep? ==> l.staleAfter >= stale)
  }

  ghost predicate TimelyRun(d: Time, stale: Time, tr: seq<System>, steps: seq<Step>) {
    && IsRun(tr, steps)
    && forall i {:trigger steps[i]} :: 0 <= i < |steps| ==> Timely(d, stale, tr[i], steps[i], tr[i + 1])
  }

  /** A job that can be fetched is not being executed. */
  lemma FetchedIsFree(s: System, l: Step, t: System, b: Thread)
    requires Sound(s) && Exclusive(s) && RunningFrame(s, l, t) && l.FetchStep? && l.found.Some? && b in s.running
    ensures s.running[b].id != l.found.value
  {
    assert Intact(s, s.running[b]) && SoundCopy(s, s.running[b]);
  }

  lemma StepExclusive(d: Time, s: System, l: Step, t: System)
    requires Sound(s) && Exclusive(s) && Summary(s, l, t) && Timely(d, d, s, l, t)
    ensures Exclusive(t)
  {
    forall th | th in t.running
      ensures Intact(t, t.running[th])
    {
      if th in s.running && t.running[th] == s.running[th] {
        StaysIntact(d, s, l, t, th);
      }
    }
    if l.FetchStep? && l.found.Some? {
      forall b | b in s.running
        ensures s.running[b].id != l.found.value
      {
        FetchedIsFree(s, l, t, b);
      }
    }
  }

  lemma StaysIntact(d: Time, s: System, l: Step, t: System, th: Thread)
    requires Sound(s) && Exclusive(s) && Summary(s, l, t) && Timely(d, d, s, l, t)
    requires th in s.running && th in t.running && t.running[th] == s.running[th]
    ensures Intact(t, s.running[th])
  {
    var job := s.running[th];
    assert SoundCopy(s, job) && Intact(s, job);
    assert Effect(s, l, t, job.id);
  }

  lemma {:induction false} RunExclusive(d: Time, stale: Time, tr: seq<System>, steps: seq<Step>, n: nat)
    requires TimelyRun(d, stale, tr, steps) && stale >= d && n < |tr|
    ensures Exclusive(tr[n])
    decreases n
  {
    if n > 0 {
      RunExclusive(d, stale, tr, steps, n - 1);
      RunSound(tr, steps, n - 1);
      StepSummary(tr[n - 1], steps[n - 1], tr[n]);
      StepExclusive(d, tr[n - 1], steps[n - 1], tr[n]);
    }
  }

  /** So a write-back replaces nothing but the record its own fetch wrote. */
  lemma NoOverwrite(d: Time, stale: Time, tr: seq<System>, steps: seq<Step>, n: nat)
    requires TimelyRun(d, stale, tr, steps) && stale >= d && n < |steps| && steps[n].FinishStep?
    ensures steps[n].thread in tr[n].running
    ensures var copy := tr[n].running[steps[n].thread];
      && copy.state.Processing?
      && (copy.id in tr[n].jobs ==> tr[n].jobs[copy.id] == copy)
  {
    RunExclusive(d, stale, tr, steps, n);
    assert Next(tr[n], steps[n], tr[n + 1]);
    assert Intact(tr[n], tr[n].running[steps[n].thread]);
  }

  const SAMPLE := Job("j", "m", "null", 0, Enqueued(0, "default"), "default", 0, 0, 0, map[], None, None, None)

  const START := System(map[], map[], 0, map[], map[], {}, {}, map[])

  /** Fetching the only stored job. */
  lemma FetchOnlyJob(s: System, id: Id, thread: Thread, worker: string) returns (t: System)
    requires s.jobs.Keys == {id} && s.jobs[id].state.Enqueued? && s.locks == map[] && thread !in s.running
    ensures Next(s, FetchStep(thread, worker, None, Some(id)), t)
    ensures t.clock == s.clock && t.jobs.Keys == {id} == t.locks.Keys
      && t.jobs[id] == Claimed(s.jobs[id], worker, s.clock)
    ensures t.running == s.running[thread := t.jobs[id]]
  {
    t := s.(jobs := FetchedJobs(s.jobs, Some(id), worker, s.clock),
            locks := FetchedLocks(s.locks, Some(id), worker, s.clock),
            running := s.running[thread := Claimed(s.jobs[id], worker, s.clock)]);
    assert DoFetch(s, thread, worker, None, Some(id), t);
  }

  /** Sweeping the only stored job. */
  lemma SweepOnlyJob(s: System, now: Time, id: Id, stale: nat) returns (t: System)
    requires s.jobs.Keys == {id} == s.locks.Keys && s.clock <= now && IsStranded(s.jobs[id], now - stale)
    ensures Next(s, SweepStep(now, stale), t)
    ensures t.clock == now && t.jobs.Keys == {id} && t.jobs[id] == s.jobs[id].Requeued(now) && t.locks == map[]
    ensures t.running == s.running
  {
    var ids := Stranded(s.jobs, now - stale);
    assert ids == {id};
    t := s.(clock := now, jobs := Requeue(s.jobs, ids, now), locks := s.locks - ids);
    assert DoRequeue(s.(clock := now), ids, t);
  }

  lemma Extend(d: Time, stale: Time, tr: seq<System>, steps: seq<Step>, l: Step, t: System)
    requires TimelyRun(d, stale, tr, steps)
    requires Next(tr[|steps|], l, t) && Timely(d, stale, tr[|steps|], l, t)
    ensures TimelyRun(d, stale, tr + [t], steps + [l])
  {
    var tr', steps' := tr + [t], steps + [l];
    forall i | 0 <= i < |steps'|
      ensures Next(tr'[i], steps'[i], tr'[i + 1]) && Timely(d, stale, tr'[i], steps'[i], tr'[i + 1])
    {
      if i < |steps| {
        assert steps'[i] == steps[i] && tr'[i] == tr[i] && tr'[i + 1] == tr[i + 1];
      } else {
        assert steps'[i] == l && tr'[i] == tr[|steps|] && tr'[i + 1] == t;
      }
    }
  }

  /** The first half of the run below: one worker claims the job at time 0. */
  lemma FirstClaim(d: Time, stale: nat) returns (tr: seq<System>, steps: seq<Step>)
    ensures |tr| == 3 && TimelyRun(d, stale, tr, steps)
    ensures var s := tr[2];
      && s.clock == 0 && s.jobs.Keys == {"j"} == s.locks.Keys
      && s.jobs["j"] == Claimed(SAMPLE, "a", 0) && s.running == map[1 := s.jobs["j"]]
  {
    var s1 := EnqueueFirst();
    Extend(d, stale, [START], [], EnqueueStep(SAMPLE, true), s1);
    var s2 := FetchOnlyJob(s1, "j", 1, "a");
    Extend(d, stale, [START, s1], [EnqueueStep(SAMPLE, true)], FetchStep(1, "a", None, Some("j")), s2);
    tr, steps := [START, s1, s2], [EnqueueStep(SAMPLE, true), FetchStep(1, "a", None, Some("j"))];
    assert [START] + [s1] == [START, s1] && [START, s1] + [s2] == tr;
  }

  /** A sweep that spares only `stale` lets a second worker claim a job that is being executed. */
  lemma DoubleClaim(d: Time, stale: nat) returns (tr: seq<System>, steps: seq<Step>)
    requires stale < d
    ensures |tr| == 5 && TimelyRun(d, stale, tr, steps)
    ensures !Exclusive(tr[4])
  {
    var start, begun := FirstClaim(d, stale);
    var s2 := start[2];
    var s3 := SweepOnlyJob(s2, stale + 1, "j", stale);
    Extend(d, stale, start, begun, SweepStep(stale + 1, stale), s3);
    var s4 := FetchOnlyJob(s3, "j", 2, "b");
    tr, steps := start + [s3], begun + [SweepStep(stale + 1, stale)];
    Extend(d, stale, tr, steps, FetchStep(2, "b", None, Some("j")), s4);
    tr, steps := tr + [s4], steps + [FetchStep(2, "b", None, Some("j"))];
    assert 1 in s4.running && 2 in s4.running && s4.running[1].id == s4.running[2].id;
  }

  lemma EnqueueFirst() returns (t: System)
    ensures Next(START, EnqueueStep(SAMPLE, true), t)
    ensures t.clock == 0 && t.jobs.Keys == {"j"} && t.jobs["j"] == SAMPLE && t.locks == map[] && t.running == map[]
  {
    t := START.(jobs := map["j" := SAMPLE], used := {"j"});
    assert DoEnqueue(START, SAMPLE, true, t);
  }

  /** Exclusion holds in every run with executions of at most `d` exactly when sweeps spare at least `d`. */
  lemma ExclusiveIff(d: Time, stale: nat)
    ensures (forall tr: seq<System>, steps: seq<Step>, n: nat ::
               TimelyRun(d, stale, tr, steps) && n < |tr| ==> Exclusive(tr[n]))
        <==> stale >= d
  {
    if stale >= d {
      forall tr: seq<System>, steps: seq<Step>, n: nat | TimelyRun(d, stale, tr, steps) && n < |tr|
        ensures Exclusive(tr[n])
      {
        RunExclusive(d, stale, tr, steps, n);
      }
    } else {
      var tr, steps := DoubleClaim(d, stale);
      assert TimelyRun(d, stale, tr, steps) && 4 < |tr| && !Exclusive(tr[4]);
    }
  }

  // ----- lifecycle of the stored record -----

  /** Kept, in the transition table, a recovery, or a fetch of a due job. */
  predicate LawfulChange(k: Kind, l: Step, k': Kind) {
    || k == k'
    || CanTransition(k, k')
    || ((l.SweepStep? || l.ReclaimStep?) && k.ProcessingKind? && k'.EnqueuedKind?)
    || (l.FetchStep? && (k.ScheduledKind? || k.AwaitingRetryKind?) && k'.ProcessingKind?)
  }

  lemma StepLifecycle(s: System, l: Step, t: System, id: Id)
    requires Sound(s) && Exclusive(s) && Summary(s, l, t)
    requires id in s.jobs && id in t.jobs
    ensures LawfulChange(s.jobs[id].state.Kind(), l, t.jobs[id].state.Kind())
  {
    assert Effect(s, l, t, id);
    if l.FinishStep? && l.thread in s.running {
      assert SoundCopy(s, s.running[l.thread]) && Intact(s, s.running[l.thread]);
    }
  }

  /** So it is at every step of every run that meets the timing bound. */
  lemma RunLifecycle(d: Time, stale: Time, tr: seq<System>, steps: seq<Step>, n: nat, id: Id)
    requires TimelyRun(d, stale, tr, steps) && stale >= d && n < |steps|
    requires id in tr[n].jobs && id in tr[n + 1].jobs
    ensures LawfulChange(tr[n].jobs[id].state.Kind(), steps[n], tr[n + 1].jobs[id].state.Kind())
    ensures var (before, after) := (tr[n].jobs[id].state, tr[n + 1].jobs[id].state); var now := tr[n + 1].clock;
      && (before.Scheduled? && !after.Scheduled? ==> before.enqueueAt <= now)
      && (before.AwaitingRetry? && !after.AwaitingRetry? ==> before.retryAt <= now)
      && (after.Processing? && before != after ==>
            before.Enqueued? || before.Scheduled? || before.AwaitingRetry?)
  {
    RunSound(tr, steps, n);
    RunExclusive(d, stale, tr, steps, n);
    StepSummary(tr[n], steps[n], tr[n + 1]);
    StepLifecycle(tr[n], steps[n], tr[n + 1], id);
    StepOnTime(tr[n], steps[n], tr[n + 1], id);
  }

  /** No waiting job moves on before its time, and only waiting jobs start. */
  lemma StepOnTime(s: System, l: Step, t: System, id: Id)
    requires Sound(s) && Exclusive(s) && Summary(s, l, t) && id in s.jobs && id in t.jobs
    ensures var (before, after) := (s.jobs[id].state, t.jobs[id].state);
      && (before.Scheduled? && !after.Scheduled? ==> before.enqueueAt <= t.clock)
      && (before.AwaitingRetry? && !after.AwaitingRetry? ==> before.retryAt <= t.clock)
      && (after.Processing? && before != after ==> before.Enqueued? || before.Scheduled? || before.AwaitingRetry?)
  {
    assert Effect(s, l, t, id);
    if l.FinishStep? && l.thread in s.running {
      assert SoundCopy(s, s.running[l.thread]) && Intact(s, s.running[l.thread]);
    }
  }

  /** `id` is stored as Succeeded or gone for good, and no one is executing it. */
  ghost predicate Done(s: System, id: Id) {
    && id in s.used
    && (id in s.jobs ==> s.jobs[id].state.Succeeded?)
    && forall th :: th in s.running ==> s.running[th].id != id
  }

  lemma StepDone(s: System, l: Step, t: System, id: Id)
    requires Sound(s) && Summary(s, l, t) && Done(s, id)
    ensures Done(t, id) && !(l.FetchStep? && l.found == Some(id))
  {
    assert Effect(s, l, t, id);
    forall th | th in t.running
      ensures t.running[th].id != id
    {
      assert th in s.running ==> s.running[th].id != id;
    }
  }

  lemma SucceededIsDone(s: System, id: Id)
    requires Sound(s) && Exclusive(s) && id in s.jobs && s.jobs[id].state.Succeeded?
    ensures Done(s, id)
  {
    forall th | th in s.running
      ensures s.running[th].id != id
    {
      assert SoundCopy(s, s.running[th]) && Intact(s, s.running[th]);
    }
  }

  /** Once stored as Succeeded, a job is not being executed and is never executed again. */
  lemma {:induction false} SucceededIsOver(d: Time, stale: Time, tr: seq<System>, steps: seq<Step>, id: Id, i: nat,
                                           n: nat)
    requires TimelyRun(d, stale, tr, steps) && stale >= d && i <= n < |tr|
    requires id in tr[i].jobs && tr[i].jobs[id].state.Succeeded?
    ensures Done(tr[n], id)
    ensures forall j :: i <= j < n ==> !(steps[j].FetchStep? && steps[j].found == Some(id))
    decreases n
  {
    if n == i {
      RunSound(tr, steps, n);
      RunExclusive(d, stale, tr, steps, n);
      SucceededIsDone(tr[n], id);
    } else {
      SucceededIsOver(d, stale, tr, steps, id, i, n - 1);
      RunSound(tr, steps, n - 1);
      StepSummary(tr[n - 1], steps[n - 1], tr[n]);
      StepDone(tr[n - 1], steps[n - 1], tr[n], id);
    }
  }

  // ----- conservation and safe expiry -----

  ghost predicate IsFailed(s: System, id: Id) {
    id in s.jobs && s.jobs[id].state.Failed?
  }

  /** No job is stored waiting with an expiry: not by an accepted enqueue, not by a successful retry. */
  ghost predicate Careful(s: System, l: Step) {
    && (l.EnqueueStep? && l.accepted && l.job.expiresAt.Some? ==> l.job.state.IsFinal())
    && (l.RetryStep? && l.thread in s.views && RetrySucceeds(s, l, s.views[l.thread].id) ==>
          s.views[l.thread].expiresAt.None?)
  }

  ghost predicate CarefulRun(tr: seq<System>, steps: seq<Step>) {
    && IsRun(tr, steps)
    && forall i {:trigger steps[i]} :: 0 <= i < |steps| ==> Careful(tr[i], steps[i])
  }

  /** Every job ever stored is still there, was deleted on request, or was final and expired when swept. */
  ghost predicate NothingLost(s: System) {
    && (forall id :: id in s.used ==> id in s.jobs || id in s.deleted || id in s.swept)
    && (forall id :: id in s.swept ==> s.swept[id].0.state.IsFinal() && Expired(s.swept[id].0, s.swept[id].1))
  }

  /** Nothing is lost, and neither a stored waiting job nor a copy being executed carries an expiry. */
  ghost predicate Conserved(s: System) {
    && NothingLost(s)
    && (forall id :: ExpiresWhenFinal(s.jobs, id))
    && (forall th :: th in s.running ==> s.running[th].expiresAt.None?)
  }

  /** A stored record that carries an expiry is final. */
  ghost predicate ExpiresWhenFinal(jobs: JobMap, id: Id) {
    id in jobs && jobs[id].expiresAt.Some? ==> jobs[id].state.IsFinal()
  }

  lemma StepExpires(s: System, l: Step, t: System, id: Id)
    requires Sound(s) && Effect(s, l, t, id) && Careful(s, l) && ExpiresWhenFinal(s.jobs, id)
    requires forall th :: th in s.running ==> s.running[th].expiresAt.None?
    requires l.EnqueueStep? && !l.accepted ==> t.jobs == s.jobs
    ensures ExpiresWhenFinal(t.jobs, id)
  {
    if l.RetryStep? && l.thread in s.views && s.views[l.thread].id == id && IsFailed(s, id) {
      assert RetrySucceeds(s, l, id);
    }
  }

  lemma StepConserved(s: System, l: Step, t: System)
    requires Sound(s) && Conserved(s) && Summary(s, l, t) && Careful(s, l)
    requires l.EnqueueStep? && !l.accepted ==> t.jobs == s.jobs
    ensures Conserved(t)
  {
    forall id
      ensures ExpiresWhenFinal(t.jobs, id)
      ensures id in t.used ==> id in t.jobs || id in t.deleted || id in t.swept
    {
      assert Effect(s, l, t, id);
      assert ExpiresWhenFinal(s.jobs, id);
      StepExpires(s, l, t, id);
    }
    forall id | id in t.swept
      ensures t.swept[id].0.state.IsFinal() && Expired(t.swept[id].0, t.swept[id].1)
    {
      assert ExpiresWhenFinal(s.jobs, id);
    }
    forall th | th in t.running
      ensures t.running[th].expiresAt.None?
    {
      assert th in s.running ==> s.running[th].expiresAt.None?;
    }
  }

  lemma {:induction false} RunConserved(tr: seq<System>, steps: seq<Step>, n: nat)
    requires CarefulRun(tr, steps) && n < |tr|
    ensures Conserved(tr[n])
    decreases n
  {
    if n > 0 {
      RunConserved(tr, steps, n - 1);
      RunSound(tr, steps, n - 1);
      StepSummary(tr[n - 1], steps[n - 1], tr[n]);
      StepConserved(tr[n - 1], steps[n - 1], tr[n]);
    }
  }

  lemma ExpireAt(s: System, now: Time, clock: Time) returns (t: System)
    requires s.clock <= clock && now <= clock
    ensures Next(s, ExpireStep(now), t)
    ensures forall id :: id in s.jobs && Expired(s.jobs[id], now) ==>
      id !in t.jobs && id in t.swept && t.swept[id] == (s.jobs[id], now)
  {
    var gone := ExpiredIds(s.jobs, now);
    t := s.(clock := clock, jobs := s.jobs - gone, swept := s.swept + map i | i in gone :: (s.jobs[i], now));
    assert DoExpire(s.(clock := clock), now, t);
  }

  /** A waiting job stored with an expiry is lost to the next sweep that comes late enough. */
  lemma CarelessLoses(s: System, l: Step, t: System) returns (now: Time, u: System)
    requires Next(s, l, t) && !Careful(s, l)
    ensures Next(t, ExpireStep(now), u) && !NothingLost(u)
  {
    var id := if l.EnqueueStep? then l.job.id else s.views[l.thread].id;
    assert !ExpiresWhenFinal(t.jobs, id);
    now := t.jobs[id].expiresAt.value;
    u := ExpireAt(t, now, if now < t.clock then t.clock else now);
    assert id in u.swept && u.swept[id] == (t.jobs[id], now);
  }

  lemma CarefulSweep(tr: seq<System>, steps: seq<Step>, n: nat, now: Time, u: System)
    requires CarefulRun(tr, steps) && n < |tr| && Next(tr[n], ExpireStep(now), u)
    ensures NothingLost(u)
  {
    RunConserved(tr, steps, n);
    RunSound(tr, steps, n);
    StepSummary(tr[n], ExpireStep(now), u);
    StepConserved(tr[n], ExpireStep(now), u);
  }

  /**
   Whenever and with whatever reading a sweep follows a state of a run, it loses nothing, exactly when no step
   of the run stores a waiting job with an expiry.
   */
  lemma ConservedIff(tr: seq<System>, steps: seq<Step>)
    requires IsRun(tr, steps)
    ensures (forall n, now, u :: 0 <= n < |tr| && Next(tr[n], ExpireStep(now), u) ==> NothingLost(u))
        <==> CarefulRun(tr, steps)
  {
    if CarefulRun(tr, steps) {
      forall n, now, u | 0 <= n < |tr| && Next(tr[n], ExpireStep(now), u)
        ensures NothingLost(u)
      {
        CarefulSweep(tr, steps, n, now, u);
      }
    } else {
      var i :| 0 <= i < |steps| && !Careful(tr[i], steps[i]);
      var now, u := CarelessLoses(tr[i], steps[i], tr[i + 1]);
      assert Next(tr[i + 1], ExpireStep(now), u);
    }
  }

  // ----- the retry button under races -----

  /** The compare-and-swap of this step answered yes for `id`. */
  ghost predicate RetrySucceeds(s: System, l: Step, id: Id) {
    && l.RetryStep?
    && l.thread in s.views
    && s.views[l.thread].id == id
    && CasAnswer(s.jobs, RetryCopy(s, l.thread, s.clock), FailedKind) == Ok(true)
  }

  /** How often the stored record of `id` became Failed in the first `n` steps. */
  ghost function TimesFailed(tr: seq<System>, id: Id, n: nat): nat
    requires n < |tr|
  {
    if n == 0 then 0
    else TimesFailed(tr, id, n - 1) + if !IsFailed(tr[n - 1], id) && IsFailed(tr[n], id) then 1 else 0
  }

  ghost function TimesRetried(tr: seq<System>, steps: seq<Step>, id: Id, n: nat): nat
    requires n < |tr| && n <= |steps|
  {
    if n == 0 then 0
    else TimesRetried(tr, steps, id, n - 1) + if RetrySucceeds(tr[n - 1], steps[n - 1], id) then 1 else 0
  }

  /** A successful retry replaces a Failed record by an Enqueued one. */
  lemma RetryReplacesFailed(s: System, l: Step, t: System, id: Id)
    requires Next(s, l, t) && RetrySucceeds(s, l, id)
    ensures IsFailed(s, id) && id in t.jobs && t.jobs[id].state.Enqueued?
  {
  }

  /** Every successful retry takes the record out of Failed. */
  ghost predicate RetriesLeaveFailed(tr: seq<System>, steps: seq<Step>, id: Id) {
    && |tr| == |steps| + 1
    && forall i {:trigger steps[i]} :: 0 <= i < |steps| && RetrySucceeds(tr[i], steps[i], id) ==>
         IsFailed(tr[i], id) && !IsFailed(tr[i + 1], id)
  }

  lemma {:induction false} CountRetries(tr: seq<System>, steps: seq<Step>, id: Id, n: nat)
    requires RetriesLeaveFailed(tr, steps, id) && n < |tr| && !IsFailed(tr[0], id)
    ensures TimesRetried(tr, steps, id, n) + (if IsFailed(tr[n], id) then 1 else 0) <= TimesFailed(tr, id, n)
    decreases n
  {
    if n > 0 {
      CountRetries(tr, steps, id, n - 1);
      var last := steps[n - 1];
    }
  }

  /** In any run, punctual or not, a job is retried by hand at most once per time it became Failed. */
  lemma RetriesAtMostFailures(tr: seq<System>, steps: seq<Step>, id: Id, n: nat)
    requires IsRun(tr, steps) && n < |tr|
    ensures TimesRetried(tr, steps, id, n) <= TimesFailed(tr, id, n)
  {
    forall i | 0 <= i < |steps| && RetrySucceeds(tr[i], steps[i], id)
      ensures IsFailed(tr[i], id) && !IsFailed(tr[i + 1], id)
    {
      RetryReplacesFailed(tr[i], steps[i], tr[i + 1], id);
    }
    CountRetries(tr, steps, id, n);
  }
}
