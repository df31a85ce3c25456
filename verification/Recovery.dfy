/**
 Two limits of recovery over whole runs: a claim's lock outlives its execution, and reclaim by server id finds
 nothing.
 */
module Recovery {
  import opened JobModel
  import opened JobTable
  import opened Protocol

  // ----- the lock of a claim -----

  /** The step takes away the lock on `id` before its time. */
  ghost predicate Unlocks(s: System, l: Step, id: Id) {
    match l
    case DropLockStep(i, worker) => i == id && id in s.locks && s.locks[id].workerId == worker
    case SweepStep(now, staleAfter) => id in Stranded(s.jobs, now - staleAfter)
    case ReclaimStep(server) => id in Stamped(s.jobs, server)
    case _ => false
  }

  lemma StepKeepsLock(s: System, l: Step, t: System, id: Id)
    requires Next(s, l, t) && id in s.locks && t.clock < s.locks[id].expiresAt && !Unlocks(s, l, id)
    ensures id in t.locks && t.locks[id] == s.locks[id]
    ensures !(l.FetchStep? && l.found == Some(id))
  {
  }

  lemma {:induction false} ClocksGrow(tr: seq<System>, steps: seq<Step>, i: nat, n: nat)
    requires IsRun(tr, steps) && i <= n < |tr|
    ensures tr[i].clock <= tr[n].clock
    decreases n
  {
    if i < n {
      ClocksGrow(tr, steps, i, n - 1);
      var last := steps[n - 1];
    }
  }

  /** Short of its expiry, and while no step takes it away, the lock of a claim stays. */
  lemma {:induction false} LockStays(tr: seq<System>, steps: seq<Step>, i: nat, n: nat, id: Id)
    requires IsRun(tr, steps) && i < n < |tr|
    requires steps[i].FetchStep? && steps[i].found == Some(id)
    requires tr[n].clock < tr[i + 1].clock + LOCK_TTL
    requires forall k {:trigger steps[k]} :: i < k < n ==> !Unlocks(tr[k], steps[k], id)
    ensures id in tr[n].locks && tr[n].locks[id].expiresAt == tr[i + 1].clock + LOCK_TTL
    decreases n
  {
    var last := steps[n - 1];
    if n > i + 1 {
      ClocksGrow(tr, steps, n - 1, n);
      LockStays(tr, steps, i, n - 1, id);
      StepKeepsLock(tr[n - 1], last, tr[n], id);
    }
  }

  /**
   Whatever the executions do, a job is claimed twice within the lifetime of its lock only if its lock was
   dropped, or the job swept or reclaimed, in between. A failed attempt therefore waits for its lock, not
   only for its retry time: neither the write-back nor the promotion of due retries gives the lock up.
   */
  lemma ReclaimedTooSoon(tr: seq<System>, steps: seq<Step>, i: nat, j: nat, id: Id)
    requires IsRun(tr, steps) && i < j < |steps|
    requires steps[i].FetchStep? && steps[i].found == Some(id)
    requires steps[j].FetchStep? && steps[j].found == Some(id)
    requires tr[j + 1].clock < tr[i + 1].clock + LOCK_TTL
    ensures exists k :: i < k < j && Unlocks(tr[k], steps[k], id)
  {
    if forall k :: i < k < j ==> !Unlocks(tr[k], steps[k], id) {
      var last := steps[j];
      ClocksGrow(tr, steps, j, j + 1);
      LockStays(tr, steps, i, j, id);
      StepKeepsLock(tr[j], last, tr[j + 1], id);
    }
  }

  // ----- reclaim by server id -----

  /** No one stores a job already marked as executing. */
  ghost predicate EnqueuesIdle(steps: seq<Step>) {
    forall i :: 0 <= i < |steps| && steps[i].EnqueueStep? ==> !steps[i].job.state.Processing?
  }

  ghost predicate StampedByFetch(s: System) {
    forall id :: id in s.jobs && s.jobs[id].state.Processing? ==> s.jobs[id].state.serverName == MEMORY_SERVER
  }

  lemma StepStamps(s: System, l: Step, t: System)
    requires StampedByFetch(s) && Summary(s, l, t) && (l.EnqueueStep? ==> !l.job.state.Processing?)
    ensures StampedByFetch(t)
  {
    forall id | id in t.jobs && t.jobs[id].state.Processing?
      ensures t.jobs[id].state.serverName == MEMORY_SERVER
    {
      assert Effect(s, l, t, id);
    }
  }

  lemma {:induction false} RunStamps(tr: seq<System>, steps: seq<Step>, n: nat)
    requires IsRun(tr, steps) && EnqueuesIdle(steps) && n < |tr|
    ensures StampedByFetch(tr[n])
    decreases n
  {
    if n > 0 {
      RunStamps(tr, steps, n - 1);
      StepSummary(tr[n - 1], steps[n - 1], tr[n]);
      StepStamps(tr[n - 1], steps[n - 1], tr[n]);
    }
  }

  /**
   Fetch stamps its own constant, never a server id, so taking back a dead server's jobs changes no job and no lock.
   */
  lemma ReclaimFindsNothing(tr: seq<System>, steps: seq<Step>, n: nat)
    requires IsRun(tr, steps) && EnqueuesIdle(steps) && n < |steps| && steps[n].ReclaimStep?
    ensures Stamped(tr[n].jobs, steps[n].server) == {}
    ensures tr[n + 1].jobs == tr[n].jobs && tr[n + 1].locks == tr[n].locks
  {
    RunStamps(tr, steps, n);
    var server := steps[n].server;
    assert Next(tr[n], steps[n], tr[n + 1]);
    assert '#' !in MEMORY_SERVER;
    assert Stamped(tr[n].jobs, server) == {};
    assert Requeue(tr[n].jobs, {}, tr[n + 1].clock) == tr[n].jobs;
  }
}
