/**
 Manual retry against the rest of the protocol: the copy a request read may be out of date when it is written
 back, and the expiry it carries outlives the failure. For each: a run from the empty store, and when it cannot happen.
 */
module RetryRaces {
  import opened JobModel
  import opened JobTable
  import opened Processor
  import opened Protocol
  import Retry

  // ----- the copy a request read -----

  /** `id` was stored, and if it still is, with this record. */
  ghost predicate StillIs(s: System, id: Id, job: Job) {
    id in s.used && (id in s.jobs ==> s.jobs[id] == job)
  }

  /** In an exclusive state nothing but a successful retry or a removal touches a Failed record. */
  lemma StepKeepsFailed(s: System, l: Step, t: System, id: Id, job: Job)
    requires Sound(s) && Exclusive(s) && Summary(s, l, t) && job.state.Failed? && StillIs(s, id, job)
    requires !RetrySucceeds(s, l, id)
    ensures StillIs(t, id, job)
  {
    assert Effect(s, l, t, id);
    if l.FinishStep? && l.thread in s.running {
      assert SoundCopy(s, s.running[l.thread]) && Intact(s, s.running[l.thread]);
    }
  }

  /** While no retry of it succeeds, the stored record is the one that was read. */
  lemma {:induction false} ReadIsCurrent(d: Time, stale: Time, tr: seq<System>, steps: seq<Step>, i: nat, n: nat,
                                         id: Id)
    requires TimelyRun(d, stale, tr, steps) && stale >= d && i <= n < |tr| && IsFailed(tr[i], id)
    requires forall k {:trigger steps[k]} :: i <= k < n ==> !RetrySucceeds(tr[k], steps[k], id)
    ensures StillIs(tr[n], id, tr[i].jobs[id])
    decreases n
  {
    RunSound(tr, steps, i);
    if i < n {
      ReadIsCurrent(d, stale, tr, steps, i, n - 1, id);
      RunSound(tr, steps, n - 1);
      RunExclusive(d, stale, tr, steps, n - 1);
      StepSummary(tr[n - 1], steps[n - 1], tr[n]);
      StepKeepsFailed(tr[n - 1], steps[n - 1], tr[n], id, tr[i].jobs[id]);
    }
  }

  /** The step is not one of the request of `thread`. */
  predicate NotOf(l: Step, thread: Thread) {
    !(l.ReadStep? && l.thread == thread) && !(l.RetryStep? && l.thread == thread)
  }

  lemma StepKeepsView(s: System, l: Step, t: System, thread: Thread)
    requires Next(s, l, t) && thread in s.views && NotOf(l, thread)
    ensures thread in t.views && t.views[thread] == s.views[thread]
  {
    if !l.ReadStep? {
      ViewsKept(s, l, t);
    }
  }

  lemma {:induction false} ViewStays(tr: seq<System>, steps: seq<Step>, i: nat, n: nat, thread: Thread, id: Id)
    requires IsRun(tr, steps) && i < n < |tr| && steps[i] == ReadStep(thread, id) && IsFailed(tr[i], id)
    requires forall k {:trigger steps[k]} :: i < k < n ==> NotOf(steps[k], thread)
    ensures thread in tr[n].views && tr[n].views[thread] == tr[i].jobs[id]
    decreases n
  {
    var last := steps[n - 1];
    if n > i + 1 {
      ViewStays(tr, steps, i, n - 1, thread, id);
      StepKeepsView(tr[n - 1], last, tr[n], thread);
    }
  }

  /**
   In every run that meets the timing bound: if no other retry of the job succeeded since a request read it,
   that request's retry puts back the very record that is stored, changed only in its state.
   */
  lemma RetryLosesNothing(d: Time, stale: Time, tr: seq<System>, steps: seq<Step>, i: nat, n: nat, thread: Thread,
                          id: Id)
    requires TimelyRun(d, stale, tr, steps) && stale >= d && i < n < |steps|
    requires steps[i] == ReadStep(thread, id) && IsFailed(tr[i], id) && steps[n] == RetryStep(thread)
    requires forall k {:trigger steps[k]} :: i < k < n ==>
      NotOf(steps[k], thread) && !RetrySucceeds(tr[k], steps[k], id)
    ensures id in tr[n].jobs ==>
      && tr[n].jobs[id] == tr[i].jobs[id]
      && RetrySucceeds(tr[n], steps[n], id)
      && id in tr[n + 1].jobs && tr[n + 1].jobs[id] == tr[n].jobs[id].Requeued(tr[n + 1].clock)
  {
    RunSound(tr, steps, i);
    ViewStays(tr, steps, i, n, thread, id);
    ReadIsCurrent(d, stale, tr, steps, i, n, id);
    assert Next(tr[n], steps[n], tr[n + 1]);
  }

  // ----- the expiry a retry keeps -----

  /** Some sweep right after `t` removes `id`, and the record it removes is the one stored in `t`. */
  ghost predicate MayBeSwept(t: System, id: Id) {
    id in t.jobs && exists now, u ::
      Next(t, ExpireStep(now), u) && id !in u.jobs && id in u.swept && u.swept[id] == (t.jobs[id], now)
  }

  /** A stored job can be swept sooner or later exactly when it carries an expiry. */
  lemma MayBeSweptIff(t: System, id: Id)
    requires id in t.jobs
    ensures MayBeSwept(t, id) <==> t.jobs[id].expiresAt.Some?
  {
    if t.jobs[id].expiresAt.Some? {
      var e := t.jobs[id].expiresAt.value;
      var u := ExpireAt(t, e, if e < t.clock then t.clock else e);
      assert Next(t, ExpireStep(e), u);
    }
  }

  /**
   A job just retried by hand is waiting to run, and a sweep may still remove it, exactly when the copy the
   request read carried an expiry, as every copy of a job that failed does.
   */
  lemma RetriedIsSweptIff(s: System, thread: Thread, id: Id, t: System)
    requires Next(s, RetryStep(thread), t) && RetrySucceeds(s, RetryStep(thread), id)
    ensures id in t.jobs && t.jobs[id].state.Enqueued?
    ensures MayBeSwept(t, id) <==> s.views[thread].expiresAt.Some?
  {
    MayBeSweptIff(t, id);
  }

  // ----- runs with one job -----

  /** A server that never retries on its own and keeps failed jobs for a day. */
  const SERVER := Config(Retry.Policy(Retry.NoRetry, true, [], []), "a", "s", DAY, DAY)

  /** The record after one more execution that fails at `now`. */
  function FailedAgain(job: Job, now: Time): Job {
    WrittenBack(SERVER, Claimed(job, "a", now), Failure("e"), Draw(now, 0.0))
  }

  function FetchOf(): Step { FetchStep(1, "a", None, Some("j")) }

  function FinishAt(now: Time): Step { FinishStep(1, SERVER, Failure("e"), Draw(now, 0.0)) }

  /** Claimed and failed at once. */
  lemma RunAndFail(s: System, job: Job) returns (t: System, u: System)
    requires s.jobs == map["j" := job] && job.id == "j" && job.state.Enqueued? && s.locks == map[] && s.running == map[]
    ensures Next(s, FetchOf(), t) && Next(t, FinishAt(s.clock), u)
    ensures t.clock == s.clock && t.running == map[1 := Claimed(job, "a", s.clock)]
    ensures u == s.(jobs := map["j" := FailedAgain(job, s.clock)],
                    locks := map["j" := JobLock("a", s.clock + LOCK_TTL)])
  {
    var copy := Claimed(job, "a", s.clock);
    t := s.(jobs := map["j" := copy], locks := map["j" := JobLock("a", s.clock + LOCK_TTL)], running := map[1 := copy]);
    OnlyIsBest(s, job);
    assert DoFetch(s, 1, "a", None, Some("j"), t);
    u := t.(jobs := map["j" := FailedAgain(job, s.clock)], running := map[]);
    assert DoFinish(t, 1, SERVER, Failure("e"), Draw(s.clock, 0.0), u);
  }

  lemma OnlyIsBest(s: System, job: Job)
    requires s.jobs == map["j" := job] && job.state.Enqueued? && s.locks == map[]
    ensures Fetchable(s.jobs, s.locks, s.clock, None, Some("j"))
  {
    forall id | IsEligible(s.jobs, s.locks, s.clock, None, id)
      ensures id == "j"
    {
    }
  }

  /** Claim and failure, appended to a run. */
  lemma ExtendByFailure(d: nat, stale: nat, tr: seq<System>, steps: seq<Step>, job: Job)
    returns (tr': seq<System>, steps': seq<Step>)
    requires TimelyRun(d, stale, tr, steps)
    requires var s := tr[|steps|];
      s.jobs == map["j" := job] && job.id == "j" && job.state.Enqueued? && s.locks == map[] && s.running == map[]
    ensures TimelyRun(d, stale, tr', steps') && |steps'| == |steps| + 2
    ensures tr'[..|tr|] == tr && steps'[..|steps|] == steps
    ensures var s := tr[|steps|];
      tr'[|steps'|] == s.(jobs := map["j" := FailedAgain(job, s.clock)],
                          locks := map["j" := JobLock("a", s.clock + LOCK_TTL)])
  {
    var s := tr[|steps|];
    var t, u := RunAndFail(s, job);
    Extend(d, stale, tr, steps, FetchOf(), t);
    Extend(d, stale, tr + [t], steps + [FetchOf()], FinishAt(s.clock), u);
    tr', steps' := tr + [t] + [u], steps + [FetchOf()] + [FinishAt(s.clock)];
  }

  /** A step while nobody is executing, appended to a run. */
  lemma ExtendIdle(d: nat, stale: nat, tr: seq<System>, steps: seq<Step>, l: Step, t: System)
    requires TimelyRun(d, stale, tr, steps) && tr[|steps|].running == map[] && !l.SweepStep? && Next(tr[|steps|], l, t)
    ensures TimelyRun(d, stale, tr + [t], steps + [l])
  {
    Extend(d, stale, tr, steps, l, t);
  }

  /** From the empty store: enqueue, claim, fail. */
  lemma FailedOnce(d: nat, stale: nat) returns (tr: seq<System>, steps: seq<Step>)
    ensures TimelyRun(d, stale, tr, steps) && |steps| == 3
    ensures tr[3] == System(map["j" := FailedAgain(SAMPLE, 0)],
                           map["j" := JobLock("a", LOCK_TTL)], 0, map[], map[], {"j"}, {}, map[])
  {
    var s := START.(jobs := map["j" := SAMPLE], used := {"j"});
    assert DoEnqueue(START, SAMPLE, true, s);
    ExtendIdle(d, stale, [START], [], EnqueueStep(SAMPLE, true), s);
    assert [START] + [s] == [START, s] && [] + [EnqueueStep(SAMPLE, true)] == [EnqueueStep(SAMPLE, true)];
    tr, steps := ExtendByFailure(d, stale, [START, s], [EnqueueStep(SAMPLE, true)], SAMPLE);
  }

  lemma ReadOf(s: System, thread: Thread, job: Job) returns (t: System)
    requires s.jobs == map["j" := job] && job.state.Failed?
    ensures Next(s, ReadStep(thread, "j"), t) && t == s.(views := s.views[thread := job])
  {
    t := s.(views := s.views[thread := job]);
    assert DoRead(s, thread, "j", t);
  }

  lemma RetryOf(s: System, thread: Thread, job: Job) returns (t: System)
    requires s.jobs == map["j" := job] && job.state.Failed? && thread in s.views && s.views[thread].id == "j"
    ensures Next(s, RetryStep(thread), t) && RetrySucceeds(s, RetryStep(thread), "j")
    ensures t == s.(jobs := map["j" := s.views[thread].Requeued(s.clock)], views := s.views - {thread})
  {
    t := s.(jobs := map["j" := s.views[thread].Requeued(s.clock)], views := s.views - {thread});
    assert DoRetry(s, thread, t);
  }

  /** A job fails and is retried by hand. */
  lemma RetriedOnce(d: nat, stale: nat) returns (tr: seq<System>, steps: seq<Step>)
    ensures TimelyRun(d, stale, tr, steps) && |steps| == 5
    ensures RetrySucceeds(tr[4], steps[4], "j")
    ensures tr[5].jobs == map["j" := FailedAgain(SAMPLE, 0).Requeued(0)] && tr[5].running == map[] && tr[5].clock == 0
  {
    tr, steps := FailedOnce(d, stale);
    var job := FailedAgain(SAMPLE, 0);
    var s4 := ReadOf(tr[3], 3, job);
    ExtendIdle(d, stale, tr, steps, ReadStep(3, "j"), s4);
    tr, steps := tr + [s4], steps + [ReadStep(3, "j")];
    var s5 := RetryOf(s4, 3, job);
    ExtendIdle(d, stale, tr, steps, RetryStep(3), s5);
    tr, steps := tr + [s5], steps + [RetryStep(3)];
  }

  /** From the empty store: a job fails, is retried by hand, and is swept a day later while waiting to run. */
  lemma RetriedJobIsSwept(d: nat, stale: nat) returns (tr: seq<System>, steps: seq<Step>)
    ensures TimelyRun(d, stale, tr, steps) && |steps| == 6
    ensures RetrySucceeds(tr[4], steps[4], "j") && "j" in tr[5].jobs && tr[5].jobs["j"].state.Enqueued?
    ensures steps[5].ExpireStep? && "j" !in tr[6].jobs && "j" in tr[6].swept && tr[6].swept["j"].0 == tr[5].jobs["j"]
    ensures !NothingLost(tr[6])
  {
    tr, steps := RetriedOnce(d, stale);
    var s6 := ExpireAt(tr[5], DAY, DAY);
    ExtendIdle(d, stale, tr, steps, ExpireStep(DAY), s6);
    tr, steps := tr + [s6], steps + [ExpireStep(DAY)];
  }

  /** A job fails and two requests read it. */
  lemma ReadTwice(d: nat, stale: nat) returns (tr: seq<System>, steps: seq<Step>)
    ensures TimelyRun(d, stale, tr, steps) && |steps| == 5
    ensures var job := FailedAgain(SAMPLE, 0);
      tr[5] == System(map["j" := job],
                      map["j" := JobLock("a", LOCK_TTL)], 0, map[], map[3 := job, 4 := job], {"j"}, {}, map[])
  {
    tr, steps := FailedOnce(d, stale);
    var job := FailedAgain(SAMPLE, 0);
    var s4 := ReadOf(tr[3], 3, job);
    ExtendIdle(d, stale, tr, steps, ReadStep(3, "j"), s4);
    tr, steps := tr + [s4], steps + [ReadStep(3, "j")];
    var s5 := ReadOf(s4, 4, job);
    ExtendIdle(d, stale, tr, steps, ReadStep(4, "j"), s5);
    tr, steps := tr + [s5], steps + [ReadStep(4, "j")];
  }

  /** The first of them retries it, and once its lock has expired it runs and fails again. */
  lemma FailedTwice(d: nat, stale: nat) returns (tr: seq<System>, steps: seq<Step>)
    ensures TimelyRun(d, stale, tr, steps) && |steps| == 9
    ensures var first := FailedAgain(SAMPLE, 0);
      && tr[9].jobs == map["j" := FailedAgain(first.Requeued(0), LOCK_TTL)]
      && tr[9].views == map[4 := first] && tr[9].running == map[] && tr[9].clock == LOCK_TTL
  {
    tr, steps := ReadTwice(d, stale);
    var first := FailedAgain(SAMPLE, 0);
    var s6 := RetryOf(tr[5], 3, first);
    ExtendIdle(d, stale, tr, steps, RetryStep(3), s6);
    tr, steps := tr + [s6], steps + [RetryStep(3)];
    var s7 := s6.(clock := LOCK_TTL, locks := map[]);
    assert LiveLocks(s6.locks, LOCK_TTL) == map[];
    ExtendIdle(d, stale, tr, steps, CleanLocksStep(LOCK_TTL), s7);
    tr, steps := tr + [s7], steps + [CleanLocksStep(LOCK_TTL)];
    tr, steps := ExtendByFailure(d, stale, tr, steps, first.Requeued(0));
  }

  /**
   From the empty store, within any timing bound: two requests read a failed job, one retries it, it runs and
   fails again, and the other's retry succeeds and replaces the newer record by the copy it read.
   */
  lemma StaleRetry(d: nat, stale: nat) returns (tr: seq<System>, steps: seq<Step>)
    ensures TimelyRun(d, stale, tr, steps) && |steps| == 10
    ensures RetrySucceeds(tr[9], steps[9], "j") && IsFailed(tr[9], "j") && "j" in tr[10].jobs
    ensures tr[9].jobs["j"].attempt == 2 && tr[10].jobs["j"].attempt == 1
  {
    tr, steps := FailedTwice(d, stale);
    var s10 := RetryOf(tr[9], 4, tr[9].jobs["j"]);
    ExtendIdle(d, stale, tr, steps, RetryStep(4), s10);
    tr, steps := tr + [s10], steps + [RetryStep(4)];
  }
}
