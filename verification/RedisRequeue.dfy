/**
 The Redis sweeps read a job and write it back later, unconditionally. Exactly when that puts back a job
 claimed since the read, and a run in which two workers end up executing one job.
 */
module RedisRequeue {
  import opened JobModel
  import opened JobTable
  import opened RedisModel
  import opened RedisIndex
  import opened RedisFetch

  // ----- any interleaving of commands and scripts -----

  /** The atom changes what is stored for `id`, or removes it. */
  ghost predicate Touches(r: Redis, a: Atom, id: Id) {
    match a
    case SetAtom(i, _) => i == id
    case DelAtom(i) => i == id && id in r.blobs
    case UpdateAtom(job, _) => job.id == id && id in r.blobs
    case CasAtom(job, expected, _) => job.id == id && CasAnswer(r.blobs, job, expected) == Ok(true)
    case ClaimAtom(_, _, _, ids) => id in ids
    case FetchAtom(_, _, _, _) => Dispatches(r, a, id)
    case _ => false
  }

  /** Only a fetch writes a Processing record; every other write stores a job that is not executing. */
  ghost predicate WritesIdle(a: Atom) {
    match a
    case SetAtom(_, job) => !job.state.Processing?
    case UpdateAtom(job, _) => !job.state.Processing?
    case CasAtom(job, _, _) => !job.state.Processing?
    case _ => true
  }

  lemma FetchSpares(r: Redis, a: Atom, t: Redis, id: Id)
    requires Runs(r, a, t) && a.FetchAtom? && !Dispatches(r, a, id)
    ensures id in t.blobs <==> id in r.blobs
    ensures id in r.blobs ==> t.blobs[id] == r.blobs[id]
  {
  }

  lemma ScriptSpares(r: Redis, a: Atom, t: Redis, id: Id)
    requires Runs(r, a, t) && (a.UpdateAtom? || a.CasAtom?) && !Touches(r, a, id)
    ensures id in t.blobs <==> id in r.blobs
    ensures id in r.blobs ==> t.blobs[id] == r.blobs[id]
  {
    if a.UpdateAtom? {
      assert t == UpdateScript(r, a.job, a.available);
      ScriptBlobs(r, a.job, EnqueuedKind, a.available);
    } else {
      assert t == CasScript(r, a.job, a.expected, a.available);
      ScriptBlobs(r, a.job, a.expected, a.available);
    }
  }

  lemma UntouchedIsKept(r: Redis, a: Atom, t: Redis, id: Id)
    requires Runs(r, a, t) && !Touches(r, a, id)
    ensures id in t.blobs <==> id in r.blobs
    ensures id in r.blobs ==> t.blobs[id] == r.blobs[id]
  {
    if a.ClaimAtom? {
      ClaimTouches(r, a.from, a.now, a.limit, a.ids, t, id);
    } else if a.FetchAtom? {
      FetchSpares(r, a, t, id);
    } else if a.UpdateAtom? || a.CasAtom? {
      ScriptSpares(r, a, t, id);
    }
  }

  /** A touch that leaves the job executing is a fetch handing it out. */
  lemma ExecutingSince(r: Redis, a: Atom, t: Redis, id: Id)
    requires Runs(r, a, t) && Touches(r, a, id) && WritesIdle(a) && id in t.blobs && t.blobs[id].state.Processing?
    ensures Dispatches(r, a, id)
  {
    if a.ClaimAtom? {
      var mids := ClaimStates(r, a.from, a.now, a.limit, a.ids, t);
      DueIds(r, a.from, a.now, a.ids);
      PromotedBatch(mids, a.from, a.ids, Micros(a.now));
    } else if a.UpdateAtom? || a.CasAtom? {
      ScriptBlobs(r, a.job, if a.CasAtom? then a.expected else EnqueuedKind, a.available);
    }
  }

  /** Between states `i` and `j` of a trace some atom changes what is stored for `id`. */
  ghost predicate TouchedSince(tr: seq<Redis>, atoms: seq<Atom>, i: nat, j: nat, id: Id)
    requires j <= |atoms| < |tr|
  {
    exists k :: i <= k < j && Touches(tr[k], atoms[k], id)
  }

  /** What is stored in state `j` is the claim of a fetch made since state `i`. */
  ghost predicate ClaimedSince(tr: seq<Redis>, atoms: seq<Atom>, i: nat, j: nat, id: Id)
    requires j <= |atoms| < |tr|
  {
    exists k :: i <= k < j && ClaimedAt(tr, atoms, k, j, id)
  }

  ghost predicate ClaimedAt(tr: seq<Redis>, atoms: seq<Atom>, k: nat, j: nat, id: Id)
    requires k < j <= |atoms| < |tr|
  {
    Dispatches(tr[k], atoms[k], id) && !TouchedSince(tr, atoms, k + 1, j, id)
  }

  ghost predicate AllIdle(atoms: seq<Atom>) {
    forall k :: 0 <= k < |atoms| ==> WritesIdle(atoms[k])
  }

  lemma {:induction false} KeptSince(tr: seq<Redis>, atoms: seq<Atom>, i: nat, j: nat, id: Id)
    requires IsTrace(tr, atoms) && i <= j <= |atoms| && !TouchedSince(tr, atoms, i, j, id)
    ensures id in tr[j].blobs <==> id in tr[i].blobs
    ensures id in tr[i].blobs ==> tr[j].blobs[id] == tr[i].blobs[id]
    decreases j
  {
    if i < j {
      KeptSince(tr, atoms, i, j - 1, id);
      assert RunsAt(tr, atoms, j - 1);
      UntouchedIsKept(tr[j - 1], atoms[j - 1], tr[j], id);
    }
  }

  lemma {:induction false} LastTouch(tr: seq<Redis>, atoms: seq<Atom>, i: nat, j: nat, id: Id) returns (k: nat)
    requires j <= |atoms| < |tr| && TouchedSince(tr, atoms, i, j, id)
    ensures i <= k < j && Touches(tr[k], atoms[k], id) && !TouchedSince(tr, atoms, k + 1, j, id)
    decreases j
  {
    if Touches(tr[j - 1], atoms[j - 1], id) {
      k := j - 1;
    } else {
      k := LastTouch(tr, atoms, i, j - 1, id);
    }
  }

  lemma ClaimedByLast(tr: seq<Redis>, atoms: seq<Atom>, k: nat, id: Id)
    requires IsTrace(tr, atoms) && AllIdle(atoms) && k < |atoms| && Touches(tr[k], atoms[k], id)
    requires id in tr[k + 1].blobs && tr[k + 1].blobs[id].state.Processing?
    ensures Dispatches(tr[k], atoms[k], id)
  {
    assert RunsAt(tr, atoms, k) && WritesIdle(atoms[k]);
    ExecutingSince(tr[k], atoms[k], tr[k + 1], id);
  }

  lemma TouchedIsClaimed(tr: seq<Redis>, atoms: seq<Atom>, i: nat, j: nat, id: Id)
    requires IsTrace(tr, atoms) && AllIdle(atoms) && i <= j <= |atoms| && TouchedSince(tr, atoms, i, j, id)
    requires id in tr[j].blobs && tr[j].blobs[id].state.Processing?
    ensures ClaimedSince(tr, atoms, i, j, id)
  {
    var k := LastTouch(tr, atoms, i, j, id);
    KeptSince(tr, atoms, k + 1, j, id);
    ClaimedByLast(tr, atoms, k, id);
    assert ClaimedAt(tr, atoms, k, j, id);
  }

  /**
   A sweep reads `id` in state `i` and writes it back in state `j`. If the job is executing then, it is one
   that was claimed since the read, exactly when anything was written for it since the read.
   */
  lemma HitsAnotherIff(tr: seq<Redis>, atoms: seq<Atom>, i: nat, j: nat, id: Id)
    requires IsTrace(tr, atoms) && i <= j <= |atoms|
    requires AllIdle(atoms)
    requires id in tr[j].blobs && tr[j].blobs[id].state.Processing?
    ensures ClaimedSince(tr, atoms, i, j, id) <==> TouchedSince(tr, atoms, i, j, id)
    ensures !TouchedSince(tr, atoms, i, j, id) ==> id in tr[i].blobs && tr[j].blobs[id] == tr[i].blobs[id]
  {
    if TouchedSince(tr, atoms, i, j, id) {
      TouchedIsClaimed(tr, atoms, i, j, id);
    } else {
      KeptSince(tr, atoms, i, j, id);
    }
  }

  // ----- two workers on one job -----

  const SAMPLE := Job("j", "m", "null", 0, Enqueued(0, "default"), "default", 0, 0, 0, map[], None, None, None)

  /** Indices and sorted sets are right and hold the one job. */
  ghost predicate Holds(s: Timed, job: Job) {
    Consistent(s.r) && AvailableOk(s.r, s.clock)
    && s.r.blobs == map["j" := job] && job.id == "j" && job.queue == "default"
  }

  lemma EnqueueOnly(clock: Time) returns (t: Timed)
    ensures Next(Timed(EMPTY, clock), EnqueueOp(SAMPLE, clock), t) && t.clock == clock && Holds(t, SAMPLE)
  {
    var s := Timed(EMPTY, clock);
    t := Timed(Added(EMPTY, SAMPLE, true), clock);
    EmptyConsistent();
    StepConsistent(s, EnqueueOp(SAMPLE, clock), t);
    StepAvailable(s, EnqueueOp(SAMPLE, clock), t);
  }

  /** The one job is the only entry of the global sorted set. */
  lemma OnlyEntry(r: Redis, clock: Time, job: Job)
    requires AvailableOk(r, clock) && r.blobs == map["j" := job] && job.state.Enqueued?
    ensures "j" in Z(r.zsets, Global) && forall id :: id in Z(r.zsets, Global) ==> id == "j"
  {
    assert "j" in r.blobs && r.blobs["j"] == job;
    forall id | id in Z(r.zsets, Global)
      ensures id == "j"
    {
      assert id in r.blobs;
    }
  }

  lemma OnlyIsTop(r: Redis)
    requires "j" in Z(r.zsets, Global) && forall id :: id in Z(r.zsets, Global) ==> id == "j"
    ensures IsTop(r, [Global], Some("j"))
  {
    assert [Global][0] == Global;
  }

  lemma FetchIsNext(s: Timed, worker: string)
    requires IsTop(s.r, [Global], Some("j"))
    ensures Next(s, FetchOp(worker, None, s.clock, Some("j")),
                 Timed(Fetched(s.r, [Global], Some("j"), worker, s.clock), s.clock))
  {
    assert Candidates(None) == [Global];
  }

  /** Handing out the one job. */
  lemma FetchOnly(s: Timed, job: Job, worker: string) returns (t: Timed)
    requires Holds(s, job) && job.state.Enqueued?
    ensures Next(s, FetchOp(worker, None, s.clock, Some("j")), t) && t.clock == s.clock
    ensures Holds(t, RedisClaimed(job, worker, s.clock))
  {
    t := Timed(Fetched(s.r, [Global], Some("j"), worker, s.clock), s.clock);
    OnlyEntry(s.r, s.clock, job);
    OnlyIsTop(s.r);
    FetchIsNext(s, worker);
    FetchKeepsConsistent(s.r, [Global], Some("j"), worker, s.clock);
    FetchKeepsAvailable(s.r, s.clock, [Global], Some("j"), worker, s.clock);
    FetchedBlobs(s.r, job, worker, s.clock);
  }

  lemma FetchedBlobs(r: Redis, job: Job, worker: string, now: Time)
    requires r.blobs == map["j" := job] && job.state.Enqueued?
    ensures Fetched(r, [Global], Some("j"), worker, now).blobs == map["j" := RedisClaimed(job, worker, now)]
  {
    assert Claimable(r, "j");
  }

  lemma WriteRight(r: Redis, clock: Time, back: Job)
    requires Consistent(r) && AvailableOk(r, clock) && back.state.Enqueued?
    requires back.id in r.blobs && back.queue == r.blobs[back.id].queue
    ensures Consistent(UpdateScript(r, back, true)) && AvailableOk(UpdateScript(r, back, true), clock)
  {
    UpdateKeepsConsistent(r, back, true);
    UpdateKeepsAvailable(r, clock, back, true);
  }

  lemma ReplaceOnly(blobs: JobMap, job: Job, back: Job)
    requires blobs == map["j" := job] && back.id == "j"
    ensures Updated(blobs, back) == map["j" := back] && "j" in blobs && blobs["j"] == job
  {
  }

  lemma WriteBlobs(r: Redis, job: Job, back: Job)
    requires r.blobs == map["j" := job] && back.id == "j"
    ensures UpdateScript(r, back, true).blobs == map["j" := back]
    ensures "j" in r.blobs && r.blobs["j"] == job
  {
    var blobs := r.blobs;
    ReplaceOnly(blobs, job, back);
    ScriptBlobs(r, back, EnqueuedKind, true);
  }

  lemma WriteHolds(s: Timed, job: Job, back: Job, now: Time)
    requires Holds(s, job) && s.clock <= now && back.id == "j" && back.queue == "default" && back.state.Enqueued?
    ensures Holds(Timed(UpdateScript(s.r, back, true), now), back)
  {
    var r := s.r;
    WriteBlobs(r, job, back);
    AvailableLater(r, s.clock, now);
    WriteRight(r, now, back);
  }

  /** Writing back a job that was read before. */
  lemma WriteOnly(s: Timed, job: Job, read: Job, now: Time) returns (t: Timed)
    requires Holds(s, job) && s.clock <= now && read.id == "j" && read.queue == "default"
    ensures Next(s, UpdateOp(read.Requeued(now), now), t) && t.clock == now && Holds(t, read.Requeued(now))
  {
    var back := read.Requeued(now);
    t := Timed(UpdateScript(s.r, back, true), now);
    WriteHolds(s, job, back, now);
  }

  lemma Extend(tr: seq<Timed>, ops: seq<Op>, op: Op, t: Timed)
    requires IsRun(tr, ops) && Next(tr[|ops|], op, t)
    ensures IsRun(tr + [t], ops + [op])
  {
    var tr', ops' := tr + [t], ops + [op];
    forall i | 0 <= i < |ops'|
      ensures NextAt(tr', ops', i)
    {
      if i < |ops| {
        assert NextAt(tr, ops, i);
        assert tr'[i] == tr[i] && tr'[i + 1] == tr[i + 1] && ops'[i] == ops[i];
      }
    }
  }

  /** One worker claims the job at time 0. */
  lemma ClaimedOnce() returns (tr: seq<Timed>, ops: seq<Op>)
    ensures IsRun(tr, ops) && |ops| == 2 && tr[2].clock == 0 && Holds(tr[2], RedisClaimed(SAMPLE, "a", 0))
  {
    var s0 := Timed(EMPTY, 0);
    var s1 := EnqueueOnly(0);
    Extend([s0], [], EnqueueOp(SAMPLE, 0), s1);
    tr, ops := [s0] + [s1], [] + [EnqueueOp(SAMPLE, 0)];
    var s2 := FetchOnly(s1, SAMPLE, "a");
    Extend(tr, ops, FetchOp("a", None, 0, Some("j")), s2);
    tr, ops := tr + [s2], ops + [FetchOp("a", None, 0, Some("j"))];
  }

  lemma ExtendByWrite(tr: seq<Timed>, ops: seq<Op>, job: Job, read: Job, now: Time) returns (t: Timed)
    requires IsRun(tr, ops) && Holds(tr[|ops|], job) && tr[|ops|].clock <= now
    requires read.id == "j" && read.queue == "default"
    ensures IsRun(tr + [t], ops + [UpdateOp(read.Requeued(now), now)]) && t.clock == now && Holds(t, read.Requeued(now))
  {
    t := WriteOnly(tr[|ops|], job, read, now);
    Extend(tr, ops, UpdateOp(read.Requeued(now), now), t);
  }

  lemma ExtendByFetch(tr: seq<Timed>, ops: seq<Op>, job: Job, worker: string, now: Time) returns (t: Timed)
    requires IsRun(tr, ops) && Holds(tr[|ops|], job) && job.state.Enqueued? && tr[|ops|].clock == now
    ensures IsRun(tr + [t], ops + [FetchOp(worker, None, now, Some("j"))])
    ensures t.clock == now && Holds(t, RedisClaimed(job, worker, now))
  {
    t := FetchOnly(tr[|ops|], job, worker);
    Extend(tr, ops, FetchOp(worker, None, now, Some("j")), t);
  }

  /** A sweep writes back what it read, and a worker claims the job. */
  lemma PutBackAndClaimed(tr: seq<Timed>, ops: seq<Op>, job: Job, read: Job, now: Time, worker: string)
    returns (t: Timed, u: Timed)
    requires IsRun(tr, ops) && Holds(tr[|ops|], job) && tr[|ops|].clock <= now
    requires read.id == "j" && read.queue == "default"
    ensures IsRun(tr + [t] + [u], ops + [UpdateOp(read.Requeued(now), now)] + [FetchOp(worker, None, now, Some("j"))])
    ensures u.clock == now && Holds(u, RedisClaimed(read, worker, now))
  {
    t := ExtendByWrite(tr, ops, job, read, now);
    u := ExtendByFetch(tr + [t], ops + [UpdateOp(read.Requeued(now), now)], read.Requeued(now), worker, now);
  }

  /**
   Whatever the threshold: two sweeps read a stranded job, one puts it back, worker b claims it, the other
   sweep puts it back from under b, whose claim is not stranded, and worker c claims it too.
   */
  lemma TwoWorkers(stale: nat) returns (tr: seq<Timed>, ops: seq<Op>)
    ensures IsRun(tr, ops) && |ops| == 6
    ensures var now := stale + 1000;
      && "j" in tr[2].r.blobs && IsStranded(tr[2].r.blobs["j"], now - stale)
      && ops[2..] == [UpdateOp(tr[2].r.blobs["j"].Requeued(now), now), FetchOp("b", None, now, Some("j")),
                      UpdateOp(tr[2].r.blobs["j"].Requeued(now), now), FetchOp("c", None, now, Some("j"))]
      && "j" in tr[4].r.blobs && tr[4].r.blobs["j"].state == Processing(Micros(now), "b", REDIS_SERVER)
      && !IsStranded(tr[4].r.blobs["j"], now - stale)
      && "j" in tr[6].r.blobs && tr[6].r.blobs["j"].state == Processing(Micros(now), "c", REDIS_SERVER)
  {
    var now := stale + 1000;
    tr, ops := ClaimedOnce();
    var read := RedisClaimed(SAMPLE, "a", 0);
    var back := UpdateOp(read.Requeued(now), now);
    var t, u := PutBackAndClaimed(tr, ops, read, read, now, "b");
    tr, ops := tr + [t] + [u], ops + [back] + [FetchOp("b", None, now, Some("j"))];
    var v, w := PutBackAndClaimed(tr, ops, RedisClaimed(read, "b", now), read, now, "c");
    tr, ops := tr + [v] + [w], ops + [back] + [FetchOp("c", None, now, Some("j"))];
  }
}
