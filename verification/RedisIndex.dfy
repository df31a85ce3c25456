/** The Redis indices agree with a scan of the blobs after every run of operations done one at a time. */
module RedisIndex {
  import opened JobModel
  import opened Ranking
  import opened JobTable
  import opened RedisModel

  /** Every index says what a scan of the blobs would. */
  ghost predicate Consistent(r: Redis) {
    && Keyed(r.blobs)
    && r.all == r.blobs.Keys
    && (forall k, id :: id in Members(r.states, k) <==> id in r.blobs && r.blobs[id].state.Kind() == k)
    && (forall k :: Count(r.counts, k) == |IdsOfKind(r.blobs, k)|)
  }

  /**
   The sorted sets hold every job that may run, and only jobs that may: an Enqueued job is in the global set
   and in that of its own queue, an entry is stored, due at `clock`, and in no queue's set but its own.
   */
  ghost predicate AvailableOk(r: Redis, clock: Time) {
    && (forall id :: id in r.blobs && r.blobs[id].state.Enqueued? ==>
          id in Z(r.zsets, Global) && id in Z(r.zsets, Queue(r.blobs[id].queue)))
    && (forall key, id :: id in Z(r.zsets, key) ==>
          && id in r.blobs
          && (key == Global || key == Queue(r.blobs[id].queue))
          && (|| r.blobs[id].state.Enqueued?
              || (r.blobs[id].state.Scheduled? && r.blobs[id].state.enqueueAt <= clock)
              || (r.blobs[id].state.AwaitingRetry? && r.blobs[id].state.retryAt <= clock)))
  }

  lemma AvailableLater(r: Redis, clock: Time, later: Time)
    requires AvailableOk(r, clock) && clock <= later
    ensures AvailableOk(r, later)
  {
  }

  // ----- one record changes -----

  function One(b: bool): int {
    if b then 1 else 0
  }

  /** `t` is `r` with the record of `id` set to `job` and the state sets and counts moved accordingly. */
  ghost predicate PutsState(r: Redis, id: Id, job: Job, t: Redis) {
    && t.blobs == r.blobs[id := job]
    && t.all == r.all + {id}
    && (forall k, x :: x in Members(t.states, k) <==>
          if x == id then k == job.state.Kind() else x in Members(r.states, k))
    && (forall k :: Count(t.counts, k) ==
          Count(r.counts, k) - One(id in r.blobs && k == r.blobs[id].state.Kind()) + One(k == job.state.Kind()))
  }

  /** `t` is `r` without `id`. */
  ghost predicate DropsState(r: Redis, id: Id, t: Redis) {
    && id in r.blobs
    && t.blobs == r.blobs - {id}
    && t.all == r.all - {id}
    && (forall k, x :: x in Members(t.states, k) <==> x != id && x in Members(r.states, k))
    && (forall k :: Count(t.counts, k) == Count(r.counts, k) - One(k == r.blobs[id].state.Kind()))
  }

  /** Only the entries of `id` differ; it is in the global and its queue's set if `available`, else in neither. */
  ghost predicate PutsEntry(r: Redis, id: Id, queue: string, available: bool, t: Redis) {
    forall key, x :: x in Z(t.zsets, key) <==>
      if x == id && (key == Global || key == Queue(queue)) then available else x in Z(r.zsets, key)
  }

  lemma SizeAfterPut(blobs: JobMap, id: Id, job: Job, k: Kind)
    ensures |IdsOfKind(blobs[id := job], k)|
         == |IdsOfKind(blobs, k)| - One(id in blobs && k == blobs[id].state.Kind()) + One(k == job.state.Kind())
  {
    SizeAfterDrop(blobs, id, k);
    var rest := IdsOfKind(blobs - {id}, k);
    assert IdsOfKind(blobs[id := job], k) == rest + if k == job.state.Kind() then {id} else {};
    assert id !in rest;
  }

  lemma SizeAfterDrop(blobs: JobMap, id: Id, k: Kind)
    ensures |IdsOfKind(blobs - {id}, k)| == |IdsOfKind(blobs, k)| - One(id in blobs && k == blobs[id].state.Kind())
  {
    var ids := IdsOfKind(blobs, k);
    assert IdsOfKind(blobs - {id}, k) == ids - {id};
    assert |ids - {id}| == |ids| - One(id in ids);
  }

  lemma PutKeepsConsistent(r: Redis, id: Id, job: Job, t: Redis)
    requires Consistent(r) && job.id == id && PutsState(r, id, job, t)
    ensures Consistent(t)
  {
    forall k: Kind
      ensures Count(t.counts, k) == |IdsOfKind(t.blobs, k)|
    {
      SizeAfterPut(r.blobs, id, job, k);
    }
    assert t.blobs.Keys == r.blobs.Keys + {id};
  }

  lemma DropKeepsConsistent(r: Redis, id: Id, t: Redis)
    requires Consistent(r) && DropsState(r, id, t)
    ensures Consistent(t)
  {
    forall k: Kind
      ensures Count(t.counts, k) == |IdsOfKind(t.blobs, k)|
    {
      SizeAfterDrop(r.blobs, id, k);
    }
    assert t.blobs.Keys == r.blobs.Keys - {id};
  }

  lemma PutKeepsAvailable(r: Redis, clock: Time, id: Id, job: Job, available: bool, t: Redis)
    requires AvailableOk(r, clock) && t.blobs == r.blobs[id := job]
    requires PutsEntry(r, id, if id in r.blobs then r.blobs[id].queue else job.queue, available, t)
    requires available ==> Available(job, clock) && (id in r.blobs ==> job.queue == r.blobs[id].queue)
    requires !available ==> !job.state.Enqueued?
    ensures AvailableOk(t, clock)
  {
  }

  lemma DropKeepsAvailable(r: Redis, clock: Time, id: Id, t: Redis)
    requires AvailableOk(r, clock) && id in r.blobs && t.blobs == r.blobs - {id}
    requires PutsEntry(r, id, r.blobs[id].queue, false, t)
    ensures AvailableOk(t, clock)
  {
  }

  // ----- each operation is such a change -----

  lemma AddIsPut(r: Redis, job: Job, available: bool)
    requires Consistent(r) && job.id !in r.blobs
    ensures PutsState(r, job.id, job, Added(r, job, available))
    ensures PutsEntry(r, job.id, job.queue, available, Added(r, job, available))
  {
    ListedIsPut(r, job, Added(r, job, available));
  }

  lemma ListedIsPut(r: Redis, job: Job, t: Redis)
    requires Consistent(r) && job.id !in r.blobs
    requires t.blobs == r.blobs[job.id := job] && t.all == r.all + {job.id}
    requires forall k, x :: x in Members(t.states, k) <==>
          x in Members(r.states, k) || (x == job.id && k == job.state.Kind())
    requires forall k :: Count(t.counts, k) == Count(r.counts, k) + One(k == job.state.Kind())
    ensures PutsState(r, job.id, job, t)
  {
  }

  /** Enqueueing keeps the indices right exactly when the id is new. */
  lemma AddConsistentIff(r: Redis, job: Job, available: bool)
    requires Consistent(r)
    ensures Consistent(Added(r, job, available)) <==> job.id !in r.blobs
  {
    var t := Added(r, job, available);
    var k := job.state.Kind();
    if job.id !in r.blobs {
      AddIsPut(r, job, available);
      PutKeepsConsistent(r, job.id, job, t);
    } else if k == r.blobs[job.id].state.Kind() {
      SizeAfterPut(r.blobs, job.id, job, k);
      assert Count(t.counts, k) == Count(r.counts, k) + 1;
    } else {
      assert job.id in Members(t.states, r.blobs[job.id].state.Kind());
    }
  }

  lemma RewriteIsPut(r: Redis, id: Id, job: Job, available: bool, score: real)
    requires Consistent(r) && id in r.blobs
    ensures var t := Rewritten(r, id, job, r.blobs[id].state.Kind(), available, r.blobs[id].queue, score);
      PutsState(r, id, job, t) && PutsEntry(r, id, r.blobs[id].queue, available, t)
  {
    var t := Rewritten(r, id, job, r.blobs[id].state.Kind(), available, r.blobs[id].queue, score);
    RewriteState(r, id, job, t);
  }

  lemma RewriteState(r: Redis, id: Id, job: Job, t: Redis)
    requires Consistent(r) && id in r.blobs && t.blobs == r.blobs[id := job] && t.all == r.all
    requires var from, to := r.blobs[id].state.Kind(), job.state.Kind();
      if from == to then t.states == r.states && t.counts == r.counts
      else
        && (forall k, x :: x in Members(t.states, k) <==>
              if x == id && (k == from || k == to) then k == to else x in Members(r.states, k))
        && (forall k :: Count(t.counts, k) ==
              Count(r.counts, k) - (if k == from then 1 else 0) + (if k == to then 1 else 0))
    ensures PutsState(r, id, job, t)
  {
    assert r.all + {id} == r.all;
  }

  lemma UpdateIsPut(r: Redis, job: Job, available: bool)
    requires Consistent(r) && job.id in r.blobs
    ensures PutsState(r, job.id, job, UpdateScript(r, job, available))
    ensures PutsEntry(r, job.id, r.blobs[job.id].queue, available, UpdateScript(r, job, available))
  {
    assert SAddAll(r, job.id) == r by { assert r.all + {job.id} == r.all; }
    RewriteIsPut(r, job.id, job, available, Score(job));
  }

  /** The scripts leave the blobs the in-memory update and compare-and-swap would leave. */
  lemma ScriptBlobs(r: Redis, job: Job, expected: Kind, available: bool)
    ensures UpdateScript(r, job, available).blobs == Updated(r.blobs, job)
    ensures CasScript(r, job, expected, available).blobs == Swapped(r.blobs, job, expected)
  {
  }

  lemma RemoveIsDrop(r: Redis, id: Id)
    requires Consistent(r) && id in r.blobs
    ensures Removed(r, id) == Del(Unindexed(r, id, r.blobs[id]), id)
    ensures DropsState(r, id, Removed(r, id))
    ensures PutsEntry(r, id, r.blobs[id].queue, false, Removed(r, id))
  {
  }


  // ----- promotion of a batch -----

  lemma UndriftedIsSame(r: Redis, from: Kind)
    requires Consistent(r)
    ensures Undrifted(r, from) == r
  {
    if from in r.states {
      assert Members(r.states, from) * r.blobs.Keys == Members(r.states, from);
      assert r.states[from := r.states[from]] == r.states;
    }
  }

  /** The blobs after the first `n` promotions. */
  ghost predicate PromotedSoFar(start: JobMap, blobs: JobMap, ids: seq<Id>, now: Time, n: nat)
    requires n <= |ids|
  {
    blobs == Requeue(start, Elements(ids[..n]), now)
  }

  lemma PromoteNextBlob(mids: seq<Redis>, from: Kind, ids: seq<Id>, now: Time, n: nat)
    requires PromotesInTurn(mids, from, ids, now) && Distinct(ids) && n < |ids| && ids[n] in mids[0].blobs
    requires PromotedSoFar(mids[0].blobs, mids[n].blobs, ids, now, n)
    ensures PromotedSoFar(mids[0].blobs, mids[n + 1].blobs, ids, now, n + 1)
  {
    assert PromotesAt(mids, from, ids, now, n);
  }

  lemma {:induction false} PromoteBlobs(mids: seq<Redis>, from: Kind, ids: seq<Id>, now: Time, n: nat)
    requires PromotesInTurn(mids, from, ids, now) && Distinct(ids) && n <= |ids|
    requires forall i :: 0 <= i < |ids| ==> ids[i] in mids[0].blobs
    ensures PromotedSoFar(mids[0].blobs, mids[n].blobs, ids, now, n)
    decreases n
  {
    if n > 0 {
      PromoteBlobs(mids, from, ids, now, n - 1);
      PromoteNextBlob(mids, from, ids, now, n - 1);
    }
  }

  lemma UntouchedYet(mids: seq<Redis>, from: Kind, ids: seq<Id>, now: Time, n: nat)
    requires PromotesInTurn(mids, from, ids, now) && Distinct(ids) && n < |ids|
    requires forall i :: 0 <= i < |ids| ==> ids[i] in mids[0].blobs
    ensures ids[n] in mids[n].blobs && mids[n].blobs[ids[n]] == mids[0].blobs[ids[n]]
    ensures mids[n + 1] == Promoted(mids[n], from, ids[n], now)
  {
    assert PromotesAt(mids, from, ids, now, n);
    PromoteBlobs(mids, from, ids, now, n);
  }

  /** Indices right, and sorted sets exact if they were at the start. */
  ghost predicate StillRight(start: Redis, r: Redis, clock: Time) {
    Consistent(r) && (AvailableOk(start, clock) ==> AvailableOk(r, clock))
  }

  lemma PromoteStep(mids: seq<Redis>, from: Kind, ids: seq<Id>, now: Time, clock: Time, n: nat)
    requires PromotesInTurn(mids, from, ids, now) && Distinct(ids) && n < |ids| && from != EnqueuedKind
    requires forall i :: 0 <= i < |ids| ==> ids[i] in mids[0].blobs && mids[0].blobs[ids[i]].state.Kind() == from
    requires StillRight(mids[0], mids[n], clock)
    ensures StillRight(mids[0], mids[n + 1], clock)
  {
    UntouchedYet(mids, from, ids, now, n);
    PromoteKeeps(mids[n], from, ids[n], now, clock);
  }

  /** Promoting a batch keeps the indices right. */
  lemma {:induction false} PromoteAllKeep(mids: seq<Redis>, from: Kind, ids: seq<Id>, now: Time, clock: Time, n: nat)
    requires PromotesInTurn(mids, from, ids, now) && Distinct(ids) && n <= |ids| && from != EnqueuedKind
    requires forall i :: 0 <= i < |ids| ==> ids[i] in mids[0].blobs && mids[0].blobs[ids[i]].state.Kind() == from
    requires Consistent(mids[0])
    ensures StillRight(mids[0], mids[n], clock)
    decreases n
  {
    if n > 0 {
      PromoteAllKeep(mids, from, ids, now, clock, n - 1);
      PromoteStep(mids, from, ids, now, clock, n - 1);
    }
  }

  lemma PromoteKeeps(r: Redis, from: Kind, id: Id, now: Time, clock: Time)
    requires Consistent(r) && id in r.blobs && r.blobs[id].state.Kind() == from != EnqueuedKind
    ensures Consistent(Promoted(r, from, id, now))
    ensures AvailableOk(r, clock) ==> AvailableOk(Promoted(r, from, id, now), clock)
  {
    var job := r.blobs[id].Requeued(now);
    RewriteIsPut(r, id, job, true, job.priority as real);
    PutKeepsConsistent(r, id, job, Promoted(r, from, id, now));
    if AvailableOk(r, clock) {
      PutKeepsAvailable(r, clock, id, job, true, Promoted(r, from, id, now));
    }
  }

  // ----- runs of operations done one at a time -----

  /**
   Readings named `now` were taken before the operation ran. The stranded sweep and the peer reclaim are
   runs of RequeueOp, the expiry sweep of ExpireOp.
   */
  datatype Op =
    | EnqueueOp(job: Job, now: Time)
    | UpdateOp(job: Job, now: Time)
    | CasOp(job: Job, expected: Kind, now: Time)
    | DeleteOp(id: Id)
    | ExpireOp(id: Id, now: Time)
    | RequeueOp(id: Id, now: Time)
    | ClaimOp(from: Kind, now: Time, limit: nat, ids: seq<Id>)
    | FetchOp(worker: string, queues: Option<seq<string>>, now: Time, best: Option<Id>)

  datatype Timed = Timed(r: Redis, clock: Time)

  /** New jobs have fresh ids. */
  ghost predicate Next(s: Timed, op: Op, t: Timed) {
    && s.clock <= t.clock
    && match op
       case EnqueueOp(job, now) =>
         now <= t.clock && job.id !in s.r.blobs && t.r == Added(s.r, job, Available(job, now))
       case UpdateOp(job, now) =>
         now <= t.clock && t.r == UpdateScript(s.r, job, Available(job, now))
       case CasOp(job, expected, now) =>
         now <= t.clock && t.r == CasScript(s.r, job, expected, Available(job, now))
       case DeleteOp(id) =>
         t.r == Removed(s.r, id)
       case ExpireOp(id, now) =>
         t.r == ExpiredOne(s.r, id, now)
       case RequeueOp(id, now) =>
         now <= t.clock && t.r == if id in s.r.blobs && s.r.blobs[id].state.Processing?
                                  then UpdateScript(s.r, s.r.blobs[id].Requeued(now), true) else s.r
       case ClaimOp(from, now, limit, ids) =>
         now <= t.clock && (from.ScheduledKind? || from.AwaitingRetryKind?) && IsClaim(s.r, from, now, limit, ids, t.r)
       case FetchOp(worker, queues, now, best) =>
         now <= t.clock && IsTop(s.r, Candidates(queues), best)
         && t.r == Fetched(s.r, Candidates(queues), best, worker, now)
  }

  ghost predicate IsRun(tr: seq<Timed>, ops: seq<Op>) {
    && |tr| == |ops| + 1
    && tr[0].r == EMPTY
    && forall i :: 0 <= i < |ops| ==> NextAt(tr, ops, i)
  }

  ghost predicate NextAt(tr: seq<Timed>, ops: seq<Op>, i: nat)
    requires i < |ops| < |tr|
  {
    Next(tr[i], ops[i], tr[i + 1])
  }

  /** The intermediate states of a claim that promotes something. */
  lemma ClaimStates(r: Redis, from: Kind, now: Time, limit: nat, ids: seq<Id>, t: Redis) returns (mids: seq<Redis>)
    requires limit > 0 && IsClaim(r, from, now, limit, ids, t)
    ensures PromotesInTurn(mids, from, ids, Micros(now)) && mids[0] == Undrifted(r, from) && mids[|ids|] == t
    ensures TopPrefix(IndexedDueKeys(r, from, now), limit, ids)
  {
    mids :| PromotesInTurn(mids, from, ids, Micros(now)) && mids[0] == Undrifted(r, from) && mids[|ids|] == t;
  }

  /** Promoting the whole batch. */
  lemma PromotedBatch(mids: seq<Redis>, from: Kind, ids: seq<Id>, now: Time)
    requires PromotesInTurn(mids, from, ids, now) && Distinct(ids)
    requires forall i :: 0 <= i < |ids| ==> ids[i] in mids[0].blobs
    ensures mids[|ids|].blobs == Requeue(mids[0].blobs, Elements(ids), now)
  {
    PromoteBlobs(mids, from, ids, now, |ids|);
    assert ids[..|ids|] == ids;
  }

  /** A claim on consistent indices requeues the selected jobs and nothing else, and keeps the indices right. */
  lemma ClaimEffect(r: Redis, from: Kind, now: Time, limit: nat, ids: seq<Id>, t: Redis, clock: Time)
    requires Consistent(r) && from != EnqueuedKind && IsClaim(r, from, now, limit, ids, t)
    ensures TopPrefix(IndexedDueKeys(r, from, now), limit, ids)
    ensures t.blobs == Requeue(r.blobs, Elements(ids), Micros(now))
    ensures Consistent(t)
    ensures AvailableOk(r, clock) ==> AvailableOk(t, clock)
  {
    if limit > 0 {
      var mids := ClaimStates(r, from, now, limit, ids, t);
      UndriftedIsSame(r, from);
      DueIds(r, from, now, ids);
      PromotedBatch(mids, from, ids, Micros(now));
      PromoteAllKeep(mids, from, ids, Micros(now), clock, |ids|);
    }
  }

  lemma DueIds(r: Redis, from: Kind, now: Time, ids: seq<Id>)
    requires Elements(ids) <= IndexedDueKeys(r, from, now).Keys
    ensures forall i :: 0 <= i < |ids| ==> ids[i] in r.blobs && r.blobs[ids[i]].state.Kind() == from
  {
    forall i | 0 <= i < |ids|
      ensures ids[i] in r.blobs && r.blobs[ids[i]].state.Kind() == from
    {
      assert ids[i] in Elements(ids);
      assert ids[i] in IndexedDueKeys(r, from, now);
    }
  }

  lemma FetchKeepsConsistent(r: Redis, cands: seq<ZKey>, best: Option<Id>, worker: string, now: Time)
    requires Consistent(r)
    ensures Consistent(Fetched(r, cands, best, worker, now))
  {
    if best.Some? && Claimable(r, best.value) {
      var id := best.value;
      RewriteIsPut(r, id, RedisClaimed(r.blobs[id], worker, now), false, 0.0);
      PutKeepsConsistent(r, id, RedisClaimed(r.blobs[id], worker, now), Taken(r, id, worker, now));
    }
  }

  lemma StepConsistent(s: Timed, op: Op, t: Timed)
    requires Consistent(s.r) && Next(s, op, t)
    ensures Consistent(t.r)
  {
    var r := s.r;
    match op
    case EnqueueOp(job, now) =>
      AddConsistentIff(r, job, Available(job, now));
    case UpdateOp(job, now) =>
      UpdateKeepsConsistent(r, job, Available(job, now));
    case CasOp(job, expected, now) =>
      if CasAnswer(r.blobs, job, expected) == Ok(true) {
        RewriteIsPut(r, job.id, job, Available(job, now), Score(job));
        PutKeepsConsistent(r, job.id, job, t.r);
      }
    case DeleteOp(id) =>
      if id in r.blobs {
        RemoveIsDrop(r, id);
        DropKeepsConsistent(r, id, t.r);
      }
    case ExpireOp(id, now) =>
      if id in r.blobs {
        RemoveIsDrop(r, id);
        DropKeepsConsistent(r, id, Removed(r, id));
      }
    case RequeueOp(id, now) =>
      if id in r.blobs {
        UpdateKeepsConsistent(r, r.blobs[id].Requeued(now), true);
      }
    case ClaimOp(from, now, limit, ids) =>
      ClaimEffect(r, from, now, limit, ids, t.r, t.clock);
    case FetchOp(worker, queues, now, best) =>
      FetchKeepsConsistent(r, Candidates(queues), best, worker, now);
  }

  lemma UpdateKeepsConsistent(r: Redis, job: Job, available: bool)
    requires Consistent(r)
    ensures Consistent(UpdateScript(r, job, available))
  {
    if job.id in r.blobs {
      UpdateIsPut(r, job, available);
      PutKeepsConsistent(r, job.id, job, UpdateScript(r, job, available));
    }
  }

  /** In every state of every run the indices agree with a scan of the blobs. */
  lemma {:induction false} RunConsistent(tr: seq<Timed>, ops: seq<Op>, n: nat)
    requires IsRun(tr, ops) && n < |tr|
    ensures Consistent(tr[n].r)
    decreases n
  {
    if n == 0 {
      EmptyConsistent();
    } else {
      RunConsistent(tr, ops, n - 1);
      assert NextAt(tr, ops, n - 1);
      StepConsistent(tr[n - 1], ops[n - 1], tr[n]);
    }
  }

  lemma EmptyConsistent()
    ensures Consistent(EMPTY)
  {
    forall k: Kind
      ensures Count(EMPTY.counts, k) == |IdsOfKind(EMPTY.blobs, k)|
    {
      assert IdsOfKind(EMPTY.blobs, k) == {};
    }
    assert forall k :: Members(EMPTY.states, k) == {};
  }

  // ----- the sorted sets -----

  /** No write moves a job that may run to another queue. */
  ghost predicate KeepsQueue(r: Redis, op: Op) {
    (op.UpdateOp? || op.CasOp?) && op.job.id in r.blobs && Available(op.job, op.now) ==>
      op.job.queue == r.blobs[op.job.id].queue
  }

  /** None of the first `n` operations of a run does. */
  ghost predicate KeepQueues(tr: seq<Timed>, ops: seq<Op>, n: nat)
    requires n < |tr| && n <= |ops|
  {
    forall i :: 0 <= i < n ==> KeepsQueue(tr[i].r, ops[i])
  }

  lemma FetchKeepsAvailable(r: Redis, clock: Time, cands: seq<ZKey>, best: Option<Id>, worker: string, now: Time)
    requires Consistent(r) && AvailableOk(r, clock)
    ensures AvailableOk(Fetched(r, cands, best, worker, now), clock)
  {
    if best.Some? && Claimable(r, best.value) {
      var id := best.value;
      RewriteIsPut(r, id, RedisClaimed(r.blobs[id], worker, now), false, 0.0);
      PutKeepsAvailable(r, clock, id, RedisClaimed(r.blobs[id], worker, now), false, Taken(r, id, worker, now));
    } else if best.Some? {
      CleanKeepsAvailable(r, clock, cands, best.value);
    }
  }

  lemma CleanKeepsAvailable(r: Redis, clock: Time, cands: seq<ZKey>, id: Id)
    requires AvailableOk(r, clock) && !Claimable(r, id)
    ensures AvailableOk(Cleaned(r, cands, id), clock)
  {
    var t := Cleaned(r, cands, id);
    forall key, x | x in Z(t.zsets, key)
      ensures x in Z(r.zsets, key)
    {
    }
  }

  lemma UpdateKeepsAvailable(r: Redis, clock: Time, job: Job, available: bool)
    requires Consistent(r) && AvailableOk(r, clock)
    requires available ==> Available(job, clock) && (job.id in r.blobs ==> job.queue == r.blobs[job.id].queue)
    requires !available ==> !job.state.Enqueued?
    ensures AvailableOk(UpdateScript(r, job, available), clock)
  {
    if job.id in r.blobs {
      UpdateIsPut(r, job, available);
      PutKeepsAvailable(r, clock, job.id, job, available, UpdateScript(r, job, available));
    }
  }

  /**
   The update script files a job under its old queue: the sorted sets stay exact just when that is where it belongs.
   */
  lemma UpdateAvailableIff(r: Redis, clock: Time, job: Job)
    requires Consistent(r) && AvailableOk(r, clock) && job.id in r.blobs
    ensures AvailableOk(UpdateScript(r, job, Available(job, clock)), clock)
        <==> (Available(job, clock) ==> job.queue == r.blobs[job.id].queue)
  {
    if Available(job, clock) && job.queue != r.blobs[job.id].queue {
      var t := UpdateScript(r, job, true);
      UpdateIsPut(r, job, true);
      assert job.id in Z(t.zsets, Queue(r.blobs[job.id].queue)) && t.blobs[job.id] == job;
    } else {
      UpdateKeepsAvailable(r, clock, job, Available(job, clock));
    }
  }

  lemma StepAvailable(s: Timed, op: Op, t: Timed)
    requires Consistent(s.r) && AvailableOk(s.r, s.clock) && Next(s, op, t) && KeepsQueue(s.r, op)
    ensures AvailableOk(t.r, t.clock)
  {
    var r := s.r;
    AvailableLater(r, s.clock, t.clock);
    match op
    case EnqueueOp(job, now) =>
      AddIsPut(r, job, Available(job, now));
      PutKeepsAvailable(r, t.clock, job.id, job, Available(job, now), t.r);
    case UpdateOp(job, now) =>
      UpdateKeepsAvailable(r, t.clock, job, Available(job, now));
    case CasOp(job, expected, now) =>
      if CasAnswer(r.blobs, job, expected) == Ok(true) {
        RewriteIsPut(r, job.id, job, Available(job, now), Score(job));
        PutKeepsAvailable(r, t.clock, job.id, job, Available(job, now), t.r);
      }
    case DeleteOp(id) =>
      if id in r.blobs {
        RemoveIsDrop(r, id);
        DropKeepsAvailable(r, t.clock, id, t.r);
      }
    case ExpireOp(id, now) =>
      if id in r.blobs {
        RemoveIsDrop(r, id);
        DropKeepsAvailable(r, t.clock, id, Removed(r, id));
      }
    case RequeueOp(id, now) =>
      if id in r.blobs {
        UpdateKeepsAvailable(r, t.clock, r.blobs[id].Requeued(now), true);
      }
    case ClaimOp(from, now, limit, ids) =>
      ClaimEffect(r, from, now, limit, ids, t.r, t.clock);
    case FetchOp(worker, queues, now, best) =>
      FetchKeepsAvailable(r, t.clock, Candidates(queues), best, worker, now);
  }

  /** In every state of every run that never moves a runnable job to another queue the sorted sets are exact. */
  lemma {:induction false} RunAvailable(tr: seq<Timed>, ops: seq<Op>, n: nat)
    requires IsRun(tr, ops) && n < |tr|
    requires KeepQueues(tr, ops, n)
    ensures AvailableOk(tr[n].r, tr[n].clock)
    decreases n
  {
    if n == 0 {
      EmptyAvailable(tr[0].r, tr[0].clock);
    } else {
      RunAvailable(tr, ops, n - 1);
      NextAvailable(tr, ops, n - 1);
    }
  }

  lemma NextAvailable(tr: seq<Timed>, ops: seq<Op>, n: nat)
    requires IsRun(tr, ops) && n < |ops| && KeepQueues(tr, ops, n + 1)
    requires AvailableOk(tr[n].r, tr[n].clock)
    ensures AvailableOk(tr[n + 1].r, tr[n + 1].clock)
  {
    RunConsistent(tr, ops, n);
    assert NextAt(tr, ops, n) && KeepsQueue(tr[n].r, ops[n]);
    StepAvailable(tr[n], ops[n], tr[n + 1]);
  }

  lemma EmptyAvailable(r: Redis, clock: Time)
    requires r == EMPTY
    ensures AvailableOk(r, clock)
  {
    assert forall key :: Z(r.zsets, key) == map[];
  }

  /** A fetch therefore never hands out a retry before its time, nor a job of a queue that was not asked for. */
  lemma FetchIsTimely(tr: seq<Timed>, ops: seq<Op>, n: nat)
    requires IsRun(tr, ops) && n < |ops| && ops[n].FetchOp?
    requires KeepQueues(tr, ops, n)
    requires FetchAnswer(tr[n].r, ops[n].best, ops[n].worker, ops[n].now).Some?
    ensures var id := ops[n].best.value;
      && id in tr[n].r.blobs
      && var job := tr[n].r.blobs[id];
         && (job.state.Enqueued? || (job.state.AwaitingRetry? && job.state.retryAt <= tr[n].clock))
         && (ops[n].queues.Some? && |ops[n].queues.value| > 0 ==> job.queue in ops[n].queues.value)
  {
    RunAvailable(tr, ops, n);
    assert NextAt(tr, ops, n);
    var r, cands, id := tr[n].r, Candidates(ops[n].queues), ops[n].best.value;
    assert IsTop(r, cands, Some(id));
    var key :| key in cands && id in Z(r.zsets, key);
  }

}
