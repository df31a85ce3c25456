/** The order in which a Redis fetch hands out jobs: what every score is in every run, and what that order comes to. */
module RedisOrder {
  import opened JobModel
  import opened Ranking
  import opened JobTable
  import opened RedisModel
  import opened RedisIndex
  import opened RedisFetch

  // ----- scores over runs -----

  /** The ids promoted since their last other write, after one more operation. */
  function StillPromoted(promoted: set<Id>, r: Redis, op: Op): set<Id> {
    match op
    case EnqueueOp(job, _) => promoted - {job.id}
    case UpdateOp(job, _) => promoted - {job.id}
    case CasOp(job, expected, _) =>
      if CasAnswer(r.blobs, job, expected) == Ok(true) then promoted - {job.id} else promoted
    case RequeueOp(id, _) => if id in r.blobs && r.blobs[id].state.Processing? then promoted - {id} else promoted
    case ClaimOp(_, _, _, ids) => promoted + Elements(ids)
    case _ => promoted
  }

  /** The ids promoted since their last other write, after the first `n` operations of a run. */
  ghost function PromotedIds(tr: seq<Timed>, ops: seq<Op>, n: nat): set<Id>
    requires n < |tr| && n <= |ops|
  {
    if n == 0 then {} else StillPromoted(PromotedIds(tr, ops, n - 1), tr[n - 1].r, ops[n - 1])
  }

  /** A promotion scores on priority alone, every other write on priority and creation time. */
  function EntryScore(job: Job, promoted: bool): real {
    if promoted then job.priority as real else Score(job)
  }

  /** Every entry of every sorted set belongs to a stored job and has the score of that job. */
  ghost predicate Scored(r: Redis, promoted: set<Id>) {
    forall key, id :: id in Z(r.zsets, key) ==>
      id in r.blobs && Z(r.zsets, key)[id] == EntryScore(r.blobs[id], id in promoted)
  }

  /** Writing one record and its entries. */
  lemma PutScored(r: Redis, promoted: set<Id>, clock: Time, id: Id, job: Job, available: bool, score: real,
                  promoted': set<Id>, t: Redis)
    requires Scored(r, promoted) && AvailableOk(r, clock) && t.blobs == r.blobs[id := job]
    requires var queue := if id in r.blobs then r.blobs[id].queue else job.queue;
      PutsEntry(r, id, queue, available, t) && PutsScore(r, id, queue, score, t)
    requires forall x :: x != id ==> (x in promoted' <==> x in promoted)
    requires score == EntryScore(job, id in promoted') || !available
    ensures Scored(t, promoted')
  {
    forall key, x | x in Z(t.zsets, key)
      ensures x in t.blobs && Z(t.zsets, key)[x] == EntryScore(t.blobs[x], x in promoted')
    {
      assert x == id && !IsOwn(key, if id in r.blobs then r.blobs[id].queue else job.queue) ==> x in Z(r.zsets, key);
    }
  }

  /** Removing entries, with the record or without it. */
  lemma DropScored(r: Redis, promoted: set<Id>, id: Id, t: Redis)
    requires Scored(r, promoted)
    requires forall x :: x in r.blobs && x != id ==> x in t.blobs && t.blobs[x] == r.blobs[x]
    requires forall key, x :: x in Z(t.zsets, key) ==> x in Z(r.zsets, key) && Z(t.zsets, key)[x] == Z(r.zsets, key)[x]
    requires (id in t.blobs && id in r.blobs && t.blobs[id] == r.blobs[id]) || forall key :: id !in Z(t.zsets, key)
    ensures Scored(t, promoted)
  {
  }

  lemma AddScored(r: Redis, promoted: set<Id>, clock: Time, job: Job, available: bool)
    requires Consistent(r) && AvailableOk(r, clock) && Scored(r, promoted) && job.id !in r.blobs
    ensures Scored(Added(r, job, available), promoted - {job.id})
  {
    AddIsPut(r, job, available);
    PutScored(r, promoted, clock, job.id, job, available, Score(job), promoted - {job.id}, Added(r, job, available));
  }

  lemma RewriteScored(r: Redis, promoted: set<Id>, clock: Time, id: Id, job: Job, available: bool, score: real,
                      promoted': set<Id>)
    requires Consistent(r) && AvailableOk(r, clock) && Scored(r, promoted) && id in r.blobs
    requires forall x :: x != id ==> (x in promoted' <==> x in promoted)
    requires score == EntryScore(job, id in promoted') || !available
    ensures Scored(Rewritten(r, id, job, r.blobs[id].state.Kind(), available, r.blobs[id].queue, score), promoted')
  {
    var t := Rewritten(r, id, job, r.blobs[id].state.Kind(), available, r.blobs[id].queue, score);
    RewriteIsPut(r, id, job, available, score);
    PutScored(r, promoted, clock, id, job, available, score, promoted', t);
  }

  lemma UpdateScored(r: Redis, promoted: set<Id>, clock: Time, job: Job, available: bool)
    requires Consistent(r) && AvailableOk(r, clock) && Scored(r, promoted)
    ensures Scored(UpdateScript(r, job, available), promoted - {job.id})
  {
    if job.id in r.blobs {
      assert SAddAll(r, job.id) == r by { assert r.all + {job.id} == r.all; }
      RewriteScored(r, promoted, clock, job.id, job, available, Score(job), promoted - {job.id});
    }
  }

  lemma RemoveScored(r: Redis, promoted: set<Id>, clock: Time, id: Id)
    requires Consistent(r) && AvailableOk(r, clock) && Scored(r, promoted) && id in r.blobs
    ensures Scored(Removed(r, id), promoted)
  {
    RemoveIsDrop(r, id);
    DropScored(r, promoted, id, Removed(r, id));
  }

  lemma FetchScored(r: Redis, promoted: set<Id>, clock: Time, cands: seq<ZKey>, best: Option<Id>, worker: string,
                    now: Time)
    requires Consistent(r) && AvailableOk(r, clock) && Scored(r, promoted)
    ensures Scored(Fetched(r, cands, best, worker, now), promoted)
  {
    if best.Some? && Claimable(r, best.value) {
      RewriteScored(r, promoted, clock, best.value, RedisClaimed(r.blobs[best.value], worker, now),
                    false, 0.0, promoted);
    } else if best.Some? {
      CleanScored(r, promoted, cands, best.value);
    }
  }

  lemma CleanScored(r: Redis, promoted: set<Id>, cands: seq<ZKey>, id: Id)
    requires Scored(r, promoted)
    ensures Scored(Cleaned(r, cands, id), promoted)
  {
    var t := Cleaned(r, cands, id);
    forall key, x | x in Z(t.zsets, key)
      ensures x in Z(r.zsets, key) && Z(t.zsets, key)[x] == Z(r.zsets, key)[x]
    {
    }
  }

  lemma PromoteScored(r: Redis, promoted: set<Id>, clock: Time, from: Kind, id: Id, now: Time)
    requires Consistent(r) && AvailableOk(r, clock) && Scored(r, promoted)
    requires id in r.blobs && r.blobs[id].state.Kind() == from
    ensures Scored(Promoted(r, from, id, now), promoted + {id})
  {
    var job := r.blobs[id].Requeued(now);
    RewriteScored(r, promoted, clock, id, job, true, job.priority as real, promoted + {id});
  }

  /** The promoted ids after the first `n` of a batch. */
  ghost function WithFirst(promoted: set<Id>, ids: seq<Id>, n: nat): set<Id>
    requires n <= |ids|
  {
    promoted + Elements(ids[..n])
  }

  lemma WithNext(promoted: set<Id>, ids: seq<Id>, n: nat)
    requires Distinct(ids) && n < |ids|
    ensures WithFirst(promoted, ids, n + 1) == WithFirst(promoted, ids, n) + {ids[n]}
  {
    Growing(ids, n);
  }

  lemma WithEnds(promoted: set<Id>, ids: seq<Id>)
    ensures WithFirst(promoted, ids, 0) == promoted
    ensures WithFirst(promoted, ids, |ids|) == promoted + Elements(ids)
  {
    assert ids[..|ids|] == ids;
  }

  /** A batch of promotions starting from right indices and scores. */
  ghost predicate GoodBatch(mids: seq<Redis>, promoted: set<Id>, from: Kind, ids: seq<Id>, now: Time, clock: Time) {
    && PromotesInTurn(mids, from, ids, now)
    && Distinct(ids)
    && from != EnqueuedKind
    && (forall i :: 0 <= i < |ids| ==> ids[i] in mids[0].blobs && mids[0].blobs[ids[i]].state.Kind() == from)
    && Consistent(mids[0])
    && AvailableOk(mids[0], clock)
    && Scored(mids[0], promoted)
  }

  lemma PromoteNextScored(mids: seq<Redis>, promoted: set<Id>, from: Kind, ids: seq<Id>, now: Time, clock: Time, n: nat)
    requires GoodBatch(mids, promoted, from, ids, now, clock) && n < |ids|
    requires Scored(mids[n], WithFirst(promoted, ids, n))
    ensures Scored(mids[n + 1], WithFirst(promoted, ids, n + 1))
  {
    PromoteAllKeep(mids, from, ids, now, clock, n);
    UntouchedYet(mids, from, ids, now, n);
    WithNext(promoted, ids, n);
    PromoteScored(mids[n], WithFirst(promoted, ids, n), clock, from, ids[n], now);
  }

  /** Promoting the first `n` of a batch. */
  lemma {:induction false} PromoteAllScored(mids: seq<Redis>, promoted: set<Id>, from: Kind, ids: seq<Id>, now: Time,
                                            clock: Time, n: nat)
    requires GoodBatch(mids, promoted, from, ids, now, clock) && n <= |ids|
    ensures Scored(mids[n], WithFirst(promoted, ids, n))
    decreases n
  {
    if n == 0 {
      WithEnds(promoted, ids);
    } else {
      PromoteAllScored(mids, promoted, from, ids, now, clock, n - 1);
      PromoteNextScored(mids, promoted, from, ids, now, clock, n - 1);
    }
  }

  lemma BatchOfClaim(r: Redis, promoted: set<Id>, clock: Time, from: Kind, now: Time, limit: nat, ids: seq<Id>,
                     t: Redis)
    returns (mids: seq<Redis>)
    requires Consistent(r) && AvailableOk(r, clock) && Scored(r, promoted)
    requires from != EnqueuedKind && limit > 0 && IsClaim(r, from, now, limit, ids, t)
    ensures GoodBatch(mids, promoted, from, ids, Micros(now), clock) && mids[|ids|] == t
  {
    mids := ClaimStates(r, from, now, limit, ids, t);
    UndriftedIsSame(r, from);
    DueIds(r, from, now, ids);
  }

  lemma ClaimScored(r: Redis, promoted: set<Id>, clock: Time, from: Kind, now: Time, limit: nat, ids: seq<Id>, t: Redis)
    requires Consistent(r) && AvailableOk(r, clock) && Scored(r, promoted)
    requires from != EnqueuedKind && IsClaim(r, from, now, limit, ids, t)
    ensures Scored(t, promoted + Elements(ids))
  {
    WithEnds(promoted, ids);
    if limit > 0 {
      var mids := BatchOfClaim(r, promoted, clock, from, now, limit, ids, t);
      PromoteAllScored(mids, promoted, from, ids, Micros(now), clock, |ids|);
    }
  }

  lemma StepScored(s: Timed, op: Op, t: Timed, promoted: set<Id>)
    requires Consistent(s.r) && AvailableOk(s.r, s.clock) && Scored(s.r, promoted) && Next(s, op, t)
    ensures Scored(t.r, StillPromoted(promoted, s.r, op))
  {
    var r := s.r;
    match op
    case EnqueueOp(job, now) => AddScored(r, promoted, s.clock, job, Available(job, now));
    case UpdateOp(job, now) => UpdateScored(r, promoted, s.clock, job, Available(job, now));
    case CasOp(job, expected, now) =>
      if CasAnswer(r.blobs, job, expected) == Ok(true) {
        RewriteScored(r, promoted, s.clock, job.id, job, Available(job, now), Score(job), promoted - {job.id});
      }
    case DeleteOp(id) =>
      if id in r.blobs {
        RemoveScored(r, promoted, s.clock, id);
      }
    case ExpireOp(id, now) =>
      if id in r.blobs {
        RemoveIsDrop(r, id);
        RemoveScored(r, promoted, s.clock, id);
      }
    case RequeueOp(id, now) =>
      if id in r.blobs && r.blobs[id].state.Processing? {
        UpdateScored(r, promoted, s.clock, r.blobs[id].Requeued(now), true);
      }
    case ClaimOp(from, now, limit, ids) => ClaimScored(r, promoted, s.clock, from, now, limit, ids, t.r);
    case FetchOp(worker, queues, now, best) => FetchScored(r, promoted, s.clock, Candidates(queues), best, worker, now);
  }

  /** Every entry has the score of its job after `n` operations. */
  ghost predicate ScoredAt(tr: seq<Timed>, ops: seq<Op>, n: nat)
    requires n < |tr| && n <= |ops|
  {
    Scored(tr[n].r, PromotedIds(tr, ops, n))
  }

  lemma NextScored(tr: seq<Timed>, ops: seq<Op>, n: nat)
    requires IsRun(tr, ops) && n < |ops| && ScoredAt(tr, ops, n)
    requires KeepQueues(tr, ops, n)
    ensures ScoredAt(tr, ops, n + 1)
  {
    RunConsistent(tr, ops, n);
    RunAvailable(tr, ops, n);
    assert NextAt(tr, ops, n);
    StepScored(tr[n], ops[n], tr[n + 1], PromotedIds(tr, ops, n));
  }

  /**
   In every state of every run that never moves a runnable job to another queue, every entry has the score of its
   job.
   */
  lemma {:induction false} RunScored(tr: seq<Timed>, ops: seq<Op>, n: nat)
    requires IsRun(tr, ops) && n < |tr|
    requires KeepQueues(tr, ops, n)
    ensures ScoredAt(tr, ops, n)
    decreases n
  {
    if n > 0 {
      RunScored(tr, ops, n - 1);
      NextScored(tr, ops, n - 1);
    }
  }

  // ----- the order of a fetch -----

  /** A millionth of a priority step for each millisecond of a creation time, unless promoted. */
  function Weight(job: Job, promoted: bool): int {
    1_000_000 * job.priority + if promoted then 0 else CreatedMillis(job)
  }

  /** `b` is listed, and no listed job weighs more. */
  ghost predicate Heaviest(r: Redis, cands: seq<ZKey>, promoted: set<Id>, b: Id) {
    && b in Entries(r, cands)
    && b in r.blobs
    && forall id :: id in Entries(r, cands) && id in r.blobs ==>
         Weight(r.blobs[id], id in promoted) <= Weight(r.blobs[b], b in promoted)
  }

  /** When every entry has the score of its job, a fetch may pick exactly the heaviest listed jobs. */
  lemma TopIsHeaviest(r: Redis, cands: seq<ZKey>, promoted: set<Id>, b: Id)
    requires Scored(r, promoted)
    ensures IsTop(r, cands, Some(b)) <==> Heaviest(r, cands, promoted, b)
  {
    if IsTop(r, cands, Some(b)) {
      var key :| key in cands && b in Z(r.zsets, key)
        && forall other, id :: other in cands && id in Z(r.zsets, other) ==>
            Z(r.zsets, other)[id] <= Z(r.zsets, key)[b];
      forall id | id in Entries(r, cands) && id in r.blobs
        ensures Weight(r.blobs[id], id in promoted) <= Weight(r.blobs[b], b in promoted)
      {
        var other :| other in cands && id in Z(r.zsets, other);
      }
    }
    if Heaviest(r, cands, promoted, b) {
      var key :| key in cands && b in Z(r.zsets, key);
      forall other, id | other in cands && id in Z(r.zsets, other)
        ensures Z(r.zsets, other)[id] <= Z(r.zsets, key)[b]
      {
        assert id in Entries(r, cands);
      }
    }
  }

  /** In every run: a fetch may pick exactly the heaviest of the listed jobs. */
  lemma FetchOrderIff(tr: seq<Timed>, ops: seq<Op>, n: nat, queues: Option<seq<string>>, b: Id)
    requires IsRun(tr, ops) && n < |tr|
    requires KeepQueues(tr, ops, n)
    ensures IsTop(tr[n].r, Candidates(queues), Some(b))
        <==> Heaviest(tr[n].r, Candidates(queues), PromotedIds(tr, ops, n), b)
  {
    RunScored(tr, ops, n);
    TopIsHeaviest(tr[n].r, Candidates(queues), PromotedIds(tr, ops, n), b);
  }

  /**
   What it takes for a job `j` to be picked while `k` is listed, in nanoseconds, creation times counting in
   whole milliseconds. Of two jobs never promoted with one priority the newer goes first, the opposite of the
   in-memory order; a step of priority is worth a thousand seconds. A promoted job goes before one that was
   not only with a lead in priority that makes up for the whole time from 1970 to the other's creation.
   */
  predicate Precedes(j: Job, jPromoted: bool, k: Job, kPromoted: bool) {
    var lead := 1_000_000_000_000 * (j.priority - k.priority);
    && (!jPromoted && !kPromoted ==> lead > k.createdAt - j.createdAt - 1_000_000)
    && (jPromoted && !kPromoted ==> lead > k.createdAt - EPOCH - 1_000_000)
    && (!jPromoted && kPromoted ==> -lead <= j.createdAt - EPOCH)
    && (jPromoted && kPromoted ==> j.priority >= k.priority)
  }

  lemma HeavierPrecedes(j: Job, jPromoted: bool, k: Job, kPromoted: bool)
    requires Weight(k, kPromoted) <= Weight(j, jPromoted)
    ensures Precedes(j, jPromoted, k, kPromoted)
  {
  }

  /** In every run, whatever a fetch picks precedes every other listed job. */
  lemma FetchPrefers(tr: seq<Timed>, ops: seq<Op>, n: nat, queues: Option<seq<string>>, b: Id, x: Id)
    requires IsRun(tr, ops) && n < |tr|
    requires KeepQueues(tr, ops, n)
    requires IsTop(tr[n].r, Candidates(queues), Some(b)) && x in Entries(tr[n].r, Candidates(queues))
    ensures b in tr[n].r.blobs && x in tr[n].r.blobs
    ensures var p := PromotedIds(tr, ops, n); Precedes(tr[n].r.blobs[b], b in p, tr[n].r.blobs[x], x in p)
  {
    var r, p := tr[n].r, PromotedIds(tr, ops, n);
    RunScored(tr, ops, n);
    TopIsHeaviest(r, Candidates(queues), p, b);
    HeavierPrecedes(r.blobs[b], b in p, r.blobs[x], x in p);
  }

  // ----- against the in-memory order -----

  /** Two jobs enqueued one after the other. */
  ghost function TwoJobs(x: Job, y: Job, clock: Time): seq<Timed> {
    var r1 := Added(EMPTY, x, true);
    [Timed(EMPTY, clock), Timed(r1, clock), Timed(Added(r1, y, true), clock)]
  }

  ghost function TwoOps(x: Job, y: Job, clock: Time): seq<Op> {
    [EnqueueOp(x, clock), EnqueueOp(y, clock)]
  }

  lemma EnqueueIsNext(r: Redis, job: Job, clock: Time)
    requires job.state.Enqueued? && job.id !in r.blobs
    ensures Next(Timed(r, clock), EnqueueOp(job, clock), Timed(Added(r, job, true), clock))
  {
  }

  lemma TwoJobsRun(x: Job, y: Job, clock: Time)
    requires x.state.Enqueued? && y.state.Enqueued? && x.id != y.id
    ensures IsRun(TwoJobs(x, y, clock), TwoOps(x, y, clock))
    ensures TwoJobs(x, y, clock)[2].r.blobs == map[x.id := x, y.id := y]
    ensures PromotedIds(TwoJobs(x, y, clock), TwoOps(x, y, clock), 2) == {}
  {
    var tr, ops := TwoJobs(x, y, clock), TwoOps(x, y, clock);
    EnqueueIsNext(EMPTY, x, clock);
    EnqueueIsNext(tr[1].r, y, clock);
    assert NextAt(tr, ops, 0);
    assert NextAt(tr, ops, 1);
    assert PromotedIds(tr, ops, 1) == {};
  }

  lemma TwoJobsListed(r: Redis, clock: Time, x: Job, y: Job)
    requires AvailableOk(r, clock) && x.state.Enqueued? && y.state.Enqueued? && x.id != y.id
    requires r.blobs == map[x.id := x, y.id := y]
    ensures Entries(r, [Global]) == {x.id, y.id}
  {
    assert x.id in r.blobs && r.blobs[x.id] == x && y.id in r.blobs && r.blobs[y.id] == y;
    assert [Global][0] == Global;
    forall id
      ensures id in Entries(r, [Global]) <==> id in {x.id, y.id}
    {
      assert id in Z(r.zsets, Global) ==> id in r.blobs;
    }
  }

  lemma HeavierOfTwo(r: Redis, x: Job, y: Job)
    requires x.id != y.id && r.blobs == map[x.id := x, y.id := y] && Entries(r, [Global]) == {x.id, y.id}
    ensures Heaviest(r, [Global], {}, y.id) <==> Weight(x, false) <= Weight(y, false)
  {
    if Heaviest(r, [Global], {}, y.id) {
      assert x.id in Entries(r, [Global]);
    }
  }

  /** The Redis order of two enqueued jobs. */
  lemma RedisPicks(x: Job, y: Job, clock: Time)
    requires x.state.Enqueued? && y.state.Enqueued? && x.id != y.id
    ensures IsTop(TwoJobs(x, y, clock)[2].r, [Global], Some(y.id)) <==> Weight(x, false) <= Weight(y, false)
  {
    var tr, ops := TwoJobs(x, y, clock), TwoOps(x, y, clock);
    TwoJobsRun(x, y, clock);
    RunAvailable(tr, ops, 2);
    TwoJobsListed(tr[2].r, clock, x, y);
    HeavierOfTwo(tr[2].r, x, y);
    RunScored(tr, ops, 2);
    TopIsHeaviest(tr[2].r, [Global], {}, y.id);
  }

  /** The in-memory order of two enqueued jobs. */
  lemma MemoryPicks(jobs: JobMap, x: Job, y: Job, clock: Time)
    requires x.state.Enqueued? && y.state.Enqueued? && x.id != y.id && jobs == map[x.id := x, y.id := y]
    ensures Fetchable(jobs, map[], clock, None, Some(y.id)) <==> !Before(RankKey(x), RankKey(y))
  {
    BeforeIsOrder(RankKey(y), RankKey(x), RankKey(x));
    assert IsEligible(jobs, map[], clock, None, x.id) && IsEligible(jobs, map[], clock, None, y.id);
  }

  /**
   From the empty store, with two jobs enqueued: the in-memory store would not hand out `y` first and a
   Redis fetch may, exactly when `x` ranks before `y` and does not weigh more.
   */
  lemma OrderDiffersIff(x: Job, y: Job, clock: Time)
    requires x.state.Enqueued? && y.state.Enqueued? && x.id != y.id
    ensures var r := TwoJobs(x, y, clock)[2].r;
      !Fetchable(r.blobs, map[], clock, None, Some(y.id)) && IsTop(r, Candidates(None), Some(y.id))
      <==> Before(RankKey(x), RankKey(y)) && Weight(x, false) <= Weight(y, false)
  {
    TwoJobsRun(x, y, clock);
    RedisPicks(x, y, clock);
    MemoryPicks(TwoJobs(x, y, clock)[2].r.blobs, x, y, clock);
  }

  /** A job of priority 1 created at the epoch, and one of priority 0 created half an hour later. */
  const URGENT := Job("x", "m", "null", EPOCH, Enqueued(EPOCH, "q"), "q", 1, 0, 0, map[], None, None, None)
  const RECENT := URGENT.(id := "y", createdAt := EPOCH + 30 * MINUTE, priority := 0)

  /** The one of lower priority goes first. */
  lemma LowerPriorityFirst(clock: Time)
    ensures var r := TwoJobs(URGENT, RECENT, clock)[2].r;
      !Fetchable(r.blobs, map[], clock, None, Some("y")) && IsTop(r, Candidates(None), Some("y"))
  {
    assert CreatedMillis(URGENT) == 0 && CreatedMillis(RECENT) == 1_800_000;
    OrderDiffersIff(URGENT, RECENT, clock);
  }
}
