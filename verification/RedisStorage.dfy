/** The Redis backend's operations, command by command, against the model of the store. */
module RedisStorage {
  import opened JobModel
  import opened Ranking
  import opened JobTable
  import opened RedisModel
  import opened RedisIndex
  import M = MemoryStorage

  /** The highest-scored member of a sorted set. */
  method Top(z: ZSet) returns (top: Option<Id>)
    ensures top.None? <==> z == map[]
    ensures top.Some? ==> top.value in z && forall id :: id in z ==> z[id] <= z[top.value]
  {
    top := None;
    var rest := z.Keys;
    while rest != {}
      invariant rest <= z.Keys
      invariant top.None? <==> rest == z.Keys
      invariant top.Some? ==> top.value in z && forall id :: id in z && id !in rest ==> z[id] <= z[top.value]
      decreases rest
    {
      var id :| id in rest;
      if top.None? || z[top.value] < z[id] {
        top := Some(id);
      }
      rest := rest - {id};
    }
    assert top.None? ==> z.Keys == {};
  }

  /** The commands of a successful fetch, in the script's order. */
  method Rewrite(r: Redis, id: Id, job: Job, from: Kind, queue: string) returns (t: Redis)
    requires from != job.state.Kind()
    ensures t == Rewritten(r, id, job, from, false, queue, 0.0)
  {
    t := Set(r, id, job);
    t := ZRem(t, Global, id);
    t := ZRem(t, Queue(queue), id);
    t := SRem(t, from, id);
    t := SAdd(t, job.state.Kind(), id);
    t := HIncr(t, from, -1);
    t := HIncr(t, job.state.Kind(), 1);
  }

  /** Which Processing jobs a sweep puts back: those started too long ago, or those of one server. */
  datatype Criterion = StartedBefore(time: Time) | StampedBy(server: string)

  predicate Matches(job: Job, c: Criterion) {
    match c
    case StartedBefore(time) => IsStranded(job, time)
    case StampedBy(server) => IsStamped(job, server)
  }

  function Matching(blobs: JobMap, ids: set<Id>, c: Criterion): set<Id> {
    set id | id in ids && id in blobs && Matches(blobs[id], c)
  }

  /** By the fields alone: `out` holds the records of `ids`, Enqueued in their own queue since `at`. */
  ghost predicate ArePutBack(blobs: JobMap, ids: seq<Id>, out: seq<Job>, at: Time) {
    && |out| == |ids|
    && forall i :: 0 <= i < |ids| ==>
         ids[i] in blobs && out[i] == blobs[ids[i]].(state := Enqueued(at, blobs[ids[i]].queue))
  }

  lemma PromotedArePutBack(blobs: JobMap, ids: seq<Id>, out: seq<Job>, at: Time)
    requires ArePromoted(blobs, ids, out, at)
    ensures ArePutBack(blobs, ids, out, at)
  {
  }

  lemma IsClaimBy(r: Redis, from: Kind, now: Time, limit: nat, ids: seq<Id>, mids: seq<Redis>)
    requires limit > 0 && TopPrefix(IndexedDueKeys(r, from, now), limit, ids)
    requires PromotesInTurn(mids, from, ids, Micros(now)) && mids[0] == Undrifted(r, from)
    ensures IsClaim(r, from, now, limit, ids, mids[|ids|])
  {
  }

  class RedisStorage {
    /** What the server holds. */
    var db: Redis

    constructor ()
      ensures db == EMPTY
    {
      db := EMPTY;
    }

    method Get(id: Id) returns (r: Option<Job>)
      ensures r == if id in db.blobs then Some(db.blobs[id]) else None
    {
      r := if id in db.blobs then Some(db.blobs[id]) else None;
    }

    method Enqueue(job: Job, now: Time)
      modifies this
      ensures db == Added(old(db), job, Available(job, now))
      ensures db.blobs == old(db).blobs[job.id := job] && db.all == old(db).all + {job.id}
      ensures forall k, x :: x in Members(db.states, k) <==>
        x in Members(old(db).states, k) || (x == job.id && k == job.state.Kind())
      ensures forall k :: Count(db.counts, k) == Count(old(db).counts, k) + (if k == job.state.Kind() then 1 else 0)
      ensures forall key, x :: x in Z(db.zsets, key) <==>
        if x == job.id && (key == Global || key == Queue(job.queue))
        then || job.state.Enqueued?
             || (job.state.Scheduled? && job.state.enqueueAt <= now)
             || (job.state.AwaitingRetry? && job.state.retryAt <= now)
        else x in Z(old(db).zsets, key)
    {
      db := Set(db, job.id, job);
      db := SAdd(db, job.state.Kind(), job.id);
      db := SAddAll(db, job.id);
      db := HIncr(db, job.state.Kind(), 1);
      if Available(job, now) {
        db := ZAdd(db, Global, job.id, Score(job));
        db := ZAdd(db, Queue(job.queue), job.id, Score(job));
      } else {
        db := ZRem(db, Global, job.id);
        db := ZRem(db, Queue(job.queue), job.id);
      }
    }

    method Update(job: Job, now: Time) returns (r: Result<()>)
      modifies this
      ensures db == UpdateScript(old(db), job, Available(job, now))
      ensures r == if job.id in old(db).blobs then Ok(()) else Err(JobNotFound(job.id))
      ensures db.blobs == if r.Ok? then old(db).blobs[job.id := job] else old(db).blobs
    {
      if job.id !in db.blobs {
        return Err(JobNotFound(job.id));
      }
      var current := db.blobs[job.id];
      var from, to := current.state.Kind(), job.state.Kind();
      db := Set(db, job.id, job);
      db := SAddAll(db, current.id);
      if from != to {
        db := Moved(db, job.id, from, to);
      }
      db := Ranked(db, Available(job, now), current.queue, job.id, Score(job));
      r := Ok(());
    }

    method UpdateIfState(job: Job, expected: Kind, now: Time) returns (r: Result<bool>)
      modifies this
      ensures db == CasScript(old(db), job, expected, Available(job, now))
      ensures r == CasAnswer(old(db).blobs, job, expected)
      ensures r.Err? <==> job.id !in old(db).blobs
      ensures r == Ok(true) <==> job.id in old(db).blobs && old(db).blobs[job.id].state.Kind() == expected
      ensures db.blobs == if r == Ok(true) then old(db).blobs[job.id := job] else old(db).blobs
    {
      if job.id !in db.blobs {
        return Err(JobNotFound(job.id));
      }
      var current := db.blobs[job.id];
      if current.state.Kind() != expected {
        return Ok(false);
      }
      db := Set(db, job.id, job);
      if expected != job.state.Kind() {
        db := Moved(db, job.id, expected, job.state.Kind());
      }
      db := Ranked(db, Available(job, now), current.queue, job.id, Score(job));
      r := Ok(true);
    }

    method RemoveJobIndices(id: Id, job: Job)
      modifies this
      ensures db == Unindexed(old(db), id, job)
    {
      db := SRem(db, job.state.Kind(), id);
      db := SRemAll(db, id);
      db := ZRem(db, Global, id);
      db := ZRem(db, Queue(job.queue), id);
      db := HIncr(db, job.state.Kind(), -1);
    }

    method Delete(id: Id) returns (r: bool)
      modifies this
      ensures db == Removed(old(db), id)
      ensures r <==> id in old(db).blobs
      ensures db.blobs == old(db).blobs - {id}
    {
      var job := Get(id);
      if job.None? {
        return false;
      }
      db := Del(db, id);
      RemoveJobIndices(id, job.value);
      r := true;
    }

    /** Sweep every expired job; on consistent indices exactly the blobs past their expiry go. */
    method DeleteExpiredJobs(now: Time) returns (removed: nat)
      modifies this
      ensures Consistent(old(db)) ==> Consistent(db) && db.blobs == old(db).blobs - PastIds(old(db).blobs, now)
      ensures Consistent(old(db)) ==> removed == |PastIds(old(db).blobs, now)|
      ensures Consistent(old(db)) ==>
        && (forall id :: id in db.blobs <==>
              && id in old(db).blobs
              && (old(db).blobs[id].expiresAt.None? || old(db).blobs[id].expiresAt.value >= now))
        && (forall id :: id in db.blobs ==> db.blobs[id] == old(db).blobs[id])
    {
      removed := 0;
      var ids := db.all;
      ghost var r, good, done: set<Id> := db, Consistent(db), {};
      while ids != {}
        invariant done !! ids && done + ids == r.all
        invariant good ==> PartlySwept(r, db, done, now, removed)
        decreases ids
      {
        var id :| id in ids;
        if good {
          SweepStep(r, db, done, id, now, removed);
        }
        if id in db.blobs && IsPast(db.blobs[id], now) {
          var job := db.blobs[id];
          RemoveJobIndices(id, job);
          db := Del(db, id);
          removed := removed + 1;
        }
        ids := ids - {id};
        done := done + {id};
      }
      if good {
        assert PastAmong(r.blobs, done, now) == PastIds(r.blobs, now);
      }
    }

    /** Read one job and put it back if it matches. */
    method RequeueOne(id: Id, c: Criterion, now: Time) returns (hit: bool)
      modifies this
      ensures hit <==> id in old(db).blobs && Matches(old(db).blobs[id], c)
      ensures db == if hit then UpdateScript(old(db), old(db).blobs[id].Requeued(now), true) else old(db)
    {
      var job := Get(id);
      hit := job.Some? && Matches(job.value, c);
      if hit {
        var _ := Update(job.value.Requeued(now), now);
      }
    }

    /** Walk the processing set and put back each job that matches, one read and one update each. */
    method RequeueMatching(c: Criterion, now: Time) returns (n: nat)
      modifies this
      ensures Consistent(old(db)) ==>
        && Consistent(db)
        && db.blobs == Requeue(old(db).blobs, Matching(old(db).blobs, old(db).blobs.Keys, c), now)
        && n == |Matching(old(db).blobs, old(db).blobs.Keys, c)|
    {
      n := 0;
      var ids := Members(db.states, ProcessingKind);
      ghost var r, good, done: set<Id> := db, Consistent(db), {};
      while ids != {}
        invariant done !! ids && done + ids == Members(r.states, ProcessingKind)
        invariant good ==> PartlyRequeued(r, db, done, c, now, n)
        decreases ids
      {
        var id :| id in ids;
        if good {
          RequeueStep(r, db, done, id, c, now, n);
        }
        var hit := RequeueOne(id, c, now);
        if hit {
          n := n + 1;
        }
        ids := ids - {id};
        done := done + {id};
      }
      if good {
        ProcessingIsAll(r, c);
      }
    }

    method RequeueStrandedJobs(staleBefore: Time, now: Time) returns (recovered: nat)
      modifies this
      ensures Consistent(old(db)) ==>
        && Consistent(db)
        && db.blobs == Requeue(old(db).blobs, Stranded(old(db).blobs, staleBefore), now)
        && recovered == |Stranded(old(db).blobs, staleBefore)|
      ensures Consistent(old(db)) ==>
        var gone := set id | id in old(db).blobs
          && old(db).blobs[id].state.Processing? && old(db).blobs[id].state.startedAt < staleBefore;
        M.IsRequeued(old(db).blobs, gone, now, db.blobs) && recovered == |gone|
    {
      assert Stranded(db.blobs, staleBefore) ==
        set id | id in db.blobs && db.blobs[id].state.Processing? && db.blobs[id].state.startedAt < staleBefore;
      assert Matching(db.blobs, db.blobs.Keys, StartedBefore(staleBefore)) == Stranded(db.blobs, staleBefore);
      recovered := RequeueMatching(StartedBefore(staleBefore), now);
    }

    method ReclaimJobsFromServer(server: Id, now: Time) returns (reclaimed: nat)
      modifies this
      ensures Consistent(old(db)) ==>
        && Consistent(db)
        && db.blobs == Requeue(old(db).blobs, Stamped(old(db).blobs, server), now)
        && reclaimed == |Stamped(old(db).blobs, server)|
      ensures Consistent(old(db)) ==>
        var gone := set id | id in old(db).blobs
          && old(db).blobs[id].state.Processing? && old(db).blobs[id].state.serverName == server;
        M.IsRequeued(old(db).blobs, gone, now, db.blobs) && reclaimed == |gone|
    {
      assert Stamped(db.blobs, server) ==
        set id | id in db.blobs && db.blobs[id].state.Processing? && db.blobs[id].state.serverName == server;
      assert Matching(db.blobs, db.blobs.Keys, StampedBy(server)) == Stamped(db.blobs, server);
      reclaimed := RequeueMatching(StampedBy(server), now);
    }

    /** The promotion loop of the script below. */
    method PromoteEach(from: Kind, due: seq<Id>, now: Time) returns (claimed: seq<Job>, ghost mids: seq<Redis>)
      requires Distinct(due) && forall i :: 0 <= i < |due| ==> due[i] in db.blobs
      modifies this
      ensures PromotesInTurn(mids, from, due, now) && mids[0] == old(db) && mids[|due|] == db
      ensures ArePromoted(old(db).blobs, due, claimed, now)
    {
      claimed, mids := [], [db];
      assert due[..0] == [];
      for i := 0 to |due|
        invariant PromotesInTurn(mids, from, due[..i], now) && mids[0] == old(db) && mids[i] == db
        invariant db.blobs == Requeue(old(db).blobs, Elements(due[..i]), now)
        invariant ArePromoted(old(db).blobs, due[..i], claimed, now)
      {
        Growing(due, i);
        RequeueOneMore(old(db).blobs, Elements(due[..i]), due[i], now);
        PromoteNext(mids, from, due, i, now);
        AnotherPromotion(old(db).blobs, due, i, claimed, now);
        db := Promoted(db, from, due[i], now);
        mids := mids + [db];
        claimed := claimed + [db.blobs[due[i]]];
      }
      assert due[..|due|] == due;
    }

    /** The promotion script. */
    method ClaimDue(from: Kind, now: Time, limit: nat) returns (claimed: seq<Job>, ids: seq<Id>)
      modifies this
      ensures IsClaim(old(db), from, now, limit, ids, db)
      ensures ArePromoted(old(db).blobs, ids, claimed, Micros(now))
      ensures ArePutBack(old(db).blobs, ids, claimed, Micros(now))
    {
      ghost var before := db;
      if limit == 0 {
        return [], [];
      }
      ids := SortAndTake(IndexedDueKeys(db, from, now), limit);
      db := Undrifted(db, from);
      ghost var mids;
      DueIds(before, from, now, ids);
      claimed, mids := PromoteEach(from, ids, Micros(now));
      IsClaimBy(before, from, now, limit, ids, mids);
      PromotedArePutBack(before.blobs, ids, claimed, Micros(now));
    }

    /** Peek at the top of each candidate set and keep the highest-scored of them. */
    method SelectBest(cands: seq<ZKey>) returns (best: Option<Id>)
      ensures IsTop(db, cands, best)
    {
      best := None;
      var at := Global;
      for i := 0 to |cands|
        invariant best.None? ==> forall j :: 0 <= j < i ==> Z(db.zsets, cands[j]) == map[]
        invariant best.Some? ==> at in cands && best.value in Z(db.zsets, at)
        invariant best.Some? ==> forall j, id :: 0 <= j < i && id in Z(db.zsets, cands[j]) ==>
          Z(db.zsets, cands[j])[id] <= Z(db.zsets, at)[best.value]
      {
        var top := Top(Z(db.zsets, cands[i]));
        if top.Some? && (best.None? || Z(db.zsets, cands[i])[top.value] > Z(db.zsets, at)[best.value]) {
          best, at := top, cands[i];
        }
      }
      TopOfTops(db, cands, best, at);
    }

    /** The fetch script: claim the best entry of the candidate sets, or clean it away if it cannot be claimed. */
    method FetchAndLockJob(worker: string, queues: Option<seq<string>>, now: Time)
      returns (r: Option<Job>, ghost best: Option<Id>)
      modifies this
      ensures IsTop(old(db), Candidates(queues), best)
      ensures db == Fetched(old(db), Candidates(queues), best, worker, now)
      ensures r == FetchAnswer(old(db), best, worker, now)
      ensures r.Some? <==>
        && best.Some? && best.value in old(db).blobs
        && (old(db).blobs[best.value].state.Enqueued? || old(db).blobs[best.value].state.AwaitingRetry?)
      ensures r.Some? ==>
        && r.value == old(db).blobs[best.value].(state := Processing(now - now % 1000, worker, "redis-storage"))
        && db.blobs == old(db).blobs[best.value := r.value]
      ensures r.None? ==> db.blobs == old(db).blobs
    {
      var cands := Candidates(queues);
      var found := SelectBest(cands);
      best := found;
      if found.None? {
        return None, None;
      }
      var id := found.value;
      if !Claimable(db, id) {
        db := Cleaned(db, cands, id);
        return None, best;
      }
      var job := db.blobs[id];
      r := Some(RedisClaimed(job, worker, now));
      db := Rewrite(db, id, r.value, job.state.Kind(), job.queue);
    }

    /** On consistent indices the listing is that of a scan. */
    method List(kind: Option<Kind>, limit: Option<nat>, offset: Option<nat>) returns (out: seq<Job>)
      ensures Consistent(db) ==> M.IsListing(db.blobs, kind, limit, offset, out)
      ensures Consistent(db) ==> M.IsPage(db.blobs, kind, limit, offset, out)
    {
      var ids := if kind.Some? then Members(db.states, kind.value) else db.all;
      var keys := map id | id in ids && id in db.blobs :: Key(-db.blobs[id].createdAt, 0, "");
      var full := Sort(keys);
      forall x | x in full
        ensures x in db.blobs
      {
        assert x in Elements(full);
      }
      out := M.Lookup(db.blobs, M.Page(full, limit, offset));
      if Consistent(db) {
        assert keys == M.NewestKeys(db.blobs, kind);
        M.ListingIsPage(db.blobs, kind, limit, offset, out);
      }
    }

    /** On consistent indices the counts are those of a scan. */
    method GetJobCounts() returns (counts: map<Kind, nat>)
      ensures Consistent(db) ==> counts == M.CountsByScan(db.blobs)
      ensures Consistent(db) ==> forall k ::
        k in counts <==> exists id :: id in db.blobs && db.blobs[id].state.Kind() == k
      ensures Consistent(db) ==> forall k :: k in counts ==>
        counts[k] == |set id | id in db.blobs && db.blobs[id].state.Kind() == k|
    {
      counts := map[];
      var rest := db.counts.Keys;
      while rest != {}
        invariant rest <= db.counts.Keys
        invariant counts == map k | k in db.counts && k !in rest && db.counts[k] > 0 :: db.counts[k]
        decreases rest
      {
        var k :| k in rest;
        if db.counts[k] > 0 {
          counts := counts[k := db.counts[k]];
        }
        rest := rest - {k};
      }
      if Consistent(db) {
        CountsAgree(db, counts);
      }
    }
  }

  // ----- proofs of the loops -----

  /** The ids of `done` have been looked at and the `n` matching ones put back. */
  ghost predicate PartlyRequeued(r: Redis, t: Redis, done: set<Id>, c: Criterion, now: Time, n: nat) {
    && Consistent(t)
    && t.blobs == Requeue(r.blobs, Matching(r.blobs, done, c), now)
    && n == |Matching(r.blobs, done, c)|
  }

  /** Only Processing jobs can match, and on consistent indices they are all in the processing set. */
  lemma ProcessingIsAll(r: Redis, c: Criterion)
    requires Consistent(r)
    ensures Matching(r.blobs, Members(r.states, ProcessingKind), c) == Matching(r.blobs, r.blobs.Keys, c)
  {
  }

  lemma MatchingOneMore(blobs: JobMap, done: set<Id>, id: Id, c: Criterion)
    requires id !in done
    ensures var before := Matching(blobs, done, c); var after := Matching(blobs, done + {id}, c);
      && id !in before
      && after == (if id in blobs && Matches(blobs[id], c) then before + {id} else before)
      && |after| == |before| + (if id in blobs && Matches(blobs[id], c) then 1 else 0)
  {
    var before := Matching(blobs, done, c);
    assert Matching(blobs, done + {id}, c) == if id in blobs && Matches(blobs[id], c) then before + {id} else before;
  }

  lemma RequeueHit(r: Redis, t: Redis, done: set<Id>, id: Id, c: Criterion, now: Time, n: nat)
    requires PartlyRequeued(r, t, done, c, now, n) && id !in done && id in t.blobs && Matches(t.blobs[id], c)
    ensures PartlyRequeued(r, UpdateScript(t, t.blobs[id].Requeued(now), true), done + {id}, c, now, n + 1)
  {
    MatchingOneMore(r.blobs, done, id, c);
    RequeueOneMore(r.blobs, Matching(r.blobs, done, c), id, now);
    UpdateKeepsConsistent(t, t.blobs[id].Requeued(now), true);
    ScriptBlobs(t, t.blobs[id].Requeued(now), EnqueuedKind, true);
  }

  lemma RequeueStep(r: Redis, t: Redis, done: set<Id>, id: Id, c: Criterion, now: Time, n: nat)
    requires PartlyRequeued(r, t, done, c, now, n) && id !in done
    ensures if id in t.blobs && Matches(t.blobs[id], c)
            then PartlyRequeued(r, UpdateScript(t, t.blobs[id].Requeued(now), true), done + {id}, c, now, n + 1)
            else PartlyRequeued(r, t, done + {id}, c, now, n)
  {
    if id in t.blobs && Matches(t.blobs[id], c) {
      RequeueHit(r, t, done, id, c, now, n);
    } else {
      MatchingOneMore(r.blobs, done, id, c);
    }
  }

  function PastIds(blobs: JobMap, now: Time): set<Id> {
    set id | id in blobs && IsPast(blobs[id], now)
  }

  /** This backend's sweep leaves alone, of the jobs the in-memory sweep would remove, those expiring at its reading. */
  lemma SweepsDifferBy(blobs: JobMap, now: Time)
    ensures forall id :: id in blobs ==>
      (id in PastIds(blobs, now) <==> id in ExpiredIds(blobs, now) && blobs[id].expiresAt != Some(now))
  {
  }

  function PastAmong(blobs: JobMap, ids: set<Id>, now: Time): set<Id> {
    set id | id in ids && id in blobs && IsPast(blobs[id], now)
  }

  lemma ExpireKeeps(r: Redis, id: Id, now: Time)
    requires Consistent(r)
    ensures Consistent(ExpiredOne(r, id, now))
    ensures ExpiredOne(r, id, now).blobs ==
      if id in r.blobs && IsPast(r.blobs[id], now) then r.blobs - {id} else r.blobs
  {
    if id in r.blobs && IsPast(r.blobs[id], now) {
      RemoveIsDrop(r, id);
      DropKeepsConsistent(r, id, Removed(r, id));
    }
  }

  lemma PastOneMore(blobs: JobMap, done: set<Id>, id: Id, now: Time)
    requires id in blobs && id !in done
    ensures var past := PastAmong(blobs, done, now); var more := PastAmong(blobs, done + {id}, now);
      && id !in past
      && more == (if IsPast(blobs[id], now) then past + {id} else past)
      && blobs - more == (if IsPast(blobs[id], now) then blobs - past - {id} else blobs - past)
  {
    var past, more := PastAmong(blobs, done, now), PastAmong(blobs, done + {id}, now);
    assert more == if IsPast(blobs[id], now) then past + {id} else past;
  }

  /** The ids of `done` have been looked at and the `n` expired ones removed. */
  ghost predicate PartlySwept(r: Redis, t: Redis, done: set<Id>, now: Time, n: nat) {
    && r.all == r.blobs.Keys
    && Consistent(t)
    && t.blobs == r.blobs - PastAmong(r.blobs, done, now)
    && n == |PastAmong(r.blobs, done, now)|
  }

  lemma SweepStep(r: Redis, t: Redis, done: set<Id>, id: Id, now: Time, n: nat)
    requires PartlySwept(r, t, done, now, n) && id !in done && id in r.all
    ensures PartlySwept(r, ExpiredOne(t, id, now), done + {id}, now,
                        if id in t.blobs && IsPast(t.blobs[id], now) then n + 1 else n)
  {
    ExpireKeeps(t, id, now);
    PastOneMore(r.blobs, done, id, now);
  }

  lemma PromoteNext(mids: seq<Redis>, from: Kind, due: seq<Id>, i: nat, now: Time)
    requires i < |due| && PromotesInTurn(mids, from, due[..i], now) && due[i] in mids[i].blobs
    ensures PromotesInTurn(mids + [Promoted(mids[i], from, due[i], now)], from, due[..i + 1], now)
  {
    var next, mids' := due[..i + 1], mids + [Promoted(mids[i], from, due[i], now)];
    forall j | 0 <= j < |next|
      ensures PromotesAt(mids', from, next, now, j)
    {
      if j < i {
        assert PromotesAt(mids, from, due[..i], now, j);
        assert next[j] == due[..i][j] && mids'[j] == mids[j] && mids'[j + 1] == mids[j + 1];
      }
    }
  }

  lemma TopOfTops(r: Redis, cands: seq<ZKey>, found: Option<Id>, at: ZKey)
    requires found.None? ==> forall j :: 0 <= j < |cands| ==> Z(r.zsets, cands[j]) == map[]
    requires found.Some? ==> at in cands && found.value in Z(r.zsets, at)
    requires found.Some? ==> forall j, id :: 0 <= j < |cands| && id in Z(r.zsets, cands[j]) ==>
      Z(r.zsets, cands[j])[id] <= Z(r.zsets, at)[found.value]
    ensures IsTop(r, cands, found)
  {
    if found.Some? {
      forall other, id | other in cands && id in Z(r.zsets, other)
        ensures Z(r.zsets, other)[id] <= Z(r.zsets, at)[found.value]
      {
        var j :| 0 <= j < |cands| && cands[j] == other;
      }
    }
  }

  lemma CountsAgree(r: Redis, counts: map<Kind, nat>)
    requires Consistent(r)
    requires counts == map k | k in r.counts && r.counts[k] > 0 :: r.counts[k]
    ensures counts == M.CountsByScan(r.blobs)
  {
    var scan := M.CountsByScan(r.blobs);
    forall k: Kind
      ensures k in counts <==> k in scan
      ensures k in counts ==> counts[k] == |IdsOfKind(r.blobs, k)|
    {
      assert Count(r.counts, k) == |IdsOfKind(r.blobs, k)|;
      if k in scan {
        var id :| id in r.blobs && r.blobs[id].state.Kind() == k;
        assert id in IdsOfKind(r.blobs, k);
      }
      if k in counts {
        var id :| id in IdsOfKind(r.blobs, k);
        assert r.blobs[id].state.Kind() == k;
        assert k in M.KindsOf(r.blobs);
      }
    }
  }
}
