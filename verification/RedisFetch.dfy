/** Redis fetches when the indices may have drifted: no double dispatch, and bounded waste on stale entries. */
module RedisFetch {
  import opened JobModel
  import opened Ranking
  import opened JobTable
  import opened RedisModel
  import opened RedisIndex

  // ----- no double dispatch -----

  /** Everything the server runs atomically: the single commands of enqueue and delete, and the scripts. */
  datatype Atom =
    | SetAtom(id: Id, job: Job)
    | DelAtom(id: Id)
    | SAddAtom(kind: Kind, id: Id)
    | SRemAtom(kind: Kind, id: Id)
    | SAddAllAtom(id: Id)
    | SRemAllAtom(id: Id)
    | HIncrAtom(kind: Kind, n: int)
    | ZAddAtom(key: ZKey, id: Id, score: real)
    | ZRemAtom(key: ZKey, id: Id)
    | UpdateAtom(job: Job, available: bool)
    | CasAtom(job: Job, expected: Kind, available: bool)
    | ClaimAtom(from: Kind, now: Time, limit: nat, ids: seq<Id>)
    | FetchAtom(worker: string, cands: seq<ZKey>, now: Time, best: Option<Id>)

  ghost predicate Runs(r: Redis, a: Atom, t: Redis) {
    match a
    case SetAtom(id, job) => t == Set(r, id, job)
    case DelAtom(id) => t == Del(r, id)
    case SAddAtom(kind, id) => t == SAdd(r, kind, id)
    case SRemAtom(kind, id) => t == SRem(r, kind, id)
    case SAddAllAtom(id) => t == SAddAll(r, id)
    case SRemAllAtom(id) => t == SRemAll(r, id)
    case HIncrAtom(kind, n) => t == HIncr(r, kind, n)
    case ZAddAtom(key, id, score) => t == ZAdd(r, key, id, score)
    case ZRemAtom(key, id) => t == ZRem(r, key, id)
    case UpdateAtom(job, available) => t == UpdateScript(r, job, available)
    case CasAtom(job, expected, available) => t == CasScript(r, job, expected, available)
    case ClaimAtom(from, now, limit, ids) => IsClaim(r, from, now, limit, ids, t)
    case FetchAtom(worker, cands, now, best) => IsTop(r, cands, best) && t == Fetched(r, cands, best, worker, now)
  }

  /** Any interleaving, from any contents of the store whatsoever. */
  ghost predicate IsTrace(tr: seq<Redis>, atoms: seq<Atom>) {
    && |tr| == |atoms| + 1
    && forall i :: 0 <= i < |atoms| ==> RunsAt(tr, atoms, i)
  }

  ghost predicate RunsAt(tr: seq<Redis>, atoms: seq<Atom>, i: nat)
    requires i < |atoms| < |tr|
  {
    Runs(tr[i], atoms[i], tr[i + 1])
  }

  /** The fetch hands out `id`. */
  ghost predicate Dispatches(r: Redis, a: Atom, id: Id) {
    a.FetchAtom? && a.best == Some(id) && FetchAnswer(r, a.best, a.worker, a.now).Some?
  }

  /** The atom writes the blob of `id`. */
  predicate WritesBlob(a: Atom, id: Id) {
    match a
    case SetAtom(i, _) => i == id
    case UpdateAtom(job, _) => job.id == id
    case CasAtom(job, _, _) => job.id == id
    case ClaimAtom(_, _, _, ids) => id in ids
    case _ => false
  }

  /** A write of the blob of `id` makes it Enqueued or AwaitingRetry when it was neither. */
  ghost predicate PutsBack(r: Redis, a: Atom, t: Redis, id: Id) {
    WritesBlob(a, id) && !Claimable(r, id) && Claimable(t, id)
  }

  lemma ClaimTouches(r: Redis, from: Kind, now: Time, limit: nat, ids: seq<Id>, t: Redis, id: Id)
    requires IsClaim(r, from, now, limit, ids, t) && id !in ids
    ensures id in t.blobs <==> id in r.blobs
    ensures id in r.blobs ==> t.blobs[id] == r.blobs[id]
  {
    if limit > 0 {
      var mids := ClaimStates(r, from, now, limit, ids, t);
      DueIds(r, from, now, ids);
      PromotedBatch(mids, from, ids, Micros(now));
      assert id !in Elements(ids);
    }
  }

  /** Only writes of its blob, deletions and fetches change what is stored for `id`. */
  lemma OthersKeepBlob(r: Redis, a: Atom, t: Redis, id: Id)
    requires Runs(r, a, t) && !WritesBlob(a, id) && !a.FetchAtom?
    ensures id in t.blobs ==> id in r.blobs && t.blobs[id] == r.blobs[id]
  {
    if a.ClaimAtom? {
      ClaimTouches(r, a.from, a.now, a.limit, a.ids, t, id);
    } else if a.UpdateAtom? || a.CasAtom? {
      ScriptBlobs(r, a.job, if a.CasAtom? then a.expected else EnqueuedKind, a.available);
    }
  }

  /** A fetch makes nothing claimable, and what it hands out stops being claimable. */
  lemma FetchUnclaims(r: Redis, cands: seq<ZKey>, best: Option<Id>, worker: string, now: Time, id: Id)
    ensures var t := Fetched(r, cands, best, worker, now);
      && (Claimable(t, id) ==> Claimable(r, id))
      && (best == Some(id) && FetchAnswer(r, best, worker, now).Some? ==> Claimable(r, id) && !Claimable(t, id))
  {
  }

  /** Only a write of its blob makes a job claimable, and handing it out makes it unclaimable. */
  lemma ClaimableChanges(r: Redis, a: Atom, t: Redis, id: Id)
    requires Runs(r, a, t)
    ensures !Claimable(r, id) && Claimable(t, id) ==> PutsBack(r, a, t, id)
    ensures Dispatches(r, a, id) ==> Claimable(r, id) && !Claimable(t, id)
  {
    if a.FetchAtom? {
      FetchUnclaims(r, a.cands, a.best, a.worker, a.now, id);
    } else if !WritesBlob(a, id) {
      OthersKeepBlob(r, a, t, id);
    }
  }

  /** Along the trace `id` becomes claimable only by being put back. */
  ghost predicate OnlyPutBack(tr: seq<Redis>, atoms: seq<Atom>, id: Id) {
    && |tr| == |atoms| + 1
    && forall i {:trigger atoms[i]} :: 0 <= i < |atoms| && !Claimable(tr[i], id) && Claimable(tr[i + 1], id) ==>
         PutsBack(tr[i], atoms[i], tr[i + 1], id)
  }

  lemma {:induction false} FindPutBack(tr: seq<Redis>, atoms: seq<Atom>, i: nat, j: nat, id: Id) returns (k: nat)
    requires OnlyPutBack(tr, atoms, id) && i < j < |tr| && !Claimable(tr[i], id) && Claimable(tr[j], id)
    ensures i <= k < j && PutsBack(tr[k], atoms[k], tr[k + 1], id)
    decreases j
  {
    var last := atoms[j - 1];
    if Claimable(tr[j - 1], id) {
      k := FindPutBack(tr, atoms, i, j - 1, id);
    } else {
      k := j - 1;
    }
  }

  lemma TraceOnlyPutsBack(tr: seq<Redis>, atoms: seq<Atom>, id: Id)
    requires IsTrace(tr, atoms)
    ensures OnlyPutBack(tr, atoms, id)
  {
    forall i | 0 <= i < |atoms| && !Claimable(tr[i], id) && Claimable(tr[i + 1], id)
      ensures PutsBack(tr[i], atoms[i], tr[i + 1], id)
    {
      assert RunsAt(tr, atoms, i);
      ClaimableChanges(tr[i], atoms[i], tr[i + 1], id);
    }
  }

  /** Two fetches hand out the same job only if a write in between put it back. */
  lemma NoDoubleDispatch(tr: seq<Redis>, atoms: seq<Atom>, i: nat, j: nat, id: Id) returns (k: nat)
    requires IsTrace(tr, atoms) && i < j < |atoms|
    requires Dispatches(tr[i], atoms[i], id) && Dispatches(tr[j], atoms[j], id)
    ensures i < k < j && PutsBack(tr[k], atoms[k], tr[k + 1], id)
  {
    TraceOnlyPutsBack(tr, atoms, id);
    DispatchTakes(tr, atoms, i, id);
    DispatchTakes(tr, atoms, j, id);
    k := FindPutBack(tr, atoms, i + 1, j, id);
  }

  lemma DispatchTakes(tr: seq<Redis>, atoms: seq<Atom>, i: nat, id: Id)
    requires IsTrace(tr, atoms) && i < |atoms| && Dispatches(tr[i], atoms[i], id)
    ensures Claimable(tr[i], id) && !Claimable(tr[i + 1], id)
  {
    assert RunsAt(tr, atoms, i);
    ClaimableChanges(tr[i], atoms[i], tr[i + 1], id);
  }

  // ----- bounded waste -----

  /** Entries of the candidate sets that no fetch can claim. */
  ghost function StaleEntries(r: Redis, cands: seq<ZKey>): set<Id> {
    set id | id in Entries(r, cands) && !Claimable(r, id)
  }

  lemma CleanEntry(r: Redis, cands: seq<ZKey>, b: Id, id: Id)
    ensures id in Entries(Cleaned(r, cands, b), cands) <==> id in Entries(r, cands) && id != b
  {
    var t := Cleaned(r, cands, b);
    assert forall key :: key in cands ==> (id in Z(t.zsets, key) <==> id in Z(r.zsets, key) && id != b);
    if id in Entries(r, cands) && id != b {
      var key :| key in cands && id in Z(r.zsets, key);
      assert id in Z(t.zsets, key);
    }
  }

  lemma CleanShrinks(r: Redis, cands: seq<ZKey>, b: Id)
    ensures Entries(Cleaned(r, cands, b), cands) == Entries(r, cands) - {b}
  {
    forall id
      ensures id in Entries(Cleaned(r, cands, b), cands) <==> id in Entries(r, cands) && id != b
    {
      CleanEntry(r, cands, b, id);
    }
  }

  /**
   A fetch that returns nothing found the candidate sets empty, or removed one stale entry and changed nothing else.
   */
  lemma WastedFetch(r: Redis, cands: seq<ZKey>, best: Option<Id>, worker: string, now: Time)
    requires IsTop(r, cands, best) && FetchAnswer(r, best, worker, now).None?
    ensures var t := Fetched(r, cands, best, worker, now);
      && t.blobs == r.blobs
      && if best.None? then Entries(r, cands) == {} && t == r
         else
           && best.value in StaleEntries(r, cands)
           && Entries(t, cands) == Entries(r, cands) - {best.value}
           && StaleEntries(t, cands) == StaleEntries(r, cands) - {best.value}
  {
    if best.Some? {
      CleanShrinks(r, cands, best.value);
    }
  }

  /**
   When the sorted sets are exact, a successful fetch also takes its entry out of the candidate sets, and only that
   one.
   */
  lemma SuccessfulFetchShrinks(r: Redis, clock: Time, queues: Option<seq<string>>, best: Option<Id>, worker: string,
                               now: Time)
    requires Consistent(r) && AvailableOk(r, clock) && IsTop(r, Candidates(queues), best)
    requires FetchAnswer(r, best, worker, now).Some?
    ensures var cands := Candidates(queues);
      && best.value in Entries(r, cands)
      && Entries(Fetched(r, cands, best, worker, now), cands) == Entries(r, cands) - {best.value}
  {
    var cands, b := Candidates(queues), best.value;
    var t := Fetched(r, cands, best, worker, now);
    RewriteIsPut(r, b, RedisClaimed(r.blobs[b], worker, now), false, 0.0);
    forall id
      ensures id in Entries(t, cands) <==> id in Entries(r, cands) && id != b
    {
      if id in Entries(r, cands) && id != b {
        var key :| key in cands && id in Z(r.zsets, key);
        assert id in Z(t.zsets, key);
      }
    }
  }

  /** Successive fetches over the same candidate sets, with nothing else going on. */
  datatype Call = Call(worker: string, now: Time, best: Option<Id>)

  ghost predicate IsFetchRun(tr: seq<Redis>, calls: seq<Call>, cands: seq<ZKey>) {
    && |tr| == |calls| + 1
    && forall i :: 0 <= i < |calls| ==> FetchesAt(tr, calls, cands, i)
  }

  ghost predicate FetchesAt(tr: seq<Redis>, calls: seq<Call>, cands: seq<ZKey>, i: nat)
    requires i < |calls| < |tr|
  {
    IsTop(tr[i], cands, calls[i].best)
    && tr[i + 1] == Fetched(tr[i], cands, calls[i].best, calls[i].worker, calls[i].now)
  }

  /**
   While some candidate set holds a claimable job, a fetch succeeds within one more call than there are stale
   entries.
   */
  lemma {:induction false} BoundedWaste(tr: seq<Redis>, calls: seq<Call>, cands: seq<ZKey>, id: Id) returns (k: nat)
    requires IsFetchRun(tr, calls, cands)
    requires id in Entries(tr[0], cands) && Claimable(tr[0], id)
    requires |calls| > |StaleEntries(tr[0], cands)|
    ensures k < |calls| && FetchAnswer(tr[k], calls[k].best, calls[k].worker, calls[k].now).Some?
    ensures k <= |StaleEntries(tr[0], cands)|
    decreases |calls|
  {
    var c := calls[0];
    if FetchAnswer(tr[0], c.best, c.worker, c.now).Some? {
      k := 0;
    } else {
      FirstWasted(tr, calls, cands, id);
      RestIsFetchRun(tr, calls, cands);
      k := BoundedWaste(tr[1..], calls[1..], cands, id);
      k := k + 1;
    }
  }

  /** After a first call that returned nothing the job is still listed, and there is one stale entry less. */
  lemma FirstWasted(tr: seq<Redis>, calls: seq<Call>, cands: seq<ZKey>, id: Id)
    requires IsFetchRun(tr, calls, cands) && calls != []
    requires id in Entries(tr[0], cands) && Claimable(tr[0], id)
    requires FetchAnswer(tr[0], calls[0].best, calls[0].worker, calls[0].now).None?
    ensures id in Entries(tr[1], cands) && Claimable(tr[1], id)
    ensures |StaleEntries(tr[1], cands)| == |StaleEntries(tr[0], cands)| - 1
  {
    assert FetchesAt(tr, calls, cands, 0);
    var c := calls[0];
    WastedFetch(tr[0], cands, c.best, c.worker, c.now);
  }

  lemma RestIsFetchRun(tr: seq<Redis>, calls: seq<Call>, cands: seq<ZKey>)
    requires IsFetchRun(tr, calls, cands) && calls != []
    ensures IsFetchRun(tr[1..], calls[1..], cands)
  {
    forall i | 0 <= i < |calls[1..]|
      ensures FetchesAt(tr[1..], calls[1..], cands, i)
    {
      assert FetchesAt(tr, calls, cands, i + 1);
    }
  }

  /** When the sorted sets are exact, every Enqueued job of a listed queue is among the entries a fetch looks at. */
  lemma EnqueuedIsListed(r: Redis, clock: Time, queues: Option<seq<string>>, id: Id)
    requires AvailableOk(r, clock) && id in r.blobs && r.blobs[id].state.Enqueued? && QueueMatches(r.blobs[id], queues)
    ensures id in Entries(r, Candidates(queues)) && Claimable(r, id)
  {
    var cands := Candidates(queues);
    if queues.Some? && queues.value != [] {
      var i :| 0 <= i < |queues.value| && queues.value[i] == r.blobs[id].queue;
      assert cands[i] == Queue(r.blobs[id].queue);
    } else {
      assert cands[0] == Global;
    }
  }
}
