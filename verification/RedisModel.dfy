/**
 The Redis backend: job blobs and the indices derived from them (one id set per state, a counts hash, the
 set of all ids, and sorted sets of available jobs, one global and one per queue), as the commands and
 scripts change them.
 */
module RedisModel {
  import opened JobModel
  import opened Ranking
  import opened JobTable
  import T = Timestamps

  type ZSet = map<Id, real>

  /** The sorted set of all available jobs, or that of one queue. */
  datatype ZKey = Global | Queue(name: string)

  datatype Redis = Redis(
    blobs: JobMap,
    states: map<Kind, set<Id>>,
    counts: map<Kind, int>,
    all: set<Id>,
    zsets: map<ZKey, ZSet>)

  const EMPTY := Redis(map[], map[], map[], {}, map[])

  // A missing key reads as empty.

  function Members(states: map<Kind, set<Id>>, k: Kind): set<Id> {
    if k in states then states[k] else {}
  }

  function Count(counts: map<Kind, int>, k: Kind): int {
    if k in counts then counts[k] else 0
  }

  function Z(zsets: map<ZKey, ZSet>, key: ZKey): ZSet {
    if key in zsets then zsets[key] else map[]
  }

  // ----- single commands -----

  function Set(r: Redis, id: Id, job: Job): Redis {
    r.(blobs := r.blobs[id := job])
  }

  function Del(r: Redis, id: Id): Redis {
    r.(blobs := r.blobs - {id})
  }

  function SAdd(r: Redis, k: Kind, id: Id): (t: Redis)
    ensures t == r.(states := t.states)
    ensures forall o :: Members(t.states, o) == if o == k then Members(r.states, o) + {id} else Members(r.states, o)
  {
    r.(states := r.states[k := Members(r.states, k) + {id}])
  }

  function SRem(r: Redis, k: Kind, id: Id): (t: Redis)
    ensures t == r.(states := t.states)
    ensures forall o :: Members(t.states, o) == if o == k then Members(r.states, o) - {id} else Members(r.states, o)
  {
    r.(states := r.states[k := Members(r.states, k) - {id}])
  }

  function SAddAll(r: Redis, id: Id): Redis {
    r.(all := r.all + {id})
  }

  function SRemAll(r: Redis, id: Id): Redis {
    r.(all := r.all - {id})
  }

  function HIncr(r: Redis, k: Kind, n: int): (t: Redis)
    ensures t == r.(counts := t.counts)
    ensures forall o :: Count(t.counts, o) == if o == k then Count(r.counts, o) + n else Count(r.counts, o)
  {
    r.(counts := r.counts[k := Count(r.counts, k) + n])
  }

  function ZAdd(r: Redis, key: ZKey, id: Id, score: real): (t: Redis)
    ensures t == r.(zsets := t.zsets)
    ensures forall o :: Z(t.zsets, o) == if o == key then Z(r.zsets, o)[id := score] else Z(r.zsets, o)
  {
    r.(zsets := r.zsets[key := Z(r.zsets, key)[id := score]])
  }

  function ZRem(r: Redis, key: ZKey, id: Id): (t: Redis)
    ensures t == r.(zsets := t.zsets)
    ensures forall o :: Z(t.zsets, o) == if o == key then Z(r.zsets, o) - {id} else Z(r.zsets, o)
  {
    r.(zsets := r.zsets[key := Z(r.zsets, key) - {id}])
  }

  // ----- composite operations -----

  /** Creation time in milliseconds since 1970. */
  function CreatedMillis(job: Job): (r: int)
    ensures 1_000_000 * r <= job.createdAt - EPOCH < 1_000_000 * (r + 1)
  {
    (job.createdAt - EPOCH) / 1_000_000
  }

  function Score(job: Job): (r: real)
    ensures 1_000_000.0 * r == (1_000_000 * job.priority + CreatedMillis(job)) as real
  {
    job.priority as real + CreatedMillis(job) as real / 1_000_000.0
  }

  /** The global sorted set and that of the queue. */
  predicate IsOwn(key: ZKey, queue: string) {
    key == Global || key == Queue(queue)
  }

  /** Entries of `id` in its own sets get `score`; every other entry keeps its score. */
  ghost predicate PutsScore(r: Redis, id: Id, queue: string, score: real, t: Redis) {
    forall key, x :: x in Z(t.zsets, key) ==>
      if x == id && IsOwn(key, queue) then Z(t.zsets, key)[x] == score
      else x in Z(r.zsets, key) && Z(t.zsets, key)[x] == Z(r.zsets, key)[x]
  }

  /** Enter or leave the global and the per-queue sorted set. */
  function Ranked(r: Redis, available: bool, queue: string, id: Id, score: real): (t: Redis)
    ensures t == r.(zsets := t.zsets)
    ensures forall key, x :: x in Z(t.zsets, key) <==>
      if x == id && (key == Global || key == Queue(queue)) then available else x in Z(r.zsets, key)
    ensures PutsScore(r, id, queue, score, t)
  {
    if available then ZAdd(ZAdd(r, Global, id, score), Queue(queue), id, score)
    else ZRem(ZRem(r, Global, id), Queue(queue), id)
  }

  /** Move an id from one state set and count to another. */
  function Moved(r: Redis, id: Id, from: Kind, to: Kind): (t: Redis)
    ensures t == r.(states := t.states, counts := t.counts)
    ensures forall k, x :: x in Members(t.states, k) <==>
      if x == id && (k == from || k == to) then k == to else x in Members(r.states, k)
    ensures forall k ::
      Count(t.counts, k) == Count(r.counts, k) - (if k == from then 1 else 0) + (if k == to then 1 else 0)
  {
    HIncr(HIncr(SAdd(SRem(r, from, id), to, id), from, -1), to, 1)
  }

  /** Enter a state set, the set of all ids and a count. */
  function Listed(r: Redis, id: Id, k: Kind): (t: Redis)
    ensures t == r.(states := t.states, counts := t.counts, all := r.all + {id})
    ensures forall o, x :: x in Members(t.states, o) <==> x in Members(r.states, o) || (x == id && o == k)
    ensures forall o :: Count(t.counts, o) == Count(r.counts, o) + (if o == k then 1 else 0)
  {
    HIncr(SAddAll(SAdd(r, k, id), id), k, 1)
  }

  /** Enqueue: store the blob, then index it. `available` was decided by an earlier clock reading. */
  function Added(r: Redis, job: Job, available: bool): Redis {
    var r := Listed(Set(r, job.id, job), job.id, job.state.Kind());
    Ranked(r, available, job.queue, job.id, Score(job))
  }

  /**
   Replace the blob of an id, move it from the state set and count of `from` to those of its new kind, and
   enter or leave the sorted sets. Promotion, update, compare-and-swap and fetch all come down to this.
   */
  function Rewritten(r: Redis, id: Id, job: Job, from: Kind, available: bool, queue: string, score: real): (t: Redis)
    ensures t == r.(blobs := r.blobs[id := job], states := t.states, counts := t.counts, zsets := t.zsets)
    ensures forall key, x :: x in Z(t.zsets, key) <==>
      if x == id && (key == Global || key == Queue(queue)) then available else x in Z(r.zsets, key)
    ensures var to := job.state.Kind();
      if from == to then t.states == r.states && t.counts == r.counts
      else
        && (forall k, x :: x in Members(t.states, k) <==>
              if x == id && (k == from || k == to) then k == to else x in Members(r.states, k))
        && (forall k :: Count(t.counts, k) ==
              Count(r.counts, k) - (if k == from then 1 else 0) + (if k == to then 1 else 0))
    ensures PutsScore(r, id, queue, score, t)
  {
    var to := job.state.Kind();
    var r := Set(r, id, job);
    var r := if from != to then Moved(r, id, from, to) else r;
    Ranked(r, available, queue, id, score)
  }

  /** The update script: the old state is read from the stored blob. */
  function UpdateScript(r: Redis, job: Job, available: bool): (t: Redis)
    ensures t.all == if job.id in r.blobs then r.all + {r.blobs[job.id].id} else r.all
  {
    if job.id !in r.blobs then r
    else
      var stored := r.blobs[job.id];
      Rewritten(SAddAll(r, stored.id), job.id, job, stored.state.Kind(), available, stored.queue, Score(job))
  }

  /** The compare-and-swap script: applied only if the stored blob has the expected kind. */
  function CasScript(r: Redis, job: Job, expected: Kind, available: bool): Redis {
    if CasAnswer(r.blobs, job, expected) != Ok(true) then r
    else Rewritten(r, job.id, job, expected, available, r.blobs[job.id].queue, Score(job))
  }

  /** Take a job out of every index. */
  function Unindexed(r: Redis, id: Id, job: Job): Redis {
    var k := job.state.Kind();
    var r := SRemAll(SRem(r, k, id), id);
    HIncr(ZRem(ZRem(r, Global, id), Queue(job.queue), id), k, -1)
  }

  function Removed(r: Redis, id: Id): Redis {
    if id in r.blobs then Unindexed(Del(r, id), id, r.blobs[id]) else r
  }

  /** This backend sweeps strictly past the expiry. */
  predicate IsPast(job: Job, now: Time) {
    job.expiresAt.Some? && job.expiresAt.value < now
  }

  /** One round of the expiry sweep. */
  function ExpiredOne(r: Redis, id: Id, now: Time): Redis {
    if id in r.blobs && IsPast(r.blobs[id], now) then Del(Unindexed(r, id, r.blobs[id]), id) else r
  }

  // ----- promotion of due jobs -----

  /** When a job waiting in state `from` comes due. */
  function DueAt(job: Job, from: Kind): Option<Time> {
    if job.state.Kind() != from then None
    else
      match job.state
      case Scheduled(_, at, _) => Some(at)
      case AwaitingRetry(_, at, _) => Some(at)
      case _ => None
  }

  /** The script's test: the stored time and `now` compared as strings. */
  predicate IsDueByText(job: Job, from: Kind, now: Time) {
    DueAt(job, from).Some? && T.DueByText(DueAt(job, from).value, now)
  }

  /** The script's order: highest priority first, then by the text of the creation time. */
  function TextKey(job: Job): Key {
    Key(-job.priority, 0, T.StoredText(job.createdAt))
  }

  /** What the script selects from: the state set, looked up in the blobs. */
  function IndexedDueKeys(r: Redis, from: Kind, now: Time): map<Id, Key> {
    map id | id in Members(r.states, from) && id in r.blobs && IsDueByText(r.blobs[id], from, now) ::
      TextKey(r.blobs[id])
  }

  /** A reading as the scripts receive and store it: cut to microseconds. */
  function Micros(now: Time): (r: Time)
    ensures r <= now < r + 1000 && exists q :: r == 1000 * q
  {
    assert now - now % 1000 == 1000 * (now / 1000);
    now - now % 1000
  }

  /** Ids in the state set without a blob are dropped from it. */
  function Undrifted(r: Redis, from: Kind): (t: Redis)
    ensures t == r.(states := t.states)
    ensures forall k ::
      Members(t.states, k) == if k == from then Members(r.states, k) * r.blobs.Keys else Members(r.states, k)
  {
    if from in r.states then r.(states := r.states[from := Members(r.states, from) * r.blobs.Keys]) else r
  }

  function Promoted(r: Redis, from: Kind, id: Id, now: Time): (t: Redis)
    requires id in r.blobs
    ensures t.blobs == r.blobs[id := r.blobs[id].Requeued(now)]
  {
    var job := r.blobs[id].Requeued(now);
    Rewritten(r, id, job, from, true, job.queue, job.priority as real)
  }

  /** The states of the store while the script promotes `ids` one after the other. */
  ghost predicate PromotesInTurn(mids: seq<Redis>, from: Kind, ids: seq<Id>, now: Time) {
    && |mids| == |ids| + 1
    && forall i :: 0 <= i < |ids| ==> PromotesAt(mids, from, ids, now, i)
  }

  ghost predicate PromotesAt(mids: seq<Redis>, from: Kind, ids: seq<Id>, now: Time, i: nat)
    requires i < |ids| < |mids|
  {
    ids[i] in mids[i].blobs && mids[i + 1] == Promoted(mids[i], from, ids[i], now)
  }

  ghost predicate IsClaim(r: Redis, from: Kind, now: Time, limit: nat, ids: seq<Id>, t: Redis) {
    if limit == 0 then ids == [] && t == r
    else
      && TopPrefix(IndexedDueKeys(r, from, now), limit, ids)
      && exists mids ::
           PromotesInTurn(mids, from, ids, Micros(now)) && mids[0] == Undrifted(r, from) && mids[|ids|] == t
  }

  // ----- fetch -----

  const REDIS_SERVER := "redis-storage"

  /** The sorted sets a fetch looks at. */
  function Candidates(queues: Option<seq<string>>): (c: seq<ZKey>)
    ensures c != []
    ensures queues.None? || queues.value == [] ==> c == [Global]
    ensures queues.Some? && queues.value != [] ==>
      |c| == |queues.value| && forall i :: 0 <= i < |c| ==> c[i] == Queue(queues.value[i])
  {
    if queues.Some? && queues.value != [] then
      seq(|queues.value|, i requires 0 <= i < |queues.value| => Queue(queues.value[i]))
    else [Global]
  }

  function Entries(r: Redis, cands: seq<ZKey>): set<Id> {
    set key, id | key in cands && id in Z(r.zsets, key) :: id
  }

  /** The highest-scored entry of all candidate sets together, if there is one. */
  ghost predicate IsTop(r: Redis, cands: seq<ZKey>, best: Option<Id>) {
    match best
    case None => Entries(r, cands) == {}
    case Some(b) =>
      exists key :: key in cands && b in Z(r.zsets, key)
        && forall other, id :: other in cands && id in Z(r.zsets, other) ==> Z(r.zsets, other)[id] <= Z(r.zsets, key)[b]
  }

  /** A blob a fetch may claim. */
  predicate Claimable(r: Redis, id: Id) {
    id in r.blobs && (r.blobs[id].state.Enqueued? || r.blobs[id].state.AwaitingRetry?)
  }

  function Cleaned(r: Redis, cands: seq<ZKey>, id: Id): (t: Redis)
    ensures t == r.(zsets := t.zsets)
    ensures forall o :: Z(t.zsets, o) == if o in cands || o == Global then Z(r.zsets, o) - {id} else Z(r.zsets, o)
  {
    if cands == [] then ZRem(r, Global, id)
    else ZRem(Cleaned(r, cands[1..], id), cands[0], id)
  }

  function RedisClaimed(job: Job, worker: string, now: Time): Job {
    job.(state := Processing(Micros(now), worker, REDIS_SERVER))
  }

  function Taken(r: Redis, id: Id, worker: string, now: Time): Redis
    requires id in r.blobs
  {
    var job := r.blobs[id];
    Rewritten(r, id, RedisClaimed(job, worker, now), job.state.Kind(), false, job.queue, 0.0)
  }

  /** The store after a fetch whose best entry was `best`. */
  function Fetched(r: Redis, cands: seq<ZKey>, best: Option<Id>, worker: string, now: Time): Redis {
    if best.None? then r
    else if Claimable(r, best.value) then Taken(r, best.value, worker, now)
    else Cleaned(r, cands, best.value)
  }

  /** What that fetch returns. */
  function FetchAnswer(r: Redis, best: Option<Id>, worker: string, now: Time): Option<Job> {
    if best.Some? && Claimable(r, best.value) then Some(RedisClaimed(r.blobs[best.value], worker, now)) else None
  }
}
