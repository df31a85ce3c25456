/**
 The promotion script compares times as text: exactly when it selects what the in-memory store would, and how far off
 it can be.
 */
module RedisClaim {
  import opened JobModel
  import opened Ranking
  import opened JobTable
  import opened RedisModel
  import opened RedisIndex
  import T = Timestamps

  /** The times a claim looks at have years that four digits can show. */
  ghost predicate Renderable(blobs: JobMap, from: Kind, now: Time) {
    && T.Shown(now)
    && forall id :: id in blobs && DueAt(blobs[id], from).Some? ==>
         T.Shown(DueAt(blobs[id], from).value) && T.Shown(blobs[id].createdAt)
  }

  /** Its due time, if it waits in this state, is one the script's test gets right. */
  predicate DueIsClear(job: Job, from: Kind, now: Time) {
    DueAt(job, from).Some? && T.Shown(DueAt(job, from).value) && T.Shown(now) ==> T.IsClear(DueAt(job, from).value, now)
  }

  /** Their priorities differ, or their creation times are written alike or differ in the digits both show. */
  predicate AgesAreClear(x: Job, y: Job)
    requires T.Shown(x.createdAt) && T.Shown(y.createdAt)
  {
    var t, u := x.createdAt, y.createdAt;
    x.priority != y.priority
    || T.StoredWidth(t) == T.StoredWidth(u) || !T.SameShown(t, T.StoredWidth(t), u, T.StoredWidth(u))
  }

  /** The script's due test of one job is the in-memory one exactly under that condition. */
  lemma DueAgreesIff(job: Job, from: Kind, now: Time)
    requires DueAt(job, from).Some? && T.Shown(DueAt(job, from).value) && T.Shown(now)
    ensures (IsDueByText(job, from, now) <==> IsDue(job, from, now)) <==> DueIsClear(job, from, now)
  {
    T.DueByTextIff(DueAt(job, from).value, now);
  }

  /** The script's order of two jobs is the in-memory one exactly under that condition. */
  lemma OrderAgreesIff(x: Job, y: Job)
    requires T.Shown(x.createdAt) && T.Shown(y.createdAt)
    ensures (Before(TextKey(x), TextKey(y)) <==> Before(RankKey(x), RankKey(y))) <==> AgesAreClear(x, y)
  {
    T.OlderByTextIff(x.createdAt, y.createdAt);
  }

  lemma CandidateIff(r: Redis, from: Kind, now: Time, id: Id)
    requires Consistent(r) && Renderable(r.blobs, from, now) && id in r.blobs
    ensures (id in IndexedDueKeys(r, from, now) <==> id in DueKeys(r.blobs, from, now))
      <==> DueIsClear(r.blobs[id], from, now)
  {
    if DueAt(r.blobs[id], from).Some? {
      DueAgreesIff(r.blobs[id], from, now);
    }
  }

  /** Two sets within `all` are equal exactly when they agree on each of its members. */
  lemma AgreeIff(all: set<Id>, a: set<Id>, b: set<Id>, agreed: set<Id>)
    requires a <= all && b <= all && agreed <= all
    requires forall id :: id in all ==> ((id in a <==> id in b) <==> id in agreed)
    ensures a == b <==> agreed == all
  {
  }

  function ClearIds(blobs: JobMap, from: Kind, now: Time): set<Id> {
    set id | id in blobs && DueIsClear(blobs[id], from, now)
  }

  /** On consistent indices the script sees exactly the due jobs just when every waiting job's due time is clear. */
  lemma CandidatesAgreeIff(r: Redis, from: Kind, now: Time)
    requires Consistent(r) && Renderable(r.blobs, from, now)
    ensures IndexedDueKeys(r, from, now).Keys == DueKeys(r.blobs, from, now).Keys
        <==> ClearIds(r.blobs, from, now) == r.blobs.Keys
  {
    var a, b := IndexedDueKeys(r, from, now).Keys, DueKeys(r.blobs, from, now).Keys;
    var clear := ClearIds(r.blobs, from, now);
    forall id | id in r.blobs.Keys
      ensures (id in a <==> id in b) <==> id in clear
    {
      CandidateIff(r, from, now, id);
    }
    AgreeIff(r.blobs.Keys, a, b, clear);
  }

  /** Every waiting due time is clear, and so are the ages of every two due jobs. */
  ghost predicate AllClear(blobs: JobMap, from: Kind, now: Time)
    requires Renderable(blobs, from, now)
  {
    && ClearIds(blobs, from, now) == blobs.Keys
    && (forall x, y :: x in blobs && y in blobs && IsDue(blobs[x], from, now) && IsDue(blobs[y], from, now) ==>
          AgesAreClear(blobs[x], blobs[y]))
  }

  /** Whatever the script may select, the in-memory claim may select at the same reading. */
  ghost predicate SelectsAsMemory(r: Redis, from: Kind, now: Time) {
    forall limit: nat, ids: seq<Id> :: TopPrefix(IndexedDueKeys(r, from, now), limit, ids) ==>
      TopPrefix(DueKeys(r.blobs, from, now), limit, ids)
  }

  lemma ClearSelects(r: Redis, from: Kind, now: Time, limit: nat, ids: seq<Id>)
    requires Consistent(r) && Renderable(r.blobs, from, now) && AllClear(r.blobs, from, now)
    requires TopPrefix(IndexedDueKeys(r, from, now), limit, ids)
    ensures TopPrefix(DueKeys(r.blobs, from, now), limit, ids)
  {
    CandidatesAgreeIff(r, from, now);
    var seen, due := IndexedDueKeys(r, from, now), DueKeys(r.blobs, from, now);
    forall x, y | x in seen && y in seen
      ensures Before(seen[x], seen[y]) <==> Before(due[x], due[y])
    {
      assert x in due.Keys && y in due.Keys;
      OrderAgreesIff(r.blobs[x], r.blobs[y]);
    }
    SameOrder(seen, due, limit, ids);
  }

  /** A list sorted by both orders never has a pair that they order strictly and oppositely. */
  lemma NoOpposites(seen: map<Id, Key>, due: map<Id, Key>, s: seq<Id>, x: Id, y: Id)
    requires Sorted(seen, s) && Sorted(due, s) && x in s && y in s
    ensures !(Before(seen[x], seen[y]) && Before(due[y], due[x]))
  {
    var i :| 0 <= i < |s| && s[i] == x;
    var j :| 0 <= j < |s| && s[j] == y;
    BeforeIsOrder(seen[x], seen[y], seen[x]);
    BeforeIsOrder(due[y], due[x], due[y]);
  }

  /** Two jobs whose ages are not clear are ordered strictly and oppositely by text and by age. */
  lemma UnclearAreOpposite(x: Job, y: Job)
    requires T.Shown(x.createdAt) && T.Shown(y.createdAt) && !AgesAreClear(x, y)
    ensures || (Before(TextKey(x), TextKey(y)) && Before(RankKey(y), RankKey(x)))
            || (Before(TextKey(y), TextKey(x)) && Before(RankKey(x), RankKey(y)))
  {
    OrderAgreesIff(x, y);
    OrderAgreesIff(y, x);
    T.TextOrder(x.createdAt, T.StoredWidth(x.createdAt), y.createdAt, T.StoredWidth(y.createdAt));
    T.TextOrder(y.createdAt, T.StoredWidth(y.createdAt), x.createdAt, T.StoredWidth(x.createdAt));
  }

  /** The whole listing the script may select is a listing of the due jobs. */
  lemma SharedListing(r: Redis, from: Kind, now: Time) returns (s: seq<Id>)
    requires SelectsAsMemory(r, from, now)
    ensures SortedListing(IndexedDueKeys(r, from, now), s) && SortedListing(DueKeys(r.blobs, from, now), s)
  {
    var seen, due := IndexedDueKeys(r, from, now), DueKeys(r.blobs, from, now);
    s := ListingExists(seen);
    ListingIsTop(seen, s, |seen| + |due|);
    WholeIsListing(due, s, |seen| + |due|);
  }

  /** Two jobs of a listing in both orders have clear ages. */
  lemma ListedAreClear(seen: map<Id, Key>, due: map<Id, Key>, s: seq<Id>, jobs: JobMap, x: Id, y: Id)
    requires Sorted(seen, s) && Sorted(due, s) && x in s && y in s && x in jobs && y in jobs
    requires seen[x] == TextKey(jobs[x]) && seen[y] == TextKey(jobs[y])
    requires due[x] == RankKey(jobs[x]) && due[y] == RankKey(jobs[y])
    requires T.Shown(jobs[x].createdAt) && T.Shown(jobs[y].createdAt)
    ensures AgesAreClear(jobs[x], jobs[y])
  {
    NoOpposites(seen, due, s, x, y);
    NoOpposites(seen, due, s, y, x);
    if !AgesAreClear(jobs[x], jobs[y]) {
      UnclearAreOpposite(jobs[x], jobs[y]);
    }
  }

  lemma SelectsOnlyIfClear(r: Redis, from: Kind, now: Time)
    requires Consistent(r) && Renderable(r.blobs, from, now) && SelectsAsMemory(r, from, now)
    ensures AllClear(r.blobs, from, now)
  {
    var seen, due := IndexedDueKeys(r, from, now), DueKeys(r.blobs, from, now);
    var s := SharedListing(r, from, now);
    CandidatesAgreeIff(r, from, now);
    forall x, y | x in due && y in due
      ensures AgesAreClear(r.blobs[x], r.blobs[y])
    {
      assert x in Elements(s) && y in Elements(s);
      ListedAreClear(seen, due, s, r.blobs, x, y);
    }
  }

  /**
   On consistent indices, whatever the script may select the in-memory claim may select at the same reading,
   exactly when every waiting due time and the ages of every two due jobs are clear.
   */
  lemma SelectionAgreesIff(r: Redis, from: Kind, now: Time)
    requires Consistent(r) && Renderable(r.blobs, from, now)
    ensures SelectsAsMemory(r, from, now) <==> AllClear(r.blobs, from, now)
  {
    if SelectsAsMemory(r, from, now) {
      SelectsOnlyIfClear(r, from, now);
    }
    if AllClear(r.blobs, from, now) {
      forall limit: nat, ids: seq<Id> | TopPrefix(IndexedDueKeys(r, from, now), limit, ids)
        ensures TopPrefix(DueKeys(r.blobs, from, now), limit, ids)
      {
        ClearSelects(r, from, now, limit, ids);
      }
    }
  }

  /**
   Then the script's claim is one the in-memory store could make, with the same effect, and keeps the indices right.
   */
  lemma ClaimRefinesMemory(r: Redis, from: Kind, now: Time, limit: nat, ids: seq<Id>, t: Redis)
    requires Consistent(r) && (from.ScheduledKind? || from.AwaitingRetryKind?)
    requires Renderable(r.blobs, from, now) && AllClear(r.blobs, from, now)
    requires IsClaim(r, from, now, limit, ids, t)
    ensures TopPrefix(DueKeys(r.blobs, from, now), limit, ids)
    ensures t.blobs == Requeue(r.blobs, Elements(ids), Micros(now))
    ensures Consistent(t)
  {
    ClaimEffect(r, from, now, limit, ids, t, now);
    ClearSelects(r, from, now, limit, ids);
  }

  /** One job: never seen as due a microsecond early, always when a second late. */
  lemma DueNearly(job: Job, from: Kind, now: Time)
    requires DueAt(job, from).Some? && T.Shown(DueAt(job, from).value) && T.Shown(now)
    ensures IsDueByText(job, from, now) ==> DueAt(job, from).value < now + 1000
    ensures DueAt(job, from).value + SECOND <= now ==> IsDueByText(job, from, now)
  {
    T.DueByTextNearly(DueAt(job, from).value, now);
  }

  /** A selection short of its limit is the whole candidate set. */
  lemma ShortIsAll(keys: map<Id, Key>, limit: nat, ids: seq<Id>, id: Id)
    requires TopPrefix(keys, limit, ids) && |ids| < limit && id in keys
    ensures id in ids
  {
    DistinctSize(ids);
    KeysSize(keys);
    SubsetSize(Elements(ids), keys.Keys);
    assert id in Elements(ids);
  }

  /**
   Clear or not, a claim promotes nothing a microsecond or more before its time, and leaves nothing behind
   that is a second or more overdue unless its limit is reached.
   */
  lemma ClaimIsNearlyTimely(r: Redis, from: Kind, now: Time, limit: nat, ids: seq<Id>, t: Redis, id: Id)
    requires Consistent(r) && (from.ScheduledKind? || from.AwaitingRetryKind?)
    requires Renderable(r.blobs, from, now) && IsClaim(r, from, now, limit, ids, t)
    ensures id in ids ==> id in r.blobs && DueAt(r.blobs[id], from).Some? && DueAt(r.blobs[id], from).value < now + 1000
    ensures
      (&& |ids| < limit
       && id in r.blobs
       && DueAt(r.blobs[id], from).Some?
       && DueAt(r.blobs[id], from).value + SECOND <= now)
      ==> id in ids
  {
    ClaimEffect(r, from, now, limit, ids, t, now);
    var seen := IndexedDueKeys(r, from, now);
    if id in ids {
      assert id in Elements(ids);
      assert id in seen;
    }
    if id in r.blobs && DueAt(r.blobs[id], from).Some? {
      DueNearly(r.blobs[id], from, now);
      if |ids| < limit && DueAt(r.blobs[id], from).value + SECOND <= now {
        assert id in seen;
        ShortIsAll(seen, limit, ids, id);
      }
    }
  }

  lemma NewYear(y: nat)
    requires y < 10000
    ensures T.SecondNumber(T.Civil(y, 1, 1, 0, 0, 0)) == T.YearStart(y) * 86400
  {
  }

  lemma NewYearOf(y: nat, seconds: nat)
    requires y < 10000 && seconds == (365 * y + (y + 3) / 4 - (y + 99) / 100 + (y + 399) / 400) * 86400
    requires T.Shown(seconds * SECOND)
    ensures T.Reading(seconds * SECOND) == T.Civil(y, 1, 1, 0, 0, 0)
  {
    T.YearStartClosed(y);
    NewYear(y);
    T.ShiftNine(seconds * SECOND);
    T.CivilOrder(T.Reading(seconds * SECOND), T.Civil(y, 1, 1, 0, 0, 0));
  }

  /** How an instant is written: a second of 2025 without a fraction, and a microsecond later as a reading. */
  lemma TextExample()
    ensures var t := 63_902_908_800 * SECOND;
      && T.Shown(t) && T.Shown(t + 1000)
      && T.StoredText(t) == "2025-01-01T00:00:00" + "Z"
      && T.NowText(t + 1000) == "2025-01-01T00:00:00" + ".000001Z"
  {
    NewYearOf(2025, 63_902_908_800);
    T.SecondStored(63_902_908_800 * SECOND, 63_902_908_800);
    T.SecondNow(63_902_908_800 * SECOND, 63_902_908_800);
  }

  /** The origin of the score's creation times is the start of 1970. */
  lemma EpochIs1970()
    ensures T.Shown(EPOCH) && T.Reading(EPOCH) == T.Civil(1970, 1, 1, 0, 0, 0)
  {
    NewYearOf(1970, 62_167_219_200);
  }
}
