/** Generic named locks with a time to live: "at most one instance of X" across servers. */
module NamedLocks {
  import opened JobModel

  datatype NamedLock = NamedLock(owner: string, expiresAt: Time)

  type LockTable = map<string, NamedLock>

  predicate HeldByOther(t: LockTable, resource: string, owner: string, now: Time) {
    resource in t && t[resource].expiresAt > now && t[resource].owner != owner
  }

  /** Free, expired and own locks are (re)taken; a live lock of someone else is left alone. */
  function Acquired(t: LockTable, resource: string, owner: string, now: Time, ttl: nat): LockTable {
    if HeldByOther(t, resource, owner, now) then t else t[resource := NamedLock(owner, now + ttl)]
  }

  predicate Owns(t: LockTable, resource: string, owner: string) {
    resource in t && t[resource].owner == owner
  }

  function Released(t: LockTable, resource: string, owner: string): LockTable {
    if Owns(t, resource, owner) then t - {resource} else t
  }

  function Unexpired(t: LockTable, now: Time): LockTable {
    map r | r in t && t[r].expiresAt > now :: t[r]
  }

  // ----- runs -----

  /** An acquire and a sweep read the clock before they enter their critical section. */
  datatype Request =
    | Acquire(resource: string, owner: string, ttl: nat, now: Time)
    | Release(resource: string, owner: string)
    | Sweep(now: Time)

  /** A request and the time its critical section ran. */
  datatype Event = At(time: Time, request: Request)

  /** Sections follow each other in time, and no reading is ahead of its section. */
  ghost predicate WellTimed(es: seq<Event>) {
    && (forall i, j :: 0 <= i < j < |es| ==> es[i].time <= es[j].time)
    && (forall i :: 0 <= i < |es| && !es[i].request.Release? ==> es[i].request.now <= es[i].time)
  }

  function Apply(t: LockTable, e: Event, sweeping: bool): LockTable {
    match e.request
    case Acquire(resource, owner, ttl, now) => Acquired(t, resource, owner, now, ttl)
    case Release(resource, owner) => Released(t, resource, owner)
    case Sweep(now) => if sweeping then Unexpired(t, now) else t
  }

  /** The table after the first `n` events; without `sweeping`, sweeps do nothing. */
  function After(t: LockTable, es: seq<Event>, n: nat, sweeping: bool): LockTable
    requires n <= |es|
  {
    if n == 0 then t else Apply(After(t, es, n - 1, sweeping), es[n - 1], sweeping)
  }

  /** An acquire is granted on this table. */
  predicate Grants(t: LockTable, q: Request) {
    q.Acquire? && !HeldByOther(t, q.resource, q.owner, q.now)
  }

  /** Whether event `i` is an acquire that was granted. */
  predicate Granted(t: LockTable, es: seq<Event>, i: nat, sweeping: bool)
    requires i < |es|
  {
    Grants(After(t, es, i, sweeping), es[i].request)
  }

  /** When the lock an acquire takes expires. */
  function Until(q: Request): Time
    requires q.Acquire?
  {
    q.now + q.ttl
  }

  /** Event `e` gives up the lock of `owner` on `resource`, or re-takes it with an expiry before `until`. */
  predicate GivesUp(e: Event, resource: string, owner: string, until: Time) {
    || e.request == Release(resource, owner)
    || (e.request.Acquire? && e.request.resource == resource && e.request.owner == owner && Until(e.request) < until)
  }

  /** While nobody gives it up, a granted lock stays with its owner up to its expiry. */
  lemma {:induction false} StaysHeld(t: LockTable, es: seq<Event>, i: nat, n: nat)
    requires WellTimed(es) && i < n <= |es| && Granted(t, es, i, true)
    requires var a := es[i].request;
      && (n > i + 1 ==> es[n - 1].time < Until(a))
      && forall k :: i < k < n ==> !GivesUp(es[k], a.resource, a.owner, Until(a))
    ensures var a := es[i].request; var now := After(t, es, n, true);
      a.resource in now && now[a.resource].owner == a.owner && now[a.resource].expiresAt >= Until(a)
    decreases n
  {
    if n > i + 1 {
      var a := es[i].request;
      assert es[n - 2].time <= es[n - 1].time;
      StaysHeld(t, es, i, n - 1);
      assert !GivesUp(es[n - 1], a.resource, a.owner, Until(a));
    }
  }

  /** Nobody else is granted a held lock before its expiry, unless the holder gave it up in between. */
  lemma Exclusion(t: LockTable, es: seq<Event>, i: nat, j: nat)
    requires WellTimed(es) && i < j < |es|
    requires Granted(t, es, i, true) && Granted(t, es, j, true)
    requires es[j].request.resource == es[i].request.resource && es[j].request.owner != es[i].request.owner
    requires es[j].time < Until(es[i].request)
    ensures exists k :: i < k < j && GivesUp(es[k], es[i].request.resource, es[i].request.owner, Until(es[i].request))
  {
    var a := es[i].request;
    if forall k :: i < k < j ==> !GivesUp(es[k], a.resource, a.owner, Until(a)) {
      assert es[j - 1].time <= es[j].time;
      StaysHeld(t, es, i, j);
    }
  }

  // ----- sweeps -----

  /**
   In the run without sweeping: the resources whose lock some sweep has read as expired since it was taken.
   `t` is the table before event `e`.
   */
  function SeenExpired(seen: set<string>, t: LockTable, e: Event): set<string> {
    match e.request
    case Acquire(resource, _, _, _) => if Grants(t, e.request) then seen - {resource} else seen
    case Release(resource, owner) => if Owns(t, resource, owner) then seen - {resource} else seen
    case Sweep(now) => seen + set r | r in t && t[r].expiresAt <= now
  }

  function SweptAway(t: LockTable, es: seq<Event>, n: nat): set<string>
    requires n <= |es|
  {
    if n == 0 then {} else SeenExpired(SweptAway(t, es, n - 1), After(t, es, n - 1, false), es[n - 1])
  }

  /** Acquire `i` meets another owner's lock that is live by its own reading, but that a sweep has read as expired. */
  predicate TooLate(t: LockTable, es: seq<Event>, i: nat)
    requires i < |es|
  {
    var q := es[i].request;
    q.Acquire? && q.resource in SweptAway(t, es, i) && HeldByOther(After(t, es, i, false), q.resource, q.owner, q.now)
  }

  /** `t` is `u` without the locks of `seen`. */
  ghost predicate Without(t: LockTable, u: LockTable, seen: set<string>) {
    && seen <= u.Keys
    && (forall r :: r in t <==> r in u && r !in seen)
    && (forall r :: r in t ==> t[r] == u[r])
  }

  /** As long as every acquire is answered alike, sweeping has only dropped what was seen as expired. */
  lemma {:induction false} SweepsOnlyDrop(t: LockTable, es: seq<Event>, n: nat)
    requires n <= |es| && forall i :: 0 <= i < n ==> (Granted(t, es, i, true) <==> Granted(t, es, i, false))
    ensures Without(After(t, es, n, true), After(t, es, n, false), SweptAway(t, es, n))
    decreases n
  {
    if n > 0 {
      SweepsOnlyDrop(t, es, n - 1);
      assert Granted(t, es, n - 1, true) <==> Granted(t, es, n - 1, false);
    }
  }

  /** On tables that differ only so, an acquire is answered differently exactly when it is too late. */
  lemma DiffersIff(t: LockTable, es: seq<Event>, i: nat)
    requires i < |es| && Without(After(t, es, i, true), After(t, es, i, false), SweptAway(t, es, i))
    ensures (Granted(t, es, i, true) <==> Granted(t, es, i, false)) <==> !TooLate(t, es, i)
  {
  }

  lemma {:induction false} AlikeWhileInTime(t: LockTable, es: seq<Event>, n: nat)
    requires n <= |es| && forall i :: 0 <= i < n ==> !TooLate(t, es, i)
    ensures forall i :: 0 <= i < n ==> (Granted(t, es, i, true) <==> Granted(t, es, i, false))
    decreases n
  {
    if n > 0 {
      AlikeWhileInTime(t, es, n - 1);
      SweepsOnlyDrop(t, es, n - 1);
      DiffersIff(t, es, n - 1);
    }
  }

  /**
   Dropping every sweep from a run changes the answer of no acquire, exactly when no acquire comes too late:
   with a reading from before the expiry that a sweep has already acted on.
   */
  lemma SweepsAreInvisibleIff(t: LockTable, es: seq<Event>)
    ensures (forall i :: 0 <= i < |es| ==> (Granted(t, es, i, true) <==> Granted(t, es, i, false)))
        <==> (forall i :: 0 <= i < |es| ==> !TooLate(t, es, i))
  {
    if forall i :: 0 <= i < |es| ==> !TooLate(t, es, i) {
      AlikeWhileInTime(t, es, |es|);
    } else if forall i :: 0 <= i < |es| ==> (Granted(t, es, i, true) <==> Granted(t, es, i, false)) {
      var i :| 0 <= i < |es| && TooLate(t, es, i);
      SweepsOnlyDrop(t, es, i);
      DiffersIff(t, es, i);
    }
  }

  /** No acquire reads the clock before an earlier sweep did. */
  ghost predicate ReadingsInOrder(es: seq<Event>) {
    forall i, k :: 0 <= k < i < |es| && es[i].request.Acquire? && es[k].request.Sweep? ==>
      es[k].request.now <= es[i].request.now
  }

  /** What was swept away had expired by some sweep's reading. */
  lemma {:induction false} SweptByReading(t: LockTable, es: seq<Event>, n: nat, r: string) returns (k: nat)
    requires n <= |es| && r in SweptAway(t, es, n)
    ensures k < n && es[k].request.Sweep?
    ensures r in After(t, es, n, false) && After(t, es, n, false)[r].expiresAt <= es[k].request.now
    decreases n
  {
    if r in SweptAway(t, es, n - 1) {
      k := SweptByReading(t, es, n - 1, r);
    } else {
      k := n - 1;
    }
  }

  /** So with readings in order sweeps are invisible. */
  lemma SweepsAreInvisible(t: LockTable, es: seq<Event>, i: nat)
    requires ReadingsInOrder(es) && i < |es|
    ensures Granted(t, es, i, true) <==> Granted(t, es, i, false)
  {
    forall j | 0 <= j < |es|
      ensures !TooLate(t, es, j)
    {
      if TooLate(t, es, j) {
        var k := SweptByReading(t, es, j, es[j].request.resource);
      }
    }
    SweepsAreInvisibleIff(t, es);
  }

  /**
   Otherwise they are not: b reads 9, a sweep at 10 drops a's lock, and b is granted at 10 what it would be refused.
   */
  lemma SweepShows()
    ensures var t: LockTable := map["r" := NamedLock("a", 10)];
      var es := [At(10, Sweep(10)), At(10, Acquire("r", "b", 5, 9))];
      WellTimed(es) && TooLate(t, es, 1) && Granted(t, es, 1, true) && !Granted(t, es, 1, false)
  {
    var t: LockTable := map["r" := NamedLock("a", 10)];
    var es := [At(10, Sweep(10)), At(10, Acquire("r", "b", 5, 9))];
    assert After(t, es, 0, true) == t && After(t, es, 0, false) == t && SweptAway(t, es, 0) == {};
    assert After(t, es, 1, true) == Unexpired(t, 10) && After(t, es, 1, false) == t;
    assert "r" in SweptAway(t, es, 1);
  }
}
