/**
 Enqueue and delete are sequences of single commands, and other clients' commands and scripts run in between.
 Whatever the interleaving, the indices are right whenever no sequence is under way, if no script changed the
 kind of a job's state between the two commands of a sequence that rely on it; and exactly then.
 */
module RedisFlights {
  import opened JobModel
  import opened Ranking
  import opened JobTable
  import opened RedisModel
  import opened RedisIndex
  import opened RedisFetch

  /** An enqueue that has stored its blob, or a delete that has removed it, with the number of commands sent. */
  datatype Flight = Flight(job: Job, available: bool, sent: nat)

  /** `copies` are what deletes have read and not yet acted on. */
  datatype Shared = Shared(
    r: Redis,
    adding: map<Id, Flight>,
    removing: map<Id, Flight>,
    copies: map<nat, Job>,
    used: set<Id>)

  datatype Step =
    | BeginAdd(job: Job, available: bool)
    | AddOn(id: Id)
    | BeginRemove(h: nat, id: Id)
    | Remove(h: nat)
    | RemoveOn(id: Id)
    | Script(atom: Atom)

  /** What an enqueue sends after its blob. */
  function AddCommand(r: Redis, f: Flight): Redis {
    var job := f.job;
    match f.sent
    case 1 => SAdd(r, job.state.Kind(), job.id)
    case 2 => SAddAll(r, job.id)
    case 3 => HIncr(r, job.state.Kind(), 1)
    case 4 => if f.available then ZAdd(r, Global, job.id, Score(job)) else ZRem(r, Global, job.id)
    case _ => if f.available then ZAdd(r, Queue(job.queue), job.id, Score(job)) else ZRem(r, Queue(job.queue), job.id)
  }

  /** What a delete sends after its blob is gone. */
  function RemoveCommand(r: Redis, f: Flight): Redis {
    var job := f.job;
    match f.sent
    case 1 => SRem(r, job.state.Kind(), job.id)
    case 2 => SRemAll(r, job.id)
    case 3 => ZRem(r, Global, job.id)
    case 4 => ZRem(r, Queue(job.queue), job.id)
    case _ => HIncr(r, job.state.Kind(), -1)
  }

  /** The flights after one more command of that of `id`; the fifth ends it. */
  function Onward(flights: map<Id, Flight>, id: Id): map<Id, Flight>
    requires id in flights
  {
    var f := flights[id];
    if f.sent >= 5 then flights - {id} else flights[id := f.(sent := f.sent + 1)]
  }

  ghost predicate IsScript(a: Atom) {
    a.UpdateAtom? || a.CasAtom? || (a.ClaimAtom? && a.from != EnqueuedKind) || a.FetchAtom?
  }

  /** New jobs have fresh ids; a job is not deleted before its enqueue is done. */
  ghost predicate Next(s: Shared, l: Step, t: Shared) {
    match l
    case BeginAdd(job, available) =>
      && job.id !in s.used
      && t == s.(r := Set(s.r, job.id, job),
                 adding := s.adding[job.id := Flight(job, available, 1)], used := s.used + {job.id})
    case AddOn(id) =>
      id in s.adding && t == s.(r := AddCommand(s.r, s.adding[id]), adding := Onward(s.adding, id))
    case BeginRemove(h, id) =>
      h !in s.copies && id in s.r.blobs && id !in s.adding && t == s.(copies := s.copies[h := s.r.blobs[id]])
    case Remove(h) =>
      && h in s.copies
      && var job := s.copies[h];
         t == if job.id in s.r.blobs
              then s.(r := Del(s.r, job.id),
                      removing := s.removing[job.id := Flight(job, false, 1)], copies := s.copies - {h})
              else s.(copies := s.copies - {h})
    case RemoveOn(id) =>
      id in s.removing && t == s.(r := RemoveCommand(s.r, s.removing[id]), removing := Onward(s.removing, id))
    case Script(atom) =>
      IsScript(atom) && Runs(s.r, atom, t.r) && t == s.(r := t.r)
  }

  /**
   The command that relies on the kind of a job finds the job in that kind: an enqueue entering the state set
   that of its own blob, a delete removing the blob that of the copy it read.
   */
  ghost predicate Undisturbed(s: Shared, l: Step) {
    && (l.AddOn? && l.id in s.adding && s.adding[l.id].sent == 1 && l.id in s.r.blobs ==>
          s.r.blobs[l.id].state.Kind() == s.adding[l.id].job.state.Kind())
    && (l.Remove? && l.h in s.copies && s.copies[l.h].id in s.r.blobs ==>
          s.r.blobs[s.copies[l.h].id].state.Kind() == s.copies[l.h].state.Kind())
  }

  ghost predicate IsRun(tr: seq<Shared>, steps: seq<Step>) {
    && |tr| == |steps| + 1
    && tr[0] == Shared(EMPTY, map[], map[], map[], {})
    && forall i :: 0 <= i < |steps| ==> NextAt(tr, steps, i)
  }

  ghost predicate NextAt(tr: seq<Shared>, steps: seq<Step>, i: nat)
    requires i < |steps| < |tr|
  {
    Next(tr[i], steps[i], tr[i + 1])
  }

  // ----- what every run keeps -----

  /** Which flights there are. */
  ghost predicate FlightsOk(s: Shared) {
    && Keyed(s.r.blobs)
    && s.r.blobs.Keys <= s.used
    && s.removing.Keys <= s.used
    && (forall id :: id in s.adding ==> id in s.r.blobs && s.adding[id].job.id == id && 1 <= s.adding[id].sent <= 5)
    && (forall id :: id in s.removing ==>
          id !in s.r.blobs && s.removing[id].job.id == id && 1 <= s.removing[id].sent <= 5)
    && (forall h :: h in s.copies ==> s.copies[h].id in s.used && s.copies[h].id !in s.adding)
  }

  /** An entry of a state set: of a stored job in that state, or of one whose delete has yet to drop it. */
  ghost predicate MemberOk(s: Shared, k: Kind, id: Id) {
    || (id in s.r.blobs && s.r.blobs[id].state.Kind() == k)
    || (id in s.removing && s.removing[id].sent == 1 && s.removing[id].job.state.Kind() == k)
  }

  ghost predicate MembersOk(s: Shared) {
    && (forall k, id :: id in Members(s.r.states, k) ==> MemberOk(s, k, id))
    && (forall id :: id in s.r.blobs && (id in s.adding ==> s.adding[id].sent > 1) ==>
          id in Members(s.r.states, s.r.blobs[id].state.Kind()))
  }

  ghost predicate AllOk(s: Shared) {
    && (forall id :: id in s.r.all ==> id in s.r.blobs || (id in s.removing && s.removing[id].sent <= 2))
    && (forall id :: id in s.r.blobs && (id in s.adding ==> s.adding[id].sent > 2) ==> id in s.r.all)
  }

  /** Jobs of a kind whose enqueue has yet to count them. */
  function Uncounted(adding: map<Id, Flight>, k: Kind): set<Id> {
    set id | id in adding && adding[id].sent <= 3 && adding[id].job.state.Kind() == k
  }

  /** Jobs of a kind whose delete has yet to uncount them. */
  function Overcounted(removing: map<Id, Flight>, k: Kind): set<Id> {
    set id | id in removing && removing[id].job.state.Kind() == k
  }

  ghost predicate CountOk(s: Shared, k: Kind) {
    Count(s.r.counts, k) + |Uncounted(s.adding, k)| == |IdsOfKind(s.r.blobs, k)| + |Overcounted(s.removing, k)|
  }

  ghost predicate CountsOk(s: Shared) {
    forall k :: CountOk(s, k)
  }

  ghost predicate Inv(s: Shared) {
    FlightsOk(s) && MembersOk(s) && AllOk(s) && CountsOk(s)
  }

  /** With nothing under way that is what the indices should be. */
  lemma QuietIsConsistent(s: Shared)
    requires Inv(s) && s.adding == map[] && s.removing == map[]
    ensures Consistent(s.r)
  {
    forall k: Kind
      ensures Count(s.r.counts, k) == |IdsOfKind(s.r.blobs, k)|
    {
      assert CountOk(s, k);
      assert Uncounted(s.adding, k) == {} && Overcounted(s.removing, k) == {};
    }
    assert s.r.all == s.r.blobs.Keys;
  }

  // ----- enqueue -----

  lemma UncountedAdd(adding: map<Id, Flight>, id: Id, f: Flight, k: Kind)
    requires id !in adding && f.sent <= 3
    ensures |Uncounted(adding[id := f], k)| == |Uncounted(adding, k)| + One(k == f.job.state.Kind())
  {
    var u := Uncounted(adding, k);
    assert Uncounted(adding[id := f], k) == u + if k == f.job.state.Kind() then {id} else {};
  }

  lemma BeginAddKeeps(s: Shared, job: Job, available: bool, t: Shared)
    requires Inv(s) && Next(s, BeginAdd(job, available), t)
    ensures Inv(t)
  {
    var f := Flight(job, available, 1);
    assert job.id !in s.adding;
    forall k
      ensures CountOk(t, k)
    {
      assert CountOk(s, k);
      UncountedAdd(s.adding, job.id, f, k);
      SizeAfterPut(s.r.blobs, job.id, job, k);
    }
    BeginAddMembers(s, job, available, t);
  }

  lemma BeginAddMembers(s: Shared, job: Job, available: bool, t: Shared)
    requires FlightsOk(s) && MembersOk(s) && Next(s, BeginAdd(job, available), t)
    ensures MembersOk(t)
  {
    forall k, id | id in Members(t.r.states, k)
      ensures MemberOk(t, k, id)
    {
      assert MemberOk(s, k, id);
    }
  }

  /** Entry by entry: the flight of `id` has sent one command more, or ended. */
  ghost predicate IsOnward(flights: map<Id, Flight>, id: Id, after: map<Id, Flight>) {
    && id in flights
    && (forall x :: x in after <==> x in flights && (x == id ==> flights[id].sent < 5))
    && (forall x :: x in after && x != id ==> after[x] == flights[x])
    && (id in after ==> after[id] == flights[id].(sent := flights[id].sent + 1))
  }

  lemma Without(u: set<Id>, v: set<Id>, gone: set<Id>)
    requires gone <= u && forall x :: x in v <==> x in u && x !in gone
    ensures |v| == |u| - |gone|
  {
    assert v == u - gone;
  }

  lemma UncountedOn(adding: map<Id, Flight>, id: Id, after: map<Id, Flight>, k: Kind)
    requires IsOnward(adding, id, after)
    ensures |Uncounted(after, k)| == |Uncounted(adding, k)| -
      One(adding[id].sent == 3 && adding[id].job.state.Kind() == k)
  {
    var u, v := Uncounted(adding, k), Uncounted(after, k);
    var gone := if adding[id].sent == 3 && adding[id].job.state.Kind() == k then {id} else {};
    Without(u, v, gone);
  }

  /** What one more command of an enqueue does, index by index. */
  ghost predicate AddsOn(s: Shared, id: Id, t: Shared) {
    && id in s.adding
    && t == s.(r := t.r, adding := t.adding)
    && IsOnward(s.adding, id, t.adding)
    && AddEffect(s.r, s.adding[id], t.r)
  }

  ghost predicate AddEffect(r: Redis, f: Flight, t: Redis) {
    && t.blobs == r.blobs
    && (forall k, x :: x in Members(t.states, k) <==>
          x in Members(r.states, k) || (f.sent == 1 && x == f.job.id && k == f.job.state.Kind()))
    && (forall x :: x in t.all <==> x in r.all || (f.sent == 2 && x == f.job.id))
    && (forall k :: Count(t.counts, k) == Count(r.counts, k) + One(f.sent == 3 && k == f.job.state.Kind()))
  }

  lemma AddCommandIs(r: Redis, f: Flight)
    requires 1 <= f.sent <= 5
    ensures AddEffect(r, f, AddCommand(r, f))
  {
  }

  lemma AddOnIs(s: Shared, id: Id, t: Shared)
    requires FlightsOk(s) && Next(s, AddOn(id), t)
    ensures AddsOn(s, id, t)
  {
    AddCommandIs(s.r, s.adding[id]);
  }

  lemma AddOnFlights(s: Shared, id: Id, t: Shared)
    requires FlightsOk(s) && AddsOn(s, id, t)
    ensures FlightsOk(t)
  {
  }

  lemma AddOnMembers(s: Shared, id: Id, t: Shared)
    requires FlightsOk(s) && MembersOk(s) && AddsOn(s, id, t) && Undisturbed(s, AddOn(id))
    ensures MembersOk(t)
  {
    forall k, x | x in Members(t.r.states, k)
      ensures MemberOk(t, k, x)
    {
      assert x in Members(s.r.states, k) ==> MemberOk(s, k, x);
    }
  }

  lemma AddOnCounts(s: Shared, id: Id, t: Shared)
    requires FlightsOk(s) && CountsOk(s) && AddsOn(s, id, t)
    ensures CountsOk(t)
  {
    forall k
      ensures CountOk(t, k)
    {
      assert CountOk(s, k);
      UncountedOn(s.adding, id, t.adding, k);
    }
  }

  lemma AddOnKeeps(s: Shared, id: Id, t: Shared)
    requires Inv(s) && Next(s, AddOn(id), t) && Undisturbed(s, AddOn(id))
    ensures Inv(t)
  {
    AddOnIs(s, id, t);
    AddOnFlights(s, id, t);
    AddOnMembers(s, id, t);
    AddOnCounts(s, id, t);
  }

  // ----- delete -----

  lemma BeginRemoveKeeps(s: Shared, h: nat, id: Id, t: Shared)
    requires Inv(s) && Next(s, BeginRemove(h, id), t)
    ensures Inv(t)
  {
    SameFlights(s, t);
  }

  /** Reads are nothing to the indices. */
  lemma SameFlights(s: Shared, t: Shared)
    requires MembersOk(s) && AllOk(s) && CountsOk(s) && t.r == s.r && t.adding == s.adding && t.removing == s.removing
    ensures MembersOk(t) && AllOk(t) && CountsOk(t)
  {
    forall k, id | id in Members(t.r.states, k)
      ensures MemberOk(t, k, id)
    {
      assert MemberOk(s, k, id);
    }
    forall k
      ensures CountOk(t, k)
    {
      assert CountOk(s, k);
    }
  }

  /** What removing a blob does. */
  ghost predicate RemovesBlob(s: Shared, h: nat, t: Shared) {
    && h in s.copies
    && var job := s.copies[h];
       && job.id in s.r.blobs
       && s.r.blobs[job.id].state.Kind() == job.state.Kind()
       && t == s.(r := s.r.(blobs := s.r.blobs - {job.id}),
                  removing := s.removing[job.id := Flight(job, false, 1)],
                  copies := s.copies - {h})
  }

  lemma RemoveMembers(s: Shared, h: nat, t: Shared)
    requires FlightsOk(s) && MembersOk(s) && RemovesBlob(s, h, t)
    ensures MembersOk(t)
  {
    forall k, id | id in Members(t.r.states, k)
      ensures MemberOk(t, k, id)
    {
      assert MemberOk(s, k, id);
    }
  }

  lemma OvercountedAdd(removing: map<Id, Flight>, id: Id, f: Flight, k: Kind)
    requires id !in removing
    ensures |Overcounted(removing[id := f], k)| == |Overcounted(removing, k)| + One(k == f.job.state.Kind())
  {
    var u := Overcounted(removing, k);
    assert Overcounted(removing[id := f], k) == u + if k == f.job.state.Kind() then {id} else {};
  }

  lemma RemoveCounts(s: Shared, h: nat, t: Shared)
    requires FlightsOk(s) && CountsOk(s) && RemovesBlob(s, h, t)
    ensures CountsOk(t)
  {
    var job := s.copies[h];
    forall k
      ensures CountOk(t, k)
    {
      assert CountOk(s, k);
      OvercountedAdd(s.removing, job.id, Flight(job, false, 1), k);
      SizeAfterDrop(s.r.blobs, job.id, k);
    }
  }

  lemma RemoveFlights(s: Shared, h: nat, t: Shared)
    requires FlightsOk(s) && AllOk(s) && RemovesBlob(s, h, t)
    ensures FlightsOk(t) && AllOk(t)
  {
  }

  lemma RemoveKeeps(s: Shared, h: nat, t: Shared)
    requires Inv(s) && Next(s, Remove(h), t) && Undisturbed(s, Remove(h))
    ensures Inv(t)
  {
    if s.copies[h].id in s.r.blobs {
      RemoveFlights(s, h, t);
      RemoveMembers(s, h, t);
      RemoveCounts(s, h, t);
    } else {
      SameFlights(s, t);
    }
  }

  lemma OvercountedOn(removing: map<Id, Flight>, id: Id, after: map<Id, Flight>, k: Kind)
    requires IsOnward(removing, id, after)
    ensures |Overcounted(after, k)| == |Overcounted(removing, k)| -
      One(removing[id].sent >= 5 && removing[id].job.state.Kind() == k)
  {
    var u, v := Overcounted(removing, k), Overcounted(after, k);
    var gone := if removing[id].sent >= 5 && removing[id].job.state.Kind() == k then {id} else {};
    Without(u, v, gone);
  }

  /** What one more command of a delete does, index by index. */
  ghost predicate RemovesOn(s: Shared, id: Id, t: Shared) {
    && id in s.removing
    && t == s.(r := t.r, removing := t.removing)
    && IsOnward(s.removing, id, t.removing)
    && RemoveEffect(s.r, s.removing[id], t.r)
  }

  ghost predicate RemoveEffect(r: Redis, f: Flight, t: Redis) {
    && t.blobs == r.blobs
    && (forall k, x :: x in Members(t.states, k) <==>
          x in Members(r.states, k) && !(f.sent == 1 && x == f.job.id && k == f.job.state.Kind()))
    && (forall x :: x in t.all <==> x in r.all && !(f.sent == 2 && x == f.job.id))
    && (forall k :: Count(t.counts, k) == Count(r.counts, k) - One(f.sent == 5 && k == f.job.state.Kind()))
  }

  lemma RemoveCommandIs(r: Redis, f: Flight)
    requires 1 <= f.sent <= 5
    ensures RemoveEffect(r, f, RemoveCommand(r, f))
  {
  }

  lemma RemoveOnIs(s: Shared, id: Id, t: Shared)
    requires FlightsOk(s) && Next(s, RemoveOn(id), t)
    ensures RemovesOn(s, id, t)
  {
    RemoveCommandIs(s.r, s.removing[id]);
  }

  lemma RemoveOnMembers(s: Shared, id: Id, t: Shared)
    requires FlightsOk(s) && MembersOk(s) && RemovesOn(s, id, t)
    ensures MembersOk(t)
  {
    forall k, x | x in Members(t.r.states, k)
      ensures MemberOk(t, k, x)
    {
      assert MemberOk(s, k, x);
    }
  }

  lemma RemoveOnFlights(s: Shared, id: Id, t: Shared)
    requires FlightsOk(s) && RemovesOn(s, id, t)
    ensures FlightsOk(t)
  {
  }

  lemma RemoveOnCounts(s: Shared, id: Id, t: Shared)
    requires FlightsOk(s) && CountsOk(s) && RemovesOn(s, id, t)
    ensures CountsOk(t)
  {
    forall k
      ensures CountOk(t, k)
    {
      assert CountOk(s, k);
      OvercountedOn(s.removing, id, t.removing, k);
    }
  }

  lemma RemoveOnKeeps(s: Shared, id: Id, t: Shared)
    requires Inv(s) && Next(s, RemoveOn(id), t)
    ensures Inv(t)
  {
    RemoveOnIs(s, id, t);
    RemoveOnFlights(s, id, t);
    RemoveOnMembers(s, id, t);
    RemoveOnCounts(s, id, t);
  }

  // ----- scripts -----

  /** One stored record is rewritten, its state sets and counts moved with it. */
  ghost predicate Moves(r: Redis, id: Id, job: Job, t: Redis) {
    && id in r.blobs
    && t.blobs == r.blobs[id := job]
    && r.all <= t.all <= r.all + {id}
    && var from, to := r.blobs[id].state.Kind(), job.state.Kind();
       if from == to then t.states == r.states && t.counts == r.counts
       else
         && (forall k, x :: x in Members(t.states, k) <==>
               if x == id && (k == from || k == to) then k == to else x in Members(r.states, k))
         && (forall k :: Count(t.counts, k) == Count(r.counts, k) - One(k == from) + One(k == to))
  }

  lemma MovesMembers(s: Shared, id: Id, job: Job, t: Shared)
    requires FlightsOk(s) && MembersOk(s) && Moves(s.r, id, job, t.r) && t == s.(r := t.r)
    ensures MembersOk(t)
  {
    forall k, x | x in Members(t.r.states, k)
      ensures MemberOk(t, k, x)
    {
      assert x in Members(s.r.states, k) ==> MemberOk(s, k, x);
    }
  }

  lemma MovesCounts(s: Shared, id: Id, job: Job, t: Shared)
    requires CountsOk(s) && Moves(s.r, id, job, t.r) && t == s.(r := t.r)
    ensures CountsOk(t)
  {
    forall k
      ensures CountOk(t, k)
    {
      assert CountOk(s, k);
      SizeAfterPut(s.r.blobs, id, job, k);
    }
  }

  lemma MovesKeeps(s: Shared, id: Id, job: Job, t: Shared)
    requires Inv(s) && Moves(s.r, id, job, t.r) && t == s.(r := t.r) && job.id == id
    ensures Inv(t)
  {
    MovesMembers(s, id, job, t);
    MovesCounts(s, id, job, t);
  }

  lemma RewriteMoves(r: Redis, id: Id, job: Job, available: bool, score: real)
    requires id in r.blobs
    ensures Moves(r, id, job, Rewritten(r, id, job, r.blobs[id].state.Kind(), available, r.blobs[id].queue, score))
  {
  }

  lemma UpdateMoves(r: Redis, job: Job, available: bool)
    requires job.id in r.blobs && r.blobs[job.id].id == job.id
    ensures Moves(r, job.id, job, UpdateScript(r, job, available))
  {
    RewriteMoves(SAddAll(r, job.id), job.id, job, available, Score(job));
  }

  lemma UpdateKeeps(s: Shared, job: Job, available: bool, t: Shared)
    requires Inv(s) && t == s.(r := UpdateScript(s.r, job, available))
    ensures Inv(t)
  {
    if job.id in s.r.blobs {
      UpdateMoves(s.r, job, available);
      MovesKeeps(s, job.id, job, t);
    }
  }

  lemma CasKeeps(s: Shared, job: Job, expected: Kind, available: bool, t: Shared)
    requires Inv(s) && t == s.(r := CasScript(s.r, job, expected, available))
    ensures Inv(t)
  {
    if CasAnswer(s.r.blobs, job, expected) == Ok(true) {
      RewriteMoves(s.r, job.id, job, available, Score(job));
      MovesKeeps(s, job.id, job, t);
    }
  }

  lemma FetchKeeps(s: Shared, cands: seq<ZKey>, best: Option<Id>, worker: string, now: Time, t: Shared)
    requires Inv(s) && t == s.(r := Fetched(s.r, cands, best, worker, now))
    ensures Inv(t)
  {
    if best.Some? && Claimable(s.r, best.value) {
      var id := best.value;
      RewriteMoves(s.r, id, RedisClaimed(s.r.blobs[id], worker, now), false, 0.0);
      MovesKeeps(s, id, RedisClaimed(s.r.blobs[id], worker, now), t);
    } else {
      SameIndices(s, t);
    }
  }

  /** The sorted sets are nothing to the other indices. */
  lemma SameIndices(s: Shared, t: Shared)
    requires Inv(s) && t == s.(r := s.r.(zsets := t.r.zsets))
    ensures Inv(t)
  {
    forall k, id | id in Members(t.r.states, k)
      ensures MemberOk(t, k, id)
    {
      assert MemberOk(s, k, id);
    }
    forall k
      ensures CountOk(t, k)
    {
      assert CountOk(s, k);
    }
  }

  /** Dropping ids without a blob from a state set. */
  lemma UndriftKeeps(s: Shared, from: Kind, t: Shared)
    requires Inv(s) && t == s.(r := Undrifted(s.r, from))
    ensures Inv(t)
  {
    forall k, id | id in Members(t.r.states, k)
      ensures MemberOk(t, k, id)
    {
      assert MemberOk(s, k, id);
    }
    forall k
      ensures CountOk(t, k)
    {
      assert CountOk(s, k);
    }
  }

  lemma PromoteKeepsInv(s: Shared, from: Kind, id: Id, now: Time, t: Shared)
    requires Inv(s) && id in s.r.blobs && s.r.blobs[id].state.Kind() == from
      && t == s.(r := Promoted(s.r, from, id, now))
    ensures Inv(t)
  {
    var job := s.r.blobs[id].Requeued(now);
    RewriteMoves(s.r, id, job, true, job.priority as real);
    MovesKeeps(s, id, job, t);
  }

  lemma PromoteNextKeepsInv(s: Shared, mids: seq<Redis>, from: Kind, ids: seq<Id>, now: Time, n: nat)
    requires PromotesInTurn(mids, from, ids, now) && Distinct(ids) && n < |ids|
    requires forall i :: 0 <= i < |ids| ==> ids[i] in mids[0].blobs && mids[0].blobs[ids[i]].state.Kind() == from
    requires Inv(s.(r := mids[n]))
    ensures Inv(s.(r := mids[n + 1]))
  {
    UntouchedYet(mids, from, ids, now, n);
    PromoteKeepsInv(s.(r := mids[n]), from, ids[n], now, s.(r := mids[n + 1]));
  }

  lemma {:induction false} PromoteAllKeepInv(s: Shared, mids: seq<Redis>, from: Kind, ids: seq<Id>, now: Time, n: nat)
    requires PromotesInTurn(mids, from, ids, now) && Distinct(ids) && n <= |ids|
    requires forall i :: 0 <= i < |ids| ==> ids[i] in mids[0].blobs && mids[0].blobs[ids[i]].state.Kind() == from
    requires Inv(s.(r := mids[0]))
    ensures Inv(s.(r := mids[n]))
    decreases n
  {
    if n > 0 {
      PromoteAllKeepInv(s, mids, from, ids, now, n - 1);
      PromoteNextKeepsInv(s, mids, from, ids, now, n - 1);
    }
  }

  lemma ClaimKeeps(s: Shared, from: Kind, now: Time, limit: nat, ids: seq<Id>, t: Shared)
    requires Inv(s) && IsClaim(s.r, from, now, limit, ids, t.r) && t == s.(r := t.r)
    ensures Inv(t)
  {
    if limit == 0 {
      assert t == s;
    } else {
      var mids := ClaimStates(s.r, from, now, limit, ids, t.r);
      UndriftKeeps(s, from, s.(r := mids[0]));
      DueIds(s.r, from, now, ids);
      PromoteAllKeepInv(s, mids, from, ids, Micros(now), |ids|);
      assert s.(r := mids[|ids|]) == t;
    }
  }

  lemma ScriptKeeps(s: Shared, a: Atom, t: Shared)
    requires Inv(s) && Next(s, Script(a), t)
    ensures Inv(t)
  {
    match a
    case UpdateAtom(job, available) => UpdateKeeps(s, job, available, t);
    case CasAtom(job, expected, available) => CasKeeps(s, job, expected, available, t);
    case ClaimAtom(from, now, limit, ids) => ClaimKeeps(s, from, now, limit, ids, t);
    case FetchAtom(worker, cands, now, best) => FetchKeeps(s, cands, best, worker, now, t);
  }

  // ----- runs -----

  lemma StepKeeps(s: Shared, l: Step, t: Shared)
    requires Inv(s) && Next(s, l, t) && Undisturbed(s, l)
    ensures Inv(t)
  {
    match l
    case BeginAdd(job, available) => BeginAddKeeps(s, job, available, t);
    case AddOn(id) => AddOnKeeps(s, id, t);
    case BeginRemove(h, id) => BeginRemoveKeeps(s, h, id, t);
    case Remove(h) => RemoveKeeps(s, h, t);
    case RemoveOn(id) => RemoveOnKeeps(s, id, t);
    case Script(atom) => ScriptKeeps(s, atom, t);
  }

  ghost predicate UndisturbedRun(tr: seq<Shared>, steps: seq<Step>, n: nat)
    requires n <= |steps| < |tr|
  {
    forall i :: 0 <= i < n ==> Undisturbed(tr[i], steps[i])
  }

  lemma {:induction false} RunKeeps(tr: seq<Shared>, steps: seq<Step>, n: nat)
    requires IsRun(tr, steps) && n < |tr| && UndisturbedRun(tr, steps, n)
    ensures Inv(tr[n])
    decreases n
  {
    if n == 0 {
      InitInv(tr[0]);
    } else {
      RunKeeps(tr, steps, n - 1);
      assert NextAt(tr, steps, n - 1) && Undisturbed(tr[n - 1], steps[n - 1]);
      StepKeeps(tr[n - 1], steps[n - 1], tr[n]);
    }
  }

  lemma InitInv(s: Shared)
    requires s == Shared(EMPTY, map[], map[], map[], {})
    ensures Inv(s)
  {
    forall k: Kind
      ensures CountOk(s, k)
    {
      assert IdsOfKind(s.r.blobs, k) == {} && Uncounted(s.adding, k) == {} && Overcounted(s.removing, k) == {};
    }
    assert forall k :: Members(s.r.states, k) == {};
  }

  /** In every undisturbed run the indices agree with a scan of the blobs whenever no sequence is under way. */
  lemma QuietRunIsConsistent(tr: seq<Shared>, steps: seq<Step>, n: nat)
    requires IsRun(tr, steps) && n < |tr| && UndisturbedRun(tr, steps, n)
    requires tr[n].adding == map[] && tr[n].removing == map[]
    ensures Consistent(tr[n].r)
  {
    RunKeeps(tr, steps, n);
    QuietIsConsistent(tr[n]);
  }

  // ----- exactly when -----

  /** The rest of an enqueue that has stored its blob. */
  function AddRest(r: Redis, f: Flight): Redis {
    var r := AddCommand(r, f.(sent := 1));
    var r := AddCommand(r, f.(sent := 2));
    var r := AddCommand(r, f.(sent := 3));
    var r := AddCommand(r, f.(sent := 4));
    AddCommand(r, f.(sent := 5))
  }

  /** Undisturbed, the sequence is the enqueue taken as one step. */
  lemma AddIsSequence(r: Redis, job: Job, available: bool)
    ensures AddRest(Set(r, job.id, job), Flight(job, available, 1)) == Added(r, job, available)
  {
  }

  /** What the rest of an enqueue does to the state sets, the set of ids and the counts. */
  ghost predicate AddsAll(r: Redis, f: Flight, t: Redis) {
    && t.blobs == r.blobs
    && (forall k, x :: x in Members(t.states, k) <==>
          x in Members(r.states, k) || (x == f.job.id && k == f.job.state.Kind()))
    && (forall x :: x in t.all <==> x in r.all || x == f.job.id)
    && (forall k :: Count(t.counts, k) == Count(r.counts, k) + One(k == f.job.state.Kind()))
  }

  /**
   An enqueue has stored its blob, anything may have happened to the job since, and nothing else is under way:
   finishing the enqueue leaves the indices right exactly when the job is still, or again, in the state kind
   it was enqueued in.
   */
  lemma AddFinishIff(s: Shared, id: Id)
    requires Inv(s) && s.removing == map[] && s.adding.Keys == {id} && s.adding[id].sent == 1
    ensures Consistent(AddRest(s.r, s.adding[id]))
        <==> s.r.blobs[id].state.Kind() == s.adding[id].job.state.Kind()
  {
    var f, t := s.adding[id], AddRest(s.r, s.adding[id]);
    if s.r.blobs[id].state.Kind() == f.job.state.Kind() {
      AddFinishes(s, id, t);
    } else {
      assert id in Members(t.states, f.job.state.Kind());
    }
  }

  lemma AddFinishes(s: Shared, id: Id, t: Redis)
    requires Inv(s) && s.removing == map[] && s.adding.Keys == {id} && s.adding[id].sent == 1
    requires s.r.blobs[id].state.Kind() == s.adding[id].job.state.Kind()
    requires AddsAll(s.r, s.adding[id], t)
    ensures Consistent(t)
  {
    forall o, x
      ensures x in Members(t.states, o) <==> x in t.blobs && t.blobs[x].state.Kind() == o
    {
      assert x in Members(s.r.states, o) ==> MemberOk(s, o, x);
    }
    forall o: Kind
      ensures Count(t.counts, o) == |IdsOfKind(t.blobs, o)|
    {
      assert CountOk(s, o);
      assert Overcounted(s.removing, o) == {};
      assert Uncounted(s.adding, o) == if o == s.adding[id].job.state.Kind() then {id} else {};
    }
    assert t.all == t.blobs.Keys;
  }

  /**
   A delete has read a job and anything may have happened to it since: removing the blob and then the indices
   by the copy read leaves the indices right exactly when the job is still, or again, in the kind it was read in.
   */
  lemma RemoveFinishIff(r: Redis, read: Job)
    requires Consistent(r) && read.id in r.blobs
    ensures Consistent(Unindexed(Del(r, read.id), read.id, read))
        <==> r.blobs[read.id].state.Kind() == read.state.Kind()
  {
    var id, k := read.id, r.blobs[read.id].state.Kind();
    var t := Unindexed(Del(r, id), id, read);
    if k == read.state.Kind() {
      RemoveFinishes(r, read, t);
    } else {
      assert id in Members(t.states, k) && id !in t.blobs;
    }
  }

  lemma RemoveFinishes(r: Redis, read: Job, t: Redis)
    requires Consistent(r) && read.id in r.blobs && r.blobs[read.id].state.Kind() == read.state.Kind()
    requires t == Unindexed(Del(r, read.id), read.id, read)
    ensures Consistent(t)
  {
    assert DropsState(r, read.id, t);
    DropKeepsConsistent(r, read.id, t);
  }

  /** An update between the read and the removal of a delete breaks the indices exactly when it changes the kind. */
  lemma DeleteRaceIff(r: Redis, job: Job, available: bool)
    requires Consistent(r) && job.id in r.blobs
    ensures var read := r.blobs[job.id];
      Consistent(Unindexed(Del(UpdateScript(r, job, available), job.id), job.id, read))
      <==> job.state.Kind() == read.state.Kind()
  {
    UpdateKeepsConsistent(r, job, available);
    ScriptBlobs(r, job, EnqueuedKind, available);
    RemoveFinishIff(UpdateScript(r, job, available), r.blobs[job.id]);
  }
}
