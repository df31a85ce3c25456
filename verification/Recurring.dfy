/** Recurring templates: claim-and-park, materialize, advance, and the at-most-once law over many pollers. */
module Recurring {
  import opened JobModel
  import opened Ranking

  datatype Template = Template(
    id: Id,
    cron: string,
    methodName: string,
    payload: string,
    queue: string,
    nextRunAt: Time,
    lastRunAt: Option<Time>,
    createdAt: Time,
    updatedAt: Time,
    enabled: bool)

  type Templates = map<Id, Template>

  /** The next occurrence of a cron expression after an instant, or none if it has no more or does not parse. */
  type NextAfter = (string, Time) -> Option<Time>

  /** All that is assumed of the cron library: the next occurrence is an occurrence, strictly later. */
  ghost predicate Lawful(next: NextAfter, occurs: (string, Time) -> bool) {
    forall cron, from :: next(cron, from).Some? ==>
      next(cron, from).value > from && occurs(cron, next(cron, from).value)
  }

  const PARK: Time := 3650 * DAY

  predicate IsDue(r: Template, now: Time) {
    r.enabled && r.nextRunAt <= now
  }

  function DueKeys(m: Templates, now: Time): map<Id, Key> {
    map id | id in m && IsDue(m[id], now) :: Key(m[id].nextRunAt, 0, "")
  }

  /** Claimed rows are pushed far into the future until their poller writes them back. */
  function Parked(m: Templates, ids: set<Id>, now: Time): (r: Templates)
    ensures r.Keys == m.Keys
  {
    map id | id in m :: if id in ids then m[id].(nextRunAt := now + PARK) else m[id]
  }

  /** What a poller writes back after firing; a template that cannot advance is disabled. */
  function Advanced(next: NextAfter, r: Template, now: Time, updated: Time): Template {
    match next(r.cron, now)
    case Some(at) => r.(lastRunAt := Some(now), nextRunAt := at, updatedAt := updated)
    case None => r.(lastRunAt := Some(now), enabled := false)
  }

  // ----- pollers as interleaved steps -----

  type Poller = nat

  /** A claimed template, the clock reading of its tick, and whether its job was materialized yet. */
  datatype Claim = Claim(template: Template, now: Time, fired: bool)

  datatype Firing = Firing(cron: string, scheduled: Time, at: Time)

  datatype Cluster = Cluster(
    templates: Templates,
    clock: Time,
    claims: map<(Poller, Id), Claim>,
    fired: map<Id, seq<Firing>>)

  datatype Step =
    | RegisterStep(template: Template, from: Time)
    | RemoveStep(id: Id)
    | DisableStep(id: Id)
    | EnableStep(id: Id)
    | ClaimStep(poller: Poller, now: Time, limit: nat, ids: seq<Id>)
    | FireStep(poller: Poller, id: Id, accepted: bool)
    | UpsertStep(poller: Poller, id: Id)

  function FiredOf(s: Cluster, id: Id): seq<Firing> {
    if id in s.fired then s.fired[id] else []
  }

  /** Every firing was scheduled before `bound`. */
  ghost predicate FiredBefore(fs: seq<Firing>, bound: Time) {
    forall i :: 0 <= i < |fs| ==> fs[i].scheduled < bound
  }

  predicate Claimed(claims: map<(Poller, Id), Claim>, id: Id) {
    exists c :: c in claims && c.1 == id
  }

  /** The cron library, the expressions ever registered under each id, and the start of the run. */
  datatype World = World(next: NextAfter, cronsOf: Id -> set<string>, epoch: Time)

  ghost predicate Init(w: World, s: Cluster) {
    s == Cluster(map[], s.clock, map[], map[]) && w.epoch <= s.clock
  }

  // Each step happens at time `t.clock`; `s` is the state before it with the clock moved there.

  /** Registration computes the first run from a reading taken before it writes. */
  ghost predicate DoRegister(w: World, s: Cluster, r: Template, from: Time, t: Cluster) {
    && !Claimed(s.claims, r.id)
    && w.epoch <= from <= t.clock
    && r.cron in w.cronsOf(r.id)
    && r.enabled
    && w.next(r.cron, from) == Some(r.nextRunAt)
    && t == s.(templates := s.templates[r.id := r])
  }

  ghost predicate DoRemove(s: Cluster, id: Id, t: Cluster) {
    !Claimed(s.claims, id) && t == s.(templates := s.templates - {id})
  }

  ghost predicate DoDisable(s: Cluster, id: Id, t: Cluster) {
    && !Claimed(s.claims, id)
    && t == if id in s.templates then s.(templates := s.templates[id := s.templates[id].(enabled := false)]) else s
  }

  ghost predicate DoEnable(s: Cluster, id: Id, t: Cluster) {
    && !Claimed(s.claims, id)
    && t == if id in s.templates then s.(templates := s.templates[id := s.templates[id].(enabled := true)]) else s
  }

  /** The next run of the row, if there is one, was not fired yet. */
  ghost predicate Unfired(s: Cluster, id: Id) {
    id in s.templates ==> FiredBefore(FiredOf(s, id), s.templates[id].nextRunAt)
  }

  ghost predicate DoClaim(s: Cluster, poller: Poller, now: Time, limit: nat, ids: seq<Id>, t: Cluster) {
    && now <= t.clock
    && (forall c :: c in s.claims ==> c.0 != poller)
    && TopPrefix(DueKeys(s.templates, now), limit, ids)
    && Takes(s, poller, now, ids, t)
  }

  /** The selected rows are parked and claimed. */
  ghost predicate Takes(s: Cluster, poller: Poller, now: Time, ids: seq<Id>, t: Cluster) {
    t == s.(templates := Parked(s.templates, Elements(ids), now),
            claims := s.claims + NewClaims(s.templates, poller, Elements(ids), now))
  }

  function NewClaims(m: Templates, poller: Poller, ids: set<Id>, now: Time): map<(Poller, Id), Claim> {
    map c: (Poller, Id) | c in (set id | id in ids :: (poller, id)) && c.1 in m :: Claim(m[c.1], now, false)
  }

  ghost predicate DoFire(s: Cluster, poller: Poller, id: Id, accepted: bool, t: Cluster) {
    var c := (poller, id);
    && c in s.claims
    && !s.claims[c].fired
    && var f := Firing(s.claims[c].template.cron, s.claims[c].template.nextRunAt, t.clock);
       t == s.(claims := s.claims[c := s.claims[c].(fired := true)],
               fired := if accepted then s.fired[id := FiredOf(s, id) + [f]] else s.fired)
  }

  ghost predicate DoUpsert(w: World, s: Cluster, poller: Poller, id: Id, t: Cluster) {
    var c := (poller, id);
    && c in s.claims
    && s.claims[c].fired
    && t == s.(templates := s.templates[id := Advanced(w.next, s.claims[c].template, s.claims[c].now, t.clock)],
               claims := s.claims - {c})
  }

  ghost predicate Next(w: World, s: Cluster, l: Step, t: Cluster) {
    && s.clock <= t.clock
    && var s := s.(clock := t.clock);
       match l
       case RegisterStep(r, from) => DoRegister(w, s, r, from, t)
       case RemoveStep(id) => DoRemove(s, id, t)
       case DisableStep(id) => DoDisable(s, id, t)
       case EnableStep(id) => DoEnable(s, id, t)
       case ClaimStep(poller, now, limit, ids) => DoClaim(s, poller, now, limit, ids, t)
       case FireStep(poller, id, accepted) => DoFire(s, poller, id, accepted, t)
       case UpsertStep(poller, id) => DoUpsert(w, s, poller, id, t)
  }

  /** The step does not set a template up for a run that was fired already. */
  ghost predicate Fresh(s: Cluster, l: Step) {
    && (l.RegisterStep? ==> FiredBefore(FiredOf(s, l.template.id), l.template.nextRunAt))
    && (l.EnableStep? ==> Unfired(s, l.id))
  }

  /** None of the first `n` steps does. */
  ghost predicate FreshRun(tr: seq<Cluster>, steps: seq<Step>, n: nat)
    requires n <= |steps| < |tr|
  {
    forall i :: 0 <= i < n ==> Fresh(tr[i], steps[i])
  }

  /** No claim stays outstanding for the parking time. */
  ghost predicate Prompt(s: Cluster, t: Cluster) {
    forall c :: c in s.claims ==> t.clock < s.claims[c].now + PARK
  }

  ghost predicate IsRun(w: World, tr: seq<Cluster>, steps: seq<Step>) {
    && |tr| == |steps| + 1
    && Init(w, tr[0])
    && forall i :: 0 <= i < |steps| ==> NextAt(w, tr, steps, i)
  }

  ghost predicate NextAt(w: World, tr: seq<Cluster>, steps: seq<Step>, i: nat)
    requires i < |steps| < |tr|
  {
    Next(w, tr[i], steps[i], tr[i + 1]) && Prompt(tr[i], tr[i + 1])
  }

  // ----- what every run keeps -----

  /** A claim and the parked row behind it. */
  ghost predicate GoodClaim(w: World, occurs: (string, Time) -> bool, clock: Time, rows: Templates, fs: seq<Firing>,
                            id: Id, c: Claim)
  {
    && c.template.id == id
    && c.template.cron in w.cronsOf(id)
    && c.template.enabled
    && occurs(c.template.cron, c.template.nextRunAt)
    && w.epoch < c.template.nextRunAt <= c.now <= clock
    && id in rows
    && rows[id].nextRunAt == c.now + PARK
    && FiredBefore(fs, c.now + 1)
    && (!c.fired ==> FiredBefore(fs, c.template.nextRunAt))
  }

  /** The next run of a row nobody has claimed is an occurrence, and one not fired yet if the row may fire. */
  ghost predicate GoodRow(w: World, occurs: (string, Time) -> bool, claimed: bool, fs: seq<Firing>, id: Id,
                          r: Template)
  {
    && r.id == id
    && r.cron in w.cronsOf(id)
    && (!claimed ==> occurs(r.cron, r.nextRunAt) && w.epoch < r.nextRunAt)
    && (r.enabled && !claimed ==> FiredBefore(fs, r.nextRunAt))
  }

  /** The firing is an occurrence of an expression registered under the id. */
  predicate IsOccurrence(w: World, occurs: (string, Time) -> bool, id: Id, f: Firing) {
    f.cron in w.cronsOf(id) && occurs(f.cron, f.scheduled)
  }

  /** No run is fired twice, and runs are fired in order. */
  ghost predicate Increasing(fs: seq<Firing>) {
    forall i, j :: 0 <= i < j < |fs| ==> fs[i].scheduled < fs[j].scheduled
  }

  /** Firings of one template: occurrences of its expressions, strictly increasing, none ahead of time. */
  ghost predicate GoodLog(w: World, occurs: (string, Time) -> bool, clock: Time, id: Id, fs: seq<Firing>) {
    && (forall i :: 0 <= i < |fs| ==>
          w.epoch < fs[i].scheduled <= fs[i].at <= clock && IsOccurrence(w, occurs, id, fs[i]))
    && Increasing(fs)
  }

  ghost predicate OneClaimEach(s: Cluster) {
    forall c, c' :: c in s.claims && c' in s.claims && c.1 == c'.1 ==> c == c'
  }

  ghost predicate Inv(w: World, occurs: (string, Time) -> bool, s: Cluster) {
    && OneClaimEach(s)
    && GoodClaims(w, occurs, s)
    && GoodRows(w, occurs, s)
    && (forall id :: id in s.fired ==> GoodLog(w, occurs, s.clock, id, s.fired[id]))
  }

  ghost predicate GoodClaims(w: World, occurs: (string, Time) -> bool, s: Cluster) {
    forall c :: c in s.claims ==> GoodClaim(w, occurs, s.clock, s.templates, FiredOf(s, c.1), c.1, s.claims[c])
  }

  ghost predicate GoodRows(w: World, occurs: (string, Time) -> bool, s: Cluster) {
    forall id :: id in s.templates ==> GoodRow(w, occurs, Claimed(s.claims, id), FiredOf(s, id), id, s.templates[id])
  }

  /** A claimed row is parked past every clock reading, so it is not due. */
  lemma ClaimedNotDue(w: World, occurs: (string, Time) -> bool, s: Cluster, t: Cluster, now: Time, id: Id)
    requires Inv(w, occurs, s) && Prompt(s, t) && now <= t.clock && Claimed(s.claims, id) && id in s.templates
    ensures !IsDue(s.templates[id], now)
  {
    var c :| c in s.claims && c.1 == id;
    assert GoodClaim(w, occurs, s.clock, s.templates, FiredOf(s, c.1), c.1, s.claims[c]);
  }

  lemma RegisterKeeps(w: World, occurs: (string, Time) -> bool, s: Cluster, r: Template, from: Time, t: Cluster)
    requires Inv(w, occurs, s) && Lawful(w.next, occurs) && DoRegister(w, s, r, from, t)
    requires FiredBefore(FiredOf(s, r.id), r.nextRunAt)
    ensures Inv(w, occurs, t)
  {
    assert Claimed(t.claims, r.id) == Claimed(s.claims, r.id);
    forall c | c in t.claims
      ensures GoodClaim(w, occurs, t.clock, t.templates, FiredOf(t, c.1), c.1, t.claims[c])
    {
      assert GoodClaim(w, occurs, s.clock, s.templates, FiredOf(s, c.1), c.1, s.claims[c]);
    }
    forall id | id in t.templates
      ensures GoodRow(w, occurs, Claimed(t.claims, id), FiredOf(t, id), id, t.templates[id])
    {
      assert id in s.templates ==> GoodRow(w, occurs, Claimed(s.claims, id), FiredOf(s, id), id, s.templates[id]);
    }
    forall id | id in t.fired
      ensures GoodLog(w, occurs, t.clock, id, t.fired[id])
    {
      assert GoodLog(w, occurs, s.clock, id, s.fired[id]);
    }
  }

  /** Removing, disabling or enabling an unclaimed row. */
  lemma EditKeeps(w: World, occurs: (string, Time) -> bool, s: Cluster, id: Id, t: Cluster)
    requires Inv(w, occurs, s) && !Claimed(s.claims, id)
    requires t.clock == s.clock && t.claims == s.claims && t.fired == s.fired
    requires t.templates.Keys <= s.templates.Keys
    requires forall i :: i in s.templates && i != id ==> i in t.templates && t.templates[i] == s.templates[i]
    requires id in t.templates ==> t.templates[id].(enabled := false) == s.templates[id].(enabled := false)
    requires id in t.templates && t.templates[id].enabled ==> Unfired(s, id)
    ensures Inv(w, occurs, t)
  {
    forall c | c in t.claims
      ensures GoodClaim(w, occurs, t.clock, t.templates, FiredOf(t, c.1), c.1, t.claims[c])
    {
      assert GoodClaim(w, occurs, s.clock, s.templates, FiredOf(s, c.1), c.1, s.claims[c]);
      assert Claimed(s.claims, c.1);
    }
    forall i | i in t.templates
      ensures GoodRow(w, occurs, Claimed(t.claims, i), FiredOf(t, i), i, t.templates[i])
    {
      assert GoodRow(w, occurs, Claimed(s.claims, i), FiredOf(s, i), i, s.templates[i]);
    }
  }

  lemma RemoveKeeps(w: World, occurs: (string, Time) -> bool, s: Cluster, id: Id, t: Cluster)
    requires Inv(w, occurs, s) && DoRemove(s, id, t)
    ensures Inv(w, occurs, t)
  {
    EditKeeps(w, occurs, s, id, t);
  }

  lemma DisableKeeps(w: World, occurs: (string, Time) -> bool, s: Cluster, id: Id, t: Cluster)
    requires Inv(w, occurs, s) && DoDisable(s, id, t)
    ensures Inv(w, occurs, t)
  {
    EditKeeps(w, occurs, s, id, t);
  }

  lemma EnableKeeps(w: World, occurs: (string, Time) -> bool, s: Cluster, id: Id, t: Cluster)
    requires Inv(w, occurs, s) && DoEnable(s, id, t) && Unfired(s, id)
    ensures Inv(w, occurs, t)
  {
    EditKeeps(w, occurs, s, id, t);
  }

  /** Moving the clock alone. */
  lemma ClockKeeps(w: World, occurs: (string, Time) -> bool, s: Cluster, now: Time)
    requires Inv(w, occurs, s) && s.clock <= now
    ensures Inv(w, occurs, s.(clock := now))
  {
    var t := s.(clock := now);
    forall c | c in t.claims
      ensures GoodClaim(w, occurs, t.clock, t.templates, FiredOf(t, c.1), c.1, t.claims[c])
    {
      assert GoodClaim(w, occurs, s.clock, s.templates, FiredOf(s, c.1), c.1, s.claims[c]);
    }
    forall i | i in t.templates
      ensures GoodRow(w, occurs, Claimed(t.claims, i), FiredOf(t, i), i, t.templates[i])
    {
      assert GoodRow(w, occurs, Claimed(s.claims, i), FiredOf(s, i), i, s.templates[i]);
      assert Claimed(t.claims, i) == Claimed(s.claims, i);
    }
    forall i | i in t.fired
      ensures GoodLog(w, occurs, t.clock, i, t.fired[i])
    {
      assert GoodLog(w, occurs, s.clock, i, s.fired[i]);
    }
  }

  /** Claimed templates were due and nobody else's. */
  lemma ClaimsAreFree(w: World, occurs: (string, Time) -> bool, s: Cluster, now: Time, ids: seq<Id>, t: Cluster)
    requires Inv(w, occurs, s) && Prompt(s, t) && now <= t.clock
    requires Elements(ids) <= DueKeys(s.templates, now).Keys
    ensures forall id :: id in ids ==> id in s.templates && IsDue(s.templates[id], now) && !Claimed(s.claims, id)
  {
    forall id | id in ids
      ensures id in s.templates && IsDue(s.templates[id], now) && !Claimed(s.claims, id)
    {
      assert id in Elements(ids);
      assert id in DueKeys(s.templates, now);
      if Claimed(s.claims, id) {
        ClaimedNotDue(w, occurs, s, t, now, id);
      }
    }
  }

  lemma ClaimShape(s: Cluster, poller: Poller, now: Time, ids: seq<Id>, t: Cluster)
    requires Takes(s, poller, now, ids, t) && now <= t.clock && forall c :: c in s.claims ==> c.0 != poller
    requires forall id :: id in ids ==> id in s.templates && IsDue(s.templates[id], now) && !Claimed(s.claims, id)
    ensures IsClaimOf(s, poller, now, ids, t)
  {
    var added := NewClaims(s.templates, poller, Elements(ids), now);
    forall c: (Poller, Id)
      ensures c in added <==> c.0 == poller && c.1 in ids
      ensures c in added ==> added[c] == Claim(s.templates[c.1], now, false)
    {
    }
  }

  /** What a claim step does, entry by entry. */
  ghost predicate IsClaimOf(s: Cluster, poller: Poller, now: Time, ids: seq<Id>, t: Cluster) {
    && t.clock == s.clock && t.fired == s.fired && now <= t.clock
    && (forall id :: id in ids ==> id in s.templates && IsDue(s.templates[id], now) && !Claimed(s.claims, id))
    && AddsClaims(s, poller, now, ids, t)
    && (forall id :: id in t.templates <==> id in s.templates)
    && (forall id :: id in t.templates ==>
          t.templates[id] == if id in ids then s.templates[id].(nextRunAt := now + PARK) else s.templates[id])
  }

  ghost predicate AddsClaims(s: Cluster, poller: Poller, now: Time, ids: seq<Id>, t: Cluster) {
    && (forall c :: c in t.claims <==> c in s.claims || (c.0 == poller && c.1 in ids))
    && (forall c :: c in t.claims && c.0 == poller ==>
          c.1 in s.templates && t.claims[c] == Claim(s.templates[c.1], now, false))
    && (forall c :: c in s.claims ==> c.0 != poller && t.claims[c] == s.claims[c])
  }

  lemma ClaimKeeps(w: World, occurs: (string, Time) -> bool, s: Cluster, poller: Poller, now: Time, limit: nat,
                   ids: seq<Id>, t: Cluster)
    requires Inv(w, occurs, s) && Prompt(s, t) && DoClaim(s, poller, now, limit, ids, t)
    ensures Inv(w, occurs, t)
  {
    ClaimsAreFree(w, occurs, s, now, ids, t);
    ClaimShape(s, poller, now, ids, t);
    ClaimOnce(s, poller, now, ids, t);
    ClaimClaims(w, occurs, s, poller, now, ids, t);
    ClaimRows(w, occurs, s, poller, now, ids, t);
  }

  lemma ClaimClaims(w: World, occurs: (string, Time) -> bool, s: Cluster, poller: Poller, now: Time, ids: seq<Id>,
                    t: Cluster)
    requires Inv(w, occurs, s) && IsClaimOf(s, poller, now, ids, t)
    ensures GoodClaims(w, occurs, t)
  {
    forall c | c in t.claims
      ensures GoodClaim(w, occurs, t.clock, t.templates, FiredOf(t, c.1), c.1, t.claims[c])
    {
      if c in s.claims {
        assert GoodClaim(w, occurs, s.clock, s.templates, FiredOf(s, c.1), c.1, s.claims[c]);
        assert Claimed(s.claims, c.1);
      }
    }
  }

  lemma ClaimOnce(s: Cluster, poller: Poller, now: Time, ids: seq<Id>, t: Cluster)
    requires OneClaimEach(s) && IsClaimOf(s, poller, now, ids, t)
    ensures OneClaimEach(t)
  {
    forall c, c' | c in t.claims && c' in t.claims && c.1 == c'.1
      ensures c == c'
    {
      assert c in s.claims ==> Claimed(s.claims, c.1);
      assert c' in s.claims ==> Claimed(s.claims, c'.1);
    }
  }

  lemma ClaimRows(w: World, occurs: (string, Time) -> bool, s: Cluster, poller: Poller, now: Time, ids: seq<Id>,
                  t: Cluster)
    requires Inv(w, occurs, s) && IsClaimOf(s, poller, now, ids, t)
    ensures GoodRows(w, occurs, t)
  {
    forall id | id in t.templates
      ensures GoodRow(w, occurs, Claimed(t.claims, id), FiredOf(t, id), id, t.templates[id])
    {
      assert GoodRow(w, occurs, Claimed(s.claims, id), FiredOf(s, id), id, s.templates[id]);
      if id in ids {
        assert (poller, id) in t.claims;
        assert Claimed(t.claims, id);
      } else if Claimed(s.claims, id) {
        var c :| c in s.claims && c.1 == id;
        assert c in t.claims;
        assert Claimed(t.claims, id);
      }
    }
  }

  /** Firing one claim extends only its own log. */
  lemma FireKeeps(w: World, occurs: (string, Time) -> bool, s: Cluster, poller: Poller, id: Id, accepted: bool,
                  t: Cluster)
    requires Inv(w, occurs, s) && DoFire(s, poller, id, accepted, t)
    ensures Inv(w, occurs, t)
  {
    var mine := (poller, id);
    var f := Firing(s.claims[mine].template.cron, s.claims[mine].template.nextRunAt, t.clock);
    assert t.claims.Keys == s.claims.Keys;
    FireEffect(w, occurs, s, mine, f, accepted, t);
    FireClaims(w, occurs, s, mine, t);
    FireRows(w, occurs, s, mine, t);
  }

  lemma FireClaims(w: World, occurs: (string, Time) -> bool, s: Cluster, mine: (Poller, Id), t: Cluster)
    requires OneClaimEach(s) && GoodClaims(w, occurs, s) && mine in s.claims
    requires t.claims == s.claims[mine := s.claims[mine].(fired := true)]
      && t.templates == s.templates && t.clock == s.clock
    requires forall i :: i != mine.1 ==> FiredOf(t, i) == FiredOf(s, i)
    requires GoodClaim(w, occurs, t.clock, t.templates, FiredOf(t, mine.1), mine.1, s.claims[mine].(fired := true))
    ensures GoodClaims(w, occurs, t) && OneClaimEach(t)
  {
    forall c | c in t.claims
      ensures GoodClaim(w, occurs, t.clock, t.templates, FiredOf(t, c.1), c.1, t.claims[c])
    {
      assert GoodClaim(w, occurs, s.clock, s.templates, FiredOf(s, c.1), c.1, s.claims[c]);
      assert c.1 == mine.1 ==> c == mine;
    }
  }

  lemma FireRows(w: World, occurs: (string, Time) -> bool, s: Cluster, mine: (Poller, Id), t: Cluster)
    requires GoodRows(w, occurs, s) && mine in s.claims && t.claims.Keys == s.claims.Keys && t.templates == s.templates
    requires forall i :: i != mine.1 ==> FiredOf(t, i) == FiredOf(s, i)
    ensures GoodRows(w, occurs, t)
  {
    forall i | i in t.templates
      ensures GoodRow(w, occurs, Claimed(t.claims, i), FiredOf(t, i), i, t.templates[i])
    {
      assert GoodRow(w, occurs, Claimed(s.claims, i), FiredOf(s, i), i, s.templates[i]);
    }
  }

  /** The logs and the fired claim after a firing. */
  lemma FireEffect(w: World, occurs: (string, Time) -> bool, s: Cluster, mine: (Poller, Id), f: Firing, accepted: bool,
                   t: Cluster)
    requires Inv(w, occurs, s) && mine in s.claims && !s.claims[mine].fired
    requires f == Firing(s.claims[mine].template.cron, s.claims[mine].template.nextRunAt, t.clock) && t.clock == s.clock
    requires t.fired == if accepted then s.fired[mine.1 := FiredOf(s, mine.1) + [f]] else s.fired
    requires t.templates == s.templates
    ensures forall i :: i != mine.1 ==> FiredOf(t, i) == FiredOf(s, i)
    ensures GoodClaim(w, occurs, t.clock, t.templates, FiredOf(t, mine.1), mine.1, s.claims[mine].(fired := true))
    ensures forall i :: i in t.fired ==> GoodLog(w, occurs, t.clock, i, t.fired[i])
  {
    var fs := FiredOf(s, mine.1);
    assert GoodClaim(w, occurs, s.clock, s.templates, fs, mine.1, s.claims[mine]);
    assert GoodLog(w, occurs, s.clock, mine.1, fs);
    LogExtends(w, occurs, s.clock, mine.1, fs, f);
  }

  lemma LogExtends(w: World, occurs: (string, Time) -> bool, clock: Time, id: Id, fs: seq<Firing>, f: Firing)
    requires GoodLog(w, occurs, clock, id, fs) && FiredBefore(fs, f.scheduled)
    requires w.epoch < f.scheduled <= f.at <= clock && IsOccurrence(w, occurs, id, f)
    ensures GoodLog(w, occurs, clock, id, fs + [f])
    ensures forall bound :: FiredBefore(fs, bound) && f.scheduled < bound ==> FiredBefore(fs + [f], bound)
  {
  }

  lemma UpsertKeeps(w: World, occurs: (string, Time) -> bool, s: Cluster, poller: Poller, id: Id, t: Cluster)
    requires Inv(w, occurs, s) && Lawful(w.next, occurs) && DoUpsert(w, s, poller, id, t)
    ensures Inv(w, occurs, t)
  {
    var mine := (poller, id);
    assert GoodClaim(w, occurs, s.clock, s.templates, FiredOf(s, id), id, s.claims[mine]);
    AdvancedIsGood(w, occurs, s.clock, s.templates, FiredOf(s, id), id, s.claims[mine], t.clock);
    UpsertClaims(w, occurs, s, mine, t);
    UpsertRows(w, occurs, s, mine, t);
  }

  lemma UpsertClaims(w: World, occurs: (string, Time) -> bool, s: Cluster, mine: (Poller, Id), t: Cluster)
    requires OneClaimEach(s) && GoodClaims(w, occurs, s) && mine in s.claims && mine.1 in t.templates
    requires t == s.(templates := s.templates[mine.1 := t.templates[mine.1]], claims := s.claims - {mine})
    ensures GoodClaims(w, occurs, t) && OneClaimEach(t)
  {
    forall c | c in t.claims
      ensures GoodClaim(w, occurs, t.clock, t.templates, FiredOf(t, c.1), c.1, t.claims[c])
    {
      assert GoodClaim(w, occurs, s.clock, s.templates, FiredOf(s, c.1), c.1, s.claims[c]);
      assert c.1 != mine.1;
    }
  }

  lemma UpsertRows(w: World, occurs: (string, Time) -> bool, s: Cluster, mine: (Poller, Id), t: Cluster)
    requires GoodRows(w, occurs, s) && mine in s.claims && mine.1 in t.templates
    requires t == s.(templates := s.templates[mine.1 := t.templates[mine.1]], claims := s.claims - {mine})
    requires forall claimed :: GoodRow(w, occurs, claimed, FiredOf(s, mine.1), mine.1, t.templates[mine.1])
    ensures GoodRows(w, occurs, t)
  {
    forall i | i in t.templates
      ensures GoodRow(w, occurs, Claimed(t.claims, i), FiredOf(t, i), i, t.templates[i])
    {
      if i != mine.1 {
        assert GoodRow(w, occurs, Claimed(s.claims, i), FiredOf(s, i), i, s.templates[i]);
        OthersStayClaimed(s, mine, i);
      } else {
        assert GoodRow(w, occurs, Claimed(t.claims, i), FiredOf(s, i), i, t.templates[i]);
      }
    }
  }

  lemma OthersStayClaimed(s: Cluster, mine: (Poller, Id), i: Id)
    requires i != mine.1
    ensures Claimed(s.claims - {mine}, i) == Claimed(s.claims, i)
  {
    if Claimed(s.claims, i) {
      var c :| c in s.claims && c.1 == i;
      assert c in s.claims - {mine};
    }
  }

  /** A row written back after its claim is ready for its next run, claimed or not. */
  lemma AdvancedIsGood(w: World, occurs: (string, Time) -> bool, clock: Time, rows: Templates, fs: seq<Firing>, id: Id,
                       c: Claim, updated: Time)
    requires GoodClaim(w, occurs, clock, rows, fs, id, c) && Lawful(w.next, occurs)
    ensures forall claimed :: GoodRow(w, occurs, claimed, fs, id, Advanced(w.next, c.template, c.now, updated))
  {
  }

  lemma StepKeeps(w: World, occurs: (string, Time) -> bool, s: Cluster, l: Step, t: Cluster)
    requires Inv(w, occurs, s) && Lawful(w.next, occurs) && Next(w, s, l, t) && Prompt(s, t) && Fresh(s, l)
    ensures Inv(w, occurs, t)
  {
    ClockKeeps(w, occurs, s, t.clock);
    var s' := s.(clock := t.clock);
    match l
    case RegisterStep(r, from) => RegisterKeeps(w, occurs, s', r, from, t);
    case RemoveStep(id) => RemoveKeeps(w, occurs, s', id, t);
    case DisableStep(id) => DisableKeeps(w, occurs, s', id, t);
    case EnableStep(id) => EnableKeeps(w, occurs, s', id, t);
    case ClaimStep(poller, now, limit, ids) => ClaimKeeps(w, occurs, s', poller, now, limit, ids, t);
    case FireStep(poller, id, accepted) => FireKeeps(w, occurs, s', poller, id, accepted, t);
    case UpsertStep(poller, id) => UpsertKeeps(w, occurs, s', poller, id, t);
  }

  lemma {:induction false} RunKeeps(w: World, occurs: (string, Time) -> bool, tr: seq<Cluster>, steps: seq<Step>,
                                    n: nat)
    requires IsRun(w, tr, steps) && Lawful(w.next, occurs) && n < |tr| && FreshRun(tr, steps, n)
    ensures Inv(w, occurs, tr[n])
    decreases n
  {
    if n > 0 {
      RunKeeps(w, occurs, tr, steps, n - 1);
      RunStep(w, tr, steps, n - 1);
      StepKeeps(w, occurs, tr[n - 1], steps[n - 1], tr[n]);
    }
  }

  lemma RunStep(w: World, tr: seq<Cluster>, steps: seq<Step>, i: nat)
    requires IsRun(w, tr, steps) && i < |steps|
    ensures Next(w, tr[i], steps[i], tr[i + 1]) && Prompt(tr[i], tr[i + 1])
  {
    assert NextAt(w, tr, steps, i);
  }

  // ----- the at-most-once law -----

  predicate OccursIn(occurs: (string, Time) -> bool, crons: set<string>, u: Time) {
    exists cron :: cron in crons && occurs(cron, u)
  }

  /** Instants in (lo, hi] at which one of the expressions occurs. */
  ghost function Occurrences(occurs: (string, Time) -> bool, crons: set<string>, lo: Time, hi: Time): set<Time> {
    set u | lo < u <= hi && OccursIn(occurs, crons, u)
  }

  function FiringsBy(fs: seq<Firing>, t: Time): nat {
    if fs == [] then 0
    else FiringsBy(fs[..|fs| - 1], t) + if fs[|fs| - 1].at <= t then 1 else 0
  }

  /** Scheduled instants of the firings made by `t`. */
  ghost function ScheduledBy(fs: seq<Firing>, t: Time): set<Time> {
    set i | 0 <= i < |fs| && fs[i].at <= t :: fs[i].scheduled
  }

  lemma {:induction false} FiringsAreDistinct(fs: seq<Firing>, t: Time)
    requires Increasing(fs)
    ensures FiringsBy(fs, t) == |ScheduledBy(fs, t)|
  {
    if fs != [] {
      var front, last := fs[..|fs| - 1], fs[|fs| - 1];
      FiringsAreDistinct(front, t);
      var before := ScheduledBy(front, t);
      assert last.scheduled !in before;
      ScheduledSnoc(front, last, t);
      assert fs == front + [last];
    }
  }

  lemma ScheduledSnoc(front: seq<Firing>, last: Firing, t: Time)
    ensures ScheduledBy(front + [last], t) == ScheduledBy(front, t) + if last.at <= t then {last.scheduled} else {}
  {
    var fs := front + [last];
    forall u | u in ScheduledBy(front, t)
      ensures u in ScheduledBy(fs, t)
    {
      var i :| 0 <= i < |front| && front[i].at <= t && front[i].scheduled == u;
      assert fs[i] == front[i];
    }
    assert fs[|front|] == last;
  }

  /**
   Over any interleaving of any number of pollers: at most one outstanding claim per template, strictly
   increasing scheduled times, each an occurrence that was due, and at no time more firings than occurrences.
   */
  lemma AtMostOnce(w: World, occurs: (string, Time) -> bool, tr: seq<Cluster>, steps: seq<Step>, n: nat, id: Id,
                   t: Time)
    requires IsRun(w, tr, steps) && Lawful(w.next, occurs) && n < |tr| && FreshRun(tr, steps, n)
    ensures OneClaimEach(tr[n])
    ensures var fs := FiredOf(tr[n], id);
      && Increasing(fs)
      && (forall i :: 0 <= i < |fs| ==> fs[i].scheduled <= fs[i].at && IsOccurrence(w, occurs, id, fs[i]))
      && FiringsBy(fs, t) <= |Occurrences(occurs, w.cronsOf(id), w.epoch, t)|
  {
    RunKeeps(w, occurs, tr, steps, n);
    var fs := FiredOf(tr[n], id);
    if id in tr[n].fired {
      assert GoodLog(w, occurs, tr[n].clock, id, fs);
    }
    FiringsAreDistinct(fs, t);
    SubsetSize(ScheduledBy(fs, t), Occurrences(occurs, w.cronsOf(id), w.epoch, t));
  }
}
