/** Exactly which runs of the recurring pollers fire no run twice, and the two ways to get it wrong. */
module Firings {
  import opened JobModel
  import opened Ranking
  import opened Recurring

  /** Every template's firings so far are in order, none repeated. */
  ghost predicate FiresInOrder(s: Cluster) {
    forall id :: id in s.fired ==> Increasing(s.fired[id])
  }

  /** A poller claims in state `s`, and then one of its claims is materialized. */
  ghost predicate ClaimAndFire(w: World, s: Cluster, l: Step, u: Cluster, m: Step, v: Cluster) {
    && l.ClaimStep? && Next(w, s, l, u) && Prompt(s, u)
    && m.FireStep? && Next(w, u, m, v) && Prompt(u, v)
  }

  /** A firing adds the run its claim was scheduled for, so it is in order exactly when that run was not fired. */
  lemma FiringIff(fs: seq<Firing>, f: Firing)
    requires Increasing(fs)
    ensures Increasing(fs + [f]) <==> FiredBefore(fs, f.scheduled)
  {
    if Increasing(fs + [f]) {
      forall i | 0 <= i < |fs|
        ensures fs[i].scheduled < f.scheduled
      {
        assert (fs + [f])[i] == fs[i] && (fs + [f])[|fs|] == f;
      }
    }
  }

  lemma {:induction false} Above(s: set<nat>) returns (p: nat)
    ensures forall x :: x in s ==> x < p
    decreases |s|
  {
    p := 0;
    if s != {} {
      var x :| x in s;
      var q := Above(s - {x});
      p := if q <= x then x + 1 else q;
      forall y | y in s
        ensures y < p
      {
        assert y == x || y in s - {x};
      }
    }
  }

  /** Some poller has no claim. */
  lemma IdlePoller(s: Cluster) returns (p: Poller)
    ensures forall c :: c in s.claims ==> c.0 != p
  {
    var busy := set c | c in s.claims :: c.0;
    p := Above(busy);
    forall c | c in s.claims
      ensures c.0 != p
    {
      assert c.0 in busy;
    }
  }

  /** An idle poller may claim everything that is due. */
  lemma ClaimAll(s: Cluster, p: Poller) returns (limit: nat, ids: seq<Id>, u: Cluster)
    requires forall c :: c in s.claims ==> c.0 != p
    ensures DoClaim(s, p, s.clock, limit, ids, u)
    ensures Elements(ids) == DueKeys(s.templates, s.clock).Keys
  {
    ids := ListingExists(DueKeys(s.templates, s.clock));
    limit := |DueKeys(s.templates, s.clock)|;
    ListingIsTop(DueKeys(s.templates, s.clock), ids, limit);
    u := s.(templates := Parked(s.templates, Elements(ids), s.clock),
            claims := s.claims + NewClaims(s.templates, p, Elements(ids), s.clock));
  }

  lemma FireNext(s: Cluster, p: Poller, id: Id, r: Template, now: Time) returns (t: Cluster)
    requires (p, id) in s.claims && s.claims[(p, id)] == Claim(r, now, false)
    ensures DoFire(s, p, id, true, t) && t.clock == s.clock
    ensures t.fired == s.fired[id := FiredOf(s, id) + [Firing(r.cron, r.nextRunAt, s.clock)]]
  {
    var c := (p, id);
    t := s.(claims := s.claims[c := s.claims[c].(fired := true)],
            fired := s.fired[id := FiredOf(s, id) + [Firing(r.cron, r.nextRunAt, s.clock)]]);
  }

  /** A template that is enabled, unclaimed and due may be claimed and fired at once. */
  lemma FiresAgain(w: World, s: Cluster, id: Id) returns (l: Step, u: Cluster, m: Step, v: Cluster)
    requires id in s.templates && IsDue(s.templates[id], s.clock) && Prompt(s, s)
    ensures ClaimAndFire(w, s, l, u, m, v)
    ensures var f := Firing(s.templates[id].cron, s.templates[id].nextRunAt, s.clock);
      v.fired == s.fired[id := FiredOf(s, id) + [f]]
  {
    var p := IdlePoller(s);
    var limit, ids;
    limit, ids, u := ClaimAll(s, p);
    assert id in DueKeys(s.templates, s.clock).Keys;
    v := FireNext(u, p, id, s.templates[id], s.clock);
    l, m := ClaimStep(p, s.clock, limit, ids), FireStep(p, id, true);
    StillPrompt(s, p, ids, u);
    assert s.(clock := u.clock) == s && u.(clock := v.clock) == u;
    assert Next(w, s, l, u) && Next(w, u, m, v);
  }

  lemma StillPrompt(s: Cluster, p: Poller, ids: seq<Id>, u: Cluster)
    requires u.claims == s.claims + NewClaims(s.templates, p, Elements(ids), s.clock)
      && u.clock == s.clock && Prompt(s, s)
    ensures Prompt(s, u) && Prompt(u, u)
  {
    forall c | c in u.claims
      ensures u.clock < u.claims[c].now + PARK
    {
    }
  }

  /** What a step that is not fresh leaves: an enabled template, due already, whose run was fired. */
  lemma StaleIsDue(w: World, occurs: (string, Time) -> bool, s: Cluster, l: Step, t: Cluster) returns (id: Id)
    requires Inv(w, occurs, s) && Next(w, s, l, t) && !Fresh(s, l)
    ensures id in t.templates && IsDue(t.templates[id], t.clock) && t.claims == s.claims && t.fired == s.fired
    ensures !FiredBefore(FiredOf(t, id), t.templates[id].nextRunAt) && Increasing(FiredOf(t, id))
  {
    id := if l.RegisterStep? then l.template.id else l.id;
    var fs := FiredOf(s, id);
    assert GoodLog(w, occurs, s.clock, id, fs);
    var i :| 0 <= i < |fs| && !(fs[i].scheduled < t.templates[id].nextRunAt);
    assert fs[i].scheduled <= s.clock;
  }

  lemma StaleFiresTwice(w: World, occurs: (string, Time) -> bool, s: Cluster, l: Step, t: Cluster)
    returns (l': Step, u: Cluster, m: Step, v: Cluster)
    requires Inv(w, occurs, s) && Next(w, s, l, t) && Prompt(s, t) && !Fresh(s, l)
    ensures ClaimAndFire(w, t, l', u, m, v) && !FiresInOrder(v)
  {
    var id := StaleIsDue(w, occurs, s, l, t);
    l', u, m, v := FiresAgain(w, t, id);
    OutOfOrder(t, v, id, Firing(t.templates[id].cron, t.templates[id].nextRunAt, t.clock));
  }

  lemma OutOfOrder(t: Cluster, v: Cluster, id: Id, f: Firing)
    requires v.fired == t.fired[id := FiredOf(t, id) + [f]]
    requires Increasing(FiredOf(t, id)) && !FiredBefore(FiredOf(t, id), f.scheduled)
    ensures !FiresInOrder(v)
  {
    FiringIff(FiredOf(t, id), f);
    assert id in v.fired && v.fired[id] == FiredOf(t, id) + [f];
  }

  lemma FreshFiresInOrder(w: World, occurs: (string, Time) -> bool, s: Cluster, l: Step, u: Cluster, m: Step,
                          v: Cluster)
    requires Inv(w, occurs, s) && Lawful(w.next, occurs) && ClaimAndFire(w, s, l, u, m, v)
    ensures FiresInOrder(v)
  {
    StepKeeps(w, occurs, s, l, u);
    StepKeeps(w, occurs, u, m, v);
    forall id | id in v.fired
      ensures Increasing(v.fired[id])
    {
      assert GoodLog(w, occurs, v.clock, id, v.fired[id]);
    }
  }

  /** The first step that is not fresh. */
  lemma {:induction false} FirstStale(tr: seq<Cluster>, steps: seq<Step>, n: nat) returns (i: nat)
    requires n <= |steps| < |tr| && !FreshRun(tr, steps, n)
    ensures i < n && FreshRun(tr, steps, i) && !Fresh(tr[i], steps[i])
    decreases n
  {
    if FreshRun(tr, steps, n - 1) {
      i := n - 1;
    } else {
      i := FirstStale(tr, steps, n - 1);
    }
  }

  /**
   From every state of a run, whoever claims and fires next fires in order, exactly when no step of the run
   registers or enables a template for a run that was fired already.
   */
  lemma AtMostOnceIff(w: World, occurs: (string, Time) -> bool, tr: seq<Cluster>, steps: seq<Step>)
    requires IsRun(w, tr, steps) && Lawful(w.next, occurs)
    ensures (forall n, l, u, m, v :: 0 <= n < |tr| && ClaimAndFire(w, tr[n], l, u, m, v) ==> FiresInOrder(v))
        <==> FreshRun(tr, steps, |steps|)
  {
    if FreshRun(tr, steps, |steps|) {
      forall n, l, u, m, v | 0 <= n < |tr| && ClaimAndFire(w, tr[n], l, u, m, v)
        ensures FiresInOrder(v)
      {
        RunKeeps(w, occurs, tr, steps, n);
        FreshFiresInOrder(w, occurs, tr[n], l, u, m, v);
      }
    } else {
      var i := FirstStale(tr, steps, |steps|);
      RunKeeps(w, occurs, tr, steps, i);
      RunStep(w, tr, steps, i);
      var l, u, m, v := StaleFiresTwice(w, occurs, tr[i], steps[i], tr[i + 1]);
      assert ClaimAndFire(w, tr[i + 1], l, u, m, v);
    }
  }

  // ----- a run that fires twice -----

  /** An expression with the one occurrence 1. */
  const ONCE := World((cron: string, from: Time) => if from < 1 then Some(1) else None, (id: Id) => {"once"}, 0)

  const SAMPLE := Template("r", "once", "m", "null", "q", 1, None, 0, 0, true)

  lemma Extend(tr: seq<Cluster>, steps: seq<Step>, l: Step, t: Cluster)
    requires IsRun(ONCE, tr, steps) && Next(ONCE, tr[|steps|], l, t) && Prompt(tr[|steps|], t)
    ensures IsRun(ONCE, tr + [t], steps + [l])
  {
    var tr', steps' := tr + [t], steps + [l];
    forall i | 0 <= i < |steps'|
      ensures NextAt(ONCE, tr', steps', i)
    {
      if i < |steps| {
        assert NextAt(ONCE, tr, steps, i);
        assert steps'[i] == steps[i] && tr'[i] == tr[i] && tr'[i + 1] == tr[i + 1];
      }
    }
  }

  const PARKED := SAMPLE.(nextRunAt := 1 + PARK)
  const USED := SAMPLE.(lastRunAt := Some(1), enabled := false)
  const FIRST := Firing("once", 1, 1)

  /** The template is registered and claimed. */
  lemma ClaimedOnce() returns (tr: seq<Cluster>, steps: seq<Step>)
    ensures IsRun(ONCE, tr, steps) && |steps| == 2
    ensures tr[2] == Cluster(map["r" := PARKED], 1, map[(0, "r") := Claim(SAMPLE, 1, false)], map[])
  {
    var s0 := Cluster(map[], 0, map[], map[]);
    var s1 := s0.(templates := map["r" := SAMPLE]);
    var s2 := Cluster(map["r" := PARKED], 1, map[(0, "r") := Claim(SAMPLE, 1, false)], map[]);
    Extend([s0], [], RegisterStep(SAMPLE, 0), s1);
    assert Next(ONCE, s1, ClaimStep(0, 1, 1, ["r"]), s2);
    tr, steps := [s0] + [s1], [] + [RegisterStep(SAMPLE, 0)];
    Extend(tr, steps, ClaimStep(0, 1, 1, ["r"]), s2);
    tr, steps := tr + [s2], steps + [ClaimStep(0, 1, 1, ["r"])];
  }

  /** Then fired and written back: disabled, with the run it fired. */
  lemma FiredOnce() returns (tr: seq<Cluster>, steps: seq<Step>)
    ensures IsRun(ONCE, tr, steps) && |steps| == 4
    ensures tr[4] == Cluster(map["r" := USED], 1, map[], map["r" := [FIRST]])
  {
    tr, steps := ClaimedOnce();
    var s3 := Cluster(map["r" := PARKED], 1, map[(0, "r") := Claim(SAMPLE, 1, true)], map["r" := [FIRST]]);
    var s4 := Cluster(map["r" := USED], 1, map[], map["r" := [FIRST]]);
    assert FiredOf(tr[2], "r") + [FIRST] == [FIRST];
    assert DoFire(tr[2], 0, "r", true, s3);
    assert Next(ONCE, tr[2], FireStep(0, "r", true), s3);
    Extend(tr, steps, FireStep(0, "r", true), s3);
    assert DoUpsert(ONCE, s3, 0, "r", s4);
    assert Next(ONCE, s3, UpsertStep(0, "r"), s4);
    tr, steps := tr + [s3], steps + [FireStep(0, "r", true)];
    Extend(tr, steps, UpsertStep(0, "r"), s4);
    tr, steps := tr + [s4], steps + [UpsertStep(0, "r")];
  }

  lemma OnlyIsTop(r: Template, now: Time)
    requires IsDue(r, now)
    ensures TopPrefix(DueKeys(map["r" := r], now), 1, ["r"])
  {
    var keys := DueKeys(map["r" := r], now);
    assert keys.Keys == {"r"};
    BeforeIsOrder(keys["r"], keys["r"], keys["r"]);
    KeysSize(keys);
  }

  /** The template is then enabled again, or registered again with a first run computed before it fired. */
  lemma SetUpAgain(again: Step) returns (tr: seq<Cluster>, steps: seq<Step>)
    requires again == EnableStep("r") || again == RegisterStep(SAMPLE, 0)
    ensures IsRun(ONCE, tr, steps) && |steps| == 5 && steps[4] == again
    ensures var s := tr[5];
      && s.claims == map[] && s.clock == 1 && s.fired == map["r" := [FIRST]]
      && "r" in s.templates && s.templates["r"].enabled
         && s.templates["r"].nextRunAt == 1 && s.templates["r"].cron == "once"
  {
    tr, steps := FiredOnce();
    var s := tr[4];
    var t := s.(templates := map["r" := if again.EnableStep? then USED.(enabled := true) else SAMPLE]);
    Extend(tr, steps, again, t);
    tr, steps := tr + [t], steps + [again];
  }

  /** And the same run is fired a second time. */
  lemma FiresTwice(again: Step) returns (tr: seq<Cluster>, steps: seq<Step>)
    requires again == EnableStep("r") || again == RegisterStep(SAMPLE, 0)
    ensures Lawful(ONCE.next, (cron, u) => u == 1)
    ensures IsRun(ONCE, tr, steps) && |steps| == 7 && steps[4] == again
    ensures tr[7].fired == map["r" := [FIRST, FIRST]]
  {
    var tr1, steps1 := SetUpAgain(again);
    tr, steps := ExtendByFiring(tr1, steps1);
    assert steps[4] == steps[..|steps1|][4];
    assert FiredOf(tr1[5], "r") + [FIRST] == [FIRST, FIRST];
  }

  /** The one template is claimed and fired at once. */
  lemma ExtendByFiring(tr: seq<Cluster>, steps: seq<Step>) returns (tr': seq<Cluster>, steps': seq<Step>)
    requires IsRun(ONCE, tr, steps)
    requires var s := tr[|steps|];
      s.claims == map[] && s.clock == 1 && "r" in s.templates && IsDue(s.templates["r"], 1)
    ensures IsRun(ONCE, tr', steps') && |steps'| == |steps| + 2 && steps'[..|steps|] == steps
    ensures var s := tr[|steps|]; var r := s.templates["r"];
      tr'[|steps'|].fired == s.fired["r" := FiredOf(s, "r") + [Firing(r.cron, r.nextRunAt, 1)]]
  {
    var l, u, m, v := FiresAgain(ONCE, tr[|steps|], "r");
    Extend(tr, steps, l, u);
    tr', steps' := tr + [u], steps + [l];
    Extend(tr', steps', m, v);
    tr', steps' := tr' + [v], steps' + [m];
  }
}
