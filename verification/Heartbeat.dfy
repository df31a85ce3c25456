/** The server registry, heartbeat cycles of many servers, and the reclaim of a dead peer's jobs. */
module Heartbeat {
  import opened JobModel
  import opened Ranking
  import opened JobTable

  datatype ServerInfo = ServerInfo(
    serverId: Id,
    serverName: string,
    startedAt: Time,
    lastHeartbeat: Time,
    workerCount: U32,
    queues: seq<string>)

  type Registry = map<Id, ServerInfo>

  function Bumped(m: Registry, id: Id, now: Time): Registry {
    if id in m then m[id := m[id].(lastHeartbeat := now)] else m
  }

  function Dead(m: Registry, staleBefore: Time): set<Id> {
    set id | id in m && m[id].lastHeartbeat < staleBefore
  }

  // ----- heartbeat cycles as interleaved steps -----

  /** Where a server is in its cycle: bumped, about to reclaim the first pending peer, or about to drop its row. */
  datatype Stage =
    | Listing
    | Reclaiming(pending: seq<Id>)
    | Deregistering(pending: seq<Id>)

  datatype Scan = Scan(now: Time, stage: Stage)

  datatype Cluster = Cluster(
    servers: Registry,
    jobs: JobMap,
    clock: Time,
    scans: map<Id, Scan>,
    used: set<Id>)

  datatype Step =
    | RegisterStep(info: ServerInfo)
    | StopStep(id: Id)
    | BumpStep(self: Id, now: Time)
    | ListStep(self: Id, timeout: Time, dead: seq<Id>)
    | ReclaimStep(self: Id, ok: bool)
    | DeregisterStep(self: Id)
    | EndStep(self: Id)
    | WorkStep

  function Pending(c: Scan): seq<Id> {
    if c.stage.Listing? then [] else c.stage.pending
  }

  /** The peer a reclaim step of `self` works on, if any. */
  function Target(s: Cluster, l: Step): Option<Id> {
    if l.ReclaimStep? && l.ok && l.self in s.scans && s.scans[l.self].stage.Reclaiming?
       && s.scans[l.self].stage.pending != [] && s.scans[l.self].stage.pending[0] != l.self
    then Some(s.scans[l.self].stage.pending[0])
    else None
  }

  ghost predicate Init(s: Cluster) {
    s.servers == map[] && s.scans == map[] && s.used == {}
  }

  // Each step happens at time `t.clock`; `s` is the state before it with the clock moved there.

  /** Server ids carry a fresh UUID. */
  ghost predicate DoRegister(s: Cluster, info: ServerInfo, t: Cluster) {
    && info.serverId !in s.used
    && info.lastHeartbeat <= t.clock
    && t == s.(servers := s.servers[info.serverId := info], used := s.used + {info.serverId})
  }

  ghost predicate DoBump(s: Cluster, self: Id, now: Time, t: Cluster) {
    && self !in s.scans
    && now <= t.clock
    && t == s.(servers := Bumped(s.servers, self, now), scans := s.scans[self := Scan(now, Listing)])
  }

  ghost predicate DoList(s: Cluster, self: Id, timeout: Time, dead: seq<Id>, t: Cluster) {
    && self in s.scans
    && s.scans[self].stage.Listing?
    && Distinct(dead)
    && Elements(dead) == Dead(s.servers, s.scans[self].now - timeout)
    && t == s.(scans := s.scans[self := s.scans[self].(stage := Reclaiming(dead))])
  }

  /** The own row is skipped; a failed reclaim leaves the peer's row for a later cycle. */
  ghost predicate DoReclaim(s: Cluster, self: Id, ok: bool, t: Cluster) {
    && self in s.scans
    && s.scans[self].stage.Reclaiming?
    && var pending := s.scans[self].stage.pending;
       && pending != []
       && t == if pending[0] == self || !ok then
                 s.(scans := s.scans[self := s.scans[self].(stage := Reclaiming(pending[1..]))])
               else
                 s.(jobs := Requeue(s.jobs, Stamped(s.jobs, pending[0]), t.clock),
                    scans := s.scans[self := s.scans[self].(stage := Deregistering(pending))])
  }

  ghost predicate DoDeregister(s: Cluster, self: Id, t: Cluster) {
    && self in s.scans
    && s.scans[self].stage.Deregistering?
    && var pending := s.scans[self].stage.pending;
       && pending != []
       && t == s.(servers := s.servers - {pending[0]},
                  scans := s.scans[self := s.scans[self].(stage := Reclaiming(pending[1..]))])
  }

  /** A cycle ends, completed or crashed. Work on the jobs by anyone may change the jobs in any way. */
  ghost predicate Next(s: Cluster, l: Step, t: Cluster) {
    && s.clock <= t.clock
    && var s := s.(clock := t.clock);
       match l
       case RegisterStep(info) => DoRegister(s, info, t)
       case StopStep(id) => t == s.(servers := s.servers - {id})
       case BumpStep(self, now) => DoBump(s, self, now, t)
       case ListStep(self, timeout, dead) => DoList(s, self, timeout, dead, t)
       case ReclaimStep(self, ok) => DoReclaim(s, self, ok, t)
       case DeregisterStep(self) => DoDeregister(s, self, t)
       case EndStep(self) => t == s.(scans := s.scans - {self})
       case WorkStep => t == s.(jobs := t.jobs)
  }

  ghost predicate IsRun(tr: seq<Cluster>, steps: seq<Step>) {
    && |tr| == |steps| + 1
    && Init(tr[0])
    && forall i {:trigger steps[i]} :: 0 <= i < |steps| ==> Next(tr[i], steps[i], tr[i + 1])
  }

  // ----- a server that keeps bumping is left alone -----

  ghost predicate Known(s: Cluster) {
    && s.servers.Keys <= s.used
    && (forall id :: id in s.servers ==> s.servers[id].lastHeartbeat <= s.clock)
    && (forall self :: self in s.scans ==> Elements(Pending(s.scans[self])) <= s.used && s.scans[self].now <= s.clock)
  }

  lemma StepKnown(s: Cluster, l: Step, t: Cluster)
    requires Known(s) && Next(s, l, t)
    ensures Known(t)
  {
    forall self | self in t.scans
      ensures Elements(Pending(t.scans[self])) <= t.used && t.scans[self].now <= t.clock
    {
      assert self in s.scans ==> Elements(Pending(s.scans[self])) <= s.used;
    }
  }

  lemma {:induction false} RunKnown(tr: seq<Cluster>, steps: seq<Step>, n: nat)
    requires IsRun(tr, steps) && n < |tr|
    ensures Known(tr[n])
    decreases n
  {
    if n > 0 {
      RunKnown(tr, steps, n - 1);
      var last := steps[n - 1];
      StepKnown(tr[n - 1], last, tr[n]);
    }
  }

  /** `v` is registered and on nobody's list. */
  ghost predicate Safe(s: Cluster, v: Id) {
    && v in s.servers
    && forall self :: self in s.scans ==> v !in Pending(s.scans[self])
  }

  /**
   The row of `v` is never older than `bound` when something happens, nobody calls a row dead sooner than
   that, and `v` does not stop.
   */
  ghost predicate Punctual(v: Id, bound: Time, s: Cluster, l: Step, t: Cluster) {
    && (v in s.servers ==> t.clock <= s.servers[v].lastHeartbeat + bound)
    && (l.ListStep? ==> l.timeout >= bound)
    && l != StopStep(v)
  }

  lemma StepSafe(s: Cluster, l: Step, t: Cluster, v: Id, bound: Time)
    requires Known(s) && Safe(s, v) && Next(s, l, t) && Punctual(v, bound, s, l, t)
    ensures Safe(t, v) && Target(s, l) != Some(v)
  {
    if l.ListStep? {
      assert v !in Dead(s.servers, s.scans[l.self].now - l.timeout);
      assert v !in Elements(l.dead);
    }
    forall self | self in t.scans
      ensures v !in Pending(t.scans[self])
    {
      assert self in s.scans ==> v !in Pending(s.scans[self]);
    }
    if l.ReclaimStep? {
      assert v !in Pending(s.scans[l.self]);
    }
    if l.DeregisterStep? {
      assert v !in Pending(s.scans[l.self]);
    }
  }

  /**
   A server that registers at step `r` and whose bumps are never more than the dead-server timeout apart
   keeps its row, is never listed, and is never reclaimed from.
   */
  lemma {:induction false} AliveIsSafe(tr: seq<Cluster>, steps: seq<Step>, v: Id, bound: Time, r: nat, n: nat)
    requires IsRun(tr, steps) && r < n < |tr|
    requires steps[r].RegisterStep? && steps[r].info.serverId == v
    requires forall i {:trigger steps[i]} :: r < i < n ==> Punctual(v, bound, tr[i], steps[i], tr[i + 1])
    ensures Safe(tr[n], v)
    ensures forall i {:trigger steps[i]} :: r < i < n ==> Target(tr[i], steps[i]) != Some(v)
    decreases n
  {
    RunKnown(tr, steps, n - 1);
    var last := steps[n - 1];
    if n == r + 1 {
      RegisterSafe(tr[r], steps[r], tr[n], v);
    } else {
      AliveIsSafe(tr, steps, v, bound, r, n - 1);
      StepSafe(tr[n - 1], last, tr[n], v, bound);
    }
  }

  lemma RegisterSafe(s: Cluster, l: Step, t: Cluster, v: Id)
    requires Known(s) && Next(s, l, t) && l.RegisterStep? && l.info.serverId == v
    ensures Safe(t, v)
  {
    forall self | self in t.scans
      ensures v !in Pending(t.scans[self])
    {
      assert Elements(Pending(s.scans[self])) <= s.used;
      assert v !in Elements(Pending(s.scans[self]));
    }
  }

  // ----- a server that falls silent is found -----

  /** A listing picks up exactly the servers silent for longer than the timeout at the scan's reading. */
  lemma SilentIsListed(s: Cluster, l: Step, t: Cluster, v: Id)
    requires Next(s, l, t) && l.ListStep?
    ensures l.self in s.scans && l.self in t.scans
    ensures v in Pending(t.scans[l.self]) <==>
      v in s.servers && s.servers[v].lastHeartbeat < s.scans[l.self].now - l.timeout
  {
    assert v in l.dead <==> v in Elements(l.dead);
  }

  /** The peer a scan works on next. */
  function Head(c: Scan): Option<Id> {
    if Pending(c) == [] then None else Some(Pending(c)[0])
  }

  /**
   A listed peer stays pending through every step of anyone, until the scan ends, its reclaim fails, or its
   jobs were reclaimed and its row is dropped.
   */
  lemma PendingStays(s: Cluster, l: Step, t: Cluster, self: Id, v: Id)
    requires Next(s, l, t) && self in s.scans && v in Pending(s.scans[self]) && v != self
    ensures || (self in t.scans && v in Pending(t.scans[self]))
            || l == EndStep(self)
            || (l == ReclaimStep(self, false) && Head(s.scans[self]) == Some(v))
            || (l == DeregisterStep(self) && s.scans[self].stage.Deregistering? && Head(s.scans[self]) == Some(v)
                && v !in t.servers)
  {
    if Actor(l) == Some(self) {
      var p := Pending(s.scans[self]);
      assert p == [p[0]] + p[1..];
    }
  }

  /** A silent peer that is listed, reached and not failed on loses its jobs and then its row in that scan. */
  lemma ReachedIsDropped(s: Cluster, l: Step, t: Cluster, m: Step, u: Cluster, self: Id, v: Id)
    requires Next(s, l, t) && l == ReclaimStep(self, true) && self in s.scans && v != self
    requires Head(s.scans[self]) == Some(v) && Next(t, m, u) && m == DeregisterStep(self)
    ensures Stamped(t.jobs, v) == {} && v !in u.servers
    ensures forall id :: id in s.jobs && s.jobs[id].state.Processing? && s.jobs[id].state.serverName == v ==>
      id in t.jobs && t.jobs[id] == s.jobs[id].(state := Enqueued(t.clock, s.jobs[id].queue))
  {
    ReclaimEmpties(s.jobs, v, t.clock);
  }

  // ----- a row is dropped only after its jobs were taken back -----

  function Actor(l: Step): Option<Id> {
    match l
    case BumpStep(self, _) => Some(self)
    case ListStep(self, _, _) => Some(self)
    case ReclaimStep(self, _) => Some(self)
    case DeregisterStep(self) => Some(self)
    case EndStep(self) => Some(self)
    case _ => None
  }

  lemma ReclaimEmpties(jobs: JobMap, server: Id, at: Time)
    ensures Stamped(Requeue(jobs, Stamped(jobs, server), at), server) == {}
  {
  }

  /** At step `j` the scanner took back every job of `peer`, and has done nothing else up to step `n`. */
  ghost predicate ReclaimedAt(tr: seq<Cluster>, steps: seq<Step>, self: Id, peer: Id, j: nat, n: nat)
    requires |tr| == |steps| + 1 && j < n <= |steps|
  {
    && Actor(steps[j]) == Some(self)
    && Target(tr[j], steps[j]) == Some(peer)
    && Stamped(tr[j + 1].jobs, peer) == {}
    && forall k :: j < k < n ==> Actor(steps[k]) != Some(self)
  }

  lemma {:induction false} LastReclaim(tr: seq<Cluster>, steps: seq<Step>, self: Id, n: nat) returns (j: nat)
    requires IsRun(tr, steps) && n < |tr|
    requires self in tr[n].scans && tr[n].scans[self].stage.Deregistering? && tr[n].scans[self].stage.pending != []
    ensures j < n && ReclaimedAt(tr, steps, self, tr[n].scans[self].stage.pending[0], j, n)
    decreases n
  {
    var last := steps[n - 1];
    if Actor(last) == Some(self) {
      j := n - 1;
      ReclaimEmpties(tr[j].jobs, tr[n].scans[self].stage.pending[0], tr[n].clock);
    } else {
      j := LastReclaim(tr, steps, self, n - 1);
    }
  }

  /** A scan drops a peer's row only after it reclaimed that peer's jobs in the same pass. */
  lemma DropAfterReclaim(tr: seq<Cluster>, steps: seq<Step>, n: nat) returns (j: nat)
    requires IsRun(tr, steps) && n < |steps| && steps[n].DeregisterStep?
    ensures steps[n].self in tr[n].scans && tr[n].scans[steps[n].self].stage.Deregistering?
    ensures tr[n].scans[steps[n].self].stage.pending != []
    ensures j < n && ReclaimedAt(tr, steps, steps[n].self, tr[n].scans[steps[n].self].stage.pending[0], j, n)
  {
    assert Next(tr[n], steps[n], tr[n + 1]);
    j := LastReclaim(tr, steps, steps[n].self, n);
  }

  // ----- every job of a dead peer is reclaimed exactly once -----

  /** Jobs of `peer` taken back by one step. */
  function Taken(s: Cluster, l: Step, peer: Id): nat {
    if Target(s, l) == Some(peer) then |Stamped(s.jobs, peer)| else 0
  }

  /** Jobs of `peer` that one step of other work moved on. */
  function MovedOn(s: Cluster, l: Step, t: Cluster, peer: Id): nat {
    if l.WorkStep? then |Stamped(s.jobs, peer) - Stamped(t.jobs, peer)| else 0
  }

  /** Jobs of `peer` taken back by all scanners from state `a` to state `n`. */
  ghost function TotalTaken(tr: seq<Cluster>, steps: seq<Step>, peer: Id, a: nat, n: nat): nat
    requires a <= n < |tr| == |steps| + 1
    decreases n
  {
    if n == a then 0 else TotalTaken(tr, steps, peer, a, n - 1) + Taken(tr[n - 1], steps[n - 1], peer)
  }

  ghost function TotalMovedOn(tr: seq<Cluster>, steps: seq<Step>, peer: Id, a: nat, n: nat): nat
    requires a <= n < |tr| == |steps| + 1
    decreases n
  {
    if n == a then 0 else TotalMovedOn(tr, steps, peer, a, n - 1) + MovedOn(tr[n - 1], steps[n - 1], tr[n], peer)
  }

  /** `peer` claims no more jobs: other work never adds one stamped with its id. */
  ghost predicate ClaimsNoMore(s: Cluster, l: Step, t: Cluster, peer: Id) {
    l.WorkStep? ==> Stamped(t.jobs, peer) <= Stamped(s.jobs, peer)
  }

  /** A reclaim step takes back every job of its target and leaves the other servers' jobs alone. */
  lemma ReclaimTakes(s: Cluster, self: Id, ok: bool, t: Cluster, peer: Id)
    requires DoReclaim(s, self, ok, t)
    ensures Stamped(t.jobs, peer) ==
      if Target(s, ReclaimStep(self, ok)) == Some(peer) then {} else Stamped(s.jobs, peer)
  {
    var p := s.scans[self].stage.pending[0];
    ReclaimEmpties(s.jobs, p, t.clock);
  }

  lemma StepConserves(s: Cluster, l: Step, t: Cluster, peer: Id)
    requires Next(s, l, t) && ClaimsNoMore(s, l, t, peer)
    ensures Taken(s, l, peer) + MovedOn(s, l, t, peer) + |Stamped(t.jobs, peer)| == |Stamped(s.jobs, peer)|
  {
    if l.ReclaimStep? {
      ReclaimTakes(s.(clock := t.clock), l.self, l.ok, t, peer);
    }
  }

  /**
   Over any interleaving of any number of scanners, the jobs reclaimed since state `a` from a peer that
   claims no more, plus those that moved on otherwise, plus those left, are the jobs it had: none is
   reclaimed twice.
   */
  lemma {:induction false} ReclaimConserves(tr: seq<Cluster>, steps: seq<Step>, peer: Id, a: nat, n: nat)
    requires IsRun(tr, steps) && a <= n < |tr|
    requires forall i {:trigger steps[i]} :: a <= i < n ==> ClaimsNoMore(tr[i], steps[i], tr[i + 1], peer)
    ensures TotalTaken(tr, steps, peer, a, n) + TotalMovedOn(tr, steps, peer, a, n) + |Stamped(tr[n].jobs, peer)|
         == |Stamped(tr[a].jobs, peer)|
    decreases n
  {
    if n > a {
      var last := steps[n - 1];
      ReclaimConserves(tr, steps, peer, a, n - 1);
      StepConserves(tr[n - 1], last, tr[n], peer);
    }
  }

  /**
   Once a scan has taken its jobs back, and none of them moved on otherwise, the counts of all scanners sum to
   exactly what it had.
   */
  lemma ReclaimCountsSum(tr: seq<Cluster>, steps: seq<Step>, peer: Id, a: nat, n: nat)
    requires IsRun(tr, steps) && a < n < |tr|
    requires forall i {:trigger steps[i]} :: a <= i < n ==> ClaimsNoMore(tr[i], steps[i], tr[i + 1], peer)
    requires TotalMovedOn(tr, steps, peer, a, n) == 0 && Target(tr[n - 1], steps[n - 1]) == Some(peer)
    ensures TotalTaken(tr, steps, peer, a, n) == |Stamped(tr[a].jobs, peer)|
  {
    var last := steps[n - 1];
    ReclaimConserves(tr, steps, peer, a, n);
    ReclaimEmpties(tr[n - 1].jobs, peer, tr[n].clock);
  }
}
