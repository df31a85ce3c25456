/** The job record, its lifecycle states and the transition table of the queue. */
module JobModel {

  /** Nanoseconds since the start of year 0, UTC. */
  type Time = int

  type Id = string

  const SECOND: Time := 1_000_000_000
  const MINUTE: Time := 60 * SECOND
  const DAY: Time := 24 * 60 * MINUTE

  /** The start of 1970. */
  const EPOCH: Time := 62_167_219_200 * SECOND

  const U32_MAX: nat := 0xFFFF_FFFF

  /** The unsigned 32-bit counters of a job and of a retry strategy. */
  type U32 = n: int | 0 <= n <= U32_MAX

  datatype Option<+T> = None | Some(value: T)

  datatype Error = JobNotFound(id: Id) | CapacityExceeded | InvalidTransition

  datatype Result<+T> = Ok(value: T) | Err(error: Error)

  datatype Kind =
    | EnqueuedKind
    | ProcessingKind
    | SucceededKind
    | FailedKind
    | DeletedKind
    | ScheduledKind
    | AwaitingRetryKind

  datatype State =
    | Enqueued(enqueuedAt: Time, queue: string)
    | Processing(startedAt: Time, workerId: string, serverName: string)
    | Succeeded(succeededAt: Time, totalDuration: nat, result: Option<string>)
    | Failed(failedAt: Time, exception: string, stackTrace: Option<string>)
    | Deleted(deletedAt: Time, deleteReason: Option<string>)
    | Scheduled(scheduledAt: Time, enqueueAt: Time, reason: string)
    | AwaitingRetry(retryScheduledAt: Time, retryAt: Time, lastException: string)
  {
    function Kind(): (k: Kind)
      ensures k.EnqueuedKind? <==> Enqueued?
      ensures k.ProcessingKind? <==> Processing?
      ensures k.SucceededKind? <==> Succeeded?
      ensures k.FailedKind? <==> Failed?
      ensures k.DeletedKind? <==> Deleted?
      ensures k.ScheduledKind? <==> Scheduled?
      ensures k.AwaitingRetryKind? <==> AwaitingRetry?
    {
      match this
      case Enqueued(_, _) => EnqueuedKind
      case Processing(_, _, _) => ProcessingKind
      case Succeeded(_, _, _) => SucceededKind
      case Failed(_, _, _) => FailedKind
      case Deleted(_, _) => DeletedKind
      case Scheduled(_, _, _) => ScheduledKind
      case AwaitingRetry(_, _, _) => AwaitingRetryKind
    }

    predicate IsFinal() {
      Succeeded? || Failed? || Deleted?
    }
  }

  /** The transition table consulted by every checked state change. */
  predicate CanTransition(from: Kind, to: Kind) {
    match from
    case EnqueuedKind => to.ProcessingKind? || to.DeletedKind? || to.ScheduledKind? || to.FailedKind?
    case ProcessingKind => to.SucceededKind? || to.FailedKind? || to.DeletedKind? || to.AwaitingRetryKind?
    case ScheduledKind => to.EnqueuedKind? || to.DeletedKind?
    case FailedKind => to.AwaitingRetryKind? || to.DeletedKind? || to.EnqueuedKind?
    case AwaitingRetryKind => to.EnqueuedKind? || to.DeletedKind?
    case SucceededKind => to.DeletedKind?
    case DeletedKind => false
  }

  /** The allowed changes, pair by pair: nothing leads back from Succeeded, and only Enqueued to Processing. */
  lemma TransitionsAre(from: Kind, to: Kind)
    ensures CanTransition(from, to) <==> (from, to) in {
      (EnqueuedKind, ProcessingKind), (EnqueuedKind, DeletedKind), (EnqueuedKind, ScheduledKind),
      (EnqueuedKind, FailedKind), (ProcessingKind, SucceededKind), (ProcessingKind, FailedKind),
      (ProcessingKind, DeletedKind), (ProcessingKind, AwaitingRetryKind), (ScheduledKind, EnqueuedKind),
      (ScheduledKind, DeletedKind), (FailedKind, AwaitingRetryKind), (FailedKind, DeletedKind),
      (FailedKind, EnqueuedKind), (AwaitingRetryKind, EnqueuedKind), (AwaitingRetryKind, DeletedKind),
      (SucceededKind, DeletedKind)}
  {
  }

  /** Final states are those that no transition but a deletion or a retry leaves. */
  lemma FinalIff(s: State)
    ensures s.IsFinal() <==>
      forall to :: CanTransition(s.Kind(), to) ==>
        to.DeletedKind? || (s.Failed? && (to.AwaitingRetryKind? || to.EnqueuedKind?))
  {
    assert CanTransition(EnqueuedKind, ProcessingKind) && CanTransition(ProcessingKind, SucceededKind);
    assert CanTransition(ScheduledKind, EnqueuedKind) && CanTransition(AwaitingRetryKind, EnqueuedKind);
  }

  datatype Job = Job(
    id: Id,
    methodName: string,
    payload: string,
    createdAt: Time,
    state: State,
    queue: string,
    priority: int,
    maxRetries: U32,
    attempt: U32,
    metadata: map<string, string>,
    jobType: Option<string>,
    timeoutSeconds: Option<nat>,
    expiresAt: Option<Time>)
  {
    /** The checked state change: refused unless the transition table allows it. */
    function SetState(next: State): (r: Result<Job>)
      ensures r.Ok? <==> CanTransition(state.Kind(), next.Kind())
      ensures r.Ok? ==> r.value.state == next && r.value.(state := state) == this
    {
      if CanTransition(state.Kind(), next.Kind()) then Ok(this.(state := next)) else Err(InvalidTransition)
    }

    /** The unchecked change that promotion, recovery and manual retry make. */
    function Requeued(now: Time): Job {
      this.(state := Enqueued(now, queue))
    }
  }

  /** Whether a stored job may be handed to a worker at `now`. */
  predicate Available(job: Job, now: Time) {
    match job.state
    case Enqueued(_, _) => true
    case Scheduled(_, at, _) => at <= now
    case AwaitingRetry(_, at, _) => at <= now
    case _ => false
  }

  /** Jobs are stored under their own id. */
  ghost predicate Keyed(jobs: map<Id, Job>) {
    forall id :: id in jobs ==> jobs[id].id == id
  }

  function IdsOfKind(jobs: map<Id, Job>, kind: Kind): set<Id> {
    set id | id in jobs && jobs[id].state.Kind() == kind
  }

  function Min(a: nat, b: nat): nat {
    if a < b then a else b
  }
}
