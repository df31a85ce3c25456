/** One execution of a job, for every way it can end, and the chain of executions over its life. */
module Processor {
  import opened JobModel
  import opened Retry
  import opened JobTable

  /** How the execution of the worker code ended. */
  datatype Outcome =
    | NoWorker
    | Success(result: Option<string>, duration: nat, metadata: map<string, string>)
    | RetryAsked(error: string, retryAt: Option<Time>)
    | Failure(error: string)
    | ExecutionError(errorType: string, error: string)
    | TimedOut(error: string)

  datatype Config = Config(
    policy: Policy,
    workerId: string,
    serverName: string,
    succeededTtl: Time,
    failedTtl: Time)

  /** The clock reading when an execution ends and the random draw of its backoff. */
  datatype Draw = Draw(now: Time, factor: real)

  function SaturatingIncrement(n: U32): U32 {
    if n == U32_MAX then n else n + 1
  }

  function Attempted(job: Job): Job {
    job.(attempt := SaturatingIncrement(job.attempt))
  }

  predicate ShouldRetryAttempt(cfg: Config, job: Job, exception: Option<string>) {
    && !(job.maxRetries > 0 && job.attempt > job.maxRetries)
    && ShouldRetry(cfg.policy, exception, job.attempt)
  }

  // Each handler yields the record to write, nothing to write, or a refused transition.

  function ExecMetadata(kept: map<string, string>, extra: map<string, string>): map<string, string> {
    var prefixed := set k | k in extra :: "exec_" + k;
    assert forall k: string :: ("exec_" + k)[5..] == k;
    kept + map k | k in prefixed :: extra[k[5..]]
  }

  function Completed(cfg: Config, job: Job, o: Outcome, now: Time): (r: Result<Option<Job>>)
    requires o.Success?
    ensures job.state.Processing? ==> Writes(r, job) && r.value.value.state.Succeeded? && r.value.value.expiresAt.Some?
  {
    if job.state.IsFinal() then Ok(None)
    else
      match job.SetState(Succeeded(now, o.duration, o.result))
      case Err(e) => Err(e)
      case Ok(j) => Ok(Some(j.(expiresAt := Some(now + cfg.succeededTtl),
                               metadata := ExecMetadata(j.metadata, o.metadata))))
  }

  /** The handler writes a successor of this very job. */
  predicate Writes(r: Result<Option<Job>>, job: Job) {
    && r.Ok?
    && r.value.Some?
    && var w := r.value.value;
       w.id == job.id && w.queue == job.queue && w.maxRetries == job.maxRetries && w.attempt == job.attempt
  }

  function FailedForGood(cfg: Config, job: Job, error: string, now: Time): (r: Result<Option<Job>>)
    ensures job.state.Processing? ==> Writes(r, job) && r.value.value.state.Failed? && r.value.value.expiresAt.Some?
  {
    if job.state.IsFinal() then Ok(None)
    else
      match job.SetState(Failed(now, error, None))
      case Err(e) => Err(e)
      case Ok(j) => Ok(Some(j.(expiresAt := Some(now + cfg.failedTtl))))
  }

  function RetryTime(cfg: Config, job: Job, retryAt: Option<Time>, d: Draw): Time {
    if retryAt.Some? then retryAt.value
    else
      match Delay(cfg.policy.strategy, job.attempt, d.factor)
      case Some(delay) => d.now + delay
      case None => d.now + 60 * SECOND
  }

  function Retried(cfg: Config, job: Job, error: string, retryAt: Option<Time>, d: Draw): (r: Result<Option<Job>>)
    ensures job.state.Processing? ==>
      && Writes(r, job)
      && (if ShouldRetryAttempt(cfg, job, None)
          then r.value.value.state.AwaitingRetry? && r.value.value.expiresAt == job.expiresAt
          else r.value.value.state.Failed? && r.value.value.expiresAt.Some?)
  {
    if job.state.IsFinal() then Ok(None)
    else if !ShouldRetryAttempt(cfg, job, None) then FailedForGood(cfg, job, error, d.now)
    else
      match job.SetState(AwaitingRetry(d.now, RetryTime(cfg, job, retryAt, d), error))
      case Err(e) => Err(e)
      case Ok(j) => Ok(Some(j))
  }

  function Errored(cfg: Config, job: Job, errorType: string, error: string, d: Draw): Result<Option<Job>> {
    if ShouldRetryAttempt(cfg, job, Some(errorType)) then Retried(cfg, job, error, None, d)
    else FailedForGood(cfg, job, error, d.now)
  }

  /** What the execution of an already counted, Processing job writes back. */
  function Settled(cfg: Config, job: Job, o: Outcome, d: Draw): Result<Option<Job>> {
    match o
    case NoWorker => FailedForGood(cfg, job, "No worker registered for method: " + job.methodName, d.now)
    case Success(_, _, _) => Completed(cfg, job, o, d.now)
    case RetryAsked(error, retryAt) => Retried(cfg, job, error, retryAt, d)
    case Failure(error) => FailedForGood(cfg, job, error, d.now)
    case ExecutionError(errorType, error) => Errored(cfg, job, errorType, error, d)
    case TimedOut(error) => Errored(cfg, job, "TimeoutError", error, d)
  }

  /** The record an execution of a claimed job leaves, whatever the outcome. */
  function WrittenBack(cfg: Config, job: Job, o: Outcome, d: Draw): (r: Job)
    requires job.state.Processing?
    ensures r.id == job.id && r.queue == job.queue && r.maxRetries == job.maxRetries
    ensures r.attempt == SaturatingIncrement(job.attempt)
    ensures CanTransition(ProcessingKind, r.state.Kind())
    ensures r.state.Succeeded? <==> o.Success?
    ensures r.state.AwaitingRetry? || ((r.state.Succeeded? || r.state.Failed?) && r.expiresAt.Some?)
    ensures r.state.AwaitingRetry? ==> r.expiresAt == job.expiresAt
  {
    Settled(cfg, Attempted(job), o, d).value.value
  }

  // ----- what is written back, field by field -----

  /** The attempts made once this execution is counted. */
  function Made(job: Job): U32 {
    if job.attempt < 0xFFFF_FFFF then job.attempt + 1 else job.attempt
  }

  /**
   The job runs again after this outcome: the policy retries everything, has attempts left, as has the job,
   and the worker asked, or met an error or a timeout that is not excluded.
   */
  predicate RunsAgain(cfg: Config, job: Job, o: Outcome) {
    && cfg.policy.retryOnAll
    && !cfg.policy.strategy.NoRetry?
    && Made(job) <= cfg.policy.strategy.maxAttempts
    && (job.maxRetries > 0 ==> Made(job) <= job.maxRetries)
    && (o.RetryAsked? || o.ExecutionError? || o.TimedOut?)
    && (o.ExecutionError? ==> o.errorType !in cfg.policy.nonRetryable)
    && (o.TimedOut? ==> "TimeoutError" !in cfg.policy.nonRetryable)
  }

  /** What the record says went wrong. */
  function Complaint(job: Job, o: Outcome): string
    requires !o.Success?
  {
    if o.NoWorker? then "No worker registered for method: " + job.methodName else o.error
  }

  /** A retry is written exactly when the job runs again, for every outcome. */
  lemma RetriedIff(cfg: Config, job: Job, o: Outcome, d: Draw)
    requires job.state.Processing?
    ensures WrittenBack(cfg, job, o, d).state.AwaitingRetry? <==> RunsAgain(cfg, job, o)
  {
    RetryHasDelay(cfg.policy, None, Made(job), d.factor);
  }

  /** When a retry is written it is the job's record with the time the worker gave, or the policy's delay from now. */
  lemma RetryIs(cfg: Config, job: Job, o: Outcome, d: Draw)
    requires job.state.Processing? && RunsAgain(cfg, job, o)
    ensures Delay(cfg.policy.strategy, Made(job), d.factor).Some?
    ensures var at := if o.RetryAsked? && o.retryAt.Some? then o.retryAt.value
                      else d.now + Delay(cfg.policy.strategy, Made(job), d.factor).value;
      WrittenBack(cfg, job, o, d) == job.(attempt := Made(job), state := AwaitingRetry(d.now, at, Complaint(job, o)))
  {
    RetryHasDelay(cfg.policy, None, Made(job), d.factor);
  }

  /** When none is written, and it did not succeed, the record is the job's, failed for good. */
  lemma FailureIs(cfg: Config, job: Job, o: Outcome, d: Draw)
    requires job.state.Processing? && !o.Success? && !RunsAgain(cfg, job, o)
    ensures WrittenBack(cfg, job, o, d) ==
      job.(attempt := Made(job),
           state := Failed(d.now, Complaint(job, o), None),
           expiresAt := Some(d.now + cfg.failedTtl))
  {
    RetriedIff(cfg, job, o, d);
  }

  /** A success: the worker's result and metadata, each key prefixed, and nothing else changed. */
  lemma SuccessIs(cfg: Config, job: Job, o: Outcome, d: Draw)
    requires job.state.Processing? && o.Success?
    ensures var r := WrittenBack(cfg, job, o, d);
      && r == job.(attempt := Made(job), state := Succeeded(d.now, o.duration, o.result),
                   expiresAt := Some(d.now + cfg.succeededTtl), metadata := r.metadata)
      && (forall k :: k in o.metadata ==> "exec_" + k in r.metadata && r.metadata["exec_" + k] == o.metadata[k])
      && (forall x :: x in r.metadata ==>
            || (x in job.metadata && r.metadata[x] == job.metadata[x])
            || exists k :: k in o.metadata && x == "exec_" + k)
      && job.metadata.Keys <= r.metadata.Keys
  {
    PrefixedMetadata(job.metadata, o.metadata);
  }

  lemma PrefixedMetadata(kept: map<string, string>, extra: map<string, string>)
    ensures var r := ExecMetadata(kept, extra);
      && (forall k :: k in extra ==> "exec_" + k in r && r["exec_" + k] == extra[k])
      && (forall x :: x in r ==> (x in kept && r[x] == kept[x]) || exists k :: k in extra && x == "exec_" + k)
      && kept.Keys <= r.Keys
  {
    assert forall k: string :: ("exec_" + k)[5..] == k;
  }

  // ----- the chain of attempts -----

  /** One execution in the life of a job: when it was fetched and how it ended. */
  datatype Round = Round(worker: string, fetchedAt: Time, cfg: Config, outcome: Outcome, draw: Draw)

  /**
   The life of a job over successive executions: each one claims the waiting record and writes back.
   Yields the last record and the number of executions made; a final record is never claimed.
   */
  function Life(job: Job, rounds: seq<Round>): (r: (Job, nat))
    decreases |rounds|
  {
    if rounds == [] || job.state.IsFinal() then (job, 0)
    else
      var rd := rounds[0];
      var settled := WrittenBack(rd.cfg, Claimed(job, rd.worker, rd.fetchedAt), rd.outcome, rd.draw);
      var rest := Life(settled, rounds[1..]);
      (rest.0, rest.1 + 1)
  }

  /** Retries granted in total: the policy's maximum, capped by a nonzero job limit. */
  function Budget(p: Policy, job: Job): U32 {
    var m := MaxAttempts(p.strategy);
    if job.maxRetries > 0 && job.maxRetries < m then job.maxRetries else m
  }

  ghost predicate SamePolicy(rounds: seq<Round>, p: Policy) {
    forall i :: 0 <= i < |rounds| ==> rounds[i].cfg.policy == p
  }

  /** A retry is written exactly while the attempts made are within the budget. */
  lemma RetriedWithinBudget(cfg: Config, job: Job, o: Outcome, d: Draw)
    requires job.state.Processing?
    ensures var r := WrittenBack(cfg, job, o, d);
      r.state.AwaitingRetry? ==> r.attempt <= Budget(cfg.policy, job) && cfg.policy.retryOnAll
    ensures
      && o.RetryAsked?
      && cfg.policy.retryOnAll
      && !cfg.policy.strategy.NoRetry?
      && SaturatingIncrement(job.attempt) <= Budget(cfg.policy, job)
      ==> WrittenBack(cfg, job, o, d).state.AwaitingRetry?
  {
  }

  /**
   A never-executed job is over, Succeeded or Failed, after at most budget + 1 executions, and its
   attempt counter is the number of executions made.
   */
  lemma {:induction false} ChainTerminates(job: Job, rounds: seq<Round>, p: Policy)
    requires SamePolicy(rounds, p) && Budget(p, job) < U32_MAX
    requires !job.state.IsFinal() && job.attempt <= Budget(p, job)
    ensures var (last, n) := Life(job, rounds);
      && job.attempt + n == last.attempt <= Budget(p, job) + 1
      && (|rounds| > Budget(p, job) - job.attempt ==> last.state.Succeeded? || last.state.Failed?)
    decreases |rounds|
  {
    if rounds != [] {
      var rd := rounds[0];
      var claimed := Claimed(job, rd.worker, rd.fetchedAt);
      var settled := WrittenBack(rd.cfg, claimed, rd.outcome, rd.draw);
      RetriedWithinBudget(rd.cfg, claimed, rd.outcome, rd.draw);
      if settled.state.AwaitingRetry? {
        ChainTerminates(settled, rounds[1..], p);
      }
    }
  }

  /** Rounds in which the worker asks for a retry every time. */
  function AllRetries(cfg: Config, n: nat): (r: seq<Round>)
    ensures |r| == n
    ensures forall i :: 0 <= i < n ==> r[i].cfg == cfg && r[i].outcome.RetryAsked?
  {
    seq(n, i => Round("w", 0, cfg, RetryAsked("again", None), Draw(0, 0.0)))
  }

  /** With the counter saturated and still within the budget, a job that keeps asking retries forever. */
  lemma {:induction false} SaturatedNeverEnds(job: Job, rounds: seq<Round>, p: Policy)
    requires SamePolicy(rounds, p) && forall i :: 0 <= i < |rounds| ==> rounds[i].outcome.RetryAsked?
    requires Budget(p, job) == U32_MAX && p.retryOnAll && !p.strategy.NoRetry?
    requires !job.state.IsFinal()
    ensures !Life(job, rounds).0.state.IsFinal()
    decreases |rounds|
  {
    if rounds != [] {
      var rd := rounds[0];
      var claimed := Claimed(job, rd.worker, rd.fetchedAt);
      RetriedWithinBudget(rd.cfg, claimed, rd.outcome, rd.draw);
      SaturatedNeverEnds(WrittenBack(rd.cfg, claimed, rd.outcome, rd.draw), rounds[1..], p);
    }
  }

  /** Without retry-on-all the first execution is the last, whatever the exception lists say. */
  lemma OneShotWithoutRetryOnAll(job: Job, rounds: seq<Round>, p: Policy)
    requires SamePolicy(rounds, p) && !p.retryOnAll && |rounds| > 0 && !job.state.IsFinal()
    ensures Life(job, rounds).0.state.IsFinal() && Life(job, rounds).1 == 1
  {
    var rd := rounds[0];
    var claimed := Claimed(job, rd.worker, rd.fetchedAt);
    RetriedWithinBudget(rd.cfg, claimed, rd.outcome, rd.draw);
  }

  /**
   The bound holds for every sequence of outcomes exactly when the budget is below the largest counter
   value or the policy never grants a retry: at the largest value the saturating counter never passes it.
   */
  lemma ChainTerminatesIff(job: Job, cfg: Config)
    requires !job.state.IsFinal() && job.attempt == 0
    ensures (forall rounds: seq<Round> {:trigger SamePolicy(rounds, cfg.policy)} ::
               SamePolicy(rounds, cfg.policy) && |rounds| == Budget(cfg.policy, job) + 1 ==>
                 Life(job, rounds).0.state.IsFinal())
        <==> Budget(cfg.policy, job) < U32_MAX || !cfg.policy.retryOnAll
  {
    var p := cfg.policy;
    if Budget(p, job) < U32_MAX || !p.retryOnAll {
      forall rounds: seq<Round> | SamePolicy(rounds, p) && |rounds| == Budget(p, job) + 1
        ensures Life(job, rounds).0.state.IsFinal()
      {
        if p.retryOnAll {
          ChainTerminates(job, rounds, p);
        } else {
          OneShotWithoutRetryOnAll(job, rounds, p);
        }
      }
    } else {
      var rounds := AllRetries(cfg, Budget(p, job) + 1);
      assert SamePolicy(rounds, p);
      SaturatedNeverEnds(job, rounds, p);
    }
  }

  /** The bound is met: a job that keeps asking runs exactly budget + 1 times. */
  lemma {:induction false} ChainIsTight(job: Job, cfg: Config, n: nat)
    requires !job.state.IsFinal() && cfg.policy.retryOnAll && !cfg.policy.strategy.NoRetry?
    requires Budget(cfg.policy, job) < U32_MAX && job.attempt + n == Budget(cfg.policy, job) + 1 && n >= 1
    ensures Life(job, AllRetries(cfg, n)).1 == n && Life(job, AllRetries(cfg, n)).0.state.Failed?
    decreases n
  {
    var rounds := AllRetries(cfg, n);
    var claimed := Claimed(job, rounds[0].worker, rounds[0].fetchedAt);
    var settled := WrittenBack(cfg, claimed, rounds[0].outcome, rounds[0].draw);
    RetriedWithinBudget(cfg, claimed, rounds[0].outcome, rounds[0].draw);
    assert rounds[1..] == AllRetries(cfg, n - 1);
    if n > 1 {
      ChainIsTight(settled, cfg, n - 1);
    }
  }
}
