# A verified model of the qml job queue

qml is a background job queue: servers run workers that claim jobs from a shared store, execute them,
and write the outcome back, while schedulers promote due jobs, pollers materialize recurring templates,
heartbeats take jobs back from dead peers, and a dashboard retries failed jobs. What is hard about it is
that all of this happens concurrently on one store. This project models that protocol and proves what
every run of it keeps.

| file | what it holds |
|---|---|
| `JobModel.dfy` | the job record, its states, the transition table |
| `Strings.dfy` | byte order of strings |
| `Ranking.dfy` | sort-and-truncate selection with ties in any order |
| `JobTable.dfy` | the critical sections of the in-memory store as functions and relations; batch claim, top-k promotion |
| `Retry.dfy` | retry strategies, the multiply loop, bounds on the delays |
| `Processor.dfy` | one execution for every outcome, and the chain of executions over a job's life |
| `Protocol.dfy` | servers, workers, sweeps and dashboard requests interleaved on one store: exclusivity, lifecycle, conservation, retry races |
| `RetryRaces.dfy` | manual retry against the rest of the protocol: outdated copies and expiries that outlive a failure |
| `Recovery.dfy` | over the same runs: how long a claim's lock outlives it, and what reclaim by server id can find |
| `Recurring.dfy` | many pollers claiming, firing and writing back templates: at most once |
| `Firings.dfy` | exactly which runs of the pollers fire no run twice, and the two ways to get it wrong |
| `NamedLocks.dfy` | locks with a time to live: exclusion, and exactly when sweeps go unnoticed |
| `Heartbeat.dfy` | many servers bumping, scanning, reclaiming and deregistering |
| `MemoryStorage.dfy` | the in-memory backend as a class, operation by operation |
| `Workers.dfy` | the processor, the recurring poll, the heartbeat cycle, the dashboard retry and the startup sweep as methods over that class |
| `RedisModel.dfy` | the Redis backend: blobs, state sets, counts, sorted sets, commands and scripts |
| `RedisIndex.dfy` | the indices agree with a scan of the blobs after every run; the sorted sets are sound and complete |
| `RedisClaim.dfy` | the promotion script compares times as text: exactly when it selects what the in-memory store would |
| `RedisOrder.dfy` | the score of every entry in every run, and the order in which a fetch hands jobs out |
| `RedisFetch.dfy` | no double dispatch under index drift; bounded waste on stale entries |
| `RedisRequeue.dfy` | sweeps that read and write back later: exactly when they hit a job claimed in between |
| `RedisFlights.dfy` | enqueue and delete as interleaved command sequences: the indices at every quiet moment |
| `RedisStorage.dfy` | the Redis backend as a class, operation by operation |
| `Timestamps.dfy` | RFC 3339 rendering and when comparing the strings is comparing the instants |

Conventions. Time is a count of nanoseconds from the start of year 0. Every critical section is
one atomic step with one clock reading; readings taken earlier and passed in are separate parameters that
are never ahead of the clock. Random draws, fresh ids and the cron library are parameters. Selections out
of a hash map are relations, because ties come out in any order.
Operations are specified by functions and relations that the machines share; "by the fields alone" marks contracts
that say the same again without them, in the fields of jobs, locks, templates and rows.

## What the main results say

- **Timed exclusivity.** With any number of threads, sweeps, promotions, deletions, crashes and retries, at
  most one thread executes a job and no write-back replaces anyone else's record, in every run whose
  executions end within `d`, *exactly when* startup sweeps spare jobs younger than `d` (`Protocol.ExclusiveIff`).
- **Index refinement.** After every run of Redis operations, state sets, counts and the id set are what a scan
  of the blobs gives (`RedisIndex.RunConsistent`), so counting and listing answer as the in-memory backend does.
- **No double dispatch.** For every interleaving of single commands and scripts, from any contents of the
  store, two fetches of one id have a write between them that put it back (`RedisFetch.NoDoubleDispatch`).
- **Interleaved commands.** Enqueue and delete are sequences of single commands. Whatever runs in between, the indices
  are right at every quiet moment, if no script changed the kind of a job between the two commands of a sequence that
  rely on it (`RedisFlights.QuietRunIsConsistent`), and exactly then for one sequence (`RedisFlights.AddFinishIff`,
  `RedisFlights.RemoveFinishIff`).
- **Recurring at most once.** Scheduled times fired per template strictly increase and never outnumber the
  cron occurrences (`Recurring.AtMostOnce`); whoever fires next keeps that order *exactly when* no template was
  registered or enabled for a run fired already (`Firings.AtMostOnceIff`).
- **Retry chain.** A job is over after at most budget + 1 executions, exactly unless the saturating counter
  can never pass the budget (`Processor.ChainTerminatesIff`).
- **Timestamps.** The claim script compares times as strings. For every stored time and reading
  `Timestamps.DueByTextIff` says exactly when that is the chronological test, and `RedisClaim.SelectionAgreesIff`
  exactly when everything the script may select is what the in-memory store may select at the same reading.
- **Order of a Redis fetch.** In every run a fetch may pick exactly the listed jobs of greatest priority plus
  creation milliseconds over a million, promoted jobs counting on priority alone (`RedisOrder.FetchOrderIff`).
- **Conservation.** Whenever and with whatever reading a sweep follows a state of a run, every job ever stored is
  still there, was deleted on request, or was final and expired when swept, *exactly when* no step of the run
  stored a waiting job with an expiry (`Protocol.ConservedIff`).

## Where the code and its documentation part

The model follows the code.

- A manual retry keeps `expires_at`, and the expiry sweep looks at nothing else
  (src/dashboard/service.rs:294, src/storage/memory.rs:360). `RetryRaces.RetriedJobIsSwept` is a run from the
  empty store in which a waiting job is swept; `RetryRaces.RetriedIsSweptIff` says exactly when that can
  happen to a retried job, and `Protocol.ConservedIff` which runs can lose a job to some sweep.
- A manual retry writes back the copy it read, and the compare-and-swap looks only at the state kind.
  `RetryRaces.StaleRetry` is a run from the empty store in which a retry replaces a newer record by an older
  copy; `RetryRaces.RetryLosesNothing` proves that this takes another successful retry of the job since the read.
- Fetch stamps `memory-storage` or `redis-storage` as the server, never a server id, so reclaiming a dead
  server's jobs by its id finds nothing (`Recovery.ReclaimFindsNothing`).
- Neither write-back nor promotion gives up the 30-minute lock of a claim
  (`Recovery.ReclaimedTooSoon`).
- `retryable_exceptions` has no effect: the handler asks again without an exception type
  (`Processor.OneShotWithoutRetryOnAll`).
- The claim script's comment says stored times have microsecond precision, like `now`. The serializer of
  the chrono crate writes 0, 3, 6 or 9 digits, whichever is exact: a time on a whole second is not seen as
  due until that second is over (`Timestamps.WholeSecondIsLate`), and one with nanoseconds may be seen as
  due within a microsecond before its time. `Timestamps.DueByTextNearly` bounds both errors;
  `RedisClaim.SelectionAgreesIff` is the exact condition for a claim.
- The in-memory sweep removes a job at its expiry, the Redis sweep strictly after it
  (`RedisStorage.SweepsDifferBy`).
- The Redis sweeps read a job and write it back later, unconditionally. `RedisRequeue.TwoWorkers` is a run, for
  every threshold, in which two workers end up with one job; `RedisRequeue.HitsAnotherIff` says exactly when an
  executing job is put back from under its worker.
- A delete removes the indices by the copy it read: an update in between breaks them exactly when it changes the
  kind of the job's state (`RedisFlights.DeleteRaceIff`).
- A named-lock acquire reads the clock before it takes the table's lock, so a sweep with a later reading can
  drop a lock that is live by the acquire's reading. `NamedLocks.SweepShows` is such a run,
  `NamedLocks.SweepsAreInvisibleIff` the exact condition.
- A template that could not be advanced is disabled with the run it just fired, and a registration computes its
  first run before it writes. Enabling the one, or writing the other after a poller fired that run, fires it twice:
  `Firings.FiresTwice` is a run for each, `Firings.AtMostOnceIff` the exact condition.
- An update that moves a runnable job to another queue files it under the old one
  (`RedisIndex.UpdateAvailableIff`), and enqueueing an id twice breaks the indices
  (`RedisIndex.AddConsistentIff`); the results about runs state these conditions.
- Redis fetch is not in priority order: scores mix priority with creation time, and promoted jobs score on
  priority alone. Of two jobs of one priority never promoted the newer goes first, the opposite of the
  in-memory order (`RedisOrder.FetchPrefers`); `RedisOrder.OrderDiffersIff` says exactly when two enqueued
  jobs come out in the other order, `RedisOrder.LowerPriorityFirst` gives two that do.

## Model

| member | source | states |
|---|---|---|
| JobModel.Job.SetState | src/core/job.rs:438-449 | the change is made exactly when the transition table allows it, and touches nothing but the state |
| JobModel.TransitionsAre | src/core/job_state.rs:150-196 | the sixteen allowed changes, pair by pair |
| JobModel.FinalIff | src/core/job_state.rs:131-137 | final states are those that only a deletion or a retry leaves |
| Ranking.Sort | src/storage/memory.rs:92-117 | every candidate exactly once, in key order |
| Ranking.SortAndTake | src/storage/memory.rs:281-320 | min(k, candidates) of them, sorted, none ranked below one left out |
| Ranking.Compose | src/storage/memory.rs:281-320 | taking k and then m of the rest is taking k + m |
| Ranking.KeysDetermined | src/storage/memory.rs:106-111 | any two selections carry the same keys position by position, ties or not |
| Ranking.Unique | src/storage/memory.rs:106-111 | without ties the selection is one list |
| JobTable.ClaimInTwoSteps | src/storage/memory.rs:281-355 | claiming k then m leaves the store a claim of k + m may leave; without ties, the one it leaves |
| JobTable.ClaimTakesThose | src/storage/memory.rs:281-355 | promoting jobs takes exactly those out of the due set |
| JobTable.FetchTakesOne | src/storage/memory.rs:400-449 | a claim takes exactly one job out of the eligible set |
| JobTable.ClaimingStep | src/storage/memory.rs:489-507 | one more fetch extends a sorted prefix of the jobs eligible at the start by its next element |
| JobTable.ClaimingEnds | src/storage/memory.rs:489-507 | a fetch that finds nothing means the batch is the whole eligible set |
| JobTable.FetchableIff | src/storage/memory.rs:400-449 | by the fields alone: a fetch may return exactly a waiting job (unlocked, in a listed queue, Enqueued or with its time reached) that no waiting job is ahead of, and nothing exactly when none waits |
| JobTable.BatchIsBestFirst | src/storage/memory.rs:489-507 | by the fields alone: a batch is the best of the waiting jobs, in order |
| JobTable.DueIsBestFirst | src/storage/memory.rs:281-355 | by the fields alone: a promotion takes the best of the jobs whose time has come, in order |
| Retry.CalculateDelay | src/processing/retry.rs:104-159 | the delay with its loop equals the specified one, for every strategy, attempt and draw |
| Retry.DelayIff | src/processing/retry.rs:104-159 | there is a delay exactly within the maximum number of attempts |
| Retry.SteadyDelay | src/processing/retry.rs:104-159 | a fixed delay is its interval; a linear one is min(initial + (n - 1) x increment, max) |
| Retry.ExponentialDelay | src/processing/retry.rs:117-145 | from both sides: within a millisecond below the capped backoff, moved by a quarter of the draw when jittered |
| Retry.PlainDelay | src/processing/retry.rs:117-145 | unjittered, from whole milliseconds: within a millisecond below min(initial x multiplier^(n - 1), max), in nanoseconds |
| Retry.GrownSteps | src/processing/retry.rs:128-131 | growth starts from the initial value and multiplies once an attempt |
| Retry.ShouldRetryIff | src/processing/retry.rs:244-277 | a retry is granted exactly within the maximum, to an error not excluded and included or covered |
| Retry.MultiplyLoop | src/processing/retry.rs:128-131 | the loop computes initial x multiplier^(attempt - 1) |
| Retry.RetryHasDelay | src/processing/retry.rs:244-284 | a granted retry always has a delay, so the 60-second fallback is unreachable |
| Retry.BackoffMonotone | src/processing/retry.rs:128-134 | before jitter, delays never shrink from one attempt to the next and never pass the cap |
| Retry.JitterWithinQuarter | src/processing/retry.rs:136-141 | jitter moves a delay by at most a quarter of it |
| Retry.DelayWithinCap | src/processing/retry.rs:104-159 | every delay is at most 1.25 x the cap |
| Retry.ChainDelayBound | src/processing/retry.rs:104-169 | the delays of a whole chain total at most 1.25 x max_attempts x max_delay |
| Processor.Completed | src/processing/processor.rs:286-322 | from Processing: writes a Succeeded successor of the same job with an expiry |
| Processor.FailedForGood | src/processing/processor.rs:385-419 | from Processing: writes a Failed successor with an expiry |
| Processor.Retried | src/processing/processor.rs:325-382 | from Processing: AwaitingRetry with the expiry untouched when a retry is granted, else Failed with one |
| Processor.WrittenBack | src/processing/processor.rs:180-283 | whatever the outcome: same job, one more attempt, a lawful transition, Succeeded exactly on success; a final record carries an expiry, a waiting one keeps the old one |
| Processor.RetriedWithinBudget | src/processing/processor.rs:456-462 | a retry is written only within min(max_attempts, nonzero max_retries), and always when asked for within it |
| Processor.RetriedIff | src/processing/processor.rs:422-462 | for every outcome: a retry is written exactly when the policy retries everything and has attempts left, the job has, and the worker asked or met an error or timeout that is not excluded |
| Processor.RetryIs | src/processing/processor.rs:325-382 | the whole record of a retry: the worker's time or else now plus the delay, the error, nothing else changed |
| Processor.FailureIs | src/processing/processor.rs:385-419 | the whole record of a failure, with its error and its expiry |
| Processor.SuccessIs | src/processing/processor.rs:286-322 | the whole record of a success, with its result, its expiry and the prefixed metadata |
| Processor.ChainTerminates | src/processing/processor.rs:325-462 | for every sequence of outcomes: over after at most budget + 1 executions, and the attempt counter is the number of executions |
| Processor.ChainTerminatesIff | src/processing/processor.rs:189 | that bound holds for all outcomes exactly when the budget is below 2^32 - 1 or no retry is ever granted |
| Processor.ChainIsTight | src/processing/processor.rs:325-382 | a job that keeps asking runs exactly budget + 1 times and ends Failed |
| Processor.SaturatedNeverEnds | src/processing/processor.rs:189 | with the budget at 2^32 - 1 the saturated counter never ends the chain |
| Processor.OneShotWithoutRetryOnAll | src/processing/processor.rs:338 | without retry-on-all the first execution is the last, whatever the exception lists say |
| Protocol.StepEffect | src/storage/memory.rs:127-449 | every step leaves a record alone or changes it in the one way of its kind |
| Protocol.StepBecomes | src/storage/memory.rs:127-449 | what becomes of every record at every step, exactly and in terms of its fields |
| Protocol.StepLockBecomes | src/storage/memory.rs:370-487 | what becomes of every job lock at every step, exactly |
| Protocol.RunSound | src/storage/memory.rs:400-449 | in every run: jobs under their own ids, executing copies are Processing records a fetch stamped |
| Protocol.RunExclusive | src/processing/server.rs:346-357 | at most one thread executes a job and the store still holds the record its fetch wrote |
| Protocol.ExclusiveIff | src/processing/server.rs:346-357 | that holds in every run with executions of at most d exactly when sweeps spare at least d |
| Protocol.DoubleClaim | src/processing/server.rs:346-357 | a concrete run with two threads executing one job, for every sweep threshold below d |
| Protocol.NoOverwrite | src/processing/processor.rs:180-283 | a write-back replaces nothing but the record of its own fetch |
| Protocol.RunLifecycle | src/core/job_state.rs:150-196 | every change of stored kind is in the transition table, a recovery Processing to Enqueued, or a fetch of a due job; none leaves Scheduled or AwaitingRetry before its time |
| Protocol.SucceededIsOver | src/storage/memory.rs:400-449 | once stored as Succeeded a job is never executed again |
| Protocol.RunConserved | src/storage/memory.rs:357-365 | in a run that stores no waiting job with an expiry, every job ever stored is still there, was deleted on request, or was final and expired when swept |
| Protocol.ConservedIff | src/storage/memory.rs:357-365 | sweeps after any state of a run, with any reading, lose nothing exactly when no accepted enqueue and no successful retry of the run stores a waiting job with an expiry |
| Protocol.RetriesAtMostFailures | src/dashboard/service.rs:276-302 | in every interleaving, successful retries of a job never exceed the times it became Failed |
| RetryRaces.ReadIsCurrent | src/dashboard/service.rs:276-302 | in every run that meets the timing bound, while no retry of a Failed job succeeds its stored record does not change |
| RetryRaces.RetryLosesNothing | src/dashboard/service.rs:276-302 | if no other retry of the job succeeded since a request read it, its retry succeeds unless the job is gone, and changes nothing but the state |
| RetryRaces.StaleRetry | src/dashboard/service.rs:276-302 | a run from the empty store, within any timing bound, in which a retry replaces a newer Failed record by the older copy it read |
| RetryRaces.RetriedIsSweptIff | src/dashboard/service.rs:294 | a job just retried may be swept while waiting exactly when the copy that was read carried an expiry, passed or not |
| RetryRaces.RetriedJobIsSwept | src/storage/memory.rs:357-365 | a run from the empty store in which a failed job is retried and swept while waiting |
| Recovery.LockStays | src/storage/memory.rs:424-445 | until its expiry the lock of a claim stays, unless its holder releases it or the job is swept or reclaimed |
| Recovery.ReclaimedTooSoon | src/storage/memory.rs:400-449 | two claims of one job within 30 minutes have a release by the lock's holder, a sweep or a reclaim of the job in between |
| Recovery.ReclaimFindsNothing | src/storage/memory.rs:600-624 | in every run that enqueues no job already Processing, reclaiming by server id finds no job and changes neither jobs nor locks |
| Recurring.ClaimedNotDue | src/storage/memory.rs:530-557 | a claimed template is not due to any other poller |
| Recurring.AdvancedIsGood | src/core/recurring.rs:90-117 | a template written back is disabled or set to an occurrence not fired yet |
| Recurring.StepKeeps | src/processing/recurring.rs:78-115 | every step that sets no template up for a run fired already keeps the invariant on claims, rows and firings |
| Recurring.RunKeeps | src/processing/recurring.rs:78-115 | so does every run of such steps |
| Recurring.AtMostOnce | src/processing/recurring.rs:78-115 | in every such run: one outstanding claim per template, fired times strictly increasing and each a due occurrence of an expression registered under the id, and firings up to t at most such occurrences up to t |
| Firings.AtMostOnceIff | src/processing/recurring.rs:78-115 | from every state of a run the next claim and firing keep all firings in order, none repeated, exactly when no step of the run registers or enables a template for a run fired already |
| Firings.FiresAgain | src/storage/memory.rs:530-557 | any enabled, due template may be claimed and fired at once by an idle poller |
| Firings.FiresTwice | src/processing/server.rs:559-561 | a run from the empty store that fires one run twice, after enabling a disabled template or after a registration computed earlier |
| NamedLocks.StaysHeld | src/storage/memory.rs:628-658 | a granted lock stays with its owner up to its expiry while the owner does not give it up |
| NamedLocks.Exclusion | src/storage/memory.rs:628-677 | another owner is granted the lock before its expiry only if the holder released it or re-took it for less |
| NamedLocks.SweepsAreInvisibleIff | src/processing/cleanup.rs:78-101 | dropping every sweep changes the answer of no acquire exactly when no acquire meets a lock that is live by its own reading but was read as expired by a sweep |
| NamedLocks.SweepsAreInvisible | src/processing/cleanup.rs:78-101 | so sweeps go unnoticed in every run whose acquires read the clock no earlier than the sweeps before them |
| NamedLocks.SweepShows | src/storage/memory.rs:634-640 | a run in which a sweep lets an acquire through that would have been refused |
| Heartbeat.AliveIsSafe | src/processing/heartbeat.rs:88-138 | a registered server that bumps in time keeps its row, is on nobody's dead list and is never reclaimed from |
| Heartbeat.SilentIsListed | src/processing/heartbeat.rs:98-108 | a scan lists exactly the servers silent for longer than the timeout at its reading |
| Heartbeat.PendingStays | src/processing/heartbeat.rs:108-138 | a listed peer stays pending through every step of anyone until the scan ends, its reclaim fails, or its row is dropped |
| Heartbeat.ReachedIsDropped | src/processing/heartbeat.rs:108-138 | a listed peer whose reclaim succeeds has its jobs back in their queues and then no row |
| Heartbeat.DropAfterReclaim | src/processing/heartbeat.rs:110-138 | a scan drops a peer's row only after it took all its jobs back, with no other step of that scan in between |
| Heartbeat.ReclaimTakes | src/storage/memory.rs:600-624 | a reclaim takes every job of its target and no job of another server |
| Heartbeat.ReclaimConserves | src/storage/memory.rs:600-624 | for a peer that claims no more, jobs taken back by all scanners, jobs moved on and jobs left sum to the jobs it had |
| Heartbeat.ReclaimCountsSum | src/storage/memory.rs:600-624 | if none of the peer's jobs moved on otherwise, the reclaim counts of all scanners sum to the jobs it had, whatever other work goes on |
| MemoryStorage.MemoryStorage.Update | src/storage/memory.rs:133-142 | replaces a stored record; not-found otherwise, and nothing is inserted |
| MemoryStorage.MemoryStorage.UpdateIfState | src/storage/memory.rs:144-158 | compare-and-swap on the state kind, with its three answers |
| MemoryStorage.MemoryStorage.List | src/storage/memory.rs:165-195 | a page of the newest-first listing of the jobs of a kind |
| MemoryStorage.MemoryStorage.GetJobCounts | src/storage/memory.rs:197-206 | the loop counts each kind that occurs, exactly |
| MemoryStorage.MemoryStorage.Enqueue | src/storage/memory.rs:211-226 | stores the job, or refuses at capacity and changes nothing |
| MemoryStorage.MemoryStorage.ClaimDue | src/storage/memory.rs:281-355 | by the fields alone: promotes the best of the jobs whose time has come, each Enqueued in its own queue and changed in nothing else, returned in that order; the others as they were |
| MemoryStorage.MemoryStorage.DeleteExpiredJobs | src/storage/memory.rs:357-365 | the retain loop keeps exactly the jobs that have not expired, and before minus after is the number of expired ones |
| MemoryStorage.MemoryStorage.CleanupExpiredLocks | src/storage/memory.rs:681-686 | the retain loop keeps exactly the locks that are still live, unchanged |
| MemoryStorage.MemoryStorage.RequeueStrandedJobs | src/storage/memory.rs:370-398 | requeues and unlocks exactly the Processing jobs started too long ago, and counts them |
| MemoryStorage.MemoryStorage.FetchAndLockJob | src/storage/memory.rs:400-449 | by the fields alone: claims a waiting job no other is ahead of, Processing under a lock of thirty minutes, or finds that none waits; expired locks go, all else is unchanged |
| MemoryStorage.MemoryStorage.TryAcquireJobLock | src/storage/memory.rs:451-474 | granted exactly when no live lock exists |
| MemoryStorage.MemoryStorage.ReleaseJobLock | src/storage/memory.rs:476-487 | released exactly by its holder |
| MemoryStorage.MemoryStorage.FetchAvailableJobsAtomic | src/storage/memory.rs:489-507 | by the fields alone: the best of the waiting jobs in order, as many as limit (10 unless given, at most 100) or all, each Processing under a lock of the caller, the others as they were |
| MemoryStorage.MemoryStorage.FetchDueRecurringJobs | src/storage/memory.rs:530-557 | by the fields alone: returns the earliest enabled templates whose time has come, in order, and moves exactly those 3650 days away |
| MemoryStorage.MemoryStorage.HeartbeatServer | src/storage/memory.rs:568-581 | bumps an existing row only, and says whether there was one |
| MemoryStorage.MemoryStorage.ListDeadServers | src/storage/memory.rs:588-598 | each server whose last heartbeat is older than the reading given, once, and no other |
| MemoryStorage.MemoryStorage.ReclaimJobsFromServer | src/storage/memory.rs:600-624 | requeues and unlocks exactly the jobs stamped with that server, and counts them |
| MemoryStorage.MemoryStorage.TryAcquireLock | src/storage/memory.rs:628-658 | granted unless a live lock of another owner exists |
| MemoryStorage.MemoryStorage.CleanupExpiredNamedLocks | src/storage/memory.rs:671-676 | the retain loop keeps exactly the live locks, and before minus after is the number of expired ones |
| Workers.JobProcessor.ProcessJob | src/processing/processor.rs:180-283 | one execution from any state and with any outcome: what is stored, whether the job runs again, exactly when the transition is refused, and every other record unchanged |
| Workers.TickOnce | src/processing/recurring.rs:78-115 | by the fields alone: the earliest due templates are advanced to their next occurrence or disabled, and for each a job of its method and payload waits in its queue under a fresh id; all else unchanged |
| Workers.BumpAndScan | src/processing/heartbeat.rs:88-138 | by the fields alone: drops exactly the rows other than the own that are silent for longer than the timeout, and puts back and unlocks exactly the jobs executing there |
| Workers.RetryJob | src/dashboard/service.rs:276-302 | an undisturbed retry succeeds exactly on a stored Failed job and changes only it |
| Workers.StartupSweep | src/processing/server.rs:346-357 | puts back and unlocks exactly the Processing jobs started before the threshold, and counts them |
| RedisModel.Ranked | src/storage/redis.rs:205-219 | enters with that score or leaves the global and that queue's sorted set, and touches no other entry or score |
| RedisModel.Moved | src/storage/redis.rs:186-203 | moves an id between two state sets and counts |
| RedisModel.Rewritten | src/storage/redis.rs:471-530 | blob, state sets, counts, sorted sets and scores after one record is rewritten, entry by entry |
| RedisModel.Cleaned | src/storage/redis.rs:1079-1102 | a stale entry leaves every candidate set and the global one; nothing else changes |
| RedisIndex.AddConsistentIff | src/storage/redis.rs:805-822 | enqueueing keeps the indices right exactly when the id is new |
| RedisIndex.RewriteIsPut | src/storage/redis.rs:607-656 | on right indices, rewriting a record moves state sets, counts and entries of that record only |
| RedisIndex.UpdateIsPut | src/storage/redis.rs:471-530 | so does the update script |
| RedisIndex.ScriptBlobs | src/storage/redis.rs:471-656 | the update and compare-and-swap scripts leave the blobs the in-memory operations would |
| RedisIndex.RemoveIsDrop | src/storage/redis.rs:712-732 | deleting takes the record out of every index and touches no other |
| RedisIndex.ClaimEffect | src/storage/redis.rs:316-377 | on right indices a claim requeues exactly a sorted prefix of what the script sees as due, and keeps indices and sorted sets right |
| RedisClaim.DueAgreesIff | src/storage/redis.rs:327 | the script sees a job as due when the in-memory store would at the same reading, exactly when its due time is clear of the reading |
| RedisClaim.OrderAgreesIff | src/storage/redis.rs:338-344 | the script orders two jobs as the in-memory store would exactly when priorities differ, or creation times are written alike or differ in the shared digits |
| RedisClaim.CandidatesAgreeIff | src/storage/redis.rs:316-336 | on right indices the script's candidates are the due jobs exactly when every waiting due time is clear |
| RedisClaim.SelectionAgreesIff | src/storage/redis.rs:316-346 | on right indices, everything the script may select is what the in-memory claim may select at the same reading, exactly when every waiting due time and the ages of every two due jobs are clear |
| RedisClaim.ClaimRefinesMemory | src/storage/redis.rs:316-377 | then the whole claim is one the in-memory store could make, with the same effect |
| RedisClaim.ClaimIsNearlyTimely | src/storage/redis.rs:316-377 | clear or not, nothing is promoted a microsecond early, and nothing a second overdue is left behind below the limit |
| RedisIndex.PromoteAllKeep | src/storage/redis.rs:346-377 | promoting a batch keeps indices and sorted sets right at every point |
| RedisIndex.StepConsistent | src/storage/redis.rs:168-258 | every operation keeps the indices right |
| RedisIndex.RunConsistent | src/storage/redis.rs:168-258 | in every run the state sets, the id set and the counts are those of a scan |
| RedisIndex.UpdateAvailableIff | src/storage/redis.rs:443-579 | the sorted sets stay exact under an update just when a runnable job keeps its queue |
| RedisIndex.RunAvailable | src/storage/redis.rs:156-219 | in every run each Enqueued job is in the global and its own queue's set, and every entry is a stored job in no other queue's set, Enqueued or with its time reached |
| RedisIndex.FetchIsTimely | src/storage/redis.rs:1091-1119 | no fetch hands out a retry before its retry time, a job of a queue not asked for, or a job in any other state |
| RedisOrder.RunScored | src/storage/redis.rs:205-209 | in every run the score of every entry is that of its job: priority plus creation time, or priority alone since a promotion |
| RedisOrder.FetchOrderIff | src/storage/redis.rs:1059-1075 | in every run a fetch may pick exactly the heaviest of the listed jobs |
| RedisOrder.FetchPrefers | src/storage/redis.rs:1059-1075 | in nanoseconds of creation, to the millisecond: what the picked job has on any other listed one, promoted or not; newest first within a priority, and promoted jobs only with a lead in priority |
| RedisOrder.OrderDiffersIff | src/storage/redis.rs:208-209 | two enqueued jobs can come out of Redis against the in-memory order exactly when the one ranked first does not weigh more |
| RedisOrder.LowerPriorityFirst | src/storage/redis.rs:208-209 | a job of priority 0 created half an hour after one of priority 1 goes first |
| RedisClaim.EpochIs1970 | src/storage/redis.rs:208-209 | creation times in scores count from the start of 1970 |
| RedisClaim.TextExample | src/storage/redis.rs:276-282 | a whole second is written without a fraction, a reading with six digits |
| RedisFetch.ClaimableChanges | src/storage/redis.rs:1079-1125 | only a write of its blob makes a job claimable, and a fetch makes it unclaimable |
| RedisFetch.NoDoubleDispatch | src/storage/redis.rs:1079-1125 | for any contents and any interleaving of commands and scripts, a write that put the job back separates two fetches of it |
| RedisFetch.WastedFetch | src/storage/redis.rs:1059-1102 | a fetch that returns nothing found the sets empty or removed one stale entry and nothing else |
| RedisFetch.SuccessfulFetchShrinks | src/storage/redis.rs:1104-1125 | on exact sorted sets a successful fetch takes its entry, and only that, out of the candidate sets |
| RedisFetch.BoundedWaste | src/storage/redis.rs:1059-1102 | while a claimable job is listed, a fetch succeeds within one more call than there are stale entries |
| RedisFetch.EnqueuedIsListed | src/storage/redis.rs:1135-1146 | on exact sorted sets every Enqueued job of an asked-for queue is listed and claimable |
| RedisRequeue.HitsAnotherIff | src/storage/redis.rs:990-1007 | for any contents and interleaving: a sweep's late write finds an executing job that was claimed since the read exactly when anything was written for it since the read |
| RedisRequeue.TwoWorkers | src/storage/redis.rs:990-1007 | for every threshold, a run from the empty store in which two workers hold claims on one job |
| RedisFlights.StepKeeps | src/storage/redis.rs:168-258 | every command of every sequence and every script keeps the invariant on blobs, indices and what sequences have yet to send |
| RedisFlights.QuietRunIsConsistent | src/storage/redis.rs:805-822 | for every interleaving of enqueue and delete sequences with scripts, the indices agree with a scan whenever no sequence is under way, if no command found its job in another kind than it relies on |
| RedisFlights.AddIsSequence | src/storage/redis.rs:805-822 | undisturbed, the command sequence of an enqueue leaves what the enqueue taken as one step leaves |
| RedisFlights.AddFinishIff | src/storage/redis.rs:805-822 | an enqueue finishes with right indices exactly when its job is in the kind it was enqueued in when its state set is written |
| RedisFlights.RemoveFinishIff | src/storage/redis.rs:712-732 | a delete leaves right indices exactly when the job is in the kind it was read in when its blob is removed |
| RedisFlights.DeleteRaceIff | src/storage/redis.rs:712-732 | an update between a delete's read and its removal breaks the indices exactly when it changes the kind |
| RedisStorage.RedisStorage.Enqueue | src/storage/redis.rs:805-822 | the command sequence stores the blob and indexes it, index by index, in the sorted sets exactly when it may run at the reading |
| RedisStorage.RedisStorage.Update | src/storage/redis.rs:443-579 | likewise for the update script, and not-found for a missing blob |
| RedisStorage.RedisStorage.UpdateIfState | src/storage/redis.rs:581-710 | likewise for the compare-and-swap script, with the answers of the in-memory store |
| RedisStorage.RedisStorage.Delete | src/storage/redis.rs:712-732 | blob and index entries go, and it says whether there was a blob |
| RedisStorage.RedisStorage.DeleteExpiredJobs | src/storage/redis.rs:938-972 | on right indices: exactly the jobs past their expiry go and are counted, and the indices stay right |
| RedisStorage.SweepsDifferBy | src/storage/redis.rs:938-972 | of the jobs the in-memory sweep would remove this one leaves exactly those that expire at its reading |
| RedisStorage.RedisStorage.RequeueStrandedJobs | src/storage/redis.rs:976-1011 | on right indices: the walk over the processing set requeues exactly what the in-memory sweep would |
| RedisStorage.RedisStorage.ReclaimJobsFromServer | src/storage/redis.rs:1463-1492 | on right indices: requeues exactly the jobs stamped with that server |
| RedisStorage.RedisStorage.ClaimDue | src/storage/redis.rs:283-420 | the script's loops select, promote and index as the model's claim, for any index contents |
| RedisStorage.RedisStorage.SelectBest | src/storage/redis.rs:1059-1078 | the top of the tops is the highest-scored entry of the union of all candidate sets |
| RedisStorage.RedisStorage.FetchAndLockJob | src/storage/redis.rs:1013-1176 | claims the best entry exactly when it is stored and Enqueued or AwaitingRetry, and cleans it away otherwise, for any index contents |
| RedisStorage.RedisStorage.List | src/storage/redis.rs:734-774 | on right indices: the listing of the in-memory store |
| RedisStorage.RedisStorage.GetJobCounts | src/storage/redis.rs:776-800 | on right indices: the counts of the in-memory store |
| Timestamps.Reading | src/storage/redis.rs:386 | the calendar fields are valid and denote the instant's second |
| Timestamps.TextOrder | src/storage/redis.rs:338-344 | for every pair of instants and fraction widths: string order is time order in the shared digits, and at a tie the longer string is smaller |
| Timestamps.SameWidthIsChronological | src/storage/redis.rs:276-282 | with one exact width for both, string order and equality are those of the instants |
| Timestamps.DueByTextIff | src/storage/redis.rs:327 | the script's due test is the chronological one exactly when the stored time has six digits, differs in the shared ones, or has nine and is not after the reading |
| Timestamps.DueByTextNearly | src/storage/redis.rs:327 | in all cases it is less than a microsecond early and less than a second late |
| Timestamps.WholeSecondIsLate | src/storage/redis.rs:276-282 | a time on a whole second is not seen as due during that second |
| Timestamps.WholeSecondExample | src/storage/redis.rs:276-282 | 2025-01-01T00:00:00Z is not seen as due a microsecond later |
| Timestamps.OlderByTextIff | src/storage/redis.rs:338-344 | sorting by creation text is sorting by age exactly when the widths agree or the shared digits differ |

## Left out

- The PostgreSQL backend (src/storage/postgres.rs): its behaviour lives in SQL run by an engine outside the repository.
- Dashboard server, routes, websocket, authentication and pages; metrics, tracing, middleware, state-change hooks, the worker registry and the typed adapter: plumbing and easy members.
- Connections, command timeouts, JSON encoding, UUID generation, configuration builders and error text: jobs are stored as values, fresh ids are a hypothesis, errors are the kinds a caller can tell apart.
- The async runtime, cancellation and shutdown: only the interleaving of steps is modelled.
- Storage failures inside the poller: a failed enqueue still advances the template, as in the code; a failed upsert or a crashed poller is a claim that stays outstanding.
- Several clock readings inside one critical section are taken as one.
- The capacity check of an in-memory enqueue is a critical section of its own: in Protocol its answer is arbitrary, so stores may overshoot their limit; MemoryStorage.Enqueue is one undisturbed call.
- Redis per-job locks, native key expiry, Redis named locks, the Redis server registry and Redis recurring claim keys: they rest on behaviour of the Redis server.
- Redis batch fetch (at most 50, one fetch after another): an easy repetition of FetchAndLockJob.
- Plain listings of due or available jobs that claim nothing: easy members.
- The order in which Redis returns entries of equal score, and the order of equal keys in any sort: any order is allowed.
- Leap seconds in rendered timestamps; years outside 0 to 9999 are rendered with a sign, as the chrono crate does, but the results about text order are for years four digits can show. Lua compares strings by the server's collation, taken to be byte order.
- Scores are real numbers, not 64-bit floats.
- Retry.CalculateDelay: real arithmetic instead of 64-bit floats, an arbitrary factor in [-1, 1] instead of the random generator, and no saturation or overflow of durations; the 32-bit decrement of the linear strategy wraps, as in a release build.
- Recurring.AtMostOnce: registration, removal, disabling and enabling of a template while it is claimed are excluded, claims are written back within the parking time of 3650 days, and cron is any function that yields strictly later occurrences.
- Recovery.ReclaimFindsNothing: server ids contain `#`, as their generator writes them, and the stored stamp does not.
- Heartbeat.AliveIsSafe: a server's row is never older than the dead-server timeout when a step happens, and the server does not stop.
- RedisStorage.RedisStorage.DeleteExpiredJobs: stated for right indices; under drift each round only does what RedisFetch allows any command to do.
- RedisStorage.RedisStorage.RequeueStrandedJobs: stated for one operation at a time; its reads and writes among other commands are in RedisRequeue.
- RedisStorage.RedisStorage.ReclaimJobsFromServer: likewise stated for one operation at a time.
- RedisFlights.QuietRunIsConsistent: a job is not deleted before its enqueue is done, and the sorted sets are not followed there; a sequence cut short by a failed command stays under way.
- RedisRequeue.HitsAnotherIff: only fetches write Processing records, as the in-process callers do.
- Workers.JobProcessor.ProcessJob: one undisturbed call; interleaved executions are in Protocol.
- Workers.TickOnce: one undisturbed poll with fresh ids for its jobs; interleaved polls are in Recurring.
- Workers.BumpAndScan: one undisturbed cycle without storage failures; interleaved and failing ones are in Heartbeat.
- Workers.RetryJob: one undisturbed request; racing requests are in Protocol.
