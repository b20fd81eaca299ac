# Verified model of the PostgreSQL job queue

The queue keeps jobs in one table, claims them with `FOR UPDATE SKIP LOCKED` and a session-level
advisory lock, writes outcomes by `id` alone, and lets a reaper reset rows whose heartbeat is old
while their worker may still be running. Nothing in a row's status or owner guards the writes after
a claim, so safety rests on one invariant that spans the table, the advisory locks and the position
of every worker. This project models the protocol as one concurrent transition system with any
number of workers, processes, jobs and clients, proves that invariant, and derives what the queue
promises from it.

| file | content |
|---|---|
| `Schema.dfy` | the tables, the request body, the SET and WHERE clauses of every statement |
| `Protocol.dfy` | the state, one guard and one effect per atomic step, runs, reachability |
| `Invariant.dfy` | the inductive invariant, and that each step keeps it |
| `Safety.dfy` | what holds in every reachable state and over runs |
| `Accounting.dfy` | what the steps of a run add up to |
| `Provenance.dfy` | the steps that lead to a dead letter without a dead job, by position in the run |
| `Timing.dfy`, `Scenarios.dfy` | heartbeats, reaping, abandoned rows, reclaim after a crash, and concrete runs |
| `Transactions.dfy`, `Refinement.dfy`, `Realization.dfy` | statements, row locks and commits below the atomic steps, and that they lose none of them |
| `Scheduler.dfy` | the operations as methods of a class that updates tables and locks in place, among the steps of all others |
| `Arithmetic.dfy`, `Registry.dfy`, `Benchmark.dfy` | the arithmetic handlers and their checker |

`hist` in the protocol state, and the worker and execution fields marked as history, record what happened.
No step of the program reads them.

## Assumptions

- A claim session stays open while its worker executes; worker ids and job ids are never reused.
- A statement that raises had no effect; a dead process writes nothing more. Its sessions close at
  some later moment, which is a step of its own.
- Handlers do not change the payload. Payloads are JSON objects, priorities lie in 1..10 and
  `max_retries` in 0..10, as the request schema enforces. `RETRY_BASE_DELAY` is not negative.
- NOW() of a single-statement transaction that writes one row is the moment it takes effect. NOW() of the
  claim, of the dead-letter transaction and of the reaper's UPDATE is the start of the transaction, which
  may lie before the commit.
- A heartbeat or reaper statement sent before shutdown may take effect after it.
- A row that a SELECT returns has passed its WHERE clause, so that SELECT has taken the row's advisory lock,
  once more if the session held it already.
- Notifications that were sent arrive, in any order and after any delay.
- Times are integers in microseconds, the resolution of TIMESTAMPTZ.
- A claim may take any set of advisory locks, any number of times, besides the one it needs: where the
  plan evaluates `pg_try_advisory_lock` is not fixed. Locks are re-entrant with counts (sections 13.3.5,
  13.3.2 and 13.2.1 of the PostgreSQL 16 documentation).

## Where the code and its documentation disagree

- README.md:482-488 expects two writes when a healthy worker is reaped and also finishes.
  `Accounting.OneOutcomePerClaim` and `Safety.TerminalAbsorbs` show that the advisory lock prevents it, as
  README.md:139-152 says.
- worker/heartbeat.py:9-10 says that claimed rows are reclaimed. A first claim leaves `heartbeat_at` NULL,
  which never compares as older, so a job whose worker is gone before its first heartbeat stays claimed for
  ever (`Timing.LostExactlyWithoutHeartbeat`): when its process dies (`Scenarios.ClaimedForEver`), and also when
  only its coroutine ends because the UPDATE to 'running' raised, which stands outside the `try`
  (`Scenarios.LostInLiveProcess`).
- worker/heartbeat.py:9-10 also means to reclaim only from crashed or stalled workers. A retry does not clear
  `heartbeat_at`, so the next claim of the job can be reset under a healthy worker
  (`Timing.FalseReapingExactly`, `Scenarios.HealthyWorkerReaped`).
- worker/worker.py:374 promises to drain on shutdown, but heartbeat loops stop at once, so a drained job that
  takes long enough is reset by a reaper of another process (`Timing.DrainingJobGoesStale`,
  `Scenarios.DrainingWorkerReaped`). It is still not executed twice at a time.
- worker/heartbeat.py:4-6 calls the heartbeat proof of life of the worker. The loop outlives the coroutine: if
  only that ends while its job runs, the abandoned row stays fresh and is not reclaimed until the process is
  shut down or dies (`Timing.ReclaimedExactlyUnlessBeating`, `Scenarios.RunningAbandoned`).
- worker/worker.py:14-20 says that the advisory lock keeps a job to its worker until it is unlocked explicitly.
  A SELECT may take locks of rows that it does not return (worker/worker.py:136). Every later claim takes the
  lock once more and every unlock (worker/worker.py:226) gives one back, so such a lock stays until the
  session closes: a due job that nobody executes is kept from all other workers, and a retried one stays
  bound to one worker (`Accounting.SurplusLasts`, `Accounting.ClaimableExactly`, `Scenarios.SurplusKept`).
- api/schemas.py:43 describes `max_retries` as the number of retries before dead-lettering. A job has
  max(1, max_retries) attempts, hence max(0, max_retries - 1) retries (`Safety.RetryBudget`).
- tests/test_dlq.py:11 expects `attempts == max_retries`. With `max_retries` 0 a dead letter has
  `attempts` 1 (`Safety.RetryBudget`, `Scenarios.AttemptsAboveMaxRetries`).

## Model

| member | source | states |
|---|---|---|
| Safety.ReachableInv | worker/worker.py:129-289 | the invariant of locks, workers, rows, history and dead letters holds in every reachable state, whatever interleaves |
| Safety.MutualExclusion | worker/worker.py:129-228 | from claim to unlock a job has at most one worker, and that worker's open session holds its advisory lock |
| Safety.TerminalAbsorbs | worker/worker.py:178-287 | once a job is done or dead no step of any run changes any column of its row, although writes are guarded by id only |
| Safety.ResultIsFinal | worker/worker.py:200-209 | the result, completion time, attempt and worker written by a successful execution are what every later state shows |
| Safety.SnapshotAgreement | worker/worker.py:242-247 | while a worker executes, the record its claim returned agrees with the current row, so the retry-or-dead decision is the one the row calls for |
| Safety.LetterMatchesRow | worker/worker.py:253-273 | the dead-letter transaction appends exactly one letter with the worker, the error and the NOW() of the transaction; attempts, type and payload are those of the row it kills, and of the request when the row is gone; of the row only status, attempt and error change |
| Safety.RetryReschedules | worker/worker.py:277-287 | a retry puts the row back for exactly 2^attempt * BASE_DELAY after the failure, with the row's attempt although the backoff comes from the claimed record; status, attempt, error and worker change and nothing else |
| Safety.RetryBudget | worker/worker.py:247-287 | non-terminal jobs have attempt 0 or below max_retries; dead ones exactly max(1, max_retries); done ones 1 up to that; nothing is ever 'failed' |
| Safety.CumulativeBackoff | worker/worker.py:277-287 | run_at is at least the enqueued run_at plus BASE_DELAY * (2^attempt - 1), and no job dies before the sum of the backoffs of its earlier failures |
| Safety.ColumnCoherence | db/migrations/001_init.sql:11-29 | which nullable columns are set in each status, and that a done row names its last claimer |
| Safety.LettersDistinct | db/migrations/001_init.sql:58-67 | original_id is unique although the schema does not demand it |
| Safety.DeadHasLetter | worker/worker.py:247-273 | every dead job has a dead letter with its type, enqueued payload, error and final attempt |
| Safety.LetterHasOrigin | worker/worker.py:253-273 | every dead letter belongs to a dead job, or to one that a reaper reset during its last execution and a client then cancelled |
| Provenance.LetterOrigin | worker/worker.py:253-273 | in a run from the empty queue, a dead letter without a dead job comes after, in this order, the last claim of the job, by the letter's worker, a reset of the row, and a cancel |
| Safety.Ownership | worker/heartbeat.py:59-67 | at most one claimed or running row carries a given worker_id: the one that worker executes, or abandoned when it died |
| Safety.HeartbeatTouchesOne | worker/heartbeat.py:59-67 | the heartbeat's UPDATE, which names no id, changes at most one row |
| Safety.CancelDuringExecution | api/routes/jobs.py:190-211 | a job can be cancelled under its executor only after a reaper reset it during that execution |
| Safety.CancelNeedsReset | api/routes/jobs.py:190-211 | from a claim on, while the worker executes the job, a client can cancel it only if the run contains a reset of that row; the history flag says exactly that |
| Safety.GoneForGood | api/routes/jobs.py:208-211 | a cancelled job never reappears, even if its executor still writes |
| Safety.AtMostOneLateClaim | worker/worker.py:329-335 | after shutdown_event is set a worker claims at most one more job, over any run |
| Safety.FinishesItsJobs | worker/worker.py:328-335 | a worker that leaves its loop normally has written the outcome of the job it held and of every job it claimed since, one each |
| Safety.GracefulDrain | worker/worker.py:328-353 | from shutdown to the normal end of its loop a worker claims at most one more job, finishes that one and the one it was executing, and leaves no claimed or running row |
| Safety.CleanExit | worker/worker.py:345-353 | a worker that leaves its loop normally owns no claimed or running row, and its closed session holds no advisory lock |
| Safety.NoLostWakeUp | worker/worker.py:313-343 | for every insert, also one before the worker registered: it scanned since, is about to, its event is set, or the notification is under way; a blocked worker with all of these false does not exist |
| Safety.DeliveredWakes | worker/worker.py:94-108 | once the notification of an insert was delivered, in every later state the worker has scanned since, is about to, or can wake up without its timeout |
| Safety.PollFallback | worker/worker.py:337-343 | after a scan that found nothing, in every later state before the wake-up, the worker can wake exactly when its event is set or POLL_INTERVAL has passed since the scan |
| Safety.WorkerProceeds | worker/worker.py:328-351 | a worker that has not stopped can take its next statement wherever it is, and a wait ends exactly with the event or the timeout |
| Safety.FailureDecided | worker/worker.py:242-247 | a failure leads to a retry or to a dead letter, never to both or neither, whatever has happened to the row |
| Safety.ConsumedOnce | api/routes/jobs.py:199-211 | between a claim of a job and the job's next time in the queue lies a retry or a reset |
| Accounting.BoundedWork | worker/worker.py:145-151 | the number of Claim steps for a job in a run is at most max(1, max_retries) plus the executions whose worker died |
| Safety.ExecutionAccounting | worker/worker.py:200-287 | claims = attempt + abandoned executions + the one in flight, for every existing job; and the bound for deleted ones |
| Accounting.OneOutcomePerClaim | worker/worker.py:200-287 | over a run, claims of a job = outcome writes + executions ended by death + the one in flight: no second write for one claim |
| Accounting.LockBalance | worker/worker.py:223-228 | an open session holds each lock as often as it took it less its unlocks, so the unlock always finds its lock |
| Accounting.SurplusLasts | worker/worker.py:223-228 | a lock held once more than the claim or execution under way needs stays held until the session closes, whatever its holder claims, executes and unlocks; until then no claim of that job is by anyone else |
| Accounting.ClaimableExactly | worker/worker.py:129-136 | a free worker can claim a pending job before the session that now holds its lock closes if and only if no other session holds it |
| Accounting.ClaimServesRequest | api/routes/jobs.py:55-66 | any later claim hands the worker the type, payload, priority and retries of the request, with exactly the requested run_at before the first failure, and not before it plus all backoffs later |
| Accounting.BackoffRespected | worker/worker.py:277-287 | after a failed attempt no claim of the job succeeds before 2^attempt * BASE_DELAY have passed since the failure, whatever happens in between, and the next attempt is due exactly then |
| Timing.FalselyStale | worker/heartbeat.py:91-102 | a healthy execution is stale exactly when it is not yet marked running and its row kept an old heartbeat from a failed attempt |
| Timing.NoFalseReaping | worker/heartbeat.py:59-102 | a job claimed with NULL heartbeat_at is never reset while its worker executes it with timely heartbeats |
| Timing.FalseReapingExactly | worker/worker.py:145-151 | a healthy execution, with timely heartbeats throughout, can be reset in some run if and only if its claim took a row that still had a heartbeat_at |
| Timing.DrainingJobGoesStale | worker/heartbeat.py:57-75 | after shutdown, and after the last heartbeat sent before it, the row of a job still running keeps that heartbeat, so it is stale exactly when STALE_THRESHOLD has passed since |
| Timing.BoundedReclaim | worker/heartbeat.py:91-102 | a row with a heartbeat, as every running one has, whose process died at t is reset by t + STALE_THRESHOLD + gap, if scans begin at most gap apart and none that finds this row stale by its NOW() misses it |
| Timing.LostExactlyWithoutHeartbeat | worker/heartbeat.py:98-99 | a held row that nobody executes any more, after the death of its process or of its coroutine alone, can change again, and can be put back, if and only if it has a heartbeat |
| Timing.OrphanLostExactly | worker/heartbeat.py:98-99 | the same when the process died |
| Timing.ReclaimedExactlyUnlessBeating | worker/heartbeat.py:57-67 | while the heartbeat loop of a dead coroutine goes on, its abandoned row can be reset if and only if it has a heartbeat and is not a running row with that worker id |
| Timing.DeadSessionHoldsNothing | worker/worker.py:345-351 | a closed session holds no advisory lock |
| Scenarios.HealthyWorkerReaped | worker/worker.py:277-287 | a concrete run in which a worker with heartbeats 20 s apart has its job reset |
| Scenarios.ClaimedForEver | worker/worker.py:145-151 | a concrete run that ends with a claimed row that nothing can change |
| Scenarios.LostInLiveProcess | worker/worker.py:178-183 | the same with no process dead and the heartbeat loop timely, after the UPDATE to 'running' raised |
| Scenarios.RunningAbandoned | worker/worker.py:217-228 | a concrete run that ends with a running row abandoned in a live process whose heartbeat loop refreshes it |
| Scenarios.DrainingWorkerReaped | worker/heartbeat.py:57-75 | a concrete run in which a job is reset under the worker that drains it 31 s after shutdown |
| Scenarios.AttemptsAboveMaxRetries | worker/worker.py:247-273 | a concrete run to a dead letter with attempts 1 of a job with max_retries 0 |
| Scenarios.SurplusKept | worker/worker.py:129-136 | a concrete run after which a due job that nobody executes cannot be claimed by a free worker in any run, unless another worker, which is at its loop, closes its session |
| Refinement.FineRunRefines | worker/worker.py:129-153 | every interleaving of statements, advisory locks tried one by one, row locks, commits and aborts, the reaper locking its rows one by one, moves the committed state as a run of atomic steps |
| Refinement.CommitClaimIsClaim | worker/worker.py:145-153 | committing the buffered claim is the atomic claim of the committed row, because the row lock kept the row |
| Refinement.CommitLetterIsDeadLetter | worker/worker.py:253-273 | committing insert and update together is the atomic dead-letter step, also when the row was deleted meanwhile |
| Refinement.CommitReapIsReap | worker/heartbeat.py:91-102 | row versions that the reaper buffered one at a time, by the NOW() of its start, amount at commit to one reset of those rows, all still stale |
| Refinement.CommittedStatesReachable | worker/worker.py:129-153 | every committed state is a reachable state of the atomic protocol, so all results above hold of it |
| Realization.LocksEndWithTransactions | worker/worker.py:129-153 | a row is locked only while a claim, cancel, dead letter or reset of that very row is open |
| Realization.ClaimRealized | worker/worker.py:129-153 | a scanning worker can claim any due row whose advisory lock it gets and which nobody has locked, whatever other transactions are open, and all of them stay as they were |
| Realization.CancelRealized | api/routes/jobs.py:190-211 | a pending row that nobody has locked can be cancelled whatever else is open |
| Realization.LetterRealized | worker/worker.py:253-273 | a failed last attempt can be dead-lettered if nobody has locked its row |
| Realization.ReapRealized | worker/heartbeat.py:91-102 | any set of stale rows that nobody has locked can be reset in one transaction |
| Realization.SingleRealized | worker/worker.py:178-183 | every other statement takes effect unless its worker has a transaction open or the row it writes is locked |
| Realization.ClaimedAtBegin | worker/worker.py:145-151 | a committed claim carries the time at which its transaction began, and its row was due then |
| Realization.DiedAtInsert | worker/worker.py:253-266 | a committed dead letter carries the time of its insert, however long the transaction took |
| Refinement.OneTransactionPerRow | api/routes/jobs.py:190-211 | open claims and cancels are about different rows, and an open claim's record is still the committed row |
| Refinement.ClaimThenCancel | api/routes/jobs.py:190-211 | a claim and a later cancel never both consume one occurrence in the queue: a retry or reset lies between their commits |
| Refinement.CancelThenNoClaim | api/routes/jobs.py:208-211 | after a committed cancel no claim transaction ever selects the job |
| Scheduler.Queue.CreateJob | api/routes/jobs.py:55-66 | inserts under a fresh id a row whose every column is given by the request and the clock, notifies every listening worker, and changes no other row; the invariant is kept |
| Scheduler.Queue.CancelJob | api/routes/jobs.py:190-211 | 404 exactly for a missing row, 409 exactly for a row that is not pending, otherwise the row is gone; nothing else changes |
| Scheduler.Queue.CloseSession | worker/worker.py:345-351 | closing the claim connection frees exactly the advisory locks of that worker |
| Scheduler.Queue.TryClaim | worker/worker.py:129-153 | with locks of other sessions around: None exactly when there is no pending row with run_at reached whose lock is free or its own, and then it waits for POLL_INTERVAL; otherwise it claims such a row that no other precedes by priority descending and run_at ascending; every lock that the SELECT took is counted |
| Scheduler.Queue.HandleFailure | worker/worker.py:242-287 | on the last attempt one dead letter dated now and the row dead, before that the row pending with run_at exactly 2^attempt * BASE_DELAY from now; column by column, also when the row is gone |
| Scheduler.Queue.ExecuteJob | worker/worker.py:173-228 | with any steps of others before each statement, the death of the process among them, and any statement raising: the worker stops exactly if its process died or a statement outside the `try` or in its handler raised, otherwise the row, if not cancelled, shows the outcome |
| Scheduler.ExecutedOutcome | worker/worker.py:173-289 | what one execution comes to under interference: done with its result, pending with one more attempt and its backoff, or dead with its letter, all dated at the moment the outcome was written; the lock is given back once |
| Scheduler.AnyRunBeside | worker/worker.py:173-228 | every run of steps of others is among the interference that executions are proved against |
| Scheduler.ExecutedIsRun | worker/worker.py:173-228 | one execution with all interference is a run of the protocol in which the worker takes exactly three steps, mark, one outcome write, unlock, or the first of them until its process dies |
| Scheduler.Queue.Beat | worker/heartbeat.py:59-69 | heartbeat_at becomes now in exactly the running rows with this worker id; the logged row count is 0 or 1; a changed row is the job that this worker executes or abandoned |
| Scheduler.Queue.ReapStale | worker/heartbeat.py:91-103 | one complete reaper statement: exactly the claimed and running rows whose heartbeat is more than 30 s old become pending without claimed_at, worker and heartbeat; the row count; no stale row is left |
| Scheduler.Queue.Drain | worker/worker.py:328-335 | a worker alone, taking any surplus locks and any time in its handlers, empties the queue of due jobs one after the other, never one before another that was due at that moment and comes first |
| Scheduler.DrainedAll | worker/worker.py:130-140 | its claims are a permutation of the jobs due by the end, each once and done; no other row changed; if no job became due on the way they are by priority descending and run_at ascending |
| Registry.IsPrimeHandler | worker/registry.py:129-145 | reports prime exactly for primes, with (p+1)/2 checks at smallest factor p of an odd composite and 1+(isqrt(n)-1)/2 for odd primes |
| Registry.CollatzHandler | worker/registry.py:158-178 | on exit steps, maximum and checksum are length, maximum and sum of the walk to its first 1; exits within the fuel exactly if 1 is reached that soon |
| Arithmetic.NeverOne | worker/registry.py:164-171 | from zero and negative numbers the walk never reaches 1, so the handler never returns |
| Arithmetic.CollatzUnfolds | worker/registry.py:164-171 | the result for n is that for n/2, or for 3n+1 when n is odd, with one step more, n added to the checksum, and n in the maximum |
| Arithmetic.PowerOfTwo | worker/registry.py:164-171 | from 2^k the result is k steps, maximum 2^k, checksum 2^(k+1)-1 |
| Arithmetic.LeastFactorIsLeast | worker/registry.py:140-143 | the least factor in the check count divides n, nothing smaller above 1 does, and it is n itself exactly for primes |
| Arithmetic.IsqrtIsRoot | worker/registry.py:139 | the square root in the check count is the integer square root |
| Arithmetic.CollatzSpecUnique | benchmark/math_benchmark.py:71-81 | the meaning given to the Collatz result determines all its fields |
| Benchmark.GroundTruthIsPrime | benchmark/math_benchmark.py:55-68 | the recomputation has the same meaning as the handler |
| Benchmark.GroundTruthCollatz | benchmark/math_benchmark.py:71-81 | the recomputation has the same meaning as the handler |
| Benchmark.VerifyResult | benchmark/math_benchmark.py:95-122 | for any JSON payload and result: accepts exactly if the keys hold values that Python takes for the right flag and count, or the right steps, maximum and checksum; rejects unknown types and payloads that make the recomputation raise |
| Benchmark.PrimeAccepted | benchmark/math_benchmark.py:98-104 | for every integer the checker accepts what the handler returns |
| Benchmark.JudgePrime | benchmark/math_benchmark.py:98-104 | the checker accepts a claimed flag and count exactly if they are those of the handler |
| Benchmark.CollatzAccepted | benchmark/math_benchmark.py:106-111 | whenever the handler returns the checker accepts its result |
| Benchmark.JudgeCollatz | benchmark/math_benchmark.py:106-111 | the checker accepts claimed steps, maximum and checksum exactly if they are those of the handler, and finishes whenever the handler does |

## Left out

- Registry.CollatzHandler: takes a bound on its iterations, because whether the walk ends for every positive n is an open problem; without a bound the method could not be shown to end. It returns exactly when the loop of the source does within the bound.
- Benchmark.GroundTruthCollatz: takes the same bound, for the same reason.
- Benchmark.VerifyResult: takes the same bound for "collatz"; the hash chain is a parameter.
- Registry.IsPrimeHandler: starts from the integer; parsing of strings, floats and missing keys by `int(job["payload"]["n"])` is not modelled. JSON numbers with a fraction are not modelled in Benchmark either.
- Scheduler.Queue.TryClaim: the transaction runs with nothing in between; interference with it is what the transaction-level system models.
- Scheduler.Queue.Drain: one worker alone, and handlers that succeed.
- Timing.NoFalseReaping: takes the spacing of heartbeats as a hypothesis; that the loop meets it depends on the event loop and the database.
- Timing.DrainingJobGoesStale: says nothing while a heartbeat that was sent before the shutdown may still arrive.
- Lock waits inside a single statement have no timestamp of their own: see the assumption on NOW().
- Deadlock detection, ambiguous commits and network partitions that close a session under a running worker.
- The planner: which rows a claim visits is arbitrary in the protocol, and only Scheduler.Queue.TryClaim fixes the ORDER BY.
- HTTP, request parsing, JSON codecs, logging, connection pools, environment variables and signals.
- `list_jobs`, `get_job`, the metrics routes and the statistics view: reads without an invariant across them.
- The `sha256_chain` handler is not modelled; the echo, noop, slow, flaky and always_fail handlers appear only as their outcomes.
- The load generator, demo scripts, inspector and container files.
