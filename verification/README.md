# Verified model of the SynQc backend

A Dafny model of the parts of the SynQc backend and of its Shor/RSA add-on where the logic is
hard, with proofs that hold for every input, every run or every interleaving.

- **Number theory** (`NumberTheory`, `Rsa`, `MillerRabin`, `Factoring`): raw RSA (RSAEP and RSADP,
  section 5.1 of RFC 8017), Miller-Rabin, trial division, Pollard's rho, and decryption through
  recovered factors, over unbounded integers with Python's floor division. Random draws are inputs.
- **The Grover circuit builder** (`Circuit`, `Grover`, `Amplification`): a circuit is a list of X, H
  and MCX gates, a state gives an integer amplitude to each basis state, and H is unnormalised, so
  each H carries a factor sqrt 2 that the theorems account for. What the emitted gate lists mean is
  proved for every state, and for every number of qubits, marked strings and iterations.
- **Three job protocols**: the thread-pool queue (`JobQueue`, `JobProtocol`, `JobOutcomes`,
  `JobAdmission`), the Redis run queue (`RunQueue`, `RunOutcomes`) and the agent queue with delayed
  retries (`AgentStore`, `AgentProtocol`, `AgentOutcomes`, `AgentLoss`). One lock region, one Redis
  command or one MULTI/EXEC pipeline is one atomic function on the shared state. The classes change
  their fields step by step, say so field by field, and are proved to compute these functions; the
  protocols then take any sequence of events, where one that is not enabled changes nothing.
- **Budgets, stores, caches and loops** (`Budget`, `Guardrail`, `LocalGuardrail`, `ExperimentStore`,
  `Escalation`, `Password`, `TokenCache`).

Notes on where the code decides:

- `SqliteJobStore` is not defined in `job_store.py`, so the guarded import in `jobs.py` leaves the
  queue without persistence, and it is modelled so.
- `enqueue` of the thread-pool queue checks and inserts under separate locks, so C callers can have
  up to `max_pending` - 1 + C jobs active when `max_pending` is positive, and some run does.
  `max_pending` is a cap exactly when it is 0, or positive with at most one caller
  (`JobAdmission.CapacityExact`, `CapHoldsExactly`).
- `shutdown` sets its flag under the lock and stops the executor afterwards; a caller past the check
  may still submit in between, and its job runs (`JobProtocol`, events BeginShutdown, StopExecutor).
- The two budget implementations answer alike exactly when the ttl is positive
  (`Budget.ImplementationsAgree`, `NonPositiveTtlDisagrees`), although their stored data differ.
- `factor_semiprime` never returns on a prime above 3, and never needs Pollard's rho on a composite:
  trial division has already split it (`Factoring.FactorSemiprime`).
- A revoked token is served from the cache to every call that starts less than 30 seconds after the
  caller of the lookup that cached it read its clock, while that entry lasts, and to no call that
  starts 30 seconds or more after the revocation (`TokenCache.CacheHitExact`, `RevokedTokenServed`,
  `RevocationTakesEffect`).
- `auth/store.py` uses four pooled connections and never commits. Its first write opens a transaction
  on one connection; that connection alone can write and accept tokens from then on, the others
  answer from what was committed before the process started, and nothing written is ever committed
  (`TokenCache.OneWriterForEver`, `UncachedAnswerExact`, `IssuedToken`).
- The retry delay is `float(2 ** (attempt - 1))`, which overflows from attempt 1025 on. The exception
  leaves `process_one` before anything is written and is swallowed by the worker's loop, so a job
  whose limit is above 1025 and that fails 1025 times stays running, in no list, set or hand
  (`AgentProtocol.ExactlyOnePlace`, `StrandedForEver`, `AgentLoss.LossExactly`).
- A timer of the thread-pool queue may fire at any moment while its job runs, which covers every
  timer that the clock allows.

## Model

| member | source | states |
|---|---|---|
| `NumberTheory.EgcdIsGreatestCommonDivisor` | archives/addons/synqc_shor_addon_v2/synqc_shor_addon_v2/backend/synqc_shor/rsa.py:23-28 | For all integers, of either sign, `egcd` under Python floor division returns a non-negative Bezout combination that divides both arguments and is divided by every common divisor. |
| `NumberTheory.EuclidLemma` | archives/addons/synqc_shor_addon_v2/synqc_shor_addon_v2/backend/synqc_shor/rsa.py:23-36 | A prime dividing a product divides a factor, from the Bezout combination; the arithmetic ground of the inverse and of the round trip. |
| `NumberTheory.Fermat` | archives/addons/synqc_shor_addon_v2/synqc_shor_addon_v2/backend/synqc_shor/rsa.py:60-79 | Fermat's little theorem, proved through the binomial theorem; what makes both Miller-Rabin and RSA work. |
| `Rsa.ModinvExact` | archives/addons/synqc_shor_addon_v2/synqc_shor_addon_v2/backend/synqc_shor/rsa.py:31-36 | For all integers: `modinv` succeeds exactly on coprime arguments with a modulus other than 0, and then returns the inverse among the residues with the sign of the modulus. |
| `Rsa.EncryptComputes` | archives/addons/synqc_shor_addon_v2/synqc_shor_addon_v2/backend/synqc_shor/rsa.py:136-141 | What encryption computes: exponent 0 gives 1 mod N, each further unit multiplies by the plaintext mod N, and exactly the plaintexts outside [0, N) are refused. |
| `Rsa.DecryptComputes` | archives/addons/synqc_shor_addon_v2/synqc_shor_addon_v2/backend/synqc_shor/rsa.py:144-149 | The same for decryption. |
| `Rsa.NegativeExponent` | archives/addons/synqc_shor_addon_v2/synqc_shor_addon_v2/backend/synqc_shor/rsa.py:136-149 | With a negative exponent both give the inverse of the opposite power, and fail exactly when the number shares a factor with N. |
| `Rsa.RoundTrip` | archives/addons/synqc_shor_addon_v2/synqc_shor_addon_v2/backend/synqc_shor/rsa.py:136-149 | For distinct primes, every exponent coprime to phi and every plaintext below N, also one sharing a factor with N, decryption with `modinv(e, phi)` undoes encryption. |
| `Rsa.EncryptInjective` | archives/addons/synqc_shor_addon_v2/synqc_shor_addon_v2/backend/synqc_shor/rsa.py:136-141 | No two plaintexts below N share a ciphertext. |
| `Rsa.GenerateKeypair` | archives/addons/synqc_shor_addon_v2/synqc_shor_addon_v2/backend/synqc_shor/rsa.py:107-133 | Parameters are refused exactly when too small; the key comes from the first draw with distinct primes and e coprime to phi, with d the inverse of e; without one the search goes on. |
| `Rsa.KeyRoundTrip` | archives/addons/synqc_shor_addon_v2/synqc_shor_addon_v2/backend/synqc_shor/rsa.py:97-149 | Every key of that form built from real primes decrypts what it encrypts. |
| `MillerRabin.TrySmallPrimes` | archives/addons/synqc_shor_addon_v2/synqc_shor_addon_v2/backend/synqc_shor/rsa.py:39-46 | True exactly when n is one of the twelve primes or divisible by none of them. |
| `MillerRabin.Decompose` | archives/addons/synqc_shor_addon_v2/synqc_shor_addon_v2/backend/synqc_shor/rsa.py:60-65 | The halving loop writes n - 1 as an odd number times a power of two. |
| `MillerRabin.DecompositionUnique` | archives/addons/synqc_shor_addon_v2/synqc_shor_addon_v2/backend/synqc_shor/rsa.py:60-65 | That decomposition is the only one, so the verdict does not depend on how it was found. |
| `MillerRabin.PassesOne` | archives/addons/synqc_shor_addon_v2/synqc_shor_addon_v2/backend/synqc_shor/rsa.py:68-78 | One witness round passes exactly when the witness is a strong liar: its tower of squarings starts at 1 or meets n - 1 below level s. |
| `MillerRabin.SquareRootsOfOne` | archives/addons/synqc_shor_addon_v2/synqc_shor_addon_v2/backend/synqc_shor/rsa.py:70-76 | Modulo a prime, 1 has no square roots but 1 and p - 1. |
| `MillerRabin.PrimeAccepted` | archives/addons/synqc_shor_addon_v2/synqc_shor_addon_v2/backend/synqc_shor/rsa.py:39-79 | A prime passes the screening and every witness in [2, n-2]. |
| `MillerRabin.FermatMeansCoprime` | archives/addons/synqc_shor_addon_v2/synqc_shor_addon_v2/backend/synqc_shor/rsa.py:68-72 | A witness that passes Fermat's condition shares no factor with n. |
| `MillerRabin.SmallPrimesExact` | archives/addons/synqc_shor_addon_v2/synqc_shor_addon_v2/backend/synqc_shor/rsa.py:40-40 | The twelve numbers are the primes up to 37. |
| `MillerRabin.IsProbablePrime` | archives/addons/synqc_shor_addon_v2/synqc_shor_addon_v2/backend/synqc_shor/rsa.py:49-79 | True on 2 and 3 and false below 2; above 3, true exactly when n is odd, passes the screening, and for every witness w has w^(n-1) = 1 and, whenever w^(2k) = 1 for 2k = (n-1)/2^j, w^k = 1 or -1 modulo n. A prime is never rejected, and a witness sharing a factor with n always rejects. |
| `Factoring.TrialDivision` | archives/addons/synqc_shor_addon_v2/synqc_shor_addon_v2/backend/synqc_shor/classical_factor.py:16-25 | For all integers: the least divisor above 1, which is prime, with its cofactor; on odd n above 1 none exactly for primes; the square root of a negative odd n fails. |
| `Factoring.FloydMeets` | archives/addons/synqc_shor_addon_v2/synqc_shor_addon_v2/backend/synqc_shor/classical_factor.py:41-47 | Tortoise and hare stand on the same value within n steps, for every c and start (pigeonhole on a finite orbit). |
| `Factoring.RhoWalk` | archives/addons/synqc_shor_addon_v2/synqc_shor_addon_v2/backend/synqc_shor/classical_factor.py:37-47 | The inner loop ends within n steps, at the first step whose gcd is not 1; that gcd divides n. |
| `Factoring.OrbitMeaning` | archives/addons/synqc_shor_addon_v2/synqc_shor_addon_v2/backend/synqc_shor/classical_factor.py:41-42 | The walk starts at x, and each value squared plus c, modulo n, is the next. |
| `Factoring.StepGcdMeaning` | archives/addons/synqc_shor_addon_v2/synqc_shor_addon_v2/backend/synqc_shor/classical_factor.py:43-47 | The gcd of a step is the greatest common divisor of n and of the distance between tortoise and hare. |
| `Factoring.PollardsRho` | archives/addons/synqc_shor_addon_v2/synqc_shor_addon_v2/backend/synqc_shor/classical_factor.py:28-49 | 2 and 3 come first; otherwise the answer is the gcd of the first draw whose walk does not end in n, and there is none exactly when every walk does. Any answer divides n, properly when n > 3; on a prime above 3 there is never one. |
| `Factoring.FactorSemiprime` | archives/addons/synqc_shor_addon_v2/synqc_shor_addon_v2/backend/synqc_shor/classical_factor.py:52-69 | Every composite input is split into its least prime and the cofactor, in order; 2 and 3 give a factor 1; a prime above 3 is exactly the input whose search never ends. |
| `Factoring.BitLengthExact` | archives/addons/synqc_shor_addon_v2/synqc_shor_addon_v2/backend/synqc_shor/factor.py:41-48 | The bit length is the exponent of the power of two just above a number. |
| `Factoring.FactorClassical` | archives/addons/synqc_shor_addon_v2/synqc_shor_addon_v2/backend/synqc_shor/factor.py:41-89 | The size checks and the classical route: each error under its exact condition, otherwise a proper split led by the least prime. |
| `Factoring.SemiprimeSplitUnique` | archives/addons/synqc_shor_addon_v2/synqc_shor_addon_v2/backend/synqc_shor/classical_factor.py:52-69 | A split of p*q with a prime first factor is {p, q} itself. |
| `Factoring.DecryptWithFactors` | archives/addons/synqc_shor_addon_v2/synqc_shor_addon_v2/backend/synqc_shor/api.py:364-367 | phi and d rebuilt from any such split recover the plaintext. |
| `Factoring.DecryptByFactoring` | archives/addons/synqc_shor_addon_v2/synqc_shor_addon_v2/backend/synqc_shor/api.py:350-367 | Factor, then decrypt: whatever p, q and m a ciphertext came from, the route answers m; and each factoring error under its exact condition. |
| `Circuit.RunLinear` | backend/synqc_backend/grover.py:50-98 | Circuits commute with every linear combination of two states. |
| `Circuit.NormConserved` | backend/synqc_backend/grover.py:50-138 | Every well-formed X/H/MCX circuit conserves the squared norm, up to a factor 2 per unnormalised H. |
| `Grover.BuildOracle` | backend/synqc_backend/grover.py:50-77 | Fails exactly when some string is not n characters of 0 and 1; otherwise emits the oracle gate list. |
| `Grover.BitOrder` | backend/synqc_backend/grover.py:63-65 | Qubit i stands for the i-th character from the right. |
| `Grover.BuildDiffuser` | backend/synqc_backend/grover.py:80-98 | Emits the diffuser gate list. |
| `Grover.BuildGroverCircuit` | backend/synqc_backend/grover.py:120-138 | Emits the uniform layer and then the oracle and the diffuser once per iteration; fails exactly on a malformed string. |
| `Grover.OracleMeaning` | backend/synqc_backend/grover.py:59-77 | The oracle gate list flips the sign of basis state x exactly when x occurs an odd number of times among the marked strings, qubit i being bit i from the right. |
| `Grover.WalshTwice` | backend/synqc_backend/grover.py:86-96 | The layer of H gates is its own inverse up to scale. |
| `Grover.DiffuserMeaning` | backend/synqc_backend/grover.py:80-98 | The diffuser takes every amplitude to itself minus twice the mean, up to the tracked scale. |
| `Grover.GroverMeaning` | backend/synqc_backend/grover.py:120-138 | After any number of iterations on distinct marked strings the state is constant on marked and constant on unmarked strings, with the amplitudes of the two-number recurrence. |
| `Grover.GroverConserves` | backend/synqc_backend/grover.py:120-138 | The squared marked and unmarked amplitudes always add up to the accumulated scale. |
| `Amplification.RotationRecurrence` | backend/synqc_backend/grover.py:133-135 | The amplitudes of every run obey the three-term recurrence of a rotation by a fixed angle, whose cosine is (2m - 2^n) / 2^n for m marked strings. |
| `Amplification.WeightStep` | backend/synqc_backend/grover.py:133-135 | Every iteration scales the squared amplitudes of all strings together by the same factor, for every m. |
| `Amplification.GrowthExact` | backend/synqc_backend/grover.py:133-135 | An iteration of any run raises the share of the marked strings exactly when some but not all are marked and two linear forms of the amplitudes have the same sign. |
| `Amplification.FirstIterationGrows` | backend/synqc_backend/grover.py:133-135 | The first one does exactly when at least one, and fewer than half, of all strings are marked. |
| `Amplification.StateGrowthExact` | backend/synqc_backend/grover.py:120-138 | The same growth condition on the squared norm of the state that the built circuit makes, for all distinct marked strings and every iteration. |
| `JobQueue.JobQueueObject.Check` | backend/synqc_backend/jobs.py:139-146 | First lock region of `enqueue`: refuses when shutting down, or when queued plus running jobs reach `max_pending`. |
| `JobQueue.JobQueueObject.CountActive` | backend/synqc_backend/jobs.py:143-144 | The pass over the records counts exactly the queued and running ones. |
| `JobQueue.JobQueueObject.Insert` | backend/synqc_backend/jobs.py:148-156 | Second lock region of `enqueue`: the new state in full. |
| `JobQueue.JobQueueObject.Register` | backend/synqc_backend/jobs.py:166-168 | Third lock region of `enqueue`. |
| `JobQueue.JobQueueObject.Cancel` | backend/synqc_backend/jobs.py:172-217 | True exactly for a known job that is not terminal; the new state in full, and whether `future.cancel` is called. |
| `JobQueue.JobQueueObject.Timeout` | backend/synqc_backend/jobs.py:245-285 | Takes effect exactly on a running job; the new state in full. |
| `JobQueue.JobQueueObject.Start` | backend/synqc_backend/jobs.py:287-296 | Leaves a job that has already failed alone; otherwise marks it running. |
| `JobQueue.JobQueueObject.Arm` | backend/synqc_backend/jobs.py:301-308 | The timer is recorded. |
| `JobQueue.JobQueueObject.Succeed` | backend/synqc_backend/jobs.py:320-325 | A running job ends succeeded with the very result returned; any other is left alone. |
| `JobQueue.JobQueueObject.Fail` | backend/synqc_backend/jobs.py:378-405 | Writes the failure and its count only while the job is running. |
| `JobQueue.JobQueueObject.Finally` | backend/synqc_backend/jobs.py:367-374 | Drops the timer and fills in a missing finish time of a terminal job. |
| `JobQueue.JobQueueObject.Shutdown` | backend/synqc_backend/jobs.py:226-231 | No new jobs, and every cancel event set. |
| `JobQueue.JobQueueObject.GetStats` | backend/synqc_backend/jobs.py:489-522 | Each status count is the number of jobs with that status; the total and the failure codes are those of the queue. |
| `JobQueue.StatusPartition` | backend/synqc_backend/jobs.py:493-516 | The four status counts sum to the number of jobs. |
| `JobQueue.ActiveExact` | backend/synqc_backend/jobs.py:143-144 | The active jobs are the queued and the running ones. |
| `JobQueue.BumpExact` | backend/synqc_backend/jobs.py:197-198 | A failure is counted one up, from 0 for a new code, and no other count changes. |
| `JobQueue.FailureOf` | backend/synqc_backend/jobs.py:336-366 | Each exception is recorded under the code of its handler, with its text as error and message. |
| `JobProtocol.FirstWriterWins` | backend/synqc_backend/jobs.py:172-426 | Over every interleaving, once a job is terminal its status, start, result and error fields never change again. |
| `JobProtocol.ReachableJobs` | backend/synqc_backend/jobs.py:172-487 | In every reachable state: error fields exactly when failed, a result exactly when succeeded, `worker_fn` called at most once and never without a start, and each failure handed to the store exactly once or about to be. |
| `JobProtocol.CancelledBeforeStartNeverRuns` | backend/synqc_backend/jobs.py:291-294 | A job failed before its start is never given to `worker_fn`, whatever follows. |
| `JobProtocol.FailedWorkersAreSignalled` | backend/synqc_backend/jobs.py:200-374 | In every reachable state a job failed under its worker by a cancel or a timeout has its cancel event set, no timer is left of a job that has not begun or is done, and a job that its thread is done with has a finish time. |
| `JobOutcomes.OutcomesAreOwn` | backend/synqc_backend/jobs.py:172-426 | Over every interleaving: a succeeded job's result is what its own worker call returned; a failed job's failure is the reason of a cancel of it, its timeout, or what its own worker call raised, each under its code; and that call ends at most once. |
| `JobOutcomes.EndsOnce` | backend/synqc_backend/jobs.py:318-366 | The worker call of a job ends at most once. |
| `JobProtocol.FailureCountsExact` | backend/synqc_backend/jobs.py:197-198 | In every reachable state `_failure_counts[c]` is the number of failed jobs with code c (the writes at 197-198, 266-267 and 405). |
| `JobAdmission.AdmissionBound` | backend/synqc_backend/jobs.py:139-170 | With C concurrent callers, active jobs plus callers between check and insert never exceed `max_pending` - 1 + C, and are 0 when `max_pending` is not positive. |
| `JobAdmission.CapacityExact` | backend/synqc_backend/jobs.py:139-170 | That bound is reached: for every number of callers it is exactly the most jobs that any run has active at once. |
| `JobAdmission.CapHoldsExactly` | backend/synqc_backend/jobs.py:139-170 | `max_pending` is a cap over all runs exactly when it is 0, or positive with at most one caller. |
| `JobAdmission.SingleCallerCap` | backend/synqc_backend/jobs.py:139-170 | With one caller the cap holds. |
| `JobAdmission.TwoCallersOverrun` | backend/synqc_backend/jobs.py:140-156 | With two callers, from any state one below the cap, two checks before two inserts overrun it by one. |
| `RunQueue.RedisRunQueue.Enqueue` | backend/synqc_backend/run_queue.py:57-73 | One pipeline: job hash, pending list and queued count. |
| `RunQueue.RedisRunQueue.Pop` | backend/synqc_backend/run_queue.py:75-79 | Takes the head of the pending list, or None when it is empty. |
| `RunQueue.RedisRunQueue.MarkHash` | backend/synqc_backend/run_queue.py:92-98 | First write of `mark_running`. |
| `RunQueue.RedisRunQueue.MarkCounts` | backend/synqc_backend/run_queue.py:99-102 | Second write of `mark_running`. |
| `RunQueue.RedisRunQueue.CompleteSuccess` | backend/synqc_backend/run_queue.py:104-117 | One pipeline: result and status counts. |
| `RunQueue.RedisRunQueue.CompleteFailure` | backend/synqc_backend/run_queue.py:119-153 | One pipeline: error fields, status counts, failure code and, for a named target, failure target. |
| `RunQueue.RedisRunQueue.GetStats` | backend/synqc_backend/run_queue.py:187-218 | The four counts, their sum and the two failure maps. |
| `RunQueue.RedisRunQueue.ProcessJob` | backend/synqc_backend/worker.py:54-175 | Every way a run can end issues exactly one completion: the result as returned, or the failure under the code of its handler; no other job changes. |
| `RunQueue.ClaimsAreFifo` | backend/synqc_backend/run_queue.py:57-90 | With any number of API and worker processes, claimed ids followed by the pending list are the enqueue order. |
| `RunQueue.Conservation` | backend/synqc_backend/run_queue.py:57-153 | Every enqueued job is pending, or in exactly one worker's hand and not completed, or completed exactly once and in no hand. |
| `RunOutcomes.RunsReflectOutcomes` | backend/synqc_backend/worker.py:82-175 | Over every interleaving, a finished hash reflects the outcome with which a worker's run of that very job ended, result or code and message. |
| `RunQueue.StatusCountersExact` | backend/synqc_backend/run_queue.py:92-153 | Each status counter is the number of jobs with that status, except one unit per worker between the two writes of `mark_running`. |
| `RunQueue.FailureCountersExact` | backend/synqc_backend/run_queue.py:146-153 | Failure counters per code and per named target are the numbers of such failed jobs. |
| `RunQueue.CodesSumToFailed` | backend/synqc_backend/run_queue.py:146-153 | The failure-code counters sum to the failed counter, in every reachable state. |
| `RunQueue.StatsTotalExact` | backend/synqc_backend/run_queue.py:187-213 | The total of `stats` is the number of jobs in every reachable state, also in the middle of a `mark_running`. |
| `RunQueue.StatsExact` | backend/synqc_backend/run_queue.py:187-218 | Every count of `stats` is the number of jobs with that status, except that a job in the middle of `mark_running` counts as queued; its failure codes sum to the failed count, and both failure maps are exact. |
| `AgentStore.RunLimitExact` | backend/synqc_backend/worker_service.py:112-113 | The limit of runs is max(1, max_attempts), with 0 read as 3. |
| `AgentStore.BackoffShape` | backend/synqc_backend/worker_service.py:112-117 | The retry delay starts at a second and doubles until it stays at a minute, exactly up to attempt 1024; from attempt 1025 on its computation raises. |
| `AgentStore.AgentQueue.CreateJob` | backend/synqc_backend/job_store.py:59-109 | A key in use answers with its job and changes nothing; otherwise a fresh queued record, remembered under the key if there is one. |
| `AgentStore.IdempotentExactly` | backend/synqc_backend/job_store.py:70-109 | Of any sequence of submissions, two are answered with the same job exactly when they share agent and a non-empty key. |
| `AgentStore.AgentQueue.Enqueue` | backend/synqc_backend/queueing.py:17-19 | Pushes at the front of the ready list. |
| `AgentStore.AgentQueue.Dequeue` | backend/synqc_backend/queueing.py:22-28 | Takes the oldest pushed id, or None. |
| `AgentStore.AgentQueue.ScheduleDelayed` | backend/synqc_backend/queueing.py:31-34 | Sets the due time in the delayed set. |
| `AgentStore.AgentQueue.PopMin` | backend/synqc_backend/queueing.py:45-48 | Takes an earliest member out of the delayed set. |
| `AgentStore.AgentQueue.PumpDelayed` | backend/synqc_backend/queueing.py:37-55 | Moves only due jobs, earliest first, at most `limit`; nothing else leaves the set, and below the limit no due job stays behind. |
| `AgentStore.AgentQueue.UpdateStatus` | backend/synqc_backend/job_store.py:163-171 | Writes the status and the requested time stamps and nothing else. |
| `AgentStore.AgentQueue.IncrementAttempts` | backend/synqc_backend/job_store.py:174-176 | Adds one and answers the new count. |
| `AgentStore.AgentQueue.SetResult` | backend/synqc_backend/job_store.py:179-181 | Writes the result and nothing else. |
| `AgentStore.AgentQueue.SetError` | backend/synqc_backend/job_store.py:184-187 | Writes the error and nothing else. |
| `AgentStore.AgentQueue.RequestCancel` | backend/synqc_backend/job_store.py:190-192 | Sets the cancel flag and nothing else. |
| `AgentStore.AgentQueue.ProcessJob` | backend/synqc_backend/worker_service.py:73-122 | One worker on one popped job, field by field for every outcome: result or error, status, attempts, and the delayed set; a retry is scheduled exactly for a transient error with a run left and a delay that fits, the cancelled job is closed, the missing one skipped, and no other job changes. |
| `AgentProtocol.ExactlyOnePlace` | backend/synqc_backend/worker_service.py:63-122 | Under every interleaving an unfinished job whose limit is at most 1025 is in exactly one of ready list, delayed set and one process's hand, and a finished one in none; with a greater limit it may be in none only after run 1025. |
| `AgentProtocol.StrandedForEver` | backend/synqc_backend/worker_service.py:112-118 | A job that is nowhere stays running for ever: nothing but its cancel flag changes. |
| `AgentLoss.LossExactly` | backend/synqc_backend/worker_service.py:112-118 | Some run leaves a job of the given max_attempts nowhere exactly when its limit is above 1025. |
| `AgentProtocol.AttemptsBounded` | backend/synqc_backend/worker_service.py:81-118 | attempts is the number of runs, one ahead only between the count and the run, and at most max(1, max_attempts), 0 being read as 3, and at most 1025. |
| `AgentProtocol.TerminalHasOutcome` | backend/synqc_backend/worker_service.py:92-122 | Whoever sees succeeded sees a result, and whoever sees failed sees an error. |
| `AgentOutcomes.OutcomesAreOwn` | backend/synqc_backend/worker_service.py:77-122 | Over every interleaving: a succeeded job's result is what one of its runs returned; a failed job's error is that of one of its runs that hung, came back empty, or raised an error that is not transient or had no retry left; a cancelled job was asked to cancel; and a job is in the delayed set only after a run of it ended in a transient error with a retry left. |
| `AgentProtocol.RunsAreUncancelled` | backend/synqc_backend/worker_service.py:73-82 | No worker runs a job that was cancelled when it loaded it. |
| `AgentProtocol.CancelledIsClosed` | backend/synqc_backend/worker_service.py:77-79 | A job that is cancelled when it is loaded is closed at once, without a run. |
| `AgentProtocol.TerminalAbsorbing` | backend/synqc_backend/worker_service.py:77-122 | Nothing but the cancel flag of a finished job ever changes. |
| `AgentProtocol.PumpMovesDueJobs` | backend/synqc_backend/queueing.py:37-55 | Only a pump puts a scheduled job back on the ready list, and only once it is due. |
| `AgentProtocol.RetriesAreNotEarly` | backend/synqc_backend/worker_service.py:113-118 | A worker about to start a retry does so no earlier than the due time it was given. |
| `Budget.MemoryTracker.EvictExpired` | backend/synqc_backend/budget.py:212-218 | Exactly the expired entries go. |
| `Budget.MemoryTracker.ReserveShots` | backend/synqc_backend/budget.py:94-141 | In memory: the answer and the whole new table. |
| `Budget.MemoryTracker.GetShots` | backend/synqc_backend/budget.py:151-155 | In memory: the usage after eviction. |
| `Budget.MemoryTracker.ResetSession` | backend/synqc_backend/budget.py:161-169 | In memory: the session is forgotten. |
| `Budget.RedisTracker.ReserveShots` | backend/synqc_backend/budget.py:33-58 | The Lua script: the answer and all keys, with the sliding expiry also on a rejection. |
| `Budget.RedisTracker.GetShots` | backend/synqc_backend/budget.py:143-147 | On Redis: the value of a live key, else 0. |
| `Budget.RedisTracker.ResetSession` | backend/synqc_backend/budget.py:161-165 | On Redis: the key is deleted. |
| `Budget.ImplementationsAgree` | backend/synqc_backend/budget.py:33-169 | For positive ttl and every time-ordered sequence of reserve, get_usage and reset on any sessions, both implementations give the same next answer. |
| `Budget.RejectedFirstAttemptLeavesZero` | backend/synqc_backend/budget.py:135-138 | Their data differ: a rejected first attempt leaves a zero entry in memory only. |
| `Budget.NonPositiveTtlDisagrees` | backend/synqc_backend/budget.py:51-55 | For every ttl <= 0 they disagree, so agreement holds exactly for positive ttl. |
| `Guardrail.ApplyShotGuardrails` | backend/synqc_backend/engine.py:66-98 | On Redis, whatever usage was read, the exact answer: the grant is the request or the experiment cap, whichever is less, each refusal under its condition with the shots left; a grant is added to a usage that stays within the cap, and a refusal changes no usage. |
| `Guardrail.ReserveGrants` | backend/synqc_backend/engine.py:89-98 | A reservation that fits is granted in full, on record and in the usage. |
| `LocalGuardrail.ApplyShotGuardrailsLocal` | backend/synqc_backend/engine.py:66-98 | The same in memory, with the whole new table: a refusal before the reservation changes nothing, a refused reservation evicts and refreshes without adding. |
| `LocalGuardrail.LocalReserveGrants` | backend/synqc_backend/budget.py:126-141 | The same in memory. |
| `Guardrail.UndisturbedGuard` | backend/synqc_backend/engine.py:72-96 | With nothing in between, a request is granted exactly when it is positive and fits whole into what is left. |
| `Guardrail.SessionCapHolds` | backend/synqc_backend/engine.py:66-98 | On Redis, under every interleaving of checks on whatever usage they read, reservations, expiries, resets and lost replies, the shots granted since the last expiry or reset never exceed the recorded usage, nor that the cap. |
| `LocalGuardrail.LocalSessionCapHolds` | backend/synqc_backend/budget.py:126-169 | In memory, under every interleaving and with clock readings in any order, the shots granted since the entry was last evicted or reset never exceed the recorded usage, nor that the cap. |
| `Guardrail.GrantsWithinLimits` | backend/synqc_backend/engine.py:79-98 | On Redis, every grant of every run is its request or max_shots_per_experiment, whichever is less, and at least 1. |
| `LocalGuardrail.LocalGrantsWithinLimits` | backend/synqc_backend/engine.py:79-98 | The same in memory. |
| `ExperimentStore.ExperimentStoreObject.Add` | backend/synqc_backend/storage.py:37-44 | An id in use gets the new run in place, a new one is appended; above the bound the first of the oldest goes, and no older run of the id stays. |
| `ExperimentStore.LastWriteHolds` | backend/synqc_backend/storage.py:39-39 | After any adds, with ids repeated or not, a stored id holds the last run added under it. |
| `ExperimentStore.ExperimentStoreObject.FindOldest` | backend/synqc_backend/storage.py:42-42 | The first run with the least time, as a stable sort puts it first. |
| `ExperimentStore.ExperimentStoreObject.ListRecent` | backend/synqc_backend/storage.py:51-77 | The slice up to `limit`, which may be negative, of the stable descending sort. |
| `ExperimentStore.RetainsNewest` | backend/synqc_backend/storage.py:37-44 | For every sequence of adds with distinct ids and times, the retained runs are exactly the `max_entries` newest of all ever added. |
| `ExperimentStore.ListRecentIsNewest` | backend/synqc_backend/storage.py:51-77 | The i-th listed run is the one with exactly i newer runs in the whole history. |
| `ExperimentStore.SortIsSorted` | backend/synqc_backend/storage.py:54-54 | The sort is descending and a permutation. |
| `ExperimentStore.SortIsStable` | backend/synqc_backend/storage.py:54-54 | Runs of equal time keep their order. |
| `Escalation.EnergyAwareSearch` | backend/synqc_backend/grover.py:211-255 | Ends for every cap and outcome sequence; at most cap shots are returned, fewer only when the target was met; rounds rise by the rule, only the last may have met the target, and all rounds together stay under 13/4 of the cap. |
| `Escalation.GroverBatches` | backend/synqc_backend/qiskit_provider.py:268-311 | The total is the sum of the batches, never above the budget, and below it only when the last batch, and no earlier one, met 0.9; each batch doubles within what is left. |
| `Password.AlphabetExact` | backend/synqc_backend/auth/security.py:78-79 | The alphabet of base64url (table 2 of RFC 4648). |
| `Password.GroupExact` | backend/synqc_backend/auth/security.py:78-79 | Three bytes are written as their 24 bits, six at a time, most significant first. |
| `Password.Rfc4648Vectors` | backend/synqc_backend/auth/security.py:78-79 | The test vectors of section 10 of RFC 4648, without padding. |
| `Password.Base64RoundTrip` | backend/synqc_backend/auth/security.py:78-84 | Unpadded base64url of bytes of every length decodes to them and contains neither `$` nor `=`. |
| `Password.NatRoundTrip` | backend/synqc_backend/auth/security.py:25-37 | The printed iteration count parses back. |
| `Password.DecimalExact` | backend/synqc_backend/auth/security.py:25-26 | The iteration count is printed in decimal. |
| `Password.HashExactly` | backend/synqc_backend/auth/security.py:19-29 | Refuses exactly a password shorter than 8 and an iteration count below 1, and prints the four fields otherwise. |
| `Password.RecordSplits` | backend/synqc_backend/auth/security.py:25-34 | The printed record splits back into its four fields. |
| `Password.SplitExact` | backend/synqc_backend/auth/security.py:34-34 | A text is split at its first three separators. |
| `Password.VerifyExactly` | backend/synqc_backend/auth/security.py:32-43 | Exactly which stored texts a password verifies against. |
| `Password.VerifyAgainstHash` | backend/synqc_backend/auth/security.py:19-43 | Against a printed record a password verifies exactly when it derives the same key; the hashed one always does. |
| `TokenCache.IdOfTokenText` | backend/synqc_backend/auth/store.py:206-271 | The id cut out of a printed token is the id it was issued under. |
| `TokenCache.IdOfDotless` | backend/synqc_backend/auth/store.py:271-271 | A token without a dot is all id. |
| `TokenCache.AuthStore.CreateToken` | backend/synqc_backend/auth/store.py:198-221 | Fails on a connection that may not write, and on a taken id or unknown user; otherwise a new row. The cache is not touched. |
| `TokenCache.AuthStore.Revoke` | backend/synqc_backend/auth/store.py:244-253 | Fails on a connection that may not write; otherwise true exactly for a live row of the given owner. The cache is not touched. |
| `TokenCache.AuthStore.Lookup` | backend/synqc_backend/auth/store.py:263-269 | Answers a live cache entry and drops a stale one. |
| `TokenCache.AuthStore.Query` | backend/synqc_backend/auth/store.py:270-309 | The answer on the borrowed connection, exactly: accepted on a connection that may write when the row of the id has the hash of the token, is neither revoked nor expired, and its user is active, as that user with those scopes; the stamp it leaves; and the cache entry, for 30 seconds from when the call began. |
| `TokenCache.AuthStore.Verify` | backend/synqc_backend/auth/store.py:255-309 | Refuses a text without the prefix at once, then asks the cache, then the table. |
| `TokenCache.AuthStore.CreateUser` | backend/synqc_backend/auth/store.py:129-144 | Fails on a connection that may not write and on a taken email; otherwise an active user. |
| `TokenCache.AcceptedExactly` | backend/synqc_backend/auth/store.py:275-309 | Exactly which calls a lookup accepts, and as whom. |
| `TokenCache.SeenExactly` | backend/synqc_backend/auth/store.py:59-66 | A connection sees its own open transaction, or what was committed. |
| `TokenCache.WrongSecretRejected` | backend/synqc_backend/auth/store.py:255-309 | With a collision-free hash, neither a lookup on any connection nor the cache ever accepts a text of an issued id other than the one issued. |
| `TokenCache.UncachedAnswerExact` | backend/synqc_backend/auth/store.py:275-309 | An uncached answer is what the newest tables say exactly when the connection may write, or when neither they accept the token nor the committed ones match it; a token is accepted only on a connection that may write. |
| `TokenCache.IssuedToken` | backend/synqc_backend/auth/store.py:198-309 | A token just issued is accepted on the connection that issued it and unknown to every other. |
| `TokenCache.OneWriterForEver` | backend/synqc_backend/auth/store.py:34-66 | The first write of a run settles which connection alone writes and accepts from then on; nothing of the run is committed. |
| `TokenCache.CacheContents` | backend/synqc_backend/auth/store.py:263-309 | The cache holds an entry exactly when an earlier accepted lookup filled it and nothing has refilled or dropped it since. |
| `TokenCache.CacheHitExact` | backend/synqc_backend/auth/store.py:262-269 | A call is answered from the cache exactly when such a lookup is left whose caller read a clock less than 30 seconds before the call; revocation plays no part. |
| `TokenCache.CacheStaleness` | backend/synqc_backend/auth/store.py:255-309 | Over every run with concurrent calls on any connections, a cached answer to a call made at time t is what the newest tables answered, to a token of the same hash, at some moment of the run later than t - 30 s. |
| `TokenCache.CacheStalenessSameToken` | backend/synqc_backend/auth/store.py:255-309 | With a collision-free hash, to that very token. |
| `TokenCache.RevocationTakesEffect` | backend/synqc_backend/auth/store.py:244-309 | After a revocation no lookup on any connection accepts the token, and no call that starts 30 seconds later or more is answered from the cache. |
| `TokenCache.RevokedTokenServed` | backend/synqc_backend/auth/store.py:244-269 | For every accepted token and every delay below 30 seconds a run serves it from the cache that long after its revocation. |

## Left out

- Rsa.GenerateKeypair: the draws of `generate_prime` are the input, so a finite list of draws may run out where the original draws again.
- Factoring.PollardsRho: likewise None stands for drawing again; no bound on the number of draws is claimed.
- Rsa.ModinvExact: Python's recursion limit, which `egcd` reaches on numbers of several hundred digits, is not modelled.
- MillerRabin.IsProbablePrime: no bound on the error for composites is claimed.
- Grover.BuildOracle: n >= 2, since on a single qubit the multi-controlled X has no control, which Qiskit decides.
- Grover.BuildDiffuser: n >= 2, for the same reason.
- Grover.BuildGroverCircuit: n >= 2, without the final measurement; the default iteration count (floating point) is a parameter.
- Escalation.EnergyAwareSearch: cap >= 1, below which no run with shots is possible; the confidence bound and the outcomes are parameters, and `ceil(shots * 1.8)` is exact 9/5 arithmetic, without the rounding of floats above 2^53.
- Escalation.GroverBatches: a batch is taken to use the shots it asked for, as `_execute` reports.
- JobProtocol.ReachableJobs: a store.add that raises counts as made, because the queue swallows the exception; that the owed one is eventually made is not claimed, and the engine may later overwrite the stored run under the same id.
- JobProtocol.FailedWorkersAreSignalled: the worker function returns or raises an Exception; a KeyboardInterrupt or SystemExit passes only through `finally`, leaves the job running, and is not an outcome of the model.
- JobProtocol.FirstWriterWins: nothing is claimed about started_at <= finished_at, because cancel and timeout read the clock before they take the lock; error_detail, which repeats the other error fields, is not a field of the record.
- RunQueue.Conservation: stored requests are assumed to parse, job hashes not to expire and workers and Redis not to fail; a crash after the pop would lose the job.
- AgentStore.AgentQueue.CreateJob: jobs and idempotency keys do not expire, the run input is not modelled, and two concurrent submissions under one new key, whose get and set are separate commands, are not covered.
- AgentStore.AgentQueue.ProcessJob: matching an error text against the transient markers is an input, error texts are shortened, heartbeats are not modelled.
- AgentProtocol.ExactlyOnePlace: processes do not crash, stored records parse and results serialise, and the sandbox route of `consumer_api.py`, which can run a job outside the queue and still enqueue it, is not a step.
- Budget.RedisTracker.ReserveShots: a key set with EX ttl at time t is absent from t + ttl on; integers are unbounded; the in-memory fallback on a Redis error is not modelled.
- Guardrail.ApplyShotGuardrails: the usage that `get_usage` answered is a parameter, so that it may be stale; likewise in LocalGuardrail.
- Guardrail.SessionCapHolds: limits are fixed during a run; a lost reply is covered in fail-closed mode only, and the fall-back from Redis to memory in fail-open mode is not modelled; caps are below 10^14, as for Budget.ImplementationsAgree.
- Budget.ImplementationsAgree: calls are ordered in time; in memory, concurrent calls may read the clock before they wait for the lock, which LocalGuardrail covers for the cap. Usages stay below 10^14, from where on the script's tostring no longer prints them exactly.
- ExperimentStore.RetainsNewest: ids and times are distinct, and persistence and the refresh from disk are not modelled.
- Password.VerifyAgainstHash: PBKDF2 and UTF-8 are opaque functions; malformed base64 or number text is a failure, where Python tolerates some; passwords encode, and iteration counts fit a C long.
- TokenCache.CacheStaleness: SHA-256 is opaque, the time of a call is the clock read at its entry, one process uses the database file, and a statement that waits for the lock fails at once.
- The quantum routes (Qiskit, Aer, IBM Runtime, Shor), text encoding and the HTTP routes: foreign libraries and plumbing.
- `agents/grover.py` and `grover_utils.py`: the same construction with another bit order.
- KPI heuristics, control profiles, workflow traces, metrics and health reports: no strong claims to prove.
- The ages that `stats` reports (oldest queued job) are not modelled.
