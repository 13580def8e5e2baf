# A verified model of Reflexor's core

Reflexor plans tasks, runs them through a queue, guards tool calls with rate limits and circuit
breakers, asks operators for approvals, and records what happened in bounded space. This project models
that core in Dafny and proves what its parts keep over whole runs.

`dafny verify dfyconfig.toml` checks everything.

| file | what it models |
|---|---|
| `TokenBucket.dfy`, `LruTtl.dfy`, `RateLimiter.dfy` | token buckets, the bounded LRU and idle-TTL container, the plain and the bounded rate limiter |
| `CircuitBreaker.dfy` | the three-state breaker over the same container |
| `Graphs.dfy`, `PlanValidation.dfy` | dependency graphs, the plan's cycle check, names to ids |
| `Dependencies.dfy`, `Renaming.dfy` | ready and blocked dependents; scheduling does not depend on names |
| `Lifecycle.dfy` | tasks, tool calls and their coupled transition tables |
| `Executor.dfy`, `Scheduling.dfy`, `Raising.dfy` | one lease, what a lease keeps, and when it raises |
| `Interruptions.dfy` | a worker that dies in the middle of a lease, and what a lease leaves alone |
| `NoStall.dfy`, `Stranding.dfy` | whole runs, and what being stranded means for a task |
| `Seeding.dfy`, `Witnesses.dfy` | runs that start from an accepted plan, and runs that do stall |
| `Approvals.dfy` | approve, deny and restore under every interleaving |
| `Replay.dfy` | importing an exported run under new ids |
| `EventSuppression.dfy`, `Concurrency.dfy` | the event suppressor and the concurrency limiter |
| `Utf8.dfy`, `Framing.dfy` | UTF-8, and length-delimited hashing |
| `Truncation.dfy`, `TruncationBounds.dfy`, `TruncationFit.dfy`, `TruncationTransparency.dfy` | budgeted truncation, the bytes it keeps, its estimated size, and when it changes nothing |

Objects that the source updates in place are classes, and loops are methods with loops. Each such method
is tied to a function of the old state. The theorems are about those functions and about runs of them.
Time and token amounts are `real`, times are arguments, and the policy runner, tools, queue answers, new
ids, hash and string helpers are inputs.

## What the proofs found

- The bounded rate limiter is indistinguishable from the plain one exactly when an idle bucket refills
  within the idle time (`RefinesExactlyWhenTtlRefills`). The breaker's cooldown survives idle eviction
  exactly when circuits are kept at least as long (`CooldownExactlyWhenKept`), and a circuit opens on the
  failure that reaches the threshold inside the window exactly when circuits are kept as long as the
  window, or one failure is enough (`WindowExactlyWhenKept`).
- A run never stalls, with six exceptions, and they are exact (`StepExactlyStrands`): a success taken
  from the idempotency ledger does not queue the dependents it made ready; a guard's delay on a RUNNING
  task with no attempt left drops its queue entry; an approval asked for after the call has started can
  never be given; a worker that dies between marking a dependent QUEUED and enqueueing it leaves it
  QUEUED with no entry, and so does a service that dies between committing an approval and enqueueing;
  and a denial leaves pending dependents behind. Each has a run from a seeded plan that it stalls for
  good (`Witnesses`).
- At most `2 * threshold - 1` events of one signature pass the suppressor in a span of the shorter of
  window and cooldown, at most `threshold` when that span is one instant, and both are met for every
  setting (`AdmissionBound`, `BoundIsTight`).
- `truncate_collection` documents that the estimated size of its result fits. For values of a given
  nesting this holds exactly when the nesting is within the depth limit, at least one item is allowed and
  the marker is no shorter than the default one (`FitsExactly`). The bytes kept fit exactly when the
  marker is no longer than the default one, or collections do not nest, or hold at most one item
  (`BytesExactly`).

## Model

| member | source | states |
|---|---|---|
| TokenBuckets.Bucket.FromState | src/reflexor/guards/rate_limit/token_bucket.py:46-63 | a stored bucket is clamped to the maximum; a missing one starts full |
| TokenBuckets.Bucket.Refill | src/reflexor/guards/rate_limit/token_bucket.py:69-82 | the in-place refill is the refill function of the old state |
| TokenBuckets.Bucket.Consume | src/reflexor/guards/rate_limit/token_bucket.py:84-112 | the in-place request is the request function of the old state, errors included |
| TokenBuckets.StepConserves | src/reflexor/guards/rate_limit/token_bucket.py:69-112 | tokens stay in [0, max] and a request never creates tokens |
| TokenBuckets.RefillComposes | src/reflexor/guards/rate_limit/token_bucket.py:69-82 | refilling in two goes equals refilling once |
| TokenBuckets.RetryAfterIsExact | src/reflexor/guards/rate_limit/token_bucket.py:84-112 | the same cost is admitted later if and only if the returned retry time has passed; no retry time means never |
| TokenBuckets.RunConserves | src/reflexor/guards/rate_limit/token_bucket.py:69-112 | over a whole run, admitted cost plus remaining level never exceeds the initial level |
| TokenBuckets.RateBound | src/reflexor/guards/rate_limit/token_bucket.py:53-112 | between any two steps of any run, admitted cost is at most max_tokens plus rate times the elapsed time |
| LruTtl.EvictExpired | src/reflexor/guards/rate_limit/in_memory.py:54-60 | the eviction loop drops the expired prefix |
| LruTtl.EvictLru | src/reflexor/guards/rate_limit/in_memory.py:62-64 | the trimming loop keeps the newest max_keys entries |
| LruTtl.DropExpiredIsFilter | src/reflexor/guards/rate_limit/in_memory.py:51-60 | front-only expiry equals filtering the whole container when last uses are in order |
| LruTtl.SweepExact | src/reflexor/guards/circuit_breaker/in_memory.py:68-77 | sweeping keeps the container equal to what the log of writes says it should hold |
| LruTtl.WriteExact | src/reflexor/guards/circuit_breaker/in_memory.py:79-95 | so does a write, and the key just written is never evicted |
| LruTtl.ContentsAreRetained | src/reflexor/guards/rate_limit/in_memory.py:51-64 | what the log says is, in order, the last write of each key that is live and among the max_keys most recent |
| RateLimiters.InMemoryTokenBucketStore.Save | src/reflexor/guards/rate_limit/store.py:25-26 | saving updates exactly one key |
| RateLimiters.TokenBucketRateLimiter.Consume | src/reflexor/guards/rate_limit/token_bucket_limiter.py:23-36 | load, mutate and save is one step of the plain limiter |
| RateLimiters.InMemoryRateLimiter.Consume | src/reflexor/guards/rate_limit/in_memory.py:66-90 | evict, consume, move to the end and trim is one step of the bounded limiter |
| RateLimiters.LimiterHoldsRetained | src/reflexor/guards/rate_limit/in_memory.py:51-90 | after every run, however many keys, the limiter holds exactly the retained buckets of the whole call log in last-use order |
| RateLimiters.ForgottenIsFull | src/reflexor/guards/rate_limit/in_memory.py:51-60 | a bucket forgotten after the idle time had refilled, so a fresh one answers alike |
| RateLimiters.BoundedRefinesPlain | src/reflexor/guards/rate_limit/in_memory.py:66-90 | with enough refill and at most max_keys keys, every run gets the replies of the plain limiter |
| RateLimiters.RefinesExactlyWhenTtlRefills | src/reflexor/guards/rate_limit/in_memory.py:66-90 | that holds for all runs if and only if rate times ttl is at least max_tokens |
| RateLimiters.TellingRun | src/reflexor/guards/rate_limit/in_memory.py:66-90 | otherwise a two-call run tells the two apart |
| CircuitBreakers.PruneFailures | src/reflexor/guards/circuit_breaker/in_memory.py:97-100 | the pruning loop drops exactly the leading failures before the cutoff |
| CircuitBreakers.InMemoryCircuitBreaker.Touch | src/reflexor/guards/circuit_breaker/in_memory.py:71-95 | sweep, get or create, touch and trim on the ordered container |
| CircuitBreakers.InMemoryCircuitBreaker.AllowCall | src/reflexor/guards/circuit_breaker/in_memory.py:123-164 | one admission step of the breaker over its container |
| CircuitBreakers.InMemoryCircuitBreaker.RecordResult | src/reflexor/guards/circuit_breaker/in_memory.py:166-205 | one result step of the breaker over its container |
| CircuitBreakers.TouchedIsHeld | src/reflexor/guards/circuit_breaker/in_memory.py:83-95 | the circuit just touched survives trimming, so changing it afterwards is the same as writing it |
| CircuitBreakers.BreakerHoldsRetained | src/reflexor/guards/circuit_breaker/in_memory.py:68-95 | after every run the breaker holds exactly the retained circuits of the whole call log in last-use order |
| CircuitBreakers.KeysAreIndependent | src/reflexor/guards/circuit_breaker/in_memory.py:88-205 | with at most max_keys keys, the replies to one key are those of that key alone |
| CircuitBreakers.WindowIsExact | src/reflexor/guards/circuit_breaker/in_memory.py:97-205 | when circuits outlive the window, or one failure is enough, a closed circuit holds exactly the failures since it closed that are in the window, fewer than the threshold, and opens exactly when a failure reaches it |
| CircuitBreakers.WindowExactlyWhenKept | src/reflexor/guards/circuit_breaker/in_memory.py:68-205 | opening on time holds for all runs of a key if and only if ttl is at least the window or the threshold is one |
| CircuitBreakers.SplitStaysClosed | src/reflexor/guards/circuit_breaker/in_memory.py:68-205 | otherwise one failure, a wait past the idle limit and one failure less than the threshold leave the circuit closed with the threshold met inside the window |
| CircuitBreakers.BreakerWindowIsExact | src/reflexor/guards/circuit_breaker/in_memory.py:88-205 | in the breaker itself, with at most max_keys keys, every circuit held is its own key's and holds exactly the failures still in the window |
| CircuitBreakers.CooldownHolds | src/reflexor/guards/circuit_breaker/in_memory.py:102-151 | nothing is let through before the latest opening plus the cooldown, idle eviction included, and the time left is reported |
| CircuitBreakers.CooldownExactlyWhenKept | src/reflexor/guards/circuit_breaker/in_memory.py:68-142 | the cooldown is kept in all runs if and only if ttl is at least the cooldown |
| CircuitBreakers.PermitsNeverExceeded | src/reflexor/guards/circuit_breaker/in_memory.py:144-205 | in every run, whatever the keys and the clock, no stored circuit counts more probes in flight than the permit limit or as many failures as the threshold |
| CircuitBreakers.AllowNeverOpens | src/reflexor/guards/circuit_breaker/in_memory.py:123-164 | so after every run a circuit that is closed, new or forgotten lets a call through and stays closed: the opening branch of the admission is never taken |
| CircuitBreakers.ProbesAreBounded | src/reflexor/guards/circuit_breaker/in_memory.py:144-189 | through one half-open spell, calls let through are at most the permit limit plus the results that came back |
| Graphs.TopologicalIsAcyclic | src/reflexor/orchestrator/validation.py:119-134 | a graph with a topological order has no cycle |
| Graphs.RenamedTopological | src/reflexor/orchestrator/validation.py:263-279 | renaming injectively takes topological orders of a graph to topological orders of the renamed graph |
| PlanValidation.ResolvedTopological | src/reflexor/orchestrator/validation.py:263-279 | resolving the plan's names to the built tasks' ids takes its topological order to one of the tasks' own dependency graph |
| PlanValidation.Visit | src/reflexor/orchestrator/validation.py:119-131 | the recursive search ends on every graph; it extends the visited list to a sorted list with the name in it, or a cycle exists |
| PlanValidation.CheckNames | src/reflexor/orchestrator/validation.py:94-101 | accepts exactly the plans with distinct names |
| PlanValidation.CheckDependencies | src/reflexor/orchestrator/validation.py:103-117 | accepts exactly known dependencies on other tasks and returns them once each, in order |
| PlanValidation.NormalizeDependencyNames | src/reflexor/orchestrator/validation.py:94-136 | accepts exactly the plans with distinct names, known non-self dependencies and no cycle; the visiting order is topological; an error names a repeated name, a task with a bad dependency, or a task on a cycle |
| PlanValidation.CheckKeys | src/reflexor/orchestrator/validation.py:283-295 | accepts exactly distinct idempotency keys |
| PlanValidation.BuildTasks | src/reflexor/orchestrator/validation.py:241-281 | a plan becomes tasks exactly when the check passes, every task builds and keys are distinct; dependencies are the ids of the tasks they name, and in visiting order every task comes after those it depends on |
| Dependencies.HasUnmetDependencies | src/reflexor/executor/service/dependencies.py:13-21 | true exactly when some dependency is unknown or has not succeeded |
| Dependencies.ReadyDependentsAfterSuccess | src/reflexor/executor/service/dependencies.py:24-40 | exactly the pending dependents whose dependencies have all succeeded, in listing order |
| Dependencies.IndexDependents | src/reflexor/executor/service/dependencies.py:49-52 | the index maps every id to its pending dependents, once per listing of the dependency |
| Dependencies.BlockedDependentsAfterFailure | src/reflexor/executor/service/dependencies.py:43-69 | the worklist loop ends on every graph and returns exactly the pending tasks reachable through pending dependents, without duplicates |
| Dependencies.BlockedExact | src/reflexor/executor/service/dependencies.py:43-69 | the search as a function finds exactly the tasks on chains of pending dependents |
| Renaming.AllMetRenames | src/reflexor/executor/service/dependencies.py:13-21 | renaming ids injectively does not change the unmet-dependency test |
| Renaming.ReadyRenames | src/reflexor/executor/service/dependencies.py:24-40 | the ready dependents of renamed tasks are the renamed ready dependents, in order |
| Renaming.BlockedRenames | src/reflexor/executor/service/dependencies.py:43-69 | the blocked dependents of renamed tasks are the renamed blocked dependents, in order |
| Lifecycle.StepExact | src/reflexor/domain/lifecycle.py:9-306 | on every state that keeps the joint invariant, a step is accepted if and only if its stated condition holds, and then it keeps that invariant, moves as named, stamps the right times and counts an attempt only when it starts |
| Lifecycle.JointImpliesChecks | src/reflexor/domain/lifecycle.py:137-306 | the joint invariant implies the checks the source runs after each transition |
| Lifecycle.StartsAreAttempts | src/reflexor/domain/lifecycle.py:89-106 | entries to RUNNING equal attempts over every run and never pass max_attempts |
| Lifecycle.StartedIsNeverQueued | src/reflexor/domain/execution_state.py:27-104 | once started, a task is never pending or queued again |
| Lifecycle.CanceledIsFinal | src/reflexor/domain/lifecycle.py:9-22 | a canceled task never starts, queues or completes |
| Lifecycle.RunsAreBounded | src/reflexor/domain/lifecycle.py:9-35 | accepted steps are bounded by a measure of attempts left and status, plus two per requeue after approval |
| Executor.ExecutorService.EnqueueReadyDependent | src/reflexor/executor/service/persistence.py:279-301 | queue one dependent, or put it back and fail |
| Executor.ExecutorService.QueueReadyDependents | src/reflexor/executor/service/persistence.py:248-276 | the loop queues the ready dependents in order up to the first refusal |
| Executor.ExecutorService.CancelBlockedDependents | src/reflexor/executor/service/persistence.py:181-199 | the loop cancels every blocked dependent or reports the one that cannot be |
| Executor.ExecutorService.PersistOutcomeOf | src/reflexor/executor/service/persistence.py:98-245 | classify, transition, then queue what became ready or cancel what is blocked; a failed unit of work is undone |
| Executor.ExecutorService.OnBeforeExecute | src/reflexor/executor/service/core.py:141-150 | marks the task running once |
| Executor.ExecutorService.Execute | src/reflexor/executor/service/core.py:93-245 | canceled, cached, delayed and executed paths of one attempt |
| Executor.ExecutorService.ProcessLease | src/reflexor/executor/service/core.py:247-399 | a call that returns settles its lease exactly once, a call that raises does not settle it, and the new state is that of the lease function |
| Scheduling.ApplyFacts | src/reflexor/executor/service/state_transitions.py:17-52 | a disposition that goes through takes the task to its status and costs an attempt unless it had started |
| Scheduling.DeniedExact | src/reflexor/executor/service/state_transitions.py:27-30 | a denial marks the call denied exactly when the task never started, canceled otherwise |
| Scheduling.ClassifyExact | src/reflexor/executor/service/outcomes.py:24-53 | refusal outranks the result and the result outranks the error class, both directions for every disposition |
| Scheduling.QueueReadySound | src/reflexor/executor/service/persistence.py:248-301 | queueing dependents, however far the queue accepts them, strands nobody, and if all are accepted none is left over |
| Scheduling.CancelBlockedSound | src/reflexor/executor/service/persistence.py:181-206 | canceling the blocked tasks strands nobody and leaves no pending dependent |
| Scheduling.OutcomeSound | src/reflexor/executor/service/persistence.py:98-230 | persisting an outcome strands nobody, except that a request for approval after the start parks the task itself |
| Scheduling.AckExact | src/reflexor/executor/service/core.py:321-399 | dropping a queue entry keeps the run sound if and only if another entry remains or the task may leave the queue |
| Scheduling.HandleSound | src/reflexor/executor/service/core.py:247-399 | whatever a lease does before it is settled keeps the run sound if and only if it does not park its own task |
| Scheduling.ProcessExact | src/reflexor/executor/service/core.py:247-399 | a settled lease keeps the run sound if and only if it is not an overlooking cached success, not a delay on the last attempt, and does not park its own task |
| Scheduling.CachedMayLeave | src/reflexor/executor/service/cache.py:51-96 | after a cached success the entry may go exactly when no dependent is overlooked |
| Raising.RaisesExactly | src/reflexor/executor/service/core.py:247-399 | with a clock that is not behind, a lease raises and is left unsettled if and only if its task is unknown, or the queue refuses a dependent that its success makes ready, or the ledger answers for a RUNNING task, or an approval is asked for a PENDING or FAILED task whose call was not started |
| Interruptions.TornExact | src/reflexor/executor/service/persistence.py:279-301 | dying between marking a dependent and enqueueing it keeps the run sound if and only if the marked dependent has a queue entry anyway |
| Interruptions.TornLeaseExact | src/reflexor/executor/service/persistence.py:98-301 | the same for a whole lease: it strands somebody if and only if it parks its own task or leaves a mark without an entry |
| Interruptions.HandleTouches | src/reflexor/executor/service/persistence.py:98-301 | up to its settlement a lease changes only its own task, pending tasks that depend on it, and pending tasks that can no longer run |
| NoStall.StepBase | src/reflexor/executor/service/core.py:247-399 | every step keeps ids, dependencies, successes and cancellations, and keeps started tasks behind their dependencies |
| NoStall.StepExactlyStrands | src/reflexor/executor/service/persistence.py:173-301 | over leases, deaths of a worker or of the approval service at any point, starts and operator decisions, a step keeps the run sound if and only if it is not one of the stranding ones |
| NoStall.NeverStalls | src/reflexor/executor/service/persistence.py:173-301 | a run without a stranding step in which no queue entry is left and no approval can be given has only terminal tasks |
| NoStall.NothingStartsEarly | src/reflexor/executor/service/core.py:282-305 | in every run a task that is queued, running, waiting or finished without being canceled has only succeeded dependencies |
| NoStall.RefuseExact | src/reflexor/application/approvals_service.py:185-197 | a denial keeps the run sound if and only if no pending task depends on the denied one |
| NoStall.HalfApproveExact | src/reflexor/application/approvals_service.py:95-151 | an approval whose service dies between its commit and its enqueue keeps the run sound if and only if the task has a queue entry anyway |
| Stranding.StrandingLoses | src/reflexor/executor/service/persistence.py:173-301 | every stranding step other than a denial leaves a task that is under way without an entry, parked, or ready and unnoticed |
| Stranding.LostForever | src/reflexor/executor/service/persistence.py:173-301 | such a task stays exactly as it is in every continuation that does not refuse it |
| Stranding.DenialBlocks | src/reflexor/application/approvals_service.py:185-197 | after a stranding denial every pending dependent can only wait or be canceled, in every continuation |
| Stranding.StrandedForever | src/reflexor/executor/service/persistence.py:173-301 | if any step strands a task and nothing else is active, the run stays unfinished in every continuation without a denial |
| NoStall.TransientNack | src/reflexor/executor/service/core.py:383-396 | a lease comes back for a transient failure only after a run that failed at a new attempt below the limit |
| NoStall.RetriesAreBounded | src/reflexor/executor/service/core.py:361-396 | over every run, such returns happen at strictly increasing attempts, so at most max_attempts - 1 per task |
| Seeding.EnqueueTasks | src/reflexor/orchestrator/engine/queueing.py:36-98 | enqueues the dependency-free tasks in order, all of them exactly when none is refused |
| Seeding.SeedAt | src/reflexor/orchestrator/engine/queueing.py:36-113 | after seeding, every task is stored under its id, queued with a queue entry exactly when it has no dependencies, and otherwise unchanged without an entry |
| Seeding.SeedSound | src/reflexor/orchestrator/engine/queueing.py:36-113 | a freshly seeded run is sound |
| Seeding.AcceptedPlansFinish | src/reflexor/orchestrator/validation.py:241-281 | from an accepted plan, no run without a stranding step, deaths included, stalls short of its end, and every run keeps the retry bound |
| Witnesses.CachedSuccessStalls | src/reflexor/executor/service/cache.py:51-96 | a chain of two tasks whose first is answered from the ledger stays unfinished in every continuation without a denial |
| Witnesses.DelayStalls | src/reflexor/executor/service/core.py:141-245 | so does a task delayed by a guard after its only attempt has begun |
| Witnesses.ParkingStalls | src/reflexor/executor/service/state_transitions.py:17-30 | so does a task that asks for approval after its call has started, waiting with a running call |
| Witnesses.TearStalls | src/reflexor/executor/service/persistence.py:279-301 | so does a chain of two tasks whose worker dies between marking the second and enqueueing it, after the lease has come back |
| Witnesses.HalfApprovalStalls | src/reflexor/application/approvals_service.py:95-151 | so does a task whose approval was committed by a service that died before enqueueing |
| Witnesses.DenialStalls | src/reflexor/application/approvals_service.py:153-199 | so does a chain of two tasks whose first is denied |
| Approvals.ApprovalCommandService.CommitApproval | src/reflexor/application/approvals_service.py:73-135 | the first unit of work of an approval, errors rolled back |
| Approvals.ApprovalCommandService.RestoreWaitingApprovalTask | src/reflexor/application/approvals_service.py:201-223 | puts a queued task back to waiting only under its approved approval |
| Approvals.ApprovalCommandService.Approve | src/reflexor/application/approvals_service.py:66-151 | commit, enqueue, and restore when the queue refuses |
| Approvals.ApprovalCommandService.Deny | src/reflexor/application/approvals_service.py:153-199 | deny once, cancel what has not started |
| Approvals.RunsKeep | src/reflexor/application/approvals_service.py:66-223 | in every interleaving decisions are final, every move to QUEUED has exactly one enqueue attempt, a queued task has something on its way, and canceled tasks stay canceled |
| Approvals.RestoreKeeps | src/reflexor/application/approvals_service.py:201-223 | after a failed attempt and its restore the task is waiting again or has moved on, never queued |
| Approvals.SettledDesk | src/reflexor/application/approvals_service.py:137-149 | with nothing on its way, moves to QUEUED equal accepted plus refused enqueues, and a task without an entry is not queued |
| Approvals.ApproveExact | src/reflexor/application/approvals_service.py:66-151 | an uninterrupted approval queues a waiting task with one entry, or leaves task and queue exactly as they were; anything else enqueues nothing |
| Approvals.ApprovingTwice | src/reflexor/application/approvals_service.py:82-95 | approving again changes nothing and gives the same answer |
| Approvals.DeniedNeverRuns | src/reflexor/application/approvals_service.py:153-199 | a task canceled by a denial never gains an attempt in any continuation, and the denial stands |
| Approvals.RunningWaitIsStuck | src/reflexor/application/approvals_service.py:95-100 | a task waiting with a running call is unchanged by every run without a denial |
| Replay.RewriteToolResultIds | src/reflexor/replay/importer.py:76-95 | each string call id is renamed, everything else kept |
| Replay.RelabelTasks | src/reflexor/replay/importer.py:114-151 | the first loop gives new ids, fills both maps and records where the entry came from |
| Replay.RelinkTasks | src/reflexor/replay/importer.py:153-163 | the second loop rewrites dependencies by index |
| Replay.RewritePacketForImport | src/reflexor/replay/importer.py:98-172 | the whole rewrite, for well-formed and malformed entries |
| Replay.TaskRenamingInjective | src/reflexor/replay/importer.py:124-126 | with distinct task ids and unused new ids the rewrite is injective on all ids in use |
| Replay.ImportedRenames | src/reflexor/replay/importer.py:98-172 | an imported task is the original with its ids renamed |
| Replay.ImportPreservesScheduling | src/reflexor/replay/importer.py:98-172 | unmet test, ready list and blocked list of the imported tasks are the renamed originals, in order |
| Replay.ImportKeepsResults | src/reflexor/replay/importer.py:76-95 | a tool result belongs to a task's call after the import if and only if it did before |
| EventSuppression.DbEventSuppressor.Observe | src/reflexor/orchestrator/event_suppression.py:123-202 | reads, deletes and upserts exactly the record of one signature |
| EventSuppression.SuppressedExactly | src/reflexor/orchestrator/event_suppression.py:127-202 | an event is suppressed if and only if suppression is in force or its window is full, and the latter starts the cooldown |
| EventSuppression.SuppressionLasts | src/reflexor/orchestrator/event_suppression.py:132-158 | every event before the end of suppression is suppressed, and the first after it opens a new window |
| EventSuppression.InstantBound | src/reflexor/orchestrator/event_suppression.py:160-202 | at one instant at most the threshold of events is admitted, whatever the stored record |
| EventSuppression.AdmissionBound | src/reflexor/orchestrator/event_suppression.py:160-202 | in every run at most 2 * threshold - 1 events are admitted in any half-open span of the shorter of window and cooldown, at most the threshold when that span is one instant |
| EventSuppression.BoundIsTight | src/reflexor/orchestrator/event_suppression.py:160-202 | for every setting a run and a span that admit exactly that many |
| EventSuppression.SignaturesAreIndependent | src/reflexor/orchestrator/event_suppression.py:123-202 | what is stored for a signature depends on its own events only |
| Concurrency.MakeLimits | src/reflexor/executor/concurrency.py:33-52 | accepts exactly a positive global limit with distinct non-empty names and limits within it |
| Concurrency.ConcurrencyLimiter.TryAcquire | src/reflexor/executor/concurrency.py:87-91 | takes a slot exactly when there is capacity; the counters stay exact for the calls in flight |
| Concurrency.ConcurrencyLimiter.Release | src/reflexor/executor/concurrency.py:93-101 | gives the slot back; the counters stay exact |
| Concurrency.RunsAreExact | src/reflexor/executor/concurrency.py:87-109 | in every interleaving the counters are exact and within limits, and each call that arrived waits, is in flight, has ended, or was canceled while it waited |
| Concurrency.TotalsAgree | src/reflexor/executor/concurrency.py:87-101 | the total is the sum of the per-tool counts, and stored counts are positive |
| Concurrency.BlockedHasHolder | src/reflexor/executor/concurrency.py:93-109 | a blocked call has a call in flight whose end alone makes room for it |
| Utf8.DecodeInverts | src/reflexor/domain/serialization.py:34-34 | decoding inverts UTF-8 encoding |
| Utf8.CutIsFitting | src/reflexor/observability/truncation.py:21-27 | cutting the encoding and ignoring errors keeps exactly the longest prefix that fits |
| Framing.StableHash | src/reflexor/domain/serialization.py:26-37 | the loop feeds the hash the framed parts, and fails exactly on a part of 2^64 bytes or more |
| Framing.UnframeInverts | src/reflexor/domain/serialization.py:33-36 | a decoder takes every framed stream apart again |
| Framing.FramedInverts | src/reflexor/domain/serialization.py:33-36 | every stream that can be taken apart is the framing of its parts |
| Framing.FramingInjective | src/reflexor/domain/serialization.py:26-37 | equal streams come from equal lists of parts |
| Framing.ComputeIdempotencyKey | src/reflexor/orchestrator/validation.py:31-41 | errors on an empty tool name or seed, otherwise the hash of the three framed parts |
| Framing.KeysCoincide | src/reflexor/orchestrator/validation.py:31-41 | equal keys mean equal tool, arguments and seed, or two different streams with one hash |
| Truncation.TruncatedStrExact | src/reflexor/observability/truncation.py:11-27 | the result fits; it is the string, the longest fitting prefix with the marker, or the longest fitting prefix of the marker |
| Truncation.TruncateStrExact | src/reflexor/observability/truncation.py:11-27 | the public call fails exactly on a negative limit; otherwise the result fits and is the string, the longest prefix of whole characters that leaves room for the marker followed by it, or the longest such prefix of the marker |
| Truncation.TruncatedBytes | src/reflexor/observability/truncation.py:30-45 | a value that fits is unchanged; otherwise the result has exactly the limit's length and is a prefix of the value followed by the marker, or a prefix of the marker |
| Truncation.EstimateSizeBytes | src/reflexor/observability/truncation.py:92-157 | the recursive loops compute the estimate |
| Truncation.TruncateWithBudget | src/reflexor/observability/truncation.py:160-350 | the recursive loops compute the truncation |
| TruncationBounds.EstimateCovers | src/reflexor/observability/truncation.py:92-157 | on what truncation returns with a marker no longer than the default one, the estimate never falls short of the bytes kept |
| TruncationBounds.TruncateBounded | src/reflexor/observability/truncation.py:160-350 | for every marker and all limits, collections nest at most to the depth limit apart from empty ones; bytes kept plus budget left are within the budget when what is nested is charged its bytes, and bytes kept also when collections hold at most one item |
| TruncationBounds.CollectionWithinBudget | src/reflexor/observability/truncation.py:54-79 | the same for the public call, which fails exactly on a negative budget |
| TruncationBounds.BytesExactly | src/reflexor/observability/truncation.py:54-79 | the bytes kept are within the budget for all values and budgets if and only if the marker is no longer than the default one, or the depth limit is at most one, or the item limit is at most one |
| TruncationBounds.OverfullBreaks | src/reflexor/observability/truncation.py:92-157 | otherwise a list whose inner marker is charged less than its bytes comes out too long by exactly the difference |
| TruncationFit.TruncateFits | src/reflexor/observability/truncation.py:160-350 | with a marker no shorter than the default one, a value within the depth limit comes out with an estimated size that fits |
| TruncationFit.DeepBreaks | src/reflexor/observability/truncation.py:117-118 | for every depth limit, a value one level deeper whose result is estimated above its budget |
| TruncationFit.ShortMarkerBreaks | src/reflexor/observability/truncation.py:92-157 | for every shorter marker, a flat list whose result is estimated above its budget |
| TruncationFit.FitsExactly | src/reflexor/observability/truncation.py:54-79 | for every marker, and values of a given nesting, the documented promise holds if and only if the nesting is within the limit, one item is allowed and the marker is no shorter than the default one |
| TruncationTransparency.Transparent | src/reflexor/observability/truncation.py:179-343 | a value inside the limits with room for one marker per level comes out unchanged and is charged its own bytes |
| TruncationTransparency.CollectionUnchanged | src/reflexor/observability/truncation.py:54-79 | the same for the public call: payload plus marker size times nesting below the budget |

## Left out

- Backward-moving clocks: runs have non-decreasing times; floating-point rounding and non-finite inputs are not modelled, amounts are `real`.
- CircuitBreakers.InMemoryCircuitBreaker.Touch: circuits are stored by value and written back, which `TouchedIsHeld` justifies; aliasing of a circuit object is not modelled.
- Liveness of a half-open circuit through the guard chain, where a permit can be taken and not returned.
- Approvals.RunsKeep: every interleaving inside one process; a service that dies between a commit and its enqueue is a step of `NoStall`.
- Executor.ExecutorService.ProcessLease: two workers on one task at the same time, and writes from a stale snapshot, are not modelled; the start of a tool run is a step of its own, so runs of different tasks interleave.
- Executor.ExecutorService.PersistOutcomeOf: audit records, the idempotency ledger's own contents, metrics and run-packet snapshots are not modelled; the error classifier's verdict is an input.
- PlanValidation.BuildTasks: registry, scope and argument checks of a single task are one input function.
- Seeding.EnqueueTasks: what the engine does after a refused enqueue, and a death while seeding, are not modelled; runs start with every dependency-free task queued.
- Archiving of finished tasks during a run: no modelled service archives.
- Lifecycle: archive appears in the tables and steps, but tools' arguments, names, labels and metadata are left out of the models.
- Approvals.ApprovalCommandService.Approve: who decided and when, correlation ids and tracing are not modelled.
- Backoff delays and jitter: a nack's delay does not change which states are reachable.
- Replay.RewritePacketForImport: new ids come from a supply; file reading, JSON parsing and model validation are not modelled, and fields the import copies unchanged are one field.
- EventSuppression.DbEventSuppressor.Observe: computing the signature, operator clears and conversion of seconds to milliseconds are not modelled.
- Concurrency.ConcurrencyLimiter.TryAcquire: one look at the waiting condition; which waiter wakes first is not modelled.
- Framing.StableHash: SHA-256, JSON encoding and string stripping are inputs; strings with lone surrogates, which cannot be encoded, do not occur.
- Truncation.TruncateWithBudget: object-identity cycles, the returned truncation flag and the conversion of byte arrays to bytes are not modelled; keys are compared structurally.
- Database and queue backends, policy gate and tool implementations, API, CLI, configuration, tracing and metrics: inputs or plumbing.
- Budget tracking, guard-chain ranking and label de-duplication: each is one comparison or one filter.
