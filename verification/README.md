# Verified model of ollama-queue-proxy

The proxy puts inference requests into three bounded priority tiers, lets a fixed pool of
workers take them, caps each client's concurrency inside the workers, routes each request to
one of several Ollama hosts with failover, limits authentication failures, and caches
embeddings. This project models those parts in Dafny and proves what they keep over whole runs.

`dafny verify dfyconfig.toml` verifies everything.

## How the model is built

- **Queue, Concurrency** (`queue.py`, `concurrency.py`). Each stretch of code between two
  suspension points of the event loop is one function on a value (`QState`, `Client`). The
  classes `PriorityQueueManager`, `ClientState` and `ClientConcurrencyManager` do the same work
  on their fields in place, and each method is proved equal to its function. History variables
  (what was admitted, what left, bytes flushed, failed and flushed counts) are recorded and
  never read by the code.
- **Scheduler** composes these into a step machine. A worker is ready, parked on the event,
  woken, waiting in its client's semaphore, granted a permit, upstream, or crashed. Steps are
  arrivals, worker turns, semaphore resumptions, upstream returns, and the management calls
  flush, pause and resume; the clock is an arbitrary real given to each turn, and a waiting
  request may be cancelled at any time. `asyncio.Semaphore` is modelled as in CPython 3.12,
  where a granted waiter keeps its place until it runs. `enqueue`, a worker's take and its
  clearing of the event are each one step, because nothing in them suspends.
- **SchedulerInvariant** holds the invariant and its preservation by every step;
  **SchedulerTheorems** deadlock, wake-ups and draining; **SchedulerHistory** order, bytes,
  counters and permits; **SchedulerFlush** the management flush; **SchedulerAnswers** why each
  request got its answer; **SchedulerReports** ages, refusals, management calls and statistics;
  **SchedulerWaiters** the order of a client's waiters; **SchedulerDrain** what holds when `drain`
  returns; **SchedulerCaps** and **SchedulerLimits** the places where the code does less than its
  documentation says.
- **WeightedRoundRobin, StridedPicks, Routing, RoutingShares, SharedCounter** (`routing.py`). The
  table is a value with its picks and changes as functions; the classes `HostState` and
  `RoutingTable` refine them. RoutingShares says what each strategy gives each host, and what the
  table knows; SharedCounter what the one counter means for requests of one kind among others.
- **Failover, FailoverEffects, FailoverEnds** (`proxy.py`): the loop as a function and as methods
  that refine it, what it does to the table, and when it stops too early. While an upstream call
  is under way any list of polls, picks and failures by others may hit the table.
- **RateLimit, AuthReplies** (`auth.py`): the pruned failure lists against the full history they
  stand for, and who is let in. A request is authenticated in one step: its locks are never
  contended, so nothing suspends.
- **CanonicalJson, CacheKey, CacheProxy, CacheFields** (`cache.py`, the cache part of `main.py`):
  JSON text, UTF-8, the key preimage, and the request path around a store that may lose entries
  or fail. A request whose lookup fails still stores its answer, so runs in which lookups and
  stores of concurrent requests interleave leave the same stores as runs of this model.
- **Redact, RedactQuery** (`cache.py`): `redact_backend_url` on every string.

Assumed of callers: `cfg.workers` workers are started and the weights of hosts are at least one
(`config.py:21-26`) where a lemma says `Weighted`. The rate-limit theorems assume a clock that
does not go backwards; the scheduler's theorems do not.

## Where the code and its documentation differ

The model follows the code. Each of these has a concrete run and an exact condition.

- "A capped batch client never blocks an interactive client" (`README.md:217`) is false: a
  request waiting for its client's cap keeps its worker (`CappedClientBlocksAnother`). It holds
  of a configuration if and only if every cap is unlimited or at least `max_concurrent`
  (`CapsNeverBlockOthersIff`). What holds of all configurations is deadlock freedom
  (`StuckIffAllWorkersCrashed`, `UncancelledRunsNeverStick`).
- "Bytes are released when an item is dequeued" (`README.md:477`) is false for `flush`, which
  leaves the byte counter alone (`FlushLeaksTheCeiling`, `CeilingIsExactIff`).
- Two `set_exception` calls lack the `done()` guard. With a cancelled request an expiry then
  kills the worker (`queue.py:197`: `CancelledExpiryStopsTheProxy`, `TurnKillsWorkerIff`) and a
  flush stops half way (`queue.py:256`: `CancelledFlushRaises`, `FlushCompletesIff`).
- "A 2:1 weight ratio means exactly 2 requests to the heavy host" (`README.md:343`) holds for
  requests of one kind on their own (`PicksFollowWeights`). The counter is shared by all kinds:
  for one kind served at every d-th pick from a list of total weight W the ratio is exact if and
  only if gcd(d, W) divides every weight (`SharedPicksAreExactIff`), and where two kinds take
  turns a host can starve for ever (`AlternationIsExactIff`, `AlternatingStarves`). Whatever is
  served in between, it is exact if and only if the list is a single host (`AlwaysExactIffSole`).
- Failover can be exhausted, with the 503 of the loop, while another host is up and untried
  (`RevivalEndsFailoverEarly`; under `model_aware` also whatever the counter is,
  `HiddenHostLeft`): in a turn whose pool holds a tried host, for some value of the counter
  (`CanGiveUpIff`); in a request, given suitable picks by others, exactly when a turn meets a pool
  with a tried host while some live host, in that pool or not, is untried (`CanEndEarlyIff`); in a
  configuration exactly from three hosts on (`LiveHostCanBeLeftIff`).
- A failed call is retried on the next host (`README.md:495`) only for the three kinds of
  exception that the loop catches (`proxy.py:251`). Any other escapes to the 503 of
  `main.py:424-429` at once, and can leave a live host untried exactly from two hosts on
  (`EscapeLeavesLiveHostIff`).
- Shutdown logs that it drains in-flight requests (`main.py:166`), but `drain` returns when the
  tiers are empty, with up to all workers still holding requests (`DrainReturnsEarly`). It leaves
  nobody without an answer exactly when no worker holds a request that is pending
  (`DrainAnswersAllIff`).
- The cache key ignores every body field but the model and the input or prompt
  (`OtherFieldsAreIgnored`), and the method, query and headers (`EnvelopesAreIgnored`). Every hit
  is exact if and only if the upstream ignores them too (`CacheIsInvisibleIff`). A hit answers with
  status 200 also where the uncached proxy, with full queues or no upstream, would answer 503
  (`ReplyIsUncached`).

One promise rests on the configuration: `pick` returns None only without hosts
(`routing.py:271`) because `any_healthy` is the only fallback that `config.py:313` accepts; the
model has no other.

## Model

| member | source | states |
|---|---|---|
| Queue.PriorityQueueManager.constructor | src/ollama_queue_proxy/queue.py:60-77 | a new manager: empty tiers, all worker slots free, nothing paused or counted |
| Queue.PriorityQueueManager.EnqueueItem | src/ollama_queue_proxy/queue.py:98-152 | the outcome and the whole new state of an admission or a refusal, for every state: paused before full before over capacity, position one behind the queue |
| Queue.PriorityQueueManager.TakeNext | src/ollama_queue_proxy/queue.py:157-182 | the scan takes the head of the first non-empty tier and releases its bytes, or clears the event; the loop meets the specification on which tier comes first |
| Queue.PriorityQueueManager.BeginItem | src/ollama_queue_proxy/queue.py:184-198 | an over-age item expires, or, if its future is done, the exception kills the worker with `_active` still counting it; any other item is dispatched |
| Queue.PriorityQueueManager.CompleteItem | src/ollama_queue_proxy/queue.py:199-211 | a result or an exception reaches the future only while it is pending; the slot and `_active` are given back either way |
| Queue.PriorityQueueManager.FlushTierInPlace | src/ollama_queue_proxy/queue.py:253-259 | the flush loop on one tier, including the exception on a future that is already done |
| Queue.PriorityQueueManager.Flush | src/ollama_queue_proxy/queue.py:248-260 | the flush of one tier or all, stopping at the first exception |
| Queue.PriorityQueueManager.Pause | src/ollama_queue_proxy/queue.py:238-241 | pausing one tier or all changes the paused set and nothing else |
| Queue.PriorityQueueManager.Resume | src/ollama_queue_proxy/queue.py:243-246 | resuming one tier or all changes the paused set and nothing else |
| Concurrency.ClientState.constructor | src/ollama_queue_proxy/concurrency.py:26-28 | a new client has all its permits and nobody waiting |
| Concurrency.ClientState.StartAcquire | src/ollama_queue_proxy/concurrency.py:76-98 | the acquisition up to its suspension: unlimited and bypassing requests are in flight at once, others take a permit or join the waiters |
| Concurrency.ClientState.FinishAcquire | src/ollama_queue_proxy/concurrency.py:40-43 | a granted waiter goes in flight and passes a spare permit on to the next |
| Concurrency.ClientState.ReleaseSlot | src/ollama_queue_proxy/concurrency.py:45-48 | a release lowers the in-flight count and hands the permit to the oldest waiter |
| Concurrency.ClientConcurrencyManager.constructor | src/ollama_queue_proxy/concurrency.py:63-69 | one separate state per client id; a repeated id keeps the last cap |
| Concurrency.ClientConcurrencyManager.Start | src/ollama_queue_proxy/concurrency.py:76-98 | only the named client changes; unknown and absent clients never block |
| Concurrency.ClientConcurrencyManager.Release | src/ollama_queue_proxy/concurrency.py:100-104 | only the named client changes; unknown and absent clients are ignored |
| SchedulerInvariant.InitInv | src/ollama_queue_proxy/queue.py:60-91 | the invariant holds when the workers start |
| SchedulerInvariant.ArriveKeepsInv | src/ollama_queue_proxy/queue.py:98-152 | an arrival, admitted or refused, keeps the invariant |
| SchedulerInvariant.IdleTurnKeepsInv | src/ollama_queue_proxy/queue.py:156-182 | a turn that finds nothing parks or clears the event without losing a wake-up |
| SchedulerInvariant.RunKeepsInv | src/ollama_queue_proxy/queue.py:154-211 | a whole worker turn, with expiry, crash and the start of the dispatch, keeps the invariant |
| SchedulerInvariant.BooksAcquire | src/ollama_queue_proxy/concurrency.py:76-98 | an acquisition keeps the client's books: permits, in flight, granted, bypasses and the list of distinct waiters |
| SchedulerInvariant.BooksWake | src/ollama_queue_proxy/concurrency.py:45-48 | handing a permit to the oldest waiter keeps the books and leaves no idle permit beside a waiter |
| SchedulerInvariant.ResumeKeepsInv | src/ollama_queue_proxy/main.py:358-374 | a worker that resumes with its permit keeps the invariant |
| SchedulerInvariant.FinishKeepsInv | src/ollama_queue_proxy/main.py:372-374 | an upstream return, the release of the permit and the completion keep the invariant |
| SchedulerInvariant.FlushTiersKeepsInv | src/ollama_queue_proxy/queue.py:248-260 | a flush, completed or broken off, keeps the invariant |
| SchedulerInvariant.CancelKeepsInv | src/ollama_queue_proxy/queue.py:199-208 | the cancellation of a waiting request keeps the invariant |
| SchedulerInvariant.StepKeepsInv | src/ollama_queue_proxy/queue.py:98-260 | every step of the machine keeps the invariant |
| SchedulerInvariant.RunKeepsInvariant | src/ollama_queue_proxy/queue.py:98-260 | every run keeps the invariant |
| SchedulerInvariant.ReachableInv | src/ollama_queue_proxy/queue.py:98-260 | every reachable state satisfies the invariant |
| SchedulerTheorems.NoLostWakeUp | src/ollama_queue_proxy/queue.py:139-182 | in every reachable state a non-empty tier means that the event is set and no worker sleeps on it |
| SchedulerTheorems.BoundedConcurrency | src/ollama_queue_proxy/queue.py:88-91 | never more than `max_concurrent` items are held; `_active` counts their workers and the dead ones; the worker semaphore never makes a runnable worker wait |
| SchedulerTheorems.GrantedCanResume | src/ollama_queue_proxy/concurrency.py:34-43 | whoever was handed a permit can go on |
| SchedulerTheorems.CapWaiterHasCompany | src/ollama_queue_proxy/concurrency.py:34-48 | somebody waiting on a cap always has a worker of the same client that can move or is upstream |
| SchedulerTheorems.CapWaiterMeansCapInUse | src/ollama_queue_proxy/main.py:358-374 | a waiter on a client cap means that all its permits are upstream, or that a permit is already handed over |
| SchedulerTheorems.StuckIffAllWorkersCrashed | src/ollama_queue_proxy/queue.py:154-215 | deadlock freedom with its exact limit: somebody waits and nothing can move if and only if an item is queued and every worker is dead |
| SchedulerTheorems.TurnKillsWorkerIff | src/ollama_queue_proxy/queue.py:188-197 | a turn kills its worker exactly when the item it takes is over age and its future is already done |
| SchedulerTheorems.CrashedAreKilled | src/ollama_queue_proxy/queue.py:188-197 | over every run the dead workers are as many as the turns that killed one |
| SchedulerTheorems.NoCancellationNoCrash | src/ollama_queue_proxy/queue.py:188-197 | over runs without cancellation no worker ever dies |
| SchedulerTheorems.UncancelledRunsNeverStick | src/ollama_queue_proxy/queue.py:154-215 | over every run from the start without cancellation, if somebody waits then the proxy can take a step |
| SchedulerTheorems.InternalStepLowersMeasure | src/ollama_queue_proxy/queue.py:154-215 | each step of the proxy itself strictly lowers a measure of the work left |
| SchedulerTheorems.DrainTerminates | src/ollama_queue_proxy/queue.py:154-215 | without new requests every run ends within 6 steps per waiting item and 5 per worker |
| SchedulerTheorems.DrainedAtTheEnd | src/ollama_queue_proxy/queue.py:154-215 | where such a run can go no further and a worker is alive, all tiers are empty, no worker holds an item, and every admitted request is answered |
| SchedulerTheorems.DrainExists | src/ollama_queue_proxy/queue.py:154-215 | from every reachable state the proxy can finish on its own |
| SchedulerTheorems.DrainAnswersEverybody | src/ollama_queue_proxy/queue.py:154-215 | the bound and the end state of a run without new requests in one statement |
| SchedulerDrain.DrainLeavesTheHeld | src/ollama_queue_proxy/queue.py:262-265 | when the tiers are empty, which is when drain returns, the unanswered requests are exactly those that a worker holds and that were not cancelled |
| SchedulerDrain.DrainAnswersAllIff | src/ollama_queue_proxy/queue.py:262-265 | drain returns with everybody answered if and only if no worker holds a pending request |
| SchedulerDrain.DrainReturnsEarly | src/ollama_queue_proxy/main.py:166-172 | for every configuration and every number up to its workers, a run in which drain returns with so many requests in flight |
| SchedulerHistory.StepGrows | src/ollama_queue_proxy/queue.py:98-260 | no step rewrites what was admitted or left, or changes the outcome of a future that is done |
| SchedulerHistory.RunGrows | src/ollama_queue_proxy/queue.py:199-208 | over every run nobody is answered twice |
| SchedulerHistory.ReachableIdsDistinct | src/ollama_queue_proxy/queue.py:137-141 | no request is admitted twice to a tier |
| SchedulerHistory.TierIsFifo | src/ollama_queue_proxy/queue.py:137-164 | over every run a tier admitted exactly what has left it followed by what waits, in that order, and never holds more than its depth |
| SchedulerHistory.PositionIsTruthful | src/ollama_queue_proxy/queue.py:137-152 | the position answered on admission is the number of items of the tier that will have left when this one has, in any later run, flushes included |
| SchedulerHistory.HighestTierFirst | src/ollama_queue_proxy/queue.py:158-164 | a worker takes the oldest waiting item of a tier, and only when everything ever admitted to a higher tier has left |
| SchedulerHistory.ByteCeiling | src/ollama_queue_proxy/queue.py:114-140 | the bytes waiting stay under the ceiling or a single item waits; the counter is the bytes waiting plus all bytes ever flushed; its clamp at zero never fires |
| SchedulerHistory.CeilingIsExactIff | README.md:465-478 | the ceiling is applied as documented if and only if nothing was ever flushed, or nothing waits, or the one waiting item is over it |
| SchedulerHistory.TierIsConserved | src/ollama_queue_proxy/queue.py:184-211 | per tier, admitted = waiting + held + processed + expired + failed + flushed + lost by an aborted flush |
| SchedulerHistory.UnansweredIsHeldOnce | src/ollama_queue_proxy/queue.py:137-211 | an unanswered request is in exactly one tier queue or worker; an answered one is in none |
| SchedulerHistory.PermitAccounting | src/ollama_queue_proxy/concurrency.py:34-48 | the counters of a client say how many workers are upstream for it and how many wait; permits + in flight + granted = cap + bypasses |
| SchedulerHistory.ClampsNeverFire | src/ollama_queue_proxy/concurrency.py:42-46 | the two clamps at zero never take effect |
| SchedulerHistory.OtherClientsUntouched | src/ollama_queue_proxy/concurrency.py:63-104 | a step for one client leaves every other client's semaphore and counters alone |
| SchedulerHistory.RunKeepsNoBypass | src/ollama_queue_proxy/concurrency.py:89-97 | over runs of requests below the re-entry bound no permit is ever bypassed |
| SchedulerHistory.CapIsRespected | src/ollama_queue_proxy/main.py:248-361 | with re-entries as the proxy sets them a client never has more than its cap in flight upstream |
| SchedulerAnswers.UpstreamAnswersIff | src/ollama_queue_proxy/queue.py:199-208 | a pending request gets a result, or an error, exactly when the worker holding it returns with one |
| SchedulerAnswers.ExpiresIff | src/ollama_queue_proxy/queue.py:188-197 | a pending request expires exactly when a turn takes it after more than its tier's max_wait |
| SchedulerAnswers.NothingStaleIsDispatched | src/ollama_queue_proxy/queue.py:188-200 | a turn dispatches exactly the item it took and only if that is not over age |
| SchedulerAnswers.FlushedOnlyByFlush | src/ollama_queue_proxy/queue.py:248-260 | only a flush of its own tier flushes a pending request |
| SchedulerAnswers.AnsweredIff | src/ollama_queue_proxy/queue.py:184-260 | over every run a waiting request ends with a given answer if and only if the run holds the step that gives it, at a moment when it has none |
| SchedulerAnswers.PausedTierAdmitsNothing | src/ollama_queue_proxy/queue.py:106-107 | from a pause until the tier is resumed nothing is admitted to it, over every run |
| SchedulerAnswers.AdmittedIff | src/ollama_queue_proxy/queue.py:106-141 | in reachable states: admitted exactly when not paused, below its depth, and under the ceiling beside bytes waiting and bytes ever flushed, or with nothing waiting |
| SchedulerAnswers.OffersAreCounted | src/ollama_queue_proxy/queue.py:106-135 | over every run the requests offered to an unpaused tier are those admitted plus its rejected count |
| SchedulerReports.TurnExpiresByOwnTier | src/ollama_queue_proxy/queue.py:187-200 | a turn that takes a pending item answers Expired exactly if more than the max_wait of the item's own tier has passed since it was enqueued, and otherwise the worker holds it |
| SchedulerReports.OtherLimitsAreIgnored | src/ollama_queue_proxy/queue.py:187-189 | the max_wait of the other tiers does not matter to a turn |
| SchedulerReports.RefusedIff | src/ollama_queue_proxy/queue.py:106-135 | in reachable states each kind of refusal has its exact condition on the pause, the depth and the bytes |
| SchedulerReports.PauseHolds | src/ollama_queue_proxy/queue.py:238-241 | over every run, from a pause of the tier or of all until a resume of the tier or of all, nothing is admitted to it |
| SchedulerReports.ResumeOpens | src/ollama_queue_proxy/queue.py:243-246 | after a resume of the tier or of all a request is refused only as full or over capacity |
| SchedulerReports.OtherTiersPauseAlone | src/ollama_queue_proxy/queue.py:238-246 | a pause or resume of another tier changes no admission |
| SchedulerReports.FlushCovers | src/ollama_queue_proxy/queue.py:248-260 | a flush that comes to its end empties high, normal and low as it names them, or all |
| SchedulerReports.StatisticsAreTrue | src/ollama_queue_proxy/queue.py:190-205 | over every run `processed` counts the upstream answers of a tier and `expired` the turns that found one of its items over age |
| SchedulerReports.ThirdReentryNeverWaits | src/ollama_queue_proxy/concurrency.py:89-97 | from the third re-entry on a request never waits for its cap; before, it does when no permit is left |
| SchedulerWaiters.WaitersAreFifo | src/ollama_queue_proxy/concurrency.py:34-48 | a client's waiters are served in order of arrival: over every run, those who waited followed by those who joined are those handed a permit followed by those who wait |
| SchedulerWaiters.LastCapWins | src/ollama_queue_proxy/concurrency.py:63-69 | an id that is configured twice has the cap of its last entry |
| SchedulerLimits.CappedClientBlocksAnother | README.md:217 | a run in which a capped client keeps a high-priority request of another client waiting while one upstream call is under way |
| SchedulerCaps.OnlyNarrowCapsMakeWait | src/ollama_queue_proxy/concurrency.py:34-48 | whoever sits in a semaphore is of a client whose cap is positive and below the number of workers, over every run |
| SchedulerCaps.CapsNeverBlockOthersIff | README.md:217 | in no reachable state does a waiter on a cap keep another client's queued request from every worker, if and only if every cap of the configuration is 0 or at least the number of workers |
| SchedulerLimits.BlockedWithSpareCapacityIff | src/ollama_queue_proxy/main.py:358-374 | items wait, no worker can take one and upstream capacity is spare: exactly when all workers are taken and one is dead or in the semaphore of a client whose cap is below the number of workers |
| SchedulerLimits.FlushLeaksTheCeiling | src/ollama_queue_proxy/queue.py:248-260 | a run in which flushed bytes make the proxy refuse a body that fits |
| SchedulerLimits.CancelledExpiryStopsTheProxy | src/ollama_queue_proxy/queue.py:197-197 | every configuration has a run in which cancelled, expired requests kill all workers, and the next request waits for ever |
| SchedulerLimits.CancelledFlushRaises | src/ollama_queue_proxy/queue.py:256-256 | a run in which one cancelled request breaks off a flush of its tier and of all tiers |
| SchedulerFlush.FlushTierOutcome | src/ollama_queue_proxy/queue.py:253-259 | a flush drops exactly the pending items before the first cancelled one, then raises, losing that one and leaving the rest queued |
| SchedulerFlush.FlushTierFutures | src/ollama_queue_proxy/queue.py:256-256 | those futures become flushed and no other future changes |
| SchedulerFlush.FlushTiersOutcome | src/ollama_queue_proxy/queue.py:248-260 | a flush of several tiers empties those before the first in which a cancelled request waits, stops there behind that request, leaves later tiers alone, and counts the requests it answered |
| SchedulerFlush.FlushTiersAnswersIff | src/ollama_queue_proxy/queue.py:253-259 | a flush answers exactly the pending requests that it comes to before the first cancelled one |
| SchedulerFlush.FlushCompletesIff | src/ollama_queue_proxy/queue.py:248-260 | on reachable states a flush of one tier or of all completes if and only if nothing waiting there was cancelled; then these tiers are empty and all their requests answered and counted |
| WeightedRoundRobin.ExpandHasWeights | src/ollama_queue_proxy/routing.py:315-318 | each host stands in the expanded list exactly as often as its weight |
| WeightedRoundRobin.OneRound | src/ollama_queue_proxy/routing.py:323-325 | as many consecutive picks as the list is long choose each host as often as it stands there, from any counter |
| WeightedRoundRobin.Rounds | src/ollama_queue_proxy/routing.py:323-325 | the same over any number of rounds |
| WeightedRoundRobin.WeightedShare | src/ollama_queue_proxy/routing.py:307-325 | any n picks choose a host between floor(n/W) and ceil(n/W) times its weight |
| StridedPicks.GcdIsGreatest | src/ollama_queue_proxy/routing.py:323-325 | the divisor used below is the greatest common one |
| StridedPicks.StrideIsRounds | src/ollama_queue_proxy/routing.py:323-325 | W picks with stride d are gcd(d, W) rounds with stride gcd(d, W), from any counter |
| StridedPicks.BlockOf | src/ollama_queue_proxy/routing.py:315-318 | the places of a host in the expanded list are one stretch as long as its weight |
| StridedPicks.StrideFollowsWeightIff | src/ollama_queue_proxy/routing.py:307-325 | picked at every d-th counter value, a host gets exactly its weight over W picks if and only if its weight is a multiple of gcd(d, W), from any counter |
| Routing.CandidatesFacts | src/ollama_queue_proxy/routing.py:249-261 | the candidates are exactly the reachable hosts, or all hosts if none is, each once and in order |
| Routing.PoolFacts | src/ollama_queue_proxy/routing.py:263-305 | under model_aware the list served from is the candidates with the model, or all candidates when none has it |
| Routing.PickIsSound | src/ollama_queue_proxy/routing.py:263-325 | a pick is None exactly without hosts, reachable whenever a host is, and has the model whenever a reachable host has |
| Routing.EventsKeepCounted | src/ollama_queue_proxy/routing.py:263-325 | over any events the counter equals the sum of the three decision counters |
| Routing.PicksFollowWeights | src/ollama_queue_proxy/routing.py:307-325 | while the candidates stay the same the shares of any n picks follow the weights |
| SharedCounter.SharedPicksFollowWeightIff | src/ollama_queue_proxy/routing.py:263-325 | the same for requests of one kind among others on the shared table, whatever the others ask for |
| SharedCounter.SharedPicksAreExactIff | README.md:343 | the documented ratio is exact for all hosts of a list, for one kind served at every d-th pick, if and only if gcd(d, W) divides every weight |
| SharedCounter.AlternationIsExactIff | README.md:343 | with two kinds taking turns: if and only if the total weight is odd or every weight is even |
| SharedCounter.AlwaysExactIffSole | README.md:343 | the ratio is exact whatever is served in between, in gaps of any lengths, if and only if the list is a single host |
| SharedCounter.AlternatingStarves | src/ollama_queue_proxy/routing.py:323-325 | with the shared counter, alternating requests starve one of two equal hosts for ever |
| RoutingShares.PoolIsEligible | src/ollama_queue_proxy/routing.py:249-305 | requests are shared by the live hosts, or by those of them that have the model if the strategy looks for it and some have |
| RoutingShares.RoundRobinIgnoresModels | src/ollama_queue_proxy/routing.py:275-285 | under round_robin a pick and the new table are the same for every model |
| RoutingShares.RoundRobinShares | src/ollama_queue_proxy/routing.py:278-285 | under round_robin, over as many requests as the live weights sum to, for any models, each live host gets exactly its weight and no other host any |
| RoutingShares.ModelAwareShares | src/ollama_queue_proxy/routing.py:287-303 | under model_aware the live hosts with the model, or all live hosts if none has it, get exactly their weights |
| RoutingShares.BookedIff | src/ollama_queue_proxy/routing.py:282-303 | which decision counter a pick moves, for both strategies |
| RoutingShares.TableIsLatest | src/ollama_queue_proxy/routing.py:182-245 | over any events a host is reachable as the last poll or failure says, has the models of its last good poll but those reported missing since, and counts its responses |
| Routing.HostState.constructor | src/ollama_queue_proxy/routing.py:60-63 | a new host is reachable, without models, handled requests and failures |
| Routing.RoutingTable.constructor | src/ollama_queue_proxy/routing.py:75-110 | a new table starts its counters at zero |
| Routing.RoutingTable.MarkUnhealthy | src/ollama_queue_proxy/routing.py:212-234 | a failure makes the one host unreachable and adds one to its failures |
| Routing.RoutingTable.RecordHandled | src/ollama_queue_proxy/proxy.py:184-184 | a response adds one to the requests handled by the one host |
| Routing.RoutingTable.Invalidate | src/ollama_queue_proxy/routing.py:236-245 | the model leaves the set of the one host |
| Routing.RoutingTable.PollHost | src/ollama_queue_proxy/routing.py:182-208 | a poll that succeeds replaces the models and revives the host; one that fails marks it unreachable |
| Routing.RoutingTable.PickRoundRobin | src/ollama_queue_proxy/routing.py:307-325 | the loop builds the expanded list and picks from it by the counter, which moves on only for a pick |
| Routing.RoutingTable.PickAndBook | src/ollama_queue_proxy/routing.py:282-303 | the decision counter of the reason moves exactly when a host is picked |
| Routing.RoutingTable.PickHost | src/ollama_queue_proxy/routing.py:263-305 | the table and the host picked are those of the specification, for both strategies |
| Failover.DispatchRequest | src/ollama_queue_proxy/proxy.py:164-266 | the loop on the shared table ends and refines the recursive specification: table, hosts tried in order, verdict |
| Failover.Attempted | src/ollama_queue_proxy/proxy.py:176-260 | what one attempt does to the table for each way in which the upstream call can end |
| Failover.TriedAreNew | src/ollama_queue_proxy/proxy.py:170-174 | the hosts tried are configured, new and without repetition |
| Failover.EachHostOnce | src/ollama_queue_proxy/proxy.py:164-260 | whatever happens meanwhile the request goes to no host twice and to at most all of them |
| Failover.FailuresAreCounted | src/ollama_queue_proxy/proxy.py:251-260 | each failed attempt adds exactly one to its host, and nothing else but reports by others does |
| Failover.GivesUpOnLiveHostsIff | src/ollama_queue_proxy/proxy.py:170-174 | in its end state a 503 leaves live hosts if and only if a host already tried is live again |
| Failover.GivesUpOnlyAfterAll | src/ollama_queue_proxy/proxy.py:164-266 | if no poll revives a host meanwhile, a 503 means that every host reachable at the start was tried or reported down by others |
| Failover.QuietFailoverTriesAll | src/ollama_queue_proxy/proxy.py:164-266 | left alone, a 503 means that every host reachable at the start was tried, for both strategies and any counter |
| Failover.RevivalEndsFailoverEarly | src/ollama_queue_proxy/proxy.py:172-173 | a run in which a revived host ends failover although another host is up and untried |
| FailoverEnds.GivesUpAtCounterIff | src/ollama_queue_proxy/proxy.py:170-174 | a turn gives up exactly when its counter points at a host that was tried |
| FailoverEnds.CanGiveUpIff | src/ollama_queue_proxy/proxy.py:170-174 | for some value of the counter a turn gives up, if and only if the pool it is served from holds a tried host |
| FailoverEnds.EarlyEndMeetsMixed | src/ollama_queue_proxy/proxy.py:164-266 | a request that exhausts the loop with a live host (or a host of its pool) untried has met a pool with a tried host while one was left to try |
| FailoverEnds.MixedCanEndEarly | src/ollama_queue_proxy/proxy.py:164-266 | a request that meets such a pool ends early if a few picks by others fall in between |
| FailoverEnds.CanEndEarlyIff | src/ollama_queue_proxy/proxy.py:164-266 | both directions, for all polls, failures and outcomes |
| FailoverEnds.LiveHostCanBeLeftIff | src/ollama_queue_proxy/proxy.py:164-266 | for any table, strategy and model: the loop can be exhausted while a live host is untried, if and only if there are at least three hosts |
| FailoverEnds.RevivalEndsEarly | src/ollama_queue_proxy/proxy.py:172-173 | the concrete run is an instance |
| FailoverEnds.HiddenHostLeft | src/ollama_queue_proxy/routing.py:287-295 | a run under model_aware, for any counter, in which the revived host with the model hides a live untried host outside its pool |
| FailoverEnds.EscapeLeavesLiveHostIff | src/ollama_queue_proxy/proxy.py:251-260 | an exception that is not caught can leave a live host untried if and only if there are at least two hosts |
| FailoverEffects.RequestIsTraced | src/ollama_queue_proxy/proxy.py:164-266 | the table after a request is the one before it after exactly the picks, the events by others and the reports of its attempts |
| FailoverEffects.VerdictIsTheLast | src/ollama_queue_proxy/proxy.py:176-260 | all attempts but the last failed in a caught way, and the last decides the verdict |
| FailoverEffects.MissingModelIsForgotten | src/ollama_queue_proxy/proxy.py:188-197 | after a 404 that says so the host no longer has the model |
| RateLimit.AuthManager.IsRateLimited | src/ollama_queue_proxy/auth.py:155-161 | the list is pruned to the window and compared with the bound |
| RateLimit.AuthManager.RecordFailure | src/ollama_queue_proxy/auth.py:163-165 | one failure is appended for the one address |
| RateLimit.AuthManager.AuthenticateRequest | src/ollama_queue_proxy/auth.py:94-143 | reply and lists for every request: limited, missing header, unknown key, accepted |
| RateLimit.PruneTwice | src/ollama_queue_proxy/auth.py:159-160 | what an earlier pruning dropped a later one drops too |
| RateLimit.PruningIsInvisible | src/ollama_queue_proxy/auth.py:155-165 | over every run the replies are those of the rule on the full history since the last success |
| RateLimit.FreshRunsAgree | src/ollama_queue_proxy/auth.py:94-165 | the same from an empty start |
| RateLimit.RecordingKeepsSpread | src/ollama_queue_proxy/auth.py:155-165 | a recorded failure lies a whole window after the max_failures-th failure before it |
| RateLimit.WindowHoldsFew | src/ollama_queue_proxy/auth.py:155-161 | no window of time holds more than max_failures such failures |
| RateLimit.HistoryIsFailures | src/ollama_queue_proxy/auth.py:94-165 | the plain rule's history is what a run's requests and replies record |
| RateLimit.WindowsNeverOverfull | src/ollama_queue_proxy/auth.py:94-165 | over every run of the code, no stretch of window_seconds holds more than max_failures of the failures that its replies record for an address since its last success |
| RateLimit.AddressesAreIndependent | src/ollama_queue_proxy/auth.py:104-141 | a request from one address leaves the list of every other alone |
| AuthReplies.RepliesAreRight | src/ollama_queue_proxy/auth.py:94-165 | over every run with authentication on, a reply is Accepted(c), InvalidKey, MissingHeader or TooManyFailures exactly as the header, the configured keys and the failures recorded by the earlier replies say |
| AuthReplies.OpenWhenDisabled | src/ollama_queue_proxy/auth.py:101-102 | with authentication off every request passes and nothing is recorded |
| CanonicalJson.EscapedUnique | src/ollama_queue_proxy/cache.py:107-110 | the escape of a character can be read back from any text that starts with it |
| CanonicalJson.RenderUnique | src/ollama_queue_proxy/cache.py:107-110 | a JSON value can be read back from any text that starts with its canonical form |
| CanonicalJson.CanonicalIffEqual | src/ollama_queue_proxy/cache.py:107-110 | two values have the same canonical text exactly when they are equal |
| CanonicalJson.RenderHasNoNul | src/ollama_queue_proxy/cache.py:107-110 | canonical text holds no U+0000 (section 7 of RFC 8259) |
| CacheKey.Utf8Unique | src/ollama_queue_proxy/cache.py:107-115 | UTF-8 encoding is injective |
| CacheKey.PreimageUnique | src/ollama_queue_proxy/cache.py:113-115 | the preimage decodes uniquely for every model name, U+0000 included, and every payload |
| CacheKey.EndpointsNeverShareKeys | src/ollama_queue_proxy/cache.py:117-131 | keys of the two endpoints differ whatever the digests are |
| CacheKey.KeysAgreeIff | src/ollama_queue_proxy/cache.py:113-131 | two requests share a key exactly when endpoint, model and normalised payload agree, unless the digest collides |
| CacheProxy.EmbeddingCache.Get | src/ollama_queue_proxy/cache.py:181-215 | a lookup answers from the store, counts a hit or miss under client, model and endpoint or an error under its kind, and never passes an error on |
| CacheProxy.EmbeddingCache.Set | src/ollama_queue_proxy/cache.py:217-256 | a small enough body is stored under its key, or nothing changes but the count of errors of that kind |
| CacheProxy.EmbeddingCache.HandleRequest | src/ollama_queue_proxy/main.py:325-451 | look up, or dispatch and store; wrap once, after the cache |
| CacheProxy.ReplyIsUncached | src/ollama_queue_proxy/main.py:325-451 | with exact hits the reply is the uncached one wherever that has status 200, and on every miss |
| CacheProxy.TransparentIff | src/ollama_queue_proxy/main.py:317-505 | every hit equals the miss it replaces, over all runs of the requests in play, exactly when those with one key have interchangeable answers |
| CacheProxy.SameKeyIffSameQuestion | src/ollama_queue_proxy/cache.py:113-131 | sharing a key means asking the same endpoint the same thing of the same model, unless the digest collides on the two |
| CacheProxy.CacheIsInvisibleIff | src/ollama_queue_proxy/main.py:325-505 | every hit is exact if and only if the upstream answers the requests in play by endpoint, model and normalised input alone; the digest need only not collide on them |
| CacheProxy.OtherFieldsAreIgnored | src/ollama_queue_proxy/cache.py:120-131 | two bodies that differ only in "dimensions" share an entry, and the second gets an embedding of the wrong size |
| CacheProxy.EnvelopesAreIgnored | src/ollama_queue_proxy/cache.py:258-266 | requests that differ only in method, query or headers share a key and count as the same question |
| CacheFields.PromptsDecide | src/ollama_queue_proxy/cache.py:128-131 | two /api/embeddings requests share an entry exactly when they name one model and one prompt |
| CacheFields.InputsDecide | src/ollama_queue_proxy/cache.py:120-125 | two /api/embed requests share an entry exactly when they name one model and one input, a string and the list of it counting as one |
| CacheFields.PathsNeverShare | src/ollama_queue_proxy/cache.py:117-131 | requests for different paths never share an entry, whatever the digest |
| CacheFields.LookedUpIff | src/ollama_queue_proxy/main.py:329-336 | looked up are exactly the two paths, with a dictionary for a body and a model that is text or nothing |
| CacheFields.HitAnswersTheSameAsk | src/ollama_queue_proxy/main.py:337-349 | a hit answers the upstream's body for a request with the same path, model and prompt or input |
| CacheFields.FailingBackendIsUncached | src/ollama_queue_proxy/cache.py:200-256 | a failing lookup gives the uncached reply, a failing store stores nothing |
| CacheFields.KeyText | src/ollama_queue_proxy/cache.py:117-131 | the text of a key: prefix, version, endpoint, digest |
| CacheFields.CompatWrapsOnce | src/ollama_queue_proxy/main.py:490-505 | the compatible path uses the same entries and wraps exactly once what the native path answers with status 200 and JSON |
| Redact.UserinfoLeavesNoTrace | src/ollama_queue_proxy/cache.py:47-60 | the output for a URL with userinfo is that of the URL without it, for any query or fragment |
| Redact.UserinfoIndependence | src/ollama_queue_proxy/cache.py:52-56 | with a bare location the output is the location, or `<redacted>` exactly when the userinfo holds '?' or '#' |
| Redact.OutputHasNoAt | src/ollama_queue_proxy/cache.py:54-60 | no output holds an '@' |
| Redact.Idempotent | src/ollama_queue_proxy/cache.py:34-60 | redacting twice is redacting once, on every string |
| RedactQuery.OutputForm | src/ollama_queue_proxy/cache.py:47-60 | for every URL with a valid scheme the output is the scheme and either `<redacted>` or the location, followed by nothing or by a numeric db |
| RedactQuery.QueryOutput | src/ollama_queue_proxy/cache.py:57-60 | the exact output for any query: the location and the first non-blank db if it is a number |
| RedactQuery.OtherFieldsLeaveNoTrace | src/ollama_queue_proxy/cache.py:57-60 | other query fields, wherever they stand, and the fragment make no difference |
| RedactQuery.NumericDbSurvives | src/ollama_queue_proxy/cache.py:58-59 | a numeric db survives behind and in front of any other fields |
| RedactQuery.PasswordsAreDropped | src/ollama_queue_proxy/cache.py:34-60 | passwords in the userinfo and in the query are gone, the db stays |
| RedactQuery.UnrecognisedIff | src/ollama_queue_proxy/cache.py:47-51 | a text is unrecognised exactly when it is not a valid scheme, "://" and something |

## Left out

- GivesUpOnLiveHostsIff: speaks of the end state alone, because the condition on a turn's input is
  CanGiveUpIff and the one on a request CanEndEarlyIff.
- High-watermark events, webhooks and logging: they do not feed back into the queue. With them
  goes the division by `max_depth` after an admission (`queue.py:145`), which raises for 0; the
  model treats a depth of zero or less as unbounded, as `asyncio.Queue` does.
- `recent_waits`, `mean_wait` and `retry_after`: reporting only.
- `stop_workers` and the cancellation of worker tasks at shutdown, and client disconnects
  other than as the cancellation of a future that is still pending.
- The scheduler may interleave other steps between a worker's completion and its next look at the
  event. That allows more runs than the event loop has, so what is proved of all runs covers it.
- The phases of the workers are control state of tasks, not fields of an object; the composed
  machine is therefore a value, and its queue and permit parts are what the classes refine.
- `client_stats`, `keep_alive` injection, body reading, header handling and streaming: I/O around
  the modelled path. The text that goes upstream is a field of the request, and one opaque field
  stands for its method, query and headers.
- httpx: each attempt has one of four outcomes. An error body that cannot be read as a 404's
  "not found" counts as a response that does not say that the model is missing.
- redis: a map that may lose any entry at any time, which covers expiry, and may fail on any call.
- SHA-256 and its truncation: the digest is a parameter. Where a lemma needs it, collisions are
  excluded on the requests in play, which a digest of 32 hex digits can meet.
- `hmac.compare_digest`: key lookup is membership in a map; timing and its error on non-ASCII text
  are not modelled. Repeated keys with different clients are not either.
- Lone surrogates: Dafny characters have none, so the failure of UTF-8 encoding, and the
  uncached path it leads to, do not appear.
- The JSON parser is a parameter: it yields values whose dictionaries are listed in key order, so
  the sorting of keys is left to it. A number is the text that is printed for it. A model that is
  not a string is modelled in the cache key, where it means no key, but not in routing.
- `wrap_response`: the translation to the OpenAI format is a parameter.
- `_log_error`: the cooldown of its warnings.
- Percent-decoding and the digits of other scripts in `redact_backend_url` are parameters with two
  assumed laws: plain text decodes to itself, and no reserved character is a digit.
- `_userinfo_bled` and `_startup_error_detail`: they rest on library parsers and error texts.
- The priority ceiling, configuration loading, dashboards, status and metrics routes: finite cases
  or output formatting that would only add easy members.
- `last_checked`, `startup_probe` and the pollers' timing: a poll is an event that may come at any
  moment.
