# Verified models of the query API's stateful core

The repository is an HTTP service in front of a SQL warehouse. This project models, in
Dafny, the parts of it that keep state over unbounded runs, and proves what they promise
about every run:

- the **query cache stack**: the LRU, TTL and hybrid caches, the persistent second
  level, the coordinator with its table tags, the query service that drives them, and
  the single-flight protocol that lets concurrent callers share one execution;
- the **connection pools**, asynchronous and blocking, as interleavings of locked
  sections over any number of callers, with the adaptive sizer;
- the **P² streaming quantile estimator** and the bucket histogram;
- the **trace tree** and its accounting of time;
- three smaller machines: the cache of validated **API keys**, the **sliding-window
  limiter** and the **persistence queue**.

## How it is laid out

One module per source component. Each has two halves. The first is a specification on
values: a datatype for the state, a function for every operation and, but for the parts
the coordinator and the service are put together from (the TTL and hybrid caches, the
second level), a function over any sequence of operations (`Run`, `AfterCalls`, `Serve`,
`Feed`, `Checks`) with the lemmas about all runs. The second is a class with the fields the
source object has, whose methods follow the source statement by statement and are proved
to do to those fields exactly what the function of the first half does.
`BoundedStaleness` has no class: it is about the caches' pieces when nothing is atomic. Objects that
suspend (an `await`, a wait on a condition) are cut at the points where the source gives
up its lock or its turn; each piece is one atomic step and steps interleave freely.

| file | component |
|---|---|
| `LruQueryCache.dfy`, `HybridQueryCache.dfy` | `core/db/cache.py` |
| `QueryResultCache.dfy` | `core/caching/query_result_cache.py` |
| `QueryCacheCoordinator.dfy`, `SingleFlight.dfy` | `core/caching/query_cache_coordinator.py` |
| `QueryService.dfy`, `BoundedStaleness.dfy` | `core/services/query_service.py` over the caches |
| `AsyncPool.dfy`, `SyncPool.dfy`, `AdaptiveSizer.dfy` | `core/db/pool/` |
| `StreamingPercentile.dfy`, `Histogram.dfy` | `core/performance/histogram.py` |
| `Trace.dfy` | `core/performance/trace.py` |
| `ApiKeyCache.dfy`, `RateLimiter.dfy` | `core/auth/` |
| `PersistenceQueue.dfy` | `core/caching/persistence_queue.py` |

`dafny verify dfyconfig.toml` checks everything.

## Main results

- **Cached service is uncached service** (`QueryServing.Transparency`): whatever was
  requested before, with entries lost to size, age or dropped persistence jobs, and with
  precise or total invalidation, the next request is answered as the warehouse would
  answer it now. The engine is any that satisfies `Lawful`, the start any coherent one.
- **What interleaving costs** (`QueryServing.LateFillExactly`,
  `QueryServing.LatePersistExactly`, `QueryServing.GapExactly`,
  `BoundedStaleness.StalenessBounded`): the exact conditions under which every engine's
  caches stay true when rows arrive late in either level, or are tagged late; and, with no
  condition on requests or engine, a bound on how old an answer can be.
- **Invalidation by table is exact** after any calls (`CacheCoordinator.ExactInvalidation`).
- **A smaller LRU cache is part of a larger one** (`LruCache.Inclusion`), and what a cache
  holds can be told from the calls alone (`LruCache.Residency`, exact).
- **Pool safety over every interleaving** (`AsyncPooling.PoolSafety`,
  `SyncPooling.SyncSafety`): exclusive ownership, capacity, conservation of connections
  and requests, and how far idle connections can pile up beside waiters. The blocking pool
  is proved by mapping its steps to those of the asynchronous one.
- **P² is shape-preserving, affine-equivariant and on target**
  (`StreamingPercentile.ShapeAlways`, `StreamingPercentile.Equivariance`,
  `StreamingPercentile.OnTarget`): every middle marker tracks its desired position within
  constant bounds, and within one in streams long enough for the quantile; the two
  predictions are the parabola and the line through the markers.
- **Traces conserve time** (`Tracing.TimeConservation`): exclusive durations of a finished
  trace add up to its root's duration.
- **Revocation is bounded** (`ApiKeyCache.RevocationBounded`) and immediate under an exact
  condition (`ApiKeyCache.ImmediateExactly`).
- **The limiter's exact limit** (`RateLimiting.LimitExactly`, `RateLimiting.LimitOfOne`):
  which intervals stay within the limit in every run, also when checks do not run in the
  order in which they read the clock.

## Where the code does less than it says

- A caller of single flight that follows a leader awaits the shared future directly, so a
  follower's cancellation cancels the future for all other followers.
  `SingleFlights.OneSpoiled` is a run; `SingleFlights.FollowersShare` gives the exact
  condition under which a follower gets its leader's outcome, and
  `SingleFlights.SpoiledExactly` tells from the run when it fails.
- In the asynchronous pool, a waiter that is cancelled or times out after its event was
  set takes the wake-up with it. `AsyncPooling.OneStranded` is a run that ends with an idle
  connection beside a waiter and nobody about to resume. `AsyncPooling.StrandsExactly` says
  which steps bring a pool into that state and which out of it, and
  `AsyncPooling.StrandedExactly` when a run ends in it: exactly when some step took away
  the last call about to resume (it left, or it took one of several idle connections) and
  no step since has helped. A failed creation or a growing sizer also makes room that no
  waiter is woken for: `AsyncPooling.StallsExactly` says, for every reachable state, which
  next steps leave a waiter beside room.
- A read that executes before a write and fills the cache after the write's invalidation
  can leave a stale entry; so can a persistence job queued across the write.
  `QueryServing.LateFillExactly` and `QueryServing.LatePersistExactly` give the exact
  condition for each: no write in between has tables that cannot be told, or one that the
  read uses. `QueryServing.LateFillCanBeStale` and `QueryServing.LatePersistCanBeStale`
  show that whenever it fails some engine lets a caller notice.
- A key is put in the first level before it is tagged, and an invalidation in between can
  miss it. `QueryServing.GapExactly` is the exact condition: the invalidation is narrowed
  to the written tables, finds other keys there, and the read uses one of them without
  being listed from an earlier time.
- A validation told yes before a revocation and finishing after the eviction puts the key
  back in the cache: `ApiKeyCache.OneLingers`. `ApiKeyCache.ImmediateExactly` is the exact
  condition: such a validation that began in the 30 seconds before the eviction is in
  flight.
- The limiter reads the clock before it takes its lock, so checks can run out of clock
  order. For a limit of two or more, intervals of some length are within it in every run
  exactly if that length and the largest such delay together fit into the window
  (`RateLimiting.LimitExactly`); for a limit of one the order does not matter
  (`RateLimiting.LimitOfOne`). The two callers in the repository
  (`core/app/api/routes/auth.py:293` and `:373`) are coroutines with no suspension between
  reading the clock and taking the lock, so the delay is zero there and only threaded
  callers would see more.
- A middle marker of the estimator need not be within one of its desired position, or up
  against a neighbour, in short streams of extreme quantiles, as markers take their turns
  in order and one may be passed up just before its neighbour makes room:
  `StreamingPercentile.LagsUnblocked`. `StreamingPercentile.TurnExactly` is the exact
  condition for one turn.
- `TTLQueryCache.put` makes room before it looks whether the key is there, so overwriting
  a key of a full cache deletes an entry as well (`HybridCache.TtlPutKeeps`).
- Stopping the persistence queue loses jobs exactly if some drain was given up while a job
  was under way, or any was since the queue was last started
  (`PersistenceQueueing.StopLosesExactly`), and with no workers exactly if there are any
  jobs (`PersistenceQueueing.NoWorkersNoWork`).

## Model

| member | source | states |
|---|---|---|
| LruCache.StepWellFormed | core/db/cache.py:119-181 | every LRU operation keeps keys distinct and the size within `max_size` |
| LruCache.RunWellFormed | core/db/cache.py:119-181 | the size never exceeds `max_size`, after any calls |
| LruCache.StepOrigin | core/db/cache.py:144-164 | nothing enters the cache but what is put there, and values never change |
| LruCache.Inclusion | core/db/cache.py:119-181 | for `k <= n`, on the same calls the size-`k` cache is a recency-ordered subsequence of the size-`n` cache with equal entries, never with more hits; its answers are the larger one's |
| LruCache.IncludedStep | core/db/cache.py:119-181 | each single operation keeps the inclusion, including expiry-deleting gets, with free space no smaller in the larger cache |
| LruCache.Residency | core/db/cache.py:119-164 | `get` returns the value of the key's latest put, uninvalidated and unexpired, if and only if the key has not had `max_size` live rivals at once since it was last put or hit |
| LruCache.PutThenGet | core/db/cache.py:29-43 | a put value is answered until strictly more than its time to live has passed, for ever without one; an answer counts an access |
| LruCache.CountersTrue | core/db/cache.py:128-142 | hits and misses are the answered and unanswered gets since the last clear |
| LruCache.LruQueryCache.Get | core/db/cache.py:119-142 | a hit moves the entry to the recent end and counts; an expired entry is deleted and is a miss |
| LruCache.LruQueryCache.Put | core/db/cache.py:144-164 | overwriting moves to the end; a new key in a full cache evicts the least recent |
| LruCache.LruQueryCache.Invalidate | core/db/cache.py:166-174 | removes that key only, order and counters kept |
| LruCache.LruQueryCache.Clear | core/db/cache.py:176-181 | empties the cache and zeroes the counters |
| HybridCache.TtlPutKeeps | core/db/cache.py:250-271 | a put keeps size and distinctness, loses exactly the entry with the earliest deadline when full (even when overwriting), and leaves all others as they were |
| HybridCache.TtlPutThenGet | core/db/cache.py:250-271 | a put value is answered until its time to live is over, none or zero meaning the default; the entry a full cache loses is due no later than any |
| HybridCache.TtlGetKeeps | core/db/cache.py:226-248 | a get changes at most its own key: counted and in place on a hit, gone when expired; hits and misses tell which |
| HybridCache.AssignKeeps | core/db/cache.py:268-271 | assigning a dictionary key replaces in place or appends, other keys unchanged |
| HybridCache.Earliest | core/db/cache.py:258-266 | the evicted entry is the first with the least creation time plus time to live, zero or none meaning the default |
| HybridCache.TtlQueryCache.Get | core/db/cache.py:226-248 | like the LRU cache's, but a hit leaves the order alone |
| HybridCache.TtlQueryCache.Put | core/db/cache.py:250-271 | whole new state after a put |
| HybridCache.TtlQueryCache.FindEarliest | core/db/cache.py:258-266 | the loop of `min` finds the entry `Earliest` names |
| HybridCache.HybridQueryCache.Get | core/db/cache.py:331-344 | answers and LRU state are those of the LRU cache alone; the TTL part is read too, on a hit |
| HybridCache.HybridQueryCache.Put | core/db/cache.py:346-355 | the LRU part is put with the given time to live, not the default; the TTL part is put with the default where none is given |
| ResultCache.StoredIsFetched | core/caching/query_result_cache.py:59-169 | round trip: a stored row is fetched back exactly until its time to live is over, whatever happens to other keys |
| ResultCache.PurgedExactly | core/caching/query_result_cache.py:192-227 | a row survives if and only if no filter is given or it fails one that is |
| ResultCache.StoredIsOwned | core/caching/query_result_cache.py:105-169 | a stored row goes with its user's rows, stays with another's, and matches patterns by its statement |
| ResultCache.QueryResultCache.GetCachedResult | core/caching/query_result_cache.py:59-89 | a row is found unless it has an expiry at or before now |
| ResultCache.QueryResultCache.CacheResult | core/caching/query_result_cache.py:105-169 | inserts or replaces the row; a non-positive time to live never expires |
| ResultCache.QueryResultCache.RecordAccess | core/caching/query_result_cache.py:91-103 | counts an access of an existing row and notes its time, nothing else |
| ResultCache.QueryResultCache.ClearAll | core/caching/query_result_cache.py:171-190 | deletes every row and reports how many |
| ResultCache.QueryResultCache.InvalidateCache | core/caching/query_result_cache.py:192-227 | deletes exactly the rows matching pattern and user, nothing if neither is given, and reports how many |
| CacheCoordinator.ReadFillsL1 | core/caching/query_cache_coordinator.py:129-185 | a read past the first level is answered from it while the time to live lasts, with the same rows |
| CacheCoordinator.ReadExpiresL1 | core/caching/query_cache_coordinator.py:171-181 | after a read past the first level, that level does not answer once more than the time to live has passed |
| CacheCoordinator.AnswersFromReads | core/caching/query_cache_coordinator.py:129-185 | after any calls, what the first level answers at a time was given, by a read of that key which it did not answer, at most the time to live before |
| CacheCoordinator.ReadCountsAccess | core/caching/query_cache_coordinator.py:169-177 | a hit in the second level counts one access of that row, with its time, if the job is run, and nothing else there changes |
| CacheCoordinator.ReadFillsL2 | core/caching/query_cache_coordinator.py:180-185 | an executed, persisted, non-empty result is answered from the second level for an hour after the first level lost it; otherwise the second level is untouched |
| CacheCoordinator.ReadIndexed | core/caching/query_cache_coordinator.py:161-193 | after any read, every first-level key is listed under each of its tables and nothing is listed under a table it does not read |
| CacheCoordinator.InvalidateIndexed | core/caching/query_cache_coordinator.py:212-247 | invalidation keeps that index, although only the named tables' lists are cleaned |
| CacheCoordinator.IndexedAlways | core/caching/query_cache_coordinator.py:161-247 | the index is right after any sequence of reads, single and table invalidations and clears, with nothing assumed of the engine |
| CacheCoordinator.ExactInvalidation | core/caching/query_cache_coordinator.py:212-247 | after any calls, an invalidation that returns true leaves a key in the first level if and only if its tables are disjoint from the given ones, with its entry unchanged; one that returns false had nothing to drop |
| CacheCoordinator.ExactRows | core/caching/query_cache_coordinator.py:240-247 | an invalidation is narrowed if and only if some key is listed under a given table, and then second-level rows survive if and only if no table's pattern matches them |
| CacheCoordinator.KeyTagsAlways | core/caching/query_cache_coordinator.py:187-238 | after any calls the tags by key hold exactly the keys listed under every one of their tables, with those tables |
| CacheCoordinator.QueryCacheCoordinator.GetOrExecute | core/caching/query_cache_coordinator.py:102-185 | the answer and whole state after a read: first level, else second level re-put with a full time to live, else execution |
| CacheCoordinator.QueryCacheCoordinator.Resolve | core/caching/query_cache_coordinator.py:161-185 | second level, else execute; tags and persists (unless empty or dropped) |
| CacheCoordinator.QueryCacheCoordinator.TagTables | core/caching/query_cache_coordinator.py:187-193 | the loop adds the key to exactly the given tables' lists |
| CacheCoordinator.QueryCacheCoordinator.Invalidate | core/caching/query_cache_coordinator.py:195-199 | drops the key from the first level only |
| CacheCoordinator.QueryCacheCoordinator.ClearAll | core/caching/query_cache_coordinator.py:201-210 | empties both levels and both indexes |
| CacheCoordinator.QueryCacheCoordinator.InvalidateTables | core/caching/query_cache_coordinator.py:212-247 | returns false exactly when no table is given or no key is listed, and leaves both levels alone then; otherwise the two levels lose exactly the listed keys and the matching rows |
| CacheCoordinator.QueryCacheCoordinator.PopTags | core/caching/query_cache_coordinator.py:233-238 | the loops collect every key listed under the tables and untag them |
| QueryServing.ApplyResultLimits | core/services/query_service.py:171-196 | the result is the longest prefix within both limits, and truncation is reported exactly when something was cut |
| QueryServing.ReadCoherent | core/services/query_service.py:125-138 | a read keeps every entry of both levels equal to what the warehouse would answer now |
| QueryServing.WriteCoherent | core/services/query_service.py:114-147 | so does a write with its invalidation, precise or total |
| QueryServing.CoherentAlways | core/services/query_service.py:72-147 | hence coherence after any sequence of requests from a coherent start |
| QueryServing.StartCoherent | core/caching/query_cache_coordinator.py:70-97 | an empty first level over true second-level rows, as after a restart, is a coherent start |
| QueryServing.SameWarehouse | core/services/query_service.py:112-123 | the caches never change the warehouse's contents |
| QueryServing.Transparency | core/services/query_service.py:72-147 | every response is the uncached service's but for the `cached` mark; a read may succeed from the cache while the engine is down, with what it would have said |
| QueryServing.MarkedExactly | core/services/query_service.py:123-138 | a response is marked as cached if and only if it is a read's that would have been answered with the engine down |
| QueryServing.ReadTwice | core/services/query_service.py:134-138 | a first read is not marked, its repetition within the time to live is, with the same rows |
| QueryServing.RefusedExactly | core/services/query_service.py:100-115 | refused are exactly the writes without the required scope; they and failed writes change nothing |
| QueryServing.WriteDropsExactly | core/services/query_service.py:140-147 | a write drops exactly what reads or matches a written table when invalidation is precise and finds a key listed, and everything otherwise |
| QueryServing.LateFillExactly | core/caching/query_cache_coordinator.py:180-182 | rows that reach the first level only after other requests were served leave the caches true under every engine if and only if each write among those requests has tables, none of them the read's |
| QueryServing.LatePersistExactly | core/caching/query_cache_coordinator.py:183-184 | the same condition, exact, for a non-empty result whose persistence job runs only after other requests were served |
| QueryServing.LateHarmless | core/caching/query_cache_coordinator.py:180-184 | the positive half of both, for one engine and any coherent start |
| QueryServing.LateFillCanBeStale | core/caching/query_cache_coordinator.py:180-182 | the negative half as a caller sees it: for every extractor and requests with such a write, some lawful engine makes the next read within the time to live differ from the warehouse |
| QueryServing.LatePersistCanBeStale | core/caching/query_cache_coordinator.py:183-184 | the negative half for the persistence job: unless responses are cut to no rows, some lawful engine makes a read within the hour that the first level does not answer differ from the warehouse |
| QueryServing.GapExactly | core/caching/query_cache_coordinator.py:181-182 | a write and its invalidation between the first-level put and the tagging leave the caches true under every engine if and only if the invalidation is total, or misses no table of the read, or finds the key listed from before |
| BoundedStaleness.StalenessBounded | core/caching/query_cache_coordinator.py:161-185 | in every interleaving of executions, fills, persistence jobs, fetches, writes and invalidations, an answer is what the warehouse would have given at a moment at most both times to live and both delays ago |
| BoundedStaleness.AgedAlways | core/caching/query_cache_coordinator.py:161-185 | the ages of everything held in either level, in flight or queued |
| BoundedStaleness.FetchedAge | core/caching/query_result_cache.py:59-89 | a row fetched in time was stored less than an hour before, the cut to whole seconds included |
| QueryServing.QueryService.Run | core/services/query_service.py:72-138 | response and state for every branch: refused, raised, write, read |
| QueryServing.QueryService.InvalidateAfterWrite | core/services/query_service.py:140-147 | narrowed if configured and possible, everything otherwise |
| SingleFlights.AlwaysSound | core/caching/query_cache_coordinator.py:129-159 | in every interleaving the registry lists exactly the keys with a leader in progress, and futures hold their leader's outcome unless cancelled |
| SingleFlights.SingleLeader | core/caching/query_cache_coordinator.py:135-159 | at most one leader per key is in progress, and a key is registered exactly while it has one |
| SingleFlights.FollowersShare | core/caching/query_cache_coordinator.py:142-155 | a follower gets its leader's value or exception if and only if the future was not cancelled by another follower's cancellation (or the leader came to a cancellation too) |
| SingleFlights.SpoiledExactly | core/caching/query_cache_coordinator.py:142-145 | over whole runs, the future is cancelled that way if and only if one of its followers was cancelled while it was pending |
| SingleFlights.NoneSpoiled | core/caching/query_cache_coordinator.py:142-145 | without cancelled followers no future is ever cancelled that way |
| SingleFlights.OneSpoiled | core/caching/query_cache_coordinator.py:142-145 | with one, an innocent follower can be handed a cancellation (a run) |
| SingleFlights.RegistryExactly | core/caching/query_cache_coordinator.py:149-159 | the entry removed is the leader's own, and a future that is done keeps its outcome |
| SingleFlights.SingleFlight.Join | core/caching/query_cache_coordinator.py:135-140 | joins the registered future or registers a new one and leads |
| SingleFlights.SingleFlight.SetOutcome | core/caching/query_cache_coordinator.py:149-154 | settles the future unless it is done |
| SingleFlights.SingleFlight.Close | core/caching/query_cache_coordinator.py:156-159 | removes the entry only if it is still the leader's own |
| AsyncPooling.PoolSafety | core/db/pool/async_pool.py:77-222 | after any interleaving: ownership, waiter queue, capacity against the configured maximum, conservation of connections and of requests, and the wake-up bound |
| AsyncPooling.NeverShared | core/db/pool/async_pool.py:84-104 | no two calls hold the same connection and none held is idle |
| AsyncPooling.StepOwnership | core/db/pool/async_pool.py:84-150 | each step keeps every slot owned by exactly one call, also while connections are created outside the lock |
| AsyncPooling.StepQueueing | core/db/pool/async_pool.py:106-125 | each step keeps the queue the unset events of waiting calls, each once, in order of queueing |
| AsyncPooling.StepSizes | core/db/pool/async_pool.py:92-150 | each step keeps idle plus checked-out plus reserved within the maximum and created = idle + active + evicted |
| AsyncPooling.StepRequests | core/db/pool/async_pool.py:77-171 | each step keeps requests = successes + timeouts + cancelled + failed + under way |
| AsyncPooling.WakeOrder | core/db/pool/async_pool.py:113-125 | only a release sets an event, the oldest, and takes it off the queue; a timeout or cancellation removes only the caller's own |
| AsyncPooling.StrandsExactly | core/db/pool/async_pool.py:84-222 | a step leaves an idle connection beside a waiter with nobody about to resume exactly when it takes the last resuming call away from such waiters, or when that was so and the step is no release, no taking of the last idle connection and no leaving of the last waiter |
| AsyncPooling.StrandedExactly | core/db/pool/async_pool.py:84-222 | a run ends so exactly when one step did that and no later one helped |
| AsyncPooling.StallsExactly | core/db/pool/async_pool.py:84-249 | after any run, a step leaves a waiter beside an idle connection or room for a new one, with nobody about to resume, exactly under a guard on the state before it, for every kind of step, failed creations and sizer growth included |
| AsyncPooling.NoneStranded | core/db/pool/async_pool.py:213-222 | if no wake-up was lost, an idle connection beside a waiter means some call is about to resume |
| AsyncPooling.OneStranded | core/db/pool/async_pool.py:151-158 | a cancellation after the wake-up can strand a waiter beside an idle connection (a run) |
| AsyncPooling.AttemptExactly | core/db/pool/async_pool.py:84-111 | a round hands out an idle connection with the least stamp and then the least push number, and removes it alone; else reserves a slot if fewer than the current size are in use; else queues |
| AsyncPooling.ReleaseExactly | core/db/pool/async_pool.py:191-222 | a released connection goes back with its check-out stamp and the next push number, or is evicted if broken; the oldest waiter is woken either way |
| AsyncPooling.StampedAlways | core/db/pool/async_pool.py:85-90 | in every reachable state an idle stamp is the time of that connection's last check-out, and push numbers rise in the order of the releases |
| AsyncPooling.WaitersCounted | core/db/pool/async_pool.py:108-111 | the count of waiters ever is the number of times a call was queued |
| AsyncPooling.First | core/db/pool/async_pool.py:85-86 | the connection taken is the least by stamp, then by push number |
| AsyncPooling.AsyncConnectionPool.TryAcquire | core/db/pool/async_pool.py:84-111 | the locked round: take, reserve or queue, with all counters |
| AsyncPooling.AsyncConnectionPool.FinishCreate | core/db/pool/async_pool.py:141-150 | the reservation becomes the new connection |
| AsyncPooling.AsyncConnectionPool.AbandonCreate | core/db/pool/async_pool.py:131-138 | a failed or cancelled creation gives back its slot |
| AsyncPooling.AsyncConnectionPool.LeaveQueue | core/db/pool/async_pool.py:116-122 | only the caller's own event leaves, if still queued |
| AsyncPooling.AsyncConnectionPool.Release | core/db/pool/async_pool.py:191-222 | back to idle or evicted, unknown connections ignored, oldest waiter woken either way |
| AsyncPooling.AsyncConnectionPool.Observe | core/db/pool/async_pool.py:240-249 | reading the metrics moves the sizer by one check |
| SyncPooling.SyncSafety | core/db/pool/sync_pool.py:65-174 | in every reachable state: slots as safe as the asynchronous pool's, the condition's queue is exactly the blocked threads and those whose wait timed out and that have yet to take the lock, the counter counts the threads that waited, requests = successes + timeouts + failed + under way, no wake-up is lost, and the maximum is the configured one |
| SyncPooling.StepWakeup | core/db/pool/sync_pool.py:71-105 | each step keeps: nobody is blocked, or idle connections are at most the notified threads yet to look |
| SyncPooling.StepRequests | core/db/pool/sync_pool.py:65-143 | each step keeps the balance of requests |
| SyncPooling.StepSlots | core/db/pool/sync_pool.py:71-126 | each step keeps ownership, capacity and conservation, through the steps of the asynchronous pool |
| SyncPooling.ContendAbstract | core/db/pool/sync_pool.py:71-105 | a successful round is a round of the asynchronous pool |
| SyncPooling.ReleaseAbstract | core/db/pool/sync_pool.py:145-174 | so is a release |
| SyncPooling.StepWaiting | core/db/pool/sync_pool.py:87-130 | each step keeps the queue and the waiter counter exact |
| SyncPooling.RaisesOnlyWhenFull | core/db/pool/sync_pool.py:87-96 | the pool-exhausted error is raised exactly by a round past its deadline with nothing idle and no room |
| SyncPooling.SizerMoves | core/db/pool/sync_pool.py:196-251 | reading the metrics is a check with the counted threads as waiters; it and warming up move the sizer alone |
| SyncPooling.RoundExactly | core/db/pool/sync_pool.py:73-83 | a round hands out an idle connection with the least stamp and then the least push number, or reserves a free slot |
| SyncPooling.StampedAlways | core/db/pool/sync_pool.py:74-80 | idle stamps are last check-out times in every reachable state |
| SyncPooling.ReleaseNotifies | core/db/pool/sync_pool.py:150-174 | a release notifies the oldest thread of the queue, broken or not |
| SyncPooling.CountsWaitersOnce | core/db/pool/sync_pool.py:87-90 | a thread is counted among the waiters ever in the first round that finds nothing |
| SyncPooling.SyncConnectionPool.Contend | core/db/pool/sync_pool.py:72-105 | one pass of the loop after a wait or none: take, reserve, raise or wait, the thread counted as waiting once |
| SyncPooling.SyncConnectionPool.Release | core/db/pool/sync_pool.py:150-174 | as the asynchronous release, notifying the oldest blocked thread |
| SyncPooling.SyncConnectionPool.FinishCreate | core/db/pool/sync_pool.py:117-126 | the reservation becomes the new connection |
| AdaptiveSizing.SteadyAlways | core/db/pool/adaptive.py:60-91 | the size stays within its bounds and above the minimum the idle streak is below five |
| AdaptiveSizing.QuietChecks | core/db/pool/adaptive.py:77-89 | `n` checks with no waiters and waits of at most 5 ms, from size `c` and streak `s` give `max(min, c - (s+n)/5)` |
| AdaptiveSizing.PressuredChecks | core/db/pool/adaptive.py:77-84 | `n` checks with a waiter or a wait over 5 ms give `min(max, c+n)` |
| AdaptiveSizing.AdjustedExactly | core/db/pool/adaptive.py:77-89 | one check, with its thresholds written out |
| AdaptiveSizing.AdaptiveSizer.Adjust | core/db/pool/adaptive.py:60-91 | one check, on the object's fields |
| StreamingPercentile.ShapeAlways | core/performance/histogram.py:119-159 | after every sample: heights sorted, positions strictly increasing from 1 to the sample count, desired positions at their closed form, end markers the exact extremes |
| StreamingPercentile.EstimateInRange | core/performance/histogram.py:161-170 | the estimate lies between the least and greatest sample, and is a sample for short streams |
| StreamingPercentile.Equivariance | core/performance/histogram.py:106-185 | feeding `a*x+b` with `a > 0` drives the same positions and scales every height |
| StreamingPercentile.EstimateEquivariance | core/performance/histogram.py:161-170 | and yields exactly `a*estimate+b`, short streams included |
| StreamingPercentile.ParabolicInterpolates | core/performance/histogram.py:173-178 | the parabolic prediction is the parabola through three markers, read at the new position |
| StreamingPercentile.LinearInterpolates | core/performance/histogram.py:181-185 | the linear prediction is the line through two markers |
| StreamingPercentile.AdjustExactly | core/performance/histogram.py:147-159 | a marker at least one below its desired position with a right gap over one goes one right, symmetrically left, and else nothing changes; its new height is the parabola's if strictly between the neighbours', else the line's |
| StreamingPercentile.PlaceExactly | core/performance/histogram.py:131-144 | which positions a sample moves up and which heights it replaces |
| StreamingPercentile.TurnExactly | core/performance/histogram.py:147-159 | a turn leaves its marker within one of the desired position, or up against the neighbour, if and only if it was within two, or at most two places from that neighbour |
| StreamingPercentile.TrackAlways | core/performance/histogram.py:127-159 | after every sample of every stream each middle marker is within a constant distance of its desired position |
| StreamingPercentile.OnTarget | core/performance/histogram.py:127-170 | in streams long enough for the quantile every middle marker is less than one off its desired position, and the estimate is the height of the one wanted at rank `1 + (n-1)q` |
| StreamingPercentile.ShareIsProduct | core/performance/histogram.py:143-144 | `Share(q, n)`, a sum of `n` increments, is `n*q` |
| StreamingPercentile.LagsUnblocked | core/performance/histogram.py:146-159 | in a short stream a marker can be more than one off with room to go (an instance) |
| StreamingPercentile.SmallStreams | core/performance/histogram.py:166-169 | under five samples the estimate is the one in order at the index of `SmallPlace` |
| StreamingPercentile.SmallPlace | core/performance/histogram.py:168-168 | that index is `q(n-1)` cut to an integer |
| StreamingPercentile.FiveSamples | core/performance/histogram.py:119-121 | at five samples the heights are the sorted samples |
| StreamingPercentile.StreamingPercentileEstimator.AdjustOne | core/performance/histogram.py:147-159 | one round of the adjusting loop |
| StreamingPercentile.AdjustSorted | core/performance/histogram.py:146-159 | adjusting a marker keeps heights sorted and the extremes where they are |
| StreamingPercentile.SortSorts | core/performance/histogram.py:120-121 | sorting the first five samples |
| StreamingPercentile.BisectLeft | core/performance/histogram.py:58-58 | the first index whose bound is not below the value |
| StreamingPercentile.StreamingPercentileEstimator.Create | core/performance/histogram.py:101-104 | refused unless the quantile is strictly between 0 and 1 |
| StreamingPercentile.StreamingPercentileEstimator.Observe | core/performance/histogram.py:106-117 | the fields are always those of the whole stream fed so far |
| StreamingPercentile.StreamingPercentileEstimator.Update | core/performance/histogram.py:127-159 | the three loops perform one update of the markers |
| StreamingPercentile.StreamingPercentileEstimator.Value | core/performance/histogram.py:161-170 | the estimate of the stream |
| BucketHistogram.CumulativeIsRank | core/performance/histogram.py:51-76 | the running total up to a bound is the number of values at most that bound; over all buckets, of all values |
| BucketHistogram.RankMonotone | core/performance/histogram.py:68-76 | cumulative counts do not decrease with the bound |
| BucketHistogram.SortedMeansUnchanged | core/performance/histogram.py:46-47 | the constructor's test accepts exactly the sorted bounds |
| BucketHistogram.Histogram.Create | core/performance/histogram.py:44-49 | unsorted bounds are refused |
| BucketHistogram.Histogram.Observe | core/performance/histogram.py:51-59 | count, sum, exact extremes and buckets after one more value |
| BucketHistogram.Histogram.CumulativeCounts | core/performance/histogram.py:68-76 | each label maps to the number of values at most its bound, and +Inf to the count |
| Tracing.TimeConservation | core/performance/trace.py:66-126 | under a clock that never goes back: intervals nest, siblings are disjoint, and a finished trace's exclusive durations sum to the root's duration |
| Tracing.ClampNeverFires | core/performance/trace.py:66-72 | the clamp at zero never takes effect |
| Tracing.FewFailures | core/performance/trace.py:94-121 | the only failures are starting in a finished trace and finishing without an active node |
| Tracing.FinishAllCloses | core/performance/trace.py:123-126 | `finish_all` never fails, leaves nothing open, and conserves time |
| Tracing.StartedSound | core/performance/trace.py:85-111 | a start keeps the tree, the open path, the nesting and the balance of durations |
| Tracing.FinishedSound | core/performance/trace.py:113-121 | so does a finish |
| Tracing.TraceNode.Finish | core/performance/trace.py:36-47 | idempotent; refuses a clock before the start |
| Tracing.TraceNode.AddChild | core/performance/trace.py:49-54 | refuses a child that has a parent |
| Tracing.Trace.Start | core/performance/trace.py:85-111 | the linked nodes afterwards show exactly the specified tree |
| Tracing.Trace.Finish | core/performance/trace.py:113-121 | the active node is closed, its duration returned, and its parent resumes |
| Tracing.Trace.FinishAll | core/performance/trace.py:123-126 | closes from the active node up, stopping at a failure |
| Tracing.ExclusiveDurationNs | core/performance/trace.py:66-72 | a node's own time, read from its children |
| ApiKeyCache.EverySuccessWasRead | core/auth/api_key_service.py:139-170 | in every interleaving a success returns what the table said for that hash to a validation begun less than 30 seconds earlier |
| ApiKeyCache.CachedForThirty | core/auth/api_key_service.py:142-169 | a success answers the next validations of its hash until exactly 30 seconds after it began |
| ApiKeyCache.AcceptedExactly | core/storage/service_db.py:650-667 | a validation whose query found a usable row succeeds with its info if and only if the row has no expiry, zero, or one not before the wall clock; with none found it fails |
| ApiKeyCache.BeginExactly | core/auth/api_key_service.py:139-149 | a fresh entry answers at once; otherwise the entry goes, no other does, and the table is asked |
| ApiKeyCache.WithdrawsExactly | core/storage/service_db.py:694-728 | only the owner's statement touches a key, and no other key; revoking keeps the row, deleting removes it; eviction takes that key's entries only |
| ApiKeyCache.ReadBacked | core/storage/service_db.py:638-670 | a query that approves a validation found an active row of that hash, unexpired at the wall clock the validation read |
| ApiKeyCache.WithdrawnAfter | core/storage/service_db.py:694-728 | once the owner's revoke or delete has committed no row of that hash is usable |
| ApiKeyCache.RevocationBounded | core/auth/api_key_service.py:203-245 | no validation that begins 30 seconds or more after a revocation or deletion commits succeeds, whatever is in flight |
| ApiKeyCache.ImmediateExactly | core/auth/api_key_service.py:213-219 | no validation that begins after the eviction succeeds if and only if no validation that the table had already approved, begun less than 30 seconds before the eviction, is still in flight |
| ApiKeyCache.SilenceExactly | core/auth/api_key_service.py:213-219 | nothing succeeds any more after the eviction, not even what is in flight, if and only if none that the table had approved is |
| ApiKeyCache.OneLingers | core/auth/api_key_service.py:166-170 | such a validation succeeds and re-fills the cache (a run) |
| ApiKeyCache.ExpiryBounded | core/auth/api_key_service.py:139-170 | a key with an expiry works at most 30 seconds beyond the second it expires in |
| ApiKeyCache.APIKeyService.BeginValidation | core/auth/api_key_service.py:139-147 | a fresh entry answers, a stale one is deleted |
| ApiKeyCache.APIKeyService.SettleValidation | core/auth/api_key_service.py:155-170 | a hit is cached until 30 seconds after the validation began |
| ApiKeyCache.APIKeyService.AfterWithdrawal | core/auth/api_key_service.py:213-220 | evicts when the statement ran, and returns whether it did |
| ApiKeyCache.APIKeyService.EvictByKeyId | core/auth/api_key_service.py:247-263 | the loop removes exactly the entries of that key |
| RateLimiting.RefusedExactly | core/auth/rate_limiter.py:44-53 | a call is refused exactly when `max_attempts` attempts allowed since the last reset lie in `[now - window, now]` |
| RateLimiting.WindowLimit | core/auth/rate_limiter.py:44-53 | with fixed limits and a non-decreasing clock every closed interval of the window's length holds at most `max_attempts` allowed attempts |
| RateLimiting.SkewedLimit | core/auth/rate_limiter.py:44-53 | with checks at most `skew` out of clock order, every closed interval shorter than the window by the skew holds at most `max_attempts` allowed attempts |
| RateLimiting.LimitExactly | core/auth/rate_limiter.py:44-53 | for a limit of two or more, in all runs with checks at most `skew` out of order intervals of a length are within the limit if and only if length + skew <= window |
| RateLimiting.LimitOfOne | core/auth/rate_limiter.py:44-53 | for a limit of one, in any order, if and only if length <= window |
| RateLimiting.PrunedIsRest | core/auth/rate_limiter.py:48-49 | pruning removes exactly the attempts before the cutoff |
| RateLimiting.RateLimiter.CheckAndRecord | core/auth/rate_limiter.py:44-53 | answer and table after one check, the loop included |
| RateLimiting.RateLimiter.ResetKey | core/auth/rate_limiter.py:56-59 | forgets that key only |
| PersistenceQueueing.Conservation | core/caching/persistence_queue.py:77-142 | submitted = enqueued + dropped, depth within the bound, first in first out, every job taken fares in exactly one way, and enqueued = completed + failed + aborted + running + depth, at every step |
| PersistenceQueueing.SubmitExactly | core/caching/persistence_queue.py:91-106 | a submission is dropped if and only if the queue is closed or full, and is else the newest to wait |
| PersistenceQueueing.StartExactly | core/caching/persistence_queue.py:67-75 | a start of a closed queue adds the configured number of idle workers, and of an open one nothing |
| PersistenceQueueing.DrainedStop | core/caching/persistence_queue.py:123-142 | a queue with workers whose stop drains in time ends with completed + failed = enqueued |
| PersistenceQueueing.StopLosesExactly | core/caching/persistence_queue.py:123-142 | once stop is through, restarts included, completed + failed = enqueued if and only if no drain was ever given up (workers cancelled before the queue was drained) over a job under way, and none at all since the last start |
| PersistenceQueueing.NoWorkersNoWork | core/caching/persistence_queue.py:67-75 | without workers every enqueued job stays in the queue, so that equation holds if and only if nothing was enqueued |
| PersistenceQueueing.HastyStops | core/caching/persistence_queue.py:129-142 | both ways of losing a job occur (instances of the two rows above) |
| PersistenceQueueing.CachePersistenceQueue.Start | core/caching/persistence_queue.py:67-75 | idempotent; otherwise accepts and gets new workers |
| PersistenceQueueing.CachePersistenceQueue.Enqueue | core/caching/persistence_queue.py:77-106 | never blocks: dropped and counted when closed or full, enqueued otherwise |
| PersistenceQueueing.CachePersistenceQueue.TakeJob | core/caching/persistence_queue.py:110-110 | the oldest job goes to the worker |
| PersistenceQueueing.CachePersistenceQueue.FinishJob | core/caching/persistence_queue.py:111-121 | completed or failed, counted, and the worker is idle again |
| PersistenceQueueing.CachePersistenceQueue.BeginStop | core/caching/persistence_queue.py:128-131 | closes the queue, and waits only if there are workers |
| PersistenceQueueing.CachePersistenceQueue.CancelWorkers | core/caching/persistence_queue.py:139-140 | cancels the workers known to `stop` |

## Left out

Assumed:

- Time, executed results, classified statements and extracted tables are parameters. `QueryServing.Lawful` is what is assumed of the engine: an answer depends only on the statement's tables, a write changes only its tables (any, if it has none), and a table's LIKE pattern matches every statement it is extracted from. A statement classified as a read changes nothing. Statement classification and table extraction as text heuristics are not modelled.
- Every operation reads the clock once; clock values, durations, waits and samples are exact (reals, or integers for nanoseconds), without floating-point rounding.
- A cache key stands for the pair of statement and parameters (no hash collisions), and result rows for their JSON text (encoding and decoding is the identity). A cached `None` cannot be told from a miss in the source and is not modelled.
- Second-level and table statements succeed; a failed write leaves the warehouse unchanged; a failing invalidation, which the service swallows, is not modelled.
- Object identities (placeholders, events, futures, connections, workers) are never reused.
- Heaps, ordered dictionaries, conditions, events and `asyncio.Queue` are modelled by what they promise: least entry first, order of insertion, first in first out.

Not modelled:

- LruCache.LruQueryCache.constructor: requires a positive size; the source accepts zero and fails on the first put.
- HybridCache.TtlQueryCache.constructor: requires a positive size, for the same reason.
- QueryServing.Transparency: one read with its tagging and its persistence job is a single step, and so is one write with its invalidation; what finer interleavings do is the subject of `QueryServing.LateFillExactly`, `QueryServing.LatePersistExactly`, `QueryServing.GapExactly` and of `BoundedStaleness`.
- CacheCoordinator.QueryCacheCoordinator.GetOrExecute: one caller at a time; callers that share a flight are the subject of `SingleFlights`.
- BoundedStaleness.StalenessBounded: the table starts empty, both levels read one clock, and the two delays are parameters.
- SingleFlights.SingleLeader: the leader's removal of its entry is one step that always happens; a cancellation delivered while it waits for the lock there would leave the entry behind.
- AsyncPooling.PoolSafety: cancellation is delivered only at the wait and at the creation, a broken connection's close is instantaneous, and closing the whole pool is not modelled.
- SyncPooling.SyncSafety: a creation that raises something other than an `Exception` keeps its reservation in the source; closing the whole pool is not modelled.
- Tracing.Trace.Finish: nodes are finished only through their trace, not by a caller holding the node; names, tags and metadata are left out.
- ApiKeyCache.RevocationBounded: the withdrawal names the key's owner, a hash belongs to one key and is not issued again afterwards, as keys are random; one process with one cache.
- PersistenceQueueing.DrainedStop: one `stop` runs at a time.
- PersistenceQueueing.StopLosesExactly: the queue is not started while a stop is under way, no job raises cancellation itself, and none goes on when it is cancelled.
- QueryServing.GapExactly: one write falls into the gap.
- RateLimiting.RefusedExactly: checks of a key take the lock in the order in which they read the clock; `RateLimiting.LimitExactly` is about those that do not.
- Wait-time totals, wait histograms and latency averages of pools and queue; the pairing of histogram and estimators in `StreamingHistogram`.
- Routes, middleware, tokens, dashboards, exporters, database adapters, settings, aggregators, alerts, samplers and resource collectors: input, output or plumbing, or easier members of the same kind.
