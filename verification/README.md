# Verified models of the platform's protocols, bounded stores, gates and parsers

This project models the parts of the platform whose correctness depends on concurrency, bounded
state or parsing, and proves what they promise for every input, every run and every interleaving.
`dafny verify dfyconfig.toml` checks all of it.

## How the models are built

**Asynchronous code.** JavaScript runs the code between two `await`s without interruption. Each
such segment is a `Step`; `Apply` gives the state after it (a step that cannot happen now changes
nothing), and `Exec` runs a sequence of steps. A sequence of steps of any number of callers is an
interleaving, so a theorem about `Exec(..., steps)` for all `steps` is a theorem about every run.
Failures, crashes and the answers of the outside world are part of the steps. The objects of the
source are classes whose methods change the same fields, and each method is proved to take exactly
the step of its segment. Where one asynchronous function has several segments, a method runs it
against a shared object on which everybody else's steps (`others`, any sequence) happen at each
`await`.

**Sequential code.** Loops are methods with invariants, proved equal to a function or to a
declarative description of the result; the theorems are about that function or description.

**Numbers and values.** Times are whole milliseconds and given as parameters. Quotas, ratios and
jitter are exact (`int` or `real`). JSON values are the datatype `Json.Json`; its finite numbers are
the whole numbers and the odd multiples of 1/2, 1/4, 1/8, ..., among which every finite double is. The text
form is any codec that prints and parses back every printable value (`Json.Lawful`); `JsonCodec.dfy`
writes one and proves that it does.

| file | models |
|---|---|
| `Outbox.dfy`, `Inbox.dfy` | `OutboxPublisher.flushOnce`, `consumeInboxOnce`, and both joined end to end |
| `CacheAside.dfy` | `cacheAside`, its `inFlight` map and `CacheCircuitBreaker` |
| `Bulkhead.dfy`, `CircuitBreaker.dfy` | the semaphore and the breaker of `resilience.ts` |
| `MemoryCache.dfy` | the LRU cache with expiry |
| `FixedWindow.dfy`, `MemoryLimiter.dfy`, `RedisLimiter.dfy` | one key's quota, and the two limiters against it |
| `Zip.dfy`, `Upload.dfy` | the ZIP directory scan, and the approval pipeline for uploads |
| `Idempotency.dfy`, `Worker.dfy` | idempotent creation, and the worker's retry chain |
| `Merge.dfy`, `Validation.dfy` | layered configuration, and the gate on desired states |
| `ChangeMachine.dfy`, `ControlPlane.dfy` | change requests, and the store and handlers of the control plane |
| `Search.dfy` | cursor pagination |
| `Prelude.dfy`, `Json.dfy`, `JsonCodec.dfy` | shared datatypes, division facts, JSON values and a codec for them |

## What the proofs found

Each of these is a theorem; the code is modelled as it is.

- `removeExpired` stops evicting when the oldest key is the empty string (`!oldestKey`), so the map
  of the memory limiter then grows past `maxTrackedKeys` + 1. `MemoryLimiting.TrackedKeysExactly` is the
  exact condition on a run, `MemoryLimiting.EmptyKeyEscapesBound` an example.
- The memory limiter may evict a key whose window is not over; the next request for the key is then
  taken for its first (`MemoryLimiting.EvictionForgets`). For a whole quota the two limiters answer a run
  alike exactly when that happens to no request in it (`RedisLimiting.LimitersAgreeExactly`). Over the runs
  without eviction they agree exactly when the quota is a whole number: for a fractional one the
  memory limiter rounds up and the Redis limiter down (`RedisLimiting.LimitersAgree`).
- `Bulkhead` lowers `active` before the woken waiter raises it again. A new caller that arrives in
  between overruns the limit (`Bulkhead.GapOverrun`). A schedule keeps within the limit, however the
  woken callers resume, exactly when no arrival falls into such a gap (`Bulkhead.CapacityExactly`).
- The key of `inbox_events` is the event id alone, not the pair with the consumer name, so one
  consumer's commit hides the event from every other consumer (`Inbox.OneConsumerPerEvent`). The
  handler itself may run twice; only its committed consumption is unique.
- The `attempts` column never exceeds 1: a failed attempt is rolled back with everything else
  (`Outbox.NothingLost`).
- `flushOnce` may throw with its whole batch published: when the COMMIT takes effect and its answer is
  lost, the ROLLBACK of the error path undoes nothing (`Outbox.FlushOnce`).
- Merging layers is associative exactly when no path is revived: present in the first, hidden by
  a leaf of the second that the third replaces by an object silent about it
  (`Merging.MergeAssociative`).
- A cursor whose offset is not a safe integer restarts at the first page (`Search.CursorRoundTrip`).
- docs/architecture/06-dependency-policy-validation.md says that `validatePlatformState` combines
  validation, dependency resolution and locked policy. The code never calls
  `resolveDependencyIssues`; its `dependencyIssues` are always empty. Nothing slips through all the
  same: a state that the validator accepts breaks no dependency rule
  (`Validation.ResolveDependencyIssues`, `Validation.CheckersAgree`).
- The control plane's transition handler reads, decides and writes without a version check. Two
  transitions of one version can both be saved and the second erases the first, a `FAILED` included
  (`ControlPlane.SecondSaveWins`); no save is lost exactly when each was made from the version then
  stored (`ControlPlane.NoUpdateLostInRun`). What authorises a write of the desired state is therefore
  a version saved before, perhaps no longer the stored one. Approval by somebody else, directly after
  `WAITING_APPROVAL`, holds of every version all the same.

## Model

| member | source | states |
|---|---|---|
| `Outbox.Conservation` | adapters/postgres/src/outbox.ts:3 | In every run of concurrent publishers with failures and crashes, no row is held by two open flushes, and all the copies of an event on the bus are those of rolled-back flushes plus those of open flushes (at most one) plus one if `published_at` is set |
| `Outbox.NothingLost` | adapters/postgres/src/outbox.ts:2-3 | A committed event marked published is on the bus; one held by a flush is eligible again once that flush rolls back or crashes; one that nobody holds is published by any flushes, all answered, that together may take as many rows as are eligible; `attempts` is 0 or 1 |
| `Outbox.FlushTakesItsBatch` | adapters/postgres/src/outbox.ts:3 | A flush of which everything is answered takes min(batch size, eligible) rows, sends and publishes exactly those and leaves exactly the others eligible |
| `Outbox.FlushTakesTheOldest` | adapters/postgres/src/outbox.ts:3 | It sends its rows in the order of their creation, and no row it leaves eligible was created before one it takes |
| `Outbox.BacklogDrains` | adapters/postgres/src/outbox.ts:3 | From every reached state ceil(eligible / batch size) such flushes exist, leave nothing eligible and have sent every event that no other flush holds |
| `Outbox.OnlyCommittedEventsPublished` | adapters/postgres/src/outbox.ts:2-3 | Nothing but an event whose business transaction committed reaches the bus |
| `Outbox.PublicationIsFinal` | adapters/postgres/src/outbox.ts:3 | What is on the bus stays there, and a published row stays published |
| `Outbox.FlushOnce` | adapters/postgres/src/outbox.ts:3 | Under arbitrary interference one flush marks every row of its batch published and returns their number exactly when every publish, update and the commit are answered; otherwise it throws, with all of them rolled back, or with all of them published if only the answer to the COMMIT was lost; undisturbed and answered, it is the whole flush of the progress results |
| `Outbox.PublishRow` | adapters/postgres/src/outbox.ts:3 | One turn of the loop publishes a row before marking it; any error rolls back |
| `Inbox.ConsumedOnce` | adapters/postgres/src/outbox.ts:4 | At most one call per event id returns true; its handler finished and its row is the committed one; a false means that another call's handler finished and its row was committed |
| `Inbox.OneConsumerPerEvent` | adapters/postgres/migrations/001_core.sql:17 | Once an event is committed no later call runs its handler for it, whatever its consumer name: the key is the event alone |
| `Inbox.HandlerMayRunTwice` | adapters/postgres/src/outbox.ts:4 | A run exists in which two calls both run the handler of one event |
| `Inbox.ConsumeInboxOnce` | adapters/postgres/src/outbox.ts:4 | Under arbitrary interference a call returns false exactly when it finds the event committed and its commit succeeds, and true exactly when its handler and its answered commit succeed and, as it inserts, the event is not committed and no other call holds its key; the committed row is then its own; undisturbed, both are decided by the state before the call |
| `Delivery.AtLeastOnceSentAtMostOnceConsumed` | adapters/postgres/src/outbox.ts:2-4 | From business transaction to consumer, in every run: consumed by at most one call, consumed only if committed, and waiting in the outbox until put on the bus |
| `CacheAside.SingleFlight` | packages/platform-sdk/src/cache-aside.ts:4-12 | At most one load per key is running in any interleaving, and a key is in `inFlight` exactly from registration until its originator's clean-up |
| `CacheAside.Transparency` | packages/platform-sdk/src/cache-aside.ts:5-12 | Every returned value came from a load of that key, and all calls of one flight share its outcome, with cache errors, open breakers and throwing telemetry |
| `CacheAside.HitIsReturned` | packages/platform-sdk/src/cache-aside.ts:6-7 | A call that starts at or after `openUntil`, is answered by the cache and can report the hit returns that value and never loads, under any interference |
| `CacheAside.OpenBreakerBypasses` | packages/platform-sdk/src/cache-aside.ts:6-8 | A call that starts before `openUntil` never asks the cache, whatever happens afterwards |
| `CacheAside.MissJoinsOrLoads` | packages/platform-sdk/src/cache-aside.ts:7-11 | After a miss, an error or a bypass a call joins the flight of its key if there is one, and otherwise registers its own and loads; a failing cache or report is an error first |
| `CacheAside.LoadedIsReturned` | packages/platform-sdk/src/cache-aside.ts:10-11 | The originator of a load that succeeds returns what was loaded, under any interference, having offered it to the cache if its breaker passed |
| `CacheAside.SettledFlightAnswers` | packages/platform-sdk/src/cache-aside.ts:9-11 | Whoever awaits a settled flight gets its value, or throws if it failed |
| `CacheAside.NobodyWaitsInVain` | packages/platform-sdk/src/cache-aside.ts:9-11 | The flight a call waits for has settled or has a pending load, store or report that can complete |
| `CacheAside.EveryCallEnds` | packages/platform-sdk/src/cache-aside.ts:5-12 | Once no new call comes, every schedule has a bounded number of steps besides the passing of time, and when none is left every call has returned or thrown and `inFlight` is empty |
| `CacheAside.CleanUpFindsItsOwn` | packages/platform-sdk/src/cache-aside.ts:11 | The identity test in the `finally` block always holds |
| `CacheAside.OpenOnlyAtThreshold` | packages/platform-sdk/src/cache-aside.ts:3-10 | In every interleaving a breaker counts the failures of the settled cache calls since the last success among them, and is open for its reset time from the last of them exactly when they have reached the threshold |
| `CacheAside.Flights.LookUp` | packages/platform-sdk/src/cache-aside.ts:9-11 | Joins the registered flight or registers its own, as the protocol's step |
| `CacheAside.Flights.Finally` | packages/platform-sdk/src/cache-aside.ts:11 | Removes the flight of its own call and no other, as the protocol's step |
| `Bulkhead.NoLostWakeup` | packages/platform-sdk/src/resilience.ts:27-31 | In every schedule a nonempty queue means that the slots in use and handed over reach the limit, and callers leave the queue in the order in which they joined |
| `Bulkhead.EveryScheduleDrains` | packages/platform-sdk/src/resilience.ts:30 | Once arrivals stop every schedule is finite, and one that cannot be extended has served every caller |
| `Bulkhead.HandOverKeepsCapacity` | packages/platform-sdk/src/resilience.ts:30 | A segment keeps the slots in use and handed over within the limit exactly when it is not an arrival between a wake-up and its resumption |
| `Bulkhead.CapacityExactly` | packages/platform-sdk/src/resilience.ts:27-31 | After every prefix of a schedule, and however woken callers then resume, `active` stays within the limit exactly when no arrival of the schedule falls into such a gap |
| `Bulkhead.CapacityUnderHandOver` | packages/platform-sdk/src/resilience.ts:30 | `active` never exceeds the limit in schedules that hand over |
| `Bulkhead.GapOverrun` | packages/platform-sdk/src/resilience.ts:30 | With limit 1 two callers can be inside when one arrives in the gap |
| `Bulkhead.Bulkhead.Enter` | packages/platform-sdk/src/resilience.ts:30 | Enters below the limit and queues otherwise, as the schedule's arrival step |
| `Bulkhead.Bulkhead.Leave` | packages/platform-sdk/src/resilience.ts:30 | Gives the slot back and wakes the oldest waiter, as the schedule's finishing step |
| `CircuitBreaking.ProbeBound` | packages/platform-sdk/src/resilience.ts:19-26 | For calls one after another that all fail, those reaching the dependency up to t ms after the first opening number at most the threshold (at least 1) plus t / resetMs; without an opening there were fewer calls than that threshold |
| `CircuitBreaking.OverlappingCalls` | packages/platform-sdk/src/resilience.ts:24 | However calls overlap, `failures` counts the failures since the last success, and the breaker is open exactly when that count has reached the threshold, since the last of them |
| `CircuitBreaking.RefusedExactly` | packages/platform-sdk/src/resilience.ts:23-24 | A call is refused exactly while the failures since the last success reach the threshold and the reset time since the last of them is not over |
| `CircuitBreaking.RunFailing` | packages/platform-sdk/src/resilience.ts:22-25 | A caller looping on the breaker reaches the dependency exactly as often as the bound counts |
| `MemoryCaching.HitIsLastUnexpiredSet` | packages/platform-sdk/src/fallbacks.ts:6-12 | The size stays within `maxEntries`; a hit is the value of the last `set` of the key, not deleted and not expired |
| `MemoryCaching.GetHits` | packages/platform-sdk/src/fallbacks.ts:9-11 | A `get` returns the value last set whenever that has been neither deleted nor replaced, has not lapsed (1000 ms for each second) at any `get` of it, and fewer other keys than `maxEntries` were used since each of its uses |
| `MemoryCaching.GetMissesLapsed` | packages/platform-sdk/src/fallbacks.ts:9-10 | It misses from the millisecond at which the value has lapsed |
| `MemoryCaching.EvictsLeastRecentlyUsed` | packages/platform-sdk/src/fallbacks.ts:9-10 | A `set` drops another key's entry only if the cache is full of entries used later than it |
| `MemoryCaching.Inclusion` | packages/platform-sdk/src/fallbacks.ts:6-12 | For the same operations and clock, a smaller cache is an order-preserving subsequence of a larger one, so each of its hits is the same hit there |
| `MemoryCaching.MemoryCacheAdapter.Get` | packages/platform-sdk/src/fallbacks.ts:9 | Returns the live value and moves its entry to the end, or removes an expired one, as the specified operation |
| `MemoryCaching.MemoryCacheAdapter.Set` | packages/platform-sdk/src/fallbacks.ts:10 | Puts the entry last and evicts from the front in a loop until within the limit, as the specified operation |
| `FixedWindow.RateBound` | apps/api/src/rate-limit.ts:44-61 | The requests let through for a key in any interval of length L number at most ceil(max) * (ceil(L / windowMs) + 1) |
| `FixedWindow.DecidedExactly` | apps/api/src/rate-limit.ts:44-61 | A request is let through exactly when the window opened by the key's first request in it is over or has seen fewer requests than the quota rounded up; remaining and reset time follow from these |
| `MemoryLimiting.KeyIsolatedExactly` | apps/api/src/rate-limit.ts:36-89 | In every run, with any keys, the limiter answers all requests for a key as the key's own fixed window would exactly when none of them finds its unexpired window evicted |
| `MemoryLimiting.KeysAreIsolated` | apps/api/src/rate-limit.ts:36-89 | In every run all decisions are those of the keys' own windows exactly when no request finds its unexpired window evicted |
| `MemoryLimiting.NoEvictionRemembers` | apps/api/src/rate-limit.ts:72-89 | That is so in every run in time order whose clean-ups drop only expired windows, however many keys come and go |
| `MemoryLimiting.FewKeysEvictNothing` | apps/api/src/rate-limit.ts:40-89 | Nothing is evicted while no more keys have been used than are tracked |
| `MemoryLimiting.EvictionForgets` | apps/api/src/rate-limit.ts:82-88 | With one tracked key, a key's second request within its window finds it evicted |
| `MemoryLimiting.MemoryRateBound` | apps/api/src/rate-limit.ts:36-89 | The rate bound holds of the limiter itself for every key that no request finds evicted, whatever happens to the others |
| `MemoryLimiting.EvictionBound` | apps/api/src/rate-limit.ts:72-89 | Eviction reaches its bound exactly when no key that has to go is the empty one |
| `MemoryLimiting.SweepsExactly` | apps/api/src/rate-limit.ts:38-77 | Every thousandth request, and every one that finds the tracked number of keys, drops all expired windows; any other leaves the map alone |
| `MemoryLimiting.EscapesExactly` | apps/api/src/rate-limit.ts:36-89 | A request takes the map past `maxTrackedKeys` + 1 exactly when that many live keys are there, the oldest of them empty, and its own not among them |
| `MemoryLimiting.TrackedKeysExactly` | apps/api/src/rate-limit.ts:36-89 | The map stays within `maxTrackedKeys` + 1 throughout a run exactly when no request of the run does so |
| `MemoryLimiting.TrackedKeysBound` | apps/api/src/rate-limit.ts:36-89 | In every run without the empty key at most `maxTrackedKeys` + 1 keys are kept |
| `MemoryLimiting.EmptyKeyEscapesBound` | apps/api/src/rate-limit.ts:82-88 | With the empty key a limiter that may track one key keeps three |
| `MemoryLimiting.MemoryFixedWindowLimiter.Consume` | apps/api/src/rate-limit.ts:36-62 | Decision and new windows are those of the specified limiter |
| `MemoryLimiting.MemoryFixedWindowLimiter.Clear` | apps/api/src/rate-limit.ts:64-70 | Forgets the named key and no other, or all keys when none or the empty one is named |
| `MemoryLimiting.MemoryFixedWindowLimiter.RemoveExpired` | apps/api/src/rate-limit.ts:72-89 | Removes exactly the expired windows and then the oldest, stopping at an empty key |
| `RedisLimiting.RedisAsSpecified` | apps/api/src/rate-limit.ts:96-138 | For a whole quota every decision of the Redis limiter is that of the fixed window of its key, for any number of keys |
| `RedisLimiting.LimitersAgreeExactly` | apps/api/src/rate-limit.ts:36-138 | For a whole quota both limiters give the same decisions (allowed, remaining, reset time) on a run exactly when no request of it finds its unexpired window evicted |
| `RedisLimiting.LimitersAgree` | apps/api/src/rate-limit.ts:36-138 | They give the same decisions on every arrival sequence without eviction exactly when the quota is whole |
| `RedisLimiting.FractionalQuotaDisagrees` | apps/api/src/rate-limit.ts:51-133 | For every fractional quota a request sequence without eviction exists on which they differ |
| `RedisLimiting.RedisKeyInjective` | apps/api/src/rate-limit.ts:121 | Different keys have different Redis keys |
| `RedisLimiting.RedisFixedWindowLimiter.Consume` | apps/api/src/rate-limit.ts:120-138 | The script's commands and the client's arithmetic give the specified decision and counter |
| `Zip.InspectZipArchive` | services/document/src/upload-security.ts:25-41 | The scan terminates on every array, reads only inside it, and returns what the parse of the array gives |
| `Zip.ParsedPrintsBack` | services/document/src/upload-security.ts:27-38 | Every array the scan gets through is exactly the skipped bytes and counted records, in order |
| `Zip.EncodedAt` | services/document/src/upload-security.ts:21-34 | A record encoded as in section 4.3.12 of the PKWARE APPNOTE is read back with its sizes and its length |
| `Zip.NoStraddle` | services/document/src/upload-security.ts:28-37 | No signature straddles the boundary between free bytes and a record |
| `Zip.InspectsEncodedDirectory` | services/document/src/upload-security.ts:21-41 | For any nonempty encoded directory between any bytes free of the signature: the exact count, both sums and the largest ratio |
| `Zip.InspectsEmptyArchive` | services/document/src/upload-security.ts:39 | An array without records passes exactly when it ends in an end-of-directory record without comment (section 4.3.16) |
| `Zip.EmptyArchiveExactly` | services/document/src/upload-security.ts:39 | An empty archive has the bytes 50 4b 05 06 at 22 from its end |
| `Zip.RefusesExactly` | services/document/src/upload-security.ts:30-32 | A record with a size of ff ff ff ff is refused as ZIP64, a header cut off as malformed |
| `Upload.ApprovedBytesWereCleared` | services/document/src/upload-security.ts:47-57 | Under every interleaving, failure and overwrite of quarantine, an object under an approved key is exactly the bytes that a call for the same tenant, workspace and upload measured, checked and found clean |
| `Upload.EffectsInOrder` | services/document/src/upload-security.ts:56 | A call deletes from quarantine only after its approved put, and enqueues its job only after both |
| `Upload.KeysAreDistinct` | services/document/src/upload-security.ts:48-56 | Keys of different areas, tenants, workspaces or uploads differ |
| `Upload.ArchiveAcceptedExactly` | services/document/src/upload-security.ts:49-55 | ZIP and DOCX bytes pass exactly when size and magic fit, the scan gets through, there are records or it is an empty archive, and the records number, add up and each expand no more than the policy allows, with the sum the descriptor declares |
| `Upload.DefaultLimits` | services/document/src/upload-security.ts:51 | Without a policy the limits are 10 000 entries, and the lesser of 250 MiB and the largest upload times the ratio |
| `Upload.DescriptorAcceptedExactly` | services/document/src/upload-security.ts:45 | A descriptor passes exactly when its segments are safe, its size is positive and allowed, and extension and type are listed |
| `Upload.MagicExactly` | services/document/src/upload-security.ts:10-20 | The first bytes asked of each known type, and nothing of any other |
| `Upload.ExtensionIs` | services/document/src/upload-security.ts:18 | The extension is the last dot and what follows, in lower case, or empty |
| `Upload.KeysAre` | services/document/src/upload-security.ts:48-56 | The keys as written, with and without a workspace |
| `Upload.ApprovedObjectsStay` | services/document/src/upload-security.ts:56 | Nothing under an approved key ever goes |
| `Zip.TotalsOfRecords` | services/document/src/upload-security.ts:26-40 | The totals of any scanned array are the number of its records, their two sums, and a ratio that keeps a limit exactly when every record does |
| `Upload.InspectAndApprove` | services/document/src/upload-security.ts:47-57 | One call under arbitrary interference approves exactly when descriptor and fetched bytes pass every check and authorization, scanner, content policy, put, deletion and enqueue all succeed; it has then cleared those bytes and there is an object under its key; undisturbed, the object moves from quarantine to the approved key and nothing else changes |
| `Idempotency.DecodeInvertsEncode` | apps/api/src/idempotency.ts:11-15 | Decoding inverts encoding exactly for finite statuses; any other record is corrupt |
| `JsonCodec.LawfulCodecExists` | apps/api/src/idempotency.ts:10-14 | What is asked of printing and parsing can be had for all JSON values at once: a codec is given that returns every one it printed |
| `Idempotency.OneWinnerPerEpoch` | apps/api/src/idempotency.ts:17-35 | However callers look, build and commit, all responses of one epoch of a key are its single winner's, epochs of a key do not overlap, and no stored record is corrupt |
| `Idempotency.SameEpochSameResponse` | apps/api/src/server.ts:234-253 | Two responses for a key at times within one epoch are equal |
| `Idempotency.WinnerServesItsTime` | apps/api/src/idempotency.ts:17-35 | After a commit wins at t with n seconds to live, whoever looks the key up, commits or reads it before t + 1000 n is answered with the winner's response, however callers interleave |
| `Idempotency.NextCommitWins` | apps/api/src/idempotency.ts:20-23 | From t + 1000 n on the key is open: a look finds nothing and the next commit wins |
| `Idempotency.FirstCommitWins` | apps/api/src/idempotency.ts:20-23 | Until its first commit a key is open |
| `Idempotency.ApiIdempotencyStore.CommitOrRead` | apps/api/src/idempotency.ts:31-35 | Undisturbed, the candidate wins a free key and the stored response is returned and left in place otherwise |
| `Idempotency.MemoryIdempotencyPort.PutIfAbsent` | apps/api/src/idempotency.ts:20-23 | Stores exactly when no unexpired entry exists |
| `Worker.ChainSettlesOnce` | apps/workers/src/runner.ts:10-24 | Redelivery ends within max(1, max_attempts - attempt) runs, in one completion or one dead letter after nothing but retries; it is a dead letter exactly when every run failed |
| `Worker.CompletesExactly` | apps/workers/src/runner.ts:15-22 | A run completes exactly when the job is recorded as done, or its handler succeeds and, with a port, look-up and record do; one that fails is retried exactly while attempts are left |
| `Worker.DelayWithinJitter` | apps/workers/src/runner.ts:27 | Jitter adds at most a fifth to the capped exponential delay |
| `Worker.BackoffDoubles` | apps/workers/src/runner.ts:27 | The first retry waits for the base, each later one for twice the one before, and none for longer than the cap |
| `Worker.JitterAttained` | apps/workers/src/runner.ts:27 | Every jitter below a fifth of the delay, none included, is drawn by some number |
| `Worker.TotalDelayBound` | apps/workers/src/runner.ts:27 | n retries wait at most 6/5 of min(n * cap, base * 2^max(0, attempt) * (2^n - 1)) together |
| `Worker.ChainWaits` | apps/workers/src/runner.ts:20-27 | The retries of a chain keep that bound with the default delays |
| `Worker.ActiveIsUnsettled` | apps/workers/src/runner.ts:8-23 | In every interleaving `active` is the number of unsettled runs and at most the concurrency, and a job is accepted exactly while it is below the concurrency and no stop was requested |
| `Worker.StopDrains` | apps/workers/src/runner.ts:8-11 | After a stop request nothing is accepted, and the active jobs only settle |
| `Worker.WorkerRunner.Run` | apps/workers/src/runner.ts:10-24 | One delivery gives the specified result and the slot back, or is refused |
| `Worker.WorkerRunner.Redeliver` | apps/workers/src/runner.ts:19-22 | A redelivering queue obtains exactly the chain |
| `Merging.MergeLaw` | packages/config-engine/src/merge.ts:3-15 | At every path the merge has what the patch has if the patch settles the path (a leaf there or at a prefix, or an object there), and what the base has otherwise |
| `Merging.SameNodes` | packages/config-engine/src/merge.ts:3-15 | Trees with the same node at every path are equal, so the merge law determines the merge |
| `Merging.MergeIdempotent` | packages/config-engine/src/merge.ts:3-15 | Applying a layer twice is applying it once |
| `Merging.MergeAssociative` | packages/config-engine/src/merge.ts:3-15 | Merging is associative exactly when no path is revived |
| `Merging.AgreeingLayersAssociate` | packages/config-engine/src/merge.ts:3-15 | It is associative for layers of agreeing shape |
| `Merging.DeepMerge` | packages/config-engine/src/merge.ts:3-15 | The loop over the patch's entries computes the merge, in any order of the entries |
| `Merging.ResolveDesiredState` | packages/config-engine/src/merge.ts:17-25 | The result is the merge of the defaults and the present layers, in their order |
| `Merging.LastLayerWins` | packages/config-engine/src/merge.ts:17-25 | Every path of the result is decided by the last layer that settles it |
| `Merging.Precedence` | packages/config-engine/src/merge.ts:17-25 | At every path workspace overrides come before tenant overrides, then the desired state, secret references, the environment and the defaults |
| `Validation.ValidateDesiredState` | packages/config-engine/src/validate.ts:26-51 | Every violated rule is reported, once, and nothing else, for any JSON value or none |
| `Validation.AcceptedExactly` | packages/config-engine/src/validate.ts:24-51 | The validator reports nothing exactly for states of this description: boolean flags, finite non-negative limits, every capability of a supported provider, enabled if required, with a supported fallback whenever it is enabled and can have one or gives one, the database and object storage on, logging on, RAG and Redis users provided for |
| `Validation.ChoiceAcceptedExactly` | packages/config-engine/src/validate.ts:2-23 | With everything on, any choice of providers and fallbacks is accepted exactly when each is in the listed catalogue and Redis is the cache wherever queue, lock or idempotency rely on it |
| `Validation.ValidLimitExactly` | packages/config-engine/src/validate.ts:38 | A limit is valid exactly if it is a finite number and not negative |
| `Json.FalsyExactly` | packages/config-engine/src/validate.ts:27-49 | Exactly nothing, null, false, zero and the empty string are falsy |
| `Validation.ResolveDependencyIssues` | packages/dependency-engine/src/index.ts:30-53 | Throws exactly when a rule reads a property of nothing, otherwise finds exactly the unmet requirements of selected rules; for a state that the validator accepts it returns no issue |
| `Validation.AssertLockedState` | packages/policy-engine/src/index.ts:9 | Passes outside production, and in production exactly when both locked capabilities can be read and are on; names those that are off |
| `Validation.CheckersAgree` | packages/config-engine/src/validate.ts:41-49 | For a state whose shapes, providers and fallbacks are in order, with object storage and every required capability on, the validator reports nothing exactly when no rule of the dependency engine is broken and the production policy holds |
| `Validation.EngineExactly` | packages/dependency-engine/src/index.ts:18-53 | For such a state no rule of the engine is broken exactly when Redis is there for its three dependents, the database for its five, and all parts of RAG for RAG |
| `Validation.CleanMeetsDependencies` | packages/dependency-engine/src/index.ts:18-53 | A state with nothing to report breaks no dependency rule and passes the policy of every environment |
| `Validation.ValidatePlatformState` | packages/config-engine/src/validate-all.ts:5-9 | Valid exactly when the validator reports nothing, in every environment alike; the issues are the validator's, and the locked policy once where it fails |
| `Validation.LocalStateIsClean` | packages/config-engine/src/validate.ts:26-51 | The validator accepts some states, with every capability and RAG on |
| `ChangeMachine.TrailIsBounded` | apps/platform-control-api/src/change-machine.ts:6-8 | A trail along the forward relation has at most 12 entries and visits no state twice |
| `ChangeMachine.LongestTrail` | apps/platform-control-api/src/change-machine.ts:6-8 | A trail of 12 exists |
| `ChangeMachine.EdgesExactly` | apps/platform-control-api/src/change-machine.ts:6-8 | The edges are exactly those to the next stage, the two shortcuts, the failures from every stage between first and last, and the two of the rollback |
| `ChangeMachine.MutationWasApproved` | apps/platform-control-api/src/server.ts:76-83 | A trail that ends in a state allowed to write passed through APPROVED, from WAITING_APPROVAL or IMPACT_ANALYSIS |
| `ControlPlane.StoredChangesAreApproved` | apps/platform-control-api/src/server.ts:404-474 | In every interleaving every stored change has a trail of the forward relation from DRAFT to its state, at most 12 long; in production one in APPROVED through COMPLETED was approved directly after WAITING_APPROVAL by its recorded approver, who is not its requestor; none destroys infrastructure or, in production, disables or stops a locked capability |
| `ControlPlane.TransitionIsSound` | apps/platform-control-api/src/server.ts:433-470 | A transition of a sound version, if allowed, is sound and one entry longer |
| `ControlPlane.CreatedIsSound` | apps/platform-control-api/src/server.ts:368-410 | A creation that passes its guards gives a sound change |
| `ControlPlane.CreationAcceptedExactly` | apps/platform-control-api/src/server.ts:368-410 | Exactly which creations are accepted, and the draft they give |
| `ControlPlane.TransitionAcceptedExactly` | apps/platform-control-api/src/server.ts:420-470 | A transition is accepted exactly when the change exists, the target is forward and, in production, an approval comes after the wait for it and from somebody else; what it changes, and nothing else |
| `ControlPlane.AcceptedTransitionIsStored` | apps/platform-control-api/src/server.ts:416-474 | An undisturbed request for an accepted transition leaves the next version stored |
| `ControlPlane.ApprovedChangeIsApplied` | apps/platform-control-api/src/server.ts:231-285 | In production an accepted state is written by an undisturbed request that names a stored change with a named approver in any of the six states; the version goes up by one |
| `ControlPlane.WritesAreApproved` | apps/platform-control-api/src/server.ts:231-285 | In every production run each desired state written was accepted by the validator, and written under a version of a production change saved before, allowed to write and approved directly after WAITING_APPROVAL by a named operator other than its requestor |
| `ControlPlane.DesiredStateIsSafe` | apps/platform-control-api/src/server.ts:234-271 | In every run the desired state is the initial one or breaks no dependency rule and no lock |
| `ControlPlane.AuditShowsAuthority` | apps/platform-control-api/src/store.ts:157-201 | In production the audit log shows, before each update of the desired state, the save of a change allowed to write, and the updates number the versions one by one |
| `ControlPlane.NoUpdateLostInRun` | apps/platform-control-api/src/server.ts:422-472 | A stored trail has at most as many entries as there were saves of the change, and as many exactly when every save was made from the version then stored |
| `ControlPlane.SecondSaveWins` | apps/platform-control-api/src/server.ts:422-472 | Whenever two transitions of one version are allowed, a schedule saves both and keeps only the second |
| `ControlPlane.CreateChange` | apps/platform-control-api/src/server.ts:357-414 | Refuses with the first failing guard and saves nothing, or has saved the new change when it replies |
| `ControlPlane.TransitionChange` | apps/platform-control-api/src/server.ts:416-474 | Under arbitrary interference decides on one version stored while the request was served, and has saved the next version when it replies |
| `ControlPlane.PutDesiredState` | apps/platform-control-api/src/server.ts:231-285 | Under arbitrary interference writes exactly when the validator accepts the body and, in production, a version of the named change stored while the request was served is a production change with a named approver in APPROVED, PROVISIONING, DEPLOYING, VERIFYING, STABILIZING or COMPLETED |
| `ControlPlane.InMemoryControlStore.SetDesiredState` | apps/platform-control-api/src/store.ts:157-165 | State, version, changes and audit remain those of the history, longer by this write |
| `ControlPlane.InMemoryControlStore.SaveChange` | apps/platform-control-api/src/store.ts:193-201 | State, version, changes and audit remain those of the history, longer by this save |
| `ControlPlane.InMemoryControlStore.GetChange` | apps/platform-control-api/src/store.ts:203-206 | Returns the last saved version under the id |
| `Search.CursorRoundTrip` | adapters/postgres/src/search.ts:5-20 | A cursor decodes to its offset exactly for safe integers that are not negative, and to the start otherwise |
| `Search.LimitIs` | adapters/postgres/src/search.ts:11 | 20 rows without a limit, and a given limit clamped to 1 through 100 |
| `Search.SearchAt` | adapters/postgres/src/search.ts:9-21 | A page at an offset holds the next rows, at most the clamped limit, and a cursor after them exactly when there are more |
| `Search.PagesAreComplete` | adapters/postgres/src/search.ts:9-21 | For any row list and integer limit, following `nextCursor` takes exactly max(1, ceil(n / limit)) pages whose concatenation is every row once, in order |

## Left out

- Network and cloud clients (buses, queues, object storage, scanners, models): steps that succeed, fail or do half, with any answer.
- PostgreSQL and Redis internals: row locks with SKIP LOCKED, atomic commits, the primary key, and the atomicity of a Redis script and of one SQL statement are taken as given.
- Redis time: a key is gone once its window has elapsed, and client and server share one clock; the boundary millisecond of expiry is not modelled.
- `withRetry`, `withTimeout`, `GracefulShutdown`, `readiness` and the DLQ helpers of `resilience.ts`: they would add only easy members.
- Bulkhead limits are whole numbers.
- `OutboxPublisher.run`: only its calls of `flushOnce` and the `stopping` flag surround the protocol.
- Null values in the cache: a cached value is an integer standing for any value but null, which `cacheAside` takes for a miss.
- Job timeouts and `AbortSignal`, hooks that throw, and the polling of `gracefulShutdown` in the worker; the idempotency hook is an outcome of the run's script.
- `Math.random()`: any real draw from 0 up to but not including 1, in place of its doubles.
- Rounding and the limited range of doubles in ratios, sums and JSON numbers, negative zero, and NaN (which JSON cannot express).
- `JSON.stringify`, `JSON.parse`, UTF-8 and base64url: one codec that parses back what it prints; strings are sequences of characters, and lower-casing is that of ASCII letters.
- The object key `__proto__`, inherited properties, and layers of `deepMerge` that are not objects (the layer type excludes them); `applyUserPermissionEvaluation`.
- Issue messages, and paths as joined text: a path is the list of its segments; the order of issues is not modelled.
- `dependencyGraph`, `evaluatePlatformPolicy` and the name normalisation of locked capabilities: the test for a locked capability is a parameter of the control plane.
- Postgres and Redis idempotency adapters: the epochs are those of the in-memory port; the Postgres one never re-accepts an expired key.
- `PostgresControlStore`: its upserts have the effects of the in-memory store's methods; there the audit row is a separate query after the write, here it is written with it. Production uses it, so reads, decisions and writes of a handler are separate steps.
- Control pages, actual state, `listChanges` and `impactReport`: not part of the approval protocol. A target state outside the thirteen names is refused like any other transition that is not forward.
- Operator authentication and `requireControlWrite`: the operator's id is a parameter.
- The SQL of `search` beyond LIMIT and OFFSET: the matching rows are a fixed ordered list.
- Section 19 services, workflow planners, tenant, reporting, notification, integration and identity services, cryptography, infrastructure and user interface.
