# freshcache: a verified model

freshcache is a Python caching library: an in-memory LRU cache with hard and soft TTLs, a
single-flight layer that lets one caller regenerate a missing or stale entry while others wait
or are served the stale value, a `@cached` decorator, a Redis wire format, and typed views of a
shared cache. This project models its concurrent core in Dafny and proves what it promises, for
every input and every interleaving.

`dafny verify dfyconfig.toml` checks everything.

## How the model is built

* **State the source updates in place is a class.** `Memory.MemoryCache`,
  `Revalidation.RevalidationGuard` (the `_backoff` and `_regenerating` fields both single-flight
  classes have), `SyncFlight.SingleFlight`, `AsyncFlight.AsyncSingleFlight` and
  `TypedView.TypedView` have the source's fields; each method is one locked block (for the async
  class, one stretch between awaits), and its `ensures` equates the new state with a function of
  the old one.
* **Concurrency is a labelled machine over those same functions.** `Revalidation` (background
  jobs), `Front` (lookup, staleness, policy), `SyncMachine` and `AsyncMachine`, and these two over a
  `MemoryCache` (`SyncMemory`, `AsyncMemory`), take one step per locked block, clock reading,
  lookup, factory call, write, submit or return. A run is any sequence of enabled labels (`Runs`),
  for any number of calls on any keys; what lookups find and factories do is part of the label, so
  the backend and the factories are adversaries.
* **History variables only remember** who created an event, whose outcome is stored where, who
  collected it, who waited for whom. `SyncMachine.HistoryOnlyRemembers` and its async twin prove
  that no step's being enabled, and nothing else a step does, depends on them.
* Where one Python thread could not be interrupted (two awaits that do not suspend, say) the
  machines still allow it, so they have every run of the code and perhaps more.
* `SyncSteps` builds particular runs a few steps at a time: the witnesses that a bound is attained or a
  promise broken, for any calls that meet a condition.
* What both single-flight classes share is proved once, over any machine built on `Front`: which way
  a call goes (`FrontRuns`), who gets a background job (`ReserveRuns`), what jobs write and record
  (`JobRuns`, `BackoffRuns`). `Retention` does the same for machines over a `MemoryCache`.
* `MemoryLog` judges `MemoryCache` against the list of operations performed on it, `MemoryCalls` against
  the values, TTLs and readings its callers pass, and `LruInclusion` compares two caches of different
  sizes on one history.

Keys, values and exceptions are uninterpreted types; times are real numbers; clock readings
are parameters, and only the lemmas that say so assume a monotone clock.

## Where the code and its documentation differ

The model follows the code.

* DESIGN.md (lines 332-334) says waiters read the leader's result directly and that a factory's
  exception propagates to all waiters. In the sync class one waiter pops the outcome and the
  others start over (`src/freshcache/singleflight.py:150-157`). `SyncAgreement.DeliversExactly`
  proves that the promise holds in every run if and only if at most two calls are made for the
  key; `SyncAgreement.ThreeCallsDisagree` is a failing run for any three. For the async class
  the promise is true, and proved (`AsyncRuns.GenerationAgreement`).
* DESIGN.md (line 332) speaks of refcounted cleanup; outcomes nobody collects stay stored, and a
  later generation's waiter may take them: in `SyncAgreement.OldErrorRaised` a waiter whose leader
  succeeds raises the exception of a call that ended before the waiter's began.
  `SyncRuns.ConservedOverRuns` accounts for every outcome.
* CONSISTENCY.md (line 49) has the hard TTL bound how long a value can be served. It bounds what lookups find
  (`SyncMemory.ServedWithinTtl`), not what waiters are handed: `SyncFreshness.FreshExactly` proves that
  no waiter ever returns a value published before its own call began if and only if at most three
  calls are made for the key, and `SyncFreshness.OldValueReturned` is a failing run for any four.
* DESIGN.md (lines 286-287) and CONSISTENCY.md (lines 19-20) have SERVE and REVALIDATE calls return a stale entry
  at once and never regenerate it themselves. A waiter that starts over is treated as a BLOCK call
  (`src/freshcache/singleflight.py:157`): `SyncServe.NeverRegeneratesExactly` proves, for either policy, that
  the promise holds in every run if and only if at most two calls are made for the key or none has
  the policy; `SyncServe.ThirdRegenerates` is a failing run.
* DESIGN.md (line 334) says a backoff follows a failed factory. It follows every failed background job
  (`SyncBackoff.FailureRecords`), and nothing else: only a job's own step records one
  (`SyncBackoff.RecordsStep`), and `SyncSteps.Fails` builds a blocking call that raises and leaves the
  whole revalidation state as it was.
* CONSISTENCY.md (line 24) says `get` returns the default on a CodecError. `TypedView.get` lets it
  out: `TypedView.ReadsExactly` says exactly when, `TypedView.BadBytesRaise` is an instance.
* CONSISTENCY.md (lines 22 and 24) says `@cached` falls through to the function when the backend fails or
  the codec rejects. The exception goes out instead: `SyncRaises.RaisesExactly`,
  `AsyncRaises.RaisesExactly` and `Memoise.PlainRaisesExactly` say exactly which calls raise what, and
  `SyncRaises.BrokenLookupRaises` is a run in which a call raises and no factory has run.
* CONSISTENCY.md (line 17) promises at most one concurrent factory per key and process.
  `SyncOverlap.OneAtATimeExactly` proves that this holds in every run if and only if there is a single
  call for the key, or none with policy REVALIDATE; otherwise a blocking factory and a background
  one overlap (`SyncOverlap.FactoriesOverlap`). At most one of each runs (`SyncRuns.Exclusion`). The async
  class is the same (`AsyncOverlap.OneAtATimeExactly`).
* A lookup and the join after it are separate steps, so a burst may run the factory more than once:
  `SyncWorst.OnceExactly` proves that it runs at most once in every run if and only if there is at most
  one call, and `SyncWorst.FactoryBoundAttained` has N calls run it N times.
* `hashkey` keeps `==`-different calls of one shape apart, but not calls of different shapes
  (`HashKey.ShapesCollide`), and not `==`-equal calls the function tells apart: `f(1)` and `f(True)` share an
  entry (`HashedCalls.OneAndTrueCollide`), so with `str` for `f` the second returns "1".
  `HashedCalls.SharesKeyIff` and `HashedCalls.SoundExactly` say exactly when entries are shared and when that is
  harmless; `PlainMemory.CachedExactly` that it is harmless exactly when no run returns a wrong value.

## Model

| member | source | states |
|---|---|---|
| SyncCost.CostPerKey | src/freshcache/singleflight.py:131-175 | over any run, the N callers of a key make at most N blocking factory calls and at most N*N/4 waits, rounded down, although waiters re-enter and the backend may always miss |
| SyncWorst.WaitBoundAttained | src/freshcache/singleflight.py:139-157 | for any calls of a key there is a run with exactly that many waits |
| SyncWorst.FactoryBoundAttained | src/freshcache/singleflight.py:97-168 | for any N calls of a key there is a run in which the blocking factory is called N times |
| SyncWorst.OnceExactly | src/freshcache/singleflight.py:97-175 | the blocking factory is called at most once in every run if and only if at most one call is made for the key |
| SyncCost.BillStep | src/freshcache/singleflight.py:139-175 | every step keeps: those who led or collected waited at most once per leader and collector, and who may wait again waited once per collection |
| SyncCost.RunsAreFinite | src/freshcache/singleflight.py:88-227 | N calls, with re-entries and background jobs, take at most 12N + 5(N*N/4) steps, so every run ends |
| SyncOverlap.OneAtATimeExactly | src/freshcache/singleflight.py:97-198 | at most one factory runs for the key at every moment of every run if and only if there is a single call for it or none with policy REVALIDATE |
| SyncOverlap.FactoriesOverlap | src/freshcache/singleflight.py:97-198 | for any REVALIDATE call and any other call of its key, a run in which the job of the first and the second run their factories together |
| SyncRaises.RaisesExactly | src/freshcache/singleflight.py:88-168 | a call that has ended raised e if and only if its own lookup raised e, or its own factory call did, or it collected e from another call of its key whose factory had raised e |
| SyncRaises.LeaderEnds | src/freshcache/singleflight.py:159-175 | a call that ran its own factory and has ended, ended with exactly what that factory call returned or raised |
| SyncRaises.BrokenLookupRaises | src/freshcache/singleflight.py:97 | for any call, a run in which its lookup breaks and it raises, no factory having run |
| SyncRuns.Progress | src/freshcache/singleflight.py:139-174 | no deadlock, no lost wakeup: while a call or job is unfinished, some step is enabled, whatever factories and lookups would do |
| SyncRuns.WaiterHasLeader | src/freshcache/singleflight.py:139-149 | a waiter on an unset event has that event registered under its key, led by another caller that can step |
| SyncRuns.Exclusion | src/freshcache/singleflight.py:139-198 | a key is in flight exactly when one caller leads it, with the registered, unset event; at most one blocking and one background factory run for it |
| SyncRuns.CollectedWasMade | src/freshcache/singleflight.py:148-157 | a woken waiter starts over, or ends with exactly what an earlier factory call by another caller of its key returned or raised |
| SyncRuns.ProvenanceOverRuns | src/freshcache/singleflight.py:150-155 | what a waiter collected came from another call for its key, and no other waiter collected it |
| SyncRuns.ConservedOverRuns | src/freshcache/singleflight.py:150-175 | per key, at every moment: outcomes published = collected + overwritten + still stored |
| SyncAgreement.DeliversExactly | src/freshcache/singleflight.py:148-175 | every waiter ends with its leader's outcome in every run if and only if at most two calls are made for the key |
| SyncAgreement.ThirdCaller | src/freshcache/singleflight.py:150-175 | whenever a waiter does not get its leader's outcome, a third call of the key has ended and collected it, overwrote it, or left an exception that is taken first |
| SyncSteps.Fails | src/freshcache/singleflight.py:161-168 | for any call of a key not in flight, a continuation in which it leads and raises, its exception stays stored, and no backoff is recorded |
| SyncAgreement.ThreeCallsDisagree | src/freshcache/singleflight.py:148-168 | for any three calls of a key there is a run in which the leader raises and one of its waiters finds nothing and starts over |
| SyncAgreement.OldErrorRaised | src/freshcache/singleflight.py:150-168 | for any three calls of a key there is a run in which one raises and ends, then another leads and returns a value, and its waiter, which began after the failure, raises the old exception |
| SyncPolicy.OnlyRevalidateSchedules | src/freshcache/singleflight.py:102-111 | in any run only calls with policy REVALIDATE reserve a background job or say `revalidating`, and what says so was stale |
| SyncPolicy.FactoryOnlyAfterMissOrStale | src/freshcache/singleflight.py:97-115 | in any run, whatever its policy, a call runs the factory itself only after each of its passes missed or found an entry at least its soft TTL old, the latter on the first pass only under BLOCK |
| SyncPolicy.PassesDecide | src/freshcache/singleflight.py:88-157 | at every moment of every run each call stands where its passes put it, by arithmetic on creation time and soft TTL: a fresh entry has been returned, not stale and not revalidating, under any policy; on the first pass a stale one has been returned by SERVE, is scheduled by REVALIDATE and blocks under BLOCK; once started over it blocks; a miss blocks; a broken lookup raises; and what is returned is marked stale if and only if the first pass found it stale |
| SyncFreshness.FreshExactly | src/freshcache/singleflight.py:148-175 | no waiter for the key, in any run, returns a value published before its own call began if and only if at most three calls are made for the key |
| SyncFreshness.OldValueReturned | src/freshcache/singleflight.py:150-175 | for any four calls of a key there is a run in which one returns a value and ends, a later leader raises, one of its waiters takes the exception, and another, which began after the first ended, returns the old value |
| SyncFreshness.FourthCaller | src/freshcache/singleflight.py:150-175 | whenever a waiter takes an old result, a fourth call of the key has collected something |
| SyncServe.NeverRegeneratesExactly | src/freshcache/singleflight.py:97-157 | for a policy other than BLOCK: no call with it, in any run, runs the factory after finding a stale entry if and only if at most two calls are made for the key or none has the policy |
| SyncServe.ThirdRegenerates | src/freshcache/singleflight.py:97-157 | for any call, whatever its policy, and two others of its key, a run in which it starts over, finds a stale entry and runs the factory |
| SyncMachine.LeadStep | src/freshcache/singleflight.py:139-175 | every step keeps: in-flight keys and leaders correspond, each leader with its own unset event |
| SyncMachine.WaitStep | src/freshcache/singleflight.py:139-149 | every step keeps: a waiter's event is another caller's, and is set or still in flight |
| SyncMachine.PairStep | src/freshcache/singleflight.py:139-157 | a join that waits adds one new pair of callers, never the reverse of an old pair; no other step adds one |
| SyncHandOff.HandStep | src/freshcache/singleflight.py:150-175 | every step keeps the account of published outcomes: stored, collected or overwritten, each exactly once |
| SyncFlight.SingleFlight.constructor | src/freshcache/singleflight.py:59-61 | nothing in flight, nothing stored |
| SyncFlight.SingleFlight.JoinOrLead | src/freshcache/singleflight.py:139-146 | waits for the registered event, or registers a fresh unset one; nothing else changes |
| SyncFlight.SingleFlight.Take | src/freshcache/singleflight.py:150-155 | pops the stored error, else the stored result, else nothing |
| SyncFlight.SingleFlight.PublishError | src/freshcache/singleflight.py:163-168 | stores the error, sets the event, leaves the in-flight map; results stay |
| SyncFlight.SingleFlight.PublishResult | src/freshcache/singleflight.py:171-175 | stores the result, sets the event, leaves the in-flight map; errors stay |
| SyncBackoff.BackoffOverRuns | src/freshcache/singleflight.py:185-235 | after a failed revalidation of k recorded `until`, a reservation of k before any reading of the clock has reached `until` means at least `backoff_maxsize` distinct other keys failed in between, for any interleaving and stale clock readings |
| SyncBackoff.RecordsStep | src/freshcache/singleflight.py:161-235 | a step records a backoff exactly when it is a failed job's recording step; steps of blocking calls leave the revalidation state as it was |
| SyncBackoff.FailureRecords | src/freshcache/singleflight.py:209-235 | when a job's factory or write raised e and the job has finished, steps in between, in this order, read the clock, recorded a backoff of its key until `revalidate_backoff` after that reading, and called the error hook with e |
| SyncBackoff.JobWrites | src/freshcache/singleflight.py:216-218 | when a job's factory returned v and the job has finished, a step in between wrote v |
| SyncBackoff.ReservesExactly | src/freshcache/singleflight.py:177-198 | a call that has read the clock at `now` and comes to the lock reserves its key if and only if no job of it is unfinished and the table holds no backoff of it that `now` has not reached; else it returns the stale value; an elapsed backoff is deleted, and no other touched |
| SyncBackoff.ReservesOnceElapsed | src/freshcache/singleflight.py:185-198 | so with every `until` recorded for the key so far at most `now`, and no job of it unfinished, it does reserve |
| SyncBackoff.RevalidatingExactly | src/freshcache/singleflight.py:105-111 | a result says `revalidating` if and only if its call came to the lock with no job of its key unfinished and no backoff of it in force |
| SyncBackoff.RevalidationsConserved | src/freshcache/singleflight.py:105-227 | per key at every moment: results with `revalidating` set, plus calls between their reservation and their return, minus finished jobs, is one exactly while the key is regenerating |
| Revalidation.Conservation | src/freshcache/singleflight.py:186-227 | submitted jobs minus finished jobs of a key follow its membership in `_regenerating`, through success, factory, write and hook failures |
| Revalidation.OneJobPerKey | src/freshcache/singleflight.py:193-227 | two unfinished jobs never share a key |
| Revalidation.BackoffSafety | src/freshcache/singleflight.py:185-198 | the state form of backoff safety, for the reading any reserving caller brings |
| Revalidation.RevalidationGuard.TryReserve | src/freshcache/singleflight.py:186-195 | refuses a key backing off, drops an elapsed backoff, refuses a regenerating key, else reserves it |
| Revalidation.RevalidationGuard.RecordBackoff | src/freshcache/singleflight.py:231-235 | stores the backoff as the newest entry and evicts the oldest until the bound holds |
| Revalidation.RevalidationGuard.Discard | src/freshcache/singleflight.py:226-227 | releases the key only |
| Front.RevalidationConserved | src/freshcache/singleflight.py:105-111 | the conservation law in any state of the half shared by both classes |
| Front.RankStep | src/freshcache/singleflight.py:97-115 | every step of lookup, policy, reservation and job lowers a rank, by enough to pay for blocking |
| AsyncRuns.GenerationAgreement | src/freshcache/async_singleflight.py:125-152 | every caller that joined or led a future and has ended, ended with exactly the leader's value or exception, even if it joined after the resolution or the write failed |
| AsyncRuns.ResolvedOnce | src/freshcache/async_singleflight.py:140-149 | a future is resolved at most once, and exactly once when any of its members has ended |
| AsyncRuns.Exclusion | src/freshcache/async_singleflight.py:125-196 | a key is in flight exactly when one caller leads it, with the registered future; at most one background task runs for it |
| AsyncCost.CostPerKey | src/freshcache/async_singleflight.py:125-152 | over any run, the N callers of a key make at most N blocking factory calls and at most N - 1 awaits |
| AsyncWorst.FactoryBoundAttained | src/freshcache/async_singleflight.py:125-152 | for any N calls of a key there is a run in which the blocking factory is called N times |
| AsyncWorst.AwaitBoundAttained | src/freshcache/async_singleflight.py:125-136 | for any calls of a key there is a run in which all but one await |
| AsyncOverlap.OneAtATimeExactly | src/freshcache/async_singleflight.py:80-196 | at most one factory runs for the key at every moment of every run if and only if there is a single call for it or none with policy REVALIDATE |
| AsyncPolicy.PassesDecide | src/freshcache/async_singleflight.py:72-98 | the same decisions, in every run of the async class |
| AsyncPolicy.FactoryOnlyAfterMissOrStale | src/freshcache/async_singleflight.py:81-97 | a call runs the factory itself only after a miss, or a stale entry under BLOCK |
| AsyncRaises.RaisesExactly | src/freshcache/async_singleflight.py:72-152 | a call that has ended raised e if and only if its own lookup raised e, or the factory of its future's leader did |
| AsyncRuns.Progress | src/freshcache/async_singleflight.py:72-152 | while a call or task is unfinished, some step is enabled |
| AsyncRuns.RunsAreFinite | src/freshcache/async_singleflight.py:72-196 | N calls take at most 12N steps: nobody re-enters |
| AsyncBackoff.RevalidationsConserved | src/freshcache/async_singleflight.py:87-196 | the conservation law over async runs |
| AsyncBackoff.FailureRecords | src/freshcache/async_singleflight.py:178-204 | the same of the async class's tasks |
| AsyncBackoff.JobWrites | src/freshcache/async_singleflight.py:185-187 | a finished task whose factory returned v wrote v |
| AsyncBackoff.ReservesExactly | src/freshcache/async_singleflight.py:154-176 | who reserves, as in the sync class |
| AsyncBackoff.ReservesOnceElapsed | src/freshcache/async_singleflight.py:162-176 | elapsed backoffs let a revalidation through |
| AsyncBackoff.RevalidatingExactly | src/freshcache/async_singleflight.py:89-95 | a result says `revalidating` exactly then |
| AsyncBackoff.BackoffOverRuns | src/freshcache/async_singleflight.py:162-204 | backoff safety over async runs, failures counted over the steps of the run |
| AsyncMachine.GenerationStep | src/freshcache/async_singleflight.py:125-152 | every step keeps: futures are led or resolved, and members await, lead, or ended with the outcome |
| AsyncFlight.AsyncSingleFlight.JoinOrLead | src/freshcache/async_singleflight.py:125-133 | awaits the registered future, or registers a fresh pending one |
| AsyncFlight.AsyncSingleFlight.SetOutcome | src/freshcache/async_singleflight.py:141-149 | resolves this future only |
| AsyncFlight.AsyncSingleFlight.Leave | src/freshcache/async_singleflight.py:150-151 | removes the key from the in-flight map only |
| Memory.MemoryCache.Create | src/freshcache/memory.py:26-33 | an empty cache, or ValueError exactly when `maxsize` is below one |
| Memory.MemoryCache.Get | src/freshcache/memory.py:38-53 | the value found, promoted and counted as a hit; else the default, with an expired entry dropped and a miss counted; what is found is the matter of `MemoryCalls` |
| Memory.MemoryCache.GetStrict | src/freshcache/memory.py:55-70 | the same with KeyError |
| Memory.MemoryCache.GetEnvelope | src/freshcache/memory.py:72-87 | the same table change; the envelope of a live entry stored with a soft TTL, else None |
| Memory.MemoryCache.Set | src/freshcache/memory.py:89-105 | stores value and expiries as the newest entry and evicts the oldest until the size fits |
| Memory.MemoryCache.Add | src/freshcache/memory.py:111-131 | writes and returns True exactly when a read would find nothing |
| Memory.MemoryCache.Insert | src/freshcache/memory.py:102-105 | the assign, move and evict loop computes the specification's store-and-trim |
| Memory.MemoryCache.Delete | src/freshcache/memory.py:107-109 | removes the entry, expired or not, and says whether there was one |
| Memory.MemoryCache.Clear | src/freshcache/memory.py:142-146 | empties the table and both counters |
| Memory.PutFacts | src/freshcache/memory.py:101-105 | a write leaves its own entry newest, keeps every other entry and its order, and evicts at most the oldest of a full table |
| Memory.LookedFacts | src/freshcache/memory.py:38-53 | a lookup changes only its own key's place, or drops it when expired |
| MemoryCalls.FoundBeforeExpiry | src/freshcache/memory.py:38-131 | over any history of calls: before its hard TTL, a read finds exactly the value last written and, if a soft TTL was given, the envelope with the time of the write and that TTL, and an `add` is refused; unless since the key was written or last read it was deleted, looked at once expired, or `maxsize` other keys were used |
| MemoryCalls.NothingPastExpiry | src/freshcache/memory.py:35-131 | at or past the hard TTL of what was last written, with a soft TTL or without, reads find nothing and an `add` succeeds |
| MemoryLog.ReadAgainstLog | src/freshcache/memory.py:38-131 | a hit returns the latest effective write of its key, never a deleted or expired one; under a monotone clock a live written key misses only after `maxsize` distinct other keys were written or hit |
| MemoryLog.TableMatchesLog | src/freshcache/memory.py:38-146 | after every operation the table agrees with the write log, recency order included |
| MemoryLog.LruExact | src/freshcache/memory.py:38-131 | without deletes and hard TTLs the cache holds a written key if and only if fewer than `maxsize` other keys were touched since |
| MemoryLog.FirstWriterWins | src/freshcache/memory.py:89-131 | between two successful `add` calls of a key its entry was deleted, cleared, evicted or seen expired |
| MemoryLog.OnlyAges | src/freshcache/memory.py:72-105 | an entry nobody rewrites only moves fresh, stale, gone, with the same envelope |
| MemoryLog.BoundedStaleness | src/freshcache/memory.py:72-105 | with hard TTL T on every write of a key that has a soft TTL, an envelope found is younger than T |
| LruInclusion.Inclusion | src/freshcache/memory.py:38-109 | on one history the larger cache holds every entry of the smaller, value and expiry alike, as long as adds agree |
| LruInclusion.AddKeepsInclusionIff | src/freshcache/memory.py:111-131 | one more `add` keeps inclusion if and only if both caches answer alike or the entries coincide |
| LruInclusion.AddsCanDisagree | src/freshcache/memory.py:111-131 | a history in which an `add` breaks inclusion |
| OrderedDict.AssignThenMove | src/freshcache/memory.py:102-103 | assigning a key and moving it to the end stores it as the newest entry |
| SyncMemory.ServedWithinTtl | src/freshcache/singleflight.py:97-111 | single flight over MemoryCache with hard TTL T: whatever a lookup finds, to be served fresh or stale, is younger than T |
| SyncMemory.ServedUntilRewritten | src/freshcache/singleflight.py:97-227 | until some step writes the key, later lookups find the same envelope or none, however many revalidations fail; a stale one stays stale |
| SyncMemory.LeaderStores | src/freshcache/singleflight.py:159-168 | single flight over MemoryCache: after a leader writes what its factory returned, and until the key is written again, a lookup misses or finds exactly that value, created at the write, with the call's own soft TTL; it misses past the call's hard TTL or without a soft one; and short of that it finds it, unless since the write or the last lookup that found it `maxsize` other keys were used |
| SyncMemory.JobStores | src/freshcache/singleflight.py:216-218 | the same of what a background job writes, with the TTLs of the call that scheduled it |
| SyncRuns.LeaderWrites | src/freshcache/singleflight.py:159-175 | a leader whose factory returned and whose call has ended has written in between |
| SyncMemory.CachedOverMemory | src/freshcache/decorators.py:178-193 | `@cached` over a MemoryCache of any size returns `func(args)` for every call, in every run |
| AsyncMemory.CachedOverMemory | src/freshcache/decorators.py:233-248 | the same on the async single-flight path |
| AsyncMemory.LeaderStores | src/freshcache/async_singleflight.py:138-146 | what an async leader writes is found, as in the sync class |
| AsyncMemory.JobStores | src/freshcache/async_singleflight.py:185-187 | and what a background task writes |
| AsyncRuns.LeaderWrites | src/freshcache/async_singleflight.py:138-152 | an async leader whose factory returned and whose call has ended has written in between |
| PlainMemory.CachedOverMemory | src/freshcache/decorators.py:195-203 | the same on the path without single flight |
| PlainMemory.StoredIsFound | src/freshcache/decorators.py:195-203 | without single flight, before the hard TTL a `get` finds what a call stored under the key, unless it was stored again or `maxsize` other keys were used |
| PlainMemory.StoredOrMissed | src/freshcache/decorators.py:195-203 | it finds that or nothing, and nothing at or past the hard TTL |
| Memoise.SyncTransparent | src/freshcache/decorators.py:178-193 | over any backend that returns only what was written, and may fail: each call that has ended returned `func(args)` or raised what its own lookup raised, for any policy and TTLs, on the sync single-flight path |
| Memoise.AsyncTransparent | src/freshcache/decorators.py:233-248 | the same on the async single-flight path |
| Memoise.PlainTransparent | src/freshcache/decorators.py:195-203 | the same on the path without single flight, where a failing `set` raises too |
| Memoise.PlainRaisesExactly | src/freshcache/decorators.py:195-203 | without single flight a call raises e if and only if its `get`, its function or its `set` raised e |
| PlainMemory.CachedExactly | src/freshcache/decorators.py:195-203 | without single flight over a MemoryCache: every call returns `func(args)` in every run if and only if the function gives one value to any two of the calls that share a key |
| HashedCalls.SharesKeyIff | src/freshcache/decorators.py:52-56 | two calls share a key if and only if their arguments are `==`-equal, keywords in any order, or one mimics the other's shape |
| HashedCalls.SoundExactly | src/freshcache/decorators.py:52-56 | with the default key function memoisation is sound if and only if the function gives one value to any two of the calls that are `==`-equal, and to a call and one that mimics its key |
| HashedCalls.OneShapeExactly | src/freshcache/decorators.py:52-56 | when all calls pass keywords, and when none does, it is sound if and only if the function gives one value to `==`-equal calls |
| HashedCalls.OneAndTrueCollide | src/freshcache/decorators.py:52-56 | `f(1)` and `f(True)` share a key, so a function that tells them apart is not memoised soundly |
| HashKey.SameKeyIff | src/freshcache/decorators.py:52-56 | two calls get one key if and only if they pass the same arguments, keywords in any order, or one mimics the other's shape |
| HashKey.ShapesCollide | src/freshcache/decorators.py:52-56 | `f((1,), (("a", 2),))` and `f(1, a=2)` get one key |
| HashKey.SortSorts | src/freshcache/decorators.py:56 | the sort is a sorted permutation |
| Wire.RoundTrip | src/freshcache/adapters/redis.py:85-118 | unwrapping a wrapped value gives back payload and exact stamps, newlines and header look-alikes in the payload included |
| Wire.WrapInjective | src/freshcache/adapters/redis.py:85-100 | equal blobs come from equal payloads, soft TTLs and creation times |
| Wire.UnwrapSuffix | src/freshcache/adapters/redis.py:103-118 | unwrapping any blob succeeds with a suffix of it, all of it unless a recognised header was stripped |
| Wire.UnwrapExactly | src/freshcache/adapters/redis.py:103-118 | of any blob: stamps come out if and only if it is E1, two newline-ended stamps that parse, and the payload (what is missing at the end counts as empty); else R1 and its newline are stripped, or it is the payload itself |
| Wire.DecimalIsLossless | src/freshcache/adapters/redis.py:93-115 | the assumption on stamp printing can be met: decimal printing of whole numbers has no newline and is inverted by parsing |
| ViewKeys.ViewKeyInjective | src/freshcache/typed.py:50-51 | namespace and string key are recoverable from the inner key, colons and quotes included |
| ViewKeys.PlainKey | src/freshcache/typed.py:50-51 | the inner key of a printable ASCII key without backslashes: namespace, colon, and the key in single quotes, or in double quotes if it has single ones and no double ones |
| TypedView.Isolation | src/freshcache/typed.py:50-94 | in any interleaving of views over one cache, a read that finds anything finds the payload, and the stamps, last set through the reader's own namespace under its key, within its hard TTL |
| TypedView.ReadsOwnWrites | src/freshcache/typed.py:60-91 | with a round-tripping codec a read that hits returns exactly the value last set through its view, and one that misses the default |
| TypedView.SetThenGet | src/freshcache/typed.py:60-91 | set through a view and then got through it before the hard TTL, a value comes back, whatever other views do meanwhile, unless it was set again or deleted through that view or `maxsize` other keys were used |
| TypedView.ReadsExactly | src/freshcache/typed.py:60-68 | a read yields x if and only if it hits bytes last set through its view that the codec loads as x; the default if and only if it misses or hits no bytes; and raises CodecError if and only if it hits bytes the codec rejects |
| TypedView.OpensExactly | src/freshcache/typed.py:96-114 | `get_envelope` on a hit of an entry set with a soft TTL: the value the codec loads, or a foreign object passed through, with the creation time and soft TTL of that set |
| TypedView.OpensWhen | src/freshcache/typed.py:96-114 | it finds nothing if and only if the read misses or no soft TTL was given, and raises CodecError exactly when the codec rejects the bytes |
| TypedView.BadBytesRaise | src/freshcache/typed.py:60-68 | a run in which it does |
| TypedView.TypedView.Get | src/freshcache/typed.py:60-68 | reads the namespaced key; decodes bytes, treats other objects as absent |
| TypedView.TypedView.Set | src/freshcache/typed.py:77-91 | writes the encoded value under the namespaced key with both TTLs |
| TypedView.TypedView.Delete | src/freshcache/typed.py:93-94 | deletes the namespaced key and says whether it was there |
| TypedView.TypedView.GetEnvelope | src/freshcache/typed.py:96-114 | the inner envelope with bytes decoded and other objects passed through, stamps unchanged; a CodecError when the codec rejects the bytes |

## Left out

- `close`, `aclose`, executor creation and shutdown, `submit` raising, and task cancellation: a
  cancelled waiter cancels the shared future, and a job that never starts keeps its key reserved.
- Factories that call back into their own key, which wait for themselves.
- `inner.set` raising something other than an `Exception` in a leader, which would leave its event
  unset; a factory raising an exception asyncio futures refuse (`StopIteration`).
- The Redis, cachebox and cachetools clients and the adapters that forward to them; the check-then-set
  `add` of the cachebox and cachetools adapters.
- `AsyncTypedView` and `AsyncRedisAdapter`, which repeat the sync shapes.
- `TypedView.get_strict`, which is `get` with KeyError for a miss.
- Pickle, JSON, gzip and blake2b: codecs are any pair of functions, assumed to round-trip where a
  lemma says so.
- Wire.RoundTrip: float printing is any newline-free printing its parser inverts; that Python's is one
  is not proved.
- Wire.DecimalIsLossless: whole numbers only, where the code prints floats.
- MemoryLog.ReadAgainstLog: times are real numbers, so rounding in `now + ttl` and `now - created_at`
  is not modelled.
- ViewKeys.ViewKeyInjective: string keys only, without lone surrogates; which characters beyond ASCII
  count as printable is a parameter.
- SyncMemory.ServedWithinTtl: about what lookups find; what waiters are handed is the matter of
  `SyncFreshness`.
- SyncMemory.CachedOverMemory: values stored directly, nobody else writing to the cache; for other
  backends their honesty is an assumption of `Memoise`.
- User values that are themselves `Envelope` objects and are stored without a soft TTL.
- A negative `backoff_maxsize`, and the constructors' type checks.
- The decorators' hit, miss, regeneration and backoff counters: unlocked, and on the soft-TTL path every
  return counts as a hit.
- Logging, context propagation, protocol declarations, `NullCache` (every lookup may miss in the machines).
