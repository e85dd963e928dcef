# Verification of RDAPify's query engine

This project models the outbound query engine of RDAPify in Dafny and proves what its
protocols keep over all runs:

- the **attempt loop**: retries, jittered back-off with 64-bit saturation, the per-origin
  permit, the global permit and the in-flight gauges (`Retry`, `Permits`,
  `PermitInvariants`, `PermitTheorems`, `PermitSteps`, `PermitGauge`, `PermitOvershoot`);
- the **circuit breaker**: the object, the theory of its histories, and the breaker shared
  by concurrent calls with its lock-free admission read (`Breaker`, `BreakerProtocol`,
  `BreakerTheorems`);
- the **response cache**: the object, and the single-flight, stale-while-revalidate
  protocol around it (`Cache`, `SingleFlight`, `SlotInvariants`, `CoherenceInvariants`,
  `CounterInvariants`, `SingleFlightTheorems`, `LostWakeup`, `FollowerMiss`, `DiscardedWrite`,
  `Revalidation`, `TaskOrigins`);
- **bootstrap discovery**: the DNS index and suffix probing, the address scan, and the
  loader that fetches a file once for many queries (`BootstrapFile`, `DnsBootstrap`,
  `IpBootstrap`, `BootstrapLoader`);
- the **response validator** with its explicit stack (`JsonValidation`);
- the **availability batch** (`Batch`).

Concurrent code is a transition system: a state, actions, a function giving the next
state, and runs of any length over any number of calls. Every access to shared memory
that another task could see in between is a step of its own, and a task may be dropped
wherever it awaits. Clocks, upstream answers, random draws, evictions and schedules are
arbitrary inputs. Objects that update their fields are classes, loops are loops with
invariants, and each is proved against a function whose properties the lemmas state.

## What the proofs found

- **A probe that ends in a 404, a 429, a parse error or a dropped task wedges the
  breaker.** Nothing is recorded, nobody else can be admitted, and HalfOpen has no
  timeout. `BreakerTheorems.HalfOpenExit` says exactly when HalfOpen can be left, and
  `BreakerTheorems.WedgeIsReachable` reaches the wedge under every policy.
- **The per-host cap is not a bound on an origin's attempts.** A call that looked its
  origin up in vain goes ungated if the registry fills before its length check, even when
  the entry that fills it is that same origin. `PermitOvershoot.PerHostCapHoldsIff` gives
  the exact condition on the configuration and the calls, and
  `PermitOvershoot.DeployedCapIsPassed` passes the cap with the default settings.
- **A follower can sleep for good.** It clones the notify, the guard notifies, and only
  then does it register. `LostWakeup.LostIffStraddled` shows that this is exactly when it
  happens; `LostWakeup.LostFollowerReachable` shows that two queries suffice. The bootstrap
  loader has the same gap (`BootstrapLoader.MissedIffStraddled`, `BootstrapLoader.MissedIsReachable`).
- **A slow reader can throw a fresh answer away.** It reads an entry at the end of its life,
  another query stores a new one, and the reader then invalidates the key
  (`DiscardedWrite.FreshWriteCanBeDiscarded`). This, eviction and expiry are the only ways in
  which a follower misses what its leader wrote (`FollowerMiss.FollowerMissHasCause`).
- **The in-flight gauge leaks** one unit for every attempt dropped in mid-flight.
  `PermitTheorems.GaugeExactIff` counts them over every run and
  `PermitGauge.LeakIsReachable` reaches the leak under every configuration; permits and the
  per-origin gauge do not leak (`PermitTheorems.PermitsConserved`).
- **A bootstrap leader dropped while fetching keeps the slot**, and once the cached copy
  is not fresh no later query is answered (`BootstrapLoader.AnswerableIff`). A failed fetch
  does release it (`BootstrapLoader.OrphanedIffLeaderDropped`).
- **The first-match address scan is not the longest match** that section 5 of RFC 9224
  asks for when a shorter prefix is listed first; `IpBootstrap.FirstMatchIsLongestIff`
  gives the exact condition on the list.
- **A panicking batch task shifts every later answer** one place down;
  `Batch.AnswerBelongsToName` says exactly which answers still sit at their name's index, and
  `Batch.PanicShiftsAnswers` is such a batch.
- The back-off cap wraps for caps of 2^64 ms and more
  (`Retry.BackoffWindowExact`; `Retry.CapWrapsToNothing` for an input), and a breaker threshold of 0 acts as 1.
- The retry table in the comment at `crates/rdap-core/src/fetcher.rs:10-17` gives 429 two
  extra attempts; the code at `crates/rdap-core/src/fetcher.rs:1175` gives three. The model
  follows the code, `Retry.DocumentedAttemptsIff` says when the two differ, and
  `Retry.FourthAttemptOn429` is such a case. The comment at `crates/rdap-core/src/validation/json.rs:8-11` bounds
  the stack by the depth limit alone; it is bounded by D * (W - 1) + 1, with D the depth
  limit and W the widest container allowed, and `JsonValidation.BoundIsAttained` attains it.

## Model

| member | source | states |
|---|---|---|
| Retry.RetryLimit | crates/rdap-core/src/fetcher.rs:1167-1188 | every error class gets the extra attempts of the documented table (`crates/rdap-core/src/fetcher.rs:8-17`), 429 one more, and none more than three |
| Retry.FetchWithRetry | crates/rdap-core/src/fetcher.rs:801-967 | for every sequence of attempt results the loop stops at the first attempt that succeeds, has spent its class's retries or is the last allowed, returns that attempt's result, makes at most min(max_attempts, 4) attempts, and sleeps after attempt k for the larger of Retry-After, up to 60 s, and the k-th draw from that attempt's window, which is min(initial * 2^(k-1), max) where the cap fits 64 bits of milliseconds |
| Retry.StopIsUnique | crates/rdap-core/src/fetcher.rs:801-967 | there is one stopping attempt for each upstream, at most the fourth, so the loop's contract fixes its result |
| Retry.SaturationLosesNothing | crates/rdap-core/src/fetcher.rs:1222-1224 | on all u64 inputs the saturated power, product and cap equal the mathematical minimum |
| Retry.BackoffWindowExact | crates/rdap-core/src/fetcher.rs:1208-1224 | the coded window is min(initial * 2^(attempt-1), max) exactly when the cap fits 64 bits of milliseconds or the exponential term is below the wrapped cap |
| Retry.CapWrapsToNothing | crates/rdap-core/src/fetcher.rs:1222-1228 | a validated configuration with a cap of 2^64 ms whose first delay is always zero where one millisecond is advertised |
| Retry.BackoffWindowMonotone | crates/rdap-core/src/fetcher.rs:1218-1224 | the window never shrinks from one attempt to the next and never passes the configured cap |
| Retry.BackoffDrawsTheWindow | crates/rdap-core/src/fetcher.rs:1225-1233 | a delay can be drawn exactly when it is a whole number of milliseconds inside the window, both ends included |
| Retry.DocumentedAttemptsIff | crates/rdap-core/src/fetcher.rs:8-17 | against an upstream that always fails in one way, the loop makes the attempts the documented table gives exactly when the failure is not a 429 or at most three attempts are allowed |
| Retry.FourthAttemptOn429 | crates/rdap-core/src/fetcher.rs:1175 | a server that always answers 429, with four attempts allowed, gets four where three are documented |
| PermitTheorems.PermitsConserved | crates/rdap-core/src/fetcher.rs:838-965 | in every state of every run with cancellation, free plus held permits equal the limits, each origin's gauge counts its permit holders, the global gauge counts running attempts plus those dropped in mid-flight, and sleeping or finished calls hold nothing |
| PermitTheorems.GaugeExactIff | crates/rdap-core/src/fetcher.rs:881-888 | in every state of every run the in-flight gauge is over by the number of attempts dropped in mid-flight so far, so it is right exactly when none was |
| PermitGauge.LeakIsReachable | crates/rdap-core/src/fetcher.rs:881-888 | under every configuration a lone call dropped in mid-attempt ends with all permits back and the gauge at one |
| PermitTheorems.OriginShare | crates/rdap-core/src/fetcher.rs:139-150 | in every reachable state the gated attempts of a registered origin hold at most its cap of global permits; only ungated attempts add to that |
| PermitTheorems.NoDeadlock | crates/rdap-core/src/fetcher.rs:838-880 | in every reachable state with an unfinished call some call can move |
| PermitTheorems.HolderAhead | crates/rdap-core/src/fetcher.rs:817-819 | a call blocked on the global permit waits for a holder of one, which is not blocked; a call blocked on its origin's permit waits for a holder of that very permit, which is past that gate |
| PermitTheorems.StepsAreSpent | crates/rdap-core/src/fetcher.rs:801-967 | after k steps the calls together have used k of the at most 81 steps each may take |
| PermitTheorems.EveryRunCompletes | crates/rdap-core/src/fetcher.rs:801-967 | every run is finite, and one that cannot go on has finished every call and returned every permit, with the gauge at the number of dropped attempts |
| PermitTheorems.RegistrySoftCap | crates/rdap-core/src/fetcher.rs:609-619 | with length check and insertion as racing steps, the registry exceeds its capacity by less than the number of calls ever between the two |
| PermitTheorems.RegistryNeverFarOver | crates/rdap-core/src/fetcher.rs:609-619 | with N calls the registry never has more than capacity - 1 + N entries |
| PermitTheorems.RegistrySticks | crates/rdap-core/src/fetcher.rs:598-602 | a registered origin keeps its semaphore for the rest of the run |
| PermitTheorems.OneSemaphorePerOrigin | crates/rdap-core/src/fetcher.rs:615-619 | two gated attempts, at any two moments of a run, share a semaphore exactly when they share an origin |
| PermitTheorems.EndedAtAStop | crates/rdap-core/src/fetcher.rs:801-967 | in every run a call that ended without being dropped ended at a reply that stops it: a success, an error whose class has no retry left, or the last allowed attempt |
| PermitOvershoot.PerHostCapHoldsIff | crates/rdap-core/src/fetcher.rs:143-150 | no schedule takes an origin over the per-host cap exactly when the global cap is no larger, or no origin has more calls than the cap, or there are fewer origins than registry entries |
| PermitOvershoot.DeployedCapIsPassed | crates/rdap-core/src/fetcher.rs:117 | with the default configuration and the registry capacity of 1024, seventeen calls to one origin and one to each of 1023 others have a schedule that passes the cap of sixteen |
| Breaker.CircuitBreaker.constructor | crates/rdap-core/src/circuit_breaker.rs:137-147 | a new breaker is Closed with no failures |
| Breaker.CircuitBreaker.BeforeCall | crates/rdap-core/src/circuit_breaker.rs:192-217 | admits in Closed, admits and moves to HalfOpen in Open once the cooldown has elapsed, refuses otherwise, and changes nothing else |
| Breaker.CircuitBreaker.OnSuccess | crates/rdap-core/src/circuit_breaker.rs:219-223 | closes the breaker and clears the count, whatever its state |
| Breaker.CircuitBreaker.OnFailure | crates/rdap-core/src/circuit_breaker.rs:225-242 | reopens from HalfOpen, counts and perhaps opens from Closed, and leaves Open and its cooldown alone |
| Breaker.CounterIsFailureRun | crates/rdap-core/src/circuit_breaker.rs:219-242 | over every legal history the counter is the run of failures since the last success, capped at the threshold; the breaker is Closed exactly while that run is below it, and otherwise HalfOpen exactly right after a probe and Open in all other cases |
| Breaker.ProbeIffCooledDown | crates/rdap-core/src/circuit_breaker.rs:206-213 | a probe may follow a legal Open history exactly when the cooldown has passed since the last opening, so a stale failure does not restart it |
| Breaker.ProbeSpacing | crates/rdap-core/src/circuit_breaker.rs:206-213 | the k-th probe comes at least k cooldowns after the first opening and any two are at least as many cooldowns apart as their distance, stale outcomes included |
| Breaker.ProbeIsAlone | crates/rdap-core/src/circuit_breaker.rs:201-205 | between a probe's admission and the next admission an outcome was recorded |
| Breaker.HalfOpenBoundaries | crates/rdap-core/src/circuit_breaker.rs:198-242 | HalfOpen is entered only from Open by a probe and left only by a recorded outcome |
| BreakerTheorems.CounterTellsHistory | crates/rdap-core/src/circuit_breaker.rs:192-242 | in every state of every run of the shared breaker, with the lock free, the counter is min(threshold, failures since the last success), and the mode is Closed exactly while that run is below the threshold, otherwise HalfOpen exactly if the last event is a probe |
| BreakerTheorems.OneRecordPerCall | crates/rdap-core/src/fetcher.rs:717-756 | a logical call is admitted at most once, records at most one event and only after admission, and a refused call records none |
| BreakerTheorems.RecordsAnswerOutcomes | crates/rdap-core/src/fetcher.rs:722-756 | every recorded event answers that call's own fetch: a success only a fetch that ended in Ok, a failure only one that ended in a network error, a timeout or a status of 500 and more |
| BreakerTheorems.CountedOutcomeIsRecorded | crates/rdap-core/src/fetcher.rs:722-756 | a call whose fetch ended in Ok has recorded a success once it finishes, one whose fetch ended in a network error, a timeout or a status of 500 and more a failure; only a dropped call does not |
| BreakerTheorems.OtherErrorsRecordNothing | crates/rdap-core/src/fetcher.rs:755 | a call whose fetch ended in any other error finishes at once and never records anything |
| BreakerTheorems.AdmissionFollowsHistory | crates/rdap-core/src/circuit_breaker.rs:198-216 | in every run a deciding call is let through exactly while the failures since the last success are below the threshold, becomes the probe exactly when the breaker is Open and the cooldown has passed since its last opening, and is refused otherwise |
| BreakerTheorems.HalfOpenLeftByOutcome | crates/rdap-core/src/circuit_breaker.rs:219-242 | in every concurrent run HalfOpen is left only in a step of an admitted call whose own fetch ended in Ok or in a network error, a timeout or a server error, to Closed exactly on Ok |
| BreakerTheorems.RunProbesSpaced | crates/rdap-core/src/circuit_breaker.rs:562-643 | the probe spacing and probe exclusion hold in every state of every concurrent run |
| BreakerTheorems.HalfOpenExit | crates/rdap-core/src/circuit_breaker.rs:198-242 | from a reachable HalfOpen state the breaker can leave HalfOpen exactly when some admitted call can still report |
| BreakerTheorems.NeutralProbeWedges | crates/rdap-core/src/fetcher.rs:1198-1205 | a lone probe's error leaves the breaker wedged exactly when it is no network error, timeout or status of 500 and more; dropping the probe always does |
| BreakerTheorems.WedgedForever | crates/rdap-core/src/circuit_breaker.rs:198-217 | a wedged breaker admits nobody and records nothing in any continuation |
| BreakerTheorems.WedgeIsReachable | crates/rdap-core/src/fetcher.rs:679-756 | under every policy some run from the initial state ends wedged |
| Cache.StaleWindow | crates/rdap-cache/src/lib.rs:407-413 | the stale window is 30 s up to 150 s of life, a fifth of it up to 600 s, and 120 s from there on |
| Cache.KindWindows | crates/rdapify-client/src/lib.rs:42-46 | the documented lives of one, six and twenty-four hours, each with two minutes of staleness |
| Cache.KeysAreInjective | crates/rdapify-client/src/lib.rs:104-114 | two queries share a cache key exactly when they are the same query |
| Cache.MemoryCache.constructor | crates/rdap-cache/src/lib.rs:320-343 | a new cache is empty and has made no lookups |
| Cache.MemoryCache.GetStatus | crates/rdap-cache/src/lib.rs:357-400 | answers as the last write under the key does at that time if the entry is present, else misses; drops expired entries; moves exactly one counter |
| Cache.MemoryCache.SetWithTtl | crates/rdap-cache/src/lib.rs:410-429 | the entry becomes the last write under its key, with its fresh and stale windows |
| Cache.MemoryCache.SetNegative | crates/rdap-cache/src/lib.rs:434-445 | the negative entry becomes the last write under its key, with no stale window |
| Cache.MemoryCache.Evict | crates/rdap-cache/src/lib.rs:545-552 | losing entries keeps the rest equal to the last writes |
| Cache.MemoryCache.TryAcquireRefresh | crates/rdap-cache/src/lib.rs:482-510 | grants the slot exactly when the registry has room and the key is free, with a notify no other slot has; a refusal at the cap counts as capped, one for a taken key as deduplicated, and neither changes a slot |
| Cache.MemoryCache.Drop | crates/rdap-cache/src/lib.rs:288-294 | frees the guard's own slot and wakes its own notify |
| SingleFlightTheorems.SlotsMatchGuards | crates/rdap-cache/src/lib.rs:482-510 | in every state of every run in-flight keys and live guards correspond one to one |
| SingleFlightTheorems.DropRemovesOwnSlot | crates/rdap-cache/src/lib.rs:288-294 | a guard's drop removes its own slot and never one of a later leader |
| SingleFlightTheorems.FetchesSingleFlighted | crates/rdapify-client/src/lib.rs:666-716 | guarded fetches of one query never overlap, and a foreground fetch without a guard missed twice and was refused the slot both times |
| SingleFlightTheorems.FetchesAtMostQueries | crates/rdapify-client/src/lib.rs:621-799 | N queries make at most N upstream fetches in all, the background refreshes they spawn included |
| SingleFlightTheorems.FollowerWakeup | crates/rdap-cache/src/lib.rs:526-534 | a blocked follower that cannot wake has a live guard still to notify it, or else is lost; never both |
| SingleFlightTheorems.LostForever | crates/rdap-cache/src/lib.rs:526-534 | a lost follower stays blocked in every continuation that does not drop it |
| LostWakeup.LostIffStraddled | crates/rdap-cache/src/lib.rs:526-534 | in every run a blocked follower is lost exactly when it cloned the notify from the slot of its key, that guard then notified, and only then it registered, and it has slept since |
| LostWakeup.LostFollowerReachable | crates/rdap-cache/src/lib.rs:526-534 | two queries of one key can leave a follower lost |
| FollowerMiss.FollowerMissHasCause | crates/rdapify-client/src/lib.rs:675-693 | in every run, when a woken follower misses, its guard had notified before, and either what it reread has outlived its windows or every write the guard's holder made under the key, if any, was evicted or invalidated by another reader before the reread |
| DiscardedWrite.FreshWriteCanBeDiscarded | crates/rdap-cache/src/lib.rs:361-398 | for every query a run exists in which a reader that looked before a write removes the fresh entry after it |
| SingleFlightTheorems.LookupIsLastWriteOrMiss | crates/rdap-cache/src/lib.rs:357-400 | under any interleaving and eviction a lookup misses or answers as the last-write map does |
| SingleFlightTheorems.CachedAnswersAreFetched | crates/rdapify-client/src/lib.rs:621-735 | every cached answer came from a successful fetch of the same query, stored no longer before it than the kind's time to live and its stale window |
| SingleFlightTheorems.ShortCircuitsAreFetched | crates/rdapify-client/src/lib.rs:649-655 | every 404 answered from the cache came from an upstream 404 for the same query that a foreground call stored within 600 s; background refreshes store none |
| SingleFlightTheorems.FetchedAnswersAreStored | crates/rdapify-client/src/lib.rs:718-735 | a foreground fetch that succeeded or got a 404 is returned only after that very fetch was written under its own key |
| Revalidation.StaleHitAsksForRefresh | crates/rdapify-client/src/lib.rs:630-647 | in every run a query whose first lookup was stale is answered with that value, after it was granted or refused the slot to refresh it |
| Revalidation.RefusedForAReason | crates/rdap-cache/src/lib.rs:482-510 | the slot is refused exactly at the cap or when the key's slot is taken, and granted otherwise |
| Revalidation.OneRefreshPerGrant | crates/rdapify-client/src/lib.rs:635-645 | in every state of every run there are as many background refreshes as stale answers that were granted the slot |
| Revalidation.WhatIsFetchedIsStored | crates/rdapify-client/src/lib.rs:718-789 | in every run, once a task that fetched successfully, in the background too, or that got a 404 in the foreground, is past storing, its very fetch is in the log under its query, with the windows of its kind or ten minutes |
| Revalidation.WhatIsStoredIsServed | crates/rdap-cache/src/lib.rs:357-429 | a lookup that reads after a store, with no removal or other write of the key before its read, and that classifies within the time to live, is answered with what was fetched |
| Revalidation.WhatIsRemovedIsMissed | crates/rdap-cache/src/lib.rs:361-398 | in every run a lookup that reads after the entry was evicted, or invalidated by a reader that found it over, with no write of the key in between, misses |
| TaskOrigins.SecondLookHasCause | crates/rdap-cache/src/lib.rs:526-534 | in every run a follower looks again only after it found the slot gone, or was notified after it registered |
| TaskOrigins.FetchesArePermitted | crates/rdapify-client/src/lib.rs:704-713 | in every run a task at the network got a permit of the rate limiter first |
| TaskOrigins.TurnedAwayByLimiter | crates/rdapify-client/src/lib.rs:704-713 | only the limiter turns a query away, and a refresh ends without storing only if the limiter refused it |
| TaskOrigins.UpstreamIsOwnFetch | crates/rdapify-client/src/lib.rs:714-735 | a query that went upstream is answered with the outcome of the fetch it made itself |
| SingleFlightTheorems.CountersSumToLookups | crates/rdap-cache/src/lib.rs:357-400 | each counter is the number of lookups with that answer and the four add up to the lookups made |
| SingleFlightTheorems.InFlightSoftCap | crates/rdap-cache/src/lib.rs:483-489 | the in-flight registry exceeds its cap by less than the number of tasks ever between check and claim |
| SingleFlightTheorems.InFlightNeverFarOver | crates/rdap-cache/src/lib.rs:483-489 | with N queries the registry never has more than cap - 1 + N slots |
| SingleFlightTheorems.QuiescentMeansSettled | crates/rdapify-client/src/lib.rs:621-735 | when nothing can move every task has returned or is a lost follower, and no slot is taken |
| SingleFlightTheorems.TaskStepsBounded | crates/rdapify-client/src/lib.rs:621-799 | N queries and the refreshes they spawn take at most 20 N steps |
| BootstrapFile.TrimEnd | crates/rdap-bootstrap/src/lib.rs:86 | removes exactly the run of that character at the end |
| BootstrapFile.UsableServersInParts | crates/rdap-bootstrap/src/lib.rs:84-88 | whether a server is kept does not depend on its neighbours, and the order stays |
| BootstrapFile.OneServer | crates/rdap-bootstrap/src/lib.rs:84-88 | a server is dropped exactly when it is nothing but slashes, and otherwise kept without those at its end |
| BootstrapFile.FirstServerIsHead | crates/rdap-bootstrap/src/lib.rs:560-565 | the first server is the head of the usable servers, and there is none exactly when they are empty |
| DnsBootstrap.TrimmedIsCore | crates/rdap-bootstrap/src/lib.rs:528 | trimming removes the white space around the name and nothing else |
| DnsBootstrap.CanonicalKeepsLetters | crates/rdap-bootstrap/src/lib.rs:511 | a canonical name is the given one without its final dots, the same up to case, with no upper-case letter |
| DnsBootstrap.CanonicalIsIdempotent | crates/rdap-bootstrap/src/lib.rs:511 | normalizing a normalized name changes nothing, so the two normalizations agree |
| DnsBootstrap.JoinSplit | crates/rdap-bootstrap/src/lib.rs:515-516 | joining the labels of a name gives the name back |
| DnsBootstrap.ProbeFindsLongest | crates/rdap-bootstrap/src/lib.rs:515-516 | probing succeeds exactly when some key is a label suffix of the name, and then returns the entry of the longest |
| DnsBootstrap.LongestSuffixIsLongestMatch | crates/rdap-bootstrap/src/lib.rs:503-517 | for every index and domain the lookup returns the entry of the longest matching label suffix, and nothing exactly when there is none |
| DnsBootstrap.BuildIndex | crates/rdap-bootstrap/src/lib.rs:81-100 | the index gives every key the usable servers of the services listing it, in file order, and no key an empty list |
| DnsBootstrap.ServersForHead | crates/rdap-bootstrap/src/lib.rs:83-98 | a key's first server is the first usable server of the earliest service offering it, and it has one exactly when some service offers it |
| DnsBootstrap.EveryServerIsIndexed | crates/rdap-bootstrap/src/lib.rs:89-97 | a server is indexed under a key exactly when some service that lists the key, not only the earliest, has it as a usable server |
| DnsBootstrap.IndexedKeysAreOffered | crates/rdap-bootstrap/src/lib.rs:89-97 | the indexed keys are exactly the lower-cased patterns of services with a usable server |
| DnsBootstrap.ResolverIsDirectSearch | crates/rdap-bootstrap/src/lib.rs:267-290 | for every service list, custom map and domain, the resolver's answer is the one a direct search of the list gives, errors included |
| DnsBootstrap.NoServerFoundIffNothingListed | crates/rdap-bootstrap/src/lib.rs:280-285 | NoServerFound is answered exactly when the name is not empty and no custom key and no pattern of a usable service is a label suffix of it |
| DnsBootstrap.CaseDoesNotMatter | crates/rdap-bootstrap/src/lib.rs:511 | names that differ only in the case of their letters get the same answer |
| DnsBootstrap.FinalDotDoesNotMatter | crates/rdap-bootstrap/src/lib.rs:528 | a final dot changes no answer |
| DnsBootstrap.PatternCaseDoesNotMatter | crates/rdap-bootstrap/src/lib.rs:92-97 | patterns that differ only in case are offered under the same keys |
| DnsBootstrap.CustomAnswersWithoutIndex | crates/rdap-bootstrap/src/lib.rs:270-276 | a custom match is answered, longest first, even if the file cannot be loaded |
| DnsBootstrap.LoadErrorIsPassedOn | crates/rdap-bootstrap/src/lib.rs:267-290 | the loader's error is answered exactly for a name that is not empty and has no custom match |
| IpBootstrap.ContainsIsRange | crates/rdap-bootstrap/src/lib.rs:337-339 | a prefix of length L holds exactly the addresses from head * 2^(W-L) up to (head + 1) * 2^(W-L), with W the 32 or 128 bits of its family |
| IpBootstrap.NestedOrDisjoint | crates/rdap-bootstrap/src/lib.rs:337-339 | two prefixes that share an address are nested |
| IpBootstrap.FirstMatchIsLongestIff | crates/rdap-bootstrap/src/lib.rs:335-343 | the scan returns the longest match for every address exactly when, for each route preceded by a shorter one containing it, the routes before that one cover the longer one's network |
| IpBootstrap.OrderedListIsLongest | crates/rdap-bootstrap/src/lib.rs:335-343 | the scan returns the longest match for every address if no prefix is preceded by a shorter one containing it |
| IpBootstrap.BroadPrefixFirst | crates/rdap-bootstrap/src/lib.rs:335-343 | a concrete list with a shorter prefix first whose scan is not the longest match |
| IpBootstrap.BlanketedIsHit | crates/rdap-bootstrap/src/lib.rs:337-339 | a network covered in halves by a list has each of its addresses in the list |
| IpBootstrap.BareIsMissed | crates/rdap-bootstrap/src/lib.rs:337-339 | a network not so covered has an address that the list misses |
| IpBootstrap.BuildRoutes | crates/rdap-bootstrap/src/lib.rs:116-129 | the list built is the parsed patterns of the services with a usable server, in file order |
| IpBootstrap.ScanIsDirectSearch | crates/rdap-bootstrap/src/lib.rs:116-129 | scanning the built list answers with the server of the earliest usable service listing the address, and with an error exactly when none does |
| BootstrapLoader.OneLeader | crates/rdap-bootstrap/src/lib.rs:359-374 | in every run leaders never overlap and the slot is the leader's own until it releases it |
| BootstrapLoader.OrphanedIffLeaderDropped | crates/rdap-bootstrap/src/lib.rs:371-378 | the slot is left without a holder exactly when some leader was dropped in mid-fetch |
| BootstrapLoader.BlockedFollower | crates/rdap-bootstrap/src/lib.rs:379-391 | a follower that cannot go on missed its signal, is still to get it, or waits in the slot of its own leader, which was dropped in mid-fetch |
| BootstrapLoader.MissedIffStraddled | crates/rdap-bootstrap/src/lib.rs:359-382 | in every run a waiting call has missed its signal exactly when it joined, then its leader signalled, and only then it registered |
| BootstrapLoader.MissedIsReachable | crates/rdap-bootstrap/src/lib.rs:359-382 | two queries of a cold loader can end with one answered and the other asleep, whatever the fetch's result |
| BootstrapLoader.FallbackHasCause | crates/rdap-bootstrap/src/lib.rs:379-391 | in every run a follower fetches for itself only if its own leader's fetch had failed, or the cache was cleared or a whole lifetime passed between that leader's store and the reread |
| BootstrapLoader.AnswersAreRecent | crates/rdap-bootstrap/src/lib.rs:350-405 | in every run a call gets its answer from a successful fetch that ended at most a lifetime before, with the cache not cleared in between |
| BootstrapLoader.FailuresAreOwn | crates/rdap-bootstrap/src/lib.rs:371-391 | in every run a call fails only if a fetch of its own failed; no call answers with another's error |
| BootstrapLoader.AnswerableIff | crates/rdap-bootstrap/src/lib.rs:350-392 | with nothing under way, the next query can be answered exactly when the copy is fresh or the slot is free |
| BootstrapLoader.WedgedForever | crates/rdap-bootstrap/src/lib.rs:350-392 | with a stale copy and a taken slot and nothing under way, no call returns in any continuation |
| BootstrapLoader.SixStepsEach | crates/rdap-bootstrap/src/lib.rs:350-392 | in every run a call takes at most six steps of its own |
| BootstrapLoader.StuckMeansSettled | crates/rdap-bootstrap/src/lib.rs:350-392 | when no call can go on, each has returned, was dropped, or is a follower that missed its signal or whose leader was dropped in mid-fetch |
| BootstrapLoader.ExpiredIsLoadedAgain | crates/rdap-bootstrap/src/lib.rs:395-402 | after a load and a lifetime the next query goes to the network again |
| BootstrapLoader.DroppedLeaderWedges | crates/rdap-bootstrap/src/lib.rs:371-378 | dropping the first leader of a cold loader leaves every later query without an answer |
| JsonValidation.NoErrorIffWithinLimits | crates/rdap-core/src/validation/json.rs:22-30 | the recursive definition accepts a document exactly when every node reached by a path is within its size limit and the depth limit |
| JsonValidation.ErrorHasWitness | crates/rdap-core/src/validation/json.rs:22-30 | every error reported has a node that breaks exactly that limit at its depth, the first of the walk: no node visited before it breaks any limit, and size is reported before depth |
| JsonValidation.PushAll | crates/rdap-core/src/validation/json.rs:52-54 | pushing the children keeps the order of the walk, the nodes to visit and the stack bound |
| JsonValidation.Visit | crates/rdap-core/src/validation/json.rs:39-76 | one turn of the walk reports the first error left, or leaves one node fewer and the same first error |
| JsonValidation.ValidateJsonStructure | crates/rdap-core/src/validation/json.rs:31-80 | the walk returns what the recursive definition does, pops each node at most once (every node when it accepts), and its largest stack is the specified peak, at most D * (W - 1) + 1 entries |
| JsonValidation.BoundIsAttained | crates/rdap-core/src/validation/json.rs:37-68 | under every limits some accepted document takes the stack to exactly D * (W - 1) + 1 entries |
| JsonValidation.ArrayLenIsFirst | crates/rdap-core/src/validation/rdap.rs:59-61 | the length measured is that of the member of the name if it is an array, and 0 if it is none or is missing |
| JsonValidation.ObjectVerdict | crates/rdap-core/src/validation/rdap.rs:28-56 | for every value, sound or not, the field stage reports the first of the six members, in the documented order, that is over its limit, and nothing exactly if none is |
| JsonValidation.LaterArrayChecksAreDead | crates/rdap-core/src/validation/rdap.rs:45-53 | after the structural stage the remarks, notices and nameservers checks cannot fire |
| JsonValidation.ValidateRdapResponse | crates/rdap-core/src/validation/mod.rs:55-77 | returns the verdict of the first failing stage, else the value |
| JsonValidation.VerdictTellsWhy | crates/rdap-core/src/validation/mod.rs:55-77 | what each pipeline error means: a member error exactly when the whole document is structurally sound and that member is the first, in the coded order, over its limit; any structural error names the limit that the first offending node of the walk breaks; too large and unparsable exactly when they say so |
| JsonValidation.AcceptedIffWithinEveryLimit | crates/rdap-core/src/validation/mod.rs:55-77 | the pipeline accepts exactly the parsed documents within every limit, and returns them unchanged |
| Batch.Limit | crates/rdapify-client/src/lib.rs:394 | the limit is the one asked for, ten if none is, and one for zero |
| Batch.DomainAvailableBatch | crates/rdapify-client/src/lib.rs:389-417 | for every list, limit and completion order, answer k is that of the k-th name whose task did not panic, there are no others, and without a panic answer k is that of name k; each slot is written at most once and at most the limit of tasks are outstanding |
| Batch.SurvivingInOrder | crates/rdapify-client/src/lib.rs:409-416 | the surviving indices are strictly increasing and are all that survive |
| Batch.AnswerBelongsToName | crates/rdapify-client/src/lib.rs:409-416 | answer k is that of the k-th name whose task did not panic, and sits at that name's own index exactly when no task up to k panicked |
| Batch.PanicShiftsAnswers | crates/rdapify-client/src/lib.rs:409-416 | of two names the first one's task panics, and the single answer returned, at index 0, is that of the second |
| Batch.OneAnswerPerNameIff | crates/rdapify-client/src/lib.rs:416 | there are as many answers as names exactly when no task panicked |

## Left out

- HTTP, TLS, DNS, redirects, body limits and URL parsing: an attempt is an oracle that
  yields a value, or an error class with an optional Retry-After.
- The order in which waiting calls get a permit or the breaker's lock: any of them may be
  next, so nothing is said about fairness. Closing a semaphore is not modelled; the source
  never closes one.
- `per_host_semaphore`, `fetch_with_retry`'s permits and `fetch_with_cache` are transition
  systems over values, because several tasks run them at once; the classes in `Breaker` and
  `Cache` are the same operations for one caller at a time.
- DashMap's length is exact in the model; in the source it may be approximate under
  contention, which would weaken the overshoot bounds.
- The cache's admission and idle policies: any entry may vanish at any step. The breaker
  registry: the breaker results are about one breaker object, and an evicted breaker is
  simply a new one.
- The rate limiter's algorithm: `acquire` is a finite wait with an arbitrary verdict.
- The clock is non-decreasing for the breaker's probe spacing; the source reads wall time.
- Threads that panic while holding a guard: the guard's drop is the same as on cancellation.
- The disabled-cache path, `CachePolicy::effective_ttl` and the client's unused
  `fetch_with_cache_hint`, which the live path does not call.
- Unicode lower-casing and white space: letters and spaces are ASCII. The optional
  public-suffix check of the name is not modelled.
- Address and prefix parsing are an arbitrary function from patterns to networks; the
  number-range scan for autonomous systems is left out as a simpler case of the same scan.
- Two custom server keys that differ only in case: the source keeps an arbitrary one, the
  model takes the lower-cased map as given.
- JSON parsing, duplicate keys and key lengths: the model starts from the parsed tree.
- Configuration checks that do not bear on the modelled fields, tracing, metrics labels,
  error mapping, normalization of responses, the CLI, the service and the bindings.
