# Verified models of the gateway's stateful core

A Dafny 4.11 model of the parts of the multi-account API gateway that keep state across requests, with
proofs of what they are meant to guarantee over whole runs.

Four groups of code are modelled.

1. **Scheduler and slot allocator** (`pool/`). `SmoothRoundRobin` is the scoring scheme on its own: a closed form
   for every score, bounds, and exact periodicity. `WeightedScheduler` is the pool built on it: eligibility,
   ordering in the three modes, commits, skipped accounts, fallback; `SelectionOrder` reads who is offered, and in
   which order, off the accounts' own fields. `SlotProtection` holds the three nested in-flight counters, the
   release-once guards and the per-key 429 circuit; `CooldownRefusal` says when a slot is refused and for how long,
   `HalfOpenProbes` when probes overlap, `ProfileCounting` when changing settings break a counter.
   `AvailabilityWait` is the queue of requests waiting for a slot.
2. **Prompt-cache tracker** (`proxy/cache_tracker.go`). `CacheLru` is the store: 64 shards with two-level maps, a list
   per account, a list per shard and one shared counter. `PrefixMatch` is the lookup and the creation
   reservations, `TokenAccounting` the token arithmetic reported to clients.
3. **Event stream pipeline** (`proxy/eventstream.go`, `proxy/kiro.go`). `EventFrames` is the binary frame decoder,
   `ToolAssembly` the assembly of interleaved tool-call fragments, `FragmentRouting` which call a fragment reaches,
   `StreamParser` the parse loop with its end-of-stream recovery, `UsageMerge` and `TokenUsage` the usage counters.
4. **Small concurrent protocols.** `ApiAdmission` (per-key admission), `ActivityWatchdog` (idle watchdog),
   `EndpointRoutes` (endpoint route registry), `RouteMemory` (what its failures and successes mean later).

**How the models are built.** Each lock-protected critical section is one atomic step. Most modules have two layers:
a specification (datatypes, functions and a step relation, over which the lemmas speak) and a class or method in the
source's imperative form whose `ensures` equates its new state with the specification. A run is a sequence of states
linked by steps, so the run lemmas quantify over every interleaving. Time is an explicit integer in milliseconds that
does not run backwards.

**Where the code falls short of a tempting property**, the project gives a concrete run and the exact condition:

- A settlement in a later window can pass the token limit (`ApiAdmission.LateSettlementBreaksCap`); over a run the
  limit holds exactly if every settlement and direct addition fits when it is made (`CapKeptIff`).
- A call that never got a name can vanish without an error (`ToolAssembly.UnnamedCallVanishes`); a call that left
  the queue was emitted exactly if it had a name then (`LeftEmittedIffNamed`).
- The deltas of a call need not spell its arguments (`ToolAssembly.ReplacedDeltasDiffer`); they do exactly if no
  whole value replaced streamed ones (`DeltasSpellArguments`).
- The merged input can exceed every reported total (`TokenUsage.DerivedBucketRaisesInput`); it never does exactly if
  every frame's running buckets fit the total known then (`StreamInputAsReportedIff`).
- Token conservation fails exactly at the ceiling of the integer range, where saturation hides the overflow
  (`TokenAccounting.CeilingEscapes`, `EveryModeConserves`).
- Cache lists need not be newest first, because stores read the clock before they take the shard's lock
  (`CacheLru.LateStoreBreaksOrder`); they are exactly if no store is behind another entry of its shard
  (`NewestFirstIffInTime`). Everything else about the store holds for any instants.
- When busy accounts are skipped the weighted shares are lost (`WeightedScheduler.SkippedHeadsLoseFairness`); a
  window is fair exactly if no pick goes to an account that already had its weight in it (`SkippingFairIff`), which
  the scores before each pick tell (`ShareByScore`).
- The wait of a busy answer can be shorter than the cooldown behind it (`CooldownRefusal.FullAccountHidesCooldown`); it
  covers the cooldown exactly if no key asked earlier blocks for less (`WaitCoversCooldownIff`).
- Two half-open probes can overlap (`HalfOpenProbes.ProbesOverlap`). A key stays half-open exactly until a step lifts
  it (`HalfOpenThroughoutIff`), so an overlap needs such a step by somebody else (`OverlapNeedsLift`).
- A limit imposed while guards are held miscounts the profile (`ProfileCounting.ImposedLimitMiscounts`); the counter
  is exact exactly if no guard granted without a limit is released while a counted one is held
  (`ExactIffNoMiscount`).
- A request can sleep on a free slot (`AvailabilityWait.ReleaseGoesUnheard`): exactly if one was free when it
  registered, as long as no cooldown ends (`SleepsOnFreeSlotIff`), and otherwise only through the end of a cooldown
  (`OnlyCooldownsEscape`).
- An eviction can remove an entry that is no longer the oldest (`CacheLru.VictimOvertaken`), exactly if an older store
  into a shard already looked at is still in place (`ScannedVictimOldestIff`).

**Floating point.** Conservation of tokens is proved for *any* arithmetic that scales buckets, so rounding errors
cannot break it. Idempotence needs the arithmetic to be exact on a whole, the target range needs a product that grows
with the rate; both are proved of the exact real operations.

`dafny verify dfyconfig.toml` checks the whole project.

## Model

| member | source | states |
|---|---|---|
| SmoothRoundRobin.ScoreClosedForm | pool/account.go:470-498 | a position's score after any picks is steps times its weight minus its picks times the total weight |
| SmoothRoundRobin.ScoresSumToZero | pool/account.go:470-498 | after any picks from zero the scores sum to zero |
| SmoothRoundRobin.ScoresBounded | pool/account.go:452-498 | always picking the top keeps every score strictly above minus the total weight |
| SmoothRoundRobin.FullPeriod | pool/account.go:452-498 | one period of total-weight picks from zero picks each position exactly its weight and returns to zero |
| SmoothRoundRobin.Periodic | pool/account.go:452-498 | when equal scores lead to equal picks, scores repeat with the total weight as period, from any point of the run |
| SmoothRoundRobin.WindowCount | pool/account.go:452-498 | every window of total-weight picks, wherever it starts, picks each position exactly its weight |
| SmoothRoundRobin.FairIffWithinShares | pool/account.go:470-498 | for any picks, a window of total-weight picks is fair exactly if no pick goes to a position that already had its weight in that window |
| SmoothRoundRobin.WithinShareByScore | pool/account.go:470-498 | whether a pick stays within its share is read off the scores just before it |
| WeightedScheduler.EligibleExact | pool/account.go:348-386 | exactly the ready accounts in pool order; accounts that must refresh first only when none is ready |
| WeightedScheduler.WeightedHeadIsTop | pool/account.go:452-466 | in weighted mode no eligible account has a higher score plus weight than the head |
| WeightedScheduler.CommitConservesSum | pool/account.go:470-498 | every commit conserves the sum of scores, even when a busy top account was skipped |
| WeightedScheduler.ExactFairness | pool/account.go:452-498 | with a fixed roster and the head always taken, every window of total-weight picks chooses each account exactly its effective weight, scores repeat, and none falls to minus the total |
| WeightedScheduler.EligibleIsRoster | pool/account.go:348-386 | unique ids make any query's eligible list a roster to which fairness applies |
| WeightedScheduler.SkippingFairIff | pool/protection.go:273-285 | when busy accounts are skipped, a window gives each account its effective weight exactly if no pick goes to an account that already had its weight in the window, and exactly then every score returns |
| WeightedScheduler.ShareByScore | pool/account.go:470-498 | that guard read off the pool's scores before the commit |
| WeightedScheduler.SkippedHeadsLoseFairness | pool/protection.go:273-285 | for every roster of several accounts, a run in which one of them gets the whole window |
| WeightedScheduler.BalancedWindow | pool/account.go:388-450 | in balanced mode every window of as many picks as the leading tier has accounts picks each of them exactly once |
| WeightedScheduler.CursorCountsPicks | pool/account.go:470-498 | the rotation cursor counts exactly the committed picks of balanced and weighted mode |
| SelectionOrder.OfferedIff | pool/account.go:348-386 | an account is offered exactly if it is not excluded, cooling, blocked or known to lack the model and has a fresh token; accounts to refresh, not failing to, only when there is none |
| SelectionOrder.OrderIsRanked | pool/account.go:388-468 | the order is a permutation in which any earlier account has, in priority mode, smaller priority, then the model advertised, then larger weight, then smaller id; in weighted mode the higher score first |
| SelectionOrder.BalancedOrderIsRanked | pool/account.go:410-450 | in balanced mode priorities never decrease along the order, and behind the leading priority advertised accounts and smaller ids come first |
| SelectionOrder.HeadHasSmallestPriority | pool/account.go:388-450 | outside weighted mode the head has the smallest priority of all eligible accounts, and in priority mode outranks each of them |
| SelectionOrder.FallbackIgnoresCooldowns | pool/account.go:213-237 | the fallback considers exactly the accounts that could be offered if nobody were cooling |
| WeightedScheduler.AccountPool.SelectionIndexesForTokenState | pool/account.go:359-386 | the selection loop computes the specified eligible list |
| WeightedScheduler.AccountPool.OrderSelectionIndexes | pool/account.go:388-468 | sorting and rotation compute the order that `SelectionOrder` describes on the accounts' fields |
| WeightedScheduler.AccountPool.SelectionIndexes | pool/account.go:348-357 | ready accounts first, refresh fallback only if none |
| WeightedScheduler.AccountPool.CommitWeightedSelection | pool/account.go:470-498 | the commit loop updates scores and cursor as specified and keeps the score sum |
| WeightedScheduler.AccountPool.GetNextExcluding | pool/account.go:195-238 | takes the head of the order and commits it, or falls back |
| WeightedScheduler.AccountPool.Fallback | pool/account.go:213-237 | the first usable account that is not cooling, else the one that recovers first, else none |
| SlotProtection.CooldownBounded | pool/protection.go:719-759 | a cooldown is positive and never longer than the largest configured, base or one-day bound |
| SlotProtection.BackoffGrows | pool/protection.go:719-759 | repeated rate limits never shorten the backoff, which never passes its maximum |
| SlotProtection.BackoffDoubles | pool/protection.go:719-759 | the first backoff is the base and every repeat doubles it up to the maximum |
| CooldownRefusal.CooldownHonoursHint | pool/protection.go:738-756 | a retry hint above the backoff is taken up to a day, a smaller one changes nothing, and jitter only lengthens, up to the maximum |
| CooldownRefusal.GrantedIffNothingBlocks | pool/protection.go:520-562 | a slot is granted exactly if the account key, the limited profile key and the model key are each not half-open, past their deadline and below their limit; else the first that blocks names the wait |
| CooldownRefusal.CoolingKeyRefuses | pool/protection.go:689-717 | in every run, after a rate limit at t with cooldown d every acquisition that needs the key before t + d is busy, unless a success or another rate limit was reported for it; the wait is the rest of the cooldown or that of a key asked earlier |
| CooldownRefusal.WaitCoversCooldownIff | pool/protection.go:520-562 | that wait covers the rest of the cooldown exactly if no key asked earlier blocks for less |
| CooldownRefusal.FullAccountHidesCooldown | pool/protection.go:520-524 | a run in which a full account answers one second for a key that cools for five |
| CooldownRefusal.CountsStrikes | pool/protection.go:297-369 | in every run a key's count is the number of rate limits since its last success |
| CooldownRefusal.ProbeSentIff | pool/protection.go:761-767 | the first acquisition after a cooldown, and no other, turns the key half-open |
| CooldownRefusal.AbandonedProbeCoolsAgain | pool/protection.go:779-792 | releasing a guard on a half-open key starts the last cooldown again |
| SlotProtection.ApplyProtectionCooldown | pool/protection.go:719-759 | the doubling loop equals the closed-form backoff with retry hint and jitter |
| SlotProtection.StepKeepsSound | pool/protection.go:297-369 | every acquire, release, rate-limit and success step keeps counters exact and circuits sound |
| SlotProtection.RunSound | pool/protection.go:520-609 | in every reachable state rateLimitCount > 0 iff exactly one of half-open and deadline is set, and half-open implies an outstanding guard |
| SlotProtection.SlotConservation | pool/protection.go:520-609 | in every run each counted key's counter equals its unreleased guards and stays within its limit |
| SlotProtection.AccountCounterIsSum | pool/protection.go:520-609 | an account's counter is the sum over its models plus its guards without a model |
| SlotProtection.SecondReleaseIsHarmless | pool/protection.go:203-208 | in every run, releasing a guard again, however late, changes no counter and no circuit |
| SlotProtection.NoPermanentWedge | pool/protection.go:689-796 | after any run, once all guards are released and the longest cooldown has passed, any acquisition is granted |
| SlotProtection.UpstreamPool.TryAcquireSlot | pool/protection.go:520-562 | account, profile and model are checked in turn, each refusing as `GrantedIffNothingBlocks` spells out; busy changes nothing |
| SlotProtection.UpstreamPool.ReleaseUpstreamSlot | pool/protection.go:564-609 | counters drop, an abandoned probe re-opens its circuit, idle entries disappear |
| SlotProtection.UpstreamPool.RecordUpstreamRateLimited | pool/protection.go:297-334 | cools the model key and, if limited, the profile key; answers the longer cooldown |
| SlotProtection.UpstreamPool.RecordUpstreamSuccess | pool/protection.go:336-369 | closes both circuits and leaves counters alone |
| SlotProtection.UpstreamPool.AcquireForModel | pool/protection.go:273-291 | grants the first account in order that is not busy; otherwise nothing changes and the longest wait is answered |
| HalfOpenProbes.StaysHalfOpenIff | pool/protection.go:761-792 | a half-open key stays half-open through a step exactly if the step is no release of a guard held on it, no rate limit and no success reported for it |
| HalfOpenProbes.HalfOpenThroughoutIff | pool/protection.go:761-792 | a key is half-open throughout a stretch of a run exactly if no step in it lifts it |
| HalfOpenProbes.OverlapNeedsLift | pool/protection.go:564-609 | a second probe while the first one's guard is out needs a lifting step in between that is not the release of that guard |
| HalfOpenProbes.OverlapNeedsEarlierGuard | pool/protection.go:761-792 | so another guard was live on the key when the first probe started, or a rate limit or success was reported for it in between |
| HalfOpenProbes.ProbesOverlap | pool/protection.go:564-609 | a run in which an earlier guard's release re-opens the circuit and two probes are out together |
| ProfileCounting.ExactIffNoMiscount | pool/protection.go:548-600 | under changing settings a profile's counter is its number of counted guards in every state exactly if no uncounted guard is released while a counted one is held |
| ProfileCounting.FixedLimitIsExact | pool/protection.go:548-600 | settings that neither impose nor lift a profile's limit keep its counter exact |
| ProfileCounting.ImposedLimitMiscounts | pool/protection.go:595-600 | a run in which an imposed limit makes a release take a held guard off the counter |
| AvailabilityWait.SilentFreesNothing | pool/protection.go:520-562 | a step of the slot tables that does not signal frees no slot for any account and model |
| AvailabilityWait.SignalsWake | pool/protection.go:160-175 | every signal after a request registered wakes it |
| AvailabilityWait.NothingFreedInSleep | pool/protection.go:67-121 | while a request sleeps, whatever it could have it could already have had from the state it registered in |
| AvailabilityWait.OnlyCooldownsEscape | pool/protection.go:67-121 | a waiter sleeps on a slot it could have only if that was free when it registered or a cooldown ended since |
| AvailabilityWait.SleepsOnFreeSlotIff | pool/protection.go:67-121 | while no cooldown it depends on ends, a waiter sleeps on a slot it could have exactly if it could have one when it registered |
| AvailabilityWait.ReleaseGoesUnheard | pool/protection.go:160-175 | a run in which a release falls between the busy answer and the registration |
| AvailabilityWait.QueueWithinCapacity | pool/protection.go:89-103 | a positive capacity bounds the waiting requests of every run |
| AvailabilityWait.AvailabilityQueue.Subscribe | pool/protection.go:89-95 | refuses exactly when the queue is full, else registers as specified and answers the channel |
| AvailabilityWait.AvailabilityQueue.Unsubscribe | pool/protection.go:97-103 | leaves the queue as specified |
| AvailabilityWait.AvailabilityQueue.SignalAvailability | pool/protection.go:160-175 | closes the channel exactly if somebody waits |
| SlotProtection.UpstreamRequestGuard.Release | pool/protection.go:203-208 | releases once, however often it is called |
| CacheLru.StoredOk | proxy/cache_tracker.go:907-950 | storing, at whatever instant, keeps a shard's maps and lists in agreement, each entry listed exactly once |
| CacheLru.StoredNewestFirstIff | proxy/cache_tracker.go:907-950 | a store leaves the lists newest first exactly if nothing else in the shard was used later |
| CacheLru.DroppedOk | proxy/cache_tracker.go:952-973 | removal keeps a shard's maps and lists in agreement and drops empty accounts |
| CacheLru.CountIsSize | proxy/cache_tracker.go:1120-1125 | the shared counter is the number of entries over all shards |
| CacheLru.StoreRefines | proxy/cache_tracker.go:907-950 | storing in the account's shard is storing in one global map |
| CacheLru.DropRefines | proxy/cache_tracker.go:952-973 | removing from the account's shard is removing from one global map |
| CacheLru.ClampRefines | proxy/cache_tracker.go:1093-1118 | clamping lifetimes changes entries only and keeps every list |
| CacheLru.ClampCuts | proxy/cache_tracker.go:1093-1118 | every entry stays, with its lifetime cut to the maximum and, if it was cut, its deadline to that from now |
| CacheLru.ShardedIsOneCache | proxy/cache_tracker.go:907-1118 | after any run, whatever instants its stores carry, the shards hold exactly what one plain map would, maps and lists agree, the counter is its size |
| CacheLru.NewestFirstIffInTime | proxy/cache_tracker.go:816-832 | over a run all lists stay newest first exactly if no store is behind another entry of its shard |
| CacheLru.ClockedIsNewestFirst | proxy/cache_tracker.go:907-1073 | a non-decreasing clock between stores keeps every list newest first |
| CacheLru.LateStoreBreaksOrder | proxy/cache_tracker.go:816-832 | two stores that enter the lock with decreasing instants break the order |
| CacheLru.ScannedVictimOldestIff | proxy/cache_tracker.go:1041-1071 | with other steps between the scan of each shard and the removal, an unused victim is still the oldest entry exactly if no store into a shard already looked at is both older and still in place |
| CacheLru.VictimOvertaken | proxy/cache_tracker.go:1041-1071 | a run under a non-decreasing clock in which it is not |
| CacheLru.BackIsOldest | proxy/cache_tracker.go:1034-1073 | the back of a shard's list is its least recently used entry |
| CacheLru.AccountBackIsOldest | proxy/cache_tracker.go:1008-1021 | the back of an account's list is that account's least recently used entry |
| CacheLru.OldestBackIsOldest | proxy/cache_tracker.go:1034-1073 | the oldest back over all shards is the oldest entry of the whole cache |
| CacheLru.FindOldestBack | proxy/cache_tracker.go:1041-1061 | the scan over shards finds an oldest back, or nothing only when all are empty |
| CacheLru.PutInShard | proxy/cache_tracker.go:907-950 | a known entry moves to the front of both lists, a new one is pushed there and counted |
| CacheLru.RemoveFromShard | proxy/cache_tracker.go:952-973 | an entry leaves the map and both lists together |
| CacheLru.PromptCacheTracker.PutEntry | proxy/cache_tracker.go:907-950 | updates the global map at one key, keeps all structure, and keeps the lists newest first exactly if it is in time |
| CacheLru.PromptCacheTracker.RemoveEntry | proxy/cache_tracker.go:952-973 | removes one key from the global map and says whether it was there |
| CacheLru.PromptCacheTracker.EnforceAccountLimit | proxy/cache_tracker.go:1008-1021 | the account keeps its most recently used entries up to the limit; other accounts are untouched |
| CacheLru.PromptCacheTracker.EnforceAllAccountLimits | proxy/cache_tracker.go:1023-1032 | the same for every account of every shard |
| CacheLru.PromptCacheTracker.EnforceGlobalLimit | proxy/cache_tracker.go:1034-1073 | exactly the limit is left; if the lists are newest first only globally least recently used entries go |
| CacheLru.PromptCacheTracker.PruneExpired | proxy/cache_tracker.go:1075-1091 | exactly the expired entries go |
| CacheLru.PromptCacheTracker.ConfigureLimits | proxy/cache_tracker.go:252-271 | each account keeps its most recently used entries up to its limit, and of those the whole cache up to its own |
| CacheLru.PromptCacheTracker.ClampEntryTTLs | proxy/cache_tracker.go:1093-1118 | longer lifetimes are cut, and deadlines with them |
| CacheLru.PromptCacheTracker.Clear | proxy/cache_tracker.go:1246-1262 | the cache is empty and valid |
| PrefixMatch.FinalizePromptCacheProfile | proxy/cache_tracker.go:473-505 | keeps exactly the breakpoints that extend the covered prefix, bounded by the total, or yields nothing |
| PrefixMatch.KeptIffExtending | proxy/cache_tracker.go:473-505 | a breakpoint is kept exactly if its bounded count exceeds every earlier one |
| PrefixMatch.BreakdownCovers | proxy/cache_tracker.go:1650-1672 | the two lifetimes together are exactly what the matched prefix leaves uncovered |
| PrefixMatch.BreakdownByLifetime | proxy/cache_tracker.go:1650-1672 | each breakpoint's increment lands in its own lifetime, so a lifetime that no breakpoint has gets nothing |
| PrefixMatch.ComputePromptCacheTTLBreakdown | proxy/cache_tracker.go:1650-1672 | the loop computes that split |
| PrefixMatch.ScanFindsLongest | proxy/cache_tracker.go:678-717 | the backward scan returns the maximum bounded count over stored, large-enough breakpoints |
| PrefixMatch.LookupAgrees | proxy/cache_tracker.go:633-808 | the match is the longest live prefix, the read its share to the nearest token, creation the rest split by lifetime or nothing while another creates it, and a free prefix is reserved for ten minutes |
| PrefixMatch.ReservationHolds | proxy/cache_tracker.go:719-746 | a live reservation survives every operation that does not end it and blocks reserving its fingerprint |
| PrefixMatch.ReReservedOnlyAfterEnd | proxy/cache_tracker.go:719-746 | a fingerprint is reserved again only after store, hit, matching release, expiry or clear |
| PrefixMatch.StaleReleaseIsHarmless | proxy/cache_tracker.go:847-862 | a late release never frees a newer reservation |
| PrefixMatch.ReleasedIsReservable | proxy/cache_tracker.go:847-862 | a release frees exactly its own reservation, so the next lookup that misses the prefix reserves it again |
| PrefixMatch.StoreIsExact | proxy/cache_tracker.go:810-842 | under each fingerprint a store leaves a fresh entry with the capped lifetime of the last breakpoint that fits and no reservation; other fingerprints keep what they had unless it expired |
| PrefixMatch.LookupTouchesMatch | proxy/cache_tracker.go:698-717 | a hit gives the matched entry a full capped lifetime and spares all others |
| PrefixMatch.FullHitIffLive | proxy/cache_tracker.go:633-808 | a profile is matched whole, with nothing created or reserved, exactly while the entry of its last breakpoint lives |
| PrefixMatch.StoredIsFound | proxy/cache_tracker.go:698-842 | in every run a stored profile is found whole at every instant before the store plus its capped lifetime and not from then on, unless something concerned its last fingerprint |
| PrefixMatch.FoundIsFoundAgain | proxy/cache_tracker.go:698-717 | the same deadline counts from a lookup that found it |
| PrefixMatch.CacheScope.Scan | proxy/cache_tracker.go:678-717 | finds the last stored breakpoint and the newest missing one |
| PrefixMatch.CacheScope.ComputeDetailed | proxy/cache_tracker.go:633-808 | performs the specified lookup, touching the hit and reserving the rest |
| PrefixMatch.CacheScope.Update | proxy/cache_tracker.go:810-842 | stores the breakpoints that fit and ends their reservations, as `StoreIsExact` says per fingerprint |
| PrefixMatch.CacheScope.Release | proxy/cache_tracker.go:847-862 | frees a reservation only with its own token |
| TokenAccounting.ReconcileBalances | proxy/cache_tracker.go:1680-1712 | reconciled buckets fit the input and lifetimes add up to creation, exactly unless the buckets pass an input at the integer ceiling |
| TokenAccounting.ReconcileIdempotent | proxy/cache_tracker.go:1680-1712 | reconciling twice is reconciling once, for every arithmetic exact on a whole |
| TokenAccounting.RoundedReconcileIdempotent | proxy/cache_tracker.go:1680-1712 | the same for the rounded exact quotient |
| TokenAccounting.ScalingIsNearest | proxy/cache_tracker.go:1685-1693 | the scaled creation bucket is the integer nearest to its exact share |
| TokenAccounting.CeilingEscapes | proxy/cache_tracker.go:1685-1693 | at the integer ceiling saturation does hide an overflow |
| TokenAccounting.TargetWithinRange | proxy/cache_tracker.go:1719-1737 | the target read lies within [ceil(n*min), floor(n*max)] if that holds an integer, within the input, and within one token of the wish |
| TokenAccounting.ExactTargetWithinRange | proxy/cache_tracker.go:1719-1737 | the same with the exact product |
| TokenAccounting.EveryModeConserves | proxy/cache_tracker.go:1758-1824 | in every accounting mode reported input, creation and read add up to the resolved total and 5m plus 1h to creation, with the exact condition on the upstream's or the local buckets; the diagnostics keep both |
| TokenAccounting.UpstreamIsReported | proxy/cache_tracker.go:1758-1786 | outside target mode an upstream breakdown always fits and is reported exactly: its creation, its read and the lifetimes it gives |
| TokenAccounting.LocalIsReported | proxy/cache_tracker.go:1765-1787 | without an upstream breakdown a balanced local estimate is reported unchanged, and zero in actual mode |
| TokenAccounting.ProfileSplitsCreation | proxy/cache_tracker.go:1774-1778 | lifetimes that the upstream leaves out are all five minutes without breakpoints, else split as the prompt's increments are, to the nearest token |
| TokenAccounting.TargetModeReportsTarget | proxy/cache_tracker.go:1788-1813 | a warm request in target mode reports the target read, no creation and the rest as input; the rate is its own within the range or the middle of it |
| TokenAccounting.ClientUsageConserves | proxy/cache_tracker.go:1891-1911 | the client's input, creation and read add up to the input and the lifetimes to creation; leaving the cache buckets out changes nothing else |
| TokenAccounting.ClientUsageFaithful | proxy/cache_tracker.go:1891-1911 | a balanced usage reaches the client unchanged |
| EventFrames.ParseInvertsEncode | proxy/eventstream.go:153-216 | parsing the encoding of any well-formed headers, of all ten types, yields those headers |
| EventFrames.EncodeInvertsParse | proxy/eventstream.go:153-216 | every accepted header block is the encoding of the headers it yields |
| EventFrames.ReadInvertsEncode | proxy/eventstream.go:72-151 | reading an encoded frame yields its content and takes exactly its declared length |
| EventFrames.AcceptedIsEncoded | proxy/eventstream.go:72-151 | every accepted frame is the encoding of a well-formed frame with that content |
| EventFrames.CutFrameIsTruncated | proxy/eventstream.go:72-151 | every proper non-empty prefix of a frame is a truncation |
| EventFrames.BigEndian | proxy/eventstream.go:86-107 | lengths and checksums are read big-endian |
| EventFrames.HeaderSizes | proxy/eventstream.go:170-212 | how many bytes a header of each of the ten types takes |
| EventFrames.LastStringCounts | proxy/eventstream.go:153-216 | a name maps to the value of its last string header, and other types are read over |
| EventFrames.PreludeFaults | proxy/eventstream.go:72-126 | which fault a wrong length, header length or prelude checksum is, and a body that is too short |
| EventFrames.WrongChecksum | proxy/eventstream.go:128-139 | a frame whose own checksum is off is refused after its declared length |
| EventFrames.WrongHeaders | proxy/eventstream.go:141-145 | a frame in order but for its header block is refused for it |
| EventFrames.DecodingInvertsFraming | proxy/eventstream.go:72-151 | a stream cut anywhere yields its whole frames, then a clean end exactly at a frame boundary and a truncation elsewhere |
| EventFrames.WholeStream | proxy/eventstream.go:72-151 | an uncut stream yields every frame in order, then a clean end |
| EventFrames.Reader.ReadFull | proxy/eventstream.go:72-90 | fills a buffer or takes what is left |
| EventFrames.Reader.ReadEventStreamFrame | proxy/eventstream.go:72-151 | the reader's result and position are those of the specification |
| EventFrames.ParseEventStreamHeaders | proxy/eventstream.go:153-216 | the offset loop keeps the string headers, later ones replacing earlier ones, or refuses |
| ToolAssembly.HandleKeeps | proxy/kiro.go:2943-3089 | any tool-use payload keeps the queue ordered, the streamed deltas in step and named calls pending or emitted; which call it reaches is in `FragmentRouting` |
| ToolAssembly.FinishKeeps | proxy/kiro.go:3121-3165 | finishing emits a named call once with its whole arguments; only an unnamed call leaves silently |
| ToolAssembly.EmittedInOrder | proxy/kiro.go:2846-2897 | for every interleaving, emitted calls are a duplicate-free subsequence of introduction order |
| ToolAssembly.NamedLeavesOnlyEmitted | proxy/kiro.go:2846-2897 | a named call leaves the queue only by being emitted with empty arguments or a JSON object |
| ToolAssembly.DeltasSpellArguments | proxy/kiro.go:3032-3079 | a call's deltas concatenate to its arguments exactly if no event carried a whole value for it after something was streamed; always with string fragments |
| ToolAssembly.ReplacedDeltasDiffer | proxy/kiro.go:3051-3079 | a run in which they do not |
| ToolAssembly.OneIdentifierPerCall | proxy/kiro.go:2955-2979 | without reuse of a content block everything said about a call carries one identifier |
| ToolAssembly.LeftEmittedIffNamed | proxy/kiro.go:2846-2897 | a call that left the queue was emitted, then and for the rest of the run, exactly if it had a name when it left |
| ToolAssembly.UnnamedCallVanishes | proxy/kiro.go:2991-3001 | a run in which a call that never got a name is dropped without an error |
| ToolAssembly.ConflictingStopRecoversOnlyClosed | proxy/kiro.go:2871-2897 | after a conflicting stop recovery emits non-empty arguments only of calls that were closed |
| FragmentRouting.FragmentReachesItsCall | proxy/kiro.go:2943-3089 | an event for a pending call - by identifier, else content block, else the youngest - changes that call alone: it takes name, block, input and stop mark, and what leaves is the closed calls in front, each named one emitted as it is |
| FragmentRouting.FragmentOpensCall | proxy/kiro.go:2973-3010 | an event that means no pending call and says enough opens the next call with everything it carries; a new name alone closes the youngest call first |
| FragmentRouting.StrayFragment | proxy/kiro.go:3012-3028 | any other event changes nothing and is an error unless it is a stop mark |
| FragmentRouting.ArgumentsAreItsFragments | proxy/kiro.go:2943-3089 | in every run the arguments of an emitted call, and the text of a pending one, are exactly the inputs of the events meant for it, in order |
| FragmentRouting.ArgumentsByIdentifier | proxy/kiro.go:2955-2979 | in a stream whose events carry identifiers and string fragments, a call's arguments are the texts of the events with its identifier, in order |
| ToolAssembly.PendingToolUseSet.GetByContentBlockIndex | proxy/kiro.go:2787-2798 | finds the first pending call of a content block |
| ToolAssembly.PendingToolUseSet.Add | proxy/kiro.go:2814-2824 | appends a call and makes it the latest |
| ToolAssembly.PendingToolUseSet.Rekey | proxy/kiro.go:2826-2844 | renames a call in place, in the map, the order and the latest mark |
| ToolAssembly.PendingToolUseSet.RemoveFirst | proxy/kiro.go:2846-2859 | takes the head out of map and order and keeps the latest mark right |
| ToolAssembly.PendingToolUseSet.FlushStoppedPrefix | proxy/kiro.go:2861-2869 | emits the stopped prefix and stops at malformed arguments |
| ToolAssembly.PendingToolUseSet.RecoverCompletePrefix | proxy/kiro.go:2871-2897 | recovers the prefix that the boundary allows and counts it |
| ToolAssembly.PendingToolUseSet.HandleToolUseEvent | proxy/kiro.go:2943-3089 | map, order and latest mark implement the specified queue for every payload, so `FragmentRouting` speaks of it too |
| StreamParser.MergedBoundary | proxy/kiro.go:2717-2740 | the merged boundary is conflicting if any was, else an output limit if any was, else the last one given |
| StreamParser.FlagsOfRun | proxy/kiro.go:1700-1866 | after any frames the parser's flags are functions of the frames seen |
| StreamParser.ConflictingStopIsSafe | proxy/kiro.go:1868-1881 | once a frame with a stop reason other than the two for tool use and the four for an output limit was seen, the recovery at a clean end, a truncation or the client's output limit emits no arguments of an unclosed call, and other ends recover nothing |
| StreamParser.CompleteCallsAreRecovered | proxy/kiro.go:2717-2740 | without such a frame the end emits a pending named call exactly if it and all before it are well-formed and closed, complete or allowed to be empty; otherwise it stays pending and the stream fails |
| StreamParser.SuccessLeavesNothingPending | proxy/kiro.go:1868-1881 | success implies that no call is pending |
| StreamParser.WholeStreamAssembly | proxy/kiro.go:1700-1925 | over whole streams, however they end, emitted calls keep their order and named calls are emitted or still pending |
| StreamParser.SuccessEmitsNamedCalls | proxy/kiro.go:1868-1925 | on success every named call that was ever pending has been emitted |
| StreamParser.StreamOutcome | proxy/kiro.go:1700-1925 | when a stream succeeds and which error it fails with, for every end: clean, cut, at the client's output limit and at each kind of bad frame |
| StreamParser.HandlePayloads | proxy/kiro.go:1820-1825 | payloads are handled in order until the first error |
| StreamParser.ParseEventStream | proxy/kiro.go:1700-1925 | the loop returns the specified result, and reports completion once exactly when it returns success |
| StreamParser.FinishStream | proxy/kiro.go:1868-1925 | recovery and the completion checks, in the source's order |
| TokenUsage.NormalizeConsistent | proxy/kiro.go:2382-2468 | normalisation yields non-negative buckets within the input, lifetimes that split creation, and lowers nothing |
| TokenUsage.NormalizeClosedForm | proxy/kiro.go:2382-2468 | every number of a normalised usage: input the larger of total and buckets, creation from the lifetimes and uncached from the rest where missing, lifetimes scaled to creation |
| TokenUsage.NormalizePresence | proxy/kiro.go:2382-2468 | which numbers count as given afterwards: those marked so or positive, and those derived from them |
| TokenUsage.NormalizeIdempotent | proxy/kiro.go:2382-2468 | normalising twice changes no number |
| TokenUsage.ProgressNeverRegresses | proxy/kiro.go:2316-2375 | merging a frame never lowers a counter and stays consistent |
| TokenUsage.UsageNeverRegresses | proxy/kiro.go:2316-2375 | over every stream all counters are non-decreasing and consistent after every frame |
| TokenUsage.CountersAfterFrame | proxy/kiro.go:2316-2375 | after a frame output, thinking and cache reads are the larger of before and reported, creation runs along and a breakdown once given stays |
| TokenUsage.CountersAreLargest | proxy/kiro.go:2316-2375 | after any frames output, thinking and cache reads are the largest numbers reported |
| TokenUsage.InputAsReportedIff | proxy/kiro.go:2316-2468 | after a frame the input is the larger of the total before and the total reported exactly if the running buckets fit it |
| TokenUsage.StreamInputAsReportedIff | proxy/kiro.go:2316-2468 | over a stream the input never passes the largest total reported so far exactly if every frame's buckets fit |
| TokenUsage.DerivedBucketRaisesInput | proxy/kiro.go:2448-2450 | a stream whose merged input exceeds every reported total |
| UsageMerge.MergeIsClosedForm | proxy/kiro.go:2229-2311 | each merged field is the largest value at the highest rank present; totals look at positive reports only |
| UsageMerge.WinnerOfField | proxy/kiro.go:2253-2294 | a merged number is that of a candidate to which all others yield by priority, completeness and amount; a zero never beats a positive total, and an unreported field is absent |
| UsageMerge.MergeOrderIndependent | proxy/kiro.go:2296-2311 | the merged usage is the same for every permutation of the candidates |
| UsageMerge.EventsNeverRegress | proxy/kiro.go:2018-2026 | usage never regresses over a stream whose events carry any candidates |
| UsageMerge.StreamOrderIndependent | proxy/kiro.go:2018-2026 | the usage after every event does not depend on the order in which candidates were found |
| UsageMerge.MergeState.Merge | proxy/kiro.go:2229-2294 | merges all eight fields of a candidate |
| UsageMerge.MergeTokenUsageCandidates | proxy/kiro.go:2296-2311 | sort, fold and normalise as specified |
| ApiAdmission.NoWaiterSleepsOnFreeCapacity | proxy/api_admission.go:43-151 | in every interleaving leases and waiters are counted exactly and within bounds, and a free slot means every blocked waiter's channel is closed |
| ApiAdmission.TokenLedgerIsExact | proxy/api_admission.go:153-198 | a window's tokens are its open reservations plus settled use plus direct additions plus reservations of already settled leases |
| ApiAdmission.ClampNeverFires | proxy/api_admission.go:176-198 | in every run the first settlement of a lease, zero included, charges its use less what it reserved in the running minute; the clamp never changes that, and any other settlement changes nothing |
| ApiAdmission.TokenCap | proxy/api_admission.go:153-198 | disciplined leases and no direct additions keep tokens within the limit |
| ApiAdmission.StepKeepsCapIff | proxy/api_admission.go:153-229 | from within the limit, exactly the settlements and direct additions that fit the window stay within it |
| ApiAdmission.CapKeptIff | proxy/api_admission.go:153-229 | over a run the limit is never passed exactly if every settlement and direct addition fits when it is made |
| ApiAdmission.LateSettlementBreaksCap | proxy/api_admission.go:189-193 | a settlement in a later window can pass the limit |
| ApiAdmission.SlidingRateBound | proxy/api_admission.go:63-86 | every half-open minute contains at most twice the per-minute limit of admissions |
| ApiAdmission.DecisionExact | proxy/api_admission.go:55-108 | each answer has its own exact condition: rate spent in the running minute, slots taken, no room in the queue; a rate refusal asks to wait for the next minute |
| ApiAdmission.WaitSuffices | proxy/api_admission.go:66-76 | who waits as long as the answer says is not refused for the rate again |
| ApiAdmission.RefusedOnlyWhenSpent | proxy/api_admission.go:63-86 | in every run nobody is refused for the rate unless that many were admitted within the minute before |
| ApiAdmission.ReserveExact | proxy/api_admission.go:153-174 | in every run tokens are granted exactly if open reservations, settled use and direct additions of the running minute leave room |
| ApiAdmission.KeyAdmission.ResetAdmissionWindow | proxy/api_admission.go:134-140 | a new window starts a minute after the last one at the earliest |
| ApiAdmission.KeyAdmission.TryAdmit | proxy/api_admission.go:55-108 | one pass of the acquire loop |
| ApiAdmission.KeyAdmission.CancelWait | proxy/api_admission.go:142-151 | a queued request leaves the queue |
| ApiAdmission.KeyAdmission.AddTokensDirectly | proxy/api_admission.go:217-229 | direct additions count in the current window |
| ApiAdmission.AdmissionLease.ReserveTokens | proxy/api_admission.go:153-174 | reserves in the current window or answers the wait |
| ApiAdmission.AdmissionLease.ReconcileTokens | proxy/api_admission.go:176-198 | settles once, crediting a reservation of the same window |
| ApiAdmission.AdmissionLease.ReleaseSlot | proxy/api_admission.go:200-215 | frees the slot once and closes the channel |
| ActivityWatchdog.AtMostOnceAndSpaced | proxy/activity_watchdog.go:60-102 | the action runs at most once and callbacks two apart are a timeout apart, however many touches |
| ActivityWatchdog.NeverEarly | proxy/activity_watchdog.go:81-102 | the action never runs before a full timeout without activity |
| ActivityWatchdog.StoppedStays | proxy/activity_watchdog.go:48-58 | nothing fires after a stop |
| ActivityWatchdog.DisabledNeverActs | proxy/activity_watchdog.go:60-79 | without a positive timeout nothing is armed and the action never runs |
| ActivityWatchdog.LazyRefinesEager | proxy/activity_watchdog.go:22-102 | with ideal timers every step is a step of a timer reset on every touch, at the same instant |
| ActivityWatchdog.DueAtDeadline | proxy/activity_watchdog.go:60-102 | at the eager deadline the lazy callback is due and acts |
| ActivityWatchdog.Watchdog.constructor | proxy/activity_watchdog.go:22-35 | starts armed |
| ActivityWatchdog.Watchdog.TouchNow | proxy/activity_watchdog.go:37-46 | records activity without touching the timer |
| ActivityWatchdog.Watchdog.StopNow | proxy/activity_watchdog.go:48-58 | disarms for good |
| ActivityWatchdog.Watchdog.ArmLocked | proxy/activity_watchdog.go:60-79 | arms for the rest of the idle time |
| ActivityWatchdog.Watchdog.OnTimer | proxy/activity_watchdog.go:81-102 | acts if idle long enough, else re-arms; stale callbacks do nothing |
| EndpointRoutes.BackoffLoop | proxy/account_endpoint_routes.go:379-386 | the doubling loop equals the capped power of two |
| EndpointRoutes.CooldownGrows | proxy/account_endpoint_routes.go:375-402 | a failure always cools, and a repeated one never for less time |
| EndpointRoutes.MovedFirst | proxy/account_endpoint_routes.go:323-335 | an offered key comes first and nothing is lost or added |
| EndpointRoutes.MoveEndpointFirst | proxy/account_endpoint_routes.go:323-335 | the in-place rotation computes exactly that order |
| EndpointRoutes.RememberedNeverCooling | proxy/account_endpoint_routes.go:353-470 | after any run of successes, failures, clears, prunes and evictions a remembered endpoint has no failure entry |
| EndpointRoutes.PreferenceComesFirst | proxy/account_endpoint_routes.go:265-321 | a live preference that is offered comes back first and the rest are the other usable candidates in order |
| EndpointRoutes.WaitsOnlyWhenAllCooling | proxy/account_endpoint_routes.go:265-321 | a wait is answered exactly when all candidates cool and cooling ones are not asked for, and it is the shortest |
| EndpointRoutes.PruningIsInvisible | proxy/account_endpoint_routes.go:606-621 | pruning drops only what no answer depends on |
| RouteMemory.CooldownByKind | proxy/account_endpoint_routes.go:375-402 | how long each kind of failure cools, and that repeats double the backoff |
| RouteMemory.FailureIsShunned | proxy/account_endpoint_routes.go:353-417 | in every run a failed endpoint is left out of every offer before its cooldown is over and is back in from then on, unless something else concerned its route |
| RouteMemory.SuccessIsPreferred | proxy/account_endpoint_routes.go:419-452 | in every run an endpoint that served is offered first until the affinity time is over, and from then on the order is the caller's again |
| RouteMemory.ExplicitOrderIsKept | proxy/account_endpoint_routes.go:265-321 | outside automatic mode what is usable is offered in the caller's order |
| RouteMemory.IdleIsForgotten | proxy/account_endpoint_routes.go:606-621 | exactly the routes that neither cool nor were used for the affinity time are dropped, and the preferences past their deadline |
| RouteMemory.ForgetsOneAccount | proxy/account_endpoint_routes.go:771-794 | forgetting an account takes everything about it and nothing else |
| EndpointRoutes.OldestKey | proxy/account_endpoint_routes.go:628-637 | the scan finds a least recently used key |
| EndpointRoutes.EvictOldest | proxy/account_endpoint_routes.go:623-650 | eviction leaves exactly the limit, and nothing that stays is older than what went |
| EndpointRoutes.Registry.PruneExpired | proxy/account_endpoint_routes.go:606-621 | removes expired preferences and idle routes |
| EndpointRoutes.Registry.EnforceLimits | proxy/account_endpoint_routes.go:623-650 | both maps are within the limit, the oldest gone |
| EndpointRoutes.Registry.AvailableEndpoints | proxy/account_endpoint_routes.go:265-321 | answers as specified and marks what it consulted |
| EndpointRoutes.Registry.Scan | proxy/account_endpoint_routes.go:289-308 | splits candidates, touches cooling routes and keeps the shortest wait |
| EndpointRoutes.Registry.RecordFailure | proxy/account_endpoint_routes.go:353-417 | cools the route for the specified time, forgets a preference for it and evicts |
| EndpointRoutes.Registry.RecordSuccess | proxy/account_endpoint_routes.go:419-452 | clears the route, remembers the endpoint, prunes and evicts |
| EndpointRoutes.Registry.ClearFailure | proxy/account_endpoint_routes.go:454-470 | clears one route |

## Left out

- Reading and writing state files, including the load order of persisted cache entries and routes: every model starts empty.
- HTTP clients, proxies, authentication, admin handlers, logs, alerts and prompt policies.
- Route affinity in `pool/protection.go` (lines 611-641) remembers which account served a route key, tries it first and forgets it when it expires or is rate limited; it is not modelled.
- The loops around critical sections (retrying acquires, blocking on a channel, timers): each critical section is a step, and any order of steps is a run.
- Memory effects between threads below the level of critical sections.
- JSON, CRC-32, SHA-256, UUIDs, the shard hash and event-shape guessing: uninterpreted functions or values; a generated identifier is assumed not to be pending.
- Trimming and lower-casing of identifiers, models, endpoint keys and stop reasons: taken as done before the modelled code.
- Clock granularity: instants and durations are whole milliseconds.
- Integer overflow other than the explicit saturation of token counts.
- Configuration loading; the slot invariants fix the protection configuration over a run, and `ProfileCounting` says what changing it does to a profile's counter.
- The model-aware selection `GetNextForModelExcluding` and account health ranking: the same ordering over more inputs.
- `sort.SliceStable` is modelled as an insertion sort; stability itself is not claimed.
- Diagnostics of cache lookups other than the matched, read and created tokens, and the read efficiency, which is a parameter between 0 and 1.
- Credits, context usage and progress callbacks of the stream parser.
- StreamParser.ParseEventStream: drives the tool queue through its specification functions rather than through the `PendingToolUseSet` object, which is proved equal to them separately.
- ToolAssembly.PendingToolUseSet.RemoveFirst: leaves out the fallback to the youngest remaining call, which the class invariant shows to be unreachable.
- SlotProtection.UpstreamPool.AcquireForModel: leaves out the attempt on the remembered route and the commit of the weighted selection, which `WeightedScheduler` models.
- CacheLru.PromptCacheTracker.EnforceGlobalLimit: one atomic step, where the source takes one shard's lock after the other; `ScannedVictimOldestIff` says when the victim is still the oldest under interleaving.
- CacheLru.PromptCacheTracker.PruneExpired: entries only; expired reservations are pruned in `PrefixMatch.CacheScope.Prune`.
- PrefixMatch.CacheScope.Update: leaves out the limits enforced afterwards, which `CacheLru` models.
- AvailabilityWait.SignalsWake: leaves out the signals sent by account and settings changes, which free nothing in the slot tables.
