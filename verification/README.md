# Notification engine: verified model

A Dafny model of the engine's stateful protocols and of the pure kernels they use, with
proofs of what they guarantee. `dafny verify dfyconfig.toml` checks everything.

The model rests on a small Redis (`Redis.dfy`): string keys with a time to live, counters
and sorted sets, with the instant of each command passed in. Each service is a class over
that store whose methods are proved equal to functions on values. Whole runs are sequences
of those functions; where several replicas or requests interleave, every Redis command is a
step of its own, and any list a replica has read may be stale at once.

| file | models |
|---|---|
| Redis, Sets, Events, States | the store, sizes of sets, the constant tables, the state machine with its log |
| Delivery, DeliveryRuns, DeliveryPolicy, ConsentRuns, Compliance | delivery workers, retry sets, dead letters, consent and DND; whole runs; what may reach a provider |
| Digest, DigestFlush, DigestRuns, DigestLogs, DigestCases | digest buckets, one flush, many replicas interleaved, their logs, and runs that fail |
| ScheduledRelease, ReleaseRuns, ReleaseSolo | one release batch, many replicas interleaved, and that one alone does the batch |
| FixedWindow, FrequencyCap, CapBounds, CircuitBreaker, Throttler | time-windowed limiters |
| Deduplication, DeduplicationRaces, TokenRotation | claims and rotations, alone and interleaved |
| Preferences, PreferenceUpdates, QuietHours, SendTime, Routing, Pipeline, FanOut | from an event to its channels, its disposition and its queued messages |
| KeyCase, AbTesting, SmsTruncation | pure kernels |

## Where the code differs from its comments

The model follows the code. These differences are stated as lemmas:

- The caps are fixed windows: a rolling day can hold 23 capped events per user and a rolling hour 5 of a category, and runs reach both.
- The circuit's failure window is fixed, not sliding: eight failures in a minute, seven of them in six milliseconds, can leave it CLOSED; nine never do.
- HALF_OPEN admits every request, not one probe; closing still needs two successes in one episode.
- A revoked token family comes back once the replayed token would have expired.
- A claim that sets its fingerprint after the key of its bucket has died succeeds a second time in that bucket.
- A claim refused by a holder that vanishes before it is asked has no id, and ingestion then goes ahead.
- The regulatory weight is added to every channel of a CRITICAL event, so it never decides the ranking; mandated channels come first only for RISK-001 and MKTX-002 at an urgent priority.
- A flush loses what it took when a later lookup throws, and strands its bucket when the user lookup throws.
- Items of a capped bucket whose first send failed halfway are left in DIGEST_PENDING, not CAPPED.
- Truncation counts characters where the limit counts septets, so extension characters can push a text over it.
- Two throttler replicas with the same process id count too few requests when they serve in the same millisecond.
- Preferences that name one event type under two categories resolve as the database happens to order the rows.
- A preference cache that expires between its two reads turns a digest preference into immediate sending.
- "Already at the optimal hour" is never the reason: inside the best hour the next one is a day away.
- Render failures and retries without content reach DLQ by steps that are not in the transition table.

## Model

| member | source | states |
|---|---|---|
| `Redis.Counters.Increment` | src/infrastructure/redis/redis.service.ts:90-102 | INCR then EXPIRE NX: the first hit starts the clock, later hits keep it |
| `Redis.SortedSets.ZAddLt` | src/notifications/digest/digest-bucket.service.ts:57-69 | ZADD LT only moves a score down and always adds an absent member |
| `Redis.SortedSets.ZRem` | src/notifications/engine/scheduled-release.service.ts:86-89 | Removes a member and reports 1 only if it was there |
| `Redis.SortedSets.ZRangeByScore` | src/infrastructure/redis/redis.service.ts:108-118 | Lists the lowest members up to a score, without repeats, and leaves one out only when the limit is reached |
| `States.StateService.Transition` | src/notifications/state-machine/state.service.ts:21-71 | Moves exactly when the row exists and the step is legal, writing status and log entry together; otherwise nothing changes |
| `States.PathEntries` | src/shared/constants/notification-states.ts:26-84 | A log that is a path: every "from" is the previous "to", every step is in the table, the last "to" is the status |
| `Compliance.ConsentService.Record` | src/compliance/dnd/consent.service.ts:63-128 | Appends to the log exactly when consent type and channel belong together |
| `Compliance.ConsentService.Evaluate` | src/compliance/dnd/consent.service.ts:88-97 | Consent needed for WhatsApp and promotional SMS or email; the latest record grants if it is an opt-in, of either kind, and withdraws if it is an opt-out; an unavailable lookup throws only when needed |
| `Compliance.LatestDecides` | src/compliance/dnd/consent.service.ts:130-138 | The last record of a user and channel decides, whatever others follow it |
| `Compliance.DndService.IsDndRegistered` | src/compliance/dnd/dnd.service.ts:164-196 | Answers from a live cache entry, else from the registry and fills the cache |
| `Compliance.DndService.UpdateDndStatus` | src/compliance/dnd/dnd.service.ts:198-214 | Changes the registry and drops the cache entry |
| `Compliance.DndService.Check` | src/compliance/dnd/dnd.service.ts:64-157 | Allowed iff the channel is exempt, the event transactional, or the registry answered "not registered" |
| `Compliance.AnswerIsCurrent` | src/compliance/dnd/dnd.service.ts:164-235 | After any lookups, changes and refreshes, one at a time, a check sees the registry as it is now |
| `Compliance.RefreshWarms` | src/compliance/dnd/dnd.service.ts:212-234 | Refreshed users are answered from the cache for exactly a day, with the registry's answer |
| `Compliance.InterruptedLookupGoesStale` | src/compliance/dnd/dnd.service.ts:164-214 | A lookup that straddles a status change caches the old answer, for exactly a day (concrete) |
| `Compliance.CriticalIsTransactional` | src/shared/constants/event-types.ts:57-80 | CRITICAL events are transactional, so only WhatsApp asks consent for them |
| `Delivery.DelayIsBounded` | src/shared/utils/retry.util.ts:20-30 | Backoff lies between base and maximum delay and never shrinks with the attempt |
| `Delivery.DelayDoubles` | src/shared/utils/retry.util.ts:20-30 | Without jitter the first delay is the base and each next one double, up to the maximum; jitter only adds |
| `Delivery.RetrySchedule` | src/shared/constants/priorities.ts:16-41 | Every wait of a notification that always fails, by priority; the maximum binds only for CRITICAL |
| `Delivery.DeliveryService.Handle` | src/delivery/delivery.service.ts:92-209 | Taking a message has the effect of `Handled`: processed, and rejected if processing throws |
| `Delivery.DeliveryService.Process` | src/delivery/delivery.service.ts:92-209 | Handled states are ignored, RETRYING resumes as QUEUED, an unresolvable recipient throws |
| `Delivery.DeliveryService.PassesDnd` | src/delivery/delivery.service.ts:141-206 | Promotional SMS passes only if the registry answered "not registered"; unavailable fails the round; the tripwire adds nothing to that |
| `Delivery.DeliveryService.PassesConsent` | src/delivery/delivery.service.ts:218-284 | Passes iff not needed, or the lookup works and consent is granted or not enforced; otherwise NO_CONSENT or a failed round |
| `Delivery.DeliveryService.TryProvider` | src/delivery/delivery.service.ts:484-516 | A call is made exactly when the circuit lets it through |
| `Delivery.DeliveryService.Deliver` | src/delivery/delivery.service.ts:376-418 | Primary, then the SMS fallback, then failure; unknown channels are dropped |
| `Delivery.DeliveryService.HandleSuccess` | src/delivery/delivery.service.ts:518-619 | QUEUED to SENT with one attempt, and on to DELIVERED when the provider confirms at once |
| `Delivery.DeliveryService.HandleFailure` | src/delivery/delivery.service.ts:621-697 | QUEUED to FAILED with one attempt, then a retry entry, or the DLQ with the attempt count |
| `Delivery.DeliveryService.ScheduleRetry` | src/delivery/retry/retry-worker.service.ts:81-117 | Schedules iff the attempt number is within maxRetries, after the backoff delay |
| `Delivery.DeliveryService.DeadLetter` | src/delivery/delivery.service.ts:291-358 | Logs the move to DLQ from whatever state the row is in and stores the retry count |
| `Delivery.DeliveryService.RequeueNotification` | src/delivery/retry/retry-worker.service.ts:132-208 | FAILED to RETRYING and published again, or DLQ without a log entry if there is no content; either way out of the retry set |
| `DeliveryRuns.HandlingIsARound` | src/delivery/delivery.service.ts:92-209 | Handling a queued message changes one row, at most one retry entry, and appends its calls, as its verdict says |
| `DeliveryRuns.EveryLogIsAPath` | src/delivery/delivery.service.ts:425-681 | In every run of pipeline, fan-out, delivery, retry and folding each log is a legal path to the current status, although delivery names its "from" states without looking; that a digest folds from the states it names is DigestLogs.WritesStartAtStatus |
| `DeliveryRuns.NoContentLeavesLogBehind` | src/delivery/retry/retry-worker.service.ts:159-208 | A retry without content reaches DLQ off the path |
| `DeliveryRuns.RenderFailureIsNotAStep` | src/notifications/engine/notification-engine.service.ts:589-601 | Dead-lettering a render failure is no legal step from ROUTED |
| `DeliveryRuns.Conservation` | src/delivery/delivery.service.ts:92-209 | Once queued, a notification is in exactly one of queue, retry sets, handled states, broker dead letters (unresolvable recipient) and dropped (unknown channel) |
| `DeliveryRuns.AtMostOneSuccess` | src/delivery/delivery.service.ts:621-697 | At most one call succeeds, at most maxRetries + 1 rounds, and DLQ iff that many failed |
| `DeliveryRuns.RoundsInNumbers` | src/shared/constants/priorities.ts:16-41 | DLQ after exactly 11, 6, 4 or 3 failed rounds, by priority |
| `DeliveryRuns.RoundsRunOut` | src/delivery/retry/retry-worker.service.ts:81-117 | Every handled message settles the notification or lowers the measure maxRetries + 1 - attempts |
| `DeliveryRuns.RedeliveryIsIgnored` | src/delivery/delivery.service.ts:92-125 | A message for a handled notification changes nothing |
| `DeliveryRuns.FoldDigests` | src/notifications/digest/digest-flush.service.ts:189-282 | A fold takes a capped or pending notification to DIGESTED by legal steps and touches nothing else |
| `DeliveryPolicy.EverySendWasCleared` | src/delivery/delivery.service.ts:136-284 | In every enforced run each call belongs to a delivery at whose moment the user's last consent record was an opt-in and the last registration change did not put the user on the DND list, where either is needed |
| `DeliveryPolicy.WithdrawalStopsDelivery` | src/compliance/dnd/consent.service.ts:130-223 | Unless the last consent record of the user and channel is an opt-in, the next delivery that needs consent calls nobody and ends in NO_CONSENT |
| `DeliveryPolicy.OptOutStopsDelivery` | src/compliance/dnd/consent.service.ts:108 | In particular after an opt-out of either kind |
| `DeliveryPolicy.OptInPasses` | src/compliance/dnd/consent.service.ts:108-138 | After an opt-in of either kind the delivery goes exactly as with consent checks off |
| `DeliveryPolicy.NoOptInNeeded` | src/compliance/dnd/consent.service.ts:88-97 | So it does for push, in-app, and transactional SMS or email, whatever was recorded |
| `ConsentRuns.HasConsentIff` | src/compliance/dnd/consent.service.ts:99-140 | In every run consent stands iff the last accepted record of the user and channel is an opt-in |
| `ConsentRuns.RegisteredIff` | src/compliance/dnd/dnd.service.ts:198-214 | In every run a user is registered iff the last change for the user says so |
| `DeliveryPolicy.CriticalReachesProvider` | src/delivery/delivery.service.ts:92-284 | A CRITICAL event by SMS, email, push or in-app reaches its provider for every consent and DND state |
| `FixedWindow.LifetimeBound` | src/compliance/frequency-cap/frequency-cap.service.ts:148-204 | One life of a counter lets at most cap checked hits through |
| `FixedWindow.RollingBound` | src/compliance/frequency-cap/frequency-cap.service.ts:148-204 | Any interval as long as the window holds at most 2 cap - 1 of them |
| `FixedWindow.BoundIsReached` | src/compliance/frequency-cap/frequency-cap.service.ts:148-204 | A bare counter of any window and cap attains that bound |
| `CapBounds.TwentyThreeInADay` | src/compliance/frequency-cap/frequency-cap.service.ts:59-163 | A run of checked sends puts 23 into one day of the daily cap |
| `CapBounds.FiveInAnHour` | src/compliance/frequency-cap/frequency-cap.service.ts:186-204 | A run of checked sends puts 5 into one hour of the category cap |
| `FrequencyCap.FrequencyCapService.Check` | src/compliance/frequency-cap/frequency-cap.service.ts:59-111 | Uncapped iff no dimension blocks; CRITICAL skips all, mandated events the cooldown and the channel cap |
| `FrequencyCap.FrequencyCapService.RecordSend` | src/compliance/frequency-cap/frequency-cap.service.ts:113-146 | Advances the channel counter, and the event counters and cooldown only for the first channel |
| `FrequencyCap.FrequencyCapService.Admit` | src/notifications/routing/routing-engine.service.ts:112-128 | Check then record, channel by channel, equals filtering then recording in order |
| `FrequencyCap.CountersReplayHits` | src/infrastructure/redis/redis.service.ts:90-102 | In every run each counter is the replay of its hits, and checked hits came below the cap |
| `FrequencyCap.RollingCaps` | src/compliance/frequency-cap/frequency-cap.service.ts:59-204 | Over every run with any unchecked sends, 2 cap - 1 per window and cap per counter life |
| `FrequencyCap.RollingCapsInNumbers` | src/compliance/frequency-cap/frequency-cap.service.ts:148-204 | 23 in any 24 hours per user, 5 in any hour per category |
| `FrequencyCap.ChannelCapsInNumbers` | src/compliance/frequency-cap/frequency-cap.service.ts:39-47 | In any 24 hours 9 by SMS or WhatsApp, 15 by push, 5 by email, 39 in-app |
| `FrequencyCap.PassesIff` | src/compliance/frequency-cap/frequency-cap.service.ts:59-204 | The exact numbers below which an event passes, and who is exempt from which cap |
| `FrequencyCap.CooldownGap` | src/compliance/frequency-cap/frequency-cap.service.ts:206-228 | A checked, non-exempt event comes 15 minutes or more after every earlier one of its type |
| `FrequencyCap.CooldownSet` | src/compliance/frequency-cap/frequency-cap.service.ts:129-143 | Every send opens a cooldown of exactly fifteen minutes |
| `CircuitBreaker.CircuitBreakerService.AllowRequest` | src/delivery/circuit-breaker/circuit-breaker.service.ts:51-89 | Refuses only in OPEN before the timeout; HALF_OPEN admits every request |
| `CircuitBreaker.CircuitBreakerService.RecordSuccess` | src/delivery/circuit-breaker/circuit-breaker.service.ts:91-111 | Counts successes in HALF_OPEN and closes at the second |
| `CircuitBreaker.CircuitBreakerService.RecordFailure` | src/delivery/circuit-breaker/circuit-breaker.service.ts:113-133 | Reopens from HALF_OPEN, does nothing in OPEN, counts in CLOSED and opens at the threshold; what that means is OpensIff |
| `CircuitBreaker.ClosedBelowThreshold` | src/delivery/circuit-breaker/circuit-breaker.service.ts:113-133 | CLOSED implies fewer than five live failures at every instant of every run |
| `CircuitBreaker.OpensIff` | src/delivery/circuit-breaker/circuit-breaker.service.ts:113-133 | A CLOSED circuit opens exactly at the fifth failure since the last success within 60 seconds of the first of them, counting anew after that |
| `CircuitBreaker.OpeningNeedsFiveFailures` | src/delivery/circuit-breaker/circuit-breaker.service.ts:113-133 | So it opens only at a fifth failure in a row, less than 60 seconds after the first |
| `CircuitBreaker.FiveFailuresOpen` | src/delivery/circuit-breaker/circuit-breaker.service.ts:113-133 | And the first five failures after a success do open it if they come within 60 seconds |
| `CircuitBreaker.NineFailuresOpen` | src/delivery/circuit-breaker/circuit-breaker.service.ts:30-35 | Any nine failures within 60 seconds without a success among them never leave it CLOSED |
| `CircuitBreaker.EightFailuresStayClosed` | src/delivery/circuit-breaker/circuit-breaker.service.ts:30-35 | Eight can: the window is fixed, not sliding (concrete) |
| `CircuitBreaker.OpenRefuses` | src/delivery/circuit-breaker/circuit-breaker.service.ts:51-89 | Every opening refuses all requests for 60 seconds |
| `CircuitBreaker.RefusedOnlyAfterOpening` | src/delivery/circuit-breaker/circuit-breaker.service.ts:51-89 | And every refusal goes back to an opening less than 60 seconds old |
| `CircuitBreaker.HalfOpenStartsFresh` | src/delivery/circuit-breaker/circuit-breaker.service.ts:91-199 | The 30-second success counter is always gone when HALF_OPEN begins |
| `CircuitBreaker.ClosingNeedsTwoSuccesses` | src/delivery/circuit-breaker/circuit-breaker.service.ts:91-111 | Closing takes two successes of one HALF_OPEN episode with no failure between |
| `CircuitBreaker.TwoSuccessesClose` | src/delivery/circuit-breaker/circuit-breaker.service.ts:91-111 | And any two successes of one episode less than 30 seconds apart do close it |
| `Throttler.Storage.Increment` | src/api/throttler/redis-sliding-window.storage.ts:31-62 | Trims, adds, counts and expires as one block; reports the set's size and the oldest hit's remaining seconds |
| `Throttler.SetIsWindow` | src/api/throttler/redis-sliding-window.storage.ts:31-62 | After each request the set holds exactly the requests of (now - ttl, now]: key expiry is unobservable |
| `Throttler.TotalHitsExact` | src/api/throttler/redis-sliding-window.storage.ts:31-62 | `totalHits` counts all past requests of the window |
| `Throttler.SlidingLimit` | src/api/throttler/redis-sliding-window.storage.ts:31-62 | No interval of length ttl lets more than `limit` requests through |
| `Throttler.OldestLeaves` | src/api/throttler/redis-sliding-window.storage.ts:50-62 | After `timeToExpire` seconds the oldest hit has left the window |
| `Throttler.SecondsAreLeast` | src/api/throttler/redis-sliding-window.storage.ts:50-54 | No fewer whole seconds do, one being the least |
| `Throttler.DistinctPidsAreProper` | src/api/throttler/redis-sliding-window.storage.ts:31-48 | Members are distinct, so counts exact, iff no two replicas of one process id serve at one instant with one sequence number |
| `Throttler.SharedPidUndercounts` | src/api/throttler/redis-sliding-window.storage.ts:31-48 | Two replicas with one process id undercount (concrete) |
| `Deduplication.DeduplicationService.ClaimEvent` | src/notifications/engine/deduplication.service.ts:87-128 | Fresh iff no wanted key belongs to another live id, and then all free ones are taken; a duplicate leaves the store as it was |
| `Deduplication.DeduplicationService.Release` | src/notifications/engine/deduplication.service.ts:131-145 | Deletes exactly the keys that still hold the id |
| `Deduplication.OncePerBucket` | src/notifications/engine/deduplication.service.ts:87-128 | Claims one at a time, without release: one success per event and entity in a 5-minute bucket, with no condition on time |
| `Deduplication.TwiceInFiveMinutes` | src/notifications/engine/deduplication.service.ts:87-128 | Claims one at a time, without release: at most two in any five minutes |
| `Deduplication.OncePerKey` | src/notifications/engine/deduplication.service.ts:87-128 | No key, fingerprint or idempotency key, is won twice within its lifetime |
| `Deduplication.OncePerIdempotencyKey` | src/notifications/engine/deduplication.service.ts:87-128 | One idempotency key succeeds at most once in any 24 hours, whatever events carry it |
| `Deduplication.SecondClaimIff` | src/notifications/engine/deduplication.service.ts:87-128 | Of two claims with one idempotency key the second succeeds iff 24 hours have passed |
| `DeduplicationRaces.OncePerBucket` | src/shared/utils/fingerprint.util.ts:14-22 | In every interleaving of commands without release, one success per bucket, provided no wanted fingerprint dies between the start of a claim and its SET NX |
| `DeduplicationRaces.TwiceInFiveMinutes` | src/shared/utils/fingerprint.util.ts:14-22 | And at most two of the claims that begin in any five minutes |
| `DeduplicationRaces.ThriceByCompletion` | src/notifications/engine/deduplication.service.ts:111-127 | Counted by completion at most three, if every claim takes less than five minutes |
| `DeduplicationRaces.SecondWinnerIff` | src/notifications/engine/deduplication.service.ts:111-127 | The condition is exact: a SET NX makes a second winner of a bucket iff the key died since the claim began |
| `DeduplicationRaces.LateClaimWinsToo` | src/notifications/engine/deduplication.service.ts:93-117 | A fingerprint computed at 299.999 s and set at 300.001 s wins a bucket already won (concrete run) |
| `DeduplicationRaces.ThreeCompletions` | src/notifications/engine/deduplication.service.ts:111-127 | Three completions in five minutes (concrete run) |
| `DeduplicationRaces.WinnersShareNoKey` | src/notifications/engine/deduplication.service.ts:87-128 | Command by command on a clock, no two winners hold one key while neither has released or outlived it, provided no claim outlives what it gives back |
| `DeduplicationRaces.DuplicateLeavesNothing` | src/notifications/engine/deduplication.service.ts:111-126 | A refused claimant leaves no key holding its id and is never told its own id |
| `DeduplicationRaces.BothProceedOnlyPastVanishedHolder` | src/events/events.service.ts:84-96 | Two events sharing a key both go ahead only if one was refused by a holder that had vanished when asked |
| `DeduplicationRaces.VanishedHolderLetsBothProceed` | src/events/events.service.ts:84-96 | And that happens (concrete run) |
| `TokenRotation.AuthService.IssueToken` | src/auth/auth.service.ts:122-159 | Stores the fresh jti for the token's lifetime |
| `TokenRotation.AuthService.Refresh` | src/auth/auth.service.ts:71-111 | A live jti is consumed and reissued once; a used one revokes the family; a revoked family changes nothing |
| `TokenRotation.OneHolderPerFamily` | src/auth/auth.service.ts:71-159 | In every interleaving, live jtis plus consumed but not reissued redemptions of a family never exceed one |
| `TokenRotation.RedeemedOnce` | src/auth/auth.service.ts:91-110 | No jti is redeemed twice or stored again |
| `TokenRotation.FamilyKeepsSubjectAndRole` | src/auth/auth.service.ts:110-159 | Rotation never changes a family's subject or role |
| `TokenRotation.RevokedFamilyGetsNothing` | src/auth/auth.service.ts:87-89 | A refresh that looks for the marker while it lives is refused for good |
| `TokenRotation.RevocationWindow` | src/auth/auth.service.ts:91-108 | The exact instants at which a newer token of a revoked family works again |
| `TokenRotation.RevokedFamilyComesBack` | src/auth/auth.service.ts:91-108 | It does work again (concrete run): revocation ends with the replayed token |
| `KeyCase.ConvertKeys` | src/shared/utils/case.util.ts:42-55 | The conversion of arrays and objects, key collisions and the key that sets the prototype included |
| `KeyCase.KeyRoundTrip` | src/shared/utils/case.util.ts:32-40 | A key survives there and back iff it is not already in snake form |
| `KeyCase.RenamingKeepsOpacity` | src/shared/utils/case.util.ts:13-40 | Renaming preserves membership in the opaque keys, both ways |
| `KeyCase.FieldAt` | src/shared/utils/case.util.ts:42-55 | Without collisions the fields convert one by one, opaque ones untouched |
| `KeyCase.OpaqueUntouched` | src/shared/utils/case.util.ts:51-53 | An opaque subtree comes out as it went in |
| `KeyCase.SnakeIsInjective` | src/shared/utils/case.util.ts:32-35 | Keys not in snake form never collide in snake form, and none but the prototype key is lost |
| `KeyCase.ConvertIsIdempotent` | src/shared/utils/case.util.ts:57-61 | Both conversions are idempotent on every value |
| `KeyCase.RoundTrip` | src/shared/utils/case.util.ts:42-61 | camelKeys(snakeKeys(v)) == v, for JSON with distinct keys, iff no key outside opaque subtrees is in snake form or sets the prototype |
| `QuietHours.BranchesAreModular` | src/compliance/quiet-hours/quiet-hours.service.ts:128-155 | The branchy test is (now - start) mod 1440 < (end - start) mod 1440 |
| `QuietHours.QuietHoursService.NextActiveWindowStart` | src/compliance/quiet-hours/quiet-hours.service.ts:157-181 | The first later instant at which the wall clock begins the end of the window, keeping the fraction of a second |
| `QuietHours.QuietHoursService.CheckWindow` | src/compliance/quiet-hours/quiet-hours.service.ts:48-82 | Suppressed iff the user exists and is in the window, until its end |
| `QuietHours.DeliveredAsWindowEnds` | src/compliance/quiet-hours/quiet-hours.service.ts:128-181 | `deliverAt` is later, at most a window length away, everything before is quiet and it is not |
| `Preferences.LayersCombine` | src/preferences/preference-resolver.service.ts:78-201 | The result has no duplicates and contains a channel iff mandated or wanted by the user's layers |
| `Preferences.RegulatoryChannelsSurvive` | src/preferences/preference-resolver.service.ts:78-118 | Mandated channels survive every preference |
| `Preferences.MandatedAreListed` | src/preferences/preference-resolver.service.ts:55-71 | The regulator's table names channels for exactly the mandatory events |
| `Preferences.PreferencesService.UpdatePreferences` | src/preferences/preferences.service.ts:85-196 | Rejects a quiet window under six hours, else upserts every channel row and drops the cache |
| `Preferences.PreferencesService.LoadFromDb` | src/preferences/preference-resolver.service.ts:175-194 | The loop builds the cache entry from the rows in the order the query returns them |
| `Preferences.PreferencesService.Resolve` | src/preferences/preference-resolver.service.ts:78-209 | Channels from the warmed cache; the digest mode needs the cache alive at its second read |
| `Preferences.CacheAgreesWithRows` | src/preferences/preference-resolver.service.ts:133-209 | After any updates, if the stored rows do not contradict each other, resolving equals computing from them in any order, except the digest mode exactly when the cache dies between the two reads |
| `Preferences.ModeLostBetweenReads` | src/preferences/preference-resolver.service.ts:203-209 | A resolution in which the mode is lost (concrete) |
| `Preferences.AnyOrderIff` | src/preferences/preference-resolver.service.ts:175-194 | Every order of the rows loads the same iff rows of one key agree on the mode and, per channel, on the setting |
| `Preferences.HomelyRunsAreConsistent` | src/preferences/preferences.service.ts:99-140 | So it is in every run whose updates name event types of their own category only |
| `Preferences.TwoCategoriesDisagree` | src/preferences/preferences.service.ts:99-140 | Two updates that name one event type under two categories: SMS is on or off as the rows happen to come (concrete run) |
| `Preferences.LoadIgnoresOrder` | src/preferences/preference-resolver.service.ts:175-194 | Rows that do not contradict each other load the same in any order |
| `Preferences.RowsStayUniform` | src/preferences/preferences.service.ts:99-140 | Updates keep one row per channel and one digest mode per category |
| `PreferenceUpdates.UpdateTakesEffect` | src/preferences/preferences.service.ts:99-126 | An accepted update sets every channel of its category, on unless it says otherwise, with its digest mode; a row keeps its event type; rows of other categories stay |
| `PreferenceUpdates.LatestUpdateStands` | src/preferences/preferences.service.ts:99-150 | In every run the rows of a category are those of its latest accepted update |
| `PreferenceUpdates.RowsDecide` | src/preferences/preference-resolver.service.ts:76-194 | On stored rows: rows of the event type outrank its category's, an explicit setting outranks the default, the mandate outranks both; WhatsApp is a default exactly for premium and HNI users |
| `PreferenceUpdates.CategoryRowsSetMode` | src/preferences/preference-resolver.service.ts:203-209 | The digest mode comes from the category's own rows |
| `PreferenceUpdates.ResolvingFollowsLatestUpdate` | src/preferences/preference-resolver.service.ts:76-209 | With or without a cache, resolving follows the latest update wherever its row governs the event |
| `PreferenceUpdates.PlainUpdatesAreFollowed` | src/preferences/preference-resolver.service.ts:76-209 | For a user who only updates whole categories, each channel is on iff mandated or the latest update says so |
| `Preferences.QuietWindowKept` | src/preferences/preferences.service.ts:163-196 | Every sequence of updates keeps the window between 360 and 1439 minutes |
| `Routing.RoutingEngineService.Route` | src/notifications/routing/routing-engine.service.ts:72-172 | Digest, caps, quiet hours and ranking in this order, from the resolved preferences |
| `Routing.RankingIsASort` | src/notifications/routing/routing-engine.service.ts:176-209 | Ranking is a permutation by descending score |
| `Routing.RankingIsUnique` | src/notifications/routing/routing-engine.service.ts:176-210 | No two channels tie, so the order by score is the only one |
| `Routing.RankingIsFixed` | src/notifications/routing/routing-engine.service.ts:176-210 | Which it is: SMS, push, in-app, email, WhatsApp at an urgent priority, else in-app, SMS, email, WhatsApp, push, whatever the event |
| `Routing.RegulatoryWeightIsUniform` | src/notifications/routing/routing-engine.service.ts:193-204 | The regulatory weight never decides the order |
| `Routing.OutscoringIff` | src/notifications/routing/routing-engine.service.ts:41-60 | For a CRITICAL event no other channel outscores a mandated one iff it is RISK-001 or MKTX-002 at an urgent priority |
| `Routing.MandatedFirstIff` | src/notifications/routing/routing-engine.service.ts:176-209 | For a candidate list: the mandated channels come first iff none of a stated few candidates is in it |
| `Routing.RegulatoryChannelIsOutscored` | src/notifications/routing/routing-engine.service.ts:41-60 | An instance: in-app before a mandated sms |
| `Routing.EveryChannelAccountedFor` | src/notifications/routing/routing-engine.service.ts:109-171 | Outside quiet hours each wanted channel is sent to or recorded as capped, never both; in them the capped ones leave no record |
| `Routing.CriticalIsNeverHeld` | src/notifications/routing/routing-engine.service.ts:88-171 | A CRITICAL event keeps all its channels |
| `SendTime.SendTimeOptimizationService.RecordEngagement` | src/notifications/engine/send-time-optimization.service.ts:44-68 | One more for the hour read in, a tenth less for every other, and 180 days to live from then |
| `SendTime.SendTimeOptimizationService.GetBestHour` | src/notifications/engine/send-time-optimization.service.ts:140-153 | The earliest hour of maximal positive score |
| `SendTime.SendTimeOptimizationService.ComputeDelay` | src/notifications/engine/send-time-optimization.service.ts:161-178 | The time until the user's clock next begins the hour |
| `SendTime.SendTimeOptimizationService.Decide` | src/notifications/engine/send-time-optimization.service.ts:74-118 | Delays iff nothing bypasses, the total reaches 10 and the best hour begins within 4 hours; two of the reasons are never given |
| `SendTime.TotalIsBounded` | src/notifications/engine/send-time-optimization.service.ts:44-68 | After n reads without a pause of 180 days the total is between 10(1 - 0.9^n) and n |
| `SendTime.TenReadsAreNeeded` | src/notifications/engine/send-time-optimization.service.ts:87-94 | A delay rests on at least ten reads without such a pause |
| `Pipeline.NotificationEngine.Settle` | src/notifications/engine/notification-engine.service.ts:219-371 | Template support, deferral, suppression and send-time optimisation in this order |
| `Pipeline.NotificationEngine.Dispose` | src/notifications/engine/notification-engine.service.ts:204-371 | The disposition of the routing decision that preferences, caps and clock give |
| `Pipeline.Lawful` | src/notifications/engine/notification-engine.service.ts:204-371 | For all of them: CRITICAL events go out by sms and push, only digestable ones wait for a digest, and every wait is for later |
| `Pipeline.NotificationEngine.Process` | src/notifications/engine/notification-engine.service.ts:94-381 | Duplicates, redeliveries and unknown users change nothing; any other event takes two legal steps from CREATED to the state of its disposition |
| `Pipeline.CriticalGoesOut` | src/notifications/engine/notification-engine.service.ts:204-381 | For every preference, cap, quiet-hours and engagement state a CRITICAL event is fanned out to exactly the wanted channels with a template, iff there is one |
| `Pipeline.DispositionIff` | src/notifications/engine/notification-engine.service.ts:204-381 | Exactly when an event is digested, deferred, delayed, sent at once or left unsent |
| `Pipeline.DispositionContents` | src/notifications/engine/notification-engine.service.ts:204-398 | With what: the resolved digest mode, all permitted channels with a template, the end of the quiet window or the best hour; an unsent event counts as capped iff a cap or quiet hours stopped a channel |
| `FanOut.EveryChannelQueued` | src/notifications/engine/notification-engine.service.ts:468-597 | Every channel of a fan-out gets exactly one row, queued once, with the event, user and priority of the original; nothing else moves |
| `FanOut.CarrierReachesProvider` | src/delivery/delivery.service.ts:92-284 | The carrier of sms or push of a CRITICAL event reaches its provider, whatever happens before its message is handled |
| `FanOut.CriticalEndToEnd` | src/notifications/engine/notification-engine.service.ts:204-597 | From preferences to the provider call: for every state of every policy, a CRITICAL event's sms and push are fanned out, queued and sent |
| `AbTesting.AbTestingService.ResolveVariant` | src/templates/engine/ab-testing.service.ts:36-98 | The loop picks the first variant whose cumulative weight exceeds the bucket, else the control |
| `AbTesting.VariantShare` | src/templates/engine/ab-testing.service.ts:52-97 | Variant i gets min(100, prefix(i+1)) - min(100, prefix(i)) buckets |
| `AbTesting.ControlShare` | src/templates/engine/ab-testing.service.ts:52-97 | The control gets max(0, 100 - sum) |
| `AbTesting.Partition` | src/templates/engine/ab-testing.service.ts:52-97 | Each bucket goes to exactly one |
| `AbTesting.AppendingMovesNobody` | src/templates/engine/ab-testing.service.ts:52-97 | Appending a variant moves no bucket of an earlier one |
| `SmsTruncation.SmsTruncationService.Truncate` | src/templates/engine/sms-truncation.service.ts:64-76 | Identity on what fits, else the kept prefix and the suffix |
| `SmsTruncation.TruncationFits` | src/templates/engine/sms-truncation.service.ts:64-80 | A truncated text fits iff it fitted, or is not GSM-7, or has no more extension characters before the cut than characters from there to the 153rd |
| `SmsTruncation.PlainTextFits` | src/templates/engine/sms-truncation.service.ts:64-80 | UCS-2 texts and GSM texts without extension characters always fit |
| `SmsTruncation.KeepsMostOfTheRoom` | src/templates/engine/sms-truncation.service.ts:64-76 | When more than 80 percent of the room is kept |
| `SmsTruncation.ExtensionTextGrows` | src/templates/engine/sms-truncation.service.ts:64-76 | Cutting by characters, not septets: a text that does not fit after truncation (concrete) |
| `Digest.DigestBucketService.Add` | src/notifications/digest/digest-bucket.service.ts:51-72 | Item and due time in one step; the earliest due time wins |
| `Digest.DigestBucketService.ClaimDue` | src/notifications/digest/digest-bucket.service.ts:75-93 | Alone, a caller claims exactly the due buckets it listed |
| `Digest.DigestBucketService.Take` | src/notifications/digest/digest-bucket.service.ts:96-105 | Returns every id once, oldest first, and empties the bucket |
| `Digest.DigestBucketService.Restore` | src/notifications/digest/digest-bucket.service.ts:108-115 | The loop has the effect of adding the ids in turn |
| `Digest.RestoredIsWhole` | src/notifications/digest/digest-bucket.service.ts:108-115 | Every id is back, other buckets are as they were, the bucket is due no later than asked |
| `Digest.TakeThenRestore` | src/notifications/digest/digest-bucket.service.ts:96-115 | Take and restore lose and invent nothing |
| `DigestFlush.DigestFlushService.Flush` | src/notifications/digest/digest-flush.service.ts:97-166 | Which outcome occurs when, and for each the buckets, the rows and the digest |
| `DigestFlush.DigestFlushService.Send` | src/notifications/digest/digest-flush.service.ts:168-290 | Promotes, creates the digest, folds; the digest is its user's, stands for all the items and is promotional iff one of them is; a digest that cannot be queued folds nothing, and a database that fails after n folds leaves exactly those |
| `DigestRuns.EachIdInOnePlace` | src/notifications/digest/digest-bucket.service.ts:36-115 | Under any interleaving each held id is in exactly one bucket, one replica's hands, or settled |
| `DigestRuns.DigestedOnce` | src/notifications/digest/digest-flush.service.ts:268-282 | DIGESTED is written at most once per id |
| `DigestRuns.NoBucketIsStranded` | src/notifications/digest/digest-bucket.service.ts:50-105 | While lookups succeed a bucket with items is due or claimed by a replica that has not taken it |
| `DigestRuns.FailedLookupStrands` | src/notifications/digest/digest-flush.service.ts:85-111 | A user lookup that throws strands the bucket, exactly when |
| `DigestRuns.LostOnlyByLookups` | src/notifications/digest/digest-flush.service.ts:113-165 | Nothing taken is lost while lookups succeed |
| `DigestRuns.FailedLookupLosesAll` | src/notifications/digest/digest-flush.service.ts:117-146 | A lookup that throws after the take loses everything held |
| `DigestRuns.Fate` | src/notifications/digest/digest-flush.service.ts:97-166 | What becomes of every id: waiting in a covered bucket, held, digested, filtered out, below the minimum, or without a user |
| `DigestRuns.OnlyFewCappedAreLeft` | src/notifications/digest/digest-bucket.service.ts:23-29 | Only the capped bucket leaves items behind, when one or two are left |
| `DigestLogs.WritesStartAtStatus` | src/notifications/digest/digest-flush.service.ts:189-282 | Under any interleaving the row is in the state each promotion and fold names without looking |
| `DigestLogs.LogsStayPaths` | src/notifications/digest/digest-flush.service.ts:189-282 | So a held notification's log stays a legal path |
| `DigestLogs.LeftPendingIff` | src/notifications/digest/digest-flush.service.ts:149-165 | An item left below the minimum is in DIGEST_PENDING iff it came so or an earlier send promoted it, and CAPPED otherwise |
| `DigestLogs.SettledForGood` | src/notifications/digest/digest-flush.service.ts:97-166 | Whatever happens later, a settled id keeps its reason, status and log |
| `DigestCases.HalfFoldedPileIsLeftPending` | src/notifications/digest/digest-flush.service.ts:149-165 | Three capped items, a send that fails after one fold: the other two stay in DIGEST_PENDING in no bucket, for good (concrete run) |
| `DigestCases.StrandedBucket` | src/notifications/digest/digest-flush.service.ts:85-111 | A bucket stranded by a user lookup that throws (concrete run) |
| `DigestCases.LostId` | src/notifications/digest/digest-flush.service.ts:117-146 | An id lost by a lookup that throws after the take (concrete run) |
| `ScheduledRelease.NotificationEngine.Resume` | src/notifications/engine/notification-engine.service.ts:408-459 | Only QUIET and ROUTED notifications are fanned out, a QUIET one leaving its user's queue and no other; a second call does nothing |
| `ScheduledRelease.NotificationEngine.DeferToDigest` | src/notifications/engine/notification-engine.service.ts:634-651 | Only a QUIET notification moves to the digest, and leaves its user's queue |
| `ScheduledRelease.ScheduledReleaseService.ReleaseDue` | src/notifications/engine/scheduled-release.service.ts:61-121 | One batch: the set, the releases and the count it leaves behind |
| `ScheduledRelease.BatchLosesNothing` | src/notifications/engine/scheduled-release.service.ts:84-115 | Entries of a batch are gone, or back 30 seconds later iff they failed; no other entry moves |
| `ScheduledRelease.SameChoice` | src/notifications/engine/scheduled-release.service.ts:69-102 | A user's quiet entries in a batch go to the digest iff more than five were queued when it began |
| `ReleaseRuns.EachEntryInOnePlace` | src/notifications/engine/scheduled-release.service.ts:61-121 | Under any interleaving each entry is in the set, in one replica's hands, or done |
| `ReleaseRuns.ReleasedOnce` | src/notifications/engine/scheduled-release.service.ts:84-115 | A notification is fanned out or deferred exactly once when its entry is done, never before |
| `ReleaseRuns.FailureGoesBack` | src/notifications/engine/scheduled-release.service.ts:104-114 | A failing release goes back 30 seconds on and stays waiting |
| `ReleaseRuns.DepthCountsQuiet` | src/compliance/quiet-hours/quiet-hours.service.ts:95-121 | In every run the depth of a user's quiet queue is the number of the user's QUIET notifications |
| `ReleaseRuns.DepthWasRead` | src/notifications/engine/scheduled-release.service.ts:69-82 | Every depth a batch uses was the number of the user's QUIET notifications at one moment after the batch began and before its first claim |
| `ReleaseRuns.SameChoiceInBatch` | src/notifications/engine/scheduled-release.service.ts:69-102 | Within one batch all of a user's quiet entries get the same choice: the digest iff that depth exceeded five |
| `ReleaseRuns.ChoiceIsRelease` | src/notifications/engine/scheduled-release.service.ts:84-115 | Every quiet entry released makes a choice, and the notification is deferred or queued as chosen |
| `ReleaseSolo.SoloBatch` | src/notifications/engine/scheduled-release.service.ts:61-121 | From any reachable state, one replica's commands uninterrupted add up to what ReleaseDue does as a whole |

## Left out

- OTP code store, `toSmsSafe`, `nextHour`, usage and history queries, preference warnings: they would add only easy members.
- Kafka, RabbitMQ, Prisma, HTTP controllers, guards and the WebSocket gateway: queues, maps and outcomes chosen by the environment stand for them.
- Provider payloads, template rendering, currency and locale formatting: a call succeeds or fails, a template supports a channel or does not.
- Hashing, signatures and encryption: fingerprints are the values they hash, tokens are records, A/B buckets are given.
- IANA time zones and daylight saving: each user has a fixed offset from UTC.
- Process crashes between two writes, and broker redelivery while a retry is in flight: the code promises nothing there.
- Failing delivery receipts and the operator's retry of a dead letter: they are not steps of the delivery runs.
- Analytics, metrics, exposure counts, z-tests and p-values: no property of interest, or floating point.
- Priorities 1, 2, 3 and 5 only, as `priorities.ts` lists them.
- Delivery.DeliveryService.RequeueNotification: requeue and removal from the retry set are one step, because the code does not make the pair atomic and promises nothing between them; the runs take only requeues with content.
- Delivery.DeliveryService.Process: rows are read and written without interference from other workers on the same id, because the broker delivers each message once.
- Delivery.DeliveryService.DeadLetter: the masked copy of the event in the dead-letter row is not modelled, only its retry count.
- Redis.Counters.Increment: INCR and EXPIRE NX are one step, because the pipeline that carries them is only ever split by a crash.
- FrequencyCap.RollingCaps: check and record are one step per event, because concurrent events may pass the same check.
- DeduplicationRaces.WinnersShareNoKey: a release reads and deletes its key in one step, so a key that changes hands between the two commands is not covered.
- Deduplication.DeduplicationService.ClaimEvent: the consumer's later `check` and `register` are not modelled; `register` overwrites, with a plain SET, the fingerprint of the bucket in which the consumer runs and a computed idempotency key.
- TokenRotation.AuthService.Refresh: access tokens and their expiry are not modelled, because nothing here depends on them.
- CircuitBreaker.OpenRefuses: operations on a circuit come one at a time, because the code reads and writes its keys without a transaction.
- Compliance.AnswerIsCurrent: operations come one at a time; the interrupted lookup is the counterexample otherwise.
- Preferences.CacheAgreesWithRows: one user per object and one operation at a time, because a concurrent update can leave a stale cache for its lifetime.
- QuietHours.QuietHoursService.CheckWindow: the user row is given, and stored times are valid minutes of a day.
- Routing.RoutingEngineService.Route: scores are exact reals, because rounding does not change any order here.
- SendTime.SendTimeOptimizationService.RecordEngagement: scores are exact reals, and the hour is given, because the server's own clock supplies it.
- Pipeline.NotificationEngine.Process: the answers of the duplicate check and of the user lookup are given, and the fan-out that follows is FanOut.EveryChannelQueued.
- FanOut.EveryChannelQueued: rendering succeeds, because its failure is DeliveryRuns.RenderFailureIsNotAStep; template variants and exposure records are not modelled.
- ScheduledRelease.NotificationEngine.Resume: resuming is all or nothing and ends in QUEUED, so a failure between its writes is not modelled.
- DigestFlush.DigestFlushService.Flush: line texts and the rest of the digest's own row are left out; of the database errors it has those between folds, and DigestRuns a send that fails at any point.
- DigestRuns.Fate: no other service changes the status of a held notification, because none does in the code.
- KeyCase.RoundTrip: objects have distinct keys, as parsed JSON has; key order is that of insertion, so keys that look like array indices are not reordered.
- AbTesting.VariantShare: weights are non-negative numbers of buckets, as the configuration intends.
- SmsTruncation.SmsTruncationService.Truncate: a character is one UTF-16 unit, and the GSM alphabet is the source's own list.
