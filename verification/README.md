# Wormhole Observatory: a verified model of quotas, dispatch and the analysis queue

This project models the parts of `pihole_manager` that decide what is allowed to happen and
when, and proves what those parts promise over whole runs.

* **The quota ledger.** Reservations of one provider scope are rows that go from reserved to
  completed or cancelled. Each is admitted against rolling and UTC-day limits, a realtime
  reserve, user caps and live response headers; a rejection carries a retry time.
  `Quota.dfy` has the rows, limits and atomic steps, `LedgerTable.dfy` the table that is
  updated in place with its loops over rows and limits; `QuotaLimits.dfy` says which limits are
  in force, key by key, and what completions store. `QuotaSafety.dfy` bounds every window
  in every run, `QuotaRetry.dfy` shows that the retry time is exact and that the expiry sweep
  cannot be observed, `QuotaCaps.dfy` treats user caps and headers, `QuotaRealtime.dfy` the
  realtime reserve. `QuotaGrants.dfy` counts everything granted and not cancelled by its caller,
  including reservations that were swept while their requests were in flight. `QuotaResets.dfy`,
  `QuotaSweeps.dfy` and `QuotaBudget.dfy` work out exactly when a user cap is a rolling bound,
  when the sweep shows, and when a header's remaining amount bounds what is granted. The runs
  these turn on are in `QuotaBursts.dfy` (equal requests at one time), `QuotaPaces.dfy` (paced
  around midnight) and `QuotaSpending.dfy` (spending what a header left twice);
  `QuotaTwins.dfy` compares rows with and without sweeps, `QuotaSums.dfy` has the sums over rows,
  and `LedgerRows.dfy` follows one row through a run.
* **The provider request.** `ProviderRequest.dfy` is the retry loop on top of the ledger while
  other callers step the same ledger; `Pacing.dfy` is the adaptive request spacing.
* **The analysis dispatcher.** `Batching.dfy` splits domains into requests, `Analysis.dfy` is
  the contract of one response, `Dispatcher.dfy` the halving loop, the fallback over providers
  and the weighted distribution. `Verification.dfy` joins the two-provider check, the guards
  and the automatic decision end to end.
* **The queue and its two workers.** `Queue.dfy` and `QueueTable.dfy` hold the queue and lock
  tables and one worker pass; `Workers.dfy` interleaves enqueuers, two workers, lock holders,
  crashes and restarts at transaction granularity.
* **Three smaller pieces.** `Observations.dfy` (hourly aggregation of query rows),
  `AuditUndo.dfy` (the audit log and its rollback), `SuffixIndex.dfy` (catalog lookup by label
  suffix, and its cache). `Basics.dfy` holds what all of them share.

Amounts and times of the ledger are reals, and `now` is an argument of every step. A clock
reading, a provider call, a hash and a list builder are parameters, so the theorems hold for
all of them. A class holds what the program updates in place; each of its methods is proved
equal to a function of the old state, and the theorems are about those functions.

## What turned out to be conditional

* The computed retry time is exact if and only if the request fits every cap by itself
  (`RetryTimeExactIff`); a request over a cap is refused at every time, so its retry time
  names a moment at which it is refused again.
* A user cap that is merged into a registry limit with a midnight reset keeps the reset. It
  then bounds each UTC day but not every 86400-second window: `DailyCapIsNotRolling` takes the
  registry's limit of 10000 units a day under an equal user cap and admits 17971.2 units within
  eleven seconds, and `PacedCapIsNotRolling` spreads 1800 requests over three hours and twenty
  minutes under caps of 10 a minute and 1000 a day. For reservations that ask for at least an
  amount w of the cap, `RollingCapIff` gives the exact condition: the limit has no midnight
  reset, or the cap less the margin is below w. It supposes that the cap binds: some pace around
  midnight, a group of requests every so many seconds, fits one side of the cap, exceeds it with
  both, and is admitted by the other limits. `RequestCapIff` is the case of one request each. The
  second alternative is real: one request a day under the default margin of 10 leaves 0.9, and
  nothing is ever admitted.
* The remaining amount of a header bounds everything granted until its reset, reservations that
  were swept in flight included, if and only if the reset comes within a reservation's lifetime,
  or less remains than the smallest request asks for (`ObservedBudgetIff`, for a header that
  binds). `RemainingIsSpentTwice` is the other case: one request remains for 1000 seconds,
  reservations live for 300, and two are granted. The rows that are still live never exceed it
  (`ObservedBudget`).
* Caps and windows count live rows. With a clock that never goes back, and reservations that
  outlive the window, they also bound everything granted (`GrantedWindowSafety`,
  `GrantedUserCapsHold`). Reservations outlive every rolling window of the profile's limits; a
  UTC day they outlive if some limit's window covers a day.
* The expiry sweep and a UTC-day limit agree only while reservations live for a day. The
  registry accepts a daily reset with a shorter window; then usage is released before midnight,
  answers change and a retry time is too late. `ShortDayIff` gives the exact condition for a
  profile whose tightest limit counts by the day; the sufficient condition for any profile is
  `LiveADay`.
* The greedy split is optimal, and exists whenever any split does, if dropping leading domains
  from a request that fits leaves one that fits. A user template can break that:
  `GreedyCanFail` is one that repeats the first domain, where the greedy split fails although
  another fits.
* Two-provider agreement needs hybrid automation. `AutoModeCanActAlone` is an automatic deny
  in full automation that nobody verified; `ConfirmedIffRequired` gives the exact condition in
  every mode: the primary classification had to be verified.
* Two workers never hold the same domain as long as nobody outside deletes or locks a row that
  a running worker holds. `ExclusionIff` says so event by event: in every state reached without
  such a removal, an event keeps the exclusion if and only if it is not one.
  `LockingInFlightBreaksExclusion` reaches a state with the same domain in both workers.
* A rejected reservation leaves its transaction by an exception, so its expiry sweep is
  rolled back with it (`ReserveStep`).
* An answered request stays counted if and only if no other caller, of this scope or another,
  was admitted past its reservation's expiry while it was in flight
  (`EveryReservationSettled`). In
  `SlowAnswerIsNotCounted` the answer takes 300 seconds, the reservation is swept meanwhile
  and the request no longer counts.

## Model

| member | source | states |
|---|---|---|
| QuotaSafety.GrantedIff | pihole_manager/quota.py:149-246 | A reservation is granted exactly when every limit in force and every unexpired header has room for it among the rows that survive the sweep. |
| QuotaSafety.AdmissionBound | pihole_manager/quota.py:524-578 | Right after an admission the whole span a limit governs, the new row included, is within that limit's cap. |
| QuotaSafety.WindowSafety | pihole_manager/quota.py:149-246 | For every ledger, clock and stream of later steps: the live rows of a rolling window or UTC day use at most the cap in force at its last admission plus what completions added above their estimates. |
| QuotaSafety.WindowSafetyOverRuns | pihole_manager/quota.py:149-333 | A bound on the governing cap at every admission of a run is a bound on the span after the run, up to completions above estimates, and exactly for requests. |
| QuotaSafety.RequestsAreNeverRaised | pihole_manager/quota.py:280-315 | No sequence of completions ever raises the request count of a span. |
| QuotaSafety.UsedComplete | pihole_manager/quota.py:280-315 | Completing a reservation lifts a span's usage by no more than the amount reported above the estimate. |
| QuotaSafety.CompletedUsage | pihole_manager/quota.py:293-306 | Completing an open row moves every usage that counts the row by exactly what was reported less what was reserved, the request count apart, and no other usage. |
| QuotaSafety.UsageAddsUp | pihole_manager/quota.py:718-738 | Usage of each metric is the sum of its own field over the counted rows, total tokens that of input and output, and an unknown metric is never used. |
| QuotaSafety.CountedSpans | pihole_manager/quota.py:551-564 | A header counts what came after its observation, a rolling limit what came after its window began, bounds excluded. |
| QuotaSafety.LimitsDecide | pihole_manager/quota.py:524-602 | The retry time over all limits is not in the future exactly when the request fits each of them. |
| QuotaSafety.ObservationsDecide | pihole_manager/quota.py:605-632 | The retry time over the live headers is not in the future exactly when usage since each unexpired observation plus the request stays within what remained. |
| QuotaSafety.OrderOfLimitsIsIrrelevant | pihole_manager/quota.py:516-521 | Neither the order of the limits in force nor repetitions among them affect the retry time. |
| LedgerTable.RetryAtForLimit | pihole_manager/quota.py:581-602 | The loop over the rows finds the release time of the first row whose leaving makes room, which RollingExact characterizes. |
| LedgerTable.LimitRetryAt | pihole_manager/quota.py:524-578 | The loop over the limits returns the latest of their retry times, skipping metrics the request does not use. |
| LedgerTable.LiveLimitRetryAt | pihole_manager/quota.py:605-632 | The loop over the live headers returns the latest reset among those the request exceeds. |
| LedgerTable.CombineLimits | pihole_manager/quota.py:482-521 | For limits and headers with one entry per key, key by key: an unexpired header's amount is in force, under the user cap of the configured limit if it has one, with that limit's cap and reset policy, or rolling without a cap if there is none; every other configured limit is in force as it is; a manual profile ignores headers. |
| QuotaLimits.MergedInForce | pihole_manager/quota.py:482-521 | The same for the merge the reference decisions are made under. |
| QuotaLimits.GrantedUnderHeaders | pihole_manager/quota.py:185-211 | In every reachable ledger, where the header table holds one header per key, a reservation is granted exactly when each limit so put in force, and each unexpired header, has room for it. |
| QuotaLimits.HeadersAreStored | pihole_manager/quota.py:635-659 | After a completion the table holds its headers, the last one under each key, and what it held under other keys, nothing else. |
| QuotaLimits.CapInPercent | pihole_manager/quota.py:536-550 | The margin, held between 0 and 50 percent, comes off every limit, and the realtime reserve, between 0 and 90 percent of the rest, off the background pool. |
| QuotaLimits.UnknownProviderRate | pihole_manager/quota.py:465-479 | Without headers, a provider without known limits is granted at most its conservative rate, of at least one request a minute, and exactly what fits it; a local or manual one without limits is always granted. |
| QuotaLimits.LifetimeIsLongest | pihole_manager/quota.py:163-165 | A reservation lives for the longest configured window, and for at least five minutes. |
| LedgerTable.QuotaLedger.Reserve | pihole_manager/quota.py:149-246 | The transaction admits and inserts, or rejects with a time after now and leaves every row, header and id as it was. |
| LedgerTable.GrantInserts | pihole_manager/quota.py:166-246 | A grant adds exactly one row to those the sweep left: the request's pool and estimate, reserved, with a new id, created now and expiring after the lifetime. |
| LedgerTable.QuotaLedger.Complete | pihole_manager/quota.py:280-315 | Only the named row changes, and only while reserved: it is completed with its own request count and the input, output and units that the usage report amounts to; headers are stored, the last one under each key, whether or not the row was still reserved. |
| LedgerTable.QuotaLedger.Cancel | pihole_manager/quota.py:318-333 | Only the named row changes, and only while reserved. |
| LedgerTable.QuotaLedger.Expire | pihole_manager/quota.py:177-184 | An admission of another scope cancels exactly this scope's expired open reservations. |
| Quota.NormalizedUsage | pihole_manager/quota.py:662-688 | No report keeps the estimate, a report without tokens keeps the estimated tokens, reported tokens are stored clamped at zero, missing units are priced by the profile, and the request count is never replaced. |
| QuotaRetry.RollingExact | pihole_manager/quota.py:581-602 | From the decision on, a request that fits a rolling cap fits at a time exactly when that time is not before the computed one. |
| QuotaRetry.DailyExact | pihole_manager/quota.py:557-571 | The same for a UTC-day limit, whose retry time is the next midnight. |
| QuotaRetry.RetryTimeExact | pihole_manager/quota.py:524-602 | Over the maximum of all limits, the same request against unchanged rows is refused before the computed time and granted from it on. |
| QuotaRetry.TooLargeNeverGranted | pihole_manager/quota.py:592-594 | A request that exceeds a cap by itself is refused at every time. |
| QuotaRetry.RetryTimeExactIff | pihole_manager/quota.py:581-602 | The computed time is exact at all later times if and only if the request fits every cap by itself. |
| QuotaRetry.LiveRetryExact | pihole_manager/quota.py:605-632 | From the decision on, with unchanged rows and headers, no header refuses the request at a time exactly when that time is not before the latest reset of those it exceeded. |
| QuotaRetry.ReachableRetryExact | pihole_manager/quota.py:149-246 | In every ledger that a run without headers reaches, the retry time is exact for requests that fit every cap, if reservations live for a day when a limit counts by the day and no row is of a later day than the decision. |
| QuotaRetry.SweepIsInvisible | pihole_manager/quota.py:163-184 | With a clock that never goes back, no headers, and reservations that live for a day when a limit counts by the day, all answers of a run, retry times included, equal those of a ledger that never sweeps. |
| QuotaSweeps.ShortDayIff | pihole_manager/quota.py:163-184 | For a profile whose tightest limit counts by the UTC day: the sweep shows in no answer of any run without headers, and every retry time is exact, if and only if reservations live for a day or the limit's cap is below the smallest request. |
| QuotaCaps.UserCapsApplied | pihole_manager/provider_registry.py:365-387 | After the merge every configured cap holds its limit at or under the cap and keeps the registry's reset policy. |
| QuotaCaps.UserCapsMerged | pihole_manager/provider_registry.py:365-450 | Setting by setting, with its metric and window: a positive one puts the smaller of itself and the registry's amount in force, under that cap and the registry's reset policy; otherwise the registry's limit stays as it is. |
| QuotaCaps.MergeKeepsCaps | pihole_manager/quota.py:495-515 | No sequence of live headers lifts a capped limit above its user cap or changes its reset policy. |
| QuotaCaps.UserCapsHold | pihole_manager/provider_registry.py:365-450 | In every run with any headers, usage of a capped metric in every window of its reset policy stays within cap times (1 - margin), up to completions above estimates, and exactly for requests. |
| QuotaResets.RollingCapIff | pihole_manager/provider_registry.py:370-387 | A user cap of any metric that binds at some pace bounds every rolling window of every run, up to completions above estimates, if and only if its limit in the registry has no midnight reset or the cap is below the smallest request. |
| QuotaResets.RequestCapIff | pihole_manager/provider_registry.py:370-387 | The same for request caps and reservations of one request each, without the allowance for completions. |
| QuotaResets.SidesAreTaken | pihole_manager/quota.py:551-571 | At a pace the other limits admit, as many equal requests as the cap admits are all granted before midnight, and as many again after, within one window. |
| QuotaResets.AtOnceBinds | pihole_manager/quota.py:524-578 | When every other limit leaves room for twice the cap, it binds at once. |
| QuotaResets.DailyCapIsNotRolling | pihole_manager/provider_registry.py:383-387 | The registry's daily unit limit at its own prices, capped by the user at the same amount: a run of typical requests takes almost twice the capped day within eleven seconds. |
| QuotaResets.PacedCapIsNotRolling | pihole_manager/provider_registry.py:370-387 | Under user caps of 10 requests a minute and 1000 a day over a daily registry limit, 1800 requests within three hours and twenty minutes. |
| QuotaCaps.ObservedBudget | pihole_manager/quota.py:605-659 | Until its reset or a newer header, the live rows made after an observation stay within the remaining amount, up to completions above estimates, and exactly for requests. |
| QuotaBudget.ObservedBudgetIff | pihole_manager/quota.py:177-184 | With a clock that never goes back, everything granted after a header that binds and before its reset, and not cancelled by its caller, stays within the remaining amount, up to completions above estimates, if and only if the reset comes within a reservation's lifetime or less remains than the smallest request. |
| QuotaBudget.RemainingIsSpentTwice | pihole_manager/quota.py:605-632 | A header with one request left for 1000 seconds, after which two requests are granted 300 seconds apart. |
| QuotaGrants.GrantedWindowSafety | pihole_manager/quota.py:149-246 | With a clock that never goes back and reservations that outlive the span, everything granted in it and not cancelled by its caller, swept or not, stays within the bound on the caps in force, up to completions above estimates, and exactly for requests. |
| QuotaGrants.GrantedUserCapsHold | pihole_manager/provider_registry.py:365-450 | Under any headers, everything granted in a window of a user cap's reset policy stays within cap times (1 - margin); for a cap counted by the day, if reservations live for a day. |
| QuotaRealtime.BackgroundStaysInShare | pihole_manager/quota.py:547-556 | In every ledger that a run of one profile and one set of options without headers reaches, the live background rows of a window hold at most (1 - reserve) of the cap, up to completions above estimates, and exactly for requests. |
| QuotaRealtime.RealtimeNeverStarved | pihole_manager/quota.py:547-578 | In every such ledger with no row later than the decision, a realtime request that, with the realtime usage of each window, stays inside the reserved share is granted. |
| ProviderRequest.RequestWithRetries | pihole_manager/provider_api.py:329-428 | The loop with its settlement calls on the shared ledger is the attempt-by-attempt reference, from the first attempt to the result. |
| ProviderRequest.EveryReservationSettled | pihole_manager/provider_api.py:329-428 | For any responses, cancellations and steps of other callers: at most one reservation per attempt, none left outstanding. It ends completed exactly when its request was answered and no other admission, in this scope or another, had expired it before; then a status from 400 to 599 leaves it with the request, the estimated input, no output unless no input was estimated, and the priced units, and any other status with the amounts of the reported usage. Otherwise it ends cancelled with its estimate. The statement after the loop is unreachable. |
| ProviderRequest.AttemptSettles | pihole_manager/provider_api.py:357-421 | Right after each attempt its reservation is settled and charged like that, and the headers of an answer, failed or not, are in the table. |
| ProviderRequest.WaitTakesFirst | pihole_manager/quota.py:249-277 | The wait takes the first try that has room, on the ledger that the other callers alone have left by then, and gives up only when none has. |
| ProviderRequest.PunctualIsUnswept | pihole_manager/quota.py:177-184 | As long as every other caller's clock, in any scope, is before the expiry, the reservation in flight is not swept. |
| ProviderRequest.SlowAnswerIsNotCounted | pihole_manager/quota.py:177-184 | One request, answered after 300 seconds with another admission in between, that ends up cancelled and in no window's usage. |
| ProviderRequest.FailuresUseEveryAttempt | pihole_manager/provider_api.py:343-428 | The result is the one the last attempt earned: an answer has no error status; a rate limit, a lost connection or status 408, 429, 500, 502, 503 or 504 surfaces only after every attempt was used, and any other error status at once; cancellation and quota failure only where they occurred; all attempts before the last failed in passing. |
| ProviderRequest.FailedAnswersReleaseOutput | pihole_manager/provider_api.py:380-389 | A failed answer keeps the request and its input tokens counted, gives the reserved output back, and costs no more units than were reserved. |
| ProviderRequest.LaterAttemptsKeep | pihole_manager/provider_api.py:343-424 | Later attempts and other callers never disturb a settled reservation. |
| Pacing.RateState.TakeSlot | pihole_manager/provider_api.py:431-451 | A slot is granted exactly when its time has come, otherwise the remaining wait is returned and nothing changes. |
| Pacing.RateState.IncreaseBackoff | pihole_manager/provider_api.py:473-490 | A failure moves the next slot past its delay and past the doubled interval. |
| Pacing.GrantsAreSpaced | pihole_manager/provider_api.py:431-499 | In any interleaving of requests, failures and successes, with any clock readings, two granted slots are at least the configured interval apart. |
| Pacing.DelayIsRespected | pihole_manager/provider_api.py:454-490 | After a failure no slot is granted before its delay and the doubled interval are over, whatever follows. |
| Pacing.NextSlotExact | pihole_manager/provider_api.py:441-490 | The next slot opens exactly when the configured and the adaptive interval since the last slot are over, and after a failure when its delay, the raised interval and what was waited for before are. |
| Pacing.SuccessesHalve | pihole_manager/provider_api.py:493-499 | A run of successes halves the interval each time down to the configured one, forgets the rate limits and leaves the next slot where it was. |
| Pacing.SlotsPerSpan | pihole_manager/provider_api.py:431-451 | A span of length L holds at most floor(L / interval) + 1 granted slots. |
| Pacing.FailuresDouble | pihole_manager/provider_api.py:481-482 | After n failures in a row the interval is max(1, base) times 2 to the n - 1, capped at a minute, for every configured interval. |
| Batching.ProviderBatches | pihole_manager/analysis_dispatcher.py:740-779 | The loop that shrinks and removes prefixes computes the greedy split, or fails exactly when some first remaining domain does not fit. |
| Batching.GreedyIsSplit | pihole_manager/analysis_dispatcher.py:740-779 | The batches concatenate to the input in order, are non-empty, respect the size limit and fit the context. |
| Batching.LongestFit | pihole_manager/analysis_dispatcher.py:752-772 | The chosen prefix fits and no longer prefix within the limit does. |
| Batching.GreedyIsOptimal | pihole_manager/analysis_dispatcher.py:740-779 | If dropping leading domains keeps a request fitting: whenever any contiguous split exists the greedy one does, and no split uses fewer requests. |
| Batching.GreedyCanFail | pihole_manager/llm.py:172-188 | A template that repeats the first domain, under which the greedy split fails although another split fits. |
| Batching.EstimateIsSuffixClosed | pihole_manager/quota.py:79-129 | For prompts that do not grow when leading domains are dropped, the real estimate (characters over 3.5, clamped output with a fifth added, context minus margin) keeps fitting, so the optimality applies to it. |
| Batching.FitsWithinContext | pihole_manager/quota.py:79-129 | A request that fits takes, at 3.5 characters a token and a fifth more than the usual output, no more than the context less its margin; one with three tokens to spare fits; and without a known context every request does. |
| Analysis.ParseBatch | pihole_manager/llm.py:434-460 | A response is accepted exactly when it has one result per expected domain and nothing else; the results come back in the expected order; a refusal names a domain, or the omitted domains, for which it is true. |
| Analysis.BlankDomains | pihole_manager/llm.py:441-448 | An item without a domain is accepted for the only expected one, and otherwise never. |
| Dispatcher.DriveBatches | pihole_manager/analysis_dispatcher.py:618-664 | The loop that splits a batch in place on a quota error is the reference run over the remaining batches. |
| Dispatcher.DriveConserves | pihole_manager/analysis_dispatcher.py:618-692 | At the end, classified domains followed by failed ones are the input in order, and calls are bounded by the potential of the batches. |
| Dispatcher.DriveMoves | pihole_manager/analysis_dispatcher.py:618-690 | Call by call, for any provider: after a reply the next call starts where this one ended; after a quota error on several domains their first half is asked again; any other error or a cancellation ends the run, everything from that call on failed; the results are those of the replies. |
| Dispatcher.UsageIsTotal | pihole_manager/analysis_dispatcher.py:657-663 | The reported usage is the sum over exactly the replies received. |
| Dispatcher.ExecuteProvider | pihole_manager/analysis_dispatcher.py:601-698 | For n domains at most 2n - 1 calls are made; a finished run returns the input order; a stopped one is partial with exactly what it classified, what it failed on and why, or raises that error if it classified nothing; an input that cannot be batched makes no call. |
| Dispatcher.DispatchFallback | pihole_manager/analysis_dispatcher.py:381-421 | The loop over candidates is the recursive fallback that hands each the domains left by the previous ones. |
| Dispatcher.FallbackPartitions | pihole_manager/analysis_dispatcher.py:381-421 | Whenever fallback returns, the classified domains in try order followed by the remaining ones are the input; an error that escapes is never one to fall back on. |
| Dispatcher.FallbackTries | pihole_manager/analysis_dispatcher.py:381-421 | Try by try: each candidate is given what the one before left, another one is tried after every fault that is not permanent, and the fallback ends only when nothing is left, no candidate is, or a fault is permanent. |
| Dispatcher.FallbackInTryOrder | pihole_manager/analysis_dispatcher.py:394-410 | Each provider contributes at most one result, in the order of the tries. |
| Dispatcher.NothingClassifiedTwice | pihole_manager/analysis_dispatcher.py:381-421 | For distinct domains no domain is classified twice and none that was classified is left over. |
| Dispatcher.Assign | pihole_manager/analysis_dispatcher.py:328-338 | Every domain is appended to the list of exactly the provider its hash selects, in input order, and every such provider is listed once. |
| Dispatcher.SlotsExist | pihole_manager/analysis_dispatcher.py:329-333 | The weighted slots are never fewer than the members and name exactly the members. |
| Dispatcher.PickIff | pihole_manager/analysis_dispatcher.py:329-338 | A member is picked for exactly the hash values, modulo the total weight, of its own stretch, which is as long as its weight, at least one. |
| Dispatcher.DistributePartitions | pihole_manager/analysis_dispatcher.py:318-378 | For any list of distinct providers that covers the picks: unless one of their calls is cancelled, results together with what failures cover are the input. |
| Dispatcher.ReportedByPick | pihole_manager/analysis_dispatcher.py:349-374 | A domain is reported as classified exactly if its own provider's execution classified it, and as lost exactly if that execution's error covers it. |
| Dispatcher.DispatchDistribute | pihole_manager/analysis_dispatcher.py:318-378 | The whole distribution, from the hash assignment to the collected reports: it is revoked exactly when a provider's call on its share is cancelled; otherwise results together with what failures cover are the input, each domain once per occurrence, and a domain is under the results exactly if its own provider classified it. |
| Verification.DispatchVerify | pihole_manager/analysis_dispatcher.py:494-568 | The verify dispatch with its comparison loop is the reference for every outcome of the verifier. |
| Verification.VerifyOne | pihole_manager/analysis_dispatcher.py:472-568 | Verification only ever adds review; a classification that had to be verified and has no review was confirmed by a different provider. |
| Verification.VerifiedExactly | pihole_manager/analysis_dispatcher.py:494-568 | What becomes of each primary classification: unchanged if it need not be verified or the verifier's classification concurs; marked for review, under its own reason or that verification was unavailable, if no verifier is configured or it fails on the domain; marked as disagreed if its policy, category or tags differ or a risk is more than 20 apart. |
| Verification.GuardsOnlyRaise | pihole_manager/compatibility_profiles.py:125-155 | No guard changes the policy, lowers breakage risk or role, or clears a review; review is set exactly when it was, for a manual request, a behavior alarm, or a deny on a protected service; risk and role rise exactly to the matched profile's. |
| Verification.ReasonsAreKept | pihole_manager/compatibility_profiles.py:125-155 | The reasons for review start with the one the classification had and include those of the guards. |
| Verification.LocksOnlyBlock | pihole_manager/workers.py:484-515 | A lock stands in the way of exactly the actions that would be taken without it on the other list; what is stored is the guarded classification in any case. |
| Verification.ReviewedIff | pihole_manager/workers.py:576-653 | Without an action the decision asks for review, except in manual mode and, unless review was asked for already, below the confidence needed. |
| Verification.ActionMeansCleared | pihole_manager/workers.py:432-653 | An automatic action needs an unreviewed, confident, low-risk, non-core classification whose every tag is configured for that action, with no conflicting lock, and in hybrid mode that very policy. |
| Verification.ActionIff | pihole_manager/workers.py:576-653 | An automatic action with a given policy is taken if and only if mode, review, confidence, role, risk, evidence and lock of the guarded classification permit it and every deciding tag is configured for exactly that policy; the tags are the override's, else the classification's, else its category, and a tag without a configured policy permits nothing. |
| Verification.AutomaticActionsAreConfirmed | pihole_manager/workers.py:459-481 | In a pool that verifies automatic actions, hybrid automation applies or simulates an allow or deny only after a different provider classified the domain with the same policy, category, tag set and risks within 20. |
| Verification.ConfirmedIffRequired | pihole_manager/analysis_dispatcher.py:842-874 | In any mode an automatic action is confirmed if and only if the primary classification had to be verified: for a high risk, as an automatic action in a pool that verifies those, or by the hash sample. |
| Verification.AutoModeCanActAlone | pihole_manager/workers.py:646-647 | A concrete classification, recommending manual review without asking for it, on which full automation acts although nobody verified it. |
| Queue.ClaimIsUnique | pihole_manager/database_core.py:966-978 | Priority, age and name determine the claim: only one selection holds the first available rows in order. |
| Queue.FirstDifference | pihole_manager/database_core.py:966-978 | Names are ordered by their first differing character, a proper prefix first. |
| QueueTable.ClaimMeans | pihole_manager/database_core.py:952-991 | A claim takes only waiting rows of its pool whose time has come, as many as it may or all of them, and no row before or instead of a more urgent one: of higher priority, or of the same and older. |
| QueueTable.FirstAvailable | pihole_manager/database_core.py:952-991 | The claim query returns exactly the first `limit` available rows of the pool in claim order. |
| QueueTable.QueueTable.Claim | pihole_manager/database_core.py:952-991 | A claim takes that selection, marks exactly those rows as processing and counts one attempt on each. |
| QueueTable.QueueTable.RequeueProcessing | pihole_manager/database_core.py:1053-1072 | Exactly the rows of the pool in processing are queued and available again; no other row changes. |
| QueueTable.QueueTable.Enqueue | pihole_manager/database_core.py:692-819 | The enqueue transaction inserts, raises, requeues, skips and counts each distinct domain by the state of its row. |
| QueueTable.QueueTable.ClassifierPass | pihole_manager/workers.py:244-334 | One worker pass claims, drops rows locked meanwhile and settles the rest by how the dispatch ended. |
| QueueTable.EveryClaimSettled | pihole_manager/workers.py:244-334 | After a pass every claimed row is, in every field: gone if its domain was classified or locked meanwhile; queued with the attempts it had until the retry time, if that lies ahead, or failed, if there was no classification or no provider; queued for the next second if the pass was cancelled or the worker is stopping; failed after any other error. Every other row is untouched. |
| QueueTable.EnqueueCounts | pihole_manager/database_core.py:692-819 | Each count is of the distinct requested domains that met its case: unknown, failed, pending, locked or excluded; they add up, `queued` is exactly the growth of the table, and rows in processing are left alone. |
| QueueTable.EnqueueServes | pihole_manager/database_core.py:692-819 | Afterwards every requested domain that is not excluded, locked or in processing is queued, available at once, at least as urgent as asked and as before, with pool and source of an ask at least as urgent, and with its age; nothing else changes. |
| QueueTable.RepeatedEnqueueIsPending | pihole_manager/database_core.py:727-810 | Enqueueing is idempotent: asking again at any later time changes no row and counts nothing as queued or requeued. |
| QueueTable.QueueInvariants | pihole_manager/database_features.py:122-142 | In every reachable state a locked domain has no queue row, and a live row's priority never falls. |
| Workers.RowsInProcessingAreHeld | pihole_manager/workers.py:220-337 | Over all interleavings with removals, locks and crashes, every row in processing of a running worker's pool is in its current unsettled batch. |
| Workers.RestartRequeues | pihole_manager/workers.py:220-221 | A worker that starts again finds every row its pool had in processing queued and available, with attempts, priority, source and age; no other row changes. |
| Workers.NeverInFlightTwice | pihole_manager/workers.py:220-337 | As long as no row is removed while a running worker holds it, no domain is in flight in both workers, and each held row is in processing for its holder. |
| Workers.ExclusionIff | pihole_manager/workers.py:220-337 | In every state reached without such a removal, an event keeps all further runs exclusive if and only if it is not one itself. |
| Workers.RowInFlightIsFrozen | pihole_manager/workers.py:244-334 | Whatever other transactions interleave, a row in flight stays exactly as its claim left it until its worker settles it. |
| Workers.ClaimThenDefer | pihole_manager/database_core.py:982-1050 | A claim followed, after any interleaving, by a deferral leaves attempts, priority, source and age as before the claim. |
| Workers.ClaimThenFail | pihole_manager/database_core.py:1013-1031 | A claim followed, after any interleaving, by a failure marks the row failed with the attempt counted. |
| Workers.LockKeepsOut | pihole_manager/database_features.py:122-142 | From a lock on, until it is removed, the domain has no row, whatever is enqueued and settled meanwhile. |
| Workers.LockingInFlightBreaksExclusion | pihole_manager/database_features.py:139-142 | For every domain there is a run, through a lock on it in processing, that ends with it in both workers. |
| Workers.NoLostWork | pihole_manager/workers.py:244-407 | Without removals and locks, an accepted domain keeps its row until a classification made after its enqueue is saved, through deferrals, failures, crashes and restarts. |
| Observations.ObservationTable.Record | pihole_manager/database_core.py:1138-1193 | One recording call merges the group-by of its rows into the buckets and adds each domain's rows to its query count. |
| Observations.Group | pihole_manager/database_core.py:1139-1159 | The grouping loop computes count, earliest and latest time per domain, client, type, status and hour. |
| Observations.AggregateIgnoresOrder | pihole_manager/database_core.py:1138-1193 | The group-by does not depend on the order of the rows. |
| Observations.BlankRowsAreSkipped | pihole_manager/database_core.py:1139-1159 | Rows without a domain are recorded nowhere, and the returned count is that of the other rows. |
| Observations.AggregateMeans | pihole_manager/database_core.py:1138-1193 | A bucket counts exactly the rows of its domain, client, type, status and hour, and holds the earliest and the latest time among them. |
| Observations.SumIsRows | pihole_manager/database_core.py:584-606 | A group-by's buckets of a domain add up to the domain's rows. |
| Observations.TableIsGroupBy | pihole_manager/database_core.py:1138-1193 | After any sequence of calls the table is the group-by of all rows, however they were batched or ordered; query counts are the sums of the buckets; bucket times stay in their hour. |
| AuditUndo.Audit.Change | pihole_manager/pihole_audit.py:210-259 | A change updates the rule table and appends an entry with the states before and after. |
| AuditUndo.Audit.RollBack | pihole_manager/pihole_audit.py:393-457 | A rollback restores the earlier state, marks the entry and appends a rollback entry, or is refused and changes nothing. |
| AuditUndo.UndoNewest | pihole_manager/pihole_audit.py:327-457 | Rolling back the newest change passes every check and reinstates what was before it. |
| AuditUndo.UndoRestores | pihole_manager/pihole_audit.py:210-457 | Rolling back any run of recorded changes newest first is never refused and restores the initial rule table. |
| AuditUndo.RefusedUnlessCurrent | pihole_manager/pihole_audit.py:313-420 | A rollback goes through exactly when the entry can be undone here, was not undone before and every compared field is as the entry left it; a refusal names a reason that is true. It touches no other rule and no other entry, is logged with the states exchanged, and neither it nor the entry can be rolled back again. |
| AuditUndo.UndoAfterRun | pihole_manager/pihole_audit.py:313-420 | After any run of changes, the rollback of any entry succeeds exactly when the last change of its rule left the compared fields as the entry's change did, and is refused as stale otherwise. |
| SuffixIndex.Build | pihole_manager/repository_lists.py:160-175 | The built index lists, per domain, exactly its lines in line order. |
| SuffixIndex.LookupSuffixes | pihole_manager/research_catalogs.py:255-270 | The lookup with its set of seen items lists the new items of each suffix in order. |
| SuffixIndex.LookupIsLinearScan | pihole_manager/research_catalogs.py:255-270 | Over the index of a list, the lookup finds exactly the lines whose domain is a two-to-six-label suffix of the query, longest first, then in line order, without repeats. |
| SuffixIndex.IndexCache.Cached | pihole_manager/research_catalogs.py:148-161 | For any sequence of calls with a fixed builder, the cached answer is what building afresh gives, and other catalogs' entries are kept. |

## Left out

- Floating point: amounts, times, margins and percentages of the ledger are reals, so rounding is not modelled.
- Scope keys, HMAC and account fingerprints: the ledger is that of one scope, and of the others only their sweeps occur; row ids are counters, and rows created at the same instant keep their admission order instead of being ordered by random id.
- Parsing rate-limit headers into observations: a completion takes any list of observations, which includes all that the header parser produces.
- The final sort of the combined limits: `OrderOfLimitsIsIrrelevant` shows that it does not matter.
- Clamps of the estimate to non-negative values: estimates are non-negative by their type. The row's domain count, completion time and the calibrated output average are not stored; the average is the parameter `outputPerDomain`.
- QuotaRetry.SweepIsInvisible: does not cover runs with headers, because a header keeps counting rows since it was observed, and those can expire before it resets.
- QuotaSweeps.ShortDayIff: the exact condition is for profiles whose tightest limit counts by the day, and for runs without headers; a tighter limit may keep the day limit from ever mattering.
- QuotaResets.RollingCapIff: supposes a cap that binds at some pace; a limit that never lets the cap fill within its window makes the midnight reset harmless.
- QuotaBudget.ObservedBudgetIff: supposes a header that binds, that is, limits in force with room for what remains; a tighter limit can keep the remaining amount from being reached. Headers that replace the observation during the run are excluded.
- QuotaRetry.ReachableRetryExact: does not cover runs with headers, whose resets are not computed from rows.
- Analysis.ParseBatch: the validation that runs before the loop is not modelled, neither its checks of fields and types nor its refusal of blank domains; after it, an item without a domain is one whose domain is only dots.
- Workers.ExclusionIff: a pool's worker starts only after its previous one has ended, which the program checks when it hands out a worker; a stop that gives up waiting for a thread, or a second process on the same database, could overlap them.
- QuotaCaps.UserCapsHold: caps are those of one profile that stays the same through the run.
- QueueTable.ClassifierPass: a pass with one clock reading and no other transaction in between; `Workers` interleaves the single transactions.
- QueueTable.EveryClaimSettled: speaks of such a pass; `ClaimThenDefer` and `RowInFlightIsFrozen` are the statements for interleaved runs.
- Dispatcher.DispatchDistribute: the order in which parallel calls finish is not modelled; it affects only the order of the collected results, which the source sorts afterwards.
- ProviderRequest.EveryReservationSettled: request exceptions other than connection error, timeout and HTTP error are not among the responses, because the source does not settle the reservation for those.
- The quota wait's deadline and sleeping: the number of admission tries and what happens between them are inputs; a cancellation during the wait ends the attempt without a reservation. Pacing is proved apart from the retry loop.
- Provider health and cooldowns, latency, compare mode and benchmarks, freezing of dossiers, and the sorting of candidates by role and priority (orders are parameters).
- Which compatibility profile matches a domain and how behavior change is scored: the guards are proved for any match and any report. Recheck intervals, notifications, review task texts and priorities.
- Prompt wording and the field parsing of a response; domain normalization in the parser, the queue and the suffix lookup (names are normalized already).
- SQL and threads: tables are maps and sequences, transactions are atomic steps, and the claim query is a selection loop. `last_error`, the queue readiness test, the pool chosen for an enqueue without one, and `requeue_existing`, which makes no difference for the three states that occur.
- Domains' first and last seen times, and rows without a usable timestamp (times are resolved already).
- Server-side behavior of Pi-hole: the server stores what it is sent; failed rollbacks, unreadable snapshots and the split of the instance check into id and URL are not modelled.
- Parsing of list lines into rules, and the other catalog builders: the index is over the domains of accepted lines, and the cache is for any builder.
