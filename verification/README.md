# Webhook delivery platform: model and proofs

This project models the delivery core of a multi-tenant webhook platform, and the Python SDK around it, and proves what the system promises over every run. The platform keeps its queue in one relational database. Workers claim due deliveries under leases, a fair scheduler picks them, finalization retries or ends them, and admission, replay, retention and tenant deletion share the same rows.

## How to read it

- `Platform`, `Admission` and `Lifecycle` give every transaction as a function from one database state to the next. `Machine` lets these transactions happen in any order, by any number of workers, with a clock that never goes back.
- `Store`, `FairSelector`, `Outbox` and `LoginThrottle` hold the same transactions in the form of the services: objects whose methods read and update tables step by step, in loops, each proved equal to its function.
- `Rows`, `Endpoints`, `Tenants` and `Events` say what any step may do to a delivery, an endpoint, a quota row or an event. `LeaseSafety`, `Integrity`, `Capacity`, `Quotas`, `CircuitBreaker`, `Secrets` and `Deletion` are the invariants, `Invariant` puts them together for every state reachable from an empty deployment, and `Guarantees` spells them out. `Outcomes` and `Operations` say what single transactions mean to a caller, by status, time and field, without the functions that compute them.
- `Selection`, `Fairness`, `Bypass`, `Candidates`, `FairClaims`, `EndpointTurns`, `QueueHeads`, `HeadsTaken`, `FirstAttempts` and `StuckProbes` are about the scheduler; `TokenBucket` and `RateLaws` about rates; `Ingestion`, `AcceptedWork` and `OutboxDelivery` about exactly-once acceptance of unalterable work; `Retirement` about secrets that retire; `Text`, `Encoding`, `Signatures` and `Headers` about what is signed and verified.
- `Scenarios` walks through a run from an empty deployment to a delivered event, so that the statements about all runs have an instance. `Counterexamples` does the same for three runs in which the code does less than it is said to do.

## Where code and documentation differ

The model follows the code. Each difference comes with a run or input that shows it and the exact condition under which the promise holds.

- Retry suppression is said never to prevent a first attempt (the platform's `README.md:186-187`). The loop looks at the queue head only, so a retry without a token holds back the first attempts behind it: `Counterexamples.FirstAttemptIsHeldBack`, and exactly when in `FirstAttempts.FirstAttemptHeldIff`.
- An elapsed circuit is said to permit a probe (the platform's `README.md:188-191`). A released probe goes behind older due work, and then the endpoint sends nothing until someone cancels or recovers: `Counterexamples.ReleaseLeavesStuck`, `StuckProbes.StuckForever`, and exactly when in `StuckProbes.ProbeServedIff` and `StuckProbes.ReleaseSticks`; recovery ends it, `StuckProbes.RecoveryServes`.
- The secret overlap is meant to cover every attempt (`app/config.py:250-258`). It does for ingested deliveries, not for replays: `Counterexamples.ReplayAfterRetirement`, and exactly when in `Retirement.InTimeIff` and `Retirement.MadeRetiresLateIff`.
- A verified standard signature is meant to cover the received id, timestamp and body. Collisions aside, it does exactly when the received id has no period: `Signatures.StandardBinds`, with the accepted exceptions in `Signatures.StandardAcceptedIff`.

Conventions. Each database transaction is one atomic step. Times and token amounts are exact reals. Row ids and lease tokens are fresh numbers. Settings are fixed and satisfy the validator's inequalities (`app/config.py:235-358`). The keyed hash and the content hash are parameters; where a collision would matter, the statement names the two messages that collide. An attempt's start is read from the worker's own clock and may be any time. What an endpoint answers, the jitter drawn for a retry, and the batch a maintenance run picks are arbitrary inputs. A run may contain any request for any tenant: authorization and the active-organization check of the API are not part of the model, so the proofs cover more runs than the API allows.

## Model

| member | source | states |
|---|---|---|
| `Scheduler.RotateAfter` | app/scheduling.py:31-37 | the loop returns the values above the cursor followed by the others, in order, and the whole list when there is no cursor or nothing above it |
| `Candidates.OldestFirst` | app/scheduling.py:40-93 | whatever is due earlier on the same endpoint is listed before a listed delivery, so the list never skips the head of a queue |
| `Candidates.EveryOrgListed` | app/scheduling.py:67-93 | if the scan limit is at least the number of organizations with due work, every one of them is in the list |
| `Candidates.EveryEndpointListed` | app/scheduling.py:67-93 | if the share of an organization is at least the number of its endpoints with due work, and the scan limit that many for every organization with due work, the soonest due row of each of its endpoints is in the list |
| `Candidates.SoonestOrgFirst` | app/scheduling.py:67-93 | of the soonest rows of two organizations the sooner is listed first, and is listed whenever the other is |
| `FairSelector.Selector.TryEndpoint` | app/scheduling.py:276-316 | the step-by-step checks and charges on one endpoint do exactly one attempt on its queue head |
| `FairSelector.Selector.VisitEndpoint` | app/scheduling.py:268-332 | one rotation of the deque with everything it updates in place |
| `FairSelector.Selector.Select` | app/scheduling.py:258-333 | the nested loops terminate and compute the rounds that the scheduler theorems are about |
| `Selection.CallAccounted` | app/scheduling.py:258-333 | a call takes at most what is available, nothing twice, a prefix of every queue; counts and tokens change by exactly what was taken; caps, pause, circuit and probe rules hold; only cursors move in tenant rows |
| `Fairness.LeftoversBlocked` | app/scheduling.py:258-333 | if fewer than available are taken, every organization left is at its cap or has only blocked queue heads |
| `Fairness.RoundsBalanced` | app/scheduling.py:258-333 | no organization gets two more than one that is still eligible at the end of the call |
| `Bypass.CallBypass` | app/scheduling.py:244-333 | a call that passes over an eligible organization serves only organizations between the cursor and it, each nearer than the last, and leaves the cursor on the last |
| `Bypass.NoDoubleService` | app/scheduling.py:244-333 | over consecutive calls that pass over a waiting organization, no other organization is served twice, whoever competes from call to call |
| `Bypass.ServedWithin` | app/scheduling.py:244-333 | a waiting organization is served within as many calls as it has competitors, plus one |
| `FairClaims.BoundedBypass` | app/scheduling.py:244-333 | the same bound across any run of the platform, with any other transactions between the claims |
| `EndpointTurns.NoEndpointTwice` | app/scheduling.py:244-333 | across any run, while an organization is served but a passable endpoint of it is passed over, the endpoints it is served on lie cyclically between its stored endpoint cursor and that endpoint, each nearer than the last, so none is served twice |
| `Store.Database.GroupCandidates` | app/scheduling.py:237-243 | grouping keeps candidate order within each organization and endpoint |
| `Store.Database.SelectFairDeliveries` | app/scheduling.py:96-333 | grouping, rotation and the loop together compute the selection from the stored counts, balances and cursors; what the stored endpoint cursor does is `EndpointTurns.NoEndpointTwice`, which heads are taken is `HeadsTaken.FirstListedTakenIff` |
| `Store.Database.ClaimDueWork` | app/services/delivery_service.py:142-197 | a claim leases exactly the selected rows, under fresh tokens, stores cursors, balances and circuits in the same step, and returns the claims issued under the new tokens, in order |
| `Store.Database.RenewLease` | app/services/delivery_service.py:199-221 | renewal extends the lease if and only if the claim holds it and it is unexpired |
| `Outcomes.Renewal` | app/services/delivery_service.py:199-221 | renewal by the claim that holds an unexpired lease starts the lease time again and changes nothing else; any other changes nothing |
| `Store.Database.ReleaseClaim` | app/services/delivery_service.py:223-246 | release makes the row due again if and only if the claim holds it, expired or not |
| `Outcomes.ReleasedAtOnce` | app/services/delivery_service.py:223-246 | a released row keeps its attempt count, is held by nobody and is due from that moment on |
| `Store.Database.SettleEndpoint` | app/services/delivery_service.py:455-497 | the circuit, failure count and retry budget after a finished attempt, as `Outcomes.FinishedAttempt` writes them out |
| `Store.Database.SettleDelivery` | app/services/delivery_service.py:504-572 | status, next attempt time, dead reason and attempt record after a finished attempt, as `Outcomes.FinishedAttempt` and `Outcomes.DeathReason` write them out |
| `Store.Database.FinalizeAttempt` | app/services/delivery_service.py:419-572 | finalization is recorded if and only if the claim is the live holder and the endpoint has its row, and changes nothing otherwise |
| `Outcomes.FinishedAttempt` | app/services/delivery_service.py:419-572 | by status, failure kind, age and header: succeeded exactly on a 2xx answer; tried again exactly after 408, 425, 429, 5xx, a timeout or a network error, with attempts and age left, at the later of the drawn backoff and the asked Retry-After; dead otherwise; and when the circuit closes, counts or opens, for how long, and what the retry budget gets back |
| `Outcomes.DeathReason` | app/services/delivery_service.py:504-572 | which of age, attempts, 4xx answer and inactive endpoint is recorded as the reason |
| `Outcomes.NamedReason` | app/services/delivery_service.py:504-572 | every other final failure is recorded under its own name, cut to 64 characters |
| `Rows.StepRows` | app/services/delivery_service.py:142-246 | in any step a delivery row stays, is leased while due, is renewed while live, given up, finished while live, or canceled while not leased; new rows are pending with new ids; only terminal rows vanish |
| `LeaseSafety.StepKeepsLeases` | app/services/delivery_service.py:142-246 | every step keeps: token exactly while processing, the token's claim is the latest, attempt records ascend within the attempt count |
| `LeaseSafety.OnlyNewestHolds` | app/services/delivery_service.py:199-246 | a claim that holds a delivery carries its current attempt number and no later claim of it exists |
| `LeaseSafety.SupersededClaimIsInert` | app/services/delivery_service.py:199-246 | renew, release and finalize by an older claim change nothing |
| `LeaseSafety.TerminalForever` | app/services/webhook_service.py:2235-2246 | through any run a terminal delivery stays exactly as it is until it is deleted, and its id never returns |
| `LeaseSafety.AttemptsBounded` | app/services/delivery_service.py:504-572 | at most `webhook_max_attempts` attempt records, although the attempt count may run ahead through crashes and releases |
| `LeaseSafety.RetryTimeBounded` | app/services/delivery_service.py:504-547 | a scheduled retry lies strictly before the age deadline and within max(backoff cap, Retry-After cap) of the finish |
| `Guarantees.RowsAreSound` | app/services/delivery_service.py:142-246 | the lease and attempt-record facts in every reachable state |
| `Guarantees.OpenWorkComesDue` | app/scheduling.py:40-66 | in every reachable state a queued delivery is due from its next attempt time on, a leased one from the end of its lease on, and a terminal one never |
| `Guarantees.OnlyNewestActs` | app/services/delivery_service.py:199-246 | in every reachable state, if a claim can still renew or finalize then it is the newest of its delivery and live |
| `RetryPolicy.RetryAfterRoundTrip` | app/retry_policy.py:24-43 | a printed number of seconds is read back as itself, cut to the maximum |
| `Outcomes.AskedSeconds` | app/retry_policy.py:24-43 | an answer with a number of seconds asks for exactly that wait, up to the maximum; no header or no answer asks for none |
| `Outcomes.AskedDate` | app/retry_policy.py:24-43 | a date asks for the time until then, never less than nothing or more than the maximum |
| `RetryPolicy.BackoffDoubles` | app/retry_policy.py:46-55 | each attempt doubles the backoff ceiling until the cap |
| `RetryPolicy.FirstBackoff` | app/retry_policy.py:46-55 | the first ceiling is the base, within the cap |
| `Integrity.StepKeepsRefs` | app/lifecycle.py:206-269 | every step keeps all references and the envelope of every open delivery's event, across purge, replay, cancel, finalize and deletion |
| `Integrity.ClaimAlwaysHasBytes` | app/services/delivery_service.py:164-190 | a claim always finds the bytes to send: every selected row is leased |
| `AcceptedWork.SentAsAccepted` | app/services/webhook_service.py:1639-1711 | over every run, each claim ever handed out for a delivery of an accepted event carries exactly the envelope of the request and the public id, address, active flag, secret version and scheme its endpoint had at acceptance, whatever is edited, rotated or purged meanwhile |
| `Guarantees.EnvelopesAreKept` | app/lifecycle.py:206-269 | in every reachable state an open delivery's event holds its envelope |
| `Store.Database.PurgeEventPayloads` | app/lifecycle.py:206-269 | the batch loop nulls payload and envelope of exactly the purgeable events of the batch |
| `Operations.PayloadPurge` | app/lifecycle.py:206-269 | exactly the events of the batch that are over their retention, have something to purge and no open delivery lose payload and envelope; nothing else changes |
| `Operations.RowPurge` | app/services/webhook_service.py:2275-2325 | exactly the terminal deliveries of the batch that are unchanged for the retention time are deleted, and replays of them lose the reference |
| `Capacity.ClaimWithinCaps` | app/scheduling.py:112-124 | a claim keeps live leases within the global, tenant and endpoint caps together, although it counts only unexpired leases and takes over expired ones |
| `Capacity.StepKeepsCaps` | app/scheduling.py:184-206 | no other step makes a lease live |
| `Guarantees.CapsHold` | app/scheduling.py:261-319 | in every reachable state any set of deliveries in flight is within the global cap, and within the tenant or endpoint cap if all are of one tenant or endpoint |
| `Endpoints.StepEndpoint` | app/scheduling.py:208-333 | all the ways a step can change an endpoint's row, with exactly what a claim charges |
| `Endpoints.LeasedAreIssued` | app/services/delivery_service.py:153-196 | the claims handed out are those of the selected deliveries, in order |
| `CircuitBreaker.StepKeepsCircuits` | app/services/delivery_service.py:455-497 | every step keeps: open exactly with an end time, a probe only while half-open, closed only below the threshold, balances within their bursts |
| `CircuitBreaker.ClaimNeedsClosedCircuit` | app/scheduling.py:276-298 | no claim from a paused endpoint or an open circuit whose time is not over; behind a recorded probe only the probe |
| `CircuitBreaker.ProbeIsExclusive` | app/scheduling.py:282-313 | however long the run, while an endpoint is half-open with a probe only the probe is claimed on it, until a finalization, cancel, recovery or deletion |
| `Guarantees.CircuitsAreConsistent` | app/services/webhook_service.py:2184-2200 | the circuit and balance facts in every reachable state |
| `HeadsTaken.FirstListedTakenIff` | app/scheduling.py:258-333 | with slots and organization room for all candidates, the first listed delivery of an endpoint is taken if and only if, in the state before the claim, the endpoint is not paused, its circuit is closed, over its time or half-open without another probe, its live leases are below the cap and its refilled buckets hold a token |
| `HeadsTaken.RefillMeans` | app/scheduling.py:208-235 | both endpoint buckets gain rate × elapsed up to their bursts, and nothing else of the row changes |
| `StuckProbes.ProbeServedIff` | app/scheduling.py:289-307 | under the same condition the probe of a half-open endpoint is taken if and only if no other work of the endpoint is listed before it, the endpoint is not paused, and its concurrency and tokens allow it |
| `StuckProbes.StuckForever` | app/scheduling.py:289-294 | a half-open endpoint whose probe is queued behind older due work leases nothing in any run until one of the two rows is canceled or the circuit is recovered |
| `StuckProbes.ReleaseSticks` | app/services/delivery_service.py:223-246 | releasing a probe leads there if and only if other work of the endpoint is due before now, or now with a smaller id |
| `Counterexamples.ReleaseLeavesStuck` | app/services/delivery_service.py:223-246 | a run from an empty deployment ends with such a release |
| `FirstAttempts.FirstAttemptHeldIff` | app/scheduling.py:289-307 | if nothing else is in the way, a claim leaves an untried delivery behind if and only if more retries of its endpoint are listed before it than there are retry tokens; then its queue is left with a head that lacks nothing but a retry token |
| `FirstAttempts.FirstAttemptHeldBackIff` | app/scheduling.py:258-333 | the same with conditions on the state before the claim: room for all candidates under every cap and in the delivery bucket, no pause and a closed circuit |
| `FirstAttempts.TakenIsCovered` | app/scheduling.py:305-311 | in any claim the retry tokens cover every retry listed up to a delivery that is taken |
| `Counterexamples.FirstAttemptIsHeldBack` | app/scheduling.py:305-307 | a run from an empty deployment ends with an untried delivery on an idle endpoint that no claim takes, in any list the candidate query can give |
| `Store.Database.CancelDelivery` | app/services/webhook_service.py:2214-2259 | only queued deliveries are canceled, and losing the probe reopens its circuit |
| `Operations.CancelMeans` | app/services/webhook_service.py:2214-2259 | exactly pending and scheduled deliveries are canceled; canceling the probe opens its circuit with the next probe allowed at once; nothing else changes |
| `CircuitBreaker.PausedUntilResumed` | app/services/webhook_service.py:2127-2156 | in any run without a resume, a paused endpoint stays paused since its first pause, whatever else is done to it, and leases nothing |
| `CircuitBreaker.ResumeUndoesPause` | app/services/webhook_service.py:2127-2182 | a paused endpoint gives nothing to any claim, and resuming restores the state from before the pause, however often it was paused |
| `StuckProbes.RecoveryServes` | app/services/webhook_service.py:2184-2212 | after recovery the first listed delivery of the endpoint is taken, probe or not and retry or not, if and only if the endpoint is not paused and its concurrency and delivery tokens allow it |
| `TokenBucket.ConsumeTokens` | app/admission.py:157-175 | refused exactly when the refilled bucket holds less than the cost, and never leaves the range of zero to the burst |
| `TokenBucket.AvailableOverTime` | app/admission.py:157-175 | waiting adds at most rate per second and removes nothing |
| `TokenBucket.SpendAccounting` | app/admission.py:157-175 | success removes exactly the cost, refusal nothing |
| `TokenBucket.RetryAfterIsLeastWait` | app/admission.py:157-175 | the Retry-After is the least whole number of seconds after which the same cost fits, exactly when the cost is at most the burst and the answer was not capped; a cost above the burst never fits |
| `Admission.EventAdmittedIff` | app/admission.py:298-341 | an event is admitted if and only if fanout, open deliveries, waiting time, retained bytes and both refilled buckets allow it; then exactly both buckets are charged; a refusal names the first check that failed |
| `Admission.ReplayAdmittedIff` | app/admission.py:353-385 | a replay is admitted if and only if its size, open deliveries, waiting time and both refilled buckets allow it; then exactly both buckets are charged; a refusal names the first check that failed |
| `Store.Database.AdmitEventLocked` | app/admission.py:298-341 | the checks in their order, and the tenant row changes only on admission |
| `Store.Database.AdmitReplaysLocked` | app/admission.py:353-385 | the checks in their order, and the tenant row changes only on admission |
| `Quotas.StepKeepsBacklog` | app/admission.py:207-219 | no step takes the open deliveries above `global_max_backlog` |
| `Quotas.StepKeepsBytes` | app/admission.py:312-328 | no step takes an organization's envelopes above `tenant_retained_bytes` |
| `Quotas.RetainedIsSum` | app/admission.py:312-328 | retained bytes are the sum of the envelope lengths of the organization's events |
| `Guarantees.QuotasHold` | app/admission.py:207-219 | in every reachable state the pending, leased and scheduled deliveries are within the backlog bound, and retained bytes within theirs |
| `Tenants.StepTenant` | app/admission.py:329-341 | a step takes from an organization's buckets exactly the cost it was admitted for, and a new quota row starts full |
| `Tenants.StepKeepsTenants` | app/admission.py:329-341 | every step keeps the three balances between zero and their bursts |
| `RateLaws.EndpointRateLaw` | app/scheduling.py:299-322 | claims on one endpoint in any window of any run are at most burst + rate × elapsed |
| `RateLaws.RetryBudgetLaw` | app/scheduling.py:301-311 | retries on one endpoint in any window are at most burst + rate × elapsed + refill × successes + burst × recoveries |
| `RateLaws.TenantRateLaw` | app/admission.py:329-385 | events, deliveries and replays admitted for one organization in any window each cost at most burst + rate × elapsed |
| `Guarantees.WindowLaws` | app/scheduling.py:208-235 | the three laws for every window of a deployment that started empty |
| `Ingestion.TargetsAreSubscribed` | app/webhook_security.py:89-109 | an endpoint is a target if and only if it is active, of the project, and has no filter or some entry of its list is the type itself or is `p.*` with the type starting with `p.`; a malformed filter or entry accepts nothing |
| `Store.Database.IngestLocked` | app/services/webhook_service.py:1596-1716 | second idempotency check, admission, event and one delivery per target in one step, or nothing |
| `Ingestion.FingerprintDetermines` | app/services/webhook_service.py:1566-1573 | type and mode being equal, fingerprints agree exactly when payloads do, unless the two hashed materials collide |
| `Ingestion.LaterCallers` | app/services/webhook_service.py:1574-1613 | once a key is stored, every later caller gets that event for the same content and a conflict for any other, also after the payload was purged, and nothing is charged |
| `Ingestion.CallersAgree` | app/services/webhook_service.py:1574-1613 | two calls with one key, each an unlocked look and a later locked step, interleaved in any way: named events are the same and contents agree; a conflict means contents differ |
| `Ingestion.ChargedOnce` | app/services/webhook_service.py:1639-1655 | however many callers race, a key is accepted, and so charged, at most once |
| `Ingestion.OneDeliveryPerEndpoint` | app/services/webhook_service.py:1639-1711 | acceptance stores the request as one new event and makes exactly one pending delivery, due at once, for each active endpoint of the project with no filter or a matching entry, with the endpoint's public id, address, active flag, secret version and scheme, and none for any other endpoint; all other rows stay |
| `Events.StepKeepsKeys` | app/services/webhook_service.py:1596-1716 | every step keeps at most one event per project and key |
| `Events.EventSurvives` | app/lifecycle.py:262-268 | type, mode, fingerprint and key of an event survive every step but a cleanup of its organization |
| `Guarantees.KeysAreUnique` | app/services/webhook_service.py:1574-1613 | at most one event per project and key in every reachable state |
| `Store.Database.ReplaySources` | app/services/webhook_service.py:1855-2006 | replay copies all sources or none |
| `Operations.ReplayMeans` | app/services/webhook_service.py:1809-2006 | a replay happens exactly when every source is of the project, still has its bytes and an unretired version, is dead in bulk, and admission allows it; then each source gets one pending copy with its event, endpoint and snapshot, and nothing else changes |
| `Outbox.OutboxRelay.EnqueueOutbox` | sdk/python/src/webhook_platform_sdk/outbox.py:70-97 | a row is added unless the type is empty or the key is taken |
| `Outbox.EnqueuedRow` | sdk/python/src/webhook_platform_sdk/outbox.py:70-97 | a row is added exactly when its type is not empty and its key is free, and it can be claimed from then on |
| `Outbox.OutboxRelay.Claim` | sdk/python/src/webhook_platform_sdk/outbox.py:142-184 | the loop locks each row of the batch under its own token and hands out messages with the row's content |
| `Outbox.ClaimedForALease` | sdk/python/src/webhook_platform_sdk/outbox.py:142-184 | a claimed row can be claimed by nobody for the lease and by anybody afterwards; its message carries the row's content, key, token and attempt number |
| `Outbox.OutboxRelay.FinishMessage` | sdk/python/src/webhook_platform_sdk/outbox.py:186-214 | only the current token of an unsent row changes it |
| `Outbox.OutboxRelay.RecordMessageFailure` | sdk/python/src/webhook_platform_sdk/outbox.py:216-243 | failed for good exactly when not retryable or out of attempts, else scheduled again |
| `Outbox.SettledRow` | sdk/python/src/webhook_platform_sdk/outbox.py:186-281 | the current token of an unfinished row fails it if and only if attempts are used up or the API answered below 500 and not 408, 425 or 429; any other failure leaves it unfinished until the larger of the drawn delay and the capped Retry-After |
| `Outbox.OutboxRelay.RunOnce` | sdk/python/src/webhook_platform_sdk/outbox.py:245-281 | claim, then settle each message by its reply at its own time; the counts are the delivered and the other messages |
| `Outbox.RunSettlesEach` | sdk/python/src/webhook_platform_sdk/outbox.py:245-281 | in one run every row of the batch is sent, failed or scheduled again by its own reply, at its own time |
| `Outbox.DeliveriesCount` | sdk/python/src/webhook_platform_sdk/outbox.py:245-281 | the first count of a run is the number of delivered replies |
| `Outbox.SettleKeeps` | sdk/python/src/webhook_platform_sdk/outbox.py:186-281 | settling keeps rows leased only while unfinished, never sent and failed at once, scheduled exactly while unfinished; only a delivered reply sends, and only its own row |
| `Outbox.ClaimableAgain` | sdk/python/src/webhook_platform_sdk/outbox.py:148-160 | an unfinished row is claimable from a known time on, a finished one never |
| `OutboxDelivery.StepKeepsWorld` | sdk/python/src/webhook_platform_sdk/outbox.py:142-281 | every step of relays and platform together keeps the composed invariant |
| `OutboxDelivery.OutboxIsReliable` | sdk/python/src/webhook_platform_sdk/outbox.py:245-281 | under any crashes, lost replies, lease expiries and competing relays each row has at most one platform event, `sent_at` implies that event with the row's content, no row is both sent and failed, and every unfinished row can be claimed again |
| `Store.Database.RotateEndpointSecret` | app/services/webhook_service.py:1488-1519 | the old version retires after the overlap and the next becomes current |
| `Secrets.RotationAdvances` | app/services/webhook_service.py:1488-1519 | rotation moves the current version up by one and keeps exactly the current version unretired |
| `Secrets.StepKeepsSecrets` | app/services/webhook_service.py:1693-1711 | every step keeps the version table, and every delivery's signing version valid for the overlap after its event was accepted |
| `Secrets.ChainSharesSnapshot` | app/services/webhook_service.py:1833-1853 | a whole replay chain shares event, endpoint and snapshot with its first delivery |
| `Retirement.InTimeIff` | app/services/delivery_service.py:268-272 | every start that passes the age check comes before the signing version retires if and only if creation plus the age limit does, with any slack |
| `Retirement.IngestedRetiresLate` | app/services/webhook_service.py:1693-1711 | in every run, a delivery made by ingestion meets that condition with the finalization margin to spare, whatever happens later |
| `Retirement.MadeRetiresLateIff` | app/services/webhook_service.py:1809-1853 | in every run, a delivery made by any step, a replay above all, meets it at every later time if and only if its version was not retired when it was made or outlives the age limit counted from then |
| `Retirement.ReplayTakesVersion` | app/services/webhook_service.py:1809-1853 | a replay signs with the version of its source, whose end may be set but has not passed |
| `Counterexamples.ReplayAfterRetirement` | app/services/webhook_service.py:1809-1853 | a run from an empty deployment ends with a replay delivered by an attempt that started after its version retired |
| `Guarantees.CurrentSecretIsUnretired` | app/services/webhook_service.py:1488-1519 | in every reachable state a version is unretired exactly when it is current |
| `Store.Database.RequestOrganizationDeletion` | app/services/webhook_service.py:620-683 | a request is taken only when no operation is active |
| `Operations.RequestMeans` | app/services/webhook_service.py:620-683 | a deletion is scheduled after the grace period exactly when none is pending or running |
| `Store.Database.CancelOrganizationDeletion` | app/services/webhook_service.py:710-758 | only a pending operation can be canceled |
| `Operations.CancelTakesBack` | app/services/webhook_service.py:710-758 | until cleanup begins, canceling a request makes the organization active again with nothing scheduled |
| `Store.Database.CleanupDueOrganization` | app/lifecycle.py:271-318 | one run works on exactly one stage |
| `Operations.StageMeans` | app/lifecycle.py:271-318 | which of the stages a run is in, by what is queued, leased, left over or orphaned |
| `Operations.CleanupCancels` | app/lifecycle.py:348-400 | a run cancels exactly its batch while open work is not held by a lease, and waits while the rest is held |
| `Operations.OrganizationGoes` | app/lifecycle.py:443-476 | the last run removes the organization with its projects, endpoints, secrets and quota row, and nothing of any other |
| `Deletion.CleanupAfterGrace` | app/lifecycle.py:320-346 | cleanup runs only a full grace period after the request |
| `Deletion.RunningIsFinal` | app/services/webhook_service.py:710-758 | once cleanup has begun the deletion cannot be canceled |
| `Deletion.CleanupIsSafe` | app/lifecycle.py:402-476 | only terminal deliveries are deleted, the organization only when it has no deliveries and no events, and no other organization |
| `Deletion.CleanupProgress` | app/lifecycle.py:271-318 | each due run strictly decreases (open deliveries, deliveries, events, organization) or a lease is live |
| `Deletion.DeletionEnds` | app/lifecycle.py:271-318 | without new work for the organization, the runs that meet no live lease are at most as many as the things left to remove, whatever else happens |
| `LoginThrottle.ThrottleTable.CheckLoginAllowed` | app/login_throttle.py:54-63 | denied exactly while the lock lasts |
| `LoginThrottle.ThrottleTable.RecordLoginFailure` | app/login_throttle.py:66-110 | insert if missing, count in the window or start a new one after a window or a lock is over, lock when the budget is spent; what follows for the account is `LoginThrottle.BudgetIsExact` and `LoginThrottle.OldLocksAreForgotten` |
| `LoginThrottle.SuccessRestoresBudget` | app/login_throttle.py:113-118 | after a success, whatever was recorded before, the account is let in and the next failures count against a whole budget; other accounts are untouched |
| `LoginThrottle.ThrottleTable.PurgeStale` | app/lifecycle.py:134-170 | the sweep deletes exactly the stale rows of its batch |
| `LoginThrottle.SweepsAreInvisible` | app/lifecycle.py:134-170 | a run with sweeps at any points gives the same allow, deny and Retry-After answers as the run without them |
| `LoginThrottle.RetryAfterIsLeastWait` | app/login_throttle.py:50-63 | the Retry-After of a denial is the least whole number of seconds after which the account is let in |
| `LoginThrottle.BudgetIsExact` | app/login_throttle.py:92-110 | failures in one window on a clean account deny it exactly when there are at least the maximum of them, until the lockout after the last |
| `LoginThrottle.OldLocksAreForgotten` | app/login_throttle.py:96-110 | once a lock or window is over the account is treated like a clean one: the next failures in one window lock it exactly when they use up a whole budget |
| `Encoding.Base64RoundTrip` | app/webhook_security.py:62-75 | strict base64 decoding undoes encoding, for every byte string |
| `Signatures.BothFormsDecode` | sdk/python/src/webhook_platform_sdk/receiver.py:100-126 | the legacy and the standard form of a secret decode to the same digest, for every digest |
| `Signatures.DigestDetermines` | app/webhook_security.py:46-59 | under one signing key two secrets are equal exactly for the same endpoint and version, unless the two materials collide |
| `Signatures.ParseSignatureParts` | sdk/python/src/webhook_platform_sdk/receiver.py:52-82 | the nested parsing loops compute the fold over words and items, with every early rejection |
| `Signatures.CollectStandardSignatures` | sdk/python/src/webhook_platform_sdk/receiver.py:85-97 | the loop collects exactly the non-empty ASCII `v1,` values in order |
| `Headers.ReadableIff` | sdk/python/src/webhook_platform_sdk/receiver.py:52-82 | a header is readable with time t exactly when every item of a word in the legacy shape is a name and a value in order, exactly one of them is a time, it is t, and one gives a hash; other words are ignored |
| `Headers.RequestVerifiedIff` | sdk/python/src/webhook_platform_sdk/receiver.py:133-234 | a request is accepted exactly when signature, id and type are there and any one of the hashes in its header is that of the signed content, in the legacy form as soon as one word has it, with the time header repeating the signed time, in the standard form otherwise, within the tolerance |
| `Headers.WordsAreRuns` | sdk/python/src/webhook_platform_sdk/receiver.py:63-64 | the words of a header are exactly its maximal stretches without whitespace |
| `Signatures.LegacyRoundTrip` | app/webhook_security.py:112-118 | a legacy delivery is recognized as legacy and verifies with its secret within the tolerance, for all bodies, times and secrets |
| `Signatures.StandardRoundTrip` | app/webhook_security.py:121-137 | a standard delivery is recognized as standard and verifies with either form of the secret |
| `Signatures.StandardContentDetermines` | app/webhook_security.py:121-137 | without a period in the ids, the signed content determines id, timestamp and body |
| `Signatures.ContentReadsAs` | sdk/python/src/webhook_platform_sdk/receiver.py:184-190 | for a signed id without a period, two triples have the same content if and only if they are equal or the other id repeats the signed timestamp, and perhaps more, from the start of the signed body |
| `Signatures.StandardAcceptedIff` | sdk/python/src/webhook_platform_sdk/receiver.py:157-190 | such a signature is accepted, with a readable time within the tolerance and an ASCII id, for exactly those triples and for contents that collide with the signed one |
| `Signatures.UnsignedIdAccepted` | sdk/python/src/webhook_platform_sdk/receiver.py:157-190 | a signature made for one id is accepted for a longer id that was not signed, whenever the signed body begins with a number and a period |
| `Signatures.LegacyBinds` | sdk/python/src/webhook_platform_sdk/receiver.py:133-154 | a legacy signature is accepted, within the tolerance, exactly for the signed body and for bodies whose content collides with it |
| `Signatures.StandardBinds` | sdk/python/src/webhook_platform_sdk/receiver.py:157-190 | unless the two contents collide, a verified id, timestamp and body are the signed ones if and only if the received id has no period |
| `Invariant.StepKeepsInv` | app/services/delivery_service.py:142-246 | every transaction keeps every invariant |
| `Invariant.ReachableInv` | app/services/delivery_service.py:142-246 | all invariants hold after any interleaving of transactions from an empty deployment |
| `Scenarios.DeliverySucceeds` | app/services/delivery_service.py:142-246 | there is a run from an empty deployment, with settings the validator accepts, that ingests, claims and delivers an event at its first attempt |

## Left out

- Interleavings inside a transaction: the row locks and `SKIP LOCKED` of the queries are covered by atomic steps and arbitrary candidate lists and batches, not modelled themselves.
- The unique-key violation path of ingestion (`app/services/webhook_service.py:1674-1692`): under the global lock the second check has already found the event.
- Event tables after organization cleanup: the statements about stored keys and sent outbox rows hold as long as no cleanup of the organization has run.
- Bulk replay's own operation record and request idempotency, response purging, endpoint limits, audit rows, metrics and the permission tables: bookkeeping around the transactions modelled here.
- Sending itself (HTTP, DNS, URL checks, proxying), asyncio mechanics and the heartbeat task: an attempt returns an arbitrary response, and renew, release and finalize may happen in any order.
- JSON encoding, HTTP-date parsing, password hashing and tokens: library behaviour; an HTTP date is an input of the Retry-After function.
- Digits outside ASCII and numbers too long for the interpreter's integer conversion in signature headers.
- Unicode case folding of the login scope: rows are keyed by the scope string itself.
- Tenant, project and endpoint management beyond create, update and rotate, and the membership rules.
