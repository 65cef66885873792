# Pasarela payment orchestrator: a Dafny model

This project models the payment-routing and resilience engine of the
Pasarela payment orchestrator. It also models the small helpers that engine
depends on. It proves properties of the model with the Dafny verifier.

What is modelled:

- **Payment intents** (`PaymentIntents`). An imperative class drives an intent through CREATED, REQUIRES_PAYMENT_METHOD, PROCESSING and then SUCCEEDED, FAILED or REFUNDED.
  - Each create is idempotent, keyed by merchant, endpoint and `Idempotency-Key`.
  - Reroutes are limited to three intents per root.
  - The intent row is written before its routing decision.
  - A session call that fails with a timeout, a 5xx or a validation error gets one instant fallback.
  - Refunds and the demo authorize and cancel transitions are modelled as well.
- **Routing engine** (`Routing`, `Fnv`):
  - hard currency constraints;
  - explicit-preference and merchant-force overrides;
  - circuit-aware narrowing of the candidates;
  - weighted scoring over exact rationals;
  - a tie-break on the 32-bit FNV-1a hash of the intent id's UTF-8 bytes, computed in Java `int` arithmetic.
- **Health tracker** (`Health`, `EventRepository`). From a time-windowed, append-only event log it computes:
  - the error rate;
  - the nearest-rank p95 latency;
  - the payment success rate.

  It also runs the CLOSED / OPEN / HALF_OPEN circuit breaker, which has a two-minute OPEN expiry.
- **Availability and configuration** (`Availability`, `ProviderConfig`, `MerchantConfig`, `ConfigMaps`, `Settings`). `Availability` gives each provider a verdict, resolved in a fixed order. The configuration modules merge, validate, mask and resolve credential maps, both gateway-wide and per merchant.
- **Webhooks** (`Webhooks`):
  - Stripe event transitions;
  - the Adyen notification batch, whose HMAC message is built field by field and checked item by item;
  - the constant-time comparison.
- **The adapter registry and merchants** (`Registry`, `Merchants`).
- **The provider adapters** (`Adapters`, `StripeAdapter`, `AdyenAdapter`, `MastercardAdapter`, `DemoAdapter`):
  - the credential checks;
  - the request and result shapes;
  - the idempotency keys;
  - the classification of errors.
- **Smaller codecs** (`PaymentsMode`, `Cors`, `Sha256`, `AesGcm`, `Base64`, `InstantMillis`, `DevEnv`):
  - the mode flags;
  - the derivation of CORS origins;
  - hex encoding;
  - the `v1:nonce:ct` token framing, over Base64 as RFC 4648 defines it;
  - the millisecond converter;
  - the development script's `.env` handling.
- **Shared definitions** (`Domain`, `Wrappers`, `JavaString`, `Queries`, `IntentRepository`, `DecisionRepository`):
  - the enumerations;
  - `Option` and `Result`;
  - the `java.lang.String` operations the code relies on;
  - the shape of the repositories' declarative queries.

Conventions:

- **Time.** Time is epoch milliseconds, passed in as `now`.
- **Provider calls.** Every call into a provider SDK or HTTP API is a function parameter that returns a result or a `ProviderException` of some error kind. The same holds for the JSON mapper, the digest, HMAC and AES-GCM.
- **Stores.** The repositories are sequences of rows kept in insertion order. The idempotency table and the checkout-configuration store are maps.
- **Java `null`.** A null is an `Option`, and a raised exception is the `Err` case of a `Result`.

The model follows the code as written, including the places below where the code departs from what its own comments, names, defaults or neighbouring code lead a reader to expect. The two defects under "## Findings" are modelled the same way: `Health.HealthTracker.RecordCreateSessionOutcome`, the service and `Cors.ResolveAllowedOrigins` use the as-written definitions (`Health.SessionPayloadAsWritten`, `Cors.AllowedOriginsAsWritten`), and the corrected definitions (`Health.IntendedSessionPayload`, `Cors.AllowedOrigins`) stand beside them only to state what was evidently intended.

- `PaymentIntentService` calls `RoutingEngine.decide` with a seventh argument, the list of candidates. The engine itself declares six parameters. The model uses the engine's own six-parameter contract, which draws its candidates from the fixed [STRIPE, ADYEN] list, so the model ignores the extra list.
- TRANSBANK is named by the routing preference and by the availability order, but it is absent from `PaymentProvider`. The model's provider type is the union of every provider the code names.
- Only STRIPE and ADYEN support any currency.
- In `AdyenAdapter` and `MastercardHostedCheckoutAdapter` the 504 test comes after the test for status >= 500, so it never decides the result.

## Model

| member | source | states |
|---|---|---|
| Domain.AllProvidersComplete | backend/src/main/java/com/pasarela/domain/model/PaymentProvider.java:8-14 | the enumeration order lists every provider |
| Domain.ProviderName | backend/src/main/java/com/pasarela/domain/model/PaymentProvider.java:8-14 | every provider has a non-empty constant name |
| Domain.ProviderValueOf | backend/src/main/java/com/pasarela/domain/model/PaymentProvider.java:8-14 | valueOf accepts exactly the constant names and returns the provider of that name, so it inverts ProviderName |
| Domain.ToProvider | backend/src/main/java/com/pasarela/application/routing/ProviderPreference.java:18-27 | AUTO names no provider (the source throws); STRIPE, ADYEN and DEMO preferences name their providers and none names MASTERCARD |
| JavaString.Trim | backend/src/main/java/com/pasarela/config/CorsConfig.java:46 | the longest infix that neither starts nor ends with a character up to U+0020; everything cut off is such a character |
| JavaString.TrimIdempotent | backend/src/main/java/com/pasarela/config/CorsConfig.java:46 | trimming twice is trimming once |
| JavaString.JavaSplit | backend/src/main/java/com/pasarela/infrastructure/crypto/AesGcmCrypto.java:53 | text without the separator is one piece; no piece holds the separator; trailing empty pieces are dropped |
| JavaString.JavaSplitJoin | backend/src/main/java/com/pasarela/infrastructure/crypto/AesGcmCrypto.java:53 | two or more pieces without the separator, the last not empty, come back from splitting their join |
| JavaString.StripTrailingSlashIsRegex | backend/src/main/java/com/pasarela/infrastructure/provider/DemoAdapter.java:53 | `replaceAll("/$", "")` removes exactly a '/' after which `$` matches (the end, or before a final \n, \r, \r\n, U+0085, U+2028 or U+2029), and without one changes nothing |
| JavaString.StripTrailingSlash | backend/src/main/java/com/pasarela/infrastructure/provider/DemoAdapter.java:53 | a final '/' is removed; text ending in neither '/' nor a line terminator is unchanged |
| JavaString.SlashBeforeLineFeed | backend/src/main/java/com/pasarela/infrastructure/provider/DemoAdapter.java:53 | a '/' just before a final line feed is removed and the line feed kept |
| Fnv.Utf8Char | backend/src/main/java/com/pasarela/application/routing/RoutingEngine.java:236 | one to four bytes per scalar value, one byte exactly for ASCII (RFC 3629, section 3) |
| Fnv.Utf8Ascii | backend/src/main/java/com/pasarela/application/routing/RoutingEngine.java:236 | ASCII text such as a UUID's canonical form encodes to one byte per character with the same code |
| Fnv.KnownVectors | backend/src/main/java/com/pasarela/application/routing/RoutingEngine.java:233-241 | the hash of no bytes is the offset basis 0x811c9dc5 and of "a" is 0xe40c292c, the published FNV-1a-32 vectors |
| Fnv.ToSigned | backend/src/main/java/com/pasarela/application/routing/RoutingEngine.java:233-241 | Java's int view of the 32-bit pattern: in the signed range and congruent to it modulo 2^32 |
| Fnv.Fnv1a32 | backend/src/main/java/com/pasarela/application/routing/RoutingEngine.java:233-241 | the XOR-then-multiply loop (prime 0x01000193, mod 2^32) over the UTF-8 bytes returns the signed view of the FNV-1a-32 hash |
| Fnv.FloorMod | backend/src/main/java/com/pasarela/application/routing/RoutingEngine.java:172 | `Math.floorMod` by a positive divisor lies in [0, m) |
| Fnv.BucketIsLowBit | backend/src/main/java/com/pasarela/application/routing/RoutingEngine.java:172-173 | the tie-break bucket of a negative Java hash is still the hash's lowest bit |
| Routing.ParseConfig | backend/src/main/java/com/pasarela/application/routing/RoutingEngine.java:201-212 | defaults for null, blank or unparsable text; otherwise the parsed force provider, with a null weights object or a null or empty cost model replaced by the defaults; the result always has weights and a cost model |
| Routing.Clamp01 | backend/src/main/java/com/pasarela/application/routing/RoutingEngine.java:227-231 | the result lies in [0,1], equals the input inside it and the nearer bound outside it |
| Routing.RiskPenalty | backend/src/main/java/com/pasarela/application/routing/RoutingEngine.java:190-192 | 0.25 exactly for amounts of 20000 minor units or more and 0 otherwise: the 0.10 tier is unreachable |
| Routing.Score | backend/src/main/java/com/pasarela/application/routing/RoutingEngine.java:178-199 | cost defaults to 0.3 and is clamped; latency is p95/2000 clamped; availability is 1, 0.5 or 0 for CLOSED, HALF_OPEN, OPEN; the total is the weighted sum of the sub-scores |
| Routing.HealthierScoresHigher | backend/src/main/java/com/pasarela/application/routing/RoutingEngine.java:178-199 | with non-negative weights a snapshot at least as healthy (success, latency, circuit) never scores lower |
| Routing.Candidates | backend/src/main/java/com/pasarela/application/routing/RoutingEngine.java:61-68 | exactly STRIPE and ADYEN, in that order, that are not excluded and support the currency (also lines 220-225) |
| Routing.NonOpen | backend/src/main/java/com/pasarela/application/routing/RoutingEngine.java:75-78 | exactly the candidates whose circuit is not OPEN, in candidate order |
| Routing.ScoreMap | backend/src/main/java/com/pasarela/application/routing/RoutingEngine.java:80-83 | one breakdown for each scored candidate and no other key |
| Routing.FirstMaxIsEarliestMaximum | backend/src/main/java/com/pasarela/application/routing/RoutingEngine.java:158-166 | the selection loop ends on a maximal total that no earlier total equals |
| Routing.FirstOther | backend/src/main/java/com/pasarela/application/routing/RoutingEngine.java:167-170 | the first candidate other than the best, or the best when every candidate is the best |
| Routing.TieBreak | backend/src/main/java/com/pasarela/application/routing/RoutingEngine.java:171-173 | STRIPE exactly when the unsigned FNV-1a hash of the id is even: reading the hash as a signed int does not change its parity |
| Routing.ChooseBestSpec | backend/src/main/java/com/pasarela/application/routing/RoutingEngine.java:155-176 | a lone candidate is chosen; otherwise the choice is the tie-break or a candidate that no other candidate outscores |
| Routing.BestSoFar | backend/src/main/java/com/pasarela/application/routing/RoutingEngine.java:157-166 | the loop keeps the candidate at the earliest maximal total and that candidate's score |
| Routing.ChooseBest | backend/src/main/java/com/pasarela/application/routing/RoutingEngine.java:155-176 | the chosen provider is the one the selection specification names |
| Routing.ChooseBestPicksCandidate | backend/src/main/java/com/pasarela/application/routing/RoutingEngine.java:155-176 | the choice is one of the candidates; within 1e-6 of each other the id's hash decides; otherwise the choice has the highest total |
| Routing.OverrideScores | backend/src/main/java/com/pasarela/application/routing/RoutingEngine.java:94-104 | breakdowns for exactly the providers that support the currency |
| Routing.BuildResult | backend/src/main/java/com/pasarela/application/routing/RoutingEngine.java:94-104 | the loop over every provider yields the chosen provider, the reason and the currency-supporting breakdowns |
| Routing.DecideSpec | backend/src/main/java/com/pasarela/application/routing/RoutingEngine.java:36-92 | every outcome is an IllegalArgumentException (with the source's message naming provider and currency) or a provider that has a score breakdown in the result (also lines 214-218) |
| Routing.ScoreAll | backend/src/main/java/com/pasarela/application/routing/RoutingEngine.java:80-83 | the breakdown loop yields one score per effective candidate |
| Routing.RouteByScore | backend/src/main/java/com/pasarela/application/routing/RoutingEngine.java:61-91 | the AUTO path equals the weighted decision, whose properties WeightedDecisionFacts states |
| Routing.Decide | backend/src/main/java/com/pasarela/application/routing/RoutingEngine.java:36-92 | the method does what the decision specification says in every case, errors included |
| Routing.ExplicitPreferenceWins | backend/src/main/java/com/pasarela/application/routing/RoutingEngine.java:44-51 | a non-AUTO preference succeeds exactly when its provider supports the upper-cased currency, with that provider and EXPLICIT_PREFERENCE; otherwise IllegalArgumentException (also lines 214-218) |
| Routing.MerchantForceWins | backend/src/main/java/com/pasarela/application/routing/RoutingEngine.java:53-59 | with AUTO and a force provider other than "AUTO" in any case, the forced provider wins with MERCHANT_FORCE_PROVIDER exactly when it names a provider that supports the currency |
| Routing.WeightedRouting | backend/src/main/java/com/pasarela/application/routing/RoutingEngine.java:61-91 | an error exactly when no candidate is left; otherwise the choice is a scored candidate, not excluded, supports the currency; WEIGHTED_SCORE exactly when some candidate is not OPEN, and then only non-OPEN candidates are scored and the choice is not OPEN; under HEALTH_DEGRADED_NO_ALTERNATIVE every candidate is scored |
| Routing.WeightedDecisionFacts | backend/src/main/java/com/pasarela/application/routing/RoutingEngine.java:61-91 | the same facts for the weighted path on its own |
| Routing.DecisionRespectsCurrency | backend/src/main/java/com/pasarela/application/routing/RoutingEngine.java:44-91 | whatever path it takes, a successful decision names a provider that supports the upper-cased currency (also lines 214-225) |
| Routing.EqualScoresSplitById | backend/src/main/java/com/pasarela/application/routing/RoutingEngine.java:167-173 | two candidates with equal snapshots and cost are split by the id's hash alone, so the same id always gets the same provider |
| Routing.WeightedTieSplitById | backend/src/main/java/com/pasarela/application/routing/RoutingEngine.java:167-173 | the same for the weighted path on its own |
| Routing.SameInputsSameTotal | backend/src/main/java/com/pasarela/application/routing/RoutingEngine.java:178-199 | STRIPE and ADYEN with the same snapshot figures and cost score get the same total |
| Health.EffectiveCircuitState | backend/src/main/java/com/pasarela/application/routing/ProviderHealthService.java:236-243 | a non-OPEN state is unchanged; OPEN never reads as CLOSED, and reads as HALF_OPEN exactly when a failure time is known and strictly more than the 2-minute TTL has passed |
| Health.ErrorRate | backend/src/main/java/com/pasarela/application/routing/ProviderHealthService.java:121-136 | lies in [0,1] and is 0 with no session event in the last 5 minutes |
| Health.ErrorRateIsShare | backend/src/main/java/com/pasarela/application/routing/ProviderHealthService.java:127-136 | times the number of recent session events it gives the number of failures among them |
| Health.StreakCountsFailures | backend/src/main/java/com/pasarela/application/routing/ProviderHealthService.java:184-193 | when the newest n session events of the last 6 hours all failed (`LastNSessionsFailed`), the window holds at least n failures, and every shorter streak holds too |
| Health.ShouldOpen | backend/src/main/java/com/pasarela/application/routing/ProviderHealthService.java:147 | the circuit should open exactly when more than one in five of the recent session events failed (an error rate above 20%) or the five newest session events of the last six hours all failed |
| Health.ExtractLatency | backend/src/main/java/com/pasarela/application/routing/ProviderHealthService.java:216-226 | a latency exactly for a session payload, and then the latency it carries; nothing for a missing or any other payload |
| Health.SampleLatencies | backend/src/main/java/com/pasarela/application/routing/ProviderHealthService.java:204-208 | only non-negative latencies, and every event's non-negative latency is among them; none when no event carries one |
| Health.Insert | backend/src/main/java/com/pasarela/application/routing/ProviderHealthService.java:209 | one more element, the same multiset plus the inserted value |
| Health.InsertSorted | backend/src/main/java/com/pasarela/application/routing/ProviderHealthService.java:209 | inserting into an ascending sequence keeps it ascending |
| Health.SortAsc | backend/src/main/java/com/pasarela/application/routing/ProviderHealthService.java:209 | the ascending sort is a permutation of the samples |
| Health.SortAscSorted | backend/src/main/java/com/pasarela/application/routing/ProviderHealthService.java:209 | the sort is ascending |
| Health.NearestRankIndex | backend/src/main/java/com/pasarela/application/routing/ProviderHealthService.java:211-213 | the clamped index lies within the samples |
| Health.NearestRankIndexIsCeiling | backend/src/main/java/com/pasarela/application/routing/ProviderHealthService.java:211-213 | the clamps never apply: the index is ceil(0.95 n) - 1, the least k with k + 1 >= 0.95 n |
| Health.NearestRank | backend/src/main/java/com/pasarela/application/routing/ProviderHealthService.java:210-214 | 0 with no samples; otherwise one of the samples, at the nearest-rank index of the sorted samples |
| Health.NearestRankSplits | backend/src/main/java/com/pasarela/application/routing/ProviderHealthService.java:209-214 | at least 95% of the sorted samples lie at or below the value and the rest at or above it |
| Health.ComputeP95 | backend/src/main/java/com/pasarela/application/routing/ProviderHealthService.java:195-214 | never negative |
| Health.ComputeP95IsNearestRank | backend/src/main/java/com/pasarela/application/routing/ProviderHealthService.java:195-214 | p95 is the nearest-rank value of the latencies of the successful sessions in the window, 0 when there are none |
| Health.PaymentSuccessRate | backend/src/main/java/com/pasarela/application/routing/ProviderHealthService.java:228-234 | no value (NaN) exactly when the window holds no payment outcome, otherwise a value in [0,1] |
| Health.PaymentSuccessRateIsShare | backend/src/main/java/com/pasarela/application/routing/ProviderHealthService.java:228-234 | times the number of payment outcomes it gives the number of successes |
| Health.SuccessRate | backend/src/main/java/com/pasarela/application/routing/ProviderHealthService.java:140-144 | the 15-minute rate, else the 24-hour rate, else the stored value; in [0,1] whenever the stored value is |
| Health.SessionSuccessCloses | backend/src/main/java/com/pasarela/application/routing/ProviderHealthService.java:149-153 | a successful session closes HALF_OPEN and OPEN and clears the failure time; CLOSED stays CLOSED with its time |
| Health.SessionFailureOpens | backend/src/main/java/com/pasarela/application/routing/ProviderHealthService.java:154-161 | a failed session opens a HALF_OPEN circuit, or any circuit when shouldOpen holds, stamping now; otherwise the effective state and failure time are kept |
| Health.WebhookKeepsOrOpens | backend/src/main/java/com/pasarela/application/routing/ProviderHealthService.java:162-173 | without a session flag shouldOpen opens and re-stamps; otherwise OPEN and HALF_OPEN are kept and anything else becomes CLOSED |
| Health.TransitionKeepsFailureTime | backend/src/main/java/com/pasarela/application/routing/ProviderHealthService.java:145-173 | every transition keeps the fact that an OPEN circuit has a failure time |
| Health.Recomputed | backend/src/main/java/com/pasarela/application/routing/ProviderHealthService.java:114-182 | the recomputed row again satisfies the row invariant (rates in [0,1], p95 non-negative, OPEN with a failure time) |
| Health.RecomputedFields | backend/src/main/java/com/pasarela/application/routing/ProviderHealthService.java:175-181 | the row saved holds the transition's state and failure time, the success and error rates, p95 and the 15-minute window ending now |
| Health.RecomputedState | backend/src/main/java/com/pasarela/application/routing/ProviderHealthService.java:145-175 | the saved circuit state is the one the transition chain computes |
| Health.SessionPayloadAsWritten | backend/src/main/java/com/pasarela/application/routing/ProviderHealthService.java:78-85 | the payload is lost (null) exactly when errorType is null, because `Map.of` rejects a null value and the exception is swallowed |
| Health.AsWrittenP95AlwaysZero | backend/src/main/java/com/pasarela/application/routing/ProviderHealthService.java:78-85 | with payloads as written, p95 is 0 whatever latencies the successful sessions had (also lines 195-214) |
| Health.AsWrittenLosesLatency | backend/src/main/java/com/pasarela/application/routing/ProviderHealthService.java:78-85 | a single successful 120 ms session recorded as written gives p95 = 0 |
| Health.IntendedSessionPayload | backend/src/main/java/com/pasarela/application/routing/ProviderHealthService.java:78-85 | the corrected definition of the ProviderHealthService finding: the payload always carries the latency, which the latency reader reads back |
| Health.IntendedKeepsLatency | backend/src/main/java/com/pasarela/application/routing/ProviderHealthService.java:78-85 | of the corrected definition: the same session with the intended payload gives p95 = 120 |
| Health.RecordedLatencyIsSampled | backend/src/main/java/com/pasarela/application/routing/ProviderHealthService.java:77-96 | of the corrected definition: with the intended payload the latency of a session just recorded is a p95 sample, and p95 is drawn from the samples (also lines 195-214) |
| Health.HealthTracker.constructor | backend/src/main/java/com/pasarela/application/routing/ProviderHealthService.java:37-47 | an empty log and no snapshot rows |
| Health.HealthTracker.SnapshotOf | backend/src/main/java/com/pasarela/application/routing/ProviderHealthService.java:61-70 | the stored figures with the TTL-adjusted state, which is not written back |
| Health.HealthTracker.GetSnapshot | backend/src/main/java/com/pasarela/application/routing/ProviderHealthService.java:50-71 | a provider without a row gets a CLOSED all-zero row saved first; other rows are unchanged; the snapshot is the TTL-adjusted view |
| Health.HealthTracker.GetAllSnapshots | backend/src/main/java/com/pasarela/application/routing/ProviderHealthService.java:73-75 | one snapshot per provider in enumeration order; existing rows are unchanged and every provider now has a row |
| Health.HealthTracker.RecomputeAndPersist | backend/src/main/java/com/pasarela/application/routing/ProviderHealthService.java:114-182 | only the provider's row changes, to the recomputed row of the stored one (or of a fresh CLOSED row) |
| Health.HealthTracker.RecordCreateSessionOutcome | backend/src/main/java/com/pasarela/application/routing/ProviderHealthService.java:77-96 | the session event is appended first, with the payload as the code builds it (none when the error type is null), and the recomputation runs with the session's outcome over the log that holds it |
| Health.HealthTracker.RecordPaymentOutcome | backend/src/main/java/com/pasarela/application/routing/ProviderHealthService.java:98-107 | a PAYMENT_SUCCEEDED or PAYMENT_FAILED event is appended, then the recomputation runs without a session flag |
| Health.HealthTracker.RecordRefundOutcome | backend/src/main/java/com/pasarela/application/routing/ProviderHealthService.java:109-112 | a REFUND_SUCCEEDED event is appended, then the recomputation runs without a session flag |
| Health.AppendedComesFirst | backend/src/main/java/com/pasarela/application/routing/ProviderHealthService.java:121-125 | a matching event appended last comes first in the newest-first query (also lines 184-193) |
| Health.NewFailureCompletesStreak | backend/src/main/java/com/pasarela/application/routing/ProviderHealthService.java:77-96 | after four newest session failures, a fifth recorded failure is counted and opens the circuit whatever its state (also line 147, lines 184-193) |
| Health.HighErrorRateOpens | backend/src/main/java/com/pasarela/application/routing/ProviderHealthService.java:147-173 | an error rate above 20% opens the circuit on a failed session and on a webhook, while a successful session still closes it |
| EventRepository.Matching | backend/src/main/java/com/pasarela/infrastructure/persistence/repository/PaymentEventRepository.java:19-25 | exactly the events with the provider, a listed type and createdAt at or after `from`, in log order |
| EventRepository.FindRecentByProviderAndTypes | backend/src/main/java/com/pasarela/infrastructure/persistence/repository/PaymentEventRepository.java:19-30 | exactly the events with the provider, a listed type and createdAt at or after `from` (inclusive) |
| EventRepository.FindRecentByProviderAndType | backend/src/main/java/com/pasarela/infrastructure/persistence/repository/PaymentEventRepository.java:32-43 | the same filter with a single type |
| EventRepository.CountIsQueryLength | backend/src/main/java/com/pasarela/infrastructure/persistence/repository/PaymentEventRepository.java:45-55 | the count equals the length of the single-type query |
| EventRepository.MatchingChronological | backend/src/main/java/com/pasarela/infrastructure/persistence/repository/PaymentEventRepository.java:19-25 | filtering a log kept in time order keeps it in time order |
| EventRepository.NewestFirst | backend/src/main/java/com/pasarela/infrastructure/persistence/repository/PaymentEventRepository.java:24-37 | on a log saved in time order the query returns newest first |
| IntentRepository.FindById | backend/src/main/java/com/pasarela/infrastructure/persistence/repository/PaymentIntentRepository.java:19 | a row with that id from the table, and none exactly when no row has the id |
| IntentRepository.FindByIdUnique | backend/src/main/java/com/pasarela/infrastructure/persistence/repository/PaymentIntentRepository.java:19 | with unique ids the lookup returns the one row holding the id |
| IntentRepository.FindByIdAndMerchantId | backend/src/main/java/com/pasarela/infrastructure/persistence/repository/PaymentIntentRepository.java:20 | a result is in the table with both the id and the merchant |
| IntentRepository.OwnedLookup | backend/src/main/java/com/pasarela/infrastructure/persistence/repository/PaymentIntentRepository.java:20 | nothing is found exactly when no row has both the id and the merchant |
| IntentRepository.SaveNew | backend/src/main/java/com/pasarela/infrastructure/persistence/repository/PaymentIntentRepository.java:19 | saving a new id appends the row |
| IntentRepository.SaveExisting | backend/src/main/java/com/pasarela/infrastructure/persistence/repository/PaymentIntentRepository.java:19 | saving an existing id replaces that row where it stands and nothing else |
| IntentRepository.SaveThenFind | backend/src/main/java/com/pasarela/infrastructure/persistence/repository/PaymentIntentRepository.java:19 | after a save ids stay unique, the row is found by its id and every other id finds what it found before |
| IntentRepository.Search | backend/src/main/java/com/pasarela/infrastructure/persistence/repository/PaymentIntentRepository.java:24-37 | exactly the rows of the merchant that match the given status, from and to; absent filters impose nothing; both bounds inclusive |
| IntentRepository.SearchNewestFirst | backend/src/main/java/com/pasarela/infrastructure/persistence/repository/PaymentIntentRepository.java:30 | on a table saved in time order the search is ordered newest first |
| IntentRepository.CountByRoot | backend/src/main/java/com/pasarela/infrastructure/persistence/repository/PaymentIntentRepository.java:39 | at most the table size, and 0 exactly when no row shares the root |
| IntentRepository.CountByRootAppend | backend/src/main/java/com/pasarela/infrastructure/persistence/repository/PaymentIntentRepository.java:39 | adding a row with that root adds one to the count, any other row adds nothing |
| IntentRepository.FindStripeByProviderRef | backend/src/main/java/com/pasarela/infrastructure/persistence/repository/PaymentIntentRepository.java:41-46 | a result is a STRIPE row with that reference; nothing exactly when no STRIPE row has it |
| IntentRepository.IntentStore.Save | backend/src/main/java/com/pasarela/infrastructure/persistence/repository/PaymentIntentRepository.java:19 | the table becomes the saved table; the row is found by its id and every other lookup is unchanged |
| DecisionRepository.Search | backend/src/main/java/com/pasarela/infrastructure/persistence/repository/RoutingDecisionRepository.java:19-30 | exactly the decisions matching from, to and the chosen provider, each only when given, both bounds inclusive |
| DecisionRepository.UnfilteredSearch | backend/src/main/java/com/pasarela/infrastructure/persistence/repository/RoutingDecisionRepository.java:19-30 | with no filter every decision is returned, newest first |
| DecisionRepository.SearchNewestFirst | backend/src/main/java/com/pasarela/infrastructure/persistence/repository/RoutingDecisionRepository.java:24 | on a table saved in time order the search is ordered newest first |
| Availability.ResolveConfigState | backend/src/main/java/com/pasarela/application/ProviderAvailabilityService.java:103-130 | a merchant config means configured with its own flag; otherwise the global config decides and configured = enabled = all required keys of STRIPE or ADYEN non-blank |
| Availability.ResolveStatus | backend/src/main/java/com/pasarela/application/ProviderAvailabilityService.java:79-101 | DEMO is always available with reason DEMO; PAYPAL and TRANSBANK are NOT_IMPLEMENTED; a provider without adapter is NOT_SUPPORTED; available exactly when configured, enabled and not OPEN; reason OK exactly then, UNHEALTHY exactly when configured and enabled but OPEN (also lines 141-143) |
| Availability.ResolutionOrder | backend/src/main/java/com/pasarela/application/ProviderAvailabilityService.java:90-100 | the verdicts come in order: NOT_CONFIGURED, then DISABLED, then healthy iff the circuit is not OPEN |
| Availability.GetStatus | backend/src/main/java/com/pasarela/application/ProviderAvailabilityService.java:57-61 | nothing exactly for a null provider, otherwise the resolved status |
| Availability.IsProviderAvailable | backend/src/main/java/com/pasarela/application/ProviderAvailabilityService.java:63-66 | DEMO always; another provider exactly when implemented, with an adapter, configured, enabled and not OPEN; never a null provider |
| Availability.GlobalKeysDecide | backend/src/main/java/com/pasarela/application/ProviderAvailabilityService.java:117-130 | without a merchant configuration, STRIPE needs both its secret and publishable keys and ADYEN its API key, merchant account and client key, each present and not blank |
| Availability.ListForMerchant | backend/src/main/java/com/pasarela/application/ProviderAvailabilityService.java:48-55 | exactly one status per provider, in the listing order |
| Availability.Routable | backend/src/main/java/com/pasarela/application/ProviderAvailabilityService.java:68-77 | never longer than the statuses it filters |
| Availability.RoutableMembers | backend/src/main/java/com/pasarela/application/ProviderAvailabilityService.java:70-75 | a provider is kept exactly when listed, not DEMO, available and not excluded |
| Availability.RoutableOrdered | backend/src/main/java/com/pasarela/application/ProviderAvailabilityService.java:70-75 | filtering keeps the listing order |
| Availability.RoutableAppend | backend/src/main/java/com/pasarela/application/ProviderAvailabilityService.java:70-75 | the filter distributes over concatenation |
| Availability.CollectRoutable | backend/src/main/java/com/pasarela/application/ProviderAvailabilityService.java:70-75 | the loop over the statuses yields the routable providers in order |
| Availability.AvailableProviders | backend/src/main/java/com/pasarela/application/ProviderAvailabilityService.java:68-77 | the method returns the routable providers of the listing order |
| Availability.AvailableProvidersSpec | backend/src/main/java/com/pasarela/application/ProviderAvailabilityService.java:23-29 | never DEMO; exactly the available non-excluded providers, in STRIPE, ADYEN, PAYPAL, TRANSBANK order (also lines 68-77) |
| Availability.OrderedInListingOrder | backend/src/main/java/com/pasarela/application/ProviderAvailabilityService.java:23-29 | the listing order ranks its providers strictly upwards |
| Availability.OnlyStripeAndAdyenRoutable | backend/src/main/java/com/pasarela/application/ProviderAvailabilityService.java:68-89 | only STRIPE or ADYEN can ever be routable |
| ProviderConfig.SchemaOf | backend/src/main/java/com/pasarela/application/ProviderConfigService.java:33-50 | schemas exist exactly for STRIPE, ADYEN, MASTERCARD and PAYPAL |
| ProviderConfig.MissingFor | backend/src/main/java/com/pasarela/application/ProviderConfigService.java:198-209 | no schema means nothing is missing |
| ProviderConfig.FallbackConfig | backend/src/main/java/com/pasarela/application/ProviderConfigService.java:219-265 | exactly the properties with a non-blank value, trimmed; nothing for a provider other than STRIPE, ADYEN and MASTERCARD |
| ProviderConfig.RowView | backend/src/main/java/com/pasarela/application/ProviderConfigService.java:89-108 | the row's flag, its masked map and its missing keys, configured exactly when none is missing |
| ProviderConfig.EmptyView | backend/src/main/java/com/pasarela/application/ProviderConfigService.java:86-103 | not enabled, not configured, an empty map and every required key missing |
| ProviderConfig.ListEntry | backend/src/main/java/com/pasarela/application/ProviderConfigService.java:76-91 | DEMO gets the fixed view; a provider without schema gets no entry; every entry is for its provider |
| ProviderConfig.ListSpecProviders | backend/src/main/java/com/pasarela/application/ProviderConfigService.java:76-92 | `list` shows exactly the listed providers, in enumeration order |
| ProviderConfig.ListSpecDemo | backend/src/main/java/com/pasarela/application/ProviderConfigService.java:77-79 | the DEMO entry is the fixed enabled, configured, not configurable view |
| ProviderConfig.ListProviders | backend/src/main/java/com/pasarela/application/ProviderConfigService.java:69-94 | five entries: STRIPE, ADYEN, MASTERCARD, PAYPAL and the fixed DEMO view; TRANSBANK has no schema and is skipped |
| ProviderConfig.Get | backend/src/main/java/com/pasarela/application/ProviderConfigService.java:96-109 | DEMO is the fixed view; no schema is BAD_REQUEST; no row is the empty view; otherwise the row's view |
| ProviderConfig.GetAgreesWithList | backend/src/main/java/com/pasarela/application/ProviderConfigService.java:69-109 | `get` returns the very entry `list` shows for that provider |
| ProviderConfig.Find | backend/src/main/java/com/pasarela/application/ProviderConfigService.java:167-174 | the stored row exactly when there is one |
| ProviderConfig.ResolveEffectiveConfig | backend/src/main/java/com/pasarela/application/ProviderConfigService.java:176-196 | DEMO gives source DEMO; a stored row gives DB with its flag and map; else a non-empty environment map gives ENV with configured = enabled = nothing missing; else NONE |
| ProviderConfig.EnabledIsConfigured | backend/src/main/java/com/pasarela/application/ProviderConfigService.java:129-134 | because an enabled row is never saved incomplete, an enabled effective configuration is always configured (also lines 176-196) |
| ProviderConfig.UpsertKeepsRowsOk | backend/src/main/java/com/pasarela/application/ProviderConfigService.java:127-143 | a row upsert accepts keeps every stored row trimmed and complete when enabled |
| ProviderConfig.DisableKeepsRowsOk | backend/src/main/java/com/pasarela/application/ProviderConfigService.java:159-161 | disabling keeps the rows' invariant |
| ProviderConfig.BlankRequestKeepsConfig | backend/src/main/java/com/pasarela/application/ProviderConfigService.java:267-280 | a request whose values are all blank merges back to the stored map |
| ProviderConfig.ProviderConfigService.constructor | backend/src/main/java/com/pasarela/application/ProviderConfigService.java:57-67 | no rows yet |
| ProviderConfig.ProviderConfigService.List | backend/src/main/java/com/pasarela/application/ProviderConfigService.java:69-94 | the loop yields the list specification over every provider |
| ProviderConfig.ProviderConfigService.CollectViews | backend/src/main/java/com/pasarela/application/ProviderConfigService.java:76-92 | the loop yields one entry per listed provider in order |
| ProviderConfig.ProviderConfigService.Upsert | backend/src/main/java/com/pasarela/application/ProviderConfigService.java:111-145 | DEMO and schemaless providers are BAD_REQUEST; enabled defaults to true; an enabled merge missing required keys is BAD_REQUEST and saves nothing; otherwise the merged row replaces the provider's row and its view is returned (also lines 211-217) |
| ProviderConfig.ProviderConfigService.Store | backend/src/main/java/com/pasarela/application/ProviderConfigService.java:136-144 | the accepted merge is saved under the provider and its view returned |
| ProviderConfig.ProviderConfigService.SaveRow | backend/src/main/java/com/pasarela/application/ProviderConfigService.java:143 | the saved row replaces any for the same provider, nothing else changes |
| ProviderConfig.ProviderConfigService.Disable | backend/src/main/java/com/pasarela/application/ProviderConfigService.java:147-165 | DEMO returns the fixed view; no schema is BAD_REQUEST; without a row the empty view and nothing saved; otherwise the flag is cleared, the map kept |
| MerchantConfig.SchemaOf | backend/src/main/java/com/pasarela/application/MerchantProviderConfigService.java:35-52 | schemas exist exactly for STRIPE, ADYEN, PAYPAL and TRANSBANK |
| MerchantConfig.MissingFor | backend/src/main/java/com/pasarela/application/MerchantProviderConfigService.java:174-177 | nothing without a schema; otherwise exactly the required keys whose value is absent or blank |
| MerchantConfig.RowView | backend/src/main/java/com/pasarela/application/MerchantProviderConfigService.java:92-129 | the row's flag and exactly the schema keys with a value, each masked |
| MerchantConfig.EmptyView | backend/src/main/java/com/pasarela/application/MerchantProviderConfigService.java:88-90 | not enabled, an empty map, configurable (also line 142) |
| MerchantConfig.ListEntry | backend/src/main/java/com/pasarela/application/MerchantProviderConfigService.java:79-93 | DEMO is the fixed view, a schemaless provider has no entry, a provider without a row shows not enabled with an empty map |
| MerchantConfig.ListSpecAppend | backend/src/main/java/com/pasarela/application/MerchantProviderConfigService.java:79-94 | the listing distributes over concatenated provider lists |
| MerchantConfig.ListSpecProviders | backend/src/main/java/com/pasarela/application/MerchantProviderConfigService.java:79-94 | `list` shows exactly the listed providers, in enumeration order |
| MerchantConfig.ListSpecDemo | backend/src/main/java/com/pasarela/application/MerchantProviderConfigService.java:80-82 | the DEMO entry is the fixed enabled, non-configurable view |
| MerchantConfig.ListProviders | backend/src/main/java/com/pasarela/application/MerchantProviderConfigService.java:71-96 | five entries: STRIPE, ADYEN, PAYPAL, the fixed DEMO view and TRANSBANK; every non-DEMO entry is configurable |
| MerchantConfig.ListConfigurable | backend/src/main/java/com/pasarela/application/MerchantProviderConfigService.java:84-93 | every entry other than DEMO is configurable |
| MerchantConfig.UpsertKeepsRowsOk | backend/src/main/java/com/pasarela/application/MerchantProviderConfigService.java:115-128 | a row upsert accepts keeps every stored row trimmed and complete when enabled |
| MerchantConfig.DisableKeepsRowsOk | backend/src/main/java/com/pasarela/application/MerchantProviderConfigService.java:145-147 | disabling keeps the rows' invariant |
| MerchantConfig.MaskShowsStars | backend/src/main/java/com/pasarela/application/MerchantProviderConfigService.java:237-245 | a masked value always contains "****" |
| MerchantConfig.MaskHidesValue | backend/src/main/java/com/pasarela/application/MerchantProviderConfigService.java:237-245 | a non-blank value without a '*' of its own never appears, raw or trimmed, in its mask |
| MerchantConfig.MerchantProviderConfigService.constructor | backend/src/main/java/com/pasarela/application/MerchantProviderConfigService.java:59-69 | no rows, the given merchants |
| MerchantConfig.MerchantProviderConfigService.List | backend/src/main/java/com/pasarela/application/MerchantProviderConfigService.java:71-96 | an unknown merchant is NOT_FOUND; otherwise the listing over every provider (also lines 161-164) |
| MerchantConfig.MerchantProviderConfigService.Upsert | backend/src/main/java/com/pasarela/application/MerchantProviderConfigService.java:98-130 | an unknown merchant is NOT_FOUND; DEMO and schemaless providers are BAD_REQUEST; an enabled merge missing required keys is BAD_REQUEST naming them and saves nothing; a disabled one skips the check; otherwise the merged row replaces the merchant's row and its view is returned (also lines 161-184) |
| MerchantConfig.MerchantProviderConfigService.Store | backend/src/main/java/com/pasarela/application/MerchantProviderConfigService.java:120-129 | the accepted merge is saved under (merchant, provider) and its view returned |
| MerchantConfig.MerchantProviderConfigService.SaveRow | backend/src/main/java/com/pasarela/application/MerchantProviderConfigService.java:128 | the saved row replaces any under the same key, nothing else changes |
| MerchantConfig.MerchantProviderConfigService.Disable | backend/src/main/java/com/pasarela/application/MerchantProviderConfigService.java:132-150 | NOT_FOUND for an unknown merchant; DEMO is the fixed view; no schema is BAD_REQUEST; without a row not enabled and nothing created; otherwise the flag is cleared, the map kept |
| MerchantConfig.MerchantProviderConfigService.Find | backend/src/main/java/com/pasarela/application/MerchantProviderConfigService.java:152-159 | the merchant's row for the provider, unmasked, exactly when there is one |
| MerchantConfig.FoundEnabledIsComplete | backend/src/main/java/com/pasarela/application/MerchantProviderConfigService.java:116-159 | an enabled row found for an adapter carries every required key |
| ConfigMaps.ToRaw | backend/src/main/java/com/pasarela/application/ProviderConfigService.java:123-127 | the stored map as a request map: the same keys, each value present |
| ConfigMaps.Kept | backend/src/main/java/com/pasarela/application/ProviderConfigService.java:269-272 | exactly the keys with a non-null, non-blank value, each trimmed |
| ConfigMaps.MergeUpdateWins | backend/src/main/java/com/pasarela/application/ProviderConfigService.java:274-277 | a non-blank update wins, trimmed |
| ConfigMaps.MergeBlankUpdateKeeps | backend/src/main/java/com/pasarela/application/ProviderConfigService.java:267-280 | a blank, null or missing update never erases or changes a base value: the key keeps the trimmed base value or stays absent |
| ConfigMaps.MergedValuesTrimmed | backend/src/main/java/com/pasarela/application/ProviderConfigService.java:267-280 | every merged value is already trimmed, so merging again changes nothing |
| ConfigMaps.PutNonBlank | backend/src/main/java/com/pasarela/application/ProviderConfigService.java:270-272 | one forEach pass puts exactly the trimmed non-blank entries over the accumulator |
| ConfigMaps.MergeConfig | backend/src/main/java/com/pasarela/application/ProviderConfigService.java:267-280 | the two passes give the kept base entries overridden by the kept updates |
| ConfigMaps.ValueOf | backend/src/main/java/com/pasarela/application/ProviderConfigService.java:203 | a value exactly when the map is non-null and holds the key |
| ConfigMaps.Missing | backend/src/main/java/com/pasarela/application/ProviderConfigService.java:201-208 | never more keys than required |
| ConfigMaps.MissingMembers | backend/src/main/java/com/pasarela/application/ProviderConfigService.java:201-208 | a key is missing exactly when it is required and its value is absent or blank |
| ConfigMaps.MissingAppend | backend/src/main/java/com/pasarela/application/ProviderConfigService.java:202-207 | the check distributes over concatenated key lists, so schema order is kept |
| ConfigMaps.MissingOfEmpty | backend/src/main/java/com/pasarela/application/ProviderConfigService.java:86 | against an empty map every required key is missing, in schema order (also line 195) |
| ConfigMaps.MissingRequiredFields | backend/src/main/java/com/pasarela/application/ProviderConfigService.java:198-209 | nothing without a schema; otherwise the required keys without a value, in schema order |
| ConfigMaps.MaskValue | backend/src/main/java/com/pasarela/application/ProviderConfigService.java:318-326 | "****" when the trimmed value has at most 4 characters; otherwise its first 4 characters, "****" and its last min(4, n - 4) characters |
| ConfigMaps.MaskReveals | backend/src/main/java/com/pasarela/application/ProviderConfigService.java:318-326 | a trimmed value of 5 to 8 characters is revealed in full around the stars; a longer one shows at most 8 of its characters |
| ConfigMaps.Masked | backend/src/main/java/com/pasarela/application/ProviderConfigService.java:302-316 | exactly the schema keys, required and optional, with a non-blank value, each masked; nothing without a schema or a map |
| ConfigMaps.MaskConfig | backend/src/main/java/com/pasarela/application/ProviderConfigService.java:302-316 | the loop over the schema's keys gives the masked map |
| Webhooks.BitXorZero | backend/src/main/java/com/pasarela/application/WebhookService.java:237-239 | the XOR of two bytes is zero exactly when they are equal |
| Webhooks.BitOrZero | backend/src/main/java/com/pasarela/application/WebhookService.java:237-239 | an OR is zero exactly when both operands are |
| Webhooks.FoldStep | backend/src/main/java/com/pasarela/application/WebhookService.java:236-240 | folding one more byte pair keeps the accumulator zero exactly while the prefixes agree |
| Webhooks.ConstantTimeEquals | backend/src/main/java/com/pasarela/application/WebhookService.java:231-241 | true exactly when both strings are present and their UTF-8 bytes are equal |
| Webhooks.SignedFields | backend/src/main/java/com/pasarela/application/WebhookService.java:208-217 | the message has exactly eight fields |
| Webhooks.HmacMessageFields | backend/src/main/java/com/pasarela/application/WebhookService.java:208-217 | when no text field holds a ':', splitting the signed message on ':' gives back exactly the eight fields |
| Webhooks.HmacMessage | backend/src/main/java/com/pasarela/application/WebhookService.java:208-217 | the message starts with the pspReference and a ':' and holds at least the seven separators |
| Webhooks.ValueText1500 | backend/src/test/java/com/pasarela/application/WebhookServiceTest.java:73 | the test amount 1500 prints as "1500" |
| Webhooks.TestItemMessage | backend/src/test/java/com/pasarela/application/WebhookServiceTest.java:62-95 | the test item signs "psp_test_ref::test_account:<ref>:1500:EUR:AUTHORISATION:true" |
| Webhooks.TestItemFields | backend/src/test/java/com/pasarela/application/WebhookServiceTest.java:62-74 | the test item's eight signed fields, null written as "" |
| Webhooks.JoinEight | backend/src/main/java/com/pasarela/application/WebhookService.java:208 | a join of eight fields spelt out piece by piece |
| Webhooks.VerifyAdyenHmac | backend/src/main/java/com/pasarela/application/WebhookService.java:204-229 | the signature check holds exactly when a non-blank hmacSignature equals the Base64 of HMAC-SHA256 over the message; a blank signature always fails |
| Webhooks.WebhookEvents | backend/src/main/java/com/pasarela/application/WebhookService.java:102-108 | one health event per applied update (also lines 181-187) |
| Webhooks.RowsAfterWebhook | backend/src/main/java/com/pasarela/application/WebhookService.java:102-124 | recording a webhook outcome keeps the health rows consistent |
| Webhooks.RowsAfterEach | backend/src/main/java/com/pasarela/application/WebhookService.java:142-148 | recording every update of a batch keeps the health rows consistent |
| Webhooks.StripeOutcome | backend/src/main/java/com/pasarela/application/WebhookService.java:95-125 | a STRIPE intent with that providerRef takes the outcome's status and nothing else about it changes; no update exactly when no STRIPE intent has that ref |
| Webhooks.StripeUpdate | backend/src/main/java/com/pasarela/application/WebhookService.java:71-92 | an unhandled type or a missing data object changes nothing; an update carries the event's id and type and the outcome its type names |
| Webhooks.StripeStatuses | backend/src/main/java/com/pasarela/application/WebhookService.java:71-91 | succeeded sets SUCCEEDED, payment_failed sets FAILED, charge.refunded sets REFUNDED on a STRIPE intent; any other type is ignored |
| Webhooks.AdyenTransitions | backend/src/main/java/com/pasarela/application/WebhookService.java:153-201 | AUTHORISATION sets SUCCEEDED when success is "true" in any case and FAILED otherwise, a non-blank pspReference becomes the providerRef; otherwise only a successful REFUND, which sets REFUNDED |
| Webhooks.AdyenUpdate | backend/src/main/java/com/pasarela/application/WebhookService.java:153-201 | a missing or unparsable merchantReference changes nothing; an update is of an ADYEN intent of the table, with only its status and providerRef changed |
| Webhooks.UnknownIntentIgnored | backend/src/main/java/com/pasarela/application/WebhookService.java:161-162 | an item naming no ADYEN intent changes nothing |
| Webhooks.ItemStep | backend/src/main/java/com/pasarela/application/WebhookService.java:143-147 | a missing item or a bad signature stops the batch with INVALID_HMAC; an applied update is always to an ADYEN intent |
| Webhooks.AcceptedItems | backend/src/main/java/com/pasarela/application/WebhookService.java:142-148 | a batch that goes through passed every per-item demand |
| Webhooks.AppliedUpdates | backend/src/main/java/com/pasarela/application/WebhookService.java:142-148 | every applied update meets what each step promises |
| Webhooks.BatchSplits | backend/src/main/java/com/pasarela/application/WebhookService.java:142-148 | no rollback: a prefix that went through stays applied whatever the later items do |
| Webhooks.BatchStops | backend/src/main/java/com/pasarela/application/WebhookService.java:144-146 | a failing item ends the batch with its failure and nothing after it applies |
| Webhooks.BatchStep | backend/src/main/java/com/pasarela/application/WebhookService.java:142-148 | an item that goes through puts its update in front of the rest |
| Webhooks.AdyenBatchGuards | backend/src/main/java/com/pasarela/application/WebhookService.java:142-162 | an accepted batch had every item present and correctly signed, and only ADYEN intents are updated |
| Webhooks.WebhookService.constructor | backend/src/main/java/com/pasarela/application/WebhookService.java:43-53 | the service holds the given provider properties, repository and health tracker |
| Webhooks.WebhookService.Apply | backend/src/main/java/com/pasarela/application/WebhookService.java:99-108 | the updated intent is saved, then one outcome event is logged and the health rows recomputed |
| Webhooks.WebhookService.HandleStripe | backend/src/main/java/com/pasarela/application/WebhookService.java:55-93 | an absent `stripe` properties record is a NullPointerException, a blank secret INTERNAL_SERVER_ERROR and a failed signature UNAUTHORIZED, all three both changing nothing; otherwise the handled event is applied and recorded, and an ignored one changes nothing |
| Webhooks.WebhookService.HandleAdyen | backend/src/main/java/com/pasarela/application/WebhookService.java:128-151 | an absent `adyen` properties record (a NullPointerException) and the key, body and Base64 failures change nothing, a key the decoder refuses giving an IllegalArgumentException with the decoder's own message; otherwise the table, events and health rows are exactly those of the batch, and the result is "[accepted]" or the batch's failure |
| Webhooks.WebhookService.ProcessItem | backend/src/main/java/com/pasarela/application/WebhookService.java:143-147 | one loop turn: fails without changes or applies the item's update with its event |
| Webhooks.WebhookService.ProcessItems | backend/src/main/java/com/pasarela/application/WebhookService.java:142-150 | the loop leaves exactly the batch's table and events, and returns "[accepted]" only when no item failed |
| Webhooks.WebhookService.RecordedOneMore | backend/src/main/java/com/pasarela/application/WebhookService.java:142-148 | recording one more update keeps the tracker in step with the updates so far |
| Registry.RegisterStep | backend/src/main/java/com/pasarela/application/ProviderAdapterRegistry.java:84 | `putIfAbsent` of an adapter with a new provider keeps the list well formed and the index exact |
| Registry.NextMustRegister | backend/src/main/java/com/pasarela/application/ProviderAdapterRegistry.java:71-91 | in a list that is well formed, the adapter after the indexed prefix is present, has a provider, and that provider is not yet indexed |
| Registry.CopyOf | backend/src/main/java/com/pasarela/application/ProviderAdapterRegistry.java:29 | a null list is an empty one; `List.copyOf` refuses a list holding a null adapter with NullPointerException and otherwise copies it unchanged |
| Registry.ProviderAdapterRegistry.Create | backend/src/main/java/com/pasarela/application/ProviderAdapterRegistry.java:28-30 | construction fails with NullPointerException exactly when the list holds a null adapter; otherwise a new registry over the copied list, nothing indexed yet |
| Registry.ProviderAdapterRegistry.constructor | backend/src/main/java/com/pasarela/application/ProviderAdapterRegistry.java:28-30 | on a list `List.copyOf` accepts: a null list becomes an empty one, no element is null, and nothing is indexed yet |
| Registry.NullAdapterMessageUnreachable | backend/src/main/java/com/pasarela/application/ProviderAdapterRegistry.java:29 | among copied adapters no rejection is "ProviderAdapter list contiene null", so the check at lines 72-73 is never reached from a registry (also lines 72-73) |
| Registry.ProviderAdapterRegistry.BuildRegistry | backend/src/main/java/com/pasarela/application/ProviderAdapterRegistry.java:69-94 | succeeds exactly when no adapter is null, none has a null provider and no provider appears twice; the index then maps each declared provider to its adapter; every failure is an IllegalStateException thrown at the first adapter the index before it cannot take, with the source's message for a null adapter, a null provider (naming the class) or a duplicate provider (naming the existing and the new class); on a list without null elements, which is every registry's, the null-adapter message never occurs |
| Registry.ProviderAdapterRegistry.EnsureInitialized | backend/src/main/java/com/pasarela/application/ProviderAdapterRegistry.java:56-67 | the index is built on first use and kept, so later calls change nothing; a failed build leaves no index |
| Registry.ProviderAdapterRegistry.GetRequired | backend/src/main/java/com/pasarela/application/ProviderAdapterRegistry.java:32-42 | the adapter whose provider is `p` exactly when the list is well formed and declares `p`; a provider nobody declares is an IllegalArgumentException whose message is "No existe ProviderAdapter registrado para provider=" followed by the provider's name |
| Registry.ProviderAdapterRegistry.Find | backend/src/main/java/com/pasarela/application/ProviderAdapterRegistry.java:44-46 | present exactly when some adapter declares the provider, and then that adapter |
| Registry.ProviderAdapterRegistry.RegisteredProviders | backend/src/main/java/com/pasarela/application/ProviderAdapterRegistry.java:48-50 | exactly the providers the adapters declare |
| Registry.EmptyListRegistersNothing | backend/src/main/java/com/pasarela/application/ProviderAdapterRegistry.java:29 | a null list registers nothing |
| Registry.AdapterOfIsUnique | backend/src/main/java/com/pasarela/application/ProviderAdapterRegistry.java:84-91 | in a well-formed list each provider belongs to exactly one adapter |
| Registry.GatewayAdapters | backend/src/main/java/com/pasarela/application/ProviderAdapterRegistry.java:69-94 | the four gateway adapters form a well-formed list declaring STRIPE, ADYEN, MASTERCARD and DEMO |
| Merchants.ApiKey | backend/src/main/java/com/pasarela/application/MerchantService.java:96-100 | 40 characters: the prefix "po_demo_" and 32 characters of the URL-safe Base64 alphabet |
| Merchants.ApiKeyCarriesRandom | backend/src/main/java/com/pasarela/application/MerchantService.java:96-100 | the text after the prefix decodes back to the 24 random bytes |
| Merchants.ApiKeyInjective | backend/src/main/java/com/pasarela/application/MerchantService.java:96-100 | different random bytes give different keys |
| Merchants.ReadConfig | backend/src/main/java/com/pasarela/application/MerchantService.java:78-86 | the defaults for a null or blank text, an unreadable text or a literal null; otherwise the parsed config unchanged |
| Merchants.ReadConfigKeepsNulls | backend/src/main/java/com/pasarela/application/MerchantService.java:78-86 | a null weights object stays null here, where the routing engine's reading fills in the default weights |
| Merchants.ReadAfterWrite | backend/src/main/java/com/pasarela/application/MerchantService.java:78-94 | reading back what was written gives the config, when the mapper's parse undoes its write |
| Merchants.PatchedFields | backend/src/main/java/com/pasarela/application/MerchantService.java:61-65 | each field the patch gives replaces the current one; each null field keeps it |
| Merchants.PatchAlgebra | backend/src/main/java/com/pasarela/application/MerchantService.java:61-65 | the empty patch is the identity, a patch is idempotent, and two patches in a row are the combined patch |
| Merchants.UpdatesCompose | backend/src/main/java/com/pasarela/application/MerchantService.java:55-68 | two updates in a row leave the config the combined patch makes of the first one read |
| Merchants.NewMerchantReadsDefaults | backend/src/main/java/com/pasarela/application/MerchantService.java:41-86 | a new merchant's stored config reads as the defaults |
| Merchants.MerchantService.constructor | backend/src/main/java/com/pasarela/application/MerchantService.java:29-32 | no merchants |
| Merchants.MerchantService.Create | backend/src/main/java/com/pasarela/application/MerchantService.java:34-45 | the returned key is the generated one; the row stores its 64-character SHA-256 hex, never the key itself, and the default config |
| Merchants.MerchantService.UpdateRoutingConfig | backend/src/main/java/com/pasarela/application/MerchantService.java:55-68 | an unknown merchant is "merchant not found" and nothing changes; otherwise the stored config is read, patched and written back, nothing else changes |
| Adapters.ResolveConfigValue | backend/src/main/java/com/pasarela/infrastructure/provider/StripeAdapter.java:125-132 | the merchant's value when present and not blank, else the global fallback; blank exactly when neither supplies a value (also AdyenAdapter.java:162-169) |
| StripeAdapter.StripeKind | backend/src/main/java/com/pasarela/infrastructure/provider/StripeAdapter.java:111-123 | TIMEOUT exactly for connection failures and 408; HTTP_5XX for 500 and up; VALIDATION for the other 4xx; UNKNOWN otherwise; never PROVIDER_DECLINE |
| StripeAdapter.MapStripeException | backend/src/main/java/com/pasarela/infrastructure/provider/StripeAdapter.java:111-123 | a STRIPE exception of the kind above with the safe message "Stripe request failed" |
| StripeAdapter.ProviderIdempotencyKey | backend/src/main/java/com/pasarela/infrastructure/provider/StripeAdapter.java:66-69 | the key starts with "po:", the merchant id and ':' |
| StripeAdapter.ProviderKeyIdentifiesRequest | backend/src/main/java/com/pasarela/infrastructure/provider/StripeAdapter.java:66-69 | a retry with the same merchant and client key reuses the provider key; two keyless requests of one merchant share a key only for the same intent |
| StripeAdapter.IntentParamsFor | backend/src/main/java/com/pasarela/infrastructure/provider/StripeAdapter.java:53-64 | the metadata is exactly the intent id and merchant id |
| StripeAdapter.CurrencyLowerCased | backend/src/main/java/com/pasarela/infrastructure/provider/StripeAdapter.java:55 | the currency sent has no upper-case letter and the same letters otherwise |
| StripeAdapter.StripeCheckoutShape | backend/src/main/java/com/pasarela/infrastructure/provider/StripeAdapter.java:77-80 | the checkout config is exactly type "STRIPE", the publishable key and the client secret |
| StripeAdapter.Adapter.constructor | backend/src/main/java/com/pasarela/infrastructure/provider/StripeAdapter.java:31-34 | the adapter holds the global properties and the SDK calls; the SDK key is unset |
| StripeAdapter.Adapter.CreateSession | backend/src/main/java/com/pasarela/infrastructure/provider/StripeAdapter.java:41-86 | an absent `stripe` properties record is a NullPointerException and a missing secret or publishable key is VALIDATION "Stripe is not configured", both touching nothing; otherwise the SDK key is the secret, telemetry is off, and the created intent's id and checkout config come back, or the mapped SDK error |
| StripeAdapter.Adapter.Refund | backend/src/main/java/com/pasarela/infrastructure/provider/StripeAdapter.java:89-109 | an absent `stripe` properties record is a NullPointerException and a missing secret is VALIDATION; otherwise the refund of the reference and amount is created and its id returned, or the mapped SDK error |
| StripeAdapter.NotConfiguredIff | backend/src/main/java/com/pasarela/infrastructure/provider/StripeAdapter.java:43-47 | with the `stripe` record present, a session is refused for credentials exactly when neither the merchant nor the global properties supply one of the two keys |
| AdyenAdapter.AdyenKind | backend/src/main/java/com/pasarela/infrastructure/provider/AdyenAdapter.java:151-160 | HTTP_5XX exactly for 500 and up, TIMEOUT exactly for 408, VALIDATION for every other status |
| AdyenAdapter.GatewayTimeoutIsServerError | backend/src/main/java/com/pasarela/infrastructure/provider/AdyenAdapter.java:154-155 | 504 is reported as HTTP_5XX: its test in the timeout branch is never reached |
| AdyenAdapter.IdempotencyHeader | backend/src/main/java/com/pasarela/infrastructure/provider/AdyenAdapter.java:78-82 | a header exactly when the client key is not blank, then "po:", the merchant id, ':' and the key |
| AdyenAdapter.Headers | backend/src/main/java/com/pasarela/infrastructure/provider/AdyenAdapter.java:76-82 | exactly the content type and the API key, plus the idempotency header when there is one (also lines 135-136) |
| AdyenAdapter.ReturnUrl | backend/src/main/java/com/pasarela/infrastructure/provider/AdyenAdapter.java:58-61 | the command's URL when not blank, else a URL ending in "/checkout/" and the intent id |
| AdyenAdapter.SessionRequest | backend/src/main/java/com/pasarela/infrastructure/provider/AdyenAdapter.java:63-83 | the amount is the amount with the currency upper-cased; the reference is the intent id; the merchant account is the resolved one |
| AdyenAdapter.AdyenCheckoutShape | backend/src/main/java/com/pasarela/infrastructure/provider/AdyenAdapter.java:95-100 | the checkout config is exactly type "ADYEN", client key, environment, session id and session data |
| AdyenAdapter.SessionFailure | backend/src/main/java/com/pasarela/infrastructure/provider/AdyenAdapter.java:85-109 | a failure is always ADYEN's, and TIMEOUT exactly for a 408 status |
| AdyenAdapter.CreateSession | backend/src/main/java/com/pasarela/infrastructure/provider/AdyenAdapter.java:45-110 | an absent `adyen` properties record is a NullPointerException; missing API key, merchant account or client key is VALIDATION "Adyen is not configured"; a blank return URL with an absent `frontend` record is a NullPointerException; a body with id and session data gives that session and its checkout; any other body is UNKNOWN "Adyen session response invalid"; an error status or exception maps as above |
| AdyenAdapter.RefundRequest | backend/src/main/java/com/pasarela/infrastructure/provider/AdyenAdapter.java:127-137 | the reference is "refund-" and the PSP reference; the currency is upper-cased; no idempotency header |
| AdyenAdapter.RefundRef | backend/src/main/java/com/pasarela/infrastructure/provider/AdyenAdapter.java:142-143 | fails exactly when pspReference is present but not a string; otherwise that string or "UNKNOWN" |
| AdyenAdapter.Refund | backend/src/main/java/com/pasarela/infrastructure/provider/AdyenAdapter.java:113-149 | an absent `adyen` properties record is a NullPointerException; missing credentials are VALIDATION "Adyen is not configured"; a null reference or one starting "CS" is VALIDATION asking for the PSP reference; a refund only ever goes through with a PSP reference; every other failure is an ADYEN ProviderException |
| AdyenAdapter.SessionIdRefundRefused | backend/src/main/java/com/pasarela/infrastructure/provider/AdyenAdapter.java:123-125 | a checkout-session reference is refused before any exchange, whatever the exchange would answer, with VALIDATION when the `adyen` record is present |
| MastercardAdapter.MastercardKind | backend/src/main/java/com/pasarela/infrastructure/provider/MastercardHostedCheckoutAdapter.java:148-157 | HTTP_5XX exactly for 500 and up, TIMEOUT exactly for 408 (504 never reaches its test), VALIDATION otherwise |
| MastercardAdapter.NormalizeBaseUrl | backend/src/main/java/com/pasarela/infrastructure/provider/MastercardHostedCheckoutAdapter.java:189-195 | the trimmed host without the '/' that `replaceAll("/$", "")` removes (`JavaString.StripTrailingSlashIsRegex`), with "https://" in front unless it already starts with http:// or https:// |
| MastercardAdapter.NormalizeExamples | backend/src/main/java/com/pasarela/infrastructure/provider/MastercardHostedCheckoutAdapter.java:189-195 | an https URL without surrounding blanks, trailing '/' or final line terminator is kept; a bare host gets "https://" |
| MastercardAdapter.FormatAmount | backend/src/main/java/com/pasarela/infrastructure/provider/MastercardHostedCheckoutAdapter.java:185-187 | a sign exactly for negative amounts, and exactly two decimals after the point |
| MastercardAdapter.FormatAmountReadsBack | backend/src/main/java/com/pasarela/infrastructure/provider/MastercardHostedCheckoutAdapter.java:185-187 | the units and the two decimals of a formatted amount read back as the amount in minor units |
| MastercardAdapter.CentsValue | backend/src/main/java/com/pasarela/infrastructure/provider/MastercardHostedCheckoutAdapter.java:185-187 | the two decimal digits of a value below 100 read back as that value |
| MastercardAdapter.FormatAmountExamples | backend/src/main/java/com/pasarela/infrastructure/provider/MastercardHostedCheckoutAdapter.java:185-187 | 1500 formats as "15.00" and 5 as "0.05" |
| MastercardAdapter.Show | backend/src/main/java/com/pasarela/infrastructure/provider/MastercardHostedCheckoutAdapter.java:163-166 | `String.valueOf` of a present value, null for a missing or null one |
| MastercardAdapter.ExtractSessionId | backend/src/main/java/com/pasarela/infrastructure/provider/MastercardHostedCheckoutAdapter.java:159-167 | the id inside a `session` object when there is one; the top-level sessionId only when `session` is not an object |
| MastercardAdapter.SessionObjectShadowsSessionId | backend/src/main/java/com/pasarela/infrastructure/provider/MastercardHostedCheckoutAdapter.java:159-167 | a `session` object without an id hides a top-level sessionId |
| MastercardAdapter.ExtractSuccessIndicator | backend/src/main/java/com/pasarela/infrastructure/provider/MastercardHostedCheckoutAdapter.java:169-178 | the top-level successIndicator when not null, else the one in a `session` object, else none |
| MastercardAdapter.TopLevelIndicatorWins | backend/src/main/java/com/pasarela/infrastructure/provider/MastercardHostedCheckoutAdapter.java:169-178 | the top-level indicator wins over the nested one |
| MastercardAdapter.ReturnUrl | backend/src/main/java/com/pasarela/infrastructure/provider/MastercardHostedCheckoutAdapter.java:62-67 | the command's URL when not blank, else the frontend base (the local default when blank) without the '/' that `replaceAll("/$", "")` removes, then "/checkout/" and the intent id |
| MastercardAdapter.BasicAuthHeader | backend/src/main/java/com/pasarela/infrastructure/provider/MastercardHostedCheckoutAdapter.java:180-183 | the header starts with "Basic " |
| MastercardAdapter.BasicAuthCarriesCredentials | backend/src/main/java/com/pasarela/infrastructure/provider/MastercardHostedCheckoutAdapter.java:180-183 | the Base64 after "Basic " decodes to the UTF-8 bytes of user ':' password |
| MastercardAdapter.MerchantConfigSuffices | backend/src/main/java/com/pasarela/infrastructure/provider/MastercardHostedCheckoutAdapter.java:49-59 | with no properties, the merchant's four settings are necessary and sufficient |
| MastercardAdapter.SessionRequest | backend/src/main/java/com/pasarela/infrastructure/provider/MastercardHostedCheckoutAdapter.java:69-89 | the order is the intent id, the formatted amount and the upper-cased currency; headers are exactly content type and Authorization |
| MastercardAdapter.CheckoutFields | backend/src/main/java/com/pasarela/infrastructure/provider/MastercardHostedCheckoutAdapter.java:106-117 | the success indicator is present exactly when not blank; the session id is the response's |
| MastercardAdapter.CheckoutShape | backend/src/main/java/com/pasarela/infrastructure/provider/MastercardHostedCheckoutAdapter.java:106-117 | besides the optional indicator, exactly type "MASTERCARD", script URL, merchant, session, order, amount, currency and return URL |
| MastercardAdapter.CreateSession | backend/src/main/java/com/pasarela/infrastructure/provider/MastercardHostedCheckoutAdapter.java:47-127 | missing settings are VALIDATION "Mastercard is not configured"; a 5xx is the adapter's HTTP_5XX; another status maps as above; a null body or a missing id is UNKNOWN; otherwise the session id and its checkout |
| MastercardAdapter.FillCheckout | backend/src/main/java/com/pasarela/infrastructure/provider/MastercardHostedCheckoutAdapter.java:106-117 | the entry-by-entry map is exactly the checkout configuration |
| MastercardAdapter.Refund | backend/src/main/java/com/pasarela/infrastructure/provider/MastercardHostedCheckoutAdapter.java:129-132 | always a MASTERCARD VALIDATION failure |
| DemoAdapter.DemoCheckoutUrl | backend/src/main/java/com/pasarela/infrastructure/provider/DemoAdapter.java:48-54 | ends in "/demo-checkout/" and the intent id; a null or blank base uses the local frontend |
| DemoAdapter.TrailingSlashIgnored | backend/src/main/java/com/pasarela/infrastructure/provider/DemoAdapter.java:48-54 | a base that does not end in a line terminator gives the same link with or without a trailing '/' |
| DemoAdapter.SlashBeforeLineFeedDropped | backend/src/main/java/com/pasarela/infrastructure/provider/DemoAdapter.java:48-54 | the base "http://localhost:3000/\n" gives "http://localhost:3000\n/demo-checkout/" and the intent id |
| DemoAdapter.CreateSession | backend/src/main/java/com/pasarela/infrastructure/provider/DemoAdapter.java:29-54 | an absent `frontend` properties record is a NullPointerException; otherwise the reference is "demo_" and the intent id, and the checkout config is exactly type "DEMO", intent id, amount, currency, message and demo link |
| DemoAdapter.DemoRefInjective | backend/src/main/java/com/pasarela/infrastructure/provider/DemoAdapter.java:38 | different intents get different demo references |
| DemoAdapter.Refund | backend/src/main/java/com/pasarela/infrastructure/provider/DemoAdapter.java:43-46 | always succeeds, with "demo_refund_" and the reference, or "unknown" without one |
| PaymentIntents.DemoRouting | backend/src/main/java/com/pasarela/application/PaymentIntentService.java:495-508 | the DEMO routing result: provider DEMO with reason DEMO_MODE |
| PaymentIntents.RouteFor | backend/src/main/java/com/pasarela/application/PaymentIntentService.java:251-286 | a DEMO preference routes to DEMO; an explicit preference whose provider has no status or is unavailable fails with UNPROCESSABLE_ENTITY naming the provider and the reason |
| PaymentIntents.SessionFor | backend/src/main/java/com/pasarela/application/PaymentIntentService.java:406-438 | the adapter's exception passes through unchanged; on success the reference is the adapter's and the configuration is a copy of the adapter's with the measured latency added under _latencyMs |
| PaymentIntents.LatencyReadBack | backend/src/main/java/com/pasarela/application/PaymentIntentService.java:319-322 | the latency read back from a session's configuration is the one createSessionFor measured (also lines 426-428) |
| PaymentIntents.RoutingSource | backend/src/main/java/com/pasarela/application/PaymentIntentService.java:251-286 | an unavailable explicit provider fails before anything is written; a DEMO preference, or no available candidate, makes the first decision DEMO with reason DEMO_MODE |
| PaymentIntents.PlanWrites | backend/src/main/java/com/pasarela/application/PaymentIntentService.java:288-313 | a routing failure writes nothing; otherwise the intent carries the request's amount, upper-cased currency, description, root, attempt and key, and points at the last of its one or two decisions, the first with the routing's provider and reason and a second one INSTANT_FALLBACK (also lines 354-365) |
| PaymentIntents.FallbackEligibility | backend/src/main/java/com/pasarela/application/PaymentIntentService.java:324-331 | a failed first session is recorded as a failure of its provider with its error type; a type other than TIMEOUT, HTTP_5XX or VALIDATION leaves the intent FAILED with "Provider failed" and no fallback; an eligible one ends in success or in "Both providers failed" (also lines 382-386) |
| PaymentIntents.FallbackExecution | backend/src/main/java/com/pasarela/application/PaymentIntentService.java:331-381 | the fallback routes with AUTO and the failed provider excluded; no candidate or a routing error leaves the intent FAILED with no second decision; otherwise the INSTANT_FALLBACK decision names the engine's choice, the retried intent is routed there, every further session is for that provider, and a failing retry ends FAILED with BAD_GATEWAY |
| PaymentIntents.SuccessPath | backend/src/main/java/com/pasarela/application/PaymentIntentService.java:389-403 | a result is returned exactly when a configuration is stored; the returned intent is the row written, REQUIRES_PAYMENT_METHOD with the adapter's reference, and its configuration is the adapter's without _latencyMs; a failure leaves the intent FAILED or CREATED |
| PaymentIntents.AttemptSucceeds | backend/src/main/java/com/pasarela/application/PaymentIntentService.java:315-403 | the plan of the first session call and what follows it describes a successful create whenever it returns a result |
| PaymentIntents.FallbackSucceeds | backend/src/main/java/com/pasarela/application/PaymentIntentService.java:331-376 | the same for the fallback (also lines 395-403) |
| PaymentIntents.SessionsRecorded | backend/src/main/java/com/pasarela/application/PaymentIntentService.java:318-376 | every health event recorded is for the intent being created, and there are at most two, the second for the fallback decision's provider |
| PaymentIntents.AttemptSessions | backend/src/main/java/com/pasarela/application/PaymentIntentService.java:318-376 | the first call records at most one event, the fallback at most one more for its decision's provider |
| PaymentIntents.FallbackSessions | backend/src/main/java/com/pasarela/application/PaymentIntentService.java:367-376 | the fallback records at most one event, for the provider of the decision it saves |
| PaymentIntents.RowsAfterSnoc | backend/src/main/java/com/pasarela/application/PaymentIntentService.java:323-325 | recording one more session event recomputes only its provider's health row, over the log that ends with it (also lines 372-374) |
| PaymentIntents.SessionRecorded | backend/src/main/java/com/pasarela/application/PaymentIntentService.java:323-325 | a recordCreateSessionOutcome call is one more step of that fold, starting from a fresh row for a provider without one (also lines 372-374) |
| PaymentIntents.RowsAfterSessionsElsewhere | backend/src/main/java/com/pasarela/application/PaymentIntentService.java:323-325 | a provider none of the session events is about keeps its health row (also lines 372-374) |
| PaymentIntents.RequestHashText | backend/src/main/java/com/pasarela/application/PaymentIntentService.java:482-493 | when the description or the preference is null the serialisation fails and the text is amount, currency and preference joined by ':' |
| PaymentIntents.RequestHash | backend/src/main/java/com/pasarela/application/PaymentIntentService.java:111 | the recorded hash has two hex characters per byte of the request text's SHA-256 digest |
| PaymentIntents.Replay | backend/src/main/java/com/pasarela/application/PaymentIntentService.java:90-96 | a replay returns the recorded intent, still the merchant's, with its stored configuration; it fails with CONFLICT exactly when the merchant no longer has that intent (also lines 475-480) |
| PaymentIntents.GetWithCheckoutConfig | backend/src/main/java/com/pasarela/application/PaymentIntentService.java:162-167 | nothing exactly when the merchant has no such intent; otherwise the intent with its required configuration (also lines 475-480) |
| PaymentIntents.CreateThenReplay | backend/src/main/java/com/pasarela/application/PaymentIntentService.java:86-115 | once a create has returned, replaying its key on the state it left returns the same intent and configuration |
| PaymentIntents.RerouteGuard | backend/src/main/java/com/pasarela/application/PaymentIntentService.java:125-142 | unknown merchant and unknown intent give NOT_FOUND; a status other than FAILED or REQUIRES_PAYMENT_METHOD gives CONFLICT; three or more intents on the root give TOO_MANY_REQUESTS; otherwise the root (the intent's own id when it has none) and the count as the next attempt |
| PaymentIntents.RerouteExcluded | backend/src/main/java/com/pasarela/application/PaymentIntentService.java:152-154 | an AUTO reroute excludes exactly the provider tried; any other preference excludes nothing |
| PaymentIntents.RerouteAttempt | backend/src/main/java/com/pasarela/application/PaymentIntentService.java:135-155 | a reroute's intent keeps the root, takes the root's count as its attempt number, has no idempotency key and the original amount, and a root never has more than three intents |
| PaymentIntents.RefundGuard | backend/src/main/java/com/pasarela/application/PaymentIntentService.java:175-179 | passes exactly for a SUCCEEDED intent of the merchant, returning it; NOT_FOUND exactly when the merchant has no such intent |
| PaymentIntents.SecondRefundRefused | backend/src/main/java/com/pasarela/application/PaymentIntentService.java:177-193 | a refunded intent is saved PROCESSING, so a second refund of it is refused with CONFLICT |
| PaymentIntents.RequireDemoIntent | backend/src/main/java/com/pasarela/application/PaymentIntentService.java:440-447 | passes exactly for the merchant's intent routed to DEMO; otherwise NOT_FOUND or CONFLICT |
| PaymentIntents.ApprovedExamples | backend/src/main/java/com/pasarela/application/PaymentIntentService.java:203 | null, blank and "approved" in any letter case approve; "declined" and "approve" do not |
| PaymentIntents.DemoStatus | backend/src/main/java/com/pasarela/application/PaymentIntentService.java:199-239 | a final status (SUCCEEDED, FAILED, REFUNDED) is kept; otherwise the result is SUCCEEDED exactly for an approving authorize and FAILED otherwise, always final (also lines 449-453) |
| PaymentIntents.SaveTwice | backend/src/main/java/com/pasarela/application/PaymentIntentService.java:205-209 | saving two rows under one id in turn is saving the second |
| PaymentIntents.DemoSettles | backend/src/main/java/com/pasarela/application/PaymentIntentService.java:199-239 | after a demo action the intent is final and still a DEMO intent, so a second action returns it unchanged |
| PaymentIntents.PaymentIntentService.constructor | backend/src/main/java/com/pasarela/application/PaymentIntentService.java:59-83 | an empty service over the given repositories, health tracker and collaborators |
| PaymentIntents.PaymentIntentService.SaveIntent | backend/src/main/java/com/pasarela/application/PaymentIntentService.java:301-313 | the row is saved under its id, replacing the earlier one |
| PaymentIntents.PaymentIntentService.OpenIntent | backend/src/main/java/com/pasarela/application/PaymentIntentService.java:288-313 | the intent is written, then its first decision, then the intent pointing at that decision |
| PaymentIntents.PaymentIntentService.RecordSession | backend/src/main/java/com/pasarela/application/PaymentIntentService.java:323-325 | one session event appended to the health log, with the payload the tracker builds (none for a success, whose error type is null), and its provider's row recomputed (also lines 372-374) |
| PaymentIntents.PaymentIntentService.Finish | backend/src/main/java/com/pasarela/application/PaymentIntentService.java:395-403 | the intent saved with the adapter's reference and REQUIRES_PAYMENT_METHOD, the configuration stored without _latencyMs, and both returned |
| PaymentIntents.PaymentIntentService.Attempt | backend/src/main/java/com/pasarela/application/PaymentIntentService.java:315-403 | the state and result are those of the attempt plan: first session, then the success path or the failure handling; every session event carries the payload as the tracker builds it |
| PaymentIntents.PaymentIntentService.Failed | backend/src/main/java/com/pasarela/application/PaymentIntentService.java:324-386 | after a ProviderException: the failure recorded, then the fallback for an eligible type, otherwise FAILED with BAD_GATEWAY |
| PaymentIntents.PaymentIntentService.Fallback | backend/src/main/java/com/pasarela/application/PaymentIntentService.java:331-381 | the fallback plan's decision, intent rows, health events and result |
| PaymentIntents.PaymentIntentService.Retry | backend/src/main/java/com/pasarela/application/PaymentIntentService.java:367-403 | the second session call: success path, or FAILED with BAD_GATEWAY |
| PaymentIntents.PaymentIntentService.CreateInternal | backend/src/main/java/com/pasarela/application/PaymentIntentService.java:241-404 | the intents, decisions, health events, stored configurations and result are exactly those of the creation plan the lemmas above describe |
| PaymentIntents.PaymentIntentService.Create | backend/src/main/java/com/pasarela/application/PaymentIntentService.java:86-115 | an unknown merchant is refused with nothing changed; a recorded key replays with nothing changed; otherwise a fresh intent on its own root with attempt 0, and the key recorded with the request hash only when the create returned and the key is not blank |
| PaymentIntents.PaymentIntentService.Reroute | backend/src/main/java/com/pasarela/application/PaymentIntentService.java:118-156 | a failed check changes nothing and returns its error; otherwise the reroute plan on the same root with the next attempt, no key, and the tried provider excluded for AUTO |
| PaymentIntents.PaymentIntentService.Refund | backend/src/main/java/com/pasarela/application/PaymentIntentService.java:174-196 | a failed check or adapter call saves nothing; otherwise the intent is saved PROCESSING and the view carries the adapter's refund reference |
| PaymentIntents.PaymentIntentService.DemoAct | backend/src/main/java/com/pasarela/application/PaymentIntentService.java:199-239 | a non-DEMO or missing intent is refused and a final one returned, both with nothing changed; otherwise the intent is saved with its settled status and one DEMO payment event is recorded with the DEMO row recomputed |
| PaymentsMode.FirstNonBlank | backend/src/main/java/com/pasarela/config/PaymentsMode.java:33-37 | the trimmed primary when not blank, else the trimmed fallback when not blank, else "" |
| PaymentsMode.FirstNonBlankTrimmed | backend/src/main/java/com/pasarela/config/PaymentsMode.java:33-37 | the result is already trimmed |
| PaymentsMode.ParseBoolean | backend/src/main/java/com/pasarela/config/PaymentsMode.java:39-43 | false for null; otherwise true exactly when the trimmed, lower-cased text is "true", "1", "yes" or "y" |
| PaymentsMode.ParseBooleanIgnoresCaseAndBlanks | backend/src/main/java/com/pasarela/config/PaymentsMode.java:41-42 | " YES " reads as true |
| PaymentsMode.ParseBooleanRefusesOn | backend/src/main/java/com/pasarela/config/PaymentsMode.java:42 | "on" reads as false |
| PaymentsMode.NewMode | backend/src/main/java/com/pasarela/config/PaymentsMode.java:17-21 | a non-blank PAYMENTS_MODE is the configured mode, trimmed; the demo flag is set exactly by a true Boolean property or a true PASARELA_DEMO_PROVIDER |
| PaymentsMode.EffectiveMode | backend/src/main/java/com/pasarela/config/PaymentsMode.java:27-31 | "demo" in demo mode, "auto" without a configured mode, else the configured mode trimmed and lower-cased |
| PaymentsMode.IgnoreCaseIsLowerEquality | backend/src/main/java/com/pasarela/config/PaymentsMode.java:24 | against a lower-case word, ignoring case is equality after lower-casing |
| PaymentsMode.LowerLetterIgnoringCase | backend/src/main/java/com/pasarela/config/PaymentsMode.java:24 | a letter equals a lower-case letter ignoring case exactly when it lower-cases to it |
| PaymentsMode.EffectiveDemoIffDemo | backend/src/main/java/com/pasarela/config/PaymentsMode.java:23-31 | the reported mode is "demo" exactly when the gateway is in demo mode |
| PaymentsMode.TrimmedModeDemoIff | backend/src/main/java/com/pasarela/config/PaymentsMode.java:23-31 | the same for any mode whose configured text is trimmed |
| PaymentsMode.PaymentsModeTakesPrecedence | backend/src/main/java/com/pasarela/config/PaymentsMode.java:18 | a non-blank PAYMENTS_MODE decides the mode whatever app.payments.mode says |
| Cors.Dedup | backend/src/main/java/com/pasarela/config/CorsConfig.java:68 | no duplicates, and exactly the elements of the input |
| Cors.FirstIndex | backend/src/main/java/com/pasarela/config/CorsConfig.java:68 | the first position holding the element |
| Cors.FirstIndexPrefix | backend/src/main/java/com/pasarela/config/CorsConfig.java:68 | the first occurrence within a prefix is the first occurrence overall |
| Cors.DedupKeepsFirstOrder | backend/src/main/java/com/pasarela/config/CorsConfig.java:68 | distinct elements come out in the order of their first occurrence |
| Cors.DedupHead | backend/src/main/java/com/pasarela/config/CorsConfig.java:68 | the first element stays first |
| Cors.PortPart | backend/src/main/java/com/pasarela/config/CorsConfig.java:55 | empty exactly without a port; otherwise a ':' followed by text with no further ':' |
| Cors.Origin | backend/src/main/java/com/pasarela/config/CorsConfig.java:71-74 | the scheme and "://", the host in brackets when it contains ':', then the port part, with the length that makes up |
| Cors.IsLocalHost | backend/src/main/java/com/pasarela/config/CorsConfig.java:76-78 | a local host holds no ':' unless it is "::1", and a host in brackets is never local |
| Cors.ParsedUri | backend/src/main/java/com/pasarela/config/CorsConfig.java:42-51 | a URI only when the trimmed text is not blank, parses, and has a scheme and a host |
| Cors.DistinctCandidates | backend/src/main/java/com/pasarela/config/CorsConfig.java:53-68 | the distinct candidates start with the host's own origin; a local host adds exactly its three local spellings; any other host gives only its own origin |
| Cors.AllowedOriginsAsWritten | backend/src/main/java/com/pasarela/config/CorsConfig.java:40-69 | as written: the three defaults whenever the URL is blank, unparseable, or lacks a scheme or a host; no origin twice in any case |
| Cors.OriginsOfParsedUrlAsWritten | backend/src/main/java/com/pasarela/config/CorsConfig.java:53-68 | as written, with the host `getHost` returns: the URL's own origin comes first; a local host adds exactly its three local spellings; any other host gives only its own origin |
| Cors.Unbracketed | backend/src/main/java/com/pasarela/config/CorsConfig.java:57-74 | the corrected definition of the CorsConfig finding: the host is either the input with one pair of brackets taken off, or the input unchanged |
| Cors.AllowedOrigins | backend/src/main/java/com/pasarela/config/CorsConfig.java:57-74 | the corrected definition of the CorsConfig finding: the defaults for a URL that does not parse; otherwise the distinct candidates of the unbracketed host |
| Cors.OriginsOfParsedUrl | backend/src/main/java/com/pasarela/config/CorsConfig.java:57-74 | of the corrected definition, with the unbracketed host: the URL's own origin comes first; a local host adds exactly its three local spellings; any other host gives only its own origin |
| Cors.Port3000 | backend/src/main/java/com/pasarela/config/CorsConfig.java:55 | port 3000 is written ":3000" |
| Cors.LoopbackV6Parsed | backend/src/main/java/com/pasarela/config/CorsConfig.java:46-57 | the IPv6 loopback URL has scheme "http", host "[::1]" and port 3000 |
| Cors.BracketedOrigin | backend/src/main/java/com/pasarela/config/CorsConfig.java:71-74 | a bracketed IPv6 host is bracketed a second time |
| Cors.LocalOrigins | backend/src/main/java/com/pasarela/config/CorsConfig.java:63-74 | the three local spellings on port 3000 are exactly the three default origins |
| Cors.LoopbackV6AsWritten | backend/src/main/java/com/pasarela/config/CorsConfig.java:57-74 | as written, the IPv6 loopback base URL allows only "http://[[::1]]:3000" |
| Cors.LoopbackV6Corrected | backend/src/main/java/com/pasarela/config/CorsConfig.java:57-74 | with the brackets taken off, it allows its own origin first and exactly the three default origins |
| Cors.ResolveAllowedOrigins | backend/src/main/java/com/pasarela/config/CorsConfig.java:40-69 | the loop builds exactly the as-written allowed origins: the defaults, or the distinct candidates of the host `getHost` returns |
| Cors.Distinct | backend/src/main/java/com/pasarela/config/CorsConfig.java:68 | the loop keeps exactly the first occurrence of each element, in order |
| Sha256.HexDigit | backend/src/main/java/com/pasarela/infrastructure/crypto/Sha256.java:27-28 | a digit of 0-9 or a-f |
| Sha256.HexValue | backend/src/main/java/com/pasarela/infrastructure/crypto/Sha256.java:27-28 | the inverse of HexDigit on lowercase hex digits, and none for any other character |
| Sha256.HexDigitValue | backend/src/main/java/com/pasarela/infrastructure/crypto/Sha256.java:27-28 | each digit reads back as its value |
| Sha256.ByteHex | backend/src/main/java/com/pasarela/infrastructure/crypto/Sha256.java:27-28 | two characters per byte |
| Sha256.HexText | backend/src/main/java/com/pasarela/infrastructure/crypto/Sha256.java:24-31 | twice as many characters as bytes |
| Sha256.HexTextDigitOrder | backend/src/main/java/com/pasarela/infrastructure/crypto/Sha256.java:26-29 | byte k becomes characters 2k (high nibble) and 2k+1 (low nibble) |
| Sha256.HexTextDigits | backend/src/main/java/com/pasarela/infrastructure/crypto/Sha256.java:24-31 | every character is a lowercase hex digit |
| Sha256.UnhexSnoc | backend/src/main/java/com/pasarela/infrastructure/crypto/Sha256.java:26-29 | two more digits read back as one more byte |
| Sha256.UnhexHexText | backend/src/main/java/com/pasarela/infrastructure/crypto/Sha256.java:24-31 | reading the hex text back gives the bytes |
| Sha256.HexTextInjective | backend/src/main/java/com/pasarela/infrastructure/crypto/Sha256.java:24-31 | different bytes give different text |
| Sha256.ToHex | backend/src/main/java/com/pasarela/infrastructure/crypto/Sha256.java:24-31 | the loop builds exactly the hex text of the bytes |
| Sha256.Hex | backend/src/main/java/com/pasarela/infrastructure/crypto/Sha256.java:14-22 | the hex text of the digest of the input's UTF-8 bytes, 64 characters long |
| AesGcm.NewCrypto | backend/src/main/java/com/pasarela/infrastructure/crypto/AesGcmCrypto.java:23-28 | accepted exactly for a key of 32 bytes; otherwise the IllegalArgumentException naming APP_ENCRYPTION_KEY_BASE64 |
| AesGcm.EncryptToString | backend/src/main/java/com/pasarela/infrastructure/crypto/AesGcmCrypto.java:30-48 | fails, with "encrypt failed", exactly when the cipher does; otherwise "v1", the nonce and the ciphertext in unpadded base64url joined by ':' |
| AesGcm.TokenParts | backend/src/main/java/com/pasarela/infrastructure/crypto/AesGcmCrypto.java:52-58 | a null token and a token that does not split into exactly "v1" and two more parts are refused; an accepted token's two parts decode to the nonce and ciphertext |
| AesGcm.DecryptToBytes | backend/src/main/java/com/pasarela/infrastructure/crypto/AesGcmCrypto.java:50-66 | every failure is "decrypt failed"; a result is the cipher's opening of the token's nonce and ciphertext |
| AesGcm.NoSeparatorInEncoding | backend/src/main/java/com/pasarela/infrastructure/crypto/AesGcmCrypto.java:42-43 | base64url text never holds ':' |
| AesGcm.TokenSplits | backend/src/main/java/com/pasarela/infrastructure/crypto/AesGcmCrypto.java:39-53 | a token splits into exactly its prefix, nonce and ciphertext |
| AesGcm.TokenRoundTrip | backend/src/main/java/com/pasarela/infrastructure/crypto/AesGcmCrypto.java:39-58 | a token produced from a non-empty ciphertext parses back into its nonce and ciphertext |
| AesGcm.EmptyCiphertextRefused | backend/src/main/java/com/pasarela/infrastructure/crypto/AesGcmCrypto.java:53-56 | a token with an empty ciphertext loses its last part to the split and is refused |
| AesGcm.EncryptThenDecrypt | backend/src/main/java/com/pasarela/infrastructure/crypto/AesGcmCrypto.java:30-66 | decrypting an encrypted text gives the plaintext back, when the cipher's opening undoes its sealing |
| InstantMillis.ToEpochMilli | backend/src/main/java/com/pasarela/infrastructure/persistence/converter/InstantMillisConverter.java:17 | succeeds exactly when the floor of the instant in milliseconds fits in a long, and is that floor; otherwise an ArithmeticException |
| InstantMillis.OfEpochMilli | backend/src/main/java/com/pasarela/infrastructure/persistence/converter/InstantMillisConverter.java:22 | every long is a valid instant |
| InstantMillis.ToColumn | backend/src/main/java/com/pasarela/infrastructure/persistence/converter/InstantMillisConverter.java:15-18 | null stays null; an instant is stored as its floor in milliseconds, failing exactly when that overflows a long |
| InstantMillis.FromColumn | backend/src/main/java/com/pasarela/infrastructure/persistence/converter/InstantMillisConverter.java:20-23 | null exactly for null; otherwise a valid instant |
| InstantMillis.LongRoundTrip | backend/src/main/java/com/pasarela/infrastructure/persistence/converter/InstantMillisConverter.java:15-23 | every stored long reads back and is stored again unchanged |
| InstantMillis.InstantRoundTrip | backend/src/main/java/com/pasarela/infrastructure/persistence/converter/InstantMillisConverter.java:15-23 | an instant that fits comes back cut down to the millisecond, and unchanged when it had no finer part |
| InstantMillis.MaxInstantOverflows | backend/src/main/java/com/pasarela/infrastructure/persistence/converter/InstantMillisConverter.java:17 | Instant.MAX cannot be stored |
| DevEnv.TrimStart | scripts/dev.mjs:16 | a suffix of the text that does not start with JavaScript white space |
| DevEnv.TrimEnd | scripts/dev.mjs:16 | a prefix of the text that does not end with JavaScript white space |
| DevEnv.JsTrim | scripts/dev.mjs:16-21 | neither starts nor ends with JavaScript white space |
| DevEnv.Lines | scripts/dev.mjs:15 | at least one line, none holding a line feed, and a text without a line feed is a single line |
| DevEnv.IndexOf | scripts/dev.mjs:18 | absent exactly when there is no '='; otherwise the position of the first one |
| DevEnv.ParseLine | scripts/dev.mjs:16-25 | no entry exactly for a blank line, a comment or a line without '='; a key never holds '=' |
| DevEnv.UnquotedOnePair | scripts/dev.mjs:22-24 | only one matching pair of quotes comes off; mismatched quotes stay; a lone quote leaves nothing |
| DevEnv.Unquoted | scripts/dev.mjs:22-24 | the value unchanged, or a value that starts and ends with the same quote with exactly those two characters taken off (a lone quote gives nothing) |
| DevEnv.KeyBeforeFirstEquals | scripts/dev.mjs:18-21 | the key is the text before the first '='; later '=' characters stay in the value |
| DevEnv.Entries | scripts/dev.mjs:15-25 | one entry per line, each that line's |
| DevEnv.EnvFromPrefix | scripts/dev.mjs:25 | each line's entry is assigned in turn |
| DevEnv.LastDefinitionWins | scripts/dev.mjs:25 | the last line defining a key gives its value |
| DevEnv.DefinedKeys | scripts/dev.mjs:15-25 | a key is defined exactly when some line defines it |
| DevEnv.SkippedLine | scripts/dev.mjs:17-19 | a line giving no entry changes nothing |
| DevEnv.ReadEnvFile | scripts/dev.mjs:11-28 | a missing file gives {}; otherwise the entries of the file's lines assigned in order |
| DevEnv.Merged | scripts/dev.mjs:82 | the process environment wins; file entries fill only keys it does not define |
| DevEnv.WithDefaultProfile | scripts/dev.mjs:84-86 | the profile is "dev" when unset, and an existing profile is kept |
| DevEnv.ValidKeyShape | scripts/dev.mjs:88-91 | a valid key is exactly 43 characters of the standard alphabet followed by one '=' |
| DevEnv.IsValidBase64Key32 | scripts/dev.mjs:88-91 | a valid key is 44 characters ending in exactly one '=' |
| DevEnv.GeneratedKeyIsValid | scripts/dev.mjs:98-100 | the generated fallback key passes the check |
| DevEnv.NormalizeIdempotent | scripts/dev.mjs:113-118 | normalizing is idempotent and never leaves 0.0.0.0, :: or localhost |
| DevEnv.NormalizeBackendHost | scripts/dev.mjs:113-118 | only 0.0.0.0, :: and localhost change, and each becomes a loopback literal |
| DevEnv.FormatHostForUrl | scripts/dev.mjs:120-123 | an unbracketed host holding ':' is bracketed, any other is unchanged |
| DevEnv.FormatIdempotent | scripts/dev.mjs:120-123 | formatting is idempotent, and a formatted host holding ':' starts with '[' |
| DevEnv.BindAddress | scripts/dev.mjs:111 | never empty |
| DevEnv.HealthTimeout | scripts/dev.mjs:128-134 | always positive: the configured number when it is finite and positive, else 120000 |
| DevEnv.PreferredFrontendPort | scripts/dev.mjs:136-137 | always positive: FRONTEND_PORT, then PORT, then "3000", as a number when finite and positive, else 3000 |
| Base64.SextetValue | backend/src/main/java/com/pasarela/application/MerchantService.java:99 | a character's value, when it is in the alphabet, maps back to that character |
| Base64.SextetRoundTrip | backend/src/main/java/com/pasarela/application/MerchantService.java:99 | every 6-bit value's character reads back as that value |
| Base64.Unpadded | backend/src/main/java/com/pasarela/application/MerchantService.java:99 | ceil(4n/3) characters, all from the alphabet |
| Base64.PaddedLength | backend/src/main/java/com/pasarela/application/WebhookService.java:220 | padding completes the last group of four |
| Base64.Encode | backend/src/main/java/com/pasarela/application/MerchantService.java:99 | the encoded length, and only alphabet characters plus the '=' of padding (also WebhookService.java:220) |
| Base64.Decode | backend/src/main/java/com/pasarela/infrastructure/crypto/AesGcmCrypto.java:57-58 | a length of 1 modulo 4 is refused, and n characters decode to floor(3n/4) bytes |
| Base64.JdkDecode | backend/src/main/java/com/pasarela/config/CryptoConfig.java:22 | padding is accepted only to complete a group of four, and the decoded length is floor(3n/4) less at most two (also WebhookService.java:141) |
| Base64.DecodeEncode | backend/src/main/java/com/pasarela/infrastructure/crypto/AesGcmCrypto.java:42-58 | decoding unpadded text gives the bytes back |
| Base64.JdkDecodeEncode | backend/src/main/java/com/pasarela/infrastructure/crypto/AesGcmCrypto.java:57-58 | the JDK decoder inverts both padded and unpadded encoding |
| Base64.ShapePadding | scripts/dev.mjs:89-90 | a text of the right shape has exactly its trailing '=' as padding |

## Findings

| source | as written | input that shows it | evidently intended | confidence | as-written member | corrected member |
|---|---|---|---|---|---|---|
| backend/src/main/java/com/pasarela/application/routing/ProviderHealthService.java:77-96 | the sanitized payload is built with `Map.of(..., "errorType", errorType)`; `Map.of` rejects a null value, and the exception is swallowed; every successful session passes a null errorType, so its event is saved with no payload and its latency is lost, and p95 stays 0 | a successful STRIPE session of 120 ms recorded into an empty log: p95 is 0 | the latency and outcome are recorded whatever the error type, so p95 is drawn from the latencies of successful sessions (120 here) | not executed | Health.AsWrittenLosesLatency | Health.IntendedKeepsLatency |
| backend/src/main/java/com/pasarela/config/CorsConfig.java:57-74 | `origin` brackets any host containing ':', but `URI.getHost` already returns an IPv6 literal in brackets; `isLocalHost` compares that bracketed host with "::1" | frontend base URL "http://[::1]:3000": the only allowed origin is "http://[[::1]]:3000" | the host is rendered in single brackets, and the IPv6 loopback counts as local, which allows its own origin and the other two local spellings | not executed | Cors.LoopbackV6AsWritten | Cors.LoopbackV6Corrected |

## Left out

- Webhooks.WebhookService.HandleAdyen: the Base64 decoder is a parameter that carries its own refusal message, which becomes the IllegalArgumentException passed on; the JDK texts ("Illegal base64 character " and the character in hex, the last-unit messages) are not derived from `Base64.JdkDecode`, which says only whether a text decodes.
- HTTP controllers, security filters, authentication (bcrypt, JWT, API-key lookup), request-id MDC handling and the exception handler: these are framework plumbing around the modelled services.
- Network I/O: the Stripe SDK calls, the WebClient exchanges with Adyen and the Mastercard gateway, and their 12-second timeouts. Each call is a function parameter (`create`, `sessionCall`, `refundCall`) that returns a result or a provider exception.
- Cryptographic primitives: the SHA-256 digest (FIPS 180-4), HMAC-SHA256 (RFC 2104), AES-GCM and SecureRandom are parameters or inputs. Only the framing, hex, comparison and length logic around them is modelled.
- JSON (Jackson): the routing-score breakdown, the demo-routing JSON, the request-hash JSON and the sanitized event payloads are produced by writer functions passed in. The merchant routing configuration is read by a parser function passed in, and the event latency through a partial reader.
- The `payloadForHash` argument of the health recorder ("req:" plus the request id, "demo:" plus the request id) and the payload hash of a stored event: events carry provider, intent, type, sanitized payload and time only. Logging is left out as well.
- Transactions: `create`, `reroute`, `refund` and the demo operations are `@Transactional`, so an exception raised after writes rolls those writes back in the database. The model shows the writes in the order the methods make them, with no rollback.
- `saveAndFlush` and JPA lifecycle hooks: a save is a replace-or-append on the table; `createdAt` of a new intent is the `now` of the call, and `updatedAt` is not modelled.
- Concurrency: the registry's double-checked lazy initialisation (volatile and synchronized), the concurrent read-modify-write of a health snapshot, and the race between the idempotency lookup and its insert.
- Floating point: scores, rates and the 1e-6 tie epsilon are exact `real` values, and `ceil(0.95 n)` is an integer ceiling; no claim is made of agreement with IEEE doubles.
- The clock and timers: `Instant.now()` and `System.nanoTime()` are the inputs `now` and `latencyMs`. Fresh UUIDs are inputs too; that a new intent id is not already in the table is a precondition of `Create`, `Reroute` and `CreateInternal`.
- PaymentIntents.PaymentIntentService.DemoAct: `demoAuthorize` and `demoCancel` are one method with an action argument, because they share every step except the settled status and the event payload.
- `PaymentIntentService.get` and `list`, `MerchantService`'s plain lookups and the registry's map view are direct repository or map lookups: they are `IntentRepository.FindByIdAndMerchantId`, `IntentRepository.Search` and the registry's index, with no member of their own.
- The `session == null` test of `createInternal` cannot succeed in the model: a session call either returns a result or raises.
- The frontend (pages, checkout components, the fetch wrapper, local storage, the forwarding proxy): it is user-interface and network code.
- `scripts/dev.mjs` side effects: spawning processes, probing ports, polling health, handling signals, touching files, and generating a JWT secret. Only its pure helpers and the env merge are modelled, and Node's `Buffer` base64 decoder is modelled by the length it yields.
- JavaString: case mapping (`toUpperCase`, `toLowerCase`, `equalsIgnoreCase`) is modelled for ASCII letters only; the gateway applies it to currency codes, modes, booleans and event names.
- PaymentIntents.Env: the status, availability and routing collaborators of the payment-intent service are functions of the merchant, the request and the excluded set; they do not read the health tracker that the same service updates. So a circuit opened by a recorded session failure is not seen by the fallback's availability check or routing decision, and the snapshot rows that `getSnapshot` creates for providers without one when routing reads them are not added to the service's tracker. `Availability.AvailableProviders`, `Routing.Decide` and `Health.HealthTracker.GetSnapshot` model those reads on their own.
- Cors.ResolveAllowedOrigins: takes the frontend base URL itself, so the NullPointerException that CorsConfig.java:29 raises at start-up when the `frontend` properties record is absent is not modelled.
- PaymentIntents.RequestHash: the digest is a parameter, so the contract states only the hex length of the recorded hash.
- PaymentIntents.RequestHashText: when both description and preference are present the text is whatever the JSON writer passed in produces, so the contract pins down only the fallback form.
- Domain.ProviderName: the contract states only that every name is non-empty; its link to the constants is stated by Domain.ProviderValueOf.
- Domain.ToProvider: AUTO gives `None` where the source throws `IllegalStateException`; every caller tests for AUTO before calling it.
