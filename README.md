# PerfectPay payment core in Dafny

This project models the backend core of PerfectPay, a cross-border payment service, and proves
properties of the model. It covers these parts:

- **Fraud** models the rule-based fraud engine. A class holds four per-user histories. Seven bounded
  rules are summed, capped at 100 and mapped to a risk level, an action and a recommendation.
- **Providers** models the payment service providers (PSPs): the abstract base class and the
  Stripe, Wise, PayPal and İyzico adapters. It covers the commission, FX markup and cost-score
  formulas, the configuration tables, the validators, the risk heuristics and the effect of
  `processPayment` on a provider's live metrics.
- **PluginStore** models the provider registry. It covers registration by name, the active filter,
  the status toggle, the per-provider counters, the append-only history with its "last N, newest
  first" query, and the routing mode.
- **Routing** models the optimal routing engine. It covers candidate filtering, cost scoring, the
  geo table and its variance, mode weighting, the stable ascending sort, and the choice of the
  optimal provider and up to three alternatives.
- **Orchestration** models the money-transfer pipeline, the card-payment pipeline, the blacklist
  decision and the smart receipt.
  - The transfer runs: blacklist, pending row, fraud check, fraud history, routing or override,
    provider, completed row, registry record, receipt.
  - The database rows form a small table object. Each statement's success is an input.
- **MultiCard** models the multi-card split optimizer in integer cents. It covers the proportional,
  fee-optimal and equal strategies, fee estimation, the decision table and split execution.
- **Receipts** models receipt derivation, global `{{key}}` placeholder substitution and the JSON view.
- **Formatting** holds the JavaScript numeric primitives the model needs, stated exactly:
  `Math.round`, ECMAScript ToInt32, `Number.prototype.toFixed` on exact numbers, and decimal
  integer text.
- **Sorting** holds the stable sort used for `Array.prototype.sort` with a numeric comparator.
- **Wrappers** holds `Option` and `Result`.

Amounts, scores and rates are exact `real`s. The multi-card optimizer works in integer cents, and
its fee rates are per mille. JavaScript's `undefined` for an optional field is `None`, and a
thrown error is an `Err` carrying its message.

The surroundings are inputs, each a parameter of the operation that uses it:

- the clock, the local hour and the random draws;
- the simulated provider outcome and its latency;
- `Math.sin`, as a function bounded by ±1;
- the outcome of each database statement and of the blacklist queries;
- the receipt template and the rendered date.

## Model

| member | source | states |
|---|---|---|
| Formatting.RoundHalfUp | backend/src/services/MultiCardOptimizer.js:261 | `Math.round(n/d)`: the nearest integer, halves rounded up |
| Formatting.ToInt32 | backend/src/routing/OptimalRoutingEngine.js:158-161 | the 32-bit two's-complement value of `a & a`, in [-2^31, 2^31) and congruent to the input modulo 2^32 |
| Formatting.ToInt32Congruent | backend/src/routing/OptimalRoutingEngine.js:158-161 | ToInt32 depends only on the value modulo 2^32 |
| Formatting.NatToString | backend/src/psp/StripePSP.js:59 | the decimal text of a clock reading: digits only, no leading zero |
| Formatting.NatToStringRoundTrip | backend/src/psp/StripePSP.js:59 | reading the decimal text back gives the number |
| Formatting.NatToStringInjective | backend/src/psp/StripePSP.js:59 | different clock readings give different transaction id suffixes |
| Formatting.ToFixed | backend/src/services/ReceiptGenerator.js:143 | `toFixed(f)`: at least f+1 characters, a leading '-' exactly for negative numbers |
| Formatting.FixedValue | backend/src/services/ReceiptGenerator.js:143 | the value shown by `toFixed(f)` is within half a unit of the last place of the input |
| Formatting.ParseToFixed | backend/src/services/PaymentOrchestrationService.js:743-745 | `parseFloat(x.toFixed(f))` is the rounded value of x |
| Formatting.RefixedText | backend/src/services/PaymentOrchestrationService.js:743-745 | re-fixing a parsed fixed text gives the same text, except that a negative number that rounds to zero becomes "0.00" |
| Formatting.ScaledOfExact | backend/src/services/PaymentOrchestrationService.js:743-745 | rounding a number that already has f decimals does not change it |
| Formatting.ZeroToFixed | backend/src/services/PaymentOrchestrationService.js:743-745 | zero shown with two decimals is "0.00" |
| Formatting.FixedDigitsValue | backend/src/services/ReceiptGenerator.js:143 | the digit text of a scaled integer parses to the integer divided by 10^f |
| Formatting.DigitsValueAppend | backend/src/services/ReceiptGenerator.js:143 | the value of concatenated digit strings is the first value shifted by the second's length plus the second value |
| Fraud.Lookup | backend/src/fraud/FraudDetectionEngine.js:38-40 | `Map.has`/`get`: present exactly for stored users, with the stored value |
| Fraud.Window | backend/src/fraud/FraudDetectionEngine.js:462-465 | push then shift once over the cap: at most cap entries, the newest kept last, nothing dropped below the cap |
| Fraud.RecentCount | backend/src/fraud/FraudDetectionEngine.js:126-129 | the number of stored timestamps within 5 minutes is at most the number stored |
| Fraud.RecentCountAppend | backend/src/fraud/FraudDetectionEngine.js:126-129 | appending a timestamp adds one to the recent count exactly when it is within 5 minutes |
| Fraud.RecentCountAllRecent | backend/src/fraud/FraudDetectionEngine.js:126-129 | when every stored timestamp is recent, the count is the history length |
| Fraud.VelocityResult | backend/src/fraud/FraudDetectionEngine.js:131-165 | counts 0..3 score 0/10/20/35; above 3 scores 100 with suspension and logout; a violation exactly for a positive count |
| Fraud.VelocityMonotone | backend/src/fraud/FraudDetectionEngine.js:131-165 | more recent transactions never lower the velocity score |
| Fraud.VelocityRule | backend/src/fraud/FraudDetectionEngine.js:120-166 | a user with no history scores 0; otherwise the score of the recent count |
| Fraud.MaxOf | backend/src/fraud/FraudDetectionEngine.js:223-229 | `Math.max` of the stored amounts: an upper bound that occurs among them |
| Fraud.RatioExceedsPositive | backend/src/fraud/FraudDetectionEngine.js:197-221 | with a positive average, `amount / avg > k` is `amount > k * avg` |
| Fraud.AmountResult | backend/src/fraud/FraudDetectionEngine.js:172-232 | no stored amounts scores 0; logout exactly when ≥3 stored and the amount exceeds 3× the mean of the last three (score 100); otherwise 25 exactly when amount/average > 5, 15 exactly when it is above 3 and not above 5, 8 exactly when it is not above 3 and the amount exceeds 1.5× the maximum; 8 without a violation; a violation exactly for 15 and more |
| Fraud.AmountScoresByMean | backend/src/fraud/FraudDetectionEngine.js:197-232 | with positive stored amounts the average is positive and the scores read as comparisons with it: 25 above 5×, 15 in (3×, 5×], 8 up to 3× but above 1.5× the maximum, 0 otherwise |
| Fraud.Distance | backend/src/fraud/FraudDetectionEngine.js:439-453 | 0 exactly for the same country; otherwise one of the table distances or the 5000 km default |
| Fraud.GeoResult | backend/src/fraud/FraudDetectionEngine.js:255-290 | 30 exactly when the distance exceeds 1000 km and is faster than 900 km/h; 15 exactly when not so, the country changed and the distance exceeds 5000 km (6500 or 9500 in the table); 0 for the same country; never a logout |
| Fraud.GeoRule | backend/src/fraud/FraudDetectionEngine.js:237-291 | the first sighting and an empty list score 0; otherwise the result against the last stored location |
| Fraud.GeoHistoryAfter | backend/src/fraud/FraudDetectionEngine.js:238-267 | every call appends the current location; below 50 entries nothing is dropped; the list never exceeds 50 |
| Fraud.DeviceResult | backend/src/fraud/FraudDetectionEngine.js:302-331 | unknown device and IP 20, new device on known IP 10, known device on new IP 8, else 0; a violation exactly for a positive score |
| Fraud.DeviceRule | backend/src/fraud/FraudDetectionEngine.js:296-331 | a first sighting scores 0; otherwise the device/IP table against the stored pairs |
| Fraud.HighRiskCountries | backend/src/fraud/FraudDetectionEngine.js:336-358 | 15 exactly when one side is KP, IR or SY and the other is US; otherwise 0 |
| Fraud.HighRiskSymmetric | backend/src/fraud/FraudDetectionEngine.js:343-347 | the country rule is symmetric in sender and recipient |
| Fraud.CardVelocity | backend/src/fraud/FraudDetectionEngine.js:363-380 | 20 exactly for a card number with more than 3 recent uses, else 0 |
| Fraud.RecentCardUses | backend/src/fraud/FraudDetectionEngine.js:369 | the placeholder count is 0 or 1 |
| Fraud.CardVelocityNeverScores | backend/src/fraud/FraudDetectionEngine.js:363-380 | the card-velocity rule never scores |
| Fraud.AbnormalTime | backend/src/fraud/FraudDetectionEngine.js:385-398 | 10 exactly for a local hour in [2,5] |
| Fraud.DetermineAction | backend/src/fraud/FraudDetectionEngine.js:403-411 | APPROVE up to 30, VERIFY up to 70, DECLINE above |
| Fraud.GetRiskLevel | backend/src/fraud/FraudDetectionEngine.js:416-420 | LOW up to 30, MEDIUM up to 70, HIGH above |
| Fraud.LevelMatchesAction | backend/src/fraud/FraudDetectionEngine.js:403-420 | LOW goes with APPROVE, MEDIUM with VERIFY and HIGH with DECLINE |
| Fraud.Combine | backend/src/fraud/FraudDetectionEngine.js:42-113 | the score is the rule sum capped at 100; the breakdown, the violations in rule order, logout from rules 1–2, and the level, action and recommendation of the capped score |
| Fraud.VelocityForcesDecline | backend/src/fraud/FraudDetectionEngine.js:131-139 | more than three recent transactions give score 100, HIGH, DECLINE and logout whatever the other rules say |
| Fraud.AmountSpikeForcesDecline | backend/src/fraud/FraudDetectionEngine.js:178-195 | an amount above 3× the mean of the last three gives score 100, DECLINE and logout |
| Fraud.NewUserScoresZero | backend/src/fraud/FraudDetectionEngine.js:20-114 | an unseen user at a normal hour and outside the high-risk pairs scores 0 with no violations and is approved |
| Fraud.FraudDetectionEngine.constructor | backend/src/fraud/FraudDetectionEngine.js:4-14 | all four histories start empty |
| Fraud.FraudDetectionEngine.CheckRapidTransactions | backend/src/fraud/FraudDetectionEngine.js:120-166 | returns the velocity rule on the stored timestamps; creates an empty entry for a new user and changes nothing else |
| Fraud.FraudDetectionEngine.CheckGeolocationAnomaly | backend/src/fraud/FraudDetectionEngine.js:237-291 | returns the geolocation rule and stores the user's appended, capped location list |
| Fraud.FraudDetectionEngine.CheckDeviceMismatch | backend/src/fraud/FraudDetectionEngine.js:296-331 | returns the device rule; stores the pair only on the first sighting |
| Fraud.FraudDetectionEngine.AssessRisk | backend/src/fraud/FraudDetectionEngine.js:20-114 | the assessment of the histories before the call; the caller's second argument is ignored; the whole new state of the four histories: a new user's empty timestamp window, the current location appended to the capped list, a new user's first device pair, amounts untouched |
| Fraud.FraudDetectionEngine.RecordTransaction | backend/src/fraud/FraudDetectionEngine.js:455-477 | appends timestamp and amount to the user's windows of 100; locations and devices unchanged |
| Fraud.AssessedFeedsNextGeo | backend/src/fraud/FraudDetectionEngine.js:237-267 | after an assessment the user's next geolocation check compares against this call's location |
| Fraud.AssessedFeedsNextDevice | backend/src/fraud/FraudDetectionEngine.js:293-331 | after an assessment the user's next device check compares against the first pair ever stored, which is this call's pair for a new user |
| Fraud.AssessedKeepsOthers | backend/src/fraud/FraudDetectionEngine.js:20-114 | an assessment leaves every other user's timestamps, locations and devices as they were, and stores no amount |
| Fraud.FraudDetectionEngine.ClearUserHistory | backend/src/fraud/FraudDetectionEngine.js:482-496 | removes exactly that user from all four maps |
| Fraud.RecordRaisesRecentCount | backend/src/fraud/FraudDetectionEngine.js:455-477 | recording a recent transaction below the cap raises the next velocity count by one |
| Providers.OrNumber | backend/src/psp/PaymentServiceProvider.js:8-11 | `x \|\| d`: the default exactly when the value is missing or zero |
| Providers.EffectiveRule | backend/src/psp/PaymentServiceProvider.js:26-33 | the rule for the currency when one is listed, else the `default` rule when there is one, with falsy parts replaced by 2.9 and 0.3 |
| Providers.FxMarkup | backend/src/psp/PaymentServiceProvider.js:78-90 | 2.5 exactly for TRY to USD or EUR, 1.5 exactly between USD and EUR, otherwise 2.0 |
| Providers.Cap | backend/src/psp/StripePSP.js:95-106 | `Math.min(risk, limit)` |
| Providers.AdapterCommissionTable | backend/src/psp/WisePSP.js:20-30 | each adapter's effective commission per currency, read off its rule table |
| Providers.NextLatency | backend/src/psp/PaymentServiceProvider.js:92-100 | the averaged latency lies between the old average and the new sample |
| Providers.NextSuccessRate | backend/src/psp/PaymentServiceProvider.js:92-100 | a rate in [0,100] stays there; success never lowers it and failure never raises it |
| Providers.FailuresDecay | backend/src/psp/PaymentServiceProvider.js:92-100 | n failures in a row multiply the success rate by 0.7^n |
| Providers.StripeCardBrand | backend/src/psp/StripePSP.js:87-93 | first digit 4/5/3 gives Visa/Mastercard/Amex, anything else Unknown |
| Providers.StripeRisk | backend/src/psp/StripePSP.js:95-106 | 0 up to 5000, 20 up to 10000, 50 above; never above 100 |
| Providers.PayPalRisk | backend/src/psp/PayPalPSP.js:50-54 | "medium" exactly above 10000, otherwise "low"; "high" is never returned |
| Providers.IyzicoCardBrand | backend/src/psp/IyzicoPSP.js:88-94 | first digit 4/5/9 gives Visa/Mastercard/Troy, anything else Other |
| Providers.IsLocalCard | backend/src/psp/IyzicoPSP.js:96-100 | true exactly when the first digit is 9 |
| Providers.IyzicoRisk | backend/src/psp/IyzicoPSP.js:102-113 | 15 for a non-local card plus 10 above 5000 plus 20 above 10000; at most 45 |
| Providers.Contains | backend/src/psp/PayPalPSP.js:23-28 | `includes('@')` is membership of the character |
| Providers.Provider.FromConfig | backend/src/psp/PaymentServiceProvider.js:3-12 | the base constructor: missing currencies and rules become empty, priority defaults to 50, always active, latency 0, success rate 100 |
| Providers.Provider.Adapter | backend/src/psp/StripePSP.js:4-18 | an adapter is built with its own name, currencies, rules and initial latency, active and at success rate 100 |
| Providers.Provider.GetCommission | backend/src/psp/PaymentServiceProvider.js:26-33 | amount × percentage / 100 + fixed, from the effective rule of the currency |
| Providers.Provider.CalculateCostScore | backend/src/psp/PaymentServiceProvider.js:35-76 | total = commission (keyed on the source currency) + FX cost (0 for equal currencies, else amount × rate × markup / 100) + latency/100 + 2 × (100 − success rate) |
| Providers.Provider.GetExchangeRate | backend/src/psp/StripePSP.js:74-85 | the base class throws; an adapter returns its table rate, or 1.0 for an unlisted pair; never zero or negative |
| Providers.Provider.ValidateTransaction | backend/src/psp/StripePSP.js:20-38 | each adapter's required fields and currency check with its error texts; on success the brand, risk or account type it reports; the base class throws |
| Providers.Provider.UpdateMetrics | backend/src/psp/PaymentServiceProvider.js:92-100 | latency := (latency + sample) / 2 and rate := 0.7 × rate + 0.3 × (100 or 0) |
| Providers.Provider.ProcessPayment | backend/src/psp/StripePSP.js:40-72 | the base class throws and leaves the metrics; an adapter updates the metrics exactly once (latency on success, elapsed time on failure) and returns its id and latency or rethrows its failure text |
| Providers.AdapterPriorities | backend/src/psp/StripePSP.js:9-17 | the adapters' priorities are 80, 85, 70 and 90 |
| Providers.CurrencyCoverage | backend/src/psp/IyzicoPSP.js:6-8 | Stripe cannot take TRY, İyzico takes exactly TRY/USD/EUR, Wise and PayPal take TRY |
| PluginStore.Bump | backend/src/psp/PSPPluginStore.js:77-85 | one more transaction, success or failure counted, volume increased by the amount |
| PluginStore.MetricsAfter | backend/src/psp/PSPPluginStore.js:76-93 | only a registered provider's counters change; successful + failed = total is kept |
| PluginStore.SuccessPercent | backend/src/psp/PSPPluginStore.js:87-91 | successful / total × 100 lies in [0,100] |
| PluginStore.SuccessRateText | backend/src/psp/PSPPluginStore.js:87-92 | the stored rate text is non-negative and within 0.005 of the exact percentage |
| PluginStore.Reverse | backend/src/psp/PSPPluginStore.js:101 | `reverse()`: the same length, entries in opposite order |
| PluginStore.LastReversed | backend/src/psp/PSPPluginStore.js:100-102 | `slice(-n).reverse()`: the last n entries (all for n = 0), newest first |
| PluginStore.NewAdapter | backend/src/psp/PSPPluginStore.js:15-27 | a fresh, active adapter of the requested kind under its own name |
| PluginStore.DefaultOrder | backend/src/psp/PSPPluginStore.js:15-27 | the defaults are registered as Stripe, Wise, PayPal, İyzico, each with zeroed counters |
| PluginStore.DefaultProviders | backend/src/psp/PSPPluginStore.js:15-27 | each default name maps to the adapter of that kind |
| PluginStore.PSPPluginStore.constructor | backend/src/psp/PSPPluginStore.js:8-13 | the four defaults registered in order, active, with fresh counters, empty history and no mode |
| PluginStore.PSPPluginStore.RegisterPSP | backend/src/psp/PSPPluginStore.js:29-39 | overwrites by name, resets that provider's counters (rate 100), keeps the registration order |
| PluginStore.PSPPluginStore.GetPSP | backend/src/psp/PSPPluginStore.js:41-43 | the registered provider, or none for an unknown name |
| PluginStore.PSPPluginStore.ActiveAmong | backend/src/psp/PSPPluginStore.js:45-47 | exactly the active providers among the given names, only active ones, at most one per name; one name gives its provider exactly when it is active |
| PluginStore.PSPPluginStore.ActiveAmongRegistered | backend/src/psp/PSPPluginStore.js:45-47 | every listed provider is the one registered under some given name |
| PluginStore.PSPPluginStore.ActiveAmongAppend | backend/src/psp/PSPPluginStore.js:45-47 | `filter` keeps order: the active providers of a concatenation are those of each part, in order |
| PluginStore.PSPPluginStore.ActiveAmongDistinct | backend/src/psp/PSPPluginStore.js:45-47 | distinct names whose providers carry their own names give a list without duplicates |
| PluginStore.PSPPluginStore.ActiveProviders | backend/src/psp/PSPPluginStore.js:45-47 | exactly the registered providers whose flag is set, each once |
| PluginStore.PSPPluginStore.ActiveProvidersInOrder | backend/src/psp/PSPPluginStore.js:45-47 | insertion order (the `Object.values` order for names that are not integer-like): at any point of the registration order, the active providers registered before it come first, then those after it |
| PluginStore.PSPPluginStore.SummariesOf | backend/src/psp/PSPPluginStore.js:49-58 | one summary per name, in order |
| PluginStore.PSPPluginStore.GetPSPList | backend/src/psp/PSPPluginStore.js:49-58 | one summary per registered provider in registration order, with its live fields |
| PluginStore.PSPPluginStore.UpdatePSPStatus | backend/src/psp/PSPPluginStore.js:60-67 | an unknown name is an error and changes nothing; a known name changes only that provider's flag |
| PluginStore.PSPPluginStore.RecordTransaction | backend/src/psp/PSPPluginStore.js:69-94 | appends exactly one history entry and updates the counters of a registered provider only |
| PluginStore.PSPPluginStore.GetTransactionHistory | backend/src/psp/PSPPluginStore.js:100-102 | the last n entries (50 by default), newest first, without changing the history |
| PluginStore.PSPPluginStore.EnablePSPMode | backend/src/psp/PSPPluginStore.js:104-107 | stores the mode, "balanced" when none is given |
| PluginStore.PSPPluginStore.GetCurrentMode | backend/src/psp/PSPPluginStore.js:109-111 | the stored mode, "balanced" when none or empty |
| PluginStore.NewestFirst | backend/src/psp/PSPPluginStore.js:100-102 | after a record, the history read with any positive limit starts with the new entry |
| Routing.Mode | backend/src/routing/OptimalRoutingEngine.js:17 | the user mode, "balanced" by default |
| Routing.GeoBase | backend/src/routing/OptimalRoutingEngine.js:133-154 | the geo adjustment lies in [-20, 0] and is 0 for a provider without a table |
| Routing.GeoWise | backend/src/routing/OptimalRoutingEngine.js:114-131 | Wise's lookup equals the reference definition of the table |
| Routing.GeoIyzico | backend/src/routing/OptimalRoutingEngine.js:114-131 | İyzico's lookup equals the reference definition of the table |
| Routing.GeoStripe | backend/src/routing/OptimalRoutingEngine.js:114-131 | Stripe's lookup equals the reference definition of the table |
| Routing.GeoBaseByProvider | backend/src/routing/OptimalRoutingEngine.js:133-154 | lookup order exact pair, `src-*`, `*-dst`, `international` (only for different countries), else 0, for every provider |
| Routing.HashStep | backend/src/routing/OptimalRoutingEngine.js:159-160 | one fold step stays a 32-bit integer |
| Routing.HashStepIsTimes31 | backend/src/routing/OptimalRoutingEngine.js:159-160 | `((a << 5) - a + c) & …` is 31·a + c wrapped to 32 bits |
| Routing.NameHash | backend/src/routing/OptimalRoutingEngine.js:158-161 | the name hash is a 32-bit integer |
| Routing.Variance | backend/src/routing/OptimalRoutingEngine.js:162-163 | the variance lies within ±3 |
| Routing.GeoScore | backend/src/routing/OptimalRoutingEngine.js:113-166 | the table adjustment plus the variance; within [-23, 3] |
| Routing.ApplyModeWeighting | backend/src/routing/OptimalRoutingEngine.js:171-188 | cheap 1.5 × total, fast 2.5 × latency + 0.3 × total, otherwise the adjusted score |
| Routing.GeoIgnoredOutsideBalanced | backend/src/routing/OptimalRoutingEngine.js:171-188 | in cheap and fast modes the geo adjustment has no effect |
| Routing.GetRecommendation | backend/src/routing/OptimalRoutingEngine.js:193-215 | an unlisted provider gets the generic text with its total cost |
| Routing.CandidateFor | backend/src/routing/OptimalRoutingEngine.js:30-70 | a candidate's breakdown, adjusted score (total + geo) and weighted score |
| Routing.Candidates | backend/src/routing/OptimalRoutingEngine.js:24-71 | at most one candidate per provider |
| Routing.CandidatesFailurePersists | backend/src/routing/OptimalRoutingEngine.js:24-71 | a thrown rate lookup ends the scoring with that error |
| Routing.SupportingNamesFromProviders | backend/src/routing/OptimalRoutingEngine.js:24-29 | every supporting name is a provider's name |
| Routing.Names | backend/src/routing/OptimalRoutingEngine.js:89-96 | the provider names of the candidates, in order |
| Routing.CandidatesAreSupporting | backend/src/routing/OptimalRoutingEngine.js:24-29 | the candidates are exactly the providers supporting the destination currency, in order |
| Routing.AdaptersAlwaysRate | backend/src/routing/OptimalRoutingEngine.js:30-38 | scoring adapters never fails |
| Routing.Route | backend/src/routing/OptimalRoutingEngine.js:73-107 | errors propagate; no candidate gives "No suitable PSP found…"; otherwise all candidates sorted by weighted score, the first optimal and the next three as alternatives |
| Routing.RouteOptimalIsCheapest | backend/src/routing/OptimalRoutingEngine.js:82-96 | the sorted list is a permutation of the candidates and the optimal has the least weighted score |
| Routing.RouteFailsOnlyWithoutSupport | backend/src/routing/OptimalRoutingEngine.js:73-80 | with adapters, routing fails exactly when no provider supports the currency, with the no-suitable error |
| Routing.CandidatesFailOnlyOnBaseRate | backend/src/routing/OptimalRoutingEngine.js:30-38 | the only scoring error is the base class's unimplemented exchange rate |
| Routing.CandidatesExtend | backend/src/routing/OptimalRoutingEngine.js:24-71 | one loop step: skip, fail, or append the provider's candidate |
| Routing.ScoreProviders | backend/src/routing/OptimalRoutingEngine.js:24-71 | the loop computes the candidate list |
| Routing.SelectOptimalPSP | backend/src/routing/OptimalRoutingEngine.js:10-107 | the analysis of the registry's active providers |
| Routing.GetNextAlternative | backend/src/routing/OptimalRoutingEngine.js:220-233 | echoes the failed provider and the reason with the time; selects nothing |
| Sorting.SortBySortedPermutation | backend/src/routing/OptimalRoutingEngine.js:82-87 | the sort is ascending and a permutation of its input |
| Sorting.SortByStable | backend/src/routing/OptimalRoutingEngine.js:82-87 | elements with equal keys keep their input order |
| Sorting.SortByHeadIsMinimal | backend/src/routing/OptimalRoutingEngine.js:82-87 | the first element has the least key |
| Sorting.InsertSorted | backend/src/routing/OptimalRoutingEngine.js:82-87 | inserting into a sorted list keeps it sorted |
| Sorting.InsertPermutation | backend/src/routing/OptimalRoutingEngine.js:82-87 | inserting adds exactly the element |
| Receipts.Derive | backend/src/services/ReceiptGenerator.js:116-155 | fails exactly when the amount is missing (`amount.toFixed` throws) |
| Receipts.DerivedFields | backend/src/services/ReceiptGenerator.js:117-155 | each given currency, provider and e-mail passes through, a missing one defaults to TRY/USD/Unknown/N/A; rate 1 and commission 0 by default; amounts to 2 decimals and the rate to 4; total received = (amount − commission) × rate; success exactly for 'completed' or 'success', selecting class, icon and text |
| Receipts.DefaultsShowSuccess | backend/src/services/ReceiptGenerator.js:117-132 | with only an amount the receipt shows success, rate 1.0000, commission 0.00 and receives the whole amount |
| Receipts.Pairs | backend/src/services/ReceiptGenerator.js:134-158 | one pair per receipt key, in key order |
| Receipts.Placeholder | backend/src/services/ReceiptGenerator.js:159 | `{{key}}` |
| Receipts.ExpandLiteral | backend/src/services/ReceiptGenerator.js:160 | a replacement value without '$' is inserted literally |
| Receipts.NoOccurrenceFrom | backend/src/services/ReceiptGenerator.js:159-160 | scanning from any position, a text with no occurrence of the pattern comes back unchanged |
| Receipts.NoOccurrenceUnchanged | backend/src/services/ReceiptGenerator.js:159-160 | a global replace without occurrence changes nothing |
| Receipts.PlaceholderDistinct | backend/src/services/ReceiptGenerator.js:159-160 | one key's placeholder never contains another's |
| Receipts.PlaceholderReplaced | backend/src/services/ReceiptGenerator.js:159-160 | a placeholder is replaced by its value with the `$$`, `$&`, `` $` `` and `$'` patterns expanded; a value without '$' is inserted as is |
| Receipts.MatchPatternReinsertsPlaceholder | backend/src/services/ReceiptGenerator.js:159-160 | a value holding `$&` puts the matched placeholder back into the output |
| Receipts.OtherKeysLeavePlaceholder | backend/src/services/ReceiptGenerator.js:157-161 | other keys leave a placeholder alone |
| Receipts.PlaceholderRendersValue | backend/src/services/ReceiptGenerator.js:157-161 | with distinct keys and values free of '{' and '$', each placeholder renders as its value |
| Receipts.ReceiptKeysWellFormed | backend/src/services/ReceiptGenerator.js:134-155 | the receipt keys are distinct and brace-free |
| Receipts.ReceiptOf | backend/src/services/ReceiptGenerator.js:116-168 | fails exactly without an amount; otherwise the input id unchanged, the derived data and the substituted template |
| Receipts.ReceiptFieldRendered | backend/src/services/ReceiptGenerator.js:157-167 | a template holding one placeholder renders that field's value, when no field value contains '{' or '$' |
| Receipts.ValueOf | backend/src/services/ReceiptGenerator.js:157-161 | a key has no value exactly when no pair names it; otherwise its value is that of its first pair |
| Receipts.ReplaceFromLiteral | backend/src/services/ReceiptGenerator.js:160 | for a value without '$' the global replace from a position depends only on the text still to scan |
| Receipts.LiteralPrefix | backend/src/services/ReceiptGenerator.js:160 | literal text (no "{{", no '{' at its end) in front of the rest passes through the replace of a placeholder unchanged |
| Receipts.HoleReplaced | backend/src/services/ReceiptGenerator.js:160 | a placeholder of the key at the front becomes the value |
| Receipts.HoleKept | backend/src/services/ReceiptGenerator.js:160 | a placeholder of another key at the front passes through unchanged |
| Receipts.ReplacePieces | backend/src/services/ReceiptGenerator.js:159-160 | replacing one key's placeholder over a whole template fills exactly that key's holes and keeps the literal text and the other holes |
| Receipts.FilledWellFormed | backend/src/services/ReceiptGenerator.js:157-161 | filling holes with values free of '{' and '$' leaves a template of literal text and brace-free holes |
| Receipts.TemplateRendered | backend/src/services/ReceiptGenerator.js:157-161 | any template of literal text and placeholders renders as that template with each placeholder whose key has a value replaced by the key's first value, and the other placeholders kept |
| Receipts.ReceiptTemplateRendered | backend/src/services/ReceiptGenerator.js:157-167 | a whole receipt template renders each of its placeholders as the receipt field of that key, when no field value contains '{' or '$' |
| Receipts.SubstituteAll | backend/src/services/ReceiptGenerator.js:157-161 | the loop substitutes every key in order |
| Receipts.GenerateReceipt | backend/src/services/ReceiptGenerator.js:116-168 | returns the receipt of the template and input |
| Receipts.GetReceiptAsJSON | backend/src/services/ReceiptGenerator.js:196-205 | format HTML, the given time, and the same id, data and html as `generateReceipt` |
| MultiCard.Lower | backend/src/services/MultiCardOptimizer.js:277 | `toLowerCase` on ASCII letters, character by character |
| MultiCard.LowerIdempotent | backend/src/services/MultiCardOptimizer.js:277 | lower-casing twice is lower-casing once |
| MultiCard.TypeRate | backend/src/services/MultiCardOptimizer.js:267-278 | the rate table by lower-cased type: amex 3.5% exactly, debit 1.5% exactly, wallet 1% exactly, 2.9% exactly for a missing or any other type |
| MultiCard.FeeRate | backend/src/services/MultiCardOptimizer.js:267-278 | the card's rate: amex 3.5%, debit 1.5%, wallet 1%, else 2.9%, each an if-and-only-if on the lower-cased type |
| MultiCard.FeeRateCaseInsensitive | backend/src/services/MultiCardOptimizer.js:277 | the rate ignores the case of the card type |
| MultiCard.FixedFee | backend/src/services/MultiCardOptimizer.js:260 | the card's fixed fee, 30 cents when missing or zero |
| MultiCard.EstimateFee | backend/src/services/MultiCardOptimizer.js:258-262 | amount × rate + fixed fee, rounded half up to the cent |
| MultiCard.EstimateFeeMonotone | backend/src/services/MultiCardOptimizer.js:258-262 | a larger charge never has a smaller fee |
| MultiCard.SplitFor | backend/src/services/MultiCardOptimizer.js:150-156 | a split carries the card, the charge and its estimated fee |
| MultiCard.SumChargesAppend | backend/src/services/MultiCardOptimizer.js:245 | the charge total is additive over concatenation |
| MultiCard.ProportionalCharge | backend/src/services/MultiCardOptimizer.js:137-147 | the share `round(amount × balance / total)` capped by the balance and the remainder, raised to $10 when below it and the remainder allows; never above the remainder, nor above the balance of a card holding at least $10 |
| MultiCard.ProportionalChargeIsShare | backend/src/services/MultiCardOptimizer.js:137-142 | when no cap or minimum applies, the charge is within half a cent of amount × balance / total |
| MultiCard.ProportionalScan | backend/src/services/MultiCardOptimizer.js:134-159 | keeps earlier splits, adds at most one per card, and charged + remaining is preserved |
| MultiCard.ProportionalScanMinimum | backend/src/services/MultiCardOptimizer.js:145-158 | every split charges at least 10 |
| MultiCard.ProportionalScanCovered | backend/src/services/MultiCardOptimizer.js:134-159 | every split is covered by the balance of its card |
| MultiCard.ProportionalScanBelowMinimum | backend/src/services/MultiCardOptimizer.js:145-149 | once less than 10 remains, no further split is added |
| MultiCard.TopUp | backend/src/services/MultiCardOptimizer.js:162-165 | the first split absorbs a positive remainder, its fee recomputed against the first card |
| MultiCard.ProportionalResult | backend/src/services/MultiCardOptimizer.js:129-173 | the proportional strategy with its total fee |
| MultiCard.ProportionalSplitsBounded | backend/src/services/MultiCardOptimizer.js:129-173 | at most one split per card, each at least 10, all but the topped-up first within their card's balance |
| MultiCard.ProportionalChargesAmount | backend/src/services/MultiCardOptimizer.js:162-168 | a non-empty proportional split charges exactly the amount, the first card taking the top-up |
| MultiCard.ProportionalSplit | backend/src/services/MultiCardOptimizer.js:129-173 | the loop computes the proportional strategy |
| MultiCard.FeeOptimalScan | backend/src/services/MultiCardOptimizer.js:189-205 | at most 4 splits; charged + remaining is preserved |
| MultiCard.FeeOptimalScanMinimum | backend/src/services/MultiCardOptimizer.js:193-195 | every split charges at least 10 |
| MultiCard.FeeOptimalScanCovered | backend/src/services/MultiCardOptimizer.js:193 | every charge is within its card's balance |
| MultiCard.FeeOptimalResult | backend/src/services/MultiCardOptimizer.js:178-213 | at most 4 splits; possible exactly when at most one cent remains |
| MultiCard.FeeOptimalScanAscending | backend/src/services/MultiCardOptimizer.js:189-205 | over cards sorted by rate, the scan appends splits in ascending order of rate |
| MultiCard.FeeOptimalProperties | backend/src/services/MultiCardOptimizer.js:178-213 | the splits come in ascending order of fee rate, each at least 10 and within its card's balance |
| MultiCard.FeeOptimalSplit | backend/src/services/MultiCardOptimizer.js:178-213 | the loop computes the fee-optimal strategy |
| MultiCard.EqualEligible | backend/src/services/MultiCardOptimizer.js:219 | exactly the cards with balance at least 10 |
| MultiCard.EqualPartsFit | backend/src/services/MultiCardOptimizer.js:229-245 | when every part fits, the parts total the intended amount |
| MultiCard.EqualPartsShort | backend/src/services/MultiCardOptimizer.js:229-245 | when a part is dropped, the total falls short |
| MultiCard.EqualCardCount | backend/src/services/MultiCardOptimizer.js:220 | at most 4 cards and at most the eligible ones; zero exactly without eligible cards |
| MultiCard.EqualRemainder | backend/src/services/MultiCardOptimizer.js:226-227 | the floored base times the card count plus the remainder is the amount; the remainder is below the card count |
| MultiCard.EqualResult | backend/src/services/MultiCardOptimizer.js:218-253 | at most 4 splits; no eligible card is impossible with no splits; otherwise possible exactly when the splits total the amount |
| MultiCard.EqualPossibleIff | backend/src/services/MultiCardOptimizer.js:229-248 | the equal split is possible exactly when every part fits its card |
| MultiCard.CheapestIndex | backend/src/services/MultiCardOptimizer.js:103-114 | the first possible strategy with the least fee, none when none is possible |
| MultiCard.Usable | backend/src/services/MultiCardOptimizer.js:76 | exactly the active cards with balance above 10 |
| MultiCard.Strategies | backend/src/services/MultiCardOptimizer.js:94-100 | proportional, fee-optimal and equal, in that order |
| MultiCard.ChosenFrom | backend/src/services/MultiCardOptimizer.js:116-123 | the chosen strategy's splits and fee; fees saved against proportional |
| MultiCard.ChooseAmongIsCheapest | backend/src/services/MultiCardOptimizer.js:103-123 | no valid split exactly when none is possible; otherwise the minimal fee, ties to the earliest |
| MultiCard.OptimalSplit | backend/src/services/MultiCardOptimizer.js:75-124 | null below 2 usable cards; insufficient with the shortfall exactly when their balances fall short; otherwise the cheapest strategy |
| MultiCard.CalculateOptimalSplit | backend/src/services/MultiCardOptimizer.js:75-124 | computes the optimal split |
| MultiCard.FirstPayable | backend/src/services/MultiCardOptimizer.js:55 | `find`: the first card that can pay alone |
| MultiCard.SingleOptionFor | backend/src/services/MultiCardOptimizer.js:61-69 | the single-card option's fee and remaining balance |
| MultiCard.FindSingleCardOption | backend/src/services/MultiCardOptimizer.js:54-70 | none exactly when no active card covers the amount; otherwise the first such, with non-negative remainder |
| MultiCard.CompareOptions | backend/src/services/MultiCardOptimizer.js:283-330 | ADD_FUNDS exactly with neither; multi alone USE_MULTI_CARD; single alone USE_SINGLE_CARD; with both, multi exactly when it saves more than 50 cents |
| MultiCard.Dollars | backend/src/services/MultiCardOptimizer.js:318 | cents shown as dollars with two decimals, signed |
| MultiCard.AnalysisOf | backend/src/services/MultiCardOptimizer.js:17-49 | no cards exactly for a missing or empty list; otherwise the amount and currency echoed, the single option and the split found over the balance-sorted cards, their recommendation and the total balance |
| MultiCard.AnalysisSingleIsRichest | backend/src/services/MultiCardOptimizer.js:30-33 | any card that can pay alone makes the analysis offer a single card holding at least as much |
| MultiCard.SingleOptionIsRichest | backend/src/services/MultiCardOptimizer.js:30-33 | the single-card option is found whenever some card can pay alone, and its balance is at least that card's |
| MultiCard.AnalyzeMultiCardOption | backend/src/services/MultiCardOptimizer.js:17-49 | computes the analysis |
| MultiCard.ResultOf | backend/src/services/MultiCardOptimizer.js:356-378 | one result per attempt: success as returned; a thrown error is a failure with its message |
| MultiCard.SumWhereSplits | backend/src/services/MultiCardOptimizer.js:365-378 | charged + failed is the total of the charges |
| MultiCard.NothingFailedIff | backend/src/services/MultiCardOptimizer.js:382 | nothing failed exactly when every attempt succeeded |
| MultiCard.ExecuteSplitPayment | backend/src/services/MultiCardOptimizer.js:338-394 | one result per split in order; charged + failed = total; success exactly when nothing failed |
| Orchestration.CheckBlacklist | backend/src/services/PaymentOrchestrationService.js:888-903 | blocked exactly for a listed e-mail; a missing user or a failed query lets the sender through |
| Orchestration.Completed | backend/src/services/PaymentOrchestrationService.js:196-212 | the completing update sets rate, fraud score and status, costs, provider and 'completed', keeping the rest |
| Orchestration.UpdatedRows | backend/src/services/PaymentOrchestrationService.js:196-222 | only the pending row changes, and only when the update succeeds |
| Orchestration.TransactionTable.Insert | backend/src/services/PaymentOrchestrationService.js:42-73 | a failed insert leaves the table unchanged |
| Orchestration.TransactionTable.MarkCompleted | backend/src/services/PaymentOrchestrationService.js:196-222 | the table after the completing update |
| Orchestration.PendingRow | backend/src/services/PaymentOrchestrationService.js:43-68 | status, provider and fraud status 'pending'; rate 1; zero score and costs |
| Orchestration.FraudInput | backend/src/services/PaymentOrchestrationService.js:86-95 | the sender's id and amount, and no card number |
| Orchestration.RoutingRequestOf | backend/src/services/PaymentOrchestrationService.js:136-143 | the routing mode is the user's mode, "balanced" by default |
| Orchestration.SelectedName | backend/src/services/PaymentOrchestrationService.js:146-153 | the preferred provider when given, else the optimal |
| Orchestration.AlternativeViews | backend/src/services/PaymentOrchestrationService.js:252-263 | at most two alternatives with their weighted score and the difference to the optimal, to 2 decimals |
| Orchestration.ReceiptInputFor | backend/src/services/PaymentOrchestrationService.js:290-302 | the receipt input carries the amount and status 'completed' |
| Orchestration.TransferRecord | backend/src/services/PaymentOrchestrationService.js:269-283 | a successful COMPLETED transfer record for the selected provider and amount |
| Orchestration.Called | backend/src/services/PaymentOrchestrationService.js:183-190 | the provider whose metrics a payment moves: a registered adapter |
| Orchestration.ProviderAnswer | backend/src/services/PaymentOrchestrationService.js:190 | the provider's answer: the base class throws, a rejection throws its text, an approval returns its id and latency |
| Orchestration.Snapshot | backend/src/services/PaymentOrchestrationService.js:183-190 | the live metrics of every registered provider |
| Orchestration.CallProvider | backend/src/services/PaymentOrchestrationService.js:183-190 | the answer, and only the called provider's metrics move |
| Orchestration.PaymentOf | backend/src/services/PaymentOrchestrationService.js:183-190 | an unregistered name throws the undefined-provider TypeError; otherwise the provider's answer |
| Orchestration.SettledOutcomes | backend/src/services/PaymentOrchestrationService.js:183-310 | after routing, FAILED exactly when the payment throws, with its message; COMPLETED carries the selected provider and the provider's id |
| Orchestration.Charged | backend/src/services/PaymentOrchestrationService.js:183-190 | the charged provider is a registered adapter |
| Orchestration.TransferOutcomes | backend/src/services/PaymentOrchestrationService.js:9-321 | blocked exactly on the blacklist; declined exactly on DECLINE, with reason and assessment; a routing error is FAILED with its message; COMPLETED exactly when a registered adapter approves |
| Orchestration.Pay | backend/src/services/PaymentOrchestrationService.js:183-190 | the payment result and the metrics of the called provider only |
| Orchestration.Complete | backend/src/services/PaymentOrchestrationService.js:192-283 | completes the row (if the update succeeds) and records the transfer in the registry |
| Orchestration.Settle | backend/src/services/PaymentOrchestrationService.js:181-310 | the settled result; the row, history and counters change only when completed |
| Orchestration.ScreenedRecordsUnlessDeclined | backend/src/services/PaymentOrchestrationService.js:76-124 | after a transfer's fraud step the amount and assessment time are recorded exactly when not declined; the sender's location is always appended and a new sender's device always stored |
| Orchestration.ScreenSender | backend/src/services/PaymentOrchestrationService.js:76-124 | the assessment of the engine state; the whole new engine state: assessed, then recorded with the assessment timestamp exactly when not declined |
| Orchestration.RouteAndSettle | backend/src/services/PaymentOrchestrationService.js:126-310 | a routing error is FAILED; otherwise settlement of the analysis |
| Orchestration.ScreenAndSettle | backend/src/services/PaymentOrchestrationService.js:76-310 | a DECLINE returns with no registry change and no amount or time recorded; otherwise routing and settlement; in both cases the whole new engine state (locations and devices always updated by the assessment) |
| Orchestration.InitiateMoneyTransfer | backend/src/services/PaymentOrchestrationService.js:9-321 | a blacklisted sender is blocked before any insert, fraud check or routing; otherwise the pending row is inserted, the result is the transfer outcome, the row is completed only on success, and history and counters change only on success; the engine's whole new state is the screened state of the transfer |
| Orchestration.OptimalIsRegistered | backend/src/services/PaymentOrchestrationService.js:151 | the routing optimal is a registered provider |
| Orchestration.AutoSelectionHasProvider | backend/src/services/PaymentOrchestrationService.js:146-190 | without a preferred provider, the transfer never fails on an undefined provider |
| Orchestration.RegisteredNeverUndefined | backend/src/services/PaymentOrchestrationService.js:183-190 | a registered selection never fails on an undefined provider |
| Orchestration.AlternativesNotCheaper | backend/src/services/PaymentOrchestrationService.js:259-261 | no listed alternative shows a negative cost difference |
| Orchestration.CompletedReceipt | backend/src/services/PaymentOrchestrationService.js:287-308 | a completed transfer carries a receipt whether or not the file was written, with the provider's id, amount, provider and e-mails ('N/A' when missing) |
| Orchestration.OverrideKeepsOptimalCosts | backend/src/services/PaymentOrchestrationService.js:145-153 | a completed transfer names the preferred provider when given, yet reports the exchange rate, costs and score of the routing optimal (lines 234-253) |
| Orchestration.GetSmartReceipt | backend/src/services/PaymentOrchestrationService.js:728-755 | without alternatives it throws; otherwise the breakdown of the response and the first alternative |
| Orchestration.SmartReceiptSavings | backend/src/services/PaymentOrchestrationService.js:743-752 | the savings text re-fixes the cost difference; the recommendation is that value minus the total cost |
| Orchestration.CardPrefix | backend/src/services/PaymentOrchestrationService.js:782 | `substring(0, 6)` |
| Orchestration.LastFour | backend/src/services/PaymentOrchestrationService.js:851 | `substring(length − 4)` |
| Orchestration.CardFraudInput | backend/src/services/PaymentOrchestrationService.js:775-784 | the fraud input carries the user and the card prefix |
| Orchestration.CardRecord | backend/src/services/PaymentOrchestrationService.js:829-842 | a successful COMPLETED card_payment record |
| Orchestration.CardPaymentOf | backend/src/services/PaymentOrchestrationService.js:760-869 | no token fails; DECLINE declines; an unknown provider fails with "PSP X not found"; completed exactly on approval, with zero costs and the last four digits |
| Orchestration.CardCharged | backend/src/services/PaymentOrchestrationService.js:801-824 | the charged provider is a registered adapter |
| Orchestration.ChargeCard | backend/src/services/PaymentOrchestrationService.js:800-860 | the card result; history and counters change only when completed |
| Orchestration.ScreenCard | backend/src/services/PaymentOrchestrationService.js:773-784 | the assessment of the token prefix; the whole new engine state is the assessed state (amounts untouched, nothing recorded) |
| Orchestration.ProcessCardPayment | backend/src/services/PaymentOrchestrationService.js:760-869 | the card payment result; without a token the engine is untouched, otherwise its whole new state is the assessed state of the token prefix (nothing recorded); the registry changes only when completed |

## Left out

- SQL and persistence: rows live in a `TransactionTable` object. Whether each statement succeeds,
  and what the blacklist queries answer, are inputs.
- The simulated delays (`setTimeout`), concurrency between requests, and console logging.
- `Date.now`, `new Date()`, `Math.random` and `Math.sin` are inputs: clock readings, the fraud
  engine's random draw, each provider kind's outcome and latency, and a sine bounded by ±1.
- Floating point: numbers are exact reals. `toFixed` is modelled as half-up rounding of the exact
  value, so binary rounding artefacts are not reproduced.
- Multi-card amounts are integer cents. A dollar amount with more than two decimals is not modelled.
- `toLocaleString` dates: the receipt's rendered date is an input string.
- `new Date(timestamp).getHours()` in the abnormal-time rule: the local hour is an input.
- The receipt's HTML layout (`getDefaultTemplate`) is a parameter. `ensureOutputDir` and the file
  write in `saveReceipt` are left out; only whether the write succeeded is an input.
- `getTransactionMap`, `getMockTransactionMap`, `getPSPAnalytics` and `healthCheck`: display or
  random mock output.
- `getPerformanceMetrics` returns the counters object itself. The model reads the
  `performanceMetrics` field directly.
- The source-country and destination-country arguments of `getCommission` are unused by the source
  and are not modelled.
- Request echo fields of the responses (descriptions, recipient names, timestamps, estimated
  delivery) are not modelled.
- Formatting.ToFixed: for magnitudes of 1e21 and above `toFixed` writes exponent notation; the
  model always writes plain digits.
- Formatting.DecimalValue: models `parseFloat` only on the decimal text `toFixed` writes; exponents,
  leading white space and trailing characters are not modelled.
- Orchestration.GetSmartReceipt: the model takes the response of a completed transfer, whose status
  is "COMPLETED", and leaves out `deliveryTime`. Its only caller
  (backend/src/controllers/PaymentController.js:151-172) passes a hand-built object with no `status`,
  for which the source's receipt carries an undefined status.
- Receipts.ReceiptFieldRendered: stated only for field values without '{' or '$'. A value holding
  `$&` reinserts the placeholder it replaces (Receipts.MatchPatternReinsertsPlaceholder).
- Receipts.TemplateRendered: stated for templates whose literal text has no "{{" and does not end in
  '{' (so no placeholder can begin inside it or across its edge), and for values without '{' or
  '$'; Receipts.ReceiptTemplateRendered carries the same restriction.
- JS plain objects as maps: the registry (`plugins`, `performanceMetrics`), the fee table, the
  commission rules and the recommendation texts are Dafny maps. A name equal to an
  `Object.prototype` member ("constructor", "__proto__", "toString", ...) or an integer-like name
  behaves differently in the source (an inherited value is found; `Object.values` lists
  integer-like names first) and is not modelled. This bears on PluginStore.PSPPluginStore.GetPSP,
  PluginStore.PSPPluginStore.UpdatePSPStatus, PluginStore.PSPPluginStore.ActiveProvidersInOrder,
  MultiCard.TypeRate, MultiCard.FeeRate, Providers.EffectiveRule and Routing.GetRecommendation.
- PluginStore.PSPPluginStore.GetPSP: a name that is an `Object.prototype` member is not modelled.
- PluginStore.PSPPluginStore.UpdatePSPStatus: a name that is an `Object.prototype` member is not modelled.
- PluginStore.PSPPluginStore.ActiveProvidersInOrder: states insertion order, which is the
  `Object.values` order only when no registered name is integer-like.
- MultiCard.TypeRate: a card type that is an `Object.prototype` member is not modelled.
- MultiCard.FeeRate: a card type that is an `Object.prototype` member is not modelled.
- Providers.EffectiveRule: a currency that is an `Object.prototype` member is not modelled.
- MultiCard.Lower: lower-cases ASCII letters only; `toLowerCase` on other letters is not modelled.
- Routing.NameHash: folds over Unicode characters; the source's `split("")` yields UTF-16 code
  units, so names outside the Basic Multilingual Plane hash differently.
- Routing.GetRecommendation: the contract states only the generic text for unlisted providers; the
  four fixed texts are given by its definition. A provider name that is an `Object.prototype` member is not
  modelled.
- Routing.Candidates: the contract bounds the number of candidates only; their exact content is
  stated by Routing.CandidatesAreSupporting and Routing.CandidatesExtend.
- Routing.GeoBase: the contract states the range only; the lookup order is stated by
  Routing.GeoBaseByProvider.
- Providers.Provider.ValidateTransaction: the currency error's text is not stated in the contract;
  only that success implies a supported currency.
