# Batch analytics of the AyurChain regulator dashboard

This project models, in Dafny, the analytics that the regulator dashboard
(`src/pages/RegulatorDashboard.tsx`) derives from the list of herb batch
records it fetches, and proves what those figures mean. Every figure is a
pure function of the list:

- **Species distribution** (`herbsByType`): records grouped by species, with a
  falsy species counted as `"Unknown"`, listed in first-seen order, slice `i`
  coloured from an eight-colour palette at `i mod 8`.
- **Monthly flow** (`supplyChainFlow`): twelve fixed buckets, January to
  December, each with compliance 100. Each record adds one batch to the month
  of `createdAt || harvestDate` when that date parses. Years are not told apart.
- **Compliance bars** (`complianceData`): Traceability, Processing Logged and
  Data Completeness. Each is the rounded percentage of records that have a
  non-empty owner history, a non-empty processing log, or all three essential
  fields, computed over `n || 1`.
- **Recent feed** (`recentBatches`): the last four records in list order, each
  projected to a table row with the constant status `"Compliant"`.
- **Summary counters and ratio cards**: total batches, distinct farmers, a
  constant compliance rate of 100 and 0 quality issues; all four are 0 when the
  fetch fails. Two cards show the peak month's share and the farmers-per-batch
  share, each capped at 100.
- **Fetch outcomes** of `src/services/ayurchain.ts`: the list on a 2xx
  response, otherwise a failure. For a single batch, a 404 is "not found",
  which is distinct from a failure.

Modules: `Wrappers` (Option), `Counting` (counting and summing over
sequences), `Records` (the batch record), `Species`, `Flow`, `Compliance`,
`Feed`, `Service` and `Dashboard` (state, counters, ratios, rendered figures).

Modelling choices:

- Every record field is an `Option`, because JavaScript may leave any of them
  `undefined`. JavaScript truthiness of a string is "present and non-empty".
- A timestamp is a `Stamp(text, month)`. `month` is the result of
  `new Date(text).getMonth()` in the viewer's time zone, and `None` for an
  Invalid Date. An empty or missing string never parses.
- `ownerHistory` and `processingSteps` are untyped in the source. Each one is
  either an array of events or some other value (`Log = NotArray | Array(..)`).
- `Math.round((k / total) * 100)` is computed exactly as round-half-up:
  `(200k + total) / (2·total)`.

Three facts about the code shape the model:

- The compliance bars are not clamped. The model proves that they stay in [0, 100].
- The feed is the last four entries of the list as fetched. Nothing sorts it.
- A single batch is requested from the server, and a 404 is the not-found signal.

## Model

| member | source | states |
|---|---|---|
| Species.DistributionCounts | src/pages/RegulatorDashboard.tsx:38-43 | the slice values add up to the number of records; each slice's value is the number of records whose label is its name, and is at least 1 |
| Species.DistributionNames | src/pages/RegulatorDashboard.tsx:39-43 | no species name appears twice; the names are exactly the labels of the records; every record's label (species, or "Unknown" when falsy) has a slice |
| Species.DistributionOrder | src/pages/RegulatorDashboard.tsx:37-43 | slices come in the order each label first occurs in the list, and slice `i` has colour `Palette[i mod 8]` |
| Species.SpeciesLabelling | src/pages/RegulatorDashboard.tsx:39 | a record with missing or empty species is counted in an "Unknown" slice; one with a non-empty species is counted under that exact label |
| Species.TallyNames | src/pages/RegulatorDashboard.tsx:38-42 | the reduce's accumulator holds each label seen exactly once and no other |
| Species.TallyCounts | src/pages/RegulatorDashboard.tsx:38-42 | each accumulator entry holds the number of occurrences of its label |
| Species.TallyOrder | src/pages/RegulatorDashboard.tsx:38-42 | accumulator entries are in first-occurrence order of their labels |
| Species.TallySum | src/pages/RegulatorDashboard.tsx:38-42 | the accumulated counts add up to the number of records |
| Species.BumpExisting | src/pages/RegulatorDashboard.tsx:40 | incrementing a key already present changes only that entry, in place, by one |
| Species.BumpFresh | src/pages/RegulatorDashboard.tsx:40 | a key not yet present is appended at the end with count 1 |
| Species.AshwagandhaExample | src/pages/RegulatorDashboard.tsx:38-43 | two "Ashwagandha" records and one with empty species give [Ashwagandha 2, Unknown 1], in that order, with the first two palette colours |
| Flow.Skeleton | src/pages/RegulatorDashboard.tsx:45-47 | the initial flow has the twelve months Jan..Dec in order, each with 0 batches and compliance 100 |
| Flow.Tick | src/pages/RegulatorDashboard.tsx:48-53 | one record increments at most one bucket, the one of its month; a record without a valid date changes nothing |
| Flow.SupplyChainFlow | src/pages/RegulatorDashboard.tsx:45-54 | the flow always has twelve points Jan..Dec with compliance 100, and month `m` holds exactly the number of records whose chosen date falls in `m` |
| Flow.TickSum | src/pages/RegulatorDashboard.tsx:48-53 | one record adds one batch to the sum over all months exactly when its date is valid, and nothing otherwise |
| Flow.EmptyFlow | src/pages/RegulatorDashboard.tsx:45-47 | an empty list still yields twelve well-formed months, all with 0 batches |
| Flow.FlowTotal | src/pages/RegulatorDashboard.tsx:48-54 | the batches of all months add up to the number of records with a valid date, which is at most the number of records, with equality exactly when every date parses |
| Flow.UnparsableCreatedAtDropped | src/pages/RegulatorDashboard.tsx:49-52 | a record whose non-empty `createdAt` does not parse is dropped, even if its `harvestDate` is valid |
| Flow.HarvestDateFallback | src/pages/RegulatorDashboard.tsx:49-52 | a record with a falsy `createdAt` is counted in its `harvestDate` month, and no other month changes |
| Compliance.Denominator | src/pages/RegulatorDashboard.tsx:57 | the divisor equals the record count when there are records, and is 1 on an empty list |
| Compliance.RoundPercent | src/pages/RegulatorDashboard.tsx:62-64 | the result is the integer nearest to 100k/total, with halves rounded up, and it is at most 100 when k ≤ total |
| Compliance.RoundPercentZero | src/pages/RegulatorDashboard.tsx:62-64 | a percentage is 0 exactly when 200k < total |
| Compliance.RoundPercentFull | src/pages/RegulatorDashboard.tsx:62-64 | k = total gives exactly 100 |
| Compliance.RoundPercentMonotone | src/pages/RegulatorDashboard.tsx:62-64 | more passing records never lower a percentage |
| Compliance.ComplianceData | src/pages/RegulatorDashboard.tsx:61-65 | exactly three bars, Traceability, Processing Logged and Data Completeness, in that order, each in [0, 100] |
| Compliance.ComplianceMeaning | src/pages/RegulatorDashboard.tsx:57-65 | bar `i` is the rounded percentage of records passing its test (non-empty owner-history array, non-empty processing array, three truthy essential fields); 0 when none pass, 100 when all of a non-empty list pass |
| Compliance.EmptyCompliance | src/pages/RegulatorDashboard.tsx:57-65 | on an empty list all three bars are 0 |
| Compliance.TraceabilityExample | src/pages/RegulatorDashboard.tsx:58-62 | three of four records with a non-empty owner history give Traceability 75 |
| Feed.SliceFromEnd | src/pages/RegulatorDashboard.tsx:68 | for k ≥ 1, `slice(-k)` returns the last `min(k, n)` elements in their original order; `slice(-0)` starts at 0 and returns the whole list |
| Feed.RecentBatches | src/pages/RegulatorDashboard.tsx:68-74 | the feed has `min(4, n)` rows; row `i` is the projection of record `n - |feed| + i` (id, raw species, farmer id, raw createdAt), with status "Compliant" |
| Feed.RecentAppend | src/pages/RegulatorDashboard.tsx:68 | appending a record adds its row at the end and drops the oldest row once four are shown |
| Service.FetchBatches | src/services/ayurchain.ts:16-20 | the list is delivered exactly on a 2xx response, and it is the response body; anything else is a failure |
| Service.FetchBatchById | src/services/ayurchain.ts:22-27 | 404 means not found; a transport error or another non-2xx status means failure; a 2xx status delivers the body. The three outcomes do not overlap |
| Dashboard.Farmers | src/pages/RegulatorDashboard.tsx:21 | the distinct farmer ids are exactly the ids that occur, with a missing id as one value; there are at most as many as records, and at least one when there is a record |
| Dashboard.LoadedStats | src/pages/RegulatorDashboard.tsx:17-33 | a failed fetch leaves no batches and all four counters at 0; a successful one gives totalBatches = n, totalFarmers = distinct ids ≤ n (≥ 1 exactly when n ≥ 1), complianceRate 100 and qualityIssues 0 |
| Dashboard.Peak | src/pages/RegulatorDashboard.tsx:256 | the peak is at least every month's count and is 0 or one of those counts |
| Dashboard.LoadedRatios | src/pages/RegulatorDashboard.tsx:256-274 | in any state a fetch produces, both ratio cards are in [0, 100] and the cap never binds; the peak share is 0 when no record has a valid date; the farmer share is 100 when each batch has its own farmer |
| Dashboard.FailedFetchFigures | src/pages/RegulatorDashboard.tsx:9-33 | a failed fetch renders the same figures as the initial state: zero counters, no species, twelve empty months, three bars at 0, an empty feed and both ratios at 0 |

## Left out

- Date parsing, time zones and `toLocaleDateString` are not modelled. Each timestamp carries the month its parse yields, or none.
- `null` field values are not modelled: `None` means `undefined`. A `null` harvest date would parse as the epoch (`new Date(null)`), and `new Set` would keep `null` and `undefined` farmer ids apart; neither case arises in the model.
- Floating-point evaluation of `Math.round((k / total) * 100)` is not modelled. The model rounds the exact rational, so a product that lands just below a half after float error is not reproduced.
- JavaScript object-key quirks in the species accumulator are not modelled. `Object.entries` lists integer-like keys (a species named `"123"`) first, in numeric order, before the other keys, so such labels would break first-seen order. The key `"__proto__"` and inherited names such as `"toString"` would also miscount. The model keeps plain first-seen order.
- A species literally named `"Unknown"` shares the bucket of falsy species. This is the source's behaviour, and the model reproduces it without treating it separately.
- Farmer ids are strings or missing. Non-string ids and JavaScript `Set`'s SameValueZero equality are not modelled.
- The HTTP exchange is not modelled: base-URL configuration, `fetch`, caching and JSON decoding. It is a parameter that either is a transport error or carries a status and an already-decoded body. A body that fails to decode counts as a transport error. A 2xx response whose JSON body is `null` resolves to `null`, which the lookup pages also show as not found; the typed body cannot express it, so in the model not-found is exactly status 404.
- React state, effects, asynchronous settling and stale responses are not modelled. A settled fetch is a `FetchResult` mapped to a state by `Load`.
- Chart rendering, routing and markup are not modelled. This includes the constant 100 % "Quality Assurance" card (line 265).
- The batch lookup and batch details pages are not modelled. They only guard against blank input and show the three lookup outcomes, which `Service.FetchBatchById` distinguishes.
- Dashboard.LoadedRatios: states when each ratio is 0 or 100 only in the cases above, not for every input, because the general value is just the rounded quotient that `Compliance.RoundPercent` already characterises.
