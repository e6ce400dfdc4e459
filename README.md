# adaptiveai scoring and monitoring core, in Dafny

This project models the small pieces of decision logic in the adaptiveai
dashboard:

- the content recommender, the preference inference and the A/B significance
  calculator of `src/utils/ml-utils.ts`;
- the process-wide metric history and its repeated anomaly checks in
  `src/utils/code-optimizer.ts`;
- the batching analytics event buffer of `src/services/analytics.ts`;
- the load-time filter of `src/services/optimization.ts`;
- the status bands and progress value of the performance dashboard card;
- the two authorisation guards of `src/middleware/auth.ts`.

Numbers are exact reals (`real`). Counts are `nat`. Browser readings
(`window.performance`, `performance.now()`, resource entry counts, heap size)
and `new Date()` become parameters. A thrown `Error` becomes a `Fail` value of
`Wrappers.Outcome`. Formatted suggestion strings become datatypes that keep the
kind, the check number and the values.

Modules:

- `Wrappers` (wrappers.dfy): `Option` and `Outcome`.
- `Auth` (auth.dfy): `requireAuth` and `requireAdmin` as functions returning
  an outcome.
- `PerformanceStatus` (performance_metrics.dfy): the threshold table, the
  three-band status, the clamped inverted percentage and the uptime status.
- `Optimization` (optimization_service.dfy): `collectMetrics` and
  `analyzeMetrics` of the optimisation service. The `forEach` loop is a
  method proved against a filter function.
- `Analytics` (analytics_service.dfy): the `AnalyticsService` class. It has
  the mutable `events` list and two ghost fields: the history of everything
  tracked, and the batches handed to `flush`.
- `CodeOptimization` (code_optimizer.dfy): the `CodeOptimizer` class.
  - The static list becomes a `seq` field of one object.
  - `collectMetrics` appends three samples and analyses.
  - `analyzeMetrics` keeps its 10-pass `for` loop, proved against the
    specification function `Analysis`.
- `ContentRanking` (content_ranking.dfy): the score formula and the
  accumulating `scoreContent` loop. The sort is a stable insertion sort,
  because `Array.prototype.sort` is stable. `slice` follows JavaScript
  semantics, including a negative `maxResults`.
- `PreferenceInference` (preference_inference.dfy): the per-category tally.
  - A JavaScript object is modelled as a map plus the insertion order of its
    keys.
  - The tally is built by two loops that update the dictionary, proved
    against a counting specification.
  - The tally is then normalised with the per-entry `|| 1` guard and blended
    with `Math.round`.
- `ABTesting` (ab_testing.dfy): the z-score, confidence level, significance
  flag and relative improvement. No square root is needed: for positive `v`
  and `t`, `|d| / sqrt(v) > t` exactly when `d·d > t·t·v`. The non-finite
  outcomes (NaN, +Infinity) that the JavaScript code reaches from zero user
  counts, zero conversion counts, rates above 1 or a zero standard error are
  modelled as constructors instead of being excluded by preconditions.

The model follows the code as written. In particular:

- The metric history of `CodeOptimizer` is one global list that is never
  capped or trimmed.
- The analysis window is the last 7 samples of all kinds together, not the
  last 7 of each kind.
- Each check runs 10 times, and each finding is repeated with a `Check i+1`
  label.
- Normalisation replaces each entry's zero tally by 1 (`|| 1`) before taking
  the maximum. So the view denominator is the largest view time, except that
  a category with view time 0 contributes 1: when some category has view time
  0 and every other view time is below 1, the denominator is 1.
- Degenerate A/B inputs (zero users, zero conversions, zero variance) produce
  NaN or +Infinity; nothing is rejected.
- `maxResults` may be negative and is then applied as JavaScript `slice`
  applies it.

## Model

| member | source | states |
|---|---|---|
| Auth.RequireAuth | src/middleware/auth.ts:4-8 | fails exactly when there is no user, always with the authentication error |
| Auth.RequireAdmin | src/middleware/auth.ts:10-15 | no user fails with the authentication error (it is checked first); a plain user fails with the admin error; passes exactly for a present admin |
| PerformanceStatus.Thresholds | src/components/Dashboard/PerformanceMetrics.tsx:49-54 | every entry has 0 < good < warning, so the three bands partition the values |
| PerformanceStatus.StatusForMetric | src/components/Dashboard/PerformanceMetrics.tsx:56-61 | good iff value ≤ good; warning iff good < value ≤ warning; poor iff value > warning |
| PerformanceStatus.StatusMonotone | src/components/Dashboard/PerformanceMetrics.tsx:56-61 | raising a value never moves its status to a better band |
| PerformanceStatus.ProgressValue | src/components/Dashboard/PerformanceMetrics.tsx:63-67 | the result lies in [0,100]; it is 100 for value ≤ 0 and 0 for value ≥ 1.5 × warning |
| PerformanceStatus.ProgressAntitone | src/components/Dashboard/PerformanceMetrics.tsx:63-67 | the progress value is non-increasing in the metric value |
| PerformanceStatus.UptimeStatus | src/components/Dashboard/PerformanceMetrics.tsx:113 | good iff uptime ≥ 99.9; warning iff 99 ≤ uptime < 99.9; poor iff uptime < 99 |
| PerformanceStatus.UptimeMonotone | src/components/Dashboard/PerformanceMetrics.tsx:113 | higher uptime never gives a worse status |
| Optimization.CollectMetrics | src/services/optimization.ts:6-26 | exactly two metrics: loadTime with the reading, then resourceCount with the resource-entry count |
| Optimization.IsSlowLoad | src/services/optimization.ts:32 | no contract of its own: the condition `name === 'loadTime' && value > 3000`; SlowLoadSuggestionsSingle states what it selects |
| Optimization.SlowLoadSuggestions | src/services/optimization.ts:28-38 | no more suggestions than metrics, each carrying a value above 3000 |
| Optimization.SlowLoadSuggestionsSingle | src/services/optimization.ts:32-34 | one metric gives one suggestion exactly when it is named loadTime and its value is strictly above 3000 (so 3000 itself and other names give none) |
| Optimization.SlowLoadSuggestionsAppend | src/services/optimization.ts:31-35 | the suggestions of a concatenation are those of each part in order: one per qualifying metric, in input order |
| Optimization.SlowLoadSuggestionsCount | src/services/optimization.ts:28-38 | the output length is the number of slow loadTime metrics; with none, including empty input, the output is empty |
| Optimization.AnalyzeMetrics | src/services/optimization.ts:28-38 | the `forEach` loop returns exactly the filter specification, leaving its input unchanged |
| Optimization.CollectedThenAnalyzed | src/services/optimization.ts:6-38 | analysing a fresh collection suggests something exactly when the load reading exceeds 3000 |
| Analytics.Stamp | src/services/analytics.ts:9-12 | no contract of its own: the caller's event with the timestamp added; Track states that the stamped event is what is appended |
| Analytics.BatchesOfHistory | src/services/analytics.ts:14-16 | if the history is full batches of 10 plus fewer than 10 left over, there are history div 10 batches and the leftover is the last history mod 10 events |
| Analytics.Flatten | src/services/analytics.ts:14-16 | batches of exactly 10 events hand off 10 × (number of batches) events in all |
| Analytics.AnalyticsService.constructor | src/services/analytics.ts:6 | the buffer, the history and the flushed batches start empty, satisfying the invariant |
| Analytics.AnalyticsService.Flush | src/services/analytics.ts:19-24 | hands off exactly the buffered events in order and leaves the buffer empty |
| Analytics.AnalyticsService.Track | src/services/analytics.ts:8-17 | appends the event stamped with `now`; flushes and empties exactly when the buffer reaches 10; keeps fewer than 10 buffered; after n tracks, n div 10 flushes and the last n mod 10 events are buffered |
| CodeOptimization.Window | src/utils/code-optimizer.ts:30 | the window is the suffix of length min(7, n) of the whole list, regardless of kind |
| CodeOptimization.Sum | src/utils/code-optimizer.ts:39 | the `reduce` sum of the load times is non-negative when every value is |
| CodeOptimization.TrendFires | src/utils/code-optimizer.ts:36-41 | no contract of its own: at least two load times and the latest above 1.2 × their mean; TrendOfTwo and TrendAfterCollections restate it on collected lists |
| CodeOptimization.MemoryFires | src/utils/code-optimizer.ts:47-50 | no contract of its own: some memory reading, the latest above 50 MiB; LatestAfterCollections restates it on collected lists |
| CodeOptimization.ResourceFires | src/utils/code-optimizer.ts:56-59 | no contract of its own: some resource count, the latest above 50; LatestAfterCollections restates it on collected lists |
| CodeOptimization.TrendFinding | src/utils/code-optimizer.ts:36-44 | no contract of its own: the degradation finding with the latest load time and the mean when TrendFires holds; FindingsKinds and CheckTrend state it |
| CodeOptimization.MemoryFinding | src/utils/code-optimizer.ts:46-53 | no contract of its own: the memory finding with the latest reading when MemoryFires holds; FindingsKinds and CheckMemory state it |
| CodeOptimization.ResourceFinding | src/utils/code-optimizer.ts:55-62 | no contract of its own: the resource finding with the latest count when ResourceFires holds; FindingsKinds and CheckResources state it |
| CodeOptimization.Findings | src/utils/code-optimizer.ts:35-62 | no contract of its own: what one pass reports, trend then memory then resources; FindingsKinds states which are present |
| CodeOptimization.FindingsKinds | src/utils/code-optimizer.ts:36-62 | a degradation, memory or resource finding is present iff its check fires (trend: at least 2 loadTimes and latest > 1.2 × mean; memory > 50 MiB; resources > 50), at most one of each |
| CodeOptimization.OfKind | src/utils/code-optimizer.ts:36-56 | filtering the window by metric name never lengthens it |
| CodeOptimization.OfKindAppend | src/utils/code-optimizer.ts:36-56 | filtering a concatenation filters each part, in order |
| CodeOptimization.NoneOfKind | src/utils/code-optimizer.ts:36-56 | a window without a given metric name filters to the empty list |
| CodeOptimization.Labelled | src/utils/code-optimizer.ts:42-60 | each finding of one pass becomes one suggestion carrying that pass's `Check i+1` label, in order |
| CodeOptimization.Repeated | src/utils/code-optimizer.ts:34-63 | no contract of its own: the output of the first `passes` passes; RepeatedLength, RepeatedBlocks and RepeatedPosition state its shape |
| CodeOptimization.Analysis | src/utils/code-optimizer.ts:28-66 | no contract of its own: the specification of analyzeMetrics, 10 passes over the window's findings; AnalysisShape and RepeatedFindings state its properties |
| CodeOptimization.RepeatedPosition | src/utils/code-optimizer.ts:34-63 | suggestion k of the repeated output comes from pass k div m and finding k mod m, for m findings per pass |
| CodeOptimization.RepeatedLength | src/utils/code-optimizer.ts:31-34 | repeating the checks gives passes × findings suggestions |
| CodeOptimization.RepeatedBlocks | src/utils/code-optimizer.ts:34-63 | pass c emits the findings in order (trend, memory, resource) labelled c+1 |
| CodeOptimization.RepeatedFindings | src/utils/code-optimizer.ts:34-63 | every label lies in 1..passes and every suggestion carries a finding of the window; the first pass lists the findings in order |
| CodeOptimization.AnalysisShape | src/utils/code-optimizer.ts:28-66 | output length is passes × number of firing checks, and each kind appears iff its check fires |
| CodeOptimization.QuietWindow | src/utils/code-optimizer.ts:36-62 | a list whose last-7 window has none of the three kinds (the empty list, for one) yields no suggestions |
| CodeOptimization.TripleOfKind | src/utils/code-optimizer.ts:19-23 | one collection holds exactly one loadTime, one resourceCount and one memoryUsage, in that order |
| CodeOptimization.CollectedLast | src/utils/code-optimizer.ts:19-23 | a non-empty list built by collections ends with one triple after a list built by collections |
| CodeOptimization.TwoTriplesOfKind | src/utils/code-optimizer.ts:36-56 | over two triples after at most one memory sample, the load times and resource counts are those of the two triples and the memory readings end with theirs |
| CodeOptimization.WindowAfterCollections | src/utils/code-optimizer.ts:13-62 | after collections only, memory fires iff the last reading > 50 MiB, resources iff the last count > 50, trend iff there are at least two collections and the last load > 1.5 × the previous one |
| CodeOptimization.LatestAfterCollections | src/utils/code-optimizer.ts:46-62 | with two or more collections, the memory and resource checks read the latest collection |
| CodeOptimization.TrendAfterCollections | src/utils/code-optimizer.ts:36-44 | with two or more collections the window holds two load times, and the trend fires iff latest > 1.5 × previous |
| CodeOptimization.TrendOfTwo | src/utils/code-optimizer.ts:36-44 | with exactly two load times, latest > 1.2 × their mean holds iff latest > 1.5 × the older one |
| CodeOptimization.OneCollection | src/utils/code-optimizer.ts:19-62 | after a single collection the trend check is skipped (one load time), memory fires iff its reading > 50 MiB and resources iff the count > 50 |
| CodeOptimization.CollectedSize | src/utils/code-optimizer.ts:19-23 | a list built only by collections holds 0, 3, or at least 6 samples |
| CodeOptimization.CollectedAppend | src/utils/code-optimizer.ts:19-23 | one more collection keeps the list a sequence of whole loadTime/resourceCount/memoryUsage triples |
| CodeOptimization.LastTwoTriples | src/utils/code-optimizer.ts:19-23 | with two or more collections the last six samples are two triples, and the sample just before them, if there is one, is a memory reading |
| CodeOptimization.WindowSplit | src/utils/code-optimizer.ts:30 | for six or more samples, the last-7 window is the sample before the last six (if any), then the two last groups of three |
| CodeOptimization.CollectedWindow | src/utils/code-optimizer.ts:19-30 | with two or more collections the window is at most one memory sample followed by the last two triples |
| CodeOptimization.CodeOptimizer.constructor | src/utils/code-optimizer.ts:11 | the static list starts empty |
| CodeOptimization.CodeOptimizer.CollectMetrics | src/utils/code-optimizer.ts:13-26 | appends loadTime, resourceCount and memoryUsage in that order, removes nothing, and returns the analysis of the new window |
| CodeOptimization.CodeOptimizer.AnalyzeMetrics | src/utils/code-optimizer.ts:28-66 | the 10-pass loop returns the specification `Analysis` of the last-7 window, of length 10 × firing checks, and does not modify the list (two calls agree) |
| CodeOptimization.CodeOptimizer.CheckTrend | src/utils/code-optimizer.ts:35-44 | the trend block appends exactly the labelled trend finding of the window (none when fewer than 2 load times or latest ≤ 1.2 × mean) and keeps what was there |
| CodeOptimization.CodeOptimizer.CheckMemory | src/utils/code-optimizer.ts:46-53 | the memory block appends exactly the labelled memory finding of the window and keeps what was there |
| CodeOptimization.CodeOptimizer.CheckResources | src/utils/code-optimizer.ts:55-62 | the resource block appends exactly the labelled resource finding of the window and keeps what was there |
| CodeOptimization.LabelledFindings | src/utils/code-optimizer.ts:34-63 | one pass's labelled findings are the trend, memory and resource blocks in that order |
| ContentRanking.CategoryInterest | src/utils/ml-utils.ts:26-30 | the summed interest of the preferences naming the item's category: 0 when none does, non-negative when no interest is negative |
| ContentRanking.TagInterest | src/utils/ml-utils.ts:26-34 | the summed interest of the preferences naming one of the item's tags: 0 when none does, non-negative when no interest is negative |
| ContentRanking.Score | src/utils/ml-utils.ts:22-38 | the score formula; with no negative interest it is at least 0.3 × popularity |
| ContentRanking.InterestAppend | src/utils/ml-utils.ts:26-35 | one more preference adds 0.5 × interest on a category match and 0.2 × interest on a tag match |
| ContentRanking.ScoreContent | src/utils/ml-utils.ts:22-38 | the accumulating loop computes the score formula 0.3·popularity + Σ 0.5·interest (category match) + Σ 0.2·interest (tag match) |
| ContentRanking.ScoreWithoutPreferences | src/utils/ml-utils.ts:23-26 | with no preferences the score is 0.3 × popularity |
| ContentRanking.ScoreAll | src/utils/ml-utils.ts:41-44 | each item is paired with its own score, in input order |
| ContentRanking.Insert | src/utils/ml-utils.ts:48 | no contract of its own: one step of the stable descending insertion sort; InsertPermutes, InsertDescending and InsertWithScore state what it does |
| ContentRanking.SortByScore | src/utils/ml-utils.ts:48 | no contract of its own: `sort((a, b) => b.score - a.score)` as a stable insertion sort; SortPermutes, SortDescending and SortStable state that it is a stable descending permutation |
| ContentRanking.InsertPermutes | src/utils/ml-utils.ts:48 | inserting adds exactly that element to the multiset |
| ContentRanking.InsertBounded | src/utils/ml-utils.ts:48 | inserting adds one element and keeps every score under a common bound |
| ContentRanking.ConsDescending | src/utils/ml-utils.ts:48 | a head no lower than every element of a descending list keeps it descending |
| ContentRanking.SortPermutes | src/utils/ml-utils.ts:48 | sorting is a permutation |
| ContentRanking.InsertDescending | src/utils/ml-utils.ts:48 | inserting into a descending list keeps it descending |
| ContentRanking.SortDescending | src/utils/ml-utils.ts:48 | the sorted list is in non-increasing score order and keeps its length |
| ContentRanking.InsertWithScore | src/utils/ml-utils.ts:48 | the inserted element goes before all equal-scored ones; since the sort inserts elements from the end of the catalogue backwards, the earlier catalogue item comes first |
| ContentRanking.SortStable | src/utils/ml-utils.ts:48 | for every score, the elements with that score keep their input order |
| ContentRanking.SliceEnd | src/utils/ml-utils.ts:49 | the `slice(0, end)` end index: at most the length; min(end, length) for end ≥ 0 |
| ContentRanking.Strip | src/utils/ml-utils.ts:50 | removes the score, keeping each item and the order |
| ContentRanking.StripCons | src/utils/ml-utils.ts:50 | stripping a list with a head strips the head, then the rest |
| ContentRanking.InsertStripPermutes | src/utils/ml-utils.ts:48-50 | stripping after insertion adds exactly the inserted item |
| ContentRanking.SortStripPermutes | src/utils/ml-utils.ts:48-50 | the stripped sorted list is a permutation of the stripped input |
| ContentRanking.RecommendContent | src/utils/ml-utils.ts:16-51 | the recommendContent pipeline (score, sort, slice, strip) returns no more items than the catalogue; the Recommend lemmas state its length, content and order |
| ContentRanking.RecommendContentDefault | src/utils/ml-utils.ts:19 | with the default `maxResults` of 5, the result has min(5, n) items |
| ContentRanking.RankedScoredBy | src/utils/ml-utils.ts:41-48 | the ranked list is scored by the formula, descending, as long as the catalogue, and a permutation of it |
| ContentRanking.RecommendLength | src/utils/ml-utils.ts:47-50 | length min(maxResults, n) for maxResults ≥ 0, max(0, n + maxResults) for negative maxResults; empty catalogue gives empty result |
| ContentRanking.RecommendFromCatalogue | src/utils/ml-utils.ts:41-50 | every returned item is a catalogue item, never more often than in the catalogue |
| ContentRanking.RecommendOrdered | src/utils/ml-utils.ts:22-48 | returned items are in non-increasing order of the score formula |
| ContentRanking.RecommendByPopularity | src/utils/ml-utils.ts:23-48 | with no preferences the result is in non-increasing popularity |
| ContentRanking.WithScoreStrip | src/utils/ml-utils.ts:50 | selecting by score commutes with stripping the score |
| ContentRanking.WithScorePrefix | src/utils/ml-utils.ts:49 | a `slice(0, e)` prefix keeps a prefix of the elements of any one score |
| ContentRanking.RecommendStable | src/utils/ml-utils.ts:48-50 | the returned items of any one score are a prefix of the catalogue's items of that score: ties keep input order |
| ContentRanking.RecommendTopScores | src/utils/ml-utils.ts:47-50 | an item scoring higher than some returned item is returned as often as it occurs in the catalogue: truncation keeps the top scores |
| PreferenceInference.Distinct | src/utils/ml-utils.ts:58-74 | the first-appearance order of a list (the key order of a JavaScript object), never longer than the list |
| PreferenceInference.Categories | src/utils/ml-utils.ts:58-74 | no contract of its own: the distinct categories of the clicks, then the views; InferredCategories states the set it covers |
| PreferenceInference.ClickCount | src/utils/ml-utils.ts:61-66 | the number of clicks on a category, at most the number of clicks |
| PreferenceInference.ViewTime | src/utils/ml-utils.ts:69-74 | no contract of its own: the summed view durations of a category; ViewTimeStep, ViewTimeUnseen and ViewTimeNonNegative state its properties |
| PreferenceInference.DistinctProperties | src/utils/ml-utils.ts:61-74 | the first-appearance key order holds each seen category exactly once |
| PreferenceInference.DistinctHas | src/utils/ml-utils.ts:61-74 | a category is a key exactly when some interaction seen names it |
| PreferenceInference.DistinctSnoc | src/utils/ml-utils.ts:62-71 | a new category is appended to the key order; a category already present leaves the order unchanged |
| PreferenceInference.ClickCategories | src/utils/ml-utils.ts:61 | the category of each click, in click order |
| PreferenceInference.ViewCategories | src/utils/ml-utils.ts:69 | the category of each view, in view order |
| PreferenceInference.ClickCountStep | src/utils/ml-utils.ts:61-66 | one more click adds 1 to its own category's tally only |
| PreferenceInference.ViewTimeStep | src/utils/ml-utils.ts:69-74 | one more view adds its duration to its own category's tally only |
| PreferenceInference.ClickCountUnseen | src/utils/ml-utils.ts:62-63 | a category with no clicks has a click tally of 0, matching the fresh entry |
| PreferenceInference.ViewTimeUnseen | src/utils/ml-utils.ts:70-71 | a category with no views has a view tally of 0, matching the fresh entry |
| PreferenceInference.ViewTimeNonNegative | src/utils/ml-utils.ts:69-74 | non-negative durations give a non-negative view tally |
| PreferenceInference.CountClicks | src/utils/ml-utils.ts:61-66 | the click loop leaves one entry per clicked category, in first-appearance order, holding its number of clicks and view time 0 |
| PreferenceInference.ClickStep | src/utils/ml-utils.ts:61-66 | one pass of the click loop (create the entry if missing, add 1 click) keeps the dictionary equal to the count of the clicks seen so far |
| PreferenceInference.ClickTallyStep | src/utils/ml-utils.ts:61-66 | after that pass every entry holds the number of clicks seen so far on its category, and view time 0 |
| PreferenceInference.AddViewTimes | src/utils/ml-utils.ts:69-74 | the view loop adds new categories in first-appearance order and leaves each entry with its click count and summed durations |
| PreferenceInference.ViewStep | src/utils/ml-utils.ts:69-74 | one pass of the view loop (create the entry if missing, add the duration) keeps the dictionary equal to the count of the clicks and views seen so far |
| PreferenceInference.ViewTallyStep | src/utils/ml-utils.ts:69-74 | after that pass every entry holds its click count and the summed durations of the views seen so far |
| PreferenceInference.TallyInteractions | src/utils/ml-utils.ts:58-74 | the dictionary equals the counting specification: its keys in first-appearance order, without duplicates |
| PreferenceInference.Tallied | src/utils/ml-utils.ts:58-74 | no contract of its own: the counting specification of the dictionary; TalliedValid and TallyInteractions relate it to the loops |
| PreferenceInference.TalliedValid | src/utils/ml-utils.ts:58-74 | the counting specification is a well-formed dictionary: its key order lists every key of its map exactly once, and nothing else |
| PreferenceInference.ClickCategorySet | src/utils/ml-utils.ts:61 | the categories listed from the clicks are exactly the set of click categories |
| PreferenceInference.ViewCategorySet | src/utils/ml-utils.ts:69 | the categories listed from the views are exactly the set of view categories |
| PreferenceInference.PreferenceCategorySet | src/utils/ml-utils.ts:80-90 | preferences that follow a list of categories name exactly those categories |
| PreferenceInference.OrOne | src/utils/ml-utils.ts:77-78 | no contract of its own: the per-entry guard of lines 77-78 on a number, 1 for 0 and the number itself otherwise; ClickDenominator and ViewDenominator state its effect on the denominators |
| PreferenceInference.Round | src/utils/ml-utils.ts:84 | `Math.round`: a whole number within half of its input, halves rounding up |
| PreferenceInference.Interest | src/utils/ml-utils.ts:82-84 | the blended interest is a whole number within half of 0.4 × the click share plus 0.6 × the view share (in percent) |
| PreferenceInference.MaxOf | src/utils/ml-utils.ts:77-78 | `Math.max` of a non-empty list is one of its elements and at least every element |
| PreferenceInference.ClickValues | src/utils/ml-utils.ts:77 | one guarded click value per entry |
| PreferenceInference.ViewValues | src/utils/ml-utils.ts:78 | one guarded view value per entry |
| PreferenceInference.Normalise | src/utils/ml-utils.ts:80-90 | one preference per dictionary entry, in key order |
| PreferenceInference.Inferred | src/utils/ml-utils.ts:54-91 | the preferences follow the distinct categories of clicks then views, in first-appearance order |
| PreferenceInference.InferUserPreferences | src/utils/ml-utils.ts:54-91 | the method (tally, then normalise and blend) returns the specification `Inferred` |
| PreferenceInference.InferredCategories | src/utils/ml-utils.ts:58-80 | exactly one preference per distinct category in the clicks or views, so empty inputs give an empty result |
| PreferenceInference.Denominators | src/utils/ml-utils.ts:77-78 | the click denominator is ≥ 1; the view denominator is nonzero, and positive when view time is non-negative; each bounds its side |
| PreferenceInference.ClickDenominator | src/utils/ml-utils.ts:77 | the click denominator is at least 1 and bounds every entry's click count |
| PreferenceInference.ViewDenominator | src/utils/ml-utils.ts:78 | the view denominator is nonzero, positive when no view time is negative, and bounds every entry's view time |
| PreferenceInference.NormaliseAt | src/utils/ml-utils.ts:77-84 | entry i of the result is the blend of its tally against the two denominators, both nonzero |
| PreferenceInference.InterestBounds | src/utils/ml-utils.ts:82-84 | two shares in [0,1] blend and round to a whole number in [0,100] |
| PreferenceInference.NormaliseBounds | src/utils/ml-utils.ts:77-90 | with no negative view time every interest is a whole number in [0,100] |
| PreferenceInference.InferredBounds | src/utils/ml-utils.ts:54-91 | with non-negative durations, including all-zero input, every interest is a whole number in [0,100] |
| PreferenceInference.InterestOfLeader | src/utils/ml-utils.ts:82-84 | an entry measured against itself on both sides scores 100 |
| PreferenceInference.MaxOfReached | src/utils/ml-utils.ts:77-78 | a value that occurs in the list and bounds it is its `Math.max` |
| PreferenceInference.LeaderClickMax | src/utils/ml-utils.ts:77 | the click count of an entry no other entry exceeds (at least 1) is the click denominator |
| PreferenceInference.LeaderViewMax | src/utils/ml-utils.ts:78 | the view time of an entry no other entry exceeds (at least 1) is the view denominator |
| PreferenceInference.NormaliseLeader | src/utils/ml-utils.ts:77-90 | an entry leading both tallies (at least 1 click and 1 unit of view time) scores exactly 100 |
| PreferenceInference.InferredLeader | src/utils/ml-utils.ts:54-91 | the category with the most clicks and most view time (at least 1 each) is inferred at 100 |
| ABTesting.Above | src/utils/ml-utils.ts:144-147 | no contract of its own: `zScore > t`, false for NaN and true for +Infinity; AboveMonotone and LevelBands state its properties |
| ABTesting.ZScoreOf | src/utils/ml-utils.ts:131-139 | a finite z-score has a positive variance and a non-negative squared difference |
| ABTesting.ConfidenceLevel | src/utils/ml-utils.ts:143-148 | the level is always one of 70, 80, 90, 95, 99 |
| ABTesting.RelativeImprovement | src/utils/ml-utils.ts:131-151 | finite exactly when both user counts and the control conversions are positive; NaN exactly when controlUsers is 0, or the variant rate is 0/0, or both conversion counts are 0; +Infinity otherwise |
| ABTesting.CalculateABTestSignificance | src/utils/ml-utils.ts:125-158 | the confidence level is one of 70, 80, 90, 95, 99 |
| ABTesting.AboveMonotone | src/utils/ml-utils.ts:143-147 | passing a higher threshold implies passing a lower one |
| ABTesting.LevelBands | src/utils/ml-utils.ts:143-148 | level 99 iff z > 2.576, ≥ 95 iff z > 1.96, ≥ 90 iff z > 1.645, ≥ 80 iff z > 1.28; NaN falls through to 70 |
| ABTesting.SignificantIff | src/utils/ml-utils.ts:154 | significant iff z > 1.96 |
| ABTesting.LevelMonotone | src/utils/ml-utils.ts:143-148 | a larger difference over the same variance never lowers the level |
| ABTesting.NoUsers | src/utils/ml-utils.ts:131-148 | a zero user count gives level 70 and no significance |
| ABTesting.EqualRates | src/utils/ml-utils.ts:131-151 | equal positive rates give level 70, not significant, improvement 0 |
| ABTesting.ImprovementSign | src/utils/ml-utils.ts:131-151 | with a positive control rate the improvement is finite and has the sign of variantRate − controlRate |
| ABTesting.Symmetric | src/utils/ml-utils.ts:131-139 | swapping control and variant changes neither z nor the level |
| ABTesting.PerfectSeparation | src/utils/ml-utils.ts:131-154 | 0% against 100% conversion gives an infinite z, level 99, significance and an infinite improvement |
| ABTesting.TenAgainstFifteenPercent | src/utils/ml-utils.ts:125-158 | 100/1000 against 150/1000 gives a 50% improvement at level 99, significant |

## Left out

- Floating point: the model computes exactly on rationals. IEEE rounding, overflow and the rounding inside `Math.sqrt` are not modelled. Outside A/B testing, NaN and infinite inputs are not represented.
- Timestamps: each `new Date()` is a separate clock read, and each becomes its own parameter (`loadStamp`, `resourceStamp`, `memoryStamp`); the analytics `track` has one, `now`. Nothing relates the readings to each other (for example, that they do not decrease). Browser readings (`window.performance.timing`, `performance.now()`, `performance.getEntriesByType('resource')`, `performance.memory`) become method parameters. A missing heap reading, `|| 0`, is the caller passing 0.
- `console.log` in `flush` and the formatted suggestion and error strings are left out. Suggestions are datatypes carrying their kind, check number and values, so `Math.round` inside message text is not modelled.
- `OptimizationService.collectMetrics` is `async`. It is modelled as a plain function of its readings.
- Analytics events: the `data` field of an event (`any` in the source) is modelled as a map from strings to strings.
- JavaScript objects: `Object.entries` lists integer-like keys before the others. The model keeps plain insertion order, so categories named like array indices are not ordered as JavaScript would order them. Category names that clash with inherited object properties (such as `toString`) are not modelled.
- `maxResults` is an integer. Fractional values, which `slice` truncates, are not modelled.
- A/B counts are natural numbers. Negative or fractional user and conversion counts are not modelled.
- `CodeOptimizer` is static in the source, one global list. It is modelled as an object with one list field, so several instances cannot share state.
- `getUIOptimizationSuggestions` returns a constant list and is not part of this model. Neither are the React rendering, the colour and icon helpers of the dashboard card, or the rest of the repository.
- PreferenceInference.Denominators: states that the view denominator is nonzero and positive, not that it is ≥ 1. With the per-entry `|| 1` guard it is ≥ 1 only when some category's view time is 0 or at least 1; fractional durations can leave it below 1.
