# AI affiliate marketing automation — the decision core in Dafny

The repository is a content-automation server. It scrapes trending AI videos,
picks an affiliate program to promote, asks third-party AI providers for a video
and a thumbnail, and uploads the result. Around the HTTP, database and
browser-automation plumbing sits a small amount of deterministic decision logic.
This project models that logic and proves what it promises.

- **Provider quota and failover** (`server.js`, module `ContentGenerator`).
  - The catalog `AI_PROVIDERS` is the class `ProviderCatalog`, with one provider list per media type.
  - `getAvailableProvider` keeps the active providers that have a key. It orders them by priority; the sort is stable, so equal priorities keep declaration order. It returns the first one with quota left. When every eligible provider is at its limit, it zeroes their usage and returns the first.
  - The generators count a success and mark a failed provider as exhausted, then retry while a different provider comes back. The retry is bounded by the list of call outcomes. `RetryCycle` and `AllFailuresNeverFinish` show that on a two-provider catalog where every call fails, the bound runs out for any number of calls.
  - The midnight job zeroes every counter.
- **Trending post-processing** (`server.js`, module `TrendingScraper`):
  - the 500000-view threshold;
  - the per-video engagement rate;
  - the sort by views, highest first;
  - the cut to `maxResults`.
- **Affiliate selection and revenue projection** (`server.js`, module `Affiliate`).
  - The keyword score, and the peak-hour trending-first reordering.
  - The strict-`>` argmax, whose first maximum wins.
  - The proof that the reordering changes the winner only among programs with equal scores.
  - The floored revenue projection.
- **The single-flight campaign** (`server.js`, module `Orchestrator`).
  - `AutomationOrchestrator.RunFullCampaign` models the `isRunning` guard, the `already_running` reply, and the stages in order.
  - It also models the `catch` that logs the error and records a failed campaign, and the `finally` that clears the guard.
  - The scraper result, the generator outcomes, the clock and the upload result are inputs.
- **Round-robin scraping services** (`ScrapingManager.ts`, module `ScrapingManager`).
  - The cyclic scan from the persistent `currentServiceIndex` treats a probe that throws as unavailable.
  - Each platform has its result filter.
  - A failed scrape advances the index and retries, and rethrows once the index wraps to 0. The retry is bounded by the list of call outcomes. When every call fails, the request rethrows exactly when the last service is available (`AllFailuresRethrowIff`); otherwise the wrap is never seen at a failure and the bound runs out for any number of calls.
  - `getServiceStatus` is modelled too.
- **Database-backed provider bookkeeping** (`AIProviderManager.ts`, module `AIProviderManager`), over an in-memory sequence of records standing for the collection:
  - the eligibility query and its ordering by quality, then success rate;
  - the standby→active promotion;
  - the running success-rate mean;
  - the `quota_reached` transition;
  - the bulk reset.
- **Small helpers:**
  - `PublicAPIScrapingService.ts` (module `PublicApiScraping`): hashtags, engagement rate, and the Instagram mapping;
  - `apiResponse.ts` (module `ApiResponses`): the response envelopes.

Decimals are exact `real`s. `Math.floor` is `.Floor`, `Math.ceil` is `-((-x).Floor)`, and `Math.round` is `(x + 0.5).Floor`.

Each mutating operation is a method. Its `ensures` ties the new state to a specification function of the old state. The lemmas about those functions carry the properties.

## Model

| member | source | states |
|---|---|---|
| ContentGenerator.PriorityOrder | server.js:374-376 | the scanned list holds exactly the active providers with a key, sorted by ascending priority with declaration order on ties |
| ContentGenerator.SortIsSorted | server.js:376 | the insertion sort of distinct indices yields a list ordered by (priority, declaration index) |
| ContentGenerator.FindWithQuota | server.js:379-383 | the loop returns the first provider of the sorted list with `currentUsage < dailyLimit`, or nothing |
| ContentGenerator.FirstWithQuotaIsEarliest | server.js:379-383 | the provider found has quota and every earlier one in the list has none; nothing is found only when no provider in the list has quota |
| ContentGenerator.ResetEligible | server.js:386 | exactly the eligible providers get `currentUsage` 0; inactive and keyless providers are unchanged |
| ContentGenerator.Best | server.js:374-383 | the reference search from position k returns a position at or after k inside the list; `BestIsFirst` states which one |
| ContentGenerator.Select | server.js:373-388 | the list after selection has the same length and the index returned is inside it; `SelectPrefersQuota` and `SelectExhausted` state which provider and which counters |
| ContentGenerator.BestIsFirst | server.js:373-388 | the reference choice is the unique first qualifying provider by (priority, index), and is absent exactly when none qualifies |
| ContentGenerator.ScanAgreesWithBest | server.js:374-383 | scanning the sorted eligible list for quota gives the same provider as the reference first-by-priority choice |
| ContentGenerator.HeadAgreesWithBest | server.js:386-387 | the fallback head of the sorted eligible list is the reference first-by-priority eligible provider |
| ContentGenerator.SelectPrefersQuota | server.js:379-383 | when some eligible provider has quota, the first such provider by priority is returned and the catalog is unchanged |
| ContentGenerator.SelectExhausted | server.js:385-387 | when no eligible provider has quota, eligible counters become 0, others stay, and the first eligible provider by priority is returned; nothing is returned exactly when none is eligible |
| ContentGenerator.SelectKeepsConfiguration | server.js:373-388 | selection changes only usage counters and returns only an eligible provider |
| ContentGenerator.GenerateKeepsConfiguration | server.js:390-457 | a whole generation request changes only usage counters, and reports only eligible providers |
| ContentGenerator.Generate | server.js:390-457 | a whole request keeps the provider list's length; its outcomes are stated by the lemmas below |
| ContentGenerator.GenerateNoProvidersIff | server.js:393-395 | the request throws 'No … providers available' exactly when no provider is active with a key |
| ContentGenerator.FirstAttemptSucceeds | server.js:425 | a successful first call uses the first provider with quota by priority, adds exactly 1 to its usage and changes nothing else |
| ContentGenerator.ExhaustedThenSucceeds | server.js:385-387 | when every eligible provider is exhausted and the first call succeeds, eligible counters are reset and the first eligible provider by priority ends at usage 1 |
| ContentGenerator.FailureRetriesNext | server.js:437-456 | after a failed call that provider is exhausted and the next provider by priority is chosen; a different name means the call is retried there, and a success on it adds 1 to its usage; the same name means the error is rethrown |
| ContentGenerator.SoleProviderFailure | server.js:451-456 | with one eligible provider, the retry gets the same name back, so the error is rethrown, and its counter ends at 0 |
| ContentGenerator.RetryCycle | server.js:451-456 | on two unused one-request providers, two failures return the catalog to its start, so the recursion repeats |
| ContentGenerator.AllFailuresNeverFinish | server.js:451-456 | when every call fails on that catalog, any number of calls ends with the bound run out: the recursion does not terminate |
| ContentGenerator.ZeroUsage | server.js:1455-1459 | every provider's usage counter is 0 and nothing else changes |
| ContentGenerator.ZeroUsageIdempotent | server.js:1453-1460 | the midnight reset applied twice equals applied once |
| ContentGenerator.ProviderCatalog.GetAvailableProvider | server.js:373-388 | the returned index and new list are those of `Select` on the old list; the other media type is untouched |
| ContentGenerator.ProviderCatalog.ResetCounters | server.js:386 | the list becomes `ResetEligible` of the old one |
| ContentGenerator.ProviderCatalog.GenerateContent | server.js:390-457 | outcome and new list are those of `Generate` on the old list; the other media type is untouched |
| ContentGenerator.ProviderCatalog.ResetDailyUsage | server.js:1453-1460 | both lists become `ZeroUsage` of the old ones |
| TrendingScraper.ToVideo | server.js:299-313 | id, title, views, likes and comments are copied from the statistics; engagement × views equals likes + comments |
| TrendingScraper.Qualifying | server.js:298 | no more records than fetched videos, each with at least 500000 views |
| TrendingScraper.QualifyingIsExact | server.js:298-313 | a record is pushed exactly when it is built from a fetched video with at least 500000 views |
| TrendingScraper.QualifyingDistributes | server.js:262-313 | the records of two batches are those of each batch, in fetch order |
| TrendingScraper.SortByViewsDesc | server.js:331 | the sorted list is a permutation of its input |
| TrendingScraper.TopTrending | server.js:330-332 | the result has min(qualifying, maxResults) videos, all over the threshold, drawn from the qualifying ones |
| TrendingScraper.TopTrendingSorted | server.js:331 | the result is ordered by view count, highest first |
| TrendingScraper.TopTrendingKeepsBest | server.js:330-332 | every qualifying video that was cut has no more views than any video kept |
| TrendingScraper.CollectTrending | server.js:262-332 | the collected list is `TopTrending` of the fetched statistics |
| Affiliate.Lower | server.js:651 | lower-casing keeps the length and maps each character with ASCII `toLowerCase` |
| Affiliate.ContainsIffOccurs | server.js:660-662 | `includes` holds exactly when the needle occurs at some position |
| Affiliate.TrendingKeywords | server.js:650-652 | the joined keywords hold no upper-case ASCII letter and start with the first title lower-cased; no titles give the empty string |
| Affiliate.TitleOccurs | server.js:650-652 | the i-th title, lower-cased, occurs at some position of the joined keywords |
| Affiliate.EveryTitleOccurs | server.js:650-662 | `includes` finds every lower-cased title in the joined keywords |
| Affiliate.Matches | server.js:660-662 | the keyword match count is at most 3 |
| Affiliate.Score | server.js:659-674 | commission × conversion rate, raised 40% per keyword match, 80% if recurring and 30% if trending; it has no contract of its own: `ScoreNonnegative`, `NoMatchesWithoutKeywords` and the seven catalog `Score*` lemmas state its values |
| Affiliate.Considered | server.js:644-647 | the order in which programs are scored; it has no contract of its own: `ConsideredIsPermutation` (a permutation of the catalog) and `TrendingFirst` (trending programs first at peak hours) state its meaning |
| Affiliate.ScoreNonnegative | server.js:659-674 | a program with non-negative commission and conversion rate scores at least 0 |
| Affiliate.SelectOptimalProgram | server.js:639-682 | for a non-empty catalog the pick is the first program of maximal score in the considered order; with no positive score, the first program; no pick for an empty catalog |
| Affiliate.ConsideredIsPermutation | server.js:644-647 | the peak-hour trending-first order is a permutation of the catalog |
| Affiliate.TrendingFirst | server.js:644-647 | at a peak hour every trending program is scored before every other one |
| Affiliate.ReorderOnlyBreaksTies | server.js:640-680 | the picks at any two hours have equal scores: the reordering changes the winner only among ties |
| Affiliate.PeakHourTieBreak | server.js:644-647 | of two programs with equal scores, a peak hour picks the trending one and an off-peak hour the first |
| Affiliate.NoMatchesWithoutKeywords | server.js:659-666 | with no titles, a program with non-empty fields scores just commission × conversion rate |
| Affiliate.ScoreJasper | server.js:165-176 | Jasper scores 249.6 with no keyword match |
| Affiliate.ScoreCopyAi | server.js:177-188 | Copy.ai Pro Max scores 280.8 with no keyword match |
| Affiliate.ScoreSynthesia | server.js:189-200 | Synthesia scores 249.6 with no keyword match |
| Affiliate.ScoreMidjourney | server.js:201-212 | Midjourney scores 144.0 with no keyword match |
| Affiliate.ScoreChatGpt | server.js:215-226 | ChatGPT Plus scores 35.1 with no keyword match |
| Affiliate.ScoreNotion | server.js:227-238 | Notion AI scores 50.544 with no keyword match |
| Affiliate.ScoreDescript | server.js:239-250 | Descript scores 45.36 with no keyword match |
| Affiliate.EngagementMultiplier | server.js:687 | the engagement multiplier is at most 2.5, not negative for a non-negative engagement, linear (20 × engagement, so 1 at 0.05) up to 0.125 and 2.5 from there |
| Affiliate.CalculateRevenueProjection | server.js:685-711 | the projection names the program, its boost is at most 2.5, a one-time program has no daily recurring revenue, and nothing is negative for non-negative inputs |
| Affiliate.ProjectionExample | server.js:685-711 | a 10%, $100 program at 10000 views projects 800 clicks, 80 conversions and $8000; recurring, $96000 |
| Affiliate.ProjectionMonotoneInViews | server.js:690-706 | more views never project fewer clicks, conversions or revenue |
| Affiliate.ConversionsMonotone | server.js:690-697 | clicks, conversions and revenue before flooring grow with the views |
| Affiliate.RecurringProjection | server.js:694-708 | a recurring program's revenue is conversions × commission × 12, floored; the monthly projection is conversions × commission, floored; it is at least twelve monthly projections, and thirty daily shares fit in one |
| Affiliate.OneTimeProjection | server.js:694-708 | a one-time program's daily recurring share is 0 and its monthly projection is a floored twelfth of its revenue: twelve times it is at most the floored revenue, and twelve times one more exceeds it |
| Orchestrator.EstimatedViews | server.js:972-975 | `Math.floor(avgViews * 0.3)` over the trending videos; stated by `EstimatedViewsBetween` |
| Orchestrator.EstimatedViewsBetween | server.js:972-975 | when every trending video has between lo and hi views, the estimate lies between 30% of lo and 30% of hi, floored |
| Orchestrator.Upload | server.js:813-837 | a successful upload adds one to the upload count and keeps the error log; a failed one appends one 'uploadVideo' error with its message and time and keeps the count; neither touches the campaign count, revenue or time |
| Orchestrator.Credit | server.js:999-1005 | a credited campaign adds one successful campaign, adds the projection's daily recurring, monthly and yearly revenue to the totals and records the time; the upload count and error log stay |
| Orchestrator.AfterUpload | server.js:813-1005 | a successful upload (`uploadsCompleted++`, server.js:813) counts one more upload and one more successful campaign and credits the projection's revenue with the time (server.js:999-1005); a failed one changes only the error log, by one 'uploadVideo' entry with its message and time (server.js:833-837) |
| Orchestrator.LogError | server.js:1024-1036 | a failure appends exactly one campaign error with the id, message and time, and changes nothing else |
| Orchestrator.NoVideoProvidersFails | server.js:983 | with no eligible video provider the run fails with that message, and the image providers are untouched |
| Orchestrator.AutomationOrchestrator.RunFullCampaign | server.js:947-1049 | while a run is in progress the reply is `already_running` and nothing changes; otherwise the run finishes as `Finished` says and `isRunning` is false again; the program catalog stays non-empty |
| Orchestrator.AutomationOrchestrator.RunStages | server.js:953-1044 | an empty trending list fails at once; otherwise the program is the optimizer's pick, the stages run in order, a failure logs one error, and after both generations the stats are `AfterUpload` of the old ones |
| Orchestrator.AutomationOrchestrator.Produce | server.js:983-1022 | video then thumbnail generation; a failure logs one error; otherwise the stats become `AfterUpload` of the old ones and the campaign is `completed` exactly when the upload went through |
| Orchestrator.AutomationOrchestrator.Fail | server.js:1024-1044 | the error is logged and the failed campaign becomes `currentCampaign` |
| ScrapingManager.Keep | server/src/services/scraping/ScrapingManager.ts:84 | the platform filter keeps no more results than it is given; `KeepIsExact` and `KeepDistributes` state which and in what order |
| ScrapingManager.KeepIsExact | server/src/services/scraping/ScrapingManager.ts:84 | a kept result is in the input and passes the platform's threshold, and every passing result is kept |
| ScrapingManager.KeepDistributes | server/src/services/scraping/ScrapingManager.ts:84 | filtering preserves order: it distributes over concatenation |
| ScrapingManager.Advance | server/src/services/scraping/ScrapingManager.ts:68 | `(i + 1) % length` moves one step along the cycle and wraps to the start after the last step |
| ScrapingManager.Rotation | server/src/services/scraping/ScrapingManager.ts:53-69 | the k-th index probed is k steps after the start, cyclically |
| ScrapingManager.Scan | server/src/services/scraping/ScrapingManager.ts:52-73 | the scan returns a position inside the service list; `ScanIsFirstAvailable` states which one |
| ScrapingManager.ScanIsFirstAvailable | server/src/services/scraping/ScrapingManager.ts:52-73 | the service returned is the first available one scanning cyclically from the index; none is returned exactly when none is available |
| ScrapingManager.RotationCoversAll | server/src/services/scraping/ScrapingManager.ts:53-69 | a full rotation visits every service exactly once |
| ScrapingManager.ThrowingIsUnavailable | server/src/services/scraping/ScrapingManager.ts:63-68 | a probe that throws is skipped exactly like one that answers false |
| ScrapingManager.ScrapedPassThreshold | server/src/services/scraping/ScrapingManager.ts:84 | every result a scrape returns passes the platform's threshold |
| ScrapingManager.ScrapeFrom | server/src/services/scraping/ScrapingManager.ts:86-92 | however the retries go, the service index stays within the service list |
| ScrapingManager.ScanForward | server/src/services/scraping/ScrapingManager.ts:52-73 | when some service at or after the index is available, the scan stops at the first one, without wrapping |
| ScrapingManager.ScanFindsAvailable | server/src/services/scraping/ScrapingManager.ts:52-73 | the scan finds nothing exactly when no service is available, and what it finds is available |
| ScrapingManager.FailureStep | server/src/services/scraping/ScrapingManager.ts:86-93 | a failed call on the first available service from the index moves to the next position, or rethrows when that service is the last one |
| ScrapingManager.FailuresRethrowAtWrap | server/src/services/scraping/ScrapingManager.ts:86-93 | when the last service is available and every call fails, the retry visits the available services in list order and the error is rethrown once the index wraps to 0 |
| ScrapingManager.FailuresNeverRethrowWithoutLast | server/src/services/scraping/ScrapingManager.ts:86-93 | when the last service is not available and every call fails, the error is never rethrown: the attempts run out, or no service is found when none is available |
| ScrapingManager.AllFailuresRethrowIff | server/src/services/scraping/ScrapingManager.ts:86-93 | with some service available and every call failing, the request rethrows exactly when the last service is available |
| ScrapingManager.LastUnavailableCycle | server/src/services/scraping/ScrapingManager.ts:86-92 | with the last service unavailable, four failures bring the scrape back to index 0, so the wrap test is skipped |
| ScrapingManager.FailuresNeverRethrow | server/src/services/scraping/ScrapingManager.ts:86-92 | on that service list, any number of failing calls ends with the bound run out: the retry does not terminate |
| ScrapingManager.StatusOf | server/src/services/scraping/ScrapingManager.ts:177-194 | status is active exactly when available, error exactly when the probe throws, with quota 0, unavailable and the thrown message as the error; an answered probe reports its remaining quota and no error |
| ScrapingManager.ScrapingManager.GetNextAvailableService | server/src/services/scraping/ScrapingManager.ts:52-73 | the result is the first available service from the old index; the index then points at it, or is back at its start after a full rotation when none is available |
| ScrapingManager.ScrapingManager.ScrapePlatform | server/src/services/scraping/ScrapingManager.ts:75-139 | outcome and new index are those of `ScrapeFrom` on the old index |
| ScrapingManager.ScrapingManager.GetServiceStatus | server/src/services/scraping/ScrapingManager.ts:173-198 | one entry per service, in service order, each `StatusOf` its probe |
| PublicApiScraping.WordRun | server/src/services/scraping/PublicAPIScrapingService.ts:115 | the run is the longest prefix of word characters |
| PublicApiScraping.Tags | server/src/services/scraping/PublicAPIScrapingService.ts:115-116 | the `/#\w+/g` matches without their '#': each a non-empty run of word characters; `TagsAreTagsFrom` pins the list to the per-position reference |
| PublicApiScraping.ExtractHashtags | server/src/services/scraping/PublicAPIScrapingService.ts:113-117 | absent or empty text gives no tags; otherwise the tags are `TagsFrom` the text; every tag is a non-empty run of word characters without '#' |
| PublicApiScraping.TagsAreTagsFrom | server/src/services/scraping/PublicAPIScrapingService.ts:115-116 | the left-to-right regular-expression scan gives exactly the reference list: the word run after every position starting a hashtag, in text order |
| PublicApiScraping.TagsFromSkipsWords | server/src/services/scraping/PublicAPIScrapingService.ts:115 | a run of word characters starts no hashtag |
| PublicApiScraping.EveryTagExtracted | server/src/services/scraping/PublicAPIScrapingService.ts:115-116 | every '#' followed by a word character contributes its word run |
| PublicApiScraping.NoTagsIff | server/src/services/scraping/PublicAPIScrapingService.ts:115-116 | no tags exactly when no '#' is followed by a word character |
| PublicApiScraping.TagsOccur | server/src/services/scraping/PublicAPIScrapingService.ts:115-116 | every tag is a maximal word run right after a '#' in the text |
| PublicApiScraping.TagsExample | server/src/services/scraping/PublicAPIScrapingService.ts:115-116 | `"#ai #b!"` gives `["ai", "b"]`, left to right |
| PublicApiScraping.EngagementRate | server/src/services/scraping/PublicAPIScrapingService.ts:108-111 | 0 when views is absent or 0; otherwise rate × views = likes × 100 |
| PublicApiScraping.TenViewsPerLike | server/src/services/scraping/PublicAPIScrapingService.ts:108-111 | ten estimated views per like give an engagement rate of 10%, or 0 with no likes |
| PublicApiScraping.ToItem | server/src/services/scraping/PublicAPIScrapingService.ts:77-90 | id, likes and comments are copied; the description is the caption or empty; the title is its first 100 characters, all of it when shorter; views are ten per like; the rate is 10% or 0 |
| PublicApiScraping.InstagramResults | server/src/services/scraping/PublicAPIScrapingService.ts:75-90 | no more items than posts, each with at least 10000 likes and ten views per like |
| PublicApiScraping.InstagramResultsExact | server/src/services/scraping/PublicAPIScrapingService.ts:75-90 | each item comes from a post with at least 10000 likes, and every such post gives one |
| AIProviderManager.Top | server/src/services/ai/AIProviderManager.ts:8-19 | the index found is inside the collection and its record is eligible |
| AIProviderManager.TopIsBest | server/src/services/ai/AIProviderManager.ts:8-19 | the provider chosen is eligible, none is better by (quality, successRate), and it precedes the others that tie with it; none is chosen exactly when none is eligible |
| AIProviderManager.Acquire | server/src/services/ai/AIProviderManager.ts:5-32 | the collection keeps its length; a provider handed out is of the type, active and under quota; a failure carries 'No available <type> providers' and saves nothing |
| AIProviderManager.AcquireFailsIff | server/src/services/ai/AIProviderManager.ts:14-16 | the request throws 'No available <type> providers' and saves nothing exactly when none qualifies |
| AIProviderManager.AcquireChoosesBest | server/src/services/ai/AIProviderManager.ts:19-25 | the reply is the best provider with its status now active, and only it is saved changed |
| AIProviderManager.AcquireIsStable | server/src/services/ai/AIProviderManager.ts:5-32 | asking again after the promotion returns the same provider |
| AIProviderManager.Lookup | server/src/services/ai/AIProviderManager.ts:36-37 | the first record with the id, or none exactly when no record has it |
| AIProviderManager.Used | server/src/services/ai/AIProviderManager.ts:39-57 | one more use at the call's time; `quota_reached` once usage reaches the limit, status unchanged before; identity, type, limit, quality and reset time stay |
| AIProviderManager.RecordUsage | server/src/services/ai/AIProviderManager.ts:34-64 | the collection keeps its length, ids and types; an unknown id changes nothing |
| AIProviderManager.RecordUsageEffect | server/src/services/ai/AIProviderManager.ts:34-64 | an unknown id changes nothing; otherwise only the found record is updated |
| AIProviderManager.UsedKeepsRateInRange | server/src/services/ai/AIProviderManager.ts:42-49 | a success rate in [0, 100] stays there |
| AIProviderManager.FirstUseSetsRate | server/src/services/ai/AIProviderManager.ts:42-52 | the first update after a reset sets the rate to exactly 100 or 0, and the mean time to the response time |
| AIProviderManager.ReplayIsRunningMean | server/src/services/ai/AIProviderManager.ts:39-49 | after n updates from a reset, usage is n and the rate is 100 × successes / n |
| AIProviderManager.ReplayReachesQuota | server/src/services/ai/AIProviderManager.ts:39-57 | below the limit the status is unchanged; reaching it makes the status `quota_reached` and the provider ineligible |
| AIProviderManager.ResetAll | server/src/services/ai/AIProviderManager.ts:68-77 | every record gets usage 0, `standby` and the new reset time |
| AIProviderManager.ResetAllIdempotent | server/src/services/ai/AIProviderManager.ts:66-83 | a second reset only moves the reset time |
| AIProviderManager.ResetRestoresEligibility | server/src/services/ai/AIProviderManager.ts:68-77 | after a reset, a provider qualifies exactly when it has the type and a positive limit |
| AIProviderManager.AcquireAfterReset | server/src/services/ai/AIProviderManager.ts:5-32 | after a reset, a request fails only if no provider of the type has a positive limit |
| AIProviderManager.ProviderStore.GetAvailableProvider | server/src/services/ai/AIProviderManager.ts:5-32 | reply and new collection are `Acquire` of the old collection |
| AIProviderManager.ProviderStore.UpdateProviderUsage | server/src/services/ai/AIProviderManager.ts:34-64 | the new collection is `RecordUsage` of the old one |
| AIProviderManager.ProviderStore.ResetDailyQuotas | server/src/services/ai/AIProviderManager.ts:66-83 | the new collection is `ResetAll` of the old one |
| ApiResponses.Ceil | server/src/utils/apiResponse.ts:26 | `Math.ceil`: the least integer at or above its argument |
| ApiResponses.Success | server/src/utils/apiResponse.ts:2-8 | success is true, data is unchanged, and the message defaults to 'Success' |
| ApiResponses.Error | server/src/utils/apiResponse.ts:10-16 | success is false, and message and errors pass through unchanged |
| ApiResponses.PageCount | server/src/utils/apiResponse.ts:26 | there is a page count exactly when the limit is not 0 |
| ApiResponses.Paginated | server/src/utils/apiResponse.ts:18-28 | success is true, data is unchanged, pagination echoes total, page and limit, and pages is `PageCount(total, limit)`: defined exactly when limit is not 0, and for a positive limit the fewest pages that hold the total (`PagesCoverTotal`) |
| ApiResponses.PagesCoverTotal | server/src/utils/apiResponse.ts:26 | for limit > 0: pages · limit ≥ total, (pages − 1) · limit < total when total > 0, and pages = 0 when total = 0 |
| ApiResponses.PagesIsCeilingDivision | server/src/utils/apiResponse.ts:26 | for limit > 0, pages is `(total + limit - 1) / limit` |

## Left out

- HTTP and external services (YouTube Data API, OAuth, provider endpoints, Apify, Puppeteer, Playwright, Cheerio, MongoDB) are I/O. Their answers are parameters: the fetched video statistics, the generator's success per call, the probe answers, the scrape results and the upload result.
- The cron scheduling itself is a timer; only the body of the midnight reset is modelled.
- Concurrency behind the `isRunning` guard is out: runs are modelled one after another. `Promise.allSettled` and the `Math.log` ranking of `getAllTrendingContent` (ScrapingManager.ts:141-171) are left out for the same reason and because they are transcendental floating point.
- The following are random or string templates, with no decision logic:
  - `optimizeTitle` (uses `Math.random`);
  - the prompts and descriptions;
  - the `Math.round` display fields for the stats.
- `initializeProviders` (AIProviderManager.ts:85-119) only seeds the database.
- The mock data generators and `parseViewCount` of the browser services are left out for the same reasons. `ApifyScrapingService.calculateEngagementRate` is the same formula as `PublicApiScraping.EngagementRate`.
- Floating point: every decimal is an exact `real`. The model has no IEEE rounding, no `Infinity` and no `NaN`.
  - Where the source divides by zero, the model says what it does instead.
  - The YouTube engagement rate is defined only for the videos that pass the 500000-view threshold, so its division by zero never arises.
  - `ApiResponses.Paginated`: with limit 0 the source's `Infinity` or `NaN` page count is `None` here.
- AIProviderManager.ReplayIsRunningMean: the success rate is the exact running mean; the rounding to two decimals (AIProviderManager.ts:49) and float error in `avgResponseTime` are not modelled.
- AIProviderManager.TopIsBest: MongoDB leaves the order of records tied on both quality and success rate unspecified; the model takes the first in collection order.
- AIProviderManager.Lookup: `findById` is taken as the first record with the id.
- Affiliate.Lower: `toLowerCase` is modelled on ASCII letters only.
- PublicApiScraping.ToItem: `substring(0, 100)` counts UTF-16 code units, while the model's `Prefix` counts characters, so for a caption with characters outside the Basic Multilingual Plane the title may be shorter or longer than the source's.
- Affiliate.Score: no upper bound on the score is stated; `ScoreNonnegative` gives its lower bound, and the catalog lemmas give its values with no keyword match.
- TrendingScraper.SortByViewsDesc: the result is proved sorted and a permutation; that it is stable (ties keep fetch order) is built into the insertion but not stated as a lemma.
- Affiliate.SelectOptimalProgram: there is no composed lemma naming the winner over the constant catalog for given titles. The per-program scores with no keyword match are proved one by one.
- ContentGenerator.ProviderCatalog.GenerateContent: the recursion is bounded by the list of call outcomes. Running out of outcomes ends in `OutOfAttempts`, which the source does not have. `RetryCycle` and `AllFailuresNeverFinish` show this bound is needed.
- ScrapingManager.ScrapingManager.ScrapePlatform: the same kind of bound, shown needed by `FailuresNeverRethrow`. Each service also has one availability answer for the whole request, while the source probes `isAvailable()` again on every retry and its answers may change between probes.
- The provider-specific request code behind `switch (provider.name)` is an external call. An unknown provider name throws in the source; it appears here as one more failed call.
- The orchestrator's bookkeeping:
  - `systemStats` is a global in the source and a field of the orchestrator here;
  - `contentGenerated`, `activeAIProvider` and `videosProcessed` are not modelled;
  - the error entries the generators push for each failed provider call (server.js:443-448, 505-510) and the one the scraper pushes when `getTrendingAIVideos` fails (server.js:336-340) are not modelled; the scraper's failure reaches the model as an empty trending list;
  - the provider's error text in a failure message is a parameter.
