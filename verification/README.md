# Crawl bookkeeping of crowlet, in Dafny

This project models the bookkeeping core of the crowlet sitemap crawler:

- **`pkg/crawler/crawl.go`.** The per-response statistics fold (`populateCrawlStats` driven by `crawlUrls`) and `MergeCrawlStats`. The one-hop link frontier of `crawlPageLinks`, with its non-recursive second phase and the annotation of that phase's non-200 reports. The orchestration in `AsyncCrawl`: throttle coercion, `ParseLinks`, the optional second phase, the final average and the error classification.
- **`pkg/crawler/http.go`.** The request set-up of `configureRequest` (basic auth, the `Key: Value` custom header) and the status and link decisions inside `HTTPGet`.
- **`util/crawl.go`.** The older batch crawler: the host override loop, the batch count, the batch bounds, and the `Resp200`/`RespNon200` counters.

## Modules

| file | module | what it holds |
|---|---|---|
| wrappers.dfy | `Wrappers` | `Option`, and map lookup with a default (Go's zero value for a missing key) |
| goint.dfy | `GoInt` | Go's truncating integer division, plus the bracket lemmas used about averages |
| throttle.dfy | `Throttle` | the throttle coercion shared by both crawlers |
| text.dfy | `Text` | `strings.TrimSpace` and `strings.SplitN(s, sep, 2)` |
| http.dfy | `Http` | `configureRequest`, `HTTPGet`, the fetch record and the worker-pool interface |
| stats.dfy | `Stats` | `CrawlStats`, `populateCrawlStats`, `crawlUrls`, `MergeCrawlStats` |
| frontier.dfy | `Frontier` | `crawlPageLinks` |
| crawl.dfy | `Crawl` | `AsyncCrawl` of `pkg/crawler` |
| legacy.dfy | `LegacyCrawl` | `util/crawl.go` |

Modelling choices:

- **Status histogram.** The Go `map[int]int` is a `multiset<int>`. A code's count is its multiplicity. A missing key, or a nil map, counts 0. The sum of all counts is the multiset's size, and the key-wise sum of `MergeCrawlStats` is multiset union.
- **Durations.** They are integers (nanoseconds). A result without an `httpstat` record has server time 0.
- **Worker pool.** It is a function from a request (URLs, HTTP configuration, concurrency limit) to the sequence of results it delivers, in completion order. The ghost predicate `Http.Honours` states its contract: one result per URL of some dispatched prefix, in any order, and no links when none were asked for. Properties that need the contract take it as a hypothesis. No property depends on the completion order.
- **Go map iteration order.** Where the code iterates a map, the model takes an explicit order:
  - `crawlPageLinks` visits the phase-1 results in first-arrival order (`Crawl.ArrivalOrder`).
  - It dispatches the frontier in first-discovery order.
  - `Frontier.FrontierOrderIndependent` shows that the frontier as a set does not depend on the visiting order.
- **Request headers.** `Http.RequestSetup` records the key and value passed to `Header.Add`; the canonicalisation `net/http` then applies to the key (`content-type` becomes `Content-Type`) is not modelled.
- **`RewriteURLHost`, `url.Parse`, `URL.String` and `ExtractLinks`.** These are not part of this model and come in as function parameters. What `client.Do` and `httpstat` produced comes in as the `Transport` value.

Three places where the documented behaviour, or what one might expect, and the code differ:

- **Links on an extraction error.** `HTTPGet` assigns the links `ExtractLinks` returned before it checks the error (pkg/crawler/http.go:119-123), so a page whose extraction reports an error keeps whatever links were returned. `Http.HTTPGet` follows the code and attaches them.
- **The batch clamp in `util/crawl.go`.** The comment says the clamp never lets a batch run past the last URL; the code does not keep that promise (see Findings). The code as written is modelled by `LegacyCrawl.BatchAsWritten` and `LegacyCrawl.FetchedAsWritten`. Go checks a slice's upper bound against the capacity, so the overrunning batch either takes an empty string from the spare capacity `append` left or panics. The capacity is a parameter, since Go's growth policy for `append` is not part of this model. The batch loop itself (`Batch`, `AdvanceBatch`, `ProgressStep`, `CrawlBatches`, `AsyncCrawl`) uses the corrected clamp. `LegacyCrawl.AsWrittenAgrees` shows that the two fetch the same URLs outside the overrun case, and `LegacyCrawl.AsWrittenPhantom` gives what the code does in that case.
- **Status codes.** `net/http` accepts any three-character status code that parses as a non-negative integer, so `Http.HttpStatus` ranges over 0..999. A response with status `000` therefore reads as status 0, like no response at all.

## Model

| member | source | states |
|---|---|---|
| Throttle.CoerceThrottle | pkg/crawler/crawl.go:121-124 | the throttle used is at least 1; a positive throttle is kept and a non-positive one becomes 1 |
| Throttle.CoerceThrottleLeast | pkg/crawler/crawl.go:121-124 | the throttle used is the least valid throttle (at least 1) not below the one configured, and coercing it again leaves it unchanged |
| GoInt.Div | pkg/crawler/crawl.go:71 | Go's integer division: the remainder has the dividend's sign and is smaller than the divisor in magnitude; on non-negative operands it is ordinary division |
| GoInt.WeightedMeanBetween | pkg/crawler/crawl.go:68-72 | the truncated count-weighted mean of two values with positive weights lies between the two values |
| Text.TrimSpace | pkg/crawler/http.go:61-62 | the result starts and ends with a non-space (or is empty) |
| Text.TrimSpaceSlice | pkg/crawler/http.go:61-62 | the trimmed string is a contiguous slice of the input with only white space cut on either side |
| Text.TrimSpacePadded | pkg/crawler/http.go:61-62 | trimming white-space padding around an already trimmed string gives that string back |
| Text.TrimSpaceIdempotent | pkg/crawler/http.go:61-62 | trimming twice is trimming once |
| Text.IndexOf | pkg/crawler/http.go:59 | the first position of a character, or -1 exactly when it does not occur |
| Text.SplitN2 | pkg/crawler/http.go:59 | splitting into at most two parts: one part (the whole string) iff the separator is absent; otherwise the parts rejoined around the separator give the input and the first part has no separator |
| Text.SplitN2Join | pkg/crawler/http.go:59 | a key without the separator, the separator and any rest split back into exactly that key and rest |
| Http.ConfigureRequest | pkg/crawler/http.go:54-68 | basic auth is set iff the user name is non-empty, whatever the password; an empty header adds nothing; a header without `:` adds nothing and warns; otherwise one header, split at the first `:` with both halves trimmed |
| Http.CustomHeaderRoundTrip | pkg/crawler/http.go:58-63 | a header written as key, colon, value, with white space around either half and colons allowed in the value, yields exactly that key and value and no warning |
| Http.HTTPGetHonours | pkg/crawler/http.go:153-188 | a pool that answers each URL of a dispatched prefix with `HTTPGet` under the request's configuration keeps the pool's contract, whatever the network did |
| Http.HTTPGet | pkg/crawler/http.go:71-127 | status is the response's code, and 0 when no response came back, so it is 0 exactly when there was no response or the response's code was 0; failure means only a rejected request or a transport error, so 4xx and 5xx are not failures; links only when asked for and the transport succeeded, and none when the page URL does not parse |
| Stats.PopulateCrawlStats | pkg/crawler/crawl.go:208-232 | one more response: total up by one, exactly its own status bucket up by one; a 200 adds its time to the sum, the maximum becomes the larger of old maximum and its time, nothing reported; any other status appends one report; the accounting invariant is preserved |
| Stats.PopulateAll | pkg/crawler/crawl.go:195-206 | after all results: total is their number, the histogram is the multiset of their statuses, the average is untouched (0), and the accounting invariant holds |
| Stats.IndexByUrl | pkg/crawler/crawl.go:203 | every entry of the results map is keyed by its own URL |
| Stats.CrawlUrls | pkg/crawler/crawl.go:195-206 | the phase's total, histogram and zero average, and the accounting invariant `Total == Σ counts == count(200) + len(Non200Urls)` |
| Stats.CrawlUrlsSum200 | pkg/crawler/crawl.go:212-221 | the carried sum is the sum of the server times of the 200 responses, a missing timing counting 0 |
| Stats.CrawlUrlsMax | pkg/crawler/crawl.go:219-224 | the maximum bounds every 200 server time and is attained by one of them, or is 0 |
| Stats.Max200IsMaximum | pkg/crawler/crawl.go:219-224 | the reference maximum over a result sequence bounds and is attained by a 200 time, or is 0 |
| Stats.CrawlUrlsReports | pkg/crawler/crawl.go:225-231 | the reports are exactly the non-200 responses, in arrival order, with their URL, status and time and no linking URLs |
| Stats.CrawlUrlsResults | pkg/crawler/crawl.go:201-204 | the results map has a key for exactly the URLs returned, each mapped to the last result for that URL |
| Stats.MergeCrawlStats | pkg/crawler/crawl.go:47-78 | totals add; histograms add key-wise; the maximum is the larger; A's reports then B's, none dropped; two zero averages give 0, and otherwise the average is the count-weighted mean truncated toward zero; the accounting invariant is preserved |
| Stats.MergeAverageBetween | pkg/crawler/crawl.go:68-72 | when both sides saw 200 responses, the merged average lies between the two averages |
| Stats.MergeSameAverage | pkg/crawler/crawl.go:68-72 | merging two sides with the same average keeps it |
| Stats.MergeCommutes | pkg/crawler/crawl.go:48-72 | total, histogram, maximum and average are symmetric in A and B; the reports are the same multiset |
| Stats.MergeEmpty | pkg/crawler/crawl.go:47-78 | empty statistics are neutral on both sides (given a non-negative maximum) |
| Stats.MergeAssociative | pkg/crawler/crawl.go:47-78 | with zero averages, as in every merge `AsyncCrawl` makes, merging is associative |
| Stats.AverageNotAssociative | pkg/crawler/crawl.go:68-72 | with non-zero averages it is not: one grouping of three sides gives 0 and the other 1 |
| Frontier.OccurrencesMembership | pkg/crawler/crawl.go:156-157 | the flattened link occurrences are exactly the links of the visited pages, each with its page's URL |
| Frontier.Collect | pkg/crawler/crawl.go:155-169 | the linked-URL map has one key per discovered target, and the listing of its keys names each exactly once |
| Frontier.CollectSources | pkg/crawler/crawl.go:158-167 | each target's entry is exactly the independently defined list of linking pages, one per surviving link occurrence, and an entry exists iff that list is non-empty |
| Frontier.CollectMembership | pkg/crawler/crawl.go:158-167 | a target is on the frontier iff some occurrence passing the filter and not already known names it |
| Frontier.LinkedUrls | pkg/crawler/crawl.go:155-174 | the frontier lists each linked URL once, and its keys are exactly those listed |
| Frontier.FrontierMembership | pkg/crawler/crawl.go:155-169 | a URL is on the frontier iff it is not a phase-1 result and some phase-1 page has a link to it passing all three filters; hence frontier and phase-1 results are disjoint |
| Frontier.FrontierOrderIndependent | pkg/crawler/crawl.go:171-174 | the frontier, as a set, is the same whatever order the phase-1 results are visited in |
| Frontier.LinksConfig | pkg/crawler/crawl.go:176-182 | the second phase has link parsing and all three link flags off, everything else unchanged |
| Frontier.Annotate | pkg/crawler/crawl.go:187-190 | each report gets the linking pages recorded for its URL (none if absent), everything else kept |
| Frontier.CrawlPageLinks | pkg/crawler/crawl.go:153-193 | the second-phase request is the frontier with parsing off and the same throttle, disjoint from the phase-1 results; the second phase's statistics are `crawlUrls`' with annotated reports, and stay consistent |
| Frontier.AnnotationIsLinkingPages | pkg/crawler/crawl.go:155-190 | each second-phase report's linking URLs are exactly the phase-1 pages with a followed link to it, once per link |
| Crawl.Classify | pkg/crawler/crawl.go:144-148 | "no URL crawled" iff the total is 0; the mixed-status error iff the total is positive and differs from the 200 count; no error otherwise |
| Crawl.ClassifyReports | pkg/crawler/crawl.go:144-148 | on consistent statistics the mixed-status error means exactly that some non-200 response was reported |
| Crawl.ArrivalOrder | pkg/crawler/crawl.go:156 | the visiting order lists every key of the results map exactly once |
| Crawl.Normalise | pkg/crawler/crawl.go:121-130 | coerced throttle; link parsing on iff some link flag is set; nothing else changed |
| Crawl.SecondPhase | pkg/crawler/crawl.go:133-134 | the second request has parsing off, the coerced throttle, and no URL the first phase returned |
| Crawl.Combined | pkg/crawler/crawl.go:131-137 | the combined statistics satisfy the accounting invariant |
| Crawl.CombinedTotals | pkg/crawler/crawl.go:131-137 | the combined statistics and sum account for exactly the responses of both phases |
| Crawl.Finish | pkg/crawler/crawl.go:139-150 | when there were 200 responses the average is the carried sum over their number, truncated; nothing else changes; the error is classified from the final statistics |
| Crawl.AsyncCrawl | pkg/crawler/crawl.go:120-151 | one pool request, or two iff a link flag is set; the result is consistent; the error is "no URL crawled" iff nothing was crawled, the mixed-status error iff something was and a non-200 was reported, none otherwise |
| Crawl.AsyncCrawlRequests | pkg/crawler/crawl.go:120-134 | the first request carries the rewritten URLs (only when a host is set), a throttle of at least 1 (the configured one when positive) and parsing iff a link flag is set; the second has parsing off, the same throttle and no phase-1 URL |
| Crawl.AsyncCrawlTotals | pkg/crawler/crawl.go:131-142 | over the whole crawl the total, histogram and maximum account for every fetched response, and the average is the sum of the 200 server times over the 200 count, truncated, or 0 |
| Crawl.SinglePhase | pkg/crawler/crawl.go:129-137 | without link flags there is one phase and the statistics are its own, apart from the average |
| Crawl.SecondPhaseLinkless | pkg/crawler/crawl.go:177-182 | when the second request's pool keeps its contract, no second-phase result carries links, so exploration stops there |
| Crawl.NoRefetch | pkg/crawler/crawl.go:163-166 | when the second request's pool keeps its contract, no URL returned in the second phase was returned in the first |
| LegacyCrawl.CountResponse | util/crawl.go:99-104 | exactly one counter goes up: the 200 one iff the status is 200 |
| LegacyCrawl.NumIter | util/crawl.go:64-65 | the batch count is the ceiling of URLs over throttle: enough batches to cover every URL, and none to spare |
| LegacyCrawl.BatchLowInRange | util/crawl.go:74-75 | every batch starts inside the URL list |
| LegacyCrawl.NominalPartition | util/crawl.go:74-76 | every URL index lies in exactly one nominal batch range, that of batch `index div throttle` |
| LegacyCrawl.High | util/crawl.go:78-81 | the corrected clamp never ends past the last URL, and only shortens the nominal end to the last index |
| LegacyCrawl.CorrectedBounds | util/crawl.go:75-81 | with the corrected clamp every batch is a non-empty in-range slice ending where the next starts or at the end |
| LegacyCrawl.AsWrittenOverrun | util/crawl.go:78-89 | the clamp as written lets a batch end past the list iff throttle ≥ 2, `numUrls mod throttle == throttle - 1`, and it is the last batch |
| LegacyCrawl.OverrunExample | util/crawl.go:52-89 | with 3 URLs (capacity 4 after three appends) and throttle 2, the second batch as written ends at index 3 and the slice `urls[2:4]` is the last URL then an empty string; corrected, it ends at 2 |
| LegacyCrawl.PanicExample | util/crawl.go:52-89 | with 4 URLs (capacity 4 after four appends) and throttle 5, the only batch as written ends at index 4, so `urls[0:5]` panics |
| LegacyCrawl.BatchAsWritten | util/crawl.go:75-89 | the slice as written over a backing array of capacity `c`: `None` exactly when its end passes the capacity (Go's bounds check panics); otherwise the URLs from its start, with an empty string at each position past the list |
| LegacyCrawl.BatchAsWrittenAgrees | util/crawl.go:75-89 | a batch whose end as written stays inside the list is the corrected batch |
| LegacyCrawl.AsWrittenPrefix | util/crawl.go:74-89 | up to the overrunning batch, the batches as written fetch exactly the covered prefix of the URLs |
| LegacyCrawl.AsWrittenAgrees | util/crawl.go:64-89 | outside the overrun case, the loop as written fetches every URL once, in order |
| LegacyCrawl.LastBatchOverruns | util/crawl.go:74-81 | in the overrun case there is a last batch, and as written it ends at index `numUrls`, one past the list |
| LegacyCrawl.PhantomBatch | util/crawl.go:89 | an overrunning batch within capacity is the rest of the list and one empty string |
| LegacyCrawl.AsWrittenPhantom | util/crawl.go:64-89 | in the overrun case the loop as written fetches every URL and then an empty one when the capacity has room, and panics when it has none |
| LegacyCrawl.Batch | util/crawl.go:75-89 | a batch with the corrected clamp is non-empty and is the slice from its start to its clamped end |
| LegacyCrawl.OverrideHosts | util/crawl.go:52-62 | `None` iff some location does not parse (Go panics); otherwise one URL per location, in order, rendered with the host replaced iff one is given |
| LegacyCrawl.OverrideHostsMeaning | util/crawl.go:53-61 | with a parser that reads back what is rendered, every URL then carries the override host; with no host and a faithful parser, the URLs pass through unchanged |
| LegacyCrawl.CountBatch | util/crawl.go:92-105 | one batch adds its size to the two counters together, and its number of 200s to the first |
| LegacyCrawl.AdvanceBatch | util/crawl.go:74-89 | each corrected batch extends the covered prefix by exactly itself, and is no larger than the throttle |
| LegacyCrawl.ProgressStep | util/crawl.go:75-104 | one fetched and counted batch extends the fetched prefix by exactly that batch, no larger than the throttle, and counts each of its URLs once |
| LegacyCrawl.CrawlBatches | util/crawl.go:64-109 | with the corrected clamp, the batches, concatenated, are exactly the URLs in order, with as many batches as the ceiling count and none larger than the throttle; the counters sum to the number of URLs and the first is the number of 200s |
| LegacyCrawl.AsyncCrawl | util/crawl.go:41-109 | `None` iff a location does not parse; otherwise, with the corrected clamp, every URL is fetched once, in order, and the counters sum to the number of locations with the first counting the 200s |

## Left out

- The worker pool (`ConcurrentHTTPGet`, `RunConcurrentGet`): goroutines, the semaphore channel and the wait group. It is a function parameter, and its contract is the hypothesis `Http.Honours`.
- The quit channel: its effect, a pool that stops early, is one of the behaviours `Http.Honours` admits.
- Network I/O and timing: `client.Do`, the `httpstat` measurement, and body draining and closing. Their outcome is the `Transport` parameter of `Http.HTTPGet`.
- Logging and printing: `PrintResult`, `logTotals` and every `log` call. The malformed-header warning is kept as a flag because it is the only effect of that branch.
- Sitemap fetching: `GetSitemapUrls` and `GetSitemapUrlsAsStrings`. They wrap an external library.
- `ExtractLinks` and `RewriteURLHost`: not part of this model. Links are given per page, and the host rewrite is a function parameter.
- `url.Parse` and `URL.String` in util/crawl.go: function parameters (`parse`, `render`).
- Process-level effects in util/crawl.go: the interrupt handler, `os.Exit` and the one-second sleep between batches.
- `AsyncHttpGets` of util/crawl.go: not part of this model. A response's status is a function of its URL (`statusOf`), and the counters do not depend on the order results arrive in.
- A nil `Response` in `util/crawl.go`, which would make the status read panic: not modelled.
- `LegacyCrawl.NumIter`: the count is the integer ceiling `(n + t - 1) / t`, not the `float64` `math.Ceil`. The two agree wherever `float64` represents the count exactly.
- int64 overflow: of `average × count` in `MergeCrawlStats`, of the time sums, and of the counters. Integers are unbounded.
- `Text.TrimSpace`: trims ASCII white space only, not Unicode white space.
- `LegacyCrawl.Batch`: models the corrected clamp, not the one in the code. The code's batch is `LegacyCrawl.BatchAsWritten`, and the two agree outside the overrun case (`LegacyCrawl.BatchAsWrittenAgrees`).
- `LegacyCrawl.AdvanceBatch`: stated for the corrected batch. The code's overrunning last batch extends past the list (`LegacyCrawl.AsWrittenPhantom`).
- `LegacyCrawl.ProgressStep`: stated for the corrected batch, for the same reason.
- `LegacyCrawl.CrawlBatches`: models the loop with the corrected clamp. When throttle ≥ 2 and `numUrls mod throttle == throttle - 1`, the code instead requests one extra, empty URL or panics at the slice (`LegacyCrawl.AsWrittenPhantom`). What follows the empty request depends on `AsyncHttpGets`, which is not part of this model; most likely it comes back with no response, and reading its status at util/crawl.go:99 panics. In every other case it fetches the same URLs (`LegacyCrawl.AsWrittenAgrees`).
- `LegacyCrawl.AsyncCrawl`: uses `CrawlBatches`, so the same gap applies. The counters sum to the number of locations only with the corrected clamp. As written, the overrun case requests an empty URL or panics at the slice; what happens after the empty request depends on `AsyncHttpGets`, most likely a panic on the missing response at util/crawl.go:99.
- `LegacyCrawl.FetchedAsWritten`: the capacity of `urls` is a parameter, because Go's `append` growth policy is runtime behaviour and is not part of this model.
- `Stats.MergeCrawlStats`: requires that the merged 200 count is non-zero whenever either average is. Go divides by zero there and panics.
- A histogram key present with count 0 or a negative count: a multiset cannot represent it. The crawl never creates one, because every key is created by an increment.
- `Stats.MergeCommutes`: claims only that the reports are the same multiset in both orders, because Go concatenates A's reports before B's.

## Findings

| source | as written | input that shows it | evidently intended | confidence | as-written member | corrected member |
|---|---|---|---|---|---|---|
| util/crawl.go:78-81 | the last-batch clamp fires only when `high > numUrls`, so `high` can equal `numUrls` and `urls[low:high+1]` reaches one past the end | 3 URLs, throttle 2: batch 1 has `low = 2` and `high = 3`. After three appends `urls` has capacity 4, so `urls[2:4]` is the third URL followed by an empty string, and the loop requests an empty URL. What follows depends on `AsyncHttpGets`, which is not shown; most likely there is no response and reading its status at line 99 panics. With 4 URLs and throttle 5 (capacity 4), `urls[0:5]` panics. In general this happens when throttle ≥ 2 and `numUrls mod throttle == throttle - 1` | clamp when `high >= numUrls`, as the comment says ("do not let high exceed total") | high; not executed | LegacyCrawl.AsWrittenPhantom | LegacyCrawl.CorrectedBounds |
