/** The top level of pkg/crawler/crawl.go (`AsyncCrawl`): normalise the
    configuration, crawl the given URLs, optionally crawl the pages they
    link to, merge, set the final average and classify the outcome. */
module Crawl {
  import opened Wrappers
  import opened GoInt
  import opened Throttle
  import opened Http
  import opened Stats
  import opened Frontier

  datatype CrawlError = NoUrlCrawled | SomeUrlsNot200

  /** The statistics and error `AsyncCrawl` returns, with the requests it
      made of the worker pool, in order. */
  datatype CrawlOutcome = CrawlOutcome(stats: CrawlStats, err: Option<CrawlError>, requests: seq<PoolRequest>)

  /** `RewriteURLHost`, which is not part of this model: given the URLs and
      a host, the URLs to crawl. */
  type HostRewrite = (seq<string>, string) -> seq<string>

  /** The error classification at the end of `AsyncCrawl`. */
  function Classify(s: CrawlStats): (e: Option<CrawlError>)
    ensures e == Some(NoUrlCrawled) <==> s.total == 0
    ensures e == Some(SomeUrlsNot200) <==> s.total != 0 && s.total != Count200Of(s)
    ensures e == None <==> s.total != 0 && s.total == Count200Of(s)
  {
    if s.total == 0 then Some(NoUrlCrawled)
    else if s.total != Count200Of(s) then Some(SomeUrlsNot200)
    else None
  }

  /** On consistent statistics the mixed-status error means exactly that
      some response was reported as non-200. */
  lemma ClassifyReports(s: CrawlStats)
    requires WellFormed(s)
    ensures Classify(s) == Some(SomeUrlsNot200) <==> s.non200Urls != []
    ensures Classify(s) == None <==> s.total > 0 && s.non200Urls == []
  {
  }

  /** The URLs of `us`, each once, in the order of their first occurrence. */
  function Dedup(us: seq<string>): (r: seq<string>)
    ensures Distinct(r)
    ensures forall u :: u in r <==> u in us
    decreases |us|
  {
    if |us| == 0 then []
    else
      var prev := Dedup(us[..|us| - 1]);
      var u := us[|us| - 1];
      assert us == us[..|us| - 1] + [u];
      if u in prev then prev else prev + [u]
  }

  /** The order in which `crawlPageLinks` visits the phase-1 results: here,
      the order in which they first arrived. Go leaves it unspecified; no
      property below depends on it. */
  function ArrivalOrder(rs: seq<FetchResult>): (order: seq<string>)
    ensures Enumerates(order, CrawlUrls(rs).results)
  {
    CrawlUrlsResults(rs);
    Dedup(UrlsOf(rs))
  }

  /** The configuration `AsyncCrawl` works with: a coerced throttle and link
      parsing switched on exactly when some link flag is. */
  function Normalise(config: CrawlConfig): (c: CrawlConfig)
    ensures c.throttle == CoerceThrottle(config.throttle)
    ensures c.http.parseLinks == AnyLinks(config.links)
    ensures c == config.(throttle := c.throttle, http := config.http.(parseLinks := c.http.parseLinks))
  {
    config.(throttle := CoerceThrottle(config.throttle), http := config.http.(parseLinks := AnyLinks(config.links)))
  }

  /** The URLs of the first phase: rewritten to the configured host, if any. */
  function Targets(urls: seq<string>, host: string, rewrite: HostRewrite): seq<string>
  {
    if host != "" then rewrite(urls, host) else urls
  }

  /** The last steps of `AsyncCrawl`: the average from the carried sum when
      there was a 200, then the error. */
  function Finish(stats: CrawlStats, sum200: int, requests: seq<PoolRequest>): (o: CrawlOutcome)
    ensures o.stats == (if Count200Of(stats) > 0 then stats.(average200Time := o.stats.average200Time) else stats)
    ensures Count200Of(stats) > 0 ==> o.stats.average200Time == Div(sum200, Count200Of(stats))
    ensures o.err == Classify(o.stats)
    ensures o.requests == requests
  {
    var c := Count200Of(stats);
    var s := if c > 0 then stats.(average200Time := Div(sum200, c)) else stats;
    CrawlOutcome(s, Classify(s), requests)
  }

  /** The second phase, run on the results `rs` of the first. */
  function SecondPhase(rs: seq<FetchResult>, config: CrawlConfig, pool: Pool): (r: LinksPhase)
    ensures r.request.config == config.http.(parseLinks := false)
    ensures r.request.maxConcurrent == CoerceThrottle(config.throttle)
    ensures forall u :: u in r.request.urls ==> u !in UrlsOf(rs)
    ensures WellFormed(r.phase.stats)
  {
    CrawlUrlsResults(rs);
    CrawlPageLinks(CrawlUrls(rs).results, ArrivalOrder(rs), Normalise(config), pool)
  }

  /** The statistics and 200-time sum of the whole crawl before the final
      average is set: those of the first phase, merged with those of the
      second when it runs. */
  function Combined(rs: seq<FetchResult>, config: CrawlConfig, pool: Pool): (t: Tally)
    ensures WellFormed(t.stats)
  {
    var phase := CrawlUrls(rs);
    if AnyLinks(config.links) then
      var links := SecondPhase(rs, config, pool);
      Tally(MergeCrawlStats(phase.stats, links.phase.stats), phase.sum200 + links.phase.sum200)
    else
      Tally(phase.stats, phase.sum200)
  }

  /** The first request to the pool. */
  function FirstRequest(urls: seq<string>, config: CrawlConfig, rewrite: HostRewrite): PoolRequest
  {
    PoolRequest(Targets(urls, config.host, rewrite), Normalise(config).http, CoerceThrottle(config.throttle))
  }

  /** `AsyncCrawl` with the worker pool `pool` and the host rewrite
      `rewrite`. */
  function AsyncCrawl(urls: seq<string>, config: CrawlConfig, pool: Pool, rewrite: HostRewrite): (o: CrawlOutcome)
    ensures |o.requests| == (if AnyLinks(config.links) then 2 else 1)
    ensures WellFormed(o.stats)
    ensures o.err == Some(NoUrlCrawled) <==> o.stats.total == 0
    ensures o.err == Some(SomeUrlsNot200) <==> o.stats.total != 0 && o.stats.non200Urls != []
    ensures o.err == None <==> o.stats.total != 0 && o.stats.non200Urls == []
  {
    var first := FirstRequest(urls, config, rewrite);
    var rs := pool(first);
    var t := Combined(rs, config, pool);
    var requests := if AnyLinks(config.links) then [first, SecondPhase(rs, config, pool).request] else [first];
    var o := Finish(t.stats, t.sum200, requests);
    ClassifyReports(o.stats);
    o
  }

  /** The requests `AsyncCrawl` makes: the (rewritten) URLs with a coerced
      throttle and link parsing exactly when a link flag is set, then, when
      one is, the frontier with link parsing off and the same throttle. The
      frontier holds no URL the first phase returned. */
  lemma AsyncCrawlRequests(urls: seq<string>, config: CrawlConfig, pool: Pool, rewrite: HostRewrite)
    ensures var o := AsyncCrawl(urls, config, pool, rewrite);
      && o.requests[0] == FirstRequest(urls, config, rewrite)
      && o.requests[0].urls == (if config.host != "" then rewrite(urls, config.host) else urls)
      && o.requests[0].maxConcurrent >= 1
      && (config.throttle >= 1 ==> o.requests[0].maxConcurrent == config.throttle)
      && o.requests[0].config == config.http.(parseLinks := AnyLinks(config.links))
      && (|o.requests| == 2 ==>
        && o.requests[1].config == config.http.(parseLinks := false)
        && o.requests[1].maxConcurrent == o.requests[0].maxConcurrent
        && forall u :: u in o.requests[1].urls ==> u !in UrlsOf(pool(o.requests[0])))
  {
  }

  /** Everything the pool returned for `requests`, request by request. */
  function Fetched(requests: seq<PoolRequest>, pool: Pool): seq<FetchResult>
  {
    if |requests| == 0 then [] else pool(requests[0]) + Fetched(requests[1..], pool)
  }

  lemma Sum200Append(a: seq<FetchResult>, b: seq<FetchResult>)
    ensures Sum200(a + b) == Sum200(a) + Sum200(b)
  {
    if |a| > 0 {
      assert (a + b)[1..] == a[1..] + b;
      Sum200Append(a[1..], b);
    } else {
      assert a + b == b;
    }
  }

  lemma Max200Append(a: seq<FetchResult>, b: seq<FetchResult>)
    ensures Max200(a + b) == if Max200(a) > Max200(b) then Max200(a) else Max200(b)
  {
    if |a| > 0 {
      assert (a + b)[1..] == a[1..] + b;
      Max200Append(a[1..], b);
    } else {
      assert a + b == b;
    }
  }

  lemma StatusesAppend(a: seq<FetchResult>, b: seq<FetchResult>)
    ensures multiset(Statuses(a + b)) == multiset(Statuses(a)) + multiset(Statuses(b))
  {
    assert Statuses(a + b) == Statuses(a) + Statuses(b);
  }

  lemma FetchedOne(a: PoolRequest, pool: Pool)
    ensures Fetched([a], pool) == pool(a)
  {
    assert [a][1..] == [];
    assert pool(a) + [] == pool(a);
  }

  lemma FetchedTwo(a: PoolRequest, b: PoolRequest, pool: Pool)
    ensures Fetched([a, b], pool) == pool(a) + pool(b)
  {
    assert [a, b][1..] == [b];
    FetchedOne(b, pool);
  }

  /** `t` is what crawling exactly the results `rs` accounts for, before
      the final average is set. */
  ghost predicate Summarises(t: Tally, rs: seq<FetchResult>)
  {
    && t.stats.total == |rs|
    && t.stats.statusCodes == multiset(Statuses(rs))
    && t.stats.max200Time == Max200(rs)
    && t.stats.average200Time == 0
    && t.sum200 == Sum200(rs)
  }

  lemma PhaseSummarises(rs: seq<FetchResult>)
    ensures Summarises(Tally(CrawlUrls(rs).stats, CrawlUrls(rs).sum200), rs)
  {
    PopulateAllSum200(rs);
    PopulateAllMax(rs);
  }

  lemma SecondPhaseSummarises(rs: seq<FetchResult>, config: CrawlConfig, pool: Pool)
    ensures var links := SecondPhase(rs, config, pool);
      Summarises(Tally(links.phase.stats, links.phase.sum200), pool(links.request))
  {
    PhaseSummarises(pool(SecondPhase(rs, config, pool).request));
  }

  /** Merging the statistics of two crawls accounts for both. */
  lemma MergeSummarises(t1: Tally, rs1: seq<FetchResult>, t2: Tally, rs2: seq<FetchResult>)
    requires Summarises(t1, rs1) && Summarises(t2, rs2)
    ensures Summarises(Tally(MergeCrawlStats(t1.stats, t2.stats), t1.sum200 + t2.sum200), rs1 + rs2)
  {
    Sum200Append(rs1, rs2);
    Max200Append(rs1, rs2);
    StatusesAppend(rs1, rs2);
  }

  /** The combined statistics in terms of everything fetched. */
  lemma CombinedTotals(rs: seq<FetchResult>, config: CrawlConfig, pool: Pool)
    ensures Summarises(Combined(rs, config, pool),
      if AnyLinks(config.links) then rs + pool(SecondPhase(rs, config, pool).request) else rs)
  {
    PhaseSummarises(rs);
    if AnyLinks(config.links) {
      var links := SecondPhase(rs, config, pool);
      SecondPhaseSummarises(rs, config, pool);
      MergeSummarises(Tally(CrawlUrls(rs).stats, CrawlUrls(rs).sum200), rs,
        Tally(links.phase.stats, links.phase.sum200), pool(links.request));
    }
  }

  /** The final statistics of a crawl that fetched exactly `rs`: every
      response counted once in its status bucket, the largest 200 server
      time as maximum, and as average the sum of the 200 server times over
      the number of 200 responses, truncated (0 when there were none). */
  ghost predicate Accounts(s: CrawlStats, rs: seq<FetchResult>)
  {
    && s.total == |rs|
    && s.statusCodes == multiset(Statuses(rs))
    && s.max200Time == Max200(rs)
    && (Count200(rs) > 0 ==> s.average200Time == Div(Sum200(rs), Count200(rs)))
    && (Count200(rs) == 0 ==> s.average200Time == 0)
  }

  lemma FinishAccounts(t: Tally, rs: seq<FetchResult>, requests: seq<PoolRequest>)
    requires Summarises(t, rs)
    ensures Accounts(Finish(t.stats, t.sum200, requests).stats, rs)
  {
  }

  /** Over the whole crawl, the statistics account for everything the pool
      returned, in both phases. */
  lemma AsyncCrawlTotals(urls: seq<string>, config: CrawlConfig, pool: Pool, rewrite: HostRewrite)
    ensures var o := AsyncCrawl(urls, config, pool, rewrite);
      Accounts(o.stats, Fetched(o.requests, pool))
  {
    var first := FirstRequest(urls, config, rewrite);
    var rs := pool(first);
    var t := Combined(rs, config, pool);
    CombinedTotals(rs, config, pool);
    if AnyLinks(config.links) {
      var second := SecondPhase(rs, config, pool).request;
      FinishAccounts(t, rs + pool(second), [first, second]);
      FetchedTwo(first, second, pool);
    } else {
      FinishAccounts(t, rs, [first]);
      FetchedOne(first, pool);
    }
  }

  /** Without link flags the crawl is a single phase whose statistics are
      those of `crawlUrls`, apart from the average. */
  lemma SinglePhase(urls: seq<string>, config: CrawlConfig, pool: Pool, rewrite: HostRewrite)
    requires !AnyLinks(config.links)
    ensures var o := AsyncCrawl(urls, config, pool, rewrite);
      && |o.requests| == 1
      && o.stats == CrawlUrls(pool(o.requests[0])).stats.(average200Time := o.stats.average200Time)
  {
  }

  /** A pool that keeps to its contract never fetches a URL twice across
      the two phases, and fetches no more URLs than it was given. */
  lemma NoRefetch(urls: seq<string>, config: CrawlConfig, pool: Pool, rewrite: HostRewrite)
    ensures var o := AsyncCrawl(urls, config, pool, rewrite);
      |o.requests| == 2 && Honours(o.requests[1], pool(o.requests[1])) ==>
        forall i, j :: 0 <= i < |pool(o.requests[0])| && 0 <= j < |pool(o.requests[1])| ==>
          pool(o.requests[0])[i].url != pool(o.requests[1])[j].url
  {
    var o := AsyncCrawl(urls, config, pool, rewrite);
    if |o.requests| == 2 && Honours(o.requests[1], pool(o.requests[1])) {
      var rs, rs2 := pool(o.requests[0]), pool(o.requests[1]);
      forall i, j | 0 <= i < |rs| && 0 <= j < |rs2|
        ensures rs[i].url != rs2[j].url
      {
        HonouredUrl(o.requests[1], rs2, j);
        assert UrlsOf(rs)[i] == rs[i].url;
      }
    }
  }

  /** The second phase is not recursive: a pool keeping to its contract
      returns no links from it, so no third phase could be derived. */
  lemma SecondPhaseLinkless(urls: seq<string>, config: CrawlConfig, pool: Pool, rewrite: HostRewrite)
    ensures var o := AsyncCrawl(urls, config, pool, rewrite);
      |o.requests| == 2 && Honours(o.requests[1], pool(o.requests[1])) ==>
        forall i :: 0 <= i < |pool(o.requests[1])| ==> pool(o.requests[1])[i].links == []
  {
    AsyncCrawlRequests(urls, config, pool, rewrite);
  }

  /** Every URL a pool keeping to its contract returns was asked for. */
  lemma HonouredUrl(req: PoolRequest, rs: seq<FetchResult>, j: nat)
    requires Honours(req, rs) && j < |rs|
    ensures rs[j].url in req.urls
  {
    var n :| 0 <= n <= |req.urls| && multiset(UrlsOf(rs)) == multiset(req.urls[..n]);
    assert UrlsOf(rs)[j] == rs[j].url;
    assert rs[j].url in multiset(req.urls[..n]);
    assert rs[j].url in req.urls[..n];
  }
}
