/** The one-hop link frontier of pkg/crawler/crawl.go (`crawlPageLinks`):
    which linked URLs a second phase fetches, which pages linked to each,
    and how the second phase's non-200 reports are annotated with them. */
module Frontier {
  import opened Wrappers
  import opened Http
  import opened Stats

  /** Which kinds of link the crawl follows. */
  datatype CrawlPageLinksConfig = CrawlPageLinksConfig(
    crawlExternalLinks: bool,
    crawlHyperlinks: bool,
    crawlImages: bool)

  /** The crawl configuration; the pool itself is passed to the operations
      that use it. */
  datatype CrawlConfig = CrawlConfig(
    throttle: int,
    host: string,
    http: HTTPConfig,
    links: CrawlPageLinksConfig)

  predicate AnyLinks(p: CrawlPageLinksConfig)
  {
    p.crawlExternalLinks || p.crawlHyperlinks || p.crawlImages
  }

  /** The three-flag filter: a link is skipped when it is external and
      external links are off, or when its kind is switched off. */
  predicate Follows(p: CrawlPageLinksConfig, l: Link)
  {
    && (p.crawlExternalLinks || !l.isExternal)
    && (p.crawlHyperlinks || l.kind != Hyperlink)
    && (p.crawlImages || l.kind != Image)
  }

  /** One link as it was met, with the URL of the page that carried it. */
  datatype Occurrence = Occurrence(sourceUrl: string, link: Link)

  function OccurrencesOf(r: FetchResult): (os: seq<Occurrence>)
    ensures |os| == |r.links|
    ensures forall i :: 0 <= i < |os| ==> os[i] == Occurrence(r.url, r.links[i])
  {
    seq(|r.links|, i requires 0 <= i < |r.links| => Occurrence(r.url, r.links[i]))
  }

  /** Every link of the source pages, page by page in `order`. */
  function Occurrences(source: map<string, FetchResult>, order: seq<string>): seq<Occurrence>
    requires forall k :: k in order ==> k in source
    decreases |order|
  {
    if |order| == 0 then []
    else Occurrences(source, order[..|order| - 1]) + OccurrencesOf(source[order[|order| - 1]])
  }

  lemma {:induction false} OccurrencesMembership(source: map<string, FetchResult>, order: seq<string>, o: Occurrence)
    requires forall k :: k in order ==> k in source
    ensures o in Occurrences(source, order) <==>
      exists k, j :: k in order && 0 <= j < |source[k].links| && o == Occurrence(source[k].url, source[k].links[j])
  {
    if |order| > 0 {
      var prefix := order[..|order| - 1];
      var last := order[|order| - 1];
      OccurrencesMembership(source, prefix, o);
      assert forall k :: k in order <==> k in prefix || k == last by {
        assert order == prefix + [last];
      }
      if o in Occurrences(source, order) && o !in Occurrences(source, prefix) {
        var j :| 0 <= j < |OccurrencesOf(source[last])| && OccurrencesOf(source[last])[j] == o;
        assert last in order;
      }
    }
  }

  /** Whether an occurrence puts its target on the frontier. */
  predicate Relevant(o: Occurrence, known: set<string>, p: CrawlPageLinksConfig)
  {
    Follows(p, o.link) && o.link.target !in known
  }

  /** `linkedUrlsSet` with its keys in the order they were first added. */
  datatype Linked = Linked(sources: map<string, seq<string>>, order: seq<string>)

  predicate Distinct<T(==)>(s: seq<T>)
  {
    forall i, j :: 0 <= i < j < |s| ==> s[i] != s[j]
  }

  /** The filtering loop of `crawlPageLinks` over the links met so far: each
      relevant link appends its page's URL to the entry for its target. */
  function Collect(occ: seq<Occurrence>, known: set<string>, p: CrawlPageLinksConfig): (l: Linked)
    ensures Distinct(l.order)
    ensures forall t :: t in l.sources <==> t in l.order
    decreases |occ|
  {
    if |occ| == 0 then Linked(map[], [])
    else
      var prev := Collect(occ[..|occ| - 1], known, p);
      var o := occ[|occ| - 1];
      if !Relevant(o, known, p) then prev
      else
        var t := o.link.target;
        Linked(
          prev.sources[t := Lookup(prev.sources, t, []) + [o.sourceUrl]],
          if t in prev.sources then prev.order else prev.order + [t])
  }

  /** Independently of the loop: the pages that link relevantly to `t`, one
      entry per link occurrence, in the order met. */
  function LinkingSources(occ: seq<Occurrence>, known: set<string>, p: CrawlPageLinksConfig, t: string): seq<string>
  {
    if |occ| == 0 then []
    else
      (if Relevant(occ[0], known, p) && occ[0].link.target == t then [occ[0].sourceUrl] else [])
      + LinkingSources(occ[1..], known, p, t)
  }

  lemma {:induction false} LinkingSourcesSnoc(occ: seq<Occurrence>, o: Occurrence, known: set<string>, p: CrawlPageLinksConfig, t: string)
    ensures LinkingSources(occ + [o], known, p, t) ==
      LinkingSources(occ, known, p, t) + (if Relevant(o, known, p) && o.link.target == t then [o.sourceUrl] else [])
  {
    if |occ| > 0 {
      assert (occ + [o])[1..] == occ[1..] + [o];
      LinkingSourcesSnoc(occ[1..], o, known, p, t);
    }
  }

  lemma {:induction false} LinkingSourcesEmpty(occ: seq<Occurrence>, known: set<string>, p: CrawlPageLinksConfig, t: string)
    ensures LinkingSources(occ, known, p, t) == [] <==>
      forall i :: 0 <= i < |occ| ==> !(Relevant(occ[i], known, p) && occ[i].link.target == t)
  {
    if |occ| > 0 {
      LinkingSourcesEmpty(occ[1..], known, p, t);
      assert forall i :: 0 < i < |occ| ==> occ[i] == occ[1..][i - 1];
    }
  }

  /** The loop records, for every target, exactly the linking pages of the
      independent definition, and has an entry exactly when there is at
      least one. */
  lemma {:induction false} CollectSources(occ: seq<Occurrence>, known: set<string>, p: CrawlPageLinksConfig, t: string)
    ensures Lookup(Collect(occ, known, p).sources, t, []) == LinkingSources(occ, known, p, t)
    ensures t in Collect(occ, known, p).sources <==> LinkingSources(occ, known, p, t) != []
  {
    if |occ| > 0 {
      var prefix := occ[..|occ| - 1];
      var o := occ[|occ| - 1];
      CollectSources(prefix, known, p, t);
      LinkingSourcesSnoc(prefix, o, known, p, t);
      assert prefix + [o] == occ;
    }
  }

  /** A target is on the frontier exactly when some relevant link names it. */
  lemma CollectMembership(occ: seq<Occurrence>, known: set<string>, p: CrawlPageLinksConfig, t: string)
    ensures t in Collect(occ, known, p).order <==>
      exists i :: 0 <= i < |occ| && Relevant(occ[i], known, p) && occ[i].link.target == t
  {
    CollectSources(occ, known, p, t);
    LinkingSourcesEmpty(occ, known, p, t);
  }

  /** `order` lists every key of `m` once. */
  ghost predicate Enumerates<V>(order: seq<string>, m: map<string, V>)
  {
    Distinct(order) && forall k :: k in order <==> k in m
  }

  /** `linkedUrlsSet` for the phase-1 results `source`, visited in `order`. */
  function LinkedUrls(source: map<string, FetchResult>, order: seq<string>, p: CrawlPageLinksConfig): (l: Linked)
    requires Enumerates(order, source)
    ensures Distinct(l.order)
    ensures forall t :: t in l.sources <==> t in l.order
  {
    Collect(Occurrences(source, order), source.Keys, p)
  }

  /** Some phase-1 page carries a followed link to `t`. */
  ghost predicate LinkedFrom(source: map<string, FetchResult>, p: CrawlPageLinksConfig, t: string)
  {
    exists k, j :: k in source && 0 <= j < |source[k].links| && source[k].links[j].target == t && Follows(p, source[k].links[j])
  }

  /** The frontier is exactly the set of targets of followed links on the
      phase-1 pages that are not themselves phase-1 results. In particular
      it is disjoint from the phase-1 results. */
  lemma FrontierMembership(source: map<string, FetchResult>, order: seq<string>, p: CrawlPageLinksConfig, t: string)
    requires Enumerates(order, source)
    ensures t in LinkedUrls(source, order, p).order <==> t !in source && LinkedFrom(source, p, t)
  {
    var occ := Occurrences(source, order);
    CollectMembership(occ, source.Keys, p, t);
    if t in LinkedUrls(source, order, p).order {
      var i :| 0 <= i < |occ| && Relevant(occ[i], source.Keys, p) && occ[i].link.target == t;
      OccurrencesMembership(source, order, occ[i]);
    }
    if t !in source && LinkedFrom(source, p, t) {
      var k, j :| k in source && 0 <= j < |source[k].links|
        && source[k].links[j].target == t && Follows(p, source[k].links[j]);
      var o := Occurrence(source[k].url, source[k].links[j]);
      OccurrencesMembership(source, order, o);
      var i :| 0 <= i < |occ| && occ[i] == o;
    }
  }

  /** The frontier does not depend on the order the phase-1 results are
      visited in. */
  lemma FrontierOrderIndependent(source: map<string, FetchResult>, order1: seq<string>, order2: seq<string>, p: CrawlPageLinksConfig)
    requires Enumerates(order1, source) && Enumerates(order2, source)
    ensures forall t :: t in LinkedUrls(source, order1, p).order <==> t in LinkedUrls(source, order2, p).order
  {
    forall t
      ensures t in LinkedUrls(source, order1, p).order <==> t in LinkedUrls(source, order2, p).order
    {
      FrontierMembership(source, order1, p, t);
      FrontierMembership(source, order2, p, t);
    }
  }

  /** The configuration of the second phase: no link parsing and no link
      flags, everything else as in the first. */
  function LinksConfig(cfg: CrawlConfig): (c: CrawlConfig)
    ensures !c.http.parseLinks && !AnyLinks(c.links)
    ensures c.throttle == cfg.throttle && c.host == cfg.host
    ensures c.http == cfg.http.(parseLinks := false)
  {
    cfg.(http := cfg.http.(parseLinks := false), links := CrawlPageLinksConfig(false, false, false))
  }

  /** A non-200 report of the second phase, given the pages that link to it. */
  function Annotate(reports: seq<CrawlResult>, sources: map<string, seq<string>>): (rs: seq<CrawlResult>)
    ensures |rs| == |reports|
    ensures forall i :: 0 <= i < |rs| ==>
      rs[i] == reports[i].(linkingUrls := Lookup(sources, reports[i].url, []))
  {
    seq(|reports|, i requires 0 <= i < |reports| => reports[i].(linkingUrls := Lookup(sources, reports[i].url, [])))
  }

  /** What `crawlPageLinks` did: the request it gave the pool, the linked-URL
      map it built, and the second phase's results, statistics and sum. */
  datatype LinksPhase = LinksPhase(request: PoolRequest, linked: Linked, phase: Phase)

  /** `crawlPageLinks`: derive the frontier from the phase-1 results
      `source` (visited in `order`), fetch it without following any further
      links, and annotate each non-200 report with the pages linking to it. */
  function CrawlPageLinks(source: map<string, FetchResult>, order: seq<string>, cfg: CrawlConfig, pool: Pool): (r: LinksPhase)
    requires Enumerates(order, source)
    ensures r.linked == LinkedUrls(source, order, cfg.links)
    ensures r.request == PoolRequest(r.linked.order, LinksConfig(cfg).http, cfg.throttle)
    ensures forall t :: t in r.request.urls ==> t !in source
    ensures var base := CrawlUrls(pool(r.request));
      && r.phase.results == base.results
      && r.phase.sum200 == base.sum200
      && r.phase.stats == base.stats.(non200Urls := Annotate(base.stats.non200Urls, r.linked.sources))
    ensures WellFormed(r.phase.stats)
  {
    var linked := LinkedUrls(source, order, cfg.links);
    forall t | t in linked.order
      ensures t !in source
    {
      FrontierMembership(source, order, cfg.links, t);
    }
    var request := PoolRequest(linked.order, LinksConfig(cfg).http, cfg.throttle);
    var base := CrawlUrls(pool(request));
    var reports := Annotate(base.stats.non200Urls, linked.sources);
    ReportCodesSameStatuses(reports, base.stats.non200Urls);
    LinksPhase(request, linked, base.(stats := base.stats.(non200Urls := reports)))
  }

  /** The annotation of a second-phase report lists exactly the phase-1
      pages that link to its URL through a followed link, once per link. */
  lemma AnnotationIsLinkingPages(source: map<string, FetchResult>, order: seq<string>, cfg: CrawlConfig, pool: Pool)
    requires Enumerates(order, source)
    ensures var reports := CrawlPageLinks(source, order, cfg, pool).phase.stats.non200Urls;
      forall i :: 0 <= i < |reports| ==>
        reports[i].linkingUrls == LinkingSources(Occurrences(source, order), source.Keys, cfg.links, reports[i].url)
  {
    var reports := CrawlPageLinks(source, order, cfg, pool).phase.stats.non200Urls;
    forall i | 0 <= i < |reports|
      ensures reports[i].linkingUrls == LinkingSources(Occurrences(source, order), source.Keys, cfg.links, reports[i].url)
    {
      CollectSources(Occurrences(source, order), source.Keys, cfg.links, reports[i].url);
    }
  }

}
