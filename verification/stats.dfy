/** The statistics side of pkg/crawler/crawl.go: the per-result fold
    (`populateCrawlStats`, driven by `crawlUrls`) and `MergeCrawlStats`.

    The Go `map[int]int` histogram is a multiset of status codes here: the
    count of a code is its multiplicity, a missing key (or a nil map) counts
    zero, and the sum of all counts is the multiset's size. */
module Stats {
  import opened Wrappers
  import opened GoInt
  import opened Http

  const StatusOK: int := 200

  /** The record kept for a response whose status was not 200. */
  datatype CrawlResult = CrawlResult(url: string, statusCode: int, time: int, linkingUrls: seq<string>)

  datatype CrawlStats = CrawlStats(
    total: int,
    statusCodes: multiset<int>,
    average200Time: int,
    max200Time: int,
    non200Urls: seq<CrawlResult>)

  /** The statistics of a phase before its first result. */
  const EmptyStats: CrawlStats := CrawlStats(0, multiset{}, 0, 0, [])

  /** The server time of a result; a result without a timing record counts 0. */
  function ServerTime(r: FetchResult): nat
  {
    if r.serverTime.Some? then r.serverTime.value else 0
  }

  function Report(r: FetchResult): CrawlResult
  {
    CrawlResult(r.url, r.statusCode, ServerTime(r), [])
  }

  function ReportCodes(reports: seq<CrawlResult>): multiset<int>
  {
    multiset(seq(|reports|, i requires 0 <= i < |reports| => reports[i].statusCode))
  }

  /** The accounting invariant: every response is counted once in the
      histogram, and each non-200 response also has exactly one report. */
  ghost predicate WellFormed(s: CrawlStats)
  {
    && s.total == |s.statusCodes|
    && s.total == s.statusCodes[StatusOK] + |s.non200Urls|
    && ReportCodes(s.non200Urls)[StatusOK] == 0
    && forall c :: c != StatusOK ==> s.statusCodes[c] == ReportCodes(s.non200Urls)[c]
  }

  lemma ReportCodesAppend(a: seq<CrawlResult>, b: seq<CrawlResult>)
    ensures ReportCodes(a + b) == ReportCodes(a) + ReportCodes(b)
  {
    var ca := seq(|a|, i requires 0 <= i < |a| => a[i].statusCode);
    var cb := seq(|b|, i requires 0 <= i < |b| => b[i].statusCode);
    assert seq(|a + b|, i requires 0 <= i < |a + b| => (a + b)[i].statusCode) == ca + cb;
  }

  lemma ReportCodesSameStatuses(a: seq<CrawlResult>, b: seq<CrawlResult>)
    requires |a| == |b| && forall i :: 0 <= i < |a| ==> a[i].statusCode == b[i].statusCode
    ensures ReportCodes(a) == ReportCodes(b)
  {
    assert seq(|a|, i requires 0 <= i < |a| => a[i].statusCode) == seq(|b|, i requires 0 <= i < |b| => b[i].statusCode);
  }

  /** The running state of one phase: its statistics and the sum of the
      server times of its 200 responses, kept beside them. */
  datatype Tally = Tally(stats: CrawlStats, sum200: int)

  /** `populateCrawlStats`: one more result counted, in exactly its own
      status bucket; a 200 adds its time to the sum and may raise the
      maximum, any other status is reported. */
  function PopulateCrawlStats(r: FetchResult, t: Tally): (u: Tally)
    ensures u.stats.total == t.stats.total + 1
    ensures u.stats.statusCodes == t.stats.statusCodes + multiset{r.statusCode}
    ensures forall c :: u.stats.statusCodes[c] == t.stats.statusCodes[c] + (if c == r.statusCode then 1 else 0)
    ensures u.stats.average200Time == t.stats.average200Time
    ensures r.statusCode == StatusOK ==>
      && u.sum200 == t.sum200 + ServerTime(r)
      && u.stats.max200Time >= t.stats.max200Time && u.stats.max200Time >= ServerTime(r)
      && (u.stats.max200Time == t.stats.max200Time || u.stats.max200Time == ServerTime(r))
      && u.stats.non200Urls == t.stats.non200Urls
    ensures r.statusCode != StatusOK ==>
      && u.sum200 == t.sum200
      && u.stats.max200Time == t.stats.max200Time
      && u.stats.non200Urls == t.stats.non200Urls + [Report(r)]
    ensures WellFormed(t.stats) ==> WellFormed(u.stats)
  {
    var s := t.stats;
    var time := ServerTime(r);
    var codes := s.statusCodes + multiset{r.statusCode};
    if r.statusCode == StatusOK then
      var max := if time > s.max200Time then time else s.max200Time;
      Tally(s.(total := s.total + 1, statusCodes := codes, max200Time := max), t.sum200 + time)
    else
      ReportCodesAppend(s.non200Urls, [Report(r)]);
      assert ReportCodes([Report(r)]) == multiset{r.statusCode} by {
        assert seq(1, i requires 0 <= i < 1 => [Report(r)][i].statusCode) == [r.statusCode];
      }
      Tally(s.(total := s.total + 1, statusCodes := codes, non200Urls := s.non200Urls + [Report(r)]), t.sum200)
  }

  function Statuses(rs: seq<FetchResult>): (cs: seq<int>)
    ensures |cs| == |rs|
    ensures forall i :: 0 <= i < |rs| ==> cs[i] == rs[i].statusCode
  {
    seq(|rs|, i requires 0 <= i < |rs| => rs[i].statusCode)
  }

  lemma StatusesLast(rs: seq<FetchResult>)
    requires |rs| > 0
    ensures multiset(Statuses(rs)) == multiset(Statuses(rs[..|rs| - 1])) + multiset{rs[|rs| - 1].statusCode}
  {
    assert Statuses(rs) == Statuses(rs[..|rs| - 1]) + [rs[|rs| - 1].statusCode];
  }

  /** The number of 200 responses among `rs`. */
  function Count200(rs: seq<FetchResult>): nat
  {
    multiset(Statuses(rs))[StatusOK]
  }

  /** What `crawlUrls` returns: the results by URL, the phase's statistics
      and the sum of its 200 server times. */
  datatype Phase = Phase(results: map<string, FetchResult>, stats: CrawlStats, sum200: int)

  /** The statistics half of `crawlUrls`: `populateCrawlStats` applied to
      each result in arrival order, starting from empty statistics. The
      average is never set here. */
  function PopulateAll(rs: seq<FetchResult>): (t: Tally)
    ensures t.stats.total == |rs|
    ensures t.stats.statusCodes == multiset(Statuses(rs))
    ensures t.stats.average200Time == 0
    ensures WellFormed(t.stats)
    decreases |rs|
  {
    if |rs| == 0 then
      Tally(EmptyStats, 0)
    else
      StatusesLast(rs);
      PopulateCrawlStats(rs[|rs| - 1], PopulateAll(rs[..|rs| - 1]))
  }

  /** The map half of `crawlUrls`: `results[result.URL] = result` for each
      result in arrival order. */
  function IndexByUrl(rs: seq<FetchResult>): (results: map<string, FetchResult>)
    ensures forall u :: u in results ==> results[u].url == u
    decreases |rs|
  {
    if |rs| == 0 then map[] else IndexByUrl(rs[..|rs| - 1])[rs[|rs| - 1].url := rs[|rs| - 1]]
  }

  /** `crawlUrls`, consuming the pool's results `rs` in the order they
      arrived. Its one loop both fills the map and folds the statistics;
      the two are independent, so they are computed apart here. */
  function CrawlUrls(rs: seq<FetchResult>): (p: Phase)
    ensures p.stats.total == |rs|
    ensures p.stats.statusCodes == multiset(Statuses(rs))
    ensures p.stats.average200Time == 0
    ensures WellFormed(p.stats)
  {
    var t := PopulateAll(rs);
    Phase(IndexByUrl(rs), t.stats, t.sum200)
  }

  /** The time a result contributes to the 200-time sum. */
  function Time200(r: FetchResult): nat
  {
    if r.statusCode == StatusOK then ServerTime(r) else 0
  }

  /** Sum of the server times of the 200 responses among `rs`. */
  function Sum200(rs: seq<FetchResult>): nat
  {
    if |rs| == 0 then 0 else Time200(rs[0]) + Sum200(rs[1..])
  }

  /** Largest server time of the 200 responses among `rs`, 0 if none. */
  function Max200(rs: seq<FetchResult>): nat
  {
    if |rs| == 0 then 0
    else var m := Max200(rs[1..]); if Time200(rs[0]) > m then Time200(rs[0]) else m
  }

  /** The reports of the non-200 responses among `rs`, in order. */
  function Reports(rs: seq<FetchResult>): seq<CrawlResult>
  {
    if |rs| == 0 then []
    else (if rs[0].statusCode != StatusOK then [Report(rs[0])] else []) + Reports(rs[1..])
  }

  lemma {:induction false} Sum200Snoc(rs: seq<FetchResult>, r: FetchResult)
    ensures Sum200(rs + [r]) == Sum200(rs) + Time200(r)
  {
    if |rs| > 0 {
      assert (rs + [r])[1..] == rs[1..] + [r];
      Sum200Snoc(rs[1..], r);
    }
  }

  lemma {:induction false} Max200Snoc(rs: seq<FetchResult>, r: FetchResult)
    ensures Max200(rs + [r]) == if Time200(r) > Max200(rs) then Time200(r) else Max200(rs)
  {
    if |rs| > 0 {
      assert (rs + [r])[1..] == rs[1..] + [r];
      Max200Snoc(rs[1..], r);
    }
  }

  lemma {:induction false} ReportsSnoc(rs: seq<FetchResult>, r: FetchResult)
    ensures Reports(rs + [r]) == Reports(rs) + (if r.statusCode != StatusOK then [Report(r)] else [])
  {
    if |rs| > 0 {
      assert (rs + [r])[1..] == rs[1..] + [r];
      ReportsSnoc(rs[1..], r);
    }
  }

  lemma SplitLast<T>(s: seq<T>)
    requires |s| > 0
    ensures s[..|s| - 1] + [s[|s| - 1]] == s
  {
  }

  /** The carried sum is the sum of the server times of exactly the 200
      responses of the phase. */
  lemma {:induction false} CrawlUrlsSum200(rs: seq<FetchResult>)
    ensures CrawlUrls(rs).sum200 == Sum200(rs)
  {
    PopulateAllSum200(rs);
  }

  lemma {:induction false} PopulateAllSum200(rs: seq<FetchResult>)
    ensures PopulateAll(rs).sum200 == Sum200(rs)
  {
    if |rs| > 0 {
      var prefix := rs[..|rs| - 1];
      PopulateAllSum200(prefix);
      Sum200Snoc(prefix, rs[|rs| - 1]);
      SplitLast(rs);
    }
  }

  /** The phase reports every non-200 response once, in arrival order, with
      no linking URLs. */
  lemma {:induction false} CrawlUrlsReports(rs: seq<FetchResult>)
    ensures CrawlUrls(rs).stats.non200Urls == Reports(rs)
  {
    PopulateAllReports(rs);
  }

  lemma {:induction false} PopulateAllReports(rs: seq<FetchResult>)
    ensures PopulateAll(rs).stats.non200Urls == Reports(rs)
  {
    if |rs| > 0 {
      var prefix := rs[..|rs| - 1];
      PopulateAllReports(prefix);
      ReportsSnoc(prefix, rs[|rs| - 1]);
      SplitLast(rs);
    }
  }

  lemma {:induction false} PopulateAllMax(rs: seq<FetchResult>)
    ensures PopulateAll(rs).stats.max200Time == Max200(rs)
  {
    if |rs| > 0 {
      var prefix := rs[..|rs| - 1];
      PopulateAllMax(prefix);
      Max200Snoc(prefix, rs[|rs| - 1]);
      SplitLast(rs);
    }
  }

  /** `Max200` is the largest 200 server time, or 0 when there is none. */
  lemma {:induction false} Max200IsMaximum(rs: seq<FetchResult>)
    ensures forall i :: 0 <= i < |rs| && rs[i].statusCode == StatusOK ==> ServerTime(rs[i]) <= Max200(rs)
    ensures Max200(rs) == 0 || exists i :: 0 <= i < |rs| && rs[i].statusCode == StatusOK && ServerTime(rs[i]) == Max200(rs)
  {
    if |rs| > 0 {
      var tail := rs[1..];
      Max200IsMaximum(tail);
      forall i | 0 < i < |rs|
        ensures rs[i] == tail[i - 1]
      {
      }
      if Max200(rs) != 0 && Max200(rs) == Max200(tail) && Time200(rs[0]) != Max200(rs) {
        var i :| 0 <= i < |tail| && tail[i].statusCode == StatusOK && ServerTime(tail[i]) == Max200(tail);
        assert rs[i + 1] == tail[i];
      }
    }
  }

  /** The phase's maximum 200 time is the largest server time among its 200
      responses, or 0 when it has none. */
  lemma CrawlUrlsMax(rs: seq<FetchResult>)
    ensures var m := CrawlUrls(rs).stats.max200Time;
      && (forall i :: 0 <= i < |rs| && rs[i].statusCode == StatusOK ==> ServerTime(rs[i]) <= m)
      && (m == 0 || exists i :: 0 <= i < |rs| && rs[i].statusCode == StatusOK && ServerTime(rs[i]) == m)
  {
    PopulateAllMax(rs);
    Max200IsMaximum(rs);
  }

  /** The position of the last result for `u` among `rs`. */
  ghost predicate LastFor(rs: seq<FetchResult>, u: string, i: int)
  {
    0 <= i < |rs| && rs[i].url == u && forall j :: i < j < |rs| ==> rs[j].url != u
  }

  /** The results map holds exactly the URLs of the phase, each mapped to
      the last result that arrived for it. */
  lemma {:induction false} CrawlUrlsResults(rs: seq<FetchResult>)
    ensures forall u :: u in CrawlUrls(rs).results <==> u in UrlsOf(rs)
    ensures forall u :: u in CrawlUrls(rs).results ==>
      exists i :: LastFor(rs, u, i) && rs[i] == CrawlUrls(rs).results[u]
  {
    IndexByUrlLast(rs);
  }

  lemma {:induction false} IndexByUrlLast(rs: seq<FetchResult>)
    ensures forall u :: u in IndexByUrl(rs) <==> u in UrlsOf(rs)
    ensures forall u :: u in IndexByUrl(rs) ==> exists i :: LastFor(rs, u, i) && rs[i] == IndexByUrl(rs)[u]
  {
    if |rs| > 0 {
      var prefix := rs[..|rs| - 1];
      var r := rs[|rs| - 1];
      IndexByUrlLast(prefix);
      var before := IndexByUrl(prefix);
      var results := IndexByUrl(rs);
      assert UrlsOf(rs) == UrlsOf(prefix) + [r.url];
      forall u | u in results
        ensures exists i :: LastFor(rs, u, i) && rs[i] == results[u]
      {
        if u == r.url {
          assert LastFor(rs, u, |rs| - 1);
        } else {
          var i :| LastFor(prefix, u, i) && prefix[i] == before[u];
          assert rs[i] == prefix[i];
          assert LastFor(rs, u, i);
        }
      }
    }
  }

  /** The number of 200 responses a set of statistics accounts for. */
  function Count200Of(s: CrawlStats): nat
  {
    s.statusCodes[StatusOK]
  }

  /** `MergeCrawlStats` divides by the merged 200 count whenever either side
      carries an average; in Go a zero count there is a run-time panic. */
  predicate AverageDefined(a: CrawlStats, b: CrawlStats)
  {
    a.average200Time != 0 || b.average200Time != 0 ==> Count200Of(a) + Count200Of(b) != 0
  }

  /** `MergeCrawlStats`: totals and histograms add up, the maximum is the
      larger one, the non-200 reports of `a` come before those of `b`, and
      the average is the count-weighted mean of the two, truncated toward
      zero as Go's integer division does. */
  function MergeCrawlStats(a: CrawlStats, b: CrawlStats): (m: CrawlStats)
    requires AverageDefined(a, b)
    ensures m.total == a.total + b.total
    ensures m.statusCodes == a.statusCodes + b.statusCodes
    ensures m.max200Time >= a.max200Time && m.max200Time >= b.max200Time
    ensures m.max200Time == a.max200Time || m.max200Time == b.max200Time
    ensures m.non200Urls == a.non200Urls + b.non200Urls
    ensures a.average200Time == 0 && b.average200Time == 0 ==> m.average200Time == 0
    ensures a.average200Time != 0 || b.average200Time != 0 ==>
      m.average200Time == Div(a.average200Time * Count200Of(a) + b.average200Time * Count200Of(b), Count200Of(m))
    ensures WellFormed(a) && WellFormed(b) ==> WellFormed(m)
  {
    var codes := a.statusCodes + b.statusCodes;
    var max := if a.max200Time > b.max200Time then a.max200Time else b.max200Time;
    var average :=
      if a.average200Time != 0 || b.average200Time != 0 then
        Div(a.average200Time * Count200Of(a) + b.average200Time * Count200Of(b), codes[StatusOK])
      else 0;
    ReportCodesAppend(a.non200Urls, b.non200Urls);
    CrawlStats(a.total + b.total, codes, average, max, a.non200Urls + b.non200Urls)
  }

  /** The merged average is a weighted mean: when both sides saw 200
      responses, it lies between their two averages. */
  lemma MergeAverageBetween(a: CrawlStats, b: CrawlStats)
    requires Count200Of(a) > 0 && Count200Of(b) > 0
    ensures var avg := MergeCrawlStats(a, b).average200Time;
      && (avg >= a.average200Time || avg >= b.average200Time)
      && (avg <= a.average200Time || avg <= b.average200Time)
  {
    if a.average200Time != 0 || b.average200Time != 0 {
      WeightedMeanBetween(a.average200Time, b.average200Time, Count200Of(a), Count200Of(b));
    }
  }

  /** Merging two sides with the same average keeps that average. */
  lemma MergeSameAverage(a: CrawlStats, b: CrawlStats)
    requires Count200Of(a) > 0 && Count200Of(b) > 0
    requires a.average200Time == b.average200Time
    ensures MergeCrawlStats(a, b).average200Time == a.average200Time
  {
    MergeAverageBetween(a, b);
  }

  /** Merging is symmetric in everything but the order of the reports. */
  lemma MergeCommutes(a: CrawlStats, b: CrawlStats)
    requires AverageDefined(a, b)
    ensures var ab, ba := MergeCrawlStats(a, b), MergeCrawlStats(b, a);
      && ab.total == ba.total
      && ab.statusCodes == ba.statusCodes
      && ab.max200Time == ba.max200Time
      && ab.average200Time == ba.average200Time
      && multiset(ab.non200Urls) == multiset(ba.non200Urls)
  {
  }

  /** Empty statistics are a neutral element, given a non-negative maximum
      (empty statistics carry a maximum of 0). */
  lemma MergeEmpty(s: CrawlStats)
    requires s.max200Time >= 0
    requires s.average200Time != 0 ==> Count200Of(s) != 0
    ensures MergeCrawlStats(s, EmptyStats) == s
    ensures MergeCrawlStats(EmptyStats, s) == s
  {
    if s.average200Time != 0 {
      DivExact(s.average200Time, Count200Of(s));
      assert s.average200Time * Count200Of(s) + EmptyStats.average200Time * Count200Of(EmptyStats)
        == s.average200Time * Count200Of(s);
      assert EmptyStats.average200Time * Count200Of(EmptyStats) + s.average200Time * Count200Of(s)
        == s.average200Time * Count200Of(s);
    }
  }

  /** Merging is associative in everything but the average: totals,
      histograms, maxima and the report sequence. */
  lemma MergeAssociative(a: CrawlStats, b: CrawlStats, c: CrawlStats)
    requires a.average200Time == 0 && b.average200Time == 0 && c.average200Time == 0
    ensures MergeCrawlStats(MergeCrawlStats(a, b), c) == MergeCrawlStats(a, MergeCrawlStats(b, c))
  {
  }

  /** With non-zero averages associativity fails: truncating the inner
      average loses what the outer one needs. */
  lemma AverageNotAssociative()
    ensures var a := CrawlStats(1, multiset{StatusOK}, 3, 3, []);
      var b := CrawlStats(1, multiset{StatusOK}, 0, 0, []);
      var c := CrawlStats(1, multiset{StatusOK}, 0, 0, []);
      && MergeCrawlStats(MergeCrawlStats(a, b), c).average200Time == 0
      && MergeCrawlStats(a, MergeCrawlStats(b, c)).average200Time == 1
  {
    var a := CrawlStats(1, multiset{StatusOK}, 3, 3, []);
    var b := CrawlStats(1, multiset{StatusOK}, 0, 0, []);
    var c := CrawlStats(1, multiset{StatusOK}, 0, 0, []);
    assert Count200Of(a) == 1 && Count200Of(b) == 1 && Count200Of(c) == 1;
    var ab := MergeCrawlStats(a, b);
    assert Count200Of(ab) == 2;
    assert ab.average200Time == Div(3, 2) == 1;
    var bc := MergeCrawlStats(b, c);
    assert Count200Of(bc) == 2 && bc.average200Time == 0;
    assert MergeCrawlStats(ab, c).average200Time == Div(2, 3) == 0;
    assert MergeCrawlStats(a, bc).average200Time == Div(3, 3) == 1;
  }
}
