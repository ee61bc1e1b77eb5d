/** The older batch crawler of util/crawl.go: URLs from a sitemap, with an
    optional host override, fetched in fixed-size batches of `throttle`
    URLs while two counters record the 200 and non-200 responses. */
module LegacyCrawl {
  import opened Wrappers
  import opened GoInt
  import opened Throttle
  import Stats

  datatype LegacyStats = LegacyStats(resp200: int, respNon200: int)

  /** The response counting of the batch loop: two independent tests, of
      which exactly one succeeds. */
  function CountResponse(s: LegacyStats, status: int): (u: LegacyStats)
    ensures u.resp200 + u.respNon200 == s.resp200 + s.respNon200 + 1
    ensures u.resp200 == s.resp200 + 1 <==> status == Stats.StatusOK
    ensures u.respNon200 == s.respNon200 + 1 <==> status != Stats.StatusOK
  {
    var s1 := if status == Stats.StatusOK then s.(resp200 := s.resp200 + 1) else s;
    if status != Stats.StatusOK then s1.(respNon200 := s1.respNon200 + 1) else s1
  }

  /** The number of URLs among `us` whose response is a 200. */
  function Count200Urls(us: seq<string>, statusOf: string -> int): nat
  {
    if |us| == 0 then 0 else (if statusOf(us[0]) == Stats.StatusOK then 1 else 0) + Count200Urls(us[1..], statusOf)
  }

  lemma {:induction false} Count200UrlsAppend(a: seq<string>, b: seq<string>, statusOf: string -> int)
    ensures Count200Urls(a + b, statusOf) == Count200Urls(a, statusOf) + Count200Urls(b, statusOf)
  {
    if |a| == 0 {
      assert a + b == b;
    } else {
      assert (a + b)[1..] == a[1..] + b;
      Count200UrlsAppend(a[1..], b, statusOf);
    }
  }

  /** Euclidean division is determined by its quotient-remainder equation. */
  lemma DivModUnique(n: int, t: int, q: int, r: int)
    requires t > 0 && n == q * t + r && 0 <= r < t
    ensures n / t == q && n % t == r
  {
    var q' := n / t;
    assert n == q' * t + n % t;
    assert (q' + 1) * t == q' * t + t && (q + 1) * t == q * t + t;
    if q' < q {
      MulMonotone(q' + 1, q, t);
    } else if q < q' {
      MulMonotone(q + 1, q', t);
    }
  }

  /** The number of batches: the ceiling of `n / t`. Go computes it in
      floating point; for the sizes a sitemap has that is exact. */
  function NumIter(n: nat, t: int): (r: nat)
    requires t >= 1
    ensures n <= r * t
    ensures r == 0 || (r - 1) * t < n
  {
    var r := (n + t - 1) / t;
    assert r * t <= n + t - 1 < r * t + t;
    assert (r - 1) * t == r * t - t;
    r
  }

  /** Where batch `i` starts. */
  function Low(i: nat, t: int): int
  {
    i * t
  }

  /** Where batch `i` ends before clamping: `throttle` URLs after its start. */
  function NominalHigh(i: nat, t: int): int
  {
    i * t + t - 1
  }

  /** The clamp as written: it fires only when the nominal end is strictly
      past the URL count. */
  function HighAsWritten(i: nat, t: int, n: nat): int
  {
    if NominalHigh(i, t) > n then n - 1 else NominalHigh(i, t)
  }

  /** The clamp as the comment beside it intends: never past the last URL. */
  function High(i: nat, t: int, n: nat): (h: int)
    ensures h <= n - 1
    ensures h == NominalHigh(i, t) || h == n - 1
    ensures h < NominalHigh(i, t) ==> h == n - 1
  {
    if NominalHigh(i, t) >= n then n - 1 else NominalHigh(i, t)
  }

  /** Every batch starts inside the URL list. */
  lemma BatchLowInRange(n: nat, t: int, i: nat)
    requires t >= 1 && i < NumIter(n, t)
    ensures 0 <= Low(i, t) < n
  {
    var r := NumIter(n, t);
    MulMonotone(i, r - 1, t);
  }

  /** The nominal ranges partition the indices: index `k` lies in batch
      `k / t` and in no other. */
  lemma NominalPartition(n: nat, t: int, k: nat, i: nat)
    requires t >= 1 && k < n
    ensures k / t < NumIter(n, t)
    ensures Low(k / t, t) <= k <= NominalHigh(k / t, t)
    ensures Low(i, t) <= k <= NominalHigh(i, t) ==> i == k / t
  {
    var q := k / t;
    assert q * t <= k < q * t + t;
    if q >= NumIter(n, t) {
      MulMonotone(NumIter(n, t), q, t);
    }
    if Low(i, t) <= k <= NominalHigh(i, t) {
      DivModUnique(k, t, i, k - i * t);
    }
  }

  /** With the corrected clamp every batch is a non-empty range inside the
      list, and it ends where the next one starts or at the end. */
  lemma CorrectedBounds(n: nat, t: int, i: nat)
    requires t >= 1 && i < NumIter(n, t)
    ensures 0 <= Low(i, t) <= High(i, t, n) < n
    ensures High(i, t, n) + 1 == (if Low(i + 1, t) < n then Low(i + 1, t) else n)
  {
    BatchLowInRange(n, t, i);
    assert Low(i + 1, t) == i * t + t;
  }

  /** A count one short of a multiple of `t` (for `t >= 2`) leaves
      remainder `t - 1` and needs one more batch than its quotient. */
  lemma OneShortOfMultiple(q: nat, t: int)
    requires t >= 2
    ensures (q * t + t - 1) / t == q && (q * t + t - 1) % t == t - 1
    ensures NumIter(q * t + t - 1, t) == q + 1
  {
    DivModUnique(q * t + t - 1, t, q, t - 1);
    assert (q * t + t - 1) + t - 1 == (q + 1) * t + (t - 2);
    DivModUnique((q + 1) * t + (t - 2), t, q + 1, t - 2);
  }

  /** The clamp as written lets batch `i` end past the list exactly when the
      nominal end equals the URL count: that is, when the throttle is at
      least 2, `n mod t == t - 1`, and `i` is the last batch. */
  lemma AsWrittenOverrun(n: nat, t: int, i: nat)
    requires t >= 1 && i < NumIter(n, t)
    ensures HighAsWritten(i, t, n) >= n <==> t >= 2 && n % t == t - 1 && i == NumIter(n, t) - 1
  {
    if HighAsWritten(i, t, n) >= n {
      assert n == i * t + t - 1;
      if t >= 2 {
        OneShortOfMultiple(i, t);
      }
    }
    if t >= 2 && n % t == t - 1 && i == NumIter(n, t) - 1 {
      assert n == (n / t) * t + t - 1;
      OneShortOfMultiple(n / t, t);
    }
  }

  /** The backing array of `urls` once `append` has grown it to capacity
      `c`: the URLs, then zero-valued (empty) strings. A slice expression may
      reach into that tail, since Go checks its upper bound against the
      capacity, not the length. */
  function Backing(urls: seq<string>, c: nat): (a: seq<string>)
    requires |urls| <= c
    ensures |a| == c && a[..|urls|] == urls
    ensures forall k :: |urls| <= k < c ==> a[k] == ""
  {
    urls + seq(c - |urls|, _ => "")
  }

  /** The slice `urls[low : high+1]` of batch `i` with the clamp as written,
      where `c` is the capacity `append` left `urls` with. `None` exactly
      when Go's bounds check panics, that is when the end passes the
      capacity; an end past the length but within the capacity takes the
      backing array's empty strings. */
  function BatchAsWritten(urls: seq<string>, c: nat, i: nat, t: int): (b: Option<seq<string>>)
    requires |urls| <= c
    ensures b.None? <==> !(0 <= Low(i, t) <= HighAsWritten(i, t, |urls|) + 1 <= c)
    ensures b.Some? ==> |b.value| == HighAsWritten(i, t, |urls|) + 1 - Low(i, t)
    ensures b.Some? ==> forall k :: 0 <= k < |b.value| ==>
      b.value[k] == (if Low(i, t) + k < |urls| then urls[Low(i, t) + k] else "")
  {
    var low, high := Low(i, t), HighAsWritten(i, t, |urls|);
    if 0 <= low <= high + 1 <= c then Some(Backing(urls, c)[low..high + 1]) else None
  }

  /** Three URLs with a throttle of 2: the second batch as written runs to
      index 3, one past the end. Appending three strings to a nil slice
      leaves capacity 4, so `urls[2:4]` does not panic: the batch is the
      last URL and an empty string. The corrected clamp ends it at 2. */
  lemma OverrunExample()
    ensures NumIter(3, 2) == 2
    ensures HighAsWritten(1, 2, 3) == 3
    ensures BatchAsWritten(["a", "b", "c"], 4, 1, 2) == Some(["c", ""])
    ensures High(1, 2, 3) == 2
  {
    assert NominalHigh(1, 2) == 3;
    assert (3 + 2 - 1) / 2 == 2;
    var urls := ["a", "b", "c"];
    assert Backing(urls, 4) == ["a", "b", "c", ""];
    assert Backing(urls, 4)[2..4] == ["c", ""];
  }

  /** Four URLs with a throttle of 5: the only batch as written runs to
      index 4. Appending four strings to a nil slice leaves capacity 4, so
      `urls[0:5]` panics. */
  lemma PanicExample()
    ensures NumIter(4, 5) == 1
    ensures HighAsWritten(0, 5, 4) == 4
    ensures BatchAsWritten(["a", "b", "c", "d"], 4, 0, 5) == None
  {
    assert NominalHigh(0, 5) == 4;
    assert (4 + 5 - 1) / 5 == 1;
  }

  /** Batch `i` with the corrected clamp. */
  function Batch(urls: seq<string>, i: nat, t: int): (b: seq<string>)
    requires t >= 1 && i < NumIter(|urls|, t)
    ensures |b| >= 1
    ensures b == urls[Low(i, t)..High(i, t, |urls|) + 1]
  {
    CorrectedBounds(|urls|, t, i);
    urls[Low(i, t)..High(i, t, |urls|) + 1]
  }

  function Flatten(bs: seq<seq<string>>): seq<string>
  {
    if |bs| == 0 then [] else Flatten(bs[..|bs| - 1]) + bs[|bs| - 1]
  }

  /** How far the first `i` batches reach. */
  function Covered(i: nat, t: int, n: nat): (c: nat)
    requires t >= 1
    ensures c <= n
  {
    if Low(i, t) < n then Low(i, t) else n
  }

  /** `urls` with each URL's host replaced by `host` when `host` is not
      empty. `parse` and `render` stand for `url.Parse` and `URL.String`,
      which are not part of this model; a URL that does not parse makes Go
      panic, here `None`. */
  function OverrideHosts(locs: seq<string>, host: string, parse: string -> Option<Url>, render: Url -> string): (r: Option<seq<string>>)
    ensures r.None? <==> exists k :: 0 <= k < |locs| && parse(locs[k]).None?
    ensures r.Some? ==> |r.value| == |locs| && forall k :: 0 <= k < |locs| ==>
      r.value[k] == render(if |host| > 0 then parse(locs[k]).value.(host := host) else parse(locs[k]).value)
    decreases |locs|
  {
    if |locs| == 0 then Some([])
    else
      var prev := OverrideHosts(locs[..|locs| - 1], host, parse, render);
      var loc := locs[|locs| - 1];
      if prev.None? then
        assert forall k :: 0 <= k < |locs| - 1 ==> locs[..|locs| - 1][k] == locs[k];
        None
      else
        match parse(loc)
        case None => None
        case Some(u) =>
          var u' := if |host| > 0 then u.(host := host) else u;
          Some(prev.value + [render(u')])
  }

  /** A parsed URL, as far as the host override is concerned. */
  datatype Url = Url(scheme: string, host: string, rest: string)

  /** With a parser that reads back what `render` writes, every URL carries
      the override host afterwards; with no host and a parser that
      reproduces its input, the URLs pass through unchanged, in order. */
  lemma OverrideHostsMeaning(locs: seq<string>, host: string, parse: string -> Option<Url>, render: Url -> string)
    requires forall u :: parse(render(u)) == Some(u)
    requires forall k :: 0 <= k < |locs| ==> parse(locs[k]).Some?
    ensures OverrideHosts(locs, host, parse, render).Some?
    ensures |host| > 0 ==> forall k :: 0 <= k < |locs| ==>
      parse(OverrideHosts(locs, host, parse, render).value[k]) == Some(parse(locs[k]).value.(host := host))
    ensures |host| == 0 && (forall k :: 0 <= k < |locs| ==> render(parse(locs[k]).value) == locs[k]) ==>
      OverrideHosts(locs, host, parse, render) == Some(locs)
  {
    var r := OverrideHosts(locs, host, parse, render);
    if |host| == 0 && (forall k :: 0 <= k < |locs| ==> render(parse(locs[k]).value) == locs[k]) {
      assert r.value == locs;
    }
  }

  /** Counting the responses of one batch. */
  method CountBatch(stats: LegacyStats, batch: seq<string>, statusOf: string -> int) returns (u: LegacyStats)
    ensures u.resp200 + u.respNon200 == stats.resp200 + stats.respNon200 + |batch|
    ensures u.resp200 == stats.resp200 + Count200Urls(batch, statusOf)
  {
    u := stats;
    var j := 0;
    while j < |batch|
      invariant 0 <= j <= |batch|
      invariant u.resp200 + u.respNon200 == stats.resp200 + stats.respNon200 + j
      invariant u.resp200 == stats.resp200 + Count200Urls(batch[..j], statusOf)
    {
      assert batch[..j + 1] == batch[..j] + [batch[j]];
      Count200UrlsAppend(batch[..j], [batch[j]], statusOf);
      u := CountResponse(u, statusOf(batch[j]));
      j := j + 1;
    }
    assert batch[..j] == batch;
  }

  /** Batch `i` covers exactly the indices from where the first `i` batches
      stop to where the first `i + 1` stop; after all batches, everything. */
  lemma CoveredStep(n: nat, t: int, i: nat)
    requires t >= 1 && i < NumIter(n, t)
    ensures Covered(i, t, n) == Low(i, t)
    ensures Covered(i + 1, t, n) == High(i, t, n) + 1
    ensures i + 1 == NumIter(n, t) ==> Covered(i + 1, t, n) == n
  {
    CorrectedBounds(n, t, i);
    if i + 1 == NumIter(n, t) {
      assert Low(i + 1, t) == NumIter(n, t) * t;
    }
  }

  lemma FlattenSnoc(bs: seq<seq<string>>, b: seq<string>)
    ensures Flatten(bs + [b]) == Flatten(bs) + b
  {
    assert (bs + [b])[..|bs|] == bs;
  }

  /** Fetching batch `i` extends the covered prefix by exactly that batch. */
  lemma AdvanceBatch(urls: seq<string>, t: int, i: nat)
    requires t >= 1 && i < NumIter(|urls|, t)
    ensures urls[..Covered(i + 1, t, |urls|)] == urls[..Covered(i, t, |urls|)] + Batch(urls, i, t)
    ensures |Batch(urls, i, t)| <= t
  {
    CoveredStep(|urls|, t, i);
    var low, high := Low(i, t), High(i, t, |urls|);
    assert urls[..low] + urls[low..high + 1] == urls[..high + 1];
  }

  /** After `i` batches: the batches fetched so far concatenate to the
      covered prefix, none is larger than the throttle, and every URL of
      that prefix was counted once. */
  ghost predicate Progress(urls: seq<string>, t: int, statusOf: string -> int, i: nat,
                           stats: LegacyStats, batches: seq<seq<string>>)
    requires t >= 1
  {
    && |batches| == i
    && Flatten(batches) == urls[..Covered(i, t, |urls|)]
    && (forall k :: 0 <= k < |batches| ==> |batches[k]| <= t)
    && stats.resp200 + stats.respNon200 == Covered(i, t, |urls|)
    && stats.resp200 == Count200Urls(urls[..Covered(i, t, |urls|)], statusOf)
  }

  /** Fetching and counting batch `i` keeps `Progress`. */
  lemma ProgressStep(urls: seq<string>, t: int, statusOf: string -> int, i: nat,
                     stats: LegacyStats, batches: seq<seq<string>>, next: LegacyStats)
    requires t >= 1 && i < NumIter(|urls|, t)
    requires Progress(urls, t, statusOf, i, stats, batches)
    requires next.resp200 + next.respNon200 == stats.resp200 + stats.respNon200 + |Batch(urls, i, t)|
    requires next.resp200 == stats.resp200 + Count200Urls(Batch(urls, i, t), statusOf)
    ensures Progress(urls, t, statusOf, i + 1, next, batches + [Batch(urls, i, t)])
  {
    AdvanceBatch(urls, t, i);
    Count200UrlsAppend(urls[..Covered(i, t, |urls|)], Batch(urls, i, t), statusOf);
    FlattenSnoc(batches, Batch(urls, i, t));
    CoveredStep(|urls|, t, i);
  }

  /** Once all batches are done, `Progress` covers every URL. */
  lemma ProgressDone(urls: seq<string>, t: int, statusOf: string -> int,
                     stats: LegacyStats, batches: seq<seq<string>>)
    requires t >= 1
    requires Progress(urls, t, statusOf, NumIter(|urls|, t), stats, batches)
    ensures Flatten(batches) == urls
    ensures stats.resp200 + stats.respNon200 == |urls|
    ensures stats.resp200 == Count200Urls(urls, statusOf)
  {
    var i := NumIter(|urls|, t);
    if i == 0 {
      assert |urls| == 0;
    } else {
      CoveredStep(|urls|, t, i - 1);
    }
    assert urls[..|urls|] == urls;
  }

  /** The case in which the clamp as written misses: a throttle of at
      least 2 and a URL count one short of a multiple of it. */
  predicate Overruns(n: nat, t: int)
  {
    t >= 2 && n % t == t - 1
  }

  /** The URLs the first `i` batches fetch with the clamp as written, in
      order; `None` once a slice panics. `c` is the capacity of `urls`. */
  function FetchedAsWritten(urls: seq<string>, c: nat, t: int, i: nat): Option<seq<string>>
    requires |urls| <= c
  {
    if i == 0 then Some([])
    else
      match FetchedAsWritten(urls, c, t, i - 1)
      case None => None
      case Some(prev) =>
        match BatchAsWritten(urls, c, i - 1, t)
        case None => None
        case Some(b) => Some(prev + b)
  }

  /** A batch whose end as written stays inside the list is the corrected
      batch. */
  lemma BatchAsWrittenAgrees(urls: seq<string>, c: nat, i: nat, t: int)
    requires t >= 1 && |urls| <= c && i < NumIter(|urls|, t)
    requires HighAsWritten(i, t, |urls|) < |urls|
    ensures BatchAsWritten(urls, c, i, t) == Some(Batch(urls, i, t))
  {
    CorrectedBounds(|urls|, t, i);
    var low, high := Low(i, t), HighAsWritten(i, t, |urls|);
    assert high == High(i, t, |urls|);
    assert Backing(urls, c)[low..high + 1] == urls[low..high + 1];
  }

  /** Up to the batch that overruns, the batches as written fetch exactly
      what the corrected ones do: the first `i` of them cover a prefix. */
  lemma {:induction false} AsWrittenPrefix(urls: seq<string>, c: nat, t: int, i: nat)
    requires t >= 1 && |urls| <= c && i <= NumIter(|urls|, t)
    requires i < NumIter(|urls|, t) || !Overruns(|urls|, t)
    ensures FetchedAsWritten(urls, c, t, i) == Some(urls[..Covered(i, t, |urls|)])
  {
    if i > 0 {
      AsWrittenPrefix(urls, c, t, i - 1);
      AsWrittenOverrun(|urls|, t, i - 1);
      BatchAsWrittenAgrees(urls, c, i - 1, t);
      AdvanceBatch(urls, t, i - 1);
    }
  }

  /** Outside the overrun case the loop as written fetches every URL once,
      in order, as the corrected loop does. */
  lemma AsWrittenAgrees(urls: seq<string>, c: nat, t: int)
    requires t >= 1 && |urls| <= c && !Overruns(|urls|, t)
    ensures FetchedAsWritten(urls, c, t, NumIter(|urls|, t)) == Some(urls)
  {
    var r := NumIter(|urls|, t);
    AsWrittenPrefix(urls, c, t, r);
    if r > 0 {
      CoveredStep(|urls|, t, r - 1);
    }
    assert urls[..|urls|] == urls;
  }

  /** In the overrun case there is a last batch, and as written it ends
      at index `n`, one past the list. */
  lemma LastBatchOverruns(n: nat, t: int)
    requires t >= 1 && Overruns(n, t)
    ensures NumIter(n, t) >= 1
    ensures HighAsWritten(NumIter(n, t) - 1, t, n) == n
    ensures Covered(NumIter(n, t) - 1, t, n) == Low(NumIter(n, t) - 1, t)
  {
    assert NumIter(n, t) != 0;
    AsWrittenOverrun(n, t, NumIter(n, t) - 1);
    CoveredStep(n, t, NumIter(n, t) - 1);
  }

  /** The overrunning last batch, within capacity: the rest of the list and
      one empty string. */
  lemma PhantomBatch(urls: seq<string>, c: nat, i: nat, t: int)
    requires |urls| < c && 0 <= Low(i, t) <= |urls| && HighAsWritten(i, t, |urls|) == |urls|
    ensures BatchAsWritten(urls, c, i, t) == Some(urls[Low(i, t)..] + [""])
  {
    assert Backing(urls, c)[Low(i, t)..|urls| + 1] == urls[Low(i, t)..] + [""];
  }

  /** In the overrun case the last batch as written reaches one past the
      list: with spare capacity the loop fetches an empty URL after the
      last real one; with none, the slice panics. */
  lemma AsWrittenPhantom(urls: seq<string>, c: nat, t: int)
    requires t >= 1 && |urls| <= c && Overruns(|urls|, t)
    ensures |urls| < c ==> FetchedAsWritten(urls, c, t, NumIter(|urls|, t)) == Some(urls + [""])
    ensures |urls| == c ==> FetchedAsWritten(urls, c, t, NumIter(|urls|, t)) == None
  {
    var n := |urls|;
    LastBatchOverruns(n, t);
    var last := NumIter(n, t) - 1;
    var low := Low(last, t);
    AsWrittenPrefix(urls, c, t, last);
    assert FetchedAsWritten(urls, c, t, last) == Some(urls[..low]);
    if n < c {
      PhantomBatch(urls, c, last, t);
      assert urls[..low] + (urls[low..] + [""]) == urls + [""];
    }
  }

  /** The batch loop with the corrected clamp: every URL is fetched in
      exactly one batch, in order, and each response is counted once, as
      200 or as non-200. `statusOf` stands for the status of the response
      `AsyncHttpGets` delivers for a URL. */
  method CrawlBatches(urls: seq<string>, throttle: int, statusOf: string -> int)
    returns (stats: LegacyStats, batches: seq<seq<string>>)
    ensures Flatten(batches) == urls
    ensures |batches| == NumIter(|urls|, CoerceThrottle(throttle))
    ensures forall i :: 0 <= i < |batches| ==> |batches[i]| <= CoerceThrottle(throttle)
    ensures stats.resp200 + stats.respNon200 == |urls|
    ensures stats.resp200 == Count200Urls(urls, statusOf)
  {
    var t := CoerceThrottle(throttle);
    var iters := NumIter(|urls|, t);
    stats := LegacyStats(0, 0);
    batches := [];
    var i := 0;
    assert urls[..Covered(0, t, |urls|)] == [];
    while i < iters
      invariant 0 <= i <= iters
      invariant Progress(urls, t, statusOf, i, stats, batches)
    {
      var batch := Batch(urls, i, t);
      var next := CountBatch(stats, batch, statusOf);
      ProgressStep(urls, t, statusOf, i, stats, batches, next);
      stats, batches := next, batches + [batch];
      i := i + 1;
    }
    ProgressDone(urls, t, statusOf, stats, batches);
  }

  /** util/crawl.go's `AsyncCrawl` with the corrected clamp: `None` when a
      sitemap location does not parse, otherwise the counters and the
      batches fetched. */
  method AsyncCrawl(locs: seq<string>, throttle: int, host: string, parse: string -> Option<Url>,
                    render: Url -> string, statusOf: string -> int)
    returns (r: Option<(LegacyStats, seq<seq<string>>)>)
    ensures r.None? <==> OverrideHosts(locs, host, parse, render).None?
    ensures r.Some? ==>
      var urls := OverrideHosts(locs, host, parse, render).value;
      && Flatten(r.value.1) == urls
      && r.value.0.resp200 + r.value.0.respNon200 == |locs|
      && r.value.0.resp200 == Count200Urls(urls, statusOf)
  {
    var urls := OverrideHosts(locs, host, parse, render);
    if urls.None? {
      return None;
    }
    var stats, batches := CrawlBatches(urls.value, throttle, statusOf);
    return Some((stats, batches));
  }
}
