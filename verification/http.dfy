/** One HTTP GET as the crawler sees it (pkg/crawler/http.go): the request
    set-up, the outcome record, and the worker pool's interface. The network
    itself is not modelled: what `client.Do`, `httpstat` and `ExtractLinks`
    return comes in as parameters. */
module Http {
  import opened Wrappers
  import opened Text

  datatype LinkType = Hyperlink | Image

  /** A link found on a fetched page. */
  datatype Link = Link(target: string, kind: LinkType, isExternal: bool)

  datatype HTTPConfig = HTTPConfig(
    user: string,
    pass: string,
    timeout: int,
    parseLinks: bool,
    customHeader: string)

  /** The outcome of one GET (`HTTPResponse`). `serverTime` is the
      `httpstat` total, absent when no timing record was attached. */
  datatype FetchResult = FetchResult(
    url: string,
    statusCode: int,
    serverTime: Option<nat>,
    failed: bool,
    links: seq<Link>)

  datatype Credentials = Credentials(user: string, pass: string)

  datatype Header = Header(key: string, value: string)

  /** What `configureRequest` does to a fresh request: the basic-auth
      credentials it sets, the headers it adds, and whether it logged the
      malformed-header warning. `headers` records the arguments passed to
      `Header.Add`, before `net/http` canonicalises the key (so
      `content-type` is recorded as given, not as `Content-Type`). */
  datatype RequestSetup = RequestSetup(basicAuth: Option<Credentials>, headers: seq<Header>, warning: bool)

  /** `configureRequest`: basic auth whenever a user name is configured, and
      the custom header split at its first `:` with both halves trimmed. */
  function ConfigureRequest(config: HTTPConfig): (r: RequestSetup)
    ensures r.basicAuth.Some? <==> |config.user| > 0
    ensures r.basicAuth.Some? ==> r.basicAuth.value == Credentials(config.user, config.pass)
    ensures |config.customHeader| == 0 ==> r.headers == [] && !r.warning
    ensures |config.customHeader| > 0 && ':' !in config.customHeader ==> r.headers == [] && r.warning
    ensures ':' in config.customHeader ==>
      var i := IndexOf(config.customHeader, ':');
      && !r.warning
      && r.headers == [Header(TrimSpace(config.customHeader[..i]), TrimSpace(config.customHeader[i + 1..]))]
  {
    var auth := if |config.user| > 0 then Some(Credentials(config.user, config.pass)) else None;
    if |config.customHeader| > 0 then
      var parts := SplitN2(config.customHeader, ':');
      if |parts| == 2 then
        RequestSetup(auth, [Header(TrimSpace(parts[0]), TrimSpace(parts[1]))], false)
      else
        RequestSetup(auth, [], true)
    else
      RequestSetup(auth, [], false)
  }

  /** A header written as `Key: Value`, with any white space around either
      half and any colons inside the value, is added as exactly that key and
      value. */
  lemma CustomHeaderRoundTrip(config: HTTPConfig, p1: string, key: string, q1: string, p2: string, value: string, q2: string)
    requires ':' !in p1 + key + q1
    requires AllSpace(p1) && AllSpace(q1) && AllSpace(p2) && AllSpace(q2)
    requires Trimmed(key) && Trimmed(value)
    requires config.customHeader == p1 + key + q1 + ":" + p2 + value + q2
    ensures ConfigureRequest(config).headers == [Header(key, value)]
    ensures !ConfigureRequest(config).warning
  {
    var before := p1 + key + q1;
    var after := p2 + value + q2;
    assert config.customHeader == before + [':'] + after;
    SplitN2Join(before, ':', after);
    TrimSpacePadded(p1, key, q1);
    TrimSpacePadded(p2, value, q2);
  }

  /** A status code as `net/http` reads it from a status line: exactly
      three characters that parse as a non-negative integer, so anything
      from 0 to 999. */
  type HttpStatus = c: int | 0 <= c <= 999 witness 200

  /** What sending the request produced: either `http.NewRequest` rejected
      the URL, or `client.Do` returned (a response or none, an error or none)
      and `httpstat` measured the server time. */
  datatype Transport =
    | RequestRejected
    | Sent(response: Option<HttpStatus>, transportError: bool, serverTime: nat)

  /** What link extraction produced: the page URL did not parse, or
      `ExtractLinks` returned links and maybe an error. */
  datatype Extraction =
    | BaseUrlInvalid
    | Extracted(links: seq<Link>, extractionError: bool)

  /** `HTTPGet`: the status is the response's code, or 0 when no response
      came back; a 4xx or 5xx code is not an error; links are attached only
      when they were asked for and the transport succeeded. */
  function HTTPGet(url: string, config: HTTPConfig, transport: Transport, extraction: Extraction): (r: FetchResult)
    ensures r.url == url
    ensures !(transport.Sent? && transport.response.Some?) ==> r.statusCode == 0
    ensures transport.Sent? && transport.response.Some? ==> r.statusCode == transport.response.value
    ensures r.statusCode == 0 <==> !(transport.Sent? && transport.response.Some?) || transport.response.value == 0
    ensures r.failed <==> transport.RequestRejected? || transport.transportError
    ensures r.serverTime.Some? <==> transport.Sent?
    ensures |r.links| > 0 ==> config.parseLinks && transport.Sent? && !transport.transportError
    ensures config.parseLinks && transport.Sent? && !transport.transportError && extraction.Extracted? ==>
      r.links == extraction.links
    ensures extraction.BaseUrlInvalid? ==> r.links == []
  {
    match transport
    case RequestRejected =>
      FetchResult(url, 0, None, true, [])
    case Sent(response, transportError, serverTime) =>
      var status := if response.Some? then response.value else 0;
      var links :=
        if !transportError && config.parseLinks && extraction.Extracted? then extraction.links else [];
      FetchResult(url, status, Some(serverTime), transportError, links)
  }

  /** One call of `ConcurrentHTTPGet`: the URLs in dispatch order, the
      per-request configuration and the concurrency limit. */
  datatype PoolRequest = PoolRequest(urls: seq<string>, config: HTTPConfig, maxConcurrent: int)

  /** The worker pool, as the sequence of results it delivers on its channel
      for a request, in completion order. */
  type Pool = PoolRequest -> seq<FetchResult>

  function UrlsOf(rs: seq<FetchResult>): (us: seq<string>)
    ensures |us| == |rs|
    ensures forall i :: 0 <= i < |rs| ==> us[i] == rs[i].url
  {
    seq(|rs|, i requires 0 <= i < |rs| => rs[i].url)
  }

  /** The pool's promise: one result for each URL of some dispatched prefix
      of the request (the rest was cut off by the quit signal), in any order;
      and no links when none were asked for. */
  ghost predicate Honours(req: PoolRequest, rs: seq<FetchResult>)
  {
    && (exists n :: 0 <= n <= |req.urls| && multiset(UrlsOf(rs)) == multiset(req.urls[..n]))
    && (!req.config.parseLinks ==> forall i :: 0 <= i < |rs| ==> rs[i].links == [])
  }

  /** A pool that answers the first `n` dispatched URLs, each with the
      result of `HTTPGet` under the request's configuration, keeps the
      pool's promise whatever the network did. */
  lemma HTTPGetHonours(req: PoolRequest, n: nat, transports: seq<Transport>, extractions: seq<Extraction>)
    requires n <= |req.urls| && |transports| == n && |extractions| == n
    ensures Honours(req, seq(n, i requires 0 <= i < n => HTTPGet(req.urls[i], req.config, transports[i], extractions[i])))
  {
    var rs := seq(n, i requires 0 <= i < n => HTTPGet(req.urls[i], req.config, transports[i], extractions[i]));
    assert UrlsOf(rs) == req.urls[..n];
  }
}
