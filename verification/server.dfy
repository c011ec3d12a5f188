/**
 * The request handler: only `/rsshub/` paths are served; the enabled
 * providers are tried one at a time, in configured order, until one yields a
 * non-empty body.
 */
module Server {
  import opened Wrappers
  import opened Configuration
  import opened Fetch

  const RoutePrefix := "/rsshub/"

  /** The response written to the client; `NoReply` when the handler never answers. */
  datatype Reply =
    | Reply(status: nat, contentType: string, cacheControl: Option<string>, body: string)
    | NoReply

  const NotFound := Reply(404, "text/plain", None, "Not Found - Only /rsshub/* paths are supported")
  const NoEnabledProviders := Reply(503, "text/plain", None, "Service Unavailable - No enabled providers")
  const AllProvidersFailed := Reply(503, "text/plain", None, "Service Unavailable - All enabled providers failed")

  function Served(body: string): Reply {
    Reply(200, "application/xml; charset=utf-8", Some("max-age=300"), body)
  }

  /**
   * The feed path of a request: the pathname with its first 8 characters
   * dropped, when it starts with `/rsshub/`.
   */
  function Route(pathname: string): (rssPath: Option<string>)
    ensures rssPath.Some? <==> |pathname| >= |RoutePrefix| && pathname[..|RoutePrefix|] == RoutePrefix
    ensures rssPath.Some? ==> pathname == RoutePrefix + rssPath.value
  {
    if |pathname| >= 8 && pathname[..8] == RoutePrefix then Some(pathname[8..]) else None
  }

  /** One call of `fetchFeed`. */
  datatype Call = Call(feedUrl: string, useProxy: bool)

  /** The call made for a provider: `providerUrl/rssPath` with the provider's proxy flag. */
  function CallFor(globalProxy: bool, p: Provider, rssPath: string): (c: Call)
    ensures c.feedUrl == p.url + "/" + rssPath
    ensures c.useProxy == ProxyFlag(globalProxy, p)
  {
    Call(p.url + "/" + rssPath, ProxyFlag(globalProxy, p))
  }

  function Calls(globalProxy: bool, ps: seq<Provider>, rssPath: string): (calls: seq<Call>)
    ensures |calls| == |ps|
    ensures forall i :: 0 <= i < |ps| ==> calls[i] == CallFor(globalProxy, ps[i], rssPath)
  {
    seq(|ps|, i requires 0 <= i < |ps| => CallFor(globalProxy, ps[i], rssPath))
  }

  /** A fetch the handler moves on from: a rejection, or an empty (falsy) body. */
  predicate Fails(o: Outcome) {
    o.Err? || (o.Ok? && o.body == "")
  }

  /** A fetch whose body the handler serves: a non-empty (truthy) body. */
  predicate Yields(o: Outcome) {
    o.Ok? && o.body != ""
  }

  /**
   * The outcome of `fetchFeed` for one call of a request. The first argument
   * is the call's position among the request's calls: each provider is
   * fetched afresh, so two calls for the same URL and flag may be answered
   * differently.
   */
  type Fetcher = (nat, string, bool) -> Outcome

  /** The outcome of the `i`-th call. */
  function Apply(fetch: Fetcher, calls: seq<Call>, i: nat): Outcome
    requires i < |calls|
  {
    fetch(i, calls[i].feedUrl, calls[i].useProxy)
  }

  /** How a failover run ends, and the calls it made in order. */
  datatype Verdict = Success(body: string) | Exhausted | Stalled
  datatype Run = Run(verdict: Verdict, tried: seq<Call>)

  /**
   * The failover loop as a specification, from call `from` on: the first call
   * that yields wins; an unresolved call ends the run without a verdict.
   */
  function Failover(calls: seq<Call>, fetch: Fetcher, from: nat): (run: Run)
    requires from <= |calls|
    ensures |run.tried| <= |calls| - from
    ensures from < |calls| <==> run.tried != []
    ensures !run.verdict.Exhausted? ==> from < |calls|
    ensures run.verdict.Success? ==> run.verdict.body != ""
    decreases |calls| - from
  {
    if from == |calls| then Run(Exhausted, [])
    else
      var o := Apply(fetch, calls, from);
      if Yields(o) then Run(Success(o.body), [calls[from]])
      else if o.Unresolved? then Run(Stalled, [calls[from]])
      else
        var rest := Failover(calls, fetch, from + 1);
        Run(rest.verdict, [calls[from]] + rest.tried)
  }

  /** Calls that all fail are each made once, in order, and passed over. */
  lemma {:induction false} FailoverSkipsFailures(calls: seq<Call>, fetch: Fetcher, from: nat, k: nat)
    requires from <= k <= |calls|
    requires forall j :: from <= j < k ==> Fails(Apply(fetch, calls, j))
    ensures Failover(calls, fetch, from)
         == Run(Failover(calls, fetch, k).verdict, calls[from..k] + Failover(calls, fetch, k).tried)
    decreases k - from
  {
    if from == k {
      assert calls[from..k] == [];
    } else {
      var o := Apply(fetch, calls, from);
      assert Fails(o) && !Yields(o) && !o.Unresolved?;
      var rest := Failover(calls, fetch, from + 1);
      assert Failover(calls, fetch, from) == Run(rest.verdict, [calls[from]] + rest.tried);
      FailoverSkipsFailures(calls, fetch, from + 1, k);
      assert calls[from..k] == [calls[from]] + calls[from + 1..k];
    }
  }

  /**
   * If the calls before `k` fail and call `k` yields, its body is served and
   * exactly the first `k + 1` calls are made.
   */
  lemma {:induction false} FirstSuccessWins(calls: seq<Call>, fetch: Fetcher, k: nat)
    requires k < |calls|
    requires forall j :: 0 <= j < k ==> Fails(Apply(fetch, calls, j))
    requires Yields(Apply(fetch, calls, k))
    ensures Failover(calls, fetch, 0) == Run(Success(Apply(fetch, calls, k).body), calls[..k + 1])
  {
    var o := Apply(fetch, calls, k);
    var last := Failover(calls, fetch, k);
    assert last == Run(Success(o.body), [calls[k]]) by {
      assert Yields(o);
    }
    FailoverSkipsFailures(calls, fetch, 0, k);
    assert calls[0..k] + [calls[k]] == calls[..k + 1];
  }

  /** If every call fails, all are made in order and the run is exhausted. */
  lemma {:induction false} AllCallsFail(calls: seq<Call>, fetch: Fetcher)
    requires forall j :: 0 <= j < |calls| ==> Fails(Apply(fetch, calls, j))
    ensures Failover(calls, fetch, 0) == Run(Exhausted, calls)
  {
    FailoverSkipsFailures(calls, fetch, 0, |calls|);
    assert calls[0..|calls|] == calls;
  }

  /**
   * Conversely, a run makes the calls from `from` on up to some point; every
   * call but the last failed; and the verdict is read off the last.
   */
  lemma {:induction false} FailoverTriedPrefix(calls: seq<Call>, fetch: Fetcher, from: nat)
    requires from <= |calls|
    ensures var run := Failover(calls, fetch, from);
            var n := |run.tried|;
            && run.tried == calls[from..from + n]
            && (forall j :: from <= j < from + n - 1 ==> Fails(Apply(fetch, calls, j)))
            && (run.verdict.Success? ==> Apply(fetch, calls, from + n - 1) == Ok(run.verdict.body))
            && (run.verdict.Stalled? ==> Apply(fetch, calls, from + n - 1).Unresolved?)
            && (run.verdict.Exhausted? ==>
                  from + n == |calls| && forall j :: from <= j < |calls| ==> Fails(Apply(fetch, calls, j)))
    decreases |calls| - from
  {
    if from < |calls| {
      var o := Apply(fetch, calls, from);
      if !Yields(o) && !o.Unresolved? {
        var rest := Failover(calls, fetch, from + 1);
        assert Failover(calls, fetch, from) == Run(rest.verdict, [calls[from]] + rest.tried);
        FailoverTriedPrefix(calls, fetch, from + 1);
        var n := |rest.tried|;
        assert [calls[from]] + calls[from + 1..from + 1 + n] == calls[from..from + 1 + n];
      }
    }
  }

  /** The reply written for a failover verdict. */
  function Respond(v: Verdict): (r: Reply)
    ensures v.Success? <==> r.Reply? && r.status == 200
    ensures v.Success? ==> r.body == v.body && r.contentType == "application/xml; charset=utf-8"
                           && r.cacheControl == Some("max-age=300")
    ensures v.Exhausted? ==> r == AllProvidersFailed && r.status == 503 && r.contentType == "text/plain"
                             && r.cacheControl.None? && r.body == "Service Unavailable - All enabled providers failed"
    ensures v.Stalled? <==> r.NoReply?
  {
    match v
    case Success(body) => Served(body)
    case Exhausted => AllProvidersFailed
    case Stalled => NoReply
  }

  /**
   * `handleRequest`: route the path, filter the providers, then try them in
   * order. Returns the reply and the `fetchFeed` calls made, in order.
   */
  method HandleRequest(cfg: Config, pathname: string, fetch: Fetcher)
    returns (reply: Reply, tried: seq<Call>)
    ensures Route(pathname).None? ==> reply == NotFound && tried == []
    ensures Route(pathname).Some? && Enabled(cfg.providers) == [] ==> reply == NoEnabledProviders && tried == []
    ensures Route(pathname).Some? && Enabled(cfg.providers) != [] ==>
              var run := Failover(Calls(cfg.proxy.enabled, Enabled(cfg.providers), Route(pathname).value), fetch, 0);
              reply == Respond(run.verdict) && tried == run.tried
  {
    if !(|pathname| >= 8 && pathname[..8] == RoutePrefix) {
      return NotFound, [];
    }
    var rssPath := pathname[8..];
    var enabled := Enabled(cfg.providers);
    if |enabled| == 0 {
      return NoEnabledProviders, [];
    }
    ghost var calls := Calls(cfg.proxy.enabled, enabled, rssPath);
    tried := [];
    for i := 0 to |enabled|
      invariant tried == calls[..i]
      invariant forall j :: 0 <= j < i ==> Fails(Apply(fetch, calls, j))
    {
      var provider := enabled[i];
      var useProxy := ProxyFlag(cfg.proxy.enabled, provider);
      var feedUrl := provider.url + "/" + rssPath;
      var feedData := fetch(i, feedUrl, useProxy);
      tried := tried + [Call(feedUrl, useProxy)];
      assert calls[..i + 1] == calls[..i] + [calls[i]];
      if feedData.Unresolved? {
        FailoverSkipsFailures(calls, fetch, 0, i);
        assert calls[0..i] == calls[..i];
        return NoReply, tried;
      }
      if feedData.Ok? && feedData.body != "" {
        FirstSuccessWins(calls, fetch, i);
        return Served(feedData.body), tried;
      }
    }
    AllCallsFail(calls, fetch);
    reply := AllProvidersFailed;
  }

  /**
   * Two bare providers with the proxy off, the first refusing the connection
   * and the second answering `<rss/>`: both are called, in order, and the
   * second body is served.
   */
  lemma {:induction false} SecondProviderServes()
    ensures var cfg := Config(5000, ProxySettings(false, "", 0, None),
                              [Bare("http://a.example"), Bare("http://b.example")]);
            var fetch := (i: nat, u: string, p: bool) =>
              if u == "http://b.example/cctv/xwlb" then Ok("<rss/>") else Err(RequestError("ECONNREFUSED"));
            var rssPath := Route("/rsshub/cctv/xwlb");
            && rssPath == Some("cctv/xwlb")
            && Failover(Calls(cfg.proxy.enabled, Enabled(cfg.providers), rssPath.value), fetch, 0)
               == Run(Success("<rss/>"), [Call("http://a.example/cctv/xwlb", false), Call("http://b.example/cctv/xwlb", false)])
  {
    var cfg := Config(5000, ProxySettings(false, "", 0, None),
                      [Bare("http://a.example"), Bare("http://b.example")]);
    var fetch := (i: nat, u: string, p: bool) =>
      if u == "http://b.example/cctv/xwlb" then Ok("<rss/>") else Err(RequestError("ECONNREFUSED"));
    var calls := Calls(false, Enabled(cfg.providers), "cctv/xwlb");
    assert Enabled(cfg.providers) == cfg.providers;
    assert "http://a.example" + "/" + "cctv/xwlb" == "http://a.example/cctv/xwlb";
    assert "http://b.example" + "/" + "cctv/xwlb" == "http://b.example/cctv/xwlb";
    assert calls[0] == CallFor(false, Bare("http://a.example"), "cctv/xwlb");
    assert calls[1] == CallFor(false, Bare("http://b.example"), "cctv/xwlb");
    assert calls == [Call("http://a.example/cctv/xwlb", false), Call("http://b.example/cctv/xwlb", false)];
    FirstSuccessWins(calls, fetch, 1);
  }

  /**
   * The same provider listed twice: the first call times out and the second,
   * to the same URL with the same flag, is served. Both calls are made.
   */
  lemma {:induction false} RepeatedProviderRetried(body: string)
    requires body != ""
    ensures var calls := Calls(true, [Bare("https://a"), Bare("https://a")], "x");
            var fetch := (i: nat, u: string, p: bool) => if i == 0 then Err(RequestTimeout) else Ok(body);
            && calls[0] == calls[1]
            && Failover(calls, fetch, 0) == Run(Success(body), calls)
  {
    var calls := Calls(true, [Bare("https://a"), Bare("https://a")], "x");
    var fetch := (i: nat, u: string, p: bool) => if i == 0 then Err(RequestTimeout) else Ok(body);
    FirstSuccessWins(calls, fetch, 1);
    assert calls[..2] == calls;
  }

  /**
   * Whether a provider's fetch goes through the CONNECT tunnel: exactly when
   * its proxy flag (global for a bare URL, its own for an entry) is set and its
   * feed URL is `https:`.
   */
  lemma {:induction false} ProviderTunnelDecision(cfg: Config, env: Environment, p: Provider, rssPath: string, fuel: nat)
    ensures var c := CallFor(cfg.proxy.enabled, p, rssPath);
            var f := FetchFeed(cfg, env, c.feedUrl, c.useProxy, 0, fuel);
            f.sent[0].Connect? <==> ProxyFlag(cfg.proxy.enabled, p) && env.parse(c.feedUrl).protocol == "https:"
  {
    var c := CallFor(cfg.proxy.enabled, p, rssPath);
    FetchTargetsOriginalUrl(cfg, env, c.feedUrl, c.useProxy, 0, fuel);
  }
}
