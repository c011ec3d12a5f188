/**
 * Fetching one feed URL: the choice between a CONNECT tunnel through the
 * forward proxy and a direct request, the requests each path sends, the
 * classification of the response, and the re-request on a redirect.
 *
 * The network is an oracle (`Environment`): it answers each request sent,
 * given the request and the number of redirects already taken in this fetch,
 * so that a re-sent identical request may be answered differently.
 */
module Fetch {
  import opened Wrappers
  import opened Text
  import opened Configuration

  /** The fields of a parsed URL that the fetcher reads (`url.parse`). */
  datatype Url = Url(protocol: string, hostname: string, port: Option<nat>, path: string)

  const UserAgent := "RSS-Proxy-Server/1.0"
  const AcceptedTypes := "application/rss+xml, application/xml, text/xml, */*"

  /** The CONNECT request sent to the forward proxy. */
  datatype ConnectRequest = ConnectRequest(
    proxyHost: string, proxyPort: nat, path: string,
    hostHeader: string, proxyConnection: string, timeout: nat)

  /** A GET for the feed, over TLS or not, directly or over an established tunnel. */
  datatype GetRequest = GetRequest(
    secure: bool, overTunnel: bool, hostname: string, port: nat, path: string,
    userAgent: string, accept: string, timeout: Option<nat>)

  datatype ConnectReply = ConnectErrored(reason: string) | ConnectTimedOut | ConnectAnswered(status: nat)

  /** A received response; `location` is "" when the header is absent (falsy). */
  datatype Response = Response(status: nat, statusMessage: string, location: string, chunks: seq<string>)

  datatype GetReply = GetErrored(reason: string) | GetTimedOut | Received(response: Response)

  /** URL parsing and the network, which the model does not look inside. */
  datatype Environment = Environment(
    parse: string -> Url,
    connect: (ConnectRequest, nat) -> ConnectReply,
    get: (GetRequest, nat) -> GetReply)

  /** The reasons a fetch is rejected. */
  datatype FetchError =
    | ConnectRequestError(reason: string)
    | ConnectRequestTimeout
    | ConnectFailed(connectStatus: nat)
    | HttpsRequestError(reason: string)
    | RequestError(reason: string)
    | RequestTimeout
    | HttpStatus(code: nat, statusMessage: string)

  /**
   * What a fetch resolves to. `Unresolved` means the redirect bound of the
   * model ran out while the source would still be re-requesting.
   */
  datatype Outcome = Ok(body: string) | Err(error: FetchError) | Unresolved

  /** The result of one request/response round: fetch again, or finished. */
  datatype Step = Redirect | Done(outcome: Outcome)

  datatype Exchange = Connect(connectRequest: ConnectRequest) | Get(getRequest: GetRequest)

  /** One round together with the requests it sent, in order. */
  datatype Hop = Hop(step: Step, sent: seq<Exchange>)

  /** A whole fetch together with every request it sent, in order. */
  datatype Fetched = Fetched(outcome: Outcome, sent: seq<Exchange>)

  predicate IsHttps(u: Url) {
    u.protocol == "https:"
  }

  /** The tunnel is used only for a truthy proxy flag and an `https:` target. */
  function UseTunnel(useProxy: bool, u: Url): (tunnel: bool)
    ensures tunnel <==> useProxy && u.protocol == "https:"
  {
    useProxy && IsHttps(u)
  }

  /** `parsedUrl.port || 443` */
  function TunnelPort(u: Url): (port: nat)
    ensures u.port.Some? ==> port == u.port.value
    ensures u.port.None? ==> port == 443
  {
    match u.port
    case Some(p) => p
    case None => 443
  }

  /** `parsedUrl.port || (isHttps ? 443 : 80)` */
  function DirectPort(u: Url): (port: nat)
    ensures u.port.Some? ==> port == u.port.value
    ensures u.port.None? && IsHttps(u) ==> port == 443
    ensures u.port.None? && !IsHttps(u) ==> port == 80
  {
    match u.port
    case Some(p) => p
    case None => if IsHttps(u) then 443 else 80
  }

  /** The CONNECT request for a target: its path and its `Host` header are both `host:port`. */
  function TunnelConnect(cfg: Config, u: Url): (r: ConnectRequest)
    ensures r.path == r.hostHeader == u.hostname + ":" + Decimal(TunnelPort(u))
    ensures r.proxyHost == cfg.proxy.host && r.proxyPort == cfg.proxy.port
    ensures r.proxyConnection == "Keep-Alive"
    ensures r.timeout == ConnectTimeout(cfg)
  {
    var authority := u.hostname + ":" + Decimal(TunnelPort(u));
    ConnectRequest(cfg.proxy.host, cfg.proxy.port, authority, authority, "Keep-Alive", ConnectTimeout(cfg))
  }

  /** The GET written over an established tunnel: TLS, the target's own host, port and path. */
  function TunnelGet(u: Url): (r: GetRequest)
    ensures r.secure && r.overTunnel
    ensures r.hostname == u.hostname && r.port == TunnelPort(u) && r.path == u.path
    ensures r.userAgent == UserAgent && r.accept == AcceptedTypes && r.timeout.None?
  {
    GetRequest(true, true, u.hostname, TunnelPort(u), u.path, UserAgent, AcceptedTypes, None)
  }

  /** The direct GET: TLS exactly for `https:`, the default port by scheme, the global timeout. */
  function DirectGet(cfg: Config, u: Url): (r: GetRequest)
    ensures r.secure == IsHttps(u) && !r.overTunnel
    ensures r.hostname == u.hostname && r.port == DirectPort(u) && r.path == u.path
    ensures r.userAgent == UserAgent && r.accept == AcceptedTypes
    ensures r.timeout == Some(cfg.timeout)
  {
    GetRequest(IsHttps(u), false, u.hostname, DirectPort(u), u.path, UserAgent, AcceptedTypes, Some(cfg.timeout))
  }

  /**
   * How a received response is treated, identically on both paths: a 3xx with
   * a `Location` fetches again, any other non-200 is an HTTP error carrying the
   * code and status text, and 200 yields the chunks concatenated in order.
   */
  function Classify(r: Response): (s: Step)
    ensures s.Redirect? <==> 300 <= r.status < 400 && r.location != ""
    ensures s.Done? ==> s.outcome.Ok? || s.outcome.Err?
    ensures s.Done? ==> (s.outcome.Ok? <==> r.status == 200)
    ensures s.Done? && s.outcome.Ok? ==> s.outcome.body == Concat(r.chunks)
    ensures s.Done? && s.outcome.Err? ==> s.outcome.error == HttpStatus(r.status, r.statusMessage)
  {
    if 300 <= r.status < 400 && r.location != "" then Redirect
    else if r.status != 200 then Done(Err(HttpStatus(r.status, r.statusMessage)))
    else Done(Ok(Concat(r.chunks)))
  }

  /** A 3xx response without a `Location` is not followed: it fails with its code. */
  lemma {:induction false} RedirectWithoutLocationFails(r: Response)
    requires 300 <= r.status < 400 && r.location == ""
    ensures Classify(r) == Done(Err(HttpStatus(r.status, r.statusMessage)))
  {
  }

  /**
   * One round through the tunnel: CONNECT first; only a 200 CONNECT reply
   * lets the GET go out over the tunnel. A timeout on the tunnelled socket is
   * reported by the timer armed on the CONNECT request.
   */
  function ThroughProxy(cfg: Config, env: Environment, u: Url, hop: nat): (h: Hop)
    ensures 1 <= |h.sent| <= 2 && h.sent[0] == Connect(TunnelConnect(cfg, u))
    ensures |h.sent| == 2 <==> env.connect(TunnelConnect(cfg, u), hop) == ConnectAnswered(200)
    ensures |h.sent| == 2 ==> h.sent[1] == Get(TunnelGet(u))
    ensures var c := env.connect(TunnelConnect(cfg, u), hop);
            var g := env.get(TunnelGet(u), hop);
            && (c == ConnectAnswered(200) && g.Received? ==> h.step == Classify(g.response))
            && (!(c == ConnectAnswered(200) && g.Received?) ==> h.step.Done? && h.step.outcome.Err?)
            && (c.ConnectErrored? ==> h.step.outcome.error == ConnectRequestError(c.reason))
            && (c.ConnectTimedOut? ==> h.step.outcome.error == ConnectRequestTimeout)
            && (c.ConnectAnswered? && c.status != 200 ==> h.step.outcome.error == ConnectFailed(c.status))
            && (c == ConnectAnswered(200) && g.GetErrored? ==> h.step.outcome.error == HttpsRequestError(g.reason))
            && (c == ConnectAnswered(200) && g.GetTimedOut? ==> h.step.outcome.error == ConnectRequestTimeout)
  {
    var connect := TunnelConnect(cfg, u);
    match env.connect(connect, hop)
    case ConnectErrored(reason) => Hop(Done(Err(ConnectRequestError(reason))), [Connect(connect)])
    case ConnectTimedOut => Hop(Done(Err(ConnectRequestTimeout)), [Connect(connect)])
    case ConnectAnswered(status) =>
      if status != 200 then Hop(Done(Err(ConnectFailed(status))), [Connect(connect)])
      else
        var get := TunnelGet(u);
        var step :=
          match env.get(get, hop)
          case GetErrored(reason) => Done(Err(HttpsRequestError(reason)))
          case GetTimedOut => Done(Err(ConnectRequestTimeout))
          case Received(response) => Classify(response);
        Hop(step, [Connect(connect), Get(get)])
  }

  /** One round on a direct connection: a single GET. */
  function Direct(cfg: Config, env: Environment, u: Url, hop: nat): (h: Hop)
    ensures h.sent == [Get(DirectGet(cfg, u))]
    ensures env.get(DirectGet(cfg, u), hop).Received? ==> h.step == Classify(env.get(DirectGet(cfg, u), hop).response)
    ensures env.get(DirectGet(cfg, u), hop) == GetTimedOut ==> h.step == Done(Err(RequestTimeout))
    ensures env.get(DirectGet(cfg, u), hop).GetErrored? ==> h.step == Done(Err(RequestError(env.get(DirectGet(cfg, u), hop).reason)))
  {
    var get := DirectGet(cfg, u);
    var step :=
      match env.get(get, hop)
      case GetErrored(reason) => Done(Err(RequestError(reason)))
      case GetTimedOut => Done(Err(RequestTimeout))
      case Received(response) => Classify(response);
    Hop(step, [Get(get)])
  }

  /** Does a request belong to a round for `u` under the given tunnelling decision? */
  predicate Targets(e: Exchange, cfg: Config, u: Url, tunnel: bool) {
    match e
    case Connect(c) => tunnel && c == TunnelConnect(cfg, u)
    case Get(g) => g == if tunnel then TunnelGet(u) else DirectGet(cfg, u)
  }

  /** One round of `fetchFeed`: tunnel iff the flag is truthy and the target is `https:`. */
  function Attempt(cfg: Config, env: Environment, u: Url, useProxy: bool, hop: nat): (h: Hop)
    ensures h.sent != [] && (h.sent[0].Connect? <==> UseTunnel(useProxy, u))
    ensures forall i :: 0 <= i < |h.sent| ==> Targets(h.sent[i], cfg, u, UseTunnel(useProxy, u))
    ensures h.step == if UseTunnel(useProxy, u) then ThroughProxy(cfg, env, u, hop).step else Direct(cfg, env, u, hop).step
    ensures h.sent == if UseTunnel(useProxy, u) then ThroughProxy(cfg, env, u, hop).sent else Direct(cfg, env, u, hop).sent
  {
    if UseTunnel(useProxy, u) then ThroughProxy(cfg, env, u, hop) else Direct(cfg, env, u, hop)
  }

  /**
   * `fetchFeed(feedUrl, useProxy)`, with at most `fuel` further redirects.
   * A redirect sends the same request for the same `feedUrl` with the same
   * flag again; the `Location` it carries is not used.
   */
  function FetchFeed(cfg: Config, env: Environment, feedUrl: string, useProxy: bool, hop: nat, fuel: nat): (f: Fetched)
    ensures 0 < |f.sent| <= 2 * (fuel + 1)
    decreases fuel
  {
    var h := Attempt(cfg, env, env.parse(feedUrl), useProxy, hop);
    match h.step
    case Done(outcome) => Fetched(outcome, h.sent)
    case Redirect =>
      if fuel == 0 then Fetched(Unresolved, h.sent)
      else
        var next := FetchFeed(cfg, env, feedUrl, useProxy, hop + 1, fuel - 1);
        Fetched(next.outcome, h.sent + next.sent)
  }

  /**
   * Two replies that differ at most in a non-empty `Location` header; a
   * redirect's target is never read, so these are treated alike.
   */
  predicate SameButLocation(a: GetReply, b: GetReply) {
    a == b
    || (a.Received? && b.Received?
        && a.response.status == b.response.status
        && a.response.statusMessage == b.response.statusMessage
        && a.response.chunks == b.response.chunks
        && a.response.location != "" && b.response.location != "")
  }

  /** One round does not depend on where a redirect points. */
  lemma {:induction false} AttemptIgnoresLocation(cfg: Config, env1: Environment, env2: Environment, u: Url, useProxy: bool, hop: nat)
    requires env1.connect == env2.connect
    requires forall r: GetRequest, k: nat :: SameButLocation(env1.get(r, k), env2.get(r, k))
    ensures Attempt(cfg, env1, u, useProxy, hop) == Attempt(cfg, env2, u, useProxy, hop)
  {
    assert SameButLocation(env1.get(TunnelGet(u), hop), env2.get(TunnelGet(u), hop));
    assert SameButLocation(env1.get(DirectGet(cfg, u), hop), env2.get(DirectGet(cfg, u), hop));
  }

  /**
   * A whole fetch, with its redirects, does not depend on the `Location` a
   * redirect carries: it re-requests the same URL with the same flag.
   */
  lemma {:induction false} FetchIgnoresLocation(cfg: Config, env1: Environment, env2: Environment, feedUrl: string, useProxy: bool, hop: nat, fuel: nat)
    requires env1.parse == env2.parse && env1.connect == env2.connect
    requires forall r: GetRequest, k: nat :: SameButLocation(env1.get(r, k), env2.get(r, k))
    ensures FetchFeed(cfg, env1, feedUrl, useProxy, hop, fuel) == FetchFeed(cfg, env2, feedUrl, useProxy, hop, fuel)
    decreases fuel
  {
    AttemptIgnoresLocation(cfg, env1, env2, env1.parse(feedUrl), useProxy, hop);
    if fuel > 0 {
      FetchIgnoresLocation(cfg, env1, env2, feedUrl, useProxy, hop + 1, fuel - 1);
    }
  }

  /**
   * Every request of a fetch, across all its redirects, goes to the parsed
   * original URL under the original tunnelling decision, and a CONNECT is
   * sent first exactly when the tunnel is used.
   */
  lemma {:induction false} FetchTargetsOriginalUrl(cfg: Config, env: Environment, feedUrl: string, useProxy: bool, hop: nat, fuel: nat)
    ensures var f := FetchFeed(cfg, env, feedUrl, useProxy, hop, fuel);
            var u := env.parse(feedUrl);
            && f.sent != []
            && (f.sent[0].Connect? <==> UseTunnel(useProxy, u))
            && forall i :: 0 <= i < |f.sent| ==> Targets(f.sent[i], cfg, u, UseTunnel(useProxy, u))
    decreases fuel
  {
    var u := env.parse(feedUrl);
    var h := Attempt(cfg, env, u, useProxy, hop);
    if h.step == Redirect && fuel > 0 {
      FetchTargetsOriginalUrl(cfg, env, feedUrl, useProxy, hop + 1, fuel - 1);
      var next := FetchFeed(cfg, env, feedUrl, useProxy, hop + 1, fuel - 1);
      var all := h.sent + next.sent;
      assert FetchFeed(cfg, env, feedUrl, useProxy, hop, fuel).sent == all;
      forall i | 0 <= i < |all| ensures Targets(all[i], cfg, u, UseTunnel(useProxy, u)) {
        if i >= |h.sent| {
          assert all[i] == next.sent[i - |h.sent|];
        }
      }
    }
  }

  /** A plain `http:` target, or a falsy flag, never sends a CONNECT nor uses a tunnel. */
  lemma {:induction false} NoTunnelUnlessHttpsAndFlag(cfg: Config, env: Environment, feedUrl: string, useProxy: bool, hop: nat, fuel: nat)
    requires !useProxy || !IsHttps(env.parse(feedUrl))
    ensures var f := FetchFeed(cfg, env, feedUrl, useProxy, hop, fuel);
            forall i :: 0 <= i < |f.sent| ==> f.sent[i] == Get(DirectGet(cfg, env.parse(feedUrl)))
  {
    FetchTargetsOriginalUrl(cfg, env, feedUrl, useProxy, hop, fuel);
  }

  /**
   * A resolved fetch is the finished round of some hop reached through
   * nothing but redirects.
   */
  lemma {:induction false} FetchOutcomeFromOneHop(cfg: Config, env: Environment, feedUrl: string, useProxy: bool, hop: nat, fuel: nat)
    requires FetchFeed(cfg, env, feedUrl, useProxy, hop, fuel).outcome != Unresolved
    ensures exists k :: hop <= k <= hop + fuel
              && Attempt(cfg, env, env.parse(feedUrl), useProxy, k).step == Done(FetchFeed(cfg, env, feedUrl, useProxy, hop, fuel).outcome)
              && forall j :: hop <= j < k ==> Attempt(cfg, env, env.parse(feedUrl), useProxy, j).step == Redirect
    decreases fuel
  {
    var u := env.parse(feedUrl);
    var o := FetchFeed(cfg, env, feedUrl, useProxy, hop, fuel).outcome;
    var step := Attempt(cfg, env, u, useProxy, hop).step;
    if step.Done? {
      assert step == Done(o);
      assert hop <= hop <= hop + fuel && Attempt(cfg, env, u, useProxy, hop).step == Done(o);
    } else {
      assert fuel > 0;
      assert FetchFeed(cfg, env, feedUrl, useProxy, hop + 1, fuel - 1).outcome == o;
      FetchOutcomeFromOneHop(cfg, env, feedUrl, useProxy, hop + 1, fuel - 1);
      var k :| hop + 1 <= k <= hop + fuel
               && Attempt(cfg, env, u, useProxy, k).step == Done(o)
               && forall j :: hop + 1 <= j < k ==> Attempt(cfg, env, u, useProxy, j).step == Redirect;
      assert forall j :: hop <= j < k ==> Attempt(cfg, env, u, useProxy, j).step == Redirect;
    }
  }

  /**
   * A redirect round is followed, one hop later, by the same fetch again: the
   * same `feedUrl` and flag; its requests follow the round's own, and its
   * outcome is the fetch's outcome.
   */
  lemma {:induction false} FetchRedirectResends(cfg: Config, env: Environment, feedUrl: string, useProxy: bool, hop: nat, fuel: nat)
    requires Attempt(cfg, env, env.parse(feedUrl), useProxy, hop).step == Redirect
    requires fuel > 0
    ensures var next := FetchFeed(cfg, env, feedUrl, useProxy, hop + 1, fuel - 1);
            FetchFeed(cfg, env, feedUrl, useProxy, hop, fuel)
            == Fetched(next.outcome, Attempt(cfg, env, env.parse(feedUrl), useProxy, hop).sent + next.sent)
  {
  }

  /**
   * Conversely to `FetchOutcomeFromOneHop`: when the rounds before `k` all
   * redirect and round `k` finishes within the bound, the fetch has round
   * `k`'s outcome.
   */
  lemma {:induction false} FetchReachesFirstDone(cfg: Config, env: Environment, feedUrl: string, useProxy: bool, hop: nat, fuel: nat, k: nat)
    requires hop <= k <= hop + fuel
    requires forall j :: hop <= j < k ==> Attempt(cfg, env, env.parse(feedUrl), useProxy, j).step == Redirect
    requires Attempt(cfg, env, env.parse(feedUrl), useProxy, k).step.Done?
    ensures FetchFeed(cfg, env, feedUrl, useProxy, hop, fuel).outcome
            == Attempt(cfg, env, env.parse(feedUrl), useProxy, k).step.outcome
    decreases fuel
  {
    if k > hop {
      assert Attempt(cfg, env, env.parse(feedUrl), useProxy, hop).step == Redirect;
      FetchReachesFirstDone(cfg, env, feedUrl, useProxy, hop + 1, fuel - 1, k);
    }
  }

  /** The requests of rounds `hop` to `k`, in the order they are sent. */
  function RoundsSent(cfg: Config, env: Environment, u: Url, useProxy: bool, hop: nat, k: nat): (sent: seq<Exchange>)
    requires hop <= k
    decreases k - hop
  {
    if hop == k then Attempt(cfg, env, u, useProxy, k).sent
    else Attempt(cfg, env, u, useProxy, hop).sent + RoundsSent(cfg, env, u, useProxy, hop + 1, k)
  }

  /**
   * When the rounds before `k` all redirect and round `k` finishes within the
   * bound, the fetch sends exactly the requests of rounds `hop` to `k`, each
   * round's own and nothing more.
   */
  lemma {:induction false} FetchSendsRounds(cfg: Config, env: Environment, feedUrl: string, useProxy: bool, hop: nat, fuel: nat, k: nat)
    requires hop <= k <= hop + fuel
    requires forall j :: hop <= j < k ==> Attempt(cfg, env, env.parse(feedUrl), useProxy, j).step == Redirect
    requires Attempt(cfg, env, env.parse(feedUrl), useProxy, k).step.Done?
    ensures FetchFeed(cfg, env, feedUrl, useProxy, hop, fuel).sent == RoundsSent(cfg, env, env.parse(feedUrl), useProxy, hop, k)
    decreases fuel
  {
    if k > hop {
      assert Attempt(cfg, env, env.parse(feedUrl), useProxy, hop).step == Redirect;
      FetchSendsRounds(cfg, env, feedUrl, useProxy, hop + 1, fuel - 1, k);
    }
  }

  /** Once a fetch resolves, a larger redirect bound changes nothing. */
  lemma {:induction false} FetchFuelMonotone(cfg: Config, env: Environment, feedUrl: string, useProxy: bool, hop: nat, fuel: nat, more: nat)
    requires fuel <= more
    requires FetchFeed(cfg, env, feedUrl, useProxy, hop, fuel).outcome != Unresolved
    ensures FetchFeed(cfg, env, feedUrl, useProxy, hop, more) == FetchFeed(cfg, env, feedUrl, useProxy, hop, fuel)
    decreases fuel
  {
    if Attempt(cfg, env, env.parse(feedUrl), useProxy, hop).step == Redirect {
      FetchFuelMonotone(cfg, env, feedUrl, useProxy, hop + 1, fuel - 1, more - 1);
    }
  }

  /**
   * If every round is answered by a redirect, no redirect bound resolves the
   * fetch: the source puts no limit on the number of re-requests.
   */
  lemma {:induction false} EndlessRedirect(cfg: Config, env: Environment, feedUrl: string, useProxy: bool, hop: nat, fuel: nat)
    requires forall k :: hop <= k ==> Attempt(cfg, env, env.parse(feedUrl), useProxy, k).step == Redirect
    ensures FetchFeed(cfg, env, feedUrl, useProxy, hop, fuel).outcome == Unresolved
    ensures FetchFeed(cfg, env, feedUrl, useProxy, hop, fuel).sent == RoundsSent(cfg, env, env.parse(feedUrl), useProxy, hop, hop + fuel)
    decreases fuel
  {
    assert Attempt(cfg, env, env.parse(feedUrl), useProxy, hop).step == Redirect;
    if fuel > 0 {
      EndlessRedirect(cfg, env, feedUrl, useProxy, hop + 1, fuel - 1);
    }
  }
}
