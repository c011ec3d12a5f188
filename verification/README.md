# RSS proxy server: routing and provider failover

A model of the request handler of `RSSProxyServer` (rss-proxy-server.js). A
client asks for `/rsshub/<path>`. The server tries its configured feed
providers one at a time, in configured order. Each provider is fetched either
directly or, when its proxy flag is set and the feed URL is `https:`, through a
CONNECT tunnel opened on the forward proxy. The first provider that yields a
non-empty body is served with status 200. Otherwise the answer is a 503.

Modules, one per component:

- `Configuration` (configuration.dfy): providers (a bare URL or an entry with
  optional `enabled`/`useProxy`), the enabled filter, the per-provider proxy
  flag, the CONNECT timeout choice.
- `Fetch` (fetch.dfy): `fetchFeed`, `fetchThroughProxy` and `fetchDirect`.
  URL parsing and the network are an oracle, `Environment`. It answers each
  request given the request and the number of redirects already taken. Each
  round records the requests it sent, so the trace of a fetch can be stated.
- `Server` (server.dfy): `handleRequest`, an imperative loop (`HandleRequest`)
  proved against the specification function `Failover`. The handler sees
  `fetchFeed` as a `Fetcher`: the outcome of a call given its position among
  the request's calls, its feed URL and its flag. The position stands for the
  state of the network when that call is made, so two providers with the same
  URL and flag may be answered differently. `FetchFeed` is one such fetcher
  for each call.
- `Text` (text.dfy): decimal rendering of ports, and the `data += chunk` body
  accumulator (`ReadBody`) proved against `Concat`.

A redirect is not followed to its `Location`. On a 3xx reply that carries a
`Location`, the code calls `fetchFeed` again with the original `feedUrl` and
the same flag (rss-proxy-server.js lines 145 and 212), and the header's value
is only logged. `FetchTargetsOriginalUrl` proves that every request of a
fetch, across all its redirects, goes to the original URL, and
`FetchIgnoresLocation` that the result does not depend on where a redirect
points.

## Model

| member | source | states |
|---|---|---|
| `Text.Decimal` | rss-proxy-server.js:110 | a number in a template literal renders as non-empty decimal digits with no leading zero |
| `Text.DecimalRoundTrip` | rss-proxy-server.js:110 | reading back the decimal text of a port gives the port |
| `Text.DecimalInjective` | rss-proxy-server.js:113 | two ports render to the same `host:port` text only if they are equal |
| `Text.ConcatAppend` | rss-proxy-server.js:155-158 | the body of chunks `a` then `b` is the body of `a` followed by the body of `b` |
| `Text.ConcatEmpty` | rss-proxy-server.js:61 | a 200 body is empty (falsy) exactly when every chunk is empty |
| `Text.ReadBody` | rss-proxy-server.js:222-229 | the accumulator ends holding all chunks concatenated in arrival order |
| `Configuration.IsEnabled` | rss-proxy-server.js:38-41 | a bare URL is always kept; an entry is kept unless its `enabled` is `false`, so an absent `enabled` keeps it |
| `Configuration.Enabled` | rss-proxy-server.js:38-41 | the filtered list is no longer than the configured one and holds only enabled providers |
| `Configuration.EnabledMembers` | rss-proxy-server.js:38-41 | a provider is in the enabled list iff it is configured and enabled (bare, or `enabled` not `false`) |
| `Configuration.EnabledAppend` | rss-proxy-server.js:38-41 | filtering distributes over concatenation, so the configured order is kept |
| `Configuration.EnabledEmpty` | rss-proxy-server.js:43-48 | the enabled list is empty iff no configured provider is enabled |
| `Configuration.ProxyFlag` | rss-proxy-server.js:53 | a bare URL uses the global `proxy.enabled`; an entry uses its own `useProxy`, false when absent |
| `Configuration.EntryIgnoresGlobalFlag` | rss-proxy-server.js:53 | an entry's flag is the same whatever the global flag is (no fallback) |
| `Configuration.ConnectTimeout` | rss-proxy-server.js:185 | `proxy.timeout` when set and non-zero, else the global timeout |
| `Fetch.UseTunnel` | rss-proxy-server.js:86-88 | the tunnel is used iff the flag is truthy and the parsed protocol is `https:` |
| `Fetch.TunnelPort` | rss-proxy-server.js:101 | the URL's port when given, else 443 |
| `Fetch.DirectPort` | rss-proxy-server.js:197 | the URL's port when given, else 443 for `https:` and 80 otherwise |
| `Fetch.TunnelConnect` | rss-proxy-server.js:107-116 | the CONNECT path and `Host` header both equal `host:port`; addressed to the configured proxy, keep-alive, with the CONNECT timeout |
| `Fetch.TunnelGet` | rss-proxy-server.js:126-136 | the tunnelled GET is TLS over the tunnel socket, to the target's own host, tunnel port and path, with the fixed `User-Agent` and `Accept` headers and no timeout of its own |
| `Fetch.DirectGet` | rss-proxy-server.js:192-205 | the direct GET uses TLS exactly for `https:`, the default port by scheme, the global timeout and the fixed `User-Agent` and `Accept` headers |
| `Fetch.Classify` | rss-proxy-server.js:208-229 | redirect iff 3xx with a `Location`; success iff 200, with the chunks concatenated; else an HTTP error with code and status text |
| `Fetch.RedirectWithoutLocationFails` | rss-proxy-server.js:141-153 | a 3xx without `Location` is an HTTP error carrying its code, not a redirect |
| `Fetch.ThroughProxy` | rss-proxy-server.js:118-183 | CONNECT is sent first; the GET goes out iff the CONNECT reply is 200; the GET's response is then classified; a CONNECT error, a CONNECT timeout, a non-200 CONNECT status, a GET error and a GET timeout each give their own rejection |
| `Fetch.Direct` | rss-proxy-server.js:207-239 | a single direct GET; its response is classified; a request error is a `Request error` rejection carrying the reason; a timeout is a request timeout |
| `Fetch.Attempt` | rss-proxy-server.js:83-95 | a CONNECT opens the round iff the flag is truthy and the protocol is `https:`; every request targets the parsed URL; the round's result and the requests it sends are those of the tunnelled fetch or the direct fetch accordingly |
| `Fetch.FetchFeed` | rss-proxy-server.js:83-95 | a fetch sends at least one request, and at most `2 * (fuel + 1)`: two per round (CONNECT and GET) over the first round and at most `fuel` re-requests |
| `Fetch.AttemptIgnoresLocation` | rss-proxy-server.js:141-147 | two networks whose replies differ only in a non-empty `Location` give the same round |
| `Fetch.FetchIgnoresLocation` | rss-proxy-server.js:208-215 | two networks whose replies differ only in a non-empty `Location` give the same fetch, requests and outcome |
| `Fetch.FetchTargetsOriginalUrl` | rss-proxy-server.js:212 | every request of a fetch, over all redirects, goes to the original URL under the original tunnel decision |
| `Fetch.NoTunnelUnlessHttpsAndFlag` | rss-proxy-server.js:86-94 | with a falsy flag or a non-`https:` URL, every request sent is the direct GET |
| `Fetch.FetchOutcomeFromOneHop` | rss-proxy-server.js:208-215 | a resolved outcome is the finished result of one round, reached only through redirects |
| `Fetch.FetchRedirectResends` | rss-proxy-server.js:141-147 | after a redirect round, the same `feedUrl` is fetched again with the same flag one hop later; its requests follow the round's own and its outcome is the fetch's outcome |
| `Fetch.FetchReachesFirstDone` | rss-proxy-server.js:208-215 | if the rounds before `k` all redirect and round `k` finishes within the bound, the fetch has round `k`'s outcome |
| `Fetch.FetchSendsRounds` | rss-proxy-server.js:141-147 | when the rounds before `k` redirect and round `k` finishes within the bound, the fetch sends exactly the requests of rounds `hop` to `k` in order, each round's own and nothing more |
| `Fetch.FetchFuelMonotone` | rss-proxy-server.js:145 | once a fetch resolves, a larger redirect bound gives the same result |
| `Fetch.EndlessRedirect` | rss-proxy-server.js:141-147 | if every round answers with a redirect, no redirect bound resolves the fetch, and the requests sent are those of every round within the bound |
| `Server.Route` | rss-proxy-server.js:28-34 | a path is routed iff it starts with `/rsshub/`, and the feed path is what follows the prefix |
| `Server.CallFor` | rss-proxy-server.js:52-59 | the feed URL is `providerUrl + "/" + rssPath`, with the provider's proxy flag |
| `Server.Calls` | rss-proxy-server.js:50-59 | one call per enabled provider, in the same order |
| `Server.Failover` | rss-proxy-server.js:50-80 | a run makes at most one call per remaining provider, at least one when any remains; only a non-empty body succeeds |
| `Server.Respond` | rss-proxy-server.js:64-80 | success iff a 200 with the body, the XML content type and `max-age=300`; exhaustion gives exactly the 503 `text/plain` "All enabled providers failed" with no cache header; an unresolved fetch gives no reply |
| `Server.FailoverSkipsFailures` | rss-proxy-server.js:72-75 | failing calls (errors or empty bodies) are each made once, in order, and passed over |
| `Server.FirstSuccessWins` | rss-proxy-server.js:59-70 | if calls before `k` fail and call `k` yields, its body is served and exactly `k+1` calls are made |
| `Server.AllCallsFail` | rss-proxy-server.js:76-80 | if every call fails, all are made in order and the run ends exhausted |
| `Server.FailoverTriedPrefix` | rss-proxy-server.js:50-80 | the calls made are a prefix of the list; all but the last failed; the verdict is read off the last |
| `Server.HandleRequest` | rss-proxy-server.js:24-81 | 404 with no call for an unrouted path; 503 "No enabled providers" with no call; else the reply and the calls of the failover run |
| `Server.SecondProviderServes` | rss-proxy-server.js:50-70 | two bare providers, the first refused: both are called in order and the second body is served |
| `Server.RepeatedProviderRetried` | rss-proxy-server.js:50-59 | the same provider listed twice is called twice; a timeout on the first call does not stop the second from being served |
| `Server.ProviderTunnelDecision` | rss-proxy-server.js:52-59 | a provider's fetch opens with a CONNECT iff its proxy flag is set and its feed URL is `https:` |

## Left out

- Sockets, `http.request`/`https.request`, the TLS handshake over the tunnelled socket and event wiring: foreign I/O, replaced by the `Environment` oracle.
- Timeouts as wall-clock behaviour: a timeout is a reply of the oracle; only the choice of timeout value is modelled.
- ThroughProxy: a timeout of the tunnelled GET is taken to surface as "CONNECT request timeout". The only timer is armed on the CONNECT request, and whether it still fires once the socket has been handed to the GET depends on the Node.js runtime. Where it does not fire, the source's fetch hangs; that case is a GET timeout of the oracle all the same, not `Unresolved`.
- ReadBody: chunks are taken as already-decoded text. The source sets no encoding on the response, so each `Buffer` chunk is decoded on its own: a multi-byte UTF-8 character split across two chunks becomes U+FFFD, and a feed that is not UTF-8 is altered. The model does not capture this.
- `url.parse` internals: the parsed protocol, hostname, port and path are given by the oracle. A port is taken as a number, so a port written with leading zeros is not rendered as written.
- Configuration loading through `fs` and `js-yaml`, and `process.exit` on failure: file I/O and an external parser.
- `enabled` and `useProxy` values other than booleans or absence: YAML could supply other truthy or falsy values; the model takes booleans.
- Server start, `listen`, startup logging and SIGINT handling: process plumbing.
- Console logging, including the text of the error messages, which is only logged; errors are kept as typed values.
- The 500 reply for a rejected `handleRequest`: it is reached only through values the model's types exclude (a null provider, a missing pathname).
- FetchFeed: redirect chains are cut after `fuel` re-requests, with outcome `Unresolved`, which means "not resolved within the bound", not "never resolves". `FetchFuelMonotone` makes the bound sound: once a fetch resolves, every larger bound gives the same result. An unresolved call ends `HandleRequest` with `NoReply`. The source puts no limit on the number of hops; `EndlessRedirect` shows a network that redirects forever leaves every bound unresolved. Termination of the source's redirect loop is not claimed.
- FetchRedirectResends: a redirect round's own timer and error handler are not modelled. The direct GET's redirect branch returns without reading the 3xx response and without disarming its timer, and its `timeout` and `error` handlers reject the same promise the re-request is to settle. So a redirect round whose connection stays open can end the fetch with "Request timeout" (or a request error) before the re-request settles, and an endless redirect on the direct path may then fail over to the next provider, where the model gives `Unresolved` and `NoReply`. The tunnelled GET has no timer of its own, so on that path only an error can cut the re-request short.
