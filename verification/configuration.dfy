/**
 * The server's configuration as loaded from its YAML file: a global request
 * timeout, the forward proxy, and the ordered list of feed providers.
 * It is read-only once loaded.
 */
module Configuration {
  import opened Wrappers

  /**
   * A configured provider: either a bare origin URL, or an entry whose
   * `enabled` and `useProxy` keys may be absent (`None`).
   */
  datatype Provider =
    | Bare(url: string)
    | Entry(url: string, enabled: Option<bool>, useProxy: Option<bool>)

  /** The `proxy` section; an absent or zero `timeout` is falsy in JavaScript. */
  datatype ProxySettings = ProxySettings(enabled: bool, host: string, port: nat, timeout: Option<nat>)

  datatype Config = Config(timeout: nat, proxy: ProxySettings, providers: seq<Provider>)

  /** A bare provider is always kept; an entry is kept unless its `enabled` is literally `false`. */
  function IsEnabled(p: Provider): (kept: bool)
    ensures p.Bare? ==> kept
    ensures p.Entry? && p.enabled.None? ==> kept
    ensures p.Entry? ==> (kept <==> p.enabled != Some(false))
  {
    match p
    case Bare(_) => true
    case Entry(_, enabled, _) => enabled != Some(false)
  }

  /** The configured providers, filtered in order to the enabled ones. */
  function Enabled(ps: seq<Provider>): (r: seq<Provider>)
    ensures |r| <= |ps|
    ensures forall i :: 0 <= i < |r| ==> IsEnabled(r[i])
    decreases |ps|
  {
    if ps == [] then []
    else if IsEnabled(ps[0]) then [ps[0]] + Enabled(ps[1..])
    else Enabled(ps[1..])
  }

  /** Filtering distributes over concatenation, so it keeps the configured order. */
  lemma {:induction false} EnabledAppend(a: seq<Provider>, b: seq<Provider>)
    ensures Enabled(a + b) == Enabled(a) + Enabled(b)
    decreases |a|
  {
    if a != [] {
      assert (a + b)[1..] == a[1..] + b;
      EnabledAppend(a[1..], b);
    } else {
      assert a + b == b;
    }
  }

  /** A provider is in the enabled list exactly when it is configured and enabled. */
  lemma {:induction false} EnabledMembers(ps: seq<Provider>, p: Provider)
    ensures p in Enabled(ps) <==> p in ps && IsEnabled(p)
    decreases |ps|
  {
    if ps != [] {
      EnabledMembers(ps[1..], p);
      assert ps == [ps[0]] + ps[1..];
    }
  }

  /** The enabled list is empty exactly when no configured provider is enabled. */
  lemma {:induction false} EnabledEmpty(ps: seq<Provider>)
    ensures Enabled(ps) == [] <==> forall i :: 0 <= i < |ps| ==> !IsEnabled(ps[i])
  {
    if Enabled(ps) != [] {
      EnabledMembers(ps, Enabled(ps)[0]);
    } else {
      forall i | 0 <= i < |ps| ensures !IsEnabled(ps[i]) {
        EnabledMembers(ps, ps[i]);
      }
    }
  }

  /**
   * The proxy flag handed to the fetcher: the global `proxy.enabled` for a
   * bare provider, and the entry's own `useProxy` for an entry, which is falsy
   * when absent (there is no fallback to the global flag).
   */
  function ProxyFlag(globalEnabled: bool, p: Provider): (useProxy: bool)
    ensures p.Bare? ==> useProxy == globalEnabled
    ensures p.Entry? ==> (useProxy <==> p.useProxy == Some(true))
  {
    match p
    case Bare(_) => globalEnabled
    case Entry(_, _, useProxy) => useProxy == Some(true)
  }

  /** An entry's proxy flag does not depend on the global setting at all. */
  lemma {:induction false} EntryIgnoresGlobalFlag(p: Provider)
    requires p.Entry?
    ensures ProxyFlag(true, p) == ProxyFlag(false, p)
  {
  }

  /** The CONNECT timeout: `proxy.timeout || timeout`. */
  function ConnectTimeout(cfg: Config): (t: nat)
    ensures cfg.proxy.timeout.Some? && cfg.proxy.timeout.value != 0 ==> t == cfg.proxy.timeout.value
    ensures cfg.proxy.timeout.None? || cfg.proxy.timeout == Some(0) ==> t == cfg.timeout
  {
    match cfg.proxy.timeout
    case Some(t) => if t != 0 then t else cfg.timeout
    case None => cfg.timeout
  }
}
