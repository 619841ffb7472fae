/**
 * How the aria2c back-end assembles its transfer settings when it attaches
 * (zypp/media/MediaAria2c.cc): defaults first, then what the URL's query
 * asks for, then, when the URL named no proxy, the system proxy
 * configuration with its NO_PROXY exceptions.
 */
module Aria2cSettings {

  import opened CxxStrings
  import opened ZyppUrl
  import opened Transfer

  const CONNECT_TIMEOUT: int := 60
  const TRANSFER_TIMEOUT: int := 60 * 3
  const TRANSFER_TIMEOUT_MAX: int := 60 * 60

  /** A `timeout` query value the back-end accepts: present and parsing to 0..3600 seconds. */
  predicate TimeoutAccepted(param: string)
  {
    param != "" && 0 <= ParseLong(param) <= TRANSFER_TIMEOUT_MAX
  }

  /** The proxy address a URL names: `proxy`, followed by ":" and `proxyport` when that is given. */
  function UrlProxy(url: Url): (address: string)
    ensures QueryParam(url, "proxy") != "" ==> address != ""
    ensures IsPrefix(QueryParam(url, "proxy"), address)
    ensures address == QueryParam(url, "proxy") <==> QueryParam(url, "proxyport") == ""
  {
    var port := QueryParam(url, "proxyport");
    if port != "" then QueryParam(url, "proxy") + ":" + port else QueryParam(url, "proxy")
  }

  /** fillSettingsFromUrl, on values. */
  function SettingsFromUrl(v: Settings, url: Url): (r: Settings)
    // the timeout changes only to a value the URL gives and the back-end accepts
    ensures r.timeout != v.timeout ==> TimeoutAccepted(QueryParam(url, "timeout")) && r.timeout == ParseLong(QueryParam(url, "timeout"))
    ensures TimeoutAccepted(QueryParam(url, "timeout")) ==> r.timeout == ParseLong(QueryParam(url, "timeout"))
    // credentials are taken only from a URL that names a user
    ensures url.username == "" ==> r.username == v.username && r.password == v.password
    ensures url.username != "" ==> r.username == url.username
    ensures r.password != v.password ==> url.username != "" && url.password != "" && r.password == url.password
    ensures url.username != "" && url.password != "" ==> r.password == url.password
    // a proxy named by the URL is set and enabled; otherwise the proxy is untouched
    ensures QueryParam(url, "proxy") != "" ==> r.proxyEnabled && r.proxy == UrlProxy(url)
    ensures QueryParam(url, "proxy") == "" ==> r.proxyEnabled == v.proxyEnabled && r.proxy == v.proxy
    // nothing else changes
    ensures r.userAgent == v.userAgent && r.headers == v.headers && r.connectTimeout == v.connectTimeout
    ensures r.proxyUsername == v.proxyUsername && r.proxyPassword == v.proxyPassword
  {
    var param := QueryParam(url, "timeout");
    var num := ParseLong(param);
    var withTimeout := if param != "" && 0 <= num <= TRANSFER_TIMEOUT_MAX then v.(timeout := num) else v;
    var withUser :=
      if url.username != "" then
        withTimeout.(username := url.username,
                     password := if |url.password| > 0 then url.password else withTimeout.password)
      else withTimeout;
    var proxy := QueryParam(url, "proxy");
    if proxy != "" then
      var proxyport := QueryParam(url, "proxyport");
      withUser.(proxy := if proxyport != "" then proxy + ":" + proxyport else proxy, proxyEnabled := true)
    else withUser
  }

  /** fillSettingsFromUrl: updates the settings object in place. */
  method FillSettingsFromUrl(url: Url, s: TransferSettings)
    modifies s
    ensures s.Value() == SettingsFromUrl(old(s.Value()), url)
  {
    var param := QueryParam(url, "timeout");
    if param != "" {
      var num := ParseLong(param);
      if num >= 0 && num <= TRANSFER_TIMEOUT_MAX {
        s.SetTimeout(num);
      }
    }

    if url.username != "" {
      s.SetUsername(url.username);
      if |url.password| > 0 {
        s.SetPassword(url.password);
      }
    }

    var proxy := QueryParam(url, "proxy");
    if proxy != "" {
      var proxyport := QueryParam(url, "proxyport");
      if proxyport != "" {
        proxy := proxy + ":" + proxyport;
      }
      s.SetProxy(proxy);
      s.SetProxyEnabled(true);
    }
  }

  /**
   * The system proxy configuration (ProxyInfoSysconfig, read from
   * /etc/sysconfig/proxy): whether it is enabled, its NO_PROXY entries in
   * order, and the proxy address per URL scheme.
   */
  datatype ProxyInfo = ProxyInfo(enabled: bool, noProxy: seq<string>, proxies: map<string, string>)

  /** ProxyInfo::proxy(scheme): the configured proxy for a scheme, empty when none. */
  function ProxyFor(info: ProxyInfo, scheme: string): string
  {
    if scheme in info.proxies then info.proxies[scheme] else ""
  }

  /**
   * One NO_PROXY entry against a host, ignoring case: an entry of more than
   * one character that starts with '.' is a domain suffix that must match the
   * tail of a strictly longer host; any other entry must equal the host.
   */
  predicate NoProxyMatch(host: string, entry: string)
    ensures |entry| > 1 && entry[0] == '.' ==>
              (NoProxyMatch(host, entry) <==> |host| > |entry| && IsSuffix(ToLower(entry), ToLower(host)))
    ensures !(|entry| > 1 && entry[0] == '.') ==>
              (NoProxyMatch(host, entry) <==> ToLower(host) == ToLower(entry))
  {
    var h := ToLower(host);
    var t := ToLower(entry);
    if |t| > 1 && t[0] == '.' then |h| > |t| && h[|h| - |t|..] == t
    else h == t
  }

  /** NO_PROXY matching does not depend on the case of the host or of the entry. */
  lemma NoProxyCaseInsensitive(host: string, entry: string)
    ensures NoProxyMatch(ToLower(host), entry) == NoProxyMatch(host, entry)
    ensures NoProxyMatch(host, ToLower(entry)) == NoProxyMatch(host, entry)
  {
    ToLowerIdempotent(host);
    ToLowerIdempotent(entry);
    if |entry| > 0 {
      assert ToLower(entry)[0] == '.' <==> entry[0] == '.';
    }
  }

  /**
   * A '.domain' entry exempts exactly the hosts that are, ignoring case, a
   * non-empty name followed by the entry: every such host matches, and a
   * matching host splits that way.
   */
  lemma NoProxyDomainHosts(name: string, entry: string)
    requires |entry| > 1 && entry[0] == '.'
    ensures name != "" ==> NoProxyMatch(name + entry, entry)
  {
    if name != "" {
      ToLowerConcat(name, entry);
      StrictSuffixOf(ToLower(entry), ToLower(name + entry), ToLower(name));
    }
  }

  lemma NoProxyDomainSplit(host: string, entry: string)
    requires |entry| > 1 && entry[0] == '.'
    ensures NoProxyMatch(host, entry) ==>
              var name := ToLower(host)[..|host| - |entry|];
              name != "" && ToLower(host) == name + ToLower(entry)
  {
    if NoProxyMatch(host, entry) {
      StrictSuffixStart(ToLower(entry), ToLower(host));
    }
  }

  /** Some NO_PROXY entry exempts the host. */
  predicate Bypassed(host: string, noProxy: seq<string>)
  {
    exists i | 0 <= i < |noProxy| :: NoProxyMatch(host, noProxy[i])
  }

  /** fillSettingsSystemProxy, on values. */
  function SystemProxySettings(v: Settings, url: Url, info: ProxyInfo): (r: Settings)
    ensures !info.enabled ==> r == v
    // with the system proxy enabled, the proxy stays enabled exactly when no NO_PROXY entry matches
    ensures info.enabled ==> (r.proxyEnabled <==> !Bypassed(url.host, info.noProxy))
    // the address is set only while the proxy remains enabled
    ensures info.enabled && r.proxyEnabled ==> r.proxy == ProxyFor(info, url.scheme)
    ensures !r.proxyEnabled ==> r.proxy == v.proxy
    // nothing else changes
    ensures r == v.(proxyEnabled := r.proxyEnabled, proxy := r.proxy)
  {
    if !info.enabled then v
    else if Bypassed(url.host, info.noProxy) then v.(proxyEnabled := false)
    else v.(proxyEnabled := true, proxy := ProxyFor(info, url.scheme))
  }

  /**
   * fillSettingsSystemProxy: enables the proxy, scans NO_PROXY in order and
   * stops at the first entry that matches the URL's host, disabling the proxy;
   * the address is set only if the proxy is still enabled afterwards.
   */
  method FillSettingsSystemProxy(url: Url, s: TransferSettings, info: ProxyInfo)
    modifies s
    ensures s.Value() == SystemProxySettings(old(s.Value()), url, info)
  {
    if info.enabled {
      s.SetProxyEnabled(true);
      ghost var enabled := s.Value();
      var i := 0;
      while i < |info.noProxy|
        invariant 0 <= i <= |info.noProxy|
        invariant s.Value() == enabled
        invariant forall j :: 0 <= j < i ==> !NoProxyMatch(url.host, info.noProxy[j])
      {
        var host := ToLower(url.host);
        var temp := ToLower(info.noProxy[i]);
        if |temp| > 1 && temp[0] == '.' {
          if |host| > |temp| && host[|host| - |temp|..] == temp {
            assert NoProxyMatch(url.host, info.noProxy[i]);
            s.SetProxyEnabled(false);
            break;
          }
        } else if host == temp {
          assert NoProxyMatch(url.host, info.noProxy[i]);
          s.SetProxyEnabled(false);
          break;
        }
        i := i + 1;
      }

      if s.proxyEnabled {
        s.SetProxy(ProxyFor(info, url.scheme));
      }
    }
  }

  /**
   * The settings part of attachTo, on values: user agent and the two
   * identification headers, the default timeouts, the URL's overrides, and
   * the system proxy only when no proxy has been set.
   */
  function AttachedSettings(v: Settings, url: Url, agent: string, anonymousId: string,
                            flavor: string, info: ProxyInfo): (r: Settings)
    ensures r.userAgent == agent
    ensures r.headers == v.headers + [anonymousId, flavor]
    ensures r.connectTimeout == CONNECT_TIMEOUT
    // the timeout is the URL's when accepted and the default otherwise, so always within 0..3600
    ensures 0 <= r.timeout <= TRANSFER_TIMEOUT_MAX
    ensures TimeoutAccepted(QueryParam(url, "timeout")) ==> r.timeout == ParseLong(QueryParam(url, "timeout"))
    ensures !TimeoutAccepted(QueryParam(url, "timeout")) ==> r.timeout == TRANSFER_TIMEOUT
    ensures url.username != "" ==> r.username == url.username
    ensures url.username == "" ==> r.username == v.username && r.password == v.password
    ensures url.username != "" ==> r.password == (if url.password != "" then url.password else v.password)
    // the proxy credentials are never touched
    ensures r.proxyUsername == v.proxyUsername && r.proxyPassword == v.proxyPassword
    // a proxy from the URL wins and the system configuration is not consulted
    ensures QueryParam(url, "proxy") != "" ==> r.proxyEnabled && r.proxy == UrlProxy(url)
    // a proxy left from earlier settings is kept as it was
    ensures QueryParam(url, "proxy") == "" && v.proxy != "" ==>
              r.proxy == v.proxy && r.proxyEnabled == v.proxyEnabled
    // otherwise the system configuration decides
    ensures QueryParam(url, "proxy") == "" && v.proxy == "" ==>
              && (!info.enabled ==> r.proxy == "" && r.proxyEnabled == v.proxyEnabled)
              && (info.enabled && Bypassed(url.host, info.noProxy) ==> r.proxy == "" && !r.proxyEnabled)
              && (info.enabled && !Bypassed(url.host, info.noProxy) ==>
                    r.proxy == ProxyFor(info, url.scheme) && r.proxyEnabled)
  {
    var defaults := v.(userAgent := agent, headers := v.headers + [anonymousId, flavor],
                       timeout := TRANSFER_TIMEOUT, connectTimeout := CONNECT_TIMEOUT);
    var fromUrl := SettingsFromUrl(defaults, url);
    if fromUrl.proxy == "" then SystemProxySettings(fromUrl, url, info) else fromUrl
  }

  /**
   * attachTo's settings assembly. The agent string and the two header lines
   * come from the installed target and are parameters here.
   */
  method AttachSettings(url: Url, s: TransferSettings, agent: string, anonymousId: string,
                        flavor: string, info: ProxyInfo)
    modifies s
    ensures s.Value() == AttachedSettings(old(s.Value()), url, agent, anonymousId, flavor, info)
  {
    ghost var v := s.Value();
    s.SetUserAgentString(agent);
    s.AddHeader(anonymousId);
    s.AddHeader(flavor);

    s.SetTimeout(TRANSFER_TIMEOUT);
    s.SetConnectTimeout(CONNECT_TIMEOUT);
    assert s.Value() == v.(userAgent := agent, headers := v.headers + [anonymousId, flavor],
                           timeout := TRANSFER_TIMEOUT, connectTimeout := CONNECT_TIMEOUT);

    FillSettingsFromUrl(url, s);

    if s.proxy == "" {
      FillSettingsSystemProxy(url, s, info);
    }
  }
}
