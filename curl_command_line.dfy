/**
 * fillCurlCmdLine (zypp/media/MediaAria2c.cc): the curl command line for a
 * HEAD request, appended to a caller-owned argument list. Every option is
 * passed as two arguments, the option and its value.
 */
module CurlCommandLine {

  import opened CxxStrings
  import opened ZyppUrl
  import opened Transfer
  import opened CommandFlags

  /** The curl options the back-end passes. */
  datatype CurlOpt = Agent | Header | ConnectTimeout | User | Proxy | ProxyUser | UrlArg

  function CurlOptName(o: CurlOpt): string
  {
    match o
    case Agent => "-A"
    case Header => "-H"
    case ConnectTimeout => "--connect-timeout"
    case User => "--user"
    case Proxy => "--proxy"
    case ProxyUser => "--proxy-user"
    case UrlArg => "--url"
  }

  /** Each option written out as two arguments, the option and then its value. */
  function Pairs(flags: seq<Flag<CurlOpt>>): (r: seq<string>)
    ensures |r| == 2 * |flags|
  {
    if flags == [] then [] else [CurlOptName(flags[0].opt), flags[0].value] + Pairs(flags[1..])
  }

  lemma {:induction false} PairsAt(flags: seq<Flag<CurlOpt>>, j: int)
    requires 0 <= j < |flags|
    ensures Pairs(flags)[2 * j] == CurlOptName(flags[j].opt)
    ensures Pairs(flags)[2 * j + 1] == flags[j].value
  {
    if j > 0 {
      PairsAt(flags[1..], j - 1);
    }
  }

  lemma {:induction false} PairsConcat(a: seq<Flag<CurlOpt>>, b: seq<Flag<CurlOpt>>)
    ensures Pairs(a + b) == Pairs(a) + Pairs(b)
  {
    if a == [] {
      assert a + b == b;
    } else {
      assert (a + b)[1..] == a[1..] + b;
      PairsConcat(a[1..], b);
    }
  }

  /** A name, followed by ":" and the password only when the password is non-empty. */
  function UserPass(name: string, password: string): (r: string)
    ensures password == "" ==> r == name
    ensures password != "" ==> |r| == |name| + 1 + |password| && r[..|name|] == name && r[|name|] == ':'
    ensures password != "" ==> r[|name| + 1..] == password
    ensures IsPrefix(name, r)
  {
    if |password| > 0 then name + ":" + password else name
  }

  /** How curl reads a --user value back: up to the first ':' is the name, the rest the password. */
  function SplitUserPass(s: string): (string, string)
  {
    if ':' in s then
      var k := FirstColon(s);
      (s[..k], s[k + 1..])
    else (s, "")
  }

  function FirstColon(s: string): (k: nat)
    requires ':' in s
    ensures k < |s| && s[k] == ':' && ':' !in s[..k]
  {
    if s[0] == ':' then 0
    else
      assert ':' in s[1..] by {
        var i :| 0 <= i < |s| && s[i] == ':';
        assert s[1..][i - 1] == ':';
      }
      var k := 1 + FirstColon(s[1..]);
      assert s[..k] == [s[0]] + s[1..][..k - 1];
      k
  }

  /** A name without ':' and its password are recovered from the joined value. */
  lemma UserPassRoundTrip(name: string, password: string)
    requires ':' !in name
    ensures SplitUserPass(UserPass(name, password)) == (name, password)
  {
    var r := UserPass(name, password);
    if password != "" {
      assert r[|name|] == ':';
      var k := FirstColon(r);
      assert r[k + 1..] == password;
    }
  }

  function CurlCredentialFlags(scheme: string, username: string, password: string, version: string): seq<Flag<CurlOpt>>
  {
    if username == "" then
      if scheme == "ftp" then [Flag(User, "yast2:" + version)] else []
    else [Flag(User, UserPass(username, password))]
  }

  function CurlProxyFlags(v: Settings): seq<Flag<CurlOpt>>
  {
    if !v.proxyEnabled then []
    else
      [Flag(Proxy, v.proxy)]
      + (if v.proxyUsername == "" then [] else [Flag(ProxyUser, UserPass(v.proxyUsername, v.proxyPassword))])
  }

  /** The options after "-I", in order; the URL comes last. */
  function CurlFlags(v: Settings, url: Url, version: string): seq<Flag<CurlOpt>>
  {
    [Flag(Agent, v.userAgent)]
    + Repeated(Header, v.headers)
    + [Flag(ConnectTimeout, NumString(v.timeout))]
    + CurlCredentialFlags(url.scheme, v.username, v.password, version)
    + CurlProxyFlags(v)
    + [Flag(UrlArg, AsString(url))]
  }

  /** The arguments fillCurlCmdLine appends: the binary, "-I" for a HEAD request, the options. */
  function CurlArgs(curlpath: string, v: Settings, url: Url, version: string): seq<string>
  {
    [curlpath, "-I"] + Pairs(CurlFlags(v, url, version))
  }

  /** Two args.push_back calls, one for the option and one for its value. */
  method PushPair(args: ArgList, o: CurlOpt, value: string,
                  ghost before: seq<string>, ghost done: seq<Flag<CurlOpt>>)
    returns (ghost done': seq<Flag<CurlOpt>>)
    requires args.items == before + Pairs(done)
    modifies args
    ensures done' == done + [Flag(o, value)]
    ensures args.items == before + Pairs(done')
  {
    args.PushBack(CurlOptName(o));
    args.PushBack(value);
    done' := done + [Flag(o, value)];
    PairsConcat(done, [Flag(o, value)]);
    assert Pairs([Flag(o, value)]) == [CurlOptName(o), value] + Pairs([]);
  }

  /** The header part of fillCurlCmdLine: "-H" and the header, per header in order. */
  method AppendCurlHeaders(args: ArgList, headers: seq<string>)
    modifies args
    ensures args.items == old(args.items) + Pairs(Repeated(Header, headers))
  {
    ghost var start := args.items;
    ghost var done: seq<Flag<CurlOpt>> := [];
    var i := 0;
    while i < |headers|
      invariant 0 <= i <= |headers|
      invariant done == Repeated(Header, headers[..i])
      invariant args.items == start + Pairs(done)
    {
      done := PushPair(args, Header, headers[i], start, done);
      assert Repeated(Header, headers[..i + 1]) == Repeated(Header, headers[..i]) + [Flag(Header, headers[i])];
      i := i + 1;
    }
    assert headers[..i] == headers;
  }

  /** The user part of fillCurlCmdLine. */
  method AppendCurlCredentials(args: ArgList, scheme: string, username: string, password: string, version: string)
    modifies args
    ensures args.items == old(args.items) + Pairs(CurlCredentialFlags(scheme, username, password, version))
  {
    ghost var start := args.items;
    ghost var done: seq<Flag<CurlOpt>> := [];
    if username == "" {
      if scheme == "ftp" {
        var id := "yast2:";
        id := id + version;
        done := PushPair(args, User, id, start, done);
      }
    } else {
      var userpass := username;
      if |password| > 0 {
        userpass := userpass + (":" + password);
      }
      assert userpass == UserPass(username, password);
      done := PushPair(args, User, userpass, start, done);
    }
    assert done == CurlCredentialFlags(scheme, username, password, version);
  }

  /** The proxy part of fillCurlCmdLine. */
  method AppendCurlProxy(args: ArgList, s: TransferSettings)
    modifies args
    ensures args.items == old(args.items) + Pairs(CurlProxyFlags(s.Value()))
  {
    ghost var start := args.items;
    ghost var done: seq<Flag<CurlOpt>> := [];
    if s.proxyEnabled {
      done := PushPair(args, Proxy, s.proxy, start, done);
      if s.proxyUsername != "" {
        var userpass := s.proxyUsername;
        if |s.proxyPassword| > 0 {
          userpass := userpass + (":" + s.proxyPassword);
        }
        assert userpass == UserPass(s.proxyUsername, s.proxyPassword);
        done := PushPair(args, ProxyUser, userpass, start, done);
      }
    }
    assert done == CurlProxyFlags(s.Value());
  }

  /** fillCurlCmdLine: appends the curl command line to args, leaving what was there. */
  method FillCurlCmdLine(curlpath: string, s: TransferSettings, url: Url, version: string, args: ArgList)
    modifies args
    ensures args.items == old(args.items) + CurlArgs(curlpath, s.Value(), url, version)
  {
    ghost var v := s.Value();
    ghost var m0 := args.items;
    args.PushBack(curlpath);
    // only do a head request
    args.PushBack("-I");
    ghost var m1 := args.items;
    assert m1 == m0 + [curlpath, "-I"];
    ghost var done := PushPair(args, Agent, s.userAgent, m1, []);
    ghost var m2 := args.items;
    AppendCurlHeaders(args, s.headers);
    ghost var m3 := args.items;
    done := PushPair(args, ConnectTimeout, NumString(s.timeout), m3, []);
    ghost var m4 := args.items;
    AppendCurlCredentials(args, url.scheme, s.username, s.password, version);
    ghost var m5 := args.items;
    AppendCurlProxy(args, s);
    ghost var m6 := args.items;
    done := PushPair(args, UrlArg, AsString(url), m6, []);
    CurlArgsGroups(curlpath, v, url, version);
    AppendSeven(m0, m1, m2, m3, m4, m5, m6, args.items,
                [curlpath, "-I"], Pairs([Flag(Agent, v.userAgent)]),
                Pairs(Repeated(Header, v.headers)), Pairs([Flag(ConnectTimeout, NumString(v.timeout))]),
                Pairs(CurlCredentialFlags(url.scheme, v.username, v.password, version)),
                Pairs(CurlProxyFlags(v)), Pairs([Flag(UrlArg, AsString(url))]));
  }

  /** The argument list as its option groups, each written out on its own. */
  lemma CurlArgsGroups(curlpath: string, v: Settings, url: Url, version: string)
    ensures CurlArgs(curlpath, v, url, version) ==
      [curlpath, "-I"]
      + Pairs([Flag(Agent, v.userAgent)])
      + Pairs(Repeated(Header, v.headers))
      + Pairs([Flag(ConnectTimeout, NumString(v.timeout))])
      + Pairs(CurlCredentialFlags(url.scheme, v.username, v.password, version))
      + Pairs(CurlProxyFlags(v))
      + Pairs([Flag(UrlArg, AsString(url))])
  {
    PairsSix([Flag(Agent, v.userAgent)], Repeated(Header, v.headers), [Flag(ConnectTimeout, NumString(v.timeout))],
             CurlCredentialFlags(url.scheme, v.username, v.password, version), CurlProxyFlags(v),
             [Flag(UrlArg, AsString(url))]);
  }

  lemma PairsSix(a: seq<Flag<CurlOpt>>, b: seq<Flag<CurlOpt>>, c: seq<Flag<CurlOpt>>, d: seq<Flag<CurlOpt>>,
                 e: seq<Flag<CurlOpt>>, f: seq<Flag<CurlOpt>>)
    ensures Pairs(a + b + c + d + e + f) == Pairs(a) + Pairs(b) + Pairs(c) + Pairs(d) + Pairs(e) + Pairs(f)
  {
    PairsConcat(a + b + c + d + e, f);
    PairsConcat(a + b + c + d, e);
    PairsConcat(a + b + c, d);
    PairsConcat(a + b, c);
    PairsConcat(a, b);
  }

  /**
   * After the binary and "-I", the arguments come in option/value pairs (so
   * there is an even number of them): the user agent, one "-H" per header in
   * order, the transfer timeout as the connect timeout, and "--url" with the
   * URL last.
   */
  lemma CurlLayout(curlpath: string, v: Settings, url: Url, version: string)
    ensures var a := CurlArgs(curlpath, v, url, version);
      && |a| % 2 == 0
      && |a| >= 8 + 2 * |v.headers|
      && a[0] == curlpath && a[1] == "-I"
      && a[2] == "-A" && a[3] == v.userAgent
      && (forall i :: 0 <= i < |v.headers| ==> a[4 + 2 * i] == "-H" && a[5 + 2 * i] == v.headers[i])
      && a[4 + 2 * |v.headers|] == "--connect-timeout"
      && a[5 + 2 * |v.headers|] == NumString(v.timeout)
      && a[|a| - 2] == "--url" && a[|a| - 1] == AsString(url)
      && (forall j :: 1 <= j < |a| / 2 ==> a[2 * j] in CurlOptNames())
  {
    var f := CurlFlags(v, url, version);
    CurlFlagsLayout(v, url, version);
    CurlPairsLayout(curlpath, f, v.userAgent, v.headers, NumString(v.timeout), AsString(url));
  }

  /** Every argument that starts a pair. */
  function CurlOptNames(): set<string>
  {
    {"-A", "-H", "--connect-timeout", "--user", "--proxy", "--proxy-user", "--url"}
  }

  /** The flags start with the user agent, then the headers, then the timeout, and end with the URL. */
  lemma CurlFlagsLayout(v: Settings, url: Url, version: string)
    ensures var f := CurlFlags(v, url, version);
      && |f| >= 3 + |v.headers|
      && f[0] == Flag(Agent, v.userAgent)
      && (forall i :: 0 <= i < |v.headers| ==> f[1 + i] == Flag(Header, v.headers[i]))
      && f[1 + |v.headers|] == Flag(ConnectTimeout, NumString(v.timeout))
      && f[|f| - 1] == Flag(UrlArg, AsString(url))
  {
    var headers := Repeated(Header, v.headers);
    var rest := [Flag(ConnectTimeout, NumString(v.timeout))]
      + CurlCredentialFlags(url.scheme, v.username, v.password, version) + CurlProxyFlags(v);
    var f := CurlFlags(v, url, version);
    assert f == [Flag(Agent, v.userAgent)] + headers + rest + [Flag(UrlArg, AsString(url))];
  }

  /** The layout statement of CurlLayout for any flag sequence of the same shape. */
  lemma CurlPairsLayout(curlpath: string, f: seq<Flag<CurlOpt>>, agent: string, headers: seq<string>,
                        timeout: string, target: string)
    requires |f| >= 3 + |headers|
    requires f[0] == Flag(Agent, agent)
    requires forall i :: 0 <= i < |headers| ==> f[1 + i] == Flag(Header, headers[i])
    requires f[1 + |headers|] == Flag(ConnectTimeout, timeout)
    requires f[|f| - 1] == Flag(UrlArg, target)
    ensures var a := [curlpath, "-I"] + Pairs(f);
      && |a| % 2 == 0
      && |a| >= 8 + 2 * |headers|
      && a[0] == curlpath && a[1] == "-I"
      && a[2] == "-A" && a[3] == agent
      && (forall i :: 0 <= i < |headers| ==> a[4 + 2 * i] == "-H" && a[5 + 2 * i] == headers[i])
      && a[4 + 2 * |headers|] == "--connect-timeout"
      && a[5 + 2 * |headers|] == timeout
      && a[|a| - 2] == "--url" && a[|a| - 1] == target
      && (forall j :: 1 <= j < |a| / 2 ==> a[2 * j] in CurlOptNames())
  {
    var p := Pairs(f);
    CurlPairsHead(f, agent);
    forall i | 0 <= i < |headers|
      ensures HeaderPair(p, 1 + i, headers[i])
    {
      CurlPairsHeader(f, 1 + i, headers[i]);
    }
    CurlPairsTimeout(f, 1 + |headers|, timeout);
    CurlPairsUrl(f, |f| - 1, target);
    PairsStartWithOptions(f);
    ShiftedFields(curlpath, p, |f|, agent, headers, timeout, target);
    ShiftedOptions(curlpath, p, |f|);
  }

  /** The fields of CurlLayout, read from the pairs after the binary and "-I". */
  lemma ShiftedFields(curlpath: string, p: seq<string>, n: nat, agent: string, headers: seq<string>,
                      timeout: string, target: string)
    requires |p| == 2 * n && n >= 3 + |headers|
    requires p[2 * 0] == "-A" && p[2 * 0 + 1] == agent
    requires forall i :: 0 <= i < |headers| ==> HeaderPair(p, 1 + i, headers[i])
    requires p[2 * (1 + |headers|)] == "--connect-timeout" && p[2 * (1 + |headers|) + 1] == timeout
    requires p[2 * (n - 1)] == "--url" && p[2 * (n - 1) + 1] == target
    ensures var a := [curlpath, "-I"] + p;
      && |a| % 2 == 0
      && |a| >= 8 + 2 * |headers|
      && a[0] == curlpath && a[1] == "-I"
      && a[2] == "-A" && a[3] == agent
      && (forall i :: 0 <= i < |headers| ==> a[4 + 2 * i] == "-H" && a[5 + 2 * i] == headers[i])
      && a[4 + 2 * |headers|] == "--connect-timeout"
      && a[5 + 2 * |headers|] == timeout
      && a[|a| - 2] == "--url" && a[|a| - 1] == target
  {
    ShiftedHead(curlpath, p, n, agent);
    ShiftedHeaders(curlpath, p, headers);
    ShiftedAt(curlpath, p, 1 + |headers|);
    ShiftedAt(curlpath, p, n - 1);
  }

  lemma ShiftedHead(curlpath: string, p: seq<string>, n: nat, agent: string)
    requires |p| == 2 * n && n >= 1
    requires p[2 * 0] == "-A" && p[2 * 0 + 1] == agent
    ensures var a := [curlpath, "-I"] + p;
      && |a| == 2 * (n + 1)
      && a[0] == curlpath && a[1] == "-I"
      && a[2] == "-A" && a[3] == agent
  {
  }

  /** Pair j of the options is pair j + 1 of the arguments. */
  lemma ShiftedAt(curlpath: string, p: seq<string>, j: nat)
    requires 2 * j + 1 < |p|
    ensures var a := [curlpath, "-I"] + p;
      a[2 * (j + 1)] == p[2 * j] && a[2 * (j + 1) + 1] == p[2 * j + 1]
  {
  }

  lemma ShiftedHeaders(curlpath: string, p: seq<string>, headers: seq<string>)
    requires forall i :: 0 <= i < |headers| ==> HeaderPair(p, 1 + i, headers[i])
    ensures var a := [curlpath, "-I"] + p;
      forall i :: 0 <= i < |headers| ==> 5 + 2 * i < |a| && a[4 + 2 * i] == "-H" && a[5 + 2 * i] == headers[i]
  {
    var a := [curlpath, "-I"] + p;
    forall i | 0 <= i < |headers|
      ensures 5 + 2 * i < |a| && a[4 + 2 * i] == "-H" && a[5 + 2 * i] == headers[i]
    {
      assert HeaderPair(p, 1 + i, headers[i]);
      ShiftedAt(curlpath, p, 1 + i);
      assert 4 + 2 * i == 2 * (1 + i + 1) && 5 + 2 * i == 2 * (1 + i + 1) + 1;
    }
  }

  /** Every pair after the binary and "-I" starts with a curl option. */
  lemma ShiftedOptions(curlpath: string, p: seq<string>, n: nat)
    requires |p| == 2 * n
    requires forall j :: 0 <= j < n ==> p[2 * j] in CurlOptNames()
    ensures var a := [curlpath, "-I"] + p;
      forall j :: 1 <= j < |a| / 2 ==> a[2 * j] in CurlOptNames()
  {
    var a := [curlpath, "-I"] + p;
    forall j | 1 <= j < |a| / 2
      ensures a[2 * j] in CurlOptNames()
    {
      assert a[2 * j] == p[2 * (j - 1)];
    }
  }

  lemma CurlPairsHead(f: seq<Flag<CurlOpt>>, agent: string)
    requires |f| >= 1 && f[0] == Flag(Agent, agent)
    ensures Pairs(f)[2 * 0] == "-A" && Pairs(f)[2 * 0 + 1] == agent
  {
    PairsAt(f, 0);
  }

  /** Pair j is a header option with the given header. */
  predicate HeaderPair(p: seq<string>, j: nat, header: string)
  {
    2 * j + 1 < |p| && p[2 * j] == "-H" && p[2 * j + 1] == header
  }

  /** The pair of flag j when that flag is a header. */
  lemma CurlPairsHeader(f: seq<Flag<CurlOpt>>, j: nat, header: string)
    requires j < |f| && f[j] == Flag(Header, header)
    ensures HeaderPair(Pairs(f), j, header)
  {
    PairsAt(f, j);
  }

  lemma CurlPairsTimeout(f: seq<Flag<CurlOpt>>, j: nat, timeout: string)
    requires j < |f| && f[j] == Flag(ConnectTimeout, timeout)
    ensures Pairs(f)[2 * j] == "--connect-timeout" && Pairs(f)[2 * j + 1] == timeout
  {
    PairsAt(f, j);
  }

  lemma CurlPairsUrl(f: seq<Flag<CurlOpt>>, j: nat, target: string)
    requires j < |f| && f[j] == Flag(UrlArg, target)
    ensures Pairs(f)[2 * j] == "--url" && Pairs(f)[2 * j + 1] == target
  {
    PairsAt(f, j);
  }

  /** Every pair starts with a curl option. */
  lemma PairsStartWithOptions(f: seq<Flag<CurlOpt>>)
    ensures forall j :: 0 <= j < |f| ==> Pairs(f)[2 * j] in CurlOptNames()
  {
    forall j | 0 <= j < |f|
      ensures Pairs(f)[2 * j] in CurlOptNames()
    {
      PairsAt(f, j);
    }
  }

  /** What the command line says for each option, as the sum of its groups. */
  lemma CurlNamed(v: Settings, url: Url, version: string, o: CurlOpt)
    ensures Named(CurlFlags(v, url, version), o) ==
      (if o == Agent then [v.userAgent] else [])
      + (if o == Header then v.headers else [])
      + (if o == ConnectTimeout then [NumString(v.timeout)] else [])
      + Named(CurlCredentialFlags(url.scheme, v.username, v.password, version), o)
      + Named(CurlProxyFlags(v), o)
      + (if o == UrlArg then [AsString(url)] else [])
  {
    NamedSix([Flag(Agent, v.userAgent)], Repeated(Header, v.headers), [Flag(ConnectTimeout, NumString(v.timeout))],
             CurlCredentialFlags(url.scheme, v.username, v.password, version), CurlProxyFlags(v),
             [Flag(UrlArg, AsString(url))], o);
    NamedSingle(Flag(Agent, v.userAgent), o);
    NamedRepeated(Header, v.headers, o);
    NamedSingle(Flag(ConnectTimeout, NumString(v.timeout)), o);
    NamedSingle(Flag(UrlArg, AsString(url)), o);
  }

  lemma CurlCredentialNamed(scheme: string, username: string, password: string, version: string, o: CurlOpt)
    ensures Named(CurlCredentialFlags(scheme, username, password, version), o) ==
      if o != User then []
      else if username != "" then [UserPass(username, password)]
      else if scheme == "ftp" then ["yast2:" + version]
      else []
  {
    if username != "" {
      NamedSingle(Flag(User, UserPass(username, password)), o);
    } else if scheme == "ftp" {
      NamedSingle(Flag(User, "yast2:" + version), o);
    }
  }

  lemma CurlProxyNamed(v: Settings, o: CurlOpt)
    ensures Named(CurlProxyFlags(v), o) ==
      if !v.proxyEnabled then []
      else if o == Proxy then [v.proxy]
      else if o == ProxyUser && v.proxyUsername != "" then [UserPass(v.proxyUsername, v.proxyPassword)]
      else []
  {
    if v.proxyEnabled {
      var user := if v.proxyUsername == "" then [] else [Flag(ProxyUser, UserPass(v.proxyUsername, v.proxyPassword))];
      NamedConcat([Flag(Proxy, v.proxy)], user, o);
      NamedSingle(Flag(Proxy, v.proxy), o);
      if v.proxyUsername != "" {
        NamedSingle(user[0], o);
      }
    }
  }

  /**
   * The credentials on the curl command line: a named user is always passed,
   * whatever the scheme, with ":password" only when the password is
   * non-empty; anonymous ftp passes "yast2:" and the library version; the
   * proxy user is passed the same way, and only with the proxy enabled.
   */
  lemma CurlCredentials(v: Settings, url: Url, version: string)
    ensures var f := CurlFlags(v, url, version);
      && Named(f, User) ==
           (if v.username != "" then [UserPass(v.username, v.password)]
            else if url.scheme == "ftp" then ["yast2:" + version]
            else [])
      && Named(f, Proxy) == (if v.proxyEnabled then [v.proxy] else [])
      && Named(f, ProxyUser) ==
           (if v.proxyEnabled && v.proxyUsername != "" then [UserPass(v.proxyUsername, v.proxyPassword)] else [])
  {
    CurlOnlyUser(v, url, version);
    CurlCredentialNamed(url.scheme, v.username, v.password, version, User);
    CurlOnlyProxy(v, url, version, Proxy);
    CurlProxyNamed(v, Proxy);
    CurlOnlyProxy(v, url, version, ProxyUser);
    CurlProxyNamed(v, ProxyUser);
  }

  /** The user option is given by the credential group alone. */
  lemma CurlOnlyUser(v: Settings, url: Url, version: string)
    ensures Named(CurlFlags(v, url, version), User) ==
              Named(CurlCredentialFlags(url.scheme, v.username, v.password, version), User)
  {
    CurlNamed(v, url, version, User);
    CurlProxySilent(v, User);
  }

  /** The proxy options are given by the proxy group alone. */
  lemma CurlOnlyProxy(v: Settings, url: Url, version: string, o: CurlOpt)
    requires o == Proxy || o == ProxyUser
    ensures Named(CurlFlags(v, url, version), o) == Named(CurlProxyFlags(v), o)
  {
    CurlNamed(v, url, version, o);
    CurlCredentialSilent(url.scheme, v.username, v.password, version, o);
  }

  lemma CurlCredentialSilent(scheme: string, username: string, password: string, version: string, o: CurlOpt)
    requires o != User
    ensures Named(CurlCredentialFlags(scheme, username, password, version), o) == []
  {
    CurlCredentialNamed(scheme, username, password, version, o);
  }

  lemma CurlProxySilent(v: Settings, o: CurlOpt)
    requires o != Proxy && o != ProxyUser
    ensures Named(CurlProxyFlags(v), o) == []
  {
    CurlProxyNamed(v, o);
  }
}
