/**
 * fillAriaCmdLine (zypp/media/MediaAria2c.cc): the aria2c command line for
 * one download, appended to a caller-owned argument list.
 */
module Aria2cCommandLine {

  import opened CxxStrings
  import opened ZyppUrl
  import opened Transfer
  import opened CommandFlags

  /** The aria2c options the back-end passes, each written "--name=value". */
  datatype AriaOpt =
    | UserAgent | SummaryInterval | FollowMetalink | CheckIntegrity | Header | ConnectTimeout
    | FtpUser | FtpPasswd | HttpUser | HttpPasswd | HttpProxy | HttpProxyUser | HttpProxyPasswd | Dir

  /** The text before the value in each option's str::form format, "--name=". */
  function AriaOptPrefix(o: AriaOpt): string
  {
    match o
    case UserAgent => "--user-agent="
    case SummaryInterval => "--summary-interval="
    case FollowMetalink => "--follow-metalink="
    case CheckIntegrity => "--check-integrity="
    case Header => "--header="
    case ConnectTimeout => "--connect-timeout="
    case FtpUser => "--ftp-user="
    case FtpPasswd => "--ftp-passwd="
    case HttpUser => "--http-user="
    case HttpPasswd => "--http-passwd="
    case HttpProxy => "--http-proxy="
    case HttpProxyUser => "--http-proxy-user="
    case HttpProxyPasswd => "--http-proxy-passwd="
    case Dir => "--dir="
  }

  /** The argument str::form("--name=%s", value) builds. */
  function AriaOption(o: AriaOpt, value: string): string
  {
    AriaOptPrefix(o) + value
  }

  /** Each option written out as one argument, in order. */
  function AriaTokens(flags: seq<Flag<AriaOpt>>): (r: seq<string>)
    ensures |r| == |flags|
    ensures forall i :: 0 <= i < |flags| ==> r[i] == AriaOption(flags[i].opt, flags[i].value)
  {
    seq(|flags|, i requires 0 <= i < |flags| => AriaOption(flags[i].opt, flags[i].value))
  }

  predicate IsWebScheme(scheme: string)
  {
    scheme == "http" || scheme == "https"
  }

  /** The options every download starts with, before the headers. */
  function AriaFixedFlags(agent: string): seq<Flag<AriaOpt>>
  {
    [Flag(UserAgent, agent), Flag(SummaryInterval, "1"), Flag(FollowMetalink, "mem"), Flag(CheckIntegrity, "true")]
  }

  /** User and password options; `version` is the library's VERSION macro. */
  function AriaCredentialFlags(scheme: string, username: string, password: string, version: string): seq<Flag<AriaOpt>>
  {
    if username == "" then
      if scheme == "ftp" then [Flag(FtpUser, "suseuser"), Flag(FtpPasswd, version)] else []
    else
      AriaUserFlags(scheme, username) + AriaPasswordFlags(scheme, password)
  }

  /** The user option for a named user: ftp or http(s) only. */
  function AriaUserFlags(scheme: string, username: string): seq<Flag<AriaOpt>>
  {
    if scheme == "ftp" then [Flag(FtpUser, username)]
    else if IsWebScheme(scheme) then [Flag(HttpUser, username)]
    else []
  }

  /** The password option for a named user: a non-empty password, ftp or http(s) only. */
  function AriaPasswordFlags(scheme: string, password: string): seq<Flag<AriaOpt>>
  {
    if password == "" then []
    else if scheme == "ftp" then [Flag(FtpPasswd, password)]
    else if IsWebScheme(scheme) then [Flag(HttpPasswd, password)]
    else []
  }

  function AriaProxyFlags(v: Settings): seq<Flag<AriaOpt>>
  {
    if !v.proxyEnabled then []
    else
      [Flag(HttpProxy, v.proxy)]
      + (if v.proxyUsername == "" then []
         else [Flag(HttpProxyUser, v.proxyUsername)]
              + (if v.proxyPassword == "" then [] else [Flag(HttpProxyPasswd, v.proxyPassword)]))
  }

  function AriaDirFlags(destination: string): seq<Flag<AriaOpt>>
  {
    if destination == "" then [] else [Flag(Dir, destination)]
  }

  /** The options between the binary and the URL, in order. */
  function AriaFlags(v: Settings, scheme: string, destination: string, version: string): seq<Flag<AriaOpt>>
  {
    AriaFixedFlags(v.userAgent)
    + Repeated(Header, v.headers)
    + [Flag(ConnectTimeout, NumString(v.timeout))]
    + AriaCredentialFlags(scheme, v.username, v.password, version)
    + AriaProxyFlags(v)
    + AriaDirFlags(destination)
  }

  /** The arguments fillAriaCmdLine appends: the binary, the options, the URL. */
  function AriaArgs(ariapath: string, v: Settings, url: Url, destination: string, version: string): seq<string>
  {
    [ariapath] + AriaTokens(AriaFlags(v, url.scheme, destination, version)) + [AsString(url)]
  }

  lemma AriaTokensAppend(flags: seq<Flag<AriaOpt>>, f: Flag<AriaOpt>)
    ensures AriaTokens(flags + [f]) == AriaTokens(flags) + [AriaOption(f.opt, f.value)]
  {
    AriaTokensConcat(flags, [f]);
  }

  /**
   * One args.push_back(str::form("--name=%s", value)); the ghost parameters
   * track the options appended so far.
   */
  method PushOption(args: ArgList, o: AriaOpt, value: string,
                    ghost before: seq<string>, ghost done: seq<Flag<AriaOpt>>)
    returns (ghost done': seq<Flag<AriaOpt>>)
    requires args.items == before + AriaTokens(done)
    modifies args
    ensures done' == done + [Flag(o, value)]
    ensures args.items == before + AriaTokens(done')
  {
    args.PushBack(AriaOption(o, value));
    done' := done + [Flag(o, value)];
    AriaTokensAppend(done, Flag(o, value));
  }

  lemma AriaTokensConcat(a: seq<Flag<AriaOpt>>, b: seq<Flag<AriaOpt>>)
    ensures AriaTokens(a + b) == AriaTokens(a) + AriaTokens(b)
  {
    assert forall i | 0 <= i < |a + b| :: (a + b)[i] == if i < |a| then a[i] else b[i - |a|];
  }

  /** The argument list as the six option groups, each written out on its own. */
  lemma AriaArgsGroups(ariapath: string, v: Settings, url: Url, destination: string, version: string)
    ensures AriaArgs(ariapath, v, url, destination, version) ==
      [ariapath]
      + AriaTokens(AriaFixedFlags(v.userAgent))
      + AriaTokens(Repeated(Header, v.headers))
      + AriaTokens([Flag(ConnectTimeout, NumString(v.timeout))])
      + AriaTokens(AriaCredentialFlags(url.scheme, v.username, v.password, version))
      + AriaTokens(AriaProxyFlags(v))
      + AriaTokens(AriaDirFlags(destination))
      + [AsString(url)]
  {
    var a, b, c := AriaFixedFlags(v.userAgent), Repeated(Header, v.headers), [Flag(ConnectTimeout, NumString(v.timeout))];
    var d, e, f := AriaCredentialFlags(url.scheme, v.username, v.password, version), AriaProxyFlags(v),
                   AriaDirFlags(destination);
    AriaTokensSix(a, b, c, d, e, f);
    EnclosedSix(ariapath, AriaTokens(a + b + c + d + e + f), AriaTokens(a), AriaTokens(b), AriaTokens(c),
                AriaTokens(d), AriaTokens(e), AriaTokens(f), AsString(url));
  }

  lemma AriaTokensSix(a: seq<Flag<AriaOpt>>, b: seq<Flag<AriaOpt>>, c: seq<Flag<AriaOpt>>, d: seq<Flag<AriaOpt>>,
                      e: seq<Flag<AriaOpt>>, f: seq<Flag<AriaOpt>>)
    ensures AriaTokens(a + b + c + d + e + f) ==
              AriaTokens(a) + AriaTokens(b) + AriaTokens(c) + AriaTokens(d) + AriaTokens(e) + AriaTokens(f)
  {
    AriaTokensConcat(a + b + c + d + e, f);
    AriaTokensConcat(a + b + c + d, e);
    AriaTokensConcat(a + b + c, d);
    AriaTokensConcat(a + b, c);
    AriaTokensConcat(a, b);
  }

  /** The user and password part of fillAriaCmdLine. */
  method AppendCredentials(args: ArgList, scheme: string, username: string, password: string, version: string)
    modifies args
    ensures args.items == old(args.items) + AriaTokens(AriaCredentialFlags(scheme, username, password, version))
  {
    ghost var start := args.items;
    ghost var done: seq<Flag<AriaOpt>> := [];
    if username == "" {
      if scheme == "ftp" {
        // set anonymous ftp
        done := PushOption(args, FtpUser, "suseuser", start, done);
        done := PushOption(args, FtpPasswd, version, start, done);
      }
    } else {
      if scheme == "ftp" {
        done := PushOption(args, FtpUser, username, start, done);
      } else if scheme == "http" || scheme == "https" {
        done := PushOption(args, HttpUser, username, start, done);
      }

      if |password| > 0 {
        if scheme == "ftp" {
          done := PushOption(args, FtpPasswd, password, start, done);
        } else if scheme == "http" || scheme == "https" {
          done := PushOption(args, HttpPasswd, password, start, done);
        }
      }
    }
    assert done == AriaCredentialFlags(scheme, username, password, version);
  }

  /** The proxy part of fillAriaCmdLine. */
  method AppendProxy(args: ArgList, s: TransferSettings)
    modifies args
    ensures args.items == old(args.items) + AriaTokens(AriaProxyFlags(s.Value()))
  {
    ghost var start := args.items;
    ghost var done: seq<Flag<AriaOpt>> := [];
    if s.proxyEnabled {
      done := PushOption(args, HttpProxy, s.proxy, start, done);
      if s.proxyUsername != "" {
        done := PushOption(args, HttpProxyUser, s.proxyUsername, start, done);
        if s.proxyPassword != "" {
          done := PushOption(args, HttpProxyPasswd, s.proxyPassword, start, done);
        }
      }
    }
    assert done == AriaProxyFlags(s.Value());
  }

  /** One --header= per header, in order. */
  method AppendHeaders(args: ArgList, headers: seq<string>)
    modifies args
    ensures args.items == old(args.items) + AriaTokens(Repeated(Header, headers))
  {
    ghost var start := args.items;
    ghost var done: seq<Flag<AriaOpt>> := [];
    var i := 0;
    while i < |headers|
      invariant 0 <= i <= |headers|
      invariant done == Repeated(Header, headers[..i])
      invariant args.items == start + AriaTokens(done)
    {
      done := PushOption(args, Header, headers[i], start, done);
      assert Repeated(Header, headers[..i + 1]) == Repeated(Header, headers[..i]) + [Flag(Header, headers[i])];
      i := i + 1;
    }
    assert headers[..i] == headers;
  }

  /** The four options every download starts with. */
  method AppendFixed(args: ArgList, agent: string)
    modifies args
    ensures args.items == old(args.items) + AriaTokens(AriaFixedFlags(agent))
  {
    ghost var start := args.items;
    ghost var done := PushOption(args, UserAgent, agent, start, []);
    done := PushOption(args, SummaryInterval, "1", start, done);
    done := PushOption(args, FollowMetalink, "mem", start, done);
    done := PushOption(args, CheckIntegrity, "true", start, done);
    assert done == AriaFixedFlags(agent);
  }

  /** The download directory, when one is given. */
  method AppendDir(args: ArgList, destination: string)
    modifies args
    ensures args.items == old(args.items) + AriaTokens(AriaDirFlags(destination))
  {
    ghost var start := args.items;
    ghost var done: seq<Flag<AriaOpt>> := [];
    if destination != "" {
      done := PushOption(args, Dir, destination, start, done);
    }
    assert done == AriaDirFlags(destination);
  }

  /** fillAriaCmdLine: appends the aria2c command line to args, leaving what was there. */
  method FillAriaCmdLine(ariapath: string, s: TransferSettings, url: Url, destination: string,
                         version: string, args: ArgList)
    modifies args
    ensures args.items == old(args.items) + AriaArgs(ariapath, s.Value(), url, destination, version)
  {
    ghost var v := s.Value();
    ghost var m0 := args.items;
    args.PushBack(ariapath);
    ghost var m1 := args.items;
    AppendFixed(args, s.userAgent);
    ghost var m2 := args.items;
    // add the anonymous id.
    AppendHeaders(args, s.headers);
    ghost var m3 := args.items;
    ghost var done := PushOption(args, ConnectTimeout, NumString(s.timeout), m3, []);
    ghost var m4 := args.items;
    AppendCredentials(args, url.scheme, s.username, s.password, version);
    ghost var m5 := args.items;
    AppendProxy(args, s);
    ghost var m6 := args.items;
    AppendDir(args, destination);
    ghost var m7 := args.items;
    args.PushBack(AsString(url));
    AriaArgsGroups(ariapath, v, url, destination, version);
    AppendEight(m0, m1, m2, m3, m4, m5, m6, m7, args.items,
                [ariapath], AriaTokens(AriaFixedFlags(v.userAgent)),
                AriaTokens(Repeated(Header, v.headers)), AriaTokens([Flag(ConnectTimeout, NumString(v.timeout))]),
                AriaTokens(AriaCredentialFlags(url.scheme, v.username, v.password, version)),
                AriaTokens(AriaProxyFlags(v)), AriaTokens(AriaDirFlags(destination)), [AsString(url)]);
  }

  /**
   * The command line starts with the binary and the four fixed options, has
   * one --header= per header in header order, then --connect-timeout= with
   * the transfer timeout (not the connect timeout), and ends with the URL.
   */
  lemma AriaLayout(ariapath: string, v: Settings, url: Url, destination: string, version: string)
    ensures var a := AriaArgs(ariapath, v, url, destination, version);
      && |a| >= 7 + |v.headers|
      && a[0] == ariapath
      && a[1] == "--user-agent=" + v.userAgent
      && a[2] == "--summary-interval=1"
      && a[3] == "--follow-metalink=mem"
      && a[4] == "--check-integrity=true"
      && (forall i :: 0 <= i < |v.headers| ==> a[5 + i] == "--header=" + v.headers[i])
      && a[5 + |v.headers|] == "--connect-timeout=" + NumString(v.timeout)
      && a[|a| - 1] == AsString(url)
  {
    AriaFlagsLayout(v, url.scheme, destination, version);
    EnclosedTokensLayout(ariapath, AriaFlags(v, url.scheme, destination, version), v.userAgent, v.headers,
                         NumString(v.timeout), AsString(url));
  }

  /** The binary and the URL around the arguments of flags that start like those of AriaFlags. */
  lemma EnclosedTokensLayout(ariapath: string, f: seq<Flag<AriaOpt>>, agent: string, headers: seq<string>,
                             timeout: string, u: string)
    requires |f| >= 5 + |headers|
    requires f[..4] == AriaFixedFlags(agent)
    requires forall i :: 0 <= i < |headers| ==> f[4 + i] == Flag(Header, headers[i])
    requires f[4 + |headers|] == Flag(ConnectTimeout, timeout)
    ensures var a := [ariapath] + AriaTokens(f) + [u];
      && |a| >= 7 + |headers|
      && a[0] == ariapath
      && a[1] == "--user-agent=" + agent
      && a[2] == "--summary-interval=1"
      && a[3] == "--follow-metalink=mem"
      && a[4] == "--check-integrity=true"
      && (forall i :: 0 <= i < |headers| ==> a[5 + i] == "--header=" + headers[i])
      && a[5 + |headers|] == "--connect-timeout=" + timeout
      && a[|a| - 1] == u
  {
    AriaTokensLayout(f, agent, headers, timeout);
    Enclosed(ariapath, AriaTokens(f), u);
  }

  /** An element before and one after a sequence shift its elements by one. */
  lemma Enclosed<T>(x: T, t: seq<T>, y: T)
    ensures var a := [x] + t + [y];
      && |a| == |t| + 2 && a[0] == x && a[|a| - 1] == y
      && forall i :: 0 <= i < |t| ==> a[1 + i] == t[i]
  {
  }

  /** The arguments of flags that start like those of AriaFlags. */
  lemma AriaTokensLayout(f: seq<Flag<AriaOpt>>, agent: string, headers: seq<string>, timeout: string)
    requires |f| >= 5 + |headers|
    requires f[..4] == AriaFixedFlags(agent)
    requires forall i :: 0 <= i < |headers| ==> f[4 + i] == Flag(Header, headers[i])
    requires f[4 + |headers|] == Flag(ConnectTimeout, timeout)
    ensures var t := AriaTokens(f);
      && |t| >= 5 + |headers|
      && t[0] == "--user-agent=" + agent
      && t[1] == "--summary-interval=1"
      && t[2] == "--follow-metalink=mem"
      && t[3] == "--check-integrity=true"
      && (forall i :: 0 <= i < |headers| ==> t[4 + i] == "--header=" + headers[i])
      && t[4 + |headers|] == "--connect-timeout=" + timeout
  {
    AriaTokensHead(f, agent);
    AriaTokensHeaders(f, headers, timeout);
  }

  lemma AriaTokensHead(f: seq<Flag<AriaOpt>>, agent: string)
    requires |f| >= 4 && f[..4] == AriaFixedFlags(agent)
    ensures var t := AriaTokens(f);
      && t[0] == "--user-agent=" + agent
      && t[1] == "--summary-interval=1"
      && t[2] == "--follow-metalink=mem"
      && t[3] == "--check-integrity=true"
  {
    AriaTokensPrefix(f, 4);
    AriaFixedTokens(agent);
    FirstFour(AriaTokens(f), "--user-agent=" + agent, "--summary-interval=1", "--follow-metalink=mem",
              "--check-integrity=true");
  }

  lemma FirstFour<T>(t: seq<T>, w: T, x: T, y: T, z: T)
    requires |t| >= 4 && t[..4] == [w, x, y, z]
    ensures t[0] == w && t[1] == x && t[2] == y && t[3] == z
  {
    assert t[0] == t[..4][0] && t[1] == t[..4][1] && t[2] == t[..4][2] && t[3] == t[..4][3];
  }

  lemma AriaTokensHeaders(f: seq<Flag<AriaOpt>>, headers: seq<string>, timeout: string)
    requires |f| >= 5 + |headers|
    requires forall i :: 0 <= i < |headers| ==> f[4 + i] == Flag(Header, headers[i])
    requires f[4 + |headers|] == Flag(ConnectTimeout, timeout)
    ensures var t := AriaTokens(f);
      && (forall i :: 0 <= i < |headers| ==> t[4 + i] == "--header=" + headers[i])
      && t[4 + |headers|] == "--connect-timeout=" + timeout
  {
  }

  lemma AriaTokensPrefix(f: seq<Flag<AriaOpt>>, n: nat)
    requires n <= |f|
    ensures AriaTokens(f)[..n] == AriaTokens(f[..n])
  {
  }

  /** The four fixed options as written. */
  lemma AriaFixedTokens(agent: string)
    ensures AriaTokens(AriaFixedFlags(agent)) ==
              ["--user-agent=" + agent, "--summary-interval=1", "--follow-metalink=mem", "--check-integrity=true"]
  {
    assert "--summary-interval=" + "1" == "--summary-interval=1";
    assert "--follow-metalink=" + "mem" == "--follow-metalink=mem";
    assert "--check-integrity=" + "true" == "--check-integrity=true";
  }

  /** The flags start with the four fixed options, then the headers, then the timeout. */
  lemma AriaFlagsLayout(v: Settings, scheme: string, destination: string, version: string)
    ensures var f := AriaFlags(v, scheme, destination, version);
      && |f| >= 5 + |v.headers|
      && f[..4] == AriaFixedFlags(v.userAgent)
      && (forall i :: 0 <= i < |v.headers| ==> f[4 + i] == Flag(Header, v.headers[i]))
      && f[4 + |v.headers|] == Flag(ConnectTimeout, NumString(v.timeout))
  {
    GroupsLayout(AriaFixedFlags(v.userAgent), Repeated(Header, v.headers), [Flag(ConnectTimeout, NumString(v.timeout))],
                 AriaCredentialFlags(scheme, v.username, v.password, version), AriaProxyFlags(v),
                 AriaDirFlags(destination));
  }


  /** The options of the four fixed arguments, of the credential block and of the proxy block. */
  predicate IsFixedOpt(o: AriaOpt)
  {
    o == UserAgent || o == SummaryInterval || o == FollowMetalink || o == CheckIntegrity
  }

  predicate IsCredentialOpt(o: AriaOpt)
  {
    o == FtpUser || o == FtpPasswd || o == HttpUser || o == HttpPasswd
  }

  predicate IsProxyOpt(o: AriaOpt)
  {
    o == HttpProxy || o == HttpProxyUser || o == HttpProxyPasswd
  }

  /** What the command line says for each option, as the sum of what its groups say. */
  lemma AriaNamed(v: Settings, scheme: string, destination: string, version: string, o: AriaOpt)
    ensures Named(AriaFlags(v, scheme, destination, version), o) ==
      Named(AriaFixedFlags(v.userAgent), o)
      + (if o == Header then v.headers else [])
      + (if o == ConnectTimeout then [NumString(v.timeout)] else [])
      + Named(AriaCredentialFlags(scheme, v.username, v.password, version), o)
      + Named(AriaProxyFlags(v), o)
      + Named(AriaDirFlags(destination), o)
  {
    NamedSix(AriaFixedFlags(v.userAgent), Repeated(Header, v.headers), [Flag(ConnectTimeout, NumString(v.timeout))],
             AriaCredentialFlags(scheme, v.username, v.password, version), AriaProxyFlags(v),
             AriaDirFlags(destination), o);
    NamedRepeated(Header, v.headers, o);
    NamedSingle(Flag(ConnectTimeout, NumString(v.timeout)), o);
  }

  /** The four fixed arguments, option by option. */
  lemma AriaFixedNamed(agent: string, o: AriaOpt)
    ensures Named(AriaFixedFlags(agent), o) ==
      if o == UserAgent then [agent]
      else if o == SummaryInterval then ["1"]
      else if o == FollowMetalink then ["mem"]
      else if o == CheckIntegrity then ["true"]
      else []
  {
    var a, b, c, d := Flag(UserAgent, agent), Flag(SummaryInterval, "1"), Flag(FollowMetalink, "mem"),
                      Flag(CheckIntegrity, "true");
    NamedFour(a, b, c, d, o);
    NamedSingle(a, o);
    NamedSingle(b, o);
    NamedSingle(c, o);
    NamedSingle(d, o);
  }

  /** What the credential group says for each option. */
  lemma AriaCredentialNamed(scheme: string, username: string, password: string, version: string, o: AriaOpt)
    ensures Named(AriaCredentialFlags(scheme, username, password, version), o) ==
      if username == "" then
        (if scheme == "ftp" && o == FtpUser then ["suseuser"]
         else if scheme == "ftp" && o == FtpPasswd then [version]
         else [])
      else
        (if o == FtpUser && scheme == "ftp" then [username]
         else if o == HttpUser && IsWebScheme(scheme) then [username]
         else if o == FtpPasswd && scheme == "ftp" && password != "" then [password]
         else if o == HttpPasswd && IsWebScheme(scheme) && password != "" then [password]
         else [])
  {
    if username == "" {
      if scheme == "ftp" {
        NamedTwo(Flag(FtpUser, "suseuser"), Flag(FtpPasswd, version), o);
        NamedSingle(Flag(FtpUser, "suseuser"), o);
        NamedSingle(Flag(FtpPasswd, version), o);
      }
    } else {
      NamedConcat(AriaUserFlags(scheme, username), AriaPasswordFlags(scheme, password), o);
      AriaUserNamed(scheme, username, o);
      AriaPasswordNamed(scheme, password, o);
    }
  }

  lemma AriaUserNamed(scheme: string, username: string, o: AriaOpt)
    ensures Named(AriaUserFlags(scheme, username), o) ==
      if o == FtpUser && scheme == "ftp" then [username]
      else if o == HttpUser && IsWebScheme(scheme) then [username]
      else []
  {
    NamedSingle(Flag(FtpUser, username), o);
    NamedSingle(Flag(HttpUser, username), o);
  }

  lemma AriaPasswordNamed(scheme: string, password: string, o: AriaOpt)
    ensures Named(AriaPasswordFlags(scheme, password), o) ==
      if o == FtpPasswd && scheme == "ftp" && password != "" then [password]
      else if o == HttpPasswd && IsWebScheme(scheme) && password != "" then [password]
      else []
  {
    NamedSingle(Flag(FtpPasswd, password), o);
    NamedSingle(Flag(HttpPasswd, password), o);
  }

  /** What the proxy group says for each option. */
  lemma AriaProxyNamed(v: Settings, o: AriaOpt)
    ensures Named(AriaProxyFlags(v), o) ==
      if !v.proxyEnabled then []
      else if o == HttpProxy then [v.proxy]
      else if o == HttpProxyUser && v.proxyUsername != "" then [v.proxyUsername]
      else if o == HttpProxyPasswd && v.proxyUsername != "" && v.proxyPassword != "" then [v.proxyPassword]
      else []
  {
    if v.proxyEnabled {
      var a := Flag(HttpProxy, v.proxy);
      NamedSingle(a, o);
      if v.proxyUsername == "" {
        assert AriaProxyFlags(v) == [a];
      } else {
        var b := Flag(HttpProxyUser, v.proxyUsername);
        NamedSingle(b, o);
        if v.proxyPassword == "" {
          assert AriaProxyFlags(v) == [a] + [b];
          NamedConcat([a], [b], o);
        } else {
          var c := Flag(HttpProxyPasswd, v.proxyPassword);
          NamedSingle(c, o);
          assert AriaProxyFlags(v) == [a] + ([b] + [c]);
          NamedConcat([b], [c], o);
          NamedConcat([a], [b] + [c], o);
        }
      }
    }
  }

  lemma AriaDirNamed(destination: string, o: AriaOpt)
    ensures Named(AriaDirFlags(destination), o) == if o == Dir && destination != "" then [destination] else []
  {
    if destination != "" {
      NamedSingle(Flag(Dir, destination), o);
    }
  }

  /** The groups that do not hold an option say nothing for it. */
  lemma AriaFixedSilent(agent: string, o: AriaOpt)
    ensures !IsFixedOpt(o) ==> Named(AriaFixedFlags(agent), o) == []
  {
    AriaFixedNamed(agent, o);
  }

  lemma AriaCredentialSilent(scheme: string, username: string, password: string, version: string, o: AriaOpt)
    ensures !IsCredentialOpt(o) ==> Named(AriaCredentialFlags(scheme, username, password, version), o) == []
  {
    AriaCredentialNamed(scheme, username, password, version, o);
  }

  lemma AriaProxySilent(v: Settings, o: AriaOpt)
    ensures !IsProxyOpt(o) ==> Named(AriaProxyFlags(v), o) == []
  {
    AriaProxyNamed(v, o);
  }

  lemma AriaDirSilent(destination: string, o: AriaOpt)
    ensures o != Dir ==> Named(AriaDirFlags(destination), o) == []
  {
    AriaDirNamed(destination, o);
  }

  /** A fixed option is given by the fixed arguments alone. */
  lemma AriaOnlyFixed(v: Settings, scheme: string, destination: string, version: string, o: AriaOpt)
    requires IsFixedOpt(o)
    ensures Named(AriaFlags(v, scheme, destination, version), o) == Named(AriaFixedFlags(v.userAgent), o)
  {
    AriaNamed(v, scheme, destination, version, o);
    AriaCredentialSilent(scheme, v.username, v.password, version, o);
    AriaProxySilent(v, o);
    AriaDirSilent(destination, o);
  }

  /** A credential option is given by the credential block alone. */
  lemma AriaOnlyCredential(v: Settings, scheme: string, destination: string, version: string, o: AriaOpt)
    requires IsCredentialOpt(o)
    ensures Named(AriaFlags(v, scheme, destination, version), o) ==
              Named(AriaCredentialFlags(scheme, v.username, v.password, version), o)
  {
    AriaNamed(v, scheme, destination, version, o);
    AriaFixedSilent(v.userAgent, o);
    AriaProxySilent(v, o);
    AriaDirSilent(destination, o);
  }

  /** A proxy option is given by the proxy block alone. */
  lemma AriaOnlyProxy(v: Settings, scheme: string, destination: string, version: string, o: AriaOpt)
    requires IsProxyOpt(o)
    ensures Named(AriaFlags(v, scheme, destination, version), o) == Named(AriaProxyFlags(v), o)
  {
    AriaNamed(v, scheme, destination, version, o);
    AriaFixedSilent(v.userAgent, o);
    AriaCredentialSilent(scheme, v.username, v.password, version, o);
    AriaDirSilent(destination, o);
  }

  /** The headers, the timeout and the directory each come from their own argument. */
  lemma AriaOnlyHeader(v: Settings, scheme: string, destination: string, version: string)
    ensures Named(AriaFlags(v, scheme, destination, version), Header) == v.headers
  {
    AriaNamed(v, scheme, destination, version, Header);
    AriaFixedSilent(v.userAgent, Header);
    AriaCredentialSilent(scheme, v.username, v.password, version, Header);
    AriaProxySilent(v, Header);
    AriaDirSilent(destination, Header);
  }

  lemma AriaOnlyTimeout(v: Settings, scheme: string, destination: string, version: string)
    ensures Named(AriaFlags(v, scheme, destination, version), ConnectTimeout) == [NumString(v.timeout)]
  {
    AriaNamed(v, scheme, destination, version, ConnectTimeout);
    AriaFixedSilent(v.userAgent, ConnectTimeout);
    AriaCredentialSilent(scheme, v.username, v.password, version, ConnectTimeout);
    AriaProxySilent(v, ConnectTimeout);
    AriaDirSilent(destination, ConnectTimeout);
  }

  lemma AriaOnlyDir(v: Settings, scheme: string, destination: string, version: string)
    ensures Named(AriaFlags(v, scheme, destination, version), Dir) == if destination == "" then [] else [destination]
  {
    var front := AriaFixedFlags(v.userAgent) + Repeated(Header, v.headers) + [Flag(ConnectTimeout, NumString(v.timeout))]
                 + AriaCredentialFlags(scheme, v.username, v.password, version) + AriaProxyFlags(v);
    AriaFrontNoDir(v, scheme, version);
    NamedConcat(front, AriaDirFlags(destination), Dir);
    AriaDirNamed(destination, Dir);
  }

  /** Nothing before the directory group names a directory. */
  lemma AriaFrontNoDir(v: Settings, scheme: string, version: string)
    ensures Named(AriaFixedFlags(v.userAgent) + Repeated(Header, v.headers) + [Flag(ConnectTimeout, NumString(v.timeout))]
                  + AriaCredentialFlags(scheme, v.username, v.password, version) + AriaProxyFlags(v), Dir) == []
  {
    AriaFixedSilent(v.userAgent, Dir);
    NamedRepeated(Header, v.headers, Dir);
    NamedSingle(Flag(ConnectTimeout, NumString(v.timeout)), Dir);
    AriaCredentialSilent(scheme, v.username, v.password, version, Dir);
    AriaProxySilent(v, Dir);
    NamedNoneOfFive(AriaFixedFlags(v.userAgent), Repeated(Header, v.headers), [Flag(ConnectTimeout, NumString(v.timeout))],
                    AriaCredentialFlags(scheme, v.username, v.password, version), AriaProxyFlags(v), Dir);
  }

  /**
   * The options that do not depend on the scheme or the credentials: one
   * user agent, the headers in order, the transfer timeout as the connect
   * timeout (read back by strtol as the same number), and a directory
   * exactly when a destination is given.
   */
  lemma AriaPlainOptions(v: Settings, scheme: string, destination: string, version: string)
    ensures var f := AriaFlags(v, scheme, destination, version);
      && Named(f, UserAgent) == [v.userAgent]
      && Named(f, Header) == v.headers
      && Named(f, ConnectTimeout) == [NumString(v.timeout)]
      && ParseLong(Named(f, ConnectTimeout)[0]) == v.timeout
      && Named(f, Dir) == (if destination == "" then [] else [destination])
  {
    AriaOnlyFixed(v, scheme, destination, version, UserAgent);
    AriaFixedNamed(v.userAgent, UserAgent);
    AriaOnlyHeader(v, scheme, destination, version);
    AriaOnlyTimeout(v, scheme, destination, version);
    AriaOnlyDir(v, scheme, destination, version);
    NumStringRoundTrip(v.timeout);
  }

  /**
   * User and password options: anonymous ftp logs in as suseuser with the
   * library version as password; a named user gets ftp or http options only
   * for those schemes; a password option needs a non-empty password.
   */
  lemma AriaCredentials(v: Settings, scheme: string, destination: string, version: string)
    ensures var f := AriaFlags(v, scheme, destination, version);
      && (v.username == "" && scheme == "ftp" ==>
            Named(f, FtpUser) == ["suseuser"] && Named(f, FtpPasswd) == [version])
      && (v.username == "" && scheme != "ftp" ==>
            Named(f, FtpUser) == [] && Named(f, FtpPasswd) == [] && Named(f, HttpUser) == [] && Named(f, HttpPasswd) == [])
      && (v.username == "" ==> Named(f, HttpUser) == [] && Named(f, HttpPasswd) == [])
      && (v.username != "" ==>
            && Named(f, FtpUser) == (if scheme == "ftp" then [v.username] else [])
            && Named(f, HttpUser) == (if IsWebScheme(scheme) then [v.username] else [])
            && Named(f, FtpPasswd) == (if scheme == "ftp" && v.password != "" then [v.password] else [])
            && Named(f, HttpPasswd) == (if IsWebScheme(scheme) && v.password != "" then [v.password] else []))
  {
    AriaOnlyCredential(v, scheme, destination, version, FtpUser);
    AriaOnlyCredential(v, scheme, destination, version, FtpPasswd);
    AriaOnlyCredential(v, scheme, destination, version, HttpUser);
    AriaOnlyCredential(v, scheme, destination, version, HttpPasswd);
    AriaCredentialNamed(scheme, v.username, v.password, version, FtpUser);
    AriaCredentialNamed(scheme, v.username, v.password, version, FtpPasswd);
    AriaCredentialNamed(scheme, v.username, v.password, version, HttpUser);
    AriaCredentialNamed(scheme, v.username, v.password, version, HttpPasswd);
  }

  /**
   * Proxy options: the address only with the proxy enabled, the proxy user
   * only with the proxy enabled, and the proxy password only with a proxy user.
   */
  lemma AriaProxy(v: Settings, scheme: string, destination: string, version: string)
    ensures var f := AriaFlags(v, scheme, destination, version);
      && Named(f, HttpProxy) == (if v.proxyEnabled then [v.proxy] else [])
      && Named(f, HttpProxyUser) == (if v.proxyEnabled && v.proxyUsername != "" then [v.proxyUsername] else [])
      && Named(f, HttpProxyPasswd) ==
           (if v.proxyEnabled && v.proxyUsername != "" && v.proxyPassword != "" then [v.proxyPassword] else [])
  {
    AriaOnlyProxy(v, scheme, destination, version, HttpProxy);
    AriaOnlyProxy(v, scheme, destination, version, HttpProxyUser);
    AriaOnlyProxy(v, scheme, destination, version, HttpProxyPasswd);
    AriaProxyNamed(v, HttpProxy);
    AriaProxyNamed(v, HttpProxyUser);
    AriaProxyNamed(v, HttpProxyPasswd);
  }
}
