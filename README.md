# aria2c download back-end of libzypp, modelled in Dafny

libzypp's `MediaAria2c` media handler fetches repository files by running
`aria2c`. It checks whether a remote file exists by running `curl -I`. This
project models the deterministic core of that handler
(`zypp/media/MediaAria2c.cc`) and proves properties of the model:

- **Transfer-settings assembly.** `fillSettingsFromUrl` takes a timeout,
  credentials and a proxy from the URL and its query. `fillSettingsSystemProxy`
  applies the system proxy configuration and scans the NO_PROXY list.
  `attachTo` composes defaults, URL overrides and the system proxy. The
  `TransferSettings` object is a class whose setters update fields in place
  (`Transfer.TransferSettings`). The operations are methods proved equal to
  pure functions of the old settings, and the properties are stated on those
  functions.
- **Command-line builders.** `fillAriaCmdLine` and `fillCurlCmdLine` append to
  an argument list owned by the caller (`Transfer.ArgList`). Each builder is
  a method whose new list equals the old list followed by a pure argument
  vector. Lemmas state the layout of that vector and, option by option, which
  options appear and with which values.
- **URL path joining.** `getFileUrl` is a pure function. It joins the base
  path and the file name, with cases for a trailing '/', absolute names and
  relative names.
- **Response loops.** `getFileCopy` scans aria2c's output lines for a login
  failure, a missing file, and progress lines, reporting every other
  progress line. `doGetDoesFileExist` classifies curl's output lines and
  then curl's exit code. The process output is an input: a sequence of lines
  (the lines `receiveLine` returns) and, for curl, the exit code.

The C++ semantics the code relies on are written out in `CxxStrings`:

- `size_t` arithmetic wrapping modulo 2^64, including `npos + 1 == 0`;
- `substr` clamping its count;
- `find`;
- `atoi`/`strtol` as decimal parsing with leading white space and a sign;
- and `str::contains`.

## Model

| member | source | states |
|---|---|---|
| Aria2cSettings.UrlProxy | zypp/media/MediaAria2c.cc:93-104 | the proxy address begins with the `proxy` parameter and is exactly that parameter iff `proxyport` is empty; a non-empty `proxy` gives a non-empty address |
| Aria2cSettings.SettingsFromUrl | zypp/media/MediaAria2c.cc:75-105 | the timeout changes only to a `timeout` value that parses to 0..3600, and always does for such a value; user and password come from the URL only when it names a user, and the password only when it is non-empty; a non-empty `proxy` sets the address and enables the proxy, an empty one leaves both untouched; no other setting changes |
| Aria2cSettings.FillSettingsFromUrl | zypp/media/MediaAria2c.cc:75-105 | the object's new value is SettingsFromUrl of its old value |
| Aria2cSettings.NoProxyMatch | zypp/media/MediaAria2c.cc:119-144 | an entry longer than one character that starts with '.' matches iff the lower-cased host is strictly longer and ends with the lower-cased entry; any other entry matches iff it equals the host ignoring case |
| Aria2cSettings.NoProxyDomainHosts | zypp/media/MediaAria2c.cc:119-134 | a '.domain' entry matches every host made of a non-empty name followed by the entry |
| Aria2cSettings.NoProxyDomainSplit | zypp/media/MediaAria2c.cc:119-134 | a host a '.domain' entry matches is, lower-cased, a non-empty name followed by the lower-cased entry |
| Aria2cSettings.NoProxyCaseInsensitive | zypp/media/MediaAria2c.cc:119-120 | lower-casing the host or the entry beforehand never changes whether they match |
| Aria2cSettings.SystemProxySettings | zypp/media/MediaAria2c.cc:107-151 | a disabled system proxy changes nothing; an enabled one leaves the proxy enabled exactly when no NO_PROXY entry matches the host; the address becomes the per-scheme proxy only while the proxy stays enabled and is otherwise kept; nothing else changes |
| Aria2cSettings.FillSettingsSystemProxy | zypp/media/MediaAria2c.cc:107-151 | the scan that stops at the first matching entry leaves the object holding SystemProxySettings of its old value |
| Aria2cSettings.AttachedSettings | zypp/media/MediaAria2c.cc:403-418 | user agent set, the two identification headers appended, connect timeout 60; the timeout is the URL's when accepted and 180 otherwise, so it always lies in 0..3600; a URL naming a user sets the user and, when its password is non-empty, the password, otherwise both stay; the proxy user and password are never touched; a URL proxy wins without consulting the system configuration, a proxy already set is kept, otherwise the system configuration and NO_PROXY decide |
| Aria2cSettings.AttachSettings | zypp/media/MediaAria2c.cc:403-418 | the object's new value is AttachedSettings of its old value |
| Aria2cCommandLine.FillAriaCmdLine | zypp/media/MediaAria2c.cc:158-224 | only appends: the new list is the old list followed by AriaArgs, the binary, the options and the URL |
| Aria2cCommandLine.AppendHeaders | zypp/media/MediaAria2c.cc:171-174 | appends one `--header=` per header, in header order |
| Aria2cCommandLine.AppendCredentials | zypp/media/MediaAria2c.cc:178-207 | appends exactly the credential options for the scheme, user and password |
| Aria2cCommandLine.AppendProxy | zypp/media/MediaAria2c.cc:209-218 | appends exactly the proxy options for the settings |
| Aria2cCommandLine.AriaLayout | zypp/media/MediaAria2c.cc:164-223 | the binary first, then `--user-agent=`, `--summary-interval=1`, `--follow-metalink=mem`, `--check-integrity=true`, then one `--header=` per header in order, then `--connect-timeout=` carrying the transfer timeout; the URL string is last |
| Aria2cCommandLine.AriaPlainOptions | zypp/media/MediaAria2c.cc:164-221 | exactly one user agent, the headers in order, one connect-timeout option whose text reads back as the transfer timeout, and a `--dir=` option iff the destination is non-empty |
| Aria2cCommandLine.AriaCredentialNamed | zypp/media/MediaAria2c.cc:178-207 | for each option, the values the credential block writes as a function of scheme, user and password |
| Aria2cCommandLine.AriaCredentials | zypp/media/MediaAria2c.cc:178-207 | anonymous ftp gets `--ftp-user=suseuser` and `--ftp-passwd=` with the version; without a user no other scheme gets a credential option; a named user gets ftp options for ftp, http options for http and https and none otherwise; a password option appears only with a non-empty password |
| Aria2cCommandLine.AriaProxyNamed | zypp/media/MediaAria2c.cc:209-218 | for each option, the values the proxy block writes |
| Aria2cCommandLine.AriaProxy | zypp/media/MediaAria2c.cc:209-218 | `--http-proxy=` appears iff the proxy is enabled; `--http-proxy-user=` iff also a proxy user is set; `--http-proxy-passwd=` only together with the proxy user and a non-empty proxy password |
| CurlCommandLine.FillCurlCmdLine | zypp/media/MediaAria2c.cc:231-291 | only appends: the new list is the old list followed by CurlArgs |
| CurlCommandLine.AppendCurlHeaders | zypp/media/MediaAria2c.cc:242-248 | appends "-H" and the header, per header in order |
| CurlCommandLine.AppendCurlCredentials | zypp/media/MediaAria2c.cc:253-272 | appends exactly the `--user` pair for the scheme, user and password |
| CurlCommandLine.AppendCurlProxy | zypp/media/MediaAria2c.cc:274-287 | appends exactly the `--proxy` and `--proxy-user` pairs for the settings |
| CurlCommandLine.UserPass | zypp/media/MediaAria2c.cc:266-271 | the value is the name alone for an empty password, and otherwise the name, ':' and the password |
| CurlCommandLine.UserPassRoundTrip | zypp/media/MediaAria2c.cc:266-271 | splitting the value at its first ':' gives back a name without ':' and its password |
| CurlCommandLine.CurlLayout | zypp/media/MediaAria2c.cc:236-290 | the binary and "-I" first, then an even number of arguments in option/value pairs, each pair starting with a curl option: "-A" with the agent, "-H" per header in order, "--connect-timeout" with the transfer timeout, and "--url" with the URL last |
| CurlCommandLine.CurlCredentialNamed | zypp/media/MediaAria2c.cc:253-272 | for each option, the values the user block writes |
| CurlCommandLine.CurlProxyNamed | zypp/media/MediaAria2c.cc:274-287 | for each option, the values the proxy block writes |
| CurlCommandLine.CurlCredentials | zypp/media/MediaAria2c.cc:253-287 | a named user is passed for every scheme as `name` or `name:password`; anonymous ftp passes "yast2:" and the version; no user on another scheme passes none; a proxy user is passed the same way, only with the proxy enabled |
| Aria2cFileUrl.WithSlash | zypp/media/MediaAria2c.cc:456-457 | the path ends in '/': "/" for an empty path, the path itself when it already ends in '/', otherwise the path with '/' added |
| Aria2cFileUrl.GetFileUrl | zypp/media/MediaAria2c.cc:442-468 | only the path changes; the result is missing exactly for a one-character relative name, where substr(2) throws; the (relative name's tail or) name always ends the new path |
| Aria2cFileUrl.JoinAbsoluteOneSlash | zypp/media/MediaAria2c.cc:446-451 | a base with a trailing '/' and an absolute name meet at exactly one '/' |
| Aria2cFileUrl.JoinRelative | zypp/media/MediaAria2c.cc:453-460 | a relative name loses its first two characters and follows the base after one separating '/' |
| Aria2cFileUrl.JoinOther | zypp/media/MediaAria2c.cc:461-464 | every other case is plain concatenation |
| Aria2cFileUrl.RootAndAbsoluteName | zypp/media/MediaAria2c.cc:446-464 | base "/" and name "/f" give "//f" |
| Aria2cDownload.TagTests | zypp/media/MediaAria2c.cc:505-516 | the three literals are 31, 29 and 9 characters long, so each substr/compare test is a prefix test |
| Aria2cDownload.DownloadStop | zypp/media/MediaAria2c.cc:499-514 | the loop ends at the first empty line or exception line, or after the last line |
| Aria2cDownload.DownloadOutcomeOf | zypp/media/MediaAria2c.cc:499-514 | the download fails with a login failure iff the stopping line starts with "Exception: Authorization failed", with a missing file iff it starts with "Exception: Resource not found" and not the former, and succeeds otherwise |
| Aria2cDownload.ScanDownload | zypp/media/MediaAria2c.cc:496-531 | the loop's outcome is DownloadOutcomeOf and its reports are ReportedProgress of the output |
| Aria2cDownload.CountProgress | zypp/media/MediaAria2c.cc:516-531 | a progress line reports its percentage iff an even number of progress lines came before it, toggling nLine; other lines change nothing |
| Aria2cDownload.AlternateAt | zypp/media/MediaAria2c.cc:518-530 | the k-th kept element is the element at position 2k |
| Aria2cDownload.ReportedEveryOther | zypp/media/MediaAria2c.cc:516-531 | with n progress lines before the loop ends there are (n+1)/2 reports, and the k-th is the percentage of progress line 2k |
| Aria2cDownload.PercentBetweenMarks | zypp/media/MediaAria2c.cc:520-524 | with '(' first at k and the first '%' after it at m, the report is the number written between them |
| Aria2cDownload.PercentWithoutParen | zypp/media/MediaAria2c.cc:520-524 | without '(' the left bound wraps to 0, atoi reads the leading '[' and the report is 0 |
| Aria2cDownload.DownloadIgnoresLaterLines | zypp/media/MediaAria2c.cc:499-514 | output after the stopping line changes neither the outcome nor the reports |
| CurlExists.CheckStop | zypp/media/MediaAria2c.cc:615-631 | the loop ends at the first empty line or deciding line, or after the last line |
| CurlExists.DoesFileExist | zypp/media/MediaAria2c.cc:615-676 | the loop and the exit-code switch reach ExistenceOf of the output and the exit code |
| CurlExists.VerdictPriority | zypp/media/MediaAria2c.cc:620-631 | within a line, "401 Authorization Required" wins over "404 Not Found", which wins over "200 OK" |
| CurlExists.EmptyLineDecidesNothing | zypp/media/MediaAria2c.cc:615-617 | the empty read decides nothing |
| CurlExists.UnauthorizedIff | zypp/media/MediaAria2c.cc:620-625 | a login failure results iff the stopping line holds the 401 text, whatever the exit code |
| CurlExists.NotFoundIff | zypp/media/MediaAria2c.cc:627-628 | the file is reported missing iff the stopping line holds "404 Not Found" and not the 401 text |
| CurlExists.FoundIff | zypp/media/MediaAria2c.cc:615-676 | the file is reported present iff the stopping line holds only "200 OK" of the three texts, or no line decides and curl exits with 0 |
| CurlExists.ExitCodeDecides | zypp/media/MediaAria2c.cc:634-646 | when no line decides, exit code 0 means the file exists and every other code gives the same transfer error, so two codes give the same outcome iff both or neither are 0 |
| CurlExists.ExistsIgnoresLaterOutput | zypp/media/MediaAria2c.cc:615-631 | once a line decides, neither later output nor the exit code matters |
| CurlExists.EmptyReadEndsCheck | zypp/media/MediaAria2c.cc:615-646 | after an empty read, later output is never read and only the exit code counts |
| CxxStrings.FindChar | zypp/media/MediaAria2c.cc:520-521 | `find` gives the first position at or after the start that holds the character, or npos when there is none |
| CxxStrings.SizeArithmetic | zypp/media/MediaAria2c.cc:520-521 | the size_t sum and difference are arithmetic modulo 2^64 |
| CxxStrings.ContainsAt | zypp/media/MediaAria2c.cc:620-630 | `str::contains` holds iff the text occurs at some position |
| CxxStrings.NumStringRoundTrip | zypp/media/MediaAria2c.cc:251 | a number printed in decimal reads back as itself |
| CxxStrings.ParseDigits | zypp/media/MediaAria2c.cc:524 | atoi of a string of digits is the number it spells |

## Left out

- Running aria2c and curl, reading their pipes, and closing them. This is process I/O. The output lines and curl's exit code are inputs. aria2c's exit code is never examined by the loop, so it does not appear.
- The retry loops around both response loops, and `getDoesFileExist`. `authenticate` always returns false, so a login failure is final. That case is modelled as a final outcome, and the retry branch is never taken.
- The `return true` after `case 0: break;`. It is unreachable, and the model goes straight to the final `return true`.
- Download progress reports (`report->start/progress/finish`). They are callback plumbing. Only the sequence of reported percentages is modelled; that `finish` is called twice on success is not.
- Creating the attach point and other filesystem checks (`mkdtemp`, `rmdir`, `PathInfo`), plus `getDir`, `getDirInfo` and `existsAria2cmd`/`whereisAria2c`/`getAria2cVersion`. These are filesystem and process I/O.
- The agent string and the two identification headers. They come from the installed target through global state and are parameters. The `VERSION` macro is a parameter too.
- `ProxyInfoSysconfig`, which reads /etc/sysconfig/proxy. It is a `ProxyInfo` value. The per-scheme proxy table is a map with an empty default.
- `Url`. It is a value with the components the back-end reads. The query is a map, so which of several equal parameters wins is not modelled.
- `Url::asString`. Its rendering is simplified: scheme, user, host and path, with no password, port or query.
- `Pathname`. Absolute means a leading '/' and relative means non-empty and not absolute. Its normalisation, which gives relative names their "./" prefix, is not part of this model.
- Strings as bytes. A `std::string` is a sequence of bytes and the model uses `seq<char>`. The arguments reach the program through `c_str()`, which would cut a string at an embedded NUL; the model keeps such strings whole.
- `str::strtonum<long>`, which is modelled as decimal `strtol`. Hexadecimal or octal forms, and overflow beyond `long`, are not modelled. The same holds for `atoi`.
- TransferSettings.cc and ExternalProgram.cc are not part of this model. The settings object has plain fields with setters, and its initial values are whatever the caller holds. The argument list only appends.
- The resolver queue and the other repository files: repository parsing, the SQLite cache, the query tool and data declarations. They are outside this back-end, and the queue's bodies are not available.
