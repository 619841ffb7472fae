/**
 * The parts of zypp's Url and Pathname that the download back-end reads.
 * Both classes live outside the back-end; only the accessors it calls are
 * modelled, and a URL is a plain value.
 */
module ZyppUrl {

  /** A URL split into the components the back-end asks for. */
  datatype Url = Url(
    scheme: string,
    username: string,
    password: string,
    host: string,
    path: string,
    query: map<string, string>)

  /** Url::getQueryParam: the value of a query parameter, empty when it is absent. */
  function QueryParam(url: Url, key: string): string
  {
    if key in url.query then url.query[key] else ""
  }

  /**
   * A simplified Url::asString: scheme, user name, host and path only; the
   * password is never rendered.
   */
  function AsString(url: Url): string
  {
    url.scheme + "://" + (if url.username == "" then "" else url.username + "@") + url.host + url.path
  }

  /** Pathname::absolute: the name starts with '/'. */
  predicate IsAbsolute(name: string)
  {
    |name| > 0 && name[0] == '/'
  }

  /** Pathname::relative: a non-empty name that is not absolute. */
  predicate IsRelative(name: string)
  {
    |name| > 0 && name[0] != '/'
  }
}
