/**
 * getFileUrl (zypp/media/MediaAria2c.cc): the URL of a file below the
 * medium's base URL. Only the path changes; how the base path and the file
 * name are joined depends on a trailing '/' on the base and on whether the
 * file name is absolute or relative. The file name is the string form of a
 * Pathname; a relative Pathname's string form starts with "./", which the
 * join drops.
 */
module Aria2cFileUrl {

  import opened Wrappers
  import opened CxxStrings
  import opened ZyppUrl

  /** The base path ends in '/' and is neither empty nor the root alone. */
  predicate HasTrailingSlash(path: string)
  {
    path != "" && path != "/" && path[|path| - 1] == '/'
  }

  /** A path with a '/' added unless it already ends in one; the empty path becomes "/". */
  function WithSlash(path: string): (r: string)
    ensures r != "" && r[|r| - 1] == '/'
    ensures path == "" ==> r == "/"
    ensures path != "" && path[|path| - 1] == '/' ==> r == path
    ensures path != "" && path[|path| - 1] != '/' ==> r == path + "/"
  {
    if path == "" then "/"
    else if path[|path| - 1] != '/' then path + "/"
    else path
  }

  /**
   * The joined path, or None where substr(2, ...) on a relative name of one
   * character throws std::out_of_range.
   */
  function JoinedPath(path: string, filename: string): Option<string>
  {
    if HasTrailingSlash(path) && IsAbsolute(filename) then
      Some(path + Substring(filename, 1, |filename| - 1))
    else if IsRelative(filename) then
      if |filename| < 2 then None
      else Some(WithSlash(path) + Substring(filename, 2, |filename| - 2))
    else
      Some(path + filename)
  }

  /** getFileUrl: a copy of the URL whose path is the joined path. */
  function GetFileUrl(url: Url, filename: string): (r: Option<Url>)
    // fails only for a one-character relative name
    ensures r.None? <==> IsRelative(filename) && |filename| < 2
    // nothing but the path changes
    ensures r.Some? ==> r.value == url.(path := r.value.path)
    // the file name always ends the path
    ensures r.Some? && IsRelative(filename) ==> IsSuffix(filename[2..], r.value.path)
    ensures r.Some? && !IsRelative(filename) ==> IsSuffix(filename, r.value.path)
  {
    match JoinedPath(url.path, filename)
    case None => None
    case Some(path) => Some(url.(path := path))
  }

  /**
   * A base path with a trailing slash and an absolute name meet at a single
   * '/': the base loses nothing but its last '/', which the name supplies.
   */
  lemma JoinAbsoluteOneSlash(url: Url, filename: string)
    requires HasTrailingSlash(url.path) && IsAbsolute(filename)
    ensures GetFileUrl(url, filename).Some?
    ensures GetFileUrl(url, filename).value.path == url.path[..|url.path| - 1] + filename
  {
    var path := url.path;
    assert path == path[..|path| - 1] + [filename[0]];
    assert filename == [filename[0]] + filename[1..];
  }

  /**
   * A relative name loses its first two characters (the "./" of a relative
   * Pathname) and follows the base after exactly one separating '/'.
   */
  lemma JoinRelative(url: Url, filename: string)
    requires IsRelative(filename) && |filename| >= 2
    ensures GetFileUrl(url, filename).Some?
    ensures var p := GetFileUrl(url, filename).value.path;
      && p == WithSlash(url.path) + filename[2..]
      && IsPrefix(url.path, p)
      && p[|WithSlash(url.path)| - 1] == '/'
  {
  }

  /**
   * Every other case is plain concatenation, including an absolute name
   * after the root path: "/" and "/f" give "//f".
   */
  lemma JoinOther(url: Url, filename: string)
    requires !(HasTrailingSlash(url.path) && IsAbsolute(filename)) && !IsRelative(filename)
    ensures GetFileUrl(url, filename) == Some(url.(path := url.path + filename))
  {
  }

  lemma RootAndAbsoluteName(url: Url)
    requires url.path == "/"
    ensures GetFileUrl(url, "/f") == Some(url.(path := "//f"))
  {
    assert "/" + "/f" == "//f";
  }
}
