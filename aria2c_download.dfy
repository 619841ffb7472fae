/**
 * The response loop of getFileCopy (zypp/media/MediaAria2c.cc): aria2c's
 * output, read line by line until an empty read, decides between a finished
 * download, a failed login and a missing file, and every other progress line
 * reports the percentage it shows.
 */
module Aria2cDownload {

  import opened CxxStrings

  /** The prefixes getFileCopy compares with substr(0, 31), substr(0, 29) and substr(0, 9). */
  const AUTH_FAILED: string := "Exception: Authorization failed"
  const NOT_FOUND: string := "Exception: Resource not found"
  const SIZE_TAG: string := "[#2 SIZE:"

  /** How a download ends: normally, or with the exception the matching line raises. */
  datatype DownloadOutcome = Downloaded | LoginFailed | FileNotFound

  /** substr(0, n).compare(lit) == 0 with n the length of lit: the line starts with lit. */
  lemma TagTests(line: string)
    ensures |AUTH_FAILED| == 31 && |NOT_FOUND| == 29 && |SIZE_TAG| == 9
    ensures Substring(line, 0, 31) == AUTH_FAILED <==> IsPrefix(AUTH_FAILED, line)
    ensures Substring(line, 0, 29) == NOT_FOUND <==> IsPrefix(NOT_FOUND, line)
    ensures Substring(line, 0, 9) == SIZE_TAG <==> IsPrefix(SIZE_TAG, line)
  {
    SubstringPrefix(line, AUTH_FAILED);
    SubstringPrefix(line, NOT_FOUND);
    SubstringPrefix(line, SIZE_TAG);
  }

  predicate IsSizeLine(line: string)
  {
    IsPrefix(SIZE_TAG, line)
  }

  /** A line that ends the loop: an empty read, or one of the two exceptions. */
  predicate StopsDownload(line: string)
  {
    line == "" || IsPrefix(AUTH_FAILED, line) || IsPrefix(NOT_FOUND, line)
  }

  /** The index of the line that ends the loop, or the number of lines when none does. */
  function DownloadStop(lines: seq<string>): (k: nat)
    ensures k <= |lines|
    ensures k < |lines| ==> StopsDownload(lines[k])
    ensures forall j :: 0 <= j < k ==> !StopsDownload(lines[j])
  {
    if lines == [] || StopsDownload(lines[0]) then 0 else 1 + DownloadStop(lines[1..])
  }

  /** The outcome getFileCopy reaches for this output. */
  function DownloadOutcomeOf(lines: seq<string>): (r: DownloadOutcome)
    ensures r == LoginFailed <==>
              DownloadStop(lines) < |lines| && IsPrefix(AUTH_FAILED, lines[DownloadStop(lines)])
    ensures r == FileNotFound <==>
              DownloadStop(lines) < |lines| && !IsPrefix(AUTH_FAILED, lines[DownloadStop(lines)])
              && IsPrefix(NOT_FOUND, lines[DownloadStop(lines)])
  {
    var k := DownloadStop(lines);
    if k == |lines| || lines[k] == "" then Downloaded
    else if IsPrefix(AUTH_FAILED, lines[k]) then LoginFailed
    else FileNotFound
  }

  /** All lines are std::strings, which are shorter than npos. */
  predicate Fits(lines: seq<string>)
  {
    forall i :: 0 <= i < |lines| ==> |lines[i]| < NPOS
  }

  /** The progress lines among lines, in order. */
  function SizeLines(lines: seq<string>): (r: seq<string>)
    ensures |r| <= |lines|
    ensures forall x :: x in r ==> x in lines && IsSizeLine(x)
    ensures Fits(lines) ==> Fits(r)
  {
    if lines == [] then []
    else
      var init := SizeLines(lines[..|lines| - 1]);
      var last := lines[|lines| - 1];
      init + (if IsSizeLine(last) then [last] else [])
  }

  /** The elements at even positions: the first, the third, and so on. */
  function Alternate<T>(s: seq<T>): (r: seq<T>)
    ensures |r| == (|s| + 1) / 2
  {
    if s == [] then []
    else if |s| % 2 == 1 then Alternate(s[..|s| - 1]) + [s[|s| - 1]]
    else Alternate(s[..|s| - 1])
  }

  lemma {:induction false} AlternateAt<T>(s: seq<T>, k: int)
    requires 0 <= k < |Alternate(s)|
    ensures Alternate(s)[k] == s[2 * k]
  {
    var init := s[..|s| - 1];
    if |s| % 2 == 1 && k == |Alternate(s)| - 1 {
      assert 2 * k == |s| - 1;
    } else {
      AlternateAt(init, k);
    }
  }

  lemma AlternateSnoc<T>(s: seq<T>, x: T)
    ensures Alternate(s + [x]) == if |s| % 2 == 0 then Alternate(s) + [x] else Alternate(s)
  {
    assert (s + [x])[..|s|] == s;
  }

  /**
   * The percentage a progress line shows:
   * atoi(line.substr(find('(') + 1, find('%', left) - left)) with size_t
   * arithmetic, so a missing '(' makes the left bound 0 and a missing '%'
   * makes the count reach past the end.
   */
  function PercentOf(line: string): int
    requires |line| < NPOS
  {
    ParseLong(PercentField(line))
  }

  /** The text atoi reads: line.substr(left, count) with the size_t bounds above. */
  function PercentField(line: string): string
    requires |line| < NPOS
  {
    var left := SizeAdd(FindChar(line, '(', 0), 1);
    var count := SizeSub(FindChar(line, '%', left), left);
    Substring(line, left, count)
  }

  /** The numbers getFileCopy reports for these progress lines. */
  function Percents(lines: seq<string>): (r: seq<int>)
    requires Fits(lines)
    ensures |r| == |lines|
    ensures forall i :: 0 <= i < |lines| ==> r[i] == PercentOf(lines[i])
  {
    seq(|lines|, i requires 0 <= i < |lines| => PercentOf(lines[i]))
  }

  /** What getFileCopy reports: every other progress line before the loop ends, starting with the first. */
  function ReportedProgress(lines: seq<string>): seq<int>
    requires Fits(lines)
  {
    Alternate(Percents(SizeLines(lines[..DownloadStop(lines)])))
  }

  /**
   * The response loop of getFileCopy over the lines aria2c writes (each
   * receiveLine result, the final empty read included or not). The exit code
   * of aria2c is never examined.
   */
  method ScanDownload(lines: seq<string>) returns (outcome: DownloadOutcome, reported: seq<int>)
    requires Fits(lines)
    ensures outcome == DownloadOutcomeOf(lines)
    ensures reported == ReportedProgress(lines)
  {
    var nLine := 0;
    reported := [];
    ghost var sizes: seq<string> := [];
    var i := 0;
    while i < |lines| && |lines[i]| > 0
      invariant 0 <= i <= |lines|
      invariant i <= DownloadStop(lines)
      invariant sizes == SizeLines(lines[..i]) && Fits(sizes)
      invariant reported == Alternate(Percents(sizes))
      invariant nLine == |sizes| % 2
    {
      var line := lines[i];
      if Substring(line, 0, 31) == AUTH_FAILED {
        // authenticate() always declines, so the login failure is final
        SubstringPrefix(line, AUTH_FAILED);
        EndsAt(lines, i, sizes);
        return LoginFailed, reported;
      }
      if Substring(line, 0, 29) == NOT_FOUND {
        SubstringPrefix(line, AUTH_FAILED);
        SubstringPrefix(line, NOT_FOUND);
        EndsAt(lines, i, sizes);
        return FileNotFound, reported;
      }
      ReadOn(lines, i);
      SizeLinesStep(lines, i);
      nLine, reported := CountProgress(line, nLine, reported, sizes);
      if IsSizeLine(line) {
        sizes := sizes + [line];
      }
      i := i + 1;
    }
    EndsAt(lines, i, sizes);
    return Downloaded, reported;
  }

  /** Where the loop stops, the progress seen so far is what is reported. */
  lemma EndsAt(lines: seq<string>, i: nat, sizes: seq<string>)
    requires Fits(lines) && i <= DownloadStop(lines) && sizes == SizeLines(lines[..i]) && Fits(sizes)
    requires i == |lines| || StopsDownload(lines[i])
    ensures DownloadStop(lines) == i
    ensures ReportedProgress(lines) == Alternate(Percents(sizes))
    ensures i == |lines| || lines[i] == "" ==> DownloadOutcomeOf(lines) == Downloaded
    ensures i < |lines| && IsPrefix(AUTH_FAILED, lines[i]) ==> DownloadOutcomeOf(lines) == LoginFailed
    ensures i < |lines| && !IsPrefix(AUTH_FAILED, lines[i]) && IsPrefix(NOT_FOUND, lines[i]) ==>
              DownloadOutcomeOf(lines) == FileNotFound
  {
    if i < |lines| {
      StopAt(lines, i);
    }
  }

  /**
   * The size-tag branch of the loop: every other progress line, starting
   * with the first, reports its percentage (nLine toggles between 0 and 1).
   */
  method CountProgress(line: string, nLine: int, reported: seq<int>, ghost sizes: seq<string>)
    returns (nLine': int, reported': seq<int>)
    requires |line| < NPOS && Fits(sizes)
    requires reported == Alternate(Percents(sizes)) && nLine == |sizes| % 2
    ensures IsSizeLine(line) ==> Fits(sizes + [line])
    ensures IsSizeLine(line) ==> reported' == Alternate(Percents(sizes + [line])) && nLine' == (|sizes| + 1) % 2
    ensures !IsSizeLine(line) ==> reported' == reported && nLine' == nLine
  {
    SubstringPrefix(line, SIZE_TAG);
    if Substring(line, 0, 9) == SIZE_TAG {
      ProgressStep(sizes, line);
      if nLine == 0 {
        reported' := reported + [PercentOf(line)];
        nLine' := 1;
      } else {
        reported' := reported;
        nLine' := 0;
      }
    } else {
      nLine', reported' := nLine, reported;
    }
  }

  /** A non-empty line that is neither exception lets the loop read on. */
  lemma ReadOn(lines: seq<string>, i: int)
    requires 0 <= i < |lines| && i <= DownloadStop(lines) && lines[i] != ""
    requires Substring(lines[i], 0, 31) != AUTH_FAILED && Substring(lines[i], 0, 29) != NOT_FOUND
    ensures i + 1 <= DownloadStop(lines)
  {
    GoesOn(lines[i]);
  }

  lemma GoesOn(line: string)
    requires line != ""
    requires Substring(line, 0, 31) != AUTH_FAILED && Substring(line, 0, 29) != NOT_FOUND
    ensures !StopsDownload(line)
  {
    SubstringPrefix(line, AUTH_FAILED);
    SubstringPrefix(line, NOT_FOUND);
  }

  /** One more line extends the progress lines seen so far by itself when it is one. */
  lemma SizeLinesStep(lines: seq<string>, i: int)
    requires 0 <= i < |lines|
    ensures SizeLines(lines[..i + 1]) == SizeLines(lines[..i]) + (if IsSizeLine(lines[i]) then [lines[i]] else [])
  {
    assert lines[..i + 1][..i] == lines[..i];
  }

  /** One more progress line is reported when an even number came before it. */
  lemma ProgressStep(sizes: seq<string>, line: string)
    requires Fits(sizes) && |line| < NPOS
    ensures Fits(sizes + [line])
    ensures Alternate(Percents(sizes + [line])) ==
              if |sizes| % 2 == 0 then Alternate(Percents(sizes)) + [PercentOf(line)]
              else Alternate(Percents(sizes))
  {
    assert Percents(sizes + [line]) == Percents(sizes) + [PercentOf(line)];
    AlternateSnoc(Percents(sizes), PercentOf(line));
  }

  /**
   * The k-th report is the percentage of the (2k)-th progress line before the
   * loop ends; with n such lines there are (n + 1) / 2 reports.
   */
  lemma ReportedEveryOther(lines: seq<string>)
    requires Fits(lines)
    ensures var sizes := SizeLines(lines[..DownloadStop(lines)]);
      && |ReportedProgress(lines)| == (|sizes| + 1) / 2
      && forall k :: 0 <= k < |ReportedProgress(lines)| ==> ReportedProgress(lines)[k] == PercentOf(sizes[2 * k])
  {
    var sizes := SizeLines(lines[..DownloadStop(lines)]);
    forall k | 0 <= k < |ReportedProgress(lines)|
      ensures ReportedProgress(lines)[k] == PercentOf(sizes[2 * k])
    {
      AlternateAt(Percents(sizes), k);
    }
  }

  /**
   * With '(' first at k and the first '%' after it at m, the percentage is
   * the number written between them.
   */
  lemma PercentBetweenMarks(line: string, k: int, m: int)
    requires |line| < NPOS
    requires 0 <= k < m < |line| && line[k] == '(' && line[m] == '%'
    requires forall j :: 0 <= j < k ==> line[j] != '('
    requires forall j :: k < j < m ==> line[j] != '%'
    ensures PercentOf(line) == ParseLong(line[k + 1..m])
    ensures AllDigits(line[k + 1..m]) ==> PercentOf(line) == DigitsValue(line[k + 1..m])
  {
    assert FindChar(line, '(', 0) == k;
    var left := SizeAdd(FindChar(line, '(', 0), 1);
    assert left == k + 1;
    assert FindChar(line, '%', left) == m;
    var count := SizeSub(FindChar(line, '%', left), left);
    assert count == m - (k + 1);
    assert PercentField(line) == line[k + 1..m];
    if AllDigits(line[k + 1..m]) {
      ParseDigits(line[k + 1..m]);
    }
  }

  /** A progress line without '(' reports 0: atoi then reads from the leading '['. */
  lemma PercentWithoutParen(line: string)
    requires |line| < NPOS
    requires IsSizeLine(line)
    requires forall j :: 0 <= j < |line| ==> line[j] != '('
    ensures PercentOf(line) == 0
  {
    assert line[0] == '[';
    assert FindChar(line, '(', 0) == NPOS;
    var left := SizeAdd(FindChar(line, '(', 0), 1);
    assert left == 0;
    var found := FindChar(line, '%', left);
    assert found != 0;
    var count := SizeSub(found, left);
    assert count == found;
    var t := PercentField(line);
    assert t != [] && t[0] == '[';
    assert SkipSpace(t) == t;
    assert LeadingDigits(t) == [];
  }

  /** Once a line ends the loop, later output changes neither the outcome nor the reports. */
  lemma DownloadIgnoresLaterLines(lines: seq<string>, more: seq<string>)
    requires DownloadStop(lines) < |lines|
    requires Fits(lines) && Fits(more)
    ensures DownloadStop(lines + more) == DownloadStop(lines)
    ensures DownloadOutcomeOf(lines + more) == DownloadOutcomeOf(lines)
    ensures ReportedProgress(lines + more) == ReportedProgress(lines)
  {
    var k := DownloadStop(lines);
    StopAt(lines + more, k);
    assert (lines + more)[..k] == lines[..k];
  }

  /** The loop ends at the first line that stops it. */
  lemma {:induction false} StopAt(lines: seq<string>, k: nat)
    requires k < |lines| && StopsDownload(lines[k])
    requires forall j :: 0 <= j < k ==> !StopsDownload(lines[j])
    ensures DownloadStop(lines) == k
  {
    if k > 0 {
      StopAt(lines[1..], k - 1);
    }
  }
}
