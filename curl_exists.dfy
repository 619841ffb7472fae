/**
 * The response loop of doGetDoesFileExist (zypp/media/MediaAria2c.cc): the
 * output of a curl HEAD request, read line by line until an empty read,
 * decides whether the file exists; when no line decides, curl's exit code
 * does. authenticate() always declines, so a login failure is never retried
 * and reaches getDoesFileExist's caller as is.
 */
module CurlExists {

  import opened Wrappers
  import opened CxxStrings

  /** The status texts doGetDoesFileExist looks for, in the order it tests them. */
  const UNAUTHORIZED: string := "401 Authorization Required"
  const NOT_FOUND: string := "404 Not Found"
  const FOUND: string := "200 OK"

  /**
   * How the existence check ends: an answer, a MediaUnauthorizedException
   * ("Login failed"), or a MediaException for a non-zero exit code. The
   * exception carries only the medium's URL, so every non-zero code gives
   * the same error.
   */
  datatype ExistsOutcome = Exists(found: bool) | Unauthorized | TransferError

  /** What a single line decides, if anything. */
  function LineVerdict(line: string): Option<ExistsOutcome>
  {
    if Contains(line, UNAUTHORIZED) then Some(Unauthorized)
    else if Contains(line, NOT_FOUND) then Some(Exists(false))
    else if Contains(line, FOUND) then Some(Exists(true))
    else None
  }

  /** A line that ends the loop: an empty read, or one that decides. */
  predicate StopsCheck(line: string)
  {
    line == "" || LineVerdict(line).Some?
  }

  /** The index of the line that ends the loop, or the number of lines when none does. */
  function CheckStop(lines: seq<string>): (k: nat)
    ensures k <= |lines|
    ensures k < |lines| ==> StopsCheck(lines[k])
    ensures forall j :: 0 <= j < k ==> !StopsCheck(lines[j])
  {
    if lines == [] || StopsCheck(lines[0]) then 0 else 1 + CheckStop(lines[1..])
  }

  /** Whether some line before the end of the loop decides. */
  predicate LineDecides(lines: seq<string>)
  {
    CheckStop(lines) < |lines| && LineVerdict(lines[CheckStop(lines)]).Some?
  }

  /** The outcome doGetDoesFileExist reaches for this output and exit code. */
  function ExistenceOf(lines: seq<string>, exitCode: int): ExistsOutcome
  {
    if LineDecides(lines) then LineVerdict(lines[CheckStop(lines)]).value
    else if exitCode == 0 then Exists(true)
    else TransferError
  }

  /**
   * The response loop over the lines curl writes (each receiveLine result,
   * the final empty read included or not) and the code curl.close() returns.
   */
  method DoesFileExist(lines: seq<string>, exitCode: int) returns (outcome: ExistsOutcome)
    ensures outcome == ExistenceOf(lines, exitCode)
  {
    var i := 0;
    while i < |lines| && |lines[i]| > 0
      invariant 0 <= i <= |lines|
      invariant i <= CheckStop(lines)
    {
      var line := lines[i];
      if Contains(line, UNAUTHORIZED) {
        // authenticate() always declines, so the exception is rethrown
        return Unauthorized;
      }
      if Contains(line, NOT_FOUND) {
        return Exists(false);
      }
      if Contains(line, FOUND) {
        return Exists(true);
      }
      i := i + 1;
    }
    if exitCode != 0 {
      return TransferError;
    }
    // case 0 breaks out of the switch; the retry loop ends and the file exists
    return Exists(true);
  }

  /**
   * Within a line, "401 Authorization Required" wins over "404 Not Found",
   * which wins over "200 OK"; a line with none of them decides nothing.
   */
  lemma VerdictPriority(line: string)
    ensures LineVerdict(line) == Some(Unauthorized) <==> Contains(line, UNAUTHORIZED)
    ensures LineVerdict(line) == Some(Exists(false)) <==>
              !Contains(line, UNAUTHORIZED) && Contains(line, NOT_FOUND)
    ensures LineVerdict(line) == Some(Exists(true)) <==>
              !Contains(line, UNAUTHORIZED) && !Contains(line, NOT_FOUND) && Contains(line, FOUND)
    ensures LineVerdict(line) == None <==>
              !Contains(line, UNAUTHORIZED) && !Contains(line, NOT_FOUND) && !Contains(line, FOUND)
  {
  }

  /** The empty read never decides: none of the status texts is empty. */
  lemma EmptyLineDecidesNothing()
    ensures LineVerdict("") == None
  {
    assert !IsPrefix(UNAUTHORIZED, "") && !IsPrefix(NOT_FOUND, "") && !IsPrefix(FOUND, "");
  }

  /** The file is reported missing iff a "404 Not Found" line without the 401 text ends the loop. */
  lemma NotFoundIff(lines: seq<string>, exitCode: int)
    ensures var k := CheckStop(lines);
      ExistenceOf(lines, exitCode) == Exists(false) <==>
        k < |lines| && !Contains(lines[k], UNAUTHORIZED) && Contains(lines[k], NOT_FOUND)
  {
    var k := CheckStop(lines);
    if k < |lines| {
      VerdictPriority(lines[k]);
    }
  }

  /**
   * The file is reported present iff a "200 OK" line with neither other text
   * ends the loop, or no line decides and curl exits with 0.
   */
  lemma FoundIff(lines: seq<string>, exitCode: int)
    ensures var k := CheckStop(lines);
      ExistenceOf(lines, exitCode) == Exists(true) <==>
        (k < |lines| && !Contains(lines[k], UNAUTHORIZED) && !Contains(lines[k], NOT_FOUND)
           && Contains(lines[k], FOUND))
        || (!LineDecides(lines) && exitCode == 0)
  {
    var k := CheckStop(lines);
    if k < |lines| {
      VerdictPriority(lines[k]);
    }
  }

  /** A login failure comes from a line with the 401 text, whatever the exit code. */
  lemma UnauthorizedIff(lines: seq<string>, exitCode: int)
    ensures var k := CheckStop(lines);
      ExistenceOf(lines, exitCode) == Unauthorized <==> k < |lines| && Contains(lines[k], UNAUTHORIZED)
  {
    var k := CheckStop(lines);
    if k < |lines| {
      VerdictPriority(lines[k]);
    }
  }

  /**
   * When no line decides, the exit code alone does: 0 means the file exists,
   * anything else is the one transfer error, whichever code it is.
   */
  lemma ExitCodeDecides(lines: seq<string>, exitCode: int, otherCode: int)
    requires !LineDecides(lines)
    ensures ExistenceOf(lines, exitCode) == (if exitCode == 0 then Exists(true) else TransferError)
    ensures ExistenceOf(lines, exitCode) == ExistenceOf(lines, otherCode) <==> (exitCode == 0 <==> otherCode == 0)
  {
  }

  /** Once a line decides, neither later output nor the exit code matters. */
  lemma ExistsIgnoresLaterOutput(lines: seq<string>, more: seq<string>, exitCode: int, otherCode: int)
    requires LineDecides(lines)
    ensures CheckStop(lines + more) == CheckStop(lines)
    ensures ExistenceOf(lines + more, otherCode) == ExistenceOf(lines, exitCode)
  {
    StopIgnoresLaterLines(lines, more);
  }

  /** An empty read ends the loop: later output is never read, only the exit code counts. */
  lemma EmptyReadEndsCheck(lines: seq<string>, more: seq<string>, exitCode: int)
    requires CheckStop(lines) < |lines| && lines[CheckStop(lines)] == ""
    ensures ExistenceOf(lines + more, exitCode) == ExistenceOf(lines, exitCode)
    ensures ExistenceOf(lines, exitCode) == (if exitCode == 0 then Exists(true) else TransferError)
  {
    StopIgnoresLaterLines(lines, more);
    EmptyStopDecidesNothing(lines);
    EmptyStopDecidesNothing(lines + more);
    ExitCodeDecides(lines, exitCode, exitCode);
    ExitCodeDecides(lines + more, exitCode, exitCode);
  }

  lemma EmptyStopDecidesNothing(lines: seq<string>)
    requires CheckStop(lines) < |lines| && lines[CheckStop(lines)] == ""
    ensures !LineDecides(lines)
  {
    EmptyLineDecidesNothing();
  }

  /** Lines after the one that ends the loop do not move where it ends. */
  lemma StopIgnoresLaterLines(lines: seq<string>, more: seq<string>)
    requires CheckStop(lines) < |lines|
    ensures CheckStop(lines + more) == CheckStop(lines)
    ensures (lines + more)[CheckStop(lines)] == lines[CheckStop(lines)]
  {
    var k := CheckStop(lines);
    assert forall j :: 0 <= j <= k ==> (lines + more)[j] == lines[j];
    CheckStopAt(lines + more, k);
  }

  /** The loop ends at the first line that stops it. */
  lemma {:induction false} CheckStopAt(lines: seq<string>, k: nat)
    requires k < |lines| && StopsCheck(lines[k])
    requires forall j :: 0 <= j < k ==> !StopsCheck(lines[j])
    ensures CheckStop(lines) == k
  {
    if k > 0 {
      CheckStopAt(lines[1..], k - 1);
    }
  }
}
