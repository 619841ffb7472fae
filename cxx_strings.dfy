/**
 * The character-string primitives the download back-end relies on: the parts
 * of std::string, of the C library (atoi, strtol, tolower) and of zypp's str::
 * helpers that it calls, written out over seq<char>.
 */
module CxxStrings {

  /** The modulus of 64-bit size_t arithmetic, and std::string::npos. */
  const SIZE_MOD: int := 0x1_0000_0000_0000_0000
  const NPOS: int := SIZE_MOD - 1

  /** Unsigned size_t addition and subtraction, which wrap modulo 2^64. */
  function SizeAdd(a: int, b: int): (r: int)
    requires 0 <= a < SIZE_MOD && 0 <= b < SIZE_MOD
    ensures 0 <= r < SIZE_MOD
  {
    if a + b < SIZE_MOD then a + b else a + b - SIZE_MOD
  }

  function SizeSub(a: int, b: int): (r: int)
    requires 0 <= a < SIZE_MOD && 0 <= b < SIZE_MOD
    ensures 0 <= r < SIZE_MOD
  {
    if a >= b then a - b else a - b + SIZE_MOD
  }

  /** Both agree with arithmetic modulo 2^64. */
  lemma SizeArithmetic(a: int, b: int)
    requires 0 <= a < SIZE_MOD && 0 <= b < SIZE_MOD
    ensures SizeAdd(a, b) == (a + b) % SIZE_MOD
    ensures SizeSub(a, b) == (a - b) % SIZE_MOD
  {
  }

  predicate IsPrefix(p: string, s: string)
  {
    |p| <= |s| && s[..|p|] == p
  }

  predicate IsSuffix(p: string, s: string)
  {
    |p| <= |s| && s[|s| - |p|..] == p
  }

  /** A strict suffix is what is left after a non-empty start, and the other way round. */
  lemma StrictSuffixStart(p: string, s: string)
    requires |s| > |p| && IsSuffix(p, s)
    ensures s[..|s| - |p|] != "" && s == s[..|s| - |p|] + p
  {
  }

  lemma StrictSuffixOf(p: string, s: string, x: string)
    requires x != "" && s == x + p
    ensures |s| > |p| && IsSuffix(p, s)
  {
    assert s[|s| - |p|..] == p;
  }


  /** str::contains: pat occurs somewhere in s. */
  predicate Contains(s: string, pat: string)
    decreases |s|
  {
    IsPrefix(pat, s) || (|s| > 0 && Contains(s[1..], pat))
  }

  /** pat occurs in s starting at index i. */
  predicate OccursAt(s: string, pat: string, i: int)
  {
    0 <= i && i + |pat| <= |s| && s[i..i + |pat|] == pat
  }

  /** Contains agrees with the positional reading: pat starts at some index of s. */
  lemma {:induction false} ContainsAt(s: string, pat: string)
    ensures Contains(s, pat) <==> exists i :: OccursAt(s, pat, i)
    decreases |s|
  {
    if IsPrefix(pat, s) {
      assert OccursAt(s, pat, 0);
    } else if |s| > 0 {
      ContainsAt(s[1..], pat);
      if Contains(s[1..], pat) {
        var i :| OccursAt(s[1..], pat, i);
        assert s[i + 1..i + 1 + |pat|] == s[1..][i..i + |pat|];
        assert OccursAt(s, pat, i + 1);
      }
      if i :| OccursAt(s, pat, i) {
        assert i != 0;
        assert s[1..][i - 1..i - 1 + |pat|] == s[i..i + |pat|];
        assert OccursAt(s[1..], pat, i - 1);
      }
    }
  }

  /**
   * std::string::substr(pos, n) for a position inside the string: at most n
   * characters starting at pos. A position past the end throws
   * std::out_of_range; callers that can meet one test for it first.
   */
  function Substring(s: string, pos: nat, n: nat): string
    requires pos <= |s|
  {
    if n < |s| - pos then s[pos..pos + n] else s[pos..]
  }

  /** Comparing substr(0, |p|) with p is the same as asking whether p is a prefix. */
  lemma SubstringPrefix(s: string, p: string)
    ensures Substring(s, 0, |p|) == p <==> IsPrefix(p, s)
  {
  }

  /**
   * std::string::find(c, from): the first position at or after from holding
   * c, or npos. A std::string is always shorter than npos.
   */
  function FindChar(s: string, c: char, from: nat): (r: int)
    requires |s| < NPOS
    ensures r == NPOS || (from <= r < |s| && s[r] == c)
    ensures r != NPOS ==> forall k :: from <= k < r ==> s[k] != c
    ensures r == NPOS ==> forall k :: from <= k < |s| ==> s[k] != c
    decreases |s| - from
  {
    if from >= |s| then NPOS
    else if s[from] == c then from
    else FindChar(s, c, from + 1)
  }

  /** tolower in the C locale. */
  function LowerChar(c: char): char
  {
    if 'A' <= c <= 'Z' then (c as int + 32) as char else c
  }

  /** str::toLower: every character lowered, nothing else changed. */
  function ToLower(s: string): (r: string)
    ensures |r| == |s|
    ensures forall i :: 0 <= i < |s| ==> r[i] == LowerChar(s[i])
  {
    if s == [] then [] else [LowerChar(s[0])] + ToLower(s[1..])
  }

  lemma ToLowerConcat(s: string, t: string)
    ensures ToLower(s + t) == ToLower(s) + ToLower(t)
  {
    assert forall i :: 0 <= i < |s + t| ==> (s + t)[i] == if i < |s| then s[i] else t[i - |s|];
  }

  /** Lowering a lowered string changes nothing more. */
  lemma ToLowerIdempotent(s: string)
    ensures ToLower(ToLower(s)) == ToLower(s)
  {
    var t := ToLower(s);
    assert forall i :: 0 <= i < |t| ==> LowerChar(t[i]) == t[i];
  }

  predicate IsDigit(c: char)
  {
    '0' <= c <= '9'
  }

  /** isspace in the C locale. */
  predicate IsSpace(c: char)
  {
    c == ' ' || c == '\t' || c == '\n' || c == '\r' || c == '\U{B}' || c == '\U{C}'
  }

  predicate AllDigits(s: string)
  {
    forall i :: 0 <= i < |s| ==> IsDigit(s[i])
  }

  function DigitChar(d: int): char
    requires 0 <= d < 10
  {
    ('0' as int + d) as char
  }

  /** The number a run of decimal digits denotes, most significant digit first. */
  function DigitsValue(s: string): int
  {
    if s == [] then 0
    else DigitsValue(s[..|s| - 1]) * 10 + (s[|s| - 1] as int - '0' as int)
  }

  /** The longest run of digits at the start of s. */
  function LeadingDigits(s: string): (r: string)
    ensures IsPrefix(r, s) && AllDigits(r)
    ensures |r| < |s| ==> !IsDigit(s[|r|])
  {
    if s != [] && IsDigit(s[0]) then [s[0]] + LeadingDigits(s[1..]) else []
  }

  /** s without its leading white space. */
  function SkipSpace(s: string): (r: string)
    ensures IsSuffix(r, s)
    ensures r != [] ==> !IsSpace(r[0])
    ensures forall i :: 0 <= i < |s| - |r| ==> IsSpace(s[i])
  {
    if s != [] && IsSpace(s[0]) then
      var r := SkipSpace(s[1..]);
      assert forall i :: 1 <= i < |s| - |r| ==> s[i] == s[1..][i - 1];
      r
    else s
  }

  /**
   * atoi, and strtol in base 10: leading white space, an optional sign, then
   * the longest run of digits; no digits give 0.
   */
  function ParseLong(s: string): int
  {
    var t := SkipSpace(s);
    if t != [] && t[0] == '-' then -DigitsValue(LeadingDigits(t[1..]))
    else if t != [] && t[0] == '+' then DigitsValue(LeadingDigits(t[1..]))
    else DigitsValue(LeadingDigits(t))
  }

  /** The decimal digits of n, without leading zeros. */
  function NatString(n: nat): (r: string)
    ensures r != [] && AllDigits(r)
    ensures DigitsValue(r) == n
  {
    if n < 10 then [DigitChar(n)]
    else
      var r := NatString(n / 10) + [DigitChar(n % 10)];
      assert r[..|r| - 1] == NatString(n / 10);
      r
  }

  /** str::numstring and printf's %ld: n in decimal, with '-' when negative. */
  function NumString(n: int): string
  {
    if n < 0 then "-" + NatString(-n) else NatString(n)
  }

  lemma {:induction false} LeadingDigitsOfDigits(s: string)
    requires AllDigits(s)
    ensures LeadingDigits(s) == s
  {
    if s != [] {
      LeadingDigitsOfDigits(s[1..]);
    }
  }

  /** A string made only of digits parses to the number it spells. */
  lemma ParseDigits(s: string)
    requires AllDigits(s)
    ensures ParseLong(s) == DigitsValue(s)
  {
    NoSpaceBeforeDigits(s);
    LeadingDigitsOfDigits(s);
  }

  /** White space is skipped only up to the first character that is not white space. */
  lemma NoSpaceBeforeDigits(s: string)
    requires AllDigits(s)
    ensures SkipSpace(s) == s
    ensures s != [] ==> s[0] != '-' && s[0] != '+'
  {
    if s != [] {
      assert IsDigit(s[0]);
    }
  }

  /** Reading back a number printed in decimal gives the number. */
  lemma NumStringRoundTrip(n: int)
    ensures ParseLong(NumString(n)) == n
  {
    if n < 0 {
      var d := NatString(-n);
      var s := "-" + d;
      assert SkipSpace(s) == s;
      assert s[1..] == d;
      LeadingDigitsOfDigits(d);
    } else {
      ParseDigits(NatString(n));
    }
  }
}
