/** The identifier shapes shared by the instrument normaliser of migration 0006 and the
    Euronext client: ISIN codes, market identifier codes (MIC) and the Euronext "issue"
    strings `SYMBOL-ISIN-MIC`. Each regular expression of the source becomes a predicate;
    each pattern with capture groups becomes a deterministic matcher together with a lemma
    that it finds exactly the strings of that shape. */
module Identifiers {
  import opened Base
  import opened Text

  // ---------------------------------------------------------------- ISIN

  /** The body of the regular expression `[A-Z]{2}[A-Z0-9]{9}[0-9]`. */
  predicate IsIsinShape(s: string) {
    |s| == 12 && IsAsciiUpper(s[0]) && IsAsciiUpper(s[1])
    && (forall i :: 2 <= i < 11 ==> IsUpperAlnum(s[i])) && IsDigit(s[11])
  }

  /** `re.match(r"^[A-Z]{2}[A-Z0-9]{9}[0-9]$", s)`: Python's `$` also matches just before a
      final newline, so a valid code followed by one `"\n"` matches as well. */
  predicate IsinRegexMatch(s: string) {
    IsIsinShape(s) || (|s| == 13 && s[12] == '\n' && IsIsinShape(s[..12]))
  }

  lemma IsinIsUpperAlnum(s: string)
    requires IsIsinShape(s)
    ensures AllUpperAlnum(s)
  {
  }

  /** On a string whose last character is not whitespace the match is exact. */
  lemma IsinRegexOnTrimmed(s: string)
    requires s == [] || !IsSpace(s[|s| - 1])
    ensures IsinRegexMatch(s) <==> IsIsinShape(s)
  {
  }

  /** The newline quirk is real: the regular expression accepts a code with a trailing
      newline. */
  lemma IsinRegexNewlineQuirk()
    ensures IsinRegexMatch("FR0000120271\n") && !IsIsinShape("FR0000120271\n")
  {
    assert "FR0000120271\n"[..12] == "FR0000120271";
  }

  // ---------------------------------------------------------------- upper-case alphanumerics

  /** Strings made of `[A-Z0-9]` are left alone by `strip()` and `upper()`. */
  lemma UpperAlnumStable(s: string)
    requires AllUpperAlnum(s)
    ensures Strip(s) == s && Upper(s) == s && RemoveSpaces(s) == s
  {
    UpperAlnumStrip(s);
    UpperAlnumUpper(s);
    RemoveSpacesIdentity(s);
  }

  lemma UpperAlnumStrip(s: string)
    requires AllUpperAlnum(s)
    ensures Strip(s) == s
  {
    if s != [] {
      assert IsUpperAlnum(s[0]) && IsUpperAlnum(s[|s| - 1]);
      assert !IsSpace(s[0]) && !IsSpace(s[|s| - 1]);
      assert TrimStart(s, IsSpace) == s;
    }
  }

  lemma UpperAlnumUpper(s: string)
    requires AllUpperAlnum(s)
    ensures Upper(s) == s
  {
    forall i | 0 <= i < |s|
      ensures Upper(s)[i] == s[i]
    {
      assert IsUpperAlnum(s[i]);
    }
  }

  /** The length of the longest prefix of `s` in `[A-Z0-9]`: where a greedy `[A-Z0-9]+`
      stops. */
  function UpperAlnumRun(s: string): (n: nat)
    ensures n <= |s| && AllUpperAlnum(s[..n])
    ensures n < |s| ==> !IsUpperAlnum(s[n])
  {
    if s == [] || !IsUpperAlnum(s[0]) then 0
    else
      var m := UpperAlnumRun(s[1..]);
      assert s[..m + 1] == [s[0]] + s[1..][..m];
      m + 1
  }

  /** A run of `[A-Z0-9]` followed by another character ends exactly there. */
  lemma {:induction false} UpperAlnumRunOf(a: string, rest: string)
    requires AllUpperAlnum(a)
    requires rest == [] || !IsUpperAlnum(rest[0])
    ensures UpperAlnumRun(a + rest) == |a|
  {
    if a != [] {
      assert (a + rest)[1..] == a[1..] + rest;
      UpperAlnumRunOf(a[1..], rest);
    }
  }

  // ---------------------------------------------------------------- issue strings

  /** The three parts of `SYMBOL-ISIN-MIC`. */
  datatype Issue = Issue(symbol: string, isin: string, mic: string)

  /** The MIC group of the issue pattern, `X[A-Z0-9]{3}`. */
  predicate IsIssueMic(m: string) {
    |m| == 4 && m[0] == 'X' && AllUpperAlnum(m)
  }

  predicate WellFormedIssue(i: Issue) {
    |i.symbol| > 0 && AllUpperAlnum(i.symbol) && IsIsinShape(i.isin) && IsIssueMic(i.mic)
  }

  function IssueText(i: Issue, sep1: char, sep2: char): string {
    i.symbol + [sep1] + i.isin + [sep2] + i.mic
  }

  /** `^([A-Z0-9]+)SEP([A-Z]{2}[A-Z0-9]{9}[0-9])SEP(X[A-Z0-9]{3})$` where `SEP` is any
      character accepted by `sep`, on a string that does not end in a newline. The symbol
      group is the whole leading run of `[A-Z0-9]`, since a separator is never one. */
  function MatchIssue(s: string, sep: char -> bool): (r: Option<Issue>)
    ensures r.Some? ==> WellFormedIssue(r.value)
  {
    var n := UpperAlnumRun(s);
    if n == 0 || |s| != n + 18 then None
    else if sep(s[n]) && IsIsinShape(s[n + 1..n + 13]) && sep(s[n + 13]) && IsIssueMic(s[n + 14..])
    then Some(Issue(s[..n], s[n + 1..n + 13], s[n + 14..]))
    else None
  }

  /** Whatever the matcher finds, the input is exactly that issue written with two
      accepted separators. */
  lemma MatchIssueSound(s: string, sep: char -> bool)
    requires MatchIssue(s, sep).Some?
    ensures var i := MatchIssue(s, sep).value;
      sep(s[|i.symbol|]) && sep(s[|i.symbol| + 13])
      && s == IssueText(i, s[|i.symbol|], s[|i.symbol| + 13])
  {
    var i := MatchIssue(s, sep).value;
    var n := |i.symbol|;
    assert s == s[..n] + [s[n]] + s[n + 1..n + 13] + [s[n + 13]] + s[n + 14..];
  }

  /** Every issue written with accepted separators is found, with its own parts. */
  lemma MatchIssueComplete(i: Issue, sep1: char, sep2: char, sep: char -> bool)
    requires WellFormedIssue(i) && sep(sep1) && sep(sep2)
    requires !IsUpperAlnum(sep1)
    ensures MatchIssue(IssueText(i, sep1, sep2), sep) == Some(i)
  {
    var s := IssueText(i, sep1, sep2);
    var rest := [sep1] + i.isin + [sep2] + i.mic;
    assert s == i.symbol + rest;
    UpperAlnumRunOf(i.symbol, rest);
    var n := |i.symbol|;
    assert s[..n] == i.symbol;
    assert s[n + 1..n + 13] == i.isin;
    assert s[n + 14..] == i.mic;
  }

  /** An issue string whose separators are not lower-case letters is left alone by
      `strip()` and `upper()`. */
  lemma IssueTextIsNormal(i: Issue, sep1: char, sep2: char)
    requires WellFormedIssue(i)
    requires !IsAsciiLower(sep1) && !IsAsciiLower(sep2)
    ensures Strip(IssueText(i, sep1, sep2)) == IssueText(i, sep1, sep2)
    ensures Upper(IssueText(i, sep1, sep2)) == IssueText(i, sep1, sep2)
  {
    var s := IssueText(i, sep1, sep2);
    var n := |i.symbol|;
    IsinIsUpperAlnum(i.isin);
    forall k | 0 <= k < |s|
      ensures !IsAsciiLower(s[k])
    {
      if k < n {
        assert s[k] == i.symbol[k];
      } else if n < k < n + 13 {
        assert s[k] == i.isin[k - n - 1];
      } else if n + 13 < k {
        assert s[k] == i.mic[k - n - 14];
      }
    }
    assert s[0] == i.symbol[0] && s[|s| - 1] == i.mic[3];
    assert !IsSpace(s[0]) && !IsSpace(s[|s| - 1]);
  }
}
