/** The string operations of Python that the source relies on (`str.strip`, `str.upper`,
    `str.isalpha`, `str.isdigit`, `str.replace(" ", "")`, `in`, `rsplit`, `join`, the SQL
    `TRIM`/`UPPER` functions), stated over characters. Letters and digits are the ASCII ones;
    whitespace is the set Python's `str.isspace` accepts among the first 256 code points. */
module Text {
  import opened Base

  // ---------------------------------------------------------------- characters

  /** Python `str.isspace` on a single character (code points below 256). */
  predicate IsSpace(c: char) {
    c == ' ' || c == '\t' || c == '\n' || c == '\r' || c == '\U{0B}' || c == '\U{0C}'
    || c == '\U{1C}' || c == '\U{1D}' || c == '\U{1E}' || c == '\U{1F}'
    || c == '\U{85}' || c == '\U{A0}'
  }

  predicate IsAsciiUpper(c: char) { 'A' <= c <= 'Z' }
  predicate IsAsciiLower(c: char) { 'a' <= c <= 'z' }
  predicate IsDigit(c: char) { '0' <= c <= '9' }
  predicate IsLetter(c: char) { IsAsciiUpper(c) || IsAsciiLower(c) }
  predicate IsAlnum(c: char) { IsLetter(c) || IsDigit(c) }
  /** The regular-expression class `[A-Z0-9]`. */
  predicate IsUpperAlnum(c: char) { IsAsciiUpper(c) || IsDigit(c) }

  function UpperChar(c: char): (u: char)
    ensures IsAsciiLower(c) ==> IsAsciiUpper(u)
    ensures !IsAsciiLower(c) ==> u == c
  {
    if IsAsciiLower(c) then (c as int - 32) as char else c
  }

  function LowerChar(c: char): (l: char)
    ensures IsAsciiUpper(c) ==> IsAsciiLower(l)
    ensures !IsAsciiUpper(c) ==> l == c
  {
    if IsAsciiUpper(c) then (c as int + 32) as char else c
  }

  // ---------------------------------------------------------------- predicates on strings

  predicate AllSpace(s: string) { forall i :: 0 <= i < |s| ==> IsSpace(s[i]) }
  predicate AllLetters(s: string) { forall i :: 0 <= i < |s| ==> IsLetter(s[i]) }
  predicate AllDigits(s: string) { forall i :: 0 <= i < |s| ==> IsDigit(s[i]) }
  predicate AllUpperAlnum(s: string) { forall i :: 0 <= i < |s| ==> IsUpperAlnum(s[i]) }
  predicate AllAlnum(s: string) { forall i :: 0 <= i < |s| ==> IsAlnum(s[i]) }

  /** Python `s.isalpha()`: non-empty and every character a letter. */
  predicate PyIsAlpha(s: string) { |s| > 0 && AllLetters(s) }
  /** Python `s.isalnum()`: non-empty and every character a letter or a digit. */
  predicate PyIsAlnum(s: string) { |s| > 0 && AllAlnum(s) }

  predicate StartsWith(s: string, prefix: string) {
    |prefix| <= |s| && s[..|prefix|] == prefix
  }

  // ---------------------------------------------------------------- case mapping

  /** Python `s.upper()` restricted to ASCII letters (also SQLite's `UPPER`). */
  function Upper(s: string): (r: string)
    ensures |r| == |s|
    ensures forall i :: 0 <= i < |s| ==> r[i] == UpperChar(s[i])
  {
    seq(|s|, i requires 0 <= i < |s| => UpperChar(s[i]))
  }

  /** Python `s.lower()` restricted to ASCII letters; stands for `casefold`. */
  function Lower(s: string): (r: string)
    ensures |r| == |s|
    ensures forall i :: 0 <= i < |s| ==> r[i] == LowerChar(s[i])
  {
    seq(|s|, i requires 0 <= i < |s| => LowerChar(s[i]))
  }

  lemma UpperIdempotent(s: string)
    ensures Upper(Upper(s)) == Upper(s)
  {
  }

  lemma UpperConcat(a: string, b: string)
    ensures Upper(a + b) == Upper(a) + Upper(b)
  {
  }

  // ---------------------------------------------------------------- stripping

  /** Drops the leading characters that satisfy `ws`. */
  function TrimStart(s: string, ws: char -> bool): (r: string)
    ensures |r| <= |s|
    ensures r == [] || !ws(r[0])
    ensures forall i :: 0 <= i < |s| - |r| ==> ws(s[i])
  {
    if s == [] || !ws(s[0]) then s else TrimStart(s[1..], ws)
  }

  /** What `TrimStart` leaves is a suffix of its input. */
  lemma {:induction false} TrimStartIsSuffix(s: string, ws: char -> bool)
    ensures TrimStart(s, ws) == s[|s| - |TrimStart(s, ws)|..]
  {
    if s != [] && ws(s[0]) {
      TrimStartIsSuffix(s[1..], ws);
    }
  }

  /** Drops the trailing characters that satisfy `ws`. */
  function TrimEnd(s: string, ws: char -> bool): (r: string)
    ensures |r| <= |s| && r == s[..|r|]
    ensures r == [] || !ws(r[|r| - 1])
    ensures forall i :: |r| <= i < |s| ==> ws(s[i])
  {
    if s == [] || !ws(s[|s| - 1]) then s else TrimEnd(s[..|s| - 1], ws)
  }

  function Trim(s: string, ws: char -> bool): string {
    TrimEnd(TrimStart(s, ws), ws)
  }

  /** Python `s.strip()`. */
  function Strip(s: string): (r: string)
    ensures r == [] || (!IsSpace(r[0]) && !IsSpace(r[|r| - 1]))
  {
    Trim(s, IsSpace)
  }

  predicate IsSpaceChar(c: char) { c == ' ' }

  /** SQL `TRIM(s)`, which removes only the space character. */
  function SqlTrim(s: string): (r: string)
    ensures r == [] || (r[0] != ' ' && r[|r| - 1] != ' ')
  {
    Trim(s, IsSpaceChar)
  }

  /** A Python string is falsy after `strip()` exactly when it consists of whitespace. */
  predicate IsBlank(s: string) { Strip(s) == [] }

  lemma {:induction false} TrimStartEmptyIff(s: string, ws: char -> bool)
    ensures TrimStart(s, ws) == [] <==> forall i :: 0 <= i < |s| ==> ws(s[i])
  {
    if s != [] && ws(s[0]) {
      TrimStartEmptyIff(s[1..], ws);
      assert forall i :: 1 <= i < |s| ==> s[1..][i - 1] == s[i];
    }
  }

  lemma BlankIffAllSpace(s: string)
    ensures IsBlank(s) <==> AllSpace(s)
  {
    TrimStartEmptyIff(s, IsSpace);
    var t := TrimStart(s, IsSpace);
    if t != [] {
      assert !IsSpace(t[0]);
    }
  }

  lemma {:induction false} TrimStartIdempotent(s: string, ws: char -> bool)
    ensures TrimStart(TrimStart(s, ws), ws) == TrimStart(s, ws)
  {
    if s != [] && ws(s[0]) {
      TrimStartIdempotent(s[1..], ws);
    }
  }

  lemma {:induction false} TrimEndIdempotent(s: string, ws: char -> bool)
    ensures TrimEnd(TrimEnd(s, ws), ws) == TrimEnd(s, ws)
  {
    if s != [] && ws(s[|s| - 1]) {
      TrimEndIdempotent(s[..|s| - 1], ws);
    }
  }

  /** Trimming the end of a string that does not start with a blank leaves a string that
      still does not start with one. */
  lemma TrimEndKeepsStart(s: string, ws: char -> bool)
    requires s == [] || !ws(s[0])
    ensures TrimStart(TrimEnd(s, ws), ws) == TrimEnd(s, ws)
  {
    var t := TrimEnd(s, ws);
    if t != [] {
      assert t[0] == s[0];
    }
  }

  lemma TrimIdempotent(s: string, ws: char -> bool)
    ensures Trim(Trim(s, ws), ws) == Trim(s, ws)
  {
    var a := TrimStart(s, ws);
    TrimEndKeepsStart(a, ws);
    TrimEndIdempotent(a, ws);
  }

  lemma StripIdempotent(s: string)
    ensures Strip(Strip(s)) == Strip(s)
  {
    TrimIdempotent(s, IsSpace);
  }

  lemma {:induction false} TrimStartUpper(s: string)
    ensures TrimStart(Upper(s), IsSpace) == Upper(TrimStart(s, IsSpace))
  {
    if s != [] {
      assert Upper(s)[0] == UpperChar(s[0]);
      if IsSpace(s[0]) {
        assert Upper(s)[1..] == Upper(s[1..]);
        TrimStartUpper(s[1..]);
      }
    }
  }

  lemma {:induction false} TrimEndUpper(s: string)
    ensures TrimEnd(Upper(s), IsSpace) == Upper(TrimEnd(s, IsSpace))
  {
    if s != [] {
      assert Upper(s)[|s| - 1] == UpperChar(s[|s| - 1]);
      if IsSpace(s[|s| - 1]) {
        assert Upper(s)[..|s| - 1] == Upper(s[..|s| - 1]);
        TrimEndUpper(s[..|s| - 1]);
      }
    }
  }

  /** Upper-casing never creates or removes blanks, so the order of `strip()` and `upper()`
      does not matter. */
  lemma StripUpperCommute(s: string)
    ensures Strip(Upper(s)) == Upper(Strip(s))
  {
    TrimStartUpper(s);
    TrimEndUpper(TrimStart(s, IsSpace));
  }

  /** `strip().upper()` applied twice is applied once. */
  lemma StripUpperIdempotent(s: string)
    ensures Upper(Strip(Upper(Strip(s)))) == Upper(Strip(s))
  {
    StripUpperCommute(Strip(s));
    StripIdempotent(s);
    UpperIdempotent(Strip(s));
  }

  // ---------------------------------------------------------------- removing spaces

  /** Python `s.replace(" ", "")`. */
  function RemoveSpaces(s: string): (r: string)
    ensures |r| <= |s|
    ensures forall i :: 0 <= i < |r| ==> r[i] != ' '
  {
    if s == [] then []
    else if s[0] == ' ' then RemoveSpaces(s[1..])
    else [s[0]] + RemoveSpaces(s[1..])
  }

  lemma {:induction false} RemoveSpacesIdentity(s: string)
    requires forall i :: 0 <= i < |s| ==> s[i] != ' '
    ensures RemoveSpaces(s) == s
  {
    if s != [] {
      RemoveSpacesIdentity(s[1..]);
    }
  }

  lemma {:induction false} RemoveSpacesConcat(a: string, b: string)
    ensures RemoveSpaces(a + b) == RemoveSpaces(a) + RemoveSpaces(b)
  {
    if a != [] {
      assert (a + b)[0] == a[0] && (a + b)[1..] == a[1..] + b;
      RemoveSpacesConcat(a[1..], b);
    } else {
      assert a + b == b;
    }
  }

  lemma {:induction false} RemoveSpacesUpper(s: string)
    ensures RemoveSpaces(Upper(s)) == Upper(RemoveSpaces(s))
  {
    if s != [] {
      assert Upper(s) == [UpperChar(s[0])] + Upper(s[1..]);
      RemoveSpacesUpper(s[1..]);
      if s[0] != ' ' {
        assert Upper([s[0]] + RemoveSpaces(s[1..])) == [UpperChar(s[0])] + Upper(RemoveSpaces(s[1..]));
      }
    }
  }

  // ---------------------------------------------------------------- searching and splitting

  /** `sub` occurs in `s` starting at index `j`. */
  predicate OccursAt(s: string, sub: string, j: nat) {
    j + |sub| <= |s| && s[j..j + |sub|] == sub
  }

  /** The first index at which `sub` occurs in `s` at or after `from`. */
  function FindFrom(s: string, sub: string, from: nat): (r: Option<nat>)
    requires from <= |s|
    ensures r.Some? ==> from <= r.value && OccursAt(s, sub, r.value)
    ensures r.Some? ==> forall j :: from <= j < r.value ==> !OccursAt(s, sub, j)
    ensures r.None? ==> forall j :: from <= j ==> !OccursAt(s, sub, j)
    decreases |s| - from
  {
    if from + |sub| > |s| then None
    else if OccursAt(s, sub, from) then Some(from)
    else FindFrom(s, sub, from + 1)
  }

  /** A first occurrence is what `FindFrom` finds. */
  lemma {:induction false} FindFromFirst(s: string, sub: string, from: nat, i: nat)
    requires from <= i && OccursAt(s, sub, i)
    requires forall j :: from <= j < i ==> !OccursAt(s, sub, j)
    ensures FindFrom(s, sub, from) == Some(i)
    decreases i - from
  {
    if from < i {
      FindFromFirst(s, sub, from + 1, i);
    }
  }

  /** Python `sub in s`. */
  predicate Contains(s: string, sub: string) { FindFrom(s, sub, 0).Some? }

  /** The index of the last occurrence of `c` in `s`. */
  function LastIndexOf(s: string, c: char): (r: Option<nat>)
    ensures r.Some? ==> r.value < |s| && s[r.value] == c && forall j :: r.value < j < |s| ==> s[j] != c
    ensures r.None? ==> forall j :: 0 <= j < |s| ==> s[j] != c
  {
    if s == [] then None
    else if s[|s| - 1] == c then Some(|s| - 1)
    else LastIndexOf(s[..|s| - 1], c)
  }

  /** Python `sep.join(parts)`. */
  function Join(sep: string, parts: seq<string>): string {
    if parts == [] then ""
    else if |parts| == 1 then parts[0]
    else parts[0] + sep + Join(sep, parts[1..])
  }

  // ---------------------------------------------------------------- numbers as text

  function DigitChar(d: nat): (c: char)
    requires d < 10
    ensures IsDigit(c) && c as int == '0' as int + d
  {
    ('0' as int + d) as char
  }

  /** Python `str(n)` for a non-negative integer. */
  function NatToString(n: nat): (s: string)
    ensures |s| >= 1 && AllDigits(s)
    ensures n >= 10 ==> s[0] != '0'
  {
    if n < 10 then [DigitChar(n)] else NatToString(n / 10) + [DigitChar(n % 10)]
  }

  /** Python `str(i)` for an integer. */
  function IntToString(i: int): (s: string)
    ensures |s| >= 1
  {
    if i < 0 then "-" + NatToString(-i) else NatToString(i)
  }
}
