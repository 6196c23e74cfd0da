/** Migration 0006: the normalisation of the instrument fields (`symbol`, `isin`, `mic`)
    persisted on transactions, together with the `portfolio_type`, `trade_date` and
    `transaction_uid` backfills it performs. Parsing of the free-form `symbol_or_isin`
    column is modelled as pure functions; the table is an array of rows updated in place,
    one pass per `UPDATE` statement or Python loop. */
module Instruments {
  import opened Base
  import opened Text
  import opened Identifiers
  import opened Backfill

  // ---------------------------------------------------------------- Euronext markets

  /** The Yahoo-style market suffixes and the Euronext MIC each one means. */
  const SuffixToMic: map<string, string> := map[
    "PA" := "XPAR", "PAR" := "XPAR", "AS" := "XAMS", "AMS" := "XAMS",
    "BR" := "XBRU", "BRU" := "XBRU", "LS" := "XLIS", "LIS" := "XLIS",
    "MI" := "XMIL", "MIL" := "XMIL", "IR" := "XDUB", "DU" := "XDUB"]

  /** The set of the suffix table's values. */
  const EuronextMics: set<string> := SuffixToMic.Values

  lemma EuronextMicsAre()
    ensures EuronextMics == {"XPAR", "XAMS", "XBRU", "XLIS", "XMIL", "XDUB"}
  {
    assert SuffixToMic["PA"] == "XPAR" && SuffixToMic["AS"] == "XAMS" && SuffixToMic["BR"] == "XBRU";
    assert SuffixToMic["LS"] == "XLIS" && SuffixToMic["MI"] == "XMIL" && SuffixToMic["IR"] == "XDUB";
  }

  /** Every Euronext MIC has the shape `X[A-Z0-9]{3}`. */
  lemma EuronextMicsAreIssueMics(m: string)
    requires m in EuronextMics
    ensures IsIssueMic(m)
  {
    EuronextMicsAre();
  }

  // ---------------------------------------------------------------- normalisers

  /** Python truthiness of an optional string. */
  predicate Truthy(o: Option<string>) { o.Some? && o.value != "" }

  /** `_normalize_symbol`: stripped and upper-cased, or nothing when blank. */
  function NormalizeSymbol(value: string): (r: Option<string>)
    ensures r.Some? <==> !IsBlank(value)
    ensures r.Some? ==> r.value != ""
  {
    if value == "" then None
    else
      var normalized := Upper(Strip(value));
      if normalized == "" then None else Some(normalized)
  }

  /** `_normalize_isin`: spaces removed, upper-cased, kept only when it matches the ISIN
      regular expression. */
  function NormalizeIsin(value: string): (r: Option<string>)
    ensures r.Some? ==> IsinRegexMatch(r.value) && r.value != ""
  {
    if value == "" then None
    else
      var normalized := Upper(RemoveSpaces(value));
      if IsinRegexMatch(normalized) then Some(normalized) else None
  }

  /** `_normalize_mic`: a known MIC or any `X???` code is kept, a known suffix becomes its
      MIC, anything else is kept upper-cased. */
  function NormalizeMic(value: string): (r: Option<string>)
    ensures r.Some? <==> !IsBlank(value)
    ensures r.Some? ==> r.value != ""
  {
    if value == "" then None
    else
      var upper := Upper(Strip(value));
      if upper == "" then None
      else if upper in EuronextMics || (|upper| == 4 && upper[0] == 'X') then Some(upper)
      else if upper in SuffixToMic then Some(SuffixToMic[upper])
      else Some(upper)
  }

  /** A value already in normal form: its own normalisation, with no surrounding blank. */
  predicate NormalSymbol(v: string) { NormalizeSymbol(v) == Some(v) && Strip(v) == v }
  predicate NormalIsin(v: string) { NormalizeIsin(v) == Some(v) && Strip(v) == v }
  predicate NormalMic(v: string) { NormalizeMic(v) == Some(v) && Strip(v) == v }

  lemma StripOfStripped(s: string)
    requires s == [] || (!IsSpace(s[0]) && !IsSpace(s[|s| - 1]))
    ensures Strip(s) == s
  {
  }

  /** `upper()` of a stripped string is still stripped. */
  lemma UpperKeepsStripped(s: string)
    ensures Strip(Upper(Strip(s))) == Upper(Strip(s))
  {
    StripUpperCommute(Strip(s));
    StripIdempotent(s);
  }

  lemma NormalizeSymbolNormal(value: string)
    requires NormalizeSymbol(value).Some?
    ensures NormalSymbol(NormalizeSymbol(value).value)
  {
    StripUpperIdempotent(value);
    UpperKeepsStripped(value);
  }

  lemma UpperAlnumIsNormalSymbol(v: string)
    requires v != "" && AllUpperAlnum(v)
    ensures NormalSymbol(v)
  {
    UpperAlnumStable(v);
  }

  lemma IsinShapeIsNormal(v: string)
    requires IsIsinShape(v)
    ensures NormalIsin(v)
  {
    IsinIsUpperAlnum(v);
    UpperAlnumStable(v);
  }

  lemma {:induction false} RemoveSpacesLast(s: string)
    requires s != [] && s[|s| - 1] != ' '
    ensures RemoveSpaces(s) != [] && RemoveSpaces(s)[|RemoveSpaces(s)| - 1] == s[|s| - 1]
  {
    if |s| > 1 {
      RemoveSpacesLast(s[1..]);
    }
  }

  /** On a stripped value the newline quirk of the ISIN expression cannot fire: what is
      kept is a twelve-character code, and already in normal form. */
  lemma NormalizeIsinOfStripped(value: string)
    requires value == [] || !IsSpace(value[|value| - 1])
    requires NormalizeIsin(value).Some?
    ensures IsIsinShape(NormalizeIsin(value).value)
    ensures NormalIsin(NormalizeIsin(value).value)
  {
    var n := NormalizeIsin(value).value;
    RemoveSpacesLast(value);
    assert n[|n| - 1] == UpperChar(value[|value| - 1]);
    IsinRegexOnTrimmed(n);
    IsinShapeIsNormal(n);
  }

  lemma NormalizeMicNormal(value: string)
    requires NormalizeMic(value).Some?
    ensures NormalMic(NormalizeMic(value).value)
  {
    var upper := Upper(Strip(value));
    var v := NormalizeMic(value).value;
    StripUpperIdempotent(value);
    UpperKeepsStripped(value);
    if v != upper {
      assert v in EuronextMics;
      EuronextMicsAreIssueMics(v);
      UpperAlnumStable(v);
    }
  }

  /** A non-blank MIC always normalises to something. */
  lemma NormalizeMicTotal(value: string)
    requires !IsBlank(value)
    ensures Truthy(NormalizeMic(value))
  {
  }

  // ---------------------------------------------------------------- the three patterns

  /** The separator class `[-_/]` of the patterns. */
  predicate IsSep(c: char) { c == '-' || c == '_' || c == '/' }

  /** The groups a pattern captures; `mic` is absent when its optional group did not take
      part in the match. */
  datatype Groups = Groups(symbol: string, isin: string, mic: Option<string>)

  /** `_EURONEXT_COMBINED_PATTERN`: `SYMBOL SEP ISIN`, optionally followed by `SEP` and a
      market of two to four `[A-Z0-9]`. */
  function MatchCombined(s: string): (r: Option<Groups>)
    ensures r.Some? ==> |r.value.symbol| > 0 && AllUpperAlnum(r.value.symbol) && IsIsinShape(r.value.isin)
    ensures r.Some? && r.value.mic.Some? ==> 2 <= |r.value.mic.value| <= 4 && AllUpperAlnum(r.value.mic.value)
    ensures r.Some? ==> |r.value.symbol| < |s| && IsSep(s[|r.value.symbol|])
    ensures r.Some? && r.value.mic.None? ==> s == r.value.symbol + [s[|r.value.symbol|]] + r.value.isin
    ensures r.Some? && r.value.mic.Some? ==>
      |s| > |r.value.symbol| + 13 && IsSep(s[|r.value.symbol| + 13])
      && s == r.value.symbol + [s[|r.value.symbol|]] + r.value.isin + [s[|r.value.symbol| + 13]] + r.value.mic.value
  {
    var n := UpperAlnumRun(s);
    if n == 0 || |s| < n + 13 || !IsSep(s[n]) || !IsIsinShape(s[n + 1..n + 13]) then None
    else if |s| == n + 13 then
      assert s == s[..n] + [s[n]] + s[n + 1..n + 13];
      Some(Groups(s[..n], s[n + 1..n + 13], None))
    else if IsSep(s[n + 13]) && 2 <= |s| - (n + 14) <= 4 && AllUpperAlnum(s[n + 14..]) then
      assert s == s[..n] + [s[n]] + s[n + 1..n + 13] + [s[n + 13]] + s[n + 14..];
      Some(Groups(s[..n], s[n + 1..n + 13], Some(s[n + 14..])))
    else None
  }

  /** `_EURONEXT_ISIN_MARKET_PATTERN`: `ISIN SEP MARKET`. */
  function MatchIsinMarket(s: string): (r: Option<(string, string)>)
    ensures r.Some? ==> IsIsinShape(r.value.0) && 2 <= |r.value.1| <= 4 && AllUpperAlnum(r.value.1)
    ensures r.Some? ==> |s| > 12 && s == r.value.0 + [s[12]] + r.value.1 && IsSep(s[12])
  {
    if 15 <= |s| <= 17 && IsIsinShape(s[..12]) && IsSep(s[12]) && AllUpperAlnum(s[13..]) then
      assert s == s[..12] + [s[12]] + s[13..];
      Some((s[..12], s[13..]))
    else None
  }

  /** `SYMBOL SEP ISIN [SEP MARKET]` written out from its groups. */
  function CombinedText(g: Groups, sep1: char, sep2: char): string {
    g.symbol + [sep1] + g.isin + (if g.mic.Some? then [sep2] + g.mic.value else [])
  }

  /** Every well-formed `SYMBOL SEP ISIN [SEP MARKET]` string is matched, with its own
      groups. */
  lemma MatchCombinedComplete(g: Groups, sep1: char, sep2: char)
    requires |g.symbol| > 0 && AllUpperAlnum(g.symbol) && IsIsinShape(g.isin)
    requires g.mic.Some? ==> 2 <= |g.mic.value| <= 4 && AllUpperAlnum(g.mic.value)
    requires IsSep(sep1) && IsSep(sep2)
    ensures MatchCombined(CombinedText(g, sep1, sep2)) == Some(g)
  {
    var s := CombinedText(g, sep1, sep2);
    var tail := if g.mic.Some? then [sep2] + g.mic.value else [];
    var rest := [sep1] + g.isin + tail;
    assert s == g.symbol + rest;
    UpperAlnumRunOf(g.symbol, rest);
    var n := |g.symbol|;
    assert s[..n] == g.symbol;
    assert s[n] == sep1;
    assert s[n + 1..n + 13] == g.isin;
    assert s[n + 13..] == tail;
    if g.mic.Some? {
      assert s[n + 13] == sep2;
      assert s[n + 14..] == g.mic.value;
    }
  }

  /** Every well-formed `ISIN SEP MARKET` string is matched, with its own parts. */
  lemma MatchIsinMarketComplete(isin: string, sep: char, mic: string)
    requires IsIsinShape(isin) && IsSep(sep) && 2 <= |mic| <= 4 && AllUpperAlnum(mic)
    ensures MatchIsinMarket(isin + [sep] + mic) == Some((isin, mic))
  {
    var s := isin + [sep] + mic;
    assert s[..12] == isin;
    assert s[12] == sep;
    assert s[13..] == mic;
  }

  // ---------------------------------------------------------------- symbol with market suffix

  /** The separators tried, in order, to split a `SYMBOL.SUFFIX` candidate. */
  const SuffixSeparators: seq<char> := ['-', '.', ':', '@', '/']

  /** One attempt of `_extract_symbol_mic`: split at the last `sep`, keep the pair when both
      the stripped upper-cased base and the normalised suffix are non-empty. */
  function SplitAt(candidate: string, sep: char): (r: Option<(string, string)>)
    ensures r.Some? ==> r.value.0 != "" && r.value.1 != ""
    ensures r.Some? ==> NormalSymbol(r.value.0) && NormalMic(r.value.1)
  {
    match LastIndexOf(candidate, sep)
    case None => None
    case Some(j) =>
      var base := Upper(Strip(candidate[..j]));
      var mic := NormalizeMic(candidate[j + 1..]);
      if base != "" && mic.Some? then
        UpperKeepsStripped(candidate[..j]);
        StripUpperIdempotent(candidate[..j]);
        NormalizeMicNormal(candidate[j + 1..]);
        Some((base, mic.value))
      else None
  }

  /** `_extract_symbol_mic` over the separators `seps`: the first one that yields. */
  function ExtractSymbolMicSpec(candidate: string, seps: seq<char>): (r: Option<(string, string)>)
    ensures r.Some? ==> r.value.0 != "" && r.value.1 != ""
    ensures r.Some? ==> NormalSymbol(r.value.0) && NormalMic(r.value.1)
    decreases |seps|
  {
    if seps == [] then None
    else
      var attempt := SplitAt(candidate, seps[0]);
      if attempt.Some? then attempt else ExtractSymbolMicSpec(candidate, seps[1..])
  }

  /** The search returns the split at the first separator that yields one, and nothing
      exactly when no separator yields. */
  lemma {:induction false} ExtractFirstHit(candidate: string, seps: seq<char>)
    ensures ExtractSymbolMicSpec(candidate, seps).None? <==>
      forall k :: 0 <= k < |seps| ==> SplitAt(candidate, seps[k]).None?
    ensures ExtractSymbolMicSpec(candidate, seps).Some? ==>
      exists k :: 0 <= k < |seps| && ExtractSymbolMicSpec(candidate, seps) == SplitAt(candidate, seps[k])
        && forall k' :: 0 <= k' < k ==> SplitAt(candidate, seps[k']).None?
    decreases |seps|
  {
    if seps != [] {
      ExtractFirstHit(candidate, seps[1..]);
      if SplitAt(candidate, seps[0]).None? {
        forall k | 1 <= k < |seps|
          ensures SplitAt(candidate, seps[k]) == SplitAt(candidate, seps[1..][k - 1])
        {
        }
        if ExtractSymbolMicSpec(candidate, seps).Some? {
          var k :| 0 <= k < |seps[1..]| && ExtractSymbolMicSpec(candidate, seps[1..]) == SplitAt(candidate, seps[1..][k])
            && forall k' :: 0 <= k' < k ==> SplitAt(candidate, seps[1..][k']).None?;
          assert seps[1..][k] == seps[k + 1];
          forall k' | 0 <= k' < k + 1
            ensures SplitAt(candidate, seps[k']).None?
          {
            if k' > 0 {
              assert seps[k'] == seps[1..][k' - 1];
            }
          }
        }
      }
    }
  }

  /** `_extract_symbol_mic`, a loop over the separators that returns at the first split
      giving both a symbol and a market. */
  method ExtractSymbolMic(candidate: string) returns (r: Option<(string, string)>)
    ensures r == ExtractSymbolMicSpec(candidate, SuffixSeparators)
  {
    for i := 0 to |SuffixSeparators|
      invariant ExtractSymbolMicSpec(candidate, SuffixSeparators) == ExtractSymbolMicSpec(candidate, SuffixSeparators[i..])
    {
      var separator := SuffixSeparators[i];
      assert SuffixSeparators[i..][1..] == SuffixSeparators[i + 1..];
      var j := LastIndexOf(candidate, separator);
      if j.Some? {
        var base := Upper(Strip(candidate[..j.value]));
        var mic := NormalizeMic(candidate[j.value + 1..]);
        if base != "" && mic.Some? {
          return Some((base, mic.value));
        }
      }
    }
    return None;
  }

  // ---------------------------------------------------------------- parsing symbol_or_isin

  /** The `(symbol, isin, mic)` triple recovered from a free-form identifier. */
  datatype Parsed = Parsed(symbol: Option<string>, isin: Option<string>, mic: Option<string>)

  const Nothing := Parsed(None, None, None)

  /** `_parse_symbol_or_isin`: nothing for a blank value, otherwise the patterns tried on
      the stripped, upper-cased value. */
  function ParseSymbolOrIsin(raw: string): (p: Parsed)
  {
    if raw == "" then Nothing
    else
      var normalized := Upper(Strip(raw));
      if normalized == "" then Nothing else ParsePatterns(normalized)
  }

  /** The patterns of `_parse_symbol_or_isin` in the source's order: issue string, symbol
      with ISIN, ISIN with market, bare ISIN, symbol with market suffix, plain symbol. */
  function ParsePatterns(normalized: string): (p: Parsed)
  {
    var issue := MatchIssue(normalized, IsSep);
    if issue.Some? then
      Parsed(Some(issue.value.symbol), Some(issue.value.isin), NormalizeMic(issue.value.mic))
    else
      var combined := MatchCombined(normalized);
      if combined.Some? then
        var g := combined.value;
        Parsed(Some(g.symbol), Some(g.isin), if g.mic.Some? then NormalizeMic(g.mic.value) else None)
      else
        var isinMarket := MatchIsinMarket(normalized);
        if isinMarket.Some? then
          Parsed(None, Some(isinMarket.value.0), NormalizeMic(isinMarket.value.1))
        else if IsinRegexMatch(normalized) then Parsed(None, Some(normalized), None)
        else
          var symbolMic := ExtractSymbolMicSpec(normalized, SuffixSeparators);
          if symbolMic.Some? then Parsed(Some(symbolMic.value.0), None, Some(symbolMic.value.1))
          else Parsed(Some(normalized), None, None)
  }

  /** A parsed value is truthy and already in the normal form of its field. */
  predicate ParsedNormal(p: Parsed) {
    (p.symbol.Some? ==> p.symbol.value != "" && NormalSymbol(p.symbol.value))
    && (p.isin.Some? ==> IsIsinShape(p.isin.value) && NormalIsin(p.isin.value))
    && (p.mic.Some? ==> p.mic.value != "" && NormalMic(p.mic.value))
  }

  lemma MicGroupNormal(m: string)
    requires m != "" && AllUpperAlnum(m)
    ensures NormalizeMic(m).Some? && NormalMic(NormalizeMic(m).value)
  {
    UpperAlnumStable(m);
    NormalizeMicNormal(m);
  }

  lemma ParsePatternsNormal(normalized: string)
    requires normalized != "" && NormalSymbol(normalized)
    ensures ParsedNormal(ParsePatterns(normalized))
  {
    var issue := MatchIssue(normalized, IsSep);
    var combined := MatchCombined(normalized);
    var isinMarket := MatchIsinMarket(normalized);
    if issue.Some? {
      UpperAlnumIsNormalSymbol(issue.value.symbol);
      IsinShapeIsNormal(issue.value.isin);
      MicGroupNormal(issue.value.mic);
    } else if combined.Some? {
      UpperAlnumIsNormalSymbol(combined.value.symbol);
      IsinShapeIsNormal(combined.value.isin);
      if combined.value.mic.Some? {
        MicGroupNormal(combined.value.mic.value);
      }
    } else if isinMarket.Some? {
      IsinShapeIsNormal(isinMarket.value.0);
      MicGroupNormal(isinMarket.value.1);
    } else if IsinRegexMatch(normalized) {
      IsinRegexOnTrimmed(normalized);
      IsinShapeIsNormal(normalized);
    }
  }

  lemma ParseIsNormal(raw: string)
    ensures ParsedNormal(ParseSymbolOrIsin(raw))
  {
    if raw != "" && Upper(Strip(raw)) != "" {
      NormalizeSymbolNormal(raw);
      ParsePatternsNormal(Upper(Strip(raw)));
    }
  }

  lemma ParseBlank(raw: string)
    requires IsBlank(raw)
    ensures ParseSymbolOrIsin(raw) == Nothing
  {
  }

  /** A bare ISIN yields only the ISIN. */
  lemma ParseBareIsin(raw: string)
    requires IsIsinShape(Upper(Strip(raw)))
    ensures ParseSymbolOrIsin(raw) == Parsed(None, Some(Upper(Strip(raw))), None)
  {
  }

  /** An issue string `SYMBOL-ISIN-XMIC` (with any of the separators `-`, `_`, `/`) yields
      its three parts. */
  lemma ParseIssue(i: Issue, sep1: char, sep2: char)
    requires WellFormedIssue(i) && IsSep(sep1) && IsSep(sep2)
    ensures ParseSymbolOrIsin(IssueText(i, sep1, sep2)) == Parsed(Some(i.symbol), Some(i.isin), Some(i.mic))
  {
    IssueTextIsNormal(i, sep1, sep2);
    MatchIssueComplete(i, sep1, sep2, IsSep);
    UpperAlnumStable(i.mic);
  }

  /** Nothing recognisable: the whole stripped, upper-cased value is the symbol. */
  lemma ParseFallback(raw: string)
    requires var n := Upper(Strip(raw));
      n != "" && MatchIssue(n, IsSep).None? && MatchCombined(n).None? && MatchIsinMarket(n).None?
      && !IsinRegexMatch(n) && forall k :: 0 <= k < |SuffixSeparators| ==> SplitAt(n, SuffixSeparators[k]).None?
    ensures ParseSymbolOrIsin(raw) == Parsed(Some(Upper(Strip(raw))), None, None)
  {
    ExtractFirstHit(Upper(Strip(raw)), SuffixSeparators);
    assert raw != "";
  }

  lemma SuffixNoPattern()
    ensures MatchIssue("MC.PA", IsSep).None? && MatchCombined("MC.PA").None?
    ensures MatchIsinMarket("MC.PA").None? && !IsinRegexMatch("MC.PA")
  {
    assert UpperAlnumRun("MC.PA") == 2 by {
      UpperAlnumRunOf("MC", ".PA");
      assert "MC.PA" == "MC" + ".PA";
    }
  }

  lemma SuffixKeys()
    ensures SuffixToMic.Keys == {"PA", "PAR", "AS", "AMS", "BR", "BRU", "LS", "LIS", "MI", "MIL", "IR", "DU"}
  {
  }

  lemma NormalizeSuffixExample()
    ensures NormalizeMic("PA") == Some("XPAR")
  {
    UpperAlnumStable("PA");
    assert "PA" !in EuronextMics by { EuronextMicsAre(); }
  }

  lemma SuffixSplit()
    ensures SplitAt("MC.PA", '-').None? && SplitAt("MC.PA", '.') == Some(("MC", "XPAR"))
  {
    assert LastIndexOf("MC.PA", '.') == Some(2);
    assert "MC.PA"[..2] == "MC" && "MC.PA"[3..] == "PA";
    UpperAlnumStable("MC");
    NormalizeSuffixExample();
  }

  lemma SuffixPatternsExample()
    ensures ParsePatterns("MC.PA") == Parsed(Some("MC"), None, Some("XPAR"))
  {
    SuffixNoPattern();
    SuffixSplit();
  }

  /** Non-blank input is matched against the patterns in its normal form. */
  lemma ParseOfNormalized(raw: string, normalized: string)
    requires raw != "" && normalized == Upper(Strip(raw)) && normalized != ""
    ensures ParseSymbolOrIsin(raw) == ParsePatterns(normalized)
  {
  }

  lemma SuffixNormalized()
    ensures Upper(Strip(" mc.pa ")) == "MC.PA"
  {
    assert TrimStart(" mc.pa ", IsSpace) == "mc.pa ";
    assert TrimEnd("mc.pa ", IsSpace) == "mc.pa";
    assert Upper("mc.pa") == "MC.PA";
  }

  lemma ParseSuffixExample()
    ensures ParseSymbolOrIsin(" mc.pa ") == Parsed(Some("MC"), None, Some("XPAR"))
  {
    SuffixNormalized();
    ParseOfNormalized(" mc.pa ", "MC.PA");
    SuffixPatternsExample();
  }

  lemma CurrencyPairNoPattern()
    ensures MatchIssue("BTC-USD", IsSep).None? && MatchCombined("BTC-USD").None?
    ensures MatchIsinMarket("BTC-USD").None? && !IsinRegexMatch("BTC-USD")
  {
    assert UpperAlnumRun("BTC-USD") == 3 by {
      UpperAlnumRunOf("BTC", "-USD");
      assert "BTC-USD" == "BTC" + "-USD";
    }
  }

  /** An upper-case code that is no MIC and no suffix is kept as the MIC. */
  lemma NormalizeMicPlain(v: string)
    requires v != [] && AllUpperAlnum(v) && v !in SuffixToMic
    requires v !in EuronextMics && !(|v| == 4 && v[0] == 'X')
    ensures NormalizeMic(v) == Some(v)
  {
    UpperAlnumStable(v);
  }

  /** No market suffix starts with `U`. */
  lemma NoSuffixStartsWithU()
    ensures forall k :: k in SuffixToMic ==> |k| > 0 && k[0] != 'U'
  {
    SuffixKeys();
  }

  lemma NormalizeCurrencyExample()
    ensures NormalizeMic("USD") == Some("USD")
  {
    assert AllUpperAlnum("USD");
    assert "USD" !in EuronextMics by { EuronextMicsAre(); }
    assert "USD" !in SuffixToMic by {
      NoSuffixStartsWithU();
      assert "USD"[0] == 'U';
    }
    NormalizeMicPlain("USD");
  }

  lemma CurrencyPairDash()
    ensures LastIndexOf("BTC-USD", '-') == Some(3)
  {
    assert "BTC-USD"[3] == '-';
    assert forall j :: 0 <= j < 7 && j != 3 ==> "BTC-USD"[j] != '-';
  }

  lemma CurrencyPairSplit()
    ensures SplitAt("BTC-USD", '-') == Some(("BTC", "USD"))
  {
    CurrencyPairDash();
    assert "BTC-USD"[..3] == "BTC" && "BTC-USD"[4..] == "USD";
    UpperAlnumStable("BTC");
    NormalizeCurrencyExample();
  }

  /** A currency pair is split at its dash like a market suffix: the quote currency lands
      in the `mic` field. */
  lemma ParseCurrencyPairExample()
    ensures ParsePatterns("BTC-USD") == Parsed(Some("BTC"), None, Some("USD"))
  {
    CurrencyPairNoPattern();
    CurrencyPairSplit();
  }

  // ---------------------------------------------------------------- the transactions table

  /** The columns of a transaction row that the migration reads or writes; a column the
      table lacks is never read and always absent (`None`). Timestamps are opaque. */
  datatype TxRow = TxRow(
    id: int,
    symbolOrIsin: Option<string>,
    symbol: Option<string>,
    isin: Option<string>,
    mic: Option<string>,
    transactionUid: Option<string>,
    portfolioType: Option<string>,
    tradeDate: Option<int>,
    createdAt: Option<int>,
    ts: Option<int>)

  /** The `updates` dictionary of one row: `None` means the key is not set. */
  datatype Updates = Updates(symbol: Option<string>, isin: Option<string>, mic: Option<string>)

  const NoUpdates := Updates(None, None, None)

  /** The stripped stored values, `(row.x or "").strip()`. */
  function RawSymbol(row: TxRow): string { Strip(row.symbol.GetOr("")) }
  function RawIsin(row: TxRow): string { Strip(row.isin.GetOr("")) }
  function RawMic(row: TxRow): string { Strip(row.mic.GetOr("")) }

  /** A normalised value is written when it is truthy and differs from the stripped one. */
  function Changed(normalized: Option<string>, raw: string): Option<string> {
    if Truthy(normalized) && normalized.value != raw then normalized else None
  }

  /** The fallback value is written when it is truthy and the field still has none. */
  function Fill(current: Option<string>, pending: Option<string>, fallback: Option<string>): Option<string> {
    if Truthy(fallback) && !Truthy(current) then fallback else pending
  }

  /** One iteration of the row loop of `upgrade()`: normalise each field in place, then
      consult `symbol_or_isin` when one of the three is still missing. */
  function InstrumentUpdates(row: TxRow): Updates {
    var rawSymbol := RawSymbol(row);
    var rawIsin := RawIsin(row);
    var rawMic := RawMic(row);
    var normalizedSymbol := NormalizeSymbol(rawSymbol);
    var normalizedIsin := NormalizeIsin(rawIsin);
    var normalizedMic := NormalizeMic(rawMic);
    var symbolUpdate := Changed(normalizedSymbol, rawSymbol);
    var isinUpdate := Changed(normalizedIsin, rawIsin);
    var micUpdate :=
      if Truthy(normalizedMic) && normalizedMic.value != rawMic then normalizedMic
      else if rawMic != "" && !Truthy(normalizedMic) then Some(Upper(Strip(rawMic)))
      else None;
    var currentMic := if micUpdate.Some? then micUpdate else normalizedMic;
    if Truthy(normalizedSymbol) && Truthy(normalizedIsin) && Truthy(currentMic) then
      Updates(symbolUpdate, isinUpdate, micUpdate)
    else
      var fallback := ParseSymbolOrIsin(row.symbolOrIsin.GetOr(""));
      Updates(Fill(normalizedSymbol, symbolUpdate, fallback.symbol),
              Fill(normalizedIsin, isinUpdate, fallback.isin),
              Fill(currentMic, micUpdate, fallback.mic))
  }

  /** `UPDATE transactions SET **updates WHERE id = row.id`. */
  function ApplyUpdates(row: TxRow, u: Updates): TxRow {
    row.(symbol := if u.symbol.Some? then u.symbol else row.symbol,
         isin := if u.isin.Some? then u.isin else row.isin,
         mic := if u.mic.Some? then u.mic else row.mic)
  }

  /** The branch that would store a MIC the normaliser rejected never runs: a non-blank MIC
      always normalises. */
  lemma MicRejectBranchDead(row: TxRow)
    requires RawMic(row) != ""
    ensures Truthy(NormalizeMic(RawMic(row)))
  {
    StripIdempotent(row.mic.GetOr(""));
    NormalizeMicTotal(RawMic(row));
  }

  /** What the pass writes into each field: the field's own normal form when it has a
      usable value that is not yet normal, otherwise the value parsed from
      `symbol_or_isin`; and the parsed value is written whenever the field has no usable
      value of its own. */
  lemma InstrumentWrites(row: TxRow)
    ensures var u := InstrumentUpdates(row);
      var p := ParseSymbolOrIsin(row.symbolOrIsin.GetOr(""));
      var ns := NormalizeSymbol(RawSymbol(row));
      var ni := NormalizeIsin(RawIsin(row));
      var nm := NormalizeMic(RawMic(row));
      (u.symbol.Some? ==> (Truthy(ns) && u.symbol == ns && ns.value != RawSymbol(row)) || (!Truthy(ns) && u.symbol == p.symbol))
      && (u.isin.Some? ==> (Truthy(ni) && u.isin == ni && ni.value != RawIsin(row)) || (!Truthy(ni) && u.isin == p.isin))
      && (u.mic.Some? ==> (Truthy(nm) && u.mic == nm && nm.value != RawMic(row)) || (!Truthy(nm) && u.mic == p.mic))
      && (!Truthy(ns) && Truthy(p.symbol) ==> u.symbol == p.symbol)
      && (!Truthy(ni) && Truthy(p.isin) ==> u.isin == p.isin)
      && (!Truthy(nm) && Truthy(p.mic) ==> u.mic == p.mic)
  {
    if RawMic(row) != "" {
      MicRejectBranchDead(row);
    }
  }

  /** A field whose stored value is, up to surrounding blanks, already in normal form is
      never written; in particular surrounding blanks on an otherwise normal value stay. */
  lemma NormalFieldsKept(row: TxRow)
    ensures NormalizeSymbol(RawSymbol(row)) == Some(RawSymbol(row)) ==> InstrumentUpdates(row).symbol.None?
    ensures NormalizeIsin(RawIsin(row)) == Some(RawIsin(row)) ==> InstrumentUpdates(row).isin.None?
    ensures NormalizeMic(RawMic(row)) == Some(RawMic(row)) ==> InstrumentUpdates(row).mic.None?
  {
    InstrumentWrites(row);
  }

  lemma SurroundingBlanksKeptExample(row: TxRow)
    requires row.symbol == Some(" ACME ")
    ensures InstrumentUpdates(row).symbol.None?
  {
    assert Strip(" ACME ") == "ACME";
    assert Upper("ACME") == "ACME";
    NormalFieldsKept(row);
  }

  /** Everything the pass writes is truthy and already normal. */
  lemma InstrumentWritesNormal(row: TxRow)
    ensures var u := InstrumentUpdates(row);
      (u.symbol.Some? ==> u.symbol.value != "" && NormalSymbol(u.symbol.value))
      && (u.isin.Some? ==> NormalIsin(u.isin.value))
      && (u.mic.Some? ==> u.mic.value != "" && NormalMic(u.mic.value))
  {
    InstrumentWrites(row);
    ParseIsNormal(row.symbolOrIsin.GetOr(""));
    SymbolWriteNormal(row);
    IsinWriteNormal(row);
    MicWriteNormal(row);
  }

  lemma SymbolWriteNormal(row: TxRow)
    requires ParsedNormal(ParseSymbolOrIsin(row.symbolOrIsin.GetOr("")))
    ensures var u := InstrumentUpdates(row); u.symbol.Some? ==> u.symbol.value != "" && NormalSymbol(u.symbol.value)
  {
    InstrumentWrites(row);
    if NormalizeSymbol(RawSymbol(row)).Some? {
      NormalizeSymbolNormal(RawSymbol(row));
    }
  }

  lemma IsinWriteNormal(row: TxRow)
    requires ParsedNormal(ParseSymbolOrIsin(row.symbolOrIsin.GetOr("")))
    ensures var u := InstrumentUpdates(row); u.isin.Some? ==> NormalIsin(u.isin.value)
  {
    InstrumentWrites(row);
    if NormalizeIsin(RawIsin(row)).Some? {
      assert RawIsin(row) == [] || !IsSpace(RawIsin(row)[|RawIsin(row)| - 1]);
      NormalizeIsinOfStripped(RawIsin(row));
    }
  }

  lemma MicWriteNormal(row: TxRow)
    requires ParsedNormal(ParseSymbolOrIsin(row.symbolOrIsin.GetOr("")))
    ensures var u := InstrumentUpdates(row); u.mic.Some? ==> u.mic.value != "" && NormalMic(u.mic.value)
  {
    InstrumentWrites(row);
    if NormalizeMic(RawMic(row)).Some? {
      NormalizeMicNormal(RawMic(row));
    }
  }

  /** A field in normal form reads back as itself. */
  lemma NormalReadsBack(v: string)
    ensures Strip(Some(v).GetOr("")) == Strip(v)
  {
  }

  /** Running the pass a second time changes nothing. */
  lemma InstrumentUpdatesIdempotent(row: TxRow)
    ensures InstrumentUpdates(ApplyUpdates(row, InstrumentUpdates(row))) == NoUpdates
  {
    var u := InstrumentUpdates(row);
    var row2 := ApplyUpdates(row, u);
    InstrumentWrites(row);
    InstrumentWritesNormal(row);
    InstrumentWrites(row2);
    var ns := NormalizeSymbol(RawSymbol(row));
    var ni := NormalizeIsin(RawIsin(row));
    var nm := NormalizeMic(RawMic(row));
    assert row2.symbolOrIsin == row.symbolOrIsin;
    // After the pass, a field holds a truthy normal value exactly when it did before or
    // the fallback supplied one.
    if u.symbol.Some? {
      assert RawSymbol(row2) == u.symbol.value;
    }
    if u.isin.Some? {
      assert RawIsin(row2) == u.isin.value;
    }
    if u.mic.Some? {
      assert RawMic(row2) == u.mic.value;
    }
    var u2 := InstrumentUpdates(row2);
    if u2.symbol.Some? {
      assert false;
    }
    if u2.isin.Some? {
      assert false;
    }
    if u2.mic.Some? {
      assert false;
    }
  }

  // ---------------------------------------------------------------- the other backfills

  /** `COALESCE(NULLIF(UPPER(TRIM(portfolio_type)), ''), 'PEA')`. */
  function PortfolioTypeSql(portfolioType: Option<string>): (r: string)
    ensures r != ""
  {
    match portfolioType
    case None => "PEA"
    case Some(t) => var u := Upper(SqlTrim(t)); if u == "" then "PEA" else u
  }

  lemma {:induction false} TrimStartSpaceUpper(s: string)
    ensures TrimStart(Upper(s), IsSpaceChar) == Upper(TrimStart(s, IsSpaceChar))
  {
    if s != [] {
      assert Upper(s)[0] == UpperChar(s[0]);
      if s[0] == ' ' {
        assert Upper(s)[1..] == Upper(s[1..]);
        TrimStartSpaceUpper(s[1..]);
      }
    }
  }

  lemma {:induction false} TrimEndSpaceUpper(s: string)
    ensures TrimEnd(Upper(s), IsSpaceChar) == Upper(TrimEnd(s, IsSpaceChar))
  {
    if s != [] {
      assert Upper(s)[|s| - 1] == UpperChar(s[|s| - 1]);
      if s[|s| - 1] == ' ' {
        assert Upper(s)[..|s| - 1] == Upper(s[..|s| - 1]);
        TrimEndSpaceUpper(s[..|s| - 1]);
      }
    }
  }

  /** SQL `TRIM` and `UPPER` commute. */
  lemma SqlTrimUpper(s: string)
    ensures SqlTrim(Upper(s)) == Upper(SqlTrim(s))
  {
    TrimStartSpaceUpper(s);
    TrimEndSpaceUpper(TrimStart(s, IsSpaceChar));
  }

  /** The backfilled type is never empty, a missing or blank one becomes `PEA`, and the
      statement is idempotent. */
  lemma PortfolioTypeSqlProperties(portfolioType: Option<string>)
    ensures portfolioType.None? || IsBlankSql(portfolioType.value) ==> PortfolioTypeSql(portfolioType) == "PEA"
    ensures PortfolioTypeSql(Some(PortfolioTypeSql(portfolioType))) == PortfolioTypeSql(portfolioType)
  {
    var r := PortfolioTypeSql(portfolioType);
    if r == "PEA" {
      assert SqlTrim("PEA") == "PEA";
      assert Upper("PEA") == "PEA";
    } else {
      var t := portfolioType.value;
      SqlTrimUpper(SqlTrim(t));
      TrimIdempotent(t, IsSpaceChar);
      UpperIdempotent(SqlTrim(t));
    }
  }

  predicate IsBlankSql(s: string) { SqlTrim(s) == "" }

  /** The `transaction_uid` loop of 0006: a blank identifier becomes `legacy-tx-<id>`, a
      non-blank one is stored stripped. */
  function UidRow(row: TxRow): (r: TxRow)
    ensures r == row.(transactionUid := r.transactionUid)
    ensures r.transactionUid.Some? && r.transactionUid.value != ""
    ensures !IsBlank(row.transactionUid.GetOr("")) ==> r.transactionUid == Some(Strip(row.transactionUid.value))
    ensures IsBlank(row.transactionUid.GetOr("")) ==> r.transactionUid == Some(LegacyUid(row.id))
  {
    var current := Strip(row.transactionUid.GetOr(""));
    var updated := if current != "" then current else LegacyUid(row.id);
    if Some(updated) != row.transactionUid then row.(transactionUid := Some(updated)) else row
  }

  lemma UidRowIdempotent(row: TxRow)
    ensures UidRow(UidRow(row)) == UidRow(row)
  {
    StripIdempotent(row.transactionUid.GetOr(""));
    var r := UidRow(row);
    if IsBlank(row.transactionUid.GetOr("")) {
      var l := LegacyUid(row.id);
      assert l[0] == 'l';
      assert !IsSpace(l[0]) && !IsSpace(l[|l| - 1]) by {
        assert l[|l| - 1] == IntToString(row.id)[|IntToString(row.id)| - 1];
      }
      StripOfStripped(l);
    }
  }

  /** The column sets each pass needs. */
  predicate HasInstrumentColumns(columns: set<string>) {
    {"symbol_or_isin", "symbol", "isin", "mic"} <= columns
  }

  function PortfolioTypePass(row: TxRow, columns: set<string>): TxRow {
    if "portfolio_type" in columns then row.(portfolioType := Some(PortfolioTypeSql(row.portfolioType))) else row
  }

  function TradeDatePass(row: TxRow, columns: set<string>, now: int): TxRow {
    if "trade_date" in columns then
      row.(tradeDate := Some(FillTradeDate(row.tradeDate, row.createdAt, row.ts,
                                           "created_at" in columns, "ts" in columns, now)))
    else row
  }

  function UidPass(row: TxRow, columns: set<string>): TxRow {
    if "transaction_uid" in columns then UidRow(row) else row
  }

  function InstrumentPass(row: TxRow, columns: set<string>): TxRow {
    if HasInstrumentColumns(columns) then ApplyUpdates(row, InstrumentUpdates(row)) else row
  }

  /** The instrument pass writes only `symbol`, `isin` and `mic`. */
  lemma InstrumentPassKeeps(row: TxRow, columns: set<string>)
    ensures var r := InstrumentPass(row, columns); r == row.(symbol := r.symbol, isin := r.isin, mic := r.mic)
  {
  }

  /** The whole migration on one row, in the order of `upgrade()`. */
  function UpgradeRow(row: TxRow, columns: set<string>, now: int): TxRow {
    InstrumentPass(UidPass(TradeDatePass(PortfolioTypePass(row, columns), columns, now), columns), columns)
  }

  /** Running the whole migration again, at any later time, leaves every row as it is. */
  lemma UpgradeRowIdempotent(row: TxRow, columns: set<string>, now: int, later: int)
    ensures UpgradeRow(UpgradeRow(row, columns, now), columns, later) == UpgradeRow(row, columns, now)
  {
    var once := UpgradeRow(row, columns, now);
    PortfolioTypeSqlProperties(row.portfolioType);
    var p := PortfolioTypePass(row, columns);
    var t := TradeDatePass(p, columns, now);
    FillTradeDateIdempotent(p.tradeDate, p.createdAt, p.ts, "created_at" in columns, "ts" in columns, now, later);
    var u := UidPass(t, columns);
    UidRowIdempotent(t);
    InstrumentUpdatesIdempotent(u);
    InstrumentPassKeeps(u, columns);
    assert once == InstrumentPass(u, columns);
    var p2 := PortfolioTypePass(once, columns);
    assert p2 == once;
    var t2 := TradeDatePass(p2, columns, later);
    assert t2 == once;
    var u2 := UidPass(t2, columns);
    if "transaction_uid" in columns {
      assert UidRow(once) == once by {
        assert once.transactionUid == u.transactionUid && once.id == u.id;
      }
    }
    assert u2 == once;
  }

  /** `upgrade()`: the passes run in the source's order, each guarded by the columns it
      needs; `now` is the value of `CURRENT_TIMESTAMP`. */
  method Upgrade(rows: array<TxRow>, columns: set<string>, now: int)
    modifies rows
    ensures forall i :: 0 <= i < rows.Length ==> rows[i] == UpgradeRow(old(rows[i]), columns, now)
  {
    MapRows(rows, row => PortfolioTypePass(row, columns));
    MapRows(rows, row => TradeDatePass(row, columns, now));
    MapRows(rows, row => UidPass(row, columns));
    MapRows(rows, row => InstrumentPass(row, columns));
  }
}
