/** The Euronext client: identifier validation, the extraction of a price from a quote
    payload, the extraction and selection of instrument candidates from search and lookup
    payloads, and the four read-through caches. What the HTTP endpoints answer is a
    parameter of each operation: either the decoded JSON payload or the failure the request
    ended with. Logging is not modelled. */
module Euronext {
  import opened Base
  import opened Text
  import opened Identifiers
  import Instruments

  // ---------------------------------------------------------------- payloads and failures

  /** A decoded JSON value; `JNull` also stands for a key that is absent. */
  datatype Json =
    | JNull
    | JBool(b: bool)
    | JNum(n: real)
    | JStr(s: string)
    | JArr(items: seq<Json>)
    | JObj(fields: map<string, Json>)

  /** A JSON object, as the candidates are. */
  type Candidate = map<string, Json>

  /** `dict.get(key)`. */
  function Get(c: Candidate, key: string): (v: Json)
    ensures key !in c ==> v == JNull
  {
    if key in c then c[key] else JNull
  }

  /** Why an operation fails. Every case but `NotAString` is an `EuronextAPIError`;
      `NotAString` is the `AttributeError` raised by `strip()` on a truthy non-string. */
  datatype Failure =
    | MissingIdentifier | UnsupportedIdentifier | UnknownMarket
    | UnexpectedPayload | MissingPrice | InvalidPrice | UnsupportedCurrency
    | MissingIsin | InvalidIsin | MissingSymbol | NoInstrument
    | RequestFailed | InvalidJson
    | NotAString

  /** The MICs of the Euronext markets. */
  const EuronextMics: set<string> := {"XPAR", "XAMS", "XBRU", "XLIS", "XMIL", "XDUB"}

  /** The client and migration 0006 agree on the Euronext markets. */
  lemma MicSetsAgree()
    ensures EuronextMics == Instruments.EuronextMics
  {
    Instruments.EuronextMicsAre();
  }

  // ---------------------------------------------------------------- `_normalize`

  /** Python truthiness of a JSON value. */
  predicate Falsy(v: Json) {
    v == JNull || v == JBool(false) || v == JNum(0.0) || v == JStr("") || v == JArr([]) || v == JObj(map[])
  }

  /** `_normalize` on a string argument. */
  function Normalize(value: string): (r: string)
    ensures r == [] || (!IsSpace(r[0]) && !IsSpace(r[|r| - 1]))
    ensures (r == "") <==> IsBlank(value)
  {
    Instruments.UpperKeepsStripped(value);
    Upper(Strip(value))
  }

  /** `_normalize(candidate.get(key))`: a missing or falsy value is `""`, a string is
      stripped and upper-cased, and any other truthy value makes `strip()` raise. */
  function NormalizeJson(v: Json): (r: Result<string, Failure>)
    ensures r.Err? <==> !Falsy(v) && !v.JStr?
    ensures r.Err? ==> r.error == NotAString
    ensures v.JStr? ==> r == Ok(Normalize(v.s))
  {
    if Falsy(v) then Ok("")
    else if v.JStr? then Ok(Normalize(v.s))
    else Err(NotAString)
  }

  function Field(c: Candidate, key: string): Result<string, Failure> {
    NormalizeJson(Get(c, key))
  }

  lemma NormalizeIdempotent(value: string)
    ensures Normalize(Normalize(value)) == Normalize(value)
  {
    StripUpperIdempotent(value);
  }

  // ---------------------------------------------------------------- `_resolve_params`

  /** What `_resolve_params` returns: the query parameters, the cache key and the aliases. */
  datatype Resolved = Resolved(params: map<string, string>, cacheKey: string, aliases: seq<string>)

  predicate IsDash(c: char) { c == '-' }

  /** Only `SYMBOL-ISIN-XMIC` with dashes and a Euronext MIC is accepted. */
  function ResolveParams(identifier: string): (r: Result<Resolved, Failure>)
    ensures r.Err? ==> r.error in {MissingIdentifier, UnsupportedIdentifier, UnknownMarket}
    ensures r.Ok? ==> r.value.params == map["issue" := r.value.cacheKey] && r.value.aliases == []
  {
    var normalized := Normalize(identifier);
    if normalized == "" then Err(MissingIdentifier)
    else
      var m := MatchIssue(normalized, IsDash);
      if m.None? then Err(UnsupportedIdentifier)
      else if m.value.mic !in EuronextMics then Err(UnknownMarket)
      else
        var issue := m.value.symbol + "-" + m.value.isin + "-" + m.value.mic;
        Ok(Resolved(map["issue" := issue], issue, []))
  }

  /** The issue string sent is the normalised identifier itself. */
  lemma ResolveRoundTrip(identifier: string)
    requires ResolveParams(identifier).Ok?
    ensures ResolveParams(identifier).value.cacheKey == Normalize(identifier)
  {
    MatchIssueSound(Normalize(identifier), IsDash);
  }

  /** The identifiers accepted are exactly the issues with a Euronext MIC written with two
      dashes, up to surrounding blanks and letter case. */
  lemma ResolveAcceptsExactly(identifier: string)
    ensures ResolveParams(identifier).Ok? <==>
      exists i :: WellFormedIssue(i) && i.mic in EuronextMics && Normalize(identifier) == IssueText(i, '-', '-')
  {
    var n := Normalize(identifier);
    if ResolveParams(identifier).Ok? {
      MatchIssueSound(n, IsDash);
      var i := MatchIssue(n, IsDash).value;
      assert WellFormedIssue(i) && i.mic in EuronextMics && n == IssueText(i, '-', '-');
    }
    if exists i :: WellFormedIssue(i) && i.mic in EuronextMics && n == IssueText(i, '-', '-') {
      var i :| WellFormedIssue(i) && i.mic in EuronextMics && n == IssueText(i, '-', '-');
      MatchIssueComplete(i, '-', '-', IsDash);
    }
  }

  /** A bare ISIN is not an accepted identifier. */
  lemma ResolveRejectsBareIsin(identifier: string)
    requires IsIsinShape(Normalize(identifier))
    ensures ResolveParams(identifier) == Err(UnsupportedIdentifier)
  {
  }

  /** Nor is a symbol with a market suffix. */
  lemma ResolveRejectsSuffix()
    ensures ResolveParams("MC.PA") == Err(UnsupportedIdentifier)
  {
    assert Strip("MC.PA") == "MC.PA";
    assert Upper("MC.PA") == "MC.PA";
  }

  /** Surrounding blanks are accepted, and the issue sent is the identifier without them. */
  lemma ResolvePadded(i: Issue)
    requires WellFormedIssue(i) && i.mic in EuronextMics
    ensures ResolveParams([' '] + IssueText(i, '-', '-') + [' ']).Ok?
    ensures ResolveParams([' '] + IssueText(i, '-', '-') + [' ']).value.cacheKey == IssueText(i, '-', '-')
  {
    var t := IssueText(i, '-', '-');
    var padded := [' '] + t + [' '];
    assert padded[1..] == t + [' '];
    assert TrimStart(padded, IsSpace) == TrimStart(t + [' '], IsSpace);
    IssueTextIsNormal(i, '-', '-');
    assert t[0] == i.symbol[0];
    assert TrimStart(t + [' '], IsSpace) == t + [' '];
    assert (t + [' '])[..|t|] == t;
    assert TrimEnd(t + [' '], IsSpace) == TrimEnd(t, IsSpace);
    assert Strip(padded) == Strip(t);
    MatchIssueComplete(i, '-', '-', IsDash);
    ResolveRoundTrip(padded);
  }

  lemma ResolveExample()
    ensures var i := Issue("AIR", "NL0000235190", "XPAR");
      ResolveParams([' '] + IssueText(i, '-', '-') + [' ']).Ok?
  {
    ResolvePadded(Issue("AIR", "NL0000235190", "XPAR"));
  }

  // ---------------------------------------------------------------- `_extract_price`

  /** `float(price)` for a value that is not `None`; how a string converts is the
      parameter `parseFloat`. */
  function ToFloat(v: Json, parseFloat: string -> Option<real>): (r: Result<real, Failure>)
    ensures r.Err? ==> r.error == InvalidPrice
  {
    match v
    case JNum(n) => Ok(n)
    case JBool(b) => Ok(if b then 1.0 else 0.0)
    case JStr(s) => if parseFloat(s).Some? then Ok(parseFloat(s).value) else Err(InvalidPrice)
    case _ => Err(InvalidPrice)
  }

  /** The quote object: `payload["data"]` when the payload is an object with a non-null
      `data`, otherwise the payload itself. */
  function QuoteData(payload: Json): Json {
    var data := if payload.JObj? then Get(payload.fields, "data") else JNull;
    if data == JNull then payload else data
  }

  /** A currency is accepted when it is not a non-blank string, or is EUR / EURO. */
  predicate CurrencyAccepted(currency: Json) {
    !currency.JStr? || IsBlank(currency.s) || Normalize(currency.s) in {"EUR", "EURO"}
  }

  function ExtractPrice(payload: Json, parseFloat: string -> Option<real>): (r: Result<real, Failure>)
    ensures r.Err? ==> r.error in {UnexpectedPayload, MissingPrice, InvalidPrice, UnsupportedCurrency}
    ensures r.Ok? ==> QuoteData(payload).JObj? && CurrencyAccepted(Get(QuoteData(payload).fields, "currency"))
  {
    var data := QuoteData(payload);
    if !data.JObj? then Err(UnexpectedPayload)
    else
      var lastPrice := Get(data.fields, "lastPrice");
      var price := if lastPrice == JNull then Get(data.fields, "last") else lastPrice;
      if price == JNull then Err(MissingPrice)
      else
        var value :- ToFloat(price, parseFloat);
        var currency := Get(data.fields, "currency");
        if currency.JStr? && Strip(currency.s) != "" && Upper(Strip(currency.s)) !in {"EUR", "EURO"}
        then Err(UnsupportedCurrency)
        else Ok(value)
  }

  /** The price read: `lastPrice` when present, otherwise `last`; missing both is an error. */
  lemma ExtractPriceSource(payload: Json, parseFloat: string -> Option<real>)
    requires QuoteData(payload).JObj?
    ensures var f := QuoteData(payload).fields;
      var r := ExtractPrice(payload, parseFloat);
      (Get(f, "lastPrice") != JNull && r.Ok? ==> ToFloat(Get(f, "lastPrice"), parseFloat) == r)
      && (Get(f, "lastPrice") == JNull && Get(f, "last") != JNull && r.Ok? ==> ToFloat(Get(f, "last"), parseFloat) == r)
      && (Get(f, "lastPrice") == JNull && Get(f, "last") == JNull ==> r == Err(MissingPrice))
  {
  }

  /** Given a readable price, the currency decides: accepted exactly when it is absent, not
      a string, blank, or EUR / EURO after trimming and upper-casing. */
  lemma ExtractPriceCurrency(payload: Json, parseFloat: string -> Option<real>)
    requires QuoteData(payload).JObj?
    requires var f := QuoteData(payload).fields;
      var price := if Get(f, "lastPrice") == JNull then Get(f, "last") else Get(f, "lastPrice");
      price != JNull && ToFloat(price, parseFloat).Ok?
    ensures ExtractPrice(payload, parseFloat).Ok? <==> CurrencyAccepted(Get(QuoteData(payload).fields, "currency"))
  {
  }

  /** A payload whose `data` is an object is read from `data`, not from the top level. */
  lemma ExtractPriceFromData()
    ensures ExtractPrice(JObj(map["lastPrice" := JNum(1.0), "data" := JObj(map["last" := JNum(42.5), "currency" := JStr(" eur ")])]),
                         s => None) == Ok(42.5)
  {
    var inner := map["last" := JNum(42.5), "currency" := JStr(" eur ")];
    var payload := JObj(map["lastPrice" := JNum(1.0), "data" := JObj(inner)]);
    assert QuoteData(payload) == JObj(inner);
    NormalizeLowerEur();
    ExtractPriceOfLast(payload, inner, 42.5, " eur ", s => None);
  }

  lemma NormalizeLowerEur()
    ensures Normalize(" eur ") == "EUR"
  {
    assert TrimStart(" eur ", IsSpace) == "eur ";
    assert TrimEnd("eur ", IsSpace) == "eur";
    assert Upper("eur") == "EUR";
  }

  /** A quote with no `lastPrice`, a numeric `last` and a EUR currency yields `last`. */
  lemma ExtractPriceOfLast(payload: Json, f: Candidate, x: real, c: string, parseFloat: string -> Option<real>)
    requires QuoteData(payload) == JObj(f)
    requires Get(f, "lastPrice") == JNull && Get(f, "last") == JNum(x)
    requires Get(f, "currency") == JStr(c) && Normalize(c) == "EUR"
    ensures ExtractPrice(payload, parseFloat) == Ok(x)
  {
  }

  lemma ExtractPriceRejectsDollars()
    ensures ExtractPrice(JObj(map["lastPrice" := JNum(10.0), "currency" := JStr("USD")]), s => None)
      == Err(UnsupportedCurrency)
  {
    assert Strip("USD") == "USD";
    assert Upper("USD") == "USD";
  }

  // ---------------------------------------------------------------- `_extract_lookup_candidates`

  /** The objects among a list's items, in order (`isinstance(item, dict)`). */
  function Objects(items: seq<Json>): (r: seq<Candidate>)
    ensures |r| <= |items|
    ensures forall c :: c in r ==> JObj(c) in items
  {
    if items == [] then []
    else if items[0].JObj? then [items[0].fields] + Objects(items[1..])
    else Objects(items[1..])
  }

  /** The keys under which a result list is looked for, in order. */
  const ListKeys: seq<string> := ["data", "results", "rows", "items"]

  /** The first of `keys` whose value is a list, if any. */
  function FirstList(obj: Candidate, keys: seq<string>): (r: Option<seq<Json>>)
    ensures r.Some? ==> exists k :: 0 <= k < |keys| && Get(obj, keys[k]) == JArr(r.value)
    ensures r.None? ==> forall k :: 0 <= k < |keys| ==> !Get(obj, keys[k]).JArr?
  {
    if keys == [] then None
    else if Get(obj, keys[0]).JArr? then Some(Get(obj, keys[0]).items)
    else
      var r := FirstList(obj, keys[1..]);
      assert forall k :: 1 <= k < |keys| ==> keys[k] == keys[1..][k - 1];
      r
  }

  function ExtractLookupCandidates(payload: Json): (r: seq<Candidate>)
    ensures payload.JArr? ==> r == Objects(payload.items)
    ensures !payload.JArr? && !payload.JObj? ==> r == []
  {
    match payload
    case JObj(obj) =>
      var nested := FirstList(obj, ListKeys);
      if nested.Some? then Objects(nested.value) else [obj]
    case JArr(items) => Objects(items)
    case _ => []
  }

  /** An object payload gives the objects of its first result list, or itself when it has
      none. */
  lemma CandidatesOfObject(obj: Candidate)
    ensures FirstList(obj, ListKeys).None? ==> ExtractLookupCandidates(JObj(obj)) == [obj]
    ensures Get(obj, "data").JArr? ==> ExtractLookupCandidates(JObj(obj)) == Objects(Get(obj, "data").items)
    ensures !Get(obj, "data").JArr? && Get(obj, "results").JArr? ==>
      ExtractLookupCandidates(JObj(obj)) == Objects(Get(obj, "results").items)
  {
    assert ListKeys[0] == "data";
    if !Get(obj, "data").JArr? {
      assert FirstList(obj, ListKeys) == FirstList(obj, ListKeys[1..]);
      assert ListKeys[1..][0] == "results";
    }
  }

  // ---------------------------------------------------------------- candidate selection

  /** The first candidate that yields a value; a failure while examining one stops the
      search, as the exception would. */
  function SelectFirst<T>(cands: seq<Candidate>, pick: Candidate -> Result<Option<T>, Failure>): (r: Result<Option<T>, Failure>)
  {
    if cands == [] then Ok(None)
    else
      var here := pick(cands[0]);
      if here.Err? || here.value.Some? then here else SelectFirst(cands[1..], pick)
  }

  /** The selection returns what the first productive candidate yields, after passing over
      every earlier one, and nothing when no candidate yields. */
  lemma {:induction false} SelectFirstSpec<T>(cands: seq<Candidate>, pick: Candidate -> Result<Option<T>, Failure>)
    ensures SelectFirst(cands, pick) == Ok(None) <==> forall k :: 0 <= k < |cands| ==> pick(cands[k]) == Ok(None)
    ensures SelectFirst(cands, pick) != Ok(None) ==>
      exists k :: 0 <= k < |cands| && SelectFirst(cands, pick) == pick(cands[k])
        && forall j :: 0 <= j < k ==> pick(cands[j]) == Ok(None)
  {
    if cands != [] {
      SelectFirstSpec(cands[1..], pick);
      var here := pick(cands[0]);
      if !(here.Err? || here.value.Some?) {
        assert here == Ok(None);
        assert forall k :: 1 <= k < |cands| ==> cands[k] == cands[1..][k - 1];
        if SelectFirst(cands, pick) != Ok(None) {
          var k :| 0 <= k < |cands[1..]| && SelectFirst(cands[1..], pick) == pick(cands[1..][k])
            && forall j :: 0 <= j < k ==> pick(cands[1..][j]) == Ok(None);
          assert SelectFirst(cands, pick) == pick(cands[k + 1]);
          forall j | 0 <= j < k + 1
            ensures pick(cands[j]) == Ok(None)
          {
            if j > 0 {
              assert cands[j] == cands[1..][j - 1];
            }
          }
        }
      }
    }
  }

  /** The loop over the candidates with its early `return`. */
  method FindFirst<T>(cands: seq<Candidate>, pick: Candidate -> Result<Option<T>, Failure>) returns (r: Result<Option<T>, Failure>)
    ensures r == SelectFirst(cands, pick)
  {
    for i := 0 to |cands|
      invariant SelectFirst(cands, pick) == SelectFirst(cands[i..], pick)
    {
      assert cands[i..][1..] == cands[i + 1..];
      var here := pick(cands[i]);
      if here.Err? || here.value.Some? {
        return here;
      }
    }
    return Ok(None);
  }

  /** The symbol of a candidate: `symbol`, else `mnemonic`. */
  function CandidateSymbol(c: Candidate): Result<string, Failure> {
    var symbol :- Field(c, "symbol");
    if symbol != "" then Ok(symbol) else Field(c, "mnemonic")
  }

  /** The market of a candidate: `mic`, else `market`, else `micCode`. */
  function CandidateMic(c: Candidate): Result<string, Failure> {
    var mic :- Field(c, "mic");
    if mic != "" then Ok(mic)
    else
      var market :- Field(c, "market");
      if market != "" then Ok(market) else Field(c, "micCode")
  }

  /** A non-Euronext market is replaced by `isoMic`. */
  function WithIsoMic(c: Candidate, mic: string): Result<string, Failure> {
    if mic != "" && mic !in EuronextMics then Field(c, "isoMic") else Ok(mic)
  }

  /** The body of the loop of `search_instrument_by_isin`. */
  function IsinSearchPick(normalized: string, c: Candidate): (r: Result<Option<(string, string)>, Failure>)
    ensures r.Ok? && r.value.Some? ==> r.value.value.0 != "" && r.value.value.1 in EuronextMics
  {
    var candidateIsin :- Field(c, "isin");
    if candidateIsin != "" && candidateIsin != normalized then Ok(None)
    else
      var symbol :- CandidateSymbol(c);
      var mic0 :- CandidateMic(c);
      var mic :- WithIsoMic(c, mic0);
      if symbol != "" && mic != "" && mic in EuronextMics then Ok(Some((symbol, mic))) else Ok(None)
  }

  /** A candidate chosen by an ISIN search has that ISIN or none at all. */
  lemma IsinSearchPickMatches(normalized: string, c: Candidate)
    requires IsinSearchPick(normalized, c).Ok? && IsinSearchPick(normalized, c).value.Some?
    ensures Field(c, "isin") == Ok("") || Field(c, "isin") == Ok(normalized)
    ensures CandidateSymbol(c) == Ok(IsinSearchPick(normalized, c).value.value.0)
  {
  }

  /** The body of the loop of `search_instrument_by_symbol`. */
  function SymbolSearchPick(symbol: string, mic: string, c: Candidate): (r: Result<Option<(string, string)>, Failure>)
    ensures r.Ok? && r.value.Some? ==> IsIsinShape(r.value.value.0) && r.value.value.1 in EuronextMics
    ensures r.Ok? && r.value.Some? && mic != "" ==> r.value.value.1 == mic
  {
    var candidateSymbol :- CandidateSymbol(c);
    if candidateSymbol == "" || candidateSymbol != symbol then Ok(None)
    else
      var mic0 :- CandidateMic(c);
      var candidateMic :- WithIsoMic(c, mic0);
      if mic != "" && candidateMic != "" && candidateMic != mic then Ok(None)
      else
        var chosenMic := if mic != "" && candidateMic == "" then mic else candidateMic;
        if chosenMic == "" || chosenMic !in EuronextMics then Ok(None)
        else
          var candidateIsin :- Field(c, "isin");
          if candidateIsin == "" || !IsinRegexMatch(candidateIsin) then Ok(None)
          else
            assert IsIsinShape(candidateIsin) by { IsinRegexOnTrimmed(candidateIsin); }
            Ok(Some((candidateIsin, chosenMic)))
  }

  /** A candidate chosen by a symbol search carries exactly that symbol. */
  lemma SymbolSearchPickMatches(symbol: string, mic: string, c: Candidate)
    requires SymbolSearchPick(symbol, mic, c).Ok? && SymbolSearchPick(symbol, mic, c).value.Some?
    ensures CandidateSymbol(c) == Ok(symbol) && symbol != ""
  {
  }

  /** The body of the loop of `lookup_instrument_by_isin`. */
  function LookupPick(c: Candidate): (r: Result<Option<(string, string)>, Failure>)
    ensures r.Ok? && r.value.Some? ==> r.value.value.0 != "" && r.value.value.1 in EuronextMics
  {
    var symbol :- CandidateSymbol(c);
    var mic0 :- CandidateMic(c);
    if symbol != "" && mic0 != "" then
      var mic :- if mic0 !in EuronextMics then Field(c, "isoMic") else Ok(mic0);
      if mic in EuronextMics then Ok(Some((symbol, mic))) else Ok(None)
    else Ok(None)
  }

  // ---------------------------------------------------------------- the operations, as functions

  /** `search_instrument_by_isin` on the search cache: the outcome and the new cache. */
  function SearchByIsin(cache: map<string, (string, string)>, isin: string, response: Result<Json, Failure>)
    : (out: (Result<(string, string), Failure>, map<string, (string, string)>))
    ensures IsBlank(isin) ==> out == (Err(MissingIsin), cache)
    ensures !IsBlank(isin) && !IsinRegexMatch(Normalize(isin)) ==> out == (Err(InvalidIsin), cache)
    ensures Normalize(isin) in cache && IsinRegexMatch(Normalize(isin)) ==> out == (Ok(cache[Normalize(isin)]), cache)
    ensures out.0.Ok? ==> out.1 == cache[Normalize(isin) := out.0.value]
    ensures out.0.Err? ==> out.1 == cache
  {
    var normalized := Normalize(isin);
    if normalized == "" then (Err(MissingIsin), cache)
    else if !IsinRegexMatch(normalized) then (Err(InvalidIsin), cache)
    else if normalized in cache then
      assert cache[normalized := cache[normalized]] == cache;
      (Ok(cache[normalized]), cache)
    else if response.Err? then (Err(response.error), cache)
    else
      var found := SelectFirst(ExtractLookupCandidates(response.value), c => IsinSearchPick(normalized, c));
      if found.Err? then (Err(found.error), cache)
      else if found.value.None? then (Err(NoInstrument), cache)
      else (Ok(found.value.value), cache[normalized := found.value.value])
  }

  /** The cache key of a symbol search: `SYMBOL-MIC`, or the symbol alone. */
  function SymbolCacheKey(symbol: string, mic: string): string {
    if mic != "" then symbol + "-" + mic else symbol
  }

  /** The requested market: `_normalize(mic) if mic else ""`. */
  function RequestedMic(mic: Option<string>): string {
    if mic.Some? && mic.value != "" then Normalize(mic.value) else ""
  }

  function SearchBySymbol(cache: map<string, (string, string)>, symbol: string, mic: Option<string>,
                          response: Result<Json, Failure>)
    : (out: (Result<(string, string), Failure>, map<string, (string, string)>))
    ensures IsBlank(symbol) ==> out == (Err(MissingSymbol), cache)
    ensures !IsBlank(symbol) && RequestedMic(mic) != "" && RequestedMic(mic) !in EuronextMics ==> out == (Err(UnknownMarket), cache)
    ensures out.0.Ok? ==> out.1 == cache[SymbolCacheKey(Normalize(symbol), RequestedMic(mic)) := out.0.value]
    ensures out.0.Err? ==> out.1 == cache
  {
    var normalizedSymbol := Normalize(symbol);
    var normalizedMic := RequestedMic(mic);
    var key := SymbolCacheKey(normalizedSymbol, normalizedMic);
    if normalizedSymbol == "" then (Err(MissingSymbol), cache)
    else if normalizedMic != "" && normalizedMic !in EuronextMics then (Err(UnknownMarket), cache)
    else if key in cache then
      assert cache[key := cache[key]] == cache;
      (Ok(cache[key]), cache)
    else if response.Err? then (Err(response.error), cache)
    else
      var found := SelectFirst(ExtractLookupCandidates(response.value),
                               c => SymbolSearchPick(normalizedSymbol, normalizedMic, c));
      if found.Err? then (Err(found.error), cache)
      else if found.value.None? then (Err(NoInstrument), cache)
      else (Ok(found.value.value), cache[key := found.value.value])
  }

  function LookupByIsin(cache: map<string, (string, string)>, isin: string, response: Result<Json, Failure>)
    : (out: (Result<(string, string), Failure>, map<string, (string, string)>))
    ensures IsBlank(isin) ==> out == (Err(MissingIsin), cache)
    ensures !IsBlank(isin) && !IsinRegexMatch(Normalize(isin)) ==> out == (Err(InvalidIsin), cache)
    ensures Normalize(isin) in cache && IsinRegexMatch(Normalize(isin)) ==> out == (Ok(cache[Normalize(isin)]), cache)
    ensures out.0.Ok? ==> out.1 == cache[Normalize(isin) := out.0.value]
    ensures out.0.Err? ==> out.1 == cache
  {
    var normalized := Normalize(isin);
    if normalized == "" then (Err(MissingIsin), cache)
    else if !IsinRegexMatch(normalized) then (Err(InvalidIsin), cache)
    else if normalized in cache then
      assert cache[normalized := cache[normalized]] == cache;
      (Ok(cache[normalized]), cache)
    else if response.Err? then (Err(response.error), cache)
    else
      var found := SelectFirst(ExtractLookupCandidates(response.value), LookupPick);
      if found.Err? then (Err(found.error), cache)
      else if found.value.None? then (Err(NoInstrument), cache)
      else (Ok(found.value.value), cache[normalized := found.value.value])
  }

  /** `fetch_price` on the price cache. */
  function FetchPriceOf(cache: map<string, real>, identifier: string, response: Result<Json, Failure>,
                        parseFloat: string -> Option<real>)
    : (out: (Result<real, Failure>, map<string, real>))
    ensures IsBlank(identifier) ==> out == (Err(MissingIdentifier), cache)
    ensures !IsBlank(identifier) && Normalize(identifier) in cache ==> out == (Ok(cache[Normalize(identifier)]), cache)
    ensures out.0.Err? ==> out.1 == cache
  {
    var normalized := Normalize(identifier);
    if normalized == "" then (Err(MissingIdentifier), cache)
    else if normalized in cache then (Ok(cache[normalized]), cache)
    else
      match ResolveParams(normalized)
      case Err(e) => (Err(e), cache)
      case Ok(resolved) =>
        if response.Err? then (Err(response.error), cache)
        else
          match ExtractPrice(response.value, parseFloat)
          case Err(e) => (Err(e), cache)
          case Ok(price) =>
            (Ok(price), StoreAll(cache[normalized := price][resolved.cacheKey := price], resolved.aliases, price))
  }

  /** `for alias in aliases: _CACHE[alias] = price_value`. */
  function StoreAll(cache: map<string, real>, keys: seq<string>, price: real): (r: map<string, real>)
    ensures r.Keys == cache.Keys + set k | k in keys
    ensures forall k :: k in r ==> r[k] == (if k in keys then price else cache[k])
  {
    if keys == [] then cache else StoreAll(cache, keys[..|keys| - 1], price)[keys[|keys| - 1] := price]
  }

  /** A fetched price is stored under the normalised identifier, which is also the issue
      key: the price cache gains exactly that one entry. */
  lemma FetchStoresUnderIdentifier(cache: map<string, real>, identifier: string, response: Result<Json, Failure>,
                                   parseFloat: string -> Option<real>)
    requires FetchPriceOf(cache, identifier, response, parseFloat).0.Ok?
    ensures var out := FetchPriceOf(cache, identifier, response, parseFloat);
      out.1 == cache[Normalize(identifier) := out.0.value]
  {
    var normalized := Normalize(identifier);
    if normalized !in cache {
      FetchMissSucceeds(cache, identifier, response, parseFloat);
      NormalizeIdempotent(identifier);
      ResolveRoundTrip(normalized);
      var resolved := ResolveParams(normalized).value;
      var price := ExtractPrice(response.value, parseFloat).value;
      FetchMissStores(cache, identifier, response, parseFloat, resolved, price);
    } else {
      assert cache[normalized := cache[normalized]] == cache;
    }
  }

  /** A miss that succeeds resolved the identifier, got a payload and read a price from it. */
  lemma FetchMissSucceeds(cache: map<string, real>, identifier: string, response: Result<Json, Failure>,
                          parseFloat: string -> Option<real>)
    requires FetchPriceOf(cache, identifier, response, parseFloat).0.Ok?
    requires Normalize(identifier) !in cache
    ensures ResolveParams(Normalize(identifier)).Ok? && response.Ok? && ExtractPrice(response.value, parseFloat).Ok?
  {
  }

  /** On a miss for an identifier that is its own issue key, with no aliases, the fetch stores
      the price under that one key. */
  lemma FetchMissStores(cache: map<string, real>, identifier: string, response: Result<Json, Failure>,
                        parseFloat: string -> Option<real>, resolved: Resolved, price: real)
    requires Normalize(identifier) != "" && Normalize(identifier) !in cache
    requires ResolveParams(Normalize(identifier)) == Ok(resolved)
    requires resolved.cacheKey == Normalize(identifier) && resolved.aliases == []
    requires response.Ok? && ExtractPrice(response.value, parseFloat) == Ok(price)
    ensures var out := FetchPriceOf(cache, identifier, response, parseFloat);
      out.0 == Ok(price) && out.1 == cache[Normalize(identifier) := price]
  {
    var normalized := Normalize(identifier);
    FetchMiss(cache, identifier, response, parseFloat, resolved, price);
    StoreNothing(cache[normalized := price][resolved.cacheKey := price], price);
  }

  /** On a miss, the fetch stores the price under the identifier, the issue key and the aliases. */
  lemma FetchMiss(cache: map<string, real>, identifier: string, response: Result<Json, Failure>,
                  parseFloat: string -> Option<real>, resolved: Resolved, price: real)
    requires Normalize(identifier) != "" && Normalize(identifier) !in cache
    requires ResolveParams(Normalize(identifier)) == Ok(resolved)
    requires response.Ok? && ExtractPrice(response.value, parseFloat) == Ok(price)
    ensures FetchPriceOf(cache, identifier, response, parseFloat)
      == (Ok(price), StoreAll(cache[Normalize(identifier) := price][resolved.cacheKey := price], resolved.aliases, price))
  {
  }

  lemma StoreNothing(cache: map<string, real>, price: real)
    ensures StoreAll(cache, [], price) == cache
  {
  }

  /** Read-through: once a fetch succeeded, a second fetch of the same identifier, whatever
      the endpoint would answer, returns the same price and leaves the cache alone. */
  lemma FetchCachedSecondCall(cache: map<string, real>, identifier: string, response: Result<Json, Failure>,
                              response2: Result<Json, Failure>, parseFloat: string -> Option<real>)
    requires FetchPriceOf(cache, identifier, response, parseFloat).0.Ok?
    ensures var out := FetchPriceOf(cache, identifier, response, parseFloat);
      FetchPriceOf(out.1, identifier, response2, parseFloat) == out
  {
    FetchStoresUnderIdentifier(cache, identifier, response, parseFloat);
  }

  /** In the symbol cache, a symbol containing a dash searched on no market shares its key
      with the shorter symbol searched on a market. */
  lemma SymbolCacheKeyCollision()
    ensures SymbolCacheKey("AB-XPAR", "") == SymbolCacheKey("AB", "XPAR")
  {
  }

  lemma SearchCachedSecondCall(cache: map<string, (string, string)>, isin: string,
                               response: Result<Json, Failure>, response2: Result<Json, Failure>)
    requires SearchByIsin(cache, isin, response).0.Ok?
    ensures var out := SearchByIsin(cache, isin, response);
      SearchByIsin(out.1, isin, response2) == out
  {
  }

  /** A successful ISIN search answers with the first candidate that carries that ISIN (or
      none), a symbol and a Euronext market, every earlier candidate having been passed
      over. */
  lemma SearchByIsinSelects(cache: map<string, (string, string)>, isin: string, payload: Json)
    requires Normalize(isin) !in cache
    requires SearchByIsin(cache, isin, Ok(payload)).0.Ok?
    ensures var cands := ExtractLookupCandidates(payload);
      var n := Normalize(isin);
      exists k :: 0 <= k < |cands| && IsinSearchPick(n, cands[k]) == Ok(Some(SearchByIsin(cache, isin, Ok(payload)).0.value))
        && forall j :: 0 <= j < k ==> IsinSearchPick(n, cands[j]) == Ok(None)
  {
    var n := Normalize(isin);
    var cands := ExtractLookupCandidates(payload);
    var pick := c => IsinSearchPick(n, c);
    SearchByIsinFound(cache, isin, payload);
    var found := SelectFirst(cands, pick);
    SelectFirstSpec(cands, pick);
    var k :| 0 <= k < |cands| && found == pick(cands[k]) && forall j :: 0 <= j < k ==> pick(cands[j]) == Ok(None);
    assert IsinSearchPick(n, cands[k]) == Ok(Some(SearchByIsin(cache, isin, Ok(payload)).0.value));
  }

  /** The looked-up pair is what the selection over the payload's candidates found. */
  lemma SearchByIsinFound(cache: map<string, (string, string)>, isin: string, payload: Json)
    requires Normalize(isin) !in cache
    requires SearchByIsin(cache, isin, Ok(payload)).0.Ok?
    ensures var found := SelectFirst(ExtractLookupCandidates(payload), c => IsinSearchPick(Normalize(isin), c));
      found.Ok? && found.value.Some? && SearchByIsin(cache, isin, Ok(payload)).0.value == found.value.value
  {
  }

  /** A successful symbol search that was not cached answers with the first candidate
      carrying that symbol, a compatible Euronext market and a valid ISIN, every earlier
      candidate having been passed over. */
  lemma SearchBySymbolSelects(cache: map<string, (string, string)>, symbol: string, mic: Option<string>, payload: Json)
    requires SymbolCacheKey(Normalize(symbol), RequestedMic(mic)) !in cache
    requires SearchBySymbol(cache, symbol, mic, Ok(payload)).0.Ok?
    ensures var cands := ExtractLookupCandidates(payload);
      exists k :: 0 <= k < |cands|
        && SymbolSearchPick(Normalize(symbol), RequestedMic(mic), cands[k]) == Ok(Some(SearchBySymbol(cache, symbol, mic, Ok(payload)).0.value))
        && forall j :: 0 <= j < k ==> SymbolSearchPick(Normalize(symbol), RequestedMic(mic), cands[j]) == Ok(None)
  {
    var cands := ExtractLookupCandidates(payload);
    var pick := c => SymbolSearchPick(Normalize(symbol), RequestedMic(mic), c);
    SearchBySymbolFound(cache, symbol, mic, payload);
    var found := SelectFirst(cands, pick);
    SelectFirstSpec(cands, pick);
    var k :| 0 <= k < |cands| && found == pick(cands[k]) && forall j :: 0 <= j < k ==> pick(cands[j]) == Ok(None);
    assert SymbolSearchPick(Normalize(symbol), RequestedMic(mic), cands[k]) == Ok(Some(SearchBySymbol(cache, symbol, mic, Ok(payload)).0.value));
  }

  /** The searched pair is what the selection over the payload's candidates found. */
  lemma SearchBySymbolFound(cache: map<string, (string, string)>, symbol: string, mic: Option<string>, payload: Json)
    requires SymbolCacheKey(Normalize(symbol), RequestedMic(mic)) !in cache
    requires SearchBySymbol(cache, symbol, mic, Ok(payload)).0.Ok?
    ensures var found := SelectFirst(ExtractLookupCandidates(payload), c => SymbolSearchPick(Normalize(symbol), RequestedMic(mic), c));
      found.Ok? && found.value.Some? && SearchBySymbol(cache, symbol, mic, Ok(payload)).0.value == found.value.value
  {
  }

  /** A successful ISIN lookup that was not cached answers with the first candidate that
      has a symbol and a Euronext market, every earlier candidate having been passed over. */
  lemma LookupByIsinSelects(cache: map<string, (string, string)>, isin: string, payload: Json)
    requires Normalize(isin) !in cache
    requires LookupByIsin(cache, isin, Ok(payload)).0.Ok?
    ensures var cands := ExtractLookupCandidates(payload);
      exists k :: 0 <= k < |cands| && LookupPick(cands[k]) == Ok(Some(LookupByIsin(cache, isin, Ok(payload)).0.value))
        && forall j :: 0 <= j < k ==> LookupPick(cands[j]) == Ok(None)
  {
    var cands := ExtractLookupCandidates(payload);
    LookupByIsinFound(cache, isin, payload);
    var found := SelectFirst(cands, LookupPick);
    SelectFirstSpec(cands, LookupPick);
    var k :| 0 <= k < |cands| && found == LookupPick(cands[k]) && forall j :: 0 <= j < k ==> LookupPick(cands[j]) == Ok(None);
  }

  /** The looked-up pair is what the selection over the payload's candidates found. */
  lemma LookupByIsinFound(cache: map<string, (string, string)>, isin: string, payload: Json)
    requires Normalize(isin) !in cache
    requires LookupByIsin(cache, isin, Ok(payload)).0.Ok?
    ensures var found := SelectFirst(ExtractLookupCandidates(payload), LookupPick);
      found.Ok? && found.value.Some? && LookupByIsin(cache, isin, Ok(payload)).0.value == found.value.value
  {
  }

  // ---------------------------------------------------------------- the client and its caches

  /** The module-level caches of the client, with no expiry. */
  class EuronextClient {
    var prices: map<string, real>
    var lookups: map<string, (string, string)>
    var searches: map<string, (string, string)>
    var symbolSearches: map<string, (string, string)>

    constructor()
      ensures prices == map[] && lookups == map[] && searches == map[] && symbolSearches == map[]
    {
      prices := map[];
      lookups := map[];
      searches := map[];
      symbolSearches := map[];
    }

    /** `clear_cache`. */
    method ClearCache()
      modifies this
      ensures prices == map[] && lookups == map[] && searches == map[] && symbolSearches == map[]
    {
      prices := map[];
      lookups := map[];
      searches := map[];
      symbolSearches := map[];
    }

    /** `search_instrument_by_isin`. */
    method SearchInstrumentByIsin(isin: string, response: Result<Json, Failure>) returns (r: Result<(string, string), Failure>)
      modifies this`searches
      ensures (r, searches) == SearchByIsin(old(searches), isin, response)
    {
      var normalized := Normalize(isin);
      if normalized == "" {
        return Err(MissingIsin);
      }
      if !IsinRegexMatch(normalized) {
        return Err(InvalidIsin);
      }
      if normalized in searches {
        assert searches[normalized := searches[normalized]] == searches;
        return Ok(searches[normalized]);
      }
      if response.Err? {
        return Err(response.error);
      }
      var found := FindFirst(ExtractLookupCandidates(response.value), c => IsinSearchPick(normalized, c));
      if found.Err? {
        return Err(found.error);
      }
      if found.value.None? {
        return Err(NoInstrument);
      }
      searches := searches[normalized := found.value.value];
      return Ok(found.value.value);
    }

    /** `search_instrument_by_symbol`. */
    method SearchInstrumentBySymbol(symbol: string, mic: Option<string>, response: Result<Json, Failure>)
      returns (r: Result<(string, string), Failure>)
      modifies this`symbolSearches
      ensures (r, symbolSearches) == SearchBySymbol(old(symbolSearches), symbol, mic, response)
    {
      var normalizedSymbol := Normalize(symbol);
      if normalizedSymbol == "" {
        return Err(MissingSymbol);
      }
      var normalizedMic := if mic.Some? && mic.value != "" then Normalize(mic.value) else "";
      if normalizedMic != "" && normalizedMic !in EuronextMics {
        return Err(UnknownMarket);
      }
      var key := if normalizedMic != "" then normalizedSymbol + "-" + normalizedMic else normalizedSymbol;
      if key in symbolSearches {
        assert symbolSearches[key := symbolSearches[key]] == symbolSearches;
        return Ok(symbolSearches[key]);
      }
      if response.Err? {
        return Err(response.error);
      }
      var found := FindFirst(ExtractLookupCandidates(response.value),
                             c => SymbolSearchPick(normalizedSymbol, normalizedMic, c));
      if found.Err? {
        return Err(found.error);
      }
      if found.value.None? {
        return Err(NoInstrument);
      }
      symbolSearches := symbolSearches[key := found.value.value];
      return Ok(found.value.value);
    }

    /** `lookup_instrument_by_isin`. */
    method LookupInstrumentByIsin(isin: string, response: Result<Json, Failure>) returns (r: Result<(string, string), Failure>)
      modifies this`lookups
      ensures (r, lookups) == LookupByIsin(old(lookups), isin, response)
    {
      var normalized := Normalize(isin);
      if normalized == "" {
        return Err(MissingIsin);
      }
      if !IsinRegexMatch(normalized) {
        return Err(InvalidIsin);
      }
      if normalized in lookups {
        assert lookups[normalized := lookups[normalized]] == lookups;
        return Ok(lookups[normalized]);
      }
      if response.Err? {
        return Err(response.error);
      }
      var found := FindFirst(ExtractLookupCandidates(response.value), LookupPick);
      if found.Err? {
        return Err(found.error);
      }
      if found.value.None? {
        return Err(NoInstrument);
      }
      lookups := lookups[normalized := found.value.value];
      return Ok(found.value.value);
    }

    /** `fetch_price`. */
    method FetchPrice(identifier: string, response: Result<Json, Failure>, parseFloat: string -> Option<real>)
      returns (r: Result<real, Failure>)
      modifies this`prices
      ensures (r, prices) == FetchPriceOf(old(prices), identifier, response, parseFloat)
    {
      var normalized := Normalize(identifier);
      if normalized == "" {
        return Err(MissingIdentifier);
      }
      if normalized in prices {
        return Ok(prices[normalized]);
      }
      var resolved := ResolveParams(normalized);
      if resolved.Err? {
        return Err(resolved.error);
      }
      if response.Err? {
        return Err(response.error);
      }
      var price := ExtractPrice(response.value, parseFloat);
      if price.Err? {
        return Err(price.error);
      }
      prices := prices[normalized := price.value];
      prices := prices[resolved.value.cacheKey := price.value];
      prices := StoreAll(prices, resolved.value.aliases, price.value);
      return Ok(price.value);
    }
  }
}
