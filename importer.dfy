/** The CSV importer: each row of `transactions.csv` is normalised, given a transaction
    identifier (explicit, or `import_` and the SHA-1 of its normalised fields), and then
    upserted: a stored transaction with the same identifier is overwritten, else a stored
    transaction identical in its functional fields is overwritten, else a new one is added.
    The table is a sequence of records in insertion order; the hash, the ISO-8601 parser
    (with its conversion to UTC) and `isoformat` are parameters. */
module CsvImport {
  import opened Base
  import opened Text
  import opened Decimals

  const RequiredColumns: seq<string> := [
    "id", "source", "portfolio_type", "operation", "date", "asset", "symbol", "isin", "mic",
    "quantity", "unit_price_eur", "total_eur", "fee_eur", "fee_asset", "fee_quantity", "notes"]

  /** The fields hashed into a generated identifier, in hashing order; `id` is not one. */
  const UidFields: seq<string> := [
    "source", "portfolio_type", "operation", "date", "asset", "symbol", "isin", "mic",
    "quantity", "unit_price_eur", "total_eur", "fee_eur", "fee_asset", "fee_quantity", "notes"]

  const UidSeparator: char := '\U{1F}'

  /** The functions the importer calls but does not define. */
  datatype Env = Env(
    sha1Hex: string -> string,          // hex digest of the UTF-8 bytes of its argument
    fromIsoFormat: string -> Option<int>, // `datetime.fromisoformat`, then `to_utc`
    isoFormat: int -> string)           // `datetime.isoformat`

  datatype RowError =
    | MissingValue(field: string)
    | InvalidDecimalValue(field: string)
    | InvalidOptionalDecimal
    | InvalidDate(field: string)
    | MissingUidFields(fields: seq<string>)

  datatype ImportFailure =
    | MissingHeader
    | MissingColumns(columns: seq<string>)
    | RowFailed(rowNumber: nat, reason: RowError)
    | MultipleRowsFound

  /** `row.get(key)` on a `csv.DictReader` row: an absent key and a short row both give
      `None`. */
  function Get(row: map<string, string>, key: string): Option<string> {
    if key in row then Some(row[key]) else None
  }

  // ---------------------------------------------------------------- text fields

  function CleanText(value: Option<string>): string {
    if value.None? then "" else Strip(value.value)
  }

  /** `_normalize_optional_text`: the stripped text, or `None` for a missing value, a blank
      one, or `none` in any case. */
  function NormalizeOptionalText(value: Option<string>): (r: Option<string>)
    ensures r.Some? ==> value.Some? && r.value == Strip(value.value)
    ensures r.Some? ==> r.value != "" && Lower(r.value) != "none"
    ensures r.None? ==> value.None? || Strip(value.value) == "" || Lower(Strip(value.value)) == "none"
  {
    if value.None? then None
    else
      var text := Strip(value.value);
      if text == "" then None
      else if Lower(text) == "none" then None
      else Some(text)
  }

  /** Normalising an already normalised text changes nothing. */
  lemma NormalizeOptionalTextIdempotent(value: Option<string>)
    ensures NormalizeOptionalText(NormalizeOptionalText(value)) == NormalizeOptionalText(value)
  {
    if NormalizeOptionalText(value).Some? {
      StripIdempotent(value.value);
    }
  }

  function NormalizeOptionalTextToString(value: Option<string>): (r: string)
    ensures r == "" <==> NormalizeOptionalText(value).None?
  {
    NormalizeOptionalText(value).GetOr("")
  }

  function ParseRequiredText(value: Option<string>, field: string): (r: Result<string, RowError>)
    ensures r.Ok? <==> CleanText(value) != ""
    ensures r.Ok? ==> r.value == CleanText(value)
    ensures r.Err? ==> r.error == MissingValue(field)
  {
    var text := CleanText(value);
    if text == "" then Err(MissingValue(field)) else Ok(text)
  }

  // ---------------------------------------------------------------- numbers and dates

  /** `_parse_decimal_field`: a blank value takes the default when there is one and is an
      error otherwise. */
  function ParseDecimalField(value: Option<string>, fallback: Option<Decimal>, field: string): (r: Result<Decimal, RowError>)
    ensures CleanText(value) == "" ==> r == (if fallback.Some? then Ok(fallback.value) else Err(MissingValue(field)))
    ensures CleanText(value) != "" ==>
      r == (if ParseDecimal(CleanText(value)).Ok? then Ok(ParseDecimal(CleanText(value)).value)
            else Err(InvalidDecimalValue(field)))
  {
    var text := CleanText(value);
    if text == "" then
      if fallback.Some? then Ok(fallback.value) else Err(MissingValue(field))
    else
      match ParseDecimal(text)
      case Ok(d) => Ok(d)
      case Err(_) => Err(InvalidDecimalValue(field))
  }

  /** `_parse_optional_decimal`: a blank value is no value. */
  function ParseOptionalDecimal(value: Option<string>): (r: Result<Option<Decimal>, RowError>)
    ensures CleanText(value) == "" ==> r == Ok(None)
    ensures CleanText(value) != "" ==> (r.Ok? <==> ParseDecimal(CleanText(value)).Ok?)
    ensures r.Ok? && r.value.Some? ==> Ok(r.value.value) == ParseDecimal(CleanText(value))
  {
    var text := CleanText(value);
    if text == "" then Ok(None)
    else
      match ParseDecimal(text)
      case Ok(d) => Ok(Some(d))
      case Err(_) => Err(InvalidOptionalDecimal)
  }

  /** `s.replace(c, by)` for one character. */
  function ReplaceChar(s: string, c: char, with: string): (r: string)
    ensures (forall i :: 0 <= i < |with| ==> with[i] != c) ==> forall i :: 0 <= i < |r| ==> r[i] != c
  {
    if s == [] then []
    else (if s[0] == c then with else [s[0]]) + ReplaceChar(s[1..], c, with)
  }

  /** `_parse_timestamp`: a `Z` suffix is read as `+00:00` before parsing. */
  function ParseTimestamp(value: Option<string>, field: string, fromIsoFormat: string -> Option<int>): (r: Result<int, RowError>)
    ensures CleanText(value) == "" ==> r == Err(MissingValue(field))
    ensures r.Ok? ==> Some(r.value) == fromIsoFormat(ReplaceChar(CleanText(value), 'Z', "+00:00"))
    ensures r.Err? && CleanText(value) != "" ==> r.error == InvalidDate(field)
  {
    var text := CleanText(value);
    if text == "" then Err(MissingValue(field))
    else
      match fromIsoFormat(ReplaceChar(text, 'Z', "+00:00"))
      case Some(t) => Ok(t)
      case None => Err(InvalidDate(field))
  }

  // ---------------------------------------------------------------- the identifier

  /** `_build_normalized_transaction_uid_fields`: every field as text, decimals through
      `_decimal_to_string`, missing optional values as empty strings. */
  function BuildNormalizedFields(rowId: Option<string>, source: string, portfolioType: string,
                                 operation: string, asset: string, symbol: Option<string>,
                                 isin: Option<string>, mic: Option<string>, quantity: Decimal,
                                 unitPrice: Decimal, totalEur: Decimal, feeEur: Decimal,
                                 feeAsset: string, feeQuantity: Option<Decimal>, tradeDate: int,
                                 notes: string, isoFormat: int -> string): (r: map<string, string>)
    ensures "id" in r && forall f :: f in UidFields ==> f in r
  {
    map[
      "id" := rowId.GetOr(""),
      "source" := source,
      "portfolio_type" := portfolioType,
      "operation" := operation,
      "date" := isoFormat(tradeDate),
      "asset" := asset,
      "symbol" := symbol.GetOr(""),
      "isin" := isin.GetOr(""),
      "mic" := mic.GetOr(""),
      "quantity" := DecimalToString(quantity),
      "unit_price_eur" := DecimalToString(unitPrice),
      "total_eur" := DecimalToString(totalEur),
      "fee_eur" := DecimalToString(feeEur),
      "fee_asset" := feeAsset,
      "fee_quantity" := if feeQuantity.Some? then DecimalToString(feeQuantity.value) else "",
      "notes" := notes]
  }

  /** Equal amounts give equal fields: `1` and `1.000` are the same transaction. */
  lemma FieldsDependOnValuesOnly(rowId: Option<string>, source: string, portfolioType: string,
                                 operation: string, asset: string, symbol: Option<string>,
                                 isin: Option<string>, mic: Option<string>, q1: Decimal, q2: Decimal,
                                 unitPrice: Decimal, totalEur: Decimal, feeEur: Decimal,
                                 feeAsset: string, feeQuantity: Option<Decimal>, tradeDate: int,
                                 notes: string, isoFormat: int -> string)
    requires SameValue(q1, q2)
    ensures BuildNormalizedFields(rowId, source, portfolioType, operation, asset, symbol, isin, mic, q1,
                                  unitPrice, totalEur, feeEur, feeAsset, feeQuantity, tradeDate, notes, isoFormat)
         == BuildNormalizedFields(rowId, source, portfolioType, operation, asset, symbol, isin, mic, q2,
                                  unitPrice, totalEur, feeEur, feeAsset, feeQuantity, tradeDate, notes, isoFormat)
  {
    DecimalToStringCanonical(q1, q2);
  }

  /** The UID fields absent from `fields`, in hashing order. */
  function MissingUidFieldsOf(fields: map<string, string>, names: seq<string>): (r: seq<string>)
    ensures forall f :: f in r <==> f in names && f !in fields
  {
    if names == [] then []
    else (if names[0] in fields then [] else [names[0]]) + MissingUidFieldsOf(fields, names[1..])
  }

  /** The values of the named fields, in order. */
  function FieldValues(fields: map<string, string>, names: seq<string>): (r: seq<string>)
    requires forall f :: f in names ==> f in fields
    ensures |r| == |names| && forall i :: 0 <= i < |names| ==> r[i] == fields[names[i]]
  {
    if names == [] then [] else [fields[names[0]]] + FieldValues(fields, names[1..])
  }

  /** The text hashed into a generated identifier. */
  function UidPayload(fields: map<string, string>): string
    requires forall f :: f in UidFields ==> f in fields
  {
    Join([UidSeparator], FieldValues(fields, UidFields))
  }

  /** `build_transaction_uid`: an explicit identifier is kept as normalised; otherwise every
      UID field must be present and the identifier is `import_` and the hash of the
      joined fields. */
  function BuildTransactionUid(rowId: Option<string>, fields: map<string, string>, sha1Hex: string -> string): (r: Result<string, RowError>)
    ensures NormalizeOptionalText(rowId).Some? ==> r == Ok(NormalizeOptionalText(rowId).value)
    ensures NormalizeOptionalText(rowId).None? ==>
      (r.Err? <==> exists f :: f in UidFields && f !in fields)
    ensures r.Err? ==> r.error == MissingUidFields(MissingUidFieldsOf(fields, UidFields))
    ensures NormalizeOptionalText(rowId).None? && r.Ok? ==> r.value == "import_" + sha1Hex(UidPayload(fields))
    ensures r.Ok? ==> r.value != ""
  {
    var normalizedId := NormalizeOptionalText(rowId);
    if normalizedId.Some? then Ok(normalizedId.value)
    else
      var missing := MissingUidFieldsOf(fields, UidFields);
      if missing != [] then
        assert missing[0] in missing;
        Err(MissingUidFields(missing))
      else Ok("import_" + sha1Hex(UidPayload(fields)))
  }

  /** The generated identifier does not depend on the `id` field, nor on any field outside
      the UID fields. */
  lemma GeneratedUidIgnoresOtherFields(f1: map<string, string>, f2: map<string, string>, sha1Hex: string -> string)
    requires forall f :: f in UidFields ==> (f in f1 <==> f in f2) && (f in f1 ==> f1[f] == f2[f])
    ensures BuildTransactionUid(None, f1, sha1Hex) == BuildTransactionUid(None, f2, sha1Hex)
  {
    if forall f :: f in UidFields ==> f in f1 {
      SameValues(f1, f2, UidFields);
    } else {
      assert MissingUidFieldsOf(f1, UidFields) == MissingUidFieldsOf(f2, UidFields) by {
        SameMissing(f1, f2, UidFields);
      }
    }
  }

  /** Fields that agree on the named ones give the same values. */
  lemma SameValues(f1: map<string, string>, f2: map<string, string>, names: seq<string>)
    requires forall f :: f in names ==> f in f1 && f in f2 && f1[f] == f2[f]
    ensures FieldValues(f1, names) == FieldValues(f2, names)
  {
    var v1, v2 := FieldValues(f1, names), FieldValues(f2, names);
    forall i | 0 <= i < |names|
      ensures v1[i] == v2[i]
    {
      assert names[i] in names;
    }
  }

  lemma {:induction false} SameMissing(f1: map<string, string>, f2: map<string, string>, names: seq<string>)
    requires forall f :: f in names ==> (f in f1 <==> f in f2)
    ensures MissingUidFieldsOf(f1, names) == MissingUidFieldsOf(f2, names)
  {
    if names != [] {
      SameMissing(f1, f2, names[1..]);
    }
  }

  predicate NoSeparator(s: string) {
    forall i :: 0 <= i < |s| ==> s[i] != UidSeparator
  }

  /** The index of the first separator. */
  function FirstSeparator(s: string): (r: Option<nat>)
    ensures r.Some? ==> r.value < |s| && s[r.value] == UidSeparator
    ensures r.Some? ==> forall j :: 0 <= j < r.value ==> s[j] != UidSeparator
    ensures r.None? ==> NoSeparator(s)
  {
    if s == [] then None
    else if s[0] == UidSeparator then Some(0)
    else
      var r := FirstSeparator(s[1..]);
      if r.Some? then Some(r.value + 1) else None
  }

  lemma FirstSeparatorAfter(a: string, rest: string)
    requires NoSeparator(a)
    ensures FirstSeparator(a + [UidSeparator] + rest) == Some(|a|)
  {
    var s := a + [UidSeparator] + rest;
    assert s[|a|] == UidSeparator;
    assert forall j :: 0 <= j < |a| ==> s[j] == a[j];
  }

  /** Fields without the separator are recovered from the payload: the joining step
      loses nothing, so only a hash collision can give two different rows the same
      generated identifier. */
  lemma {:induction false} JoinInjective(p1: seq<string>, p2: seq<string>)
    requires |p1| == |p2|
    requires forall i :: 0 <= i < |p1| ==> NoSeparator(p1[i]) && NoSeparator(p2[i])
    requires Join([UidSeparator], p1) == Join([UidSeparator], p2)
    ensures p1 == p2
  {
    if |p1| >= 2 {
      var a := p1[0];
      var b := p2[0];
      var s := Join([UidSeparator], p1);
      var rest1 := Join([UidSeparator], p1[1..]);
      var rest2 := Join([UidSeparator], p2[1..]);
      assert s == a + [UidSeparator] + rest1;
      assert s == b + [UidSeparator] + rest2;
      FirstSeparatorAfter(a, rest1);
      FirstSeparatorAfter(b, rest2);
      assert a == s[..|a|] == b;
      assert rest1 == s[|a| + 1..] == rest2;
      JoinInjective(p1[1..], p2[1..]);
      assert p1 == [a] + p1[1..] && p2 == [b] + p2[1..];
    }
  }

  /** Equal values of the named fields mean equal fields. */
  lemma ValuesAgree(f1: map<string, string>, f2: map<string, string>, names: seq<string>)
    requires forall f :: f in names ==> f in f1 && f in f2
    requires FieldValues(f1, names) == FieldValues(f2, names)
    ensures forall f :: f in names ==> f1[f] == f2[f]
  {
    forall f | f in names
      ensures f1[f] == f2[f]
    {
      var i :| 0 <= i < |names| && names[i] == f;
      assert FieldValues(f1, names)[i] == FieldValues(f2, names)[i];
    }
  }

  /** The values of named fields without the separator have no separator. */
  lemma ValuesWithoutSeparator(fields: map<string, string>, names: seq<string>)
    requires forall f :: f in names ==> f in fields && NoSeparator(fields[f])
    ensures forall i :: 0 <= i < |names| ==> NoSeparator(FieldValues(fields, names)[i])
  {
    forall i | 0 <= i < |names|
      ensures NoSeparator(FieldValues(fields, names)[i])
    {
      assert names[i] in names;
    }
  }

  /** Two complete field maps without the separator have the same payload only when they
      agree on every UID field. */
  lemma PayloadInjective(f1: map<string, string>, f2: map<string, string>)
    requires forall f :: f in UidFields ==> f in f1 && f in f2 && NoSeparator(f1[f]) && NoSeparator(f2[f])
    requires UidPayload(f1) == UidPayload(f2)
    ensures forall f :: f in UidFields ==> f1[f] == f2[f]
  {
    ValuesWithoutSeparator(f1, UidFields);
    ValuesWithoutSeparator(f2, UidFields);
    JoinInjective(FieldValues(f1, UidFields), FieldValues(f2, UidFields));
    ValuesAgree(f1, f2, UidFields);
  }

  // ---------------------------------------------------------------- a CSV row

  /** What `_prepare_row_for_transaction_uid` reads from a row; the normalised fields are
      `Fields` of it. */
  datatype Prepared = Prepared(
    rowId: Option<string>, source: string, portfolioType: string, operation: string, asset: string,
    symbol: Option<string>, isin: Option<string>, mic: Option<string>,
    quantity: Decimal, unitPrice: Decimal, feeEur: Decimal, totalEur: Decimal,
    feeAsset: string, feeQuantity: Option<Decimal>, tradeDate: int, notes: string)

  /** `_prepare_row_for_transaction_uid`: the fields are read in source order and the
      first failing one is reported. */
  function PrepareRow(row: map<string, string>, env: Env): (r: Result<Prepared, RowError>)
    ensures r.Ok? ==> r.value.rowId == NormalizeOptionalText(Get(row, "id"))
    ensures r.Ok? ==> r.value.source == CleanText(Get(row, "source")) != ""
    ensures r.Ok? ==> r.value.symbol == NormalizeOptionalText(Get(row, "symbol"))
    ensures r.Ok? ==> r.value.notes == NormalizeOptionalTextToString(Get(row, "notes"))
    ensures r.Ok? && CleanText(Get(row, "fee_eur")) == "" ==> r.value.feeEur == Decimal(false, 0, 0)
    ensures CleanText(Get(row, "source")) == "" ==> r == Err(MissingValue("source"))
  {
    var rowId := NormalizeOptionalText(Get(row, "id"));
    var source :- ParseRequiredText(Get(row, "source"), "source");
    var portfolioType :- ParseRequiredText(Get(row, "portfolio_type"), "portfolio_type");
    var operation :- ParseRequiredText(Get(row, "operation"), "operation");
    var asset :- ParseRequiredText(Get(row, "asset"), "asset");
    var symbol := NormalizeOptionalText(Get(row, "symbol"));
    var isin := NormalizeOptionalText(Get(row, "isin"));
    var mic := NormalizeOptionalText(Get(row, "mic"));
    var quantity :- ParseDecimalField(Get(row, "quantity"), None, "quantity");
    var unitPrice :- ParseDecimalField(Get(row, "unit_price_eur"), None, "unit_price_eur");
    var feeEur :- ParseDecimalField(Get(row, "fee_eur"), Some(Decimal(false, 0, 0)), "fee_eur");
    var totalEur :- ParseDecimalField(Get(row, "total_eur"), None, "total_eur");
    var feeAsset := NormalizeOptionalTextToString(Get(row, "fee_asset"));
    var feeQuantity :- ParseOptionalDecimal(Get(row, "fee_quantity"));
    var tradeDate :- ParseTimestamp(Get(row, "date"), "date", env.fromIsoFormat);
    var notes := NormalizeOptionalTextToString(Get(row, "notes"));
    Ok(Prepared(rowId, source, portfolioType, operation, asset, symbol, isin, mic,
                quantity, unitPrice, feeEur, totalEur, feeAsset, feeQuantity, tradeDate, notes))
  }

  /** The normalised fields of a prepared row. */
  function Fields(p: Prepared, isoFormat: int -> string): (r: map<string, string>)
    ensures "id" in r && forall f :: f in UidFields ==> f in r
  {
    BuildNormalizedFields(p.rowId, p.source, p.portfolioType, p.operation, p.asset, p.symbol,
                          p.isin, p.mic, p.quantity, p.unitPrice, p.totalEur, p.feeEur,
                          p.feeAsset, p.feeQuantity, p.tradeDate, p.notes, isoFormat)
  }

  /** A missing `fee_eur` counts as zero and is written `0`. */
  lemma FeeDefaultsToZero(row: map<string, string>, env: Env)
    requires PrepareRow(row, env).Ok? && CleanText(Get(row, "fee_eur")) == ""
    ensures PrepareRow(row, env).value.feeEur == Decimal(false, 0, 0)
    ensures Fields(PrepareRow(row, env).value, env.isoFormat)["fee_eur"] == "0"
  {
    assert NatToString(0) == "0";
    assert FormatFixed(Decimal(false, 0, 0)) == "0";
    DecimalToStringIsFormat(Decimal(false, 0, 0));
  }

  /** A missing quantity is reported once the text fields before it are present. */
  lemma MissingQuantityRejected(row: map<string, string>, env: Env)
    requires CleanText(Get(row, "source")) != "" && CleanText(Get(row, "portfolio_type")) != ""
    requires CleanText(Get(row, "operation")) != "" && CleanText(Get(row, "asset")) != ""
    requires CleanText(Get(row, "quantity")) == ""
    ensures PrepareRow(row, env) == Err(MissingValue("quantity"))
  {
  }

  /** `compute_transaction_uid_from_row`; a prepared row always has every UID field, so the
      only failures are those of reading the row. */
  function ComputeTransactionUid(row: map<string, string>, env: Env): (r: Result<string, RowError>)
    ensures PrepareRow(row, env).Err? ==> r == Err(PrepareRow(row, env).error)
    ensures PrepareRow(row, env).Ok? ==> r.Ok?
  {
    var p :- PrepareRow(row, env);
    BuildTransactionUid(p.rowId, Fields(p, env.isoFormat), env.sha1Hex)
  }

  /** An explicit `id` is the identifier, however the other fields read. */
  lemma ExplicitIdWins(row: map<string, string>, env: Env)
    requires PrepareRow(row, env).Ok? && NormalizeOptionalText(Get(row, "id")).Some?
    ensures ComputeTransactionUid(row, env) == Ok(NormalizeOptionalText(Get(row, "id")).value)
  {
    NormalizeOptionalTextIdempotent(Get(row, "id"));
  }

  // ---------------------------------------------------------------- stored transactions

  /** `float(d)`, with floating point read as exact. */
  function ToReal(d: Decimal): real {
    var magnitude := if d.exponent >= 0 then (d.coefficient * Pow10(d.exponent)) as real
                     else d.coefficient as real / Pow10(-d.exponent) as real;
    if d.negative then -magnitude else magnitude
  }

  /** The columns of a stored transaction that the importer writes. */
  datatype TxData = TxData(
    source: string, portfolioType: string, operation: string, asset: string,
    symbol: Option<string>, isin: Option<string>, mic: Option<string>, symbolOrIsin: Option<string>,
    quantity: real, unitPrice: real, feeEur: real, feeAsset: Option<string>,
    feeQuantity: Option<real>, totalEur: real, tradeDate: int, notes: Option<string>,
    transactionUid: Option<string>)

  /** The columns `_find_identical_transaction` compares, `NULL` matching `None`. */
  datatype FunctionalKey = FunctionalKey(
    source: string, portfolioType: string, operation: string, asset: string,
    symbol: Option<string>, isin: Option<string>, mic: Option<string>,
    quantity: real, unitPrice: real, feeEur: real, feeAsset: Option<string>,
    feeQuantity: Option<real>, totalEur: real, tradeDate: int, notes: Option<string>)

  function Functional(d: TxData): FunctionalKey {
    FunctionalKey(d.source, d.portfolioType, d.operation, d.asset, d.symbol, d.isin, d.mic,
                  d.quantity, d.unitPrice, d.feeEur, d.feeAsset, d.feeQuantity, d.totalEur,
                  d.tradeDate, d.notes)
  }

  /** The `lookup_data` dictionary of a prepared row. */
  function LookupData(p: Prepared): FunctionalKey {
    FunctionalKey(p.source, p.portfolioType, p.operation, p.asset, p.symbol, p.isin, p.mic,
                  ToReal(p.quantity), ToReal(p.unitPrice), ToReal(p.feeEur),
                  if p.feeAsset == "" then None else Some(p.feeAsset),
                  if p.feeQuantity.Some? then Some(ToReal(p.feeQuantity.value)) else None,
                  ToReal(p.totalEur), p.tradeDate,
                  if p.notes != "" then NormalizeOptionalText(Some(p.notes)) else None)
  }

  /** The `data` dictionary written for a prepared row. */
  function RowData(p: Prepared, uid: string): (d: TxData)
    ensures Functional(d) == LookupData(p) && d.transactionUid == Some(uid)
    ensures d.symbolOrIsin == (if p.symbol.Some? then p.symbol else p.isin)
  {
    var k := LookupData(p);
    TxData(k.source, k.portfolioType, k.operation, k.asset, p.symbol, p.isin, p.mic,
           if p.symbol.Some? then p.symbol else if p.isin.Some? then p.isin else None,
           k.quantity, k.unitPrice, k.feeEur, k.feeAsset, k.feeQuantity, k.totalEur,
           k.tradeDate, k.notes, Some(uid))
  }

  /** The notes of the lookup are the normalised notes, or `None` when there are none. */
  lemma LookupNotes(row: map<string, string>, env: Env)
    requires PrepareRow(row, env).Ok?
    ensures LookupData(PrepareRow(row, env).value).notes == NormalizeOptionalText(Get(row, "notes"))
  {
    var p := PrepareRow(row, env).value;
    var n := NormalizeOptionalText(Get(row, "notes"));
    assert p.notes == n.GetOr("");
    NormalizeOptionalTextIdempotent(Get(row, "notes"));
    if p.notes != "" {
      assert n == Some(p.notes);
    }
  }

  /** The two queries of the upsert: `transaction_uid == uid`, and the column-by-column
      comparison of `_find_identical_transaction`. */
  datatype Filter = WithUid(uid: Option<string>) | SameFunctional(key: FunctionalKey)

  predicate Matches(f: Filter, d: TxData) {
    match f
    case WithUid(uid) => d.transactionUid == uid
    case SameFunctional(key) => Functional(d) == key
  }

  /** The positions of the records that satisfy `p`, in increasing order
      (`IndicesWhereSpec`). */
  function IndicesWhere(table: seq<TxData>, p: Filter): (r: seq<nat>)
    ensures forall k :: 0 <= k < |r| ==> r[k] < |table|
  {
    if table == [] then []
    else IndicesWhere(table[..|table| - 1], p) + (if Matches(p, table[|table| - 1]) then [|table| - 1] else [])
  }

  /** Every listed position satisfies `p`. */
  lemma {:induction false} IndicesMatch(table: seq<TxData>, p: Filter)
    ensures forall k :: 0 <= k < |IndicesWhere(table, p)| ==> Matches(p, table[IndicesWhere(table, p)[k]])
  {
    if table != [] {
      var init := table[..|table| - 1];
      IndicesMatch(init, p);
      var r0 := IndicesWhere(init, p);
      assert forall k :: 0 <= k < |r0| ==> table[r0[k]] == init[r0[k]];
    }
  }

  /** Every position satisfying `p` is listed. */
  lemma {:induction false} IndicesComplete(table: seq<TxData>, p: Filter)
    ensures forall i :: 0 <= i < |table| && Matches(p, table[i]) ==> i in IndicesWhere(table, p)
  {
    if table != [] {
      var init := table[..|table| - 1];
      var last := |table| - 1;
      IndicesComplete(init, p);
      var r0 := IndicesWhere(init, p);
      var r := IndicesWhere(table, p);
      forall i | 0 <= i < |table| && Matches(p, table[i])
        ensures i in r
      {
        if i < last {
          assert init[i] == table[i];
          assert i in r0;
        } else {
          assert r[|r| - 1] == last;
        }
      }
    }
  }

  /** The positions are listed in increasing order. */
  lemma {:induction false} IndicesIncreasing(table: seq<TxData>, p: Filter)
    ensures forall k, l :: 0 <= k < l < |IndicesWhere(table, p)| ==> IndicesWhere(table, p)[k] < IndicesWhere(table, p)[l]
  {
    if table != [] {
      var init := table[..|table| - 1];
      IndicesIncreasing(init, p);
      var r0 := IndicesWhere(init, p);
      var r := IndicesWhere(table, p);
      assert forall k :: 0 <= k < |r0| ==> r[k] == r0[k] && r0[k] < |table| - 1;
    }
  }

  /** Exactly the positions satisfying `p` are listed, each once, in increasing order. */
  lemma IndicesWhereSpec(table: seq<TxData>, p: Filter)
    ensures forall k :: 0 <= k < |IndicesWhere(table, p)| ==> Matches(p, table[IndicesWhere(table, p)[k]])
    ensures forall i :: 0 <= i < |table| && Matches(p, table[i]) ==> i in IndicesWhere(table, p)
    ensures forall k, l :: 0 <= k < l < |IndicesWhere(table, p)| ==> IndicesWhere(table, p)[k] < IndicesWhere(table, p)[l]
  {
    IndicesMatch(table, p);
    IndicesComplete(table, p);
    IndicesIncreasing(table, p);
  }

  lemma AtMostOneIndex(table: seq<TxData>, p: Filter)
    requires forall i, j :: 0 <= i < j < |table| && Matches(p, table[i]) ==> !Matches(p, table[j])
    ensures |IndicesWhere(table, p)| <= 1
  {
    AmbiguousIff(table, p);
  }

  lemma IndicesWhereEmpty(table: seq<TxData>, p: Filter)
    requires IndicesWhere(table, p) == []
    ensures forall i :: 0 <= i < |table| ==> !Matches(p, table[i])
  {
    IndicesWhereSpec(table, p);
  }



  predicate NoUidMatch(table: seq<TxData>, uid: Option<string>) {
    forall i :: 0 <= i < |table| ==> table[i].transactionUid != uid
  }

  predicate NoFunctionalMatch(table: seq<TxData>, key: FunctionalKey) {
    forall i :: 0 <= i < |table| ==> Functional(table[i]) != key
  }

  /** Record `i` is overwritten with `data`, either because it has the same identifier or
      because no record has that identifier and record `i` is functionally identical. */
  predicate UpdatedAt(table: seq<TxData>, data: TxData, i: int, result: seq<TxData>) {
    0 <= i < |table| && result == table[i := data]
    && (table[i].transactionUid == data.transactionUid
        || (Functional(table[i]) == Functional(data) && NoUidMatch(table, data.transactionUid)))
  }

  /** Two records satisfy `p`. */
  predicate Ambiguous(table: seq<TxData>, p: Filter) {
    exists i, j :: 0 <= i < j < |table| && Matches(p, table[i]) && Matches(p, table[j])
  }

  /** The upsert of one row: by identifier, else by identical functional fields, else a new
      record. `one_or_none` fails when more than one record qualifies. */
  function Upsert(table: seq<TxData>, data: TxData): (r: Result<seq<TxData>, ImportFailure>)
    ensures r.Err? ==> r.error == MultipleRowsFound
    ensures r.Ok? ==> |table| <= |r.value| <= |table| + 1
  {
    var byUid := IndicesWhere(table, WithUid(data.transactionUid));
    if |byUid| > 1 then Err(MultipleRowsFound)
    else if |byUid| == 1 then Ok(table[byUid[0] := data])
    else UpsertIdentical(table, data)
  }

  /** The second query of the upsert, once no record has the identifier. */
  function UpsertIdentical(table: seq<TxData>, data: TxData): (r: Result<seq<TxData>, ImportFailure>)
    ensures r.Err? ==> r.error == MultipleRowsFound
    ensures r.Ok? ==> |table| <= |r.value| <= |table| + 1
  {
    var same := IndicesWhere(table, SameFunctional(Functional(data)));
    if |same| > 1 then Err(MultipleRowsFound)
    else if |same| == 1 then Ok(table[same[0] := data])
    else Ok(table + [data])
  }

  /** A successful upsert either appends a record that matches nothing stored, or
      overwrites one record as `UpdatedAt` says; either way `data` is stored. */
  lemma UpsertOutcome(table: seq<TxData>, data: TxData)
    requires Upsert(table, data).Ok?
    ensures var r := Upsert(table, data).value;
      (r == table + [data] && NoUidMatch(table, data.transactionUid) && NoFunctionalMatch(table, Functional(data)))
      || exists i :: UpdatedAt(table, data, i, r)
    ensures data in Upsert(table, data).value
  {
    var pu := WithUid(data.transactionUid);
    var byUid := IndicesWhere(table, pu);
    if |byUid| == 1 {
      var i := byUid[0];
      var r := table[i := data];
      assert Upsert(table, data) == Ok(r);
      IndicesWhereSpec(table, pu);
      assert Matches(pu, table[i]);
      assert r[i] == data;
      assert UpdatedAt(table, data, i, r);
    } else {
      assert Upsert(table, data) == UpsertIdentical(table, data);
      IndicesWhereEmpty(table, pu);
      UpsertIdenticalOutcome(table, data);
    }
  }

  lemma UpsertIdenticalOutcome(table: seq<TxData>, data: TxData)
    requires UpsertIdentical(table, data).Ok? && NoUidMatch(table, data.transactionUid)
    ensures var r := UpsertIdentical(table, data).value;
      (r == table + [data] && NoFunctionalMatch(table, Functional(data)))
      || exists i :: UpdatedAt(table, data, i, r)
    ensures data in UpsertIdentical(table, data).value
  {
    var pf := SameFunctional(Functional(data));
    var same := IndicesWhere(table, pf);
    if |same| == 1 {
      var i := same[0];
      var r := table[i := data];
      assert UpsertIdentical(table, data) == Ok(r);
      IndicesWhereSpec(table, pf);
      assert Matches(pf, table[i]);
      assert r[i] == data;
      assert UpdatedAt(table, data, i, r);
    } else {
      var r := table + [data];
      assert UpsertIdentical(table, data) == Ok(r);
      IndicesWhereEmpty(table, pf);
      assert r[|table|] == data;
    }
  }

  /** The upsert fails exactly when one of the two lookups is ambiguous. */
  lemma UpsertFailsWhenAmbiguous(table: seq<TxData>, data: TxData)
    ensures Upsert(table, data).Err? <==>
      Ambiguous(table, WithUid(data.transactionUid))
      || (NoUidMatch(table, data.transactionUid) && Ambiguous(table, SameFunctional(Functional(data))))
  {
    var pu := WithUid(data.transactionUid);
    var pf := SameFunctional(Functional(data));
    AmbiguousIff(table, pu);
    AmbiguousIff(table, pf);
    IndicesWhereSpec(table, pu);
    if IndicesWhere(table, pu) == [] {
      IndicesWhereEmpty(table, pu);
    } else {
      var k := IndicesWhere(table, pu)[0];
      assert table[k].transactionUid == data.transactionUid;
    }
  }

  lemma AmbiguousIff(table: seq<TxData>, p: Filter)
    ensures Ambiguous(table, p) <==> |IndicesWhere(table, p)| > 1
  {
    var r := IndicesWhere(table, p);
    IndicesWhereSpec(table, p);
    if |r| > 1 {
      assert Matches(p, table[r[0]]) && Matches(p, table[r[1]]) && r[0] < r[1];
    }
    if Ambiguous(table, p) {
      var i, j :| 0 <= i < j < |table| && Matches(p, table[i]) && Matches(p, table[j]);
      TwoMembers(r, i, j);
    }
  }

  lemma TwoMembers(r: seq<nat>, i: nat, j: nat)
    requires i in r && j in r && i != j
    ensures |r| >= 2
  {
    var a :| 0 <= a < |r| && r[a] == i;
    var b :| 0 <= b < |r| && r[b] == j;
    assert a != b;
  }

  /** No two stored transactions share an identifier (the `UNIQUE` constraint, under which
      `NULL`s are distinct). */
  predicate UniqueUids(table: seq<TxData>) {
    forall i, j :: 0 <= i < j < |table| && table[i].transactionUid.Some? ==>
      table[i].transactionUid != table[j].transactionUid
  }

  /** The upsert keeps identifiers unique. */
  lemma UpsertKeepsUniqueUids(table: seq<TxData>, data: TxData)
    requires UniqueUids(table) && data.transactionUid.Some? && Upsert(table, data).Ok?
    ensures UniqueUids(Upsert(table, data).value)
  {
    var t := Upsert(table, data).value;
    UpsertOutcome(table, data);
    if t != table + [data] {
      var i :| UpdatedAt(table, data, i, t);
      forall a, b | 0 <= a < b < |t| && t[a].transactionUid.Some?
        ensures t[a].transactionUid != t[b].transactionUid
      {
        if a != i && b != i {
          assert t[a] == table[a] && t[b] == table[b];
        } else if a == i {
          assert t[b] == table[b];
        } else {
          assert t[a] == table[a];
        }
      }
    }
  }

  /** With unique identifiers the lookup by identifier finds at most one record. */
  lemma UniqueUidsFindOne(table: seq<TxData>, uid: Option<string>)
    requires UniqueUids(table) && uid.Some?
    ensures |IndicesWhere(table, WithUid(uid))| <= 1
  {
    AtMostOneIndex(table, WithUid(uid));
  }

  /** A stored identifier is found and its record overwritten in place: the table keeps
      its length and its identifiers. */
  lemma UpsertExistingUid(table: seq<TxData>, data: TxData)
    requires UniqueUids(table) && data.transactionUid.Some? && data.transactionUid in Uids(table)
    ensures Upsert(table, data).Ok?
    ensures |Upsert(table, data).value| == |table|
    ensures Uids(Upsert(table, data).value) == Uids(table)
  {
    var j :| 0 <= j < |table| && table[j].transactionUid == data.transactionUid;
    UniqueUidsFindOne(table, data.transactionUid);
    var byUid := IndicesWhere(table, WithUid(data.transactionUid));
    IndicesWhereSpec(table, WithUid(data.transactionUid));
    assert j in byUid;
    var k := byUid[0];
    var t := table[k := data];
    assert Upsert(table, data) == Ok(t);
    forall u | u in Uids(t) ensures u in Uids(table) {
      var i :| 0 <= i < |t| && t[i].transactionUid == u;
      if i == k { assert table[k].transactionUid == u; }
      else { assert table[i] == t[i]; }
    }
    forall u | u in Uids(table) ensures u in Uids(t) {
      var i :| 0 <= i < |table| && table[i].transactionUid == u;
      if i == k { assert t[k].transactionUid == u; }
      else { assert table[i] == t[i]; }
    }
  }

  /** Upserting the same data again changes nothing: importing a row twice is importing it
      once. */
  lemma UpsertIdempotent(table: seq<TxData>, data: TxData)
    requires UniqueUids(table) && data.transactionUid.Some? && Upsert(table, data).Ok?
    ensures Upsert(Upsert(table, data).value, data) == Upsert(table, data)
  {
    var t := Upsert(table, data).value;
    UpsertOutcome(table, data);
    UpsertKeepsUniqueUids(table, data);
    UpsertOfStored(t, data);
  }

  /** Upserting a record that is already stored, identifier and all, changes nothing. */
  lemma UpsertOfStored(t: seq<TxData>, data: TxData)
    requires UniqueUids(t) && data.transactionUid.Some? && data in t
    ensures Upsert(t, data) == Ok(t)
  {
    UniqueUidsFindOne(t, data.transactionUid);
    var byUid := IndicesWhere(t, WithUid(data.transactionUid));
    IndicesWhereSpec(t, WithUid(data.transactionUid));
    var k :| 0 <= k < |t| && t[k] == data;
    assert k in byUid;
    assert t[byUid[0] := data] == t;
  }

  /** The identifiers present in a table. */
  function Uids(table: seq<TxData>): set<Option<string>> {
    set i | 0 <= i < |table| :: table[i].transactionUid
  }

  // ---------------------------------------------------------------- the whole file

  /** The required columns absent from the header, in the documented order. */
  function MissingColumnsOf(header: seq<string>, required: seq<string>): (r: seq<string>)
    ensures forall c :: c in r <==> c in required && c !in header
    ensures |r| <= |required|
  {
    if required == [] then []
    else (if required[0] in header then [] else [required[0]]) + MissingColumnsOf(header, required[1..])
  }

  /** The header check: a header is required, and it must name every required column. */
  function CheckHeader(header: seq<string>): (r: Result<(), ImportFailure>)
    ensures r.Ok? <==> header != [] && forall c :: c in RequiredColumns ==> c in header
    ensures header == [] ==> r == Err(MissingHeader)
    ensures header != [] && r.Err? ==> r.error == MissingColumns(MissingColumnsOf(header, RequiredColumns))
  {
    if header == [] then Err(MissingHeader)
    else
      var missing := MissingColumnsOf(header, RequiredColumns);
      if missing != [] then
        assert missing[0] in missing;
        Err(MissingColumns(missing))
      else Ok(())
  }

  /** One row, numbered by record starting at 2 (the header is record 1): read it, give it
      its identifier, upsert it. Reading errors carry the row number. */
  function ProcessRow(table: seq<TxData>, row: map<string, string>, number: nat, env: Env): (r: Result<seq<TxData>, ImportFailure>)
    ensures ComputeTransactionUid(row, env).Err? ==> r == Err(RowFailed(number, ComputeTransactionUid(row, env).error))
    ensures ComputeTransactionUid(row, env).Ok? ==>
      r == Upsert(table, RowData(PrepareRow(row, env).value, ComputeTransactionUid(row, env).value))
  {
    match PrepareRow(row, env)
    case Err(e) => Err(RowFailed(number, e))
    case Ok(p) =>
      match BuildTransactionUid(p.rowId, Fields(p, env.isoFormat), env.sha1Hex)
      case Err(e) => Err(RowFailed(number, e))
      case Ok(uid) => Upsert(table, RowData(p, uid))
  }

  /** The rows in file order, the first one numbered `first`. */
  function ProcessRows(table: seq<TxData>, rows: seq<map<string, string>>, first: nat, env: Env): (r: Result<seq<TxData>, ImportFailure>)
    ensures r.Ok? ==> |table| <= |r.value| <= |table| + |rows|
  {
    if rows == [] then Ok(table)
    else
      var t :- ProcessRows(table, rows[..|rows| - 1], first, env);
      ProcessRow(t, rows[|rows| - 1], first + |rows| - 1, env)
  }

  /** `_import_transactions`: the header check, then every row from line 2 on. */
  function ImportTransactions(table: seq<TxData>, header: seq<string>, rows: seq<map<string, string>>, env: Env): (r: Result<seq<TxData>, ImportFailure>)
    ensures CheckHeader(header).Err? ==> r == Err(CheckHeader(header).error)
  {
    var _ :- CheckHeader(header);
    ProcessRows(table, rows, 2, env)
  }

  /** Importing keeps transaction identifiers unique. */
  lemma {:induction false} ProcessRowsKeepsUniqueUids(table: seq<TxData>, rows: seq<map<string, string>>, first: nat, env: Env)
    requires UniqueUids(table) && ProcessRows(table, rows, first, env).Ok?
    ensures UniqueUids(ProcessRows(table, rows, first, env).value)
  {
    if rows != [] {
      var init := rows[..|rows| - 1];
      ProcessRowsKeepsUniqueUids(table, init, first, env);
      var t := ProcessRows(table, init, first, env).value;
      var row := rows[|rows| - 1];
      var p := PrepareRow(row, env).value;
      UpsertKeepsUniqueUids(t, RowData(p, ComputeTransactionUid(row, env).value));
    }
  }

  /** Re-importing rows whose identifiers are all stored already updates in place: the
      table keeps its length and its identifiers. */
  lemma {:induction false} ReimportAddsNothing(table: seq<TxData>, rows: seq<map<string, string>>, first: nat, env: Env)
    requires UniqueUids(table) && ProcessRows(table, rows, first, env).Ok?
    requires forall k :: 0 <= k < |rows| && ComputeTransactionUid(rows[k], env).Ok? ==>
      Some(ComputeTransactionUid(rows[k], env).value) in Uids(table)
    ensures |ProcessRows(table, rows, first, env).value| == |table|
    ensures Uids(ProcessRows(table, rows, first, env).value) == Uids(table)
  {
    if rows != [] {
      var init := rows[..|rows| - 1];
      assert forall k :: 0 <= k < |init| ==> init[k] == rows[k];
      ReimportAddsNothing(table, init, first, env);
      var t := ProcessRows(table, init, first, env).value;
      ProcessRowsKeepsUniqueUids(table, init, first, env);
      var row := rows[|rows| - 1];
      var uid := ComputeTransactionUid(row, env).value;
      UpsertExistingUid(t, RowData(PrepareRow(row, env).value, uid));
    }
  }

  /** The importer over a database session: the table is what is committed, so a failed
      import, whose changes are never committed, leaves it as it was. */
  class Importer {
    var table: seq<TxData>

    constructor(table: seq<TxData>)
      ensures this.table == table
    {
      this.table := table;
    }

    method ImportTransactionsCsv(header: seq<string>, rows: seq<map<string, string>>, env: Env)
      returns (r: Result<(), ImportFailure>)
      modifies this
      ensures var spec := ImportTransactions(old(table), header, rows, env);
        (r.Ok? <==> spec.Ok?)
        && (spec.Ok? ==> table == spec.value)
        && (spec.Err? ==> r == Err(spec.error) && table == old(table))
    {
      var checked := CheckHeader(header);
      if checked.Err? {
        return Err(checked.error);
      }
      var working := table;
      for i := 0 to |rows|
        invariant ProcessRows(table, rows[..i], 2, env) == Ok(working)
      {
        assert rows[..i + 1][..i] == rows[..i];
        var next := ProcessRow(working, rows[i], 2 + i, env);
        if next.Err? {
          assert ProcessRows(table, rows[..i + 1], 2, env) == next;
          ProcessRowsStopsAtError(table, rows, i + 1, env);
          return Err(next.error);
        }
        working := next.value;
      }
      assert rows[..|rows|] == rows;
      table := working;
      r := Ok(());
    }
  }

  /** Once a row fails, the whole import fails with that row's error. */
  lemma {:induction false} ProcessRowsStopsAtError(table: seq<TxData>, rows: seq<map<string, string>>, n: nat, env: Env)
    requires n <= |rows| && ProcessRows(table, rows[..n], 2, env).Err?
    ensures ProcessRows(table, rows, 2, env) == ProcessRows(table, rows[..n], 2, env)
    decreases |rows| - n
  {
    if n < |rows| {
      assert rows[..n + 1][..n] == rows[..n];
      ProcessRowsStopsAtError(table, rows, n + 1, env);
    } else {
      assert rows[..n] == rows;
    }
  }
}
