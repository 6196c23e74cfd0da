/** Migration 0005 on the holdings table
    (alembic/versions/0005_add_instrument_fields_to_holdings.py): `type_portefeuille` is
    renamed `portfolio_type`, the instrument columns are added, `symbol_or_isin` is split
    into `symbol` or `isin`, and the portfolio type gets its `PEA` default. The table is an
    array of rows rewritten in place, one pass per `UPDATE` statement or Python loop. */
module Migration0005 {
  import opened Base
  import opened Text
  import opened Backfill

  /** The columns of a holding row that the migration reads or writes. */
  datatype HoldingRow = HoldingRow(
    id: int,
    symbolOrIsin: Option<string>,
    symbol: Option<string>,
    isin: Option<string>,
    mic: Option<string>,
    portfolioType: Option<string>,
    typePortefeuille: Option<string>)

  // ---------------------------------------------------------------- the helpers

  /** `_normalize_isin` (lines 39-40): spaces removed and upper-cased, nothing validated. */
  function NormalizeIsin(value: string): (r: string)
    ensures |r| <= |value|
    ensures forall i :: 0 <= i < |r| ==> r[i] != ' ' && !IsAsciiLower(r[i])
  {
    SpacelessUpper(value)
  }

  /** `_is_isin_candidate` (lines 43-49). */
  predicate IsIsinCandidate(value: string) {
    LooseIsin(NormalizeIsin(value))
  }

  /** `_normalize_isin` is idempotent, so testing a normalised value is testing its own
      shape: the loop's `_is_isin_candidate(normalized)` holds exactly when `normalized`
      has length 12, two leading letters and only letters and digits. */
  lemma CandidateOfNormalized(value: string)
    ensures NormalizeIsin(NormalizeIsin(value)) == NormalizeIsin(value)
    ensures IsIsinCandidate(NormalizeIsin(value)) <==> LooseIsin(NormalizeIsin(value))
  {
    SpacelessUpperIdempotent(value);
  }

  /** Spaces anywhere and the case of letters do not matter to the normal form, hence not
      to the candidate test. */
  lemma NormalizeIgnoresSpacesAndCase(a: string, b: string)
    ensures NormalizeIsin(a + " " + b) == NormalizeIsin(a + b)
    ensures NormalizeIsin(Upper(a)) == NormalizeIsin(a)
    ensures IsIsinCandidate(a + " " + b) <==> IsIsinCandidate(a + b)
  {
    RemoveSpacesConcat(a + " ", b);
    RemoveSpacesConcat(a, " ");
    RemoveSpacesConcat(a, b);
    assert RemoveSpaces(" ") == [];
    RemoveSpacesUpper(a);
    UpperIdempotent(RemoveSpaces(a));
  }

  // ---------------------------------------------------------------- the schema step

  predicate TypeRenamed(before: set<string>) {
    "type_portefeuille" in before && "portfolio_type" !in before
  }

  /** The columns after lines 57-80: `portfolio_type` (renamed or added) and the
      instrument columns are present. */
  function UpgradedColumns(before: set<string>): (after: set<string>)
    ensures {"portfolio_type", "symbol", "isin", "mic"} <= after
    ensures forall c :: c in after ==> c in before || c in {"portfolio_type", "symbol", "isin", "mic"}
    ensures TypeRenamed(before) ==> "type_portefeuille" !in after
  {
    (before - (if TypeRenamed(before) then {"type_portefeuille"} else {})) + {"portfolio_type", "symbol", "isin", "mic"}
  }

  /** The schema step on one row: the renamed type keeps its values, added columns start
      out `NULL`. */
  function RenameRow(row: HoldingRow, before: set<string>): (r: HoldingRow)
    ensures TypeRenamed(before) ==> r.portfolioType == row.typePortefeuille
    ensures "portfolio_type" in before ==> r.portfolioType == row.portfolioType
  {
    var renamed := TypeRenamed(before);
    row.(
      portfolioType := if renamed then row.typePortefeuille else if "portfolio_type" in before then row.portfolioType else None,
      typePortefeuille := if renamed then None else row.typePortefeuille,
      symbol := if "symbol" in before then row.symbol else None,
      isin := if "isin" in before then row.isin else None,
      mic := if "mic" in before then row.mic else None)
  }

  // ---------------------------------------------------------------- the data passes

  /** Lines 84-113: only the one column chosen is written. */
  function SplitPass(row: HoldingRow, columns: set<string>): HoldingRow {
    if !({"symbol_or_isin", "symbol", "isin"} <= columns) then row
    else
      var raw := Strip(row.symbolOrIsin.GetOr(""));
      if raw == "" || HasText(row.symbol) || HasText(row.isin) then row
      else
        var normalized := NormalizeIsin(raw);
        if IsIsinCandidate(normalized) then row.(isin := Some(normalized))
        else row.(symbol := Some(Strip(raw)))
  }

  /** The split decides as migration 0004's does: same rows skipped, same value written,
      but only into the chosen column; the other keeps what it held. */
  lemma SplitPassDecision(row: HoldingRow, columns: set<string>)
    requires {"symbol_or_isin", "symbol", "isin"} <= columns
    ensures var r := SplitPass(row, columns);
      match SplitInstrument(row.symbolOrIsin, row.symbol, row.isin)
      case None => r == row
      case Some(IsinSplit(n)) => r == row.(isin := Some(n))
      case Some(SymbolSplit(s)) => r == row.(symbol := Some(s))
  {
    var raw := Strip(row.symbolOrIsin.GetOr(""));
    CandidateOfNormalized(raw);
    StripIdempotent(row.symbolOrIsin.GetOr(""));
    SplitInstrumentCases(row.symbolOrIsin, row.symbol, row.isin);
  }

  /** A written row has a non-blank symbol or ISIN, so a second split skips it. */
  lemma SplitPassIdempotent(row: HoldingRow, columns: set<string>)
    ensures SplitPass(SplitPass(row, columns), columns) == SplitPass(row, columns)
  {
    if {"symbol_or_isin", "symbol", "isin"} <= columns {
      SplitPassDecision(row, columns);
      var s := SplitInstrument(row.symbolOrIsin, row.symbol, row.isin);
      if s.Some? {
        var r := SplitPass(row, columns);
        assert HasText(r.symbol) || HasText(r.isin);
      }
    }
  }

  /** Lines 115-123: `COALESCE(NULLIF(TRIM(portfolio_type), ''), 'PEA')`. */
  function PortfolioTypeDefault(portfolioType: Option<string>): (r: string)
    ensures r != ""
  {
    match portfolioType
    case None => "PEA"
    case Some(t) => if SqlTrim(t) == "" then "PEA" else SqlTrim(t)
  }

  /** A missing or blank type becomes `PEA`; any other is trimmed of spaces and keeps its
      case (unlike migration 0006, which upper-cases it); applying the default again
      changes nothing. */
  lemma PortfolioTypeDefaultProperties(portfolioType: Option<string>)
    ensures portfolioType.None? || SqlTrim(portfolioType.value) == "" ==> PortfolioTypeDefault(portfolioType) == "PEA"
    ensures portfolioType.Some? && SqlTrim(portfolioType.value) != "" ==>
      PortfolioTypeDefault(portfolioType) == SqlTrim(portfolioType.value)
    ensures PortfolioTypeDefault(Some(PortfolioTypeDefault(portfolioType))) == PortfolioTypeDefault(portfolioType)
  {
    if portfolioType.Some? && SqlTrim(portfolioType.value) != "" {
      TrimIdempotent(portfolioType.value, IsSpaceChar);
    } else {
      assert SqlTrim("PEA") == "PEA";
    }
  }

  /** The type's case is kept: `pea` stays lower-case. */
  lemma LowerCaseTypeExample(t: string)
    requires t == " pea "
    ensures PortfolioTypeDefault(Some(t)) == "pea"
  {
    assert TrimStart(t, IsSpaceChar) == "pea ";
    assert TrimEnd("pea ", IsSpaceChar) == "pea";
  }

  function DefaultPass(row: HoldingRow, columns: set<string>): HoldingRow {
    if "portfolio_type" in columns then row.(portfolioType := Some(PortfolioTypeDefault(row.portfolioType))) else row
  }

  /** `upgrade()` on one row, given the columns the table had before it. */
  function UpgradeRow(row: HoldingRow, before: set<string>): HoldingRow {
    var columns := UpgradedColumns(before);
    DefaultPass(SplitPass(RenameRow(row, before), columns), columns)
  }

  method Upgrade(rows: array<HoldingRow>, before: set<string>) returns (columns: set<string>)
    modifies rows
    ensures columns == UpgradedColumns(before)
    ensures forall i :: 0 <= i < rows.Length ==> rows[i] == UpgradeRow(old(rows[i]), before)
  {
    columns := UpgradedColumns(before);
    MapRows(rows, row => RenameRow(row, before));
    MapRows(rows, row => SplitPass(row, columns));
    MapRows(rows, row => DefaultPass(row, columns));
  }

  /** After `upgrade()` every row has a non-empty portfolio type, the old one when it was
      not blank, so the `NOT NULL` constraint of lines 124-129 holds. */
  lemma UpgradeSetsPortfolioType(row: HoldingRow, before: set<string>)
    ensures var r := UpgradeRow(row, before);
      && r.portfolioType.Some? && r.portfolioType.value != ""
      && r.portfolioType == Some(PortfolioTypeDefault(RenameRow(row, before).portfolioType))
  {
  }

  /** Running the migration again changes nothing. */
  lemma UpgradeRowIdempotent(row: HoldingRow, before: set<string>)
    ensures UpgradeRow(UpgradeRow(row, before), UpgradedColumns(before)) == UpgradeRow(row, before)
  {
    var columns := UpgradedColumns(before);
    assert UpgradedColumns(columns) == columns;
    var once := UpgradeRow(row, before);
    assert RenameRow(once, columns) == once;
    var s := SplitPass(RenameRow(row, before), columns);
    SplitPassIdempotent(RenameRow(row, before), columns);
    assert SplitPass(once, columns) == once by {
      assert once == s.(portfolioType := once.portfolioType);
    }
    PortfolioTypeDefaultProperties(s.portfolioType);
  }

  // ---------------------------------------------------------------- downgrade

  /** Lines 139-153: `symbol_or_isin` takes back the ISIN or the symbol, and both are
      cleared. */
  function DowngradeRow(row: HoldingRow, columns: set<string>): HoldingRow {
    if {"symbol_or_isin", "symbol", "isin"} <= columns then
      row.(symbolOrIsin := MergeInstrument(row.symbolOrIsin, row.symbol, row.isin), symbol := None, isin := None)
    else row
  }

  method Downgrade(rows: array<HoldingRow>, columns: set<string>)
    modifies rows
    ensures forall i :: 0 <= i < rows.Length ==> rows[i] == DowngradeRow(old(rows[i]), columns)
  {
    MapRows(rows, row => DowngradeRow(row, columns));
  }

  /** Downgrading a row the split wrote to as an ISIN puts the normalised code back; one
      written as a symbol gets the symbol back when its ISIN column is absent or only
      spaces. */
  lemma DowngradeAfterSplit(row: HoldingRow, columns: set<string>)
    requires {"symbol_or_isin", "symbol", "isin"} <= columns
    requires SplitInstrument(row.symbolOrIsin, row.symbol, row.isin).Some?
    ensures var s := SplitInstrument(row.symbolOrIsin, row.symbol, row.isin).value;
      var r := DowngradeRow(SplitPass(row, columns), columns);
      (s.IsinSplit? || row.isin.None? || SqlTrim(row.isin.value) == "") ==> r.symbolOrIsin == Some(Written(s))
  {
    SplitPassDecision(row, columns);
  }

  /** The split tests blankness with Python's `strip()`, the downgrade with SQL's `TRIM`,
      which removes only spaces: a tab left in `isin` beside a symbol replaces the symbol. */
  lemma TabIsinExample(row: HoldingRow, columns: set<string>)
    requires {"symbol_or_isin", "symbol", "isin"} <= columns
    requires row.symbolOrIsin == Some("AAPL") && row.symbol.None? && row.isin == Some("\t")
    ensures SplitPass(row, columns).symbol == Some("AAPL")
    ensures DowngradeRow(SplitPass(row, columns), columns).symbolOrIsin == Some("\t")
  {
    assert AllSpace("\t");
    BlankIffAllSpace("\t");
    assert Strip("AAPL") == "AAPL";
    assert NormalizeIsin("AAPL") == "AAPL";
    assert SqlTrim("\t") == "\t";
  }
}
