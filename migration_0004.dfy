/** Migration 0004 on the transactions table (alembic/versions/0004_split_symbol_and_isin.py):
    the renamed and added columns, then the data passes of `upgrade()` in their order
    (copy `external_ref`, fill `trade_date`, split `symbol_or_isin` into `symbol` or
    `isin`, give every row a transaction identifier), and the data passes of
    `downgrade()`. The table is an array of rows rewritten in place, one pass per `UPDATE`
    statement or Python loop; constraints and column types are not modelled. */
module Migration0004 {
  import opened Base
  import opened Text
  import opened Identifiers
  import opened Backfill

  /** The columns of a transaction row that the migration reads or writes; a column the
      table lacks is never read. Timestamps are opaque integers. */
  datatype TxRow = TxRow(
    id: int,
    symbolOrIsin: Option<string>,
    symbol: Option<string>,
    isin: Option<string>,
    transactionUid: Option<string>,
    externalRef: Option<string>,
    tradeDate: Option<int>,
    createdAt: Option<int>,
    ts: Option<int>)

  // ---------------------------------------------------------------- the schema step

  /** `alter_column(from, new_column_name=to)` runs when `from` exists and `to` does not. */
  predicate Renamed(before: set<string>, from: string, to: string) {
    from in before && to !in before
  }

  /** The columns the schema step guarantees (lines 67-97). */
  const AddedColumns: set<string> :=
    {"portfolio_type", "transaction_uid", "trade_date", "symbol", "isin", "mic", "fee_quantity"}

  function RenamedAway(before: set<string>): set<string> {
    (if Renamed(before, "type_portefeuille", "portfolio_type") then {"type_portefeuille"} else {})
    + (if Renamed(before, "external_ref", "transaction_uid") then {"external_ref"} else {})
    + (if Renamed(before, "ts", "trade_date") then {"ts"} else {})
  }

  /** The column set after the schema step, as the inspector sees it at lines 99-101: every
      added column is present, and the renamed sources are gone. */
  function UpgradedColumns(before: set<string>): (after: set<string>)
    ensures AddedColumns <= after
    ensures forall c :: c in after ==> c in before || c in AddedColumns
    ensures Renamed(before, "external_ref", "transaction_uid") ==> "external_ref" !in after
    ensures Renamed(before, "ts", "trade_date") ==> "ts" !in after
  {
    (before - RenamedAway(before)) + AddedColumns
  }

  /** The schema step on one row: a renamed column carries its values to the new name, an
      added column starts out `NULL`. */
  function RenameRow(row: TxRow, before: set<string>): TxRow {
    var uidRenamed := Renamed(before, "external_ref", "transaction_uid");
    var tsRenamed := Renamed(before, "ts", "trade_date");
    row.(
      transactionUid := if uidRenamed then row.externalRef else if "transaction_uid" in before then row.transactionUid else None,
      externalRef := if uidRenamed then None else row.externalRef,
      tradeDate := if tsRenamed then row.ts else if "trade_date" in before then row.tradeDate else None,
      ts := if tsRenamed then None else row.ts,
      symbol := if "symbol" in before then row.symbol else None,
      isin := if "isin" in before then row.isin else None)
  }

  /** A renamed column keeps its values under its new name. */
  lemma RenameCarriesValues(row: TxRow, before: set<string>)
    ensures Renamed(before, "external_ref", "transaction_uid") ==>
      RenameRow(row, before).transactionUid == row.externalRef
    ensures Renamed(before, "ts", "trade_date") ==> RenameRow(row, before).tradeDate == row.ts
    ensures "transaction_uid" in before ==> RenameRow(row, before).transactionUid == row.transactionUid
    ensures "trade_date" in before ==> RenameRow(row, before).tradeDate == row.tradeDate
  {
  }

  // ---------------------------------------------------------------- the data passes

  /** Lines 114-123: an existing `external_ref` fills a missing `transaction_uid`. */
  function CopyExternalRefPass(row: TxRow, columns: set<string>): TxRow {
    if "transaction_uid" in columns && "external_ref" in columns
       && row.transactionUid.None? && row.externalRef.Some?
    then row.(transactionUid := row.externalRef)
    else row
  }

  /** Lines 125-154: `trade_date` from `created_at`, then `ts`, then the current time. */
  function TradeDatePass(row: TxRow, columns: set<string>, now: int): TxRow {
    if "trade_date" in columns then
      row.(tradeDate := Some(FillTradeDate(row.tradeDate, row.createdAt, row.ts,
                                           "created_at" in columns, "ts" in columns, now)))
    else row
  }

  predicate HasSplitColumns(columns: set<string>) {
    {"symbol_or_isin", "symbol", "isin"} <= columns
  }

  /** Lines 156-186: both `symbol` and `isin` are written, one of them `NULL`. */
  function SplitPass(row: TxRow, columns: set<string>): TxRow {
    if !HasSplitColumns(columns) then row
    else
      match SplitInstrument(row.symbolOrIsin, row.symbol, row.isin)
      case None => row
      case Some(IsinSplit(normalized)) => row.(symbol := None, isin := Some(normalized))
      case Some(SymbolSplit(raw)) => row.(symbol := Some(raw), isin := None)
  }

  /** Lines 188-201: a blank identifier becomes `legacy-tx-<id>`; any other one, even with
      surrounding blanks, is left as it is. */
  function LegacyUidPass(row: TxRow, columns: set<string>): TxRow {
    if "transaction_uid" in columns && IsBlank(row.transactionUid.GetOr("")) then
      row.(transactionUid := Some(LegacyUid(row.id)))
    else row
  }

  /** `upgrade()` on one row, given the columns the table had before it. */
  function UpgradeRow(row: TxRow, before: set<string>, now: int): TxRow {
    var columns := UpgradedColumns(before);
    LegacyUidPass(SplitPass(TradeDatePass(CopyExternalRefPass(RenameRow(row, before), columns), columns, now), columns), columns)
  }

  /** `upgrade()`: the schema step, then the passes in the source's order. */
  method Upgrade(rows: array<TxRow>, before: set<string>, now: int) returns (columns: set<string>)
    modifies rows
    ensures columns == UpgradedColumns(before)
    ensures forall i :: 0 <= i < rows.Length ==> rows[i] == UpgradeRow(old(rows[i]), before, now)
  {
    columns := UpgradedColumns(before);
    MapRows(rows, row => RenameRow(row, before));
    MapRows(rows, row => CopyExternalRefPass(row, columns));
    MapRows(rows, row => TradeDatePass(row, columns, now));
    MapRows(rows, row => SplitPass(row, columns));
    MapRows(rows, row => LegacyUidPass(row, columns));
  }

  // ---------------------------------------------------------------- what the split does

  /** A row is skipped when its `symbol_or_isin` is blank or it already has a symbol or an
      ISIN; otherwise exactly one of the two is set: the normal form as the ISIN when it
      passes the loose ISIN test, else the stripped value as the symbol. Nothing else
      changes. */
  lemma SplitPassCases(row: TxRow, columns: set<string>)
    requires HasSplitColumns(columns)
    ensures var r := SplitPass(row, columns);
      var raw := Strip(row.symbolOrIsin.GetOr(""));
      var normalized := SpacelessUpper(raw);
      && r == row.(symbol := r.symbol, isin := r.isin)
      && (IsBlank(row.symbolOrIsin.GetOr("")) || HasText(row.symbol) || HasText(row.isin) ==> r == row)
      && (!IsBlank(row.symbolOrIsin.GetOr("")) && !HasText(row.symbol) && !HasText(row.isin) ==>
           if LooseIsin(normalized) then r.isin == Some(normalized) && r.symbol.None?
           else r.symbol == Some(raw) && r.isin.None?)
  {
    SplitInstrumentCases(row.symbolOrIsin, row.symbol, row.isin);
  }

  /** A row the split wrote to has a non-blank symbol or ISIN, so a second split skips it. */
  lemma SplitPassIdempotent(row: TxRow, columns: set<string>)
    ensures SplitPass(SplitPass(row, columns), columns) == SplitPass(row, columns)
  {
    if HasSplitColumns(columns) {
      var s := SplitInstrument(row.symbolOrIsin, row.symbol, row.isin);
      if s.Some? {
        var r := SplitPass(row, columns);
        assert HasText(r.symbol) || HasText(r.isin);
        SplitInstrumentCases(r.symbolOrIsin, r.symbol, r.isin);
      }
    }
  }

  /** Every real ISIN passes the loose test. */
  lemma IsinShapeIsLoose(v: string)
    requires IsIsinShape(v)
    ensures LooseIsin(v)
  {
    assert AllLetters(v[..2]) by {
      assert v[..2][0] == v[0] && v[..2][1] == v[1];
    }
  }

  /** The loose test also takes twelve letters for an ISIN. */
  lemma LooseIsinExample(v: string)
    requires v == "ABCDEFGHIJKL"
    ensures LooseIsin(v) && !IsIsinShape(v)
  {
    assert AllLetters(v[..2]) by {
      assert v[..2][0] == 'A' && v[..2][1] == 'B';
    }
  }

  // ---------------------------------------------------------------- after the upgrade

  /** The values `upgrade()` leaves in the two columns that become `NOT NULL` (lines
      203-230): the first known date, and the existing identifier or the legacy one. */
  lemma UpgradeRowOutcome(row: TxRow, before: set<string>, now: int)
    ensures var m := RenameRow(row, before);
      var columns := UpgradedColumns(before);
      var c := CopyExternalRefPass(m, columns);
      var r := UpgradeRow(row, before, now);
      && r.id == row.id && r.symbolOrIsin == row.symbolOrIsin
      && r.tradeDate == Some(FillTradeDate(m.tradeDate, m.createdAt, m.ts, "created_at" in columns, "ts" in columns, now))
      && (!IsBlank(c.transactionUid.GetOr("")) ==> r.transactionUid == c.transactionUid)
      && (IsBlank(c.transactionUid.GetOr("")) ==> r.transactionUid == Some(LegacyUid(row.id)))
  {
    var columns := UpgradedColumns(before);
    var m := RenameRow(row, before);
    var c := CopyExternalRefPass(m, columns);
    var t := TradeDatePass(c, columns, now);
    assert t.tradeDate == Some(FillTradeDate(m.tradeDate, m.createdAt, m.ts, "created_at" in columns, "ts" in columns, now));
    SplitPassKeeps(t, columns);
  }

  /** The split pass writes only `symbol` and `isin`. */
  lemma SplitPassKeeps(row: TxRow, columns: set<string>)
    ensures SplitPass(row, columns) == row.(symbol := SplitPass(row, columns).symbol, isin := SplitPass(row, columns).isin)
  {
  }

  /** After `upgrade()` every row has a trade date and a non-blank transaction identifier,
      so the `NOT NULL` constraints it then adds hold. */
  lemma UpgradeFillsRequiredColumns(row: TxRow, before: set<string>, now: int)
    ensures UpgradeRow(row, before, now).tradeDate.Some?
    ensures HasText(UpgradeRow(row, before, now).transactionUid)
  {
    var columns := UpgradedColumns(before);
    var s := SplitPass(TradeDatePass(CopyExternalRefPass(RenameRow(row, before), columns), columns, now), columns);
    if IsBlank(s.transactionUid.GetOr("")) {
      var l := LegacyUid(row.id);
      assert l[0] == 'l';
      BlankIffAllSpace(l);
    }
  }

  /** The schema step finds nothing to do on a table it has already upgraded. */
  lemma UpgradedColumnsStable(before: set<string>)
    ensures UpgradedColumns(UpgradedColumns(before)) == UpgradedColumns(before)
  {
  }

  /** Running the migration's data passes again, at any later time, leaves every row as it
      is. */
  lemma UpgradeRowIdempotent(row: TxRow, before: set<string>, now: int, later: int)
    ensures UpgradeRow(UpgradeRow(row, before, now), UpgradedColumns(before), later) == UpgradeRow(row, before, now)
  {
    var columns := UpgradedColumns(before);
    UpgradedColumnsStable(before);
    var once := UpgradeRow(row, before, now);
    UpgradeFillsRequiredColumns(row, before, now);
    assert RenameRow(once, columns) == once;
    assert CopyExternalRefPass(once, columns) == once;
    var m := RenameRow(row, before);
    var c := CopyExternalRefPass(m, columns);
    FillTradeDateIdempotent(c.tradeDate, c.createdAt, c.ts, "created_at" in columns, "ts" in columns, now, later);
    assert TradeDatePass(once, columns, later) == once;
    var t := TradeDatePass(c, columns, now);
    SplitPassIdempotent(t, columns);
    var s := SplitPass(t, columns);
    assert once == LegacyUidPass(s, columns);
    assert SplitPass(once, columns) == once by {
      assert once == s.(transactionUid := once.transactionUid);
      if HasSplitColumns(columns) {
        SplitInstrumentCases(s.symbolOrIsin, s.symbol, s.isin);
        SplitInstrumentCases(once.symbolOrIsin, once.symbol, once.isin);
      }
    }
  }

  // ---------------------------------------------------------------- downgrade

  /** `downgrade()` on one row (lines 240-276): `symbol_or_isin` takes back the ISIN or the
      symbol and both are cleared, `external_ref` takes the identifier, and a missing
      `created_at` takes the trade date. */
  function DowngradeRow(row: TxRow, columns: set<string>): TxRow {
    var merged :=
      if HasSplitColumns(columns) then row.(symbolOrIsin := MergeInstrument(row.symbolOrIsin, row.symbol, row.isin), symbol := None, isin := None)
      else row;
    var withRef :=
      if "external_ref" in columns && "transaction_uid" in columns && merged.transactionUid.Some? then merged.(externalRef := merged.transactionUid)
      else merged;
    if "created_at" in columns && "trade_date" in columns && withRef.createdAt.None? && withRef.tradeDate.Some? then withRef.(createdAt := withRef.tradeDate)
    else withRef
  }

  method Downgrade(rows: array<TxRow>, columns: set<string>)
    modifies rows
    ensures forall i :: 0 <= i < rows.Length ==> rows[i] == DowngradeRow(old(rows[i]), columns)
  {
    MapRows(rows, row => DowngradeRow(row, columns));
  }

  /** Downgrading a row the split wrote to puts the written value back into
      `symbol_or_isin`: the original value itself when it was already stripped and, for an
      ISIN, already in normal form. */
  lemma DowngradeAfterSplit(row: TxRow, columns: set<string>)
    requires HasSplitColumns(columns)
    requires SplitInstrument(row.symbolOrIsin, row.symbol, row.isin).Some?
    ensures var r := DowngradeRow(SplitPass(row, columns), columns);
      && r.symbolOrIsin == Some(Written(SplitInstrument(row.symbolOrIsin, row.symbol, row.isin).value))
      && r.symbol.None? && r.isin.None?
    ensures var raw := Strip(row.symbolOrIsin.GetOr(""));
      raw == row.symbolOrIsin.value && (LooseIsin(SpacelessUpper(raw)) ==> SpacelessUpper(raw) == raw) ==>
      DowngradeRow(SplitPass(row, columns), columns).symbolOrIsin == row.symbolOrIsin
  {
    SplitInstrumentCases(row.symbolOrIsin, row.symbol, row.isin);
  }

  // ---------------------------------------------------------------- the uniqueness of transaction_uid

  /** What the `uq_transactions_transaction_uid` constraint (lines 107-112) demands: no two
      rows share a non-`NULL` identifier. */
  predicate UidsUnique(rows: seq<TxRow>) {
    forall i, j :: 0 <= i < |rows| && 0 <= j < |rows| && i != j && rows[i].transactionUid.Some? ==>
      rows[i].transactionUid != rows[j].transactionUid
  }

  /** Row ids are a primary key. */
  predicate IdsDistinct(rows: seq<TxRow>) {
    forall i, j :: 0 <= i < |rows| && 0 <= j < |rows| && i != j ==> rows[i].id != rows[j].id
  }

  /** No row already holds the legacy identifier a blank row is about to receive. */
  predicate LegacyUidsFree(rows: seq<TxRow>) {
    forall i, j :: 0 <= i < |rows| && 0 <= j < |rows| && IsBlank(rows[i].transactionUid.GetOr("")) ==>
      rows[j].transactionUid != Some(LegacyUid(rows[i].id))
  }

  /** The identifier pass of lines 188-201 over a table whose identifiers are unique keeps
      them unique exactly when no stored identifier equals the `legacy-tx-<id>` of a blank
      row. Otherwise the `UPDATE` writes a duplicate, which the constraint created at lines
      107-112 rejects. */
  lemma LegacyUidPassUnique(rows: seq<TxRow>, after: seq<TxRow>, columns: set<string>)
    requires "transaction_uid" in columns
    requires |after| == |rows| && forall k :: 0 <= k < |rows| ==> after[k] == LegacyUidPass(rows[k], columns)
    requires IdsDistinct(rows) && UidsUnique(rows)
    ensures UidsUnique(after) <==> LegacyUidsFree(rows)
  {
    if LegacyUidsFree(rows) {
      forall i, j | 0 <= i < |after| && 0 <= j < |after| && i != j && after[i].transactionUid.Some?
        ensures after[i].transactionUid != after[j].transactionUid
      {
        var bi := IsBlank(rows[i].transactionUid.GetOr(""));
        var bj := IsBlank(rows[j].transactionUid.GetOr(""));
        if bi && bj {
          if LegacyUid(rows[i].id) == LegacyUid(rows[j].id) {
            LegacyUidInjective(rows[i].id, rows[j].id);
          }
        }
      }
    } else {
      var i, j :| 0 <= i < |rows| && 0 <= j < |rows| && IsBlank(rows[i].transactionUid.GetOr(""))
        && rows[j].transactionUid == Some(LegacyUid(rows[i].id));
      LegacyUidNotBlank(rows[i].id);
      assert after[i].transactionUid == after[j].transactionUid && i != j;
    }
  }

  /** The failing case: a row with id 1 and no identifier next to a row already holding
      `legacy-tx-1` ends up with two rows holding `legacy-tx-1`. */
  lemma LegacyUidCollisionExample(blank: TxRow, taken: TxRow, columns: set<string>)
    requires "transaction_uid" in columns
    requires blank.id == 1 && blank.transactionUid == None
    requires taken.id == 2 && taken.transactionUid == Some(LegacyUid(1))
    ensures UidsUnique([blank, taken]) && IdsDistinct([blank, taken])
    ensures !UidsUnique([LegacyUidPass(blank, columns), LegacyUidPass(taken, columns)])
  {
    var rows := [blank, taken];
    assert IsBlank(rows[0].transactionUid.GetOr(""));
    assert rows[1].transactionUid == Some(LegacyUid(rows[0].id));
    assert !LegacyUidsFree(rows);
    LegacyUidPassUnique(rows, [LegacyUidPass(blank, columns), LegacyUidPass(taken, columns)], columns);
  }
}
