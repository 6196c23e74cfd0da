/** Migration 0002 (alembic/versions/0002_add_type_portefeuille_to_holdings.py): holdings
    get a `type_portefeuille` column, filled from the latest matching transaction and
    defaulting to `PEA`. The holdings table is an array of rows rewritten in place; the
    transactions table is only read. The correlated subquery of the `UPDATE` is written as
    a loop over the transactions. */
module Migration0002 {
  import opened Base
  import opened Backfill

  /** The holding columns the migration reads or writes. */
  datatype HoldingRow = HoldingRow(
    id: int,
    accountId: Option<string>,
    asset: string,
    symbolOrIsin: Option<string>,
    typePortefeuille: Option<string>)

  /** The transaction columns the backfill may read; which portfolio and ordering columns
      exist is given by the set of column names. Timestamps are opaque integers. */
  datatype TxRow = TxRow(
    id: int,
    accountId: Option<string>,
    asset: string,
    symbolOrIsin: Option<string>,
    typePortefeuille: Option<string>,
    portfolioType: Option<string>,
    ts: Option<int>,
    tradeDate: Option<int>)

  datatype PortfolioColumn = TypePortefeuilleColumn | PortfolioTypeColumn
  datatype OrderingColumn = TsColumn | TradeDateColumn

  /** Lines 29-33: `type_portefeuille`, else `portfolio_type`. */
  function PortfolioColumnOf(txColumns: set<string>): (r: Option<PortfolioColumn>)
    ensures r.None? <==> "type_portefeuille" !in txColumns && "portfolio_type" !in txColumns
    ensures "type_portefeuille" in txColumns ==> r == Some(TypePortefeuilleColumn)
    ensures "type_portefeuille" !in txColumns && "portfolio_type" in txColumns ==> r == Some(PortfolioTypeColumn)
  {
    if "type_portefeuille" in txColumns then Some(TypePortefeuilleColumn)
    else if "portfolio_type" in txColumns then Some(PortfolioTypeColumn)
    else None
  }

  /** Lines 35-39: `ts`, else `trade_date`. */
  function OrderingColumnOf(txColumns: set<string>): (r: Option<OrderingColumn>)
    ensures r.None? <==> "ts" !in txColumns && "trade_date" !in txColumns
    ensures "ts" in txColumns ==> r == Some(TsColumn)
    ensures "ts" !in txColumns && "trade_date" in txColumns ==> r == Some(TradeDateColumn)
  {
    if "ts" in txColumns then Some(TsColumn)
    else if "trade_date" in txColumns then Some(TradeDateColumn)
    else None
  }

  function PortfolioValue(t: TxRow, c: PortfolioColumn): Option<string> {
    match c
    case TypePortefeuilleColumn => t.typePortefeuille
    case PortfolioTypeColumn => t.portfolioType
  }

  function OrderingValue(t: TxRow, c: OrderingColumn): Option<int> {
    match c
    case TsColumn => t.ts
    case TradeDateColumn => t.tradeDate
  }

  // ---------------------------------------------------------------- the subquery

  /** The stand-in `COALESCE` gives a missing account, so a missing account and the
      account literally named `__NULL__` are the same account. */
  const NullAccount: string := "__NULL__"

  /** The `WHERE` clause of lines 48-52: same account, and either the same non-empty
      `symbol_or_isin` or the same asset. */
  predicate Matches(t: TxRow, h: HoldingRow) {
    t.accountId.GetOr(NullAccount) == h.accountId.GetOr(NullAccount)
    && ((t.symbolOrIsin.Some? && t.symbolOrIsin.value != "" && h.symbolOrIsin == t.symbolOrIsin)
        || t.asset == h.asset)
  }

  /** `a` sorts before `b` under `ORDER BY ordering DESC, id DESC`; SQLite takes `NULL` as
      lower than any value, so it sorts last. */
  predicate SortsBefore(a: TxRow, b: TxRow, c: OrderingColumn) {
    var oa, ob := OrderingValue(a, c), OrderingValue(b, c);
    (oa.Some? && (ob.None? || oa.value > ob.value)) || (oa == ob && a.id > b.id)
  }

  /** The order is strict, and total on rows with distinct ids. */
  lemma SortsBeforeOrder(a: TxRow, b: TxRow, d: TxRow, c: OrderingColumn)
    ensures !SortsBefore(a, a, c)
    ensures SortsBefore(a, b, c) ==> !SortsBefore(b, a, c)
    ensures SortsBefore(a, b, c) && SortsBefore(b, d, c) ==> SortsBefore(a, d, c)
    ensures a.id != b.id ==> SortsBefore(a, b, c) || SortsBefore(b, a, c)
  {
  }

  /** The index `LIMIT 1` picks among `txs`: the first matching row in the order, found by
      keeping the best row of each prefix. */
  function LatestMatch(txs: seq<TxRow>, h: HoldingRow, c: OrderingColumn): (r: Option<nat>)
    ensures r.Some? ==> r.value < |txs| && Matches(txs[r.value], h)
  {
    if txs == [] then None
    else
      var best := LatestMatch(txs[..|txs| - 1], h, c);
      var last := |txs| - 1;
      if !Matches(txs[last], h) then best
      else if best.None? || SortsBefore(txs[last], txs[best.value], c) then Some(last)
      else best
  }

  /** What `LatestMatch` finds: nothing exactly when no transaction matches, otherwise a
      matching one that no other matching one sorts before. */
  lemma {:induction false} LatestMatchSpec(txs: seq<TxRow>, h: HoldingRow, c: OrderingColumn)
    ensures LatestMatch(txs, h, c).None? <==> forall j :: 0 <= j < |txs| ==> !Matches(txs[j], h)
    ensures var r := LatestMatch(txs, h, c);
      r.Some? ==> forall j :: 0 <= j < |txs| && Matches(txs[j], h) ==> !SortsBefore(txs[j], txs[r.value], c)
  {
    if txs != [] {
      var prefix := txs[..|txs| - 1];
      LatestMatchSpec(prefix, h, c);
      assert forall j :: 0 <= j < |prefix| ==> prefix[j] == txs[j];
      var best := LatestMatch(prefix, h, c);
      var r := LatestMatch(txs, h, c);
      if r.Some? {
        forall j | 0 <= j < |txs| && Matches(txs[j], h)
          ensures !SortsBefore(txs[j], txs[r.value], c)
        {
          SortsBeforeOrder(txs[j], txs[r.value], txs[r.value], c);
          if best.Some? && j < |prefix| {
            SortsBeforeOrder(txs[j], txs[r.value], txs[best.value], c);
          }
        }
      }
    }
  }

  /** A matching transaction that sorts before every other matching one is the one
      `LIMIT 1` picks. */
  lemma LatestMatchIsFirst(txs: seq<TxRow>, h: HoldingRow, c: OrderingColumn, i: nat)
    requires i < |txs| && Matches(txs[i], h)
    requires forall j :: 0 <= j < |txs| && j != i && Matches(txs[j], h) ==> SortsBefore(txs[i], txs[j], c)
    ensures LatestMatch(txs, h, c) == Some(i)
  {
    LatestMatchSpec(txs, h, c);
  }

  /** The subquery reads only the holding's account, asset and `symbol_or_isin`. */
  lemma {:induction false} LatestMatchIgnoresType(txs: seq<TxRow>, h: HoldingRow, typePortefeuille: Option<string>, c: OrderingColumn)
    ensures LatestMatch(txs, h.(typePortefeuille := typePortefeuille), c) == LatestMatch(txs, h, c)
  {
    if txs != [] {
      LatestMatchIgnoresType(txs[..|txs| - 1], h, typePortefeuille, c);
    }
  }

  /** The subquery for one holding. */
  method FindLatestMatch(txs: seq<TxRow>, h: HoldingRow, c: OrderingColumn) returns (best: Option<nat>)
    ensures best == LatestMatch(txs, h, c)
  {
    best := None;
    for i := 0 to |txs|
      invariant best == LatestMatch(txs[..i], h, c)
    {
      assert txs[..i + 1][..i] == txs[..i];
      if Matches(txs[i], h) && (best.None? || SortsBefore(txs[i], txs[best.value], c)) {
        best := Some(i);
      }
    }
    assert txs[..|txs|] == txs;
  }

  // ---------------------------------------------------------------- the upgrade

  /** The value the subquery assigns: the portfolio type of the latest match, `NULL` when
      nothing matches (or when the match has none). */
  function SubqueryType(h: HoldingRow, txs: seq<TxRow>, pc: PortfolioColumn, oc: OrderingColumn): Option<string> {
    match LatestMatch(txs, h, oc)
    case None => None
    case Some(i) => PortfolioValue(txs[i], pc)
  }

  /** The type a holding ends up with: the subquery's value when both transaction columns
      exist, otherwise the value it already had (`NULL` in a column just added), and `PEA`
      in place of `NULL`. */
  function BackfilledType(h: HoldingRow, holdingColumns: set<string>, txColumns: set<string>, txs: seq<TxRow>): string {
    var current := if "type_portefeuille" in holdingColumns then h.typePortefeuille else None;
    var pc, oc := PortfolioColumnOf(txColumns), OrderingColumnOf(txColumns);
    var updated := if pc.Some? && oc.Some? then SubqueryType(h, txs, pc.value, oc.value) else current;
    updated.GetOr("PEA")
  }

  function AddTypeColumn(h: HoldingRow): HoldingRow {
    h.(typePortefeuille := None)
  }

  function DefaultPea(h: HoldingRow): HoldingRow {
    h.(typePortefeuille := Some(h.typePortefeuille.GetOr("PEA")))
  }

  /** `upgrade()`. The early return of lines 26-27 cannot happen: the column has just been
      added to `holding_columns`. */
  method Upgrade(holdings: array<HoldingRow>, holdingColumns: set<string>, txColumns: set<string>, txs: seq<TxRow>)
    returns (columns: set<string>)
    modifies holdings
    ensures columns == holdingColumns + {"type_portefeuille"}
    ensures forall i :: 0 <= i < holdings.Length ==>
      holdings[i] == old(holdings[i]).(typePortefeuille := Some(BackfilledType(old(holdings[i]), holdingColumns, txColumns, txs)))
  {
    columns := holdingColumns;
    if "type_portefeuille" !in columns {
      MapRows(holdings, AddTypeColumn);
      columns := columns + {"type_portefeuille"};
    }
    var pc, oc := PortfolioColumnOf(txColumns), OrderingColumnOf(txColumns);
    if pc.Some? && oc.Some? {
      for i := 0 to holdings.Length
        invariant forall k :: 0 <= k < i ==>
          holdings[k] == old(holdings[k]).(typePortefeuille := SubqueryType(old(holdings[k]), txs, pc.value, oc.value))
        invariant forall k :: i <= k < holdings.Length ==>
          holdings[k] == old(holdings[k]).(typePortefeuille := if "type_portefeuille" in holdingColumns then old(holdings[k]).typePortefeuille else None)
      {
        var h := holdings[i];
        LatestMatchIgnoresType(txs, old(holdings[i]), h.typePortefeuille, oc.value);
        var best := FindLatestMatch(txs, h, oc.value);
        holdings[i] := h.(typePortefeuille := if best.Some? then PortfolioValue(txs[best.value], pc.value) else None);
      }
    }
    MapRows(holdings, DefaultPea);
  }

  // ---------------------------------------------------------------- what the upgrade gives

  /** With both transaction columns, a holding takes the type of the matching transaction
      that sorts first, replacing any type it had; `PEA` when that type is `NULL`. */
  lemma LatestMatchingTypeWins(h: HoldingRow, holdingColumns: set<string>, txColumns: set<string>, txs: seq<TxRow>, i: nat)
    requires PortfolioColumnOf(txColumns).Some? && OrderingColumnOf(txColumns).Some?
    requires i < |txs| && Matches(txs[i], h)
    requires forall j :: 0 <= j < |txs| && j != i && Matches(txs[j], h) ==>
      SortsBefore(txs[i], txs[j], OrderingColumnOf(txColumns).value)
    ensures BackfilledType(h, holdingColumns, txColumns, txs) ==
      PortfolioValue(txs[i], PortfolioColumnOf(txColumns).value).GetOr("PEA")
  {
    LatestMatchIsFirst(txs, h, OrderingColumnOf(txColumns).value, i);
  }

  /** A holding no transaction matches gets `PEA`, whatever type it had. */
  lemma NoMatchIsPea(h: HoldingRow, holdingColumns: set<string>, txColumns: set<string>, txs: seq<TxRow>)
    requires PortfolioColumnOf(txColumns).Some? && OrderingColumnOf(txColumns).Some?
    requires forall j :: 0 <= j < |txs| ==> !Matches(txs[j], h)
    ensures BackfilledType(h, holdingColumns, txColumns, txs) == "PEA"
  {
    LatestMatchSpec(txs, h, OrderingColumnOf(txColumns).value);
  }

  /** Without a portfolio or an ordering column among the transaction columns nothing is
      copied: a type already there is kept and a missing one, as in a column just added,
      becomes `PEA`. */
  lemma MissingColumnsKeepType(h: HoldingRow, holdingColumns: set<string>, txColumns: set<string>, txs: seq<TxRow>)
    requires PortfolioColumnOf(txColumns).None? || OrderingColumnOf(txColumns).None?
    ensures "type_portefeuille" !in holdingColumns ==> BackfilledType(h, holdingColumns, txColumns, txs) == "PEA"
    ensures "type_portefeuille" in holdingColumns ==>
      BackfilledType(h, holdingColumns, txColumns, txs) == h.typePortefeuille.GetOr("PEA")
  {
  }

  /** A transaction without an account matches a holding of the account `__NULL__`. */
  lemma NullAccountSentinel(t: TxRow, h: HoldingRow)
    requires t.accountId.None? && h.accountId == Some(NullAccount) && t.asset == h.asset
    ensures Matches(t, h)
  {
  }

  /** An empty `symbol_or_isin` never matches by itself: only the asset can then match. */
  lemma EmptySymbolMatchesOnlyByAsset(t: TxRow, h: HoldingRow)
    requires t.symbolOrIsin.None? || t.symbolOrIsin == Some("")
    ensures Matches(t, h) <==> t.accountId.GetOr(NullAccount) == h.accountId.GetOr(NullAccount) && t.asset == h.asset
  {
  }
}
