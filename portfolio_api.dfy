/** The portfolio read endpoints (backend/app/api/portfolio.py): `get_holdings` turns the
    computed holdings into response entries and a summary, `get_pnl` lists the snapshot
    totals oldest first. HTTP routing and the response schemas' validation are not part of
    this model. */
module PortfolioApi {
  import opened Base
  import opened Holdings
  import Snapshots

  // ---------------------------------------------------------------- get_holdings

  /** A computed holding as `get_holdings` reads it: the `HoldingView` fields plus the
      `identifier` and `account_id` it copies into the response (lines 30 and 42). */
  datatype ApiHolding = ApiHolding(identifier: string, view: HoldingView, accountId: Option<string>)

  /** `HoldingResponse`. */
  datatype HoldingResponse = HoldingResponse(
    identifier: string,
    asset: string,
    symbolOrIsin: string,
    quantity: real,
    pruEur: real,
    investedEur: real,
    marketPriceEur: real,
    marketValueEur: real,
    plEur: real,
    plPct: real,
    typePortefeuille: string,
    asOf: int,
    accountId: Option<string>)

  function ToResponse(h: ApiHolding): HoldingResponse {
    HoldingResponse(h.identifier, h.view.asset, h.view.symbolOrIsin, h.view.quantity, h.view.pruEur,
      h.view.investedEur, h.view.marketPriceEur, h.view.marketValueEur, h.view.plEur, h.view.plPct,
      h.view.typePortefeuille, h.view.asOf, h.accountId)
  }

  /** The comprehension of lines 28-45. */
  function Responses(hs: seq<ApiHolding>): (r: seq<HoldingResponse>)
    ensures |r| == |hs|
  {
    seq(|hs|, i requires 0 <= i < |hs| => ToResponse(hs[i]))
  }

  /** One entry per computed holding, in the same order, carrying every field unchanged. */
  lemma ResponsesMirrorHoldings(hs: seq<ApiHolding>)
    ensures |Responses(hs)| == |hs|
    ensures forall i :: 0 <= i < |hs| ==>
      && Responses(hs)[i].identifier == hs[i].identifier
      && Responses(hs)[i].asset == hs[i].view.asset
      && Responses(hs)[i].symbolOrIsin == hs[i].view.symbolOrIsin
      && Responses(hs)[i].quantity == hs[i].view.quantity
      && Responses(hs)[i].pruEur == hs[i].view.pruEur
      && Responses(hs)[i].investedEur == hs[i].view.investedEur
      && Responses(hs)[i].marketPriceEur == hs[i].view.marketPriceEur
      && Responses(hs)[i].marketValueEur == hs[i].view.marketValueEur
      && Responses(hs)[i].plEur == hs[i].view.plEur
      && Responses(hs)[i].plPct == hs[i].view.plPct
      && Responses(hs)[i].typePortefeuille == hs[i].view.typePortefeuille
      && Responses(hs)[i].asOf == hs[i].view.asOf
      && Responses(hs)[i].accountId == hs[i].accountId
  {
  }

  function SumMarketValue(rs: seq<HoldingResponse>): real {
    if rs == [] then 0.0 else SumMarketValue(rs[..|rs| - 1]) + rs[|rs| - 1].marketValueEur
  }

  function SumInvestedEur(rs: seq<HoldingResponse>): real {
    if rs == [] then 0.0 else SumInvestedEur(rs[..|rs| - 1]) + rs[|rs| - 1].investedEur
  }

  function SumPlEur(rs: seq<HoldingResponse>): real {
    if rs == [] then 0.0 else SumPlEur(rs[..|rs| - 1]) + rs[|rs| - 1].plEur
  }

  /** The `summary` dictionary (lines 46-55). */
  datatype Summary = Summary(totalValueEur: real, totalInvestedEur: real, pnlEur: real, pnlPct: real)

  function SummaryOf(rs: seq<HoldingResponse>): Summary {
    var totalValue := SumMarketValue(rs);
    var totalInvested := SumInvestedEur(rs);
    Summary(totalValue, totalInvested, totalValue - totalInvested,
      if SumInvestedEur(rs) != 0.0 then SumPlEur(rs) / SumInvestedEur(rs) * 100.0 else 0.0)
  }

  datatype HoldingsResponse = HoldingsResponse(holdings: seq<HoldingResponse>, summary: Summary)

  /** `get_holdings` on the result `(holdingsRaw, totals)` of `compute_holdings`. */
  function GetHoldings(holdingsRaw: seq<ApiHolding>, totals: Totals): (r: HoldingsResponse)
    ensures r.holdings == Responses(holdingsRaw)
  {
    HoldingsResponse(Responses(holdingsRaw), SummaryOf(Responses(holdingsRaw)))
  }

  /** What the summary states: the totals are the sums over the response entries, the P&L
      is value less invested, and the percentage is the summed P&L over the amount
      invested, or zero when nothing is invested. */
  lemma SummaryArithmetic(holdingsRaw: seq<ApiHolding>, totals: Totals)
    ensures var rs := Responses(holdingsRaw);
      var s := GetHoldings(holdingsRaw, totals).summary;
      && s.totalValueEur == SumMarketValue(rs)
      && s.totalInvestedEur == SumInvestedEur(rs)
      && s.pnlEur == s.totalValueEur - s.totalInvestedEur
      && (s.totalInvestedEur != 0.0 ==> s.pnlPct * s.totalInvestedEur == SumPlEur(rs) * 100.0)
      && (s.totalInvestedEur == 0.0 ==> s.pnlPct == 0.0)
  {
    var rs := Responses(holdingsRaw);
    if SumInvestedEur(rs) != 0.0 {
      PercentTimesBase(SumPlEur(rs), SumInvestedEur(rs));
    }
  }

  /** The summary depends only on the holdings, never on the totals `compute_holdings`
      returns beside them. */
  lemma SummaryIgnoresTotals(holdingsRaw: seq<ApiHolding>, t1: Totals, t2: Totals)
    ensures GetHoldings(holdingsRaw, t1).summary == GetHoldings(holdingsRaw, t2).summary
  {
  }

  /** Summed over entries whose P&L is their value less their cost, the P&L is the summed
      P&L. */
  lemma {:induction false} PlSumsBalance(rs: seq<HoldingResponse>)
    requires forall i :: 0 <= i < |rs| ==> rs[i].plEur == rs[i].marketValueEur - rs[i].investedEur
    ensures SumMarketValue(rs) - SumInvestedEur(rs) == SumPlEur(rs)
  {
    if rs != [] {
      PlSumsBalance(rs[..|rs| - 1]);
    }
  }

  /** When every entry's P&L is its value less its cost and something is invested, the
      P&L is the invested amount times the percentage. */
  lemma PnlMatchesPercent(holdingsRaw: seq<ApiHolding>, totals: Totals)
    requires forall i :: 0 <= i < |holdingsRaw| ==>
      holdingsRaw[i].view.plEur == holdingsRaw[i].view.marketValueEur - holdingsRaw[i].view.investedEur
    requires SumInvestedEur(Responses(holdingsRaw)) != 0.0
    ensures var s := GetHoldings(holdingsRaw, totals).summary;
      s.pnlEur == s.totalInvestedEur * s.pnlPct / 100.0
  {
    var rs := Responses(holdingsRaw);
    PlSumsBalance(rs);
    SummaryArithmetic(holdingsRaw, totals);
  }

  /** With nothing invested the percentage is zero even if there is P&L. */
  lemma NothingInvestedExample(h: ApiHolding, totals: Totals)
    requires h.view.investedEur == 0.0 && h.view.marketValueEur == 5.0 && h.view.plEur == 5.0
    ensures GetHoldings([h], totals).summary == Summary(5.0, 0.0, 5.0, 0.0)
  {
    var rs := Responses([h]);
    assert rs == [ToResponse(h)];
    assert rs[..0] == [];
    assert SumMarketValue(rs) == 5.0 && SumInvestedEur(rs) == 0.0;
  }

  function FromView(v: HoldingView, identifier: string): ApiHolding {
    ApiHolding(identifier, v, None)
  }

  function FromViews(vs: seq<HoldingView>): (r: seq<ApiHolding>)
    ensures |r| == |vs| && forall i :: 0 <= i < |vs| ==> r[i].view == vs[i]
  {
    if vs == [] then [] else FromViews(vs[..|vs| - 1]) + [FromView(vs[|vs| - 1], vs[|vs| - 1].asset)]
  }

  lemma {:induction false} FromViewsSums(vs: seq<HoldingView>)
    ensures SumMarketValue(Responses(FromViews(vs))) == SumValue(vs)
    ensures SumInvestedEur(Responses(FromViews(vs))) == SumInvested(vs)
  {
    if vs != [] {
      FromViewsSums(vs[..|vs| - 1]);
      assert Responses(FromViews(vs))[..|vs| - 1] == Responses(FromViews(vs[..|vs| - 1]));
      SumValueSnoc(vs);
      SumInvestedSnoc(vs);
    }
  }

  /** Fed by `compute_holdings`, the summary's value and invested totals agree with the
      service's totals, and its P&L is the service's latent P&L. */
  lemma SummaryOfPortfolio(table: seq<Transaction>, asOf: int)
    ensures var (hs, totals) := ComputeHoldingsSpec(table, asOf);
      var s := GetHoldings(FromViews(hs), totals).summary;
      && s.totalValueEur == totals.totalValue
      && s.totalInvestedEur == totals.totalInvested
      && s.pnlEur == totals.latentPnl
  {
    var (hs, totals) := ComputeHoldingsSpec(table, asOf);
    FromViewsSums(hs);
    TotalsBalance(table, asOf);
  }

  // ---------------------------------------------------------------- get_pnl

  datatype PnlPoint = PnlPoint(ts: int, valueTotalEur: real, pnlTotalEur: real)

  function PointOf(s: Snapshots.Snapshot): PnlPoint {
    PnlPoint(s.ts, s.valueTotalEur, s.pnlTotalEur)
  }

  function Reversed<T>(s: seq<T>): (r: seq<T>)
    ensures |r| == |s| && forall i :: 0 <= i < |s| ==> r[i] == s[|s| - 1 - i]
  {
    if s == [] then [] else [s[|s| - 1]] + Reversed(s[..|s| - 1])
  }

  /** `get_pnl` (lines 104-113) on the rows of the query, which come newest first. */
  function GetPnl(rowsNewestFirst: seq<Snapshots.Snapshot>): (r: seq<PnlPoint>)
    ensures |r| == |rowsNewestFirst|
  {
    Reversed(seq(|rowsNewestFirst|, i requires 0 <= i < |rowsNewestFirst| => PointOf(rowsNewestFirst[i])))
  }

  predicate NewestFirst(rows: seq<Snapshots.Snapshot>) {
    forall i, j :: 0 <= i < j < |rows| ==> rows[i].ts >= rows[j].ts
  }

  predicate OldestFirst(points: seq<PnlPoint>) {
    forall i, j :: 0 <= i < j < |points| ==> points[i].ts <= points[j].ts
  }

  /** The points are the rows taken from the last, and rows in descending order come back
      in ascending order. */
  lemma GetPnlOldestFirst(rows: seq<Snapshots.Snapshot>)
    ensures forall i :: 0 <= i < |rows| ==> GetPnl(rows)[i] == PointOf(rows[|rows| - 1 - i])
    ensures NewestFirst(rows) ==> OldestFirst(GetPnl(rows))
  {
  }
}
