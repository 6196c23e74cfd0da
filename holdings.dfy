/** `compute_holdings` of backend/app/services/portfolio.py: replay every transaction in
    `(ts, id)` order through a FIFO ledger, then value the open positions with the
    placeholder price table and total them. */
module Holdings {
  import opened Text
  import opened Fifo

  /** The fields of a stored transaction that the replay reads. A missing
      `symbol_or_isin` is the empty string: the replay treats None and "" alike. The
      timestamp is its position on the time line. */
  datatype Transaction = Transaction(
    id: int,
    ts: int,
    operation: string,
    asset: string,
    symbolOrIsin: string,
    quantity: real,
    totalEur: real,
    feeEur: real)

  // ---------------------------------------------------------------- ORDER BY ts, id

  predicate Precedes(a: Transaction, b: Transaction) {
    a.ts < b.ts || (a.ts == b.ts && a.id <= b.id)
  }

  predicate SortedByTsId(txs: seq<Transaction>) {
    forall i, j :: 0 <= i < j < |txs| ==> Precedes(txs[i], txs[j])
  }

  function InsertByTsId(t: Transaction, sorted: seq<Transaction>): (r: seq<Transaction>)
    ensures multiset(r) == multiset(sorted) + multiset{t}
    ensures |r| == |sorted| + 1
  {
    if sorted == [] then [t]
    else if Precedes(t, sorted[0]) then [t] + sorted
    else
      assert sorted == [sorted[0]] + sorted[1..];
      [sorted[0]] + InsertByTsId(t, sorted[1..])
  }

  lemma {:induction false} InsertKeepsSorted(t: Transaction, sorted: seq<Transaction>)
    requires SortedByTsId(sorted)
    ensures SortedByTsId(InsertByTsId(t, sorted))
  {
    if sorted != [] && !Precedes(t, sorted[0]) {
      var rest := InsertByTsId(t, sorted[1..]);
      InsertKeepsSorted(t, sorted[1..]);
      var r := [sorted[0]] + rest;
      forall j | 0 <= j < |rest|
        ensures Precedes(sorted[0], rest[j])
      {
        assert rest[j] in multiset(rest);
        if rest[j] != t {
          assert rest[j] in multiset(sorted[1..]);
          var m :| 0 <= m < |sorted[1..]| && sorted[1..][m] == rest[j];
          assert sorted[1..][m] == sorted[m + 1];
        }
      }
      forall a, b | 0 <= a < b < |r|
        ensures Precedes(r[a], r[b])
      {
        if a > 0 {
          assert r[a] == rest[a - 1] && r[b] == rest[b - 1];
        } else {
          assert r[b] == rest[b - 1];
        }
      }
    }
  }

  /** The order the query `order_by(ts.asc(), id.asc())` returns (portfolio.py:44): a
      sorted permutation of the table. */
  function SortByTsId(txs: seq<Transaction>): (r: seq<Transaction>)
    ensures multiset(r) == multiset(txs)
    ensures |r| == |txs|
  {
    if txs == [] then []
    else
      assert txs == [txs[0]] + txs[1..];
      InsertByTsId(txs[0], SortByTsId(txs[1..]))
  }

  lemma {:induction false} SortByTsIdSorted(txs: seq<Transaction>)
    ensures SortedByTsId(SortByTsId(txs))
  {
    if txs != [] {
      SortByTsIdSorted(txs[1..]);
      InsertKeepsSorted(txs[0], SortByTsId(txs[1..]));
    }
  }

  // ---------------------------------------------------------------- routing

  /** The position key: `symbol_or_isin`, else `asset`, upper-cased (portfolio.py:50). */
  function PositionKey(tx: Transaction): string {
    Upper(if tx.symbolOrIsin != "" then tx.symbolOrIsin else tx.asset)
  }

  /** `_is_currency`: a three-letter alphabetic code. */
  predicate IsCurrencyCode(code: string) {
    |code| == 3 && PyIsAlpha(code)
  }

  /** The cash-sell heuristic of portfolio.py:55-65 on the stripped, upper-cased codes. */
  predicate IsCashSell(tx: Transaction) {
    var assetCode := Upper(Strip(tx.asset));
    var symbolCode := Upper(Strip(tx.symbolOrIsin));
    || (symbolCode == [] && IsCurrencyCode(assetCode))
    || (assetCode == [] && IsCurrencyCode(symbolCode))
    || (symbolCode == assetCode && IsCurrencyCode(symbolCode))
  }

  /** The ledger and the running `realized_total`. */
  datatype Replay = Replay(ledger: Ledger, realized: real)

  const Start: Replay := Replay(EmptyLedger, 0.0)

  /** One iteration of the replay loop (portfolio.py:49-76). */
  function Step(r: Replay, tx: Transaction): Replay {
    var key := PositionKey(tx);
    var op := Upper(tx.operation);
    if op == "BUY" then
      Replay(LedgerBuy(r.ledger, key, tx.quantity, tx.totalEur + tx.feeEur), r.realized)
    else if op == "SELL" then
      if IsCashSell(tx) then Replay(r.ledger, r.realized + (tx.totalEur - tx.feeEur))
      else
        var sold := LedgerSell(r.ledger, key, tx.quantity, tx.totalEur, tx.feeEur);
        Replay(sold.0, r.realized + sold.1)
    else if op == "DIVIDEND" then
      Replay(LedgerDividend(r.ledger, key, tx.totalEur - tx.feeEur), r.realized + (tx.totalEur - tx.feeEur))
    else
      Replay(r.ledger, r.realized + tx.totalEur)
  }

  /** The replay of `txs` in the order given. */
  function ReplayAll(txs: seq<Transaction>): Replay {
    if txs == [] then Start else Step(ReplayAll(txs[..|txs| - 1]), txs[|txs| - 1])
  }

  /** How each operation is routed: a BUY records a lot costing total plus fee, a cash
      SELL adds total minus fee to the realized total and no lot moves, any other SELL adds
      what the FIFO sale realizes, a DIVIDEND adds total minus fee to both the position and
      the realized total, and anything else adds the total and touches no position. */
  lemma StepRouting(r: Replay, tx: Transaction)
    ensures var s := Step(r, tx);
            var key := PositionKey(tx);
            var op := Upper(tx.operation);
            && (op == "BUY" ==>
                  && StateOf(s.ledger, key).lots == StateOf(r.ledger, key).lots + [Lot(tx.quantity, tx.totalEur + tx.feeEur)]
                  && s.realized == r.realized)
            && (op == "SELL" && IsCashSell(tx) ==>
                  s.ledger == r.ledger && s.realized == r.realized + (tx.totalEur - tx.feeEur))
            && (op == "SELL" && !IsCashSell(tx) ==>
                  s.realized - r.realized
                  == StateOf(s.ledger, key).realizedPnl - StateOf(r.ledger, key).realizedPnl)
            && (op == "DIVIDEND" ==>
                  && StateOf(s.ledger, key).realizedPnl == StateOf(r.ledger, key).realizedPnl + (tx.totalEur - tx.feeEur)
                  && s.realized == r.realized + (tx.totalEur - tx.feeEur))
            && (op != "BUY" && op != "SELL" && op != "DIVIDEND" ==>
                  s.ledger == r.ledger && s.realized == r.realized + tx.totalEur)
            && (forall k :: k != key ==> StateOf(s.ledger, k) == StateOf(r.ledger, k))
  {
  }

  /** Every ledger the replay builds is well formed. */
  lemma {:induction false} ReplayWellFormed(txs: seq<Transaction>)
    ensures WellFormed(ReplayAll(txs).ledger)
  {
    if txs != [] {
      ReplayWellFormed(txs[..|txs| - 1]);
    }
  }

  // ---------------------------------------------------------------- valuation

  datatype HoldingView = HoldingView(
    asset: string,
    symbolOrIsin: string,
    quantity: real,
    pruEur: real,
    investedEur: real,
    marketPriceEur: real,
    marketValueEur: real,
    plEur: real,
    plPct: real,
    typePortefeuille: string,
    asOf: int)

  /** A position becomes a holding only above this quantity (portfolio.py:82). */
  const OpenEpsilon: real := 0.000000000001

  /** `_market_price_placeholder` (portfolio.py:33-39). */
  function MarketPricePlaceholder(symbol: string): (p: real)
    ensures p > 0.0
  {
    var u := Upper(symbol);
    if u == "BTC" then 65000.0 else if u == "ETH" then 3500.0 else 100.0
  }

  lemma PlaceholderTable(symbol: string)
    ensures Upper(symbol) == "BTC" ==> MarketPricePlaceholder(symbol) == 65000.0
    ensures Upper(symbol) == "ETH" ==> MarketPricePlaceholder(symbol) == 3500.0
    ensures Upper(symbol) != "BTC" && Upper(symbol) != "ETH" ==> MarketPricePlaceholder(symbol) == 100.0
    ensures MarketPricePlaceholder("btc") == 65000.0
  {
    assert Upper("btc") == "BTC";
  }

  lemma QuotientTimesDivisor(a: real, b: real)
    requires b != 0.0
    ensures (a / b) * b == a
  {
  }

  lemma PercentTimesBase(pl: real, invested: real)
    requires invested != 0.0
    ensures (pl / invested * 100.0) * invested == pl * 100.0
  {
    QuotientTimesDivisor(pl, invested);
  }

  /** The `HoldingView` built for an open position (portfolio.py:84-103). */
  function MakeHolding(symbol: string, qty: real, cost: real, asOf: int): (h: HoldingView)
    requires qty > OpenEpsilon
    ensures h.asset == symbol && h.symbolOrIsin == symbol && h.quantity == qty && h.investedEur == cost
    ensures h.marketPriceEur == MarketPricePlaceholder(symbol)
    ensures h.marketValueEur == h.marketPriceEur * h.quantity
    ensures h.plEur == h.marketValueEur - h.investedEur
    ensures h.pruEur * h.quantity == h.investedEur
    ensures h.investedEur == 0.0 ==> h.plPct == 0.0
    ensures h.investedEur != 0.0 ==> h.plPct * h.investedEur == h.plEur * 100.0
    ensures h.typePortefeuille == "CRYPTO" <==> symbol == "BTC" || symbol == "ETH"
    ensures h.typePortefeuille != "CRYPTO" ==> h.typePortefeuille == "PEA"
    ensures h.asOf == asOf
  {
    var marketPrice := MarketPricePlaceholder(symbol);
    var marketValue := marketPrice * qty;
    var invested := cost;
    var plLatent := marketValue - invested;
    var plPct := if invested != 0.0 then plLatent / invested * 100.0 else 0.0;
    QuotientTimesDivisor(invested, qty);
    if invested != 0.0 then PercentTimesBase(plLatent, invested); MakeView(symbol, qty, invested, marketPrice, marketValue, plLatent, plPct, asOf)
    else MakeView(symbol, qty, invested, marketPrice, marketValue, plLatent, plPct, asOf)
  }

  function MakeView(symbol: string, qty: real, invested: real, marketPrice: real, marketValue: real,
                    plLatent: real, plPct: real, asOf: int): HoldingView
    requires qty != 0.0
  {
    HoldingView(symbol, symbol, qty, invested / qty, invested, marketPrice, marketValue, plLatent, plPct,
                if symbol == "BTC" || symbol == "ETH" then "CRYPTO" else "PEA", asOf)
  }

  /** The holdings for the keys `keys`, in that order: one per position above
      `OpenEpsilon` (portfolio.py:80-103). */
  function Valuation(l: Ledger, keys: seq<string>, asOf: int): seq<HoldingView> {
    if keys == [] then []
    else
      var prev := Valuation(l, keys[..|keys| - 1], asOf);
      var k := keys[|keys| - 1];
      var p := Position(l, k);
      if p.0 > OpenEpsilon then prev + [MakeHolding(k, p.0, p.1, asOf)] else prev
  }

  /** Every holding in `hs` is an open position among `keys`, valued from its position. */
  ghost predicate ValuedFromOpen(l: Ledger, keys: seq<string>, asOf: int, hs: seq<HoldingView>) {
    forall i :: 0 <= i < |hs| ==>
      && hs[i].asset in keys
      && Position(l, hs[i].asset).0 > OpenEpsilon
      && hs[i] == MakeHolding(hs[i].asset, Position(l, hs[i].asset).0, Position(l, hs[i].asset).1, asOf)
  }

  /** Every open position among `keys` has a holding in `hs`. */
  ghost predicate CoversOpen(l: Ledger, keys: seq<string>, hs: seq<HoldingView>) {
    forall k :: k in keys && Position(l, k).0 > OpenEpsilon ==> exists i :: 0 <= i < |hs| && hs[i].asset == k
  }

  /** The holdings are exactly the open positions among `keys`, each valued from its
      position. */
  lemma {:induction false} ValuationExactlyOpen(l: Ledger, keys: seq<string>, asOf: int)
    ensures ValuedFromOpen(l, keys, asOf, Valuation(l, keys, asOf))
    ensures CoversOpen(l, keys, Valuation(l, keys, asOf))
  {
    ValuationFromOpen(l, keys, asOf);
    ValuationCoversOpen(l, keys, asOf);
  }

  lemma {:induction false} ValuationFromOpen(l: Ledger, keys: seq<string>, asOf: int)
    ensures ValuedFromOpen(l, keys, asOf, Valuation(l, keys, asOf))
  {
    if keys != [] {
      var init := keys[..|keys| - 1];
      var k := keys[|keys| - 1];
      ValuationFromOpen(l, init, asOf);
      var hs := Valuation(l, keys, asOf);
      var prev := Valuation(l, init, asOf);
      var p := Position(l, k);
      assert hs == prev || (p.0 > OpenEpsilon && hs == prev + [MakeHolding(k, p.0, p.1, asOf)]);
      forall i | 0 <= i < |hs|
        ensures hs[i].asset in keys
        ensures Position(l, hs[i].asset).0 > OpenEpsilon
        ensures hs[i] == MakeHolding(hs[i].asset, Position(l, hs[i].asset).0, Position(l, hs[i].asset).1, asOf)
      {
        if i < |prev| {
          assert hs[i] == prev[i];
          assert prev[i].asset in init;
          assert init <= keys;
        } else {
          assert hs[i] == MakeHolding(k, p.0, p.1, asOf);
        }
      }
    }
  }

  lemma {:induction false} ValuationCoversOpen(l: Ledger, keys: seq<string>, asOf: int)
    ensures CoversOpen(l, keys, Valuation(l, keys, asOf))
  {
    if keys != [] {
      var init := keys[..|keys| - 1];
      var k := keys[|keys| - 1];
      ValuationCoversOpen(l, init, asOf);
      assert keys == init + [k];
      var hs := Valuation(l, keys, asOf);
      var prev := Valuation(l, init, asOf);
      var p := Position(l, k);
      assert hs == prev || (p.0 > OpenEpsilon && hs == prev + [MakeHolding(k, p.0, p.1, asOf)]);
      forall k' | k' in keys && Position(l, k').0 > OpenEpsilon
        ensures exists i :: 0 <= i < |hs| && hs[i].asset == k'
      {
        if k' == k {
          assert hs[|hs| - 1].asset == k;
        } else {
          assert k' in init;
          var i :| 0 <= i < |prev| && prev[i].asset == k';
          assert hs[i] == prev[i];
        }
      }
    }
  }

  /** The totals dictionary (portfolio.py:105-110). */
  datatype Totals = Totals(totalValue: real, totalInvested: real, realizedPnl: real, latentPnl: real)

  function SumValue(hs: seq<HoldingView>): real {
    if hs == [] then 0.0 else hs[0].marketValueEur + SumValue(hs[1..])
  }

  function SumInvested(hs: seq<HoldingView>): real {
    if hs == [] then 0.0 else hs[0].investedEur + SumInvested(hs[1..])
  }

  function SumPl(hs: seq<HoldingView>): real {
    if hs == [] then 0.0 else hs[0].plEur + SumPl(hs[1..])
  }

  function TotalsOf(hs: seq<HoldingView>, realized: real): Totals {
    Totals(SumValue(hs), SumInvested(hs), realized, SumPl(hs))
  }

  /** When every holding's P&L is its value less its cost, so is the total. */
  lemma {:induction false} SumsBalance(hs: seq<HoldingView>)
    requires forall i :: 0 <= i < |hs| ==> hs[i].plEur == hs[i].marketValueEur - hs[i].investedEur
    ensures SumValue(hs) - SumInvested(hs) == SumPl(hs)
  {
    if hs != [] {
      SumsBalance(hs[1..]);
    }
  }

  /** The sums, peeled from the end. */
  lemma {:induction false} SumValueSnoc(vs: seq<HoldingView>)
    requires vs != []
    ensures SumValue(vs) == SumValue(vs[..|vs| - 1]) + vs[|vs| - 1].marketValueEur
  {
    if |vs| > 1 {
      assert vs[1..][..|vs[1..]| - 1] == vs[..|vs| - 1][1..];
      SumValueSnoc(vs[1..]);
    }
  }

  lemma {:induction false} SumInvestedSnoc(vs: seq<HoldingView>)
    requires vs != []
    ensures SumInvested(vs) == SumInvested(vs[..|vs| - 1]) + vs[|vs| - 1].investedEur
  {
    if |vs| > 1 {
      assert vs[1..][..|vs[1..]| - 1] == vs[..|vs| - 1][1..];
      SumInvestedSnoc(vs[1..]);
    }
  }

  /** What `compute_holdings` returns. */
  function ComputeHoldingsSpec(table: seq<Transaction>, asOf: int): (seq<HoldingView>, Totals) {
    var r := ReplayAll(SortByTsId(table));
    var hs := Valuation(r.ledger, r.ledger.order, asOf);
    (hs, TotalsOf(hs, r.realized))
  }

  /** `total_value - total_invested == latent_pnl`, and every holding is an open position of
      the replayed ledger. */
  lemma TotalsBalance(table: seq<Transaction>, asOf: int)
    ensures var (hs, totals) := ComputeHoldingsSpec(table, asOf);
            && totals.totalValue - totals.totalInvested == totals.latentPnl
            && forall i :: 0 <= i < |hs| ==> hs[i].quantity > OpenEpsilon
  {
    var r := ReplayAll(SortByTsId(table));
    var hs := Valuation(r.ledger, r.ledger.order, asOf);
    ValuationExactlyOpen(r.ledger, r.ledger.order, asOf);
    forall i | 0 <= i < |hs|
      ensures hs[i].plEur == hs[i].marketValueEur - hs[i].investedEur
      ensures hs[i].quantity > OpenEpsilon
    {
      var h := hs[i];
      assert Position(r.ledger, h.asset).0 > OpenEpsilon;
      assert h == MakeHolding(h.asset, Position(r.ledger, h.asset).0, Position(r.ledger, h.asset).1, asOf);
    }
    SumsBalance(hs);
  }

  /** An empty history gives no holdings and all-zero totals. */
  lemma EmptyHistory(asOf: int)
    ensures ComputeHoldingsSpec([], asOf) == ([], Totals(0.0, 0.0, 0.0, 0.0))
  {
  }

  lemma StripPlain(s: string)
    requires s != [] && !IsSpace(s[0]) && !IsSpace(s[|s| - 1])
    ensures Strip(s) == s
  {
  }

  /** A SELL of asset `USD` with no symbol is a cash sell. */
  lemma CashSellOfCurrency()
    ensures IsCashSell(Transaction(3, 20, "SELL", "USD", "", 0.0, 150.0, 0.0))
  {
    StripPlain("USD");
    assert Upper("USD") == "USD";
  }

  /** A SELL whose symbol and asset differ and are no currency code is not. */
  lemma SellOfStockIsNotCash()
    ensures !IsCashSell(Transaction(2, 15, "SELL", "Acme Corp", "ACME", 5.0, 600.0, 0.0))
  {
    StripPlain("ACME");
    StripPlain("Acme Corp");
    assert |Upper("Acme Corp")| == 9;
  }

  /** The same currency code as asset and symbol, in any case, is a cash sell; so is a
      currency symbol with a blank asset. */
  lemma CashSellBothEur()
    ensures IsCashSell(Transaction(4, 30, "SELL", "EUR", "eur", 0.0, 10.0, 0.0))
  {
    StripPlain("EUR");
    StripPlain("eur");
    assert Upper("eur") == "EUR" && Upper("EUR") == "EUR";
  }

  lemma CashSellBlankAsset()
    ensures IsCashSell(Transaction(5, 40, "SELL", "  ", "usd", 0.0, 10.0, 0.0))
  {
    StripPlain("usd");
    assert Upper("usd") == "USD";
    assert Strip("  ") == [] by {
      BlankIffAllSpace("  ");
    }
  }

  lemma CashSellOtherForms()
    ensures IsCashSell(Transaction(4, 30, "SELL", "EUR", "eur", 0.0, 10.0, 0.0))
    ensures IsCashSell(Transaction(5, 40, "SELL", "  ", "usd", 0.0, 10.0, 0.0))
  {
    CashSellBothEur();
    CashSellBlankAsset();
  }

  /** backend/tests/test_portfolio_holdings.py:22-78: buy 10 ACME for 1000, sell 5 for 600,
      then a cash sell of USD for 150 realizes 250 and leaves ACME open. */
  lemma FiatSellExample(asOf: int)
    ensures var table := [
              Transaction(1, 1, "BUY", "Acme Corp", "ACME", 10.0, 1000.0, 0.0),
              Transaction(2, 15, "SELL", "Acme Corp", "ACME", 5.0, 600.0, 0.0),
              Transaction(3, 20, "SELL", "USD", "", 0.0, 150.0, 0.0)];
            && ComputeHoldingsSpec(table, asOf).1.realizedPnl == 250.0
            && ComputeHoldingsSpec(table, asOf).0 == [MakeHolding("ACME", 5.0, 500.0, asOf)]
  {
    var b := Transaction(1, 1, "BUY", "Acme Corp", "ACME", 10.0, 1000.0, 0.0);
    var s := Transaction(2, 15, "SELL", "Acme Corp", "ACME", 5.0, 600.0, 0.0);
    var c := Transaction(3, 20, "SELL", "USD", "", 0.0, 150.0, 0.0);
    ExampleSorted(b, s, c);
    ExampleReplay(b, s, c);
    ExampleValuation(asOf);
  }

  lemma ExampleValuation(asOf: int)
    ensures Valuation(AcmeHalf, ["ACME"], asOf) == [MakeHolding("ACME", 5.0, 500.0, asOf)]
  {
    assert Position(AcmeHalf, "ACME") == (5.0, 500.0) by {
      assert [Lot(5.0, 500.0)][1..] == [];
    }
    assert ["ACME"][..0] == [];
  }

  lemma ExampleSorted(b: Transaction, s: Transaction, c: Transaction)
    requires b == Transaction(1, 1, "BUY", "Acme Corp", "ACME", 10.0, 1000.0, 0.0)
    requires s == Transaction(2, 15, "SELL", "Acme Corp", "ACME", 5.0, 600.0, 0.0)
    requires c == Transaction(3, 20, "SELL", "USD", "", 0.0, 150.0, 0.0)
    ensures SortByTsId([b, s, c]) == [b, s, c]
  {
    assert [b, s, c][1..] == [s, c];
    assert [s, c][1..] == [c];
    assert [c][1..] == [];
  }

  lemma StepBuy(r: Replay, tx: Transaction)
    requires Upper(tx.operation) == "BUY"
    ensures Step(r, tx) == Replay(LedgerBuy(r.ledger, PositionKey(tx), tx.quantity, tx.totalEur + tx.feeEur), r.realized)
  {
  }

  lemma StepSell(r: Replay, tx: Transaction)
    requires Upper(tx.operation) == "SELL"
    ensures IsCashSell(tx) ==> Step(r, tx) == Replay(r.ledger, r.realized + (tx.totalEur - tx.feeEur))
    ensures !IsCashSell(tx) ==>
              var sold := LedgerSell(r.ledger, PositionKey(tx), tx.quantity, tx.totalEur, tx.feeEur);
              Step(r, tx) == Replay(sold.0, r.realized + sold.1)
  {
  }

  lemma StepDividend(r: Replay, tx: Transaction)
    requires Upper(tx.operation) == "DIVIDEND"
    ensures Step(r, tx) == Replay(LedgerDividend(r.ledger, PositionKey(tx), tx.totalEur - tx.feeEur), r.realized + (tx.totalEur - tx.feeEur))
  {
  }

  lemma StepOther(r: Replay, tx: Transaction)
    requires Upper(tx.operation) != "BUY" && Upper(tx.operation) != "SELL" && Upper(tx.operation) != "DIVIDEND"
    ensures Step(r, tx) == Replay(r.ledger, r.realized + tx.totalEur)
  {
  }

  const AcmeOpen: Ledger := Ledger(map["ACME" := AssetState([Lot(10.0, 1000.0)], 0.0)], ["ACME"])
  const AcmeHalf: Ledger := Ledger(map["ACME" := AssetState([Lot(5.0, 500.0)], 100.0)], ["ACME"])

  lemma ExampleBuy(b: Transaction)
    requires b == Transaction(1, 1, "BUY", "Acme Corp", "ACME", 10.0, 1000.0, 0.0)
    ensures Step(Start, b) == Replay(AcmeOpen, 0.0)
  {
    assert Upper("ACME") == "ACME" && Upper("BUY") == "BUY";
    StepBuy(Start, b);
    assert [] + [Lot(10.0, 1000.0)] == [Lot(10.0, 1000.0)];
    assert map[]["ACME" := EmptyState]["ACME" := AssetState([Lot(10.0, 1000.0)], 0.0)]
           == map["ACME" := AssetState([Lot(10.0, 1000.0)], 0.0)];
  }

  lemma ExampleSell(s: Transaction)
    requires s == Transaction(2, 15, "SELL", "Acme Corp", "ACME", 5.0, 600.0, 0.0)
    ensures Step(Replay(AcmeOpen, 0.0), s) == Replay(AcmeHalf, 100.0)
  {
    SellOfStockIsNotCash();
    assert Upper("ACME") == "ACME" && Upper("SELL") == "SELL";
    StepSell(Replay(AcmeOpen, 0.0), s);
    HalfSale();
  }

  /** Selling half of one lot of 10 costing 1000 for 600 realizes 100. */
  lemma HalfSale()
    ensures SellLots([Lot(10.0, 1000.0)], 5.0, 600.0, 0.0) == Sale([Lot(5.0, 500.0)], 100.0, 0.0)
  {
    assert [Lot(10.0, 1000.0)][1..] == [];
  }

  lemma ExampleCash(c: Transaction)
    requires c == Transaction(3, 20, "SELL", "USD", "", 0.0, 150.0, 0.0)
    ensures Step(Replay(AcmeHalf, 100.0), c) == Replay(AcmeHalf, 250.0)
  {
    CashSellOfCurrency();
    assert Upper("SELL") == "SELL";
    StepSell(Replay(AcmeHalf, 100.0), c);
  }

  lemma ExampleReplay(b: Transaction, s: Transaction, c: Transaction)
    requires b == Transaction(1, 1, "BUY", "Acme Corp", "ACME", 10.0, 1000.0, 0.0)
    requires s == Transaction(2, 15, "SELL", "Acme Corp", "ACME", 5.0, 600.0, 0.0)
    requires c == Transaction(3, 20, "SELL", "USD", "", 0.0, 150.0, 0.0)
    ensures ReplayAll([b, s, c]) == Replay(AcmeHalf, 250.0)
  {
    assert ReplayAll([b]) == Replay(AcmeOpen, 0.0) by {
      assert [b][..0] == [];
      ExampleBuy(b);
    }
    assert ReplayAll([b, s]) == Replay(AcmeHalf, 100.0) by {
      assert [b, s][..1] == [b];
      ExampleSell(s);
    }
    assert [b, s, c][..2] == [b, s];
    ExampleCash(c);
  }

  /** The SELL branch of the replay loop (portfolio.py:54-69): a cash sell only adds
      to the realized total; any other sell goes through the FIFO ledger. */
  method ApplySell(fifo: FifoPortfolio, tx: Transaction, realizedTotal: real) returns (newTotal: real)
    requires fifo.Valid() && Upper(tx.operation) == "SELL"
    modifies fifo
    ensures fifo.Valid()
    ensures Replay(fifo.Model(), newTotal) == Step(Replay(old(fifo.Model()), realizedTotal), tx)
  {
    StepSell(Replay(fifo.Model(), realizedTotal), tx);
    var isCashSell := IsCashSell(tx);
    if isCashSell {
      newTotal := realizedTotal + (tx.totalEur - tx.feeEur);
    } else {
      var symbol := Upper(if tx.symbolOrIsin != "" then tx.symbolOrIsin else tx.asset);
      var pnl := fifo.Sell(symbol, tx.quantity, tx.totalEur, tx.feeEur);
      newTotal := realizedTotal + pnl;
    }
  }

  /** The BUY branch of the replay loop (portfolio.py:52-53). */
  method ApplyBuy(fifo: FifoPortfolio, tx: Transaction, realizedTotal: real) returns (newTotal: real)
    requires fifo.Valid() && Upper(tx.operation) == "BUY"
    modifies fifo
    ensures fifo.Valid()
    ensures Replay(fifo.Model(), newTotal) == Step(Replay(old(fifo.Model()), realizedTotal), tx)
  {
    StepBuy(Replay(fifo.Model(), realizedTotal), tx);
    var symbol := Upper(if tx.symbolOrIsin != "" then tx.symbolOrIsin else tx.asset);
    fifo.Buy(symbol, tx.quantity, tx.totalEur + tx.feeEur);
    newTotal := realizedTotal;
  }

  /** The DIVIDEND branch of the replay loop (portfolio.py:70-72). */
  method ApplyDividend(fifo: FifoPortfolio, tx: Transaction, realizedTotal: real) returns (newTotal: real)
    requires fifo.Valid() && Upper(tx.operation) == "DIVIDEND"
    modifies fifo
    ensures fifo.Valid()
    ensures Replay(fifo.Model(), newTotal) == Step(Replay(old(fifo.Model()), realizedTotal), tx)
  {
    StepDividend(Replay(fifo.Model(), realizedTotal), tx);
    var symbol := Upper(if tx.symbolOrIsin != "" then tx.symbolOrIsin else tx.asset);
    fifo.Dividend(symbol, tx.totalEur - tx.feeEur);
    newTotal := realizedTotal + (tx.totalEur - tx.feeEur);
  }

  /** One iteration of the replay loop of `compute_holdings` (portfolio.py:49-76) on the
      ledger object and the running realized total. */
  method ApplyTransaction(fifo: FifoPortfolio, tx: Transaction, realizedTotal: real) returns (newTotal: real)
    requires fifo.Valid()
    modifies fifo
    ensures fifo.Valid()
    ensures Replay(fifo.Model(), newTotal) == Step(Replay(old(fifo.Model()), realizedTotal), tx)
  {
    var op := Upper(tx.operation);
    if op == "BUY" {
      newTotal := ApplyBuy(fifo, tx, realizedTotal);
    } else if op == "SELL" {
      newTotal := ApplySell(fifo, tx, realizedTotal);
    } else if op == "DIVIDEND" {
      newTotal := ApplyDividend(fifo, tx, realizedTotal);
    } else {
      StepOther(Replay(fifo.Model(), realizedTotal), tx);
      newTotal := realizedTotal + tx.totalEur;
    }
  }

  /** The replay loop of `compute_holdings` (portfolio.py:49-76) on a new
      `FifoPortfolio`. */
  method ReplayTransactions(txs: seq<Transaction>) returns (fifo: FifoPortfolio, realizedTotal: real)
    ensures fresh(fifo) && fifo.Valid()
    ensures Replay(fifo.Model(), realizedTotal) == ReplayAll(txs)
  {
    fifo := new FifoPortfolio();
    realizedTotal := 0.0;
    var i := 0;
    while i < |txs|
      invariant 0 <= i <= |txs|
      invariant fifo.Valid()
      invariant Replay(fifo.Model(), realizedTotal) == ReplayAll(txs[..i])
    {
      assert txs[..i + 1][..i] == txs[..i];
      realizedTotal := ApplyTransaction(fifo, txs[i], realizedTotal);
      i := i + 1;
    }
    assert txs[..|txs|] == txs;
  }

  /** The valuation loop of `compute_holdings` (portfolio.py:78-103) over the positions
      in insertion order; reading a known position leaves the ledger as it was. */
  method ValuePositions(fifo: FifoPortfolio, asOf: int) returns (holdings: seq<HoldingView>)
    requires fifo.Valid()
    modifies fifo
    ensures fifo.Valid() && fifo.Model() == old(fifo.Model())
    ensures holdings == Valuation(fifo.Model(), fifo.Model().order, asOf)
  {
    ghost var ledger := fifo.Model();
    var keys := fifo.order;
    holdings := [];
    var j := 0;
    while j < |keys|
      invariant 0 <= j <= |keys|
      invariant fifo.Valid() && fifo.Model() == ledger
      invariant holdings == Valuation(ledger, keys[..j], asOf)
    {
      var symbol := keys[j];
      assert keys[..j + 1][..j] == keys[..j];
      var qty, cost := fifo.CurrentPosition(symbol);
      if qty > 0.000000000001 {
        holdings := holdings + [MakeHolding(symbol, qty, cost, asOf)];
      }
      j := j + 1;
    }
    assert keys[..|keys|] == keys;
  }

  /** `compute_holdings`: one pass over the sorted transactions driving a
      `FifoPortfolio`, then one pass over its positions in insertion order. The clock
      reading `utc_now()` is the parameter `asOf`. */
  method ComputeHoldings(table: seq<Transaction>, asOf: int) returns (holdings: seq<HoldingView>, totals: Totals)
    ensures (holdings, totals) == ComputeHoldingsSpec(table, asOf)
  {
    var txs := SortByTsId(table);
    var fifo, realizedTotal := ReplayTransactions(txs);
    holdings := ValuePositions(fifo, asOf);
    totals := TotalsOf(holdings, realizedTotal);
  }
}
