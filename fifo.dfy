/** The FIFO cost-basis ledger of backend/app/services/fifo.py.

    A ledger maps a position key to the ordered list of its open lots and its running
    realized P&L. Amounts are exact reals; the only tolerances are the two constants the
    source uses. The pure functions below (`ConsumeLots`, `SellLots`, the `Ledger*`
    operations) are the specification; the class `FifoPortfolio` updates its fields in place
    the way the source does and is proved to agree with them. */
module Fifo {

  /** Quantities at or below this are treated as zero by the sell loop. */
  const QtyEpsilon: real := 0.000000000001
  /** A remaining quantity above this, once the lots are exhausted, is an oversell. */
  const OversellEpsilon: real := 0.000001

  /** One unconsumed purchase: its remaining quantity and remaining total cost. */
  datatype Lot = Lot(quantity: real, costBasis: real)

  /** The state of one position: open lots, oldest first, and realized P&L. */
  datatype AssetState = AssetState(lots: seq<Lot>, realizedPnl: real)

  const EmptyState: AssetState := AssetState([], 0.0)

  function QtySum(lots: seq<Lot>): real {
    if lots == [] then 0.0 else lots[0].quantity + QtySum(lots[1..])
  }

  function CostSum(lots: seq<Lot>): real {
    if lots == [] then 0.0 else lots[0].costBasis + CostSum(lots[1..])
  }

  lemma SumsOfCons(x: Lot, rest: seq<Lot>)
    ensures QtySum([x] + rest) == x.quantity + QtySum(rest)
    ensures CostSum([x] + rest) == x.costBasis + CostSum(rest)
  {
    assert ([x] + rest)[1..] == rest;
  }

  lemma {:induction false} SumsOfAppend(lots: seq<Lot>, x: Lot)
    ensures QtySum(lots + [x]) == QtySum(lots) + x.quantity
    ensures CostSum(lots + [x]) == CostSum(lots) + x.costBasis
  {
    if lots != [] {
      assert (lots + [x])[1..] == lots[1..] + [x];
      SumsOfAppend(lots[1..], x);
    }
  }

  // ---------------------------------------------------------------- the sell loop

  /** What is left when the sell loop stops: the remaining lots, the quantity it could not
      cover (`qty_to_sell` after the loop) and the P&L realized on the consumed lots. */
  datatype Consumption = Consumption(lots: seq<Lot>, unsold: real, realized: real)

  /** The cost that leaves a lot of which `part` is consumed: `cost * part / quantity`. */
  function LotCost(lot: Lot, part: real): real
    requires lot.quantity != 0.0
  {
    lot.costBasis * (part / lot.quantity)
  }

  /** The lot left when `part` of it is consumed (fifo.py:50-54). */
  function Reduce(lot: Lot, part: real): Lot
    requires lot.quantity != 0.0
  {
    Lot(lot.quantity - part, lot.costBasis - LotCost(lot, part))
  }

  /** The share of the net proceeds `net` realized for `part` of a sale of `quantity`. */
  function Proceeds(net: real, part: real, quantity: real): real
    requires quantity != 0.0
  {
    net * (part / quantity)
  }

  /** The `while` loop of `sell` (fifo.py:42-56): consume lots from the head while more than
      `QtyEpsilon` is left to sell. A lot within `QtyEpsilon` of the remainder is consumed
      whole; otherwise it is reduced proportionally. Each consumed part realizes its share
      of the net proceeds minus its cost. */
  function ConsumeLots(lots: seq<Lot>, toSell: real, quantity: real, net: real): (c: Consumption)
    requires toSell <= QtyEpsilon || quantity > QtyEpsilon
    ensures c.unsold > QtyEpsilon ==> quantity > QtyEpsilon && c.lots == []
    ensures |c.lots| <= |lots|
    decreases |lots|, if toSell > QtyEpsilon then 1 else 0
  {
    if toSell <= QtyEpsilon || lots == [] then Consumption(lots, toSell, 0.0)
    else
      var lot := lots[0];
      if lot.quantity <= toSell + QtyEpsilon then
        var rest := ConsumeLots(lots[1..], toSell - lot.quantity, quantity, net);
        Consumption(rest.lots, rest.unsold, Proceeds(net, lot.quantity, quantity) - lot.costBasis + rest.realized)
      else
        Consumption([Reduce(lot, toSell)] + lots[1..], toSell - toSell,
                    Proceeds(net, toSell, quantity) - LotCost(lot, toSell))
  }

  /** One turn of the loop that consumes the head lot whole. */
  lemma ConsumeWhole(lots: seq<Lot>, toSell: real, quantity: real, net: real)
    requires toSell > QtyEpsilon && quantity > QtyEpsilon && lots != []
    requires lots[0].quantity <= toSell + QtyEpsilon
    ensures var rest := ConsumeLots(lots[1..], toSell - lots[0].quantity, quantity, net);
            ConsumeLots(lots, toSell, quantity, net)
            == Consumption(rest.lots, rest.unsold,
                           Proceeds(net, lots[0].quantity, quantity) - lots[0].costBasis + rest.realized)
  {
  }

  /** One turn of the loop that reduces the head lot; the loop then stops. */
  lemma ConsumePart(lots: seq<Lot>, toSell: real, quantity: real, net: real)
    requires toSell > QtyEpsilon && quantity > QtyEpsilon && lots != []
    requires lots[0].quantity > toSell + QtyEpsilon
    ensures ConsumeLots(lots, toSell, quantity, net)
            == Consumption([Reduce(lots[0], toSell)] + lots[1..], 0.0,
                           Proceeds(net, toSell, quantity) - LotCost(lots[0], toSell))
  {
  }

  /** A reduced lot keeps its unit cost. */
  lemma ReduceKeepsUnitCost(lot: Lot, part: real)
    requires lot.quantity != 0.0
    ensures Reduce(lot, part).costBasis * lot.quantity == lot.costBasis * Reduce(lot, part).quantity
  {
    var q, c := lot.quantity, lot.costBasis;
    assert c * (part / q) * q == c * part;
  }

  /** The loop consumes lots strictly oldest first: a prefix of the lots is gone and every
      lot after the first remaining one is unchanged. */
  lemma {:induction false} ConsumeKeepsLaterLots(lots: seq<Lot>, toSell: real, quantity: real, net: real)
    requires toSell <= QtyEpsilon || quantity > QtyEpsilon
    ensures var c := ConsumeLots(lots, toSell, quantity, net);
            c.lots != [] ==> c.lots[1..] == lots[|lots| - |c.lots| + 1..]
    decreases |lots|
  {
    if toSell <= QtyEpsilon || lots == [] {
    } else if lots[0].quantity <= toSell + QtyEpsilon {
      ConsumeWhole(lots, toSell, quantity, net);
      ConsumeKeepsLaterLots(lots[1..], toSell - lots[0].quantity, quantity, net);
      var c := ConsumeLots(lots, toSell, quantity, net);
      if c.lots != [] {
        assert lots[1..][|lots| - 1 - |c.lots| + 1..] == lots[|lots| - |c.lots| + 1..];
      }
    } else {
      ConsumePart(lots, toSell, quantity, net);
      assert ([Reduce(lots[0], toSell)] + lots[1..])[1..] == lots[1..];
    }
  }

  /** The first remaining lot is the first lot not consumed whole: either untouched, or
      reduced by exactly what was left to sell once the lots before it were consumed whole,
      in which case nothing stays unsold. */
  lemma {:induction false} ConsumeHead(lots: seq<Lot>, toSell: real, quantity: real, net: real)
    requires toSell <= QtyEpsilon || quantity > QtyEpsilon
    ensures var c := ConsumeLots(lots, toSell, quantity, net);
            var k := |lots| - |c.lots|;
            k < |lots| ==>
              || c.lots[0] == lots[k]
              || (&& 0.0 < lots[k].quantity - c.lots[0].quantity < lots[k].quantity
                  && lots[k].quantity - c.lots[0].quantity == toSell - QtySum(lots[..k])
                  && c.unsold == 0.0
                  && c.lots[0] == Reduce(lots[k], lots[k].quantity - c.lots[0].quantity))
    decreases |lots|
  {
    if toSell <= QtyEpsilon || lots == [] {
    } else if lots[0].quantity <= toSell + QtyEpsilon {
      ConsumeWhole(lots, toSell, quantity, net);
      ConsumeHead(lots[1..], toSell - lots[0].quantity, quantity, net);
      var c := ConsumeLots(lots, toSell, quantity, net);
      var k := |lots| - |c.lots|;
      if k < |lots| {
        assert lots[k] == lots[1..][k - 1];
        assert lots[..k] == [lots[0]] + lots[1..][..k - 1];
        SumsOfCons(lots[0], lots[1..][..k - 1]);
      }
    } else {
      assert lots[..0] == [];
      ConsumePart(lots, toSell, quantity, net);
      var lot := lots[0];
      assert lot.quantity - (lot.quantity - toSell) == toSell;
    }
  }

  lemma DivSelf(q: real)
    requires q != 0.0
    ensures q / q == 1.0
  {
  }

  lemma ShareSum(net: real, a: real, b: real, q: real)
    requires q != 0.0
    ensures Proceeds(net, a, q) + Proceeds(net, b, q) == Proceeds(net, a + b, q)
  {
    assert a / q + b / q == (a + b) / q;
  }

  /** The loop conserves quantity and cost: what leaves the lots is what was sold, and the
      realized P&L is the share of the net proceeds for the quantity covered minus the cost
      that left the lots. When nothing is to be sold nothing changes. */
  lemma {:induction false} ConsumeConserves(lots: seq<Lot>, toSell: real, quantity: real, net: real)
    requires toSell <= QtyEpsilon || quantity > QtyEpsilon
    ensures var c := ConsumeLots(lots, toSell, quantity, net);
            && QtySum(lots) - QtySum(c.lots) == toSell - c.unsold
            && (quantity > QtyEpsilon ==>
                  c.realized == Proceeds(net, toSell - c.unsold, quantity) - (CostSum(lots) - CostSum(c.lots)))
            && (toSell <= QtyEpsilon ==> c == Consumption(lots, toSell, 0.0))
    decreases |lots|
  {
    if toSell <= QtyEpsilon || lots == [] {
      if quantity > QtyEpsilon {
        assert Proceeds(net, 0.0, quantity) == 0.0;
      }
    } else {
      var lot := lots[0];
      assert lots == [lot] + lots[1..];
      SumsOfCons(lot, lots[1..]);
      if lot.quantity <= toSell + QtyEpsilon {
        ConsumeWhole(lots, toSell, quantity, net);
        var rest := ConsumeLots(lots[1..], toSell - lot.quantity, quantity, net);
        ConsumeConserves(lots[1..], toSell - lot.quantity, quantity, net);
        ShareSum(net, lot.quantity, toSell - lot.quantity - rest.unsold, quantity);
      } else {
        ConsumePart(lots, toSell, quantity, net);
        SumsOfCons(Reduce(lot, toSell), lots[1..]);
      }
    }
  }

  // ---------------------------------------------------------------- a whole sale

  /** The outcome of `sell`: the remaining lots, the realized P&L it returns, and the
      quantity the lots could not cover. */
  datatype Sale = Sale(lots: seq<Lot>, realized: real, shortfall: real)

  /** `FIFOPortfolio.sell` on a list of lots (fifo.py:37-68): the loop, then the oversell
      rule: a shortfall above `OversellEpsilon` is realized at zero cost, a smaller one is
      dropped. */
  function SellLots(lots: seq<Lot>, quantity: real, totalProceeds: real, fee: real): (s: Sale)
    ensures s.shortfall > QtyEpsilon ==> s.lots == []
  {
    var net := totalProceeds - fee;
    var c := ConsumeLots(lots, quantity, quantity, net);
    if c.unsold > OversellEpsilon then Sale(c.lots, c.realized + Proceeds(net, c.unsold, quantity), c.unsold)
    else Sale(c.lots, c.realized, c.unsold)
  }

  /** Quantity leaves the lots exactly as it is sold, less the shortfall. */
  lemma SaleConservesQuantity(lots: seq<Lot>, quantity: real, totalProceeds: real, fee: real)
    ensures var s := SellLots(lots, quantity, totalProceeds, fee);
            QtySum(lots) - QtySum(s.lots) == quantity - s.shortfall
  {
    ConsumeConserves(lots, quantity, quantity, totalProceeds - fee);
  }

  /** Oversell never fails: once every lot is consumed, a shortfall above `OversellEpsilon`
      is realized at zero cost basis, so the whole net proceeds count against the cost of
      the lots that were there. */
  lemma SaleOversell(lots: seq<Lot>, quantity: real, totalProceeds: real, fee: real)
    requires SellLots(lots, quantity, totalProceeds, fee).shortfall > OversellEpsilon
    ensures var s := SellLots(lots, quantity, totalProceeds, fee);
            s.lots == [] && s.realized == (totalProceeds - fee) - CostSum(lots)
  {
    var net := totalProceeds - fee;
    var c := ConsumeLots(lots, quantity, quantity, net);
    ConsumeConserves(lots, quantity, quantity, net);
    assert quantity > QtyEpsilon && c.lots == [];
    ShareSum(net, quantity - c.unsold, c.unsold, quantity);
    assert quantity - c.unsold + c.unsold == quantity;
    DivSelf(quantity);
  }

  /** A sale the lots cover up to `OversellEpsilon` realizes the share of the net proceeds
      for the quantity consumed, minus the cost that left the lots; the dust left over is
      dropped. */
  lemma SaleCovered(lots: seq<Lot>, quantity: real, totalProceeds: real, fee: real)
    requires quantity > QtyEpsilon
    requires SellLots(lots, quantity, totalProceeds, fee).shortfall <= OversellEpsilon
    ensures var s := SellLots(lots, quantity, totalProceeds, fee);
            s.realized
            == Proceeds(totalProceeds - fee, quantity - s.shortfall, quantity) - (CostSum(lots) - CostSum(s.lots))
  {
    ConsumeConserves(lots, quantity, quantity, totalProceeds - fee);
  }

  /** Selling at most `QtyEpsilon` changes nothing and realizes nothing. */
  lemma SaleOfNothing(lots: seq<Lot>, quantity: real, totalProceeds: real, fee: real)
    requires quantity <= QtyEpsilon
    ensures SellLots(lots, quantity, totalProceeds, fee) == Sale(lots, 0.0, quantity)
  {
    ConsumeConserves(lots, quantity, quantity, totalProceeds - fee);
  }

  /** The worked example of backend/tests/test_fifo.py:6-14: buy 1 for 10000, buy 1 for
      12000, sell 1.5 for 18000 without fee realizes 2000 and leaves 0.5 costing 6000. */
  lemma PartialSellExample()
    ensures SellLots([Lot(1.0, 10000.0), Lot(1.0, 12000.0)], 1.5, 18000.0, 0.0)
            == Sale([Lot(0.5, 6000.0)], 2000.0, 0.0)
  {
    var lots := [Lot(1.0, 10000.0), Lot(1.0, 12000.0)];
    assert lots[1..] == [Lot(1.0, 12000.0)];
    assert [Lot(1.0, 12000.0)][1..] == [];
    var tail := ConsumeLots([Lot(1.0, 12000.0)], 0.5, 1.5, 18000.0);
    assert tail == Consumption([Lot(0.5, 6000.0)], 0.0, 0.0);
  }

  // ---------------------------------------------------------------- the ledger

  /** The `assets` dictionary of `FIFOPortfolio`, with the insertion order Python keeps. */
  datatype Ledger = Ledger(assets: map<string, AssetState>, order: seq<string>)

  const EmptyLedger: Ledger := Ledger(map[], [])

  /** The keys in `order` are distinct and are exactly the keys of `assets`. */
  ghost predicate WellFormed(l: Ledger) {
    && (forall i, j :: 0 <= i < j < |l.order| ==> l.order[i] != l.order[j])
    && (forall k :: k in l.assets <==> k in l.order)
  }

  function StateOf(l: Ledger, key: string): AssetState {
    if key in l.assets then l.assets[key] else EmptyState
  }

  /** `_get_state` (fifo.py:23-24): `setdefault` adds an empty state for an unseen key at
      the end of the insertion order; a known key is left as it is. */
  function Touch(l: Ledger, key: string): (r: Ledger)
    ensures key in r.assets && r.assets[key] == StateOf(l, key)
    ensures forall k :: StateOf(r, k) == StateOf(l, k)
    ensures key in l.assets ==> r == l
    ensures key !in l.assets ==> r.order == l.order + [key] && r.assets.Keys == l.assets.Keys + {key}
    ensures WellFormed(l) ==> WellFormed(r)
  {
    if key in l.assets then l else Ledger(l.assets[key := EmptyState], l.order + [key])
  }

  function Update(l: Ledger, key: string, s: AssetState): (r: Ledger)
    ensures WellFormed(l) ==> WellFormed(r)
    ensures r.order == Touch(l, key).order
    ensures StateOf(r, key) == s && forall k :: k != key ==> StateOf(r, k) == StateOf(l, k)
  {
    var t := Touch(l, key);
    Ledger(t.assets[key := s], t.order)
  }

  /** `buy` (fifo.py:26-28). */
  function LedgerBuy(l: Ledger, key: string, quantity: real, totalCost: real): (r: Ledger)
    ensures StateOf(r, key).lots == StateOf(l, key).lots + [Lot(quantity, totalCost)]
    ensures StateOf(r, key).realizedPnl == StateOf(l, key).realizedPnl
    ensures forall k :: k != key ==> StateOf(r, k) == StateOf(l, k)
  {
    var s := StateOf(l, key);
    Update(l, key, AssetState(s.lots + [Lot(quantity, totalCost)], s.realizedPnl))
  }

  /** `sell` (fifo.py:30-68): the new ledger and the P&L the call returns. */
  function LedgerSell(l: Ledger, key: string, quantity: real, totalProceeds: real, fee: real): (r: (Ledger, real))
    ensures StateOf(r.0, key).realizedPnl == StateOf(l, key).realizedPnl + r.1
    ensures StateOf(r.0, key).lots == SellLots(StateOf(l, key).lots, quantity, totalProceeds, fee).lots
    ensures forall k :: k != key ==> StateOf(r.0, k) == StateOf(l, k)
  {
    var s := StateOf(l, key);
    var sale := SellLots(s.lots, quantity, totalProceeds, fee);
    (Update(l, key, AssetState(sale.lots, s.realizedPnl + sale.realized)), sale.realized)
  }

  /** `dividend` (fifo.py:70-72). */
  function LedgerDividend(l: Ledger, key: string, amount: real): (r: Ledger)
    ensures StateOf(r, key).realizedPnl == StateOf(l, key).realizedPnl + amount
    ensures StateOf(r, key).lots == StateOf(l, key).lots
    ensures forall k :: k != key ==> StateOf(r, k) == StateOf(l, k)
  {
    var s := StateOf(l, key);
    Update(l, key, AssetState(s.lots, s.realizedPnl + amount))
  }

  /** `current_position` (fifo.py:74-78): the total quantity and cost of the open lots. */
  function Position(l: Ledger, key: string): (real, real) {
    (QtySum(StateOf(l, key).lots), CostSum(StateOf(l, key).lots))
  }

  /** A buy adds its quantity and cost to the position. */
  lemma BuyAddsToPosition(l: Ledger, key: string, quantity: real, totalCost: real)
    ensures Position(LedgerBuy(l, key, quantity, totalCost), key)
            == (Position(l, key).0 + quantity, Position(l, key).1 + totalCost)
  {
    SumsOfAppend(StateOf(l, key).lots, Lot(quantity, totalCost));
  }

  /** How `sell` ends once the loop has left `lots`: commit the lots and the P&L. */
  lemma SellOutcome(l: Ledger, key: string, quantity: real, totalProceeds: real, fee: real,
                    lots: seq<Lot>, realized: real)
    requires SellLots(StateOf(l, key).lots, quantity, totalProceeds, fee).lots == lots
    requires SellLots(StateOf(l, key).lots, quantity, totalProceeds, fee).realized == realized
    ensures LedgerSell(l, key, quantity, totalProceeds, fee)
            == (Update(l, key, AssetState(lots, StateOf(l, key).realizedPnl + realized)), realized)
  {
  }

  // ---------------------------------------------------------------- the object

  /** `FIFOPortfolio`: the dictionary of asset states, updated in place. */
  class FifoPortfolio {
    var assets: map<string, AssetState>
    var order: seq<string>

    ghost function Model(): Ledger
      reads this
    {
      Ledger(assets, order)
    }

    ghost predicate Valid()
      reads this
    {
      WellFormed(Model())
    }

    constructor ()
      ensures Valid() && Model() == EmptyLedger
    {
      assets := map[];
      order := [];
    }

    /** `_get_state`. */
    method GetState(symbol: string) returns (state: AssetState)
      requires Valid()
      modifies this
      ensures Valid() && Model() == Touch(old(Model()), symbol)
      ensures state == StateOf(old(Model()), symbol)
    {
      if symbol !in assets {
        assets := assets[symbol := EmptyState];
        order := order + [symbol];
      }
      state := assets[symbol];
    }

    method Buy(symbol: string, quantity: real, totalCost: real)
      requires Valid()
      modifies this
      ensures Valid() && Model() == LedgerBuy(old(Model()), symbol, quantity, totalCost)
    {
      var state := GetState(symbol);
      assets := assets[symbol := AssetState(state.lots + [Lot(quantity, totalCost)], state.realizedPnl)];
    }

    method Sell(symbol: string, quantity: real, totalProceeds: real, fee: real) returns (realized: real)
      requires Valid()
      modifies this
      ensures Valid()
      ensures (Model(), realized) == LedgerSell(old(Model()), symbol, quantity, totalProceeds, fee)
    {
      var state := GetState(symbol);
      ghost var touched := Model();
      var qtyToSell := quantity;
      realized := 0.0;
      var net := totalProceeds - fee;
      var lots := state.lots;
      while qtyToSell > QtyEpsilon && |lots| > 0
        invariant qtyToSell <= QtyEpsilon || quantity > QtyEpsilon
        invariant order == touched.order
        invariant assets == touched.assets[symbol := AssetState(lots, state.realizedPnl)]
        invariant var c := ConsumeLots(lots, qtyToSell, quantity, net);
                  ConsumeLots(state.lots, quantity, quantity, net)
                  == Consumption(c.lots, c.unsold, realized + c.realized)
        decreases |lots|, if qtyToSell > QtyEpsilon then 1 else 0
      {
        var lot := lots[0];
        var consumed, lotCost;
        if lot.quantity <= qtyToSell + QtyEpsilon {
          ConsumeWhole(lots, qtyToSell, quantity, net);
          consumed := lot.quantity;
          lotCost := lot.costBasis;
          lots := lots[1..];
        } else {
          ConsumePart(lots, qtyToSell, quantity, net);
          consumed := qtyToSell;
          lotCost := LotCost(lot, consumed);
          lots := [Reduce(lot, consumed)] + lots[1..];
        }
        assets := assets[symbol := AssetState(lots, state.realizedPnl)];
        qtyToSell := qtyToSell - consumed;
        var proportionalProceeds := Proceeds(net, consumed, quantity);
        realized := realized + (proportionalProceeds - lotCost);
      }
      assert ConsumeLots(lots, qtyToSell, quantity, net) == Consumption(lots, qtyToSell, 0.0);
      assert ConsumeLots(state.lots, quantity, quantity, net) == Consumption(lots, qtyToSell, realized);
      if qtyToSell > OversellEpsilon {
        var proportionalProceeds := Proceeds(net, qtyToSell, quantity);
        realized := realized + proportionalProceeds;
        qtyToSell := 0.0;
      }
      assets := assets[symbol := AssetState(lots, state.realizedPnl + realized)];
      assert assets == touched.assets[symbol := AssetState(lots, state.realizedPnl + realized)];
      SellOutcome(old(Model()), symbol, quantity, totalProceeds, fee, lots, realized);
    }

    method Dividend(symbol: string, amount: real)
      requires Valid()
      modifies this
      ensures Valid() && Model() == LedgerDividend(old(Model()), symbol, amount)
    {
      var state := GetState(symbol);
      assets := assets[symbol := AssetState(state.lots, state.realizedPnl + amount)];
    }

    /** `current_position`: its only effect on the object is `_get_state`'s. */
    method CurrentPosition(symbol: string) returns (totalQty: real, totalCost: real)
      requires Valid()
      modifies this
      ensures Valid() && Model() == Touch(old(Model()), symbol)
      ensures (totalQty, totalCost) == Position(old(Model()), symbol)
    {
      var state := GetState(symbol);
      totalQty := QtySum(state.lots);
      totalCost := CostSum(state.lots);
    }

    /** `as_dict`. */
    function AsDict(): map<string, AssetState>
      reads this
    {
      assets
    }
  }
}
