/** What a cycle sells: never more than is held, and never below the target. */
module CycleSells {
  import opened Wrappers

  import BrokerFacts
  import opened Quantity
  import opened RebalanceCycle
  import CycleFacts

  // ----- quantity sold

  /** The shares of one broker symbol in sell calls not rejected, and their value at the quoted prices. */
  datatype Sale = Sale(shares: real, value: real)

  function SaleOf(call: BrokerFacts.Call, symbol: string): Sale
  {
    if call.intent.side != BrokerFacts.Sell || call.IsRejected() || call.intent.symbol != symbol then Sale(0.0, 0.0)
    else Sale(call.intent.quantity, Times(call.intent.quantity, call.quote))
  }

  function Sold(calls: seq<BrokerFacts.Call>, symbol: string): Sale
  {
    if calls == [] then Sale(0.0, 0.0)
    else
      var rest, last := Sold(calls[..|calls| - 1], symbol), SaleOf(calls[|calls| - 1], symbol);
      Sale(rest.shares + last.shares, rest.value + last.value)
  }

  lemma SoldAppend(calls: seq<BrokerFacts.Call>, call: BrokerFacts.Call, symbol: string)
    ensures var rest, last := Sold(calls, symbol), SaleOf(call, symbol);
            Sold(calls + [call], symbol) == Sale(rest.shares + last.shares, rest.value + last.value)
  {
    assert (calls + [call])[..|calls|] == calls;
  }

  lemma {:induction false} RejectedSellNothing(calls: seq<BrokerFacts.Call>, symbol: string)
    requires forall i :: 0 <= i < |calls| ==> calls[i].IsRejected()
    ensures Sold(calls, symbol) == Sale(0.0, 0.0)
  {
    if calls != [] {
      RejectedSellNothing(calls[..|calls| - 1], symbol);
    }
  }

  // ----- one sell order

  /** A sell order of an asset is positive only when some of it can be sold, and then it is at
      most that; with a target left, it is worth at most the excess over the target at the
      quoted price. So "nothing sellable" is never the reason that an order was not taken. */
  lemma SellQuantityBounds(current: real, target: real, price: real, sellable: real, lot: int)
    ensures var q := SellQuantity(current, target, price, sellable, lot);
            && 0.0 <= q
            && (q > 0.0 ==> sellable > 0.0 && q <= sellable)
            && (q > 0.0 && target > 0.0 ==> price > 0.0 && Times(q, price) <= current - target)
  {
    FloorBounds(sellable, LotStep(lot));
    if target > 0.0 && current - target > 0.0 && price > 0.0 {
      var wanted := (current - target) / price;
      QuotientTimes(current - target, price);
      FloorBounds(Min(wanted, sellable), LotStep(lot));
      TimesMonotone(FloorToLot(Min(wanted, sellable), lot), wanted, price);
    }
  }

  /** The flooring at submission only lowers a sell, and flooring to whole shares first would
      change nothing. */
  lemma SubmittedSell(p: Params, intent: BrokerFacts.Intent)
    requires intent.side == BrokerFacts.Sell && intent.quantity > 0.0
    ensures 0.0 <= SubmitQuantity(p, intent) <= intent.quantity
    ensures SubmitQuantity(p, intent) == SubmitQuantity(p, intent.(quantity := FloorToLot(intent.quantity, 1)))
  {
    FloorBounds(intent.quantity, LotStep(LotFor(p.lots, intent.symbol)));
    FloorWholeThenLot(intent.quantity, LotFor(p.lots, intent.symbol));
  }

  /** What a sale may be: no more shares than can be sold; worth no more than the excess over a target. */
  predicate SaleWithin(sale: Sale, sellable: real, target: real, current: real)
  {
    && sale.shares <= Max(0.0, sellable)
    && (target > 0.0 ==> sale.value <= Max(0.0, current - target))
  }

  lemma SellCallWithin(s: string, c: Cycle, p: Params, v: PlanView, m: Outside, price: real)
    requires v.Covers() && s in v.assets && SellTicket(s, p, v, price).Some?
    ensures SaleWithin(SaleOf(CallOf(c.book, p, m, SellTicket(s, p, v, price).value), MarketSymbol(s, p.suffix)),
                       v.sellable[s], v.targets[s], v.values[s])
  {
    var t := SellTicket(s, p, v, price).value;
    SellQuantityBounds(v.values[s], v.targets[s], price, v.sellable[s], LotFor(p.lots, s));
    SubmittedSell(p, t.intent);
    if v.targets[s] > 0.0 {
      TimesMonotone(SubmitQuantity(p, t.intent), t.intent.quantity, price);
    }
  }

  // ----- the sell loop

  /** The broker tells the assets apart. */
  ghost predicate DistinctAssets(p: Params, v: PlanView)
  {
    forall i, j :: 0 <= i < j < |v.assets| ==>
      MarketSymbol(v.assets[i], p.suffix) != MarketSymbol(v.assets[j], p.suffix)
  }

  /** A pass sells only the symbol of its ticket, if that is a sell. */
  lemma PassSold(c: Cycle, after: Cycle, p: Params, m: Outside, t: Option<Ticket>, symbol: string)
    requires CycleFacts.Pass(c, after, p, m, t)
    ensures t.None? || t.value.intent.side == BrokerFacts.Buy || t.value.intent.symbol != symbol ==>
              Sold(after.book.calls, symbol) == Sold(c.book.calls, symbol)
    ensures t.Some? ==> after.book.calls == c.book.calls
                        || after.book.calls == c.book.calls + [CallOf(c.book, p, m, t.value)]
  {
    if t.Some? {
      SoldAppend(c.book.calls, CallOf(c.book, p, m, t.value), symbol);
    }
  }

  lemma SellOneSold(s: string, c: Cycle, p: Params, v: PlanView, m: Outside, symbol: string)
    requires v.Covers() && s in v.assets
    ensures var after := SellOne(s, c, p, v, m);
            && (MarketSymbol(s, p.suffix) != symbol ==> Sold(after.book.calls, symbol) == Sold(c.book.calls, symbol))
            && (MarketSymbol(s, p.suffix) == symbol && Sold(c.book.calls, symbol) == Sale(0.0, 0.0) ==>
                  SaleWithin(Sold(after.book.calls, symbol), v.sellable[s], v.targets[s], v.values[s]))
  {
    var t := SellTicketOf(s, c, p, v, m);
    CycleFacts.SellOneIsPass(s, c, p, v, m);
    PassSold(c, SellOne(s, c, p, v, m), p, m, t, symbol);
    if t.Some? {
      CycleFacts.SellTicketSells(s, p, v, m.quote(c.quotes).value);
      SellCallWithin(s, c, p, v, m, m.quote(c.quotes).value);
      SoldAppend(c.book.calls, CallOf(c.book, p, m, t.value), symbol);
    }
  }

  /** Before the loop comes to asset k, nothing of it is sold; afterwards it is sold within bounds. */
  predicate SoldBefore(i: nat, calls: seq<BrokerFacts.Call>, p: Params, v: PlanView, k: nat)
    requires v.Covers() && k < |v.assets|
  {
    var s := v.assets[k];
    var sale := Sold(calls, MarketSymbol(s, p.suffix));
    if i <= k then sale == Sale(0.0, 0.0) else SaleWithin(sale, v.sellable[s], v.targets[s], v.values[s])
  }

  lemma SellOneSoldBefore(i: nat, c: Cycle, p: Params, v: PlanView, m: Outside, k: nat)
    requires v.Covers() && DistinctAssets(p, v) && k < |v.assets| && i < |v.assets|
             && SoldBefore(i, c.book.calls, p, v, k)
    ensures SoldBefore(i + 1, SellOne(v.assets[i], c, p, v, m).book.calls, p, v, k)
  {
    SellOneSold(v.assets[i], c, p, v, m, MarketSymbol(v.assets[k], p.suffix));
  }

  lemma {:induction false} SellFromSold(i: nat, c: Cycle, p: Params, v: PlanView, m: Outside, k: nat)
    requires v.Covers() && DistinctAssets(p, v) && k < |v.assets| && SoldBefore(i, c.book.calls, p, v, k)
    ensures var s := v.assets[k];
            SaleWithin(Sold(SellFrom(i, c, p, v, m).book.calls, MarketSymbol(s, p.suffix)),
                       v.sellable[s], v.targets[s], v.values[s])
    decreases |v.assets| - i
  {
    if i < |v.assets| && !c.book.halted {
      SellOneSoldBefore(i, c, p, v, m, k);
      SellFromSold(i + 1, SellOne(v.assets[i], c, p, v, m), p, v, m, k);
    }
  }

  // ----- the sweep sale comes alone

  /** While no sell was taken and nothing halted, every call was rejected. */
  predicate Quiet(c: Cycle)
  {
    !c.sellSubmitted && !c.book.halted ==> c.book.pending == []
  }

  lemma PassQuiet(c: Cycle, after: Cycle, p: Params, m: Outside, t: Option<Ticket>)
    requires Quiet(c) && !c.book.halted && CycleFacts.Pass(c, after, p, m, t)
             && (t.Some? ==> t.value.intent.side == BrokerFacts.Sell)
    ensures Quiet(after)
  {
  }

  lemma {:induction false} SellFromQuiet(i: nat, c: Cycle, p: Params, v: PlanView, m: Outside)
    requires v.Covers() && Quiet(c)
    ensures Quiet(SellFrom(i, c, p, v, m))
    decreases |v.assets| - i
  {
    if i < |v.assets| && !c.book.halted {
      var t := SellTicketOf(v.assets[i], c, p, v, m);
      CycleFacts.SellOneIsPass(v.assets[i], c, p, v, m);
      if t.Some? {
        CycleFacts.SellTicketSells(v.assets[i], p, v, m.quote(c.quotes).value);
      }
      PassQuiet(c, SellOne(v.assets[i], c, p, v, m), p, m, t);
      SellFromQuiet(i + 1, SellOne(v.assets[i], c, p, v, m), p, v, m);
    }
  }

  /** The sweep sale follows no other sell, and sells at most the sweep holding. */
  lemma SweepSold(c: Cycle, p: Params, v: PlanView, m: Outside, symbol: string)
    requires v.Covers() && Quiet(c) && c.book.pending == BrokerFacts.PendingOf(c.book.calls)
             && CycleFacts.SweepTicketOf(c, p, v, m).Some?
    ensures var sale := Sold(SellSweep(c, p, v, m).book.calls, symbol);
            if symbol == MarketSymbol(p.sweep, p.suffix) then sale.shares <= SweepSellable(p, v)
            else sale == Sale(0.0, 0.0)
  {
    var t := CycleFacts.SweepTicketOf(c, p, v, m).value;
    BrokerFacts.NothingPending(c.book.calls);
    RejectedSellNothing(c.book.calls, symbol);
    CycleFacts.SellSweepIsPass(c, p, v, m);
    PassSold(c, SellSweep(c, p, v, m), p, m, Some(t), symbol);
    SubmittedSell(p, t.intent);
    SoldAppend(c.book.calls, CallOf(c.book, p, m, t), symbol);
  }

  // ----- the buy side sells nothing

  lemma {:induction false} BuyFromSold(symbols: seq<string>, c: Cycle, p: Params, v: PlanView, m: Outside,
                                       symbol: string)
    requires v.Covers() && forall s :: s in symbols ==> s in v.assets
    ensures Sold(BuyFrom(symbols, c, p, v, m).book.calls, symbol) == Sold(c.book.calls, symbol)
    decreases |symbols|
  {
    if symbols != [] && !c.book.halted {
      var t, after := CycleFacts.BuyTicketOf(symbols[0], c, p, v, m), BuyOne(symbols[0], c, p, v, m);
      CycleFacts.BuyOneIsPass(symbols[0], c, p, v, m);
      PassSold(c, after, p, m, t, symbol);
      BuyFromSold(symbols[1..], after, p, v, m, symbol);
    }
  }

  lemma BuyPhaseSold(c: Cycle, p: Params, v: PlanView, m: Outside, symbol: string)
    requires v.Covers()
    ensures Sold(BuyPhase(c, p, v, m).book.calls, symbol) == Sold(c.book.calls, symbol)
  {
    BuyFromSold(AllowedBuys(c, p, v, m), c.(quotes := c.quotes + QuotesAsked(c, p, v)), p, v, m, symbol);
  }

  lemma RebuySold(c: Cycle, p: Params, v: PlanView, m: Outside, symbol: string)
    ensures Sold(Rebuy(c, p, v, m).book.calls, symbol) == Sold(c.book.calls, symbol)
  {
    CycleFacts.RebuyIsPass(c, p, v, m);
    PassSold(c, Rebuy(c, p, v, m), p, m, CycleFacts.RebuyTicketOf(c, p, v, m), symbol);
  }

  lemma BuySideSold(c: Cycle, p: Params, v: PlanView, m: Outside, symbol: string)
    requires v.Covers()
    ensures Sold(Rebuy(BuyPhase(c, p, v, m), p, v, m).book.calls, symbol) == Sold(c.book.calls, symbol)
  {
    BuyPhaseSold(c, p, v, m, symbol);
    RebuySold(BuyPhase(c, p, v, m), p, v, m, symbol);
  }

  lemma ExecuteSold(p: Params, v: PlanView, gate: Option<Gate>, m: Outside, symbol: string)
    requires v.Covers() && RefreshesCover(m)
    ensures Sold(Execute(false, p, v, gate, m).book.calls, symbol) == Sold(SellPhase(p, v, gate, m).book.calls, symbol)
  {
    var sold := SellPhase(p, v, gate, m);
    RefreshedCovers(sold, p, v, m);
    CycleFacts.RefreshMakesNoCall(sold, p, m);
    BuySideSold(BeforeBuys(p, v, gate, m), p, BuyView(p, v, gate, m), m, symbol);
  }

  lemma SellPhaseSold(p: Params, v: PlanView, gate: Option<Gate>, m: Outside, symbol: string)
    requires v.Covers()
    ensures var c := SellFrom(0, Start(v, gate), p, v, m);
            var sale := Sold(SellPhase(p, v, gate, m).book.calls, symbol);
            if CycleFacts.SweepTicketOf(c, p, v, m).None? then sale == Sold(c.book.calls, symbol)
            else if symbol == MarketSymbol(p.sweep, p.suffix) then sale.shares <= SweepSellable(p, v)
            else sale == Sale(0.0, 0.0)
  {
    var c := SellFrom(0, Start(v, gate), p, v, m);
    SellFromQuiet(0, Start(v, gate), p, v, m);
    CycleFacts.SellFromLedger(0, Start(v, gate), p, v, m);
    if CycleFacts.SweepTicketOf(c, p, v, m).Some? {
      SweepSold(c, p, v, m, symbol);
    } else {
      CycleFacts.SellSweepIsPass(c, p, v, m);
    }
  }

  // ----- main result

  /** The cash-sweep holding is sold to fund buys. */
  predicate SweepSale(p: Params, v: PlanView, gate: Option<Gate>, m: Outside)
    requires v.Covers()
  {
    CycleFacts.SweepTicketOf(SellFrom(0, Start(v, gate), p, v, m), p, v, m).Some?
  }

  /** A cycle sells no more of an asset than can be sold, the sweep sale included; and every
      asset keeps its target value at the quoted price, but for the sweep symbol when it is sold
      to fund buys. */
  lemma SellsWithinHoldings(blocked: bool, p: Params, v: PlanView, gate: Option<Gate>, m: Outside, k: nat)
    requires v.Covers() && RefreshesCover(m) && DistinctAssets(p, v) && k < |v.assets|
    requires forall s :: s in v.assets && MarketSymbol(s, p.suffix) == MarketSymbol(p.sweep, p.suffix) ==> s == p.sweep
    ensures var s := v.assets[k];
            var sale := Sold(Execute(blocked, p, v, gate, m).book.calls, MarketSymbol(s, p.suffix));
            && sale.shares <= Max(0.0, v.sellable[s])
            && ((s != p.sweep || !SweepSale(p, v, gate, m)) && v.targets[s] > 0.0 ==>
                  sale.value <= Max(0.0, v.values[s] - v.targets[s]))
  {
    if !blocked {
      var symbol := MarketSymbol(v.assets[k], p.suffix);
      ExecuteSold(p, v, gate, m, symbol);
      SellPhaseSold(p, v, gate, m, symbol);
      SellFromSold(0, Start(v, gate), p, v, m, k);
    }
  }
}
