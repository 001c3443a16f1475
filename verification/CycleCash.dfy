/** The cash a cycle can commit to buys. */
module CycleCash {
  import opened Wrappers

  import opened BrokerFacts
  import opened Quantity
  import opened RebalanceCycle
  import CycleFacts

  // ----- what is committed

  /** The money a buy commits: a limit order its limit price; a market order the lower of the
      quote and the rounded reference price. Sells and rejected calls commit nothing. */
  function Notional(call: Call): real
  {
    if call.intent.side != Buy || call.IsRejected() then 0.0
    else if call.intent.kind == Limit then Times(call.intent.quantity, call.reference)
    else Times(call.intent.quantity, Min(call.quote, call.reference))
  }

  function Committed(calls: seq<Call>): real
  {
    if calls == [] then 0.0 else Committed(calls[..|calls| - 1]) + Notional(calls[|calls| - 1])
  }

  lemma CommittedAppend(calls: seq<Call>, call: Call)
    ensures Committed(calls + [call]) == Committed(calls) + Notional(call)
  {
    assert (calls + [call])[..|calls|] == calls;
  }

  predicate EndsUnknown(calls: seq<Call>)
  {
    calls != [] && calls[|calls| - 1].IsUnknown()
  }

  /** Market buys are sized at the quote rounded to cents, which is positive, for some shares;
      limit buys at the limit price that the broker is given. */
  ghost predicate Priced(calls: seq<Call>)
  {
    forall i :: 0 <= i < |calls| && calls[i].intent.side == Buy ==>
      && 0.0 <= calls[i].intent.quantity && 0.0 < calls[i].reference
      && if calls[i].intent.kind == Market then calls[i].reference == RoundCents(calls[i].quote)
         else calls[i].intent.limitPrice == Some(calls[i].reference)
  }

  /** What is committed and what is left never exceed the limit. An unknown outcome ends the
      buying, so its order may use all that was left. */
  ghost predicate WithinLimit(b: Book, left: real, limit: real)
  {
    && Committed(b.calls) <= limit
    && (!EndsUnknown(b.calls) ==> Committed(b.calls) + Max(0.0, left) <= limit)
    && (EndsUnknown(b.calls) ==> b.halted)
    && Priced(b.calls)
  }

  lemma PlacedWithinLimit(b: Book, call: Call, hookFails: bool, left: real, cost: real, limit: real)
    requires !b.halted && WithinLimit(b, left, limit)
    requires Notional(call) <= left && Notional(call) <= cost && Priced([call])
    ensures WithinLimit(Placed(b, call, hookFails),
                        if call.IsRejected() || call.IsUnknown() then left else Max(0.0, left - cost), limit)
  {
    CommittedAppend(b.calls, call);
    assert [call][0] == call;
  }

  // ----- a ticket can be paid

  /** A buy ticket that costs no more than the cash: sized at a positive price, and a market
      order at its positive quote in cents, a limit order at its limit price. */
  ghost predicate Payable(t: Ticket, cash: real)
  {
    && t.intent.side == Buy
    && t.reference > 0.0 && t.intent.quantity > 0.0
    && (if t.intent.kind == Market then t.quote > 0.0 && t.reference == RoundCents(t.quote)
        else t.intent.limitPrice == Some(t.reference))
    && Times(t.intent.quantity, t.reference) <= cash
  }

  lemma SubmitQuantityBelow(p: Params, intent: Intent)
    requires intent.quantity > 0.0
    ensures 0.0 <= SubmitQuantity(p, intent) <= intent.quantity
  {
    FloorBounds(intent.quantity, BuyStep(p, intent.symbol));
    FloorBounds(intent.quantity, LotStep(LotFor(p.lots, intent.symbol)));
  }

  /** The call commits no more than the cash, and no more than the ticket is charged. */
  lemma CallWithinTicket(b: Book, p: Params, m: Outside, t: Ticket, cash: real)
    requires Payable(t, cash)
    ensures Notional(CallOf(b, p, m, t)) <= cash
    ensures Notional(CallOf(b, p, m, t)) <= Cost(t)
    ensures Priced([CallOf(b, p, m, t)])
  {
    var quantity := SubmitQuantity(p, t.intent);
    SubmitQuantityBelow(p, t.intent);
    TimesMonotone(quantity, t.intent.quantity, t.reference);
    TimesMonotone(0.0, t.intent.quantity, t.reference);
    if t.intent.kind == Market {
      TimesMonotone(quantity, t.intent.quantity, t.quote);
      TimesMonotone(0.0, t.intent.quantity, t.quote);
      TimesMonotone(Min(t.quote, t.reference), t.reference, quantity);
      TimesMonotone(Min(t.quote, t.reference), t.quote, quantity);
    }
  }

  lemma PlaceBuyIsOneCall(c: Cycle, p: Params, m: Outside, t: Ticket)
    requires !p.dryRun
    ensures var after := PlaceBuy(c, p, m, t);
            if Reaches(c.book, p, t) then
              var call := CallOf(c.book, p, m, t);
              && after.book == Placed(c.book, call, m.hookFails(|c.book.calls|))
              && after.investable == (if call.IsRejected() || call.IsUnknown() then c.investable
                                      else Max(0.0, c.investable - Cost(t)))
            else after == c
  {
  }

  lemma PlaceBuyWithinLimit(c: Cycle, p: Params, m: Outside, t: Ticket, limit: real)
    requires !p.dryRun && !c.book.halted && WithinLimit(c.book, c.investable, limit) && Payable(t, c.investable)
    ensures var after := PlaceBuy(c, p, m, t); WithinLimit(after.book, after.investable, limit)
  {
    var call, hookFails, cost := CallOf(c.book, p, m, t), m.hookFails(|c.book.calls|), Cost(t);
    PlaceBuyIsOneCall(c, p, m, t);
    CallWithinTicket(c.book, p, m, t, c.investable);
    PlacedWithinLimit(c.book, call, hookFails, c.investable, cost, limit);
  }

  // ----- sizing stays within the cash

  lemma StepsPayable(money: real, reference: real, step: real)
    requires reference > 0.0 && step > 0.0
    ensures 0.0 <= FloorToStep(money / reference, step)
    ensures 0.0 <= money ==> Times(FloorToStep(money / reference, step), reference) <= money
    ensures money < 0.0 ==> FloorToStep(money / reference, step) == 0.0
  {
    FloorBounds(money / reference, step);
    QuotientTimes(money, reference);
    if 0.0 <= money {
      TimesMonotone(FloorToStep(money / reference, step), money / reference, reference);
    } else {
      TimesStrict(money / reference, 0.0, reference);
      TimesSucc(0, reference);
    }
  }

  lemma BuyStepPositive(p: Params, symbol: string)
    ensures BuyStep(p, symbol) > 0.0
  {
  }

  /** The planned whole-share quantity is paid for by the budget; a top-up share by the power. */
  lemma PlannedPayable(target: real, current: real, held: real, budget: real, power: real,
                       reference: real, step: real, allowTopUp: bool)
    requires step > 0.0
    requires PlannedQuantity(target, current, held, budget, power, reference, step, allowTopUp) > 0.0
    ensures reference > 0.0
    ensures var planned := PlannedQuantity(target, current, held, budget, power, reference, step, allowTopUp);
            Times(planned, reference) <= budget || Times(planned, reference) <= power
  {
    StepsPayable(Max(0.0, budget), reference, step);
    var first := FloorToStep(Max(0.0, budget) / reference, step);
    if first > 0.0 {
      TimesStrict(0.0, first, reference);
      TimesSucc(0, reference);
    } else {
      FloorBounds(1.0, step);
      TimesMonotone(FloorToStep(1.0, step), 1.0, reference);
      TimesSucc(0, reference);
    }
  }

  /** What an affordable buy may use is at most the investable cash. */
  lemma MoneyWithinCash(s: string, c: Cycle, p: Params, v: PlanView, reference: real)
    requires v.Covers() && s in v.assets && CanAfford(s, c, p, v, reference)
    ensures 0.0 < Plan(s, c, p, v, reference).1 || reference > 0.0
    ensures Plan(s, c, p, v, reference).1 <= c.investable
  {
    if !p.fractional {
      BuyStepPositive(p, MarketSymbol(s, p.suffix));
      PlannedPayable(v.targets[s], v.values[s], v.quantities[s], Min(v.Gap(s), c.investable), c.investable, reference,
                     BuyStep(p, MarketSymbol(s, p.suffix)), c.sellSubmitted);
    }
  }

  /** The quantity of a buy order, at its reference price, is paid for by the money. */
  lemma BuyQuantityPayable(money: real, reference: real, step: real, estimate: real)
    requires step > 0.0 && (0.0 < money || reference > 0.0)
    ensures var q := BuyQuantity(money, reference, step, estimate);
            q > 0.0 ==> reference > 0.0 && Times(q, reference) <= money
  {
    var q := BuyQuantity(money, reference, step, estimate);
    var budget := FloorToStep(Ratio(money, reference), step);
    FloorBounds(Ratio(money, reference), step);
    FloorBounds(Min(budget, estimate), step);
    FloorBounds(FloorToStep(Min(budget, estimate), step), step);
    if q > 0.0 {
      if reference < 0.0 {
        NegativeRatio(money, reference);
      }
      StepsPayable(money, reference, step);
      TimesMonotone(q, budget, reference);
    }
  }

  lemma NegativeRatio(money: real, reference: real)
    requires 0.0 < money && reference < 0.0
    ensures Ratio(money, reference) <= 0.0
  {
    QuotientTimes(money, -reference);
    assert money / reference == -(money / -reference);
  }

  lemma RoundCentsSign(x: real)
    requires RoundCents(x) > 0.0
    ensures x > 0.0
  {
    var f := (x * 100.0).Floor;
    assert x <= 0.0 ==> f <= 0;
  }

  /** Every ticket of the buy loop can be paid from the investable cash. */
  lemma BuyTicketPayable(s: string, c: Cycle, p: Params, v: PlanView, price: real, estimate: real)
    requires v.Covers() && s in v.assets && CanAfford(s, c, p, v, ReferencePrice(s, p, v, price))
    ensures var t := BuyTicket(s, c, p, v, price, estimate); t.Some? ==> Payable(t.value, c.investable)
  {
    var reference := ReferencePrice(s, p, v, price);
    var money := Plan(s, c, p, v, reference).1;
    var symbol := MarketSymbol(s, p.suffix);
    MoneyWithinCash(s, c, p, v, reference);
    BuyStepPositive(p, symbol);
    BuyQuantityPayable(money, reference, BuyStep(p, symbol), estimate);
    if !IsLimitBuy(s, p, v) && reference > 0.0 {
      RoundCentsSign(price);
    }
  }

  lemma BuyOneWithinLimit(s: string, c: Cycle, p: Params, v: PlanView, m: Outside, limit: real)
    requires v.Covers() && s in v.assets
    requires !p.dryRun && !c.book.halted && WithinLimit(c.book, c.investable, limit)
    ensures var after := BuyOne(s, c, p, v, m); WithinLimit(after.book, after.investable, limit)
  {
    CycleFacts.BuyOneIsPass(s, c, p, v, m);
    var (asked, t) := AskBuy(s, c, p, v, m);
    if t.Some? {
      BuyTicketPayable(s, c, p, v, m.quote(c.quotes).value, m.estimate(c.estimates).value);
      PlaceBuyWithinLimit(asked, p, m, t.value, limit);
    }
  }

  lemma {:induction false} BuyFromWithinLimit(symbols: seq<string>, c: Cycle, p: Params, v: PlanView, m: Outside,
                                              limit: real)
    requires v.Covers() && forall s :: s in symbols ==> s in v.assets
    requires !p.dryRun && WithinLimit(c.book, c.investable, limit)
    ensures var after := BuyFrom(symbols, c, p, v, m); WithinLimit(after.book, after.investable, limit)
    decreases |symbols|
  {
    if symbols != [] && !c.book.halted {
      BuyOneWithinLimit(symbols[0], c, p, v, m, limit);
      BuyFromWithinLimit(symbols[1..], BuyOne(symbols[0], c, p, v, m), p, v, m, limit);
    }
  }

  /** The tail rebuy can be paid from what is left. */
  lemma RebuyTicketPayable(c: Cycle, p: Params, price: real, estimate: real)
    requires Rebuys(c, p, price)
    ensures var t := RebuyTicket(c, p, price, estimate); t.Some? ==> Payable(t.value, c.investable)
  {
    var reference := LimitBuyPrice(p, p.sweep, price);
    var shares := FloorToStep(Ratio(c.investable, reference), 1.0);
    FloorBounds(Ratio(c.investable, reference), 1.0);
    var quantity := FloorToLot(Min(shares, estimate), LotFor(p.lots, p.sweep));
    FloorBounds(Min(shares, estimate), LotStep(LotFor(p.lots, p.sweep)));
    if quantity > 0.0 {
      if reference < 0.0 {
        NegativeRatio(c.investable, reference);
      }
      StepsPayable(c.investable, reference, 1.0);
      TimesMonotone(quantity, shares, reference);
    }
  }

  lemma AskedRebuyPayable(c: Cycle, p: Params, v: PlanView, m: Outside)
    ensures var t := CycleFacts.RebuyTicketOf(c, p, v, m); t.Some? ==> Payable(t.value, c.investable)
  {
    var price, estimate := m.quote(c.quotes), m.estimate(c.estimates);
    if price.Some? && estimate.Some? && Rebuys(c, p, price.value) {
      RebuyTicketPayable(c, p, price.value, estimate.value);
    }
  }

  lemma SubmitWithinLimit(b: Book, p: Params, m: Outside, t: Ticket, left: real, limit: real)
    requires !b.halted && WithinLimit(b, left, limit) && Payable(t, left)
    ensures var calls := Submit(b, p, m, t).calls; Committed(calls) <= limit && Priced(calls)
  {
    CallWithinTicket(b, p, m, t, left);
    PlacedWithinLimit(b, CallOf(b, p, m, t), m.hookFails(|b.calls|), left, Cost(t), limit);
  }

  lemma RebuyWithinLimit(c: Cycle, p: Params, v: PlanView, m: Outside, limit: real)
    requires !p.dryRun && WithinLimit(c.book, c.investable, limit)
    ensures var calls := Rebuy(c, p, v, m).book.calls; Committed(calls) <= limit && Priced(calls)
  {
    var t := CycleFacts.RebuyTicketOf(c, p, v, m);
    CycleFacts.RebuyIsPass(c, p, v, m);
    AskedRebuyPayable(c, p, v, m);
    if t.Some? {
      SubmitWithinLimit(c.book, p, m, t.value, c.investable, limit);
    }
  }

  // ----- the sell side commits nothing

  ghost predicate OnlySells(b: Book)
  {
    forall i :: 0 <= i < |b.calls| ==> b.calls[i].intent.side == Sell
  }

  lemma {:induction false} SellsCommitNothing(calls: seq<Call>)
    requires forall i :: 0 <= i < |calls| ==> calls[i].intent.side == Sell
    ensures Committed(calls) == 0.0
  {
    if calls != [] {
      SellsCommitNothing(calls[..|calls| - 1]);
    }
  }

  lemma PassOnlySells(c: Cycle, after: Cycle, p: Params, m: Outside, t: Option<Ticket>)
    requires OnlySells(c.book) && CycleFacts.Pass(c, after, p, m, t) && (t.Some? ==> t.value.intent.side == Sell)
    ensures OnlySells(after.book)
  {
  }

  lemma {:induction false} SellFromOnlySells(i: nat, c: Cycle, p: Params, v: PlanView, m: Outside)
    requires v.Covers() && OnlySells(c.book)
    ensures OnlySells(SellFrom(i, c, p, v, m).book)
    decreases |v.assets| - i
  {
    if i < |v.assets| && !c.book.halted {
      CycleFacts.SellOneIsPass(v.assets[i], c, p, v, m);
      if m.quote(c.quotes).Some? {
        CycleFacts.SellTicketSells(v.assets[i], p, v, m.quote(c.quotes).value);
      }
      PassOnlySells(c, SellOne(v.assets[i], c, p, v, m), p, m, SellTicketOf(v.assets[i], c, p, v, m));
      SellFromOnlySells(i + 1, SellOne(v.assets[i], c, p, v, m), p, v, m);
    }
  }

  lemma BeforeBuysOnlySells(p: Params, v: PlanView, gate: Option<Gate>, m: Outside)
    requires v.Covers()
    ensures OnlySells(BeforeBuys(p, v, gate, m).book)
  {
    var sold := SellFrom(0, Start(v, gate), p, v, m);
    SellFromOnlySells(0, Start(v, gate), p, v, m);
    CycleFacts.SellSweepIsPass(sold, p, v, m);
    PassOnlySells(sold, SellSweep(sold, p, v, m), p, m, CycleFacts.SweepTicketOf(sold, p, v, m));
    CycleFacts.RefreshMakesNoCall(SellSweep(sold, p, v, m), p, m);
  }

  lemma BuySideWithinLimit(c: Cycle, p: Params, v: PlanView, m: Outside, limit: real)
    requires v.Covers() && !p.dryRun && WithinLimit(c.book, c.investable, limit)
    ensures var calls := Rebuy(BuyPhase(c, p, v, m), p, v, m).book.calls; Committed(calls) <= limit && Priced(calls)
  {
    BuyFromWithinLimit(AllowedBuys(c, p, v, m), c.(quotes := c.quotes + QuotesAsked(c, p, v)), p, v, m, limit);
    RebuyWithinLimit(BuyPhase(c, p, v, m), p, v, m, limit);
  }

  // ----- main result

  /** The cash bound of a cycle: all its buys, the tail rebuy included, commit no more than the
      investable cash with which the buy phase starts. */
  lemma BuysWithinInvestableCash(blocked: bool, p: Params, v: PlanView, gate: Option<Gate>, m: Outside)
    requires v.Covers() && RefreshesCover(m)
    ensures Committed(Execute(blocked, p, v, gate, m).book.calls)
            <= if blocked || p.dryRun then 0.0 else Max(0.0, BeforeBuys(p, v, gate, m).investable)
    ensures Priced(Execute(blocked, p, v, gate, m).book.calls)
  {
    if blocked || p.dryRun {
      CycleFacts.ExecuteLedger(blocked, p, v, gate, m);
    } else {
      var sold := SellPhase(p, v, gate, m);
      var c := BeforeBuys(p, v, gate, m);
      var limit := Max(0.0, c.investable);
      BeforeBuysOnlySells(p, v, gate, m);
      CycleFacts.SellPhaseLedger(p, v, gate, m);
      CycleFacts.RefreshedLedger(sold, p, m);
      StartWithinLimit(c, p, m, limit);
      RefreshedCovers(sold, p, v, m);
      BuySideWithinLimit(c, p, BuyView(p, v, gate, m), m, limit);
    }
  }

  lemma StartWithinLimit(c: Cycle, p: Params, m: Outside, limit: real)
    requires CycleFacts.Ledger(c, p, m) && OnlySells(c.book) && Max(0.0, c.investable) <= limit
    ensures WithinLimit(c.book, c.investable, limit)
  {
    SellsCommitNothing(c.book.calls);
    if EndsUnknown(c.book.calls) {
      assert CycleFacts.Stops(c.book.calls[|c.book.calls| - 1], m.hookFails(|c.book.calls| - 1));
    }
  }
}
