/** The gates before the buy loop, and the one buy that they leave open: the tail rebuy of the
    cash-sweep symbol. */
module CycleGates {
  import opened Wrappers

  import opened BrokerFacts
  import opened Quantity
  import opened RebalanceCycle
  import CycleFacts

  // ----- the gates

  /** Rejected sells keep cash back, and the candidates would cost more than there is. */
  predicate AwaitsRelease(c: Cycle, p: Params, v: PlanView, m: Outside)
    requires v.Covers()
  {
    p.cashOnly && c.releases != [] && EstimatedCost(Candidates(0, p, v), c.quotes, c, p, v, m) > c.investable
  }

  /** The gates that also stop the rebuy. */
  predicate Shut(c: Cycle, p: Params)
  {
    c.book.halted || p.smallAccountBlocked || c.investable <= 0.0
  }

  /** The gates that stop the main buys only: new risk, negative cash, pending sell release. */
  predicate HeldBack(c: Cycle, p: Params, v: PlanView, m: Outside)
    requires v.Covers()
  {
    c.buysBlocked || (p.cashOnly && c.liquid < 0.0) || AwaitsRelease(c, p, v, m)
  }

  /** The buy loop has no candidate exactly when the plan has none or a gate holds. */
  lemma GatesClearCandidates(c: Cycle, p: Params, v: PlanView, m: Outside)
    requires v.Covers()
    ensures AllowedBuys(c, p, v, m) == [] <==> Candidates(0, p, v) == [] || Shut(c, p) || HeldBack(c, p, v, m)
  {
  }

  lemma GatedOnlyAsks(c: Cycle, p: Params, v: PlanView, m: Outside)
    requires v.Covers() && (Candidates(0, p, v) == [] || Shut(c, p) || HeldBack(c, p, v, m))
    ensures BuyPhase(c, p, v, m) == c.(quotes := c.quotes + QuotesAsked(c, p, v))
  {
    GatesClearCandidates(c, p, v, m);
  }

  // ----- the rebuy

  /** The shares of the sweep symbol that the cash pays at the limit price of a quote, within the
      estimate, in whole lots as sized and as submitted. */
  function RebuyShares(cash: real, p: Params, price: real, estimate: real): real
  {
    var paid := FloorToStep(Ratio(cash, LimitBuyPrice(p, p.sweep, price)), 1.0);
    FloorToStep(FloorToLot(Min(paid, estimate), LotFor(p.lots, p.sweep)), BuyStep(p, MarketSymbol(p.sweep, p.suffix)))
  }

  /** With these answers the rebuy reaches the broker: no gate of its own is shut, the cash is
      more than two shares and not below the threshold, and a lot fits. */
  predicate RebuyReaches(c: Cycle, p: Params, v: PlanView, price: Option<real>, estimate: Option<real>)
  {
    && !p.dryRun && TailOpen(c, p, v)
    && price.Some? && Rebuys(c, p, price.value)
    && estimate.Some? && RebuyShares(c.investable, p, price.value, estimate.value) > 0.0
  }

  /** The call that the rebuy makes. */
  predicate IsRebuy(call: Call, p: Params, shares: real)
  {
    && call.intent.side == Buy && call.intent.kind == Limit
    && call.intent.symbol == MarketSymbol(p.sweep, p.suffix) && call.intent.quantity == shares
  }

  lemma SharesPositive(cash: real, p: Params, price: real, estimate: real)
    requires RebuyShares(cash, p, price, estimate) > 0.0
    ensures var paid := FloorToStep(Ratio(cash, LimitBuyPrice(p, p.sweep, price)), 1.0);
            FloorToLot(Min(paid, estimate), LotFor(p.lots, p.sweep)) > 0.0
  {
    var paid := FloorToStep(Ratio(cash, LimitBuyPrice(p, p.sweep, price)), 1.0);
    var lots := FloorToLot(Min(paid, estimate), LotFor(p.lots, p.sweep));
    FloorBounds(lots, BuyStep(p, MarketSymbol(p.sweep, p.suffix)));
  }

  /** What the ticket of the rebuy comes to at submission. */
  lemma RebuyTicketShares(c: Cycle, p: Params, price: real, estimate: real)
    ensures var t, shares := RebuyTicket(c, p, price, estimate), RebuyShares(c.investable, p, price, estimate);
            && (t.Some? ==> SubmitQuantity(p, t.value.intent) == shares)
            && (shares > 0.0 ==> t.Some?)
            && (t.Some? ==> t.value.intent.side == Buy && t.value.intent.kind == Limit
                            && t.value.intent.symbol == MarketSymbol(p.sweep, p.suffix))
  {
    if RebuyShares(c.investable, p, price, estimate) > 0.0 {
      SharesPositive(c.investable, p, price, estimate);
    }
  }

  lemma RebuyCalls(c: Cycle, p: Params, v: PlanView, m: Outside)
    ensures var calls := Rebuy(c, p, v, m).book.calls; var n := |c.book.calls|;
            var price, estimate := m.quote(c.quotes), m.estimate(c.estimates);
            if RebuyReaches(c, p, v, price, estimate) then
              |calls| == n + 1 && calls[..n] == c.book.calls
              && IsRebuy(calls[n], p, RebuyShares(c.investable, p, price.value, estimate.value))
            else calls == c.book.calls
  {
    var price, estimate := m.quote(c.quotes), m.estimate(c.estimates);
    CycleFacts.RebuyIsPass(c, p, v, m);
    if price.Some? && estimate.Some? {
      RebuyTicketShares(c, p, price.value, estimate.value);
    }
  }

  // ----- main results

  /** No gate but its own stops the rebuy. When the main buys are cleared, by whichever gate, the
      buy side calls the broker if and only if the next quote and estimate let the rebuy reach
      it; and then its one call is the limit buy of the sweep symbol for those shares. */
  lemma GatesStopAllButRebuy(c: Cycle, p: Params, v: PlanView, m: Outside)
    requires v.Covers() && (Candidates(0, p, v) == [] || Shut(c, p) || HeldBack(c, p, v, m))
    ensures var calls := Rebuy(BuyPhase(c, p, v, m), p, v, m).book.calls; var n := |c.book.calls|;
            var price, estimate := m.quote(c.quotes + QuotesAsked(c, p, v)), m.estimate(c.estimates);
            if RebuyReaches(c, p, v, price, estimate) then
              |calls| == n + 1 && calls[..n] == c.book.calls
              && IsRebuy(calls[n], p, RebuyShares(c.investable, p, price.value, estimate.value))
            else calls == c.book.calls
  {
    GatedOnlyAsks(c, p, v, m);
    RebuyCalls(BuyPhase(c, p, v, m), p, v, m);
  }

  /** A halt, a small account and a lack of cash stop the whole buy side. */
  lemma ShutBuysNothing(c: Cycle, p: Params, v: PlanView, m: Outside)
    requires v.Covers() && Shut(c, p)
    ensures Rebuy(BuyPhase(c, p, v, m), p, v, m).book.calls == c.book.calls
  {
    GatesStopAllButRebuy(c, p, v, m);
  }

  /** Two states that differ at most in what only the main buys are held back by, and in how many
      quotes were asked for. */
  predicate SameTail(c: Cycle, d: Cycle)
  {
    d == c.(buysBlocked := d.buysBlocked, liquid := d.liquid, releases := d.releases, quotes := d.quotes)
  }

  lemma RebuyAlike(c: Cycle, d: Cycle, p: Params, v: PlanView, m: Outside, n: Outside)
    requires SameTail(c, d) && n == m.(quote := n.quote) && m.quote(c.quotes) == n.quote(d.quotes)
    ensures Rebuy(c, p, v, m).book == Rebuy(d, p, v, n).book
  {
    CycleFacts.RebuyIsPass(c, p, v, m);
    CycleFacts.RebuyIsPass(d, p, v, n);
    assert CycleFacts.RebuyTicketOf(c, p, v, m) == CycleFacts.RebuyTicketOf(d, p, v, n);
  }

  /** New risk prohibited, negative cash and pending releases hold back the main buys and leave
      the rebuy as it is: of two buy sides that differ only in them, and whose rebuy is quoted
      alike, both call the broker alike once their main buys are cleared. */
  lemma HeldBackRebuysAlike(c: Cycle, d: Cycle, p: Params, v: PlanView, m: Outside, n: Outside)
    requires v.Covers() && SameTail(c, d) && n == m.(quote := n.quote)
    requires Candidates(0, p, v) == [] || HeldBack(c, p, v, m)
    requires Candidates(0, p, v) == [] || HeldBack(d, p, v, n)
    requires m.quote(c.quotes + QuotesAsked(c, p, v)) == n.quote(d.quotes + QuotesAsked(d, p, v))
    ensures Rebuy(BuyPhase(c, p, v, m), p, v, m).book == Rebuy(BuyPhase(d, p, v, n), p, v, n).book
  {
    GatedOnlyAsks(c, p, v, m);
    GatedOnlyAsks(d, p, v, n);
    RebuyAlike(BuyPhase(c, p, v, m), BuyPhase(d, p, v, n), p, v, m, n);
  }

  // ----- cycles that buy behind a gate

  const SWEEP_ONLY := PlanView(["BOXX"], map["BOXX" := 100.0], map["BOXX" := 1.0], map["BOXX" := 1.0],
                               map["BOXX" := 100.0], {}, 0.0, 0.0, 1000.0, 1000.0, false)
  const PLAIN := Params(false, false, false, map[], ".US", 0.0, 0.0, 1.0, (s: string) => 1.0, 1, "BOXX", false)
  const CALM := Outside((n: nat) => Some(100.0), (n: nat) => Some(5.0), (n: nat) => Report(Submitted, "id"),
                        (n: nat) => false, false, (n: nat) => Refresh(SWEEP_ONLY, false, None, (k: nat) => None),
                        (v: PlanView, scale: Option<real>) => v.targets)

  lemma NothingToSell(p: Params, v: PlanView, gate: Option<Gate>)
    requires p == PLAIN || p == PLAIN.(cashOnly := true)
    requires v == SWEEP_ONLY || v == SWEEP_ONLY.(liquid := -1.0)
    ensures v.Covers() && Candidates(0, p, v) == [] && SellPhase(p, v, gate, CALM) == Start(v, gate)
  {
    assert v.assets[0] == "BOXX";
    assert SellFrom(0, Start(v, gate), p, v, CALM) == Start(v, gate);
  }

  lemma FiveShares(p: Params)
    requires p == PLAIN || p == PLAIN.(cashOnly := true)
    ensures RebuyShares(1000.0, p, 100.0, 5.0) == 5.0
  {
    assert RoundCents(100.0) == 100.0;
    assert Steps(10.0, 1.0) == 10;
    assert Steps(5.0, 1.0) == 5;
  }

  /** Without a sell the buy side starts from the opening state and plan. */
  lemma NoSellNoRefresh(p: Params, v: PlanView, gate: Option<Gate>, m: Outside)
    requires v.Covers() && RefreshesCover(m) && SellPhase(p, v, gate, m) == Start(v, gate)
    ensures Execute(false, p, v, gate, m) == Rebuy(BuyPhase(Start(v, gate), p, v, m), p, v, m)
  {
    assert Refreshed(Start(v, gate), p, m) == Start(v, gate);
    assert RefreshedView(Start(v, gate), p, v, m) == v;
  }

  /** The two settings of the example: new risk prohibited; negative cash in a cash-only account. */
  ghost predicate Example(p: Params, v: PlanView, gate: Option<Gate>)
  {
    || (p == PLAIN && v == SWEEP_ONLY && gate == Some(Gate(true, None)))
    || (p == PLAIN.(cashOnly := true) && v == SWEEP_ONLY.(liquid := -1.0) && gate == None)
  }

  lemma CalmCovers()
    ensures RefreshesCover(CALM)
  {
  }

  lemma ExampleReaches(p: Params, v: PlanView, gate: Option<Gate>)
    requires Example(p, v, gate)
    ensures v.Covers() && HeldBack(Start(v, gate), p, v, CALM) && QuotesAsked(Start(v, gate), p, v) == 0
    ensures RebuyReaches(Start(v, gate), p, v, Some(100.0), Some(5.0))
  {
    NothingToSell(p, v, gate);
    FiveShares(p);
    assert v.assets[0] == "BOXX";
  }

  lemma ExampleCalls(c: Cycle, p: Params, v: PlanView)
    requires v.Covers() && HeldBack(c, p, v, CALM) && QuotesAsked(c, p, v) == 0 && c.book.calls == []
             && c.investable == 1000.0
    requires RebuyReaches(c, p, v, Some(100.0), Some(5.0)) && RebuyShares(1000.0, p, 100.0, 5.0) == 5.0
    ensures var calls := Rebuy(BuyPhase(c, p, v, CALM), p, v, CALM).book.calls;
            |calls| == 1 && IsRebuy(calls[0], p, 5.0)
  {
    GatesStopAllButRebuy(c, p, v, CALM);
  }

  /** With new risk prohibited, and again with negative cash in a cash-only account, no asset is
      to be bought, and five shares are bought. */
  lemma ProhibitedCycleBuys(p: Params, v: PlanView, gate: Option<Gate>)
    requires Example(p, v, gate)
    ensures v.Covers() && RefreshesCover(CALM) && HeldBack(Start(v, gate), p, v, CALM)
    ensures var calls := Execute(false, p, v, gate, CALM).book.calls; |calls| == 1 && IsRebuy(calls[0], p, 5.0)
  {
    CalmCovers();
    NothingToSell(p, v, gate);
    ExampleReaches(p, v, gate);
    FiveShares(p);
    NoSellNoRefresh(p, v, gate, CALM);
    ExampleCalls(Start(v, gate), p, v);
  }
}
