/** The rebalance cycle in the form of the source: local variables updated step by step. Each
    step is proved to compute the function of `RebalanceCycle` that specifies it. */
module RebalanceRun {
  import opened Wrappers

  import BrokerFacts
  import Quantity
  import opened RebalanceCycle
  import CycleFacts
  import CycleCash

  class CycleRun {
    const p: Params
    const m: Outside
    var view: PlanView
    var calls: seq<BrokerFacts.Call>
    var pending: seq<BrokerFacts.Order>
    var halted: bool
    var dryRuns: seq<DryRun>
    var investable: real
    var liquid: real
    var proceeds: real
    var actionDone: bool
    var sellSubmitted: bool
    var sweepSold: bool
    var releases: seq<string>
    var buysBlocked: bool
    var scale: Option<real>
    var quotes: nat
    var estimates: nat

    function State(): Cycle
      reads this
    {
      Cycle(Book(calls, pending, halted), dryRuns, investable, liquid, proceeds, actionDone, sellSubmitted, sweepSold,
            releases, buysBlocked, scale, quotes, estimates)
    }

    constructor (params: Params, outside: Outside, plan: PlanView, gate: Option<Gate>)
      ensures p == params && m == outside && view == plan && State() == Start(plan, gate)
    {
      p, m, view := params, outside, plan;
      calls, pending, halted, dryRuns := [], [], false, [];
      investable, liquid, proceeds := plan.investable, plan.liquid, 0.0;
      actionDone, sellSubmitted, sweepSold, releases := false, false, false, [];
      buysBlocked := gate.Some? && gate.value.buyProhibited;
      scale := if gate.Some? then gate.value.scale else None;
      quotes, estimates := 0, 0;
    }

    method AskQuote() returns (price: Option<real>)
      modifies this`quotes
      ensures price == m.quote(old(quotes)) && quotes == old(quotes) + 1
    {
      price := m.quote(quotes);
      quotes := quotes + 1;
    }

    method AskEstimate() returns (quantity: Option<real>)
      modifies this`estimates
      ensures quantity == m.estimate(old(estimates)) && estimates == old(estimates) + 1
    {
      quantity := m.estimate(estimates);
      estimates := estimates + 1;
    }

    // ----- submission

    method SubmitOrderViaPort(t: Ticket) returns (submitted: bool)
      modifies `calls, `pending, `halted
      ensures State().book == Submit(old(State().book), p, m, t)
      ensures submitted == RebalanceCycle.Submitted(old(State().book), p, m, t)
    {
      if halted { return false; }
      var quantity;
      if p.fractional && t.intent.side == BrokerFacts.Buy {
        quantity := Quantity.FloorToStep(t.intent.quantity, BuyStep(p, t.intent.symbol));
      } else {
        quantity := Quantity.FloorToLot(t.intent.quantity, LotFor(p.lots, t.intent.symbol));
      }
      if quantity <= 0.0 { return false; }
      var call := BrokerFacts.Call(t.intent.(quantity := quantity), m.reply(|calls|), t.quote, t.reference);
      var hookFails := m.hookFails(|calls|);
      calls := calls + [call];
      if call.IsRejected() { return false; }
      if call.IsUnknown() { halted := true; }
      pending := pending + [BrokerFacts.OrderOf(call)];
      if call.IsUnknown() { return false; }
      if hookFails { halted := true; }
      return true;
    }

    method PlaceOrder(t: Ticket) returns (submitted: bool)
      modifies `calls, `pending, `halted, `dryRuns
      ensures State() == Place(old(State()), p, m, t)
      ensures submitted == Taken(old(State()), p, m, t)
    {
      if p.dryRun {
        dryRuns := dryRuns + [DryRunOf(t)];
        return true;
      }
      submitted := SubmitOrderViaPort(t);
    }

    // ----- sells

    method NoteTakenSell(s: string, t: Ticket)
      modifies `proceeds, `actionDone, `sellSubmitted, `sweepSold
      ensures State() == NoteSell(old(State()), s, p, t)
    {
      if p.dryRun && t.intent.kind == BrokerFacts.Market {
        proceeds := proceeds + t.intent.quantity * Quantity.RoundCents(t.quote);
      }
      actionDone, sellSubmitted := true, true;
      if s == p.sweep { sweepSold := true; }
    }

    method PlaceSellOrder(s: string, t: Ticket) returns (submitted: bool)
      modifies this
      ensures view == old(view) && State() == PlaceSell(old(State()), s, p, m, t)
      ensures submitted == Taken(old(State()), p, m, t)
    {
      submitted := PlaceOrder(t);
      if submitted {
        NoteTakenSell(s, t);
      }
    }

    method SellAsset(s: string)
      requires view.Covers() && s in view.assets
      modifies this
      ensures view == old(view) && State() == SellOne(s, old(State()), p, view, m)
    {
      if !SellDeltaExceedsFloor(view.values[s], view.targets[s], view.threshold, MinTrade(p, view)) { return; }
      var price := AskQuote();
      if price.None? { return; }
      var ticket := SellTicket(s, p, view, price.value);
      if ticket.None? { return; }
      var submitted := PlaceSellOrder(s, ticket.value);
      if !submitted && !halted {
        releases := releases + [s];
      }
    }

    method SellAssets()
      requires view.Covers()
      modifies this
      ensures view == old(view) && State() == SellFrom(0, old(State()), p, view, m)
    {
      var i := 0;
      while i < |view.assets| && !halted
        invariant view == old(view) && i <= |view.assets|
        invariant SellFrom(i, State(), p, view, m) == SellFrom(0, old(State()), p, view, m)
      {
        SellAsset(view.assets[i]);
        i := i + 1;
      }
    }

    method AskForSweep() returns (ticket: Option<Ticket>)
      requires view.Covers()
      modifies `quotes
      ensures (State(), ticket) == AskSweep(old(State()), p, view, m)
    {
      var c := State();
      if !SweepOpen(c, p, view) { return None; }
      var price := AskQuote();
      if price.None? || price.value <= 0.0 { return None; }
      quotes := quotes + |Funding(c, p, view)|;
      return if m.sellSweep then Some(SweepTicket(p, view, price.value)) else None;
    }

    method SellSweepToFund()
      requires view.Covers()
      modifies this
      ensures view == old(view) && State() == SellSweep(old(State()), p, view, m)
    {
      var ticket := AskForSweep();
      if ticket.Some? {
        var _ := PlaceSellOrder(p.sweep, ticket.value);
      }
    }

    // ----- refresh after a sell

    method RefreshAfterSell()
      modifies this
      ensures State() == Refreshed(old(State()), p, m) && view == RefreshedView(old(State()), p, old(view), m)
    {
      if !sellSubmitted || halted { return; }
      if p.dryRun && proceeds > 0.0 {
        liquid := Quantity.Max(0.0, liquid + proceeds);
        investable := Quantity.Max(0.0, investable + proceeds);
        return;
      }
      RefreshUntilCash();
    }

    /** Fold one refresh into the run. */
    method TakeRefresh(r: Refresh, best: real, released: real, sells: seq<BrokerFacts.Order>)
      returns (newBest: real, newReleased: real)
      modifies `halted, `buysBlocked, `scale
      ensures Fold(newBest, newReleased, halted, buysBlocked, scale)
              == Observe(Fold(best, released, old(halted), old(buysBlocked), old(scale)), r, sells)
    {
      if r.blocked { halted := true; }
      if r.gate.Some? {
        buysBlocked := buysBlocked || r.gate.value.buyProhibited;
        if r.gate.value.scale.Some? {
          scale := if scale.None? then r.gate.value.scale
                   else Some(Quantity.Min(scale.value, r.gate.value.scale.value));
        }
      }
      newReleased := Quantity.Max(released, ReleasedValue(sells, |sells|, r.fills));
      newBest := Quantity.Max(best, r.view.investable);
    }

    /** The loop over refresh attempts. */
    method ObserveRefreshes(sells: seq<BrokerFacts.Order>) returns (best: real, released: real, attempt: nat)
      modifies `halted, `buysBlocked, `scale
      ensures (Fold(best, released, halted, buysBlocked, scale), attempt)
              == RefreshFrom(0, Attempts(p), investable,
                             Fold(investable, 0.0, old(halted), old(buysBlocked), old(scale)), sells, m)
    {
      var count := Attempts(p);
      ghost var base := Fold(investable, 0.0, halted, buysBlocked, scale);
      ghost var folded := RefreshFrom(0, count, investable, base, sells, m);
      attempt := 0;
      best, released := TakeRefresh(m.refresh(0), investable, 0.0, sells);
      while m.refresh(attempt).view.investable <= investable && attempt + 1 < count
        invariant attempt < count
        invariant folded == Continued(attempt, count, investable, Fold(best, released, halted, buysBlocked, scale),
                  sells)
        decreases count - attempt
      {
        attempt := attempt + 1;
        best, released := TakeRefresh(m.refresh(attempt), best, released, sells);
      }
    }

    method RefreshUntilCash()
      requires Refreshes(State(), p)
      modifies `halted, `buysBlocked, `scale, `liquid, `investable, `view
      ensures State() == Refreshed(old(State()), p, m) && view == RefreshedView(old(State()), p, old(view), m)
    {
      var best, released, last := ObserveRefreshes(SubmittedSells(pending));
      view := Rescaled(m, last, scale);
      liquid := view.liquid;
      investable := Quantity.Max(view.investable, Quantity.Max(best, investable + released));
    }

    /** What the refresh loop returns, once an attempt is folded in. */
    ghost function Continued(attempt: nat, count: nat, previous: real, f: Fold,
                             sells: seq<BrokerFacts.Order>): (Fold, nat)
      requires attempt < count
    {
      if m.refresh(attempt).view.investable > previous || attempt + 1 == count then (f, attempt)
      else RefreshFrom(attempt + 1, count, previous, f, sells, m)
    }

    // ----- buys

    /** The buy loop's candidates after the gates. */
    method SelectBuys() returns (symbols: seq<string>)
      requires view.Covers()
      modifies `quotes
      ensures symbols == AllowedBuys(old(State()), p, view, m)
      ensures quotes == old(quotes) + QuotesAsked(old(State()), p, view)
    {
      if halted || p.smallAccountBlocked || buysBlocked { return []; }
      symbols := Candidates(0, p, view);
      if p.cashOnly && releases != [] {
        var cost := EstimateCost(symbols);
        if cost > investable { return []; }
      }
      if p.cashOnly && liquid < 0.0 { return []; }
      if investable <= 0.0 { return []; }
    }

    method EstimateCost(symbols: seq<string>) returns (cost: real)
      requires view.Covers() && forall s :: s in symbols ==> s in view.assets
      modifies `quotes
      ensures cost == EstimatedCost(symbols, old(quotes), old(State()), p, view, m) && quotes == old(quotes) + |symbols|
    {
      var c := State();
      cost := 0.0;
      var i := 0;
      ghost var total := EstimatedCost(symbols, quotes, c, p, view, m);
      while i < |symbols|
        invariant i <= |symbols| && quotes == old(quotes) + i
        invariant cost + EstimatedCost(symbols[i..], quotes, c, p, view, m) == total
      {
        ghost var rest := symbols[i..];
        assert rest[0] == symbols[i] && rest[1..] == symbols[i + 1..];
        var price := AskQuote();
        cost := cost + CandidateCost(symbols[i], c, p, view, price);
        i := i + 1;
      }
    }

    method PlaceBuyOrder(t: Ticket)
      modifies this
      ensures view == old(view) && State() == PlaceBuy(old(State()), p, m, t)
    {
      var submitted := PlaceOrder(t);
      if submitted {
        investable := Quantity.Max(0.0, investable - Cost(t));
        actionDone := true;
      }
    }

    method AskForBuy(s: string) returns (ticket: Option<Ticket>)
      requires view.Covers() && s in view.assets
      modifies `quotes, `estimates
      ensures (State(), ticket) == AskBuy(s, old(State()), p, view, m)
    {
      var c := State();
      var price := AskQuote();
      if price.None? || !CanAfford(s, c, p, view, ReferencePrice(s, p, view, price.value)) { return None; }
      var estimate := AskEstimate();
      if estimate.None? { return None; }
      return BuyTicket(s, c, p, view, price.value, estimate.value);
    }

    method BuyAsset(s: string)
      requires view.Covers() && s in view.assets
      modifies this
      ensures view == old(view) && State() == BuyOne(s, old(State()), p, view, m)
    {
      var ticket := AskForBuy(s);
      if ticket.Some? {
        PlaceBuyOrder(ticket.value);
      }
    }

    method BuyEach(symbols: seq<string>)
      requires view.Covers() && forall s :: s in symbols ==> s in view.assets
      modifies this
      ensures view == old(view) && State() == BuyFrom(symbols, old(State()), p, view, m)
    {
      var i := 0;
      ghost var end := BuyFrom(symbols, State(), p, view, m);
      while i < |symbols| && !halted
        invariant view == old(view) && i <= |symbols|
        invariant BuyFrom(symbols[i..], State(), p, view, m) == end
      {
        ghost var rest := symbols[i..];
        assert rest[0] == symbols[i] && rest[1..] == symbols[i + 1..];
        BuyAsset(symbols[i]);
        i := i + 1;
      }
    }

    method BuyAssets()
      requires view.Covers()
      modifies this
      ensures view == old(view) && State() == BuyPhase(old(State()), p, view, m)
    {
      var symbols := SelectBuys();
      BuyEach(symbols);
    }

    method PlaceRebuyOrder(t: Ticket)
      modifies this
      ensures view == old(view) && State() == PlaceRebuy(old(State()), p, m, t)
    {
      var submitted := PlaceOrder(t);
      if submitted { actionDone := true; }
    }

    method AskForRebuy() returns (ticket: Option<Ticket>)
      modifies `quotes, `estimates
      ensures (State(), ticket) == AskRebuy(old(State()), p, view, m)
    {
      var c := State();
      if !TailOpen(c, p, view) { return None; }
      var price := AskQuote();
      if price.None? || !Rebuys(c, p, price.value) { return None; }
      var estimate := AskEstimate();
      if estimate.None? { return None; }
      return RebuyTicket(c, p, price.value, estimate.value);
    }

    method RebuySweep()
      modifies this
      ensures view == old(view) && State() == Rebuy(old(State()), p, view, m)
    {
      var ticket := AskForRebuy();
      if ticket.Some? {
        PlaceRebuyOrder(ticket.value);
      }
    }

    // ----- the cycle

    /** `execute_rebalance_cycle`: the run computes `Execute`, keeps its ledger and its cash bound. */
    method ExecuteRebalanceCycle(blocked: bool, ghost gate: Option<Gate>)
      requires view.Covers() && RefreshesCover(m) && State() == Start(view, gate)
      modifies this
      ensures State() == Execute(blocked, p, old(view), gate, m)
      ensures CycleFacts.Ledger(State(), p, m)
      ensures CycleCash.Committed(calls) <= if blocked || p.dryRun then 0.0
                                            else Quantity.Max(0.0, BeforeBuys(p, old(view), gate, m).investable)
    {
      ghost var v := view;
      CycleFacts.ExecuteLedger(blocked, p, v, gate, m);
      CycleCash.BuysWithinInvestableCash(blocked, p, v, gate, m);
      if blocked { return; }
      SellAssets();
      SellSweepToFund();
      RefreshedCovers(State(), p, v, m);
      RefreshAfterSell();
      BuyAssets();
      RebuySweep();
    }
  }
}
