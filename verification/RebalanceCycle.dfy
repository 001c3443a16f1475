/** One rebalance cycle as a function of its inputs and of everything the outside answers:
    sells, an optional cash-sweep sale, the post-sell refresh, buys, and the sweep rebuy. */
module RebalanceCycle {
  import opened Wrappers

  import opened BrokerFacts
  import opened Quantity

  const MIN_FRACTIONAL_BUY := 1.0
  const FRACTIONAL_STEP := 0.0001

  // ----- inputs

  /** What a resolved plan says: positions, targets and cash. */
  datatype PlanView = PlanView(
    assets: seq<string>, values: map<string, real>, quantities: map<string, real>,
    sellable: map<string, real>, targets: map<string, real>, limitSymbols: set<string>,
    threshold: real, minTrade: real, investable: real, liquid: real, sweepSubstituted: bool)
  {
    /** The portfolio and the targets name every strategy asset. */
    ghost predicate Covers()
    {
      forall s :: s in assets ==> s in values && s in quantities && s in sellable && s in targets
    }

    function Gap(s: string): real
      requires s in values && s in targets
    {
      targets[s] - values[s]
    }
  }

  datatype Params = Params(
    dryRun: bool, cashOnly: bool, fractional: bool, lots: map<string, int>, suffix: string,
    minOrderNotional: real, substituteThreshold: real, sellDiscount: real, premium: string -> real,
    refreshAttempts: int, sweep: string, smallAccountBlocked: bool)

  /** The account-new-risk gate, when it is enabled. */
  datatype Gate = Gate(buyProhibited: bool, scale: Option<real>)

  datatype Fill = Fill(tradedStatus: bool, quantity: real, price: real)

  /** One refresh after a sell; the n-th submitted sell order is read with its fill. */
  datatype Refresh = Refresh(view: PlanView, blocked: bool, gate: Option<Gate>, fills: nat -> Option<Fill>)

  /** The answers of the outside, by the number of the request. */
  datatype Outside = Outside(
    quote: nat -> Option<real>,
    estimate: nat -> Option<real>,
    reply: nat -> Reply,
    hookFails: nat -> bool,
    sellSweep: bool,
    refresh: nat -> Refresh,
    rescale: (PlanView, Option<real>) -> map<string, real>)

  // ----- state

  datatype DryRun = DryRun(symbol: string, side: Side, quantity: real, price: real, kind: Kind)

  /** The broker facts of the cycle, and whether submission is halted. */
  datatype Book = Book(calls: seq<Call>, pending: seq<Order>, halted: bool)

  datatype Cycle = Cycle(
    book: Book, dryRuns: seq<DryRun>, investable: real, liquid: real, proceeds: real,
    actionDone: bool, sellSubmitted: bool, sweepSold: bool, releases: seq<string>,
    buysBlocked: bool, scale: Option<real>, quotes: nat, estimates: nat)

  /** An order the cycle has decided to place, the quote it was sized with, and the price it
      was sized at. */
  datatype Ticket = Ticket(intent: Intent, quote: real, reference: real)

  // ----- symbols, lots and prices

  function BeforeDot(s: string): string
  {
    if s == "" || s[0] == '.' then "" else [s[0]] + BeforeDot(s[1..])
  }

  function MarketSymbol(s: string, suffix: string): string
  {
    if s == "" || '.' in s then s else s + suffix
  }

  function AtLeastOne(lot: int): int { if lot < 1 then 1 else lot }

  function LotFor(lots: map<string, int>, symbol: string): int
  {
    if symbol in lots then AtLeastOne(lots[symbol])
    else if '.' in symbol && BeforeDot(symbol) in lots then AtLeastOne(lots[BeforeDot(symbol)])
    else 1
  }

  function BuyStep(p: Params, symbol: string): real
  {
    if p.fractional then FRACTIONAL_STEP else LotStep(LotFor(p.lots, symbol))
  }

  function LimitBuyPrice(p: Params, symbol: string, price: real): real
  {
    RoundCents(price * p.premium(symbol))
  }

  function MinTrade(p: Params, v: PlanView): real
  {
    Max(v.minTrade, if p.fractional then MIN_FRACTIONAL_BUY else Max(0.0, p.minOrderNotional))
  }

  // ----- submission

  /** The flooring of `submit_order_via_port`. */
  function SubmitQuantity(p: Params, intent: Intent): real
  {
    if p.fractional && intent.side == Buy then FloorToStep(intent.quantity, BuyStep(p, intent.symbol))
    else FloorToLot(intent.quantity, LotFor(p.lots, intent.symbol))
  }

  /** One call of the port: what is kept of it. */
  function Placed(b: Book, call: Call, hookFails: bool): Book
  {
    var calls := b.calls + [call];
    if call.IsRejected() then Book(calls, b.pending, b.halted)
    else Book(calls, b.pending + [OrderOf(call)], call.IsUnknown() || hookFails)
  }

  /** The call that a ticket leads to. */
  function CallOf(b: Book, p: Params, m: Outside, t: Ticket): Call
  {
    Call(t.intent.(quantity := SubmitQuantity(p, t.intent)), m.reply(|b.calls|), t.quote, t.reference)
  }

  predicate Reaches(b: Book, p: Params, t: Ticket)
  {
    !b.halted && SubmitQuantity(p, t.intent) > 0.0
  }

  /** `submit_order_via_port`: the new book. */
  function Submit(b: Book, p: Params, m: Outside, t: Ticket): Book
  {
    if Reaches(b, p, t) then Placed(b, CallOf(b, p, m, t), m.hookFails(|b.calls|)) else b
  }

  /** ... and whether the order counts as submitted: the broker took it. */
  predicate Submitted(b: Book, p: Params, m: Outside, t: Ticket)
  {
    Reaches(b, p, t) && !CallOf(b, p, m, t).IsRejected() && !CallOf(b, p, m, t).IsUnknown()
  }

  function DryRunOf(t: Ticket): DryRun
  {
    var i := t.intent;
    DryRun(i.symbol, i.side, i.quantity, if i.limitPrice.Some? then i.limitPrice.value else RoundCents(t.quote), i.kind)
  }

  /** Place a ticket, in a dry run only on paper. */
  function Place(c: Cycle, p: Params, m: Outside, t: Ticket): Cycle
  {
    if p.dryRun then c.(dryRuns := c.dryRuns + [DryRunOf(t)]) else c.(book := Submit(c.book, p, m, t))
  }

  predicate Taken(c: Cycle, p: Params, m: Outside, t: Ticket)
  {
    p.dryRun || Submitted(c.book, p, m, t)
  }

  // ----- sells

  /** `_sell_delta_exceeds_floor`. */
  predicate SellDeltaExceedsFloor(current: real, target: real, threshold: real, minTrade: real)
  {
    var have, want := Max(0.0, current), Max(0.0, target);
    && have - want > Max(0.0, threshold)
    && (want <= 0.0 || have - want > Max(0.0, minTrade))
  }

  /** `_sell_order_quantity`. */
  function SellQuantity(current: real, target: real, price: real, sellable: real, lot: int): real
  {
    if sellable <= 0.0 then 0.0
    else if target <= 0.0 then FloorToLot(sellable, lot)
    else if current - target <= 0.0 || price <= 0.0 then 0.0
    else FloorToLot(Min((current - target) / price, sellable), lot)
  }

  /** The order to reduce one asset at a quoted price, if any. */
  function SellTicket(s: string, p: Params, v: PlanView, price: real): Option<Ticket>
    requires v.Covers() && s in v.assets
  {
    var quantity := SellQuantity(v.values[s], v.targets[s], price, v.sellable[s], LotFor(p.lots, s));
    if quantity <= 0.0 then None
    else
      var limit := s in v.limitSymbols;
      Some(Ticket(Intent(MarketSymbol(s, p.suffix), Sell, quantity, if limit then Limit else Market,
                         if limit then Some(RoundCents(price * p.sellDiscount)) else None), price, price))
  }

  /** A dry run counts the proceeds of market sells. */
  function Proceeds(p: Params, t: Ticket): real
  {
    if p.dryRun && t.intent.kind == Market then t.intent.quantity * RoundCents(t.quote) else 0.0
  }

  /** What is noted of a sell that the broker took. */
  function NoteSell(c: Cycle, s: string, p: Params, t: Ticket): Cycle
  {
    c.(actionDone := true, sellSubmitted := true, sweepSold := c.sweepSold || s == p.sweep,
       proceeds := c.proceeds + Proceeds(p, t))
  }

  /** A sell ticket of an asset is placed. */
  function PlaceSell(c: Cycle, s: string, p: Params, m: Outside, t: Ticket): Cycle
  {
    var placed := Place(c, p, m, t);
    if Taken(c, p, m, t) then NoteSell(placed, s, p, t) else placed
  }

  /** A sell that the broker did not take is waited for, unless the cycle is halted. */
  function SellOrWait(c: Cycle, s: string, p: Params, m: Outside, t: Ticket): Cycle
  {
    var placed := PlaceSell(c, s, p, m, t);
    if Taken(c, p, m, t) || placed.book.halted then placed else placed.(releases := c.releases + [s])
  }

  /** The ticket that the sell loop places for an asset, if it comes to that. */
  function SellTicketOf(s: string, c: Cycle, p: Params, v: PlanView, m: Outside): Option<Ticket>
    requires v.Covers() && s in v.assets
  {
    if SellDeltaExceedsFloor(v.values[s], v.targets[s], v.threshold, MinTrade(p, v)) && m.quote(c.quotes).Some?
    then SellTicket(s, p, v, m.quote(c.quotes).value)
    else None
  }

  /** A quote is asked for when the asset is far enough above its target. */
  function SellAsked(s: string, c: Cycle, p: Params, v: PlanView): Cycle
    requires v.Covers() && s in v.assets
  {
    if SellDeltaExceedsFloor(v.values[s], v.targets[s], v.threshold, MinTrade(p, v)) then c.(quotes := c.quotes + 1)
    else c
  }

  /** The sell-loop body for one asset. */
  function SellOne(s: string, c: Cycle, p: Params, v: PlanView, m: Outside): Cycle
    requires v.Covers() && s in v.assets
  {
    var t := SellTicketOf(s, c, p, v, m);
    if t.None? then SellAsked(s, c, p, v) else SellOrWait(SellAsked(s, c, p, v), s, p, m, t.value)
  }

  function SellFrom(i: nat, c: Cycle, p: Params, v: PlanView, m: Outside): Cycle
    requires v.Covers()
    decreases |v.assets| - i
  {
    if i >= |v.assets| || c.book.halted then c
    else SellFrom(i + 1, SellOne(v.assets[i], c, p, v, m), p, v, m)
  }

  // ----- buy candidates and the cash-sweep sale

  predicate IsCandidate(s: string, p: Params, v: PlanView)
    requires s in v.values && s in v.targets
  {
    v.Gap(s) > v.threshold && Abs(v.Gap(s)) > MinTrade(p, v)
  }

  function Candidates(i: nat, p: Params, v: PlanView): (r: seq<string>)
    requires v.Covers()
    ensures forall s :: s in r ==> s in v.assets
    decreases |v.assets| - i
  {
    if i >= |v.assets| then []
    else (if IsCandidate(v.assets[i], p, v) then [v.assets[i]] else []) + Candidates(i + 1, p, v)
  }

  function Without(symbols: seq<string>, s: string): seq<string>
  {
    if symbols == [] then []
    else (if symbols[0] == s then [] else [symbols[0]]) + Without(symbols[1..], s)
  }

  function SweepSellable(p: Params, v: PlanView): real
  {
    if p.sweep in v.sellable then v.sellable[p.sweep] else 0.0
  }

  function Funding(c: Cycle, p: Params, v: PlanView): seq<string>
    requires v.Covers()
  {
    if p.smallAccountBlocked || c.buysBlocked then [] else Without(Candidates(0, p, v), p.sweep)
  }

  /** The sweep sale is considered: no other sell was submitted and some buy needs funding. */
  predicate SweepOpen(c: Cycle, p: Params, v: PlanView)
    requires v.Covers()
  {
    && !c.book.halted && !c.sellSubmitted && Funding(c, p, v) != []
    && p.sweep != "" && SweepSellable(p, v) > 0.0
  }

  function SweepTicket(p: Params, v: PlanView, price: real): Ticket
  {
    Ticket(Intent(MarketSymbol(p.sweep, p.suffix), Sell, SweepSellable(p, v), Market, None), price, price)
  }

  /** Quote the sweep symbol and the buys it would fund, as far as needed: the ticket, if any. */
  function AskSweep(c: Cycle, p: Params, v: PlanView, m: Outside): (Cycle, Option<Ticket>)
    requires v.Covers()
  {
    if !SweepOpen(c, p, v) then (c, None)
    else
      var price := m.quote(c.quotes);
      if price.None? || price.value <= 0.0 then (c.(quotes := c.quotes + 1), None)
      else (c.(quotes := c.quotes + 1 + |Funding(c, p, v)|),
            if m.sellSweep then Some(SweepTicket(p, v, price.value)) else None)
  }

  /** Sell the cash-sweep holding to fund buys. */
  function SellSweep(c: Cycle, p: Params, v: PlanView, m: Outside): Cycle
    requires v.Covers()
  {
    var (asked, ticket) := AskSweep(c, p, v, m);
    if ticket.Some? then PlaceSell(asked, p.sweep, p, m, ticket.value) else asked
  }

  // ----- refresh after a sell

  function SubmittedSells(orders: seq<Order>): seq<Order>
  {
    if orders == [] then []
    else if orders[0].side == Sell && orders[0].submission != Unknown then [orders[0]] + SubmittedSells(orders[1..])
    else SubmittedSells(orders[1..])
  }

  /** `_filled_sell_release_value` of the first orders. */
  function ReleasedValue(orders: seq<Order>, count: nat, fills: nat -> Option<Fill>): (r: real)
    requires count <= |orders|
    ensures 0.0 <= r
  {
    if count == 0 then 0.0
    else
      var rest := ReleasedValue(orders, count - 1, fills);
      if orders[count - 1].brokerId == "" || fills(count - 1).None? then rest
      else
        var fill := fills(count - 1).value;
        var quantity, price := Max(0.0, fill.quantity), Max(0.0, fill.price);
        if !fill.tradedStatus && quantity <= 0.0 then rest
        else
          TimesMonotone(0.0, quantity, price);
          rest + Times(quantity, price)
  }

  /** What the refresh loop accumulates. */
  datatype Fold = Fold(best: real, released: real, halted: bool, buysBlocked: bool, scale: Option<real>)

  function MinScale(a: Option<real>, b: Option<real>): Option<real>
  {
    if b.None? then a else if a.None? then b else Some(Min(a.value, b.value))
  }

  function Observe(f: Fold, r: Refresh, sells: seq<Order>): Fold
  {
    Fold(Max(f.best, r.view.investable),
         Max(f.released, ReleasedValue(sells, |sells|, r.fills)),
         f.halted || r.blocked,
         f.buysBlocked || (r.gate.Some? && r.gate.value.buyProhibited),
         if r.gate.Some? then MinScale(f.scale, r.gate.value.scale) else f.scale)
  }

  /** The loop over refresh attempts: the accumulated facts, and the last attempt made. */
  function RefreshFrom(attempt: nat, count: nat, previous: real, f: Fold, sells: seq<Order>, m: Outside): (Fold, nat)
    requires attempt < count
    decreases count - attempt
  {
    var r := m.refresh(attempt);
    var seen := Observe(f, r, sells);
    if r.view.investable > previous || attempt + 1 == count then (seen, attempt)
    else RefreshFrom(attempt + 1, count, previous, seen, sells, m)
  }

  function Attempts(p: Params): nat { if p.refreshAttempts < 1 then 1 else p.refreshAttempts }

  predicate Refreshes(c: Cycle, p: Params)
  {
    c.sellSubmitted && !c.book.halted && !(p.dryRun && c.proceeds > 0.0)
  }

  function Folded(c: Cycle, p: Params, m: Outside): (Fold, nat)
  {
    RefreshFrom(0, Attempts(p), c.investable, Fold(c.investable, 0.0, c.book.halted, c.buysBlocked, c.scale),
                SubmittedSells(c.book.pending), m)
  }

  /** The state with which the buy phase starts. */
  function Refreshed(c: Cycle, p: Params, m: Outside): Cycle
  {
    if Refreshes(c, p) then
      var (f, last) := Folded(c, p, m);
      var view := m.refresh(last).view;
      c.(investable := Max(view.investable, Max(f.best, c.investable + f.released)), liquid := view.liquid,
         book := c.book.(halted := f.halted), buysBlocked := f.buysBlocked, scale := f.scale)
    else if c.sellSubmitted && !c.book.halted then
      c.(liquid := Max(0.0, c.liquid + c.proceeds), investable := Max(0.0, c.investable + c.proceeds))
    else c
  }

  /** ... and the plan: the last one observed, with its targets rescaled. */
  function RefreshedView(c: Cycle, p: Params, v: PlanView, m: Outside): PlanView
  {
    if Refreshes(c, p) then
      var (f, last) := Folded(c, p, m);
      Rescaled(m, last, f.scale)
    else v
  }

  function Rescaled(m: Outside, n: nat, scale: Option<real>): PlanView
  {
    var view := m.refresh(n).view;
    view.(targets := m.rescale(view, scale))
  }

  // ----- sizing a buy

  /** `_should_top_up_existing_whole_share_buy`. */
  predicate ShouldTopUp(target: real, current: real, held: real, price: real, step: real)
  {
    var remaining := Max(0.0, target - current);
    && Abs(step - 1.0) <= 0.000000001
    && held >= 1.0
    && price > 0.0
    && 0.0 < remaining < price
    && Ratio(Max(0.0, target), price) >= held.Floor as real + 0.5
  }

  /** `_planned_whole_share_buy_quantity`. */
  function PlannedQuantity(target: real, current: real, held: real, budget: real, power: real,
                           reference: real, step: real, allowTopUp: bool): real
  {
    if reference <= 0.0 then 0.0
    else
      var planned := FloorToStep(Max(0.0, budget) / reference, step);
      if planned > 0.0 then planned
      else if allowTopUp && Max(0.0, power) >= reference && ShouldTopUp(target, current, held, reference, step)
      then FloorToStep(1.0, step)
      else 0.0
  }

  predicate IsLimitBuy(s: string, p: Params, v: PlanView)
  {
    !p.fractional && (s in v.limitSymbols || s == p.sweep)
  }

  function ReferencePrice(s: string, p: Params, v: PlanView, price: real): real
  {
    if IsLimitBuy(s, p, v) then LimitBuyPrice(p, s, price) else RoundCents(price)
  }

  /** The planned whole-share quantity and the money the order may use. */
  function Plan(s: string, c: Cycle, p: Params, v: PlanView, reference: real): (real, real)
    requires s in v.values && s in v.targets && s in v.quantities
  {
    var budget := Min(v.Gap(s), c.investable);
    if p.fractional then (0.0, budget)
    else
      var planned := PlannedQuantity(v.targets[s], v.values[s], v.quantities[s], budget, c.investable, reference,
                                     BuyStep(p, MarketSymbol(s, p.suffix)), c.sellSubmitted);
      (planned, if planned > 0.0 then Max(budget, Times(planned, reference)) else budget)
  }

  predicate CanAfford(s: string, c: Cycle, p: Params, v: PlanView, reference: real)
    requires s in v.values && s in v.targets && s in v.quantities
  {
    if p.fractional then Min(v.Gap(s), c.investable) >= MIN_FRACTIONAL_BUY
    else Plan(s, c, p, v, reference).0 > 0.0
  }

  /** `_estimate_buy_quantity_candidate`, floored once more: the quantity to order. */
  function BuyQuantity(money: real, reference: real, step: real, estimate: real): real
  {
    FloorToStep(FloorToStep(Min(FloorToStep(Ratio(money, reference), step), estimate), step), step)
  }

  // ----- buys

  /** The order to buy one asset at a quoted price and an estimate, if any. */
  function BuyTicket(s: string, c: Cycle, p: Params, v: PlanView, price: real, estimate: real): Option<Ticket>
    requires v.Covers() && s in v.assets
  {
    var reference := ReferencePrice(s, p, v, price);
    var symbol := MarketSymbol(s, p.suffix);
    var quantity := BuyQuantity(Plan(s, c, p, v, reference).1, reference, BuyStep(p, symbol), estimate);
    if quantity <= 0.0 then None
    else
      var limit := IsLimitBuy(s, p, v);
      Some(Ticket(Intent(symbol, Buy, quantity, if limit then Limit else Market,
                         if limit then Some(reference) else None),
                  price, reference))
  }

  /** What a buy is charged: a limit order at its limit, a market order at the quote. */
  function Cost(t: Ticket): real
  {
    Times(t.intent.quantity, if t.intent.kind == Limit then t.reference else t.quote)
  }

  function PlaceBuy(c: Cycle, p: Params, m: Outside, t: Ticket): Cycle
  {
    var placed := Place(c, p, m, t);
    if Taken(c, p, m, t) then placed.(investable := Max(0.0, c.investable - Cost(t)), actionDone := true) else placed
  }

  /** Quote an asset and estimate its quantity, as far as it comes: the ticket, if any. */
  function AskBuy(s: string, c: Cycle, p: Params, v: PlanView, m: Outside): (Cycle, Option<Ticket>)
    requires v.Covers() && s in v.assets
  {
    var price := m.quote(c.quotes);
    var quoted := c.(quotes := c.quotes + 1);
    if price.None? || !CanAfford(s, c, p, v, ReferencePrice(s, p, v, price.value)) then (quoted, None)
    else
      var estimate := m.estimate(c.estimates);
      (quoted.(estimates := c.estimates + 1),
       if estimate.Some? then BuyTicket(s, c, p, v, price.value, estimate.value) else None)
  }

  /** The buy-loop body for one asset. */
  function BuyOne(s: string, c: Cycle, p: Params, v: PlanView, m: Outside): Cycle
    requires v.Covers() && s in v.assets
  {
    var (asked, ticket) := AskBuy(s, c, p, v, m);
    if ticket.Some? then PlaceBuy(asked, p, m, ticket.value) else asked
  }

  function BuyFrom(symbols: seq<string>, c: Cycle, p: Params, v: PlanView, m: Outside): Cycle
    requires v.Covers() && forall s :: s in symbols ==> s in v.assets
  {
    if symbols == [] || c.book.halted then c
    else BuyFrom(symbols[1..], BuyOne(symbols[0], c, p, v, m), p, v, m)
  }

  /** What a candidate would cost at a quote. */
  function CandidateCost(s: string, c: Cycle, p: Params, v: PlanView, price: Option<real>): real
    requires v.Covers() && s in v.assets
  {
    if price.None? then 0.0
    else if p.fractional then
      var budget := Min(v.Gap(s), c.investable);
      if budget >= MIN_FRACTIONAL_BUY then budget else 0.0
    else
      var reference := ReferencePrice(s, p, v, price.value);
      var planned := Plan(s, c, p, v, reference).0;
      if planned > 0.0 then Times(planned, reference) else 0.0
  }

  /** What the candidates would cost, quoted one by one from the n-th quote on. */
  function EstimatedCost(symbols: seq<string>, n: nat, c: Cycle, p: Params, v: PlanView, m: Outside): real
    requires v.Covers() && forall s :: s in symbols ==> s in v.assets
  {
    if symbols == [] then 0.0
    else CandidateCost(symbols[0], c, p, v, m.quote(n)) + EstimatedCost(symbols[1..], n + 1, c, p, v, m)
  }

  /** Rejected sells keep cash back: the candidates are quoted to see whether they can wait. */
  predicate ChecksRelease(c: Cycle, p: Params)
  {
    p.cashOnly && c.releases != [] && !c.book.halted && !p.smallAccountBlocked && !c.buysBlocked
  }

  /** The gates between the candidates and the buy loop. */
  function AllowedBuys(c: Cycle, p: Params, v: PlanView, m: Outside): (r: seq<string>)
    requires v.Covers()
    ensures forall s :: s in r ==> s in v.assets
  {
    if c.book.halted || p.smallAccountBlocked || c.buysBlocked then []
    else if ChecksRelease(c, p) && EstimatedCost(Candidates(0, p, v), c.quotes, c, p, v, m) > c.investable then []
    else if p.cashOnly && c.liquid < 0.0 then []
    else if c.investable <= 0.0 then []
    else Candidates(0, p, v)
  }

  /** How many quotes the gates ask for. */
  function QuotesAsked(c: Cycle, p: Params, v: PlanView): nat
    requires v.Covers()
  {
    if ChecksRelease(c, p) then |Candidates(0, p, v)| else 0
  }

  function BuyPhase(c: Cycle, p: Params, v: PlanView, m: Outside): Cycle
    requires v.Covers()
  {
    BuyFrom(AllowedBuys(c, p, v, m), c.(quotes := c.quotes + QuotesAsked(c, p, v)), p, v, m)
  }

  // ----- the sweep rebuy

  predicate TailOpen(c: Cycle, p: Params, v: PlanView)
  {
    && !c.book.halted && !c.sweepSold
    && p.sweep != "" && p.sweep in v.assets && !p.smallAccountBlocked
    && ((p.sweep in v.targets && v.targets[p.sweep] > 0.0) || !v.sweepSubstituted)
  }

  /** Enough cash is left at this quote to rebuy. */
  predicate Rebuys(c: Cycle, p: Params, price: real)
  {
    var least := Max(0.0, p.substituteThreshold);
    price > 0.0 && c.investable > price * 2.0 && (least <= 0.0 || c.investable >= least)
  }

  function RebuyTicket(c: Cycle, p: Params, price: real, estimate: real): Option<Ticket>
  {
    var reference := LimitBuyPrice(p, p.sweep, price);
    var paid := FloorToStep(Ratio(c.investable, reference), 1.0);
    var quantity := FloorToLot(Min(paid, estimate), LotFor(p.lots, p.sweep));
    if quantity <= 0.0 then None
    else Some(Ticket(Intent(MarketSymbol(p.sweep, p.suffix), Buy, quantity, Limit, Some(reference)), price, reference))
  }

  function PlaceRebuy(c: Cycle, p: Params, m: Outside, t: Ticket): Cycle
  {
    var placed := Place(c, p, m, t);
    if Taken(c, p, m, t) then placed.(actionDone := true) else placed
  }

  /** Quote the sweep symbol and estimate its quantity, as far as it comes: the ticket, if any. */
  function AskRebuy(c: Cycle, p: Params, v: PlanView, m: Outside): (Cycle, Option<Ticket>)
  {
    if !TailOpen(c, p, v) then (c, None)
    else
      var price := m.quote(c.quotes);
      var quoted := c.(quotes := c.quotes + 1);
      if price.None? || !Rebuys(c, p, price.value) then (quoted, None)
      else
        var estimate := m.estimate(c.estimates);
        (quoted.(estimates := c.estimates + 1),
         if estimate.Some? then RebuyTicket(c, p, price.value, estimate.value) else None)
  }

  /** Rebuy the cash-sweep symbol with what is left. */
  function Rebuy(c: Cycle, p: Params, v: PlanView, m: Outside): Cycle
  {
    var (asked, ticket) := AskRebuy(c, p, v, m);
    if ticket.Some? then PlaceRebuy(asked, p, m, ticket.value) else asked
  }

  // ----- the cycle

  function Start(v: PlanView, gate: Option<Gate>): Cycle
  {
    Cycle(Book([], [], false), [], v.investable, v.liquid, 0.0, false, false, false, [],
          gate.Some? && gate.value.buyProhibited, if gate.Some? then gate.value.scale else None, 0, 0)
  }

  /** The end of the sell side: loop and sweep sale. */
  function SellPhase(p: Params, v: PlanView, gate: Option<Gate>, m: Outside): Cycle
    requires v.Covers()
  {
    SellSweep(SellFrom(0, Start(v, gate), p, v, m), p, v, m)
  }

  /** Every plan that a refresh can return, after rescaling, names its assets. */
  ghost predicate RefreshesCover(m: Outside)
  {
    forall n: nat, scale: Option<real> :: Rescaled(m, n, scale).Covers()
  }

  lemma RefreshedCovers(c: Cycle, p: Params, v: PlanView, m: Outside)
    requires v.Covers() && RefreshesCover(m)
    ensures RefreshedView(c, p, v, m).Covers()
  {
    var (f, last) := Folded(c, p, m);
    assert Rescaled(m, last, f.scale).Covers();
  }

  /** The state at the start of the buy phase. */
  function BeforeBuys(p: Params, v: PlanView, gate: Option<Gate>, m: Outside): Cycle
    requires v.Covers()
  {
    Refreshed(SellPhase(p, v, gate, m), p, m)
  }

  function BuyView(p: Params, v: PlanView, gate: Option<Gate>, m: Outside): PlanView
    requires v.Covers()
  {
    RefreshedView(SellPhase(p, v, gate, m), p, v, m)
  }

  /** `execute_rebalance_cycle`. */
  function Execute(blocked: bool, p: Params, v: PlanView, gate: Option<Gate>, m: Outside): Cycle
    requires v.Covers() && RefreshesCover(m)
  {
    if blocked then Start(v, gate)
    else
      RefreshedCovers(SellPhase(p, v, gate, m), p, v, m);
      var view := BuyView(p, v, gate, m);
      Rebuy(BuyPhase(BeforeBuys(p, v, gate, m), p, view, m), p, view, m)
  }
}
