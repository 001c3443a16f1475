/** What a cycle trades: which sells and buys it places, in which order, and how large, told from
    the plan, the gates and the answers of the outside. */
module CycleTrades {
  import opened Wrappers

  import opened BrokerFacts
  import opened Quantity
  import opened RebalanceCycle

  // ----- whole steps

  /** The largest whole number of steps that is not above the bound; nothing under a bound that is
      not positive. */
  ghost predicate IsLargest(quantity: real, step: real, bound: real)
  {
    if bound <= 0.0 then quantity == 0.0
    else exists n: nat :: IsSteps(quantity, step, n) && quantity <= bound < Times((n + 1) as real, step)
  }

  predicate IsSteps(quantity: real, step: real, n: nat)
  {
    quantity == Times(n as real, step)
  }

  lemma FloorIsLargest(bound: real, step: real)
    requires 0.0 < step
    ensures IsLargest(FloorToStep(bound, step), step, bound)
    ensures FloorToStep(bound, step) > 0.0 <==> step <= bound
  {
    FloorBounds(bound, step);
    if 0.0 < bound {
      var n := Steps(bound, step);
      FloorOfQuotient(bound, step);
      assert IsSteps(FloorToStep(bound, step), step, n);
      TimesSucc(n, step);
      TimesSucc(0, step);
      if n > 0 {
        TimesMonotone(1.0, n as real, step);
      }
    }
  }

  /** Flooring a part of the bound before changes nothing. */
  lemma FloorOfMin(a: real, b: real, step: real)
    requires 0.0 < step
    ensures FloorToStep(Min(FloorToStep(a, step), b), step) == FloorToStep(Min(a, b), step)
  {
    FloorBounds(a, step);
    FloorBounds(Min(a, b), step);
    FloorBounds(Min(0.0, b), step);
    if 0.0 < a && FloorToStep(a, step) <= b {
      FloorIdempotent(a, step);
      FloorBetween(a, Min(a, b), step);
    }
  }

  /** What lies between a quantity and its floor has the same floor. */
  lemma FloorBetween(a: real, b: real, step: real)
    requires 0.0 < step && 0.0 < a && FloorToStep(a, step) <= b <= a
    ensures FloorToStep(b, step) == FloorToStep(a, step)
  {
    var n := Steps(a, step);
    FloorOfQuotient(a, step);
    if 0.0 < b {
      FloorUnique(b, step, n);
    } else {
      FloorBounds(a, step);
      FloorBounds(b, step);
    }
  }

  lemma BuyStepIsPositive(p: Params, symbol: string)
    ensures 0.0 < BuyStep(p, symbol)
    ensures !p.fractional ==> BuyStep(p, symbol) == 1.0 || BuyStep(p, symbol) >= 2.0
  {
  }

  // ----- board lots

  lemma {:induction false} BeforeDotOf(s: string, suffix: string)
    requires '.' !in s && suffix != "" && suffix[0] == '.'
    ensures BeforeDot(s + suffix) == s
  {
    if s == "" {
      assert s + suffix == suffix;
    } else {
      assert (s + suffix)[1..] == s[1..] + suffix;
      assert s[0] in s && forall ch :: ch in s[1..] ==> ch in s;
      BeforeDotOf(s[1..], suffix);
    }
  }

  /** A plain symbol and its market symbol have one lot, unless a lot is set for the market symbol
      itself; no lot, and a lot below one, mean single shares. */
  lemma LotOfMarketSymbol(lots: map<string, int>, s: string, suffix: string)
    requires s != "" && '.' !in s && suffix != "" && suffix[0] == '.'
    ensures MarketSymbol(s, suffix) == s + suffix
    ensures s + suffix !in lots ==> LotFor(lots, MarketSymbol(s, suffix)) == LotFor(lots, s)
    ensures s + suffix in lots && lots[s + suffix] >= 1 ==> LotFor(lots, MarketSymbol(s, suffix)) == lots[s + suffix]
    ensures LotFor(lots, s) == if s in lots && lots[s] >= 1 then lots[s] else 1
  {
    BeforeDotOf(s, suffix);
    assert (s + suffix)[|s|] == '.';
  }

  // ----- what a buy may use

  /** The asset is bought by a limit order. */
  predicate ByLimit(s: string, p: Params, v: PlanView)
  {
    !p.fractional && (s in v.limitSymbols || s == p.sweep)
  }

  /** The quote with the symbol's premium, in cents. */
  function LimitPrice(s: string, p: Params, price: real): real { RoundCents(price * p.premium(s)) }

  /** The price a buy is sized at, in cents. */
  function SizedAt(s: string, p: Params, v: PlanView, price: real): real
  {
    if ByLimit(s, p, v) then LimitPrice(s, p, price) else RoundCents(price)
  }

  lemma SizedExactly(s: string, p: Params, v: PlanView, price: real)
    ensures SizedAt(s, p, v, price) == ReferencePrice(s, p, v, price)
  {
    LimitPriceExactly(s, p, price);
  }

  /** What is missing to the target, as far as the cash goes. */
  function Budget(s: string, c: Cycle, v: PlanView): real
    requires s in v.values && s in v.targets
  {
    Min(v.targets[s] - v.values[s], c.investable)
  }

  function StepOf(s: string, p: Params): real { BuyStep(p, MarketSymbol(s, p.suffix)) }

  /** The budget pays a step. */
  predicate PaysStep(s: string, c: Cycle, p: Params, v: PlanView, reference: real)
    requires s in v.values && s in v.targets
  {
    reference > 0.0 && Times(StepOf(s, p), reference) <= Budget(s, c, v)
  }

  /** The budget does not pay a share, but after a sell the cash does, and one share more brings the
      holding nearer to its target. */
  predicate TopsUp(s: string, c: Cycle, p: Params, v: PlanView, reference: real)
    requires s in v.values && s in v.targets && s in v.quantities
  {
    && c.sellSubmitted && 0.0 < reference <= c.investable
    && ShouldTopUp(v.targets[s], v.values[s], v.quantities[s], reference, StepOf(s, p))
  }

  predicate Affords(s: string, c: Cycle, p: Params, v: PlanView, reference: real)
    requires s in v.values && s in v.targets && s in v.quantities
  {
    if p.fractional then Budget(s, c, v) >= 1.0
    else PaysStep(s, c, p, v, reference) || TopsUp(s, c, p, v, reference)
  }

  /** The money of the order: the budget, or the price of the one share that tops up. */
  function Money(s: string, c: Cycle, p: Params, v: PlanView, reference: real): real
    requires s in v.values && s in v.targets
  {
    if p.fractional || PaysStep(s, c, p, v, reference) then Budget(s, c, v) else reference
  }

  /** Topping up is for whole shares, and brings a whole holding nearer to its target, or no farther
      from it; nothing else stands in its way. */
  lemma TopUpIsNearer(target: real, current: real, held: nat, price: real, step: real)
    requires step == 1.0 && 1 <= held && 0.0 <= target && 0.0 < price && 0.0 < target - current < price
    ensures ShouldTopUp(target, current, held as real, price, step) <==>
            Abs(target - (held + 1) as real * price) <= Abs(target - held as real * price)
  {
    var n := held as real;
    assert n.Floor == held && (held + 1) as real == n + 1.0;
    HalfShares(target, n, price);
    HalfWay(target, n, price);
  }

  lemma HalfShares(target: real, n: real, price: real)
    requires 0.0 < price
    ensures target / price >= n + 0.5 <==> Times(n + 0.5, price) <= target
  {
    QuotientTimes(target, price);
    TimesStrict(target / price, n + 0.5, price);
  }

  lemma HalfWay(target: real, n: real, price: real)
    requires 0.0 < price
    ensures Times(n + 0.5, price) == n * price + 0.5 * price
    ensures Abs(target - (n + 1.0) * price) <= Abs(target - n * price) <==> Times(n + 0.5, price) <= target
  {
    var x := n * price;
    assert (n + 1.0) * price == x + price;
    assert Times(n + 0.5, price) == x + 0.5 * price;
  }

  lemma PlannedExactly(target: real, current: real, held: real, budget: real, power: real, reference: real, step: real,
                       allowTopUp: bool)
    requires step == 1.0 || step >= 2.0
    ensures var planned := PlannedQuantity(target, current, held, budget, power, reference, step, allowTopUp);
            var pays := reference > 0.0 && Times(step, reference) <= budget;
            && (planned > 0.0 <==>
                  || pays
                  || (allowTopUp && 0.0 < reference <= power && ShouldTopUp(target, current, held, reference, step)))
            && (pays ==> planned == FloorToStep(budget / reference, step) && Times(planned, reference) <= budget)
            && (planned > 0.0 && !pays ==> planned == 1.0 && budget < reference)
  {
    if reference > 0.0 {
      var money := Max(0.0, budget);
      FloorIsLargest(money / reference, step);
      FloorBounds(money / reference, step);
      QuotientTimes(money, reference);
      StepIsPaid(step, money, reference);
      FloorIsLargest(1.0, step);
      OneShare();
      if FloorToStep(money / reference, step) > 0.0 {
        TimesMonotone(FloorToStep(money / reference, step), money / reference, reference);
      }
    }
  }

  lemma StepIsPaid(step: real, money: real, reference: real)
    requires 0.0 < step && 0.0 < reference
    ensures step <= money / reference <==> Times(step, reference) <= money
    ensures 0.0 < Times(step, reference)
    ensures step == 1.0 ==> Times(step, reference) == reference
  {
    QuotientTimes(money, reference);
    TimesStrict(money / reference, step, reference);
    TimesStrict(0.0, step, reference);
    TimesSucc(0, reference);
  }

  lemma OneShare()
    ensures FloorToStep(1.0, 1.0) == 1.0
  {
    assert Steps(1.0, 1.0) == 1;
  }

  lemma PlanExactly(s: string, c: Cycle, p: Params, v: PlanView, reference: real)
    requires s in v.values && s in v.targets && s in v.quantities
    ensures CanAfford(s, c, p, v, reference) <==> Affords(s, c, p, v, reference)
    ensures Affords(s, c, p, v, reference) ==> Plan(s, c, p, v, reference).1 == Money(s, c, p, v, reference)
  {
    BuyStepIsPositive(p, MarketSymbol(s, p.suffix));
    if !p.fractional {
      PlannedExactly(v.targets[s], v.values[s], v.quantities[s], Budget(s, c, v), c.investable, reference, StepOf(s, p),
                     c.sellSubmitted);
      TimesSucc(0, reference);
    }
  }

  // ----- the order of a buy

  /** What the money and the estimate allow. */
  function Bound(s: string, c: Cycle, p: Params, v: PlanView, reference: real, estimate: real): real
    requires s in v.values && s in v.targets
  {
    Min(Ratio(Money(s, c, p, v, reference), reference), estimate)
  }

  /** The order to buy the asset at this quote: the largest whole number of steps within the bound,
      at market, or at the price it is sized at when it goes by limit. */
  ghost predicate BuysAt(s: string, c: Cycle, p: Params, v: PlanView, price: real, estimate: real, t: Ticket)
    requires s in v.values && s in v.targets
  {
    var reference := SizedAt(s, p, v, price);
    && t.intent.symbol == MarketSymbol(s, p.suffix) && t.intent.side == Buy
    && (ByLimit(s, p, v) ==> t.intent.kind == Limit && t.intent.limitPrice == Some(reference))
    && (!ByLimit(s, p, v) ==> t.intent.kind == Market && t.intent.limitPrice == None)
    && t.quote == price && t.reference == reference
    && t.intent.quantity > 0.0
    && IsLargest(t.intent.quantity, StepOf(s, p), Bound(s, c, p, v, reference, estimate))
  }

  lemma BuyQuantityExactly(money: real, reference: real, step: real, estimate: real)
    requires 0.0 < step
    ensures BuyQuantity(money, reference, step, estimate) == FloorToStep(Min(Ratio(money, reference), estimate), step)
  {
    FloorOfMin(Ratio(money, reference), estimate, step);
    FloorIdempotent(Min(Ratio(money, reference), estimate), step);
  }

  lemma BuyTicketExactly(s: string, c: Cycle, p: Params, v: PlanView, price: real, estimate: real)
    requires v.Covers() && s in v.assets && Affords(s, c, p, v, SizedAt(s, p, v, price))
    ensures var t := BuyTicket(s, c, p, v, price, estimate);
            && (t.Some? <==> StepOf(s, p) <= Bound(s, c, p, v, SizedAt(s, p, v, price), estimate))
            && (t.Some? ==> BuysAt(s, c, p, v, price, estimate, t.value))
  {
    var reference := SizedAt(s, p, v, price);
    SizedExactly(s, p, v, price);
    PlanExactly(s, c, p, v, reference);
    BuyStepIsPositive(p, MarketSymbol(s, p.suffix));
    BuyQuantityExactly(Money(s, c, p, v, reference), reference, StepOf(s, p), estimate);
    FloorIsLargest(Bound(s, c, p, v, reference, estimate), StepOf(s, p));
  }

  // ----- placing an order

  /** The order was taken: on paper in a dry run, by the broker otherwise. */
  predicate IsTaken(c: Cycle, d: Cycle, p: Params)
  {
    || p.dryRun
    || (|d.book.calls| > |c.book.calls|
        && var call := d.book.calls[|d.book.calls| - 1]; !call.IsRejected() && !call.IsUnknown())
  }

  /** One order of this size, floored as submitted, was placed: it is one more call of the port,
      answered and recorded as pending unless rejected, halting the cycle when its outcome is
      unknown or the hook after it fails; a quantity of zero is not sent. In a dry run it is noted,
      in full. */
  predicate Places(c: Cycle, d: Cycle, p: Params, m: Outside, t: Ticket, quantity: real)
  {
    var n := |c.book.calls|;
    var i := t.intent;
    var call := Call(i.(quantity := quantity), m.reply(n), t.quote, t.reference);
    && (p.dryRun ==>
          && d.book == c.book
          && d.dryRuns == c.dryRuns + [DryRun(i.symbol, i.side, i.quantity,
                                              if i.kind == Limit && i.limitPrice.Some? then i.limitPrice.value
                                              else RoundCents(t.quote), i.kind)])
    && (!p.dryRun ==>
          && d.dryRuns == c.dryRuns
          && (quantity <= 0.0 ==> d.book == c.book)
          && (quantity > 0.0 ==>
                && d.book.calls == c.book.calls + [call]
                && d.book.pending == (if call.IsRejected() then c.book.pending else c.book.pending + [OrderOf(call)])
                && d.book.halted == (call.IsUnknown() || (!call.IsRejected() && m.hookFails(n)))))
  }

  lemma SubmittedQuantity(s: string, p: Params, t: Ticket, bound: real)
    requires t.intent.side == Buy && t.intent.symbol == MarketSymbol(s, p.suffix)
    requires IsLargest(t.intent.quantity, StepOf(s, p), bound)
    ensures SubmitQuantity(p, t.intent) == t.intent.quantity
  {
    var q, step := t.intent.quantity, StepOf(s, p);
    BuyStepIsPositive(p, t.intent.symbol);
    if bound <= 0.0 {
      FloorBounds(q, step);
    } else {
      var n: nat :| IsSteps(q, step, n) && q <= bound < Times((n + 1) as real, step);
      StepsAreFloor(q, step, n);
    }
  }

  lemma StepsAreFloor(q: real, step: real, n: nat)
    requires 0.0 < step && IsSteps(q, step, n)
    ensures FloorToStep(q, step) == q
  {
    TimesSucc(n, step);
    TimesMonotone(0.0, n as real, step);
    if 0.0 < q {
      FloorUnique(q, step, n);
    } else {
      FloorBounds(q, step);
    }
  }

  lemma PlacePlaces(c: Cycle, p: Params, m: Outside, t: Ticket)
    requires !c.book.halted && (t.intent.kind == Market ==> t.intent.limitPrice.None?)
    ensures Places(c, Place(c, p, m, t), p, m, t, SubmitQuantity(p, t.intent))
    ensures Taken(c, p, m, t) <==> IsTaken(c, Place(c, p, m, t), p)
  {
  }

  // ----- one candidate

  /** The candidate is quoted, and affordable at that quote. */
  predicate IsAskedFor(s: string, c: Cycle, p: Params, v: PlanView, m: Outside)
    requires s in v.values && s in v.targets && s in v.quantities
  {
    m.quote(c.quotes).Some? && Affords(s, c, p, v, SizedAt(s, p, v, m.quote(c.quotes).value))
  }

  /** ... and estimated, and a step fits into what money and estimate allow. */
  predicate IsBought(s: string, c: Cycle, p: Params, v: PlanView, m: Outside)
    requires s in v.values && s in v.targets && s in v.quantities
  {
    && IsAskedFor(s, c, p, v, m) && m.estimate(c.estimates).Some?
    && StepOf(s, p) <= Bound(s, c, p, v, SizedAt(s, p, v, m.quote(c.quotes).value), m.estimate(c.estimates).value)
  }

  /** What is left after an order that was taken: a limit order is charged at its limit, a market
      order at its quote. */
  function LeftAfter(c: Cycle, t: Ticket): real
  {
    Max(0.0, c.investable - Times(t.intent.quantity, if t.intent.kind == Limit then t.reference else t.quote))
  }

  /** The candidate's order is placed, and charged if it is taken. */
  ghost predicate BuyPlaced(s: string, c: Cycle, d: Cycle, p: Params, v: PlanView, m: Outside, t: Ticket)
    requires s in v.values && s in v.targets && s in v.quantities && IsBought(s, c, p, v, m)
  {
    && BuysAt(s, c, p, v, m.quote(c.quotes).value, m.estimate(c.estimates).value, t)
    && Places(c, d, p, m, t, t.intent.quantity)
    && d == c.(book := d.book, dryRuns := d.dryRuns, quotes := c.quotes + 1, estimates := c.estimates + 1,
               investable := if IsTaken(c, d, p) then LeftAfter(c, t) else c.investable,
               actionDone := c.actionDone || IsTaken(c, d, p))
  }

  /** The turn of one candidate: one quote; one estimate if it can be afforded; and its order, if
      it is bought. */
  ghost predicate BuyTurn(s: string, c: Cycle, d: Cycle, p: Params, v: PlanView, m: Outside)
    requires s in v.values && s in v.targets && s in v.quantities
  {
    if IsBought(s, c, p, v, m) then exists t :: BuyPlaced(s, c, d, p, v, m, t)
    else d == c.(quotes := c.quotes + 1, estimates := c.estimates + if IsAskedFor(s, c, p, v, m) then 1 else 0)
  }

  lemma AskBuyExactly(s: string, c: Cycle, p: Params, v: PlanView, m: Outside)
    requires v.Covers() && s in v.assets
    ensures var (asked, t) := AskBuy(s, c, p, v, m);
            && asked == c.(quotes := c.quotes + 1,
                           estimates := c.estimates + if IsAskedFor(s, c, p, v, m) then 1 else 0)
            && (t.Some? <==> IsBought(s, c, p, v, m))
            && (t.Some? ==> BuysAt(s, c, p, v, m.quote(c.quotes).value, m.estimate(c.estimates).value, t.value))
  {
    var price, estimate := m.quote(c.quotes), m.estimate(c.estimates);
    if price.Some? {
      SizedExactly(s, p, v, price.value);
      PlanExactly(s, c, p, v, SizedAt(s, p, v, price.value));
      if IsAskedFor(s, c, p, v, m) && estimate.Some? {
        BuyTicketExactly(s, c, p, v, price.value, estimate.value);
      }
    }
  }

  lemma PlaceBuyExactly(s: string, c: Cycle, asked: Cycle, p: Params, v: PlanView, m: Outside, t: Ticket)
    requires s in v.values && s in v.targets && s in v.quantities && IsBought(s, c, p, v, m) && !c.book.halted
    requires asked == c.(quotes := c.quotes + 1, estimates := c.estimates + 1)
    requires BuysAt(s, c, p, v, m.quote(c.quotes).value, m.estimate(c.estimates).value, t)
    ensures BuyPlaced(s, c, PlaceBuy(asked, p, m, t), p, v, m, t)
  {
    var price, estimate := m.quote(c.quotes).value, m.estimate(c.estimates).value;
    SubmittedQuantity(s, p, t, Bound(s, c, p, v, SizedAt(s, p, v, price), estimate));
    PlacePlaces(asked, p, m, t);
  }

  lemma BuyOneTurns(s: string, c: Cycle, p: Params, v: PlanView, m: Outside)
    requires v.Covers() && s in v.assets && !c.book.halted
    ensures BuyTurn(s, c, BuyOne(s, c, p, v, m), p, v, m)
  {
    var (asked, t) := AskBuy(s, c, p, v, m);
    AskBuyExactly(s, c, p, v, m);
    if t.Some? {
      PlaceBuyExactly(s, c, asked, p, v, m, t.value);
    }
  }

  // ----- all candidates

  ghost predicate BuyTurnAt(states: seq<Cycle>, k: nat, symbols: seq<string>, p: Params, v: PlanView, m: Outside)
    requires v.Covers() && forall s :: s in symbols ==> s in v.assets
    requires k + 1 < |states| && k < |symbols|
  {
    !states[k].book.halted && BuyTurn(symbols[k], states[k], states[k + 1], p, v, m)
  }

  /** The candidates have their turns in order, from state to state; only a halted cycle leaves
      some without a turn. */
  ghost predicate BuysInTurn(states: seq<Cycle>, symbols: seq<string>, p: Params, v: PlanView, m: Outside)
    requires v.Covers() && forall s :: s in symbols ==> s in v.assets
  {
    && 1 <= |states| <= |symbols| + 1
    && (forall k: nat :: k < |states| - 1 ==> BuyTurnAt(states, k, symbols, p, v, m))
    && (|states| <= |symbols| ==> states[|states| - 1].book.halted)
  }

  lemma {:induction false} BuyFromTurns(symbols: seq<string>, c: Cycle, p: Params, v: PlanView, m: Outside)
    returns (states: seq<Cycle>)
    requires v.Covers() && forall s :: s in symbols ==> s in v.assets
    ensures BuysInTurn(states, symbols, p, v, m)
    ensures states[0] == c && states[|states| - 1] == BuyFrom(symbols, c, p, v, m)
    decreases |symbols|
  {
    if symbols == [] || c.book.halted {
      states := [c];
    } else {
      var d := BuyOne(symbols[0], c, p, v, m);
      BuyOneTurns(symbols[0], c, p, v, m);
      var rest := BuyFromTurns(symbols[1..], d, p, v, m);
      states := [c] + rest;
      forall k: nat | k < |states| - 1 ensures BuyTurnAt(states, k, symbols, p, v, m) {
        if k > 0 {
          assert BuyTurnAt(rest, k - 1, symbols[1..], p, v, m);
        }
      }
    }
  }

  // ----- sells

  /** The least order that is worth placing. */
  function LeastTrade(p: Params, v: PlanView): real
  {
    Max(v.minTrade, if p.fractional then 1.0 else Max(0.0, p.minOrderNotional))
  }

  /** The asset is above its target by more than the threshold, and, if some of it is to stay, by
      more than the least order. */
  predicate IsExcess(s: string, p: Params, v: PlanView)
    requires s in v.values && s in v.targets
  {
    var excess := Max(0.0, v.values[s]) - Max(0.0, v.targets[s]);
    excess > Max(0.0, v.threshold) && (v.targets[s] <= 0.0 || excess > Max(0.0, LeastTrade(p, v)))
  }

  /** What may be sold at a quote: all that is sellable when nothing is to stay, and otherwise what
      is worth the excess. */
  function SellBound(s: string, v: PlanView, price: real): real
    requires s in v.values && s in v.targets && s in v.sellable
  {
    if v.targets[s] <= 0.0 then v.sellable[s]
    else if price <= 0.0 then 0.0
    else Min((v.values[s] - v.targets[s]) / price, v.sellable[s])
  }

  function LotOf(s: string, p: Params): real { LotStep(LotFor(p.lots, s)) }

  predicate IsSold(s: string, c: Cycle, p: Params, v: PlanView, m: Outside)
    requires s in v.values && s in v.targets && s in v.sellable
  {
    IsExcess(s, p, v) && m.quote(c.quotes).Some? && LotOf(s, p) <= SellBound(s, v, m.quote(c.quotes).value)
  }

  /** The order to sell the asset at this quote: the largest whole number of lots within the bound,
      at market, or at the discounted quote in cents when it goes by limit. */
  ghost predicate SellsAt(s: string, p: Params, v: PlanView, price: real, t: Ticket)
    requires s in v.values && s in v.targets && s in v.sellable
  {
    && t.intent.symbol == MarketSymbol(s, p.suffix) && t.intent.side == Sell
    && (s in v.limitSymbols ==>
          t.intent.kind == Limit && t.intent.limitPrice == Some(RoundCents(price * p.sellDiscount)))
    && (s !in v.limitSymbols ==> t.intent.kind == Market && t.intent.limitPrice == None)
    && t.quote == price && t.reference == price
    && t.intent.quantity > 0.0 && IsLargest(t.intent.quantity, LotOf(s, p), SellBound(s, v, price))
  }

  lemma SellQuantityExactly(s: string, p: Params, v: PlanView, price: real)
    requires s in v.values && s in v.targets && s in v.sellable
    ensures SellQuantity(v.values[s], v.targets[s], price, v.sellable[s], LotFor(p.lots, s))
            == FloorToStep(SellBound(s, v, price), LotOf(s, p))
  {
    FloorBounds(SellBound(s, v, price), LotOf(s, p));
    if price > 0.0 && v.values[s] - v.targets[s] <= 0.0 {
      QuotientTimes(v.values[s] - v.targets[s], price);
      TimesStrict(0.0, (v.values[s] - v.targets[s]) / price, price);
    }
  }

  lemma SellTicketExactly(s: string, p: Params, v: PlanView, price: real)
    requires v.Covers() && s in v.assets
    ensures var t := SellTicket(s, p, v, price);
            && (t.Some? <==> LotOf(s, p) <= SellBound(s, v, price))
            && (t.Some? ==> SellsAt(s, p, v, price, t.value))
  {
    SellQuantityExactly(s, p, v, price);
    FloorIsLargest(SellBound(s, v, price), LotOf(s, p));
  }

  /** A sell is placed, its size floored to the lots of its market symbol; one that is not taken is
      waited for, unless the cycle is halted. */
  ghost predicate SellPlaced(s: string, c: Cycle, d: Cycle, quotes: nat, p: Params, m: Outside, t: Ticket, waits: bool)
  {
    var q := FloorToStep(t.intent.quantity, LotOf(t.intent.symbol, p));
    var taken := IsTaken(c, d, p);
    && IsLargest(q, LotOf(t.intent.symbol, p), t.intent.quantity)
    && Places(c, d, p, m, t, q)
    && d == c.(book := d.book, dryRuns := d.dryRuns, quotes := quotes,
               actionDone := c.actionDone || taken, sellSubmitted := c.sellSubmitted || taken,
               sweepSold := c.sweepSold || (taken && s == p.sweep),
               proceeds := c.proceeds + if taken && p.dryRun && t.intent.kind == Market
                                        then t.intent.quantity * RoundCents(t.quote) else 0.0,
               releases := if waits && !taken && !d.book.halted then c.releases + [s] else c.releases)
  }

  /** The turn of one asset: one quote if it is in excess, and its order if it is sold. */
  ghost predicate SellTurn(s: string, c: Cycle, d: Cycle, p: Params, v: PlanView, m: Outside)
    requires s in v.values && s in v.targets && s in v.sellable
  {
    if IsSold(s, c, p, v, m) then
      exists t :: SellsAt(s, p, v, m.quote(c.quotes).value, t) && SellPlaced(s, c, d, c.quotes + 1, p, m, t, true)
    else d == c.(quotes := c.quotes + if IsExcess(s, p, v) then 1 else 0)
  }

  lemma PlaceSellExactly(s: string, c: Cycle, asked: Cycle, p: Params, m: Outside, t: Ticket)
    requires !c.book.halted && asked == c.(quotes := asked.quotes)
    requires t.intent.side == Sell && (t.intent.kind == Market ==> t.intent.limitPrice.None?)
    ensures SellPlaced(s, c, PlaceSell(asked, s, p, m, t), asked.quotes, p, m, t, false)
    ensures Taken(asked, p, m, t) <==> IsTaken(c, PlaceSell(asked, s, p, m, t), p)
  {
    FloorIsLargest(t.intent.quantity, LotOf(t.intent.symbol, p));
    PlacePlaces(asked, p, m, t);
  }

  lemma SellOrWaitExactly(s: string, c: Cycle, asked: Cycle, p: Params, m: Outside, t: Ticket)
    requires !c.book.halted && asked == c.(quotes := asked.quotes)
    requires t.intent.side == Sell && (t.intent.kind == Market ==> t.intent.limitPrice.None?)
    ensures SellPlaced(s, c, SellOrWait(asked, s, p, m, t), asked.quotes, p, m, t, true)
  {
    PlaceSellExactly(s, c, asked, p, m, t);
    WaitsFor(s, c, PlaceSell(asked, s, p, m, t), SellOrWait(asked, s, p, m, t), asked.quotes, p, m, t);
  }

  lemma WaitsFor(s: string, c: Cycle, placed: Cycle, after: Cycle, quotes: nat, p: Params, m: Outside, t: Ticket)
    requires SellPlaced(s, c, placed, quotes, p, m, t, false)
    requires after == if IsTaken(c, placed, p) || placed.book.halted then placed
                      else placed.(releases := c.releases + [s])
    ensures SellPlaced(s, c, after, quotes, p, m, t, true)
  {
  }

  lemma SellAskedExactly(s: string, c: Cycle, p: Params, v: PlanView, m: Outside)
    requires v.Covers() && s in v.assets
    ensures SellAsked(s, c, p, v) == c.(quotes := c.quotes + if IsExcess(s, p, v) then 1 else 0)
    ensures SellTicketOf(s, c, p, v, m).Some? <==> IsSold(s, c, p, v, m)
    ensures IsSold(s, c, p, v, m) ==>
              SellsAt(s, p, v, m.quote(c.quotes).value, SellTicketOf(s, c, p, v, m).value)
  {
    assert IsExcess(s, p, v) <==> SellDeltaExceedsFloor(v.values[s], v.targets[s], v.threshold, MinTrade(p, v));
    if m.quote(c.quotes).Some? {
      SellTicketExactly(s, p, v, m.quote(c.quotes).value);
    }
  }

  lemma SellOneTurns(s: string, c: Cycle, p: Params, v: PlanView, m: Outside)
    requires v.Covers() && s in v.assets && !c.book.halted
    ensures SellTurn(s, c, SellOne(s, c, p, v, m), p, v, m)
  {
    SellAskedExactly(s, c, p, v, m);
    var t, asked := SellTicketOf(s, c, p, v, m), SellAsked(s, c, p, v);
    if t.Some? {
      SellOrWaitExactly(s, c, asked, p, m, t.value);
    }
  }

  ghost predicate SellTurnAt(states: seq<Cycle>, k: nat, i: nat, p: Params, v: PlanView, m: Outside)
    requires v.Covers() && k + 1 < |states| && i + k < |v.assets|
  {
    !states[k].book.halted && SellTurn(v.assets[i + k], states[k], states[k + 1], p, v, m)
  }

  /** The assets from one on have their turns in order; only a halted cycle leaves some without. */
  ghost predicate SellsInTurn(states: seq<Cycle>, i: nat, p: Params, v: PlanView, m: Outside)
    requires v.Covers() && i <= |v.assets|
  {
    && 1 <= |states| <= |v.assets| - i + 1
    && (forall k: nat :: k < |states| - 1 ==> SellTurnAt(states, k, i, p, v, m))
    && (|states| <= |v.assets| - i ==> states[|states| - 1].book.halted)
  }

  lemma {:induction false} SellFromTurns(i: nat, c: Cycle, p: Params, v: PlanView, m: Outside)
    returns (states: seq<Cycle>)
    requires v.Covers() && i <= |v.assets|
    ensures SellsInTurn(states, i, p, v, m)
    ensures states[0] == c && states[|states| - 1] == SellFrom(i, c, p, v, m)
    decreases |v.assets| - i
  {
    if i == |v.assets| || c.book.halted {
      states := [c];
    } else {
      SellOneTurns(v.assets[i], c, p, v, m);
      var rest := SellFromTurns(i + 1, SellOne(v.assets[i], c, p, v, m), p, v, m);
      states := [c] + rest;
      OneMoreSell(c, rest, i, p, v, m);
    }
  }

  lemma OneMoreSell(c: Cycle, rest: seq<Cycle>, i: nat, p: Params, v: PlanView, m: Outside)
    requires v.Covers() && i < |v.assets| && SellsInTurn(rest, i + 1, p, v, m)
    requires !c.book.halted && SellTurn(v.assets[i], c, rest[0], p, v, m)
    ensures SellsInTurn([c] + rest, i, p, v, m)
  {
    var states := [c] + rest;
    forall k: nat | k < |states| - 1 ensures SellTurnAt(states, k, i, p, v, m) {
      if k > 0 {
        assert SellTurnAt(rest, k - 1, i + 1, p, v, m);
      }
    }
  }

  // ----- candidates

  /** The asset is below its target by more than the threshold and the least order. */
  predicate IsShort(s: string, p: Params, v: PlanView)
    requires s in v.values && s in v.targets
  {
    var gap := v.targets[s] - v.values[s];
    gap > v.threshold && Abs(gap) > LeastTrade(p, v)
  }

  /** The symbols at these places of the plan, in its order, are those of its short assets. */
  ghost predicate ListsShort(symbols: seq<string>, at: seq<nat>, i: nat, p: Params, v: PlanView)
    requires v.Covers()
  {
    StandsAt(symbols, at, i, v) && Ascending(at) && FindsShort(at, i, p, v)
  }

  predicate StandsAt(symbols: seq<string>, at: seq<nat>, i: nat, v: PlanView)
  {
    |at| == |symbols| && forall k: nat :: k < |at| ==> i <= at[k] < |v.assets| && v.assets[at[k]] == symbols[k]
  }

  predicate Ascending(at: seq<nat>)
  {
    forall j, k :: 0 <= j < k < |at| ==> at[j] < at[k]
  }

  ghost predicate FindsShort(at: seq<nat>, i: nat, p: Params, v: PlanView)
    requires v.Covers()
  {
    forall n: nat :: i <= n < |v.assets| ==> (n in at <==> IsShort(v.assets[n], p, v))
  }

  /** The candidates are the short assets of the plan, each once, in plan order. */
  lemma {:induction false} CandidatesInOrder(i: nat, p: Params, v: PlanView) returns (at: seq<nat>)
    requires v.Covers()
    ensures ListsShort(Candidates(i, p, v), at, i, p, v)
    decreases |v.assets| - i
  {
    if i >= |v.assets| {
      at := [];
    } else {
      var rest := CandidatesInOrder(i + 1, p, v);
      assert IsShort(v.assets[i], p, v) <==> IsCandidate(v.assets[i], p, v);
      if IsCandidate(v.assets[i], p, v) {
        at := [i] + rest;
        ListsOneMore(Candidates(i + 1, p, v), rest, i, p, v);
      } else {
        at := rest;
        ListsNoMore(Candidates(i + 1, p, v), rest, i, p, v);
      }
    }
  }

  lemma ListsOneMore(symbols: seq<string>, at: seq<nat>, i: nat, p: Params, v: PlanView)
    requires v.Covers() && i < |v.assets| && ListsShort(symbols, at, i + 1, p, v) && IsShort(v.assets[i], p, v)
    ensures ListsShort([v.assets[i]] + symbols, [i] + at, i, p, v)
  {
    forall n ensures n in [i] + at <==> n == i || n in at {}
  }

  lemma ListsNoMore(symbols: seq<string>, at: seq<nat>, i: nat, p: Params, v: PlanView)
    requires v.Covers() && i < |v.assets| && ListsShort(symbols, at, i + 1, p, v) && !IsShort(v.assets[i], p, v)
    ensures ListsShort(symbols, at, i, p, v)
  {
    assert forall k: nat :: k < |at| ==> at[k] != i;
  }

  lemma CandidateMembers(p: Params, v: PlanView)
    requires v.Covers()
    ensures forall s :: s in Candidates(0, p, v) <==> s in v.assets && IsShort(s, p, v)
  {
    var at := CandidatesInOrder(0, p, v);
    var symbols := Candidates(0, p, v);
    forall s ensures s in symbols <==> s in v.assets && IsShort(s, p, v) {
      if s in symbols {
        var k: nat :| k < |symbols| && symbols[k] == s;
        assert at[k] in at;
      }
      if s in v.assets && IsShort(s, p, v) {
        var n: nat :| n < |v.assets| && v.assets[n] == s;
        assert n in at;
        var k: nat :| k < |at| && at[k] == n;
        assert symbols[k] == s;
      }
    }
  }

  // ----- the cash-sweep sale and the rebuy

  lemma {:induction false} WithoutMembers(symbols: seq<string>, s: string, x: string)
    ensures x in Without(symbols, s) <==> x in symbols && x != s
  {
    if symbols != [] {
      WithoutMembers(symbols[1..], s, x);
    }
  }

  /** Some asset is to be bought, beside the sweep symbol, and may be. */
  ghost predicate NeedsFunding(c: Cycle, p: Params, v: PlanView)
    requires v.Covers()
  {
    && !p.smallAccountBlocked && !c.buysBlocked
    && exists s :: s in v.assets && s != p.sweep && IsShort(s, p, v)
  }

  /** The sweep sale is considered. */
  ghost predicate MaySweep(c: Cycle, p: Params, v: PlanView)
    requires v.Covers()
  {
    && !c.book.halted && !c.sellSubmitted && NeedsFunding(c, p, v)
    && p.sweep != "" && p.sweep in v.sellable && v.sellable[p.sweep] > 0.0
  }

  lemma SweepOpenExactly(c: Cycle, p: Params, v: PlanView)
    requires v.Covers()
    ensures SweepOpen(c, p, v) <==> MaySweep(c, p, v)
  {
    var candidates := Candidates(0, p, v);
    var funded := Without(candidates, p.sweep);
    CandidateMembers(p, v);
    forall x ensures x in funded <==> x in candidates && x != p.sweep {
      WithoutMembers(candidates, p.sweep, x);
    }
    if funded != [] {
      assert funded[0] in funded;
    }
  }

  /** The sale of the whole sweep holding, at market. */
  predicate SweepsAt(p: Params, v: PlanView, price: real, t: Ticket)
    requires p.sweep in v.sellable
  {
    t == Ticket(Intent(MarketSymbol(p.sweep, p.suffix), Sell, v.sellable[p.sweep], Market, None), price, price)
  }

  /** The sweep symbol is sold exactly when its sale is considered, it has a positive quote, and the
      sale is found worth making for some buy; a sale that is not taken is not waited for. */
  ghost predicate SweepTurn(c: Cycle, d: Cycle, p: Params, v: PlanView, m: Outside)
    requires v.Covers()
  {
    var price := m.quote(c.quotes);
    if MaySweep(c, p, v) && price.Some? && price.value > 0.0 then
      var quotes := c.quotes + 1 + |Funding(c, p, v)|;
      if m.sellSweep then
        exists t :: SweepsAt(p, v, price.value, t) && SellPlaced(p.sweep, c, d, quotes, p, m, t, false)
      else d == c.(quotes := quotes)
    else d == c.(quotes := c.quotes + if MaySweep(c, p, v) then 1 else 0)
  }

  lemma SellSweepTurns(c: Cycle, p: Params, v: PlanView, m: Outside)
    requires v.Covers()
    ensures SweepTurn(c, SellSweep(c, p, v, m), p, v, m)
  {
    SweepOpenExactly(c, p, v);
    var (asked, t) := AskSweep(c, p, v, m);
    if t.Some? {
      PlaceSellExactly(p.sweep, c, asked, p, m, t.value);
    }
  }

  /** The rebuy of the sweep symbol is open: nothing halted, it was not sold in this cycle, the plan
      holds it, and it has a target or no substitute. */
  predicate MayRebuy(c: Cycle, p: Params, v: PlanView)
  {
    && !c.book.halted && !c.sweepSold && !p.smallAccountBlocked
    && p.sweep != "" && p.sweep in v.assets
    && (v.sweepSubstituted ==> p.sweep in v.targets && v.targets[p.sweep] > 0.0)
  }

  /** The cash is more than two shares at this quote, and not below the threshold. */
  predicate HasRest(c: Cycle, p: Params, price: real)
  {
    price > 0.0 && c.investable > 2.0 * price && (p.substituteThreshold > 0.0 ==> c.investable >= p.substituteThreshold)
  }

  /** What the cash and the estimate allow of the sweep symbol. */
  function RebuyBound(c: Cycle, p: Params, price: real, estimate: real): real
  {
    Min(Ratio(c.investable, LimitPrice(p.sweep, p, price)), estimate)
  }

  predicate IsRebuyAsked(c: Cycle, p: Params, v: PlanView, m: Outside)
  {
    MayRebuy(c, p, v) && m.quote(c.quotes).Some? && HasRest(c, p, m.quote(c.quotes).value)
  }

  predicate IsRebought(c: Cycle, p: Params, v: PlanView, m: Outside)
  {
    && IsRebuyAsked(c, p, v, m) && m.estimate(c.estimates).Some?
    && LotOf(p.sweep, p) <= RebuyBound(c, p, m.quote(c.quotes).value, m.estimate(c.estimates).value)
  }

  /** A limit buy of the largest whole number of lots. */
  ghost predicate RebuysAt(c: Cycle, p: Params, price: real, estimate: real, t: Ticket)
  {
    && t.intent.symbol == MarketSymbol(p.sweep, p.suffix) && t.intent.side == Buy
    && t.intent.kind == Limit && t.intent.limitPrice == Some(LimitPrice(p.sweep, p, price))
    && t.quote == price && t.reference == LimitPrice(p.sweep, p, price)
    && t.intent.quantity > 0.0 && IsLargest(t.intent.quantity, LotOf(p.sweep, p), RebuyBound(c, p, price, estimate))
  }

  ghost predicate RebuyPlaced(c: Cycle, d: Cycle, p: Params, m: Outside, t: Ticket)
  {
    var step := BuyStep(p, t.intent.symbol);
    var q := FloorToStep(t.intent.quantity, step);
    && IsLargest(q, step, t.intent.quantity) && Places(c, d, p, m, t, q)
    && d == c.(book := d.book, dryRuns := d.dryRuns, quotes := c.quotes + 1, estimates := c.estimates + 1,
               actionDone := c.actionDone || IsTaken(c, d, p))
  }

  /** The rebuy: one quote if it is open, one estimate if enough cash is left, and its order if a
      lot fits. */
  ghost predicate RebuyTurn(c: Cycle, d: Cycle, p: Params, v: PlanView, m: Outside)
  {
    if IsRebought(c, p, v, m) then
      exists t ::
        RebuysAt(c, p, m.quote(c.quotes).value, m.estimate(c.estimates).value, t) && RebuyPlaced(c, d, p, m, t)
    else d == c.(quotes := c.quotes + (if MayRebuy(c, p, v) then 1 else 0),
                 estimates := c.estimates + if IsRebuyAsked(c, p, v, m) then 1 else 0)
  }

  /** Whole shares first, then lots, is lots of what the bound allows. */
  lemma LotsOfMin(a: real, b: real, lot: int)
    ensures FloorToLot(Min(FloorToStep(a, 1.0), b), lot) == FloorToLot(Min(a, b), lot)
  {
    FloorOfMin(a, b, 1.0);
    FloorWholeThenLot(Min(FloorToStep(a, 1.0), b), lot);
    FloorWholeThenLot(Min(a, b), lot);
  }

  lemma LimitPriceExactly(s: string, p: Params, price: real)
    ensures LimitPrice(s, p, price) == LimitBuyPrice(p, s, price)
  {
  }

  lemma RebuyTicketExactly(c: Cycle, p: Params, price: real, estimate: real)
    ensures var t := RebuyTicket(c, p, price, estimate);
            && (t.Some? <==> LotOf(p.sweep, p) <= RebuyBound(c, p, price, estimate))
            && (t.Some? ==> RebuysAt(c, p, price, estimate, t.value))
  {
    LimitPriceExactly(p.sweep, p, price);
    RebuySizedWith(c, p, price, LimitPrice(p.sweep, p, price), estimate);
  }

  lemma RebuySizedWith(c: Cycle, p: Params, price: real, reference: real, estimate: real)
    requires reference == LimitPrice(p.sweep, p, price) == LimitBuyPrice(p, p.sweep, price)
    ensures var t := RebuyTicket(c, p, price, estimate);
            && (t.Some? <==> LotOf(p.sweep, p) <= RebuyBound(c, p, price, estimate))
            && (t.Some? ==> RebuysAt(c, p, price, estimate, t.value))
  {
    var paid := Ratio(c.investable, reference);
    LotsOfMin(paid, estimate, LotFor(p.lots, p.sweep));
    FloorIsLargest(Min(paid, estimate), LotOf(p.sweep, p));
  }

  lemma AskRebuyExactly(c: Cycle, p: Params, v: PlanView, m: Outside)
    ensures var (asked, t) := AskRebuy(c, p, v, m);
            && asked == c.(quotes := c.quotes + (if MayRebuy(c, p, v) then 1 else 0),
                           estimates := c.estimates + if IsRebuyAsked(c, p, v, m) then 1 else 0)
            && (t.Some? <==> IsRebought(c, p, v, m))
            && (t.Some? ==> RebuysAt(c, p, m.quote(c.quotes).value, m.estimate(c.estimates).value, t.value))
  {
    var price, estimate := m.quote(c.quotes), m.estimate(c.estimates);
    assert TailOpen(c, p, v) <==> MayRebuy(c, p, v);
    if IsRebuyAsked(c, p, v, m) && estimate.Some? {
      RebuyTicketExactly(c, p, price.value, estimate.value);
    }
  }

  lemma RebuyTurns(c: Cycle, p: Params, v: PlanView, m: Outside)
    ensures RebuyTurn(c, Rebuy(c, p, v, m), p, v, m)
  {
    var (asked, t) := AskRebuy(c, p, v, m);
    AskRebuyExactly(c, p, v, m);
    if t.Some? {
      PlaceRebuyExactly(c, asked, p, m, t.value);
    }
  }

  lemma PlaceRebuyExactly(c: Cycle, asked: Cycle, p: Params, m: Outside, t: Ticket)
    requires !c.book.halted && asked == c.(quotes := c.quotes + 1, estimates := c.estimates + 1)
    requires t.intent.side == Buy && t.intent.kind == Limit
    ensures RebuyPlaced(c, PlaceRebuy(asked, p, m, t), p, m, t)
  {
    BuyStepIsPositive(p, t.intent.symbol);
    FloorIsLargest(t.intent.quantity, BuyStep(p, t.intent.symbol));
    PlacePlaces(asked, p, m, t);
  }

  // ----- main result

  /** The main buys are allowed at all: no halt, small account or new-risk block; cash; no pending
      release that the candidates could not wait for; and no negative cash in a cash-only account. */
  predicate MayBuy(c: Cycle, p: Params, v: PlanView, m: Outside)
    requires v.Covers()
  {
    && !c.book.halted && !p.smallAccountBlocked && !c.buysBlocked && c.investable > 0.0
    && (p.cashOnly ==> c.liquid >= 0.0)
    && (p.cashOnly && c.releases != [] ==>
          EstimatedCost(Candidates(0, p, v), c.quotes, c, p, v, m) <= c.investable)
  }

  /** What a candidate is expected to cost: in fractional mode its budget; in whole shares the largest
      number of steps that the budget pays, or the one share that tops up. */
  lemma CandidateCostExactly(s: string, c: Cycle, p: Params, v: PlanView, price: Option<real>)
    requires v.Covers() && s in v.assets
    ensures var cost := CandidateCost(s, c, p, v, price);
            && (price.None? ==> cost == 0.0)
            && (price.Some? && p.fractional ==> cost == if Budget(s, c, v) >= 1.0 then Budget(s, c, v) else 0.0)
            && (price.Some? && !p.fractional ==>
                  var reference := SizedAt(s, p, v, price.value);
                  if PaysStep(s, c, p, v, reference) then
                    exists q :: IsLargest(q, StepOf(s, p), Budget(s, c, v) / reference) && cost == Times(q, reference)
                  else cost == if TopsUp(s, c, p, v, reference) then reference else 0.0)
  {
    if price.Some? && !p.fractional {
      var reference := SizedAt(s, p, v, price.value);
      SizedExactly(s, p, v, price.value);
      BuyStepIsPositive(p, MarketSymbol(s, p.suffix));
      PlannedExactly(v.targets[s], v.values[s], v.quantities[s], Budget(s, c, v), c.investable, reference, StepOf(s, p),
                     c.sellSubmitted);
      TimesSucc(0, reference);
      if PaysStep(s, c, p, v, reference) {
        FloorIsLargest(Budget(s, c, v) / reference, StepOf(s, p));
      }
    }
  }

  /** The candidates are expected to cost what each costs, one quote after the other. */
  lemma {:induction false} EstimateAdds(a: seq<string>, b: seq<string>, n: nat, c: Cycle, p: Params, v: PlanView,
                                        m: Outside)
    requires v.Covers() && (forall s :: s in a ==> s in v.assets) && forall s :: s in b ==> s in v.assets
    ensures EstimatedCost(a + b, n, c, p, v, m)
            == EstimatedCost(a, n, c, p, v, m) + EstimatedCost(b, n + |a|, c, p, v, m)
    ensures |a| == 1 ==> EstimatedCost(a, n, c, p, v, m) == CandidateCost(a[0], c, p, v, m.quote(n))
    decreases |a|
  {
    if a == [] {
      assert a + b == b;
    } else {
      assert (a + b)[1..] == a[1..] + b;
      EstimateAdds(a[1..], b, n + 1, c, p, v, m);
    }
  }

  lemma AllowedExactly(c: Cycle, p: Params, v: PlanView, m: Outside)
    requires v.Covers()
    ensures AllowedBuys(c, p, v, m) == if MayBuy(c, p, v, m) then Candidates(0, p, v) else []
  {
  }

  /** What the states of a cycle's trades are, phase by phase. */
  datatype Phases = Phases(sells: seq<Cycle>, swept: Cycle, buys: seq<Cycle>)

  /** The sell side: every asset has its turn, then the sweep symbol. */
  ghost predicate SellSide(x: Phases, p: Params, v: PlanView, gate: Option<Gate>, m: Outside)
    requires v.Covers()
  {
    && SellsInTurn(x.sells, 0, p, v, m) && x.sells[0] == Start(v, gate)
    && SweepTurn(x.sells[|x.sells| - 1], x.swept, p, v, m)
  }

  /** The buy side, from a state and a plan: every candidate that is allowed has its turn; then the
      sweep symbol is bought back. */
  ghost predicate BuysFrom(c: Cycle, buys: seq<Cycle>, end: Cycle, p: Params, v: PlanView, m: Outside)
    requires v.Covers()
  {
    && BuysInTurn(buys, if MayBuy(c, p, v, m) then Candidates(0, p, v) else [], p, v, m)
    && buys[0] == c.(quotes := c.quotes + QuotesAsked(c, p, v))
    && RebuyTurn(buys[|buys| - 1], end, p, v, m)
  }

  /** ... which are those after the refresh. */
  ghost predicate BuySide(x: Phases, end: Cycle, p: Params, v: PlanView, m: Outside)
  {
    && RefreshedView(x.swept, p, v, m).Covers()
    && BuysFrom(Refreshed(x.swept, p, m), x.buys, end, p, RefreshedView(x.swept, p, v, m), m)
  }

  /** What a cycle trades, in full. Every asset in excess is sold, in plan order; the sweep symbol
      is sold to fund buys if that was found worth it; after the refresh every short asset that the
      gates allow is bought, in plan order; and the rest goes into the sweep symbol. The turns say
      exactly when an order is placed, and that it is for the largest quantity that fits; only a
      halt leaves assets without their turn. */
  lemma CycleInTurn(p: Params, v: PlanView, gate: Option<Gate>, m: Outside) returns (x: Phases)
    requires v.Covers() && RefreshesCover(m)
    ensures SellSide(x, p, v, gate, m) && BuySide(x, Execute(false, p, v, gate, m), p, v, m)
  {
    ExecuteExactly(p, v, gate, m, SellSweep(SellFrom(0, Start(v, gate), p, v, m), p, v, m));
    x := SidesInTurn(p, v, gate, m, Execute(false, p, v, gate, m));
  }

  lemma SidesInTurn(p: Params, v: PlanView, gate: Option<Gate>, m: Outside, end: Cycle) returns (x: Phases)
    requires v.Covers()
    requires var swept := SellSweep(SellFrom(0, Start(v, gate), p, v, m), p, v, m);
             && RefreshedView(swept, p, v, m).Covers()
             && var c, view := Refreshed(swept, p, m), RefreshedView(swept, p, v, m);
                end == Rebuy(BuyPhase(c, p, view, m), p, view, m)
    ensures SellSide(x, p, v, gate, m) && BuySide(x, end, p, v, m)
  {
    var sells, swept := SellSideTurns(p, v, gate, m);
    var buys := BuySideTurns(Refreshed(swept, p, m), p, RefreshedView(swept, p, v, m), m);
    x := Phases(sells, swept, buys);
  }

  lemma SellSideTurns(p: Params, v: PlanView, gate: Option<Gate>, m: Outside) returns (sells: seq<Cycle>, swept: Cycle)
    requires v.Covers()
    ensures SellsInTurn(sells, 0, p, v, m) && sells[0] == Start(v, gate)
    ensures SweepTurn(sells[|sells| - 1], swept, p, v, m)
    ensures swept == SellSweep(SellFrom(0, Start(v, gate), p, v, m), p, v, m)
  {
    sells := SellFromTurns(0, Start(v, gate), p, v, m);
    swept := SellSweep(sells[|sells| - 1], p, v, m);
    SellSweepTurns(sells[|sells| - 1], p, v, m);
  }

  lemma ExecuteExactly(p: Params, v: PlanView, gate: Option<Gate>, m: Outside, swept: Cycle)
    requires v.Covers() && RefreshesCover(m) && swept == SellSweep(SellFrom(0, Start(v, gate), p, v, m), p, v, m)
    ensures RefreshedView(swept, p, v, m).Covers()
    ensures var c, view := Refreshed(swept, p, m), RefreshedView(swept, p, v, m);
            Execute(false, p, v, gate, m) == Rebuy(BuyPhase(c, p, view, m), p, view, m)
  {
    RefreshedCovers(swept, p, v, m);
  }

  lemma BuySideTurns(c: Cycle, p: Params, v: PlanView, m: Outside) returns (buys: seq<Cycle>)
    requires v.Covers()
    ensures BuysFrom(c, buys, Rebuy(BuyPhase(c, p, v, m), p, v, m), p, v, m)
  {
    AllowedExactly(c, p, v, m);
    var asked := c.(quotes := c.quotes + QuotesAsked(c, p, v));
    buys := BuyFromTurns(AllowedBuys(c, p, v, m), asked, p, v, m);
    assert buys[|buys| - 1] == BuyPhase(c, p, v, m);
    RebuyTurns(BuyPhase(c, p, v, m), p, v, m);
  }
}
