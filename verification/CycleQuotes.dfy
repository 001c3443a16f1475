/** The cash of a cycle at the quoted prices: a market buy is sized at the quote rounded to cents
    and charged at the quote. */
module CycleQuotes {
  import opened Wrappers

  import opened BrokerFacts
  import opened Quantity
  import opened RebalanceCycle
  import CycleFacts
  import CycleCash

  /** The buys not rejected: what they are worth at limit and quoted prices, and the shares
      bought at market. */
  function Charged(calls: seq<Call>): (real, real)
  {
    if calls == [] then (0.0, 0.0)
    else
      var (money, shares) := Charged(calls[..|calls| - 1]);
      var call := calls[|calls| - 1];
      if call.intent.side != Buy || call.IsRejected() then (money, shares)
      else if call.intent.kind == Limit then (money + Times(call.intent.quantity, call.reference), shares)
      else (money + Times(call.intent.quantity, call.quote), shares + call.intent.quantity)
  }

  lemma QuoteNearReference(quantity: real, quote: real)
    requires 0.0 <= quantity
    ensures Times(quantity, quote) <= Times(quantity, Min(quote, RoundCents(quote))) + 0.005 * quantity
  {
    RoundCentsNear(quote);
    var low := Min(quote, RoundCents(quote));
    TimesMonotone(quote, low + 0.005, quantity);
    assert Times(quantity, low + 0.005) == Times(quantity, low) + 0.005 * quantity;
  }

  lemma {:induction false} ChargedNearCommitted(calls: seq<Call>)
    requires CycleCash.Priced(calls)
    ensures Charged(calls).0 <= CycleCash.Committed(calls) + 0.005 * Charged(calls).1
  {
    if calls != [] {
      var call := calls[|calls| - 1];
      ChargedNearCommitted(calls[..|calls| - 1]);
      if call.intent.side == Buy && call.intent.kind == Market {
        QuoteNearReference(call.intent.quantity, call.quote);
      }
    }
  }

  /** At the quoted prices a cycle may exceed its cash, by at most half a cent per share bought
      at market. */
  lemma BuysAtQuoteNearInvestableCash(blocked: bool, p: Params, v: PlanView, gate: Option<Gate>, m: Outside)
    requires v.Covers() && RefreshesCover(m)
    ensures var (money, shares) := Charged(Execute(blocked, p, v, gate, m).book.calls);
            money <= Max(0.0, BeforeBuys(p, v, gate, m).investable) + 0.005 * shares
  {
    CycleCash.BuysWithinInvestableCash(blocked, p, v, gate, m);
    ChargedNearCommitted(Execute(blocked, p, v, gate, m).book.calls);
  }

  // ----- which quotes keep to the cash

  /** The quote is not above its rounding to cents, or it rounds to nothing and nothing is bought. */
  predicate Harmless(quote: real)
  {
    quote <= RoundCents(quote) || RoundCents(quote) <= 0.0
  }

  /** Every quote of the cycle passes this test. */
  ghost predicate AllQuotes(m: Outside, test: real -> bool)
  {
    forall n: nat :: m.quote(n).Some? ==> test(m.quote(n).value)
  }

  /** The market buys that the broker took were quoted harmlessly; sells and limit buys may have
      had any quote. */
  ghost predicate HarmlessBuys(calls: seq<Call>)
  {
    forall i ::
      0 <= i < |calls| && calls[i].intent.side == Buy && calls[i].intent.kind == Market && !calls[i].IsRejected() ==>
        Harmless(calls[i].quote)
  }

  lemma {:induction false} HarmlessCharges(calls: seq<Call>)
    requires CycleCash.Priced(calls) && HarmlessBuys(calls)
    ensures Charged(calls).0 <= CycleCash.Committed(calls)
  {
    if calls != [] {
      HarmlessCharges(calls[..|calls| - 1]);
    }
  }

  /** If its market buys have such quotes, a cycle is charged no more than the investable cash. */
  lemma HarmlessQuotesKeepCash(blocked: bool, p: Params, v: PlanView, gate: Option<Gate>, m: Outside)
    requires v.Covers() && RefreshesCover(m) && HarmlessBuys(Execute(blocked, p, v, gate, m).book.calls)
    ensures Charged(Execute(blocked, p, v, gate, m).book.calls).0 <= Max(0.0, BeforeBuys(p, v, gate, m).investable)
  {
    CycleCash.BuysWithinInvestableCash(blocked, p, v, gate, m);
    HarmlessCharges(Execute(blocked, p, v, gate, m).book.calls);
  }

  lemma QuotedHarmlessly(blocked: bool, p: Params, v: PlanView, gate: Option<Gate>, m: Outside)
    requires v.Covers() && RefreshesCover(m) && AllQuotes(m, Harmless)
    ensures HarmlessBuys(Execute(blocked, p, v, gate, m).book.calls)
  {
    var calls := Execute(blocked, p, v, gate, m).book.calls;
    CycleFacts.ExecuteLedger(blocked, p, v, gate, m);
    forall i | 0 <= i < |calls| ensures Harmless(calls[i].quote) {
      assert CycleFacts.AtQuote(calls[i].quote, m);
    }
  }

  // ----- any other quote breaks the cash bound

  const ONE_ASSET := Params(false, false, false, map[], ".US", 0.0, 0.0, 1.0, (s: string) => 1.0, 1, "", false)

  /** A plan to buy one share for exactly the cash. */
  function OneShare(cash: real): PlanView
  {
    PlanView(["AAA"], map["AAA" := 0.0], map["AAA" := 0.0], map["AAA" := 0.0], map["AAA" := cash],
             {}, 0.0, 0.0, cash, cash, false)
  }

  function QuotedAt(quote: real): Outside
  {
    Outside((n: nat) => Some(quote), (n: nat) => Some(1.0), (n: nat) => Report(Submitted, "id"),
            (n: nat) => false, false,
            (n: nat) => Refresh(OneShare(quote), false, None, (k: nat) => None),
            (v: PlanView, scale: Option<real>) => v.targets)
  }

  lemma OneShareFits(cash: real)
    requires cash > 0.0
    ensures FloorToStep(cash / cash, 1.0) == 1.0
    ensures FloorToStep(1.0, 1.0) == 1.0 && Times(1.0, cash) == cash
  {
    assert cash / cash == 1.0;
    assert Steps(1.0, 1.0) == 1;
  }

  lemma OneShareTicket(quote: real)
    requires RoundCents(quote) > 0.0
    ensures var cash := RoundCents(quote); var v := OneShare(cash);
            && v.Covers() && "AAA" in v.assets
            && AskBuy("AAA", Start(v, None), ONE_ASSET, v, QuotedAt(quote)).1
               == Some(Ticket(Intent("AAA.US", Buy, 1.0, Market, None), quote, cash))
  {
    var cash := RoundCents(quote);
    var v := OneShare(cash);
    var c := Start(v, None);
    assert v.assets[0] == "AAA";
    OneShareFits(cash);
    assert MarketSymbol("AAA", ".US") == "AAA.US";
    assert PlannedQuantity(cash, 0.0, 0.0, cash, cash, cash, 1.0, false) == 1.0;
    assert Plan("AAA", c, ONE_ASSET, v, cash) == (1.0, cash);
    assert BuyQuantity(cash, cash, 1.0, 1.0) == 1.0;
  }

  lemma OneShareSellPhase(cash: real, m: Outside)
    requires cash > 0.0
    ensures var v := OneShare(cash); v.Covers() && SellPhase(ONE_ASSET, v, None, m) == Start(v, None)
  {
    var v := OneShare(cash);
    assert v.assets[0] == "AAA";
    assert SellFrom(0, Start(v, None), ONE_ASSET, v, m) == Start(v, None);
  }

  lemma OneShareBuyPhase(quote: real)
    requires RoundCents(quote) > 0.0
    ensures var v, m := OneShare(RoundCents(quote)), QuotedAt(quote);
            v.Covers() && BuyPhase(Start(v, None), ONE_ASSET, v, m) == BuyOne("AAA", Start(v, None), ONE_ASSET, v, m)
  {
    var v, m := OneShare(RoundCents(quote)), QuotedAt(quote);
    var c := Start(v, None);
    assert v.assets[0] == "AAA";
    assert Candidates(0, ONE_ASSET, v) == ["AAA"];
    assert AllowedBuys(c, ONE_ASSET, v, m) == ["AAA"] && QuotesAsked(c, ONE_ASSET, v) == 0;
    assert c.(quotes := c.quotes + 0) == c;
    var one := ["AAA"];
    assert one[1..] == [];
    assert BuyFrom([], BuyOne("AAA", c, ONE_ASSET, v, m), ONE_ASSET, v, m) == BuyOne("AAA", c, ONE_ASSET, v, m);
    assert BuyFrom(one, c, ONE_ASSET, v, m) == BuyFrom(one[1..], BuyOne(one[0], c, ONE_ASSET, v, m), ONE_ASSET, v, m);
  }

  /** The share is bought and charged at the quote. */
  lemma OneShareIsCharged(quote: real)
    requires RoundCents(quote) > 0.0
    ensures var v, m := OneShare(RoundCents(quote)), QuotedAt(quote);
            && v.Covers() && RefreshesCover(m)
            && BeforeBuys(ONE_ASSET, v, None, m).investable == RoundCents(quote)
            && Charged(Execute(false, ONE_ASSET, v, None, m).book.calls).0 == quote
  {
    var cash := RoundCents(quote);
    var v, m := OneShare(cash), QuotedAt(quote);
    var c := Start(v, None);
    OneShareSellPhase(cash, m);
    OneShareBuyPhase(quote);
    OneShareTicket(quote);
    OneShareFits(cash);
    var t := Ticket(Intent("AAA.US", Buy, 1.0, Market, None), quote, cash);
    CycleFacts.BuyOneIsPass("AAA", c, ONE_ASSET, v, m);
    var bought := BuyOne("AAA", c, ONE_ASSET, v, m);
    assert SubmitQuantity(ONE_ASSET, t.intent) == 1.0;
    var call := CallOf(c.book, ONE_ASSET, m, t);
    assert bought.book.calls == [call];
    assert [call][..0] == [];
    assert Rebuy(bought, ONE_ASSET, v, m) == bought;
  }

  /** A cycle stays within its cash at this quote. */
  ghost predicate WithinCash(p: Params, v: PlanView, gate: Option<Gate>, m: Outside)
    requires v.Covers() && RefreshesCover(m)
  {
    Charged(Execute(false, p, v, gate, m).book.calls).0 <= Max(0.0, BeforeBuys(p, v, gate, m).investable)
  }

  /** Exactly these quotes are safe: every cycle quoted at this price only is charged within its
      cash if and only if the price is not above its rounding to cents, or rounds to nothing. */
  lemma QuoteKeepsCashWhenHarmless(quote: real)
    ensures Harmless(quote) <==>
            forall p: Params, v: PlanView, gate: Option<Gate>, m: Outside ::
              v.Covers() && RefreshesCover(m) && AllQuotes(m, (q: real) => q == quote) ==> WithinCash(p, v, gate, m)
  {
    if Harmless(quote) {
      forall p: Params, v: PlanView, gate: Option<Gate>, m: Outside
        | v.Covers() && RefreshesCover(m) && AllQuotes(m, (q: real) => q == quote)
        ensures WithinCash(p, v, gate, m)
      {
        assert AllQuotes(m, Harmless);
        QuotedHarmlessly(false, p, v, gate, m);
        HarmlessQuotesKeepCash(false, p, v, gate, m);
      }
    } else {
      var v, m := OneShare(RoundCents(quote)), QuotedAt(quote);
      OneShareIsCharged(quote);
      assert !WithinCash(ONE_ASSET, v, None, m);
      assert AllQuotes(m, (q: real) => q == quote);
    }
  }

  /** Such quotes exist: at 100.004 a cycle with 100 in cash is charged 100.004. */
  lemma HarmfulQuote()
    ensures !Harmless(100.004)
    ensures var v, m := OneShare(100.0), QuotedAt(100.004);
            && v.Covers() && RefreshesCover(m) && BeforeBuys(ONE_ASSET, v, None, m).investable == 100.0
            && Charged(Execute(false, ONE_ASSET, v, None, m).book.calls).0 == 100.004
  {
    assert RoundCents(100.004) == 100.0;
    OneShareIsCharged(100.004);
  }
}
