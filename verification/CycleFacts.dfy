/** What a cycle records about the broker: pending orders, unknown outcomes and halts. */
module CycleFacts {
  import opened Wrappers

  import opened BrokerFacts
  import opened RebalanceCycle

  /** The outcome is unknown, or the order was taken and the hook after it failed. */
  predicate Stops(call: Call, hookFailed: bool)
  {
    call.IsUnknown() || (!call.IsRejected() && hookFailed)
  }

  /** The price is one of the quotes. */
  ghost predicate AtQuote(price: real, m: Outside)
  {
    exists n: nat :: m.quote(n) == Some(price)
  }

  /** The book of a cycle: every call was answered by the port in order, and sized with a quote; the pending orders are
      the calls not rejected; and nothing follows a call that halts the cycle. */
  ghost predicate BookInv(b: Book, m: Outside)
  {
    && (forall i :: 0 <= i < |b.calls| ==> b.calls[i].reply == m.reply(i) && AtQuote(b.calls[i].quote, m))
    && b.pending == PendingOf(b.calls)
    && (forall i :: 0 <= i < |b.calls| && Stops(b.calls[i], m.hookFails(i)) ==> i == |b.calls| - 1 && b.halted)
  }

  ghost predicate Ledger(c: Cycle, p: Params, m: Outside)
  {
    && BookInv(c.book, m)
    && (p.dryRun ==> c.book.calls == [])
    && (!p.dryRun ==> c.dryRuns == [])
    && (c.actionDone ==> p.dryRun || c.book.pending != [])
    && (c.sellSubmitted ==> c.actionDone)
  }

  lemma PlacedKeepsBook(b: Book, call: Call, m: Outside)
    requires BookInv(b, m) && !b.halted && call.reply == m.reply(|b.calls|) && AtQuote(call.quote, m)
    ensures BookInv(Placed(b, call, m.hookFails(|b.calls|)), m)
  {
    PendingOfAppend(b.calls, call);
  }

  // ----- one pass of any phase

  /** A pass only looks, or it places one ticket; nothing else touches the broker facts. */
  ghost predicate Pass(c: Cycle, after: Cycle, p: Params, m: Outside, t: Option<Ticket>)
  {
    && (t.Some? ==> AtQuote(t.value.quote, m))
    && after.book == (if t.Some? && !p.dryRun then Submit(c.book, p, m, t.value) else c.book)
    && (!p.dryRun ==> after.dryRuns == c.dryRuns)
    && after.actionDone == (c.actionDone || (t.Some? && Taken(c, p, m, t.value)))
    && after.sellSubmitted == (c.sellSubmitted || (t.Some? && t.value.intent.side == Sell && Taken(c, p, m, t.value)))
  }

  lemma PassKeepsLedger(c: Cycle, after: Cycle, p: Params, m: Outside, t: Option<Ticket>)
    requires Ledger(c, p, m) && Pass(c, after, p, m, t)
    ensures Ledger(after, p, m)
  {
    if !p.dryRun && t.Some? && Reaches(c.book, p, t.value) {
      PlacedKeepsBook(c.book, CallOf(c.book, p, m, t.value), m);
    }
  }

  /** The ticket of the cash-sweep sale, if it is made. */
  function SweepTicketOf(c: Cycle, p: Params, v: PlanView, m: Outside): Option<Ticket>
    requires v.Covers()
  {
    AskSweep(c, p, v, m).1
  }

  /** The ticket that the buy loop places for an asset, if it comes to that. */
  function BuyTicketOf(s: string, c: Cycle, p: Params, v: PlanView, m: Outside): Option<Ticket>
    requires v.Covers() && s in v.assets
  {
    AskBuy(s, c, p, v, m).1
  }

  /** The ticket of the tail rebuy, if it is made. */
  function RebuyTicketOf(c: Cycle, p: Params, v: PlanView, m: Outside): Option<Ticket>
  {
    AskRebuy(c, p, v, m).1
  }

  lemma PlaceSellIsPass(c: Cycle, s: string, p: Params, m: Outside, t: Ticket)
    requires t.intent.side == Sell && AtQuote(t.quote, m)
    ensures Pass(c, PlaceSell(c, s, p, m, t), p, m, Some(t))
  {
  }

  lemma SellTicketSells(s: string, p: Params, v: PlanView, price: real)
    requires v.Covers() && s in v.assets
    ensures var t := SellTicket(s, p, v, price); t.Some? ==> t.value.intent.side == Sell && t.value.quote == price
  {
  }

  lemma SellOneIsPass(s: string, c: Cycle, p: Params, v: PlanView, m: Outside)
    requires v.Covers() && s in v.assets
    ensures Pass(c, SellOne(s, c, p, v, m), p, m, SellTicketOf(s, c, p, v, m))
  {
    var t := SellTicketOf(s, c, p, v, m);
    if t.Some? {
      SellTicketSells(s, p, v, m.quote(c.quotes).value);
      SellOrWaitIsPass(c, SellAsked(s, c, p, v), s, p, m, t.value);
    }
  }

  lemma SellOrWaitIsPass(c: Cycle, asked: Cycle, s: string, p: Params, m: Outside, t: Ticket)
    requires asked == c.(quotes := asked.quotes) && t.intent.side == Sell && AtQuote(t.quote, m)
    ensures Pass(c, SellOrWait(asked, s, p, m, t), p, m, Some(t))
  {
    PlaceSellIsPass(asked, s, p, m, t);
  }

  lemma AskSweepOnlyAsks(c: Cycle, p: Params, v: PlanView, m: Outside)
    requires v.Covers()
    ensures var (asked, t) := AskSweep(c, p, v, m);
            && asked == c.(quotes := asked.quotes)
            && (t.Some? ==> && SweepOpen(c, p, v) && m.quote(c.quotes) == Some(t.value.quote)
                            && t.value == SweepTicket(p, v, t.value.quote))
  {
  }

  lemma SellSweepIsPass(c: Cycle, p: Params, v: PlanView, m: Outside)
    requires v.Covers()
    ensures Pass(c, SellSweep(c, p, v, m), p, m, SweepTicketOf(c, p, v, m))
    ensures SweepTicketOf(c, p, v, m).Some? ==> SweepTicketOf(c, p, v, m).value.intent.side == Sell
  {
    var (asked, t) := AskSweep(c, p, v, m);
    AskSweepOnlyAsks(c, p, v, m);
    if t.Some? {
      PlaceSellIsPass(asked, p.sweep, p, m, t.value);
    }
  }

  lemma PlaceBuyIsPass(c: Cycle, p: Params, m: Outside, t: Ticket)
    requires t.intent.side == Buy && AtQuote(t.quote, m)
    ensures Pass(c, PlaceBuy(c, p, m, t), p, m, Some(t))
  {
  }

  /** Asking changes no more than the counts of what was asked. */
  lemma AskBuyOnlyAsks(s: string, c: Cycle, p: Params, v: PlanView, m: Outside)
    requires v.Covers() && s in v.assets
    ensures var (asked, t) := AskBuy(s, c, p, v, m);
            && asked == c.(quotes := asked.quotes, estimates := asked.estimates)
            && (t.Some? ==> t.value.intent.side == Buy && m.quote(c.quotes) == Some(t.value.quote))
  {
  }

  lemma BuyOneIsPass(s: string, c: Cycle, p: Params, v: PlanView, m: Outside)
    requires v.Covers() && s in v.assets
    ensures Pass(c, BuyOne(s, c, p, v, m), p, m, BuyTicketOf(s, c, p, v, m))
    ensures var (asked, t) := AskBuy(s, c, p, v, m);
            && asked == c.(quotes := asked.quotes, estimates := asked.estimates)
            && (t.Some? ==> t.value.intent.side == Buy)
            && BuyOne(s, c, p, v, m) == if t.Some? then PlaceBuy(asked, p, m, t.value) else asked
  {
    var (asked, t) := AskBuy(s, c, p, v, m);
    AskBuyOnlyAsks(s, c, p, v, m);
    if t.Some? {
      PlaceBuyIsPass(asked, p, m, t.value);
    }
  }

  lemma AskRebuyOnlyAsks(c: Cycle, p: Params, v: PlanView, m: Outside)
    ensures var (asked, t) := AskRebuy(c, p, v, m);
            && asked == c.(quotes := asked.quotes, estimates := asked.estimates)
            && (t.Some? ==> t.value.intent.side == Buy && !c.book.halted && m.quote(c.quotes) == Some(t.value.quote))
  {
  }

  lemma PlaceRebuyIsPass(c: Cycle, p: Params, m: Outside, t: Ticket)
    requires t.intent.side == Buy && AtQuote(t.quote, m)
    ensures Pass(c, PlaceRebuy(c, p, m, t), p, m, Some(t))
  {
  }

  lemma RebuyIsPass(c: Cycle, p: Params, v: PlanView, m: Outside)
    ensures Pass(c, Rebuy(c, p, v, m), p, m, RebuyTicketOf(c, p, v, m))
    ensures var t := RebuyTicketOf(c, p, v, m); t.Some? ==> t.value.intent.side == Buy && !c.book.halted
  {
    var (asked, t) := AskRebuy(c, p, v, m);
    AskRebuyOnlyAsks(c, p, v, m);
    if t.Some? {
      PlaceRebuyIsPass(asked, p, m, t.value);
    }
  }

  // ----- the ledger of each phase

  lemma {:induction false} SellFromLedger(i: nat, c: Cycle, p: Params, v: PlanView, m: Outside)
    requires v.Covers() && Ledger(c, p, m)
    ensures Ledger(SellFrom(i, c, p, v, m), p, m)
    decreases |v.assets| - i
  {
    if i < |v.assets| && !c.book.halted {
      SellOneIsPass(v.assets[i], c, p, v, m);
      PassKeepsLedger(c, SellOne(v.assets[i], c, p, v, m), p, m, SellTicketOf(v.assets[i], c, p, v, m));
      SellFromLedger(i + 1, SellOne(v.assets[i], c, p, v, m), p, v, m);
    }
  }

  lemma {:induction false} RefreshKeepsHalt(attempt: nat, count: nat, previous: real, f: Fold, sells: seq<Order>,
                                            m: Outside)
    requires attempt < count
    ensures f.halted ==> RefreshFrom(attempt, count, previous, f, sells, m).0.halted
    decreases count - attempt
  {
    var seen := Observe(f, m.refresh(attempt), sells);
    if m.refresh(attempt).view.investable <= previous && attempt + 1 < count {
      RefreshKeepsHalt(attempt + 1, count, previous, seen, sells, m);
    }
  }

  lemma RefreshMakesNoCall(c: Cycle, p: Params, m: Outside)
    ensures Refreshed(c, p, m).book.calls == c.book.calls
  {
  }

  lemma RefreshedLedger(c: Cycle, p: Params, m: Outside)
    requires Ledger(c, p, m)
    ensures Ledger(Refreshed(c, p, m), p, m)
  {
    assert BookInv(c.book, m);
  }

  lemma {:induction false} BuyFromLedger(symbols: seq<string>, c: Cycle, p: Params, v: PlanView, m: Outside)
    requires v.Covers() && (forall s :: s in symbols ==> s in v.assets) && Ledger(c, p, m)
    ensures Ledger(BuyFrom(symbols, c, p, v, m), p, m)
    decreases |symbols|
  {
    if symbols != [] && !c.book.halted {
      BuyOneIsPass(symbols[0], c, p, v, m);
      PassKeepsLedger(c, BuyOne(symbols[0], c, p, v, m), p, m, BuyTicketOf(symbols[0], c, p, v, m));
      BuyFromLedger(symbols[1..], BuyOne(symbols[0], c, p, v, m), p, v, m);
    }
  }

  lemma LedgerIgnoresQuotes(c: Cycle, p: Params, m: Outside, quotes: nat)
    requires Ledger(c, p, m)
    ensures Ledger(c.(quotes := quotes), p, m)
  {
  }

  lemma BuyPhaseLedger(c: Cycle, p: Params, v: PlanView, m: Outside)
    requires v.Covers() && Ledger(c, p, m)
    ensures Ledger(BuyPhase(c, p, v, m), p, m)
  {
    var asked := c.(quotes := c.quotes + QuotesAsked(c, p, v));
    LedgerIgnoresQuotes(c, p, m, asked.quotes);
    assert Ledger(asked, p, m);
    BuyFromLedger(AllowedBuys(c, p, v, m), asked, p, v, m);
    assert BuyPhase(c, p, v, m) == BuyFrom(AllowedBuys(c, p, v, m), asked, p, v, m);
  }

  lemma BuySideLedger(c: Cycle, p: Params, v: PlanView, m: Outside)
    requires v.Covers() && Ledger(c, p, m)
    ensures Ledger(Rebuy(BuyPhase(c, p, v, m), p, v, m), p, m)
  {
    var bought := BuyPhase(c, p, v, m);
    BuyPhaseLedger(c, p, v, m);
    RebuyIsPass(bought, p, v, m);
    PassKeepsLedger(bought, Rebuy(bought, p, v, m), p, m, RebuyTicketOf(bought, p, v, m));
  }

  lemma SellPhaseLedger(p: Params, v: PlanView, gate: Option<Gate>, m: Outside)
    requires v.Covers()
    ensures Ledger(SellPhase(p, v, gate, m), p, m)
  {
    SellFromLedger(0, Start(v, gate), p, v, m);
    var sold := SellFrom(0, Start(v, gate), p, v, m);
    SellSweepIsPass(sold, p, v, m);
    PassKeepsLedger(sold, SellSweep(sold, p, v, m), p, m, SweepTicketOf(sold, p, v, m));
  }

  // ----- main results

  /** Every cycle keeps its ledger. */
  lemma ExecuteLedger(blocked: bool, p: Params, v: PlanView, gate: Option<Gate>, m: Outside)
    requires v.Covers() && RefreshesCover(m)
    ensures Ledger(Execute(blocked, p, v, gate, m), p, m)
  {
    if !blocked {
      SellPhaseLedger(p, v, gate, m);
      RefreshedCovers(SellPhase(p, v, gate, m), p, v, m);
      RefreshedLedger(SellPhase(p, v, gate, m), p, m);
      var view := BuyView(p, v, gate, m);
      BuySideLedger(BeforeBuys(p, v, gate, m), p, view, m);
    }
  }

  /** The executor's contract towards the command recorder: pending orders are exactly the
      calls not rejected, in call order; only the last call can have an unknown outcome, or a
      failed hook behind it; and a live cycle that did something has a pending order. */
  lemma CycleReportsFacts(blocked: bool, p: Params, v: PlanView, gate: Option<Gate>, m: Outside)
    requires v.Covers() && RefreshesCover(m)
    ensures var c := Execute(blocked, p, v, gate, m);
            && c.book.pending == PendingOf(c.book.calls)
            && UnknownOnlyLast(c.book.calls)
            && (!p.dryRun && c.actionDone ==> c.book.pending != [])
            && (p.dryRun || blocked ==> c.book.calls == [] && c.book.pending == [])
            && (forall i :: 0 <= i < |c.book.calls| && m.hookFails(i) && !c.book.calls[i].IsRejected() ==>
                  i == |c.book.calls| - 1)
  {
    ExecuteLedger(blocked, p, v, gate, m);
    var b := Execute(blocked, p, v, gate, m).book;
    forall i | 0 <= i < |b.calls| && (b.calls[i].IsUnknown() || (m.hookFails(i) && !b.calls[i].IsRejected()))
      ensures i == |b.calls| - 1
    {
      assert Stops(b.calls[i], m.hookFails(i));
    }
  }
}
