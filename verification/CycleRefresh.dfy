/** What a cycle takes from the refreshes after a sell. */
module CycleRefresh {
  import opened Wrappers

  import BrokerFacts
  import Quantity
  import opened RebalanceCycle

  // ----- folding observations

  /** The greatest of a base and of the values of some observations. */
  ghost predicate Greatest(r: real, base: real, first: nat, last: nat, value: nat -> real)
  {
    && base <= r
    && (forall n: nat :: first <= n <= last ==> value(n) <= r)
    && (r == base || exists n: nat :: first <= n <= last && value(n) == r)
  }

  ghost predicate AnyOf(r: bool, base: bool, first: nat, last: nat, flag: nat -> bool)
  {
    r <==> base || exists n: nat :: first <= n <= last && flag(n)
  }

  /** The least of the scales that are given; none when none is. */
  ghost predicate LeastScale(r: Option<real>, base: Option<real>, first: nat, last: nat, scale: nat -> Option<real>)
  {
    && (base.Some? ==> r.Some? && r.value <= base.value)
    && (forall n: nat :: first <= n <= last && scale(n).Some? ==> r.Some? && r.value <= scale(n).value)
    && (r == base || exists n: nat :: first <= n <= last && scale(n) == r)
  }

  // What the refreshes show.

  function CashSeen(m: Outside): nat -> real { (n: nat) => m.refresh(n).view.investable }

  function ReleasesSeen(sells: seq<BrokerFacts.Order>, m: Outside): nat -> real
  {
    (n: nat) => ReleasedValue(sells, |sells|, m.refresh(n).fills)
  }

  function BlocksSeen(m: Outside): nat -> bool { (n: nat) => m.refresh(n).blocked }

  function BarsSeen(m: Outside): nat -> bool
  {
    (n: nat) => m.refresh(n).gate.Some? && m.refresh(n).gate.value.buyProhibited
  }

  function ScalesSeen(m: Outside): nat -> Option<real>
  {
    (n: nat) => if m.refresh(n).gate.Some? then m.refresh(n).gate.value.scale else None
  }

  /** Every observation between the first and the last is folded in. */
  ghost predicate FoldsAll(f: Fold, base: Fold, first: nat, last: nat, sells: seq<BrokerFacts.Order>, m: Outside)
  {
    && Greatest(f.best, base.best, first, last, CashSeen(m))
    && Greatest(f.released, base.released, first, last, ReleasesSeen(sells, m))
    && AnyOf(f.halted, base.halted, first, last, BlocksSeen(m))
    && AnyOf(f.buysBlocked, base.buysBlocked, first, last, BarsSeen(m))
    && LeastScale(f.scale, base.scale, first, last, ScalesSeen(m))
  }

  lemma GreatestStep(r: real, base: real, first: nat, last: nat, value: nat -> real)
    requires first < last && Greatest(r, Quantity.Max(base, value(first)), first + 1, last, value)
    ensures Greatest(r, base, first, last, value)
  {
  }

  lemma AnyStep(r: bool, base: bool, first: nat, last: nat, flag: nat -> bool)
    requires first < last && AnyOf(r, base || flag(first), first + 1, last, flag)
    ensures AnyOf(r, base, first, last, flag)
  {
  }

  lemma LeastStep(r: Option<real>, base: Option<real>, first: nat, last: nat, scale: nat -> Option<real>)
    requires first < last && LeastScale(r, MinScale(base, scale(first)), first + 1, last, scale)
    ensures LeastScale(r, base, first, last, scale)
  {
  }

  /** The refresh loop folds in every observation it makes, and it stops at the first one that
      shows more investable cash than before, or at the last attempt. */
  lemma {:induction false} RefreshFolds(attempt: nat, count: nat, previous: real, base: Fold,
                                        sells: seq<BrokerFacts.Order>, m: Outside)
    requires attempt < count
    ensures var (f, last) := RefreshFrom(attempt, count, previous, base, sells, m);
            && attempt <= last < count
            && FoldsAll(f, base, attempt, last, sells, m)
            && (forall n: nat :: attempt <= n < last ==> m.refresh(n).view.investable <= previous)
            && (m.refresh(last).view.investable > previous || last == count - 1)
    decreases count - attempt
  {
    var (f, last) := RefreshFrom(attempt, count, previous, base, sells, m);
    var seen := Observe(base, m.refresh(attempt), sells);
    if m.refresh(attempt).view.investable > previous || attempt + 1 == count {
      OneObservation(base, attempt, sells, m);
    } else {
      RefreshFolds(attempt + 1, count, previous, seen, sells, m);
      GreatestStep(f.best, base.best, attempt, last, CashSeen(m));
      GreatestStep(f.released, base.released, attempt, last, ReleasesSeen(sells, m));
      AnyStep(f.halted, base.halted, attempt, last, BlocksSeen(m));
      AnyStep(f.buysBlocked, base.buysBlocked, attempt, last, BarsSeen(m));
      LeastStep(f.scale, base.scale, attempt, last, ScalesSeen(m));
    }
  }

  lemma OneObservation(base: Fold, n: nat, sells: seq<BrokerFacts.Order>, m: Outside)
    ensures FoldsAll(Observe(base, m.refresh(n), sells), base, n, n, sells, m)
  {
    assert CashSeen(m)(n) == m.refresh(n).view.investable;
    assert ReleasesSeen(sells, m)(n) == ReleasedValue(sells, |sells|, m.refresh(n).fills);
    assert BlocksSeen(m)(n) == m.refresh(n).blocked;
    assert BarsSeen(m)(n) || !BarsSeen(m)(n);
    assert ScalesSeen(m)(n).Some? || ScalesSeen(m)(n).None?;
  }

  /** What the buy phase of a cycle starts with after a sell: halted, or barred from buying, if
      any refresh said so; the least scale seen; and the greatest of the earlier cash, of all
      cash observed, and of the earlier cash plus the greatest filled release, although plan and
      targets are those of the last refresh. */
  lemma RefreshedTakesAll(c: Cycle, p: Params, v: PlanView, m: Outside)
    requires Refreshes(c, p)
    ensures var after := Refreshed(c, p, m);
            var (f, last) := Folded(c, p, m); var sells := SubmittedSells(c.book.pending);
            && AnyOf(after.book.halted, false, 0, last, BlocksSeen(m))
            && AnyOf(after.buysBlocked, c.buysBlocked, 0, last, BarsSeen(m))
            && LeastScale(after.scale, c.scale, 0, last, ScalesSeen(m))
            && Greatest(f.released, 0.0, 0, last, ReleasesSeen(sells, m))
            && Greatest(after.investable, Quantity.Max(c.investable, c.investable + f.released), 0, last, CashSeen(m))
            && RefreshedView(c, p, v, m)
               == m.refresh(last).view.(targets := m.rescale(m.refresh(last).view, after.scale))
            && after.liquid == m.refresh(last).view.liquid
            && var attempts := if p.refreshAttempts < 1 then 1 else p.refreshAttempts;
               && last < attempts
               && (last == attempts - 1 || m.refresh(last).view.investable > c.investable)
               && forall n: nat :: n < last ==> m.refresh(n).view.investable <= c.investable
  {
    var base := Fold(c.investable, 0.0, c.book.halted, c.buysBlocked, c.scale);
    RefreshFolds(0, Attempts(p), c.investable, base, SubmittedSells(c.book.pending), m);
    var (f, last) := Folded(c, p, m);
    MoreCash(f.best, c.investable, f.released, last, CashSeen(m));
  }

  lemma MoreCash(best: real, previous: real, released: real, last: nat, value: nat -> real)
    requires Greatest(best, previous, 0, last, value)
    ensures Greatest(Quantity.Max(value(last), Quantity.Max(best, previous + released)),
                     Quantity.Max(previous, previous + released), 0, last, value)
  {
    var r := Quantity.Max(value(last), Quantity.Max(best, previous + released));
    if r != Quantity.Max(previous, previous + released) && value(last) != r {
      assert best == r;
    }
  }

  /** When there is a refresh, and what else it touches. It follows a submitted sell, unless the cycle
      is halted or sold on paper; a paper sale adds its proceeds to both sums of cash instead, and
      otherwise nothing changes. No order, and nothing noted of orders, changes in any case. */
  lemma RefreshedOnlyAfterSell(c: Cycle, p: Params, v: PlanView, m: Outside)
    ensures var after := Refreshed(c, p, m);
            var refreshes := c.sellSubmitted && !c.book.halted && !(p.dryRun && c.proceeds > 0.0);
            && (Refreshes(c, p) <==> refreshes)
            && (!refreshes ==> RefreshedView(c, p, v, m) == v)
            && (!refreshes && !(c.sellSubmitted && !c.book.halted) ==> after == c)
            && (!refreshes && c.sellSubmitted && !c.book.halted ==>
                  after == c.(liquid := Quantity.Max(0.0, c.liquid + c.proceeds),
                              investable := Quantity.Max(0.0, c.investable + c.proceeds)))
            && after == c.(liquid := after.liquid, investable := after.investable, scale := after.scale,
                           buysBlocked := after.buysBlocked, book := c.book.(halted := after.book.halted))
  {
  }

  // ----- what a refresh counts as released

  /** What one order releases: with a broker id and a fill read, the filled quantity at its price;
      whether the status says traded makes no difference. */
  function ReleaseOf(order: BrokerFacts.Order, fill: Option<Fill>): real
  {
    if order.brokerId == "" || fill.None? then 0.0
    else Quantity.Times(Quantity.Max(0.0, fill.value.quantity), Quantity.Max(0.0, fill.value.price))
  }

  /** Released is what every order releases. */
  lemma ReleasesAdd(orders: seq<BrokerFacts.Order>, count: nat, fills: nat -> Option<Fill>)
    requires count < |orders|
    ensures ReleasedValue(orders, 0, fills) == 0.0
    ensures ReleasedValue(orders, count + 1, fills)
            == ReleasedValue(orders, count, fills) + ReleaseOf(orders[count], fills(count))
  {
    if fills(count).Some? {
      Quantity.TimesSucc(0, Quantity.Max(0.0, fills(count).value.price));
    }
  }

  /** The orders that are read after a sell are the pending sells of known outcome. */
  lemma {:induction false} SubmittedSellsMembers(orders: seq<BrokerFacts.Order>, order: BrokerFacts.Order)
    ensures order in SubmittedSells(orders) <==>
            order in orders && order.side == BrokerFacts.Sell && order.submission != BrokerFacts.Unknown
  {
    if orders != [] {
      SubmittedSellsMembers(orders[1..], order);
    }
  }
}
