/** The verifier of funded research proposals: it recomputes the funding of a plan and compares
    every field of the proposal, money within a tolerance. */
module Phase5Verifier {
  import opened Quantity
  import opened Phase5Funding

  const TOLERANCE := 0.000001
  const POLICY := "fixed_45_05_49_01_vs_50_00_49_01_restricted_paid_cash_v3"
  const PLAN_SCOPE := "offline_research_open_price_simulation_only"
  const CANDIDATES := {
    "qqqm_tqqq_guard_boxx_fixed_research_v3", "qqqm_boxx_matched_defense_research_v3",
    "qqqm_tqqq_guard_boxx_fixed_scale_research_v1", "qqqm_boxx_matched_defense_scale_research_v1"}

  datatype Plan = Plan(
    candidate: string, policy: string, signal: nat, execution: nat, quote: nat, actionsApplied: bool, sessionIndex: int,
    optionLiability: real, collateral: real, externalFlow: real,
    prices: PerSymbol<real>, shares: PerSymbol<int>,
    coreTargets: PerSymbol<real>, outerTargets: PerSymbol<real>,
    corePositions: PerSymbol<int>, outerPositions: PerSymbol<int>,
    bps: real, budget: real, cashTarget: real, cash: real, restricted: real, pending: bool, unpaid: bool)

  datatype Status = Feasible | FundedShortfall | OtherStatus

  datatype PostState = PostState(shares: PerSymbol<int>, core: PerSymbol<int>, outer: PerSymbol<int>,
                                 pending: bool, unpaid: bool, cash: real, restricted: real)

  datatype Proposal = Proposal(
    candidate: string, signal: nat, execution: nat, scope: string, status: Status,
    coreTargets: PerSymbol<real>, outerTargets: PerSymbol<real>,
    coreTargetShares: PerSymbol<int>, outerTargetShares: PerSymbol<int>,
    trades: seq<Trade>, unfilled: map<Symbol, Shortfall>, post: PostState,
    deltas: PerSymbol<int>, costs: PerSymbol<real>, totalCost: real, reserveAfter: real, freeAfter: real,
    navBefore: real, navAfter: real, identityError: real, released: real)

  // ----- valid plans

  predicate NoneNegative(x: PerSymbol<real>) { x.tqqq >= 0.0 && x.qqqm >= 0.0 && x.boxx >= 0.0 }

  const NOTHING := PerSymbol(0, 0, 0)

  predicate ValidHeader(plan: Plan)
  {
    && plan.candidate in CANDIDATES && plan.policy == POLICY
    && plan.signal < plan.execution && plan.quote == plan.execution
    && plan.actionsApplied && plan.sessionIndex >= 0
    && plan.optionLiability == 0.0 && plan.collateral == 0.0 && plan.externalFlow == 0.0
  }

  /** Each symbol is targeted by its owner only; nothing is held yet. */
  predicate ValidPositions(plan: Plan)
  {
    && plan.prices.tqqq > 0.0 && plan.prices.qqqm > 0.0 && plan.prices.boxx > 0.0
    && NoneNegative(plan.coreTargets) && plan.coreTargets.qqqm == 0.0 && plan.coreTargets.boxx == 0.0
    && NoneNegative(plan.outerTargets) && plan.outerTargets.tqqq == 0.0
    && plan.corePositions == NOTHING && plan.outerPositions == NOTHING && plan.shares == NOTHING
  }

  predicate ValidMoney(plan: Plan)
  {
    && (plan.bps == 5.0 || plan.bps == 10.0 || plan.bps == 15.0)
    && plan.budget >= 0.0 && plan.cashTarget >= 0.0 && plan.cash >= 0.0 && plan.restricted >= 0.0
    && plan.coreTargets.tqqq <= plan.budget + TOLERANCE
    && plan.restricted <= plan.cash + TOLERANCE
    && !plan.pending && !plan.unpaid
  }

  predicate ValidPlan(plan: Plan) { ValidHeader(plan) && ValidPositions(plan) && ValidMoney(plan) }

  // ----- the expected proposal

  /** Whole shares that a target buys at the open. */
  function WholeShares(target: real, price: real): nat
    requires target >= 0.0 && price > 0.0
  {
    QuotientTimes(target, price);
    (target / price).Floor
  }

  function TargetShares(targets: PerSymbol<real>, prices: PerSymbol<real>): PerSymbol<nat>
    requires NoneNegative(targets) && prices.tqqq > 0.0 && prices.qqqm > 0.0 && prices.boxx > 0.0
  {
    PerSymbol(WholeShares(targets.tqqq, prices.tqqq), WholeShares(targets.qqqm, prices.qqqm),
              WholeShares(targets.boxx, prices.boxx))
  }

  function TermsOf(plan: Plan): (t: Terms)
    requires ValidPlan(plan)
    ensures t.Sound()
  {
    var core, outer := TargetShares(plan.coreTargets, plan.prices), TargetShares(plan.outerTargets, plan.prices);
    Terms(plan.prices, PerSymbol(core.tqqq + outer.tqqq, core.qqqm + outer.qqqm, core.boxx + outer.boxx),
          plan.bps / 10000.0, plan.budget, plan.cashTarget, plan.cash, plan.restricted)
  }

  function OwnShares(shares: PerSymbol<int>, owner: Owner): PerSymbol<int>
  {
    if owner == TqqqCore then PerSymbol(shares.tqqq, 0, 0) else PerSymbol(0, shares.qqqm, shares.boxx)
  }

  /** The proposal that states the recomputed numbers themselves. */
  function Recomputed(plan: Plan): Proposal
    requires ValidPlan(plan)
  {
    var t := TermsOf(plan);
    var f := Phase5Funding.Funded(t);
    var reserve := MemberReserve(t, f);
    Proposal(
      plan.candidate, plan.signal, plan.execution, PLAN_SCOPE,
      if f.shortfalls == map[] then Feasible else FundedShortfall,
      plan.coreTargets, plan.outerTargets,
      TargetShares(plan.coreTargets, plan.prices), TargetShares(plan.outerTargets, plan.prices),
      f.rows, f.shortfalls,
      PostState(f.shares, OwnShares(f.shares, TqqqCore), OwnShares(f.shares, Outer), false, false,
                f.cash, plan.restricted),
      f.shares, f.costs, TotalCost(f), reserve, Max(0.0, f.cash - plan.restricted - reserve),
      plan.cash, Worth(t, f), Abs(plan.cash - TotalCost(f) - Worth(t, f)), 0.0)
  }

  // ----- what the verifier accepts

  /** `_same_money`. */
  predicate SameMoney(actual: real, expected: real)
  {
    actual >= 0.0 && Abs(actual - expected) <= TOLERANCE
  }

  predicate SameTrade(actual: Trade, expected: Trade)
  {
    && actual.shares > 0
    && actual.symbol == expected.symbol && actual.shares == expected.shares && actual.owner == expected.owner
    && SameMoney(actual.price, expected.price) && SameMoney(actual.cost, expected.cost)
  }

  predicate SameTrades(actual: seq<Trade>, expected: seq<Trade>)
  {
    |actual| == |expected| && forall i :: 0 <= i < |actual| ==> SameTrade(actual[i], expected[i])
  }

  predicate SameCosts(actual: PerSymbol<real>, expected: PerSymbol<real>)
  {
    && SameMoney(actual.tqqq, expected.tqqq)
    && SameMoney(actual.qqqm, expected.qqqm)
    && SameMoney(actual.boxx, expected.boxx)
  }

  predicate SameState(actual: PostState, expected: PostState)
  {
    && actual.shares == expected.shares && actual.core == expected.core && actual.outer == expected.outer
    && !actual.pending && !actual.unpaid
    && SameMoney(actual.cash, expected.cash) && SameMoney(actual.restricted, expected.restricted)
  }

  predicate SameHeader(x: Proposal, e: Proposal)
  {
    && x.candidate == e.candidate && x.signal == e.signal && x.execution == e.execution && x.scope == e.scope
    && x.coreTargets == e.coreTargets && x.outerTargets == e.outerTargets
    && x.coreTargetShares == e.coreTargetShares && x.outerTargetShares == e.outerTargetShares
  }

  predicate SameTotals(x: Proposal, e: Proposal)
  {
    && x.deltas == e.deltas && SameCosts(x.costs, e.costs) && SameMoney(x.totalCost, e.totalCost)
    && SameMoney(x.reserveAfter, e.reserveAfter) && SameMoney(x.freeAfter, e.freeAfter)
    && SameMoney(x.navBefore, e.navBefore) && SameMoney(x.navAfter, e.navAfter)
    && SameMoney(x.identityError, e.identityError) && SameMoney(x.released, e.released)
    && e.identityError <= TOLERANCE
  }

  /** The verifier accepts: the plan is valid and every field of the proposal agrees. */
  predicate Accepts(plan: Plan, x: Proposal)
  {
    && ValidPlan(plan)
    && var e := Recomputed(plan);
       && SameHeader(x, e) && SameTrades(x.trades, e.trades)
       && x.unfilled == e.unfilled && x.status == e.status
       && SameState(x.post, e.post) && SameTotals(x, e)
  }

  // ----- completeness

  lemma FeesNotNegative(t: Terms, s: Symbol, shares: nat)
    requires t.Sound()
    ensures 0.0 <= Fee(t, s, shares)
    ensures 0.0 <= Value(t, s, shares)
  {
    TimesMonotone(0.0, shares as real, t.prices.At(s));
    TimesMonotone(0.0, Value(t, s, shares), t.rate);
  }

  /** Rows and costs of a funding in progress: fees are not negative, rows buy something. */
  predicate Tidy(f: Funding)
  {
    && NoneNegative(f.costs)
    && forall i :: 0 <= i < |f.rows| ==> f.rows[i].shares > 0 && f.rows[i].price > 0.0 && f.rows[i].cost >= 0.0
  }

  lemma FundTidy(t: Terms, f: Funding, s: Symbol)
    requires t.Sound() && Tidy(f) && 0 <= Fill(t, f, s)
    ensures Tidy(Fund(t, f, s))
  {
    FeesNotNegative(t, s, Fill(t, f, s));
  }

  lemma FundedTidy(t: Terms)
    requires t.Sound()
    ensures Tidy(Phase5Funding.Funded(t))
    ensures Phase5Funding.Funded(t).cash <= Worth(t, Phase5Funding.Funded(t))
  {
    FundedInTurn(t);
    var a := Opening(t);
    var b := Fund(t, a, TQQQ);
    var c := Fund(t, b, QQQM);
    FundTidy(t, a, TQQQ);
    FundTidy(t, b, QQQM);
    FundTidy(t, c, BOXX);
    var f := Fund(t, c, BOXX);
    FeesNotNegative(t, TQQQ, f.shares.tqqq);
    FeesNotNegative(t, QQQM, f.shares.qqqm);
    FeesNotNegative(t, BOXX, f.shares.boxx);
  }

  /** The identity check never fires: in exact arithmetic the error is zero. */
  lemma IdentityHolds(plan: Plan)
    requires ValidPlan(plan)
    ensures Recomputed(plan).identityError == 0.0
  {
    FundingConservesWorth(TermsOf(plan));
  }

  lemma RecomputedParts(plan: Plan)
    requires ValidPlan(plan)
    ensures var e := Recomputed(plan);
            && SameHeader(e, e) && SameTrades(e.trades, e.trades) && SameCosts(e.costs, e.costs)
            && e.totalCost >= 0.0 && e.reserveAfter >= 0.0 && e.freeAfter >= 0.0
            && e.post.cash <= e.navAfter
            && e.post.cash >= -3.0 * SLACK
  {
    var t := TermsOf(plan);
    FundedTidy(t);
    FundingKeepsCash(t);
  }

  /** The proposal with its cash, and its worth, not below zero. */
  function Clamped(x: Proposal): Proposal
  {
    x.(post := x.post.(cash := Max(0.0, x.post.cash)), navAfter := Max(0.0, x.navAfter))
  }

  /** Completeness: every valid plan has an accepted proposal, the recomputed one with its cash
      clamped at zero. The recomputed proposal itself is accepted exactly when its settled cash
      is not negative, which the slack of the purchases alone can make it. */
  lemma ValidPlansAreAccepted(plan: Plan)
    requires ValidPlan(plan)
    ensures Accepts(plan, Clamped(Recomputed(plan)))
    ensures Accepts(plan, Recomputed(plan)) <==> Recomputed(plan).post.cash >= 0.0
    ensures plan.cash >= 3.0 * SLACK && plan.restricted + plan.cashTarget >= 3.0 * SLACK ==>
              Accepts(plan, Recomputed(plan))
  {
    IdentityHolds(plan);
    RecomputedParts(plan);
    FundingKeepsCash(TermsOf(plan));
  }

  /** A plan for the first open of an account: known by its identity and policy, decided before it is
      executed at the quotes of its day; nothing held, owed or pending; each symbol targeted by its
      owner only, the core within its budget; a known fee; and restricted cash that is there. */
  predicate FirstOpen(plan: Plan)
  {
    && plan.candidate in CANDIDATES && plan.policy == POLICY && plan.sessionIndex >= 0
    && plan.signal < plan.execution == plan.quote && plan.actionsApplied
    && plan.optionLiability == plan.collateral == plan.externalFlow == 0.0 && !plan.pending && !plan.unpaid
    && (forall s :: plan.shares.At(s) == plan.corePositions.At(s) == plan.outerPositions.At(s) == 0)
    && (forall s :: plan.prices.At(s) > 0.0 && plan.coreTargets.At(s) >= 0.0 && plan.outerTargets.At(s) >= 0.0)
    && (forall s :: if OwnerOf(s) == TqqqCore then plan.outerTargets.At(s) == 0.0 else plan.coreTargets.At(s) == 0.0)
    && plan.coreTargets.tqqq <= plan.budget + 0.000001 && plan.restricted <= plan.cash + 0.000001
    && plan.bps in {5.0, 10.0, 15.0}
    && plan.budget >= 0.0 && plan.cashTarget >= 0.0 && plan.cash >= 0.0 && plan.restricted >= 0.0
  }

  /** Exactly these plans have an accepted proposal. */
  lemma AcceptedPlansAreFirstOpens(plan: Plan)
    ensures (exists x: Proposal :: Accepts(plan, x)) <==> FirstOpen(plan)
  {
    FirstOpenIsValid(plan);
    if ValidPlan(plan) {
      ValidPlansAreAccepted(plan);
    }
  }

  lemma FirstOpenIsValid(plan: Plan)
    ensures FirstOpen(plan) <==> ValidPlan(plan)
  {
    if FirstOpen(plan) {
      assert forall s :: plan.prices.At(s) > 0.0;
      Everywhere(plan.prices, plan.coreTargets, plan.outerTargets);
      assert plan.shares.At(TQQQ) == plan.shares.At(QQQM) == plan.shares.At(BOXX) == 0;
      assert plan.corePositions.At(QQQM) == plan.corePositions.At(TQQQ) == plan.corePositions.At(BOXX) == 0;
      assert plan.outerPositions.At(QQQM) == plan.outerPositions.At(TQQQ) == plan.outerPositions.At(BOXX) == 0;
    }
  }

  lemma Everywhere(a: PerSymbol<real>, b: PerSymbol<real>, c: PerSymbol<real>)
    ensures a.At(TQQQ) == a.tqqq && a.At(QQQM) == a.qqqm && a.At(BOXX) == a.boxx
    ensures b.At(TQQQ) == b.tqqq && b.At(QQQM) == b.qqqm && b.At(BOXX) == b.boxx
    ensures c.At(TQQQ) == c.tqqq && c.At(QQQM) == c.qqqm && c.At(BOXX) == c.boxx
  {
  }

  // ----- soundness

  /** Soundness: the numbers that an accepted proposal states satisfy what funding guarantees,
      up to the tolerance of each number compared. */
  lemma AcceptedProposalsAreSound(plan: Plan, x: Proposal)
    requires Accepts(plan, x)
    ensures x.post.cash >= Min(plan.cash, plan.restricted + plan.cashTarget) - 3.0 * SLACK - TOLERANCE
    ensures Abs(x.navAfter + x.totalCost - plan.cash) <= 2.0 * TOLERANCE
    ensures x.status == Feasible <==> x.unfilled == map[]
    ensures OuterBoughtFreely(TermsOf(plan)) ==>
              x.post.cash >= plan.restricted + plan.cashTarget + x.reserveAfter - 2.0 * SLACK - 2.0 * TOLERANCE
    ensures |x.trades| == |Recomputed(plan).trades|
    ensures forall i :: 0 <= i < |x.trades| ==> StatesTrade(plan, x.trades[i], Recomputed(plan).trades[i])
  {
    FundingKeepsCash(TermsOf(plan));
    FundingConservesWorth(TermsOf(plan));
    AcceptedTrades(plan, x.trades);
  }

  /** A target is the whole shares that its money buys at the open, of both owners together. */
  predicate WholeTargets(plan: Plan, shares: PerSymbol<nat>)
  {
    forall s :: var n, money := shares.At(s) as real, plan.coreTargets.At(s) + plan.outerTargets.At(s);
      Times(n, plan.prices.At(s)) <= money < Times(n + 1.0, plan.prices.At(s))
  }

  lemma TargetsAreWhole(plan: Plan)
    requires ValidPlan(plan)
    ensures WholeTargets(plan, TermsOf(plan).targets)
  {
    var core, outer := plan.coreTargets, plan.outerTargets;
    FloorOfQuotient(core.tqqq, plan.prices.tqqq);
    FloorOfQuotient(outer.qqqm, plan.prices.qqqm);
    FloorOfQuotient(outer.boxx, plan.prices.boxx);
    NoShares(plan.prices.tqqq);
    NoShares(plan.prices.qqqm);
    NoShares(plan.prices.boxx);
  }

  lemma NoShares(price: real)
    requires price > 0.0
    ensures WholeShares(0.0, price) == 0
  {
    assert 0.0 / price == 0.0;
  }

  /** Targets in whole shares are unique. */
  lemma WholeTargetsAreUnique(plan: Plan, a: PerSymbol<nat>, b: PerSymbol<nat>, s: Symbol)
    requires ValidPlan(plan) && WholeTargets(plan, a) && WholeTargets(plan, b)
    ensures a.At(s) == b.At(s)
  {
    var x, y, price := a.At(s), b.At(s), plan.prices.At(s);
    TimesStrict(x as real, y as real + 1.0, price);
    TimesStrict(y as real, x as real + 1.0, price);
  }

  /** Shortfalls are told truly. An accepted proposal calls itself feasible if and only if every
      share count it states is its target in whole shares; and it lists as unfilled exactly the
      symbols below their targets, each with its target and its stated shares. */
  lemma AcceptedShortfallsAreTrue(plan: Plan, x: Proposal, targets: PerSymbol<nat>)
    requires Accepts(plan, x) && WholeTargets(plan, targets)
    ensures forall s :: x.post.shares.At(s) <= targets.At(s)
    ensures x.status == Feasible <==> forall s :: x.post.shares.At(s) == targets.At(s)
    ensures x.status == FundedShortfall <==> exists s :: x.post.shares.At(s) < targets.At(s)
    ensures forall s :: s in x.unfilled <==> x.post.shares.At(s) < targets.At(s)
    ensures forall s :: s in x.unfilled ==> x.unfilled[s] == Shortfall(targets.At(s), x.post.shares.At(s))
  {
    var t := TermsOf(plan);
    TargetsAreWhole(plan);
    forall s ensures targets.At(s) == t.targets.At(s) {
      WholeTargetsAreUnique(plan, targets, t.targets, s);
    }
    FundedShares(t);
    FeasibleMeansFilled(t);
  }

  lemma FeasibleMeansFilled(t: Terms)
    requires t.Sound()
    ensures Phase5Funding.Funded(t).shortfalls == map[] <==>
            forall s :: Phase5Funding.Funded(t).shares.At(s) == t.targets.At(s)
    ensures forall s :: Phase5Funding.Funded(t).shares.At(s) <= t.targets.At(s)
  {
    var f := Phase5Funding.Funded(t);
    FundedShares(t);
    forall s ensures f.shares.At(s) <= t.targets.At(s) && (s in f.shortfalls || f.shares.At(s) == t.targets.At(s)) {
      match s
      case TQQQ =>
      case QQQM =>
      case BOXX =>
    }
    if f.shortfalls != map[] {
      var s :| s in f.shortfalls;
      assert f.shares.At(s) != t.targets.At(s);
    }
  }

  /** Two sums of money within twice the tolerance. */
  predicate Near(a: real, b: real) { Abs(a - b) <= 2.0 * TOLERANCE }

  predicate NearCosts(a: PerSymbol<real>, b: PerSymbol<real>)
  {
    Near(a.tqqq, b.tqqq) && Near(a.qqqm, b.qqqm) && Near(a.boxx, b.boxx)
  }

  /** The money of a proposal. */
  function Amounts(x: Proposal): seq<real>
  {
    [x.totalCost, x.reserveAfter, x.freeAfter, x.navBefore, x.navAfter, x.identityError, x.released,
     x.post.cash, x.post.restricted]
  }

  /** The verifier leaves no choice: two accepted proposals of one plan agree in everything but
      money, and in money up to twice the tolerance. */
  lemma AcceptedProposalsAgree(plan: Plan, x: Proposal, y: Proposal)
    requires Accepts(plan, x) && Accepts(plan, y)
    ensures x.candidate == y.candidate && x.signal == y.signal && x.execution == y.execution && x.scope == y.scope
    ensures x.coreTargets == y.coreTargets && x.outerTargets == y.outerTargets
    ensures x.coreTargetShares == y.coreTargetShares && x.outerTargetShares == y.outerTargetShares
    ensures x.status == y.status && x.unfilled == y.unfilled && x.deltas == y.deltas
    ensures y.post.(cash := x.post.cash, restricted := x.post.restricted) == x.post
    ensures NearCosts(x.costs, y.costs)
    ensures forall k :: 0 <= k < |Amounts(x)| ==> Near(Amounts(x)[k], Amounts(y)[k])
    ensures |x.trades| == |y.trades|
    ensures forall k :: 0 <= k < |x.trades| ==>
              var a, b := x.trades[k], y.trades[k];
              b.(price := a.price, cost := a.cost) == a && Near(a.price, b.price) && Near(a.cost, b.cost)
  {
    var e := Recomputed(plan);
    SameStatesAgree(x.post, y.post, e.post);
    SameTradesAgree(x.trades, y.trades, e.trades);
    SameTotalsAgree(x, y, e);
  }

  lemma SameMoneyIsNear(a: real, b: real, expected: real)
    requires SameMoney(a, expected) && SameMoney(b, expected)
    ensures Near(a, b)
  {
  }

  lemma SameStatesAgree(a: PostState, b: PostState, expected: PostState)
    requires SameState(a, expected) && SameState(b, expected)
    ensures b.(cash := a.cash, restricted := a.restricted) == a
    ensures Near(a.cash, b.cash) && Near(a.restricted, b.restricted)
  {
    SameMoneyIsNear(a.cash, b.cash, expected.cash);
    SameMoneyIsNear(a.restricted, b.restricted, expected.restricted);
  }

  lemma SameTradesAgree(a: seq<Trade>, b: seq<Trade>, expected: seq<Trade>)
    requires SameTrades(a, expected) && SameTrades(b, expected)
    ensures |a| == |b|
    ensures forall k :: 0 <= k < |a| ==>
              b[k].(price := a[k].price, cost := a[k].cost) == a[k]
              && Near(a[k].price, b[k].price) && Near(a[k].cost, b[k].cost)
  {
    forall k | 0 <= k < |a|
      ensures b[k].(price := a[k].price, cost := a[k].cost) == a[k]
      ensures Near(a[k].price, b[k].price) && Near(a[k].cost, b[k].cost)
    {
      assert SameTrade(a[k], expected[k]) && SameTrade(b[k], expected[k]);
    }
  }

  lemma SameTotalsAgree(x: Proposal, y: Proposal, e: Proposal)
    requires SameTotals(x, e) && SameTotals(y, e)
    ensures x.deltas == y.deltas && NearCosts(x.costs, y.costs)
    ensures forall k :: 0 <= k < 7 ==> Near(Amounts(x)[k], Amounts(y)[k])
  {
  }

  lemma AcceptedTrades(plan: Plan, trades: seq<Trade>)
    requires ValidPlan(plan) && SameTrades(trades, Recomputed(plan).trades)
    ensures forall i :: 0 <= i < |trades| ==> StatesTrade(plan, trades[i], Recomputed(plan).trades[i])
  {
    forall i | 0 <= i < |trades| ensures StatesTrade(plan, trades[i], Recomputed(plan).trades[i]) {
      FundedRows(TermsOf(plan), i);
    }
  }

  /** A stated trade: a positive number of whole shares of a symbol, for its owner, at its opening
      price, with its fee, as funded; price and fee within the tolerance. */
  predicate StatesTrade(plan: Plan, stated: Trade, funded: Trade)
    requires ValidPlan(plan)
  {
    && stated.symbol == funded.symbol && stated.shares == funded.shares && stated.shares > 0
    && stated.owner == OwnerOf(stated.symbol)
    && Abs(stated.price - plan.prices.At(stated.symbol)) <= TOLERANCE
    && Abs(stated.cost - Fee(TermsOf(plan), stated.symbol, stated.shares)) <= TOLERANCE
  }

  predicate FundedRow(t: Terms, row: Trade)
  {
    row == Trade(row.symbol, row.shares, OwnerOf(row.symbol), t.prices.At(row.symbol), Fee(t, row.symbol, row.shares))
  }

  lemma FundedRows(t: Terms, i: nat)
    requires t.Sound() && i < |Phase5Funding.Funded(t).rows|
    ensures FundedRow(t, Phase5Funding.Funded(t).rows[i])
  {
    FundedInTurn(t);
    var a := Opening(t);
    var b := Fund(t, a, TQQQ);
    var c := Fund(t, b, QQQM);
    FundRows(t, a, TQQQ);
    FundRows(t, b, QQQM);
    FundRows(t, c, BOXX);
  }

  lemma FundRows(t: Terms, f: Funding, s: Symbol)
    requires 0 <= Fill(t, f, s) && forall i :: 0 <= i < |f.rows| ==> FundedRow(t, f.rows[i])
    ensures forall i :: 0 <= i < |Fund(t, f, s).rows| ==> FundedRow(t, Fund(t, f, s).rows[i])
  {
  }

  // ----- the verifier

  /** The loop body for one symbol. */
  method FundSymbol(t: Terms, f: Funding, s: Symbol) returns (next: Funding)
    requires t.Sound() && f.shares.At(s) <= t.targets.At(s)
    ensures 0 <= Fill(t, f, s) && next == Fund(t, f, s)
  {
    FillIsLargest(t, f, s, 0);
    UnitPositive(t, s);
    var cash, shares, costs, rows, shortfalls := f.cash, f.shares, f.costs, f.rows, f.shortfalls;
    var price := t.prices.At(s);
    var gap := t.targets.At(s) - shares.At(s);
    var reserve := if s == TQQQ then 0.0 else Max(0.0, t.budget - Times(shares.tqqq as real, t.prices.tqqq));
    var available := Max(0.0, cash - (t.restricted + t.cashTarget + reserve));
    var affordable := ((available + SLACK) / Times(price, 1.0 + t.rate)).Floor;
    var fill := if gap < affordable then gap else affordable;
    if fill != 0 {
      var cost := Times(Times(fill as real, price), t.rate);
      rows := rows + [Trade(s, fill, OwnerOf(s), price, cost)];
      cash := cash - (Times(fill as real, price) + cost);
      costs := costs.With(s, cost);
      shares := shares.With(s, shares.At(s) + fill);
    }
    if fill < gap {
      shortfalls := shortfalls[s := Shortfall(t.targets.At(s), shares.At(s))];
    }
    next := Funding(cash, shares, costs, rows, shortfalls);
  }

  /** The funding loop. */
  method FundPlan(t: Terms) returns (f: Funding)
    requires t.Sound()
    ensures f == Phase5Funding.Funded(t)
  {
    f := Opening(t);
    var i := 0;
    while i < |SYMBOLS|
      invariant i <= |SYMBOLS|
      invariant forall j :: i <= j < |SYMBOLS| ==> f.shares.At(SYMBOLS[j]) == 0
      invariant FundFrom(t, f, SYMBOLS[i..]) == Phase5Funding.Funded(t)
    {
      ghost var rest := SYMBOLS[i..];
      assert rest[0] == SYMBOLS[i] && rest[1..] == SYMBOLS[i + 1..];
      f := FundSymbol(t, f, SYMBOLS[i]);
      i := i + 1;
    }
  }

  method CompareTrades(actual: seq<Trade>, expected: seq<Trade>) returns (same: bool)
    ensures same <==> SameTrades(actual, expected)
  {
    if |actual| != |expected| { return false; }
    var i := 0;
    while i < |actual|
      invariant i <= |actual|
      invariant forall j :: 0 <= j < i ==> SameTrade(actual[j], expected[j])
    {
      if !SameTrade(actual[i], expected[i]) { return false; }
      i := i + 1;
    }
    return true;
  }

  /** A row of the evidence that is returned. */
  datatype Evidence = Evidence(symbol: Symbol, quantity: int, owner: Owner, price: real, notional: real, cost: real,
                               before: int, after: int)

  function EvidenceFor(row: Trade, f: Funding): Evidence
  {
    Evidence(row.symbol, row.shares, row.owner, row.price, Times(row.shares as real, row.price), row.cost, 0,
             f.shares.At(row.symbol))
  }

  method DescribeTrades(f: Funding) returns (evidence: seq<Evidence>)
    ensures |evidence| == |f.rows| && forall i :: 0 <= i < |f.rows| ==> evidence[i] == EvidenceFor(f.rows[i], f)
  {
    evidence := [];
    var i := 0;
    while i < |f.rows|
      invariant i <= |f.rows| && |evidence| == i
      invariant forall j :: 0 <= j < i ==> evidence[j] == EvidenceFor(f.rows[j], f)
    {
      evidence := evidence + [EvidenceFor(f.rows[i], f)];
      i := i + 1;
    }
  }

  /** The evidence of an accepted trade: the opening purchase of its shares, from nothing to all of
      them, at the open of the plan, with the fee of the plan. */
  predicate Evidences(plan: Plan, e: Evidence, trade: Trade)
    requires ValidPlan(plan)
  {
    && e.symbol == trade.symbol && e.quantity == trade.shares && e.owner == trade.owner
    && e.before == 0 && e.after == trade.shares
    && e.price == plan.prices.At(trade.symbol)
    && e.notional == Times(trade.shares as real, plan.prices.At(trade.symbol))
    && e.cost == Fee(TermsOf(plan), trade.symbol, trade.shares)
  }

  lemma EvidenceOfTrades(plan: Plan, trades: seq<Trade>, evidence: seq<Evidence>)
    requires ValidPlan(plan)
    requires var f := Phase5Funding.Funded(TermsOf(plan));
             && SameTrades(trades, f.rows) && |evidence| == |f.rows|
             && forall i :: 0 <= i < |f.rows| ==> evidence[i] == EvidenceFor(f.rows[i], f)
    ensures forall i :: 0 <= i < |evidence| ==> Evidences(plan, evidence[i], trades[i])
  {
    var t := TermsOf(plan);
    var f := Phase5Funding.Funded(t);
    FundedShares(t);
    forall i | 0 <= i < |evidence| ensures Evidences(plan, evidence[i], trades[i]) {
      assert SameTrade(trades[i], f.rows[i]);
      RowIsOf(t, f.shares, i);
    }
  }

  lemma RowIsOf(t: Terms, n: PerSymbol<nat>, i: nat)
    requires i < |RowOf(t, TQQQ, n.tqqq) + RowOf(t, QQQM, n.qqqm) + RowOf(t, BOXX, n.boxx)|
    ensures var row := (RowOf(t, TQQQ, n.tqqq) + RowOf(t, QQQM, n.qqqm) + RowOf(t, BOXX, n.boxx))[i];
            [row] == RowOf(t, row.symbol, n.At(row.symbol))
  {
  }

  /** `convert_funded_phase5_proposal`: it returns evidence exactly for accepted proposals. */
  method ConvertFundedProposal(plan: Plan, x: Proposal) returns (accepted: bool, evidence: seq<Evidence>)
    ensures accepted <==> Accepts(plan, x)
    ensures accepted ==>
              var f := Phase5Funding.Funded(TermsOf(plan));
              |evidence| == |f.rows| && forall i :: 0 <= i < |f.rows| ==> evidence[i] == EvidenceFor(f.rows[i], f)
    ensures accepted ==>
              |evidence| == |x.trades| && forall i :: 0 <= i < |evidence| ==> Evidences(plan, evidence[i], x.trades[i])
    ensures !accepted ==> evidence == []
  {
    evidence, accepted := [], false;
    if !ValidPlan(plan) { return; }
    var e := Recomputed(plan);
    if !SameHeader(x, e) { return; }
    var f := FundPlan(TermsOf(plan));
    var same := CompareTrades(x.trades, f.rows);
    if !same { return; }
    var status := if f.shortfalls != map[] then FundedShortfall else Feasible;
    if x.unfilled != f.shortfalls || x.status != status { return; }
    if !SameState(x.post, e.post) { return; }
    if !SameTotals(x, e) { return; }
    evidence := DescribeTrades(f);
    accepted := true;
    EvidenceOfTrades(plan, x.trades, evidence);
  }

  // ----- slack can make the settled cash negative

  const THIN := Plan(
    "qqqm_tqqq_guard_boxx_fixed_research_v3", POLICY, 1, 2, 2, true, 0, 0.0, 0.0, 0.0,
    PerSymbol(100.0, 100.0, 100.0), NOTHING, PerSymbol(100.0, 0.0, 0.0), PerSymbol(0.0, 0.0, 0.0), NOTHING, NOTHING,
    5.0, 100.0, 0.0, 100.0499999995, 0.0, false, false)

  /** One share at 100 costs 100.05; the cash and the slack together just pay it. */
  lemma ThinPurchase(t: Terms)
    requires t == Terms(PerSymbol(100.0, 100.0, 100.0), PerSymbol(1, 0, 0), 0.0005, 100.0, 0.0, 100.0499999995, 0.0)
    ensures t.Sound() && Fill(t, Opening(t), TQQQ) == 1 && Fund(t, Opening(t), TQQQ).cash == -0.0000000005
  {
    assert t.Unit(TQQQ) == 100.05;
    assert Value(t, TQQQ, 1) == 100.0;
    assert Fee(t, TQQQ, 1) == 0.05;
  }

  lemma NothingElse(t: Terms, f: Funding, s: Symbol)
    requires t.Sound() && Gap(t, f, s) == 0
    ensures Fill(t, f, s) == 0 && Fund(t, f, s) == f
  {
    FillIsLargest(t, f, s, 0);
  }

  /** A valid plan whose recomputed proposal the verifier refuses. */
  lemma ThinPlanIsRefused()
    ensures ValidPlan(THIN) && !Accepts(THIN, Recomputed(THIN))
  {
    var t := TermsOf(THIN);
    assert WholeShares(100.0, 100.0) == 1;
    assert WholeShares(0.0, 100.0) == 0;
    ThinPurchase(t);
    FundedInTurn(t);
    var b := Fund(t, Opening(t), TQQQ);
    NothingElse(t, b, QQQM);
    NothingElse(t, b, BOXX);
    ValidPlansAreAccepted(THIN);
  }
}
