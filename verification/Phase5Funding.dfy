/** The sequential funding of a first-open research plan: three symbols bought in turn from
    settled cash, each as far as its target and the free cash go. */
module Phase5Funding {
  import opened Quantity

  datatype Symbol = TQQQ | QQQM | BOXX

  datatype Owner = TqqqCore | Outer

  const SYMBOLS := [TQQQ, QQQM, BOXX]
  const SLACK := 0.000000001

  function OwnerOf(s: Symbol): Owner { if s == TQQQ then TqqqCore else Outer }

  datatype PerSymbol<T> = PerSymbol(tqqq: T, qqqm: T, boxx: T)
  {
    function At(s: Symbol): T
    {
      match s
      case TQQQ => tqqq
      case QQQM => qqqm
      case BOXX => boxx
    }

    function With(s: Symbol, value: T): PerSymbol<T>
    {
      match s
      case TQQQ => this.(tqqq := value)
      case QQQM => this.(qqqm := value)
      case BOXX => this.(boxx := value)
    }
  }

  /** What funding reads of a plan. */
  datatype Terms = Terms(prices: PerSymbol<real>, targets: PerSymbol<nat>, rate: real, budget: real,
                         cashTarget: real, cash: real, restricted: real)
  {
    predicate Sound()
    {
      && prices.tqqq > 0.0 && prices.qqqm > 0.0 && prices.boxx > 0.0
      && 0.0 <= rate && 0.0 <= budget && 0.0 <= cashTarget && 0.0 <= cash && 0.0 <= restricted
    }

    /** The price of a share with its fee. */
    function Unit(s: Symbol): real { Times(prices.At(s), 1.0 + rate) }
  }

  datatype Trade = Trade(symbol: Symbol, shares: int, owner: Owner, price: real, cost: real)

  datatype Shortfall = Shortfall(target: int, proposed: int)

  /** The variables of the funding loop. */
  datatype Funding = Funding(cash: real, shares: PerSymbol<nat>, costs: PerSymbol<real>, rows: seq<Trade>,
                             shortfalls: map<Symbol, Shortfall>)

  function Opening(t: Terms): Funding
  {
    Funding(t.cash, PerSymbol(0, 0, 0), PerSymbol(0.0, 0.0, 0.0), [], map[])
  }

  /** The member budget not yet spent, which outer symbols must leave alone. */
  function MemberReserve(t: Terms, f: Funding): real
  {
    Max(0.0, t.budget - Times(f.shares.tqqq as real, t.prices.tqqq))
  }

  function Protected(t: Terms, f: Funding, s: Symbol): real
  {
    t.restricted + t.cashTarget + if s == TQQQ then 0.0 else MemberReserve(t, f)
  }

  function Available(t: Terms, f: Funding, s: Symbol): real
  {
    Max(0.0, f.cash - Protected(t, f, s))
  }

  function Gap(t: Terms, f: Funding, s: Symbol): int
  {
    t.targets.At(s) - f.shares.At(s)
  }

  function Affordable(t: Terms, f: Funding, s: Symbol): int
  {
    Ratio(Available(t, f, s) + SLACK, t.Unit(s)).Floor
  }

  function Fill(t: Terms, f: Funding, s: Symbol): int
  {
    if Gap(t, f, s) < Affordable(t, f, s) then Gap(t, f, s) else Affordable(t, f, s)
  }

  /** What shares of a symbol cost without and with the fee. */
  function Value(t: Terms, s: Symbol, shares: int): real { Times(shares as real, t.prices.At(s)) }

  function Fee(t: Terms, s: Symbol, shares: int): real { Times(Value(t, s, shares), t.rate) }

  function Spent(t: Terms, s: Symbol, shares: int): real { Value(t, s, shares) + Fee(t, s, shares) }

  /** The loop body. */
  function Fund(t: Terms, f: Funding, s: Symbol): Funding
    requires 0 <= Fill(t, f, s)
  {
    var fill := Fill(t, f, s);
    var bought := if fill == 0 then f else Funding(
      f.cash - Spent(t, s, fill), f.shares.With(s, f.shares.At(s) + fill), f.costs.With(s, Fee(t, s, fill)),
      f.rows + [Trade(s, fill, OwnerOf(s), t.prices.At(s), Fee(t, s, fill))], f.shortfalls);
    if fill < Gap(t, f, s) then
      bought.(shortfalls := f.shortfalls[s := Shortfall(t.targets.At(s), bought.shares.At(s))])
    else bought
  }

  // ----- one symbol

  lemma UnitPositive(t: Terms, s: Symbol)
    requires t.Sound()
    ensures t.Unit(s) > 0.0
  {
    TimesStrict(0.0, t.prices.At(s), 1.0 + t.rate);
    TimesSucc(0, 1.0 + t.rate);
  }

  lemma SpentByUnit(t: Terms, s: Symbol, shares: int)
    ensures Spent(t, s, shares) == Times(shares as real, t.Unit(s))
  {
    var n, p, r := shares as real, t.prices.At(s), t.rate;
    assert n * p + n * p * r == n * (p * (1.0 + r));
  }

  /** A fill is the largest whole number of shares within the gap that the free cash, and the
      slack, can pay with its fee. */
  lemma FillIsLargest(t: Terms, f: Funding, s: Symbol, n: int)
    requires t.Sound() && f.shares.At(s) <= t.targets.At(s)
    ensures var fill := Fill(t, f, s); var money := Available(t, f, s) + SLACK;
            && 0 <= fill <= Gap(t, f, s)
            && Spent(t, s, fill) <= money
            && (fill < n <= Gap(t, f, s) ==> Spent(t, s, n) > money)
  {
    var unit, money := t.Unit(s), Available(t, f, s) + SLACK;
    var affordable, fill := Affordable(t, f, s), Fill(t, f, s);
    UnitPositive(t, s);
    FloorOfQuotient(money, unit);
    QuotientTimes(money, unit);
    SpentByUnit(t, s, fill);
    TimesMonotone(fill as real, affordable as real, unit);
    if fill < n <= Gap(t, f, s) {
      SpentByUnit(t, s, n);
      TimesMonotone((affordable + 1) as real, n as real, unit);
    }
  }

  /** A purchase leaves the protected cash alone; without free cash it takes at most the slack. */
  lemma FundKeepsCash(t: Terms, f: Funding, s: Symbol)
    requires t.Sound() && f.shares.At(s) <= t.targets.At(s)
    ensures 0 <= Fill(t, f, s)
    ensures Fund(t, f, s).cash >= Min(f.cash, Protected(t, f, s)) - SLACK
    ensures Available(t, f, s) > 0.0 ==> Fund(t, f, s).cash >= Protected(t, f, s) - SLACK
  {
    FillIsLargest(t, f, s, 0);
  }

  // ----- what the loop keeps

  /** Settled cash, and holdings at the open prices, less the fees: the account's worth. */
  function Worth(t: Terms, f: Funding): real
  {
    f.cash + Value(t, TQQQ, f.shares.tqqq) + Value(t, QQQM, f.shares.qqqm) + Value(t, BOXX, f.shares.boxx)
  }

  function TotalCost(f: Funding): real { f.costs.tqqq + f.costs.qqqm + f.costs.boxx }

  /** The symbols still to come hold nothing. */
  predicate Untouched(f: Funding, s: Symbol)
  {
    f.shares.At(s) == 0 && f.costs.At(s) == 0.0
  }

  lemma FundKeepsWorth(t: Terms, f: Funding, s: Symbol)
    requires 0 <= Fill(t, f, s) && Untouched(f, s)
    ensures Worth(t, Fund(t, f, s)) + TotalCost(Fund(t, f, s)) == Worth(t, f) + TotalCost(f)
  {
    TimesSucc(0, t.prices.At(s));
  }

  function FundFrom(t: Terms, f: Funding, symbols: seq<Symbol>): Funding
    decreases |symbols|
  {
    if symbols == [] || Fill(t, f, symbols[0]) < 0 then f else FundFrom(t, Fund(t, f, symbols[0]), symbols[1..])
  }

  /** The result of the loop. */
  function Funded(t: Terms): Funding
  {
    FundFrom(t, Opening(t), SYMBOLS)
  }

  lemma FundedInTurn(t: Terms)
    requires t.Sound()
    ensures var a := Opening(t); Fill(t, a, TQQQ) >= 0
    ensures var b := Fund(t, Opening(t), TQQQ); Fill(t, b, QQQM) >= 0
    ensures var c := Fund(t, Fund(t, Opening(t), TQQQ), QQQM); Fill(t, c, BOXX) >= 0
    ensures Funded(t) == Fund(t, Fund(t, Fund(t, Opening(t), TQQQ), QQQM), BOXX)
  {
    var a := Opening(t);
    FillIsLargest(t, a, TQQQ, 0);
    var b := Fund(t, a, TQQQ);
    FillIsLargest(t, b, QQQM, 0);
    var c := Fund(t, b, QQQM);
    FillIsLargest(t, c, BOXX, 0);
    assert SYMBOLS[1..] == [QQQM, BOXX] && [QQQM, BOXX][1..] == [BOXX] && [BOXX][1..] == [];
    var d := Fund(t, c, BOXX);
    assert FundFrom(t, d, []) == d;
    assert FundFrom(t, c, [BOXX]) == d;
    assert FundFrom(t, b, [QQQM, BOXX]) == FundFrom(t, c, [BOXX]);
  }

  /** No money appears or vanishes: worth before is worth after plus fees. */
  lemma FundingConservesWorth(t: Terms)
    requires t.Sound()
    ensures Worth(t, Funded(t)) + TotalCost(Funded(t)) == t.cash
  {
    var a := Opening(t);
    FundedInTurn(t);
    var b := Fund(t, a, TQQQ);
    var c := Fund(t, b, QQQM);
    FundKeepsWorth(t, a, TQQQ);
    FundKeepsWorth(t, b, QQQM);
    FundKeepsWorth(t, c, BOXX);
    TimesSucc(0, t.prices.tqqq);
    TimesSucc(0, t.prices.qqqm);
    TimesSucc(0, t.prices.boxx);
  }

  /** An outer symbol is bought while some cash is free for it. */
  predicate OuterBoughtFreely(t: Terms)
    requires t.Sound()
  {
    FundedInTurn(t);
    var b := Fund(t, Opening(t), TQQQ);
    var c := Fund(t, b, QQQM);
    || (Fill(t, b, QQQM) > 0 && Available(t, b, QQQM) > 0.0)
    || (Fill(t, c, BOXX) > 0 && Available(t, c, BOXX) > 0.0)
  }

  /** Funding never goes below the restricted cash plus the cash target, or below the opening
      cash if that is less, but for the slack of each purchase; and once an outer symbol was
      bought from free cash, the unspent member budget is left as well. */
  lemma FundingKeepsCash(t: Terms)
    requires t.Sound()
    ensures Funded(t).cash >= Min(t.cash, t.restricted + t.cashTarget) - 3.0 * SLACK
    ensures OuterBoughtFreely(t) ==>
              Funded(t).cash >= t.restricted + t.cashTarget + MemberReserve(t, Funded(t)) - 2.0 * SLACK
  {
    var a := Opening(t);
    FundedInTurn(t);
    var b := Fund(t, a, TQQQ);
    var c := Fund(t, b, QQQM);
    FundKeepsCash(t, a, TQQQ);
    FundKeepsCash(t, b, QQQM);
    FundKeepsCash(t, c, BOXX);
    OuterKeepsReserve(t, b, QQQM);
    OuterKeepsReserve(t, c, BOXX);
  }

  lemma OuterKeepsReserve(t: Terms, f: Funding, s: Symbol)
    requires s != TQQQ && 0 <= Fill(t, f, s)
    ensures MemberReserve(t, Fund(t, f, s)) == MemberReserve(t, f)
  {
  }

  // ----- how far each symbol is bought

  /** The money a symbol may use, from the cash before it: what is neither restricted nor kept as
      cash target, and for an outer symbol not the unspent member budget either. */
  function FreeFor(t: Terms, s: Symbol, cash: real, core: nat): real
  {
    Max(0.0, cash - t.restricted - t.cashTarget
             - if s == TQQQ then 0.0 else Max(0.0, t.budget - Times(core as real, t.prices.tqqq)))
  }

  /** So many shares are bought for this money: all that are wanted, or else as many as the money,
      and the slack, can pay with the fee. */
  predicate BoughtUpTo(t: Terms, s: Symbol, money: real, shares: nat)
  {
    && shares <= t.targets.At(s)
    && Spent(t, s, shares) <= money + SLACK
    && (shares < t.targets.At(s) ==> Spent(t, s, shares + 1) > money + SLACK)
  }

  /** What shares cost, fee included. */
  lemma SpentInFull(t: Terms, s: Symbol, n: int)
    ensures Spent(t, s, n) == n as real * t.prices.At(s) * (1.0 + t.rate)
    ensures Fee(t, s, n) == n as real * t.prices.At(s) * t.rate
  {
  }

  /** The row of a symbol, if some of it is bought. */
  function RowOf(t: Terms, s: Symbol, n: nat): seq<Trade>
  {
    if n == 0 then [] else [Trade(s, n, OwnerOf(s), t.prices.At(s), Fee(t, s, n))]
  }

  lemma FundBuys(t: Terms, f: Funding, s: Symbol)
    requires t.Sound() && Untouched(f, s)
    ensures 0 <= Fill(t, f, s)
    ensures BoughtUpTo(t, s, FreeFor(t, s, f.cash, f.shares.tqqq), Fill(t, f, s))
  {
    FillIsLargest(t, f, s, Fill(t, f, s) + 1);
  }

  /** One pass of the loop, for a symbol not touched before. */
  lemma FundRecords(t: Terms, f: Funding, s: Symbol)
    requires Untouched(f, s) && 0 <= Fill(t, f, s)
    ensures var n := Fill(t, f, s); var g := Fund(t, f, s);
            && g.shares == f.shares.With(s, n) && g.costs == f.costs.With(s, Fee(t, s, n))
            && g.cash == f.cash - Spent(t, s, n) && g.rows == f.rows + RowOf(t, s, n)
            && g.shortfalls == Short(f.shortfalls, t, s, n)
  {
    TimesSucc(0, t.prices.At(s));
    TimesSucc(0, t.rate);
  }

  /** The shares that the passes buy. */
  function Bought(t: Terms): PerSymbol<nat>
    requires t.Sound()
  {
    FundedInTurn(t);
    var b := Fund(t, Opening(t), TQQQ);
    PerSymbol(Fill(t, Opening(t), TQQQ), Fill(t, b, QQQM), Fill(t, Fund(t, b, QQQM), BOXX))
  }

  lemma FundedRecords(t: Terms)
    requires t.Sound()
    ensures var f, n := Funded(t), Bought(t);
            && f.shares == n
            && f.costs == PerSymbol(Fee(t, TQQQ, n.tqqq), Fee(t, QQQM, n.qqqm), Fee(t, BOXX, n.boxx))
            && f.cash == t.cash - Spent(t, TQQQ, n.tqqq) - Spent(t, QQQM, n.qqqm) - Spent(t, BOXX, n.boxx)
            && f.rows == RowOf(t, TQQQ, n.tqqq) + RowOf(t, QQQM, n.qqqm) + RowOf(t, BOXX, n.boxx)
            && f.shortfalls == Short(Short(Short(map[], t, TQQQ, n.tqqq), t, QQQM, n.qqqm), t, BOXX, n.boxx)
  {
    var a := Opening(t);
    FundedInTurn(t);
    var b := Fund(t, a, TQQQ);
    var c := Fund(t, b, QQQM);
    FundRecords(t, a, TQQQ);
    FundRecords(t, b, QQQM);
    FundRecords(t, c, BOXX);
    assert b.rows == RowOf(t, TQQQ, b.shares.tqqq);
  }

  /** Shortfalls with a symbol that stayed below its target. */
  function Short(shortfalls: map<Symbol, Shortfall>, t: Terms, s: Symbol, n: nat): map<Symbol, Shortfall>
  {
    if n < t.targets.At(s) then shortfalls[s := Shortfall(t.targets.At(s), n)] else shortfalls
  }

  lemma ShortInTurn(t: Terms, n: PerSymbol<nat>, s: Symbol)
    ensures var short := Short(Short(Short(map[], t, TQQQ, n.tqqq), t, QQQM, n.qqqm), t, BOXX, n.boxx);
            && (s in short <==> n.At(s) < t.targets.At(s))
            && (s in short ==> short[s] == Shortfall(t.targets.At(s), n.At(s)))
  {
  }

  /** The whole loop. Each symbol in turn is bought up to its target, or as far as the money free
      for it goes when the earlier symbols are paid; fees, rows and cash are those of the shares
      bought; and a symbol is recorded as short exactly when it stayed below its target, with its
      target and its shares. */
  lemma FundedShares(t: Terms)
    requires t.Sound()
    ensures var f := Funded(t); var n := f.shares;
            && BoughtUpTo(t, TQQQ, FreeFor(t, TQQQ, t.cash, 0), n.tqqq)
            && BoughtUpTo(t, QQQM, FreeFor(t, QQQM, t.cash - Spent(t, TQQQ, n.tqqq), n.tqqq), n.qqqm)
            && BoughtUpTo(t, BOXX, FreeFor(t, BOXX, t.cash - Spent(t, TQQQ, n.tqqq) - Spent(t, QQQM, n.qqqm), n.tqqq),
                          n.boxx)
            && f.cash == t.cash - Spent(t, TQQQ, n.tqqq) - Spent(t, QQQM, n.qqqm) - Spent(t, BOXX, n.boxx)
            && f.rows == RowOf(t, TQQQ, n.tqqq) + RowOf(t, QQQM, n.qqqm) + RowOf(t, BOXX, n.boxx)
    ensures forall s :: Funded(t).costs.At(s) == Fee(t, s, Funded(t).shares.At(s))
    ensures forall s :: s in Funded(t).shortfalls <==> Funded(t).shares.At(s) < t.targets.At(s)
    ensures forall s :: s in Funded(t).shortfalls ==>
              Funded(t).shortfalls[s] == Shortfall(t.targets.At(s), Funded(t).shares.At(s))
  {
    var a := Opening(t);
    FundedInTurn(t);
    FundedRecords(t);
    var b := Fund(t, a, TQQQ);
    FundRecords(t, a, TQQQ);
    FundRecords(t, b, QQQM);
    FundBuys(t, a, TQQQ);
    FundBuys(t, b, QQQM);
    FundBuys(t, Fund(t, b, QQQM), BOXX);
    forall s
      ensures s in Funded(t).shortfalls <==> Funded(t).shares.At(s) < t.targets.At(s)
      ensures s in Funded(t).shortfalls ==>
                Funded(t).shortfalls[s] == Shortfall(t.targets.At(s), Funded(t).shares.At(s))
    {
      ShortInTurn(t, Bought(t), s);
    }
  }
}
