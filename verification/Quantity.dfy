/** Order quantities: flooring to a quantity step, and rounding a price to cents.
    Money and share quantities are real numbers. */
module Quantity {

  function Max(a: real, b: real): real { if a < b then b else a }
  function Min(a: real, b: real): real { if b < a then b else a }
  function Abs(a: real): real { if a < 0.0 then -a else a }

  /** Division; a zero divisor gives zero. */
  function Ratio(a: real, b: real): real { if b == 0.0 then 0.0 else a / b }

  /** A product, kept behind a name so that proofs treat it as one number. */
  function Times(a: real, b: real): real
  {
    a * b
  }

  lemma TimesSucc(n: int, b: real)
    ensures Times((n + 1) as real, b) == Times(n as real, b) + b
    ensures Times(0.0, b) == 0.0
    ensures Times(1.0, b) == b
  {
    assert (n + 1) as real == n as real + 1.0;
  }

  lemma TimesMonotone(a: real, b: real, c: real)
    requires a <= b && 0.0 <= c
    ensures Times(a, c) <= Times(b, c)
    ensures Times(c, a) <= Times(c, b)
    ensures 0.0 <= a ==> 0.0 <= Times(a, c)
  {
  }

  lemma TimesStrict(a: real, b: real, c: real)
    requires 0.0 < c
    ensures a < b <==> Times(a, c) < Times(b, c)
  {
  }

  lemma QuotientTimes(a: real, b: real)
    requires 0.0 < b
    ensures Times(a / b, b) == a
    ensures 0.0 <= a ==> 0.0 <= a / b
  {
    var q := a / b;
    assert q * b == a;
    TimesStrict(q, 0.0, b);
  }

  /** A step that is not positive counts as one whole share. */
  function EffectiveStep(step: real): real
  {
    if step <= 0.0 then 1.0 else step
  }

  /** How many whole steps fit in a quantity. */
  function Steps(quantity: real, step: real): nat
  {
    if quantity <= 0.0 then 0
    else
      QuotientTimes(quantity, EffectiveStep(step));
      (quantity / EffectiveStep(step)).Floor
  }

  /** `floor_to_quantity_step`: the largest whole number of steps not above the quantity. */
  function FloorToStep(quantity: real, step: real): real
  {
    Times(Steps(quantity, step) as real, EffectiveStep(step))
  }

  lemma FloorOfQuotient(quantity: real, s: real)
    requires 0.0 < s
    ensures var n := (quantity / s).Floor;
            Times(n as real, s) <= quantity < Times((n + 1) as real, s)
  {
    var n := (quantity / s).Floor;
    QuotientTimes(quantity, s);
    TimesMonotone(n as real, quantity / s, s);
    TimesStrict(quantity / s, (n + 1) as real, s);
  }

  /** The flooring contract: a multiple of the step, not above the quantity, less than a step below it. */
  lemma FloorBounds(quantity: real, step: real)
    ensures 0.0 <= FloorToStep(quantity, step)
    ensures quantity <= 0.0 ==> FloorToStep(quantity, step) == 0.0
    ensures 0.0 <= quantity ==> FloorToStep(quantity, step) <= quantity
    ensures 0.0 < quantity ==> quantity - FloorToStep(quantity, step) < EffectiveStep(step)
  {
    var s, n := EffectiveStep(step), Steps(quantity, step);
    TimesMonotone(0.0, n as real, s);
    TimesSucc(n, s);
    if 0.0 < quantity {
      FloorOfQuotient(quantity, s);
    }
  }

  /** ... and it is the only such multiple: any multiple within a step below the quantity is the floor. */
  lemma FloorUnique(quantity: real, step: real, n: nat)
    requires 0.0 < quantity
    requires Times(n as real, EffectiveStep(step)) <= quantity < Times((n + 1) as real, EffectiveStep(step))
    ensures Steps(quantity, step) == n
  {
    var s := EffectiveStep(step);
    FloorOfQuotient(quantity, s);
    var m := (quantity / s).Floor;
    TimesStrict(m as real, (n + 1) as real, s);
    TimesStrict(n as real, (m + 1) as real, s);
  }

  /** Flooring twice to one step is flooring once. */
  lemma FloorIdempotent(quantity: real, step: real)
    ensures FloorToStep(FloorToStep(quantity, step), step) == FloorToStep(quantity, step)
  {
    var s, n := EffectiveStep(step), Steps(quantity, step);
    var f := FloorToStep(quantity, step);
    FloorBounds(quantity, step);
    TimesSucc(n, s);
    if 0.0 < f {
      FloorUnique(f, step, n);
    } else {
      FloorBounds(f, step);
    }
  }

  /** A lot above one is a board lot; any other lot means whole shares. */
  function LotStep(lot: int): real
  {
    if lot > 1 then lot as real else 1.0
  }

  /** `_normalize_trade_quantity`, and the flooring of a sell at submission. */
  function FloorToLot(quantity: real, lot: int): real
  {
    FloorToStep(quantity, LotStep(lot))
  }

  lemma IntegerTimes(n: nat, lot: nat)
    ensures (n * lot) as real == Times(n as real, lot as real)
  {
  }

  /** The whole part of a quantity holds as many whole lots as the quantity itself. */
  lemma WholePartLots(quantity: real, lot: nat, whole: nat)
    requires 0.0 < quantity && 1 < lot
    requires whole as real <= quantity < (whole + 1) as real
    ensures Steps(whole as real, lot as real) == Steps(quantity, lot as real)
  {
    var n := Steps(quantity, lot as real);
    FloorOfQuotient(quantity, lot as real);
    IntegerTimes(n, lot);
    IntegerTimes(n + 1, lot);
    var low, high := n * lot, (n + 1) * lot;
    assert low as real <= quantity < high as real;
    assert low <= whole < high;
    if 0 < whole {
      FloorUnique(whole as real, lot as real, n);
    } else {
      NoLots(n, lot);
    }
  }

  lemma NoLots(n: nat, lot: nat)
    requires 1 < lot && n * lot == 0
    ensures n == 0
  {
  }

  /** Flooring to whole shares and then to a board lot is flooring once to the lot. */
  lemma FloorWholeThenLot(quantity: real, lot: int)
    ensures FloorToLot(FloorToLot(quantity, 1), lot) == FloorToLot(quantity, lot)
  {
    FloorIdempotent(quantity, 1.0);
    if lot > 1 && 0.0 < quantity {
      FloorOfQuotient(quantity, 1.0);
      TimesSucc(0, 1.0);
      WholePartLots(quantity, lot, Steps(quantity, 1.0));
    }
  }

  /** Python's `round(x, 2)` in exact arithmetic: nearest cent, ties to the even cent. */
  function RoundCents(x: real): real
  {
    var y := x * 100.0;
    var f := y.Floor;
    var d := y - f as real;
    (if d < 0.5 || (d == 0.5 && f % 2 == 0) then f as real else (f + 1) as real) / 100.0
  }

  lemma RoundCentsNear(x: real)
    ensures -0.005 <= RoundCents(x) - x <= 0.005
  {
  }

  /** A whole number of cents, nearest to the number, the even one of two that are as near. */
  predicate IsNearestCents(x: real, cents: int)
  {
    var off := x * 100.0 - cents as real;
    -0.5 <= off <= 0.5 && (off == 0.5 || off == -0.5 ==> cents % 2 == 0)
  }

  lemma RoundCentsNearest(x: real, cents: int)
    ensures RoundCents(x) == cents as real / 100.0 <==> IsNearestCents(x, cents)
  {
    var f := (x * 100.0).Floor;
    var n := (RoundCents(x) * 100.0).Floor;
    assert RoundCents(x) == n as real / 100.0 && (n == f || n == f + 1);
    if IsNearestCents(x, cents) {
      assert cents == f || cents == f + 1;
    }
  }
}
