/**
 Flooring money to a ladder. Exact reals stand for the program's decimals.
 */
module Money {
  import opened Wrappers

  function Steps(k: int, step: real): real {
    k as real * step
  }

  /** `v` is a whole number of steps. */
  ghost predicate OnGrid(v: real, step: real) {
    exists k: int :: v == Steps(k, step)
  }

  function Units(v: real, step: real): int
    requires step > 0.0
  {
    (v / step).Floor
  }

  function FloorTo(v: real, step: real): real
    requires step > 0.0
  {
    Steps(Units(v, step), step)
  }

  /** Multiplying by a positive factor keeps the order. */
  lemma Scale(a: real, b: real, factor: real)
    requires factor > 0.0
    ensures a <= b <==> a * factor <= b * factor
    ensures a < b <==> a * factor < b * factor
  {
  }

  lemma StepsOrder(a: int, b: int, step: real)
    requires step > 0.0
    ensures a <= b <==> Steps(a, step) <= Steps(b, step)
  {
    Scale(a as real, b as real, step);
  }

  lemma StepsAdd(a: int, b: int, step: real)
    ensures Steps(a, step) + Steps(b, step) == Steps(a + b, step)
    ensures Steps(0, step) == 0.0 && Steps(1, step) == step
  {
    assert (a + b) as real == a as real + b as real;
  }

  /** The unit count is the one integer with `Steps(n) <= v < Steps(n + 1)`. */
  lemma UnitsBounds(v: real, step: real)
    requires step > 0.0
    ensures Steps(Units(v, step), step) <= v < Steps(Units(v, step) + 1, step)
  {
    var x := v / step;
    var n, above := x.Floor, x.Floor + 1;
    assert x * step == v;
    assert n as real <= x < above as real;
    Scale(n as real, x, step);
    Scale(x, above as real, step);
    assert v < above as real * step;
    assert Units(v, step) == n;
  }

  /** Flooring yields the greatest multiple of the step that does not exceed the value. */
  lemma FloorToIsGreatest(v: real, step: real)
    requires step > 0.0
    ensures OnGrid(FloorTo(v, step), step)
    ensures FloorTo(v, step) <= v < FloorTo(v, step) + step
    ensures forall k: int :: Steps(k, step) <= v ==> Steps(k, step) <= FloorTo(v, step)
  {
    var n := Units(v, step);
    UnitsBounds(v, step);
    StepsAdd(n, 1, step);
    forall k: int | Steps(k, step) <= v
      ensures Steps(k, step) <= FloorTo(v, step)
    {
      StepsOrder(n + 1, k, step);
      StepsOrder(k, n, step);
    }
  }

  lemma UnitsOfMultiple(k: int, step: real)
    requires step > 0.0
    ensures Units(Steps(k, step), step) == k
  {
    assert k as real * step / step == k as real;
  }

  /** A value is unchanged by flooring exactly when it lies on the grid. */
  lemma FixedIffOnGrid(v: real, step: real)
    requires step > 0.0
    ensures FloorTo(v, step) == v <==> OnGrid(v, step)
  {
    FloorToIsGreatest(v, step);
    if OnGrid(v, step) {
      var k: int :| v == Steps(k, step);
      UnitsOfMultiple(k, step);
    }
  }

  datatype MoneyError = StepNotPositive | PriceNotPositive | BudgetNegative

  function QuantizeFloor(v: real, step: real): Result<real, MoneyError> {
    if step <= 0.0 then Err(StepNotPositive) else Ok(FloorTo(v, step))
  }

  function SharesForNotional(budget: real, price: real, step: real): Result<real, MoneyError> {
    if price <= 0.0 then Err(PriceNotPositive)
    else if budget < 0.0 then Err(BudgetNegative)
    else QuantizeFloor(budget / price, step)
  }

  /** The share count fits the budget, and one more step would not. */
  lemma SharesFitBudget(budget: real, price: real, step: real)
    ensures match SharesForNotional(budget, price, step)
            case Ok(n) => OnGrid(n, step) && 0.0 <= n && n * price <= budget < (n + step) * price
            case Err(_) => price <= 0.0 || budget < 0.0 || step <= 0.0
  {
    if price > 0.0 && budget >= 0.0 && step > 0.0 {
      var q := budget / price;
      var n := FloorTo(q, step);
      FloorToIsGreatest(q, step);
      assert q * price == budget;
      Scale(n, q, price);
      Scale(q, n + step, price);
      assert Steps(0, step) <= q;
    }
  }
}
