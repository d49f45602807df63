/**
 Dividing one approved size into a ladder of orders.
 
 Sizes are whole steps of the venue, so the division is one of whole numbers: as even as it can be.
 */
module Split {
  import opened Money
  import opened Wrappers

  datatype SplitError = CountBelowOne | SizeNotPositive | SizeStepNotPositive | ZeroMinimum

  /** Python's `int()` of a quotient: truncation toward zero. */
  function Truncate(x: real): int {
    if x >= 0.0 then x.Floor else -((-x).Floor)
  }

  /** How many parts the ladder has; 0 where the code returns no sizes. */
  function PartCount(total: real, count: int, minimum: real, step: real): (n: Result<nat, SplitError>)
    ensures n.Ok? ==> n.value <= count && step > 0.0 && total > 0.0
  {
    if count < 1 then Err(CountBelowOne)
    else if total <= 0.0 then Err(SizeNotPositive)
    else if step <= 0.0 then Err(SizeStepNotPositive)
    else
      var quantized := FloorTo(total, step);
      if quantized < minimum then Ok(0)
      else if minimum == 0.0 then Err(ZeroMinimum)
      else
        var usable := if count <= Truncate(quantized / minimum) then count else Truncate(quantized / minimum);
        if usable < 1 then Ok(0) else Ok(usable)
  }

  /** Units of part `i` when `q` units are dealt over `n` parts, the earlier parts first. */
  function Dealt(q: int, n: nat, i: nat): (units: int)
    requires i < n
  {
    q / n + if i < q % n then 1 else 0
  }

  function Even(q: int, n: nat, step: real): (parts: seq<real>)
    ensures |parts| == n
  {
    seq(n, i requires 0 <= i < n => Steps(Dealt(q, n, i), step))
  }

  function Ladder(total: real, count: int, minimum: real, step: real): Result<seq<real>, SplitError> {
    match PartCount(total, count, minimum, step)
    case Err(e) => Err(e)
    case Ok(n) => Ok(if n == 0 then [] else Even(Units(total, step), n, step))
  }

  lemma Euclid(q: int, n: nat)
    requires n > 0
    ensures q == n * (q / n) + q % n && 0 <= q % n < n
  {
  }

  lemma Multiply(a: int, b: int, n: nat)
    requires n > 0
    ensures a <= b <==> n * a <= n * b
  {
    if a <= b {
      assert n * (b - a) >= 0;
    } else {
      assert n * (a - b) >= 1;
    }
  }

  lemma QuotientIs(q: int, n: nat, k: int)
    requires n > 0 && n * k <= q < n * (k + 1)
    ensures q / n == k
  {
    Euclid(q, n);
    Multiply(k, q / n, n);
    Multiply(q / n + 1, k, n);
    Multiply(k + 1, q / n, n);
  }

  lemma ShareInUnits(q: int, n: nat, step: real)
    requires n > 0 && step > 0.0
    ensures Units(Steps(q, step) / n as real, step) == q / n
  {
    var v := Steps(q, step) / n as real;
    var k := Units(v, step);
    UnitsBounds(v, step);
    assert v * n as real == Steps(q, step);
    Scale(Steps(k, step), v, n as real);
    Scale(v, Steps(k + 1, step), n as real);
    assert Steps(k, step) * n as real == Steps(n * k, step);
    assert Steps(k + 1, step) * n as real == Steps(n * (k + 1), step);
    StepsOrder(n * k, q, step);
    StepsOrder(n * (k + 1), q, step);
    QuotientIs(q, n, k);
  }

  lemma SmallModulus(a: nat, n: nat)
    requires a < n
    ensures a % n == a
  {
  }

  /** The loop of `split_size`: deal the leftover one step at a time. Fewer rounds than parts, and no dust remains. */
  method Deal(q: int, n: nat, step: real) returns (sizes: seq<real>, rounds: nat, dust: real)
    requires n > 0 && step > 0.0
    ensures sizes == Even(q, n, step)
    ensures rounds < n && dust == 0.0
  {
    var base := Steps(q / n, step);
    sizes := seq(n, _ => base);
    var remainder := Steps(q, step) - base * n as real;
    var index := 0;
    rounds := 0;
    StepsAdd(0, 0, step);
    while remainder >= step
      invariant rounds <= q % n && index == rounds && |sizes| == n
      invariant remainder == Steps(q % n - rounds, step)
      invariant forall i | 0 <= i < n :: sizes[i] == Steps(q / n + if i < rounds then 1 else 0, step)
      decreases q % n - rounds
    {
      StepsOrder(1, q % n - rounds, step);
      StepsAdd(q / n, 1, step);
      StepsAdd(q % n - rounds - 1, 1, step);
      sizes := sizes[index := sizes[index] + step];
      remainder := remainder - step;
      rounds := rounds + 1;
      SmallModulus(index + 1, n);
      index := (index + 1) % n;
    }
    StepsOrder(1, q % n - rounds, step);
    dust := remainder;
  }

  /** The method follows the code's branches; the ladder is the even one. */
  method SplitSize(total: real, count: int, minimum: real, step: real) returns (r: Result<seq<real>, SplitError>)
    ensures r == Ladder(total, count, minimum, step)
  {
    if count < 1 { return Err(CountBelowOne); }
    if total <= 0.0 { return Err(SizeNotPositive); }
    if step <= 0.0 { return Err(SizeStepNotPositive); }
    var quantized := FloorTo(total, step);
    if quantized < minimum { return Ok([]); }
    if minimum == 0.0 { return Err(ZeroMinimum); }
    var usable := if count <= Truncate(quantized / minimum) then count else Truncate(quantized / minimum);
    if usable < 1 { return Ok([]); }
    ShareInUnits(Units(total, step), usable, step);
    assert FloorTo(quantized / usable as real, step) == Steps(Units(total, step) / usable, step);
    var sizes, _, _ := Deal(Units(total, step), usable, step);
    return Ok(sizes);
  }

  function Sum(xs: seq<real>): real {
    if xs == [] then 0.0 else Sum(xs[..|xs| - 1]) + xs[|xs| - 1]
  }

  /** Units dealt to the first `k` parts. */
  function DealtTo(q: int, n: nat, k: nat): int
    requires 0 < n
  {
    k * (q / n) + if k < q % n then k else q % n
  }

  lemma DealtNext(q: int, n: nat, k: nat)
    requires k < n
    ensures DealtTo(q, n, k) + Dealt(q, n, k) == DealtTo(q, n, k + 1)
  {
    assert (k + 1) * (q / n) == k * (q / n) + q / n;
  }

  lemma {:induction false} EvenPrefixSum(q: int, n: nat, step: real, k: nat)
    requires 0 < n && k <= n
    ensures Sum(Even(q, n, step)[..k]) == Steps(DealtTo(q, n, k), step)
  {
    var e := Even(q, n, step);
    if k == 0 {
      Euclid(q, n);
    } else {
      EvenPrefixSum(q, n, step, k - 1);
      assert e[..k][..k - 1] == e[..k - 1];
      DealtNext(q, n, k - 1);
      StepsAdd(DealtTo(q, n, k - 1), Dealt(q, n, k - 1), step);
    }
  }

  lemma DealtBounds(q: int, n: nat, i: nat, j: nat, step: real)
    requires i <= j < n && step > 0.0
    ensures Steps(Dealt(q, n, j), step) <= Steps(Dealt(q, n, i), step) <= Steps(Dealt(q, n, j), step) + step
    ensures q >= 0 ==> 0.0 <= Steps(Dealt(q, n, i), step)
  {
    StepsOrder(Dealt(q, n, j), Dealt(q, n, i), step);
    StepsOrder(Dealt(q, n, i), Dealt(q, n, j) + 1, step);
    StepsAdd(Dealt(q, n, j), 1, step);
    StepsOrder(0, Dealt(q, n, i), step);
  }

  /** No size is lost or invented: the parts sum to the step-floor of the approved size, as evenly as steps allow. */
  lemma LadderConserves(total: real, count: int, minimum: real, step: real)
    requires Ladder(total, count, minimum, step).Ok? && Ladder(total, count, minimum, step).value != []
    ensures var parts := Ladder(total, count, minimum, step).value;
            && |parts| <= count
            && Sum(parts) == FloorTo(total, step) <= total
            && (forall i, j | 0 <= i <= j < |parts| :: parts[j] <= parts[i] <= parts[j] + step)
            && (forall i | 0 <= i < |parts| :: 0.0 <= parts[i] && OnGrid(parts[i], step))
  {
    var parts, n, q := Ladder(total, count, minimum, step).value, PartCount(total, count, minimum, step).value, Units(total, step);
    EvenPrefixSum(q, n, step, n);
    assert parts[..n] == parts;
    Euclid(q, n);
    FloorToIsGreatest(total, step);
    StepsAdd(0, q + 1, step);
    StepsOrder(q + 1, 0, step);
    UnitsBounds(total, step);
    forall i, j | 0 <= i <= j < n
      ensures parts[j] <= parts[i] <= parts[j] + step && 0.0 <= parts[i]
    {
      DealtBounds(q, n, i, j, step);
    }
    forall i | 0 <= i < n
      ensures 0.0 <= parts[i] && OnGrid(parts[i], step)
    {
      DealtBounds(q, n, i, i, step);
      assert parts[i] == Steps(Dealt(q, n, i), step);
    }
  }

  predicate AllClear(parts: seq<real>, minimum: real) {
    forall i | 0 <= i < |parts| :: parts[i] >= minimum
  }

  lemma WholeQuotient(a: int, m: nat, step: real)
    requires step > 0.0 && m >= 1 && a >= 0
    ensures Truncate(Steps(a, step) / Steps(m, step)) == a / m
  {
    StepsAdd(0, 0, step);
    StepsOrder(1, m, step);
    StepsOrder(0, a, step);
    var n := Units(Steps(a, step), Steps(m, step));
    UnitsBounds(Steps(a, step), Steps(m, step));
    StepsOrder(n * m, a, step);
    StepsOrder((n + 1) * m, a, step);
    assert Steps(a, step) / Steps(m, step) >= 0.0;
    QuotientIs(a, m, n);
  }

  /** Against a minimum of `m` whole steps, the part count is the largest whose parts hold `m` units each. */
  lemma PartCountInUnits(total: real, count: int, m: int, step: real)
    requires step > 0.0 && total > 0.0 && count >= 1 && m >= 1
    ensures var n := PartCount(total, count, Steps(m, step), step);
            && n.Ok?
            && (n.value > 0 ==> n.value * m <= Units(total, step))
            && (n.value < count ==> Units(total, step) < (n.value + 1) * m)
  {
    var q := Units(total, step);
    StepsAdd(0, 0, step);
    StepsOrder(1, m, step);
    StepsOrder(m, q, step);
    if q >= m {
      WholeQuotient(q, m, step);
      Euclid(q, m);
      var n := PartCount(total, count, Steps(m, step), step).value;
      Multiply(1, q / m, m);
      Multiply(n, q / m, m);
      assert n == if count <= q / m then count else q / m;
    }
  }

  lemma DivideAtLeast(q: int, n: nat, m: int)
    requires n > 0
    ensures n * m <= q <==> q / n >= m
  {
    Euclid(q, n);
    Multiply(m, q / n, n);
    Multiply(q / n + 1, m, n);
  }

  /** A minimum that is a whole number of steps is cleared by every part, and one part more would miss it. */
  lemma MultipleClears(total: real, count: int, m: int, step: real)
    requires step > 0.0 && total > 0.0 && count >= 1 && m >= 1
    ensures var parts := Ladder(total, count, Steps(m, step), step);
            && parts.Ok?
            && AllClear(parts.value, Steps(m, step))
            && (|parts.value| < count ==> !AllClear(Even(Units(total, step), |parts.value| + 1, step), Steps(m, step)))
  {
    PartCountInUnits(total, count, m, step);
    var n, q := PartCount(total, count, Steps(m, step), step).value, Units(total, step);
    if n > 0 {
      DivideAtLeast(q, n, m);
      forall i | 0 <= i < n
        ensures Steps(Dealt(q, n, i), step) >= Steps(m, step)
      {
        StepsOrder(m, Dealt(q, n, i), step);
      }
    }
    if n < count {
      DivideAtLeast(q, n + 1, m);
      Euclid(q, n + 1);
      StepsOrder(m, Dealt(q, n + 1, n), step);
      assert Even(q, n + 1, step)[n] == Steps(Dealt(q, n + 1, n), step) < Steps(m, step);
    }
  }

  lemma EnoughParts(short: real, step: real) returns (n: nat)
    requires short > 0.0 && step > 0.0
    ensures n >= 1 && n as real * short >= step
  {
    var x := step / short;
    n := x.Floor + 1;
    assert x * short == step;
    Scale(0.0, x, short);
    Scale(x, n as real, short);
  }

  lemma AtLeastTimes(total: real, n: nat, minimum: real)
    requires n >= 1 && minimum > 0.0 && n as real * minimum <= total
    ensures minimum <= total && Truncate(total / minimum) >= n
  {
    var x := total / minimum;
    assert x * minimum == total;
    Scale(n as real, x, minimum);
    Scale(1.0, n as real, minimum);
    assert 1.0 * minimum == minimum;
    assert n as real <= x;
  }

  lemma AllPartsFit(q: int, n: nat, minimum: real, step: real)
    requires n >= 1 && minimum > 0.0 && step > 0.0 && n as real * minimum <= Steps(q, step)
    ensures PartCount(Steps(q, step), n, minimum, step) == Ok(n)
  {
    UnitsOfMultiple(q, step);
    AtLeastTimes(Steps(q, step), n, minimum);
  }

  lemma LastPart(n: nat, m: int)
    requires n >= 1
    ensures var q := n * (m + 1) - 1; q / n == m && q % n == n - 1
  {
    var q := n * (m + 1) - 1;
    assert q == n * m + (n - 1);
    QuotientIs(q, n, m);
    Euclid(q, n);
    assert q / n == m;
    assert n * (q / n) == n * m;
  }

  /** A minimum strictly between `m` and `m + 1` steps is missed by this ladder. */
  lemma OffGridMisses(minimum: real, m: int, step: real)
    requires step > 0.0 && minimum > 0.0 && Steps(m, step) < minimum < Steps(m + 1, step)
    ensures exists total, count :: Ladder(total, count, minimum, step).Ok? && !AllClear(Ladder(total, count, minimum, step).value, minimum)
  {
    // Enough parts that the shortfalls of the parts add up to a whole step.
    var n := EnoughParts(Steps(m + 1, step) - minimum, step);
    var q := n * (m + 1) - 1;
    AllPartsFit(q, n, minimum, step);
    UnitsOfMultiple(q, step);
    LastPart(n, m);
    var parts := Even(q, n, step);
    assert Ladder(Steps(q, step), n, minimum, step) == Ok(parts);
    assert parts[n - 1] == Steps(m, step);
    assert !AllClear(parts, minimum);
  }

  /** Exactly the minimums that are whole numbers of steps are respected by every ladder. */
  lemma MinimumRespectedIff(minimum: real, step: real)
    requires minimum > 0.0 && step > 0.0
    ensures OnGrid(minimum, step) <==>
            (forall total, count :: Ladder(total, count, minimum, step).Ok? ==> AllClear(Ladder(total, count, minimum, step).value, minimum))
  {
    if OnGrid(minimum, step) {
      var m: int :| minimum == Steps(m, step);
      StepsAdd(0, 0, step);
      StepsOrder(m, 0, step);
      forall total, count | Ladder(total, count, minimum, step).Ok?
        ensures AllClear(Ladder(total, count, minimum, step).value, minimum)
      {
        MultipleClears(total, count, m, step);
      }
    } else {
      var m := Units(minimum, step);
      UnitsBounds(minimum, step);
      OffGridMisses(minimum, m, step);
    }
  }
}
