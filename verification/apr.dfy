/** The annual percentage rate solver: a bounded iteration that nudges a rate
    until the discounted payments of a plan come within a threshold of the
    amortized amount.

    The discount factor `(1 + i) ** (day / 365)` has a fractional exponent, so
    it is a parameter: `discount(i, years)` stands for `(1 + i) ** years`. */
module Apr {
  import opened Outcomes
  import opened PaymentPlan

  type Discount = (real, real) -> real

  /** The solver's tuning parameters. */
  datatype AprOptions = AprOptions(guess: real, delta: real, threshold: real, maxIterations: int)

  /** The defaults: guess 0.05, step 1e-4, threshold 0.01, at most 10^5 (+1) iterations. */
  const DefaultOptions: AprOptions := AprOptions(0.05, 0.0001, 0.01, 100000)

  /** The solver's result: the rate, the last difference and the iterations used. */
  datatype AprResult = AprResult(apr: real, diff: real, iterations: int)

  function Abs(x: real): real
  {
    if x < 0.0 then -x else x
  }

  /** The largest number of iterations the loop can count: its guard admits a
      step while the counter is at most `maxIterations`. */
  function IterationBound(maxIterations: int): int
  {
    if maxIterations < 0 then 0 else maxIterations + 1
  }

  /** Some cycle's discount factor at rate `i` is zero. */
  predicate HasZeroFactor(plan: seq<Cycle>, i: real, discount: Discount)
  {
    exists k :: 0 <= k < |plan| && discount(i, plan[k].periodDay / 365.0) == 0.0
  }

  /** The sum of every payment divided by its discount factor; a zero factor
      anywhere is a division by zero. */
  function PresentValue(plan: seq<Cycle>, i: real, discount: Discount): (r: Result<real>)
    ensures r.Err? <==> HasZeroFactor(plan, i, discount)
    ensures r.Err? ==> r.error == ZeroDivisionError
    decreases |plan|
  {
    if |plan| == 0 then Ok(0.0)
    else
      var factor := discount(i, plan[0].periodDay / 365.0);
      if factor == 0.0 then Err(ZeroDivisionError)
      else match PresentValue(plan[1..], i, discount)
        case Err(e) => Err(e)
        case Ok(rest) => Ok(plan[0].payment / factor + rest)
  }

  /** The step scale `1 + diff/pv`: larger steps while the difference is large. */
  function Multiplier(diff: real, pv: real): real
    requires pv != 0.0
  {
    1.0 + diff / pv
  }

  /** For a positive present value the multiplier exceeds 1 exactly when the
      present value is above the amount, vanishes exactly when the difference
      is `-pv`, and is negative exactly when the present value is short by more
      than itself. */
  lemma MultiplierSign(diff: real, pv: real)
    requires pv > 0.0
    ensures Multiplier(diff, pv) > 1.0 <==> diff > 0.0
    ensures Multiplier(diff, pv) == 0.0 <==> diff == -pv
    ensures Multiplier(diff, pv) < 0.0 <==> diff < -pv
  {
    var q := diff / pv;
    assert q * pv == diff;
  }

  /** The next rate: a step of `delta` scaled by `1 + diff/pv`, added when the
      present value is above the amount and subtracted when below. */
  function NextRate(i: real, diff: real, pv: real, delta: real): (r: real)
    requires pv != 0.0
    ensures diff == 0.0 ==> r == i
    ensures pv > 0.0 && delta != 0.0 ==> (r == i <==> diff == 0.0 || diff == -pv)
  {
    var multiplier := Multiplier(diff, pv);
    if diff > 0.0 then i + delta * multiplier
    else if diff < 0.0 then i - delta * multiplier
    else i
  }

  /** With a positive step and a positive present value the rate moves up when
      the present value exceeds the amount, and down when it falls short by
      less than the present value itself. When it falls short by exactly the
      present value the rate stays put, and when it falls short by more the
      multiplier turns negative and the rate moves up, away from the amount. */
  lemma StepDirection(i: real, diff: real, pv: real, delta: real)
    requires pv > 0.0 && delta > 0.0
    ensures diff > 0.0 ==> NextRate(i, diff, pv, delta) > i
    ensures -pv < diff < 0.0 ==> NextRate(i, diff, pv, delta) < i
    ensures diff == -pv ==> NextRate(i, diff, pv, delta) == i
    ensures diff < -pv ==> NextRate(i, diff, pv, delta) > i
  {
    var m := Multiplier(diff, pv);
    MultiplierSign(diff, pv);
    if diff > 0.0 {
      assert delta * m > 0.0;
    } else if -pv < diff < 0.0 {
      assert delta * m > 0.0;
    } else if diff < -pv {
      assert delta * m < 0.0;
    }
  }

  /** The step as written points the wrong way once the present value is less
      than half the amount: with a present value of 1 against an amount of 3
      the rate rises, which lowers the present value further for positive
      payments. */
  lemma WrongWayStep()
    ensures NextRate(0.0, -2.0, 1.0, 1.0) == 1.0
  {
    assert Multiplier(-2.0, 1.0) == -1.0;
  }

  /** The step the comment "take larger steps if diff is large" evidently
      intends: scaled by `1 + |diff/pv|`, so the scale is at least 1 and the
      step always follows the sign of the difference. */
  function CorrectedNextRate(i: real, diff: real, pv: real, delta: real): (r: real)
    requires pv != 0.0
  {
    var multiplier := 1.0 + Abs(diff / pv);
    if diff > 0.0 then i + delta * multiplier
    else if diff < 0.0 then i - delta * multiplier
    else i
  }

  /** The corrected step moves the rate up exactly when the present value is
      above the amount and down exactly when it is below, by at least `delta`,
      for every non-zero present value. */
  lemma CorrectedStepDirection(i: real, diff: real, pv: real, delta: real)
    requires pv != 0.0 && delta > 0.0
    ensures CorrectedNextRate(i, diff, pv, delta) >= i + delta <==> diff > 0.0
    ensures CorrectedNextRate(i, diff, pv, delta) <= i - delta <==> diff < 0.0
    ensures CorrectedNextRate(i, diff, pv, delta) == i <==> diff == 0.0
  {
    var m := 1.0 + Abs(diff / pv);
    assert m >= 1.0;
    if diff > 0.0 {
      assert delta * m >= delta;
    } else if diff < 0.0 {
      assert delta * m >= delta;
    }
  }

  /** The amount the present value is matched against: the plan's total amortization. */
  function LoanAmount(plan: seq<Cycle>): real
  {
    Total(plan, Amortization)
  }

  /** For a plan whose payments split into amortization and interest, the
      amount the solver targets is what is paid minus the interest. */
  lemma LoanAmountSplits(plan: seq<Cycle>)
    requires forall k :: 0 <= k < |plan| ==> Splits(plan[k])
    ensures LoanAmount(plan) == Total(plan, Payment) - Total(plan, Interest)
  {
    TotalSplits(plan);
  }

  /** The solver's starting state: the guess spread over one more than the
      number of cycles, a difference of 1, no iterations. */
  function Initial(plan: seq<Cycle>, o: AprOptions): (s: AprResult)
    ensures s.iterations == 0 && s.diff == 1.0
    ensures s.apr * ((|plan| + 1) as real) == o.guess
    ensures (Abs(s.diff) > o.threshold && s.iterations <= o.maxIterations)
            <==> (o.threshold < 1.0 && o.maxIterations >= 0)
  {
    AprResult(o.guess / ((|plan| + 1) as real), 1.0, 0)
  }

  /** The solver loop, run from state `s`. It stops when the difference is
      within the threshold or the counter has passed `maxIterations`, and stops
      early, without counting, when the present value matches exactly. */
  function AprLoop(plan: seq<Cycle>, amount: real, o: AprOptions, discount: Discount, s: AprResult): (r: Result<AprResult>)
    requires 0 <= s.iterations <= IterationBound(o.maxIterations)
    ensures r.Err? ==> r.error == ZeroDivisionError
    ensures r.Ok? ==> s.iterations <= r.value.iterations <= IterationBound(o.maxIterations)
    ensures r.Ok? ==> r.value.diff == 0.0 || Abs(r.value.diff) <= o.threshold
                      || r.value.iterations > o.maxIterations
    decreases o.maxIterations + 1 - s.iterations
  {
    if !(Abs(s.diff) > o.threshold && s.iterations <= o.maxIterations) then Ok(s)
    else match PresentValue(plan, s.apr, discount)
      case Err(e) => Err(e)
      case Ok(pv) =>
        var diff := pv - amount;
        if pv == 0.0 then Err(ZeroDivisionError)
        else if diff == 0.0 then Ok(AprResult(s.apr, diff, s.iterations))
        else AprLoop(plan, amount, o, discount, AprResult(NextRate(s.apr, diff, pv, o.delta), diff, s.iterations + 1))
  }

  /** One turn of the solver loop, when its guard holds and the present value
      `pv` is defined and non-zero. */
  lemma LoopUnfolds(plan: seq<Cycle>, amount: real, o: AprOptions, discount: Discount, s: AprResult, pv: real)
    requires 0 <= s.iterations <= o.maxIterations
    requires Abs(s.diff) > o.threshold
    requires PresentValue(plan, s.apr, discount) == Ok(pv) && pv != 0.0
    ensures pv - amount == 0.0 ==>
              AprLoop(plan, amount, o, discount, s) == Ok(AprResult(s.apr, pv - amount, s.iterations))
    ensures pv - amount != 0.0 ==>
              AprLoop(plan, amount, o, discount, s)
              == AprLoop(plan, amount, o, discount,
                         AprResult(NextRate(s.apr, pv - amount, pv, o.delta), pv - amount, s.iterations + 1))
  {
  }

  /** The solver as a loop. It agrees with `AprLoop` from the initial state,
      never counts past the iteration bound, and returns the initial state
      untouched when the threshold is at least 1. */
  method CalculateApr(plan: seq<Cycle>, o: AprOptions, discount: Discount) returns (r: Result<AprResult>)
    ensures r == AprLoop(plan, LoanAmount(plan), o, discount, Initial(plan, o))
    ensures r.Ok? ==> 0 <= r.value.iterations <= IterationBound(o.maxIterations)
    ensures o.threshold >= 1.0 ==> r == Ok(AprResult(o.guess / ((|plan| + 1) as real), 1.0, 0))
  {
    var amount := LoanAmount(plan);
    var diff := 1.0;
    var iterations := 0;
    var i := o.guess / ((|plan| + 1) as real);
    ghost var outcome := AprLoop(plan, amount, o, discount, Initial(plan, o));
    while Abs(diff) > o.threshold && iterations <= o.maxIterations
      invariant 0 <= iterations <= IterationBound(o.maxIterations)
      invariant AprLoop(plan, amount, o, discount, AprResult(i, diff, iterations)) == outcome
      decreases o.maxIterations + 1 - iterations
    {
      ghost var before := AprResult(i, diff, iterations);
      var pv := PresentValue(plan, i, discount);
      if pv.Err? {
        return Err(pv.error);
      }
      diff := pv.value - amount;
      if pv.value == 0.0 {
        return Err(ZeroDivisionError);
      }
      LoopUnfolds(plan, amount, o, discount, before, pv.value);
      if diff == 0.0 {
        break;
      }
      i := NextRate(i, diff, pv.value, o.delta);
      iterations := iterations + 1;
    }
    r := Ok(AprResult(i, diff, iterations));
  }
}
