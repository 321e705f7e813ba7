/** `payment_plan_annuity`: the schedule of an annuity loan, one cycle per
    month, and the rules every cycle of it follows. */
module AnnuityPlan {
  import opened Outcomes
  import opened Powers
  import opened PaymentPlan
  import opened Annuity

  /** The cycle for period `j` of a plan, given the balance it starts with. */
  function NewCycle(j: int, rate: real, fee: real, payment: real, incoming: real): (c: Cycle)
    ensures CycleFollows(c, j, rate, fee, payment) && c.incomingBalance == incoming
    ensures c.remainingBalance + c.interestPayment == Carry(rate, fee, payment, incoming)
  {
    var interest := rate * incoming;
    Cycle(
      period := j,
      periodDay := (j as real) * MonthDays,
      incomingBalance := incoming,
      remainingBalance := incoming + fee - payment,
      payment := payment,
      amortization := payment - interest,
      interestPayment := interest)
  }

  /** The cycles for periods `first .. first + count - 1`, the first one
      starting from balance `incoming` and each next one from the balance the
      previous one carries forward. */
  function BuildCycles(rate: real, fee: real, payment: real, incoming: real, first: int, count: nat): (plan: seq<Cycle>)
    ensures |plan| == count
    ensures forall k :: 0 <= k < count ==> plan[k].period == first + k && plan[k].payment == payment
    ensures forall k :: 0 <= k < count ==>
              plan[k].incomingBalance == BalanceAfter(rate, fee, payment, incoming, k)
    decreases count
  {
    if count == 0 then []
    else
      var c := NewCycle(first, rate, fee, payment, incoming);
      [c] + BuildCycles(rate, fee, payment, c.remainingBalance + c.interestPayment, first + 1, count - 1)
  }

  /** Cycle `c` is period `j` of a plan with this rate, fee and payment: the
      interest is charged on the incoming balance, the payment splits into
      amortization and interest, and the remaining balance is the incoming
      balance plus the fee minus the payment. */
  predicate CycleFollows(c: Cycle, j: int, rate: real, fee: real, payment: real)
  {
    && c.period == j
    && c.periodDay == (j as real) * MonthDays
    && c.payment == payment
    && c.interestPayment == rate * c.incomingBalance
    && c.amortization + c.interestPayment == payment
    && c.remainingBalance == c.incomingBalance + fee - payment
  }

  /** `plan` is a schedule starting at period `first` with balance `incoming`,
      in which each next cycle starts from the previous cycle's remaining
      balance with its interest added back. */
  predicate ScheduleFrom(plan: seq<Cycle>, incoming: real, first: int, rate: real, fee: real, payment: real)
  {
    && (|plan| > 0 ==> plan[0].incomingBalance == incoming)
    && (forall k :: 0 <= k < |plan| ==> CycleFollows(plan[k], first + k, rate, fee, payment))
    && (forall k :: 0 <= k < |plan| - 1 ==>
          plan[k + 1].incomingBalance == plan[k].remainingBalance + plan[k].interestPayment)
  }

  /** Built cycles follow the schedule rules. */
  lemma {:induction false} BuiltIsSchedule(rate: real, fee: real, payment: real, incoming: real, first: int, count: nat)
    ensures ScheduleFrom(BuildCycles(rate, fee, payment, incoming, first, count), incoming, first, rate, fee, payment)
    decreases count
  {
    if count > 0 {
      var c := NewCycle(first, rate, fee, payment, incoming);
      var next := c.remainingBalance + c.interestPayment;
      var tail := BuildCycles(rate, fee, payment, next, first + 1, count - 1);
      BuiltIsSchedule(rate, fee, payment, next, first + 1, count - 1);
      var plan := [c] + tail;
      assert plan == BuildCycles(rate, fee, payment, incoming, first, count);
      forall k | 0 <= k < |plan|
        ensures CycleFollows(plan[k], first + k, rate, fee, payment)
      {
        if k > 0 {
          assert plan[k] == tail[k - 1];
          assert CycleFollows(tail[k - 1], first + 1 + (k - 1), rate, fee, payment);
        }
      }
      forall k | 0 <= k < |plan| - 1
        ensures plan[k + 1].incomingBalance == plan[k].remainingBalance + plan[k].interestPayment
      {
        assert plan[k + 1] == tail[k];
        if k > 0 {
          assert plan[k] == tail[k - 1];
        }
      }
    }
  }

  /** The cycles of a schedule each split their payment into amortization and interest. */
  lemma ScheduleSplits(plan: seq<Cycle>, incoming: real, first: int, rate: real, fee: real, payment: real)
    requires ScheduleFrom(plan, incoming, first, rate, fee, payment)
    ensures forall k :: 0 <= k < |plan| ==> Splits(plan[k])
  {
    forall k | 0 <= k < |plan|
      ensures Splits(plan[k])
    {
      assert CycleFollows(plan[k], first + k, rate, fee, payment);
    }
  }

  /** A schedule is determined by its start: it is the built one. */
  lemma {:induction false} ScheduleIsBuilt(plan: seq<Cycle>, incoming: real, first: int, rate: real, fee: real, payment: real)
    requires ScheduleFrom(plan, incoming, first, rate, fee, payment)
    ensures plan == BuildCycles(rate, fee, payment, incoming, first, |plan|)
    decreases |plan|
  {
    if |plan| > 0 {
      var c := NewCycle(first, rate, fee, payment, incoming);
      assert CycleFollows(plan[0], first, rate, fee, payment);
      assert plan[0] == c;
      var next := c.remainingBalance + c.interestPayment;
      var tail := plan[1..];
      assert ScheduleFrom(tail, next, first + 1, rate, fee, payment) by {
        forall k | 0 <= k < |tail|
          ensures CycleFollows(tail[k], first + 1 + k, rate, fee, payment)
        {
          assert tail[k] == plan[k + 1];
        }
        if |tail| > 0 {
          assert tail[0].incomingBalance == next;
        }
      }
      ScheduleIsBuilt(tail, next, first + 1, rate, fee, payment);
      assert plan == [c] + tail;
    }
  }

  /** Every built cycle carries forward the balance of the recurrence: after
      cycle `k` (from 0) the balance is the starting one carried `k + 1` times. */
  lemma BuiltCarriesBalance(rate: real, fee: real, payment: real, incoming: real, first: int, count: nat)
    ensures var plan := BuildCycles(rate, fee, payment, incoming, first, count);
            forall k :: 0 <= k < count ==>
              plan[k].remainingBalance + plan[k].interestPayment
              == BalanceAfter(rate, fee, payment, incoming, k + 1)
  {
    var plan := BuildCycles(rate, fee, payment, incoming, first, count);
    BuiltIsSchedule(rate, fee, payment, incoming, first, count);
    forall k | 0 <= k < count
      ensures plan[k].remainingBalance + plan[k].interestPayment
              == BalanceAfter(rate, fee, payment, incoming, k + 1)
    {
      assert CycleFollows(plan[k], first + k, rate, fee, payment);
      BalanceAfterStep(rate, fee, payment, incoming, k);
    }
  }

  /** Telescoping: the amortizations of a built plan sum to the balance it
      starts from, minus the balance it carries out, plus one fee per cycle. */
  lemma {:induction false} AmortizationsTelescope(rate: real, fee: real, payment: real, incoming: real, first: int, count: nat)
    ensures Total(BuildCycles(rate, fee, payment, incoming, first, count), Amortization)
            == incoming - BalanceAfter(rate, fee, payment, incoming, count) + (count as real) * fee
    decreases count
  {
    if count > 0 {
      var c := NewCycle(first, rate, fee, payment, incoming);
      var next := c.remainingBalance + c.interestPayment;
      var rest := BuildCycles(rate, fee, payment, next, first + 1, count - 1);
      var plan := BuildCycles(rate, fee, payment, incoming, first, count);
      AmortizationsTelescope(rate, fee, payment, next, first + 1, count - 1);
      assert Total(plan, Amortization) == c.amortization + Total(rest, Amortization) by {
        assert plan[0] == c && plan[1..] == rest;
      }
      assert next == Carry(rate, fee, payment, incoming);
    }
  }

  /** What a plan built from `amount` satisfies, whatever its payment: the
      schedule rules, the balance carried out of its last cycle, and its totals. */
  lemma BuiltPlanFacts(rate: real, fee: real, payment: real, amount: real, count: nat)
    ensures var plan := BuildCycles(rate, fee, payment, amount, 1, count);
            && ScheduleFrom(plan, amount, 1, rate, fee, payment)
            && (count >= 1 ==> plan[count - 1].remainingBalance + plan[count - 1].interestPayment
                               == BalanceAfter(rate, fee, payment, amount, count))
            && Total(plan, Amortization) == amount - BalanceAfter(rate, fee, payment, amount, count) + (count as real) * fee
            && Total(plan, Payment) == Total(plan, Amortization) + Total(plan, Interest)
  {
    var plan := BuildCycles(rate, fee, payment, amount, 1, count);
    BuiltIsSchedule(rate, fee, payment, amount, 1, count);
    BuiltCarriesBalance(rate, fee, payment, amount, 1, count);
    AmortizationsTelescope(rate, fee, payment, amount, 1, count);
    ScheduleSplits(plan, amount, 1, rate, fee, payment);
    TotalSplits(plan);
  }

  /** The facts of `BuiltPlanFacts` for a payment that clears the balance after
      `periods` periods: nothing is carried out of the last cycle, and the
      amortizations total the amount plus one fee per period. */
  lemma PaidOffPlanFacts(rate: real, fee: real, payment: real, amount: real, periods: int)
    requires periods >= 1 ==> BalanceAfter(rate, fee, payment, amount, periods) == 0.0
    ensures var plan := BuildCycles(rate, fee, payment, amount, 1, if periods > 0 then periods else 0);
            && ScheduleFrom(plan, amount, 1, rate, fee, payment)
            && (periods >= 1 ==> plan[periods - 1].remainingBalance + plan[periods - 1].interestPayment == 0.0)
            && (periods >= 1 ==> Total(plan, Amortization) == amount + (periods as real) * fee)
            && Total(plan, Payment) == Total(plan, Amortization) + Total(plan, Interest)
  {
    if periods >= 1 {
      var n: nat := periods;
      BuiltPlanFacts(rate, fee, payment, amount, n);
      var plan := BuildCycles(rate, fee, payment, amount, 1, n);
      assert BalanceAfter(rate, fee, payment, amount, n) == 0.0;
      assert Total(plan, Amortization) == amount + (n as real) * fee;
    } else {
      BuiltPlanFacts(rate, fee, payment, amount, 0);
    }
  }

  /** The annuity payment plan for an annual interest rate, compounded monthly.
      It fails with ZeroDivisionError exactly when the annuity formula divides
      by zero, which includes every zero rate and a zero period count. Otherwise
      it has one cycle per period (none for a negative count), following the
      schedule rules from the loan amount with the annuity payment. After the
      last cycle nothing is left to pay, although the last payment is not
      clamped. The amortizations total the amount plus one fee per period,
      and the payments total amortizations plus interest. */
  function PaymentPlanAnnuity(amount: real, interestRate: real, monthlyFee: real, periods: int): (r: Result<seq<Cycle>>)
    ensures r.Err? <==> !Regular(interestRate / 12.0, periods)
    ensures r.Err? ==> r.error == ZeroDivisionError
    ensures r.Ok? ==> |r.value| == (if periods > 0 then periods else 0)
    ensures r.Ok? ==> ScheduleFrom(r.value, amount, 1, interestRate / 12.0, monthlyFee,
                                   AnnuityPayment(amount, interestRate / 12.0, monthlyFee, periods))
    ensures r.Ok? && periods >= 1 ==>
              r.value[periods - 1].remainingBalance + r.value[periods - 1].interestPayment == 0.0
    ensures r.Ok? && periods >= 1 ==>
              Total(r.value, Amortization) == amount + (periods as real) * monthlyFee
    ensures r.Ok? ==> Total(r.value, Payment) == Total(r.value, Amortization) + Total(r.value, Interest)
  {
    var rate := interestRate / 12.0;
    if !Regular(rate, periods) then Err(ZeroDivisionError)
    else
      var payment := AnnuityPayment(amount, rate, monthlyFee, periods);
      var count := if periods > 0 then periods else 0;
      var plan := BuildCycles(rate, monthlyFee, payment, amount, 1, count);
      PaidOffPlanFacts(rate, monthlyFee, payment, amount, periods);
      Ok(plan)
  }

  /** Every cycle of a schedule carries the same payment, so the payments
      total that payment once per cycle. */
  lemma SchedulePaymentTotal(plan: seq<Cycle>, incoming: real, first: int, rate: real, fee: real, payment: real)
    requires ScheduleFrom(plan, incoming, first, rate, fee, payment)
    ensures Total(plan, Payment) == (|plan| as real) * payment
  {
    forall k | 0 <= k < |plan|
      ensures plan[k].payment == payment
    {
      assert CycleFollows(plan[k], first + k, rate, fee, payment);
    }
    TotalConstantPayment(plan, payment);
  }

  /** The schedule rules determine the plan: a sequence of cycles of the right
      length that follows them from the loan amount with the annuity payment
      is the annuity plan. */
  lemma AnnuityPlanUnique(amount: real, interestRate: real, monthlyFee: real, periods: int, plan: seq<Cycle>)
    requires Regular(interestRate / 12.0, periods)
    requires |plan| == (if periods > 0 then periods else 0)
    requires ScheduleFrom(plan, amount, 1, interestRate / 12.0, monthlyFee,
                          AnnuityPayment(amount, interestRate / 12.0, monthlyFee, periods))
    ensures PaymentPlanAnnuity(amount, interestRate, monthlyFee, periods) == Ok(plan)
  {
    ScheduleIsBuilt(plan, amount, 1, interestRate / 12.0, monthlyFee,
                    AnnuityPayment(amount, interestRate / 12.0, monthlyFee, periods));
  }

  /** A zero interest rate is not handled: the annuity denominator is zero. */
  lemma ZeroRateFails(amount: real, monthlyFee: real, periods: int)
    ensures PaymentPlanAnnuity(amount, 0.0, monthlyFee, periods) == Err(ZeroDivisionError)
  {
    PowIntOne(-periods);
  }
}
