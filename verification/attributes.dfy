/** The summary of a payment plan: column totals, financing cost, APR and EIR,
    before any rounding. */
module Attributes {
  import opened Outcomes
  import opened PaymentPlan
  import opened Annuity
  import opened AnnuityPlan
  import opened Apr
  import opened Eir

  datatype PlanAttributes = PlanAttributes(
    months: int,
    totalPayments: real,
    interestPayments: real,
    amortizations: real,
    financingCost: real,
    apr: real,
    eir: real)

  /** The attributes of `plan`: its length in months and its column totals.
      The financing cost is what is paid beyond the
      amortizations. The APR is the solver's rate and the EIR
      is that rate compounded monthly. Only the solver can fail. */
  function PaymentPlanAttributes(plan: seq<Cycle>, o: AprOptions, discount: Discount): (r: Result<PlanAttributes>)
    ensures r.Err? <==> AprLoop(plan, LoanAmount(plan), o, discount, Initial(plan, o)).Err?
    ensures r.Err? ==> r.error == ZeroDivisionError
    ensures r.Ok? ==> r.value.months == |plan|
    ensures r.Ok? ==> && r.value.totalPayments == Total(plan, Payment)
                      && r.value.amortizations == Total(plan, Amortization)
                      && r.value.interestPayments == Total(plan, Interest)
    ensures r.Ok? ==> r.value.financingCost == r.value.totalPayments - r.value.amortizations
    ensures r.Ok? ==> r.value.apr == AprLoop(plan, LoanAmount(plan), o, discount, Initial(plan, o)).value.apr
    ensures r.Ok? ==> CalculateEir(r.value.apr, MonthlyCompounding) == Ok(r.value.eir)
  {
    var payments := Total(plan, Payment);
    var amortizations := Total(plan, Amortization);
    var interest := Total(plan, Interest);
    match AprLoop(plan, LoanAmount(plan), o, discount, Initial(plan, o))
    case Err(e) => Err(e)
    case Ok(solved) =>
      var eir := CalculateEir(solved.apr, MonthlyCompounding);
      Ok(PlanAttributes(|plan|, payments, interest, amortizations, payments - amortizations, solved.apr, eir.value))
  }

  /** When every payment of a plan splits into amortization and interest, the
      financing cost is exactly the interest paid. */
  lemma FinancingCostIsInterest(plan: seq<Cycle>, o: AprOptions, discount: Discount)
    requires forall k :: 0 <= k < |plan| ==> Splits(plan[k])
    requires PaymentPlanAttributes(plan, o, discount).Ok?
    ensures PaymentPlanAttributes(plan, o, discount).value.financingCost
            == PaymentPlanAttributes(plan, o, discount).value.interestPayments
  {
    TotalSplits(plan);
  }

  /** The attributes of a plan that follows the schedule rules with a constant
      payment: the payments total that payment once per month, they split into
      amortizations and interest, and the financing cost is the interest. */
  lemma ScheduleAttributes(plan: seq<Cycle>, amount: real, rate: real, fee: real, payment: real,
                           o: AprOptions, discount: Discount)
    requires ScheduleFrom(plan, amount, 1, rate, fee, payment)
    requires PaymentPlanAttributes(plan, o, discount).Ok?
    ensures var a := PaymentPlanAttributes(plan, o, discount).value;
            && a.totalPayments == (|plan| as real) * payment
            && a.totalPayments == a.amortizations + a.interestPayments
            && a.financingCost == a.interestPayments
  {
    var a := PaymentPlanAttributes(plan, o, discount).value;
    SchedulePaymentTotal(plan, amount, 1, rate, fee, payment);
    assert a.totalPayments == Total(plan, Payment);
    ScheduleSplits(plan, amount, 1, rate, fee, payment);
    TotalSplits(plan);
  }

  /** The attributes of an annuity plan of at least one period: one month per
      period, and amortizations totalling the amount plus all fees, which is
      also the amount the APR solver matches; it equals the loan amount only
      without fees. (`ScheduleAttributes` gives the payment totals.) */
  lemma AnnuityAttributes(amount: real, interestRate: real, monthlyFee: real, periods: int,
                          o: AprOptions, discount: Discount)
    requires periods >= 1 && Regular(interestRate / 12.0, periods)
    requires PaymentPlanAttributes(PaymentPlanAnnuity(amount, interestRate, monthlyFee, periods).value, o, discount).Ok?
    ensures var plan := PaymentPlanAnnuity(amount, interestRate, monthlyFee, periods).value;
            var a := PaymentPlanAttributes(plan, o, discount).value;
            && a.months == periods
            && LoanAmount(plan) == a.amortizations == amount + (periods as real) * monthlyFee
  {
    var plan := PaymentPlanAnnuity(amount, interestRate, monthlyFee, periods).value;
    assert |plan| == periods;
    assert Total(plan, Amortization) == amount + (periods as real) * monthlyFee;
  }
}
