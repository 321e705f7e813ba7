/** The loan and its payment-plan dispatch: the loan type selects the schedule
    generator, and the generated plan and its attributes are recorded on the
    loan. */
module Loans {
  import opened Outcomes
  import opened PaymentPlan
  import opened AnnuityPlan
  import opened Apr
  import opened Attributes

  /** A loan's terms, plus the two attributes `make_payment_plan` derives
      (absent until a plan has been made). */
  datatype Loan = Loan(
    amount: real,
    interestRate: real,          // nominal annual rate, as a fraction
    monthlyFee: real,
    loanType: string,
    months: Option<int>,         // default period count
    paymentPlan: Option<seq<Cycle>>,
    planAttributes: Option<PlanAttributes>)

  /** The only loan type with a schedule generator. */
  const AnnuityType: string := "annuity"

  /** The period count used: the explicit one when it is given and non-zero
      (Python's `periods or self.months`), the loan's default otherwise. */
  function EffectivePeriods(periods: Option<int>, months: Option<int>): (r: Option<int>)
    ensures periods.Some? && periods.value != 0 ==> r == periods
    ensures periods.None? || periods.value == 0 ==> r == months
  {
    if periods.Some? && periods.value != 0 then periods else months
  }

  /** Make the payment plan of `loan`, returning the loan as updated and the
      plan. A loan type other than annuity fails with NotImplementedError; a
      period count that resolves to nothing fails with TypeError; the
      schedule or the APR solver can fail by dividing by zero. A failure leaves
      the loan unchanged; a success records the plan and its attributes
      (computed with the default solver options) and changes nothing else. */
  function MakePaymentPlan(loan: Loan, periods: Option<int>, discount: Discount): (r: (Loan, Result<seq<Cycle>>))
    ensures loan.loanType != AnnuityType ==> r == (loan, Err(NotImplementedError))
    ensures loan.loanType == AnnuityType && EffectivePeriods(periods, loan.months).None? ==>
              r == (loan, Err(TypeError))
    ensures r.1.Err? ==> r.0 == loan
    ensures loan.loanType == AnnuityType && EffectivePeriods(periods, loan.months).Some? ==>
              var annuity := PaymentPlanAnnuity(loan.amount, loan.interestRate, loan.monthlyFee,
                                                EffectivePeriods(periods, loan.months).value);
              && (r.1.Ok? <==> annuity.Ok? && PaymentPlanAttributes(annuity.value, DefaultOptions, discount).Ok?)
              && (r.1.Err? ==> r.1.error == ZeroDivisionError)
    ensures r.1.Ok? ==>
              && loan.loanType == AnnuityType
              && EffectivePeriods(periods, loan.months).Some?
              && r.1 == PaymentPlanAnnuity(loan.amount, loan.interestRate, loan.monthlyFee,
                                           EffectivePeriods(periods, loan.months).value)
              && PaymentPlanAttributes(r.1.value, DefaultOptions, discount).Ok?
              && r.0 == loan.(paymentPlan := Some(r.1.value),
                              planAttributes := Some(PaymentPlanAttributes(r.1.value, DefaultOptions, discount).value))
  {
    if loan.loanType != AnnuityType then (loan, Err(NotImplementedError))
    else match EffectivePeriods(periods, loan.months)
      case None => (loan, Err(TypeError))
      case Some(n) =>
        match PaymentPlanAnnuity(loan.amount, loan.interestRate, loan.monthlyFee, n)
        case Err(e) => (loan, Err(e))
        case Ok(plan) =>
          match PaymentPlanAttributes(plan, DefaultOptions, discount)
          case Err(e) => (loan, Err(e))
          case Ok(attributes) =>
            (loan.(paymentPlan := Some(plan), planAttributes := Some(attributes)), Ok(plan))
  }

  /** Asking for zero periods is the same as not asking: both fall back to the
      loan's default period count. */
  lemma ZeroPeriodsFallBack(loan: Loan, discount: Discount)
    ensures MakePaymentPlan(loan, Some(0), discount) == MakePaymentPlan(loan, None, discount)
    ensures MakePaymentPlan(loan, None, discount) == MakePaymentPlan(loan, loan.months, discount)
  {
  }

  /** An explicit non-zero period count makes the default irrelevant. */
  lemma ExplicitPeriodsOverride(loan: Loan, n: int, months: Option<int>, discount: Discount)
    requires n != 0
    ensures MakePaymentPlan(loan.(months := months), Some(n), discount).1
            == MakePaymentPlan(loan, Some(n), discount).1
  {
  }

  /** Making the plan again on the updated loan changes nothing: the derived
      attributes do not feed back into the computation. */
  lemma MakePaymentPlanIdempotent(loan: Loan, periods: Option<int>, discount: Discount)
    ensures MakePaymentPlan(MakePaymentPlan(loan, periods, discount).0, periods, discount)
            == MakePaymentPlan(loan, periods, discount)
  {
  }

  /** An annuity loan at zero interest fails with a division by zero, whatever
      its period count, and is left as it was. */
  lemma ZeroRateLoanFails(loan: Loan, periods: Option<int>, discount: Discount)
    requires loan.loanType == AnnuityType && loan.interestRate == 0.0
    requires EffectivePeriods(periods, loan.months).Some?
    ensures MakePaymentPlan(loan, periods, discount) == (loan, Err(ZeroDivisionError))
  {
    AnnuityPlan.ZeroRateFails(loan.amount, loan.monthlyFee, EffectivePeriods(periods, loan.months).value);
  }
}
