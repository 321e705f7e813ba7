/** One period of a payment plan, and the column totals taken over a plan. */
module PaymentPlan {

  /** Days per month in the day-count approximation: 365 days over 12 months. */
  const MonthDays: real := 365.0 / 12.0

  /** A snapshot of one payment period. */
  datatype Cycle = Cycle(
    period: int,             // 1-based position in the plan
    periodDay: real,         // days since the loan start, period * 365/12
    incomingBalance: real,   // balance at the start of the period
    remainingBalance: real,  // incoming balance plus fee minus payment
    payment: real,           // amount paid in this period
    amortization: real,      // payment minus interest
    interestPayment: real    // interest accrued on the incoming balance
  )

  /** The numeric columns of a plan that are summed. */
  datatype Column = Payment | Amortization | Interest

  function Field(c: Cycle, col: Column): real
  {
    match col
    case Payment => c.payment
    case Amortization => c.amortization
    case Interest => c.interestPayment
  }

  /** The sum of one column over the whole plan, first cycle first. */
  function Total(plan: seq<Cycle>, col: Column): real
    decreases |plan|
  {
    if |plan| == 0 then 0.0 else Field(plan[0], col) + Total(plan[1..], col)
  }

  /** Python's `sum` accumulates from the left: the total of a plan is the
      total without its last cycle plus that cycle's value. */
  lemma {:induction false} TotalSnoc(plan: seq<Cycle>, col: Column)
    requires |plan| > 0
    ensures Total(plan, col) == Total(plan[..|plan| - 1], col) + Field(plan[|plan| - 1], col)
    decreases |plan|
  {
    if |plan| > 1 {
      var rest := plan[1..];
      TotalSnoc(rest, col);
      assert rest[..|rest| - 1] == plan[..|plan| - 1][1..];
    }
  }

  /** A cycle whose payment splits exactly into amortization and interest. */
  predicate Splits(c: Cycle)
  {
    c.amortization + c.interestPayment == c.payment
  }

  /** Column totals are additive: when every cycle's payment splits into
      amortization and interest, so does the total payment. */
  lemma {:induction false} TotalSplits(plan: seq<Cycle>)
    requires forall k :: 0 <= k < |plan| ==> Splits(plan[k])
    ensures Total(plan, Payment) == Total(plan, Amortization) + Total(plan, Interest)
    decreases |plan|
  {
    if |plan| > 0 {
      assert Splits(plan[0]);
      TotalSplits(plan[1..]);
    }
  }

  /** A plan whose every payment is the same value sums to that value times its length. */
  lemma {:induction false} TotalConstantPayment(plan: seq<Cycle>, payment: real)
    requires forall k :: 0 <= k < |plan| ==> plan[k].payment == payment
    ensures Total(plan, Payment) == (|plan| as real) * payment
    decreases |plan|
  {
    if |plan| > 0 {
      TotalConstantPayment(plan[1..], payment);
    }
  }
}
