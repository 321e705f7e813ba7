# Loan schedule engine, modelled in Dafny

This project models the numeric core of the `loans` package (`loans/main.py`):

- the constant annuity payment;
- the annuity payment plan, one `Cycle` per month, with its two-step balance
  update (the remaining balance is the incoming balance plus the fee minus the
  payment, and the next incoming balance adds this period's interest back);
- the plan attributes before rounding: months, payment, amortization and
  interest totals, and the financing cost;
- the loop control of the APR solver;
- the effective interest rate;
- the `Loan.make_payment_plan` dispatch on the loan type, with its fallback to
  the loan's default period count.

Python floats are modelled as exact `real`s. Every exception the core raises
on the exact-real paths modelled here is an `Err` of `Outcomes.Result`, and the
loan is returned unchanged whenever one occurs:

- `ZeroDivisionError`: the annuity denominator is zero, `0.0` is raised to a
  negative power, a discount factor is zero, the present value is zero, or an
  EIR is asked for with zero compounding periods;
- `TypeError`: the period count resolves to `None`;
- `NotImplementedError`: the loan type is not `"annuity"`.

The discount factor `(1 + i) ** (period_day / 365)` has a fractional
exponent, so the solver takes it as a function parameter `discount(i, years)`.

Modules, in dependency order:

- `Outcomes`: errors, `Result` and `Option`;
- `Powers`: integer powers of reals;
- `PaymentPlan`: `Cycle` and column totals;
- `Annuity`: the payment formula and the balance recurrence;
- `AnnuityPlan`: the plan generator, the rules its cycles follow, its exact payoff and its totals;
- `Apr`: the solver, as a recursive function and as a loop proved equal to it;
- `Eir`: the effective rate;
- `Attributes`: `payment_plan_attributes` before rounding;
- `Loans`: the loan and `make_payment_plan`.

Results proved about the code:

- The annuity payment pays the loan off exactly. After the last cycle, its
  remaining balance plus its interest is zero.
- For at least one period, the amortizations of an annuity plan sum to the
  amount plus one monthly fee per period. The APR solver matches the present value against this sum, so
  that target equals the loan amount only when there is no fee.
- A zero interest rate fails with ZeroDivisionError, because the annuity
  formula divides by `1 - 1 ** -periods`.
- The APR step points the wrong way once the present value is less than half
  of the amortization total (see "## Findings").

## Model

| member | source | states |
|---|---|---|
| Powers.Pow | loans/main.py:121 | an integer power of a non-zero base is non-zero, and of a positive base is positive, so the `**` in the annuity and EIR formulas can be divided by |
| Powers.PowInt | loans/main.py:121 | Python's `x ** k` for an int `k`, as used here and for the compounding at line 192: a negative power is the reciprocal of the positive one (their product is 1), and a non-zero base has a non-zero power. `0.0` to a negative power is undefined, and the callers turn it into ZeroDivisionError |
| Powers.Bernoulli | loans/main.py:192 | `(1+x)^n >= 1 + n*x` for `x >= -1`: compounding never yields less than simple interest |
| PaymentPlan.TotalSplits | loans/main.py:208-210 | when every cycle's payment is its amortization plus its interest, the payment total is the amortization total plus the interest total |
| PaymentPlan.Total | loans/main.py:208-210 | the sum of one column (payment, amortization or interest) over the plan; `TotalSnoc` shows it agrees with Python's left-to-right `sum` |
| PaymentPlan.TotalSnoc | loans/main.py:208-210 | the total of a plan is the total without its last cycle plus that cycle's value, which is how Python's `sum` accumulates |
| PaymentPlan.TotalConstantPayment | loans/main.py:208 | a plan whose cycles all carry the same payment has a payment total of that payment times the number of cycles |
| Annuity.RegularRateNonZero | loans/main.py:121 | whenever the annuity formula is defined, the periodic rate is not zero |
| Annuity.BalanceClosedForm | loans/main.py:103 | the balance carried forward after k periods is `(1+r)^k * (B0 - c/r) + c/r`, where `c` is the payment minus the fee |
| Annuity.AnnuityPayment | loans/main.py:108-121 | for at least one period, the annuity payment of the formula is the payment that brings the carried balance to exactly zero after the last period |
| Annuity.PaysOff | loans/main.py:121 | the closed-form annuity payment amortizes the amount exactly over the given number of periods |
| Annuity.Carry | loans/main.py:91-103 | the balance the next cycle starts from: this cycle's remaining balance (incoming + fee - payment) with its interest added back |
| Annuity.CarryLevel | loans/main.py:91-103 | the carried balance stays level exactly when the payment equals the fee plus the period's interest, and falls exactly when the payment is larger |
| Annuity.BalanceAfterStep | loans/main.py:103 | carrying the balance forward once more after k periods is the same as carrying it forward k+1 times |
| AnnuityPlan.NewCycle | loans/main.py:89-101 | the cycle for period j follows the schedule rules (day j*365/12, interest on the incoming balance, payment = amortization + interest, remaining = incoming + fee - payment), and its remaining balance plus interest is the carried balance |
| AnnuityPlan.BuildCycles | loans/main.py:87-103 | the loop emits `count` cycles with consecutive period numbers and the same payment, and cycle k starts from the balance carried forward k times |
| AnnuityPlan.BuiltIsSchedule | loans/main.py:87-103 | the generated cycles satisfy the per-cycle rules and the two-step carry rule between cycles. The per-cycle rules are: period j sits at day j*365/12, interest is charged on the incoming balance, the payment splits into amortization and interest, and remaining = incoming + fee - payment |
| AnnuityPlan.ScheduleSplits | loans/main.py:89-90 | in every cycle of a schedule, amortization plus interest is the payment |
| AnnuityPlan.ScheduleIsBuilt | loans/main.py:84-103 | any sequence of cycles that follows those rules from a starting balance is exactly the generated one: the rules determine the plan |
| AnnuityPlan.BuiltCarriesBalance | loans/main.py:89-103 | after generated cycle k (from 0), the remaining balance plus interest is the starting balance carried forward k+1 times |
| AnnuityPlan.AmortizationsTelescope | loans/main.py:90-103 | the amortizations of generated cycles sum to the starting balance minus the final carried balance plus one fee per cycle |
| AnnuityPlan.PaymentPlanAnnuity | loans/main.py:65-105 | the plan fails with ZeroDivisionError exactly when the formula divides by zero. Otherwise it has `periods` cycles (none for a negative count) that follow the schedule rules from the amount with the annuity payment of the monthly rate. The last cycle leaves nothing to carry forward, without any clamping. For at least one period, the amortizations total amount + periods * fee. The payments total amortizations plus interest |
| AnnuityPlan.SchedulePaymentTotal | loans/main.py:98 | every cycle of a schedule carries the same payment, so the payments total that payment times the number of cycles |
| AnnuityPlan.AnnuityPlanUnique | loans/main.py:65-105 | when the formula is defined, a plan of the right length that follows the schedule rules from the amount with the annuity payment is the annuity plan |
| AnnuityPlan.ZeroRateFails | loans/main.py:85-121 | a zero annual interest rate always fails with ZeroDivisionError, whatever the period count |
| Apr.PresentValue | loans/main.py:157-162 | the present value fails with ZeroDivisionError exactly when some cycle's discount factor at the current rate is zero |
| Apr.LoanAmount | loans/main.py:149 | the amount the solver targets: the amortization column total |
| Apr.LoanAmountSplits | loans/main.py:149 | for a plan whose payments split, the amount the solver targets is total payments minus total interest |
| Apr.Initial | loans/main.py:150-155 | the solver starts with difference 1, no iterations, and a rate that times `n + 1` is the guess; its loop guard holds at the start exactly when the threshold is below 1 and `max_iterations` is not negative |
| Apr.Multiplier | loans/main.py:166 | the step scale `1 + diff/pv` |
| Apr.MultiplierSign | loans/main.py:166 | for a positive present value the multiplier exceeds 1 exactly when the present value is above the amount, is zero exactly when the difference is `-pv`, and is negative exactly when the present value falls short by more than itself |
| Apr.NextRate | loans/main.py:166-173 | an exact match leaves the rate alone; for a positive present value and a non-zero step the rate stays put exactly when the difference is 0 or `-pv` |
| Apr.StepDirection | loans/main.py:166-170 | with a positive step and present value, the rate rises when the present value exceeds the amount, and falls when it is short by less than the present value. It stays put when short by exactly the present value, and rises when short by more, because the multiplier is then negative |
| Apr.WrongWayStep | loans/main.py:166-170 | a present value of 1 against an amount of 3 (difference -2) raises the rate from 0 to 1 with step 1 |
| Apr.CorrectedNextRate | loans/main.py:165-170 | the step scaled by `1 + abs(diff/pv)`, at least 1 |
| Apr.CorrectedStepDirection | loans/main.py:165-170 | with the corrected scale, the rate rises by at least the step exactly when the present value is above the amount, falls by at least the step exactly when it is below, and stays put exactly on a match, for every non-zero present value |
| Apr.AprLoop | loans/main.py:153-178 | every failure of the solver is a ZeroDivisionError; the solver loop terminates and counts at most `max_iterations + 1` iterations (none if that is negative). It stops with a zero difference, a difference within the threshold, or the counter past `max_iterations` |
| Apr.LoopUnfolds | loans/main.py:156-175 | one turn of the loop: an exact match stops without counting, and otherwise the rate takes one step and the counter increases by one |
| Apr.CalculateApr | loans/main.py:124-178 | the while loop with its early break computes the same result as `AprLoop` from the initial state. It never counts past the bound, and with a threshold of at least 1 it returns `guess/(n+1)`, difference 1 and 0 iterations |
| Eir.CalculateEir | loans/main.py:181-192 | the EIR fails with ZeroDivisionError exactly when there are zero compounding periods, or a negative number of them with a zero base |
| Eir.EirZeroRate | loans/main.py:192 | a zero nominal rate has a zero effective rate for every non-zero period count |
| Eir.EirSinglePeriod | loans/main.py:192 | with one compounding period the effective rate is the nominal rate |
| Eir.EirAtLeastNominal | loans/main.py:192 | for n >= 1 periods and a rate of at least -n, the effective rate is defined and at least the nominal rate |
| Attributes.PaymentPlanAttributes | loans/main.py:195-219 | the attributes fail exactly when the APR solver fails, and then with ZeroDivisionError. Months is the plan length, the three totals are the column sums, the financing cost is total payments minus amortizations, the APR is the solver's rate, and the EIR is that rate compounded 12 times |
| Attributes.FinancingCostIsInterest | loans/main.py:208-215 | when every payment splits into amortization and interest, the financing cost equals the interest total |
| Attributes.ScheduleAttributes | loans/main.py:207-215 | for a plan that follows the schedule rules, total payments are the payment times the month count and equal amortizations plus interest, and the financing cost is the interest |
| Attributes.AnnuityAttributes | loans/main.py:207-214 | for an annuity plan of n >= 1 periods, months is n, and the amortizations and the APR target both equal amount + n * fee |
| Loans.EffectivePeriods | loans/main.py:54 | a given non-zero period count is used, and a missing or zero count falls back to the loan's default |
| Loans.MakePaymentPlan | loans/main.py:27-62 | a loan type other than "annuity" fails with NotImplementedError, and an unresolved period count fails with TypeError. Every failure leaves the loan unchanged. An annuity loan whose count resolves succeeds exactly when the annuity plan for that count and its default-option attributes are both defined, and otherwise fails with ZeroDivisionError. A success is that annuity plan, and it records exactly the plan and its attributes on the loan |
| Loans.ZeroPeriodsFallBack | loans/main.py:54 | asking for 0 periods, asking for none, and asking for the loan's own default give the same outcome |
| Loans.ExplicitPeriodsOverride | loans/main.py:54 | with an explicit non-zero period count, the loan's default does not affect the plan |
| Loans.MakePaymentPlanIdempotent | loans/main.py:46-62 | making the plan again on the updated loan returns the same loan and the same plan |
| Loans.ZeroRateLoanFails | loans/main.py:48-55 | an annuity loan at zero interest with a resolved period count fails with ZeroDivisionError and is unchanged |

## Findings

| source | as written | input that shows it | evidently intended | confidence | as-written member | corrected member |
|---|---|---|---|---|---|---|
| loans/main.py:165-170 | the step is scaled by `1 + diff / present_value`, which is negative once the present value is short of the amount by more than itself; `i -= delta * multiplier` then raises the rate, moving the present value further from the amount for positive payments | present value 1, amortization total 3: difference -2, multiplier -1, the rate rises from 0 to `delta` | per the comment "take larger steps if diff is large", a scale of `1 + abs(diff / present_value)`, which is at least 1, so the step follows the sign of the difference | medium, not executed | Apr.WrongWayStep | Apr.CorrectedStepDirection |

`Apr.AprLoop` and `Apr.CalculateApr` keep the step as written (`Apr.NextRate`),
so that the solver's results are those of the code; `Apr.CorrectedNextRate` is
the step with the intended scale, and `Apr.CorrectedStepDirection` proves it
always moves toward the amount.

## Left out

- Rounding of the attributes to `digits` places (loans/main.py:221): this is float presentation. `Attributes.PaymentPlanAttributes` returns the unrounded values.
- IEEE-754 behaviour: rounding error, overflow, NaN and infinity. Values are exact reals. Each singular case the code reaches is modelled as the ZeroDivisionError that Python raises.
- The discount factor `(1 + i) ** (period_day / 365)`: Dafny has no real powers with fractional exponents, so it is the parameter `discount`. The complex number Python returns for a negative base is not modelled. The solver is not claimed to converge, and the code does not promise that it does.
- `start_date` and `amortization_rate`: both are unused by the computation, and `start_date` reads the system clock.
- The fixed-amortization loan type: it has no implementation, so only its NotImplementedError branch is modelled.
- The `__main__` demonstration and its printing.
- Other mutation of `Loan` fields: only the two attributes that `make_payment_plan` assigns are modelled, as fields of the returned loan.
- Exceptions outside the exact-real paths: a negative `1 + i` makes the discount factor at loans/main.py:159 a complex number, after which `diff > 0` raises TypeError; float `**` can raise OverflowError. Neither is an `Err` of the model, since the discount is a real-valued parameter and values are exact.
- Python's dynamic typing: a period count of a non-integer type is not modelled, apart from `None`.
