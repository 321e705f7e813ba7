/** `annuity_payment`: the constant payment of an annuity loan, and the
    balance recurrence that shows it pays the loan off. */
module Annuity {
  import opened Powers

  /** The annuity formula `amount*rate / (1 - (1+rate)^-periods)` is defined:
      `(1+rate)^-periods` exists (a zero base only takes non-negative powers)
      and the denominator is not zero. */
  predicate Regular(rate: real, periods: int)
  {
    (1.0 + rate != 0.0 || periods <= 0) && PowInt(1.0 + rate, -periods) != 1.0
  }

  /** A defined annuity formula implies a non-zero periodic rate: a zero rate
      makes the denominator `1 - 1^-periods` vanish. */
  lemma RegularRateNonZero(rate: real, periods: int)
    requires Regular(rate, periods)
    ensures rate != 0.0
  {
    PowIntOne(-periods);
  }

  /** One update of the balance carried into the next period: the remaining
      balance (incoming + fee - payment), with the period's interest
      (rate * incoming) added back. */
  function Carry(rate: real, fee: real, payment: real, incoming: real): real
  {
    (incoming + fee - payment) + rate * incoming
  }

  /** The carried balance stays level exactly when the payment covers the fee
      and the period's interest and nothing more, and falls exactly when the
      payment covers more. */
  lemma CarryLevel(rate: real, fee: real, payment: real, incoming: real)
    ensures Carry(rate, fee, payment, incoming) == incoming <==> payment == fee + rate * incoming
    ensures Carry(rate, fee, payment, incoming) < incoming <==> payment > fee + rate * incoming
  {
  }

  /** The balance carried forward after `k` periods, starting from `incoming`. */
  function BalanceAfter(rate: real, fee: real, payment: real, incoming: real, k: nat): real
    decreases k
  {
    if k == 0 then incoming
    else BalanceAfter(rate, fee, payment, Carry(rate, fee, payment, incoming), k - 1)
  }

  /** Closed form of the balance recurrence for a non-zero rate:
      B_k = (1+rate)^k * (B_0 - c/rate) + c/rate with c = payment - fee. */
  lemma {:induction false} BalanceClosedForm(rate: real, fee: real, payment: real, incoming: real, k: nat)
    requires rate != 0.0
    ensures BalanceAfter(rate, fee, payment, incoming, k)
            == Pow(1.0 + rate, k) * (incoming - (payment - fee) / rate) + (payment - fee) / rate
    decreases k
  {
    if k > 0 {
      var c := payment - fee;
      var next := Carry(rate, fee, payment, incoming);
      BalanceClosedForm(rate, fee, payment, next, k - 1);
      var q := Pow(1.0 + rate, k - 1);
      assert next - c / rate == (1.0 + rate) * (incoming - c / rate) by {
        assert next == (1.0 + rate) * incoming - c;
        assert c + c / rate == (1.0 + rate) * (c / rate);
      }
      calc {
        BalanceAfter(rate, fee, payment, incoming, k);
        q * (next - c / rate) + c / rate;
        q * ((1.0 + rate) * (incoming - c / rate)) + c / rate;
        ((1.0 + rate) * q) * (incoming - c / rate) + c / rate;
        Pow(1.0 + rate, k) * (incoming - c / rate) + c / rate;
      }
    }
  }

  /** The constant annuity payment for a periodic rate; the fee is added on top.
      For at least one period it is exactly the payment that brings the
      carried balance to zero after the last period. */
  function AnnuityPayment(amount: real, rate: real, fee: real, periods: int): (payment: real)
    requires Regular(rate, periods)
    ensures periods >= 1 ==> BalanceAfter(rate, fee, payment, amount, periods) == 0.0
  {
    var payment := (amount * rate) / (1.0 - PowInt(1.0 + rate, -periods)) + fee;
    PaysOff(amount, rate, fee, periods, payment);
    payment
  }

  /** The annuity formula's payment amortizes the amount exactly. */
  lemma PaysOff(amount: real, rate: real, fee: real, periods: int, payment: real)
    requires Regular(rate, periods)
    requires payment == (amount * rate) / (1.0 - PowInt(1.0 + rate, -periods)) + fee
    ensures periods >= 1 ==> BalanceAfter(rate, fee, payment, amount, periods) == 0.0
  {
    if periods >= 1 {
      RegularRateNonZero(rate, periods);
      BalanceClosedForm(rate, fee, payment, amount, periods);
      var q := Pow(1.0 + rate, periods);
      assert PowInt(1.0 + rate, -periods) == 1.0 / q;
      PayoffAlgebra(amount, rate, q, payment - fee);
    }
  }

  /** The algebra behind `PaysOff`: with `q = (1+rate)^periods` and
      `c = amount*rate / (1 - 1/q)`, the closed-form final balance vanishes. */
  lemma PayoffAlgebra(amount: real, rate: real, q: real, c: real)
    requires rate != 0.0 && q != 0.0 && 1.0 / q != 1.0
    requires c == (amount * rate) / (1.0 - 1.0 / q)
    ensures q * (amount - c / rate) + c / rate == 0.0
  {
    var d := 1.0 - 1.0 / q;
    assert q != 1.0;
    assert d * q == q - 1.0;
    var a := amount / d;
    assert c / rate == a by {
      assert c == a * rate;
    }
    assert a * (q - 1.0) == amount * q by {
      assert a * d == amount;
      assert a * (q - 1.0) == a * (d * q);
    }
    assert q * (amount - a) + a == q * amount - a * (q - 1.0);
  }

  /** Stepping the balance once more after `k` steps is stepping `k + 1` times. */
  lemma {:induction false} BalanceAfterStep(rate: real, fee: real, payment: real, incoming: real, k: nat)
    ensures BalanceAfter(rate, fee, payment, incoming, k + 1)
            == Carry(rate, fee, payment, BalanceAfter(rate, fee, payment, incoming, k))
    decreases k
  {
    if k > 0 {
      BalanceAfterStep(rate, fee, payment, Carry(rate, fee, payment, incoming), k - 1);
    }
  }
}
