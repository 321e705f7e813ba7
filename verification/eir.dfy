/** The effective interest rate: a nominal rate compounded over a year. */
module Eir {
  import opened Outcomes
  import opened Powers

  /** The default number of compounding periods per year: monthly. */
  const MonthlyCompounding: int := 12

  /** `(1 + i/n) ** n - 1`. Dividing by zero periods fails, and so does
      raising a zero base to a negative number of periods. */
  function CalculateEir(i: real, n: int): (r: Result<real>)
    ensures r.Err? <==> n == 0 || (n < 0 && 1.0 + i / (n as real) == 0.0)
    ensures r.Err? ==> r.error == ZeroDivisionError
  {
    if n == 0 then Err(ZeroDivisionError)
    else
      var base := 1.0 + i / (n as real);
      if base == 0.0 && n < 0 then Err(ZeroDivisionError)
      else Ok(PowInt(base, n) - 1.0)
  }

  /** A zero nominal rate has a zero effective rate, however it is compounded. */
  lemma EirZeroRate(n: int)
    requires n != 0
    ensures CalculateEir(0.0, n) == Ok(0.0)
  {
    PowIntOne(n);
  }

  /** Compounding once a year leaves the rate unchanged. */
  lemma EirSinglePeriod(i: real)
    ensures CalculateEir(i, 1) == Ok(i)
  {
  }

  /** Compounding never lowers a rate: for at least one period per year and a
      rate of at least minus the period count, the effective rate is defined and
      at least the nominal one. */
  lemma EirAtLeastNominal(i: real, n: int)
    requires n >= 1 && i >= -(n as real)
    ensures CalculateEir(i, n).Ok? && CalculateEir(i, n).value >= i
  {
    var x := i / (n as real);
    assert x >= -1.0;
    Bernoulli(x, n);
    assert (n as real) * x == i;
  }
}
