/** Integer powers of reals: Python's `x ** k` when `k` is an int. */
module Powers {

  /** `x` raised to a natural power, by repeated multiplication. */
  function Pow(x: real, n: nat): (r: real)
    ensures x != 0.0 ==> r != 0.0
    ensures x > 0.0 ==> r > 0.0
    decreases n
  {
    if n == 0 then 1.0 else x * Pow(x, n - 1)
  }

  /** `x` raised to an integer power; a negative power is the reciprocal of the
      positive one, and is undefined for a zero base. */
  function PowInt(x: real, k: int): (r: real)
    requires x != 0.0 || k >= 0
    ensures x != 0.0 ==> r != 0.0
    ensures k < 0 ==> r * Pow(x, -k) == 1.0
  {
    if k >= 0 then Pow(x, k) else 1.0 / Pow(x, -k)
  }

  /** One to any power is one. */
  lemma {:induction false} PowOne(n: nat)
    ensures Pow(1.0, n) == 1.0
  {
    if n > 0 {
      PowOne(n - 1);
    }
  }

  /** The same for integer powers. */
  lemma PowIntOne(k: int)
    ensures PowInt(1.0, k) == 1.0
  {
    PowOne(if k >= 0 then k else -k);
  }

  /** Bernoulli's inequality: compounding never yields less than simple interest. */
  lemma {:induction false} Bernoulli(x: real, n: nat)
    requires x >= -1.0
    ensures Pow(1.0 + x, n) >= 1.0 + (n as real) * x
  {
    if n > 0 {
      Bernoulli(x, n - 1);
      var m := (n - 1) as real;
      var p := Pow(1.0 + x, n - 1);
      assert Pow(1.0 + x, n) == (1.0 + x) * p;
      ScaleNonNegative(1.0 + x, p - (1.0 + m * x));
      assert (1.0 + x) * (1.0 + m * x) == 1.0 + (m + 1.0) * x + m * (x * x);
      ScaleNonNegative(m, x * x);
    }
  }

  /** A product of two non-negative reals is non-negative. */
  lemma ScaleNonNegative(a: real, b: real)
    requires a >= 0.0 && b >= 0.0
    ensures a * b >= 0.0
  {
  }
}
