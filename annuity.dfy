/**
 * Level-payment (annuity) arithmetic shared by the mortgage quote and the
 * affordability solver.  Both calculators write the payment inline as
 *
 *     (principal * r * (1 + r)^n) / ((1 + r)^n - 1)
 *
 * with `Math.pow`; here the power is a recursive function over a natural
 * exponent and all arithmetic is exact (`real`).
 */
module Annuity {

  /** `Math.pow(x, n)` for a natural exponent. */
  function Pow(x: real, n: nat): real
  {
    if n == 0 then 1.0 else x * Pow(x, n - 1)
  }

  lemma {:induction false} PowOne(n: nat)
    ensures Pow(1.0, n) == 1.0
  {
    if n > 0 { PowOne(n - 1); }
  }

  lemma {:induction false} PowAtLeastOne(x: real, n: nat)
    requires x >= 1.0
    ensures Pow(x, n) >= 1.0
  {
    if n > 0 {
      PowAtLeastOne(x, n - 1);
      assert x * Pow(x, n - 1) >= 1.0 * Pow(x, n - 1);
    }
  }

  lemma {:induction false} PowAboveOne(x: real, n: nat)
    requires x > 1.0 && n > 0
    ensures Pow(x, n) > 1.0
  {
    PowAtLeastOne(x, n - 1);
    assert x * Pow(x, n - 1) > 1.0 * Pow(x, n - 1);
  }

  /**
   * The periodic payment on `principal` at periodic rate `r` over `n`
   * periods.  When the denominator vanishes (at r = 0 it is 0/0, which
   * JavaScript reports as NaN and the callers print as 0) the result is 0.
   */
  function Payment(principal: real, r: real, n: nat): real
  {
    var growth := Pow(1.0 + r, n);
    if growth - 1.0 == 0.0 then 0.0 else (principal * r * growth) / (growth - 1.0)
  }

  /** The payment per dollar of principal (`paymentFactor` in the solver). */
  function Factor(r: real, n: nat): real
  {
    var growth := Pow(1.0 + r, n);
    if growth - 1.0 == 0.0 then 0.0 else (r * growth) / (growth - 1.0)
  }

  /**
   * Outstanding balance after `k` periods when `pmt` is paid at the end of
   * every period and interest accrues at `r` per period: the independent
   * definition of what a level payment is for.
   */
  function Balance(principal: real, r: real, pmt: real, k: nat): real
  {
    if k == 0 then principal else Balance(principal, r, pmt, k - 1) * (1.0 + r) - pmt
  }

  /** At a zero rate the formula is 0/0 and the payment is reported as 0, not principal/n. */
  lemma ZeroRatePayment(principal: real, n: nat)
    ensures Payment(principal, 0.0, n) == 0.0
  {
    PowOne(n);
  }

  /** A positive rate over at least one period gives a positive factor. */
  lemma FactorPositive(r: real, n: nat)
    requires r > 0.0 && n > 0
    ensures Factor(r, n) > 0.0
    ensures Pow(1.0 + r, n) - 1.0 > 0.0
  {
    PowAboveOne(1.0 + r, n);
    var growth := Pow(1.0 + r, n);
    assert r * growth > 0.0;
  }

  /** (p * a) / d == p * (a / d): division distributes over a scaling. */
  lemma DivScale(p: real, a: real, d: real)
    requires d != 0.0
    ensures (p * a) / d == p * (a / d)
  {
    var q := a / d;
    assert a == q * d;
    assert p * a == (p * q) * d;
  }

  /** The payment is the factor scaled by the principal. */
  lemma PaymentIsScaledFactor(principal: real, r: real, n: nat)
    ensures Payment(principal, r, n) == principal * Factor(r, n)
  {
    var growth := Pow(1.0 + r, n);
    if growth - 1.0 != 0.0 {
      assert principal * r * growth == principal * (r * growth);
      DivScale(principal, r * growth, growth - 1.0);
    }
  }

  /** a <= b is kept when both sides are scaled by the same non-negative c. */
  lemma MulMonotone(a: real, b: real, c: real)
    requires a <= b && c >= 0.0
    ensures a * c <= b * c
  {
  }

  /** One period of the balance recurrence, in closed form (pure algebra). */
  lemma BalanceStep(r: real, principal: real, pmt: real, b: real, g: real, b': real, g': real)
    requires r * b == r * principal * g - pmt * (g - 1.0)
    requires b' == b * (1.0 + r) - pmt && g' == (1.0 + r) * g
    ensures r * b' == r * principal * g' - pmt * (g' - 1.0)
  {
  }

  /** The balance in closed form, multiplied through by r to avoid a division. */
  lemma {:induction false} BalanceClosedForm(principal: real, r: real, pmt: real, k: nat)
    ensures r * Balance(principal, r, pmt, k)
         == r * principal * Pow(1.0 + r, k) - pmt * (Pow(1.0 + r, k) - 1.0)
  {
    if k > 0 {
      var b, g := Balance(principal, r, pmt, k - 1), Pow(1.0 + r, k - 1);
      var b', g' := Balance(principal, r, pmt, k), Pow(1.0 + r, k);
      assert b' == b * (1.0 + r) - pmt;
      assert g' == (1.0 + r) * g;
      BalanceClosedForm(principal, r, pmt, k - 1);
      BalanceStep(r, principal, pmt, b, g, b', g');
    }
  }

  /** x / d * d == x, stated over plain variables. */
  lemma DivCancel(x: real, d: real)
    requires d != 0.0
    ensures (x / d) * d == x
  {
  }

  /**
   * Whenever the formula is defined, paying `Payment` every period clears
   * the loan exactly after `n` periods.
   */
  lemma PaymentAmortizes(principal: real, r: real, n: nat)
    requires Pow(1.0 + r, n) != 1.0
    ensures Balance(principal, r, Payment(principal, r, n), n) == 0.0
  {
    if r == 0.0 { PowOne(n); }
    var growth := Pow(1.0 + r, n);
    var pmt := Payment(principal, r, n);
    BalanceClosedForm(principal, r, pmt, n);
    DivCancel(principal * r * growth, growth - 1.0);
    var b := Balance(principal, r, pmt, n);
    assert r * b == 0.0;
  }

  /** One step of GrowthBound (pure algebra). */
  lemma GrowthStep(r: real, g: real, m: real)
    requires r >= 0.0 && g >= 1.0 && m >= 0.0
    requires g - 1.0 <= m * r * g
    ensures (1.0 + r) * g - 1.0 <= (m + 1.0) * r * ((1.0 + r) * g)
  {
    MulMonotone(g - 1.0, m * r * g, 1.0 + r);
    MulMonotone(1.0, (1.0 + r) * g, r);
    assert (1.0 + r) * g - 1.0 == (g - 1.0) * (1.0 + r) + r;
  }

  /** Compounding over n periods adds at most n times the last period's growth. */
  lemma {:induction false} GrowthBound(r: real, n: nat)
    requires r >= 0.0
    ensures Pow(1.0 + r, n) - 1.0 <= (n as real) * r * Pow(1.0 + r, n)
  {
    if n > 0 {
      GrowthBound(r, n - 1);
      PowAtLeastOne(1.0 + r, n - 1);
      GrowthStep(r, Pow(1.0 + r, n - 1), (n - 1) as real);
    }
  }

  /** A product with a positive factor is non-negative only if the other factor is. */
  lemma NonNegativeFactor(a: real, d: real)
    requires d > 0.0 && a * d >= 0.0
    ensures a >= 0.0
  {
  }

  /** The arithmetic core of PaymentsCoverPrincipal, over plain variables. */
  lemma FactorCover(principal: real, pmt: real, f: real, r: real, g: real, nr: real)
    requires g > 1.0 && principal >= 0.0
    requires pmt == principal * f
    requires f * (g - 1.0) == r * g
    requires g - 1.0 <= nr * r * g
    ensures nr * pmt >= principal
  {
    var d := g - 1.0;
    assert (nr * f) * d == nr * (r * g);
    assert (nr * f - 1.0) * d == nr * r * g - d;
    NonNegativeFactor(nr * f - 1.0, d);
    MulMonotone(1.0, nr * f, principal);
    assert nr * (principal * f) == (nr * f) * principal;
  }

  /**
   * At a positive rate the payments together repay at least the principal:
   * n * payment >= principal.
   */
  lemma PaymentsCoverPrincipal(principal: real, r: real, n: nat)
    requires r > 0.0 && n > 0 && principal >= 0.0
    ensures (n as real) * Payment(principal, r, n) >= principal
  {
    var growth := Pow(1.0 + r, n);
    var f := Factor(r, n);
    PaymentIsScaledFactor(principal, r, n);
    FactorPositive(r, n);
    GrowthBound(r, n);
    assert f == (r * growth) / (growth - 1.0);
    DivCancel(r * growth, growth - 1.0);
    FactorCover(principal, Payment(principal, r, n), f, r, growth, n as real);
  }
}
