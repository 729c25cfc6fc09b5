/**
 * The affordability solver: from household income, monthly debts and the
 * down payment on hand, the most expensive home that passes both the
 * stress-tested GDS/TDS ratio ceilings and the minimum-down-payment tiers.
 */
module MortgageAffordability {
  import opened Annuity

  /** `limitingFactor`: '' before the first result, then 'GDS (Income)', 'TDS (Debts)' or 'Down Payment'. */
  datatype LimitingFactor = Unset | GdsIncome | TdsDebts | DownPayment

  datatype Inputs = Inputs(
    income1: real,          // annual
    income2: real,          // annual, counted only when isJoint
    isJoint: bool,
    debts: real,            // monthly
    downPayment: real,
    rate: real,             // annual contract rate, in percent
    amortization: nat,      // years
    heating: real,          // monthly
    condoFees: real,        // monthly
    propertyTaxRate: real)  // annual, percent of the price

  datatype Result = Result(
    maxPrice: real,
    maxMortgage: real,
    monthlyPayment: real,
    stressTestRate: real,
    limitingFactor: LimitingFactor,
    gdsRatio: real,
    tdsRatio: real)

  const INITIAL_RESULT := Result(0.0, 0.0, 0.0, 0.0, Unset, 0.0, 0.0)

  const GDS_LIMIT: real := 0.39
  const TDS_LIMIT: real := 0.44

  function MonthlyIncome(inp: Inputs): real
  {
    (inp.income1 + (if inp.isJoint then inp.income2 else 0.0)) / 12.0
  }

  /** A percentage per year as a fraction per month. */
  function MonthlyRate(annualPercent: real): real
  {
    annualPercent / 100.0 / 12.0
  }

  /** The qualifying rate, `Math.max(rate + 2, 5.25)`. */
  function StressTestRate(rate: real): (s: real)
    ensures s >= 5.25 && s >= rate + 2.0
    ensures s == 5.25 || s == rate + 2.0
  {
    if rate + 2.0 >= 5.25 then rate + 2.0 else 5.25
  }

  /** The stress rate is positive, so its payment factor is positive. */
  lemma StressFactorPositive(rate: real, amortization: nat)
    requires amortization > 0
    ensures MonthlyRate(StressTestRate(rate)) > 0.0
    ensures Factor(MonthlyRate(StressTestRate(rate)), amortization * 12) > 0.0
  {
    FactorPositive(MonthlyRate(StressTestRate(rate)), amortization * 12);
  }

  /** The monthly housing cost the ratios allow, and which ratio binds. */
  function HousingCeiling(monthlyIncome: real, debts: real): (real, LimitingFactor)
  {
    var maxHousingGds := monthlyIncome * GDS_LIMIT;
    var maxHousingTds := monthlyIncome * TDS_LIMIT - debts;
    (if maxHousingGds <= maxHousingTds then maxHousingGds else maxHousingTds,
     if maxHousingGds < maxHousingTds then GdsIncome else TdsDebts)
  }

  lemma HousingCeilingIsTighterRatio(monthlyIncome: real, debts: real)
    ensures var ceiling := HousingCeiling(monthlyIncome, debts).0;
      var binding := HousingCeiling(monthlyIncome, debts).1;
      && ceiling <= monthlyIncome * GDS_LIMIT
      && ceiling <= monthlyIncome * TDS_LIMIT - debts
      && (ceiling == monthlyIncome * GDS_LIMIT || ceiling == monthlyIncome * TDS_LIMIT - debts)
      && (binding == GdsIncome <==> monthlyIncome * GDS_LIMIT < monthlyIncome * TDS_LIMIT - debts)
      && (binding == GdsIncome || binding == TdsDebts)
  {
  }

  /** The monthly housing cost of a home at `price`, with `factor` the payment per dollar borrowed. */
  function HousingCost(price: real, down: real, factor: real, monthlyTaxRate: real,
                       heating: real, condoFees: real): real
  {
    (price - down) * factor + price * monthlyTaxRate + heating + condoFees * 0.5
  }

  /** The housing-cost equation solved for the price, before the clamp at 0. */
  function UnclampedIncomePrice(ceiling: real, down: real, factor: real, monthlyTaxRate: real,
                                heating: real, condoFees: real): real
    requires factor + monthlyTaxRate > 0.0
  {
    (ceiling - heating - condoFees * 0.5 + down * factor) / (factor + monthlyTaxRate)
  }

  /**
   * The unclamped price is exactly where the housing cost meets the
   * ceiling, and every price at or below it fits under the ceiling.
   */
  lemma IncomePriceSolvesHousingCost(ceiling: real, down: real, factor: real, monthlyTaxRate: real,
                                     heating: real, condoFees: real, price: real)
    requires factor + monthlyTaxRate > 0.0
    ensures var p := UnclampedIncomePrice(ceiling, down, factor, monthlyTaxRate, heating, condoFees);
      && HousingCost(p, down, factor, monthlyTaxRate, heating, condoFees) == ceiling
      && (HousingCost(price, down, factor, monthlyTaxRate, heating, condoFees) <= ceiling <==> price <= p)
  {
    var den := factor + monthlyTaxRate;
    var num := ceiling - heating - condoFees * 0.5 + down * factor;
    var p := num / den;
    assert p * den == num;
    assert HousingCost(price, down, factor, monthlyTaxRate, heating, condoFees)
        == price * den - down * factor + heating + condoFees * 0.5;
    assert HousingCost(p, down, factor, monthlyTaxRate, heating, condoFees)
        == p * den - down * factor + heating + condoFees * 0.5;
    if price <= p {
      MulMonotone(price, p, den);
    } else {
      assert p * den < price * den;
    }
  }

  /**
   * The price ceiling from the down-payment tiers: 5% below 25,000 of down
   * payment, the sliding 10% scale (capped to 999,999 once it reaches
   * 1,000,000) below 200,000, and 20% from 200,000 up.
   */
  function DownPaymentCeiling(down: real): real
  {
    if down < 25000.0 then down / 0.05
    else if down < 200000.0 then
      var p := (down - 25000.0) / 0.10 + 500000.0;
      if p >= 1000000.0 then 999999.0 else p
    else down / 0.20
  }

  lemma DownPaymentCeilingTiers(down: real)
    ensures down < 25000.0 ==> DownPaymentCeiling(down) == 20.0 * down < 500000.0
    ensures 25000.0 <= down < 200000.0 ==> 500000.0 <= DownPaymentCeiling(down) < 1000000.0
    ensures 25000.0 <= down < 75000.0 ==> DownPaymentCeiling(down) == 10.0 * down + 250000.0
    ensures 75000.0 <= down < 200000.0 ==> DownPaymentCeiling(down) == 999999.0
    ensures down >= 200000.0 ==> DownPaymentCeiling(down) == 5.0 * down >= 1000000.0
  {
  }

  /**
   * The ceiling never decreases as the down payment grows, except just
   * below 75,000: there the sliding scale gives a price between 999,999 and
   * 1,000,000, while from 75,000 on the cap gives exactly 999,999.
   */
  lemma DownPaymentCeilingMonotone(d1: real, d2: real)
    requires d1 <= d2
    ensures DownPaymentCeiling(d1) <= DownPaymentCeiling(d2)
         || (74999.9 < d1 < 75000.0 && 75000.0 <= d2 < 200000.0)
  {
    DownPaymentCeilingTiers(d1);
    DownPaymentCeilingTiers(d2);
  }

  /** The exception is real: 74,999.95 of down payment allows a higher price than 75,000. */
  lemma DownPaymentCeilingDipsAtCap()
    ensures DownPaymentCeiling(74999.95) == 999999.5
    ensures DownPaymentCeiling(75000.0) == 999999.0
  {
  }

  /**
   * The minimum down payment for a price, as the solver states the rule it
   * inverts: 5% up to 500,000, then 10% of the part above 500,000 while the
   * price is below 1,000,000, and 20% of the whole price from 1,000,000 up.
   */
  function MinimumDownPayment(price: real): real
  {
    if price <= 500000.0 then 0.05 * price
    else if price < 1000000.0 then 25000.0 + 0.10 * (price - 500000.0)
    else 0.20 * price
  }

  lemma MinimumDownPaymentMonotone(p1: real, p2: real)
    requires p1 <= p2
    ensures MinimumDownPayment(p1) <= MinimumDownPayment(p2)
  {
  }

  /**
   * The tier inversion is sound and, but for the gap between 999,999 and
   * 1,000,000 that the cap leaves, maximal: the ceiling's own minimum down
   * payment is affordable, and any price whose minimum is affordable lies
   * at or below the ceiling.
   */
  lemma DownPaymentCeilingInvertsTiers(down: real, price: real)
    ensures MinimumDownPayment(DownPaymentCeiling(down)) <= down
    ensures MinimumDownPayment(price) <= down
        ==> price <= DownPaymentCeiling(down) || 999999.0 < price < 1000000.0
  {
    DownPaymentCeilingTiers(down);
  }

  /** The payment per dollar borrowed at the stress rate (`paymentFactor`). */
  function StressFactor(inp: Inputs): real
  {
    Factor(MonthlyRate(StressTestRate(inp.rate)), inp.amortization * 12)
  }

  /** The income-side price as solved from the housing-cost equation, before the clamp at 0. */
  function RawIncomePrice(inp: Inputs): real
    requires inp.amortization > 0 && inp.propertyTaxRate >= 0.0
  {
    StressFactorPositive(inp.rate, inp.amortization);
    UnclampedIncomePrice(HousingCeiling(MonthlyIncome(inp), inp.debts).0, inp.downPayment,
                         StressFactor(inp), MonthlyRate(inp.propertyTaxRate), inp.heating, inp.condoFees)
  }

  /** The income-side price, clamped at 0 (`maxPriceIncomeBased`). */
  function IncomeBasedPrice(inp: Inputs): (p: real)
    requires inp.amortization > 0 && inp.propertyTaxRate >= 0.0
    ensures p >= 0.0
    ensures p == RawIncomePrice(inp) || (p == 0.0 && RawIncomePrice(inp) < 0.0)
  {
    var raw := RawIncomePrice(inp);
    if raw < 0.0 then 0.0 else raw
  }

  /** The monthly housing cost at `price`, with the payment taken at the stress rate. */
  function StressHousingCost(inp: Inputs, price: real): real
  {
    Payment(price - inp.downPayment, MonthlyRate(StressTestRate(inp.rate)), inp.amortization * 12)
    + price * MonthlyRate(inp.propertyTaxRate) + inp.heating + inp.condoFees * 0.5
  }

  /** `amount` as a percentage of the monthly income. */
  function Percent(amount: real, monthlyIncome: real): real
    requires monthlyIncome != 0.0
  {
    (amount / monthlyIncome) * 100.0
  }

  /** The whole solver as a value: the specification of `AffordabilityCalculator.Calculate`. */
  function Solve(inp: Inputs, previous: Result): Result
    requires inp.amortization > 0 && inp.propertyTaxRate >= 0.0
  {
    var monthlyIncome := MonthlyIncome(inp);
    if monthlyIncome == 0.0 then previous.(maxPrice := 0.0, maxMortgage := 0.0)
    else
      var n := inp.amortization * 12;
      var incomePrice := IncomeBasedPrice(inp);
      var downPrice := DownPaymentCeiling(inp.downPayment);
      var finalPrice := if incomePrice <= downPrice then incomePrice else downPrice;
      var finalMortgage := finalPrice - inp.downPayment;
      var stressHousingCost := StressHousingCost(inp, finalPrice);
      Result(finalPrice,
             finalMortgage,
             Payment(finalMortgage, MonthlyRate(inp.rate), n),
             StressTestRate(inp.rate),
             if incomePrice < downPrice then HousingCeiling(monthlyIncome, inp.debts).1 else DownPayment,
             Percent(stressHousingCost, monthlyIncome),
             Percent(stressHousingCost + inp.debts, monthlyIncome))
  }

  /** With no income only the price and mortgage are reset; the rest of the previous result stays. */
  lemma ZeroIncomeKeepsPrevious(inp: Inputs, previous: Result)
    requires inp.amortization > 0 && inp.propertyTaxRate >= 0.0
    requires MonthlyIncome(inp) == 0.0
    ensures Solve(inp, previous).maxPrice == 0.0 && Solve(inp, previous).maxMortgage == 0.0
    ensures Solve(inp, previous).(maxPrice := previous.maxPrice, maxMortgage := previous.maxMortgage) == previous
  {
  }

  /**
   * The final price is the smaller of the two ceilings; the ratio label is
   * reported only when the income side is strictly smaller, ties going to
   * 'Down Payment'; the mortgage is the price less the down payment, not
   * clamped; the payment is the contract-rate one and the stress rate is
   * reported as computed.
   */
  lemma SolveFinalPrice(inp: Inputs, previous: Result)
    requires inp.amortization > 0 && inp.propertyTaxRate >= 0.0
    requires MonthlyIncome(inp) != 0.0
    ensures var r := Solve(inp, previous);
      var incomePrice := IncomeBasedPrice(inp);
      var downPrice := DownPaymentCeiling(inp.downPayment);
      && r.maxPrice <= incomePrice && r.maxPrice <= downPrice
      && (r.maxPrice == incomePrice || r.maxPrice == downPrice)
      && (r.limitingFactor != DownPayment <==> incomePrice < downPrice)
      && (r.limitingFactor != DownPayment ==> r.limitingFactor == HousingCeiling(MonthlyIncome(inp), inp.debts).1)
      && r.maxMortgage == r.maxPrice - inp.downPayment
      && r.monthlyPayment == Payment(r.maxMortgage, MonthlyRate(inp.rate), inp.amortization * 12)
      && r.stressTestRate == StressTestRate(inp.rate)
  {
  }

  /** A 0% contract rate reports a monthly payment of 0. */
  lemma ZeroContractRatePayment(inp: Inputs, previous: Result)
    requires inp.amortization > 0 && inp.propertyTaxRate >= 0.0
    requires MonthlyIncome(inp) != 0.0 && inp.rate == 0.0
    ensures Solve(inp, previous).monthlyPayment == 0.0
  {
    ZeroRatePayment(Solve(inp, previous).maxMortgage, inp.amortization * 12);
  }

  /** The two ratios differ by the debts as a percentage of the monthly income. */
  lemma RatioDifference(inp: Inputs, previous: Result)
    requires inp.amortization > 0 && inp.propertyTaxRate >= 0.0
    requires MonthlyIncome(inp) != 0.0
    ensures Solve(inp, previous).tdsRatio - Solve(inp, previous).gdsRatio
         == inp.debts / MonthlyIncome(inp) * 100.0
  {
    var r := Solve(inp, previous);
    var mi := MonthlyIncome(inp);
    var cost := r.gdsRatio / 100.0 * mi;
    assert r.gdsRatio == cost / mi * 100.0;
    assert r.tdsRatio == (cost + inp.debts) / mi * 100.0;
  }

  /** Every price up to the unclamped income-side price fits under the ratio ceiling at the stress rate. */
  lemma StressCostWithinCeiling(inp: Inputs, price: real)
    requires inp.amortization > 0 && inp.propertyTaxRate >= 0.0
    requires price <= RawIncomePrice(inp)
    ensures StressHousingCost(inp, price) <= HousingCeiling(MonthlyIncome(inp), inp.debts).0
  {
    var stressRate := MonthlyRate(StressTestRate(inp.rate));
    var n := inp.amortization * 12;
    StressFactorPositive(inp.rate, inp.amortization);
    var factor := Factor(stressRate, n);
    var mtr := MonthlyRate(inp.propertyTaxRate);
    var ceiling := HousingCeiling(MonthlyIncome(inp), inp.debts).0;
    IncomePriceSolvesHousingCost(ceiling, inp.downPayment, factor, mtr, inp.heating, inp.condoFees, price);
    PaymentIsScaledFactor(price - inp.downPayment, stressRate, n);
    assert StressHousingCost(inp, price)
        == HousingCost(price, inp.downPayment, factor, mtr, inp.heating, inp.condoFees);
  }

  /** The two reported ratios measure the stress housing cost, without and with the debts, against the income. */
  lemma SolveRatios(inp: Inputs, previous: Result)
    requires inp.amortization > 0 && inp.propertyTaxRate >= 0.0
    requires MonthlyIncome(inp) != 0.0
    ensures var r := Solve(inp, previous);
      var cost := StressHousingCost(inp, r.maxPrice);
      && r.gdsRatio == (cost / MonthlyIncome(inp)) * 100.0
      && r.tdsRatio == ((cost + inp.debts) / MonthlyIncome(inp)) * 100.0
  {
  }

  /**
   * When the ratio ceiling is reachable at a non-negative price, the GDS and
   * TDS ratios reported at the final price, measured with the stress
   * payment, are within 39% and 44%.
   */
  lemma SolveMeetsStressTest(inp: Inputs, previous: Result)
    requires inp.amortization > 0 && inp.propertyTaxRate >= 0.0
    requires MonthlyIncome(inp) > 0.0
    requires RawIncomePrice(inp) >= 0.0
    ensures Solve(inp, previous).gdsRatio <= 39.0
    ensures Solve(inp, previous).tdsRatio <= 44.0
  {
    var r := Solve(inp, previous);
    var mi := MonthlyIncome(inp);
    var cost := StressHousingCost(inp, r.maxPrice);
    SolveFinalPrice(inp, previous);
    StressCostWithinCeiling(inp, r.maxPrice);
    SolveRatios(inp, previous);
    HousingCeilingIsTighterRatio(mi, inp.debts);
    RatioBound(cost, mi, GDS_LIMIT);
    RatioBound(cost + inp.debts, mi, TDS_LIMIT);
  }

  /** cost <= limit * income gives cost / income * 100 <= limit * 100 (pure algebra). */
  lemma RatioBound(cost: real, income: real, limit: real)
    requires income > 0.0 && cost <= income * limit
    ensures (cost / income) * 100.0 <= limit * 100.0
  {
    assert cost / income <= limit;
  }

  /**
   * The final price's minimum down payment is covered and, when the ratio
   * ceiling is reachable at a non-negative price, its housing cost at the
   * stress rate is within the ceiling.  Any price satisfying both rules is
   * at most the final price, except in the gap between 999,999 and
   * 1,000,000 left by the cap.
   */
  lemma SolveIsLargestQualifyingPrice(inp: Inputs, previous: Result, price: real)
    requires inp.amortization > 0 && inp.propertyTaxRate >= 0.0
    requires MonthlyIncome(inp) != 0.0
    ensures var stressRate := MonthlyRate(StressTestRate(inp.rate));
      var factor := Factor(stressRate, inp.amortization * 12);
      var mtr := MonthlyRate(inp.propertyTaxRate);
      var ceiling := HousingCeiling(MonthlyIncome(inp), inp.debts).0;
      var maxPrice := Solve(inp, previous).maxPrice;
      && MinimumDownPayment(maxPrice) <= inp.downPayment
      && (RawIncomePrice(inp) >= 0.0 ==>
            HousingCost(maxPrice, inp.downPayment, factor, mtr, inp.heating, inp.condoFees) <= ceiling)
      && (HousingCost(price, inp.downPayment, factor, mtr, inp.heating, inp.condoFees) <= ceiling
          && MinimumDownPayment(price) <= inp.downPayment
          ==> price <= maxPrice || 999999.0 < price < 1000000.0)
  {
    var r := Solve(inp, previous);
    var stressRate := MonthlyRate(StressTestRate(inp.rate));
    StressFactorPositive(inp.rate, inp.amortization);
    var factor := Factor(stressRate, inp.amortization * 12);
    var mtr := MonthlyRate(inp.propertyTaxRate);
    var ceiling := HousingCeiling(MonthlyIncome(inp), inp.debts).0;
    SolveFinalPrice(inp, previous);
    IncomePriceSolvesHousingCost(ceiling, inp.downPayment, factor, mtr, inp.heating, inp.condoFees, r.maxPrice);
    IncomePriceSolvesHousingCost(ceiling, inp.downPayment, factor, mtr, inp.heating, inp.condoFees, price);
    DownPaymentCeilingInvertsTiers(inp.downPayment, price);
    MinimumDownPaymentMonotone(r.maxPrice, DownPaymentCeiling(inp.downPayment));
  }

  /** The calculator component: its `results` state is what `Calculate` updates. */
  class AffordabilityCalculator {
    var results: Result

    constructor()
      ensures results == INITIAL_RESULT
    {
      results := INITIAL_RESULT;
    }

    method Calculate(inp: Inputs)
      requires inp.amortization > 0 && inp.propertyTaxRate >= 0.0
      modifies this
      ensures results == Solve(inp, old(results))
    {
      var monthlyIncome := MonthlyIncome(inp);

      if monthlyIncome == 0.0 {
        results := results.(maxPrice := 0.0, maxMortgage := 0.0);
        return;
      }

      // 1. Stress test rate and the payment per dollar borrowed at that rate
      var stressTestRate := StressTestRate(inp.rate);
      var monthlyStressRate := MonthlyRate(stressTestRate);
      var numberOfPayments := inp.amortization * 12;
      var paymentFactor := Factor(monthlyStressRate, numberOfPayments);

      // 2. The housing cost the ratios allow
      var ceiling := HousingCeiling(monthlyIncome, inp.debts);
      var maxAllowedHousingCost, limitingRatio := ceiling.0, ceiling.1;

      // 3. Solve the housing-cost equation for the price
      var monthlyTaxRate := MonthlyRate(inp.propertyTaxRate);
      StressFactorPositive(inp.rate, inp.amortization);
      var maxPriceIncomeBased := UnclampedIncomePrice(maxAllowedHousingCost, inp.downPayment, paymentFactor,
                                                      monthlyTaxRate, inp.heating, inp.condoFees);
      if maxPriceIncomeBased < 0.0 {
        maxPriceIncomeBased := 0.0;
      }

      // 4. The down-payment tiers
      var maxPriceDownPaymentBased := 0.0;
      if inp.downPayment < 25000.0 {
        maxPriceDownPaymentBased := inp.downPayment / 0.05;
      } else if inp.downPayment < 200000.0 {
        var p := (inp.downPayment - 25000.0) / 0.10 + 500000.0;
        if p >= 1000000.0 {
          p := 999999.0;
        }
        maxPriceDownPaymentBased := p;
      } else {
        maxPriceDownPaymentBased := inp.downPayment / 0.20;
      }

      // Final price and the figures recomputed at it
      var finalMaxPrice := if maxPriceIncomeBased <= maxPriceDownPaymentBased
                           then maxPriceIncomeBased else maxPriceDownPaymentBased;
      var finalLimitingFactor := if maxPriceIncomeBased < maxPriceDownPaymentBased
                                 then limitingRatio else DownPayment;
      var finalMortgage := finalMaxPrice - inp.downPayment;
      var realPayment := Payment(finalMortgage, MonthlyRate(inp.rate), numberOfPayments);
      var stressHousingCost := StressHousingCost(inp, finalMaxPrice);
      var finalGds := Percent(stressHousingCost, monthlyIncome);
      var finalTds := Percent(stressHousingCost + inp.debts, monthlyIncome);

      results := Result(finalMaxPrice, finalMortgage, realPayment, stressTestRate,
                        finalLimitingFactor, finalGds, finalTds);
    }
  }
}
