/**
 * The quick DIME estimator: Debt, Income replacement, Mortgage and
 * Education against savings and existing insurance.
 */
module LifeInsuranceCalculator {

  datatype Inputs = Inputs(
    income: real,
    years: real,
    debt: real,
    mortgage: real,
    education: real,
    savings: real,
    existingInsurance: real)

  datatype Breakdown = Breakdown(debt: real, income: real, mortgage: real, education: real)

  datatype Estimate = Estimate(totalNeeds: real, totalAssets: real, gap: real, breakdown: Breakdown)

  /** `calculate`: the gap is needs less assets, and is not floored at 0. */
  function Calculate(inp: Inputs): Estimate
  {
    var incomeReplacement := inp.income * inp.years;
    var totalNeeds := inp.debt + incomeReplacement + inp.mortgage + inp.education;
    var totalAssets := inp.savings + inp.existingInsurance;
    Estimate(totalNeeds, totalAssets, totalNeeds - totalAssets,
             Breakdown(inp.debt, incomeReplacement, inp.mortgage, inp.education))
  }

  /**
   * The breakdown echoes debt, mortgage and education and holds the income
   * to replace; the needs are the sum of the breakdown; the gap closes the
   * balance between needs and assets.
   */
  lemma EstimateBalances(inp: Inputs)
    ensures var e := Calculate(inp);
      && e.breakdown == Breakdown(inp.debt, inp.income * inp.years, inp.mortgage, inp.education)
      && e.totalNeeds == e.breakdown.debt + e.breakdown.income + e.breakdown.mortgage + e.breakdown.education
      && e.totalAssets == inp.savings + inp.existingInsurance
      && e.gap + e.totalAssets == e.totalNeeds
  {
  }

  /** Each extra dollar of savings or insurance lowers the gap by exactly one dollar. */
  lemma AssetsLowerGap(inp: Inputs, x: real)
    ensures Calculate(inp.(existingInsurance := inp.existingInsurance + x)).gap == Calculate(inp).gap - x
    ensures Calculate(inp.(savings := inp.savings + x)).gap == Calculate(inp).gap - x
  {
  }

  /** The gap goes negative when assets exceed needs (only the display floors it). */
  lemma GapCanBeNegative()
    ensures Calculate(Inputs(0.0, 0.0, 0.0, 0.0, 0.0, 1000.0, 0.0)).gap == -1000.0
  {
  }
}
