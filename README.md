# Ontario personal-finance calculators: a verified model

This project models the calculation engine behind four browser calculators for
Ontario home buyers and families:

- **Mortgage affordability** (`MortgageAffordability`): the most expensive home a
  household can buy. The price must pass both the stress-tested GDS/TDS ratio
  ceilings (39% and 44% of monthly income) and the minimum-down-payment tiers.
- **Mortgage quote** (`MortgageCalculator`): for a price and a down payment, it
  computes the CMHC default-insurance premium, the insured mortgage, the level
  payment (monthly or bi-weekly), the Ontario land transfer tax (doubled in
  Toronto) and the cash needed at closing.
- **Household needs analysis** (`ThoroughCalculator`, with the shared records in
  `Household`): the insurance gap if spouse 1 dies and, in joint mode, if
  spouse 2 dies. Each case weighs income replacement plus shared liabilities
  against shared savings plus the dead spouse's own policies.
- **Quick DIME estimate** (`LifeInsuranceCalculator`): debt, income replacement,
  mortgage and education, less savings and existing insurance.
- **Children list** (`LiabilitiesStep`): add, remove and edit children, and the
  education total.

The level-payment formula both mortgage calculators use is in `Annuity`. It is
specified independently by the balance recurrence `Balance`: paying `Payment`
each period clears the loan after `n` periods. All arithmetic is exact
(`real`). `Math.pow` with a natural exponent is the recursive `Pow`.

Every calculator component keeps its last result as state. Three of them
compute a result that depends on that state, or build it step by step, and are
classes with a `results` field:

- `MortgageQuoter`
- `AffordabilityCalculator`
- `NeedsCalculator`

The quick estimator also stores its result, but its new result never depends on
the previous one. It is modelled as the pure function
`LifeInsuranceCalculator.Calculate`.

The imperative `Calculate` methods follow the source closely. Some steps are
folded into calls to the pure helpers: for example, the stress housing cost is
one `StressHousingCost` call. The affordability solver's contract-rate
`housingCost` is computed but never used, and is not modelled.
Each is proved to leave `results` equal to a pure specification function:
`Quote`, `Solve` or `Analyse`. The properties are proved as lemmas about those
functions.

The model follows the code, including five results a reader might not expect:

- A 0% contract rate makes the payment formula 0/0 (NaN). The code reports NaN
  as 0, so the payment is 0, not principal / n.
- Down-payment fractions that fall between two CMHC brackets (for example
  9.995%) match no bracket. They get a premium rate of 0, not the neighbouring
  rate.
- "Accelerated bi-weekly" is computed exactly like bi-weekly.
- In the affordability solver, a down payment of 75,000 is capped to a price
  of 999,999, not 1,000,000.
- The down-payment price ceiling is not monotone. Just below 75,000 the
  sliding scale gives prices between 999,999 and 1,000,000. From 75,000 up to
  200,000 the cap gives exactly 999,999. So 74,999.95 of down payment allows
  999,999.50, and 75,000 allows only 999,999 (`DownPaymentCeilingDipsAtCap`).

## Model

| member | source | states |
|---|---|---|
| Annuity.Pow | static/components/MortgageAffordabilityCalculator.js:41 | `Math.pow` with a natural exponent. `PowOne`, `PowAtLeastOne` and `PowAboveOne` bound it, and `BalanceClosedForm` relates it to the balance. |
| Annuity.Payment | static/components/MortgageCalculator.js:89-102 | The level payment, 0 where the formula is 0/0. It is specified by `PaymentAmortizes` (it clears `Balance` after n periods), `ZeroRatePayment` and `PaymentsCoverPrincipal`. |
| Annuity.Factor | static/components/MortgageAffordabilityCalculator.js:41 | The payment per dollar borrowed (`paymentFactor`). It is specified by `PaymentIsScaledFactor` and `FactorPositive`. |
| Annuity.ZeroRatePayment | static/components/MortgageCalculator.js:89-102 | At a zero periodic rate the payment formula is 0/0 and the reported payment is 0. |
| Annuity.FactorPositive | static/components/MortgageAffordabilityCalculator.js:41 | A positive rate over at least one period gives a positive payment per dollar and a positive denominator. |
| Annuity.PaymentIsScaledFactor | static/components/MortgageAffordabilityCalculator.js:41 | The payment on a principal is the principal times the payment per dollar (`paymentFactor`). |
| Annuity.BalanceClosedForm | static/components/MortgageCalculator.js:73 | The balance after k level payments, in closed form: r·B_k = r·P·(1+r)^k − pmt·((1+r)^k − 1). |
| Annuity.PaymentAmortizes | static/components/MortgageCalculator.js:73-89 | Whenever the formula is defined, paying it every period leaves a balance of exactly 0 after n periods. |
| Annuity.GrowthBound | static/components/MortgageCalculator.js:89 | (1+r)^n − 1 ≤ n·r·(1+r)^n for r ≥ 0. |
| Annuity.PaymentsCoverPrincipal | static/components/MortgageCalculator.js:89 | At a positive rate, n payments together repay at least the principal. |
| MortgageCalculator.CmhcRate | static/components/MortgageCalculator.js:57-66 | The premium rate for a down-payment fraction. It is specified tier by tier by `CmhcRateTiers`. |
| MortgageCalculator.LandTransferTax | static/components/MortgageCalculator.js:31-54 | The Ontario schedule as a sum of marginal slices. `CalculateLtt` is proved equal to it; `LttLowValues`, `LttNonNegative`, `LttMonotone` and `LttSixHundredThousand` state its properties. |
| MortgageCalculator.PeriodsPerYear | static/components/MortgageCalculator.js:78-87 | 12 periods for monthly and 26 for either bi-weekly option. It is used by `QuotePayment` and `AcceleratedSameAsBiWeekly`. |
| MortgageCalculator.Quote | static/components/MortgageCalculator.js:56-108 | The whole quote. It is specified by `QuoteMortgage`, `QuoteLandTransferTax`, `QuotePayment` and `AcceleratedSameAsBiWeekly`, and `MortgageQuoter.Calculate` establishes it. |
| MortgageCalculator.FindBracket | static/components/MortgageCalculator.js:62-63 | The bracket found is the first in the table that covers the fraction; none is found exactly when no bracket covers it. |
| MortgageCalculator.CmhcRateTiers | static/components/MortgageCalculator.js:24-29 | The premium rate is 4% below 5% and from 5% to 9.99%, 3.1% from 10% to 14.99%, 2.8% from 15% to 19.99%, 0 from 20% up, and 0 in the gaps between brackets. |
| MortgageCalculator.CalculateLtt | static/components/MortgageCalculator.js:31-54 | Peeling the value down through the thresholds gives the sum of the marginal rates over the slices of the Ontario schedule. |
| MortgageCalculator.LttLowValues | static/components/MortgageCalculator.js:46-52 | The tax is 0 for a non-positive value and 0.5% of the value up to 55,000. |
| MortgageCalculator.LttNonNegative | static/components/MortgageCalculator.js:31-54 | The tax is never negative. |
| MortgageCalculator.LttMonotone | static/components/MortgageCalculator.js:31-54 | A higher value never pays less tax. |
| MortgageCalculator.LttSixHundredThousand | static/components/MortgageCalculator.js:31-54 | A 600,000 home pays 8,475 in provincial tax. |
| MortgageCalculator.QuoteMortgage | static/components/MortgageCalculator.js:57-70 | The mortgage is price less down payment; the premium is that mortgage times the tier rate, and 0 from 20% down; the insured total is mortgage plus premium. |
| MortgageCalculator.QuoteLandTransferTax | static/components/MortgageCalculator.js:91-96 | The provincial tax is the schedule at the price; Toronto adds an equal municipal tax, doubling the total; cash needed is down payment plus total tax. |
| MortgageCalculator.AcceleratedSameAsBiWeekly | static/components/MortgageCalculator.js:78-87 | Bi-weekly and accelerated bi-weekly produce the same quote. |
| MortgageCalculator.QuotePayment | static/components/MortgageCalculator.js:72-102 | The payment clears the insured total after amortization × periods-per-year payments at the periodic rate; at 0% it is reported as 0. |
| MortgageCalculator.MortgageQuoter.constructor | static/components/MortgageCalculator.js:12-21 | Results start at all zeros. |
| MortgageCalculator.MortgageQuoter.Calculate | static/components/MortgageCalculator.js:56-108 | The imperative calculation leaves `results` equal to `Quote` of the inputs. |
| MortgageAffordability.HousingCeiling | static/components/MortgageAffordabilityCalculator.js:43-53 | The housing cost the ratios allow, and which ratio binds. It is specified by `HousingCeilingIsTighterRatio`. |
| MortgageAffordability.UnclampedIncomePrice | static/components/MortgageAffordabilityCalculator.js:55-65 | The housing-cost equation solved for the price. It is specified by `IncomePriceSolvesHousingCost`. |
| MortgageAffordability.DownPaymentCeiling | static/components/MortgageAffordabilityCalculator.js:109-127 | The price ceiling from the down-payment tiers. It is specified by `DownPaymentCeilingTiers`, `DownPaymentCeilingMonotone`, `DownPaymentCeilingDipsAtCap` and `DownPaymentCeilingInvertsTiers`. |
| MortgageAffordability.MinimumDownPayment | static/components/MortgageAffordabilityCalculator.js:80-82 | The minimum-down-payment rule the tiers invert, as the comments state it. It is the reference for `DownPaymentCeilingInvertsTiers` and `SolveIsLargestQualifyingPrice`. |
| MortgageAffordability.StressHousingCost | static/components/MortgageAffordabilityCalculator.js:141-148 | The housing cost at a price with the stress payment. It is specified by `StressCostWithinCeiling` and `SolveRatios`. |
| MortgageAffordability.Solve | static/components/MortgageAffordabilityCalculator.js:26-162 | The whole solver. It is specified by `ZeroIncomeKeepsPrevious`, `SolveFinalPrice`, `ZeroContractRatePayment`, `RatioDifference`, `SolveRatios`, `SolveMeetsStressTest` and `SolveIsLargestQualifyingPrice`, and `AffordabilityCalculator.Calculate` establishes it. |
| MortgageAffordability.StressTestRate | static/components/MortgageAffordabilityCalculator.js:36 | The qualifying rate is at least 5.25% and at least the contract rate + 2, and is one of the two. |
| MortgageAffordability.StressFactorPositive | static/components/MortgageAffordabilityCalculator.js:35-41 | The monthly stress rate and its payment factor are positive. |
| MortgageAffordability.HousingCeilingIsTighterRatio | static/components/MortgageAffordabilityCalculator.js:43-53 | The allowed housing cost is the smaller of 39% of income and 44% of income less debts; GDS is reported only when it is strictly smaller, otherwise TDS. |
| MortgageAffordability.IncomePriceSolvesHousingCost | static/components/MortgageAffordabilityCalculator.js:55-65 | The solved price's housing cost equals the ceiling exactly, and a price fits under the ceiling if and only if it is at most the solved price. |
| MortgageAffordability.IncomeBasedPrice | static/components/MortgageAffordabilityCalculator.js:65-67 | The income-side price is the solved price clamped at 0. |
| MortgageAffordability.DownPaymentCeilingTiers | static/components/MortgageAffordabilityCalculator.js:109-127 | The ceiling is 20× the down payment below 25,000; 10× + 250,000 up to 75,000; 999,999 from 75,000 to 200,000; 5× from 200,000 (at least 1,000,000). |
| MortgageAffordability.DownPaymentCeilingMonotone | static/components/MortgageAffordabilityCalculator.js:109-127 | More down payment never lowers the ceiling, except across the dip just below 75,000. |
| MortgageAffordability.DownPaymentCeilingDipsAtCap | static/components/MortgageAffordabilityCalculator.js:120-121 | 74,999.95 gives a ceiling of 999,999.5, while 75,000 gives 999,999. |
| MortgageAffordability.MinimumDownPaymentMonotone | static/components/MortgageAffordabilityCalculator.js:80-82 | The minimum down payment rule never asks less for a dearer home. |
| MortgageAffordability.DownPaymentCeilingInvertsTiers | static/components/MortgageAffordabilityCalculator.js:76-127 | The ceiling's own minimum down payment is affordable, and every price whose minimum is affordable is at most the ceiling, except prices in (999,999, 1,000,000). |
| MortgageAffordability.ZeroIncomeKeepsPrevious | static/components/MortgageAffordabilityCalculator.js:30-33 | With no income, price and mortgage become 0 and every other field of the previous result is kept. |
| MortgageAffordability.SolveFinalPrice | static/components/MortgageAffordabilityCalculator.js:129-138 | The price is the smaller of the two ceilings; the ratio label is reported exactly when the income side is strictly smaller; the mortgage is price less down payment; the payment is at the contract rate. |
| MortgageAffordability.ZeroContractRatePayment | static/components/MortgageAffordabilityCalculator.js:136-156 | A 0% contract rate reports a monthly payment of 0. |
| MortgageAffordability.RatioDifference | static/components/MortgageAffordabilityCalculator.js:150-151 | TDS exceeds GDS by exactly the debts as a percentage of monthly income. |
| MortgageAffordability.StressCostWithinCeiling | static/components/MortgageAffordabilityCalculator.js:141-148 | Any price up to the solved income price has a stress housing cost within the ceiling. |
| MortgageAffordability.SolveRatios | static/components/MortgageAffordabilityCalculator.js:147-151 | The reported ratios are the stress housing cost, without and with the debts, as a percentage of monthly income. |
| MortgageAffordability.SolveMeetsStressTest | static/components/MortgageAffordabilityCalculator.js:140-151 | For a positive income, when the ceiling is reachable at a non-negative price, the reported GDS is at most 39 and TDS at most 44. |
| MortgageAffordability.SolveIsLargestQualifyingPrice | static/components/MortgageAffordabilityCalculator.js:55-130 | The final price's minimum down payment is covered, and its stress housing cost is within the ceiling when the unclamped income price is non-negative. Every price passing both rules is at most the final price, except prices in (999,999, 1,000,000). |
| MortgageAffordability.AffordabilityCalculator.constructor | static/components/MortgageAffordabilityCalculator.js:16-24 | Results start at zeros with no limiting factor. |
| MortgageAffordability.AffordabilityCalculator.Calculate | static/components/MortgageAffordabilityCalculator.js:26-162 | The imperative calculation leaves `results` equal to `Solve` of the inputs and the previous results. |
| Household.EducationTotal | static/components/ThoroughCalculator.js:35 | The total of the children's costs, a non-number counting as 0. It is specified by `SumOfAppend`, `SumOfPermutation`, `AddChildTotal` and `RemoveChildTotal`. |
| Household.OwnedBy | static/components/ThoroughCalculator.js:44-45 | The policies of one owner, in order. It is specified by `OwnedByCount` and `OwnedByAppend`. |
| Household.Insurance | static/components/ThoroughCalculator.js:44-46 | The total of one owner's policy amounts. It is specified by `InsurancePermutation` and `InsuranceIgnoresOtherOwners`. |
| Household.SumOfAppend | static/components/ThoroughCalculator.js:35 | The total of a concatenation is the sum of the totals. |
| Household.SumOfPermutation | static/components/ThoroughCalculator.js:35 | The total does not depend on the order of the elements. |
| Household.OwnedByAppend | static/components/ThoroughCalculator.js:44-46 | Filtering by owner distributes over concatenation. |
| Household.OwnedByCount | static/components/ThoroughCalculator.js:44-46 | The filter keeps each policy of that owner as often as it occurs, and no policy of another owner. |
| Household.OwnedByPermutation | static/components/ThoroughCalculator.js:44-46 | Filters of two reorderings of the policies are reorderings of each other. |
| Household.InsurancePermutation | static/components/ThoroughCalculator.js:44-46 | An owner's insurance does not depend on the order of the policies. |
| Household.InsuranceIgnoresOtherOwners | static/components/ThoroughCalculator.js:59-61 | Inserting another owner's policy anywhere leaves an owner's insurance unchanged. |
| ThoroughCalculator.TotalLiabilities | static/components/ThoroughCalculator.js:36 | Mortgage, debts, final expenses and the education total. `AnalyseScenarios` states it as the report's total. |
| ThoroughCalculator.DeathScenario | static/components/ThoroughCalculator.js:38-49 | One death scenario. It is specified by `AnalyseScenarios` and `OtherOwnersPolicyIsIgnored`. |
| ThoroughCalculator.Analyse | static/components/ThoroughCalculator.js:34-73 | The whole report. It is specified by `AnalyseScenarios`, `SingleModeIgnoresSpouse2`, `OtherOwnersPolicyIsIgnored` and `AnalyseIgnoresOrder`, and `NeedsCalculator.Calculate` establishes it. |
| ThoroughCalculator.Gap | static/components/ThoroughCalculator.js:49 | The gap is non-negative and at least needs less assets; it is 0 exactly when assets cover needs, and otherwise equals the shortfall. |
| ThoroughCalculator.AnalyseScenarios | static/components/ThoroughCalculator.js:34-73 | Each scenario's needs are income × years plus the total liabilities; its assets are cash, investments and that spouse's policies; its gap is the floored shortfall. |
| ThoroughCalculator.SingleModeIgnoresSpouse2 | static/components/ThoroughCalculator.js:51-65 | Outside joint mode spouse 2's scenario is all zeros, whatever spouse 2's data. |
| ThoroughCalculator.OtherOwnersPolicyIsIgnored | static/components/ThoroughCalculator.js:44-61 | A policy owned by someone else does not change a spouse's scenario. |
| ThoroughCalculator.AnalyseIgnoresOrder | static/components/ThoroughCalculator.js:35-61 | Reordering children or policies does not change the report. |
| ThoroughCalculator.NeedsCalculator.constructor | static/components/ThoroughCalculator.js:32 | There is no result before the first calculation. |
| ThoroughCalculator.NeedsCalculator.Calculate | static/components/ThoroughCalculator.js:34-73 | The imperative calculation leaves `results` holding `Analyse` of the profile. |
| LiabilitiesStep.AddChild | static/components/ThoroughCalcSteps/LiabilitiesStep.js:6-8 | The list grows by one blank child costing 60,000 at the end, the rest unchanged. |
| LiabilitiesStep.RemoveChild | static/components/ThoroughCalcSteps/LiabilitiesStep.js:10-12 | The list without the child at an index. It is specified by `RemoveChildSpec` and `RemoveChildTotal`. |
| LiabilitiesStep.Apply | static/components/ThoroughCalcSteps/LiabilitiesStep.js:16 | A copy of a child with one field replaced. `UpdateChild` states its effect field by field. |
| LiabilitiesStep.WithoutPositionSplices | static/components/ThoroughCalcSteps/LiabilitiesStep.js:10-12 | Filtering out one position splices that element out if it is in range, and changes nothing otherwise. |
| LiabilitiesStep.RemoveChildSpec | static/components/ThoroughCalcSteps/LiabilitiesStep.js:10-12 | Removing an index in range splices that child out and keeps the order; any other index leaves the list unchanged. |
| LiabilitiesStep.UpdateChild | static/components/ThoroughCalcSteps/LiabilitiesStep.js:14-18 | Same length; every other child unchanged; the edited child has the one field set and the other two kept. |
| LiabilitiesStep.AddChildTotal | static/components/ThoroughCalcSteps/LiabilitiesStep.js:6-20 | Adding a child raises the education total by 60,000. |
| LiabilitiesStep.RemoveChildTotal | static/components/ThoroughCalcSteps/LiabilitiesStep.js:10-20 | Removing a child lowers the education total by that child's cost. |
| LifeInsuranceCalculator.Calculate | static/components/LifeInsuranceCalculator.js:13-30 | The whole estimate. It is specified by `EstimateBalances`, `AssetsLowerGap` and `GapCanBeNegative`. |
| LifeInsuranceCalculator.EstimateBalances | static/components/LifeInsuranceCalculator.js:13-30 | The breakdown echoes debt, mortgage and education and holds income × years; needs are the breakdown's sum; gap + assets = needs. |
| LifeInsuranceCalculator.AssetsLowerGap | static/components/LifeInsuranceCalculator.js:16-17 | Each extra dollar of savings or existing insurance lowers the gap by exactly one dollar. |
| LifeInsuranceCalculator.GapCanBeNegative | static/components/LifeInsuranceCalculator.js:17 | The gap is not floored: assets above needs give a negative gap. |

## Left out

- IEEE floating point: the model computes with exact reals. Rounding is not modelled. Nor are NaN and ±Infinity, except that a vanishing payment denominator gives 0, as `isNaN(...) ? 0` reports. A zero denominator with a non-zero numerator would give ±Infinity in JavaScript.
- MortgageCalculator.Quote: requires a non-zero price, so a cleared price field is not covered. At price 0 only the fraction `downPayment / price` becomes ±Infinity or NaN. The source then still returns finite figures: no premium (unless a negative down payment makes the fraction -Infinity), a mortgage of minus the down payment, no land transfer tax, and cash equal to the down payment.
- MortgageAffordability.Solve: requires an amortization of at least one year and a non-negative property-tax rate. These keep the stress payment factor defined and the price equation's denominator positive.
- MortgageAffordability.SolveMeetsStressTest: assumes a positive income and a non-negative unclamped income price. The solver itself accepts any non-zero income. With a negative income the ratio ceiling is negative and the percentages change sign, so the bound is not promised. When the unclamped price is negative, the price is clamped to 0, and the ratios at 0 can exceed the limits.
- MortgageAffordability.SolveIsLargestQualifyingPrice: promises the final price's housing-cost bound only when the unclamped income price is non-negative. Below that the price is clamped to 0, which may not fit under the ceiling. The down-payment half and maximality hold for all inputs.
- MortgageAffordability.DownPaymentCeilingMonotone: states monotonicity with an exception for down payments just below 75,000, because the code's 999,999 cap makes the ceiling dip there.
- `Number(x) || 0`: entered text is modelled as an already-parsed `Option<real>`, with None for anything that is not a number. String-to-number parsing is not modelled.
- LiabilitiesStep.UpdateChild: requires an index in range. The wizard only edits existing rows. An out-of-range index in JavaScript would append a sparse entry.
- Rendering, `useEffect` re-calculation, currency formatting, the wizard's step navigation, and the inputs' state setters are UI plumbing and are not modelled.
- Spouse contact fields (date of birth, e-mail, phone, smoker) are not read by the analysis and are not modelled.
- The assets wizard step (AssetsStep.js) is not part of this model. In the source its inputs never reach the analysis. It writes `savings`, `existingInsurance1` and `existingInsurance2` (AssetsStep.js:13, 22, 30), while the analysis reads only `cash`, `investments` and `policies` (ThoroughCalculator.js:42-46). Nothing in the source adds a policy. So the analysis always sees the initial cash of 20,000, investments of 30,000 and an empty policy list (ThoroughCalculator.js:26-30). The model takes these three as inputs and proves the analysis over all their values.
- The report step (ReportStep.js) only displays the analysis and is not part of this model.
