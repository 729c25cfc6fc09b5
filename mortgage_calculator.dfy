/**
 * The forward mortgage quote: given a price and a down payment, the CMHC
 * default-insurance premium, the insured mortgage, the level payment for
 * the chosen frequency, the Ontario (and Toronto) land transfer tax and the
 * cash needed at closing.
 */
module MortgageCalculator {
  import opened Wrappers
  import opened Annuity

  // ---------------------------------------------------------------------
  // CMHC premium table
  // ---------------------------------------------------------------------

  /** One row of the premium table: down-payment fractions in [min, max] pay `rate`. */
  datatype CmhcBracket = CmhcBracket(min: real, max: real, rate: real)

  const CMHC_RATES: seq<CmhcBracket> := [
    CmhcBracket(0.05, 0.0999, 0.0400),
    CmhcBracket(0.10, 0.1499, 0.0310),
    CmhcBracket(0.15, 0.1999, 0.0280),
    CmhcBracket(0.20, 1.0000, 0.0000)
  ]

  predicate Covers(b: CmhcBracket, fraction: real)
  {
    b.min <= fraction <= b.max
  }

  /** `Array.prototype.find`: the first bracket that covers the fraction, if any. */
  function FindBracket(brackets: seq<CmhcBracket>, fraction: real): (r: Option<CmhcBracket>)
    ensures r.Some? ==> r.value in brackets && Covers(r.value, fraction)
    ensures r.None? <==> forall i :: 0 <= i < |brackets| ==> !Covers(brackets[i], fraction)
    ensures r.Some? ==> exists i :: 0 <= i < |brackets| && brackets[i] == r.value
                                   && forall j :: 0 <= j < i ==> !Covers(brackets[j], fraction)
  {
    if brackets == [] then None
    else if Covers(brackets[0], fraction) then Some(brackets[0])
    else FindBracket(brackets[1..], fraction)
  }

  /**
   * The premium rate for a down-payment fraction: 0 from 20% up; below 20%
   * the covering bracket's rate, 0 when no bracket covers it, and 4% below 5%.
   */
  function CmhcRate(fraction: real): real
  {
    if fraction < 0.20 then
      if fraction < 0.05 then 0.04
      else match FindBracket(CMHC_RATES, fraction)
        case Some(b) => b.rate
        case None => 0.0
    else 0.0
  }

  /** The rate by tier, including the fractions that fall between two brackets. */
  lemma CmhcRateTiers(fraction: real)
    ensures fraction < 0.05 ==> CmhcRate(fraction) == 0.04
    ensures 0.05 <= fraction <= 0.0999 ==> CmhcRate(fraction) == 0.04
    ensures 0.0999 < fraction < 0.10 ==> CmhcRate(fraction) == 0.0
    ensures 0.10 <= fraction <= 0.1499 ==> CmhcRate(fraction) == 0.031
    ensures 0.1499 < fraction < 0.15 ==> CmhcRate(fraction) == 0.0
    ensures 0.15 <= fraction <= 0.1999 ==> CmhcRate(fraction) == 0.028
    ensures 0.1999 < fraction < 0.20 ==> CmhcRate(fraction) == 0.0
    ensures fraction >= 0.20 ==> CmhcRate(fraction) == 0.0
  {
    if 0.05 <= fraction < 0.20 {
      var r := FindBracket(CMHC_RATES, fraction);
      if r.None? {
        assert !Covers(CMHC_RATES[0], fraction) && !Covers(CMHC_RATES[1], fraction);
        assert !Covers(CMHC_RATES[2], fraction);
      }
    }
  }

  // ---------------------------------------------------------------------
  // Land transfer tax
  // ---------------------------------------------------------------------

  /** The part of `v` that lies in the slice (lo, hi]. */
  function Slice(v: real, lo: real, hi: real): real
    requires lo <= hi
  {
    if v <= lo then 0.0 else if v >= hi then hi - lo else v - lo
  }

  /**
   * The Ontario schedule as a sum of marginal rates over slices: 0.5% up to
   * 55,000, 1% to 250,000, 1.5% to 400,000, 2% to 2,000,000, 2.5% above.
   */
  function LandTransferTax(v: real): real
  {
    0.005 * Slice(v, 0.0, 55000.0)
    + 0.010 * Slice(v, 55000.0, 250000.0)
    + 0.015 * Slice(v, 250000.0, 400000.0)
    + 0.020 * Slice(v, 400000.0, 2000000.0)
    + 0.025 * (if v > 2000000.0 then v - 2000000.0 else 0.0)
  }

  /**
   * `calculateLTT`: peel the value from the top bracket down, charging the
   * excess over each threshold and lowering the value to that threshold.
   */
  method CalculateLtt(value: real) returns (tax: real)
    ensures tax == LandTransferTax(value)
  {
    var v := value;
    tax := 0.0;
    if v > 2000000.0 {
      tax := tax + (v - 2000000.0) * 0.025;
      v := 2000000.0;
    }
    if v > 400000.0 {
      tax := tax + (v - 400000.0) * 0.020;
      v := 400000.0;
    }
    if v > 250000.0 {
      tax := tax + (v - 250000.0) * 0.015;
      v := 250000.0;
    }
    if v > 55000.0 {
      tax := tax + (v - 55000.0) * 0.010;
      v := 55000.0;
    }
    if v > 0.0 {
      tax := tax + v * 0.005;
    }
  }

  lemma LttLowValues(v: real)
    ensures v <= 0.0 ==> LandTransferTax(v) == 0.0
    ensures 0.0 < v <= 55000.0 ==> LandTransferTax(v) == 0.005 * v
  {
  }

  lemma LttNonNegative(v: real)
    ensures LandTransferTax(v) >= 0.0
  {
  }

  lemma LttMonotone(v: real, w: real)
    requires v <= w
    ensures LandTransferTax(v) <= LandTransferTax(w)
  {
  }

  lemma LttSixHundredThousand()
    ensures LandTransferTax(600000.0) == 8475.0
  {
  }

  // ---------------------------------------------------------------------
  // The quote
  // ---------------------------------------------------------------------

  /** `paymentFreq`: 'monthly', 'bi-weekly', or anything else (accelerated bi-weekly). */
  datatype Frequency = Monthly | BiWeekly | AcceleratedBiWeekly

  /** `location`: 'toronto' adds the municipal tax; anything else does not. */
  datatype Location = Ontario | Toronto

  datatype QuoteInputs = QuoteInputs(
    price: real,
    downPayment: real,
    rate: real,           // annual contract rate, in percent
    amortization: nat,    // years
    paymentFreq: Frequency,
    location: Location)

  datatype QuoteResult = QuoteResult(
    mortgageAmount: real,
    cmhcInsurance: real,
    totalMortgage: real,
    payment: real,
    landTransferTax: real,
    provincialLTT: real,
    municipalLTT: real,
    cashNeeded: real)

  const ZERO_QUOTE := QuoteResult(0.0, 0.0, 0.0, 0.0, 0.0, 0.0, 0.0, 0.0)

  /** Periods per year: 12 for monthly, 26 for every other frequency. */
  function PeriodsPerYear(freq: Frequency): nat
  {
    if freq == Monthly then 12 else 26
  }

  /** The whole quote as a value, the specification of `MortgageQuoter.Calculate`. */
  function Quote(inp: QuoteInputs): QuoteResult
    requires inp.price != 0.0
  {
    var fraction := inp.downPayment / inp.price;
    var mortgageAmount := inp.price - inp.downPayment;
    var cmhcInsurance := if fraction < 0.20 then mortgageAmount * CmhcRate(fraction) else 0.0;
    var totalMortgage := mortgageAmount + cmhcInsurance;
    var perYear := PeriodsPerYear(inp.paymentFreq);
    var payment := Payment(totalMortgage, inp.rate / 100.0 / perYear as real, inp.amortization * perYear);
    var provincial := LandTransferTax(inp.price);
    var municipal := if inp.location == Toronto then provincial else 0.0;
    QuoteResult(mortgageAmount, cmhcInsurance, totalMortgage, payment,
                provincial + municipal, provincial, municipal, inp.downPayment + provincial + municipal)
  }

  /** The mortgage side: premium on the mortgage amount (not the price), and the insured total. */
  lemma QuoteMortgage(inp: QuoteInputs)
    requires inp.price != 0.0
    ensures var q := Quote(inp);
      && q.mortgageAmount == inp.price - inp.downPayment
      && q.cmhcInsurance == (inp.price - inp.downPayment) * CmhcRate(inp.downPayment / inp.price)
      && q.totalMortgage == q.mortgageAmount + q.cmhcInsurance
      && (inp.downPayment / inp.price >= 0.20 ==> q.cmhcInsurance == 0.0 && q.totalMortgage == q.mortgageAmount)
  {
  }

  /** Toronto doubles the tax; elsewhere only the provincial tax applies; cash is down payment plus tax. */
  lemma QuoteLandTransferTax(inp: QuoteInputs)
    requires inp.price != 0.0
    ensures var q := Quote(inp);
      && q.provincialLTT == LandTransferTax(inp.price)
      && q.municipalLTT == (if inp.location == Toronto then q.provincialLTT else 0.0)
      && q.landTransferTax == q.provincialLTT + q.municipalLTT
      && q.landTransferTax == (if inp.location == Toronto then 2.0 else 1.0) * LandTransferTax(inp.price)
      && q.cashNeeded == inp.downPayment + q.landTransferTax
  {
  }

  /** Bi-weekly and accelerated bi-weekly produce the same quote. */
  lemma AcceleratedSameAsBiWeekly(inp: QuoteInputs)
    requires inp.price != 0.0 && inp.paymentFreq == BiWeekly
    ensures Quote(inp) == Quote(inp.(paymentFreq := AcceleratedBiWeekly))
  {
  }

  /**
   * The payment is the level payment on the insured total: at a non-zero
   * rate it clears the balance after exactly amortization * periods-per-year
   * payments; at a 0% rate it is reported as 0.
   */
  lemma QuotePayment(inp: QuoteInputs)
    requires inp.price != 0.0
    ensures var q := Quote(inp);
      var perYear := PeriodsPerYear(inp.paymentFreq);
      var r := inp.rate / 100.0 / perYear as real;
      var n := inp.amortization * perYear;
      && (inp.rate == 0.0 ==> q.payment == 0.0)
      && (Pow(1.0 + r, n) != 1.0 ==> Balance(q.totalMortgage, r, q.payment, n) == 0.0)
  {
    var q := Quote(inp);
    var perYear := PeriodsPerYear(inp.paymentFreq);
    var r := inp.rate / 100.0 / perYear as real;
    var n := inp.amortization * perYear;
    if inp.rate == 0.0 {
      ZeroRatePayment(q.totalMortgage, n);
    }
    if Pow(1.0 + r, n) != 1.0 {
      PaymentAmortizes(q.totalMortgage, r, n);
    }
  }

  /** The calculator component: its `results` state is replaced by every `Calculate`. */
  class MortgageQuoter {
    var results: QuoteResult

    constructor()
      ensures results == ZERO_QUOTE
    {
      results := ZERO_QUOTE;
    }

    method Calculate(inp: QuoteInputs)
      requires inp.price != 0.0
      modifies this
      ensures results == Quote(inp)
    {
      var downPaymentPercent := inp.downPayment / inp.price;
      var cmhcRate := 0.0;
      if downPaymentPercent < 0.20 {
        var bracket := FindBracket(CMHC_RATES, downPaymentPercent);
        if bracket.Some? {
          cmhcRate := bracket.value.rate;
        }
        if downPaymentPercent < 0.05 {
          cmhcRate := 0.04;
        }
      }

      var mortgageAmount := inp.price - inp.downPayment;
      var cmhcInsurance := if downPaymentPercent < 0.20 then mortgageAmount * cmhcRate else 0.0;
      var totalMortgage := mortgageAmount + cmhcInsurance;

      var annualRate := inp.rate / 100.0;
      var periodicRate: real;
      var numberOfPayments: nat;
      if inp.paymentFreq == Monthly {
        periodicRate := annualRate / 12.0;
        numberOfPayments := inp.amortization * 12;
      } else if inp.paymentFreq == BiWeekly {
        periodicRate := annualRate / 26.0;
        numberOfPayments := inp.amortization * 26;
      } else {
        periodicRate := annualRate / 26.0;
        numberOfPayments := inp.amortization * 26;
      }

      var payment := Payment(totalMortgage, periodicRate, numberOfPayments);

      var provincialLTT := CalculateLtt(inp.price);
      var municipalLTT := 0.0;
      if inp.location == Toronto {
        municipalLTT := CalculateLtt(inp.price);
      }
      var landTransferTax := provincialLTT + municipalLTT;
      var cashNeeded := inp.downPayment + landTransferTax;

      results := QuoteResult(mortgageAmount, cmhcInsurance, totalMortgage, payment,
                             landTransferTax, provincialLTT, municipalLTT, cashNeeded);
    }
  }
}
