/** The compound-interest calculator (`tools/investment_tools.py`):
    `final = initial * (1 + annual_return / 100) ** years`, with the profit
    and the total return derived from it. Years are whole numbers here. */
module Investment {
  import opened Common
  import opened Models

  /** `x ** n` for a whole exponent. */
  function Pow(x: real, n: nat): real
  {
    if n == 0 then 1.0 else x * Pow(x, n - 1)
  }

  lemma {:induction false} PowNonNegative(x: real, n: nat)
    requires x >= 0.0
    ensures Pow(x, n) >= 0.0
  {
    if n > 0 {
      PowNonNegative(x, n - 1);
    }
  }

  lemma {:induction false} PowOne(n: nat)
    ensures Pow(1.0, n) == 1.0
  {
    if n > 0 {
      PowOne(n - 1);
    }
  }

  /** A base above one grows strictly with every whole period. */
  lemma {:induction false} PowAboveOne(x: real, n: nat)
    requires x > 1.0 && n >= 1
    ensures Pow(x, n) > 1.0
  {
    if n > 1 {
      PowAboveOne(x, n - 1);
      assert x * Pow(x, n - 1) > 1.0 * Pow(x, n - 1);
    }
  }

  /** A base in [0, 1) shrinks with every whole period. */
  lemma {:induction false} PowBelowOne(x: real, n: nat)
    requires 0.0 <= x < 1.0 && n >= 1
    ensures Pow(x, n) < 1.0
  {
    if n > 1 {
      PowBelowOne(x, n - 1);
      PowNonNegative(x, n - 1);
      assert x * Pow(x, n - 1) <= 1.0 * Pow(x, n - 1);
    }
  }

  /** The result dict of `calculate_investment_return_simple`, before rounding. */
  datatype InvestmentResult = InvestmentResult(
    initialAmount: real,
    years: nat,
    annualReturn: real,
    finalValue: real,
    profitLoss: real,
    totalPercentageReturn: real)

  /** The growth factor of one year at `annualReturn` percent. */
  function Factor(annualReturn: real): real
  {
    1.0 + annualReturn / 100.0
  }

  /** `calculate_investment_return_simple` for a whole number of years. */
  function CalculateInvestmentReturnSimple(initialAmount: real, years: nat, annualReturn: real)
    : (r: InvestmentResult)
    ensures r.initialAmount == initialAmount && r.years == years && r.annualReturn == annualReturn
    ensures r.finalValue == initialAmount * Pow(Factor(annualReturn), years)
    ensures r.finalValue == initialAmount + r.profitLoss
    ensures initialAmount > 0.0 ==> r.totalPercentageReturn * initialAmount == r.profitLoss * 100.0
    ensures initialAmount <= 0.0 ==> r.totalPercentageReturn == 0.0
  {
    var rate := annualReturn / 100.0;
    var finalValue := initialAmount * Pow(1.0 + rate, years);
    var profitLoss := finalValue - initialAmount;
    var pct := if initialAmount > 0.0 then profitLoss / initialAmount * 100.0 else 0.0;
    InvestmentResult(initialAmount, years, annualReturn, finalValue, profitLoss, pct)
  }

  /** The calculator applied to a validated schema: its three fields, unpacked. The model
      computes `** years` only for a whole number of years and gives `None` otherwise. */
  function CalculateFromInput(input: InvestmentReturnInput): (r: Option<InvestmentResult>)
    ensures r.Some? <==> input.years >= 0.0 && input.years == input.years.Floor as real
    ensures r.Some? ==> r.value.years as real == input.years
                        && r.value.initialAmount == input.initialAmount
                        && r.value.annualReturn == input.annualReturn
    ensures r.Some? ==> r.value == CalculateInvestmentReturnSimple(input.initialAmount, input.years.Floor as nat,
                                                                   input.annualReturn)
  {
    if input.years >= 0.0 && input.years == input.years.Floor as real then
      Some(CalculateInvestmentReturnSimple(input.initialAmount, input.years.Floor as nat, input.annualReturn))
    else
      None
  }

  /** A zero return keeps the money as it was. */
  lemma ZeroReturnKeepsValue(initialAmount: real, years: nat)
    ensures var r := CalculateInvestmentReturnSimple(initialAmount, years, 0.0);
            r.finalValue == initialAmount && r.profitLoss == 0.0 && r.totalPercentageReturn == 0.0
  {
    PowOne(years);
  }

  /** Above the schema's -100% floor the investment can shrink to nothing but not below:
      the final value is never negative and the loss is at most the initial amount. */
  lemma LossBounded(initialAmount: real, years: nat, annualReturn: real)
    requires initialAmount >= 0.0 && annualReturn >= MinAnnualReturn
    ensures var r := CalculateInvestmentReturnSimple(initialAmount, years, annualReturn);
            r.finalValue >= 0.0 && r.profitLoss >= -initialAmount
  {
    PowNonNegative(Factor(annualReturn), years);
  }

  /** A positive return over at least one year is a gain, a negative one a loss. */
  lemma ReturnSignDecidesProfit(initialAmount: real, years: nat, annualReturn: real)
    requires initialAmount > 0.0 && years >= 1 && annualReturn >= MinAnnualReturn
    ensures var r := CalculateInvestmentReturnSimple(initialAmount, years, annualReturn);
            && (annualReturn > 0.0 ==> r.profitLoss > 0.0 && r.totalPercentageReturn > 0.0)
            && (annualReturn < 0.0 ==> r.profitLoss < 0.0 && r.totalPercentageReturn < 0.0)
  {
    var p := Pow(Factor(annualReturn), years);
    if annualReturn > 0.0 {
      PowAboveOne(Factor(annualReturn), years);
      assert initialAmount * p > initialAmount * 1.0;
    } else if annualReturn < 0.0 {
      PowBelowOne(Factor(annualReturn), years);
      assert initialAmount * p < initialAmount * 1.0;
    }
  }

  /** For a positive amount the total return is the growth of the factor over the years, in percent:
      it does not depend on the amount invested. */
  lemma PercentageIsGrowth(initialAmount: real, years: nat, annualReturn: real)
    requires initialAmount > 0.0
    ensures CalculateInvestmentReturnSimple(initialAmount, years, annualReturn).totalPercentageReturn
         == (Pow(Factor(annualReturn), years) - 1.0) * 100.0
  {
    var a := initialAmount;
    var p := Pow(Factor(annualReturn), years);
    var r := CalculateInvestmentReturnSimple(a, years, annualReturn);
    assert r.profitLoss == a * p - a;
    assert r.totalPercentageReturn * a == r.profitLoss * 100.0;
    var gap := r.totalPercentageReturn - (p - 1.0) * 100.0;
    assert a * gap == 0.0;
    assert gap == (a * gap) / a;
  }

  /** 10000 for two years at 10%. */
  lemma InvestmentExample()
    ensures var r := CalculateInvestmentReturnSimple(10000.0, 2, 10.0);
            r.finalValue == 12100.0 && r.profitLoss == 2100.0 && r.totalPercentageReturn == 21.0
  {
    assert Pow(1.1, 2) == 1.21;
  }
}
