/** The emergency-fund calculator (`tools/emergency_fund_tools.py`): the
    target is the monthly cost times the months to cover, progress is the
    share of it already saved, and the remaining amount never goes below
    zero. */
module EmergencyFund {
  import opened Common
  import opened Models

  /** The result dict of `calculate_emergency_fund`. */
  datatype EmergencyFundResult = EmergencyFundResult(
    monthlyExpenses: real,
    financialObligations: real,
    monthsCoverage: int,
    targetFundSize: real,
    currentSavings: real,
    progressPercentage: real,
    remainingAmount: real,
    storageTips: seq<string>)

  /** The fixed storage suggestions, the same for every input. */
  const StorageTips: seq<string> := [
    "High-yield savings account: Offers better interest rates with easy access.",
    "Money market account: Balances liquidity and returns.",
    "Short-term CDs: Higher interest for fixed terms, but less flexibility.",
    "Avoid stocks or volatile investments for emergency funds due to risk."
  ]

  function Max(a: real, b: real): (m: real)
    ensures m >= a && m >= b && (m == a || m == b)
  {
    if a >= b then a else b
  }

  /** `calculate_emergency_fund` */
  function CalculateEmergencyFund(input: EmergencyFundInput): (r: EmergencyFundResult)
    // the inputs are echoed and the tips are fixed
    ensures r.monthlyExpenses == input.monthlyExpenses
    ensures r.financialObligations == input.financialObligations
    ensures r.monthsCoverage == input.monthsCoverage
    ensures r.currentSavings == input.currentSavings
    ensures r.storageTips == StorageTips
    // the target covers the monthly cost for every month
    ensures r.targetFundSize == (input.monthlyExpenses + input.financialObligations) * input.monthsCoverage as real
    // progress is the saved share of the target, in percent
    ensures r.targetFundSize > 0.0 ==> r.progressPercentage * r.targetFundSize == input.currentSavings * 100.0
    ensures r.targetFundSize <= 0.0 ==> r.progressPercentage == 0.0
    // what is still missing: never negative, at least the shortfall, zero exactly when the target is reached
    ensures r.remainingAmount >= 0.0 && r.remainingAmount >= r.targetFundSize - input.currentSavings
    ensures r.remainingAmount == 0.0 <==> input.currentSavings >= r.targetFundSize
    ensures r.remainingAmount > 0.0 ==> r.remainingAmount + input.currentSavings == r.targetFundSize
    ensures input.currentSavings >= 0.0 && r.targetFundSize >= 0.0 ==> r.remainingAmount <= r.targetFundSize
  {
    var totalMonthlyCost := input.monthlyExpenses + input.financialObligations;
    var target := totalMonthlyCost * input.monthsCoverage as real;
    var progress := if target > 0.0 then input.currentSavings / target * 100.0 else 0.0;
    var remaining := Max(0.0, target - input.currentSavings);
    EmergencyFundResult(input.monthlyExpenses, input.financialObligations, input.monthsCoverage,
                        target, input.currentSavings, progress, remaining, StorageTips)
  }

  /** Every input the schema accepts has a positive target, so the zero-progress
      branch is never taken for validated input, and the remaining amount is at
      most the target. */
  lemma ValidatedTargetPositive(monthlyExpenses: real, financialObligations: Option<real>,
                                monthsCoverage: Option<int>, currentSavings: Option<real>)
    requires ValidateEmergencyFund(monthlyExpenses, financialObligations, monthsCoverage, currentSavings).Ok?
    ensures var input := ValidateEmergencyFund(monthlyExpenses, financialObligations, monthsCoverage, currentSavings).value;
            var r := CalculateEmergencyFund(input);
            && r.targetFundSize > 0.0
            && r.progressPercentage * r.targetFundSize == input.currentSavings * 100.0
            && 0.0 <= r.remainingAmount <= r.targetFundSize
  {
    var input := ValidateEmergencyFund(monthlyExpenses, financialObligations, monthsCoverage, currentSavings).value;
    var cost := input.monthlyExpenses + input.financialObligations;
    assert cost > 0.0;
    assert input.monthsCoverage as real >= 1.0;
    assert cost * input.monthsCoverage as real >= cost * 1.0;
  }

  /** Saving more never lowers progress and never raises the remaining amount. */
  lemma MoreSavingsMoreProgress(input: EmergencyFundInput, extra: real)
    requires extra >= 0.0
    ensures var before := CalculateEmergencyFund(input);
            var after := CalculateEmergencyFund(input.(currentSavings := input.currentSavings + extra));
            && after.progressPercentage >= before.progressPercentage
            && after.remainingAmount <= before.remainingAmount
  {
    var before := CalculateEmergencyFund(input);
    var after := CalculateEmergencyFund(input.(currentSavings := input.currentSavings + extra));
    var t := before.targetFundSize;
    assert after.targetFundSize == t;
    if t > 0.0 {
      var gain := after.progressPercentage - before.progressPercentage;
      assert gain * t == extra * 100.0;
      NonNegativeFactor(gain, t);
    }
  }

  lemma NonNegativeFactor(x: real, t: real)
    requires t > 0.0 && x * t >= 0.0
    ensures x >= 0.0
  {
  }

  /** 2000 a month, no obligations, six months, 3000 saved. */
  lemma EmergencyFundExample()
    ensures var r := CalculateEmergencyFund(EmergencyFundInput(2000.0, 0.0, 6, 3000.0));
            r.targetFundSize == 12000.0 && r.remainingAmount == 9000.0 && r.progressPercentage == 25.0
  {
  }
}
