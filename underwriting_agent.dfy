/**
 * `run_underwriting_check` of agents/underwriting_agent.py, the stand-alone
 * underwriting rule: a credit-score floor of 650, then a ceiling of 4 on the
 * loan-to-income ratio. Amounts are reals and the ratio is exact division.
 */
module UnderwritingAgent {

  /** The dictionary the rule returns. */
  datatype UnderwritingVerdict = UnderwritingVerdict(approved: bool, reason: string)

  const MinimumCreditScore: int := 650
  const MaximumLoanToIncome: real := 4.0

  const CreditTooLow: string := "Credit score is too low."
  const RatioTooHigh: string := "Debt-to-income ratio is too high."
  const MeetsCriteria: string := "Customer profile meets preliminary criteria."

  /**
   * Rejected for the credit score below 650, whatever the amounts; otherwise
   * rejected for a ratio above 4; otherwise approved. The ratio divides by the
   * income, so a zero income is only allowed when the credit check already
   * rejects.
   */
  function RunUnderwritingCheck(creditScore: int, income: real, loanAmount: real): (v: UnderwritingVerdict)
    requires creditScore < MinimumCreditScore || income != 0.0
    ensures creditScore < MinimumCreditScore ==> v == UnderwritingVerdict(false, CreditTooLow)
    ensures creditScore >= MinimumCreditScore ==>
              (v.approved <==> loanAmount / income <= MaximumLoanToIncome)
    ensures v.reason == if v.approved then MeetsCriteria
                        else if creditScore < MinimumCreditScore then CreditTooLow else RatioTooHigh
  {
    if creditScore < MinimumCreditScore then UnderwritingVerdict(false, CreditTooLow)
    else if loanAmount / income > MaximumLoanToIncome then UnderwritingVerdict(false, RatioTooHigh)
    else UnderwritingVerdict(true, MeetsCriteria)
  }

  /** For a positive income the rule is the cross-multiplied one: score at least 650 and loan at most four incomes. */
  lemma ApprovalByCrossMultiplication(creditScore: int, income: real, loanAmount: real)
    requires income > 0.0
    ensures RunUnderwritingCheck(creditScore, income, loanAmount).approved
            <==> creditScore >= 650 && loanAmount <= 4.0 * income
  {
    var ratio := loanAmount / income;
    assert ratio * income == loanAmount;
    if ratio <= 4.0 {
      assert ratio * income <= 4.0 * income;
    } else {
      assert ratio * income > 4.0 * income;
    }
  }

  /** Both boundaries pass: a score of exactly 650 with a loan of exactly four incomes is approved. */
  lemma BoundariesPass(income: real)
    requires income > 0.0
    ensures RunUnderwritingCheck(650, income, 4.0 * income) == UnderwritingVerdict(true, MeetsCriteria)
  {
    assert (4.0 * income) / income == 4.0;
  }

  /**
   * A negative income makes the ratio of a non-negative loan non-positive, so
   * it passes the ratio check: the rule approves on the score alone.
   */
  lemma NegativeIncomePassesRatio(creditScore: int, income: real, loanAmount: real)
    requires income < 0.0 && loanAmount >= 0.0 && creditScore >= 650
    ensures RunUnderwritingCheck(creditScore, income, loanAmount).approved
  {
    var ratio := loanAmount / income;
    assert ratio * income == loanAmount;
  }
}
