/**
 * The HighAmount anti-fraud rule: a payment whose amount is strictly above the threshold
 * its annotation declares (5000.00) is rejected.
 */
module HighAmount {
  import opened Wrappers
  import opened Money
  import opened Domain

  /**
   * BigDecimal.valueOf(5000.00): the double prints as "5000.0", so the threshold is the
   * decimal 50000 * 10^-1.
   */
  const THRESHOLD: Decimal := Decimal(50000, 1)

  const REJECTION: string := "Pagamento reprovado por valor alto (regra HighAmount)"

  /**
   * HighAmountRule.validate, with the threshold its annotation carries: rejects exactly
   * the payments whose amount is numerically above the threshold. Only the amount is
   * read; the merchant is not, and nothing is changed.
   */
  function Validate(threshold: Decimal, payment: PaymentRecord, merchant: Merchant): (r: Outcome<Error>)
    ensures r.Fail? <==> Value(payment.amount) > Value(threshold)
    ensures r.Fail? ==> r.error == FraudRejected(REJECTION)
  {
    if Compare(payment.amount, threshold) > 0 then Fail(FraudRejected(REJECTION)) else Pass
  }

  /** The threshold denotes 5000. */
  lemma ThresholdValue()
    ensures Value(THRESHOLD) == 5000.0
  {
  }

  /**
   * The comparison is strict and numeric: 5000.01 is rejected, while 5000.00 and 5000
   * (any scale) pass.
   */
  lemma ValidateExamples(p: PaymentRecord, m: Merchant)
    ensures Validate(THRESHOLD, p.(amount := Decimal(500001, 2)), m).Fail?
    ensures Validate(THRESHOLD, p.(amount := Decimal(500000, 2)), m) == Pass
    ensures Validate(THRESHOLD, p.(amount := Decimal(5000, 0)), m) == Pass
  {
    assert Value(Decimal(500001, 2)) == 5000.01;
    assert Value(Decimal(500000, 2)) == 5000.0;
    assert Value(Decimal(5000, 0)) == 5000.0;
  }
}
