/**
 * The DEBIT payment-method handler: a single installment, no interest, and a total
 * equal to the requested amount, whatever the request says about installments.
 */
module Debit {
  import opened Wrappers
  import opened Money
  import opened Domain

  /** The terms the debit handler writes into a payment. */
  function DebitTerms(request: PaymentRequest): Terms
  {
    Terms(1, 0, request.amount)
  }

  /**
   * The debit terms ignore the installments asked for: two requests that differ at most
   * in their installments (and anything else but the amount) get the same terms, with
   * one installment, no interest and the request's own amount, scale included, as total.
   */
  lemma DebitIgnoresInstallments(r1: PaymentRequest, r2: PaymentRequest)
    requires r1.amount == r2.amount
    ensures DebitTerms(r1) == DebitTerms(r2)
    ensures DebitTerms(r1).installments == 1 && DebitTerms(r1).monthlyInterest == 0
    ensures DebitTerms(r1).total == r1.amount
  {
  }

  /**
   * DebitPaymentHandler.applyBusinessRules: three setter calls. The merchant is not read
   * and no other field of the payment changes.
   */
  method ApplyBusinessRules(payment: Payment, request: PaymentRequest, merchant: Merchant)
    modifies payment
    ensures payment.Snapshot() == WithTerms(old(payment.Snapshot()), DebitTerms(request))
  {
    payment.installments := 1;
    payment.monthlyInterest := Some(0);
    payment.totalWithInterest := Some(request.amount);
  }
}
