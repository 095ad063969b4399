/**
 * The entities the payment core works on: merchants, payment requests and responses,
 * the persisted payment record, and the Payment entity that handlers and the service
 * mutate through its setters.
 */
module Domain {
  import opened Wrappers
  import opened Money

  /** The failures the core raises, one per exception it throws. */
  datatype Error =
    | Unauthorized                      // ResponseStatusException(UNAUTHORIZED)
    | NotFound                          // ResponseStatusException(NOT_FOUND)
    | Forbidden                         // ResponseStatusException(FORBIDDEN)
    | BadRequest(reason: string)        // ResponseStatusException(BAD_REQUEST, reason)
    | UnsupportedMethod(methodName: string) // IllegalArgumentException from the method registry
    | FraudRejected(reason: string)     // IllegalStateException from an anti-fraud rule
    | ArithmeticError                   // ArithmeticException from BigDecimal.pow

  datatype MerchantStatus = Active | Inactive

  datatype Merchant = Merchant(id: int, status: MerchantStatus, webhookUrl: Option<string>)

  datatype PaymentStatus = Pending | Approved | Declined | Refunded

  /** Enum.name() of a payment status. */
  function StatusName(s: PaymentStatus): string
  {
    match s
    case Pending => "PENDING"
    case Approved => "APPROVED"
    case Declined => "DECLINED"
    case Refunded => "REFUNDED"
  }

  /** Enum.valueOf, the inverse of StatusName. */
  function StatusOf(name: string): Option<PaymentStatus>
  {
    if name == "PENDING" then Some(Pending)
    else if name == "APPROVED" then Some(Approved)
    else if name == "DECLINED" then Some(Declined)
    else if name == "REFUNDED" then Some(Refunded)
    else None
  }

  lemma StatusNameRoundTrip(s: PaymentStatus)
    ensures StatusOf(StatusName(s)) == Some(s)
  {
  }

  /** The body of a creation request. */
  datatype PaymentRequest = PaymentRequest(
    methodName: string,
    amount: Decimal,
    currency: string,
    installments: Option<int>,
    metadataOrderId: Option<string>)

  /**
   * A payment as the payment store holds it. The monthly interest is a percentage that
   * only ever takes the values 0 and 1; it and the total stay null (None) until a
   * method handler sets them.
   */
  datatype PaymentRecord = PaymentRecord(
    id: string,
    merchantId: int,
    methodName: string,
    amount: Decimal,
    currency: string,
    installments: int,
    monthlyInterest: Option<int>,
    totalWithInterest: Option<Decimal>,
    status: PaymentStatus,
    createdAt: int,
    updatedAt: int,
    idempotencyKey: Option<string>,
    metadataOrderId: Option<string>)

  /** The three fields a payment-method handler sets. */
  datatype Terms = Terms(installments: int, monthlyInterest: int, total: Decimal)

  /** A payment with a handler's terms written into it. */
  function WithTerms(p: PaymentRecord, t: Terms): (r: PaymentRecord)
    ensures r.installments == t.installments
    ensures r.monthlyInterest == Some(t.monthlyInterest)
    ensures r.totalWithInterest == Some(t.total)
    ensures r.(installments := p.installments, monthlyInterest := p.monthlyInterest,
               totalWithInterest := p.totalWithInterest) == p
  {
    p.(installments := t.installments, monthlyInterest := Some(t.monthlyInterest),
       totalWithInterest := Some(t.total))
  }

  /** The Payment entity: a mutable object whose fields the setters assign. */
  class Payment {
    var id: string
    var merchantId: int
    var methodName: string
    var amount: Decimal
    var currency: string
    var installments: int
    var monthlyInterest: Option<int>
    var totalWithInterest: Option<Decimal>
    var status: PaymentStatus
    var createdAt: int
    var updatedAt: int
    var idempotencyKey: Option<string>
    var metadataOrderId: Option<string>

    /** The entity's current field values, as the store would persist them. */
    function Snapshot(): PaymentRecord
      reads this
    {
      PaymentRecord(id, merchantId, methodName, amount, currency, installments, monthlyInterest,
                    totalWithInterest, status, createdAt, updatedAt, idempotencyKey,
                    metadataOrderId)
    }

    /** Builds the entity from field values (Payment.builder()...build(), or a load by id). */
    constructor (r: PaymentRecord)
      ensures Snapshot() == r
    {
      id, merchantId, methodName, amount, currency := r.id, r.merchantId, r.methodName, r.amount, r.currency;
      installments, monthlyInterest, totalWithInterest := r.installments, r.monthlyInterest, r.totalWithInterest;
      status, createdAt, updatedAt := r.status, r.createdAt, r.updatedAt;
      idempotencyKey, metadataOrderId := r.idempotencyKey, r.metadataOrderId;
    }
  }
}
