/**
 * The payment service as a state machine over its stores. Each operation of the service
 * is a function from the stores before to the stores after (and the caller's answer);
 * the service class is proved to follow these functions, and the lifecycle properties
 * (idempotent creation, all-or-nothing creation, the refund checks, settlement, legal
 * status transitions) are proved about them here.
 */
module Lifecycle {
  import opened Wrappers
  import opened Text
  import opened Money
  import opened Domain
  import opened MethodRegistry
  import opened AntiFraud
  import opened Sinks
  import opened Webhooks

  const BEARER_PREFIX: string := "Bearer FAKE-"
  const PAYMENT_ID_PREFIX: string := "pay_"
  const REFUND_ID_PREFIX: string := "ref_"
  const ONLY_APPROVED: string := "Only approved payments can be refunded"

  /** A settlement submitted to the thread pool: processAndNotify(paymentId, merchantId). */
  datatype Task = Task(paymentId: string, merchantId: int)

  /**
   * The mutable state: the payment store (keyed by payment id), the queue of submitted
   * settlements not yet run, and the webhook delivery store.
   */
  datatype Store = Store(
    payments: map<string, PaymentRecord>,
    tasks: seq<Task>,
    deliveries: seq<WebhookDelivery>)

  /**
   * What the service reads but never changes: the merchant store, the registered
   * handlers, the ordered anti-fraud rules, the webhook sinks and the failure rate.
   */
  datatype Config = Config(
    merchants: map<int, Merchant>,
    handlers: map<string, MethodHandler>,
    rules: seq<AntiFraudRule>,
    sinks: seq<WebhookSink>,
    failRate: real)

  /** The answer to a creation or a lookup. */
  datatype PaymentResponse = PaymentResponse(
    id: string,
    status: string,
    methodName: string,
    amount: Decimal,
    installments: int,
    monthlyInterest: Option<int>,
    totalWithInterest: Option<Decimal>)

  /** The answer to a refund: a refund id and the payment's new status name. */
  datatype RefundResponse = RefundResponse(id: string, status: string)

  // ----- authentication -----

  /** The merchant id a credential names: the long after the "Bearer FAKE-" prefix. */
  function CredentialId(auth: Option<string>): Option<int>
  {
    if auth.None? || |auth.value| < |BEARER_PREFIX| || auth.value[..|BEARER_PREFIX|] != BEARER_PREFIX
    then None
    else ParseLong(auth.value[|BEARER_PREFIX|..])
  }

  /** The merchant store maps each id to the merchant with that id. */
  predicate MerchantsKeyed(merchants: map<int, Merchant>)
  {
    forall id | id in merchants :: merchants[id].id == id
  }

  /**
   * merchantFromAuth: the ACTIVE merchant the credential names; a missing credential, a
   * wrong prefix, a suffix that is not a long, an unknown id and an inactive merchant
   * are all UNAUTHORIZED.
   */
  function MerchantFromAuth(merchants: map<int, Merchant>, auth: Option<string>): (r: Result<Merchant, Error>)
    ensures r.Ok? <==>
      CredentialId(auth).Some? && CredentialId(auth).value in merchants &&
      merchants[CredentialId(auth).value].status == Active
    ensures r.Ok? ==> r.value == merchants[CredentialId(auth).value] && r.value.status == Active
    ensures r.Err? ==> r.error == Unauthorized
  {
    var id := CredentialId(auth);
    if id.None? || id.value !in merchants then Err(Unauthorized)
    else
      var merchant := merchants[id.value];
      if merchant.status != Active then Err(Unauthorized) else Ok(merchant)
  }

  /**
   * The credential "Bearer FAKE-" followed by an active merchant's id authenticates
   * exactly that merchant, for every id in the range of long.
   */
  lemma MerchantFromAuthAccepts(merchants: map<int, Merchant>, id: int)
    requires MerchantsKeyed(merchants)
    requires LONG_MIN <= id <= LONG_MAX && id in merchants && merchants[id].status == Active
    ensures MerchantFromAuth(merchants, Some(BEARER_PREFIX + LongToString(id))) == Ok(merchants[id])
    ensures MerchantFromAuth(merchants, Some(BEARER_PREFIX + LongToString(id))).value.id == id
  {
    var auth := BEARER_PREFIX + LongToString(id);
    assert auth[..|BEARER_PREFIX|] == BEARER_PREFIX;
    assert auth[|BEARER_PREFIX|..] == LongToString(id);
    ParseLongToString(id);
  }

  /** Credentials that are refused: none, a lower-case prefix, a non-numeric id. */
  lemma MerchantFromAuthRejects(merchants: map<int, Merchant>)
    ensures MerchantFromAuth(merchants, None) == Err(Unauthorized)
    ensures MerchantFromAuth(merchants, Some("Bearer fake-1")) == Err(Unauthorized)
    ensures MerchantFromAuth(merchants, Some("Bearer FAKE-abc")) == Err(Unauthorized)
    ensures MerchantFromAuth(merchants, Some("Bearer FAKE-")) == Err(Unauthorized)
  {
    assert "Bearer fake-1"[..|BEARER_PREFIX|] != BEARER_PREFIX by {
      assert "Bearer fake-1"[7] != BEARER_PREFIX[7];
    }
    assert !AllDigits("abc") by {
      assert !IsDigit("abc"[0]);
    }
    assert "Bearer FAKE-abc"[|BEARER_PREFIX|..] == "abc";
    assert "Bearer FAKE-"[|BEARER_PREFIX|..] == "";
  }

  // ----- the payment store -----

  /** The payment carries this idempotency key and belongs to this merchant. */
  predicate HasKey(p: PaymentRecord, key: string, mid: int)
  {
    p.idempotencyKey == Some(key) && p.merchantId == mid
  }

  /**
   * The payment store's invariant: every payment is stored under its own id, and no two
   * payments share an idempotency key and a merchant.
   */
  ghost predicate StoreValid(s: Store)
  {
    (forall id | id in s.payments :: s.payments[id].id == id) &&
    (forall a, b, key, mid | a in s.payments && b in s.payments &&
       HasKey(s.payments[a], key, mid) && HasKey(s.payments[b], key, mid) :: a == b)
  }

  /** findByIdempotencyKeyAndMerchantId: the payment with that key and merchant, if any. */
  ghost function FindByIdempotencyKey(payments: map<string, PaymentRecord>, key: string, mid: int)
    : (r: Option<PaymentRecord>)
    ensures r.Some? ==> r.value in payments.Values
    ensures r.Some? ==> HasKey(r.value, key, mid)
    ensures r.None? <==> forall id | id in payments :: !HasKey(payments[id], key, mid)
  {
    if exists id :: id in payments && HasKey(payments[id], key, mid) then
      var id :| id in payments && HasKey(payments[id], key, mid);
      Some(payments[id])
    else None
  }

  /** In a valid store the lookup finds the one payment with that key and merchant. */
  lemma FindUnique(s: Store, key: string, mid: int, id: string)
    requires StoreValid(s) && id in s.payments && HasKey(s.payments[id], key, mid)
    ensures FindByIdempotencyKey(s.payments, key, mid) == Some(s.payments[id])
  {
  }

  /** toResponse: the payment's fields, with the status as its enum name. */
  function ToResponse(p: PaymentRecord): (r: PaymentResponse)
    ensures r.id == p.id && StatusOf(r.status) == Some(p.status)
    ensures r.methodName == p.methodName && r.amount == p.amount && r.installments == p.installments
    ensures r.monthlyInterest == p.monthlyInterest && r.totalWithInterest == p.totalWithInterest
  {
    StatusNameRoundTrip(p.status);
    PaymentResponse(p.id, StatusName(p.status), p.methodName, p.amount, p.installments,
                    p.monthlyInterest, p.totalWithInterest)
  }

  /** getPayment: the stored payment's response, or NOT_FOUND. */
  function GetPayment(payments: map<string, PaymentRecord>, id: string): (r: Result<PaymentResponse, Error>)
    ensures r.Ok? <==> id in payments
    ensures r.Ok? ==> r.value == ToResponse(payments[id])
    ensures r.Err? ==> r.error == NotFound
  {
    if id in payments then Ok(ToResponse(payments[id])) else Err(NotFound)
  }

  // ----- creation -----

  /**
   * The payment createPayment builds before any handler runs: PENDING, owned by the
   * merchant, method upper-cased, installments as requested or 1, no interest or total
   * yet, and the idempotency key as given.
   */
  function NewPayment(mid: int, request: PaymentRequest, idemKey: Option<string>, id: string,
                      createdAt: int, updatedAt: int): (p: PaymentRecord)
    ensures p.id == id && p.status == Pending && p.merchantId == mid
    ensures p.methodName == ToUpper(request.methodName)
    ensures p.installments == Card.RequestedInstallments(request)
    ensures p.amount == request.amount && p.currency == request.currency
    ensures p.monthlyInterest.None? && p.totalWithInterest.None?
    ensures p.idempotencyKey == idemKey && p.metadataOrderId == request.metadataOrderId
    ensures p.createdAt == createdAt && p.updatedAt == updatedAt
  {
    PaymentRecord(id, mid, ToUpper(request.methodName), request.amount, request.currency,
                  if request.installments.None? then 1 else request.installments.value,
                  None, None, Pending, createdAt, updatedAt, idemKey, request.metadataOrderId)
  }

  /**
   * createPayment. `uuid8` is the eight characters taken from the random UUID;
   * `createdAt` and `updatedAt` are the two clock readings. A replay answers with the
   * stored payment; any failure leaves the stores as they were; a success saves the
   * priced payment and queues its settlement.
   */
  ghost function Create(s: Store, c: Config, auth: Option<string>, idemKey: Option<string>,
                        request: PaymentRequest, uuid8: string, createdAt: int, updatedAt: int)
    : (Store, Result<PaymentResponse, Error>)
  {
    match MerchantFromAuth(c.merchants, auth)
    case Err(e) => (s, Err(e))
    case Ok(merchant) =>
      var mid := merchant.id;
      if idemKey.Some? && FindByIdempotencyKey(s.payments, idemKey.value, mid).Some? then
        (s, Ok(ToResponse(FindByIdempotencyKey(s.payments, idemKey.value, mid).value)))
      else
        var p := NewPayment(mid, request, idemKey, PAYMENT_ID_PREFIX + uuid8, createdAt, updatedAt);
        match HandlerFor(c.handlers, request.methodName)
        case Err(e) => (s, Err(e))
        case Ok(h) =>
          match HandlerTerms(h, request)
          case Err(e) => (s, Err(e))
          case Ok(terms) =>
            var priced := WithTerms(p, terms);
            match FraudChain(c.rules, priced, merchant)
            case Fail(e) => (s, Err(e))
            case Pass =>
              (s.(payments := s.payments[priced.id := priced], tasks := s.tasks + [Task(priced.id, mid)]),
               Ok(ToResponse(priced)))
  }

  // ----- refund -----

  /**
   * refund: checks authentication, existence, ownership and status in that order; a
   * success marks the payment REFUNDED at `now`, saves it, and notifies the sinks.
   */
  function Refund(s: Store, c: Config, auth: Option<string>, paymentId: string, now: int,
                  uuid8: string, exchanges: seq<Exchange>): (Store, Result<RefundResponse, Error>)
    requires |exchanges| == |c.sinks|
  {
    match MerchantFromAuth(c.merchants, auth)
    case Err(e) => (s, Err(e))
    case Ok(merchant) =>
      if paymentId !in s.payments then (s, Err(NotFound))
      else
        var p := s.payments[paymentId];
        if merchant.id != p.merchantId then (s, Err(Forbidden))
        else if p.status != Approved then (s, Err(BadRequest(ONLY_APPROVED)))
        else
          var refunded := p.(status := Refunded, updatedAt := now);
          (Store(s.payments[refunded.id := refunded], s.tasks,
                 s.deliveries + Saved(Fanout(c.sinks, refunded, merchant, exchanges, now))),
           Ok(RefundResponse(REFUND_ID_PREFIX + uuid8, StatusName(refunded.status))))
  }

  // ----- settlement -----

  /**
   * processAndNotify (after its delay): nothing when the payment or the merchant is
   * missing; otherwise APPROVED iff the draw exceeds the failure rate, else DECLINED,
   * saved at `now`, and the sinks notified.
   */
  function ProcessAndNotify(s: Store, c: Config, paymentId: string, merchantId: int, draw: real,
                            now: int, exchanges: seq<Exchange>): Store
    requires |exchanges| == |c.sinks|
  {
    if paymentId !in s.payments || merchantId !in c.merchants then s
    else
      var p := s.payments[paymentId];
      var merchant := c.merchants[merchantId];
      var settled := p.(status := if draw > c.failRate then Approved else Declined, updatedAt := now);
      Store(s.payments[settled.id := settled], s.tasks,
            s.deliveries + Saved(Fanout(c.sinks, settled, merchant, exchanges, now)))
  }

  /** The thread pool runs the i-th queued settlement: it leaves the queue and runs. */
  function RunTask(s: Store, c: Config, i: int, draw: real, now: int, exchanges: seq<Exchange>): Store
    requires 0 <= i < |s.tasks| && |exchanges| == |c.sinks|
  {
    var t := s.tasks[i];
    ProcessAndNotify(s.(tasks := s.tasks[..i] + s.tasks[i + 1..]), c, t.paymentId, t.merchantId,
                     draw, now, exchanges)
  }

  // ----- runs of the service -----

  /** One operation of the service, with the values its environment supplies. */
  datatype Op =
    | CreateOp(auth: Option<string>, idemKey: Option<string>, request: PaymentRequest,
               uuid8: string, createdAt: int, updatedAt: int)
    | RefundOp(auth: Option<string>, paymentId: string, now: int, uuid8: string,
               exchanges: seq<Exchange>)
    | RunTaskOp(index: int, draw: real, now: int, exchanges: seq<Exchange>)

  /**
   * The operation can take place: a queued task is picked, each sink gets one exchange,
   * and a creation draws a payment id not already in the store.
   */
  ghost predicate Enabled(s: Store, c: Config, op: Op)
  {
    match op
    case CreateOp(_, _, _, uuid8, _, _) => PAYMENT_ID_PREFIX + uuid8 !in s.payments
    case RefundOp(_, _, _, _, exchanges) => |exchanges| == |c.sinks|
    case RunTaskOp(i, _, _, exchanges) => 0 <= i < |s.tasks| && |exchanges| == |c.sinks|
  }

  /** The stores after the operation. */
  ghost function Apply(s: Store, c: Config, op: Op): Store
    requires Enabled(s, c, op)
  {
    match op
    case CreateOp(auth, idemKey, request, uuid8, createdAt, updatedAt) =>
      Create(s, c, auth, idemKey, request, uuid8, createdAt, updatedAt).0
    case RefundOp(auth, paymentId, now, uuid8, exchanges) =>
      Refund(s, c, auth, paymentId, now, uuid8, exchanges).0
    case RunTaskOp(i, draw, now, exchanges) => RunTask(s, c, i, draw, now, exchanges)
  }

  /** The stores after a run of operations, or None if some operation could not take place. */
  ghost function Run(s: Store, c: Config, ops: seq<Op>): Option<Store>
    decreases |ops|
  {
    if |ops| == 0 then Some(s)
    else if !Enabled(s, c, ops[0]) then None
    else Run(Apply(s, c, ops[0]), c, ops[1..])
  }

  /** The status changes the lifecycle allows: PENDING to APPROVED or DECLINED, APPROVED to REFUNDED. */
  predicate LegalTransition(before: PaymentStatus, after: PaymentStatus)
  {
    before == after ||
    (before == Pending && (after == Approved || after == Declined)) ||
    (before == Approved && after == Refunded)
  }

  /** No payment disappears, and each stored payment's status moved only along legal transitions. */
  ghost predicate Evolves(s: Store, t: Store)
  {
    forall id | id in s.payments ::
      id in t.payments && LegalTransition(s.payments[id].status, t.payments[id].status)
  }

  /** Every queued settlement names a distinct payment that is stored and still PENDING. */
  ghost predicate TasksValid(s: Store)
  {
    (forall i | 0 <= i < |s.tasks| ::
       s.tasks[i].paymentId in s.payments && s.payments[s.tasks[i].paymentId].status == Pending) &&
    (forall i, j | 0 <= i < j < |s.tasks| :: s.tasks[i].paymentId != s.tasks[j].paymentId)
  }

  /** The service's stores when it starts: nothing stored, nothing queued. */
  const EMPTY: Store := Store(map[], [], [])
}
