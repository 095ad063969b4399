/**
 * PaymentService: the stateful service. Its payment store and settlement queue are
 * fields that its methods update; the merchant store, the two registries, the webhook
 * dispatcher and the failure rate are fixed at construction. Each method is proved to
 * follow the matching step function of Lifecycle.
 */
module Service {
  import opened Wrappers
  import opened Domain
  import opened MethodRegistry
  import opened AntiFraud
  import opened Sinks
  import opened Webhooks
  import opened Lifecycle
  import opened LifecycleProperties

  class PaymentService {
    const merchants: map<int, Merchant>
    const paymentRegistry: PaymentMethodRegistry
    const antiFraudRegistry: AntiFraudRegistry
    const webhookDispatcher: WebhookDispatcher
    const failRate: real

    var payments: map<string, PaymentRecord>
    var tasks: seq<Task>

    /** The fixed collaborators, as the step functions see them. */
    function Config(): Config
      reads paymentRegistry
    {
      Lifecycle.Config(merchants, paymentRegistry.handlers, antiFraudRegistry.GetRules(),
                       webhookDispatcher.sinks, failRate)
    }

    /** The stores: the payments, the queued settlements and the dispatcher's deliveries. */
    function State(): Store
      reads this, webhookDispatcher
    {
      Store(payments, tasks, webhookDispatcher.deliveries)
    }

    ghost predicate Valid()
      reads this, webhookDispatcher
    {
      StoreValid(State())
    }

    /** The service starts with an empty payment store and nothing queued. */
    constructor (merchants: map<int, Merchant>, paymentRegistry: PaymentMethodRegistry,
                 antiFraudRegistry: AntiFraudRegistry, webhookDispatcher: WebhookDispatcher,
                 failRate: real)
      ensures this.merchants == merchants && this.paymentRegistry == paymentRegistry
      ensures this.antiFraudRegistry == antiFraudRegistry && this.webhookDispatcher == webhookDispatcher
      ensures this.failRate == failRate
      ensures payments == map[] && tasks == []
      ensures Valid()
    {
      this.merchants := merchants;
      this.paymentRegistry := paymentRegistry;
      this.antiFraudRegistry := antiFraudRegistry;
      this.webhookDispatcher := webhookDispatcher;
      this.failRate := failRate;
      payments := map[];
      tasks := [];
    }

    /** findByIdempotencyKeyAndMerchantId over the payment store. */
    method FindByIdempotencyKey(key: string, mid: int) returns (r: Option<PaymentRecord>)
      requires Valid()
      ensures r == Lifecycle.FindByIdempotencyKey(payments, key, mid)
    {
      if exists id | id in payments :: HasKey(payments[id], key, mid) {
        var id :| id in payments && HasKey(payments[id], key, mid);
        FindUnique(State(), key, mid, id);
        r := Some(payments[id]);
      } else {
        r := None;
      }
    }

    /**
     * antiFraudRegistry.getRules().forEach(rule -> rule.validate(payment, merchant)):
     * the rules in order, stopping at the first that rejects.
     */
    method RunAntiFraud(rules: seq<AntiFraudRule>, payment: Payment, merchant: Merchant)
      returns (outcome: Outcome<Error>)
      ensures outcome == FraudChain(rules, payment.Snapshot(), merchant)
    {
      var i := 0;
      while i < |rules|
        invariant 0 <= i <= |rules|
        invariant FraudChain(rules, payment.Snapshot(), merchant)
               == FraudChain(rules[i..], payment.Snapshot(), merchant)
      {
        var verdict := ValidateRule(rules[i], payment.Snapshot(), merchant);
        if verdict.Fail? {
          return verdict;
        }
        assert rules[i..][1..] == rules[i + 1..];
        i := i + 1;
      }
      outcome := Pass;
    }

    /** getPayment: a lookup; nothing changes. */
    method GetPayment(id: string) returns (r: Result<PaymentResponse, Error>)
      ensures r == Lifecycle.GetPayment(payments, id)
    {
      if id !in payments {
        return Err(NotFound);
      }
      r := Ok(ToResponse(payments[id]));
    }

    /**
     * createPayment: authenticate, answer a replay from the store, otherwise build the
     * payment, let its method's handler price it, run the anti-fraud chain, save it and
     * queue its settlement.
     */
    method CreatePayment(auth: Option<string>, idemKey: Option<string>, request: PaymentRequest,
                         uuid8: string, createdAt: int, updatedAt: int)
      returns (r: Result<PaymentResponse, Error>)
      requires Valid()
      modifies this
      ensures Valid()
      ensures (State(), r) == Create(old(State()), Config(), auth, idemKey, request, uuid8, createdAt, updatedAt)
    {
      CreatePreservesStore(State(), Config(), auth, idemKey, request, uuid8, createdAt, updatedAt);
      var authenticated := MerchantFromAuth(merchants, auth);
      if authenticated.Err? {
        return Err(authenticated.error);
      }
      var merchant := authenticated.value;
      var mid := merchant.id;

      if idemKey.Some? {
        var existing := FindByIdempotencyKey(idemKey.value, mid);
        if existing.Some? {
          return Ok(ToResponse(existing.value));
        }
      }

      var payment := new Payment(NewPayment(mid, request, idemKey, PAYMENT_ID_PREFIX + uuid8, createdAt, updatedAt));

      var handler := paymentRegistry.GetHandler(request.methodName);
      if handler.Err? {
        return Err(handler.error);
      }
      var priced := ApplyBusinessRules(handler.value, payment, request, merchant);
      if priced.Fail? {
        return Err(priced.error);
      }

      var fraud := RunAntiFraud(antiFraudRegistry.GetRules(), payment, merchant);
      if fraud.Fail? {
        return Err(fraud.error);
      }

      payments := payments[payment.id := payment.Snapshot()];
      tasks := tasks + [Task(payment.id, mid)];
      r := Ok(ToResponse(payment.Snapshot()));
    }

    /**
     * refund: authenticate, find, check ownership and status, mark REFUNDED, save, and
     * hand the updated payment to the webhook dispatcher; each sink gets its exchange.
     */
    method Refund(auth: Option<string>, paymentId: string, now: int, uuid8: string,
                  exchanges: seq<Exchange>) returns (r: Result<RefundResponse, Error>)
      requires Valid() && |exchanges| == |webhookDispatcher.sinks|
      modifies this, webhookDispatcher
      ensures Valid()
      ensures (State(), r) == Lifecycle.Refund(old(State()), Config(), auth, paymentId, now, uuid8, exchanges)
    {
      RefundPreservesStore(State(), Config(), auth, paymentId, now, uuid8, exchanges);
      var authenticated := MerchantFromAuth(merchants, auth);
      if authenticated.Err? {
        return Err(authenticated.error);
      }
      var merchant := authenticated.value;

      if paymentId !in payments {
        return Err(NotFound);
      }
      var p := new Payment(payments[paymentId]);

      if merchant.id != p.merchantId {
        return Err(Forbidden);
      }
      if p.status != Approved {
        return Err(BadRequest(ONLY_APPROVED));
      }

      p.status := Refunded;
      p.updatedAt := now;
      payments := payments[p.id := p.Snapshot()];

      ghost var calls := webhookDispatcher.DispatchPaymentUpdated(p.Snapshot(), merchant, exchanges, now);

      r := Ok(RefundResponse(REFUND_ID_PREFIX + uuid8, StatusName(p.status)));
    }

    /**
     * processAndNotify, after its delay: settle the payment with the draw against the
     * failure rate, save it, and notify the sinks; nothing happens when the payment or
     * the merchant is missing.
     */
    method ProcessAndNotify(paymentId: string, merchantId: int, draw: real, now: int,
                            exchanges: seq<Exchange>)
      requires Valid() && |exchanges| == |webhookDispatcher.sinks|
      modifies this, webhookDispatcher
      ensures Valid()
      ensures State() == Lifecycle.ProcessAndNotify(old(State()), Config(), paymentId, merchantId, draw, now, exchanges)
    {
      SettlementPreservesStore(State(), Config(), paymentId, merchantId, draw, now, exchanges);
      if paymentId !in payments || merchantId !in merchants {
        return;
      }
      var p := new Payment(payments[paymentId]);
      var m := merchants[merchantId];

      var approved := draw > failRate;
      p.status := if approved then Approved else Declined;
      p.updatedAt := now;
      payments := payments[p.id := p.Snapshot()];

      ghost var calls := webhookDispatcher.DispatchPaymentUpdated(p.Snapshot(), m, exchanges, now);
    }

    /** The thread pool takes the i-th queued settlement off the queue and runs it. */
    method RunSubmittedTask(i: int, draw: real, now: int, exchanges: seq<Exchange>)
      requires Valid() && 0 <= i < |tasks| && |exchanges| == |webhookDispatcher.sinks|
      modifies this, webhookDispatcher
      ensures Valid()
      ensures State() == RunTask(old(State()), Config(), i, draw, now, exchanges)
    {
      var t := tasks[i];
      tasks := tasks[..i] + tasks[i + 1..];
      ProcessAndNotify(t.paymentId, t.merchantId, draw, now, exchanges);
    }
  }
}
