/**
 * What the payment lifecycle guarantees, proved about the step functions of Lifecycle:
 * idempotent and all-or-nothing creation, the refund checks and their effect,
 * settlement, and the invariants and status transitions of any run of the service.
 */
module LifecycleProperties {
  import opened Wrappers
  import opened Domain
  import opened MethodRegistry
  import opened AntiFraud
  import opened Sinks
  import opened Webhooks
  import opened Lifecycle

  // ----- creation -----

  /**
   * A request whose key and merchant match a stored payment is a replay: it answers
   * with that payment, saves nothing and queues nothing, whatever the request body.
   */
  lemma CreateReplay(s: Store, c: Config, auth: Option<string>, key: string, request: PaymentRequest,
                     uuid8: string, createdAt: int, updatedAt: int, id: string)
    requires StoreValid(s)
    requires MerchantFromAuth(c.merchants, auth).Ok?
    requires id in s.payments && HasKey(s.payments[id], key, MerchantFromAuth(c.merchants, auth).value.id)
    ensures Create(s, c, auth, Some(key), request, uuid8, createdAt, updatedAt)
         == (s, Ok(ToResponse(s.payments[id])))
  {
    FindUnique(s, key, MerchantFromAuth(c.merchants, auth).value.id, id);
  }

  /** Any failure of a creation (authentication, method lookup, pricing, fraud) changes no store. */
  lemma CreateFailureSavesNothing(s: Store, c: Config, auth: Option<string>, idemKey: Option<string>,
                                  request: PaymentRequest, uuid8: string, createdAt: int, updatedAt: int)
    ensures Create(s, c, auth, idemKey, request, uuid8, createdAt, updatedAt).1.Err? ==>
      Create(s, c, auth, idemKey, request, uuid8, createdAt, updatedAt).0 == s
  {
  }

  /**
   * The payment a successful, non-replayed creation saves: the newly built payment with
   * the handler's terms, which every anti-fraud rule accepted.
   */
  predicate SavedPayment(c: Config, merchant: Merchant, request: PaymentRequest, idemKey: Option<string>,
                         uuid8: string, createdAt: int, updatedAt: int, p: PaymentRecord)
  {
    HandlerFor(c.handlers, request.methodName).Ok? &&
    HandlerTerms(HandlerFor(c.handlers, request.methodName).value, request).Ok? &&
    p == WithTerms(NewPayment(merchant.id, request, idemKey, PAYMENT_ID_PREFIX + uuid8, createdAt, updatedAt),
                   HandlerTerms(HandlerFor(c.handlers, request.methodName).value, request).value) &&
    FraudChain(c.rules, p, merchant).Pass?
  }

  /**
   * A creation that is not a replay and succeeds saves exactly one payment, under its
   * new id, and queues exactly one settlement for it; the answer describes that payment.
   */
  lemma CreateSavesOnce(s: Store, c: Config, auth: Option<string>, idemKey: Option<string>,
                        request: PaymentRequest, uuid8: string, createdAt: int, updatedAt: int)
    requires Create(s, c, auth, idemKey, request, uuid8, createdAt, updatedAt).1.Ok?
    requires idemKey.None? ||
      FindByIdempotencyKey(s.payments, idemKey.value, MerchantFromAuth(c.merchants, auth).value.id).None?
    ensures var (s', r) := Create(s, c, auth, idemKey, request, uuid8, createdAt, updatedAt);
      var merchant := MerchantFromAuth(c.merchants, auth).value;
      var id := PAYMENT_ID_PREFIX + uuid8;
      r.value.id == id && id in s'.payments &&
      SavedPayment(c, merchant, request, idemKey, uuid8, createdAt, updatedAt, s'.payments[id]) &&
      s'.payments == s.payments[id := s'.payments[id]] &&
      s'.tasks == s.tasks + [Task(id, merchant.id)] &&
      s'.deliveries == s.deliveries &&
      r.value == ToResponse(s'.payments[id])
  {
  }

  /** Every creation keeps the payment store valid: ids match keys, idempotency keys stay unique. */
  lemma CreatePreservesStore(s: Store, c: Config, auth: Option<string>, idemKey: Option<string>,
                             request: PaymentRequest, uuid8: string, createdAt: int, updatedAt: int)
    requires StoreValid(s)
    ensures StoreValid(Create(s, c, auth, idemKey, request, uuid8, createdAt, updatedAt).0)
  {
    var (s', r) := Create(s, c, auth, idemKey, request, uuid8, createdAt, updatedAt);
    if s' != s {
      var merchant := MerchantFromAuth(c.merchants, auth).value;
      assert idemKey.None? ||
        FindByIdempotencyKey(s.payments, idemKey.value, merchant.id).None?;
      CreateSavesOnce(s, c, auth, idemKey, request, uuid8, createdAt, updatedAt);
      var id := PAYMENT_ID_PREFIX + uuid8;
      var p := s'.payments[id];
      assert p.idempotencyKey == idemKey && p.merchantId == merchant.id;
      forall a, b, key, mid | a in s'.payments && b in s'.payments &&
        HasKey(s'.payments[a], key, mid) && HasKey(s'.payments[b], key, mid)
        ensures a == b
      {
        if a != b && (a == id || b == id) {
          assert false;
        }
      }
    }
  }

  /**
   * After a successful keyed creation, the same key and merchant give back the same
   * payment id without saving anything, and the store holds one payment for that key.
   */
  lemma CreateTwiceSameId(s: Store, c: Config, auth: Option<string>, key: string,
                          request1: PaymentRequest, uuid1: string, created1: int, updated1: int,
                          request2: PaymentRequest, uuid2: string, created2: int, updated2: int)
    requires StoreValid(s)
    requires Create(s, c, auth, Some(key), request1, uuid1, created1, updated1).1.Ok?
    ensures var (s1, r1) := Create(s, c, auth, Some(key), request1, uuid1, created1, updated1);
      var (s2, r2) := Create(s1, c, auth, Some(key), request2, uuid2, created2, updated2);
      s2 == s1 && r2.Ok? && r2.value.id == r1.value.id
    ensures var (s1, r1) := Create(s, c, auth, Some(key), request1, uuid1, created1, updated1);
      var mid := MerchantFromAuth(c.merchants, auth).value.id;
      r1.value.id in s1.payments &&
      forall id | id in s1.payments && HasKey(s1.payments[id], key, mid) :: id == r1.value.id
  {
    var (s1, r1) := Create(s, c, auth, Some(key), request1, uuid1, created1, updated1);
    var mid := MerchantFromAuth(c.merchants, auth).value.id;
    CreatePreservesStore(s, c, auth, Some(key), request1, uuid1, created1, updated1);
    var found := FindByIdempotencyKey(s.payments, key, mid);
    var id: string;
    if found.Some? {
      id :| id in s.payments && s.payments[id] == found.value;
      assert s1 == s && r1 == Ok(ToResponse(s.payments[id]));
    } else {
      CreateSavesOnce(s, c, auth, Some(key), request1, uuid1, created1, updated1);
      id := r1.value.id;
    }
    assert id in s1.payments && HasKey(s1.payments[id], key, mid) && r1.value.id == id;
    CreateReplay(s1, c, auth, key, request2, uuid2, created2, updated2, id);
  }

  // ----- refund -----

  /**
   * The refund checks, in order: authentication (UNAUTHORIZED), existence (NOT_FOUND),
   * ownership (FORBIDDEN), status (BAD_REQUEST); each failure leaves the stores as they were.
   */
  lemma RefundCheckOrder(s: Store, c: Config, auth: Option<string>, paymentId: string, now: int,
                         uuid8: string, exchanges: seq<Exchange>)
    requires |exchanges| == |c.sinks|
    ensures var (s', r) := Refund(s, c, auth, paymentId, now, uuid8, exchanges);
      var m := MerchantFromAuth(c.merchants, auth);
      (r.Err? ==> s' == s) &&
      (m.Err? ==> r == Err(Unauthorized)) &&
      (m.Ok? && paymentId !in s.payments ==> r == Err(NotFound)) &&
      (m.Ok? && paymentId in s.payments && s.payments[paymentId].merchantId != m.value.id ==>
         r == Err(Forbidden)) &&
      ((m.Ok? && paymentId in s.payments && s.payments[paymentId].merchantId == m.value.id &&
        s.payments[paymentId].status != Approved) ==> r == Err(BadRequest(ONLY_APPROVED))) &&
      (r.Ok? <==> (m.Ok? && paymentId in s.payments &&
        s.payments[paymentId].merchantId == m.value.id && s.payments[paymentId].status == Approved))
  {
  }

  /**
   * A successful refund changes only that payment's status (to REFUNDED) and update
   * time, queues nothing, and stores what the sinks saved about it.
   */
  lemma RefundEffect(s: Store, c: Config, auth: Option<string>, paymentId: string, now: int,
                     uuid8: string, exchanges: seq<Exchange>)
    requires StoreValid(s) && |exchanges| == |c.sinks|
    requires Refund(s, c, auth, paymentId, now, uuid8, exchanges).1.Ok?
    ensures var (s', r) := Refund(s, c, auth, paymentId, now, uuid8, exchanges);
      var refunded := s.payments[paymentId].(status := Refunded, updatedAt := now);
      s'.payments == s.payments[paymentId := refunded] &&
      s'.tasks == s.tasks &&
      s'.deliveries == s.deliveries +
        Saved(Fanout(c.sinks, refunded, MerchantFromAuth(c.merchants, auth).value, exchanges, now)) &&
      r.value.status == "REFUNDED" && r.value.id == REFUND_ID_PREFIX + uuid8
  {
  }

  /** A refund keeps the payment store valid. */
  lemma RefundPreservesStore(s: Store, c: Config, auth: Option<string>, paymentId: string, now: int,
                             uuid8: string, exchanges: seq<Exchange>)
    requires StoreValid(s) && |exchanges| == |c.sinks|
    ensures StoreValid(Refund(s, c, auth, paymentId, now, uuid8, exchanges).0)
  {
    var (s', r) := Refund(s, c, auth, paymentId, now, uuid8, exchanges);
    if r.Ok? {
      RefundEffect(s, c, auth, paymentId, now, uuid8, exchanges);
      assert forall id | id in s'.payments ::
        s'.payments[id].idempotencyKey == s.payments[id].idempotencyKey &&
        s'.payments[id].merchantId == s.payments[id].merchantId;
    }
  }

  /** Refunding a payment a second time fails with BAD_REQUEST and changes nothing. */
  lemma RefundTwiceFails(s: Store, c: Config, auth: Option<string>, paymentId: string,
                         now1: int, uuid1: string, exchanges1: seq<Exchange>,
                         now2: int, uuid2: string, exchanges2: seq<Exchange>)
    requires StoreValid(s) && |exchanges1| == |c.sinks| && |exchanges2| == |c.sinks|
    requires Refund(s, c, auth, paymentId, now1, uuid1, exchanges1).1.Ok?
    ensures var s1 := Refund(s, c, auth, paymentId, now1, uuid1, exchanges1).0;
      Refund(s1, c, auth, paymentId, now2, uuid2, exchanges2) == (s1, Err(BadRequest(ONLY_APPROVED)))
  {
    RefundEffect(s, c, auth, paymentId, now1, uuid1, exchanges1);
  }

  // ----- settlement -----

  /**
   * Settlement does nothing when the payment or merchant is missing; otherwise it
   * changes only that payment's status and update time, APPROVED exactly when the draw
   * exceeds the failure rate and DECLINED otherwise.
   */
  lemma SettlementOutcome(s: Store, c: Config, paymentId: string, merchantId: int, draw: real,
                          now: int, exchanges: seq<Exchange>)
    requires StoreValid(s) && |exchanges| == |c.sinks|
    ensures var s' := ProcessAndNotify(s, c, paymentId, merchantId, draw, now, exchanges);
      (paymentId !in s.payments || merchantId !in c.merchants ==> s' == s) &&
      (paymentId in s.payments && merchantId in c.merchants ==>
        paymentId in s'.payments &&
        s'.payments == s.payments[paymentId := s.payments[paymentId].(
                         status := s'.payments[paymentId].status, updatedAt := now)] &&
        (s'.payments[paymentId].status == Approved <==> draw > c.failRate) &&
        (s'.payments[paymentId].status == Declined <==> draw <= c.failRate) &&
        s'.tasks == s.tasks)
  {
  }

  /** Settlement keeps the payment store valid. */
  lemma SettlementPreservesStore(s: Store, c: Config, paymentId: string, merchantId: int, draw: real,
                                 now: int, exchanges: seq<Exchange>)
    requires StoreValid(s) && |exchanges| == |c.sinks|
    ensures StoreValid(ProcessAndNotify(s, c, paymentId, merchantId, draw, now, exchanges))
  {
    var s' := ProcessAndNotify(s, c, paymentId, merchantId, draw, now, exchanges);
    SettlementOutcome(s, c, paymentId, merchantId, draw, now, exchanges);
    assert forall id | id in s'.payments ::
      s'.payments[id].idempotencyKey == s.payments[id].idempotencyKey &&
      s'.payments[id].merchantId == s.payments[id].merchantId;
  }

  // ----- runs -----

  /** A creation with a fresh payment id keeps the queue invariant and moves no status. */
  lemma CreateStep(s: Store, c: Config, auth: Option<string>, idemKey: Option<string>,
                   request: PaymentRequest, uuid8: string, createdAt: int, updatedAt: int)
    requires StoreValid(s) && TasksValid(s) && PAYMENT_ID_PREFIX + uuid8 !in s.payments
    ensures var s' := Create(s, c, auth, idemKey, request, uuid8, createdAt, updatedAt).0;
      TasksValid(s') && Evolves(s, s') &&
      forall id | id in s.payments :: s'.payments[id] == s.payments[id]
  {
    var (s', r) := Create(s, c, auth, idemKey, request, uuid8, createdAt, updatedAt);
    if s' != s {
      CreateSavesOnce(s, c, auth, idemKey, request, uuid8, createdAt, updatedAt);
      var id := PAYMENT_ID_PREFIX + uuid8;
      assert s'.payments[id].status == Pending;
      assert s'.tasks[|s.tasks|].paymentId == id;
      assert forall i | 0 <= i < |s.tasks| :: s'.tasks[i] == s.tasks[i];
    }
  }

  /** A refund keeps the queue invariant: queued payments are PENDING, so none is refunded. */
  lemma RefundStep(s: Store, c: Config, auth: Option<string>, paymentId: string, now: int,
                   uuid8: string, exchanges: seq<Exchange>)
    requires StoreValid(s) && TasksValid(s) && |exchanges| == |c.sinks|
    ensures var s' := Refund(s, c, auth, paymentId, now, uuid8, exchanges).0;
      TasksValid(s') && Evolves(s, s')
  {
    var (s', r) := Refund(s, c, auth, paymentId, now, uuid8, exchanges);
    if r.Ok? {
      RefundEffect(s, c, auth, paymentId, now, uuid8, exchanges);
    }
  }

  /**
   * Running a queued settlement removes it from the queue and settles a PENDING payment,
   * so its status moves to APPROVED or DECLINED and the other queued payments stay PENDING.
   */
  lemma RunTaskStep(s: Store, c: Config, i: int, draw: real, now: int, exchanges: seq<Exchange>)
    requires StoreValid(s) && TasksValid(s) && 0 <= i < |s.tasks| && |exchanges| == |c.sinks|
    ensures var s' := RunTask(s, c, i, draw, now, exchanges);
      TasksValid(s') && Evolves(s, s') && |s'.tasks| == |s.tasks| - 1
  {
    var t := s.tasks[i];
    var q := s.(tasks := s.tasks[..i] + s.tasks[i + 1..]);
    assert StoreValid(q);
    SettlementOutcome(q, c, t.paymentId, t.merchantId, draw, now, exchanges);
    RemoveTask(s.tasks, i);
  }

  /** Taking the i-th task off the queue shifts the later ones down by one. */
  lemma RemoveTask(tasks: seq<Task>, i: int)
    requires 0 <= i < |tasks|
    ensures var rest := tasks[..i] + tasks[i + 1..];
      |rest| == |tasks| - 1 &&
      (forall k | 0 <= k < |rest| :: rest[k] == tasks[if k < i then k else k + 1])
  {
  }

  /** Every operation that can take place keeps both invariants and moves statuses legally. */
  lemma StepInvariant(s: Store, c: Config, op: Op)
    requires StoreValid(s) && TasksValid(s) && Enabled(s, c, op)
    ensures StoreValid(Apply(s, c, op)) && TasksValid(Apply(s, c, op)) && Evolves(s, Apply(s, c, op))
  {
    match op
    case CreateOp(auth, idemKey, request, uuid8, createdAt, updatedAt) =>
      CreatePreservesStore(s, c, auth, idemKey, request, uuid8, createdAt, updatedAt);
      CreateStep(s, c, auth, idemKey, request, uuid8, createdAt, updatedAt);
    case RefundOp(auth, paymentId, now, uuid8, exchanges) =>
      RefundPreservesStore(s, c, auth, paymentId, now, uuid8, exchanges);
      RefundStep(s, c, auth, paymentId, now, uuid8, exchanges);
    case RunTaskOp(i, draw, now, exchanges) =>
      var t := s.tasks[i];
      var q := s.(tasks := s.tasks[..i] + s.tasks[i + 1..]);
      SettlementPreservesStore(q, c, t.paymentId, t.merchantId, draw, now, exchanges);
      RunTaskStep(s, c, i, draw, now, exchanges);
  }

  /**
   * Over any run of the service from a valid state, the invariants hold at the end, no
   * payment is lost, and each payment's status has only moved forward through the
   * lifecycle: PENDING, then APPROVED or DECLINED, then (from APPROVED) REFUNDED.
   */
  lemma {:induction false} RunInvariant(s: Store, c: Config, ops: seq<Op>)
    requires StoreValid(s) && TasksValid(s) && Run(s, c, ops).Some?
    ensures StoreValid(Run(s, c, ops).value) && TasksValid(Run(s, c, ops).value)
    ensures forall id | id in s.payments :: (id in Run(s, c, ops).value.payments &&
      Reachable(s.payments[id].status, Run(s, c, ops).value.payments[id].status))
    decreases |ops|
  {
    if |ops| > 0 {
      var s1 := Apply(s, c, ops[0]);
      StepInvariant(s, c, ops[0]);
      RunInvariant(s1, c, ops[1..]);
      forall id | id in s.payments
        ensures Reachable(s.payments[id].status, Run(s, c, ops).value.payments[id].status)
      {
        ReachableAfterStep(s.payments[id].status, s1.payments[id].status,
                           Run(s, c, ops).value.payments[id].status);
      }
    }
  }

  /** The statuses a payment can reach from a given one along legal transitions. */
  predicate Reachable(before: PaymentStatus, after: PaymentStatus)
  {
    LegalTransition(before, after) || (before == Pending && after == Refunded)
  }

  lemma ReachableAfterStep(a: PaymentStatus, b: PaymentStatus, c: PaymentStatus)
    requires LegalTransition(a, b) && Reachable(b, c)
    ensures Reachable(a, c)
  {
  }

  /** From the empty stores, every run keeps the invariants: in particular idempotency keys stay unique. */
  lemma RunFromEmpty(c: Config, ops: seq<Op>)
    requires Run(EMPTY, c, ops).Some?
    ensures StoreValid(Run(EMPTY, c, ops).value) && TasksValid(Run(EMPTY, c, ops).value)
  {
    RunInvariant(EMPTY, c, ops);
  }
}
