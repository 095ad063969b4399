/**
 * The payment-method registry: every handler bean is registered under the upper-cased
 * type its annotation declares, and a lookup upper-cases the requested method name.
 * The closed datatype MethodHandler stands for the PaymentMethodHandler interface and
 * its two implementations.
 */
module MethodRegistry {
  import opened Wrappers
  import opened Money
  import opened Text
  import opened Domain
  import Card
  import Debit

  /** The PaymentMethodHandler implementations. */
  datatype MethodHandler = CardHandler | DebitHandler

  /** A bean annotated with @PaymentMethod: the declared type and the handler object. */
  datatype HandlerBean = HandlerBean(methodType: string, handler: MethodHandler)

  /** The beans the application declares: CardPaymentHandler and DebitPaymentHandler. */
  const DEFAULT_BEANS: seq<HandlerBean> :=
    [HandlerBean("CARD", CardHandler), HandlerBean("DEBIT", DebitHandler)]

  /**
   * The map the registry's constructor builds by putting each bean, in iteration order,
   * under its upper-cased type: its keys are exactly the upper-cased types.
   */
  function Registered(beans: seq<HandlerBean>): (m: map<string, MethodHandler>)
    ensures m.Keys == set i | 0 <= i < |beans| :: ToUpper(beans[i].methodType)
  {
    if beans == [] then map[]
    else
      var last := beans[|beans| - 1];
      var m := Registered(beans[..|beans| - 1]);
      assert forall i :: 0 <= i < |beans| - 1 ==> beans[..|beans| - 1][i] == beans[i];
      m[ToUpper(last.methodType) := last.handler]
  }

  /**
   * Two beans whose types upper-case to the same key: put overwrites, so the key ends up
   * with the handler of the last such bean in iteration order.
   */
  lemma {:induction false} LastBeanWins(beans: seq<HandlerBean>, i: int)
    requires 0 <= i < |beans|
    requires forall j :: i < j < |beans| ==> ToUpper(beans[j].methodType) != ToUpper(beans[i].methodType)
    ensures Registered(beans)[ToUpper(beans[i].methodType)] == beans[i].handler
  {
    if i < |beans| - 1 {
      var init := beans[..|beans| - 1];
      assert init[i] == beans[i];
      forall j | i < j < |init|
        ensures ToUpper(init[j].methodType) != ToUpper(init[i].methodType)
      {
        assert init[j] == beans[j];
      }
      LastBeanWins(init, i);
    }
  }

  /**
   * PaymentMethodRegistry.getHandler as a function of the handler map: the handler under
   * the upper-cased name, or the unsupported-method error naming the method as given.
   */
  function HandlerFor(handlers: map<string, MethodHandler>, methodName: string): (r: Result<MethodHandler, Error>)
    ensures r.Ok? <==> ToUpper(methodName) in handlers
    ensures r.Ok? ==> r.value == handlers[ToUpper(methodName)]
    ensures r.Err? ==> r.error == UnsupportedMethod(methodName)
  {
    var key := ToUpper(methodName);
    if key in handlers then Ok(handlers[key]) else Err(UnsupportedMethod(methodName))
  }

  /** Lookup is case-insensitive: a name and its upper-case form find the same handler. */
  lemma LookupCaseInsensitive(handlers: map<string, MethodHandler>, methodName: string)
    ensures HandlerFor(handlers, methodName).Ok? <==> HandlerFor(handlers, ToUpper(methodName)).Ok?
    ensures HandlerFor(handlers, methodName).Ok? ==>
      HandlerFor(handlers, methodName) == HandlerFor(handlers, ToUpper(methodName))
  {
    ToUpperIdempotent(methodName);
  }

  /** The default beans register CARD and DEBIT. */
  lemma DefaultRegistered()
    ensures Registered(DEFAULT_BEANS) == map["CARD" := CardHandler, "DEBIT" := DebitHandler]
  {
    assert ToUpper("CARD") == "CARD";
    assert ToUpper("DEBIT") == "DEBIT";
    assert DEFAULT_BEANS[..1] == [HandlerBean("CARD", CardHandler)];
    assert Registered(DEFAULT_BEANS[..1]) == map["CARD" := CardHandler];
  }

  /** With the default beans, "card" and "Debit" are found and any other method is refused. */
  lemma DefaultLookups()
    ensures HandlerFor(Registered(DEFAULT_BEANS), "card") == Ok(CardHandler)
    ensures HandlerFor(Registered(DEFAULT_BEANS), "Debit") == Ok(DebitHandler)
    ensures HandlerFor(Registered(DEFAULT_BEANS), "pix") == Err(UnsupportedMethod("pix"))
  {
    DefaultRegistered();
    assert ToUpper("card") == "CARD";
    assert ToUpper("Debit") == "DEBIT";
    assert ToUpper("pix") == "PIX";
  }

  /** The terms a handler writes into a payment, or the error it raises. */
  function HandlerTerms(h: MethodHandler, request: PaymentRequest): Result<Terms, Error>
  {
    match h
    case CardHandler => Card.CardTerms(request)
    case DebitHandler => Ok(Debit.DebitTerms(request))
  }

  /**
   * Whichever handler applies, a non-negative amount with at most two decimals is never
   * charged less than the amount, and a debit or single-installment payment is charged
   * exactly the amount.
   */
  lemma TotalAtLeastAmount(h: MethodHandler, request: PaymentRequest)
    requires Value(request.amount) >= 0.0 && request.amount.scale <= 2
    requires HandlerTerms(h, request).Ok?
    ensures Value(HandlerTerms(h, request).value.total) >= Value(request.amount)
    ensures h == DebitHandler || Card.RequestedInstallments(request) <= 1 ==>
      HandlerTerms(h, request).value.total == request.amount
  {
    if h == CardHandler && Card.RequestedInstallments(request) > 1 {
      Card.CardTotalAtLeastAmount(request.amount, Card.RequestedInstallments(request));
    }
  }

  /** The registry object: the handler map is filled once, by the constructor. */
  class PaymentMethodRegistry {
    var handlers: map<string, MethodHandler>

    /** Puts every bean, in iteration order, under its upper-cased declared type. */
    constructor (beans: seq<HandlerBean>)
      ensures handlers == Registered(beans)
    {
      handlers := map[];
      new;
      var i := 0;
      while i < |beans|
        invariant 0 <= i <= |beans|
        invariant handlers == Registered(beans[..i])
      {
        assert beans[..i + 1][..i] == beans[..i];
        handlers := handlers[ToUpper(beans[i].methodType) := beans[i].handler];
        i := i + 1;
      }
      assert beans[..|beans|] == beans;
    }

    /** getHandler: a lookup that leaves the handler map as it is. */
    method GetHandler(methodName: string) returns (r: Result<MethodHandler, Error>)
      ensures r == HandlerFor(handlers, methodName)
    {
      var key := ToUpper(methodName);
      if key in handlers {
        r := Ok(handlers[key]);
      } else {
        r := Err(UnsupportedMethod(methodName));
      }
    }
  }

  /**
   * handler.applyBusinessRules through the interface: the card or debit handler's
   * method, whose effect on the payment is the handler's terms (or, when the card
   * handler's BigDecimal.pow throws, only the installments it set first).
   */
  method ApplyBusinessRules(h: MethodHandler, payment: Payment, request: PaymentRequest, merchant: Merchant)
    returns (outcome: Outcome<Error>)
    modifies payment
    ensures outcome.Pass? <==> HandlerTerms(h, request).Ok?
    ensures outcome.Pass? ==>
      payment.Snapshot() == WithTerms(old(payment.Snapshot()), HandlerTerms(h, request).value)
    ensures outcome.Fail? ==> outcome.error == HandlerTerms(h, request).error
    ensures outcome.Fail? ==>
      payment.Snapshot() == old(payment.Snapshot()).(installments := Card.RequestedInstallments(request))
  {
    match h
    case CardHandler =>
      outcome := Card.ApplyBusinessRules(payment, request, merchant);
    case DebitHandler =>
      Debit.ApplyBusinessRules(payment, request, merchant);
      outcome := Pass;
  }
}
