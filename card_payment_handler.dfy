/**
 * The CARD payment-method handler: installments default to 1, and with more than one
 * installment the total carries 1% compound monthly interest, rounded half-up to cents.
 */
module Card {
  import opened Wrappers
  import opened Money
  import opened Domain

  /** BigDecimal.pow accepts exponents up to 999999999 and throws ArithmeticException beyond. */
  const MAX_POW_EXPONENT: int := 999_999_999

  /** new BigDecimal("1.01"): the compounding factor of 1% a month. */
  const MONTHLY_FACTOR: Decimal := Decimal(101, 2)

  /** The installments the handler stores: the request's value, or 1 when it is null. */
  function RequestedInstallments(request: PaymentRequest): int
  {
    if request.installments.None? then 1 else request.installments.value
  }

  /** amount * 1.01^n, set to scale 2 with HALF_UP rounding. */
  function CardTotal(amount: Decimal, n: nat): (r: Decimal)
    ensures r.scale == 2
  {
    SetScaleHalfUp(Multiply(amount, DecimalPow(MONTHLY_FACTOR, n)), 2)
  }

  /**
   * The terms the card handler writes into a payment, or the ArithmeticException that
   * BigDecimal.pow throws for an exponent it does not accept. Installments are not
   * validated: zero or a negative count is stored as given and priced like a single one.
   */
  function CardTerms(request: PaymentRequest): (r: Result<Terms, Error>)
    ensures r.Err? <==> RequestedInstallments(request) > MAX_POW_EXPONENT
    ensures r.Err? ==> r.error == ArithmeticError
    ensures r.Ok? ==> r.value.installments == RequestedInstallments(request)
    ensures r.Ok? && RequestedInstallments(request) <= 1 ==>
      r.value.monthlyInterest == 0 && r.value.total == request.amount
    ensures r.Ok? && RequestedInstallments(request) > 1 ==>
      r.value.monthlyInterest == 1 && r.value.total.scale == 2
  {
    var n := RequestedInstallments(request);
    if n <= 1 then Ok(Terms(n, 0, request.amount))
    else if n > MAX_POW_EXPONENT then Err(ArithmeticError)
    else Ok(Terms(n, 1, CardTotal(request.amount, n)))
  }

  /** t is what HALF_UP rounding of x to cents gives: x lies within half a cent of t, a tie below. */
  predicate NearestCent(t: real, x: real)
  {
    t - 0.005 <= x < t + 0.005
  }

  /** The exact compound amount before rounding: amount * 1.01^n. */
  ghost function CompoundAmount(amount: Decimal, n: nat): real
  {
    Value(amount) * RealPow(1.01, n)
  }

  /** The decimal product the handler computes denotes the exact compound amount. */
  lemma CompoundValue(amount: Decimal, n: nat)
    ensures Value(Multiply(amount, DecimalPow(MONTHLY_FACTOR, n))) == CompoundAmount(amount, n)
  {
    FactorValue(n);
    CompoundOf(amount, DecimalPow(MONTHLY_FACTOR, n), n);
  }

  lemma CompoundOf(amount: Decimal, factor: Decimal, n: nat)
    requires Value(factor) == RealPow(1.01, n)
    ensures Value(Multiply(amount, factor)) == CompoundAmount(amount, n)
  {
    MultiplyValue(amount, factor);
    SameProduct(Value(amount), Value(factor), RealPow(1.01, n));
  }

  lemma SameProduct(x: real, y: real, g: real)
    requires y == g
    ensures x * y == x * g
  {
  }

  /**
   * The card total is the HALF_UP rounding to cents of the exact compound amount
   * amount * (101/100)^n: for a non-negative amount it is non-negative and lies within
   * half a cent of it, with a tie rounded up.
   */
  lemma CardTotalRounding(amount: Decimal, n: nat)
    requires Value(amount) >= 0.0
    ensures var total := CardTotal(amount, n);
      total.scale == 2 && Value(total) >= 0.0 &&
      NearestCent(Value(total), CompoundAmount(amount, n))
  {
    var c := Multiply(amount, DecimalPow(MONTHLY_FACTOR, n));
    CompoundAtLeastAmount(amount, n);
    CompoundValue(amount, n);
    SetScaleBounds(c, 2);
    HalfCent();
  }

  /**
   * The handler does not check the sign of the amount: a negative amount is compounded
   * as well, and its total is the HALF_UP rounding to cents, a tie going away from zero.
   */
  lemma CardTotalRoundingNegative(amount: Decimal, n: nat)
    requires Value(amount) < 0.0
    ensures var total := CardTotal(amount, n);
      Value(total) <= 0.0 && WithinHalfUnitTieAbove(Value(total), CompoundAmount(amount, n), 2)
  {
    FactorValue(n);
    assert CompoundAmount(amount, n) < 0.0 by {
      assert Value(amount) * RealPow(1.01, n) <= Value(amount) * 1.0;
    }
    CompoundValue(amount, n);
  }

  /** For a non-negative amount, compounding never decreases it. */
  lemma CompoundAtLeastAmount(amount: Decimal, n: nat)
    requires Value(amount) >= 0.0
    ensures CompoundAmount(amount, n) >= Value(amount)
  {
    RealPowAtLeastOne(1.01, n);
    assert Value(amount) * RealPow(1.01, n) >= Value(amount) * 1.0;
  }

  /** The compounding factor decimal denotes 1.01^n, which is at least 1. */
  lemma FactorValue(n: nat)
    ensures Value(DecimalPow(MONTHLY_FACTOR, n)) == RealPow(1.01, n) && RealPow(1.01, n) >= 1.0
  {
    assert Pow(10, 2) == 100;
    assert Value(MONTHLY_FACTOR) == 1.01;
    RealPowAtLeastOne(1.01, n);
  }

  lemma {:induction false} RealPowAtLeastOne(b: real, n: nat)
    requires b >= 1.0
    ensures RealPow(b, n) >= 1.0
  {
    if n > 0 {
      RealPowAtLeastOne(b, n - 1);
      assert b * RealPow(b, n - 1) >= 1.0 * RealPow(b, n - 1);
    }
  }

  /**
   * For a non-negative amount with at most two decimals the card total is never below
   * the amount, whatever the number of installments.
   */
  lemma CardTotalAtLeastAmount(amount: Decimal, n: nat)
    requires Value(amount) >= 0.0 && amount.scale <= 2
    ensures Value(CardTotal(amount, n)) >= Value(amount)
  {
    CardTotalRounding(amount, n);
    CompoundAtLeastAmount(amount, n);
    HalfCent();
    NotBelowOnGrid(CardTotal(amount, n), amount, 2);
  }

  /** The worked example: 100.00 in 3 installments costs 100.00 * 1.01^3 = 103.0301, so 103.03. */
  lemma CardTotalExample()
    ensures CardTerms(PaymentRequest("CARD", Decimal(10000, 2), "BRL", Some(3), None))
         == Ok(Terms(3, 1, Decimal(10303, 2)))
  {
    assert DecimalPow(MONTHLY_FACTOR, 3) == Decimal(1030301, 6);
    assert Pow(10, 6) == 1000000;
    assert RoundHalfUp(10303010000, 1000000) == 10303;
  }

  /**
   * Interest can round away entirely: 0.01 in 2 installments is 0.010201, which rounds
   * back to 0.01, so a card total equal to the amount does not imply a single installment.
   */
  lemma CardTotalMayEqualAmount()
    ensures CardTerms(PaymentRequest("CARD", Decimal(1, 2), "BRL", Some(2), None))
         == Ok(Terms(2, 1, Decimal(1, 2)))
  {
    assert DecimalPow(MONTHLY_FACTOR, 2) == Decimal(10201, 4);
    assert Pow(10, 4) == 10000;
    assert RoundHalfUp(10201, 10000) == 1;
  }

  /**
   * CardPaymentHandler.applyBusinessRules: sets installments first, then (unless
   * BigDecimal.pow throws) the monthly interest and the total. The merchant is not read.
   */
  method ApplyBusinessRules(payment: Payment, request: PaymentRequest, merchant: Merchant)
    returns (outcome: Outcome<Error>)
    modifies payment
    ensures outcome.Pass? <==> CardTerms(request).Ok?
    ensures outcome.Pass? ==>
      payment.Snapshot() == WithTerms(old(payment.Snapshot()), CardTerms(request).value)
    ensures outcome.Fail? ==> outcome.error == CardTerms(request).error
    ensures outcome.Fail? ==>
      payment.Snapshot() == old(payment.Snapshot()).(installments := RequestedInstallments(request))
  {
    var installments := if request.installments.None? then 1 else request.installments.value;
    payment.installments := installments;

    var monthlyInterest := 0;
    var total := request.amount;

    if installments > 1 {
      monthlyInterest := 1;
      if installments > MAX_POW_EXPONENT {
        return Fail(ArithmeticError);
      }
      var factor := DecimalPow(MONTHLY_FACTOR, installments);
      total := SetScaleHalfUp(Multiply(request.amount, factor), 2);
    }

    payment.monthlyInterest := Some(monthlyInterest);
    payment.totalWithInterest := Some(total);
    outcome := Pass;
  }
}
