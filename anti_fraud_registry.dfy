/**
 * The anti-fraud registry and chain: the discovered rule beans, each with the order its
 * annotation declares, are put in a stable ascending order; a payment passes when every
 * rule in that order accepts it, and the first rejection aborts the chain.
 */
module AntiFraud {
  import opened Wrappers
  import opened Domain
  import Money
  import HighAmount

  /**
   * The anti-fraud rules of the application (the AntiFraudRule interface's
   * implementations), each with the threshold its annotation declares.
   */
  datatype AntiFraudRule = HighAmountRule(threshold: Money.Decimal)

  /** A discovered rule bean together with the `order` of its annotation. */
  datatype RuleBean = RuleBean(name: string, order: int, rule: AntiFraudRule)

  /** The beans annotated in the application: HighAmount with order 1. */
  const DEFAULT_BEANS: seq<RuleBean> := [RuleBean("HighAmount", 1, HighAmountRule(HighAmount.THRESHOLD))]

  /** AntiFraudRule.validate, dispatched to the rule's implementation. */
  function ValidateRule(rule: AntiFraudRule, payment: PaymentRecord, merchant: Merchant): Outcome<Error>
  {
    match rule
    case HighAmountRule(threshold) => HighAmount.Validate(threshold, payment, merchant)
  }

  // ----- the stable sort by order -----

  predicate SortedByOrder(s: seq<RuleBean>)
  {
    forall i, j :: 0 <= i < j < |s| ==> s[i].order <= s[j].order
  }

  /** The beans of s whose order is k, in their order in s. */
  function WithOrder(s: seq<RuleBean>, k: int): seq<RuleBean>
  {
    if |s| == 0 then []
    else (if s[0].order == k then [s[0]] else []) + WithOrder(s[1..], k)
  }

  /** Every bean of s has order at least lo. */
  predicate AllAtLeast(s: seq<RuleBean>, lo: int)
  {
    forall i :: 0 <= i < |s| ==> s[i].order >= lo
  }

  /** Inserts b into a sorted list after every bean whose order is at most b's. */
  function Insert(sorted: seq<RuleBean>, b: RuleBean): (r: seq<RuleBean>)
    ensures |r| == |sorted| + 1
  {
    if |sorted| == 0 then [b]
    else if b.order < sorted[0].order then [b] + sorted
    else [sorted[0]] + Insert(sorted[1..], b)
  }

  lemma {:induction false} InsertAtLeast(sorted: seq<RuleBean>, b: RuleBean, lo: int)
    requires AllAtLeast(sorted, lo) && b.order >= lo
    ensures AllAtLeast(Insert(sorted, b), lo)
  {
    if |sorted| > 0 && b.order >= sorted[0].order {
      InsertAtLeast(sorted[1..], b, lo);
    }
  }

  /** Insertion keeps a sorted list sorted. */
  lemma {:induction false} InsertSorted(sorted: seq<RuleBean>, b: RuleBean)
    requires SortedByOrder(sorted)
    ensures SortedByOrder(Insert(sorted, b))
  {
    if |sorted| > 0 {
      if b.order < sorted[0].order {
        assert AllAtLeast(sorted, b.order);
        SortedCons(b, sorted);
      } else {
        InsertSorted(sorted[1..], b);
        assert AllAtLeast(sorted[1..], sorted[0].order);
        InsertAtLeast(sorted[1..], b, sorted[0].order);
        SortedCons(sorted[0], Insert(sorted[1..], b));
      }
    }
  }

  lemma SortedCons(x: RuleBean, s: seq<RuleBean>)
    requires SortedByOrder(s) && AllAtLeast(s, x.order)
    ensures SortedByOrder([x] + s)
  {
    forall i, j | 0 <= i < j < |[x] + s|
      ensures ([x] + s)[i].order <= ([x] + s)[j].order
    {
      assert ([x] + s)[j] == s[j - 1];
      if i > 0 {
        assert ([x] + s)[i] == s[i - 1];
      }
    }
  }

  /** Insertion adds exactly b. */
  lemma {:induction false} InsertPermutation(sorted: seq<RuleBean>, b: RuleBean)
    ensures multiset(Insert(sorted, b)) == multiset(sorted) + multiset{b}
  {
    if |sorted| > 0 {
      assert sorted == [sorted[0]] + sorted[1..];
      if b.order >= sorted[0].order {
        InsertPermutation(sorted[1..], b);
      }
    }
  }

  /**
   * Stream.sorted(Comparator.comparingInt(order)) on the discovery-ordered beans: an
   * insertion sort that inserts each bean after the earlier ones of equal order.
   */
  function SortByOrder(beans: seq<RuleBean>): seq<RuleBean>
  {
    if |beans| == 0 then [] else Insert(SortByOrder(beans[..|beans| - 1]), beans[|beans| - 1])
  }

  /** The sorted list is ordered by `order`. */
  lemma {:induction false} SortByOrderSorted(beans: seq<RuleBean>)
    ensures SortedByOrder(SortByOrder(beans))
  {
    if |beans| > 0 {
      SortByOrderSorted(beans[..|beans| - 1]);
      InsertSorted(SortByOrder(beans[..|beans| - 1]), beans[|beans| - 1]);
    }
  }

  /** The sorted list holds exactly the beans given: none dropped, none duplicated. */
  lemma {:induction false} SortByOrderPermutation(beans: seq<RuleBean>)
    ensures multiset(SortByOrder(beans)) == multiset(beans)
  {
    if |beans| > 0 {
      var init := beans[..|beans| - 1];
      var last := beans[|beans| - 1];
      SortByOrderPermutation(init);
      InsertPermutation(SortByOrder(init), last);
      assert beans == init + [last];
    }
  }

  lemma {:induction false} WithOrderAppend(a: seq<RuleBean>, b: seq<RuleBean>, k: int)
    ensures WithOrder(a + b, k) == WithOrder(a, k) + WithOrder(b, k)
  {
    if |a| == 0 {
      assert a + b == b;
    } else {
      assert (a + b)[0] == a[0];
      assert (a + b)[1..] == a[1..] + b;
      WithOrderAppend(a[1..], b, k);
    }
  }

  lemma {:induction false} WithOrderNone(s: seq<RuleBean>, k: int)
    requires forall i :: 0 <= i < |s| ==> s[i].order > k
    ensures WithOrder(s, k) == []
  {
    if |s| > 0 {
      WithOrderNone(s[1..], k);
    }
  }

  /** Inserting b adds it at the end of the beans of its order and leaves the other orders alone. */
  lemma {:induction false} InsertWithOrder(sorted: seq<RuleBean>, b: RuleBean, k: int)
    requires SortedByOrder(sorted)
    ensures WithOrder(Insert(sorted, b), k) == WithOrder(sorted, k) + (if b.order == k then [b] else [])
  {
    if |sorted| == 0 {
    } else if b.order < sorted[0].order {
      if b.order == k {
        WithOrderNone(sorted, k);
      }
      WithOrderAppend([b], sorted, k);
    } else {
      InsertWithOrder(sorted[1..], b, k);
      WithOrderAppend([sorted[0]], Insert(sorted[1..], b), k);
    }
  }

  /** Stability: the beans of any one order come out in their discovery order. */
  lemma {:induction false} SortByOrderStable(beans: seq<RuleBean>, k: int)
    ensures WithOrder(SortByOrder(beans), k) == WithOrder(beans, k)
  {
    if |beans| > 0 {
      var init := beans[..|beans| - 1];
      var last := beans[|beans| - 1];
      var x := if last.order == k then [last] else [];
      assert SortByOrder(beans) == Insert(SortByOrder(init), last);
      SortByOrderStable(init, k);
      SortByOrderSorted(init);
      InsertWithOrder(SortByOrder(init), last, k);
      assert WithOrder(SortByOrder(beans), k) == WithOrder(init, k) + x;
      assert [last][1..] == [];
      assert WithOrder([last], k) == x;
      assert beans == init + [last];
      WithOrderAppend(init, [last], k);
    }
  }

  // ----- the registry -----

  /** AntiFraudRegistry: the rule beans in their sorted order, fixed at construction. */
  datatype AntiFraudRegistry = AntiFraudRegistry(beans: seq<RuleBean>)
  {
    /** getRules: the rules, in the registry's order; the same list on every call. */
    function GetRules(): (r: seq<AntiFraudRule>)
      ensures |r| == |beans|
      ensures forall i :: 0 <= i < |r| ==> r[i] == beans[i].rule
    {
      seq(|beans|, i requires 0 <= i < |beans| => beans[i].rule)
    }
  }

  /** The registry's constructor: the discovered beans sorted stably by order. */
  function Build(discovered: seq<RuleBean>): (r: AntiFraudRegistry)
    ensures SortedByOrder(r.beans)
    ensures multiset(r.beans) == multiset(discovered)
    ensures forall k :: WithOrder(r.beans, k) == WithOrder(discovered, k)
  {
    SortByOrderSorted(discovered);
    SortByOrderPermutation(discovered);
    forall k ensures WithOrder(SortByOrder(discovered), k) == WithOrder(discovered, k) {
      SortByOrderStable(discovered, k);
    }
    AntiFraudRegistry(SortByOrder(discovered))
  }

  /** Two rules discovered out of order come out ascending; equal orders keep discovery order. */
  lemma BuildExample()
    ensures var r := HighAmountRule(HighAmount.THRESHOLD);
      Build([RuleBean("B", 2, r), RuleBean("A", 1, r), RuleBean("C", 2, r)]).beans
        == [RuleBean("A", 1, r), RuleBean("B", 2, r), RuleBean("C", 2, r)]
  {
    var r := HighAmountRule(HighAmount.THRESHOLD);
    var a, b, c := RuleBean("A", 1, r), RuleBean("B", 2, r), RuleBean("C", 2, r);
    assert [b, a, c][..2] == [b, a];
    assert [b, a][..1] == [b];
    assert [b][..0] == [];
    assert SortByOrder([b]) == [b];
    assert SortByOrder([b, a]) == [a, b];
    assert Insert([b], c) == [b, c];
    assert SortByOrder([b, a, c]) == Insert([a, b], c) == [a, b, c];
  }

  // ----- the chain -----

  /**
   * rules.forEach(rule -> rule.validate(payment, merchant)): the first rejection, in list
   * order, aborts with that rule's error; otherwise the payment passes.
   */
  function FraudChain(rules: seq<AntiFraudRule>, payment: PaymentRecord, merchant: Merchant): Outcome<Error>
  {
    if |rules| == 0 then Pass
    else
      match ValidateRule(rules[0], payment, merchant)
      case Pass => FraudChain(rules[1..], payment, merchant)
      case Fail(e) => Fail(e)
  }

  /** The chain passes exactly when every rule accepts the payment. */
  lemma {:induction false} FraudChainPassesIffAll(rules: seq<AntiFraudRule>, payment: PaymentRecord, merchant: Merchant)
    ensures FraudChain(rules, payment, merchant).Pass? <==>
      forall i :: 0 <= i < |rules| ==> ValidateRule(rules[i], payment, merchant).Pass?
  {
    if |rules| > 0 {
      FraudChainPassesIffAll(rules[1..], payment, merchant);
      assert forall i :: 1 <= i < |rules| ==> rules[i] == rules[1..][i - 1];
    }
  }

  /** A failing chain reports the error of the first rule that rejects, all earlier rules having accepted. */
  lemma {:induction false} FraudChainFirstFailure(rules: seq<AntiFraudRule>, payment: PaymentRecord, merchant: Merchant)
    requires FraudChain(rules, payment, merchant).Fail?
    ensures exists i :: (0 <= i < |rules| &&
      (forall j :: 0 <= j < i ==> ValidateRule(rules[j], payment, merchant).Pass?) &&
      ValidateRule(rules[i], payment, merchant) == FraudChain(rules, payment, merchant))
  {
    if ValidateRule(rules[0], payment, merchant).Pass? {
      FraudChainFirstFailure(rules[1..], payment, merchant);
      var i :| (0 <= i < |rules[1..]| &&
        (forall j :: 0 <= j < i ==> ValidateRule(rules[1..][j], payment, merchant).Pass?) &&
        ValidateRule(rules[1..][i], payment, merchant) == FraudChain(rules[1..], payment, merchant));
      assert forall j :: 1 <= j < i + 1 ==> rules[j] == rules[1..][j - 1];
      assert ValidateRule(rules[i + 1], payment, merchant) == FraudChain(rules, payment, merchant);
    } else {
      assert ValidateRule(rules[0], payment, merchant) == FraudChain(rules, payment, merchant);
    }
  }

  /** With the application's rules, the chain rejects exactly the amounts above 5000. */
  lemma DefaultChain(payment: PaymentRecord, merchant: Merchant)
    ensures var rules := Build(DEFAULT_BEANS).GetRules();
      FraudChain(rules, payment, merchant).Fail? <==> Money.Value(payment.amount) > 5000.0
  {
    HighAmount.ThresholdValue();
    assert Build(DEFAULT_BEANS).GetRules() == [HighAmountRule(HighAmount.THRESHOLD)];
  }
}
