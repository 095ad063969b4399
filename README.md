# FiadoPay payment lifecycle in Dafny

FiadoPay is a simulated payment gateway. A merchant authenticates with a
`Bearer FAKE-<id>` credential and creates a payment. Creation is idempotent per
idempotency key and merchant.

- The payment-method handler registered for the payment's method (CARD or DEBIT)
  prices it: installments, monthly interest and total.
- The anti-fraud rules, in ascending `order`, may reject it.
- Otherwise it is saved as PENDING and a settlement is queued.

Later the settlement approves or declines the payment by comparing a random draw with
the configured failure rate. An APPROVED payment can be refunded by the merchant that
owns it. Each settlement and refund hands the payment to every webhook sink, in order.
The HTTP sink records one delivery per notification it actually sends.

This project models that core and proves its properties:

| file | module | what it holds |
|---|---|---|
| `money.dfy` | `Money` | `BigDecimal` as an unscaled integer and a scale, with its meaning as a real number; `multiply`, `pow`, `compareTo` and `setScale(_, HALF_UP)` |
| `text.dfy` | `Text` | `toUpperCase`, `isBlank`, `Long.parseLong`, and `Long.toString` as its inverse |
| `domain.dfy` | `Domain` | merchants, requests, the persisted payment record, the mutable `Payment` entity, the failures |
| `card_payment_handler.dfy` | `Card` | the CARD handler and its compound-interest total |
| `debit_payment_handler.dfy` | `Debit` | the DEBIT handler |
| `payment_method_registry.dfy` | `MethodRegistry` | the handler registry, case-insensitive lookup, handler dispatch |
| `high_amount_rule.dfy` | `HighAmount` | the HighAmount rule |
| `anti_fraud_registry.dfy` | `AntiFraud` | the stable sort of the rule beans by order, and the fail-fast chain |
| `webhook_sink.dfy` | `Sinks` | the guard logic of the HTTP webhook sink |
| `webhook_dispatcher.dfy` | `Webhooks` | the dispatcher: ordered fan-out with per-sink failure isolation |
| `lifecycle.dfy` | `Lifecycle` | the service as step functions over its stores |
| `lifecycle_properties.dfy` | `LifecycleProperties` | the lifecycle properties and the run invariants |
| `payment_service.dfy` | `Service` | the `PaymentService` class, proved to follow the step functions |

## Design

- The three interfaces `PaymentMethodHandler`, `AntiFraudRule` and `WebhookSinkHandler`
  are closed datatypes with one variant per implementation: `CardHandler | DebitHandler`,
  `HighAmountRule(threshold)` and `MerchantHttpSink`. The interface call dispatches on
  the variant.
- The annotation metadata read by reflection is carried explicitly:
  - a handler's `type`, a rule bean's `order`, and the HighAmount `threshold`;
  - the beans come as lists in discovery order.
- Repositories are in-memory maps of `PaymentRecord` values. `save` writes the record
  under the entity's own id. The `Payment` entity that handlers and the service mutate
  through setters is a class whose `Snapshot()` is the record the store keeps.
- The thread pool is a queue of `Task(paymentId, merchantId)`. `RunSubmittedTask(i)`
  takes any queued task off the queue and runs it, so settlements may run in any order.
- These values are parameters:
  - the eight UUID characters in payment and refund ids;
  - the clock readings;
  - the random draw, compared with the real-valued failure rate;
  - the HTTP exchange each sink meets, either a status code or an exception.
- Each state-changing method of `Service.PaymentService` ensures that its new state
  and answer equal the corresponding `Lifecycle` step function applied to the old
  state. The properties are proved about those step functions in `LifecycleProperties`.

Where the code and the documented intent of the system differ, the model follows the
code:

- Card installments of 0 or below are not rejected. They are stored as given and
  priced as a single installment (`Card.CardTerms`).
- A card total equal to the amount does not imply a single installment. 0.01 in two
  installments costs 0.010201, which rounds back to 0.01 (`Card.CardTotalMayEqualAmount`).
- A webhook delivery is recorded only when the HTTP post returns. When it throws,
  nothing is saved; when the merchant's URL is null or blank, the sink does nothing.
- The eight random hexadecimal characters of a payment id can repeat. A creation that
  draws an id already in the store overwrites that payment, since `save` merges by id.
  The status-transition results therefore assume fresh ids (`Lifecycle.Enabled`). The
  uniqueness of idempotency keys holds without that assumption.

## Model

| member | source | states |
|---|---|---|
| Money.Compare | src/main/java/edu/ucsal/fiadopay/antifraud/HighAmountRule.java:19 | `compareTo` yields -1, 0 or 1, and its sign is that of the difference of the two decimals' numeric values, whatever their scales |
| Money.Multiply | src/main/java/edu/ucsal/fiadopay/payment/CardPaymentHandler.java:28 | `multiply` is exact: the product denotes the product of the values |
| Money.DecimalPow | src/main/java/edu/ucsal/fiadopay/payment/CardPaymentHandler.java:26-27 | `pow(n)` is exact: it denotes the value raised to the n-th power |
| Money.SetScaleHalfUp | src/main/java/edu/ucsal/fiadopay/payment/CardPaymentHandler.java:28 | `setScale(k, HALF_UP)` has scale k; widening keeps the value; a non-negative value stays non-negative and a negative one non-positive; the result lies within half a unit of the k-th decimal of the input, with a tie going away from zero on either side |
| Money.SetScaleTies | src/main/java/edu/ucsal/fiadopay/payment/CardPaymentHandler.java:28 | 0.005 rounds to 0.01, -0.005 to -0.01 and -0.004 to 0.00 at scale 2 |
| Money.RoundHalfUp | src/main/java/edu/ucsal/fiadopay/payment/CardPaymentHandler.java:28 | integer division rounded HALF_UP: num/den lies within half a unit of the result, and a tie goes away from zero |
| Text.ToUpper | src/main/java/edu/ucsal/fiadopay/payment/PaymentMethodRegistry.java:26 | upper-casing keeps the length and maps each character |
| Text.ToUpperIdempotent | src/main/java/edu/ucsal/fiadopay/payment/PaymentMethodRegistry.java:26 | upper-casing an upper-cased name changes nothing |
| Text.ParseLong | src/main/java/edu/ucsal/fiadopay/service/PaymentService.java:62-68 | `Long.parseLong` yields a value only for a non-empty text, and that value lies in the range of long |
| Text.ParseLongAccepts | src/main/java/edu/ucsal/fiadopay/service/PaymentService.java:62-68 | `Long.parseLong` succeeds exactly for one optional sign followed by at least one ASCII digit whose signed value is in the range of long, and then yields that signed value |
| Text.ParseLongExamples | src/main/java/edu/ucsal/fiadopay/service/PaymentService.java:62-68 | "+5" is 5, "007" is 7 and "-0" is 0; "-", "+-1" and "1a" are refused |
| Text.ParseLongToString | src/main/java/edu/ucsal/fiadopay/service/PaymentService.java:62-65 | parsing the decimal text of any long gives back that long |
| Domain.StatusNameRoundTrip | src/main/java/edu/ucsal/fiadopay/service/PaymentService.java:196 | a status's enum name identifies the status |
| Domain.WithTerms | src/main/java/edu/ucsal/fiadopay/payment/CardPaymentHandler.java:18-32 | writing a handler's terms sets installments, monthly interest and total, and leaves every other field as it was |
| Domain.Payment.constructor | src/main/java/edu/ucsal/fiadopay/service/PaymentService.java:95-108 | the entity built from a record has exactly that record's fields |
| Card.CardTotal | src/main/java/edu/ucsal/fiadopay/payment/CardPaymentHandler.java:24-29 | the card price amount·1.01^n at scale 2; `Card.CardTotalRounding` proves it is the exact compound amount rounded HALF_UP to cents |
| Card.CardTerms | src/main/java/edu/ucsal/fiadopay/payment/CardPaymentHandler.java:17-33 | installments are the request's or 1 when absent. With at most one installment: interest 0 and total exactly the amount. With more: interest 1 and a total at scale 2. `pow` fails exactly when the count exceeds 999999999 |
| Card.CompoundValue | src/main/java/edu/ucsal/fiadopay/payment/CardPaymentHandler.java:26-28 | the decimal product amount·1.01^n denotes the exact compound amount |
| Card.CardTotalRounding | src/main/java/edu/ucsal/fiadopay/payment/CardPaymentHandler.java:24-29 | for a non-negative amount, the card total has scale 2, is non-negative, and is the exact compound amount rounded HALF_UP to cents |
| Card.CardTotalRoundingNegative | src/main/java/edu/ucsal/fiadopay/payment/CardPaymentHandler.java:24-29 | a negative amount, which the handler does not refuse, gets a non-positive total that is the exact compound amount rounded HALF_UP to cents, a tie going away from zero |
| Card.CompoundAtLeastAmount | src/main/java/edu/ucsal/fiadopay/payment/CardPaymentHandler.java:26-28 | compounding at 1% a month never lowers a non-negative amount |
| Card.FactorValue | src/main/java/edu/ucsal/fiadopay/payment/CardPaymentHandler.java:26-27 | the factor `1.01.pow(n)` denotes 1.01^n, which is at least 1 |
| Card.CardTotalAtLeastAmount | src/main/java/edu/ucsal/fiadopay/payment/CardPaymentHandler.java:21-29 | for a non-negative amount with at most two decimals, the card total is never below the amount |
| Card.CardTotalExample | src/main/java/edu/ucsal/fiadopay/payment/CardPaymentHandler.java:24-29 | 100.00 in 3 installments gives interest 1 and total 103.03 |
| Card.CardTotalMayEqualAmount | src/main/java/edu/ucsal/fiadopay/payment/CardPaymentHandler.java:24-29 | 0.01 in 2 installments gives total 0.01, so equality with the amount does not imply one installment |
| Card.ApplyBusinessRules | src/main/java/edu/ucsal/fiadopay/payment/CardPaymentHandler.java:17-33 | the payment gets the card terms and no other field changes; if `pow` throws, only the installments were set |
| Debit.DebitTerms | src/main/java/edu/ucsal/fiadopay/payment/DebitPaymentHandler.java:15-20 | debit terms are one installment, no interest, and the amount as total |
| Debit.DebitIgnoresInstallments | src/main/java/edu/ucsal/fiadopay/payment/DebitPaymentHandler.java:16-18 | whatever installments the request asks for, a debit payment gets 1 installment, interest 0 and the request's own amount, scale included, as total |
| Debit.ApplyBusinessRules | src/main/java/edu/ucsal/fiadopay/payment/DebitPaymentHandler.java:15-20 | the payment gets the debit terms and no other field changes |
| MethodRegistry.Registered | src/main/java/edu/ucsal/fiadopay/payment/PaymentMethodRegistry.java:15-23 | the registered keys are exactly the upper-cased declared types |
| MethodRegistry.LastBeanWins | src/main/java/edu/ucsal/fiadopay/payment/PaymentMethodRegistry.java:21 | a key holds the handler of the last bean in iteration order whose type upper-cases to it |
| MethodRegistry.HandlerFor | src/main/java/edu/ucsal/fiadopay/payment/PaymentMethodRegistry.java:25-31 | lookup succeeds exactly when the upper-cased name is a key, and returns that key's handler; otherwise it fails with the unsupported-method error naming the method as given |
| MethodRegistry.LookupCaseInsensitive | src/main/java/edu/ucsal/fiadopay/payment/PaymentMethodRegistry.java:26 | a name is found exactly when its upper-cased form is, and then both find the same handler |
| MethodRegistry.DefaultRegistered | src/main/java/edu/ucsal/fiadopay/payment/PaymentMethodRegistry.java:15-23 | the application's beans register exactly CARD and DEBIT |
| MethodRegistry.DefaultLookups | src/main/java/edu/ucsal/fiadopay/payment/PaymentMethodRegistry.java:25-31 | "card" finds the card handler, "Debit" the debit handler, and "pix" is unsupported |
| MethodRegistry.TotalAtLeastAmount | src/main/java/edu/ucsal/fiadopay/payment/PaymentMethodRegistry.java:25-31 | whichever handler prices a non-negative amount with at most two decimals, the total is at least the amount, and exactly the amount for debit or a single installment |
| MethodRegistry.PaymentMethodRegistry.constructor | src/main/java/edu/ucsal/fiadopay/payment/PaymentMethodRegistry.java:15-23 | the put loop builds exactly the registered map |
| MethodRegistry.PaymentMethodRegistry.GetHandler | src/main/java/edu/ucsal/fiadopay/payment/PaymentMethodRegistry.java:25-31 | `getHandler` returns the lookup's result and changes nothing |
| MethodRegistry.ApplyBusinessRules | src/main/java/edu/ucsal/fiadopay/service/PaymentService.java:111-113 | calling the looked-up handler gives the payment that handler's terms, or only the card handler's installments when `pow` throws |
| HighAmount.Validate | src/main/java/edu/ucsal/fiadopay/antifraud/HighAmountRule.java:15-23 | the rule rejects exactly the amounts strictly above the threshold, with the HighAmount message; it reads nothing else |
| HighAmount.ThresholdValue | src/main/java/edu/ucsal/fiadopay/antifraud/HighAmountRule.java:11-17 | the annotation's threshold denotes 5000 |
| HighAmount.ValidateExamples | src/main/java/edu/ucsal/fiadopay/antifraud/HighAmountRule.java:19-21 | 5000.01 is rejected; 5000.00 and 5000 pass |
| AntiFraud.SortByOrderSorted | src/main/java/edu/ucsal/fiadopay/antifraud/AntiFraudRegistry.java:21 | the sorted rules are non-decreasing in order |
| AntiFraud.SortByOrderPermutation | src/main/java/edu/ucsal/fiadopay/antifraud/AntiFraudRegistry.java:19-22 | the sorted rules are a permutation of the discovered beans |
| AntiFraud.SortByOrderStable | src/main/java/edu/ucsal/fiadopay/antifraud/AntiFraudRegistry.java:19-21 | rules of equal order keep their discovery order |
| AntiFraud.InsertSorted | src/main/java/edu/ucsal/fiadopay/antifraud/AntiFraudRegistry.java:21 | inserting a bean keeps a sorted list sorted |
| AntiFraud.InsertPermutation | src/main/java/edu/ucsal/fiadopay/antifraud/AntiFraudRegistry.java:21 | inserting a bean adds exactly that bean |
| AntiFraud.InsertWithOrder | src/main/java/edu/ucsal/fiadopay/antifraud/AntiFraudRegistry.java:21 | an inserted bean goes after all beans of its order, and beans of other orders are untouched |
| AntiFraud.Build | src/main/java/edu/ucsal/fiadopay/antifraud/AntiFraudRegistry.java:17-23 | the registry's list is sorted by order, a permutation of the discovered beans, and stable |
| AntiFraud.BuildExample | src/main/java/edu/ucsal/fiadopay/antifraud/AntiFraudRegistry.java:17-23 | beans found with orders 2, 1, 2 come out as 1, 2, 2, with the two order-2 beans in discovery order |
| AntiFraud.AntiFraudRegistry.GetRules | src/main/java/edu/ucsal/fiadopay/antifraud/AntiFraudRegistry.java:25-27 | `getRules` is the registry's rules, in its order |
| AntiFraud.FraudChainPassesIffAll | src/main/java/edu/ucsal/fiadopay/service/PaymentService.java:116-117 | the chain passes exactly when every rule accepts the payment |
| AntiFraud.FraudChainFirstFailure | src/main/java/edu/ucsal/fiadopay/service/PaymentService.java:116-117 | a failing chain reports the error of the first rejecting rule; all earlier rules accepted |
| AntiFraud.DefaultChain | src/main/java/edu/ucsal/fiadopay/antifraud/HighAmountRule.java:11-21 | with the application's rules, the chain rejects exactly the amounts above 5000 |
| Sinks.SendPaymentUpdated | src/main/java/edu/ucsal/fiadopay/webhook/MerchantHttpWebhookSink.java:37-81 | the sink does nothing when the URL is null or blank. It throws when the post throws. Otherwise it saves one delivery: event id "evt_"+payment id, type payment.updated, one attempt, delivered iff the status is 2xx |
| Sinks.BlankUrlIsSkipped | src/main/java/edu/ucsal/fiadopay/webhook/MerchantHttpWebhookSink.java:38-40 | a blank webhook URL silences the sink whatever the endpoint would answer |
| Webhooks.Fanout | src/main/java/edu/ucsal/fiadopay/webhook/WebhookDispatcher.java:24-32 | the dispatch makes one call per sink, in list order, each with its own exchange |
| Webhooks.SavedAppend | src/main/java/edu/ucsal/fiadopay/webhook/WebhookDispatcher.java:25-31 | what a run of sink calls saves is what its parts save, in order |
| Webhooks.SavedKeepsEveryRecorded | src/main/java/edu/ucsal/fiadopay/webhook/WebhookDispatcher.java:26-30 | every delivery any sink saved is kept, whatever the other sinks did, and nothing else is saved |
| Webhooks.FanoutIsolation | src/main/java/edu/ucsal/fiadopay/webhook/WebhookDispatcher.java:26-30 | a sink's outcome depends only on its own exchange |
| Webhooks.NoWebhookSavesNothing | src/main/java/edu/ucsal/fiadopay/webhook/MerchantHttpWebhookSink.java:38-40 | a merchant without a usable URL gets no delivery from any sink |
| Webhooks.WebhookDispatcher.constructor | src/main/java/edu/ucsal/fiadopay/webhook/WebhookDispatcher.java:17-22 | the sinks keep their discovery order, and no delivery is stored yet |
| Webhooks.WebhookDispatcher.DispatchPaymentUpdated | src/main/java/edu/ucsal/fiadopay/webhook/WebhookDispatcher.java:24-32 | the loop calls every sink once, in order, catching each failure; the store grows by exactly what the sinks saved, in call order |
| Lifecycle.Create | src/main/java/edu/ucsal/fiadopay/service/PaymentService.java:82-126 | the creation step; its properties are proved in `LifecycleProperties.CreateReplay`, `CreateFailureSavesNothing`, `CreateSavesOnce`, `CreatePreservesStore` and `CreateTwiceSameId` |
| Lifecycle.Refund | src/main/java/edu/ucsal/fiadopay/service/PaymentService.java:139-165 | the refund step; its properties are proved in `LifecycleProperties.RefundCheckOrder`, `RefundEffect`, `RefundPreservesStore` and `RefundTwiceFails` |
| Lifecycle.ProcessAndNotify | src/main/java/edu/ucsal/fiadopay/service/PaymentService.java:170-191 | the settlement step; its properties are proved in `LifecycleProperties.SettlementOutcome` and `SettlementPreservesStore` |
| Lifecycle.RunTask | src/main/java/edu/ucsal/fiadopay/service/PaymentService.java:123 | the executor running one queued settlement; its properties are proved in `LifecycleProperties.RunTaskStep` |
| Lifecycle.MerchantFromAuth | src/main/java/edu/ucsal/fiadopay/service/PaymentService.java:58-75 | authentication succeeds exactly for a credential "Bearer FAKE-" + a long naming a known ACTIVE merchant, and returns that merchant; every failure is UNAUTHORIZED |
| Lifecycle.MerchantFromAuthAccepts | src/main/java/edu/ucsal/fiadopay/service/PaymentService.java:58-75 | "Bearer FAKE-" followed by an active merchant's id authenticates exactly that merchant |
| Lifecycle.MerchantFromAuthRejects | src/main/java/edu/ucsal/fiadopay/service/PaymentService.java:59-68 | no credential, a lower-case prefix, a non-numeric id and an empty id are all UNAUTHORIZED |
| Lifecycle.FindByIdempotencyKey | src/main/java/edu/ucsal/fiadopay/service/PaymentService.java:88 | the lookup returns a stored payment with the key and merchant, or nothing exactly when there is none |
| Lifecycle.FindUnique | src/main/java/edu/ucsal/fiadopay/service/PaymentService.java:88 | in a valid store, the lookup finds the one payment with that key and merchant |
| Lifecycle.ToResponse | src/main/java/edu/ucsal/fiadopay/service/PaymentService.java:193-203 | the response carries the payment's id, method, amount, installments, interest and total, and a status name that identifies its status |
| Lifecycle.GetPayment | src/main/java/edu/ucsal/fiadopay/service/PaymentService.java:128-132 | a lookup answers a stored payment's response, or NOT_FOUND exactly when the id is not stored |
| Lifecycle.NewPayment | src/main/java/edu/ucsal/fiadopay/service/PaymentService.java:95-108 | a new payment is PENDING and owned by the merchant. Its method is upper-cased, its installments are the request's or 1, and it has no interest or total yet. It carries the key, amount, currency, order id and both clock readings |
| LifecycleProperties.CreateReplay | src/main/java/edu/ucsal/fiadopay/service/PaymentService.java:87-92 | a creation whose key and merchant match a stored payment answers with that payment, saves nothing and queues nothing |
| LifecycleProperties.CreateFailureSavesNothing | src/main/java/edu/ucsal/fiadopay/service/PaymentService.java:82-117 | a creation that fails in authentication, method lookup, pricing or fraud checks changes no store |
| LifecycleProperties.CreateSavesOnce | src/main/java/edu/ucsal/fiadopay/service/PaymentService.java:95-125 | a successful non-replayed creation saves exactly one payment under its new "pay_" id and queues exactly one settlement for it. That payment is the new payment priced by its handler and accepted by every rule; the answer describes it |
| LifecycleProperties.CreatePreservesStore | src/main/java/edu/ucsal/fiadopay/service/PaymentService.java:87-120 | every creation keeps each payment under its own id and each idempotency key unique per merchant |
| LifecycleProperties.CreateTwiceSameId | src/main/java/edu/ucsal/fiadopay/service/PaymentService.java:87-125 | after a successful keyed creation, the same key and merchant answer the same payment id without saving anything, and the store holds one payment for that key |
| LifecycleProperties.RefundCheckOrder | src/main/java/edu/ucsal/fiadopay/service/PaymentService.java:139-151 | refund fails UNAUTHORIZED, then NOT_FOUND, then FORBIDDEN, then BAD_REQUEST "Only approved payments can be refunded", each changing nothing; it succeeds exactly for the owner's APPROVED payment |
| LifecycleProperties.RefundEffect | src/main/java/edu/ucsal/fiadopay/service/PaymentService.java:153-164 | a successful refund changes only that payment's status, to REFUNDED, and its update time. It queues nothing, stores what the sinks saved, and answers status REFUNDED with a "ref_" id |
| LifecycleProperties.RefundPreservesStore | src/main/java/edu/ucsal/fiadopay/service/PaymentService.java:153-155 | a refund keeps ids and idempotency keys valid |
| LifecycleProperties.RefundTwiceFails | src/main/java/edu/ucsal/fiadopay/service/PaymentService.java:149-155 | refunding the same payment again fails with BAD_REQUEST and changes nothing |
| LifecycleProperties.SettlementOutcome | src/main/java/edu/ucsal/fiadopay/service/PaymentService.java:178-187 | settlement does nothing if the payment or merchant is missing. Otherwise it changes only that payment's status and update time: APPROVED iff the draw exceeds the failure rate, else DECLINED |
| LifecycleProperties.SettlementPreservesStore | src/main/java/edu/ucsal/fiadopay/service/PaymentService.java:185-187 | settlement keeps ids and idempotency keys valid |
| LifecycleProperties.CreateStep | src/main/java/edu/ucsal/fiadopay/service/PaymentService.java:95-125 | a creation with a fresh id leaves every stored payment as it was and queues only PENDING, distinct payments |
| LifecycleProperties.RefundStep | src/main/java/edu/ucsal/fiadopay/service/PaymentService.java:149-155 | a refund moves only APPROVED to REFUNDED and leaves queued payments PENDING |
| LifecycleProperties.RunTaskStep | src/main/java/edu/ucsal/fiadopay/service/PaymentService.java:170-191 | running a queued settlement moves its PENDING payment to APPROVED or DECLINED, shortens the queue by one, and leaves the other queued payments PENDING |
| LifecycleProperties.StepInvariant | src/main/java/edu/ucsal/fiadopay/service/PaymentService.java:82-191 | every operation that can take place keeps both store invariants and moves statuses only along legal transitions |
| LifecycleProperties.RunInvariant | src/main/java/edu/ucsal/fiadopay/service/PaymentService.java:82-191 | over any run, the invariants hold, no payment is lost, and each status only moves forward: PENDING, then APPROVED or DECLINED, then from APPROVED to REFUNDED |
| LifecycleProperties.RunFromEmpty | src/main/java/edu/ucsal/fiadopay/service/PaymentService.java:82-191 | from the empty stores, every run keeps idempotency keys unique and the queue consistent |
| Service.PaymentService.constructor | src/main/java/edu/ucsal/fiadopay/service/PaymentService.java:40-53 | the service keeps its collaborators and starts with no payment and nothing queued |
| Service.PaymentService.FindByIdempotencyKey | src/main/java/edu/ucsal/fiadopay/service/PaymentService.java:88 | the store query returns the lookup's answer |
| Service.PaymentService.RunAntiFraud | src/main/java/edu/ucsal/fiadopay/service/PaymentService.java:116-117 | the loop over the rules stops at the first rejection and yields the chain's outcome |
| Service.PaymentService.GetPayment | src/main/java/edu/ucsal/fiadopay/service/PaymentService.java:128-132 | `getPayment` answers the lookup and changes nothing |
| Service.PaymentService.CreatePayment | src/main/java/edu/ucsal/fiadopay/service/PaymentService.java:82-126 | the new stores and the answer are exactly those of the creation step, and the store invariant is kept |
| Service.PaymentService.Refund | src/main/java/edu/ucsal/fiadopay/service/PaymentService.java:139-165 | the new stores and the answer are exactly those of the refund step, and the store invariant is kept |
| Service.PaymentService.ProcessAndNotify | src/main/java/edu/ucsal/fiadopay/service/PaymentService.java:170-191 | the new stores are exactly those of the settlement step, and the store invariant is kept |
| Service.PaymentService.RunSubmittedTask | src/main/java/edu/ucsal/fiadopay/service/PaymentService.java:123 | running a queued task equals the run-task step |

## Left out

- Spring wiring (`ApplicationContext.getBeansWithAnnotation`, reflection on annotations):
  replaced by explicit bean lists that carry the annotation values.
- JPA and `@Transactional`: the repositories are maps, and each operation takes effect
  at once and alone. Two effects of the transaction boundary are therefore not modelled:
  - concurrent creations racing on the same idempotency key;
  - a settlement that runs before `createPayment` commits. The task is submitted inside
    the transaction, so `processAndNotify` can find no payment, return without effect,
    and leave the payment PENDING for good. In the model a queued settlement always
    finds its payment (`Lifecycle.TasksValid`).
- The thread pool, `Thread.sleep(delay)` and the interrupt path of `processAndNotify`
  (an interrupted settlement returns without effect): only timing and concurrency,
  replaced by the task queue.
- `Math.random()` and the `double` failure rate: the draw and the rate are reals, and
  only the comparison `draw > failRate` is modelled.
- UUIDs and `Instant.now()`: parameters. A refund or settlement uses one instant for the
  payment's `updatedAt` and for the delivery's `lastAttemptAt`.
- `MerchantHttpWebhookSink`: the JSON payload (Jackson), the HMAC-SHA256 signature and
  the HTTP transport are foreign calls; only the guard logic and the delivery record's
  fields are modelled, and the delivery's `signature` and `payload` columns are not.
- The text of `Long.parseLong` is modelled for ASCII digits and an optional sign only;
  `toUpperCase` maps only ASCII letters and `isBlank` knows only ASCII whitespace.
- `BigDecimal` with a negative scale (such as `1E+3`) is not modelled; scales are natural numbers.
- `monthlyInterest` is a `double` in the source that only takes 0.0 and 1.0; it is the integer 0 or 1.
- Null request fields other than `installments` (a null method or amount would throw a
  `NullPointerException`) are not modelled.
- `Lifecycle.Enabled`: the status-transition results (`CreateStep`, `StepInvariant`,
  `RunInvariant`) assume each creation draws a payment id not yet stored; a repeated id
  overwrites the stored payment.
