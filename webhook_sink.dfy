/**
 * The guard logic of the merchant HTTP webhook sink: what one `payment.updated`
 * notification records, given what the HTTP exchange with the merchant's endpoint gave.
 * The payload, its signature and the transport itself are outside the model; the
 * exchange is a parameter.
 */
module Sinks {
  import opened Wrappers
  import opened Text
  import opened Domain

  /** The result of posting the notification: a response status code, or an exception. */
  datatype Exchange = Responded(statusCode: int) | Unreachable

  /** A row of the webhook delivery store (its payload and signature are not modelled). */
  datatype WebhookDelivery = WebhookDelivery(
    eventId: string,
    eventType: string,
    paymentId: string,
    targetUrl: string,
    attempts: int,
    delivered: bool,
    lastAttemptAt: int)

  /** How one sink call ended: it returned early, it saved a delivery, or it threw. */
  datatype SinkCall = Skipped | Recorded(delivery: WebhookDelivery) | Threw

  /** The sinks of the application (the WebhookSinkHandler interface's implementations). */
  datatype WebhookSink = MerchantHttpSink

  const EVENT_TYPE: string := "payment.updated"

  /** The notification goes out only to a merchant whose webhook URL is set and not blank. */
  predicate HasWebhook(merchant: Merchant)
  {
    merchant.webhookUrl.Some? && !IsBlank(merchant.webhookUrl.value)
  }

  /**
   * WebhookSinkHandler.sendPaymentUpdated. The HTTP sink returns without doing anything
   * when the merchant has no usable URL; when the post throws, nothing is saved;
   * otherwise exactly one delivery is saved, delivered iff the status is 2xx.
   */
  function SendPaymentUpdated(sink: WebhookSink, payment: PaymentRecord, merchant: Merchant,
                              exchange: Exchange, now: int): (r: SinkCall)
    ensures r.Skipped? <==> !HasWebhook(merchant)
    ensures r.Threw? <==> HasWebhook(merchant) && exchange.Unreachable?
    ensures r.Recorded? ==>
      exchange.Responded? && (r.delivery.delivered <==> 200 <= exchange.statusCode < 300)
    ensures r.Recorded? ==>
      r.delivery.eventId == "evt_" + payment.id && r.delivery.paymentId == payment.id &&
      r.delivery.eventType == EVENT_TYPE && r.delivery.targetUrl == merchant.webhookUrl.value &&
      r.delivery.attempts == 1 && r.delivery.lastAttemptAt == now
  {
    match sink
    case MerchantHttpSink =>
      if merchant.webhookUrl.None? || IsBlank(merchant.webhookUrl.value) then Skipped
      else
        match exchange
        case Unreachable => Threw
        case Responded(code) =>
          var ok := code >= 200 && code < 300;
          Recorded(WebhookDelivery("evt_" + payment.id, EVENT_TYPE, payment.id,
                                   merchant.webhookUrl.value, 1, ok, now))
  }

  /** A blank URL (here a single space) silences the sink whatever the endpoint would do. */
  lemma BlankUrlIsSkipped(payment: PaymentRecord, merchant: Merchant, exchange: Exchange, now: int)
    ensures SendPaymentUpdated(MerchantHttpSink, payment, merchant.(webhookUrl := Some(" ")),
                               exchange, now) == Skipped
  {
    assert IsBlank(" ");
  }
}
