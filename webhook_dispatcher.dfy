/**
 * The webhook dispatcher: it hands a `payment.updated` event to every sink, in list
 * order, and swallows each sink's failure so that the others still run and the caller
 * never sees it.
 */
module Webhooks {
  import opened Domain
  import opened Sinks

  /** What the sinks do, sink by sink, when each gets the exchange at its own position. */
  function Fanout(sinks: seq<WebhookSink>, payment: PaymentRecord, merchant: Merchant,
                  exchanges: seq<Exchange>, now: int): (calls: seq<SinkCall>)
    requires |exchanges| == |sinks|
    ensures |calls| == |sinks|
    ensures forall i :: 0 <= i < |sinks| ==>
      calls[i] == SendPaymentUpdated(sinks[i], payment, merchant, exchanges[i], now)
  {
    if |sinks| == 0 then []
    else [SendPaymentUpdated(sinks[0], payment, merchant, exchanges[0], now)]
         + Fanout(sinks[1..], payment, merchant, exchanges[1..], now)
  }

  /** The delivery one sink call saved, if any. */
  function SavedBy(call: SinkCall): seq<WebhookDelivery>
  {
    if call.Recorded? then [call.delivery] else []
  }

  /** The deliveries saved by a run of sink calls, in call order. */
  function Saved(calls: seq<SinkCall>): seq<WebhookDelivery>
  {
    if |calls| == 0 then [] else SavedBy(calls[0]) + Saved(calls[1..])
  }

  lemma {:induction false} SavedAppend(a: seq<SinkCall>, b: seq<SinkCall>)
    ensures Saved(a + b) == Saved(a) + Saved(b)
  {
    if |a| == 0 {
      assert a + b == b;
    } else {
      var ab := a + b;
      assert ab[0] == a[0];
      assert ab[1..] == a[1..] + b;
      SavedAppend(a[1..], b);
      assert Saved(ab) == SavedBy(a[0]) + (Saved(a[1..]) + Saved(b));
      assert Saved(a) == SavedBy(a[0]) + Saved(a[1..]);
    }
  }

  /**
   * Failure isolation: every delivery a sink saves is kept, whatever the sinks before or
   * after it did (skipped, saved or threw), and nothing else is saved.
   */
  lemma {:induction false} SavedKeepsEveryRecorded(calls: seq<SinkCall>)
    ensures forall i :: 0 <= i < |calls| && calls[i].Recorded? ==> calls[i].delivery in Saved(calls)
    ensures forall d :: d in Saved(calls) ==> Recorded(d) in calls
  {
    if |calls| > 0 {
      SavedKeepsEveryRecorded(calls[1..]);
      assert forall i :: 1 <= i < |calls| ==> calls[i] == calls[1..][i - 1];
    }
  }

  /** A sink's outcome depends only on its own exchange, not on what the other sinks met. */
  lemma FanoutIsolation(sinks: seq<WebhookSink>, payment: PaymentRecord, merchant: Merchant,
                        e1: seq<Exchange>, e2: seq<Exchange>, now: int, i: int)
    requires |e1| == |sinks| && |e2| == |sinks| && 0 <= i < |sinks| && e1[i] == e2[i]
    ensures Fanout(sinks, payment, merchant, e1, now)[i] == Fanout(sinks, payment, merchant, e2, now)[i]
  {
  }

  /** A payment whose merchant has no usable webhook URL saves nothing, whatever the sinks. */
  lemma {:induction false} NoWebhookSavesNothing(sinks: seq<WebhookSink>, payment: PaymentRecord,
                                                merchant: Merchant, exchanges: seq<Exchange>, now: int)
    requires |exchanges| == |sinks| && !HasWebhook(merchant)
    ensures Saved(Fanout(sinks, payment, merchant, exchanges, now)) == []
  {
    if |sinks| > 0 {
      NoWebhookSavesNothing(sinks[1..], payment, merchant, exchanges[1..], now);
    }
  }

  /** WebhookDispatcher: the discovered sinks, and the delivery store they write to. */
  class WebhookDispatcher {
    const sinks: seq<WebhookSink>
    var deliveries: seq<WebhookDelivery>

    /** The constructor keeps the sinks in discovery order; no delivery is stored yet. */
    constructor (discovered: seq<WebhookSink>)
      ensures sinks == discovered && deliveries == []
    {
      sinks := discovered;
      deliveries := [];
    }

    /**
     * dispatchPaymentUpdated: calls every sink exactly once, in order, each with its own
     * exchange; a throwing sink is caught and the loop goes on. The returned (ghost) calls
     * are the sinks' outcomes in call order; the store grows by exactly what they saved.
     */
    method DispatchPaymentUpdated(payment: PaymentRecord, merchant: Merchant,
                                  exchanges: seq<Exchange>, now: int)
      returns (ghost calls: seq<SinkCall>)
      requires |exchanges| == |sinks|
      modifies this
      ensures calls == Fanout(sinks, payment, merchant, exchanges, now)
      ensures deliveries == old(deliveries) + Saved(calls)
    {
      calls := [];
      var i := 0;
      while i < |sinks|
        invariant 0 <= i <= |sinks|
        invariant calls == Fanout(sinks[..i], payment, merchant, exchanges[..i], now)
        invariant deliveries == old(deliveries) + Saved(calls)
      {
        var call := SendPaymentUpdated(sinks[i], payment, merchant, exchanges[i], now);
        if call.Recorded? {
          deliveries := deliveries + [call.delivery];
        }
        SavedAppend(calls, [call]);
        calls := calls + [call];
        FanoutStep(sinks, payment, merchant, exchanges, now, i);
        i := i + 1;
      }
      assert sinks[..i] == sinks && exchanges[..i] == exchanges;
    }
  }

  lemma FanoutStep(sinks: seq<WebhookSink>, payment: PaymentRecord, merchant: Merchant,
                   exchanges: seq<Exchange>, now: int, i: int)
    requires |exchanges| == |sinks| && 0 <= i < |sinks|
    ensures Fanout(sinks[..i + 1], payment, merchant, exchanges[..i + 1], now)
         == Fanout(sinks[..i], payment, merchant, exchanges[..i], now)
            + [SendPaymentUpdated(sinks[i], payment, merchant, exchanges[i], now)]
  {
  }
}
