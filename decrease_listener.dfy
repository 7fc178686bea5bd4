/** RabbitStockDecreaseEventListener: runs the batch decrement for one delivery and then settles
    it in exactly one of four ways (ack; dead-letter as OUT_OF_STOCK then ack; republish with
    retry+1 then ack; dead-letter as RETRY_EXCEEDED then ack). */
module DecreaseListeners {
  import opened Common
  import opened DecreaseHandlers
  import opened Messaging
  import opened RetryManagers

  /** RETRY_MAX. */
  const RETRY_MAX: int := 5

  /** The four ways a delivery can be handled. */
  datatype Handling = Acked | DeadOutOfStock | Retried | DeadRetryExceeded

  /** The branch `listen` takes for a handler outcome and the delivery's retry count: the
      insufficient-stock catch comes before the generic one, and the generic one compares
      `retry + 1` (32-bit) with RETRY_MAX. */
  function Classify(outcome: Outcome, retry: int32): (h: Handling)
    ensures outcome.Pass? <==> h == Acked
    ensures outcome.Fail? && outcome.error == InsufficientStock <==> h == DeadOutOfStock
    ensures h == Retried ==> retry < RETRY_MAX || retry == INT_MAX
    ensures outcome.Fail? && outcome.error != InsufficientStock && retry < INT_MAX ==>
              (h == Retried <==> retry + 1 <= RETRY_MAX)
  {
    if outcome.Pass? then Acked
    else if outcome.error == InsufficientStock then DeadOutOfStock
    else if Succ32(retry) > RETRY_MAX then DeadRetryExceeded
    else Retried
  }

  /** Everything `listen` does on the broker after the handler returned `outcome`. */
  function ListenEffects(outcome: Outcome, retry: int32, event: BatchEvent, tag: int): (e: seq<Effect>)
    ensures |e| >= 1 && e[|e| - 1] == BasicAck(tag, false)
    ensures outcome.Pass? <==> |e| == 1
    ensures outcome.Fail? ==> |e| == 2 && e[0].Publish? && e[0].message.payload == BatchPayload(event)
  {
    var payload := BatchPayload(event);
    match Classify(outcome, retry)
    case Acked => [BasicAck(tag, false)]
    case DeadOutOfStock => [Publish(DlqMessage(payload, retry, OutOfStock)), BasicAck(tag, false)]
    case Retried => [Publish(RetryMessage(payload, Succ32(retry))), BasicAck(tag, false)]
    case DeadRetryExceeded => [Publish(DlqMessage(payload, retry, RetryExceeded)), BasicAck(tag, false)]
  }

  /** Every delivery is acked exactly once, singly (multiple=false), last, and never nacked; a
      failure publishes exactly one message before the ack and a success publishes none; the
      published payload is the delivered event, unchanged. */
  lemma AckedExactlyOnce(outcome: Outcome, retry: int32, event: BatchEvent, tag: int)
    ensures var e := ListenEffects(outcome, retry, event, tag);
            && Settlements(e) == 1
            && e[|e| - 1] == BasicAck(tag, false)
            && (forall i :: 0 <= i < |e| ==> !e[i].BasicNack?)
            && Publishes(e) == (if outcome.Pass? then 0 else 1)
            && (outcome.Fail? ==> |e| == 2 && e[0].Publish? && e[0].message.payload == BatchPayload(event))
  {
    var e := ListenEffects(outcome, retry, event, tag);
    if outcome.Pass? {
      assert e == [BasicAck(tag, false)];
      assert Settlements(e) == 1 + Settlements([]);
    } else {
      assert e[1..][1..] == [];
      assert Settlements(e) == Settlements(e[1..]) == 1 + Settlements([]);
      assert Publishes(e) == 1 + Publishes(e[1..]) == 1 + Publishes([]);
    }
  }

  /** Success: the only effect is the ack. */
  lemma SuccessOnlyAcks(retry: int32, event: BatchEvent, tag: int)
    ensures ListenEffects(Pass, retry, event, tag) == [BasicAck(tag, false)]
  {
  }

  /** Insufficient stock: straight to the dead-letter exchange tagged OUT_OF_STOCK with the
      count unchanged, whatever the count. */
  lemma OutOfStockDeadLetters(retry: int32, event: BatchEvent, tag: int)
    ensures var e := ListenEffects(Fail(InsufficientStock), retry, event, tag);
            && e[0] == Publish(DlqMessage(BatchPayload(event), retry, OutOfStock))
            && GetRetryCount(e[0].message.headers) == retry
            && e[0].message.headers[ERROR_TYPE_HEADER] == TextVal("OUT_OF_STOCK")
  {
    RetryCountRoundTrip(BatchPayload(event), retry, OutOfStock);
  }

  /** Any other exception below the limit: republished to the retry route with count retry+1. */
  lemma OtherFailureRetries(error: Exception, retry: int32, event: BatchEvent, tag: int)
    requires error != InsufficientStock && 0 <= retry && retry + 1 <= RETRY_MAX
    ensures var e := ListenEffects(Fail(error), retry, event, tag);
            && e[0] == Publish(RetryMessage(BatchPayload(event), retry + 1))
            && e[0].message.routingKey == DecreaseRetryKey
            && GetRetryCount(e[0].message.headers) == retry + 1
  {
    RetryCountRoundTrip(BatchPayload(event), retry + 1, RetryExceeded);
  }

  /** Any other exception at the limit: dead-lettered as RETRY_EXCEEDED with the current count,
      not the incremented one. */
  lemma OtherFailureExhausts(error: Exception, retry: int32, event: BatchEvent, tag: int)
    requires error != InsufficientStock && RETRY_MAX <= retry < INT_MAX
    ensures var e := ListenEffects(Fail(error), retry, event, tag);
            && e[0] == Publish(DlqMessage(BatchPayload(event), retry, RetryExceeded))
            && GetRetryCount(e[0].message.headers) == retry
            && e[0].message.headers[ERROR_TYPE_HEADER] == TextVal("RETRY_EXCEEDED")
  {
    RetryCountRoundTrip(BatchPayload(event), retry, RetryExceeded);
  }

  /** The messages one payload produces when every delivery fails with `error` (not an
      insufficient-stock one): each republished message is delivered again with the count it
      carries (RetryCountRoundTrip), until the listener dead-letters it. A count of
      Integer.MAX_VALUE wraps to Integer.MIN_VALUE, which is why the measure treats it apart. */
  function RetryTrail(error: Exception, retry: int32, event: BatchEvent, tag: int): (trail: seq<Message>)
    requires error != InsufficientStock
    ensures |trail| >= 1
    decreases if retry == INT_MAX then 0x1_0000_0000 else RETRY_MAX - retry
  {
    var p := BatchPayload(event);
    if Classify(Fail(error), retry) == Retried then
      [RetryMessage(p, Succ32(retry))] + RetryTrail(error, Succ32(retry), event, tag)
    else [DlqMessage(p, retry, RetryExceeded)]
  }

  /** The trail starts with the message the listener publishes for the failed delivery. */
  lemma RetryTrailStartsAsListened(error: Exception, retry: int32, event: BatchEvent, tag: int)
    requires error != InsufficientStock
    ensures ListenEffects(Fail(error), retry, event, tag)[0].Publish?
    ensures RetryTrail(error, retry, event, tag)[0] == ListenEffects(Fail(error), retry, event, tag)[0].message
  {
  }

  /** One generic failure below the limit: the retry message, then whatever its redelivery
      produces. */
  lemma RetryStep(error: Exception, n: int32, event: BatchEvent, tag: int)
    requires error != InsufficientStock && 0 <= n < RETRY_MAX
    ensures RetryTrail(error, n, event, tag)
            == [RetryMessage(BatchPayload(event), n + 1)] + RetryTrail(error, n + 1, event, tag)
  {
  }

  /** One generic failure at count 5: only the RETRY_EXCEEDED dead letter. */
  lemma DeadStep(error: Exception, event: BatchEvent, tag: int)
    requires error != InsufficientStock
    ensures RetryTrail(error, RETRY_MAX, event, tag) == [DlqMessage(BatchPayload(event), RETRY_MAX, RetryExceeded)]
  {
  }

  /** The closed form of a trail that starts at count n (0 ≤ n ≤ 5): retry messages with
      counts n+1, …, 5, then the RETRY_EXCEEDED dead letter with count 5. */
  function ExpectedTrail(p: Payload, n: int32): (trail: seq<Message>)
    requires 0 <= n <= RETRY_MAX
    ensures |trail| == RETRY_MAX - n + 1
    ensures trail[|trail| - 1] == DlqMessage(p, RETRY_MAX, RetryExceeded)
    decreases RETRY_MAX - n
  {
    if n < RETRY_MAX then [RetryMessage(p, n + 1)] + ExpectedTrail(p, n + 1)
    else [DlqMessage(p, RETRY_MAX, RetryExceeded)]
  }

  /** The closed form from n below 5 is the retry message with count n+1 followed by the
      closed form from n+1. */
  lemma ExpectedTrailStep(p: Payload, n: int32)
    requires 0 <= n < RETRY_MAX
    ensures ExpectedTrail(p, n) == [RetryMessage(p, n + 1)] + ExpectedTrail(p, n + 1)
  {
  }

  /** The closed form from 5 is the RETRY_EXCEEDED dead letter alone. */
  lemma ExpectedTrailEnd(p: Payload)
    ensures ExpectedTrail(p, RETRY_MAX) == [DlqMessage(p, RETRY_MAX, RetryExceeded)]
  {
  }

  /** Every message of the closed form before the last is a retry message whose count is one
      more than its position plus n. */
  lemma {:induction false} ExpectedTrailRetries(p: Payload, n: int32, i: int)
    requires 0 <= n <= RETRY_MAX && 0 <= i < RETRY_MAX - n
    ensures ExpectedTrail(p, n)[i] == RetryMessage(p, n + 1 + i)
    decreases RETRY_MAX - n
  {
    ExpectedTrailStep(p, n);
    if i > 0 {
      ExpectedTrailRetries(p, n + 1, i - 1);
    }
  }

  /** From a count n between 0 and 5, the listener's trail is the closed form: the payload is
      republished with counts n+1, …, 5 and then dead-lettered as RETRY_EXCEEDED with count 5. */
  lemma {:induction false} RetryTrailShape(error: Exception, n: int32, event: BatchEvent, tag: int)
    requires error != InsufficientStock && 0 <= n <= RETRY_MAX
    ensures RetryTrail(error, n, event, tag) == ExpectedTrail(BatchPayload(event), n)
    decreases RETRY_MAX - n
  {
    if n < RETRY_MAX {
      RetryStep(error, n, event, tag);
      RetryTrailShape(error, n + 1, event, tag);
      ExpectedTrailStep(BatchPayload(event), n);
    } else {
      DeadStep(error, event, tag);
      ExpectedTrailEnd(BatchPayload(event));
    }
  }

  /** A payload that always fails generically, first delivered without a count (which reads as
      0, FirstDeliveryCountsZero), is republished with counts 1, 2, 3, 4, 5 and then
      dead-lettered as RETRY_EXCEEDED at count 5. */
  lemma FiveRetriesThenDeadLetter(error: Exception, event: BatchEvent, tag: int)
    requires error != InsufficientStock
    ensures var p := BatchPayload(event);
            RetryTrail(error, 0, event, tag)
              == [RetryMessage(p, 1), RetryMessage(p, 2), RetryMessage(p, 3), RetryMessage(p, 4), RetryMessage(p, 5),
                  DlqMessage(p, 5, RetryExceeded)]
  {
    var p := BatchPayload(event);
    RetryTrailShape(error, 0, event, tag);
    ExpectedTrailEnd(p);
    ExpectedTrailStep(p, 4);
    ExpectedTrailStep(p, 3);
    ExpectedTrailStep(p, 2);
    ExpectedTrailStep(p, 1);
    ExpectedTrailStep(p, 0);
    SixFromConses(ExpectedTrail(p, 0), RetryMessage(p, 1), RetryMessage(p, 2), RetryMessage(p, 3),
                  RetryMessage(p, 4), RetryMessage(p, 5), DlqMessage(p, 5, RetryExceeded));
  }

  /** Six single-element concatenations, nested to the right, make the six-element list. */
  lemma SixFromConses(t: seq<Message>, a: Message, b: Message, c: Message, d: Message, e: Message, f: Message)
    requires t == [a] + ([b] + ([c] + ([d] + ([e] + [f]))))
    ensures t == [a, b, c, d, e, f]
  {
  }

  /** What a shortage becomes depends on the exception class the stock raises for it: the
      insufficient-stock exception is dead-lettered at once, anything else (such as the
      IllegalStateException of the stock entity) is retried like a transient failure. */
  lemma ShortageRouting(st: Store, event: BatchEvent, retry: int32, tag: int, shortage: Exception)
    requires BatchDecrease(st, event.orderId, event.requests, shortage).outcome == Fail(shortage)
    ensures var e := ListenEffects(BatchDecrease(st, event.orderId, event.requests, shortage).outcome,
                                   retry, event, tag);
            && (shortage == InsufficientStock ==>
                  e == [Publish(DlqMessage(BatchPayload(event), retry, OutOfStock)), BasicAck(tag, false)])
            && (shortage != InsufficientStock && 0 <= retry < RETRY_MAX ==>
                  e == [Publish(RetryMessage(BatchPayload(event), retry + 1)), BasicAck(tag, false)])
  {
  }

  /** The listener with the handler it drives, the retry manager and the channel. */
  class DecreaseListener {
    const handler: StockDecreaseHandler
    const retryManager: RetryManager
    const broker: Broker
    /** The exception class the stock entity raises for a shortage. */
    const shortage: Exception

    constructor (handler: StockDecreaseHandler, broker: Broker, shortage: Exception)
      ensures this.handler == handler && this.broker == broker && this.shortage == shortage
      ensures fresh(retryManager) && retryManager.broker == broker
    {
      this.handler := handler;
      this.broker := broker;
      this.shortage := shortage;
      retryManager := new RetryManager(broker);
    }

    /** `listen`: read the count, run the handler, and settle the delivery. */
    method Listen(event: BatchEvent, headers: Headers, tag: int)
      requires handler.Valid() && retryManager.broker == broker
      modifies handler, broker
      ensures handler.Valid()
      ensures var reply := BatchDecrease(old(handler.Snapshot()), event.orderId, event.requests, shortage);
              && handler.Snapshot() == reply.store
              && broker.effects == old(broker.effects) + ListenEffects(reply.outcome, GetRetryCount(headers), event, tag)
    {
      var retry := GetRetryCount(headers);
      var outcome := handler.DecreaseAll(event.orderId, event.requests, shortage);
      var payload := BatchPayload(event);
      if outcome.Pass? {
        broker.Ack(tag, false);
      } else if outcome.error == InsufficientStock {
        retryManager.SendToDlq(payload, retry, OutOfStock);
        broker.Ack(tag, false);
      } else {
        var nextRetry := Succ32(retry);
        if nextRetry > RETRY_MAX {
          retryManager.SendToDlq(payload, retry, RetryExceeded);
          broker.Ack(tag, false);
        } else {
          retryManager.SendToRetry(payload, nextRetry);
          broker.Ack(tag, false);
        }
      }
    }
  }
}
