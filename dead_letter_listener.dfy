/** RabbitStockDecreasedDeadEventListener: for every decrease request that ended in the
    dead-letter queue, tell the order service that processing failed, with the error type the
    dead letter carries. It never acks or nacks, so the dead letter stays where it is. */
module DeadLetterListeners {
  import opened Common
  import opened DecreaseHandlers
  import opened Messaging
  import opened RetryManagers
  import opened DecreaseListeners

  /** `getHeader("x-error-type")` assigned to a String: null (None) when absent, the text when it
      is a string, and a ClassCastException for any other value. */
  function ReadErrorType(headers: Headers): (r: Result<Option<string>>)
    ensures r.Err? ==> r.error == ClassCast
    ensures r == Ok(None) <==> ERROR_TYPE_HEADER !in headers
    ensures r.Err? <==> ERROR_TYPE_HEADER in headers && !headers[ERROR_TYPE_HEADER].TextVal?
  {
    if ERROR_TYPE_HEADER !in headers then Ok(None)
    else match headers[ERROR_TYPE_HEADER]
      case TextVal(s) => Ok(Some(s))
      case _ => Err(ClassCast)
  }

  /** Round trip with RetryManager: a dead letter's error type reads back as the name it was
      written with, and a retry message carries none. */
  lemma ErrorTypeRoundTrip(payload: Payload, retryCount: int32, errorType: StockErrorType)
    ensures ReadErrorType(DlqMessage(payload, retryCount, errorType).headers) == Ok(Some(errorType.Name()))
    ensures ReadErrorType(RetryMessage(payload, retryCount).headers) == Ok(None)
  {
    RetryCountRoundTrip(payload, retryCount, errorType);
  }

  /** The message sent to the order service's process-failed route. */
  function ProcessFailedMessage(failed: OrderProcessFailedEvent): (m: Message)
    ensures m.exchange == OrderExchange && m.routingKey == ProcessFailedKey
    ensures m.payload == FailedPayload(failed) && m.headers == map[]
  {
    Message(OrderExchange, ProcessFailedKey, FailedPayload(failed), map[])
  }

  /** `listen(event, message)`: read the error type, resolve it to a readable message with the
      injected resolver, and publish one failure event for the order. */
  function DeadLetterEffects(event: BatchEvent, headers: Headers, resolve: Option<string> -> string)
    : (r: Result<seq<Effect>>)
    ensures r.Ok? <==> ReadErrorType(headers).Ok?
    ensures r.Ok? ==> && |r.value| == 1 && r.value[0].Publish?
                      && r.value[0].message.payload.FailedPayload?
                      && r.value[0].message.payload.failed.orderId == event.orderId
  {
    var errorType := ReadErrorType(headers);
    if errorType.Err? then Err(errorType.error)
    else
      var failed := OrderProcessFailedEvent(event.orderId, errorType.value, resolve(errorType.value));
      Ok([Publish(ProcessFailedMessage(failed))])
  }

  /** The dead letter is never settled; whenever the header can be read exactly one failure
      event goes out, for the dead letter's order, with the header's error code and the
      resolver's text for it; otherwise nothing goes out. */
  lemma DeadLetterNeverSettles(event: BatchEvent, headers: Headers, resolve: Option<string> -> string)
    ensures var r := DeadLetterEffects(event, headers, resolve);
            && (r.Ok? <==> ReadErrorType(headers).Ok?)
            && (r.Err? ==> r.error == ClassCast)
            && (r.Ok? ==> && |r.value| == 1 && Settlements(r.value) == 0 && Publishes(r.value) == 1
                          && r.value[0].message.exchange == OrderExchange
                          && r.value[0].message.routingKey == ProcessFailedKey
                          && r.value[0].message.payload.failed.orderId == event.orderId
                          && r.value[0].message.payload.failed.errorCode == ReadErrorType(headers).value
                          && r.value[0].message.payload.failed.errorMessage == resolve(ReadErrorType(headers).value))
  {
    var r := DeadLetterEffects(event, headers, resolve);
    if r.Ok? {
      assert Settlements(r.value) == Settlements(r.value[1..]);
      assert Publishes(r.value) == 1 + Publishes(r.value[1..]);
    }
  }

  /** End to end, out of stock: the message the decrease listener dead-letters for an
      insufficient-stock failure reaches the order service as a failure of the same order with
      error code OUT_OF_STOCK. */
  lemma OutOfStockReachesOrderService(retry: int32, event: BatchEvent, tag: int, headers: Headers,
                                      resolve: Option<string> -> string)
    requires headers == ListenEffects(Fail(InsufficientStock), retry, event, tag)[0].message.headers
    ensures DeadLetterEffects(event, headers, resolve)
            == Ok([Publish(ProcessFailedMessage(
                     OrderProcessFailedEvent(event.orderId, Some("OUT_OF_STOCK"), resolve(Some("OUT_OF_STOCK")))))])
  {
    ErrorTypeRoundTrip(BatchPayload(event), retry, OutOfStock);
  }

  /** End to end, retries exhausted: the last message of a generic failure's trail from a first
      delivery reaches the order service as a failure of the same order with error code
      RETRY_EXCEEDED. */
  lemma RetryExceededReachesOrderService(error: Exception, event: BatchEvent, tag: int,
                                         resolve: Option<string> -> string)
    requires error != InsufficientStock
    ensures var trail := RetryTrail(error, 0, event, tag);
            DeadLetterEffects(event, trail[|trail| - 1].headers, resolve)
              == Ok([Publish(ProcessFailedMessage(
                       OrderProcessFailedEvent(event.orderId, Some("RETRY_EXCEEDED"), resolve(Some("RETRY_EXCEEDED")))))])
  {
    FiveRetriesThenDeadLetter(error, event, tag);
    ErrorTypeRoundTrip(BatchPayload(event), RETRY_MAX, RetryExceeded);
  }

  /** The listener with its channel and the message resolver it uses. */
  class DeadLetterListener {
    const broker: Broker
    const resolve: Option<string> -> string

    constructor (broker: Broker, resolve: Option<string> -> string)
      ensures this.broker == broker && this.resolve == resolve
    {
      this.broker := broker;
      this.resolve := resolve;
    }

    /** `listen`: a ClassCastException escapes before anything is sent. */
    method Listen(event: BatchEvent, headers: Headers) returns (r: Outcome)
      modifies broker
      ensures var effects := DeadLetterEffects(event, headers, resolve);
              && (r.Pass? <==> effects.Ok?)
              && (r.Fail? ==> r.error == effects.error && broker.effects == old(broker.effects))
              && (r.Pass? ==> broker.effects == old(broker.effects) + effects.value)
    {
      var errorType := ReadErrorType(headers);
      if errorType.Err? {
        return Fail(errorType.error);
      }
      var failed := OrderProcessFailedEvent(event.orderId, errorType.value, resolve(errorType.value));
      broker.Send(ProcessFailedMessage(failed));
      r := Pass;
    }
  }
}
