/** OrderCreatedRabbitListener: turns the order service's OrderCreatedEvent into one batch of
    decrease requests, forwards it, and settles the delivery: ack when the batch went out, and
    otherwise a process-failed event for the order plus a nack without requeue. */
module OrderCreatedListeners {
  import opened Common
  import opened DecreaseHandlers
  import opened Messaging
  import opened DeadLetterListeners

  /** One ordered line; `quantity` is a primitive `int`, so it is never null. */
  datatype OrderedProduct = OrderedProduct(productId: Uuid, variantId: Uuid, quantity: int32)

  /** OrderCreatedEvent. A null product list is None, a null element inside it is None. */
  datatype OrderCreatedEvent = OrderCreatedEvent(orderId: Uuid, products: Option<seq<Option<OrderedProduct>>>,
                                                 orderedAt: Timestamp)

  /** The error code the listener reports when it cannot forward an order. */
  const PROCESS_FAILED_CODE: string := "ORDER_CREATED_EVENT_PROCESS_FAILED"

  /** The request `createBatchEvent` maps one ordered line to: its ids and quantity, stamped with
      the order time. */
  function RequestOf(p: OrderedProduct, orderedAt: Timestamp): (r: DecreaseRequest)
    ensures r.productId == p.productId && r.variantId == p.variantId && r.quantity == p.quantity
    ensures r.requestAt == orderedAt
  {
    DecreaseRequest(p.productId, p.variantId, p.quantity, orderedAt)
  }

  /** The mapped requests of a product list, in order; a null line throws a NullPointerException
      from the mapping lambda. */
  function MapRequests(products: seq<Option<OrderedProduct>>, orderedAt: Timestamp)
    : (r: Result<seq<DecreaseRequest>>)
    ensures r.Ok? <==> forall i :: 0 <= i < |products| ==> products[i].Some?
    ensures r.Err? ==> r.error == NullPointer
    ensures r.Ok? ==> |r.value| == |products|
                      && forall i :: 0 <= i < |products| ==> r.value[i] == RequestOf(products[i].value, orderedAt)
    decreases |products|
  {
    if products == [] then Ok([])
    else if products[0].None? then Err(NullPointer)
    else
      var rest := MapRequests(products[1..], orderedAt);
      if rest.Err? then rest
      else
        assert forall i :: 1 <= i < |products| ==> products[i] == products[1..][i - 1];
        Ok([RequestOf(products[0].value, orderedAt)] + rest.value)
  }

  /** `createBatchEvent` for a non-null product list. */
  function CreateBatchEvent(orderId: Uuid, products: seq<Option<OrderedProduct>>, orderedAt: Timestamp)
    : (r: Result<BatchEvent>)
    ensures r.Ok? <==> forall i :: 0 <= i < |products| ==> products[i].Some?
    ensures r.Err? ==> r.error == NullPointer
    ensures r.Ok? ==> && r.value.orderId == orderId && r.value.orderedAt == orderedAt
                      && |r.value.requests| == |products|
                      && forall i :: 0 <= i < |products| ==>
                           r.value.requests[i] == RequestOf(products[i].value, orderedAt)
  {
    var requests := MapRequests(products, orderedAt);
    if requests.Err? then Err(requests.error) else Ok(BatchEvent(orderId, orderedAt, requests.value))
  }

  /** The forwarded batch passes the decrease handler's @Min(1) validation exactly when every
      ordered quantity is at least 1. */
  lemma ForwardedBatchValidIff(orderId: Uuid, products: seq<Option<OrderedProduct>>, orderedAt: Timestamp)
    requires CreateBatchEvent(orderId, products, orderedAt).Ok?
    ensures AllPositive(CreateBatchEvent(orderId, products, orderedAt).value.requests)
            <==> forall i :: 0 <= i < |products| ==> products[i].value.quantity >= 1
  {
    var b := CreateBatchEvent(orderId, products, orderedAt).value;
    if forall i :: 0 <= i < |products| ==> products[i].value.quantity >= 1 {
      assert forall i :: 0 <= i < |b.requests| ==> b.requests[i].quantity == products[i].value.quantity;
    } else {
      var i :| 0 <= i < |products| && products[i].value.quantity < 1;
      assert b.requests[i].quantity < 1;
    }
  }

  /** The batch message: to the order exchange with the order-created routing key. */
  function BatchMessage(batch: BatchEvent): Message
  {
    Message(OrderExchange, OrderCreatedKey, BatchPayload(batch), map[])
  }

  /** The failure event for an order the listener could not forward. */
  function ProcessFailed(orderId: Uuid, resolve: Option<string> -> string): OrderProcessFailedEvent
  {
    OrderProcessFailedEvent(orderId, Some(PROCESS_FAILED_CODE), resolve(Some(PROCESS_FAILED_CODE)))
  }

  /** `listen(event, message, channel, tag)`. The product count is logged before the try block,
      so a null list throws out of the listener with nothing sent and nothing settled. Inside the
      try, the batch is built, published (`sendFails` stands for RabbitTemplate throwing) and the
      delivery acked; any exception there sends the failure event and nacks without requeue. */
  function OrderListenEffects(event: OrderCreatedEvent, tag: int, sendFails: bool, resolve: Option<string> -> string)
    : (r: Result<seq<Effect>>)
    ensures r.Err? <==> event.products.None?
    ensures r.Ok? ==> |r.value| == 2 && r.value[0].Publish? && r.value[1].IsSettlement()
    ensures r.Ok? && sendFails ==> r.value[1].BasicNack?
  {
    if event.products.None? then Err(NullPointer)
    else
      var batch := CreateBatchEvent(event.orderId, event.products.value, event.orderedAt);
      if batch.Ok? && !sendFails then Ok([Publish(BatchMessage(batch.value)), BasicAck(tag, false)])
      else Ok([Publish(ProcessFailedMessage(ProcessFailed(event.orderId, resolve))), BasicNack(tag, false, false)])
  }

  /** A delivery with a product list is settled exactly once, last, singly, after exactly one
      publish: acked (with the batch of the same order published) exactly when every line is
      present and the send succeeded, and otherwise nacked without requeue after the order's
      failure event. A null list escapes as a NullPointerException with no effect. */
  lemma SettledExactlyOnce(event: OrderCreatedEvent, tag: int, sendFails: bool, resolve: Option<string> -> string)
    ensures var r := OrderListenEffects(event, tag, sendFails, resolve);
            && (r.Err? <==> event.products.None?)
            && (r.Err? ==> r.error == NullPointer)
            && (r.Ok? ==> var e := r.value;
                  && |e| == 2 && Settlements(e) == 1 && Publishes(e) == 1
                  && (e[1] == BasicAck(tag, false)
                      <==> !sendFails && forall i :: 0 <= i < |event.products.value| ==> event.products.value[i].Some?)
                  && (e[1].BasicAck? ==> e[0].message.payload.BatchPayload? && e[0].message.payload.batch.orderId == event.orderId)
                  && (!e[1].BasicAck? ==> && e[1] == BasicNack(tag, false, false)
                                          && e[0].message.payload == FailedPayload(ProcessFailed(event.orderId, resolve))))
  {
    var r := OrderListenEffects(event, tag, sendFails, resolve);
    if r.Ok? {
      var e := r.value;
      assert e[1..][1..] == [];
      assert Settlements(e) == Settlements(e[1..]) == 1 + Settlements([]);
      assert Publishes(e) == 1 + Publishes(e[1..]) == 1 + Publishes([]);
    }
  }

  /** The listener with its channel and message resolver. */
  class OrderCreatedListener {
    const broker: Broker
    const resolve: Option<string> -> string

    constructor (broker: Broker, resolve: Option<string> -> string)
      ensures this.broker == broker && this.resolve == resolve
    {
      this.broker := broker;
      this.resolve := resolve;
    }

    /** `listen`; `sendFails` stands for the batch publish throwing. */
    method Listen(event: OrderCreatedEvent, tag: int, sendFails: bool) returns (r: Outcome)
      modifies broker
      ensures var effects := OrderListenEffects(event, tag, sendFails, resolve);
              && (r.Pass? <==> effects.Ok?)
              && (r.Fail? ==> r.error == effects.error && broker.effects == old(broker.effects))
              && (r.Pass? ==> broker.effects == old(broker.effects) + effects.value)
    {
      if event.products.None? {
        return Fail(NullPointer);
      }
      var batch := CreateBatchEvent(event.orderId, event.products.value, event.orderedAt);
      if batch.Ok? && !sendFails {
        broker.Send(BatchMessage(batch.value));
        broker.Ack(tag, false);
      } else {
        broker.Send(ProcessFailedMessage(ProcessFailed(event.orderId, resolve)));
        broker.Nack(tag, false, false);
      }
      r := Pass;
    }
  }
}
