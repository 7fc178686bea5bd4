/** The RabbitMQ side as the listeners see it: messages with headers, the exchanges and routing
    keys they are sent with (opaque constants), and the channel operations of manual acks. */
module Messaging {
  import opened Common
  import opened DecreaseHandlers

  /** The exchanges the service publishes to. */
  datatype Exchange = StockExchange | StockDlqExchange | OrderExchange

  /** The routing keys the service publishes with. */
  datatype RoutingKey = DecreaseRetryKey | DecreaseDeadKey | OrderCreatedKey | ProcessFailedKey

  /** StockErrorType: why a decrease request ended in the dead-letter queue. */
  datatype StockErrorType = OutOfStock | RetryExceeded | UnknownError {
    /** The enum constant's name, which is what the header carries on the wire. */
    function Name(): (s: string)
      ensures |s| > 0
    {
      match this
      case OutOfStock => "OUT_OF_STOCK"
      case RetryExceeded => "RETRY_EXCEEDED"
      case UnknownError => "UNKNOWN_ERROR"
    }
  }

  /** Different error types are written as different header strings. */
  lemma NameInjective(a: StockErrorType, b: StockErrorType)
    requires a.Name() == b.Name()
    ensures a == b
  {
  }

  /** A header value as it arrives: a number, a string, or anything else. */
  datatype HeaderValue = NumberVal(n: int) | TextVal(s: string) | OtherVal

  type Headers = map<string, HeaderValue>

  const RETRY_COUNT_HEADER: string := "x-retry-count"
  const ERROR_TYPE_HEADER: string := "x-error-type"

  /** OrderProcessFailedEvent; `failedAt` is not modelled. A null error code is None. */
  datatype OrderProcessFailedEvent = OrderProcessFailedEvent(orderId: Uuid, errorCode: Option<string>, errorMessage: string)

  /** What a message carries. */
  datatype Payload = BatchPayload(batch: BatchEvent) | FailedPayload(failed: OrderProcessFailedEvent)

  datatype Message = Message(exchange: Exchange, routingKey: RoutingKey, payload: Payload, headers: Headers)

  /** What a listener does to the outside world: publish through RabbitTemplate, or settle its
      delivery on the channel. */
  datatype Effect =
    | Publish(message: Message)
    | BasicAck(tag: int, multiple: bool)
    | BasicNack(tag: int, multiple: bool, requeue: bool)
  {
    predicate IsSettlement() { BasicAck? || BasicNack? }
  }

  /** How many effects of a list settle a delivery. */
  function Settlements(effects: seq<Effect>): nat
    decreases |effects|
  {
    if effects == [] then 0 else (if effects[0].IsSettlement() then 1 else 0) + Settlements(effects[1..])
  }

  /** How many effects of a list publish a message. */
  function Publishes(effects: seq<Effect>): nat
    decreases |effects|
  {
    if effects == [] then 0 else (if effects[0].Publish? then 1 else 0) + Publishes(effects[1..])
  }

  /** The broker connection and channel: everything sent or settled, in order. */
  class Broker {
    var effects: seq<Effect>

    constructor ()
      ensures effects == []
    {
      effects := [];
    }

    /** `RabbitTemplate.convertAndSend`. */
    method Send(message: Message)
      modifies this
      ensures effects == old(effects) + [Publish(message)]
    {
      effects := effects + [Publish(message)];
    }

    /** `Channel.basicAck`. */
    method Ack(tag: int, multiple: bool)
      modifies this
      ensures effects == old(effects) + [BasicAck(tag, multiple)]
    {
      effects := effects + [BasicAck(tag, multiple)];
    }

    /** `Channel.basicNack`. */
    method Nack(tag: int, multiple: bool, requeue: bool)
      modifies this
      ensures effects == old(effects) + [BasicNack(tag, multiple, requeue)]
    {
      effects := effects + [BasicNack(tag, multiple, requeue)];
    }
  }
}
