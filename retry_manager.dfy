/** RetryManager: reads the retry count of a delivery and republishes a payload either to the
    retry route (with a new count) or to the dead-letter exchange (with the count and an error
    type). Only a republished message gets headers written. */
module RetryManagers {
  import opened Common
  import opened Messaging

  /** `getRetryCount`: the header's `intValue()` when it is a number (a wider number keeps its
      low 32 bits), and 0 when it is missing or not a number. Reading changes nothing. */
  function GetRetryCount(headers: Headers): (r: int32)
    ensures RETRY_COUNT_HEADER in headers && headers[RETRY_COUNT_HEADER].NumberVal? ==>
              r == Wrap32(headers[RETRY_COUNT_HEADER].n)
    ensures (&& RETRY_COUNT_HEADER in headers && headers[RETRY_COUNT_HEADER].NumberVal?
             && INT_MIN <= headers[RETRY_COUNT_HEADER].n <= INT_MAX) ==> r == headers[RETRY_COUNT_HEADER].n
    ensures !(RETRY_COUNT_HEADER in headers && headers[RETRY_COUNT_HEADER].NumberVal?) ==> r == 0
  {
    if RETRY_COUNT_HEADER in headers && headers[RETRY_COUNT_HEADER].NumberVal? then
      Wrap32(headers[RETRY_COUNT_HEADER].n)
    else 0
  }

  /** The message `sendToRetry(payload, retryCount)` publishes. */
  function RetryMessage(payload: Payload, retryCount: int32): (m: Message)
    ensures m.exchange == StockExchange && m.routingKey == DecreaseRetryKey && m.payload == payload
    ensures m.headers.Keys == {RETRY_COUNT_HEADER}
  {
    Message(StockExchange, DecreaseRetryKey, payload, map[RETRY_COUNT_HEADER := NumberVal(retryCount)])
  }

  /** The message `sendToDlq(payload, retryCount, errorType)` publishes; the error type travels
      as its name. */
  function DlqMessage(payload: Payload, retryCount: int32, errorType: StockErrorType): (m: Message)
    ensures m.exchange == StockDlqExchange && m.routingKey == DecreaseDeadKey && m.payload == payload
    ensures m.headers.Keys == {RETRY_COUNT_HEADER, ERROR_TYPE_HEADER}
    ensures m.headers[ERROR_TYPE_HEADER] == TextVal(errorType.Name())
  {
    Message(StockDlqExchange, DecreaseDeadKey, payload,
            map[RETRY_COUNT_HEADER := NumberVal(retryCount), ERROR_TYPE_HEADER := TextVal(errorType.Name())])
  }

  /** Round trip: the count written by either republish is the count read back. */
  lemma RetryCountRoundTrip(payload: Payload, retryCount: int32, errorType: StockErrorType)
    ensures GetRetryCount(RetryMessage(payload, retryCount).headers) == retryCount
    ensures GetRetryCount(DlqMessage(payload, retryCount, errorType).headers) == retryCount
  {
    assert RETRY_COUNT_HEADER != ERROR_TYPE_HEADER by {
      assert RETRY_COUNT_HEADER[2] != ERROR_TYPE_HEADER[2];
    }
  }

  /** A first delivery, which carries no retry header, counts as retry 0. */
  lemma FirstDeliveryCountsZero()
    ensures GetRetryCount(map[]) == 0
    ensures GetRetryCount(map[ERROR_TYPE_HEADER := TextVal("x")]) == 0
  {
  }

  /** The republishing half of RetryManager. */
  class RetryManager {
    const broker: Broker

    constructor (broker: Broker)
      ensures this.broker == broker
    {
      this.broker := broker;
    }

    /** `sendToRetry`: exactly one publish, to the retry route, with the new count. */
    method SendToRetry(payload: Payload, retryCount: int32)
      modifies broker
      ensures broker.effects == old(broker.effects) + [Publish(RetryMessage(payload, retryCount))]
    {
      broker.Send(RetryMessage(payload, retryCount));
    }

    /** `sendToDlq`: exactly one publish, to the dead-letter exchange, with both headers. */
    method SendToDlq(payload: Payload, retryCount: int32, errorType: StockErrorType)
      modifies broker
      ensures broker.effects == old(broker.effects) + [Publish(DlqMessage(payload, retryCount, errorType))]
    {
      broker.Send(DlqMessage(payload, retryCount, errorType));
    }
  }
}
