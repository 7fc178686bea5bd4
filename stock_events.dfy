/** The internal (in-process) stock events the registration and decrease paths raise. */
module StockEvents {
  import opened Common

  /** One created stock inside StockCreatedEvent. */
  datatype StockInfo = StockInfo(stockId: Uuid, productId: Uuid, variantId: Uuid, quantity: int32)

  /** StockCreatedEvent: every stock one registration created, and when it was requested. */
  datatype StockCreatedEvent = StockCreatedEvent(stocks: seq<StockInfo>, requestAt: Timestamp)

  /** StockDecreasedEvent as the history listener reads it: the stock's ids and a quantity. */
  datatype StockDecreasedEvent = StockDecreasedEvent(stockId: Uuid, productId: Uuid, variantId: Uuid, quantity: int32)
}
