/** The stock change record of stock/domain/StockHistory.java: validated once, immutable after. */
module StockHistories {
  import opened Common
  import opened StockEventTypes
  import opened Stocks

  /** An accepted history record. `orderId` is None for movements that belong to no order
      (initial stock-in). The generated StockHistoryId is not modelled. */
  datatype StockHistory = StockHistory(
    orderId: Option<Uuid>,
    stockId: Uuid,
    productId: Uuid,
    variantId: Uuid,
    eventType: StockEventType,
    changedQuantity: int32)

  /** The sign rule the constructor enforces: stock-in and cancel may not be negative, stock-out
      may not be positive; a return may have either sign. */
  predicate SignAccepted(eventType: StockEventType, changedQuantity: int)
  {
    && (eventType.IsInbound() ==> changedQuantity >= 0)
    && (eventType.IsCancel() ==> changedQuantity >= 0)
    && (eventType.IsOutbound() ==> changedQuantity <= 0)
  }

  /** The private constructor: the event type must be non-null (checked first), the quantity
      non-zero, its sign must agree with the type; then the three ids must be non-null. */
  function New(
    changedQuantity: int32,
    stockId: Option<Uuid>,
    orderId: Option<Uuid>,
    productId: Option<Uuid>,
    variantId: Option<Uuid>,
    eventType: Option<StockEventType>)
    : (r: Result<StockHistory>)
    ensures r.Ok? <==> && eventType.Some? && changedQuantity != 0
                       && SignAccepted(eventType.value, changedQuantity)
                       && stockId.Some? && productId.Some? && variantId.Some?
    ensures eventType.None? ==> r == Err(NullPointer)
    ensures eventType.Some? && changedQuantity == 0 ==> r == Err(IllegalArgument(ZeroQuantity))
    ensures eventType.Some? && changedQuantity != 0 && !SignAccepted(eventType.value, changedQuantity)
            ==> r.Err? && r.error.IllegalArgument?
    ensures eventType.Some? && changedQuantity != 0 && SignAccepted(eventType.value, changedQuantity)
            && (stockId.None? || productId.None? || variantId.None?)
            ==> r == Err(NullPointer)
    ensures r.Ok? ==> r.value == StockHistory(orderId, stockId.value, productId.value, variantId.value,
                                              eventType.value, changedQuantity)
  {
    if eventType.None? then Err(NullPointer)
    else
      var t := eventType.value;
      if changedQuantity == 0 then Err(IllegalArgument(ZeroQuantity))
      else if t.IsInbound() && changedQuantity < 0 then Err(IllegalArgument(InboundNegative))
      else if t.IsCancel() && changedQuantity < 0 then Err(IllegalArgument(CancelNegative))
      else if t.IsOutbound() && changedQuantity > 0 then Err(IllegalArgument(OutboundPositive))
      else if stockId.None? || productId.None? || variantId.None? then Err(NullPointer)
      else Ok(StockHistory(orderId, stockId.value, productId.value, variantId.value, t, changedQuantity))
  }

  /** `of`: a record that belongs to no order. It also stands in for `create`, which the history
      listener calls with the same arguments. */
  function Of(
    changedQuantity: int32,
    stockId: Option<Uuid>,
    productId: Option<Uuid>,
    variantId: Option<Uuid>,
    eventType: Option<StockEventType>)
    : (r: Result<StockHistory>)
    ensures r.Ok? ==> r.value.orderId.None?
    ensures r.Ok? <==> New(changedQuantity, stockId, None, productId, variantId, eventType).Ok?
  {
    New(changedQuantity, stockId, None, productId, variantId, eventType)
  }

  /** `inbound(stock, quantity)`: a positive quantity gives a stock-in record of +quantity with
      the stock's ids and no order; anything else is refused. */
  function InboundOf(stock: StockRow, quantity: int32): (r: Result<StockHistory>)
    ensures quantity >= 1 ==> r == Ok(StockHistory(None, stock.id, stock.productId, stock.variantId, Inbound, quantity))
    ensures quantity <= 0 ==> r.Err? && r.error.IllegalArgument?
  {
    New(Inbound.Signed(quantity), Some(stock.id), None, Some(stock.productId), Some(stock.variantId), Some(Inbound))
  }

  /** `outbound(stock, orderId, quantity)`: a positive quantity gives a stock-out record of
      -quantity for that order with the stock's ids; zero and other negative quantities are refused.
      Integer.MIN_VALUE negates to itself in 32-bit arithmetic, so it slips through as a stock-out
      of Integer.MIN_VALUE. */
  function OutboundOf(stock: StockRow, orderId: Option<Uuid>, quantity: int32): (r: Result<StockHistory>)
    ensures quantity >= 1 ==> r == Ok(StockHistory(orderId, stock.id, stock.productId, stock.variantId, Outbound, -quantity))
    ensures INT_MIN < quantity <= 0 ==> r.Err? && r.error.IllegalArgument?
    ensures quantity == INT_MIN ==> r == Ok(StockHistory(orderId, stock.id, stock.productId, stock.variantId, Outbound, INT_MIN))
  {
    New(Outbound.Signed(quantity), Some(stock.id), orderId, Some(stock.productId), Some(stock.variantId), Some(Outbound))
  }

  /** A return is accepted with either sign, because the constructor has no return rule. */
  lemma ReturnAcceptsEitherSign(q: int32, stockId: Uuid, productId: Uuid, variantId: Uuid)
    requires q > 0
    ensures New(q, Some(stockId), None, Some(productId), Some(variantId), Some(Return)).Ok?
    ensures New(-q, Some(stockId), None, Some(productId), Some(variantId), Some(Return)).Ok?
  {
  }

  /** The null check on the event type comes before the zero check: a null type with a zero
      quantity is a NullPointerException, not an IllegalArgumentException. */
  lemma NullTypeReportedBeforeZero(stockId: Option<Uuid>, orderId: Option<Uuid>, productId: Option<Uuid>, variantId: Option<Uuid>)
    ensures New(0, stockId, orderId, productId, variantId, None) == Err(NullPointer)
  {
  }

  /** The table's unique constraint on (order_id, product_variant_id): two records that carry the
      same order never carry the same variant. Records without an order never conflict (SQL
      treats NULLs as distinct). */
  predicate UniqueOrderVariant(histories: seq<StockHistory>)
  {
    forall i, j :: 0 <= i < j < |histories| && histories[i].orderId.Some? && histories[i].orderId == histories[j].orderId
      ==> histories[i].variantId != histories[j].variantId
  }

  /** `existsByOrderId`: some record carries the order. */
  predicate HasOrder(histories: seq<StockHistory>, orderId: Uuid)
  {
    exists i :: 0 <= i < |histories| && histories[i].orderId == Some(orderId)
  }
}
