/** The older copy of the stock change record, product/domain/StockHistory.java: no order
    reference, the zero check comes first, and a return must be positive too. */
module ProductStockHistories {
  import opened Common
  import opened StockEventTypes

  datatype ProductStockHistory = ProductStockHistory(
    stockId: Uuid,
    productId: Uuid,
    variantId: Uuid,
    eventType: StockEventType,
    changedQuantity: int32)

  /** The public constructor (and `of`, which only forwards to it). */
  function New(
    changedQuantity: int32,
    stockId: Option<Uuid>,
    productId: Option<Uuid>,
    variantId: Option<Uuid>,
    eventType: Option<StockEventType>)
    : (r: Result<ProductStockHistory>)
    ensures r.Ok? <==> && changedQuantity != 0 && eventType.Some?
                       && (eventType.value.IsOutbound() <==> changedQuantity < 0)
                       && stockId.Some? && productId.Some? && variantId.Some?
    ensures changedQuantity == 0 ==> r == Err(IllegalArgument(ZeroQuantity))
    ensures changedQuantity != 0 && eventType.None? ==> r == Err(NullPointer)
    ensures changedQuantity < 0 && eventType.Some? && !eventType.value.IsOutbound()
            ==> r == Err(IllegalArgument(InboundReturnCancelNegative))
    ensures changedQuantity > 0 && eventType == Some(Outbound) ==> r == Err(IllegalArgument(OutboundPositive))
    ensures r.Ok? ==> r.value == ProductStockHistory(stockId.value, productId.value, variantId.value,
                                                     eventType.value, changedQuantity)
  {
    if changedQuantity == 0 then Err(IllegalArgument(ZeroQuantity))
    else if eventType.None? then Err(NullPointer)
    else
      var t := eventType.value;
      if (t == Inbound || t == Return || t == Cancel) && changedQuantity < 0 then
        Err(IllegalArgument(InboundReturnCancelNegative))
      else if t == Outbound && changedQuantity > 0 then Err(IllegalArgument(OutboundPositive))
      else if stockId.None? || productId.None? || variantId.None? then Err(NullPointer)
      else Ok(ProductStockHistory(stockId.value, productId.value, variantId.value, t, changedQuantity))
  }

  /** The zero check comes before the null check on the event type. */
  lemma ZeroReportedBeforeNullType(stockId: Option<Uuid>, productId: Option<Uuid>, variantId: Option<Uuid>)
    ensures New(0, stockId, productId, variantId, None) == Err(IllegalArgument(ZeroQuantity))
  {
  }
}
