/** StockHistoryEventListener: records a stock-in history for every created stock and a stock-out
    history for every decreased stock. Each handler is @Transactional and writes once. */
module StockHistoryEventListeners {
  import opened Common
  import opened StockEventTypes
  import opened StockHistories
  import opened Stocks
  import opened StockEvents
  import opened RegisterStockServices

  /** The history `create(inbound.signed(q), ids…, INBOUND)` builds for one created stock. */
  function InboundHistoryOf(item: StockInfo): (r: Result<StockHistory>)
    ensures item.quantity >= 1 ==>
              r == Ok(StockHistory(None, item.stockId, item.productId, item.variantId, Inbound, item.quantity))
    ensures item.quantity <= 0 ==> r.Err? && r.error.IllegalArgument?
  {
    StockHistories.Of(Inbound.Signed(item.quantity), Some(item.stockId), Some(item.productId), Some(item.variantId), Some(Inbound))
  }

  /** `convertToHistories`: one stock-in history per created stock, in order; the first one the
      history constructor refuses aborts the conversion. */
  function ConvertToHistories(items: seq<StockInfo>): (r: Result<seq<StockHistory>>)
    ensures r.Ok? <==> forall i :: 0 <= i < |items| ==> items[i].quantity >= 1
    ensures r.Err? ==> r.error.IllegalArgument?
    ensures r.Ok? ==> |r.value| == |items|
                      && forall i :: 0 <= i < |items| ==>
                           r.value[i] == StockHistory(None, items[i].stockId, items[i].productId, items[i].variantId,
                                                      Inbound, items[i].quantity)
    decreases |items|
  {
    if items == [] then Ok([])
    else
      var first := InboundHistoryOf(items[0]);
      if first.Err? then Err(first.error)
      else
        var rest := ConvertToHistories(items[1..]);
        if rest.Err? then rest
        else
          assert forall i :: 1 <= i < |items| ==> items[i] == items[1..][i - 1];
          Ok([first.value] + rest.value)
  }

  /** The history `create(outbound.signed(q), ids…, OUTBOUND)` builds for a decreased stock: a
      stock-out of -q for a positive q. Negating Integer.MIN_VALUE leaves it unchanged, so that
      quantity is recorded as it is. */
  function OutboundHistoryOf(event: StockDecreasedEvent): (r: Result<StockHistory>)
    ensures event.quantity >= 1 ==>
              r == Ok(StockHistory(None, event.stockId, event.productId, event.variantId, Outbound, -event.quantity))
    ensures INT_MIN < event.quantity <= 0 ==> r.Err? && r.error.IllegalArgument?
    ensures event.quantity == INT_MIN ==>
              r == Ok(StockHistory(None, event.stockId, event.productId, event.variantId, Outbound, INT_MIN))
  {
    StockHistories.Of(Outbound.Signed(event.quantity), Some(event.stockId), Some(event.productId), Some(event.variantId), Some(Outbound))
  }

  /** Every stock a successful registration creates gets its stock-in history, in order, with
      the stock's ids and its positive initial quantity. */
  lemma RegistrationHistories(saved: seq<StockRow>, events: seq<StockCreatedEvent>, command: StockInitializeCommand,
                              ids: seq<Uuid>, requestAt: Timestamp)
    requires |ids| == |command.productVariants|
    requires Registration(saved, events, command, ids, requestAt).result.Ok?
    ensures var created := Registration(saved, events, command, ids, requestAt).events[|events|];
            var vs := command.productVariants;
            var hs := ConvertToHistories(created.stocks);
            && hs.Ok? && |hs.value| == |vs|
            && forall i :: 0 <= i < |vs| ==>
                 && hs.value[i] == StockHistory(None, ids[i], command.productId, vs[i].id, Inbound, vs[i].quantity)
                 && hs.value[i].changedQuantity >= 1
  {
    RegisterEffects(saved, events, command, ids, requestAt);
  }

  /** The listener with the history repository and a count of its writes. */
  class StockHistoryEventListener {
    var histories: seq<StockHistory>
    var writes: nat

    constructor (histories: seq<StockHistory>)
      ensures this.histories == histories && writes == 0
    {
      this.histories := histories;
      writes := 0;
    }

    /** `onStockCreated`: convert, then one `saveAll`; a refused conversion writes nothing. */
    method OnStockCreated(event: StockCreatedEvent) returns (r: Outcome)
      modifies this
      ensures var hs := ConvertToHistories(event.stocks);
              && (r.Pass? <==> hs.Ok?)
              && (r.Fail? ==> r.error == hs.error && histories == old(histories) && writes == old(writes))
              && (r.Pass? ==> histories == old(histories) + hs.value && writes == old(writes) + 1)
    {
      var hs := ConvertToHistories(event.stocks);
      if hs.Err? {
        return Fail(hs.error);
      }
      histories := histories + hs.value;
      writes := writes + 1;
      r := Pass;
    }

    /** `onStockDecreased`: one stock-out history, one `save`. */
    method OnStockDecreased(event: StockDecreasedEvent) returns (r: Outcome)
      modifies this
      ensures var h := OutboundHistoryOf(event);
              && (r.Pass? <==> h.Ok?)
              && (r.Fail? ==> r.error == h.error && histories == old(histories) && writes == old(writes))
              && (r.Pass? ==> histories == old(histories) + [h.value] && writes == old(writes) + 1)
    {
      var h := OutboundHistoryOf(event);
      if h.Err? {
        return Fail(h.error);
      }
      histories := histories + [h.value];
      writes := writes + 1;
      r := Pass;
    }
  }
}
