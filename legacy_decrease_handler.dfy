/** The single-request decrement of stock/application/evenhandler/StockDecreaseHandler.java: find
    the stock by product and variant, decrease it, raise a decreased event. The class is
    @Transactional, so a failing call changes nothing. */
module LegacyDecreaseHandlers {
  import opened Common
  import opened Stocks
  import opened StockEvents

  /** The request of stock/domain/dto/StockDecreaseRequest.java. */
  datatype LegacyRequest = LegacyRequest(productId: Uuid, variantId: Uuid, quantity: int32, requestAt: Timestamp)

  /** `findByProductIdAndVariantId`: the stock of the variant, when it belongs to the product.
      Stocks are kept under their variant id. */
  predicate Matches(stocks: map<Uuid, StockRow>, productId: Uuid, variantId: Uuid)
  {
    variantId in stocks && stocks[variantId].productId == productId
  }

  /** The event raised for a decreased stock: its ids and its quantity after the decrease. */
  function DecreasedEventOf(stock: StockRow): (e: StockDecreasedEvent)
    ensures e.stockId == stock.id && e.productId == stock.productId && e.variantId == stock.variantId
    ensures e.quantity == stock.quantity
  {
    StockDecreasedEvent(stock.id, stock.productId, stock.variantId, stock.quantity)
  }

  /** The outcome of one call together with the stocks and the raised events it leaves. */
  datatype LegacyReply = LegacyReply(outcome: Outcome, stocks: map<Uuid, StockRow>, events: seq<StockDecreasedEvent>)

  /** `decrease(request)` on values: NOT_FOUND when no stock matches both ids; otherwise the
      stock entity's own decrease rules; the event only after a successful decrease. */
  function LegacyDecrease(stocks: map<Uuid, StockRow>, events: seq<StockDecreasedEvent>, request: LegacyRequest)
    : (r: LegacyReply)
    ensures !Matches(stocks, request.productId, request.variantId)
            ==> r == LegacyReply(Fail(StockApplication(NotFound, Unspecified)), stocks, events)
    ensures Matches(stocks, request.productId, request.variantId) ==>
              var s := stocks[request.variantId];
              && (r.outcome.Pass? <==> 1 <= request.quantity <= s.quantity)
              && (r.outcome.Fail? ==> r.outcome.error == ApplyDecrease(s.quantity, request.quantity).error
                                      && r.stocks == stocks && r.events == events)
              && (r.outcome.Pass? ==> && r.stocks.Keys == stocks.Keys
                                      && r.stocks[request.variantId].quantity == s.quantity - request.quantity
                                      && r.events == events + [DecreasedEventOf(r.stocks[request.variantId])])
    ensures forall v :: v in stocks && v != request.variantId ==> v in r.stocks && r.stocks[v] == stocks[v]
    ensures r.stocks.Keys == stocks.Keys
  {
    if !Matches(stocks, request.productId, request.variantId) then
      LegacyReply(Fail(StockApplication(NotFound, Unspecified)), stocks, events)
    else
      var s := stocks[request.variantId];
      var d := ApplyDecrease(s.quantity, request.quantity);
      if d.Err? then LegacyReply(Fail(d.error), stocks, events)
      else
        var row := s.(quantity := d.value);
        LegacyReply(Pass, stocks[request.variantId := row], events + [DecreasedEventOf(row)])
  }

  /** A successful call keeps the stock's ids and leaves it non-negative when it started so. */
  lemma LegacyKeepsIdsAndSign(stocks: map<Uuid, StockRow>, events: seq<StockDecreasedEvent>, request: LegacyRequest)
    requires LegacyDecrease(stocks, events, request).outcome.Pass?
    ensures var r := LegacyDecrease(stocks, events, request);
            var before := stocks[request.variantId];
            var after := r.stocks[request.variantId];
            && after.id == before.id && after.productId == before.productId && after.variantId == before.variantId
            && 0 <= after.quantity < before.quantity
            && |r.events| == |events| + 1
  {
  }

  /** The handler with its repository and the events it has raised. */
  class LegacyStockDecreaseHandler {
    var stocks: map<Uuid, StockRow>
    var events: seq<StockDecreasedEvent>

    constructor (stocks: map<Uuid, StockRow>)
      ensures this.stocks == stocks && events == []
    {
      this.stocks := stocks;
      events := [];
    }

    /** `decrease(request)`. */
    method Decrease(request: LegacyRequest) returns (r: Outcome)
      modifies this
      ensures LegacyReply(r, stocks, events) == LegacyDecrease(old(stocks), old(events), request)
    {
      if !(request.variantId in stocks && stocks[request.variantId].productId == request.productId) {
        return Fail(StockApplication(NotFound, Unspecified));
      }
      var stock := stocks[request.variantId];
      var next := ApplyDecrease(stock.quantity, request.quantity);
      if next.Err? {
        return Fail(next.error);
      }
      stock := stock.(quantity := next.value);
      stocks := stocks[request.variantId := stock];
      events := events + [DecreasedEventOf(stock)];
      r := Pass;
    }
  }
}
