/** StockRegisteredEvent: the external event announcing that one product's stocks were
    registered, derived from the internal StockCreatedEvent. */
module StockRegisteredEvents {
  import opened Common
  import opened StockEvents

  datatype StockRegisteredEvent = StockRegisteredEvent(productId: Uuid, requestAt: Timestamp)

  /** The distinct product ids of the created stocks (`Collectors.toSet()`). */
  function ProductIds(stocks: seq<StockInfo>): (ids: set<Uuid>)
    ensures forall i :: 0 <= i < |stocks| ==> stocks[i].productId in ids
    ensures forall p :: p in ids ==> exists i :: 0 <= i < |stocks| && stocks[i].productId == p
  {
    set i | 0 <= i < |stocks| :: stocks[i].productId
  }

  /** All the stocks are of one product: the one of the first. */
  predicate SingleProduct(stocks: seq<StockInfo>)
  {
    stocks != [] && forall i :: 0 <= i < |stocks| ==> stocks[i].productId == stocks[0].productId
  }

  /** Exactly one distinct product id is the same as a non-empty list of stocks of one product. */
  lemma OneProductIdIff(stocks: seq<StockInfo>)
    ensures |ProductIds(stocks)| == 1 <==> SingleProduct(stocks)
  {
    var ids := ProductIds(stocks);
    if SingleProduct(stocks) {
      assert ids == {stocks[0].productId};
    } else if stocks == [] {
      assert ids == {};
    } else {
      var i :| 0 <= i < |stocks| && stocks[i].productId != stocks[0].productId;
      assert {stocks[0].productId, stocks[i].productId} <= ids;
      assert |{stocks[0].productId, stocks[i].productId}| == 2;
      SubsetSize({stocks[0].productId, stocks[i].productId}, ids);
    }
  }

  /** A subset is no larger than its superset. */
  lemma SubsetSize<T>(a: set<T>, b: set<T>)
    requires a <= b
    ensures |a| <= |b|
  {
    assert b == a + (b - a);
  }

  /** `from(event)`: an IllegalStateException unless the stocks carry exactly one distinct product
      id; otherwise that id and the event's request time. */
  function From(event: StockCreatedEvent): (r: Result<StockRegisteredEvent>)
    ensures r.Ok? <==> SingleProduct(event.stocks)
    ensures r.Err? ==> r.error == IllegalState(NotSingleProduct)
    ensures r.Ok? ==> && ProductIds(event.stocks) == {r.value.productId}
                      && r.value.requestAt == event.requestAt
  {
    OneProductIdIff(event.stocks);
    if |ProductIds(event.stocks)| != 1 then Err(IllegalState(NotSingleProduct))
    else
      var p := event.stocks[0].productId;
      assert ProductIds(event.stocks) == {p};
      Ok(StockRegisteredEvent(p, event.requestAt))
  }

  /** An event without stocks is refused. */
  lemma EmptyEventRefused(requestAt: Timestamp)
    ensures From(StockCreatedEvent([], requestAt)) == Err(IllegalState(NotSingleProduct))
  {
  }
}
