/** StockEventType: why a stock quantity changed. */
module StockEventTypes {
  import opened Common

  /** The four kinds of stock movement: stock-in, order stock-out, order cancel, return. */
  datatype StockEventType = Inbound | Outbound | Cancel | Return {

    predicate IsInbound() { this == Inbound }

    predicate IsOutbound() { this == Outbound }

    predicate IsCancel() { this == Cancel }

    predicate IsReturn() { this == Return }

    /** The signed quantity a history of this type records for a movement of `quantity` units:
        stock-out is recorded negative, every other movement positive (Java negation wraps). */
    function Signed(quantity: int32): (r: int32)
      ensures IsOutbound() && quantity != INT_MIN ==> r == -quantity
      ensures IsOutbound() && quantity == INT_MIN ==> r == INT_MIN
      ensures !IsOutbound() ==> r == quantity
      ensures quantity > 0 ==> (r < 0 <==> IsOutbound())
    {
      if IsOutbound() then Wrap32(-(quantity as int)) else quantity
    }
  }

  /** Exactly one of the four predicates holds of every event type, and each predicate picks
      out its own constant. */
  lemma ExactlyOnePredicateHolds(t: StockEventType)
    ensures t.IsInbound() <==> t == Inbound
    ensures t.IsOutbound() <==> t == Outbound
    ensures t.IsCancel() <==> t == Cancel
    ensures t.IsReturn() <==> t == Return
    ensures (if t.IsInbound() then 1 else 0) + (if t.IsOutbound() then 1 else 0)
          + (if t.IsCancel() then 1 else 0) + (if t.IsReturn() then 1 else 0) == 1
  {
  }
}
