/** The order-driven batch decrement of stock/application/service/StockDecreaseHandler.java:
    an idempotency gate on the order, one decrease and one stock-out history per request in list
    order, one success event; all of it inside a single transaction. */
module DecreaseHandlers {
  import opened Common
  import opened StockEventTypes
  import opened Stocks
  import opened StockHistories

  /** StockDecreaseRequest. Bean validation (@Min(1)) applies to `quantity`. */
  datatype DecreaseRequest = DecreaseRequest(productId: Uuid, variantId: Uuid, quantity: int32, requestAt: Timestamp)

  /** StockDecreaseBatchEvent: one order's requests. */
  datatype BatchEvent = BatchEvent(orderId: Uuid, orderedAt: Timestamp, requests: seq<DecreaseRequest>)

  /** StockDecreaseSuccessEvent; its `decreasedAt` timestamp is not modelled. */
  datatype SuccessEvent = SuccessEvent(orderId: Uuid)

  /** What the call can change: the stock table (found by variant id), the history table and
      the success events handed to the publisher. */
  datatype Store = Store(stocks: map<Uuid, StockRow>, histories: seq<StockHistory>, outbox: seq<SuccessEvent>)

  /** The integrity the database keeps: each stock is found under its own variant id, no stock is
      negative, and the (order, variant) unique constraint holds. */
  predicate ValidStore(st: Store)
  {
    && (forall v :: v in st.stocks ==> st.stocks[v].variantId == v && st.stocks[v].quantity >= 0)
    && UniqueOrderVariant(st.histories)
  }

  /** The outcome of `decreaseAll` and the store it leaves behind. */
  datatype Reply = Reply(outcome: Outcome, store: Store)

  /** The rows and histories produced by the per-request loop. */
  datatype Batch = Batch(stocks: map<Uuid, StockRow>, histories: seq<StockHistory>)

  /** The stock-out record `outbound(stock, order, q)` yields for a positive q. */
  function OutHistory(stock: StockRow, orderId: Uuid, quantity: int): StockHistory
    requires 1 <= quantity <= INT_MAX
  {
    StockHistory(Some(orderId), stock.id, stock.productId, stock.variantId, Outbound, -quantity)
  }

  /** The two rows describe the same stock (only the quantity may differ). */
  predicate SameStock(a: StockRow, b: StockRow)
  {
    a.id == b.id && a.productId == b.productId && a.variantId == b.variantId
  }

  /** Total quantity the requests ask of variant `v`. */
  function SumFor(requests: seq<DecreaseRequest>, v: Uuid): int
    decreases |requests|
  {
    if requests == [] then 0
    else (if requests[0].variantId == v then requests[0].quantity else 0) + SumFor(requests[1..], v)
  }

  /** No variant is requested twice. */
  predicate DistinctVariants(requests: seq<DecreaseRequest>)
  {
    forall i, j :: 0 <= i < j < |requests| ==> requests[i].variantId != requests[j].variantId
  }

  /** Every request passes bean validation. */
  predicate AllPositive(requests: seq<DecreaseRequest>)
  {
    forall i :: 0 <= i < |requests| ==> requests[i].quantity >= 1
  }

  /** Every requested variant has a stock. */
  predicate AllKnown(stocks: map<Uuid, StockRow>, requests: seq<DecreaseRequest>)
  {
    forall i :: 0 <= i < |requests| ==> requests[i].variantId in stocks
  }

  /** `decreaseSingleStock`: find the stock by variant (an empty Optional throws
      NoSuchElementException), decrease it, and build the stock-out record. A shortage raises
      `shortage`, the exception class the stock entity uses for it. */
  function DecreaseOne(stocks: map<Uuid, StockRow>, orderId: Uuid, request: DecreaseRequest, shortage: Exception)
    : (r: Result<(StockRow, StockHistory)>)
    ensures r.Ok? <==> request.variantId in stocks && 1 <= request.quantity <= stocks[request.variantId].quantity
    ensures request.variantId !in stocks ==> r == Err(NoSuchElement)
    ensures request.variantId in stocks && request.quantity < 1 ==> r == Err(IllegalArgument(DecreaseNotPositive))
    ensures request.variantId in stocks && 1 <= request.quantity && stocks[request.variantId].quantity < request.quantity
            ==> r == Err(shortage)
    ensures r.Ok? ==> var s := stocks[request.variantId];
                      && r.value.0 == s.(quantity := s.quantity - request.quantity)
                      && r.value.1 == OutHistory(s, orderId, request.quantity)
  {
    if request.variantId !in stocks then Err(NoSuchElement)
    else
      var s := stocks[request.variantId];
      var d := ApplyDecrease(s.quantity, request.quantity);
      if d.Err? then
        Err(if d.error.IllegalState? then shortage else d.error)
      else
        var row := s.(quantity := d.value);
        Ok((row, OutboundOf(row, Some(orderId), request.quantity).value))
  }

  /** The stream over the requests, in list order, stopping at the first exception. `acc` holds
      the histories built so far. */
  function DecreaseFrom(
    stocks: map<Uuid, StockRow>, acc: seq<StockHistory>, orderId: Uuid,
    requests: seq<DecreaseRequest>, shortage: Exception)
    : (r: Result<Batch>)
    ensures requests == [] ==> r == Ok(Batch(stocks, acc))
    ensures r.Ok? ==> && r.value.stocks.Keys == stocks.Keys
                      && |r.value.histories| == |acc| + |requests|
                      && r.value.histories[..|acc|] == acc
    ensures r.Err? ==> r.error in {NoSuchElement, IllegalArgument(DecreaseNotPositive), shortage}
    decreases |requests|
  {
    if requests == [] then Ok(Batch(stocks, acc))
    else
      var step := DecreaseOne(stocks, orderId, requests[0], shortage);
      if step.Err? then Err(step.error)
      else DecreaseFrom(stocks[requests[0].variantId := step.value.0], acc + [step.value.1], orderId, requests[1..], shortage)
  }

  /** `decreaseAll` on the store as a whole: bean validation of the list, the idempotency gate,
      the per-request loop, the history insert (which the unique constraint can refuse) and the
      success event. Any exception rolls the transaction back, so a failing call leaves the
      store exactly as it was. */
  function BatchDecrease(st: Store, orderId: Uuid, requests: seq<DecreaseRequest>, shortage: Exception)
    : (r: Reply)
    ensures r.outcome.Fail? ==> r.store == st
    ensures !AllPositive(requests) ==> r == Reply(Fail(ConstraintViolation), st)
    ensures AllPositive(requests) && HasOrder(st.histories, orderId) ==> r == Reply(Pass, st)
  {
    if !AllPositive(requests) then Reply(Fail(ConstraintViolation), st)
    else if HasOrder(st.histories, orderId) then Reply(Pass, st)
    else
      var run := DecreaseFrom(st.stocks, [], orderId, requests, shortage);
      if run.Err? then Reply(Fail(run.error), st)
      else if !UniqueOrderVariant(st.histories + run.value.histories) then Reply(Fail(DataIntegrityViolation), st)
      else Reply(Pass, Store(run.value.stocks, st.histories + run.value.histories, st.outbox + [SuccessEvent(orderId)]))
  }

  // ---------------------------------------------------------------------------------------------
  // What one pass of the loop does.

  lemma SumForNonNegative(requests: seq<DecreaseRequest>, v: Uuid)
    requires AllPositive(requests)
    ensures SumFor(requests, v) >= 0
    decreases |requests|
  {
    if requests != [] {
      SumForNonNegative(requests[1..], v);
    }
  }

  /** A run that succeeds leaves every stock under the same key with the same ids, lowered by
      exactly the total its variant was asked for (which therefore did not exceed the stock), and
      appends one stock-out record per request, in request order. */
  lemma {:induction false} DecreaseFromShape(
    stocks: map<Uuid, StockRow>, acc: seq<StockHistory>, orderId: Uuid,
    requests: seq<DecreaseRequest>, shortage: Exception)
    requires forall v :: v in stocks ==> stocks[v].variantId == v && stocks[v].quantity >= 0
    requires DecreaseFrom(stocks, acc, orderId, requests, shortage).Ok?
    ensures var b := DecreaseFrom(stocks, acc, orderId, requests, shortage).value;
            && AllKnown(stocks, requests) && AllPositive(requests)
            && b.stocks.Keys == stocks.Keys
            && (forall v :: v in stocks ==> SumFor(requests, v) <= stocks[v].quantity)
            && (forall v :: v in stocks ==>
                  SameStock(b.stocks[v], stocks[v]) && b.stocks[v].quantity == stocks[v].quantity - SumFor(requests, v))
            && |b.histories| == |acc| + |requests|
            && b.histories[..|acc|] == acc
            && (forall i :: 0 <= i < |requests| ==>
                  b.histories[|acc| + i] == OutHistory(stocks[requests[i].variantId], orderId, requests[i].quantity))
    decreases |requests|
  {
    if requests != [] {
      var r0 := requests[0];
      var step := DecreaseOne(stocks, orderId, r0, shortage);
      var next := stocks[r0.variantId := step.value.0];
      var acc' := acc + [step.value.1];
      DecreaseFromShape(next, acc', orderId, requests[1..], shortage);
      var b := DecreaseFrom(stocks, acc, orderId, requests, shortage).value;
      assert b == DecreaseFrom(next, acc', orderId, requests[1..], shortage).value;
      forall i | 0 <= i < |requests|
        ensures requests[i].variantId in stocks && requests[i].quantity >= 1
      {
        if i > 0 {
          assert requests[i] == requests[1..][i - 1];
        }
      }
      forall v | v in stocks
        ensures SumFor(requests, v) <= stocks[v].quantity
        ensures SameStock(b.stocks[v], stocks[v]) && b.stocks[v].quantity == stocks[v].quantity - SumFor(requests, v)
      {
      }
      assert b.histories[..|acc|] == acc by {
        assert b.histories[..|acc'|] == acc';
        assert acc'[..|acc|] == acc;
      }
      forall i | 0 <= i < |requests|
        ensures b.histories[|acc| + i] == OutHistory(stocks[requests[i].variantId], orderId, requests[i].quantity)
      {
        if i == 0 {
          assert b.histories[..|acc'|] == acc';
          assert b.histories[|acc|] == acc'[|acc|];
        } else {
          assert requests[i] == requests[1..][i - 1];
          assert |acc'| + (i - 1) == |acc| + i;
        }
      }
    }
  }

  /** Conversely, a run succeeds whenever every requested variant has a stock, every quantity is
      positive, and no stock is asked for more than it holds in total. */
  lemma {:induction false} DecreaseFromSucceeds(
    stocks: map<Uuid, StockRow>, acc: seq<StockHistory>, orderId: Uuid,
    requests: seq<DecreaseRequest>, shortage: Exception)
    requires AllKnown(stocks, requests) && AllPositive(requests)
    requires forall v :: v in stocks ==> SumFor(requests, v) <= stocks[v].quantity
    ensures DecreaseFrom(stocks, acc, orderId, requests, shortage).Ok?
    decreases |requests|
  {
    if requests != [] {
      var r0 := requests[0];
      assert r0.variantId in stocks && r0.quantity >= 1;
      assert AllPositive(requests[1..]) by {
        forall i | 0 <= i < |requests[1..]| ensures requests[1..][i].quantity >= 1 {
          assert requests[1..][i] == requests[i + 1];
        }
      }
      assert AllKnown(stocks, requests[1..]) by {
        forall i | 0 <= i < |requests[1..]| ensures requests[1..][i].variantId in stocks {
          assert requests[1..][i] == requests[i + 1];
        }
      }
      SumForNonNegative(requests[1..], r0.variantId);
      var step := DecreaseOne(stocks, orderId, r0, shortage);
      assert step.Ok?;
      var next := stocks[r0.variantId := step.value.0];
      assert AllKnown(next, requests[1..]);
      DecreaseFromSucceeds(next, acc + [step.value.1], orderId, requests[1..], shortage);
    }
  }

  /** A run with validated quantities fails only for an unknown variant or a shortage. */
  lemma {:induction false} DecreaseFromErrors(
    stocks: map<Uuid, StockRow>, acc: seq<StockHistory>, orderId: Uuid,
    requests: seq<DecreaseRequest>, shortage: Exception)
    requires AllPositive(requests)
    requires DecreaseFrom(stocks, acc, orderId, requests, shortage).Err?
    ensures DecreaseFrom(stocks, acc, orderId, requests, shortage).error in {NoSuchElement, shortage}
    decreases |requests|
  {
    var r0 := requests[0];
    var step := DecreaseOne(stocks, orderId, r0, shortage);
    if step.Ok? {
      assert AllPositive(requests[1..]) by {
        forall i | 0 <= i < |requests[1..]| ensures requests[1..][i].quantity >= 1 {
          assert requests[1..][i] == requests[i + 1];
        }
      }
      DecreaseFromErrors(stocks[r0.variantId := step.value.0], acc + [step.value.1], orderId, requests[1..], shortage);
    }
  }

  // ---------------------------------------------------------------------------------------------
  // The unique constraint.

  /** Given a consistent store and an order not yet seen, the new stock-out records satisfy the
      (order, variant) constraint exactly when no variant is requested twice. */
  lemma UniqueAfterAppend(histories: seq<StockHistory>, added: seq<StockHistory>, orderId: Uuid, requests: seq<DecreaseRequest>)
    requires UniqueOrderVariant(histories) && !HasOrder(histories, orderId)
    requires |added| == |requests|
    requires forall i :: 0 <= i < |added| ==> added[i].orderId == Some(orderId) && added[i].variantId == requests[i].variantId
    ensures UniqueOrderVariant(histories + added) <==> DistinctVariants(requests)
  {
    var all := histories + added;
    var n := |histories|;
    if DistinctVariants(requests) {
      forall i, j | 0 <= i < j < |all| && all[i].orderId.Some? && all[i].orderId == all[j].orderId
        ensures all[i].variantId != all[j].variantId
      {
        if j < n {
          assert all[i] == histories[i] && all[j] == histories[j];
        } else if i < n {
          assert false;
        } else {
          assert all[i] == added[i - n] && all[j] == added[j - n];
        }
      }
    }
    if UniqueOrderVariant(all) {
      forall i, j | 0 <= i < j < |requests| ensures requests[i].variantId != requests[j].variantId {
        assert all[n + i] == added[i] && all[n + j] == added[j];
      }
    }
  }

  // ---------------------------------------------------------------------------------------------
  // The properties of `decreaseAll`.

  /** The conditions under which a call on a new order gets through the loop and the insert. */
  predicate CanDecrease(st: Store, requests: seq<DecreaseRequest>)
  {
    && AllKnown(st.stocks, requests)
    && DistinctVariants(requests)
    && (forall v :: v in st.stocks ==> SumFor(requests, v) <= st.stocks[v].quantity)
  }

  /** The records a successful run on a fresh list adds all carry the order and, in request
      order, the requested variants. */
  lemma RunHistories(st: Store, orderId: Uuid, requests: seq<DecreaseRequest>, shortage: Exception)
    requires ValidStore(st)
    requires DecreaseFrom(st.stocks, [], orderId, requests, shortage).Ok?
    ensures var added := DecreaseFrom(st.stocks, [], orderId, requests, shortage).value.histories;
            && |added| == |requests|
            && forall i :: 0 <= i < |added| ==> added[i].orderId == Some(orderId) && added[i].variantId == requests[i].variantId
  {
    DecreaseFromShape(st.stocks, [], orderId, requests, shortage);
    var added := DecreaseFrom(st.stocks, [], orderId, requests, shortage).value.histories;
    forall i | 0 <= i < |added|
      ensures added[i].orderId == Some(orderId) && added[i].variantId == requests[i].variantId
    {
      assert added[0 + i] == OutHistory(st.stocks[requests[i].variantId], orderId, requests[i].quantity);
    }
  }

  /** A call with valid quantities on a new order succeeds when every variant has a stock, none
      is requested twice, and no stock is asked for more than it holds. */
  lemma SucceedsWhenCovered(st: Store, orderId: Uuid, requests: seq<DecreaseRequest>, shortage: Exception)
    requires ValidStore(st) && AllPositive(requests) && !HasOrder(st.histories, orderId)
    requires CanDecrease(st, requests)
    ensures BatchDecrease(st, orderId, requests, shortage).outcome.Pass?
  {
    DecreaseFromSucceeds(st.stocks, [], orderId, requests, shortage);
    RunHistories(st, orderId, requests, shortage);
    var run := DecreaseFrom(st.stocks, [], orderId, requests, shortage);
    UniqueAfterAppend(st.histories, run.value.histories, orderId, requests);
  }

  /** Conversely, a successful call on a new order had all three conditions. */
  lemma CoveredWhenSucceeds(st: Store, orderId: Uuid, requests: seq<DecreaseRequest>, shortage: Exception)
    requires ValidStore(st) && !HasOrder(st.histories, orderId)
    requires BatchDecrease(st, orderId, requests, shortage).outcome.Pass?
    ensures CanDecrease(st, requests)
  {
    DecreaseFromShape(st.stocks, [], orderId, requests, shortage);
    RunHistories(st, orderId, requests, shortage);
    var run := DecreaseFrom(st.stocks, [], orderId, requests, shortage);
    UniqueAfterAppend(st.histories, run.value.histories, orderId, requests);
  }

  /** Exactly when the call succeeds: the quantities are valid, and either the order was already
      processed, or every variant has a stock, none is requested twice, and no stock is asked
      for more than it holds. */
  lemma SucceedsIff(st: Store, orderId: Uuid, requests: seq<DecreaseRequest>, shortage: Exception)
    requires ValidStore(st)
    ensures BatchDecrease(st, orderId, requests, shortage).outcome.Pass? <==>
              AllPositive(requests) && (HasOrder(st.histories, orderId) || CanDecrease(st, requests))
  {
    if AllPositive(requests) && !HasOrder(st.histories, orderId) {
      if CanDecrease(st, requests) {
        SucceedsWhenCovered(st, orderId, requests, shortage);
      }
      if BatchDecrease(st, orderId, requests, shortage).outcome.Pass? {
        CoveredWhenSucceeds(st, orderId, requests, shortage);
      }
    }
  }

  /** A successful call on a new order lowers every stock by the total its variant was asked for
      (stocks nobody asked for keep their quantity), never below zero, keeps every stock's ids,
      stores one stock-out record per request in list order carrying the order, the stock's ids
      and minus the requested quantity, and publishes exactly one success event for the order. */
  lemma SuccessEffects(st: Store, orderId: Uuid, requests: seq<DecreaseRequest>, shortage: Exception)
    requires ValidStore(st) && !HasOrder(st.histories, orderId)
    requires BatchDecrease(st, orderId, requests, shortage).outcome.Pass?
    ensures var st' := BatchDecrease(st, orderId, requests, shortage).store;
            && AllKnown(st.stocks, requests)
            && st'.stocks.Keys == st.stocks.Keys
            && (forall v :: v in st.stocks ==>
                  && SameStock(st'.stocks[v], st.stocks[v])
                  && st'.stocks[v].quantity == st.stocks[v].quantity - SumFor(requests, v) >= 0)
            && |st'.histories| == |st.histories| + |requests|
            && st'.histories[..|st.histories|] == st.histories
            && (forall i :: 0 <= i < |requests| ==>
                  st'.histories[|st.histories| + i] == OutHistory(st.stocks[requests[i].variantId], orderId, requests[i].quantity))
            && st'.outbox == st.outbox + [SuccessEvent(orderId)]
  {
    DecreaseFromShape(st.stocks, [], orderId, requests, shortage);
    var b := DecreaseFrom(st.stocks, [], orderId, requests, shortage).value;
    assert st.histories + b.histories == BatchDecrease(st, orderId, requests, shortage).store.histories;
    assert (st.histories + b.histories)[..|st.histories|] == st.histories;
  }

  /** A call that fails reports bean validation, an unknown variant, a shortage, or the unique
      constraint, and nothing else. */
  lemma FailureCauses(st: Store, orderId: Uuid, requests: seq<DecreaseRequest>, shortage: Exception)
    requires BatchDecrease(st, orderId, requests, shortage).outcome.Fail?
    ensures BatchDecrease(st, orderId, requests, shortage).outcome.error in
              {ConstraintViolation, NoSuchElement, shortage, DataIntegrityViolation}
  {
    if AllPositive(requests) && !HasOrder(st.histories, orderId) {
      var run := DecreaseFrom(st.stocks, [], orderId, requests, shortage);
      if run.Err? {
        DecreaseFromErrors(st.stocks, [], orderId, requests, shortage);
      }
    }
  }

  /** The store stays consistent: stocks keep their keys and stay non-negative, and the
      (order, variant) constraint still holds. */
  lemma PreservesValidStore(st: Store, orderId: Uuid, requests: seq<DecreaseRequest>, shortage: Exception)
    requires ValidStore(st)
    ensures ValidStore(BatchDecrease(st, orderId, requests, shortage).store)
  {
    var r := BatchDecrease(st, orderId, requests, shortage);
    if r.store != st {
      SuccessEffects(st, orderId, requests, shortage);
    }
  }

  /** Idempotency: after a successful call with a non-empty request list, the same order is
      gated, so any later call for it with valid quantities succeeds and changes nothing; the
      stock is decreased once. */
  lemma SecondCallChangesNothing(
    st: Store, orderId: Uuid, requests: seq<DecreaseRequest>, again: seq<DecreaseRequest>, shortage: Exception)
    requires ValidStore(st)
    requires requests != [] && AllPositive(again)
    requires BatchDecrease(st, orderId, requests, shortage).outcome.Pass?
    ensures var st' := BatchDecrease(st, orderId, requests, shortage).store;
            BatchDecrease(st', orderId, again, shortage) == Reply(Pass, st')
  {
    var st' := BatchDecrease(st, orderId, requests, shortage).store;
    if !HasOrder(st.histories, orderId) {
      SuccessEffects(st, orderId, requests, shortage);
      var k := |st.histories|;
      assert st'.histories[k + 0].orderId == Some(orderId);
      assert HasOrder(st'.histories, orderId);
    }
  }

  /** An empty request list on a new order saves no history but still publishes a success event,
      so the order stays ungated and a repeat publishes again. */
  lemma EmptyBatchIsNotGated(st: Store, orderId: Uuid, shortage: Exception)
    requires !HasOrder(st.histories, orderId) && UniqueOrderVariant(st.histories)
    ensures var r := BatchDecrease(st, orderId, [], shortage);
            && r == Reply(Pass, st.(outbox := st.outbox + [SuccessEvent(orderId)]))
            && !HasOrder(r.store.histories, orderId)
            && BatchDecrease(r.store, orderId, [], shortage).store.outbox
               == st.outbox + [SuccessEvent(orderId), SuccessEvent(orderId)]
  {
    assert st.histories + [] == st.histories;
  }

  // ---------------------------------------------------------------------------------------------
  // The store as an object.

  /** The handler with its two repositories and its publisher. */
  class StockDecreaseHandler {
    var stocks: map<Uuid, StockRow>
    var histories: seq<StockHistory>
    var outbox: seq<SuccessEvent>

    function Snapshot(): (st: Store)
      reads this
      ensures st.stocks == stocks && st.histories == histories && st.outbox == outbox
    {
      Store(stocks, histories, outbox)
    }

    predicate Valid()
      reads this
    {
      ValidStore(Snapshot())
    }

    constructor (st: Store)
      requires ValidStore(st)
      ensures Valid() && Snapshot() == st
    {
      stocks, histories, outbox := st.stocks, st.histories, st.outbox;
    }

    /** `decreaseAll`: the requests are processed one by one in list order on a working copy;
        only a call that gets through every step writes the copy back (commit). */
    method DecreaseAll(orderId: Uuid, requests: seq<DecreaseRequest>, shortage: Exception) returns (r: Outcome)
      requires Valid()
      modifies this
      ensures Valid()
      ensures Reply(r, Snapshot()) == BatchDecrease(old(Snapshot()), orderId, requests, shortage)
    {
      PreservesValidStore(Snapshot(), orderId, requests, shortage);
      if exists i :: 0 <= i < |requests| && requests[i].quantity < 1 {
        return Fail(ConstraintViolation);
      }
      if exists i :: 0 <= i < |histories| && histories[i].orderId == Some(orderId) {
        return Pass;
      }
      var working: map<Uuid, StockRow> := stocks;
      var saved: seq<StockHistory> := [];
      var i := 0;
      while i < |requests|
        invariant 0 <= i <= |requests|
        invariant DecreaseFrom(working, saved, orderId, requests[i..], shortage)
                  == DecreaseFrom(stocks, [], orderId, requests, shortage)
      {
        assert requests[i..][1..] == requests[i + 1..];
        var step := DecreaseOne(working, orderId, requests[i], shortage);
        if step.Err? {
          return Fail(step.error);
        }
        working := working[requests[i].variantId := step.value.0];
        saved := saved + [step.value.1];
        i := i + 1;
      }
      assert requests[i..] == [];
      if !UniqueOrderVariant(histories + saved) {
        return Fail(DataIntegrityViolation);
      }
      stocks := working;
      histories := histories + saved;
      outbox := outbox + [SuccessEvent(orderId)];
      r := Pass;
    }
  }

  // ---------------------------------------------------------------------------------------------
  // Worked examples.

  /** Ten units, an order for four: six remain, one record of -4, one success event; the
      redelivered message changes nothing. A second order for five of the six units fails with
      the shortage and changes nothing. */
  lemma Scenario(shortage: Exception)
    ensures var row := StockRow(1, 2, 3, 10);
            var st := Store(map[3 := row], [], []);
            var req := DecreaseRequest(2, 3, 4, 0);
            var r1 := BatchDecrease(st, 7, [req], shortage);
            && r1.outcome == Pass
            && r1.store.stocks[3].quantity == 6
            && r1.store.histories == [StockHistory(Some(7), 1, 2, 3, Outbound, -4)]
            && r1.store.outbox == [SuccessEvent(7)]
            && BatchDecrease(r1.store, 7, [req], shortage) == Reply(Pass, r1.store)
            && BatchDecrease(r1.store, 8, [DecreaseRequest(2, 3, 7, 0)], shortage) == Reply(Fail(shortage), r1.store)
  {
    var row := StockRow(1, 2, 3, 10);
    var st := Store(map[3 := row], [], []);
    var req := DecreaseRequest(2, 3, 4, 0);
    var h := StockHistory(Some(7), 1, 2, 3, Outbound, -4);
    var left := map[3 := row][3 := row.(quantity := 6)];
    assert AllPositive([req]);
    assert !HasOrder(st.histories, 7);
    assert DecreaseOne(st.stocks, 7, req, shortage) == Ok((row.(quantity := 6), h));
    assert [req][1..] == [];
    assert [] + [h] == [h];
    assert DecreaseFrom(left, [h], 7, [], shortage) == Ok(Batch(left, [h]));
    assert DecreaseFrom(st.stocks, [], 7, [req], shortage) == Ok(Batch(left, [h]));
    assert UniqueOrderVariant([] + [h]);
    var st1 := Store(left, [h], [SuccessEvent(7)]);
    assert BatchDecrease(st, 7, [req], shortage) == Reply(Pass, st1);
    assert st1.histories[0].orderId == Some(7);
    assert HasOrder(st1.histories, 7);
    var big := DecreaseRequest(2, 3, 7, 0);
    assert AllPositive([big]);
    assert !HasOrder(st1.histories, 8);
    assert DecreaseOne(st1.stocks, 8, big, shortage) == Err(shortage);
  }
}
