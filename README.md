# Stock service: order-driven stock decrement, modelled in Dafny

This project models the core of the `athenhub/stock-service` inventory service: the path by
which an order turns into stock decrements, and the registration path that creates the stocks
in the first place.

- **Ledger entities.**
  - A `Stock` is a 32-bit counter changed only by validated increases and decreases. A
    decrease never makes it negative. As written, an increase can carry it past
    Integer.MAX_VALUE into a negative quantity (see Findings); the corrected increase is modelled
    beside it.
  - A `StockHistory` is an immutable change record whose sign must agree with its event type
    (stock-in, stock-out, cancel, return). The history table carries a unique constraint on
    (order, variant).
  - The older `product` copy of the history record has a slightly different rule order.
- **Batch decrement.** `StockDecreaseHandler.decreaseAll` runs in one transaction:
  - an idempotency gate on "this order already has a history";
  - one decrease and one stock-out history per request, in list order;
  - one success event.

  The older single-request handler is modelled beside it.
- **Message flow.**
  - The order-created listener turns an order into a batch message.
  - The decrease listener runs the batch and settles each delivery in exactly one of four ways:
    - ack;
    - dead-letter as OUT_OF_STOCK, then ack;
    - republish with the retry count plus one, then ack;
    - dead-letter as RETRY_EXCEEDED, then ack.

    It uses `RetryManager` for the headers.
  - The dead-letter listener tells the order service that processing failed, and never settles
    the dead letter.
- **Registration.**
  - The facade runs three guards, in order: membership, product permission and variant
    consistency. Each guard is judged from the member or product service's answer, which is an
    input here.
  - Then the registration service refuses duplicated variants, builds one stock per variant and
    raises one created event.
  - The history listener records a stock-in history per created stock and a stock-out history
    per decreased stock.
  - The external `StockRegisteredEvent` requires exactly one product.
  - The two Feign error decoders map HTTP statuses to error codes.

## How it is built

- There is one Dafny module per source file. Shared types live in `common.dfy`:
  - `Option` for a nullable reference;
  - `Result` and `Outcome` for "returned or threw";
  - `int32` for Java's `int`;
  - `Wrap32` for its two's-complement wrap-around, and `Succ32` for `x + 1`;
  - `Exception` for the exception classes the callers distinguish.
- Pure logic is written as functions with lemmas about them.
- Objects whose fields change are classes. Their methods' `ensures` tie the new state to those
  functions:
  - `Stock`;
  - the decrement handlers;
  - the listeners;
  - the broker connection;
  - the retry manager;
  - the registration service;
  - the facade.
- A `@Transactional` call is a function that returns either the new store or the old store
  unchanged.
- The broker is a log of effects: publishes, acks and nacks.
- The member and product services enter as values. Each is either the record they returned or
  the exception the error decoder made of the failure.

### Shortage exception

`RabbitStockDecreaseEventListener` dead-letters an `InsufficientStockException` at once. But
`Stock.decrease` in `product/domain/Stock.java` raises an `IllegalStateException` for a
shortage, and the listener retries that one like a transient failure. The exception class a
shortage raises is therefore the parameter `shortage` of the batch handler and the listener.
`DecreaseListeners.ShortageRouting` shows both routings.

### `signed`

`StockEventType.signed(int)` is called by `StockHistory.inbound`/`outbound` and by the history
listener, but the enum does not define it. It is defined here from the documented intent:
- stock-out records `-q`, and Java negation wraps, so `Integer.MIN_VALUE` stays itself;
- every other type records `+q`.

### Where the code and its design description disagree (the model follows the code)

- **Duplicate (order, variant) record.**
  - Design description: it counts as success.
  - Code: the unique constraint raises `DataIntegrityViolationException`. The transaction rolls
    back and the listener treats it as a generic failure, so the message is retried.
- **Generic failures after the last retry.**
  - Design description: they are tagged with their own type (UNKNOWN_ERROR).
  - Code: every generic failure is dead-lettered as RETRY_EXCEEDED. UNKNOWN_ERROR is never
    written.
- **Shortage.** The design description treats it as a business failure that is never retried.
  In the code that holds only when the stock raises `InsufficientStockException` (see above).
- **Event shapes.** The internal events are mid-refactor:
  - `StockCreatedEvent` is declared per stock, with `from(Stock)`, while the registration
    service calls `StockCreatedEvent.from(stocks)` and its readers use `stocks()`.
  - `StockDecreasedEvent` is declared as `(orderId, decreasedAt)`, while the history listener
    reads a stock's ids and a quantity.

  The model uses the shapes the callers read: a list of stocks with a request time, and a
  stock's ids with a quantity.

## Model

| member | source | states |
|---|---|---|
| Stocks.ValidateNewStock | src/main/java/com/athenhub/stockservice/product/domain/Stock.java:63-69 | A stock is created exactly when the initial quantity is at least 1 and both ids are present. The quantity is checked first (IllegalArgument), then the ids (NullPointer). The stock carries the arguments. |
| Stocks.ValidateOf | src/main/java/com/athenhub/stockservice/product/domain/Stock.java:77-94 | `of` refuses with REGISTER_NOT_ALLOWED when the member does not belong, before it looks at permission. A refused permission also gives REGISTER_NOT_ALLOWED. Otherwise the constructor's rules apply and the stock takes the request's ids and quantity. |
| Stocks.Of | src/main/java/com/athenhub/stockservice/product/domain/Stock.java:77-94 | It returns a fresh entity exactly when `ValidateOf` accepts, holding the validated row, and otherwise the same exception. |
| Stocks.IncreaseAsWritten | src/main/java/com/athenhub/stockservice/product/domain/Stock.java:153-155 | `increase` as written: an amount of at most 0 is refused; otherwise the result equals quantity + amount modulo 2^32. |
| Stocks.IncreaseAsWrittenOverflows | src/main/java/com/athenhub/stockservice/product/domain/Stock.java:153-155 | Increasing Integer.MAX_VALUE by 1 yields a negative stock. |
| Stocks.ApplyIncrease | src/main/java/com/athenhub/stockservice/product/domain/Stock.java:103-106 | The corrected increase of the first finding. It succeeds exactly when amount ≥ 1 and the sum fits in an int. A non-positive amount is IllegalArgument and an overflow is refused. On success the result is quantity + amount and is larger than before. The `Stock` entity follows the code as written instead. |
| Stocks.IncreaseAgreesWithAsWritten | src/main/java/com/athenhub/stockservice/product/domain/Stock.java:142-155 | Wherever the corrected increase succeeds, it gives the same result as the code as written. |
| Stocks.ApplyDecrease | src/main/java/com/athenhub/stockservice/product/domain/Stock.java:116-120 | It succeeds exactly when 1 ≤ amount ≤ quantity. A non-positive amount is IllegalArgument, checked before availability; a shortage is IllegalState. The result is quantity − amount and is never negative. |
| Stocks.IncreaseThenDecreaseRestores | src/main/java/com/athenhub/stockservice/product/domain/Stock.java:103-120 | A successful increase by a, followed by a decrease by a, restores the original quantity. |
| Stocks.ApplyAll | src/main/java/com/athenhub/stockservice/product/domain/Stock.java:103-120 | The quantity after a sequence of calls under the corrected increase, where a call that throws changes nothing. A sequence of decreases alone never raises the quantity. |
| Stocks.NeverNegative | src/main/java/com/athenhub/stockservice/product/domain/Stock.java:103-190 | Under the corrected increase, a stock that starts non-negative stays non-negative through any sequence of increases and decreases, whether or not each one throws. The increase as written breaks this (`IncreaseAsWrittenOverflows`). |
| Stocks.Stock.Increase | src/main/java/com/athenhub/stockservice/product/domain/Stock.java:103-155 | In place, as written: it succeeds exactly when amount ≥ 1; otherwise it raises IllegalArgument and the quantity is unchanged. On success the quantity is the 32-bit sum `IncreaseAsWritten` gives, which is old quantity + amount whenever that fits in an int. |
| Stocks.Stock.Decrease | src/main/java/com/athenhub/stockservice/product/domain/Stock.java:116-120 | In place: it succeeds exactly when 1 ≤ amount ≤ old quantity and then subtracts the amount. Otherwise the quantity is unchanged and the exception matches `ApplyDecrease`. The quantity stays ≥ 0. |
| Stocks.IncreaseDecreaseRoundTrip | src/main/java/com/athenhub/stockservice/product/domain/Stock.java:103-120 | On an entity: create, increase by a, decrease by a, where the initial quantity plus a fits in an int. Both calls succeed and the stock holds its initial quantity and its ids again. |
| StockEventTypes.ExactlyOnePredicateHolds | src/main/java/com/athenhub/stockservice/stock/domain/StockEventType.java:18-66 | Each `isX` predicate is true exactly for its own constant, and exactly one of the four holds for every event type. |
| StockEventTypes.StockEventType.Signed | src/main/java/com/athenhub/stockservice/stock/domain/StockHistory.java:106-126 | Stock-out negates the quantity (Integer.MIN_VALUE stays itself, as Java negation wraps) and every other type keeps it, so a positive quantity is recorded negative exactly for stock-out. |
| StockHistories.New | src/main/java/com/athenhub/stockservice/stock/domain/StockHistory.java:76-94 | A record is accepted exactly when the type is present, the quantity is non-zero, the sign agrees with the type (stock-in and cancel ≥ 0, stock-out ≤ 0) and all three ids are present. A null type is NullPointer; zero is IllegalArgument; a sign that disagrees is IllegalArgument; a null id after a valid sign is NullPointer. The record holds the arguments. |
| StockHistories.Of | src/main/java/com/athenhub/stockservice/stock/domain/StockHistory.java:97-103 | `of` accepts exactly what the constructor accepts with no order, and its records carry no order. |
| StockHistories.InboundOf | src/main/java/com/athenhub/stockservice/stock/domain/StockHistory.java:106-114 | A positive q gives a stock-in record of +q with the stock's ids and no order; q ≤ 0 is refused with IllegalArgument. |
| StockHistories.OutboundOf | src/main/java/com/athenhub/stockservice/stock/domain/StockHistory.java:117-126 | A positive q gives a stock-out record of −q for the order with the stock's ids. Zero and negative q above Integer.MIN_VALUE are refused. Integer.MIN_VALUE is recorded as itself. |
| StockHistories.ReturnAcceptsEitherSign | src/main/java/com/athenhub/stockservice/stock/domain/StockHistory.java:166-212 | A return record is accepted with a positive and with a negative quantity, because no return sign rule exists. |
| StockHistories.NullTypeReportedBeforeZero | src/main/java/com/athenhub/stockservice/stock/domain/StockHistory.java:76-94 | A null type with a zero quantity is reported as NullPointer, not as IllegalArgument. |
| ProductStockHistories.New | src/main/java/com/athenhub/stockservice/product/domain/StockHistory.java:63-95 | The older record is accepted exactly when the quantity is non-zero, the type is present, the quantity is negative exactly for stock-out, and the ids are present. Zero is checked first. Stock-in, return and cancel refuse a negative quantity; stock-out refuses a positive one. The record holds the arguments. |
| ProductStockHistories.ZeroReportedBeforeNullType | src/main/java/com/athenhub/stockservice/product/domain/StockHistory.java:69-73 | A zero quantity with a null type is reported as IllegalArgument, the reverse of the newer record. |
| DecreaseHandlers.DecreaseOne | src/main/java/com/athenhub/stockservice/stock/application/service/StockDecreaseHandler.java:100-111 | One request succeeds exactly when its variant has a stock holding at least the positive quantity. An unknown variant is NoSuchElement and a shortage raises the shortage exception. The stock drops by the quantity and the record is the stock-out of −quantity for the order. |
| DecreaseHandlers.DecreaseFrom | src/main/java/com/athenhub/stockservice/stock/application/service/StockDecreaseHandler.java:75-76 | The stream over the requests: no requests gives the store and histories unchanged. A successful run keeps the set of stocks and appends exactly one history per request after those already built. A failed run reports a missing variant, a non-positive quantity or the shortage exception. |
| DecreaseHandlers.BatchDecrease | src/main/java/com/athenhub/stockservice/stock/application/service/StockDecreaseHandler.java:64-83 | A failing call leaves the whole store unchanged (all-or-nothing). An invalid quantity fails bean validation before anything else. An order that already has a history returns without any change. |
| DecreaseHandlers.DecreaseFromShape | src/main/java/com/athenhub/stockservice/stock/application/service/StockDecreaseHandler.java:75-79 | A successful run over the requests has lowered every variant by the total asked of it, never below zero. It has kept the ids and built one stock-out record per request, in list order. |
| DecreaseHandlers.DecreaseFromSucceeds | src/main/java/com/athenhub/stockservice/stock/application/service/StockDecreaseHandler.java:100-111 | The run succeeds whenever every variant is known, every quantity positive and no stock is asked for more in total than it holds. |
| DecreaseHandlers.DecreaseFromErrors | src/main/java/com/athenhub/stockservice/stock/application/service/StockDecreaseHandler.java:100-111 | With valid quantities, a failing run fails only with NoSuchElement or the shortage exception. |
| DecreaseHandlers.UniqueAfterAppend | src/main/java/com/athenhub/stockservice/stock/domain/StockHistory.java:32-38 | Appending the new order's records keeps the (order, variant) constraint exactly when no variant is requested twice. |
| DecreaseHandlers.SucceedsWhenCovered | src/main/java/com/athenhub/stockservice/stock/application/service/StockDecreaseHandler.java:64-111 | A new order with valid quantities, known and distinct variants and enough stock succeeds. |
| DecreaseHandlers.CoveredWhenSucceeds | src/main/java/com/athenhub/stockservice/stock/application/service/StockDecreaseHandler.java:64-111 | A new order that succeeds had known, distinct variants and enough stock for each. |
| DecreaseHandlers.SucceedsIff | src/main/java/com/athenhub/stockservice/stock/application/service/StockDecreaseHandler.java:64-111 | A call succeeds exactly when the quantities are valid and either the order already has a history or the stock covers the requests (variants known and distinct, totals available). |
| DecreaseHandlers.SuccessEffects | src/main/java/com/athenhub/stockservice/stock/application/service/StockDecreaseHandler.java:64-83 | On success for a new order, every stock drops by its variant's total and stays ≥ 0, with ids and keys kept. Exactly one record per request is appended in list order, carrying the order, the stock's ids and −quantity. Exactly one success event for the order is published. |
| DecreaseHandlers.FailureCauses | src/main/java/com/athenhub/stockservice/stock/application/service/StockDecreaseHandler.java:64-111 | A failure is bean validation, an unknown variant, the shortage or the unique constraint, and nothing else. |
| DecreaseHandlers.PreservesValidStore | src/main/java/com/athenhub/stockservice/stock/application/service/StockDecreaseHandler.java:64-83 | Every call keeps the store consistent: stocks under their variant, none negative, and the (order, variant) constraint intact. |
| DecreaseHandlers.SecondCallChangesNothing | src/main/java/com/athenhub/stockservice/stock/application/service/StockDecreaseHandler.java:69-72 | After a successful non-empty call, any later call for the same order with valid quantities succeeds and changes nothing, so the stock is decreased once. |
| DecreaseHandlers.EmptyBatchIsNotGated | src/main/java/com/athenhub/stockservice/stock/application/service/StockDecreaseHandler.java:70-82 | An empty list on a new order saves no record but publishes a success event. The order stays ungated and a repeat publishes a second event. |
| DecreaseHandlers.StockDecreaseHandler.DecreaseAll | src/main/java/com/athenhub/stockservice/stock/application/service/StockDecreaseHandler.java:64-83 | The handler's outcome and new repositories and outbox are those of `BatchDecrease` on its old state, and its consistency invariant is kept. |
| DecreaseHandlers.Scenario | src/main/java/com/athenhub/stockservice/stock/application/service/StockDecreaseHandler.java:64-111 | Ten units and an order for four leave six, one record of −4 and one success event. Redelivery changes nothing. A new order for seven fails with the shortage and changes nothing. |
| LegacyDecreaseHandlers.DecreasedEventOf | src/main/java/com/athenhub/stockservice/stock/application/evenhandler/StockDecreaseHandler.java:29-32 | The decreased event carries the stock's ids and its quantity. |
| LegacyDecreaseHandlers.LegacyDecrease | src/main/java/com/athenhub/stockservice/stock/application/evenhandler/StockDecreaseHandler.java:23-33 | With no stock matching both ids it fails with NOT_FOUND and nothing changes. Otherwise it succeeds exactly when 1 ≤ quantity ≤ stock, lowering that stock only and raising one event after the decrease. On failure nothing changes and the exception is the stock's own. Other stocks are never touched. |
| LegacyDecreaseHandlers.LegacyKeepsIdsAndSign | src/main/java/com/athenhub/stockservice/stock/application/evenhandler/StockDecreaseHandler.java:23-33 | A successful call keeps the stock's ids, lowers it while leaving it non-negative, and raises exactly one event. |
| LegacyDecreaseHandlers.LegacyStockDecreaseHandler.Decrease | src/main/java/com/athenhub/stockservice/stock/application/evenhandler/StockDecreaseHandler.java:23-33 | The handler's outcome, stocks and raised events are those of `LegacyDecrease` on its old state. |
| Messaging.StockErrorType.Name | src/main/java/com/athenhub/stockservice/stock/infrastructure/rabbitmq/error/StockErrorType.java:17-61 | Each error type travels as a non-empty constant name. |
| Messaging.NameInjective | src/main/java/com/athenhub/stockservice/stock/infrastructure/rabbitmq/error/StockErrorType.java:17-61 | Different error types are written as different header strings. |
| Messaging.Broker.Send | src/main/java/com/athenhub/stockservice/stock/infrastructure/rabbitmq/subcribe/stock/RetryManager.java:27-36 | One publish is appended to the broker log. |
| Messaging.Broker.Ack | src/main/java/com/athenhub/stockservice/stock/infrastructure/rabbitmq/subcribe/stock/RabbitStockDecreaseEventListener.java:222-224 | One ack of the tag is appended to the broker log. |
| Messaging.Broker.Nack | src/main/java/com/athenhub/stockservice/stock/infrastructure/rabbitmq/subcribe/order/OrderCreatedRabbitListener.java:108-111 | One nack of the tag is appended to the broker log. |
| RetryManagers.GetRetryCount | src/main/java/com/athenhub/stockservice/stock/infrastructure/rabbitmq/subcribe/stock/RetryManager.java:21-24 | A numeric header is read as its 32-bit int value (exactly the number when it fits). An absent or non-numeric header reads as 0. |
| RetryManagers.RetryMessage | src/main/java/com/athenhub/stockservice/stock/infrastructure/rabbitmq/subcribe/stock/RetryManager.java:27-36 | The retry publish goes to the stock exchange with the retry key and the unchanged payload, and its only header is the retry count. |
| RetryManagers.DlqMessage | src/main/java/com/athenhub/stockservice/stock/infrastructure/rabbitmq/subcribe/stock/RetryManager.java:39-49 | The dead-letter publish goes to the DLQ exchange with the dead key and the unchanged payload. It has exactly the count and error-type headers, and the error type is its name. |
| RetryManagers.RetryCountRoundTrip | src/main/java/com/athenhub/stockservice/stock/infrastructure/rabbitmq/subcribe/stock/RetryManager.java:21-49 | The count written by either republish reads back unchanged. |
| RetryManagers.FirstDeliveryCountsZero | src/main/java/com/athenhub/stockservice/stock/infrastructure/rabbitmq/subcribe/stock/RetryManager.java:21-24 | A delivery without a count header reads as retry 0. |
| RetryManagers.RetryManager.SendToRetry | src/main/java/com/athenhub/stockservice/stock/infrastructure/rabbitmq/subcribe/stock/RetryManager.java:27-36 | Exactly one publish, the retry message, is appended to the broker log. |
| RetryManagers.RetryManager.SendToDlq | src/main/java/com/athenhub/stockservice/stock/infrastructure/rabbitmq/subcribe/stock/RetryManager.java:39-49 | Exactly one publish, the dead-letter message, is appended to the broker log. |
| DecreaseListeners.Classify | src/main/java/com/athenhub/stockservice/stock/infrastructure/rabbitmq/subcribe/stock/RabbitStockDecreaseEventListener.java:63-85 | Success is acked exactly when the handler passed. The insufficient-stock exception is dead-lettered exactly when it is raised. Any other failure is retried exactly when retry + 1 ≤ 5. |
| DecreaseListeners.ListenEffects | src/main/java/com/athenhub/stockservice/stock/infrastructure/rabbitmq/subcribe/stock/RabbitStockDecreaseEventListener.java:63-224 | Every delivery ends with a single ack (multiple=false). The effects are that ack alone exactly when the handler passed. A failure adds exactly one publish before the ack, carrying the delivered event unchanged. |
| DecreaseListeners.AckedExactlyOnce | src/main/java/com/athenhub/stockservice/stock/infrastructure/rabbitmq/subcribe/stock/RabbitStockDecreaseEventListener.java:63-224 | Every delivery is settled exactly once, by a single ack (multiple=false) that comes last, and is never nacked. A failure makes the listener publish exactly one message, with the unchanged payload, before the ack. On success the listener publishes nothing of its own; the batch's success event is the handler's, published inside its transaction (`StockDecreaseHandler.java:82`) and kept in the store's outbox, not in these effects. |
| DecreaseListeners.SuccessOnlyAcks | src/main/java/com/athenhub/stockservice/stock/infrastructure/rabbitmq/subcribe/stock/RabbitStockDecreaseEventListener.java:208-211 | On success the listener's only broker effect is the ack. The success event is published by the handler, not here, and appears in the handler's outbox. |
| DecreaseListeners.OutOfStockDeadLetters | src/main/java/com/athenhub/stockservice/stock/infrastructure/rabbitmq/subcribe/stock/RabbitStockDecreaseEventListener.java:115-129 | Insufficient stock is dead-lettered as OUT_OF_STOCK with the unchanged count, whatever the count. |
| DecreaseListeners.OtherFailureRetries | src/main/java/com/athenhub/stockservice/stock/infrastructure/rabbitmq/subcribe/stock/RabbitStockDecreaseEventListener.java:143-178 | Any other failure with retry + 1 ≤ 5 is republished on the retry route with count retry + 1. |
| DecreaseListeners.OtherFailureExhausts | src/main/java/com/athenhub/stockservice/stock/infrastructure/rabbitmq/subcribe/stock/RabbitStockDecreaseEventListener.java:143-198 | Any other failure with retry + 1 > 5 is dead-lettered as RETRY_EXCEEDED with the current count, not the incremented one. |
| DecreaseListeners.RetryTrail | src/main/java/com/athenhub/stockservice/stock/infrastructure/rabbitmq/subcribe/stock/RabbitStockDecreaseEventListener.java:143-158 | The messages an always-failing payload produces across redeliveries, which is never empty. |
| DecreaseListeners.RetryTrailStartsAsListened | src/main/java/com/athenhub/stockservice/stock/infrastructure/rabbitmq/subcribe/stock/RabbitStockDecreaseEventListener.java:143-158 | The first message of the trail is the one the listener publishes for the failed delivery at the current count. |
| DecreaseListeners.RetryStep | src/main/java/com/athenhub/stockservice/stock/infrastructure/rabbitmq/subcribe/stock/RabbitStockDecreaseEventListener.java:169-178 | Below the limit, the trail is the retry message with count n + 1 followed by the trail from n + 1. |
| DecreaseListeners.DeadStep | src/main/java/com/athenhub/stockservice/stock/infrastructure/rabbitmq/subcribe/stock/RabbitStockDecreaseEventListener.java:189-198 | At count 5 the trail is only the RETRY_EXCEEDED dead letter with count 5. |
| DecreaseListeners.ExpectedTrail | src/main/java/com/athenhub/stockservice/stock/infrastructure/rabbitmq/subcribe/stock/RabbitStockDecreaseEventListener.java:40 | Closed form from count n: 5 − n + 1 messages ending in the RETRY_EXCEEDED dead letter with count 5. |
| DecreaseListeners.ExpectedTrailStep | src/main/java/com/athenhub/stockservice/stock/infrastructure/rabbitmq/subcribe/stock/RabbitStockDecreaseEventListener.java:150-157 | Below 5, the closed form from n is the retry message with count n + 1 followed by the closed form from n + 1. |
| DecreaseListeners.ExpectedTrailEnd | src/main/java/com/athenhub/stockservice/stock/infrastructure/rabbitmq/subcribe/stock/RabbitStockDecreaseEventListener.java:189-198 | The closed form from 5 is the RETRY_EXCEEDED dead letter with count 5 alone. |
| DecreaseListeners.ExpectedTrailRetries | src/main/java/com/athenhub/stockservice/stock/infrastructure/rabbitmq/subcribe/stock/RabbitStockDecreaseEventListener.java:150-157 | In the closed form, the message at position i before the last is the retry message with count n + 1 + i. |
| DecreaseListeners.RetryTrailShape | src/main/java/com/athenhub/stockservice/stock/infrastructure/rabbitmq/subcribe/stock/RabbitStockDecreaseEventListener.java:143-158 | From any count 0 ≤ n ≤ 5, the listener's trail equals the closed form. |
| DecreaseListeners.FiveRetriesThenDeadLetter | src/main/java/com/athenhub/stockservice/stock/infrastructure/rabbitmq/subcribe/stock/RabbitStockDecreaseEventListener.java:143-158 | A payload that always fails generically from count 0 is republished with counts 1, 2, 3, 4, 5 and then dead-lettered as RETRY_EXCEEDED with count 5. |
| DecreaseListeners.ShortageRouting | src/main/java/com/athenhub/stockservice/stock/infrastructure/rabbitmq/subcribe/stock/RabbitStockDecreaseEventListener.java:63-85 | When the batch fails with the shortage exception, the listener's effects are the OUT_OF_STOCK dead letter with the unchanged count and then the ack if that exception is the insufficient-stock one. For any other class (such as IllegalStateException) below the limit they are the retry message with count retry + 1 and then the ack. |
| Common.Succ32IsWrapped | src/main/java/com/athenhub/stockservice/stock/infrastructure/rabbitmq/subcribe/stock/RabbitStockDecreaseEventListener.java:150 | The count the listener increments is Java's `retry + 1`: the two's-complement sum, so Integer.MAX_VALUE + 1 is Integer.MIN_VALUE. |
| DecreaseListeners.DecreaseListener.Listen | src/main/java/com/athenhub/stockservice/stock/infrastructure/rabbitmq/subcribe/stock/RabbitStockDecreaseEventListener.java:63-85 | The handler's store becomes the `BatchDecrease` result. The broker log grows by exactly the effects `ListenEffects` gives for that outcome and the header's count. |
| DeadLetterListeners.ReadErrorType | src/main/java/com/athenhub/stockservice/stock/infrastructure/rabbitmq/subcribe/stock/RabbitStockDecreasedDeadEventListener.java:51-53 | The header reads as null exactly when it is absent and as its text when it is a string. Any other value is a ClassCastException. |
| DeadLetterListeners.ErrorTypeRoundTrip | src/main/java/com/athenhub/stockservice/stock/infrastructure/rabbitmq/subcribe/stock/RetryManager.java:39-49 | A dead letter's error type reads back as the name it was written with, and a retry message carries none. |
| DeadLetterListeners.ProcessFailedMessage | src/main/java/com/athenhub/stockservice/stock/infrastructure/rabbitmq/subcribe/stock/RabbitStockDecreasedDeadEventListener.java:62-65 | The failure event goes to the order exchange with the process-failed key and no headers. |
| DeadLetterListeners.DeadLetterEffects | src/main/java/com/athenhub/stockservice/stock/infrastructure/rabbitmq/subcribe/stock/RabbitStockDecreasedDeadEventListener.java:51-68 | It produces effects exactly when the error-type header is readable, and then exactly one publish: a failure event for the dead letter's order. |
| DeadLetterListeners.DeadLetterNeverSettles | src/main/java/com/athenhub/stockservice/stock/infrastructure/rabbitmq/subcribe/stock/RabbitStockDecreasedDeadEventListener.java:51-68 | No ack or nack is ever issued. A readable header gives exactly one publish, for the dead letter's order, with the header's error code and the resolver's message. An unreadable one gives no effect. |
| DeadLetterListeners.OutOfStockReachesOrderService | src/main/java/com/athenhub/stockservice/stock/infrastructure/rabbitmq/subcribe/stock/RabbitStockDecreasedDeadEventListener.java:51-68 | The dead letter for an insufficient-stock failure becomes a failure event for the same order with code OUT_OF_STOCK. |
| DeadLetterListeners.RetryExceededReachesOrderService | src/main/java/com/athenhub/stockservice/stock/infrastructure/rabbitmq/subcribe/stock/RabbitStockDecreasedDeadEventListener.java:51-68 | The last message of an exhausted retry trail becomes a failure event for the same order with code RETRY_EXCEEDED. |
| DeadLetterListeners.DeadLetterListener.Listen | src/main/java/com/athenhub/stockservice/stock/infrastructure/rabbitmq/subcribe/stock/RabbitStockDecreasedDeadEventListener.java:51-68 | It passes exactly when the header is readable and then appends exactly `DeadLetterEffects`. Otherwise it throws and sends nothing. |
| OrderCreatedListeners.RequestOf | src/main/java/com/athenhub/stockservice/stock/infrastructure/rabbitmq/subcribe/order/OrderCreatedRabbitListener.java:69-81 | A request copies the line's product, variant and quantity and is stamped with the order time. |
| OrderCreatedListeners.MapRequests | src/main/java/com/athenhub/stockservice/stock/infrastructure/rabbitmq/subcribe/order/OrderCreatedRabbitListener.java:69-81 | There is one request per line, in order, exactly when no line is null. Otherwise the result is NullPointer. |
| OrderCreatedListeners.CreateBatchEvent | src/main/java/com/athenhub/stockservice/stock/infrastructure/rabbitmq/subcribe/order/OrderCreatedRabbitListener.java:69-81 | The batch carries the order id, the order time and one request per line in order, and is built exactly when no line is null. |
| OrderCreatedListeners.ForwardedBatchValidIff | src/main/java/com/athenhub/stockservice/stock/infrastructure/rabbitmq/subcribe/order/OrderCreatedRabbitListener.java:69-81 | The forwarded batch passes the decrement's @Min(1) validation exactly when every ordered quantity is at least 1. |
| OrderCreatedListeners.OrderListenEffects | src/main/java/com/athenhub/stockservice/stock/infrastructure/rabbitmq/subcribe/order/OrderCreatedRabbitListener.java:44-66 | It throws exactly when the product list is null. Otherwise there are exactly two effects, a publish and then a settlement, and a failed send ends in a nack. |
| OrderCreatedListeners.SettledExactlyOnce | src/main/java/com/athenhub/stockservice/stock/infrastructure/rabbitmq/subcribe/order/OrderCreatedRabbitListener.java:44-66 | A delivery with a product list gets exactly one publish and then exactly one settlement. It is acked, after the batch of the same order, exactly when every line is present and the send succeeded. Otherwise it is nacked without requeue after the process-failed event. A null list escapes with no effect. |
| OrderCreatedListeners.OrderCreatedListener.Listen | src/main/java/com/athenhub/stockservice/stock/infrastructure/rabbitmq/subcribe/order/OrderCreatedRabbitListener.java:44-66 | It passes exactly when the product list is present, and then appends exactly `OrderListenEffects`. A null list throws with nothing sent. |
| StockRegisteredEvents.ProductIds | src/main/java/com/athenhub/stockservice/stock/domain/event/external/StockRegisteredEvent.java:13-16 | The set holds exactly the product ids of the stocks. |
| StockRegisteredEvents.OneProductIdIff | src/main/java/com/athenhub/stockservice/stock/domain/event/external/StockRegisteredEvent.java:13-20 | There is exactly one distinct product id exactly when the list is non-empty and all stocks share one product, repeats allowed. |
| StockRegisteredEvents.From | src/main/java/com/athenhub/stockservice/stock/domain/event/external/StockRegisteredEvent.java:12-23 | It succeeds exactly when the stocks are of one product, carrying that product and the request time. Otherwise it is IllegalState. |
| StockRegisteredEvents.EmptyEventRefused | src/main/java/com/athenhub/stockservice/stock/domain/event/external/StockRegisteredEvent.java:18-20 | An event without stocks is refused. |
| RegisterStockServices.DistinctCountIff | src/main/java/com/athenhub/stockservice/stock/application/service/RegisterStockService.java:42-52 | The distinct count never exceeds the length, and equals it exactly when no variant id repeats. |
| RegisterStockServices.ConvertToStocks | src/main/java/com/athenhub/stockservice/stock/application/service/RegisterStockService.java:35-40 | There is one stock per variant, in order, with the command's product and the variant's id and quantity. This holds exactly when every quantity is at least 1; otherwise it is IllegalArgument. |
| RegisterStockServices.CreatedEventOf | src/main/java/com/athenhub/stockservice/stock/application/service/RegisterStockService.java:24-33 | The created event lists every saved stock in order with the request time. |
| RegisterStockServices.Registration | src/main/java/com/athenhub/stockservice/stock/application/service/RegisterStockService.java:24-52 | A refused call leaves the saved stocks and the events as they were and reports DUPLICATED_VARIANT or a non-positive initial quantity. A successful call answers with the command's product id, appends one stock per variant after those already saved and exactly one created event. |
| RegisterStockServices.RegisterEffects | src/main/java/com/athenhub/stockservice/stock/application/service/RegisterStockService.java:24-52 | Duplicated variants are refused with DUPLICATED_VARIANT, with nothing saved or raised. The call succeeds exactly when the variants are distinct and the quantities positive. It then appends one stock per variant in order and exactly one event listing them, and answers with the command's product id. |
| RegisterStockServices.RegisteredEventOfRegistration | src/main/java/com/athenhub/stockservice/stock/domain/event/external/StockRegisteredEvent.java:12-23 | The created event of a successful registration converts to the external event of the command's product at the request time. A registration of zero variants is refused by that conversion. |
| RegisterStockServices.RegisterStockService.Register | src/main/java/com/athenhub/stockservice/stock/application/service/RegisterStockService.java:24-33 | The response, the stock table and the raised events are those of `Registration` on the old state. |
| StockHistoryEventListeners.InboundHistoryOf | src/main/java/com/athenhub/stockservice/stock/application/listener/StockHistoryEventListener.java:72-85 | A created stock with a positive quantity gives a stock-in record with its ids and quantity. A non-positive one is refused. |
| StockHistoryEventListeners.ConvertToHistories | src/main/java/com/athenhub/stockservice/stock/application/listener/StockHistoryEventListener.java:72-85 | There is one stock-in record per created stock, in order, copying ids and quantity, exactly when every quantity is positive. |
| StockHistoryEventListeners.OutboundHistoryOf | src/main/java/com/athenhub/stockservice/stock/application/listener/StockHistoryEventListener.java:56-70 | A decreased stock with positive quantity q gives a stock-out record of −q with its ids. Zero and negative quantities are refused. Integer.MIN_VALUE is recorded as itself. |
| StockHistoryEventListeners.RegistrationHistories | src/main/java/com/athenhub/stockservice/stock/application/listener/StockHistoryEventListener.java:41-46 | Every stock a successful registration creates gets its stock-in record, in order, with a positive quantity. |
| StockHistoryEventListeners.StockHistoryEventListener.OnStockCreated | src/main/java/com/athenhub/stockservice/stock/application/listener/StockHistoryEventListener.java:41-46 | On success the converted records are appended with exactly one write. On refusal nothing is written. |
| StockHistoryEventListeners.StockHistoryEventListener.OnStockDecreased | src/main/java/com/athenhub/stockservice/stock/application/listener/StockHistoryEventListener.java:56-70 | On success exactly one stock-out record is appended with exactly one write. On refusal nothing is written. |
| MemberBelongsTo.BelongsTo | src/main/java/com/athenhub/stockservice/stock/infrastructure/client/member/MemberContextBelongsToValidator.java:37-58 | The member belongs exactly when it is a HUB member whose hub is the context's, or a VENDOR member whose vendor is the context's. A null type, or a missing context id of the member's kind, throws NullPointer. |
| MemberBelongsTo.NoOrganizationNeverBelongs | src/main/java/com/athenhub/stockservice/stock/infrastructure/client/member/MemberContextBelongsToValidator.java:49-58 | A member of no organisation never belongs. |
| MemberBelongsTo.NullOrganizationIdNeverBelongs | src/main/java/com/athenhub/stockservice/stock/infrastructure/client/member/MemberContextBelongsToValidator.java:44-58 | A member without an organisation id never belongs. |
| MemberBelongsTo.HubMemberIgnoresVendor | src/main/java/com/athenhub/stockservice/stock/infrastructure/client/member/MemberContextBelongsToValidator.java:44-58 | A hub member is judged by the hub id alone; the context's vendor id does not matter. |
| ProductAccessPermissions.CanAccessAsWritten | src/main/java/com/athenhub/stockservice/stock/infrastructure/client/product/DefaultProductAccessPermissionValidator.java:33-50 | As written: access is granted exactly when the hub ids are the same or the vendor ids are the same, where a missing id on both sides counts as the same. |
| ProductAccessPermissions.NullHubsGrantAccess | src/main/java/com/athenhub/stockservice/stock/infrastructure/client/product/DefaultProductAccessPermissionValidator.java:46-50 | As written, a requester without a hub may access a product without a hub that belongs to another vendor. |
| ProductAccessPermissions.CanAccess | src/main/java/com/athenhub/stockservice/stock/infrastructure/client/product/DefaultProductAccessPermissionValidator.java:33-50 | The corrected check of the second finding: access is granted exactly when the product is in the requester's hub or in the requester's vendor, either match sufficing. A missing id matches nothing. |
| ProductAccessPermissions.CorrectedIsStricter | src/main/java/com/athenhub/stockservice/stock/infrastructure/client/product/DefaultProductAccessPermissionValidator.java:46-50 | The corrected check grants nothing the written one refuses. They differ only when an id is missing on both sides, and agree whenever the requester has both ids. |
| VariantConsistency.ElementSet | src/main/java/com/athenhub/stockservice/stock/infrastructure/client/product/validator/DefaultProductVariantConsistencyValidator.java:48-56 | The set holds exactly the list's elements. |
| VariantConsistency.Matches | src/main/java/com/athenhub/stockservice/stock/infrastructure/client/product/validator/DefaultProductVariantConsistencyValidator.java:38-46 | A match holds exactly when the product's variant ids and the requested ids are the same set. |
| VariantConsistency.MatchIgnoresOrderAndRepetition | src/main/java/com/athenhub/stockservice/stock/infrastructure/client/product/validator/DefaultProductVariantConsistencyValidator.java:38-56 | A repeated or rotated request still matches. A request with an id the product lacks does not, and neither does one that misses a product variant. |
| FeignErrorDecoders.StatusErrorCode | src/main/java/com/athenhub/stockservice/stock/infrastructure/client/member/config/MemberFeignErrorDecoder.java:28-51 | 400 maps to BAD_REQUEST, 404 to NOT_FOUND, 401 and 403 to FORBIDDEN, and every other status to INTERNAL_SERVER_ERROR (each an iff). |
| FeignErrorDecoders.MemberDecode | src/main/java/com/athenhub/stockservice/stock/infrastructure/client/member/config/MemberFeignErrorDecoder.java:28-51 | Every status yields a member-client exception carrying the status's code. |
| FeignErrorDecoders.ProductDecode | src/main/java/com/athenhub/stockservice/stock/infrastructure/client/product/config/ProductFeignErrorDecoder.java:28-52 | Every status yields a product-client exception carrying the status's code. |
| FeignErrorDecoders.DecodersAgree | src/main/java/com/athenhub/stockservice/stock/infrastructure/client/product/config/ProductFeignErrorDecoder.java:28-52 | The map is total onto the four codes, both decoders give the same code for a status, and every 5xx is INTERNAL_SERVER_ERROR. |
| RegistrationFacades.MatchCommandOf | src/main/java/com/athenhub/stockservice/stock/application/service/StockRegistrationFacade.java:122-130 | The match command carries the command's product and its variant ids in order, duplicates kept. |
| RegistrationFacades.Guard | src/main/java/com/athenhub/stockservice/stock/application/service/StockRegistrationFacade.java:56-110 | A failed member lookup is returned as it is. A membership check that throws gives NullPointer. A member who does not belong is refused as REGISTER_NOT_ALLOWED before anything else is looked at. When no guard refuses, all three lookups succeeded. |
| RegistrationFacades.FacadeRegister | src/main/java/com/athenhub/stockservice/stock/application/service/StockRegistrationFacade.java:56-62 | A refusing guard's exception is returned with nothing changed. Otherwise the registration's result is returned unchanged. |
| RegistrationFacades.GuardOrder | src/main/java/com/athenhub/stockservice/stock/application/service/StockRegistrationFacade.java:56-93 | A non-member is refused for membership whatever the product service says. A member refused by the permission check as written is refused for permission whatever the variant list is. |
| RegistrationFacades.DelegatesIff | src/main/java/com/athenhub/stockservice/stock/application/service/StockRegistrationFacade.java:56-110 | Registration is delegated exactly when the member belongs, the permission check as written grants access (two missing ids count as equal), and the request names exactly the product's set of variants. |
| RegistrationFacades.NullHubVendorRegistersForeignProduct | src/main/java/com/athenhub/stockservice/stock/application/service/StockRegistrationFacade.java:87-93 | A VENDOR member of vendor 10 with no hub passes every guard for a product of vendor 20 with no hub, although the corrected check refuses that product. |
| RegistrationFacades.CompleteContextGuardIsCorrected | src/main/java/com/athenhub/stockservice/stock/application/service/StockRegistrationFacade.java:87-93 | When the requester has both a hub and a vendor id, a member who belongs is refused for permission exactly when the corrected check refuses the product. |
| RegistrationFacades.RepeatedVariantRefusedAfterGuards | src/main/java/com/athenhub/stockservice/stock/application/service/StockRegistrationFacade.java:56-62 | A command that repeats a product's variant passes all guards and is then refused as DUPLICATED_VARIANT with nothing saved. |
| RegistrationFacades.StockRegistrationFacade.Register | src/main/java/com/athenhub/stockservice/stock/application/service/StockRegistrationFacade.java:56-62 | The result and the service's new state are those of `FacadeRegister` on the old state. |

## Left out

- **Optimistic locking.** The `@Version` column is not modelled. Concurrent workers and replicas
  are not modelled either: a single caller runs at a time, so OptimisticLockConflict never
  arises (it would take the generic retry path).
- **Parameters instead of the world.** These enter as parameters:
  - generated ids (`StockId.create()`, the stock ids of a registration);
  - clock readings (`LocalDateTime.now()`, `requestAt`);
  - the message resolver (an uninterpreted function);
  - the broker publish failing in the order-created listener (`sendFails`).

  History ids and the success and failure events' timestamps are not modelled.
- **Remote services.** The Feign clients (`getMyInfo`, `getProduct`, the variant list) are
  values given to the facade. Each check therefore reads exactly one answer. The claim "exactly
  one lookup per call" is not stated beyond that. The permission check and the variant check
  each call the product service; their answers are separate inputs.
- **Broker and channel exceptions.** These are not modelled:
  - an `IOException` from ack or nack;
  - a publish failure inside a catch block of the decrease listener;
  - a publish failure in the dead-letter listener.

  Every broker call is assumed to succeed, except the order-created listener's batch publish.
- **Null request fields.** Bean-validated `@NotNull` fields of a request are not modelled, and
  neither is a null request list in the batch event. Only `@Min(1)` on the quantity is modelled.
- **JPA flush timing.**
  - The unique constraint is checked on the whole history insert, as one step.
  - The success event is modelled as part of the transaction, so a refused insert also discards
    it.
  - When in the transaction the publisher's message leaves is not modelled.
- **Missing source.** These are not part of this model; the validated constructors stand in
  where they are called:
  - `Stock.create`;
  - `StockHistory.create`;
  - `StockDecreasedEvent.from(stock)`;
  - `StockRepository.findByProductIdAndVariantId`;
  - the list form of `StockCreatedEvent.from`.
- **Stocks as values.**
  - Stock entities inside the repositories are values kept in a map keyed by variant id, so
    entity aliasing is not modelled.
  - The registration path keeps its own list of saved stocks, separate from the decrement
    path's map.
  - Only `Stock` itself is an object whose quantity changes in place.
- DecreaseListeners.Classify: the retry branch is stated as an if-and-only-if only below
  Integer.MAX_VALUE. At Integer.MAX_VALUE, `retry + 1` wraps to Integer.MIN_VALUE and the
  message is retried, as in the code. The contract says only that a retried count is below 5 or
  is Integer.MAX_VALUE.
- LegacyDecreaseHandlers.DecreasedEventOf: the event carries the quantity after the decrease.
  The factory that builds it is not part of this model, so this choice cannot be confirmed.
- RetryManagers.FirstDeliveryCountsZero: it states that a delivery without the header reads as
  0. `DecreaseListeners.FiveRetriesThenDeadLetter` starts its trail at count 0 rather than from
  a header map.
- **StockEventType.signed.** Cancel and return records keep `+q`. The enum gives no rule for
  them, and the constructor accepts a positive quantity for both.

## Findings

| source | as written | input that shows it | evidently intended | confidence | as-written member | corrected member |
|---|---|---|---|---|---|---|
| src/main/java/com/athenhub/stockservice/product/domain/Stock.java:153-155 | `quantity += amount` on an `int`, with only `amount > 0` checked | quantity = 2147483647, amount = 1 gives quantity −2147483648 | an increase never makes the stock negative (refuse the overflow, as `Math.addExact` would) | not executed | Stocks.IncreaseAsWritten, shown by Stocks.IncreaseAsWrittenOverflows | Stocks.ApplyIncrease |
| src/main/java/com/athenhub/stockservice/stock/infrastructure/client/product/DefaultProductAccessPermissionValidator.java:46-50 | `Objects.equals` on hub ids or on vendor ids, where two nulls are equal | context (hub null, vendor 10), product (hub null, vendor 20) grants access | access only through a hub or vendor both sides actually have | not executed | ProductAccessPermissions.CanAccessAsWritten, shown by ProductAccessPermissions.NullHubsGrantAccess and RegistrationFacades.NullHubVendorRegistersForeignProduct | ProductAccessPermissions.CanAccess |
