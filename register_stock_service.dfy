/** RegisterStockService: registers the initial stock of every variant of one product in one
    transaction: refuse duplicated variants, build one stock per variant, save them all, raise
    one StockCreatedEvent. */
module RegisterStockServices {
  import opened Common
  import opened Stocks
  import opened StockEvents
  import opened StockRegisteredEvents

  /** One variant line of the command. */
  datatype ProductVariant = ProductVariant(id: Uuid, quantity: int32)

  /** StockInitializeCommand. */
  datatype StockInitializeCommand = StockInitializeCommand(productId: Uuid, productVariants: seq<ProductVariant>)

  /** RegisterResponse; the service fills it with the command's product id. */
  datatype RegisterResponse = RegisterResponse(stockId: Uuid)

  /** The variant ids of the command, in order, duplicates kept. */
  function VariantIds(variants: seq<ProductVariant>): (ids: seq<Uuid>)
    ensures |ids| == |variants| && forall i :: 0 <= i < |variants| ==> ids[i] == variants[i].id
  {
    seq(|variants|, i requires 0 <= i < |variants| => variants[i].id)
  }

  /** `.distinct().count()`: how many different ids the list holds. */
  function DistinctCount(ids: seq<Uuid>): nat
  {
    |set i | 0 <= i < |ids| :: ids[i]|
  }

  /** No id occurs twice. */
  predicate PairwiseDistinct(ids: seq<Uuid>)
  {
    forall i, j :: 0 <= i < j < |ids| ==> ids[i] != ids[j]
  }

  /** The set of a list's elements, built from the front. */
  lemma {:induction false} ElementsOfCons(ids: seq<Uuid>)
    requires ids != []
    ensures (set i | 0 <= i < |ids| :: ids[i]) == {ids[0]} + (set i | 0 <= i < |ids[1..]| :: ids[1..][i])
  {
    var all := set i | 0 <= i < |ids| :: ids[i];
    var rest := set i | 0 <= i < |ids[1..]| :: ids[1..][i];
    forall x | x in all
      ensures x in {ids[0]} + rest
    {
      var i :| 0 <= i < |ids| && ids[i] == x;
      if i > 0 {
        assert ids[1..][i - 1] == x;
      }
    }
    forall x | x in rest
      ensures x in all
    {
      var i :| 0 <= i < |ids[1..]| && ids[1..][i] == x;
      assert ids[i + 1] == x;
    }
  }

  /** The distinct count never exceeds the length, and equals it exactly when no id repeats:
      the uniqueness check passes precisely for lists without duplicates. */
  lemma {:induction false} DistinctCountIff(ids: seq<Uuid>)
    ensures DistinctCount(ids) <= |ids|
    ensures DistinctCount(ids) == |ids| <==> PairwiseDistinct(ids)
    decreases |ids|
  {
    if ids != [] {
      var rest := ids[1..];
      ElementsOfCons(ids);
      DistinctCountIff(rest);
      var restSet := set i | 0 <= i < |rest| :: rest[i];
      if ids[0] in restSet {
        assert {ids[0]} + restSet == restSet;
        var j :| 0 <= j < |rest| && rest[j] == ids[0];
        assert ids[0] == ids[j + 1];
      } else {
        assert |{ids[0]} + restSet| == 1 + |restSet|;
        if PairwiseDistinct(rest) {
          forall i, j | 0 <= i < j < |ids|
            ensures ids[i] != ids[j]
          {
            if i == 0 {
              assert rest[j - 1] in restSet;
            } else {
              assert rest[i - 1] != rest[j - 1];
            }
          }
        } else {
          var i, j :| 0 <= i < j < |rest| && rest[i] == rest[j];
          assert ids[i + 1] == ids[j + 1];
        }
      }
    }
  }

  /** `convertToStocks`: one stock per variant, in order, built by the stock factory from the
      command's product id and the variant's id and quantity; the first variant the factory
      refuses aborts the conversion. `ids` are the ids the factory generates. */
  function ConvertToStocks(productId: Uuid, variants: seq<ProductVariant>, ids: seq<Uuid>)
    : (r: Result<seq<StockRow>>)
    requires |ids| == |variants|
    ensures r.Ok? <==> forall i :: 0 <= i < |variants| ==> variants[i].quantity >= 1
    ensures r.Err? ==> r.error == IllegalArgument(InitialQuantityNotPositive)
    ensures r.Ok? ==> |r.value| == |variants|
                      && forall i :: 0 <= i < |variants| ==>
                           r.value[i] == StockRow(ids[i], productId, variants[i].id, variants[i].quantity)
    decreases |variants|
  {
    if variants == [] then Ok([])
    else
      var first := ValidateNewStock(ids[0], variants[0].quantity, Some(productId), Some(variants[0].id));
      if first.Err? then Err(first.error)
      else
        var rest := ConvertToStocks(productId, variants[1..], ids[1..]);
        if rest.Err? then rest
        else
          assert forall i :: 1 <= i < |variants| ==> variants[i] == variants[1..][i - 1];
          Ok([first.value] + rest.value)
  }

  /** `StockCreatedEvent.from(stocks)`: every created stock, in order, with the request time. */
  function CreatedEventOf(stocks: seq<StockRow>, requestAt: Timestamp): (e: StockCreatedEvent)
    ensures |e.stocks| == |stocks| && e.requestAt == requestAt
    ensures forall i :: 0 <= i < |stocks| ==>
              e.stocks[i] == StockInfo(stocks[i].id, stocks[i].productId, stocks[i].variantId, stocks[i].quantity)
  {
    StockCreatedEvent(seq(|stocks|, i requires 0 <= i < |stocks| =>
                            StockInfo(stocks[i].id, stocks[i].productId, stocks[i].variantId, stocks[i].quantity)),
                      requestAt)
  }

  /** The response, the stock table and the raised events after one call. */
  datatype RegisterReply = RegisterReply(result: Result<RegisterResponse>, saved: seq<StockRow>,
                                         events: seq<StockCreatedEvent>)

  /** `register(command)` on values; a refused call leaves table and events as they were (the
      class is @Transactional). `ids` are the generated stock ids, `requestAt` the clock. */
  function Registration(saved: seq<StockRow>, events: seq<StockCreatedEvent>, command: StockInitializeCommand,
                        ids: seq<Uuid>, requestAt: Timestamp): (r: RegisterReply)
    requires |ids| == |command.productVariants|
    ensures r.result.Err? ==> r.saved == saved && r.events == events
    ensures r.result.Err? ==> r.result.error in {StockApplication(DuplicatedVariant, Unspecified),
                                                 IllegalArgument(InitialQuantityNotPositive)}
    ensures r.result.Ok? ==> && r.result.value == RegisterResponse(command.productId)
                             && |r.saved| == |saved| + |command.productVariants| && r.saved[..|saved|] == saved
                             && |r.events| == |events| + 1 && r.events[..|events|] == events
  {
    if DistinctCount(VariantIds(command.productVariants)) != |command.productVariants| then
      RegisterReply(Err(StockApplication(DuplicatedVariant, Unspecified)), saved, events)
    else
      var stocks := ConvertToStocks(command.productId, command.productVariants, ids);
      if stocks.Err? then RegisterReply(Err(stocks.error), saved, events)
      else RegisterReply(Ok(RegisterResponse(command.productId)), saved + stocks.value,
                         events + [CreatedEventOf(stocks.value, requestAt)])
  }

  /** What a call does: duplicated variant ids are refused first, then a non-positive initial
      quantity; a successful call appends one stock per variant (the command's product, the
      variant's id and quantity, in order) and exactly one event listing them, and answers with
      the command's product id. */
  lemma RegisterEffects(saved: seq<StockRow>, events: seq<StockCreatedEvent>, command: StockInitializeCommand,
                        ids: seq<Uuid>, requestAt: Timestamp)
    requires |ids| == |command.productVariants|
    ensures var r := Registration(saved, events, command, ids, requestAt);
            var vs := command.productVariants;
            && (!PairwiseDistinct(VariantIds(vs)) ==>
                  r == RegisterReply(Err(StockApplication(DuplicatedVariant, Unspecified)), saved, events))
            && (r.result.Ok? <==> PairwiseDistinct(VariantIds(vs)) && forall i :: 0 <= i < |vs| ==> vs[i].quantity >= 1)
            && (r.result.Err? ==> r.saved == saved && r.events == events)
            && (r.result.Ok? ==>
                  && r.result.value == RegisterResponse(command.productId)
                  && |r.saved| == |saved| + |vs| && r.saved[..|saved|] == saved
                  && (forall i :: 0 <= i < |vs| ==>
                        r.saved[|saved| + i] == StockRow(ids[i], command.productId, vs[i].id, vs[i].quantity))
                  && r.events == events + [CreatedEventOf(r.saved[|saved|..], requestAt)])
  {
    DistinctCountIff(VariantIds(command.productVariants));
    var r := Registration(saved, events, command, ids, requestAt);
    if r.result.Ok? {
      var stocks := ConvertToStocks(command.productId, command.productVariants, ids).value;
      assert r.saved[|saved|..] == stocks;
    }
  }

  /** The created event of a successful registration of at least one variant converts to the
      external StockRegisteredEvent of the command's product at the request time; one of zero
      variants is refused by that conversion. */
  lemma RegisteredEventOfRegistration(saved: seq<StockRow>, events: seq<StockCreatedEvent>,
                                      command: StockInitializeCommand, ids: seq<Uuid>, requestAt: Timestamp)
    requires |ids| == |command.productVariants|
    requires Registration(saved, events, command, ids, requestAt).result.Ok?
    ensures var created := Registration(saved, events, command, ids, requestAt).events[|events|];
            && (command.productVariants != [] ==> From(created) == Ok(StockRegisteredEvent(command.productId, requestAt)))
            && (command.productVariants == [] ==> From(created) == Err(IllegalState(NotSingleProduct)))
  {
    RegisterEffects(saved, events, command, ids, requestAt);
    var r := Registration(saved, events, command, ids, requestAt);
    var created := r.events[|events|];
    assert created == CreatedEventOf(r.saved[|saved|..], requestAt);
    if command.productVariants != [] {
      assert created.stocks[0].productId == command.productId;
      assert SingleProduct(created.stocks);
    }
  }

  /** The service with its stock repository and the internal events it raised. */
  class RegisterStockService {
    var saved: seq<StockRow>
    var events: seq<StockCreatedEvent>

    constructor (saved: seq<StockRow>)
      ensures this.saved == saved && events == []
    {
      this.saved := saved;
      events := [];
    }

    /** `register(command)`: check, convert, `saveAll`, then trigger the event. */
    method Register(command: StockInitializeCommand, ids: seq<Uuid>, requestAt: Timestamp)
      returns (r: Result<RegisterResponse>)
      requires |ids| == |command.productVariants|
      modifies this
      ensures RegisterReply(r, saved, events) == Registration(old(saved), old(events), command, ids, requestAt)
    {
      if DistinctCount(VariantIds(command.productVariants)) != |command.productVariants| {
        return Err(StockApplication(DuplicatedVariant, Unspecified));
      }
      var stocks := ConvertToStocks(command.productId, command.productVariants, ids);
      if stocks.Err? {
        return Err(stocks.error);
      }
      saved := saved + stocks.value;
      events := events + [CreatedEventOf(stocks.value, requestAt)];
      r := Ok(RegisterResponse(command.productId));
    }
  }
}
