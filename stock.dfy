/** The stock entity of product/domain/Stock.java: one quantity counter per (product, variant),
    changed only through `increase` and `decrease`. */
module Stocks {
  import opened Common

  /** What a stock row holds, as a value: the snapshot the repositories store. */
  datatype StockRow = StockRow(id: Uuid, productId: Uuid, variantId: Uuid, quantity: int32)

  /** The registration request of product/domain/dto/RegisterRequest.java. */
  datatype RegisterRequest = RegisterRequest(productId: Option<Uuid>, variantId: Option<Uuid>, quantity: int32)

  // ---------------------------------------------------------------------------------------------
  // The rules of increase and decrease, on the quantity alone.

  /** `increase(amount)` exactly as written: the guard, then `quantity += amount` in 32-bit
      arithmetic, which wraps past Integer.MAX_VALUE. */
  function IncreaseAsWritten(quantity: int32, amount: int32): (r: Result<int32>)
    ensures amount <= 0 ==> r == Err(IllegalArgument(IncreaseNotPositive))
    ensures amount >= 1 ==> r.Ok? && (r.value - quantity - amount) % 0x1_0000_0000 == 0
  {
    if amount <= 0 then Err(IllegalArgument(IncreaseNotPositive))
    else Ok(Wrap32(quantity + amount))
  }

  /** The as-written increase makes a full stock negative: Integer.MAX_VALUE units plus one more
      becomes Integer.MIN_VALUE. */
  lemma IncreaseAsWrittenOverflows()
    ensures IncreaseAsWritten(INT_MAX, 1) == Ok(INT_MIN)
    ensures IncreaseAsWritten(INT_MAX, 1).value < 0
  {
  }

  /** `increase(amount)` as evidently intended: a non-positive amount is refused, and so is an
      amount that would carry the quantity past Integer.MAX_VALUE (as Math.addExact would);
      otherwise the quantity grows by exactly `amount`. */
  function ApplyIncrease(quantity: int32, amount: int32): (r: Result<int32>)
    ensures r.Ok? <==> amount >= 1 && quantity + amount <= INT_MAX
    ensures amount <= 0 ==> r == Err(IllegalArgument(IncreaseNotPositive))
    ensures amount >= 1 && quantity + amount > INT_MAX ==> r == Err(Arithmetic)
    ensures r.Ok? ==> r.value == quantity + amount && r.value > quantity
  {
    if amount <= 0 then Err(IllegalArgument(IncreaseNotPositive))
    else if quantity + amount > INT_MAX then Err(Arithmetic)
    else Ok(quantity + amount)
  }

  /** Wherever the corrected increase succeeds, it agrees with the code as written. */
  lemma IncreaseAgreesWithAsWritten(quantity: int32, amount: int32)
    requires ApplyIncrease(quantity, amount).Ok?
    ensures IncreaseAsWritten(quantity, amount) == ApplyIncrease(quantity, amount)
  {
  }

  /** `decrease(amount)`: the amount is checked before availability; a shortage is an
      IllegalStateException; otherwise the quantity drops by exactly `amount`. */
  function ApplyDecrease(quantity: int32, amount: int32): (r: Result<int32>)
    ensures r.Ok? <==> 1 <= amount <= quantity
    ensures amount <= 0 ==> r == Err(IllegalArgument(DecreaseNotPositive))
    ensures 1 <= amount && quantity < amount ==> r == Err(IllegalState(InsufficientQuantity))
    ensures r.Ok? ==> r.value == quantity - amount && 0 <= r.value < quantity
  {
    if amount <= 0 then Err(IllegalArgument(DecreaseNotPositive))
    else if quantity < amount then Err(IllegalState(InsufficientQuantity))
    else Ok(quantity - amount)
  }

  /** Increasing by `amount` and then decreasing by the same amount restores the quantity. */
  lemma IncreaseThenDecreaseRestores(quantity: int32, amount: int32)
    requires quantity >= 0 && ApplyIncrease(quantity, amount).Ok?
    ensures ApplyDecrease(ApplyIncrease(quantity, amount).value, amount) == Ok(quantity)
  {
  }

  /** One call of `increase` or `decrease` on a stock. */
  datatype StockOp = Increase(amount: int32) | Decrease(amount: int32)

  /** The quantity after a sequence of calls under the corrected increase; a call that throws
      leaves the quantity as it was. Decreases alone never raise the quantity. */
  function ApplyAll(quantity: int32, ops: seq<StockOp>): (r: int32)
    ensures (forall i :: 0 <= i < |ops| ==> ops[i].Decrease?) ==> r <= quantity
    decreases |ops|
  {
    if ops == [] then quantity
    else
      var r := match ops[0]
               case Increase(a) => ApplyIncrease(quantity, a)
               case Decrease(a) => ApplyDecrease(quantity, a);
      ApplyAll(if r.Ok? then r.value else quantity, ops[1..])
  }

  /** Under the corrected increase, a stock that starts non-negative stays non-negative through
      any sequence of increases and decreases, whether or not each call succeeds. (The increase
      as written breaks this: IncreaseAsWrittenOverflows.) */
  lemma {:induction false} NeverNegative(quantity: int32, ops: seq<StockOp>)
    requires quantity >= 0
    ensures ApplyAll(quantity, ops) >= 0
    decreases |ops|
  {
    if ops != [] {
      var r := match ops[0]
               case Increase(a) => ApplyIncrease(quantity, a)
               case Decrease(a) => ApplyDecrease(quantity, a);
      var next := if r.Ok? then r.value else quantity;
      assert next >= 0;
      NeverNegative(next, ops[1..]);
    }
  }

  // ---------------------------------------------------------------------------------------------
  // Creation.

  /** The private constructor: the initial quantity is validated first, then the two ids must be
      non-null. `id` is the value StockId.create() generates. */
  function ValidateNewStock(id: Uuid, quantity: int32, productId: Option<Uuid>, variantId: Option<Uuid>)
    : (r: Result<StockRow>)
    ensures r.Ok? <==> quantity >= 1 && productId.Some? && variantId.Some?
    ensures quantity <= 0 ==> r == Err(IllegalArgument(InitialQuantityNotPositive))
    ensures quantity >= 1 && (productId.None? || variantId.None?) ==> r == Err(NullPointer)
    ensures r.Ok? ==> r.value == StockRow(id, productId.value, variantId.value, quantity)
  {
    if quantity <= 0 then Err(IllegalArgument(InitialQuantityNotPositive))
    else if productId.None? || variantId.None? then Err(NullPointer)
    else Ok(StockRow(id, productId.value, variantId.value, quantity))
  }

  /** `Stock.of`: membership is checked, then product permission (both REGISTER_NOT_ALLOWED);
      then the constructor's arguments are evaluated, so a null product or variant id is
      reported before a non-positive quantity. `belongsTo` and `canAccess` are the answers of the
      two validators. */
  function ValidateOf(id: Uuid, request: RegisterRequest, belongsTo: bool, canAccess: bool)
    : (r: Result<StockRow>)
    ensures !belongsTo ==> r == Err(StockDomain(RegisterNotAllowed, NotInOrganization))
    ensures belongsTo && !canAccess ==> r == Err(StockDomain(RegisterNotAllowed, NoProductPermission))
    ensures belongsTo && canAccess && (request.productId.None? || request.variantId.None?)
            ==> r == Err(NullPointer)
    ensures r.Ok? <==> belongsTo && canAccess && request.productId.Some? && request.variantId.Some?
                       && request.quantity >= 1
    ensures r.Ok? ==> r.value == StockRow(id, request.productId.value, request.variantId.value, request.quantity)
  {
    if !belongsTo then Err(StockDomain(RegisterNotAllowed, NotInOrganization))
    else if !canAccess then Err(StockDomain(RegisterNotAllowed, NoProductPermission))
    else if request.productId.None? || request.variantId.None? then Err(NullPointer)
    else ValidateNewStock(id, request.quantity, request.productId, request.variantId)
  }

  /** A stock entity. Its ids never change after construction; `quantity` is changed in place. */
  class Stock {
    const id: Uuid
    const productId: Uuid
    const variantId: Uuid
    var quantity: int32

    /** The stock as a value. */
    function Row(): (row: StockRow)
      reads this
      ensures row.id == id && row.productId == productId && row.variantId == variantId
      ensures row.quantity == quantity
    {
      StockRow(id, productId, variantId, quantity)
    }

    /** Builds the entity from an already validated row. */
    constructor FromRow(row: StockRow)
      ensures Row() == row
    {
      id, productId, variantId := row.id, row.productId, row.variantId;
      quantity := row.quantity;
    }

    /** `increase(amount)` as the entity does it: a non-positive amount throws and leaves the
        quantity unchanged; otherwise the quantity grows by `amount` in 32-bit arithmetic, so
        it is exact while the sum fits and wraps past Integer.MAX_VALUE. */
    method Increase(amount: int32) returns (r: Outcome)
      modifies this
      ensures r.Pass? <==> amount >= 1
      ensures r.Fail? ==> r.error == IllegalArgument(IncreaseNotPositive) && quantity == old(quantity)
      ensures r.Pass? ==> quantity == IncreaseAsWritten(old(quantity), amount).value
      ensures r.Pass? && old(quantity) + amount <= INT_MAX ==> quantity == old(quantity) + amount
    {
      var next := IncreaseAsWritten(quantity, amount);
      if next.Err? {
        return Fail(next.error);
      }
      quantity := next.value;
      r := Pass;
    }

    /** `decrease(amount)`: the quantity drops by `amount`, or the call throws and the quantity
        is unchanged; it never becomes negative. */
    method Decrease(amount: int32) returns (r: Outcome)
      modifies this
      ensures r.Pass? <==> 1 <= amount <= old(quantity)
      ensures r.Fail? ==> r.error == ApplyDecrease(old(quantity), amount).error && quantity == old(quantity)
      ensures r.Pass? ==> quantity == old(quantity) - amount && quantity >= 0
    {
      var next := ApplyDecrease(quantity, amount);
      if next.Err? {
        return Fail(next.error);
      }
      quantity := next.value;
      r := Pass;
    }
  }

  /** `Stock.of`: creates the entity when every check passes. */
  method Of(id: Uuid, request: RegisterRequest, belongsTo: bool, canAccess: bool) returns (r: Result<Stock>)
    ensures r.Ok? <==> ValidateOf(id, request, belongsTo, canAccess).Ok?
    ensures r.Err? ==> r.error == ValidateOf(id, request, belongsTo, canAccess).error
    ensures r.Ok? ==> fresh(r.value) && r.value.Row() == ValidateOf(id, request, belongsTo, canAccess).value
  {
    var row := ValidateOf(id, request, belongsTo, canAccess);
    if row.Err? {
      return Err(row.error);
    }
    var stock := new Stock.FromRow(row.value);
    r := Ok(stock);
  }

  /** A client: a freshly created stock, increased and then decreased by the same amount, holds
      its initial quantity again and keeps its ids. */
  method IncreaseDecreaseRoundTrip(id: Uuid, request: RegisterRequest, amount: int32)
    returns (restored: bool)
    requires request.productId.Some? && request.variantId.Some? && request.quantity >= 1
    requires amount >= 1 && request.quantity + amount <= INT_MAX
    ensures restored
  {
    var made := Of(id, request, true, true);
    var stock := made.value;
    var inc := stock.Increase(amount);
    var dec := stock.Decrease(amount);
    restored := inc.Pass? && dec.Pass? && stock.quantity == request.quantity
                && stock.Row() == StockRow(id, request.productId.value, request.variantId.value, request.quantity);
  }
}
