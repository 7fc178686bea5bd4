/** Types shared by the whole stock-service model: optional and failing results,
    identifiers, Java's 32-bit `int`, and the exceptions the service raises. */
module Common {

  /** A Java reference that may be null. */
  datatype Option<+T> = None | Some(value: T)

  /** A value or the exception that was thrown instead. */
  datatype Result<+T> = Ok(value: T) | Err(error: Exception)

  /** A `void` call: it returns normally or throws. */
  datatype Outcome = Pass | Fail(error: Exception)

  /** UUIDs (order, product, variant, stock, member, hub and vendor ids) are opaque. */
  type Uuid = nat

  /** A `LocalDateTime`, only ever copied from one record to another. */
  type Timestamp = int

  /** AccessContext: who is asking, with the hub and vendor they act for (either may be null). */
  datatype AccessContext = AccessContext(memberId: Uuid, hubId: Option<Uuid>, vendorId: Option<Uuid>)

  const INT_MIN: int := -0x8000_0000
  const INT_MAX: int := 0x7fff_ffff

  /** Java's `int`. */
  type int32 = x: int | INT_MIN <= x <= INT_MAX

  /** The `int` Java's two's-complement arithmetic produces for the mathematical value `x`:
      `x` moved by whole multiples of 2^32 into the int range. */
  function Wrap32(x: int): (r: int32)
    ensures INT_MIN <= x <= INT_MAX ==> r == x
    ensures x == INT_MAX + 1 ==> r == INT_MIN
    ensures x == INT_MIN - 1 ==> r == INT_MAX
    decreases if x > INT_MAX then x - INT_MAX else if x < INT_MIN then INT_MIN - x else 0
  {
    if x > INT_MAX then Wrap32(x - 0x1_0000_0000)
    else if x < INT_MIN then Wrap32(x + 0x1_0000_0000)
    else x
  }

  /** Java's `x + 1` on an `int`: Integer.MAX_VALUE + 1 is Integer.MIN_VALUE. */
  function Succ32(x: int32): int32
  {
    if x == INT_MAX then INT_MIN else x + 1
  }

  /** The successor is the two's-complement sum. */
  lemma Succ32IsWrapped(x: int32)
    ensures Succ32(x) == Wrap32(x + 1)
  {
  }

  /** Why an IllegalArgumentException / IllegalStateException / domain exception was raised
      (the source distinguishes the cases only by message text). */
  datatype Reason =
    | InitialQuantityNotPositive
    | IncreaseNotPositive
    | DecreaseNotPositive
    | InsufficientQuantity
    | ZeroQuantity
    | InboundNegative
    | CancelNegative
    | OutboundPositive
    | InboundReturnCancelNegative
    | NotSingleProduct
    | NotInOrganization
    | NoProductPermission
    | VariantsMismatch
    | Unspecified

  /** The error codes of ApplicationErrorCode, PermissionErrorCode and GlobalErrorCode. */
  datatype ErrorCode =
    | RegisterNotAllowed
    | DuplicatedVariant
    | StockDecreaseConflict
    | BadRequest
    | NotFound
    | Forbidden
    | InternalServerError

  /** The exception classes that matter to the callers in this model. */
  datatype Exception =
    | IllegalArgument(reason: Reason)
    | IllegalState(reason: Reason)
    | NullPointer
    | NoSuchElement                          // Optional.orElseThrow() on an empty result
    | ClassCast
    | Arithmetic                             // int overflow detected (Math.addExact)
    | ConstraintViolation                    // bean validation of a @Validated method argument
    | DataIntegrityViolation                 // a database unique constraint
    | OptimisticLockConflict                 // a stale @Version at commit
    | InsufficientStock
    | StockDomain(code: ErrorCode, reason: Reason)
    | StockApplication(code: ErrorCode, reason: Reason)
    | MemberFeign(code: ErrorCode)
    | ProductFeign(code: ErrorCode)
    | Amqp                                   // the broker refused or lost a publish

  /** Objects.requireNonNull. */
  function RequireNonNull<T>(x: Option<T>): (r: Result<T>)
    ensures r.Ok? <==> x.Some?
    ensures r.Ok? ==> r.value == x.value
    ensures r.Err? ==> r.error == NullPointer
  {
    match x
    case Some(v) => Ok(v)
    case None => Err(NullPointer)
  }
}
