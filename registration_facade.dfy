/** StockRegistrationFacade: the three registration guards (membership, product permission,
    variant consistency), in that order, before the registration itself. The answers of the
    member and product services are inputs: either the record the check reads, or the exception
    the Feign error decoder made of the failed call. */
module RegistrationFacades {
  import opened Common
  import opened Stocks
  import opened StockEvents
  import opened MemberBelongsTo
  import opened ProductAccessPermissions
  import opened VariantConsistency
  import opened RegisterStockServices

  /** `convertToProductVariantMatchCommand`: the command's product and its variant ids, in
      order, duplicates kept. */
  function MatchCommandOf(command: StockInitializeCommand): (m: MatchCommand)
    ensures m.productId == command.productId
    ensures |m.variantIds| == |command.productVariants|
    ensures forall i :: 0 <= i < |m.variantIds| ==> m.variantIds[i] == command.productVariants[i].id
  {
    MatchCommand(command.productId, VariantIds(command.productVariants))
  }

  /** The answers the three checks get from the member and product services. */
  datatype Lookups = Lookups(member: Result<MemberInfo>, owner: Result<ProductOwner>, variants: Result<seq<Uuid>>)

  /** The first guard that refuses, as the exception it raises; None when all three pass. A
      remote failure or an exception inside a check propagates as it is; a negative answer is
      REGISTER_NOT_ALLOWED with the check's reason. The permission guard is the validator as
      written, under which two missing ids are equal. */
  function Guard(context: AccessContext, command: StockInitializeCommand, lookups: Lookups): (r: Option<Exception>)
    ensures lookups.member.Err? ==> r == Some(lookups.member.error)
    ensures lookups.member.Ok? && BelongsTo(context, lookups.member.value).Err? ==> r == Some(NullPointer)
    ensures lookups.member.Ok? && BelongsTo(context, lookups.member.value) == Ok(false) ==>
              r == Some(StockApplication(RegisterNotAllowed, NotInOrganization))
    ensures r.None? ==> lookups.member.Ok? && lookups.owner.Ok? && lookups.variants.Ok?
  {
    if lookups.member.Err? then Some(lookups.member.error)
    else
      var belongs := BelongsTo(context, lookups.member.value);
      if belongs.Err? then Some(belongs.error)
      else if !belongs.value then Some(StockApplication(RegisterNotAllowed, NotInOrganization))
      else if lookups.owner.Err? then Some(lookups.owner.error)
      else if !CanAccessAsWritten(context, lookups.owner.value) then Some(StockApplication(RegisterNotAllowed, NoProductPermission))
      else if lookups.variants.Err? then Some(lookups.variants.error)
      else if !Matches(lookups.variants.value, MatchCommandOf(command)) then
        Some(StockApplication(RegisterNotAllowed, VariantsMismatch))
      else None
  }

  /** `register(accessContext, command)`: guards, then delegation to the registration service,
      whose reply is returned as it is. */
  function FacadeRegister(context: AccessContext, command: StockInitializeCommand, lookups: Lookups,
                          saved: seq<StockRow>, events: seq<StockCreatedEvent>, ids: seq<Uuid>, requestAt: Timestamp)
    : (r: RegisterReply)
    requires |ids| == |command.productVariants|
    ensures Guard(context, command, lookups).Some? ==>
              r == RegisterReply(Err(Guard(context, command, lookups).value), saved, events)
    ensures Guard(context, command, lookups).None? ==> r == Registration(saved, events, command, ids, requestAt)
  {
    var refused := Guard(context, command, lookups);
    if refused.Some? then RegisterReply(Err(refused.value), saved, events)
    else Registration(saved, events, command, ids, requestAt)
  }

  /** The guards run in order and the first refusal wins: a requester who does not belong is
      refused for that reason whatever the product service says; one who belongs but may not
      access the product is refused for that reason whatever the variant list is. */
  lemma GuardOrder(context: AccessContext, command: StockInitializeCommand, a: Lookups, b: Lookups)
    requires a.member == b.member
    ensures a.member.Ok? && BelongsTo(context, a.member.value) == Ok(false) ==>
              && Guard(context, command, a) == Some(StockApplication(RegisterNotAllowed, NotInOrganization))
              && Guard(context, command, a) == Guard(context, command, b)
    ensures a.member.Ok? && BelongsTo(context, a.member.value) == Ok(true) && a.owner == b.owner
            && a.owner.Ok? && !CanAccessAsWritten(context, a.owner.value) ==>
              && Guard(context, command, a) == Some(StockApplication(RegisterNotAllowed, NoProductPermission))
              && Guard(context, command, a) == Guard(context, command, b)
  {
  }

  /** Registration is delegated exactly when the member belongs, may access the product, and
      requests exactly the product's variants. */
  lemma DelegatesIff(context: AccessContext, command: StockInitializeCommand, lookups: Lookups)
    ensures Guard(context, command, lookups).None? <==>
              && lookups.member.Ok? && BelongsTo(context, lookups.member.value) == Ok(true)
              && lookups.owner.Ok? && CanAccessAsWritten(context, lookups.owner.value)
              && lookups.variants.Ok?
              && (forall x :: x in lookups.variants.value <==> x in VariantIds(command.productVariants))
  {
  }

  /** As written, a VENDOR member of vendor 10 with no hub passes every guard for a product of
      vendor 20 that has no hub: the registration is delegated although the corrected permission
      check refuses the product. */
  lemma NullHubVendorRegistersForeignProduct(command: StockInitializeCommand)
    ensures var context := AccessContext(1, None, Some(10));
            var lookups := Lookups(Ok(MemberInfo(Some(10), Some(Vendor))), Ok(ProductOwner(None, Some(20))),
                                   Ok(VariantIds(command.productVariants)));
            && Guard(context, command, lookups).None?
            && !CanAccess(context, lookups.owner.value)
  {
    var context := AccessContext(1, None, Some(10));
    var lookups := Lookups(Ok(MemberInfo(Some(10), Some(Vendor))), Ok(ProductOwner(None, Some(20))),
                           Ok(VariantIds(command.productVariants)));
    assert Matches(lookups.variants.value, MatchCommandOf(command));
  }

  /** When the access context carries both a hub and a vendor id, the written permission guard is
      the corrected one: a member who belongs is refused for want of permission exactly when the
      corrected check refuses the product. */
  lemma CompleteContextGuardIsCorrected(context: AccessContext, command: StockInitializeCommand, lookups: Lookups)
    requires context.hubId.Some? && context.vendorId.Some?
    requires lookups.member.Ok? && BelongsTo(context, lookups.member.value) == Ok(true)
    requires lookups.owner.Ok? && lookups.variants.Ok?
    ensures Guard(context, command, lookups) == Some(StockApplication(RegisterNotAllowed, NoProductPermission))
            <==> !CanAccess(context, lookups.owner.value)
  {
    CorrectedIsStricter(context, lookups.owner.value);
  }

  /** A command that repeats a variant of the product still passes the variant guard (the
      comparison is of sets), and the registration service then refuses it as DUPLICATED_VARIANT
      with nothing saved. */
  lemma RepeatedVariantRefusedAfterGuards(context: AccessContext, productId: Uuid, v: ProductVariant,
                                          lookups: Lookups, saved: seq<StockRow>, events: seq<StockCreatedEvent>,
                                          ids: seq<Uuid>, requestAt: Timestamp)
    requires lookups.member.Ok? && BelongsTo(context, lookups.member.value) == Ok(true)
    requires lookups.owner.Ok? && CanAccessAsWritten(context, lookups.owner.value)
    requires lookups.variants == Ok([v.id])
    requires |ids| == 2
    ensures var command := StockInitializeCommand(productId, [v, v]);
            FacadeRegister(context, command, lookups, saved, events, ids, requestAt)
              == RegisterReply(Err(StockApplication(DuplicatedVariant, Unspecified)), saved, events)
  {
    var command := StockInitializeCommand(productId, [v, v]);
    var ids2 := VariantIds(command.productVariants);
    assert ids2 == [v.id, v.id];
    assert Matches([v.id], MatchCommandOf(command));
    assert !PairwiseDistinct(ids2) by {
      assert ids2[0] == ids2[1];
    }
    RegisterEffects(saved, events, command, ids, requestAt);
  }

  /** The facade over the registration service. */
  class StockRegistrationFacade {
    const service: RegisterStockService

    constructor (service: RegisterStockService)
      ensures this.service == service
    {
      this.service := service;
    }

    /** `register`: the guards, then the service's `register`. */
    method Register(context: AccessContext, command: StockInitializeCommand, lookups: Lookups,
                    ids: seq<Uuid>, requestAt: Timestamp) returns (r: Result<RegisterResponse>)
      requires |ids| == |command.productVariants|
      modifies service
      ensures RegisterReply(r, service.saved, service.events)
              == FacadeRegister(context, command, lookups, old(service.saved), old(service.events), ids, requestAt)
    {
      var refused := Guard(context, command, lookups);
      if refused.Some? {
        return Err(refused.value);
      }
      r := service.Register(command, ids, requestAt);
    }
  }
}
