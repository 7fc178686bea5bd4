/** MemberContextBelongsToValidator: whether the requester belongs to the hub or the vendor the
    access context names, judged from the member service's answer about the current member. */
module MemberBelongsTo {
  import opened Common

  /** The member's kind of organisation. */
  datatype OrganizationType = NoOrganization | Hub | Vendor {
    predicate IsVendor() { this == Vendor }
    predicate IsHub() { this == Hub }
  }

  /** The part of MemberInfo the check reads; a null organisation type or id is None. */
  datatype MemberInfo = MemberInfo(organizationId: Option<Uuid>, organizationType: Option<OrganizationType>)

  /** `belongsTo(context)` given the member service's answer `myInfo`. The hub test runs first and
      the vendor test only when it fails. Each test dereferences the organisation type, so a null
      type throws; a HUB member with no hub in the context, or a VENDOR member with no vendor in
      it, throws too, because the context's id is the receiver of `equals`. */
  function BelongsTo(context: AccessContext, myInfo: MemberInfo): (r: Result<bool>)
    ensures myInfo.organizationType.None? ==> r == Err(NullPointer)
    ensures r.Err? ==> r.error == NullPointer
    ensures r.Ok? <==> && myInfo.organizationType.Some?
                       && (myInfo.organizationType.value.IsHub() ==> context.hubId.Some?)
                       && (myInfo.organizationType.value.IsVendor() ==> context.vendorId.Some?)
    ensures r == Ok(true) <==>
              || (myInfo.organizationType == Some(Hub) && context.hubId.Some? && context.hubId == myInfo.organizationId)
              || (myInfo.organizationType == Some(Vendor) && context.vendorId.Some? && context.vendorId == myInfo.organizationId)
  {
    if myInfo.organizationType.None? then Err(NullPointer)
    else
      var kind := myInfo.organizationType.value;
      var sameHub :=
        if !kind.IsHub() then Ok(false)
        else if context.hubId.None? then Err(NullPointer)
        else Ok(Some(context.hubId.value) == myInfo.organizationId);
      if sameHub.Err? then Err(sameHub.error)
      else if sameHub.value then Ok(true)
      else if !kind.IsVendor() then Ok(false)
      else if context.vendorId.None? then Err(NullPointer)
      else Ok(Some(context.vendorId.value) == myInfo.organizationId)
  }

  /** A member of no organisation never belongs, whatever the context says. */
  lemma NoOrganizationNeverBelongs(context: AccessContext, organizationId: Option<Uuid>)
    ensures BelongsTo(context, MemberInfo(organizationId, Some(NoOrganization))) == Ok(false)
  {
  }

  /** A member whose organisation id is null belongs to nothing (or the check throws). */
  lemma NullOrganizationIdNeverBelongs(context: AccessContext, kind: Option<OrganizationType>)
    ensures BelongsTo(context, MemberInfo(None, kind)) != Ok(true)
  {
  }

  /** A hub member is judged by the hub id alone: the context's vendor id does not matter. */
  lemma HubMemberIgnoresVendor(memberId: Uuid, hubId: Option<Uuid>, v1: Option<Uuid>, v2: Option<Uuid>,
                               organizationId: Option<Uuid>)
    ensures BelongsTo(AccessContext(memberId, hubId, v1), MemberInfo(organizationId, Some(Hub)))
            == BelongsTo(AccessContext(memberId, hubId, v2), MemberInfo(organizationId, Some(Hub)))
  {
  }
}
