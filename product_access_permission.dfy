/** DefaultProductAccessPermissionValidator: whether a product belongs to the requester's hub or
    vendor, judged from the product service's answer about the product. */
module ProductAccessPermissions {
  import opened Common

  /** The part of ProductDetail the permission check reads; a null id is None. */
  datatype ProductOwner = ProductOwner(hubId: Option<Uuid>, vendorId: Option<Uuid>)

  /** `isProductInSameContext` as written: `Objects.equals` on the hub ids, or on the vendor ids.
      Two nulls count as equal. */
  function CanAccessAsWritten(context: AccessContext, product: ProductOwner): (r: bool)
    ensures r <==> || (exists h :: context.hubId == Some(h) && product.hubId == Some(h))
                   || (context.hubId.None? && product.hubId.None?)
                   || (exists v :: context.vendorId == Some(v) && product.vendorId == Some(v))
                   || (context.vendorId.None? && product.vendorId.None?)
  {
    context.hubId == product.hubId || context.vendorId == product.vendorId
  }

  /** As written, a requester without a hub may access any product without a hub, even one of
      another vendor. */
  lemma NullHubsGrantAccess()
    ensures var context := AccessContext(1, None, Some(10));
            var product := ProductOwner(None, Some(20));
            && CanAccessAsWritten(context, product)
            && product.vendorId != context.vendorId
  {
  }

  /** The check as documented: the product is in the requester's hub or in the requester's
      vendor; an id missing on either side matches nothing. */
  function CanAccess(context: AccessContext, product: ProductOwner): (r: bool)
    ensures r <==> (exists h :: context.hubId == Some(h) && product.hubId == Some(h))
                   || (exists v :: context.vendorId == Some(v) && product.vendorId == Some(v))
  {
    (context.hubId.Some? && context.hubId == product.hubId)
    || (context.vendorId.Some? && context.vendorId == product.vendorId)
  }

  /** The corrected check grants no access the written one refuses, and differs from it only when
      an id is missing on both sides. */
  lemma CorrectedIsStricter(context: AccessContext, product: ProductOwner)
    ensures CanAccess(context, product) ==> CanAccessAsWritten(context, product)
    ensures CanAccessAsWritten(context, product) && !CanAccess(context, product) ==>
              (context.hubId.None? && product.hubId.None?) || (context.vendorId.None? && product.vendorId.None?)
    ensures context.hubId.Some? && context.vendorId.Some? ==>
              CanAccess(context, product) == CanAccessAsWritten(context, product)
  {
  }
}
