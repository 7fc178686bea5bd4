/** MemberFeignErrorDecoder and ProductFeignErrorDecoder: the exception a failed call to the
    member or product service becomes, by HTTP status. Both use the same status map. */
module FeignErrorDecoders {
  import opened Common

  /** The global error code for a response status: 400 is a bad request, 404 not found, 401 and
      403 forbidden, and every other status (500 included) an internal server error. */
  function StatusErrorCode(status: int): (code: ErrorCode)
    ensures code == BadRequest <==> status == 400
    ensures code == NotFound <==> status == 404
    ensures code == Forbidden <==> status == 401 || status == 403
    ensures code == InternalServerError <==> status !in {400, 401, 403, 404}
  {
    match status
    case 400 => BadRequest
    case 404 => NotFound
    case 401 => Forbidden
    case 403 => Forbidden
    case _ => InternalServerError
  }

  /** MemberFeignErrorDecoder.decode. */
  function MemberDecode(status: int): (e: Exception)
    ensures e.MemberFeign? && e.code == StatusErrorCode(status)
  {
    MemberFeign(StatusErrorCode(status))
  }

  /** ProductFeignErrorDecoder.decode. */
  function ProductDecode(status: int): (e: Exception)
    ensures e.ProductFeign? && e.code == StatusErrorCode(status)
  {
    ProductFeign(StatusErrorCode(status))
  }

  /** The map is total and lands in exactly the four codes the decoders use, and the two
      decoders report the same code for the same status. */
  lemma DecodersAgree(status: int)
    ensures StatusErrorCode(status) in {BadRequest, NotFound, Forbidden, InternalServerError}
    ensures MemberDecode(status).code == ProductDecode(status).code
    ensures 500 <= status < 600 ==> MemberDecode(status) == MemberFeign(InternalServerError)
  {
  }
}
