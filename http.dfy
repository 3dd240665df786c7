/** Values shared by the request handlers: optional values, the outcome of a
    handler (a value or the HTTPException it raises) and the authenticated
    caller that the principal resolver hands to every route. */
module Http {

  datatype Option<+T> = None | Some(value: T)

  /** An HTTPException raised by a handler, by its status code and detail text.
      ServerError is an unhandled Python exception (status 500); it commits nothing. */
  datatype Failure =
    | NotFound(detail: string)
    | Forbidden(detail: string)
    | BadRequest(detail: string)
    | ServerError
  {
    /** The HTTP status code the client receives. */
    function Code(): (c: int)
    {
      match this
      case NotFound(_) => 404
      case Forbidden(_) => 403
      case BadRequest(_) => 400
      case ServerError => 500
    }
  }

  datatype Result<+T> = Ok(value: T) | Err(error: Failure)

  /** The authenticated principal. The role helpers of the user package decide
      these cases; a vendor user comes with its Vendor row's id and a customer
      user with its Customer row's id. */
  datatype Caller =
    | VendorUser(vendorId: nat)
    | CustomerUser(customerId: nat)
    | OtherUser

  /** Detail text of the 403 raised by the role and ownership helpers whose
      bodies are not part of this model. */
  const RoleDenied: string := ""
}
