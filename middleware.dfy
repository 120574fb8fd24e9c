/**
 * The decision made by the builder permissioning middleware of
 * `src/perms/middleware.rs` for one request: reject with a fixed error
 * response, or hand the request to the inner service and return what it
 * returns.
 *
 * The request's `x-jwt-claim-sub` header is given as its lookup-and-decode
 * outcome; the inner service's result is given as a value of any type `R`.
 */
module Middleware {
  import opened Wrappers
  import opened Calc
  import opened Permissioning

  /** HTTP status codes used by the rejections. */
  const BAD_REQUEST: nat := 400
  const UNAUTHORIZED: nat := 401
  const FORBIDDEN: nat := 403

  /** The JSON body of a rejection: a machine-readable code and a message. */
  datatype ApiError = ApiError(error: string, message: string)

  /** A status code with its body. */
  datatype ErrorResponse = ErrorResponse(status: nat, body: ApiError)

  /** `headers().get("x-jwt-claim-sub")` followed by `to_str()`. */
  datatype SubHeader = Missing | InvalidEncoding | Present(sub: string)

  /** What the service returns: a rejection, or the inner service's result unchanged. */
  datatype Reply<R> = Rejected(response: ErrorResponse) | Forwarded(result: R)

  /** `ApiError::missing_header`: 401 with code `MISSING_AUTH_HEADER`. */
  function MissingHeader(): (r: ErrorResponse)
    ensures r.status == UNAUTHORIZED && r.body.error == "MISSING_AUTH_HEADER"
    ensures r.body.message == "Missing authentication header"
  {
    ErrorResponse(UNAUTHORIZED, ApiError("MISSING_AUTH_HEADER", "Missing authentication header"))
  }

  /** `ApiError::invalid_encoding`: 400 with code `INVALID_HEADER_ENCODING`. */
  function InvalidHeaderEncoding(): (r: ErrorResponse)
    ensures r.status == BAD_REQUEST && r.body.error == "INVALID_HEADER_ENCODING"
    ensures r.body.message == "Invalid header encoding"
  {
    ErrorResponse(BAD_REQUEST, ApiError("INVALID_HEADER_ENCODING", "Invalid header encoding"))
  }

  /** `ApiError::permission_denied`: 403 with code `PERMISSION_DENIED`. */
  function PermissionDenied(): (r: ErrorResponse)
    ensures r.status == FORBIDDEN && r.body.error == "PERMISSION_DENIED"
    ensures r.body.message == "Builder permission denied"
  {
    ErrorResponse(FORBIDDEN, ApiError("PERMISSION_DENIED", "Builder permission denied"))
  }

  /** The three rejections differ in both status and error code. */
  lemma RejectionsDistinct()
    ensures MissingHeader().status != InvalidHeaderEncoding().status
    ensures MissingHeader().status != PermissionDenied().status
    ensures InvalidHeaderEncoding().status != PermissionDenied().status
    ensures MissingHeader().body.error != InvalidHeaderEncoding().body.error
    ensures MissingHeader().body.error != PermissionDenied().body.error
    ensures InvalidHeaderEncoding().body.error != PermissionDenied().body.error
  {
  }

  /**
   * `BuilderPermissioningService::call` at time `now`. The header is looked
   * at before the roster: a missing header is 401 and a header that is not
   * a valid string is 400; a header that decodes (even to "") goes to
   * `IsBuilderPermissioned`, every error of which is the same 403; only an
   * `Ok` forwards, and then the inner result is returned as it is.
   * The source's tracing span reads the current builder before anything
   * else, so the roster must be serviceable whatever the header.
   */
  function Call<R>(b: Builders, header: SubHeader, now: nat, inner: R): (r: Reply<R>)
    requires Serviceable(b) && now >= b.calculator.startTimestamp
    ensures header.Missing? ==> r == Rejected(MissingHeader())
    ensures header.InvalidEncoding? ==> r == Rejected(InvalidHeaderEncoding())
    ensures r.Forwarded? <==> header.Present? && IsBuilderPermissioned(b, header.sub, now).Ok?
    ensures r.Forwarded? ==> r.result == inner
    ensures header.Present? && IsBuilderPermissioned(b, header.sub, now).Err? ==> r == Rejected(PermissionDenied())
  {
    match header
    case Missing => Rejected(MissingHeader())
    case InvalidEncoding => Rejected(InvalidHeaderEncoding())
    case Present(sub) =>
      if IsBuilderPermissioned(b, sub, now).Err? then Rejected(PermissionDenied())
      else Forwarded(inner)
  }

  /**
   * The request is forwarded exactly when the header names the builder
   * whose turn it is and the slot is inside the accepted band.
   */
  lemma ForwardedOnlyForCurrentBuilder<R>(b: Builders, header: SubHeader, now: nat, inner: R)
    requires Serviceable(b) && now >= b.calculator.startTimestamp
    ensures var point := PointWithinSlot(b.calculator, now).value;
      Call(b, header, now, inner).Forwarded? <==>
        && header == Present(BuilderAtTimestamp(b, now).sub)
        && b.config.BlockQueryStart() <= point <= b.config.BlockQueryCutoff()
  {
  }

  /** Every reason `IsBuilderPermissioned` gives for refusing ends in the same 403. */
  lemma AllPermissionErrorsAreForbidden<R>(b: Builders, sub: string, now: nat, inner: R)
    requires Serviceable(b) && now >= b.calculator.startTimestamp
    ensures IsBuilderPermissioned(b, sub, now).Err? <==> Call(b, Present(sub), now, inner) == Rejected(PermissionDenied())
    ensures Call(b, Present(sub), now, inner).Rejected? ==> Call(b, Present(sub), now, inner).response.status == FORBIDDEN
  {
  }

  /** An empty sub is not rejected as such: it is forwarded exactly when it is the current builder's sub. */
  lemma EmptySubIsCheckedLikeAnyOther<R>(b: Builders, now: nat, inner: R)
    requires Serviceable(b) && now >= b.calculator.startTimestamp
    ensures Call(b, Present(""), now, inner).Forwarded? <==> IsBuilderPermissioned(b, "", now).Ok?
    ensures Call(b, Present(""), now, inner).Forwarded? ==> BuilderAtTimestamp(b, now).sub == ""
  {
  }
}
