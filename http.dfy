/** The service result of types.ts: every service returns `Ok` of a
    success `HttpResult` or `Err` of an error `HttpResult`. */
module Http {

  /** An error `HttpResult`: its message, status code and whether the
      boundary layer must clear the client's tokens (`triggerLogout`). */
  datatype HttpError = HttpError(message: string, status: int, triggerLogout: bool)

  /** A success `HttpResult` carrying `data`. An absent `triggerLogout` is `false`. */
  datatype HttpSuccess<+D> = HttpSuccess(data: D, message: string, status: int, triggerLogout: bool)

  /** `ServicesOutput<D>`. */
  datatype ServiceResult<+D> = Ok(success: HttpSuccess<D>) | Err(error: HttpError)
}
