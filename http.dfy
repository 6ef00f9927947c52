/** The part of Spring's `HttpStatus` the response layer uses: the numeric value and
    the 2xx test. Every constant of the enum lies in 100..599. */
module Http {

  type HttpStatus = code: int | 100 <= code <= 599 witness 200

  const OK: HttpStatus := 200
  const BAD_REQUEST: HttpStatus := 400
  const UNAUTHORIZED: HttpStatus := 401
  const FORBIDDEN: HttpStatus := 403
  const NOT_FOUND: HttpStatus := 404

  /** `HttpStatus.is2xxSuccessful()`: the status belongs to the SUCCESSFUL series,
      whose number is the value divided by 100. */
  function Is2xxSuccessful(status: HttpStatus): (successful: bool)
    ensures successful <==> 200 <= status <= 299
  {
    status / 100 == 2
  }
}
