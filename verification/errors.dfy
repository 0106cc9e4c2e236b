/** The error values the client packages return to their callers. */
module Errors {

  datatype Error =
    // The closed status taxonomy declared identically in backoffice, crm and accounts.
    | BadRequest
    | Unauthorized
    | Forbidden
    | NotFound
    | MethodNotAllowed
    | TooManyRequests
    | InternalServerError
    | BadGateway
    | ServiceUnavailable
    | UnexpectedStatus
    // `httpClient.Do` failed: the call never produced a response.
    | Transport(reason: string)
    // Reading a response body failed part-way.
    | ReadFailed(reason: string)
    // The response body is not a JSON document of the expected shape.
    | Decoding
    // `errors.New(AlertMessage)`: a 2xx envelope with `HasError` set.
    | Application(message: string)
    // A command against the shared store failed.
    | Store(reason: string)
    | ReportResultNotReady
    | PaymentMethodNotFound
    | InvalidPaymentMethodGroupIDs
    | InvalidPaymentMethodConfigFieldOption
    // `fmt.Errorf("unknown sport bet status: %s", s)`
    | UnknownSportBetStatus(status: string)
    // `fmt.Errorf("unknown type: %s", t)`
    | UnknownPaymentType(paymentType: string)
  {
    /** The ten variants that stand for an HTTP status. */
    predicate IsStatusError() {
      BadRequest? || Unauthorized? || Forbidden? || NotFound? || MethodNotAllowed? ||
      TooManyRequests? || InternalServerError? || BadGateway? || ServiceUnavailable? || UnexpectedStatus?
    }
  }
}
