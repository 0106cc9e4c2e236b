/**
  What the three dispatchers share: the request they send, the response they
  interpret, the status table, the response envelope, and the transport.
 */
module Http {
  import opened Wrappers
  import opened Errors
  import opened Json

  // Status codes of section 15 of RFC 9110, and 429 of section 4 of RFC 6585.
  const StatusOK: int := 200
  const StatusMultipleChoices: int := 300
  const StatusBadRequest: int := 400
  const StatusUnauthorized: int := 401
  const StatusForbidden: int := 403
  const StatusNotFound: int := 404
  const StatusMethodNotAllowed: int := 405
  const StatusTooManyRequests: int := 429
  const StatusInternalServerError: int := 500
  const StatusBadGateway: int := 502
  const StatusServiceUnavailable: int := 503

  /** The body handed to `http.NewRequestWithContext`; `NoBody` is a nil reader. */
  datatype Payload = NoBody | Document(doc: Json)

  /** An outbound call as the server sees it. */
  datatype Request = Request(
    verb: string,
    url: string,
    contentType: string,
    // The `Authentication` header, absent when it is not set.
    authentication: Option<string>,
    payload: Payload)

  /** A response body: fully readable (with the document its text parses to, if any) or broken part-way. */
  datatype Body = Complete(raw: seq<bv8>, parsed: Option<Json>) | Interrupted(reason: string)

  /** What `httpClient.Do` yields: an error, or a status and a body. */
  datatype Response = Failed(reason: string) | Reply(status: int, body: Body)

  /** The vendor envelope `{Data, HasError, AlertMessage}`. */
  datatype Envelope = Envelope(data: Json, hasError: bool, alertMessage: string)

  /** `200 <= status < 300`: the only statuses the dispatchers do not turn into an error. */
  predicate IsSuccess(status: int) {
    StatusOK <= status < StatusMultipleChoices
  }

  /** The `switch resp.StatusCode` that every dispatcher runs on a non-2xx status. */
  function Classify(status: int): (e: Error)
    ensures e.IsStatusError()
  {
    if status == StatusBadRequest then BadRequest
    else if status == StatusUnauthorized then Unauthorized
    else if status == StatusForbidden then Forbidden
    else if status == StatusNotFound then NotFound
    else if status == StatusMethodNotAllowed then MethodNotAllowed
    else if status == StatusTooManyRequests then TooManyRequests
    else if status == StatusInternalServerError then InternalServerError
    else if status == StatusBadGateway then BadGateway
    else if status == StatusServiceUnavailable then ServiceUnavailable
    else UnexpectedStatus
  }

  /** The status each named error stands for; the reverse reading of the table. */
  function StatusOf(e: Error): Option<int> {
    match e
    case BadRequest => Some(400)
    case Unauthorized => Some(401)
    case Forbidden => Some(403)
    case NotFound => Some(404)
    case MethodNotAllowed => Some(405)
    case TooManyRequests => Some(429)
    case InternalServerError => Some(500)
    case BadGateway => Some(502)
    case ServiceUnavailable => Some(503)
    case _ => None
  }

  /** Every named error is what its own status classifies as. */
  lemma ClassifyStatusOf(e: Error)
    requires StatusOf(e).Some?
    ensures !IsSuccess(StatusOf(e).value)
    ensures Classify(StatusOf(e).value) == e
  {
  }

  /**
    The table is total and deterministic: a status gets a named error exactly
    when it is one of the nine named statuses, and then it is that status's
    error; every other status is `UnexpectedStatus`.
   */
  lemma ClassifyNamedOrUnexpected(status: int)
    ensures Classify(status) == UnexpectedStatus <==>
      status !in {400, 401, 403, 404, 405, 429, 500, 502, 503}
    ensures Classify(status) != UnexpectedStatus ==> StatusOf(Classify(status)) == Some(status)
  {
  }

  /**
    Decoding a body into `response[T]`: `fits` says whether a JSON value
    decodes into the Go type `T` of `Data`. An object or `null` decodes;
    missing members keep their zero values.
   */
  function AsEnvelope(j: Json, fits: Json -> bool): (r: Option<Envelope>)
    ensures r.Some? ==> j.JNull? || j.JObject?
    ensures j.JNull? ==> r == Some(Envelope(JNull, false, ""))
  {
    match j
    case JNull => Some(Envelope(JNull, false, ""))
    case JObject(fields) =>
      var data := Member(fields, "Data");
      var hasError := Member(fields, "HasError");
      var alert := Member(fields, "AlertMessage");
      if (data.JNull? || fits(data)) && (hasError.JNull? || hasError.JBool?) && (alert.JNull? || alert.JString?) then
        Some(Envelope(data, hasError.JBool? && hasError.b, if alert.JString? then alert.s else ""))
      else None
    case _ => None
  }

  /** `io.ReadAll(body)`. */
  function ReadAll(body: Body): (r: Result<seq<bv8>, Error>)
    ensures r.Success? <==> body.Complete?
    ensures body.Complete? ==> r.value == body.raw
  {
    match body
    case Complete(raw, _) => Success(raw)
    case Interrupted(reason) => Failure(ReadFailed(reason))
  }

  /**
    The tail of the backoffice and crm dispatchers on a 2xx status: decode the
    envelope; a decode error is returned; `HasError` wins over the status and
    yields the alert message; otherwise the data is returned.
   */
  function EnvelopeResult(body: Body, fits: Json -> bool): (r: Result<Option<Json>, Error>)
    ensures r.Success? ==> r.value.Some?
    ensures r.Success? <==>
      body.Complete? && body.parsed.Some? && AsEnvelope(body.parsed.value, fits).Some? &&
      !AsEnvelope(body.parsed.value, fits).value.hasError
    ensures r.Success? ==> r.value.value == AsEnvelope(body.parsed.value, fits).value.data
    ensures (body.Complete? && body.parsed.Some? && AsEnvelope(body.parsed.value, fits).Some? &&
             AsEnvelope(body.parsed.value, fits).value.hasError) ==>
      r == Failure(Application(AsEnvelope(body.parsed.value, fits).value.alertMessage))
  {
    match body
    case Interrupted(reason) => Failure(ReadFailed(reason))
    case Complete(_, parsed) =>
      if parsed.None? then Failure(Decoding)
      else match AsEnvelope(parsed.value, fits)
        case None => Failure(Decoding)
        case Some(env) =>
          if env.hasError then Failure(Application(env.alertMessage)) else Success(Some(env.data))
  }

  /**
    An `*http.Client`. The server it talks to is a fixed function from
    request to response; `sent` records every request it was asked to send.
   */
  class HttpClient {
    const serve: Request -> Response
    ghost var sent: seq<Request>

    constructor (serve: Request -> Response)
      ensures this.serve == serve && sent == []
    {
      this.serve := serve;
      sent := [];
    }

    /** `httpClient.Do(req)`. */
    method Do(req: Request) returns (resp: Response)
      modifies this
      ensures sent == old(sent) + [req]
      ensures resp == serve(req)
    {
      resp := serve(req);
      sent := sent + [req];
    }
  }
}
