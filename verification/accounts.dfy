/**
  The accounts dispatcher `makeRequest`: no credential, a `text/html`
  content type, the shared status table, and on 2xx either the callback's
  verdict on the body or nothing. It never returns data.
 */
module Accounts {
  import opened Wrappers
  import opened Errors
  import opened Http

  const BaseURL: string := "https://api.accounts-bc.com/"
  const HtmlContentType: string := "text/html"

  /** The request `makeRequest` sends. */
  function Outbound(verb: string, path: string, payload: Payload): (req: Request)
    ensures req.url == BaseURL + path && req.verb == verb && req.payload == payload
    ensures req.contentType == HtmlContentType && req.authentication.None?
  {
    Request(verb, BaseURL + path, HtmlContentType, None, payload)
  }

  /**
    What `makeRequest[T]` returns for the reply `resp`: an error, or success
    with no data; `marshal` is the optional callback given the body.
   */
  function Interpret(resp: Response, marshal: Option<Body -> Option<Error>>): (r: Option<Error>)
    ensures resp.Failed? ==> r == Some(Transport(resp.reason))
    ensures resp.Reply? && !IsSuccess(resp.status) ==> r == Some(Classify(resp.status))
    ensures resp.Reply? && IsSuccess(resp.status) && marshal.Some? ==> r == marshal.value(resp.body)
    ensures resp.Reply? && IsSuccess(resp.status) && marshal.None? ==> r.None?
  {
    match resp
    case Failed(reason) => Some(Transport(reason))
    case Reply(status, body) =>
      if !IsSuccess(status) then Some(Classify(status))
      else if marshal.Some? then marshal.value(body)
      else None
  }

  /**
    `makeRequest[T]` against a server `serve`: the request sent and the error,
    if any. The request carries `text/html` and no credential. A call succeeds
    exactly when the reply is 2xx and the callback, if any, accepts the body;
    a non-2xx status fails with the shared table's error, which is
    `UnexpectedStatus` exactly outside the nine named statuses.
   */
  function MakeRequest(serve: Request -> Response, verb: string, path: string, payload: Payload,
                       marshal: Option<Body -> Option<Error>>): (r: (Request, Option<Error>))
    ensures r.0.url == BaseURL + path && r.0.verb == verb && r.0.payload == payload
    ensures r.0.contentType == HtmlContentType && r.0.authentication.None?
    ensures r.1.None? <==>
      serve(r.0).Reply? && IsSuccess(serve(r.0).status) && (marshal.Some? ==> marshal.value(serve(r.0).body).None?)
    ensures serve(r.0).Failed? ==> r.1 == Some(Transport(serve(r.0).reason))
    ensures serve(r.0).Reply? && !IsSuccess(serve(r.0).status) ==>
      r.1.Some? && r.1.value.IsStatusError() &&
      (r.1.value == UnexpectedStatus <==> serve(r.0).status !in {400, 401, 403, 404, 405, 429, 500, 502, 503})
    ensures serve(r.0).Reply? && !IsSuccess(serve(r.0).status) ==> r.1 == Some(Classify(serve(r.0).status))
    ensures serve(r.0).Reply? && IsSuccess(serve(r.0).status) && marshal.Some? ==>
      r.1 == marshal.value(serve(r.0).body)
  {
    var req := Outbound(verb, path, payload);
    var resp := serve(req);
    if resp.Reply? then
      ClassifyNamedOrUnexpected(resp.status);
      (req, Interpret(resp, marshal))
    else (req, Interpret(resp, marshal))
  }
}
