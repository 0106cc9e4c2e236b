/**
  The backoffice dispatcher `makeRequest`: resolve the credential (from the
  pool, or the client's static token), send the request, turn a non-2xx
  status into its error (marking the pool token on 401/403), and unwrap the
  response envelope.
 */
module Backoffice {
  import opened Wrappers
  import opened Errors
  import opened Json
  import opened Http
  import opened AuthTokens
  import LocalPool
  import SharedPool

  const BaseURL: string := "https://backofficewebadmin.betconstruct.com/api/en"
  const JsonContentType: string := "application/json"

  /** The state of whichever pool the client holds. */
  datatype PoolView =
    | LocalView(state: LocalPool.PoolState)
    | SharedView(store: SharedPool.StoreState, key: string, rateLimitKey: string)

  predicate ValidView(v: PoolView) {
    v.LocalView? ==> LocalPool.ValidState(v.state)
  }

  /** `pool.GetAuthToken`: the string of the drawn token, if any, and the pool afterwards. */
  function Draw(v: PoolView, now: int): (r: (Option<string>, PoolView))
    requires ValidView(v)
    ensures ValidView(r.1) && r.1.LocalView? == v.LocalView?
    ensures r.1.SharedView? ==> r.1.key == v.key && r.1.rateLimitKey == v.rateLimitKey
  {
    match v
    case LocalView(s) =>
      var (idx, s') := LocalPool.Acquire(s, now);
      (if idx.Some? then Some(s'.tokens[idx.value].String()) else None, LocalView(s'))
    case SharedView(st, key, rateLimitKey) =>
      var (got, st') := SharedPool.Acquire(st, key, rateLimitKey, now);
      (got, SharedView(st', key, rateLimitKey))
  }

  /** `pool.SetRateLimited(token)`: the pool's error, if any, and the pool afterwards. */
  function Mark(v: PoolView, token: string, now: int): (r: (Option<Error>, PoolView))
    requires ValidView(v)
    ensures ValidView(r.1) && r.1.LocalView? == v.LocalView?
    ensures r.1.SharedView? ==> r.1.key == v.key && r.1.rateLimitKey == v.rateLimitKey
    ensures v.LocalView? ==> r.0.None?
  {
    match v
    case LocalView(s) => (None, LocalView(LocalPool.MarkRateLimited(s, token, now)))
    case SharedView(st, key, rateLimitKey) =>
      var (err, st') := SharedPool.MarkRateLimited(st, rateLimitKey, token, now);
      (err, SharedView(st', key, rateLimitKey))
  }

  /**
    One endpoint call: the HTTP method, the path under the base URL, the body,
    and which documents decode into the Go type of the envelope's `Data`.
   */
  datatype Call = Call(verb: string, path: string, payload: Payload, fits: Json -> bool)

  /** The credential sent: the pool's draw when there is a pool, the static token otherwise. */
  function Credential(staticToken: string, pool: Option<PoolView>, now: int): (r: (Option<string>, Option<PoolView>))
    requires pool.Some? ==> ValidView(pool.value)
    ensures r.1.Some? == pool.Some? && (r.1.Some? ==> ValidView(r.1.value))
    ensures pool.None? ==> r == (Some(staticToken), None)
    ensures pool.Some? ==> r.0 == Draw(pool.value, now).0 && r.1 == Some(Draw(pool.value, now).1)
  {
    if pool.None? then (Some(staticToken), None)
    else
      var (token, v) := Draw(pool.value, now);
      (token, Some(v))
  }

  /** The request `makeRequest` builds for a call with a resolved credential. */
  function Outbound(call: Call, token: string): (req: Request)
    ensures req.url == BaseURL + call.path && req.verb == call.verb && req.payload == call.payload
    ensures req.contentType == JsonContentType && req.authentication == Some(token)
  {
    Request(call.verb, BaseURL + call.path, JsonContentType, Some(token), call.payload)
  }

  /** What a call returns, the pool after it, and the requests it sent. */
  datatype Outcome = Outcome(result: Result<Json, Error>, pool: Option<PoolView>, sent: seq<Request>)

  /** `makeRequest[T]` at `now`, against a server `serve`. */
  function Dispatch(call: Call, staticToken: string, pool: Option<PoolView>, serve: Request -> Response, now: int): (o: Outcome)
    requires pool.Some? ==> ValidView(pool.value)
    ensures o.pool.Some? == pool.Some? && (o.pool.Some? ==> ValidView(o.pool.value))
    ensures |o.sent| <= 1
  {
    var (cred, drawn) := Credential(staticToken, pool, now);
    if cred.None? then Outcome(Failure(Unauthorized), drawn, [])
    else
      var req := Outbound(call, cred.value);
      match serve(req)
      case Failed(reason) => Outcome(Failure(Transport(reason)), drawn, [req])
      case Reply(status, body) =>
        if !IsSuccess(status) then
          if (status == StatusUnauthorized || status == StatusForbidden) && drawn.Some? then
            var (err, marked) := Mark(drawn.value, cred.value, now);
            Outcome(Failure(if err.Some? then err.value else Classify(status)), Some(marked), [req])
          else Outcome(Failure(Classify(status)), drawn, [req])
        else
          var r := EnvelopeResult(body, call.fits);
          Outcome(if r.Success? then Success(r.value.value) else Failure(r.error), drawn, [req])
  }

  /** With a pool and no token available the call fails with `ErrUnauthorized` and nothing is sent. */
  lemma EmptyPoolSendsNothing(call: Call, staticToken: string, v: PoolView, serve: Request -> Response, now: int)
    requires ValidView(v) && Draw(v, now).0.None?
    ensures Dispatch(call, staticToken, Some(v), serve, now) == Outcome(Failure(Unauthorized), Some(Draw(v, now).1), [])
  {
  }

  /**
    Every request sent carries the JSON content type and the resolved
    credential verbatim in `Authentication`: the drawn token with a pool, the
    static token without one; with a pool the static token plays no part.
   */
  lemma CredentialSent(call: Call, staticToken: string, pool: Option<PoolView>, serve: Request -> Response, now: int)
    requires pool.Some? ==> ValidView(pool.value)
    ensures var o := Dispatch(call, staticToken, pool, serve, now);
      && (pool.None? ==> o.sent == [Outbound(call, staticToken)])
      && (pool.Some? ==> (o.sent != [] <==> Draw(pool.value, now).0.Some?))
      && (pool.Some? && o.sent != [] ==> o.sent == [Outbound(call, Draw(pool.value, now).0.value)])
      && (pool.Some? ==> forall other :: Dispatch(call, other, pool, serve, now) == o)
  {
  }

  /** Exactly one request went out and the server answered it with `status`. */
  predicate SentAndGot(o: Outcome, serve: Request -> Response, status: int)
  {
    |o.sent| == 1 && serve(o.sent[0]).Reply? && serve(o.sent[0]).status == status
  }

  /**
    A non-2xx status always fails. On 401 or 403 with a pool the token that
    was sent is marked and the pool is left as the mark leaves it; a marking
    error replaces the status error. Every other status, and every status
    without a pool, leaves the pool as the draw left it and fails with the
    status's error from the shared table.
   */
  lemma NonSuccessStatus(call: Call, staticToken: string, pool: Option<PoolView>, serve: Request -> Response, now: int, status: int)
    requires pool.Some? ==> ValidView(pool.value)
    requires SentAndGot(Dispatch(call, staticToken, pool, serve, now), serve, status) && !IsSuccess(status)
    ensures var o := Dispatch(call, staticToken, pool, serve, now);
      var drawn := Credential(staticToken, pool, now).1;
      var token := o.sent[0].authentication.value;
      && o.result.Failure?
      && (if (status == 401 || status == 403) && pool.Some? then
            var (err, marked) := Mark(drawn.value, token, now);
            o.pool == Some(marked) && o.result.error == (if err.Some? then err.value else Classify(status))
          else
            o.pool == drawn && o.result.error == Classify(status))
  {
  }

  /**
    Only 401 and 403 touch the pool after the draw: any other reply, or a
    transport error, leaves the pool exactly as the draw left it.
   */
  lemma OnlyAuthFailuresMark(call: Call, staticToken: string, pool: Option<PoolView>, serve: Request -> Response, now: int)
    requires pool.Some? ==> ValidView(pool.value)
    ensures var o := Dispatch(call, staticToken, pool, serve, now);
      o.pool != Credential(staticToken, pool, now).1 ==>
        pool.Some? && |o.sent| == 1 && serve(o.sent[0]).Reply? && serve(o.sent[0]).status in {401, 403}
  {
  }

  /** A local pool never fails to mark, so a 401 is always `ErrUnauthorized` and a 403 `ErrForbidden`. */
  lemma LocalPoolAuthErrors(call: Call, staticToken: string, s: LocalPool.PoolState, serve: Request -> Response, now: int)
    requires LocalPool.ValidState(s)
    ensures var o := Dispatch(call, staticToken, Some(LocalView(s)), serve, now);
      && (SentAndGot(o, serve, 401) ==> o.result == Failure(Unauthorized))
      && (SentAndGot(o, serve, 403) ==> o.result == Failure(Forbidden))
  {
  }

  /**
    With a local pool, a 401 or 403 stamps the first pool entry whose string
    is the token that was sent, an entry no later than the one drawn; that
    entry is then not handed out by any run of later calls made within four
    minutes.
   */
  lemma LocalAuthFailureStamps(call: Call, staticToken: string, s: LocalPool.PoolState, serve: Request -> Response,
                               now: int, status: int, later: seq<int>)
    requires LocalPool.ValidState(s) && (status == 401 || status == 403)
    requires SentAndGot(Dispatch(call, staticToken, Some(LocalView(s)), serve, now), serve, status)
    requires forall i :: 0 <= i < |later| ==> later[i] < now + RateLimitDuration
    ensures var o := Dispatch(call, staticToken, Some(LocalView(s)), serve, now);
      var (idx, drawn) := LocalPool.Acquire(s, now);
      var k := LocalPool.FirstMatch(drawn.tokens, o.sent[0].authentication.value, 0);
      && idx.Some? && k <= idx.value
      && o.pool.Some? && o.pool.value.LocalView? && k < |o.pool.value.state.tokens|
      && o.pool.value.state.tokens[k].rateLimitedAt == Some(now)
      && Some(k) !in LocalPool.Run(o.pool.value.state, later)
  {
    var o := Dispatch(call, staticToken, Some(LocalView(s)), serve, now);
    var (idx, drawn) := LocalPool.Acquire(s, now);
    assert Draw(LocalView(s), now).1 == LocalView(drawn);
    CredentialSent(call, staticToken, Some(LocalView(s)), serve, now);
    var token := o.sent[0].authentication.value;
    assert idx.Some? && token == drawn.tokens[idx.value].String();
    var k := LocalPool.FirstMatch(drawn.tokens, token, 0);
    NonSuccessStatus(call, staticToken, Some(LocalView(s)), serve, now, status);
    var marked := LocalPool.MarkRateLimited(drawn, token, now);
    assert o.pool == Some(LocalView(marked));
    assert marked.tokens[k] == drawn.tokens[k].WithRateLimited(now);
    LocalPool.MarkedTokenExcluded(drawn, token, now, later);
  }

  /**
    A call succeeds exactly when a request was sent, the reply is 2xx, and its
    body decodes as an envelope without `HasError`; it then returns `Data`.
    A 2xx envelope with `HasError` fails with its `AlertMessage`.
   */
  lemma SuccessIff(call: Call, staticToken: string, pool: Option<PoolView>, serve: Request -> Response, now: int)
    requires pool.Some? ==> ValidView(pool.value)
    ensures var o := Dispatch(call, staticToken, pool, serve, now);
      && (o.result.Success? <==>
            |o.sent| == 1 && serve(o.sent[0]).Reply? && IsSuccess(serve(o.sent[0]).status) &&
            EnvelopeResult(serve(o.sent[0]).body, call.fits).Success?)
      && (o.result.Success? ==>
            o.result.value == AsEnvelope(serve(o.sent[0]).body.parsed.value, call.fits).value.data)
      && (|o.sent| == 1 && serve(o.sent[0]).Reply? && IsSuccess(serve(o.sent[0]).status) ==>
            var body := serve(o.sent[0]).body;
            body.Complete? && body.parsed.Some? && AsEnvelope(body.parsed.value, call.fits).Some? &&
            AsEnvelope(body.parsed.value, call.fits).value.hasError ==>
              o.result == Failure(Application(AsEnvelope(body.parsed.value, call.fits).value.alertMessage)))
  {
    var (cred, drawn) := Credential(staticToken, pool, now);
    if cred.Some? {
      var req := Outbound(call, cred.value);
      var o := Dispatch(call, staticToken, pool, serve, now);
      assert o.sent == [req];
      if serve(req).Reply? && IsSuccess(serve(req).status) {
        var r := EnvelopeResult(serve(req).body, call.fits);
        assert o.result == if r.Success? then Success(r.value.value) else Failure(r.error);
      }
    }
  }

  /** The pool a client holds. */
  datatype PoolRef = Local(local: LocalPool.Pool) | Shared(shared: SharedPool.RedisPool)

  /** The backoffice `client`. */
  class Client {
    const httpClient: HttpClient
    const authToken: string
    const pool: Option<PoolRef>

    constructor (httpClient: HttpClient, authToken: string, pool: Option<PoolRef>)
      ensures this.httpClient == httpClient && this.authToken == authToken && this.pool == pool
    {
      this.httpClient := httpClient;
      this.authToken := authToken;
      this.pool := pool;
    }

    /** The objects the pool keeps its state in. */
    ghost function PoolObjects(): set<object>
      reads this
    {
      match pool
      case None => {}
      case Some(Local(p)) => {p, p.authTokens}
      case Some(Shared(p)) => {p.store}
    }

    ghost predicate Valid()
      reads this, PoolObjects()
    {
      match pool
      case None => true
      case Some(Local(p)) => p.Valid()
      case Some(Shared(p)) => p.Valid()
    }

    ghost function View(): (v: Option<PoolView>)
      reads this, PoolObjects()
      ensures v.Some? == pool.Some?
      ensures Valid() && v.Some? ==> ValidView(v.value)
    {
      match pool
      case None => None
      case Some(Local(p)) => Some(LocalView(p.State()))
      case Some(Shared(p)) => Some(SharedView(p.store.state, p.key, p.rateLimitKey))
    }

    method ResolveCredential(now: int) returns (token: Option<string>)
      requires Valid()
      modifies PoolObjects()
      ensures Valid()
      ensures (token, View()) == Credential(authToken, old(View()), now)
    {
      match pool
      case None =>
        token := Some(authToken);
      case Some(Local(p)) =>
        var at := p.GetAuthToken(now);
        token := if at.Some? then Some(at.value.token.String()) else None;
      case Some(Shared(p)) =>
        var at := p.GetAuthToken(now);
        token := if at.Some? then Some(at.value.String()) else None;
    }

    method MarkToken(token: string, now: int) returns (err: Option<Error>)
      requires Valid() && pool.Some?
      modifies PoolObjects()
      ensures Valid()
      ensures (err, View().value) == Mark(old(View()).value, token, now)
    {
      match pool
      case Some(Local(p)) =>
        err := p.SetRateLimited(token, now);
      case Some(Shared(p)) =>
        err := p.SetRateLimited(token, now);
    }

    /** `makeRequest[T]`: the result, pool and log are those `Dispatch` gives. */
    method MakeRequest(call: Call, now: int) returns (r: Result<Json, Error>)
      requires Valid()
      modifies httpClient, PoolObjects()
      ensures Valid()
      ensures var o := Dispatch(call, authToken, old(View()), httpClient.serve, now);
        r == o.result && View() == o.pool && httpClient.sent == old(httpClient.sent) + o.sent
    {
      var token := ResolveCredential(now);
      if token.None? {
        return Failure(Unauthorized);
      }
      var resp := httpClient.Do(Outbound(call, token.value));
      match resp
      case Failed(reason) =>
        return Failure(Transport(reason));
      case Reply(status, body) =>
        if !IsSuccess(status) {
          if (status == StatusUnauthorized || status == StatusForbidden) && pool.Some? {
            var err := MarkToken(token.value, now);
            if err.Some? {
              return Failure(err.value);
            }
          }
          return Failure(Classify(status));
        }
        var data := EnvelopeResult(body, call.fits);
        if data.Failure? {
          return Failure(data.error);
        }
        return Success(data.value.value);
    }
  }
}
