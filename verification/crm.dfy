/**
  The crm client: a bearer-token dispatcher that, on a 401, logs in again
  with the platform token and retries the call once; `Login`, which installs
  the new token; and `New`, which applies options in order and logs in when a
  platform token was given.
 */
module Crm {
  import opened Wrappers
  import opened Errors
  import opened Json
  import opened Http

  const BaseURL: string := "https://crm-t.betconstruct.com/api/en"
  const LoginPath: string := "/User/LoginWithPlatform"
  const JsonContentType: string := "application/json"
  const BearerPrefix: string := "Bearer "

  /**
    What the dispatcher reads and writes: the client's fields and the
    package-wide `isRefreshing` flag.
   */
  datatype Session = Session(authToken: string, betconstructToken: string, refreshOnExpiry: bool, isRefreshing: bool)

  /**
    One call of `makeRequest[T]`: method, path, body (`seekable` when the
    reader can be rewound), which documents decode into `T`, and the optional
    `marshal` callback that takes over the response body.
   */
  datatype Call = Call(
    verb: string,
    path: string,
    payload: Payload,
    seekable: bool,
    fits: Json -> bool,
    marshal: Option<Body -> Option<Error>>)

  /**
    The result of a call (`Some(data)`, or `None` when the callback took the
    body), the session afterwards, every request sent in order, and the body
    handed to the callback, if any.
   */
  datatype Outcome = Outcome(result: Result<Option<Json>, Error>, session: Session, sent: seq<Request>, handed: Option<Body>)

  /** What `Login` returns, the session afterwards, and every request it sent. */
  datatype LoginOutcome = LoginOutcome(err: Option<Error>, session: Session, sent: seq<Request>)

  /** `strings.TrimPrefix(s, "Bearer ")`. */
  function TrimBearer(s: string): (r: string)
    ensures |s| >= |BearerPrefix| && s[..|BearerPrefix|] == BearerPrefix ==> s == BearerPrefix + r
    ensures !(|s| >= |BearerPrefix| && s[..|BearerPrefix|] == BearerPrefix) ==> r == s
  {
    if |s| >= |BearerPrefix| && s[..|BearerPrefix|] == BearerPrefix then s[|BearerPrefix|..] else s
  }

  /** Exactly one prefix comes off: a token sent with the prefix is stored without it. */
  lemma TrimBearerAdded(t: string)
    ensures TrimBearer(BearerPrefix + t) == t
  {
    assert (BearerPrefix + t)[..|BearerPrefix|] == BearerPrefix;
  }

  /** The request `doRequest` sends. */
  function Outbound(call: Call, s: Session): (req: Request)
    ensures req.url == BaseURL + call.path && req.verb == call.verb && req.payload == call.payload
    ensures req.contentType == JsonContentType && req.authentication == Some(BearerPrefix + s.authToken)
  {
    Request(call.verb, BaseURL + call.path, JsonContentType, Some(BearerPrefix + s.authToken), call.payload)
  }

  /** The refresh-and-retry guard. */
  predicate ShouldRefresh(status: int, isRetry: bool, s: Session) {
    status == StatusUnauthorized && !isRetry && s.refreshOnExpiry && !s.isRefreshing
  }

  /** The call `Login` makes: the platform token, JSON-encoded, to the login path; `T` is `string`. */
  function LoginCall(s: Session): (call: Call)
    ensures call.verb == "POST" && call.path == LoginPath && call.payload == Document(JString(s.betconstructToken))
    ensures call.seekable && call.marshal.None?
    ensures forall j: Json :: call.fits(j) <==> j.JString?
  {
    Call("POST", LoginPath, Document(JString(s.betconstructToken)), true, (j: Json) => j.JString?, None)
  }

  /**
    The call sent again after a refresh: the same method, path, decoding and
    callback, and the same body when it can be rewound; a reader that cannot
    be rewound has been drained, so nothing is sent.
   */
  function RetryCall(call: Call): (r: Call)
    ensures r.verb == call.verb && r.path == call.path && r.fits == call.fits && r.marshal == call.marshal
    ensures r.seekable == call.seekable
    ensures r.payload == (if call.seekable then call.payload else NoBody)
  {
    if call.seekable then call else call.(payload := NoBody)
  }

  /**
    Termination measure: a call made while a refresh is running cannot start
    another one, and a retry cannot refresh again.
   */
  function DoRank(isRefreshing: bool, isRetry: bool): nat {
    (if isRefreshing then 0 else 3) + (if isRetry then 0 else 1)
  }

  function LoginRank(isRefreshing: bool): nat {
    if isRefreshing then 2 else 5
  }

  /** The 2xx tail: the callback takes the body, or the envelope is decoded. */
  function Complete2xx(call: Call, body: Body): (r: (Result<Option<Json>, Error>, Option<Body>))
    ensures call.marshal.Some? ==> r.1 == Some(body) && (r.0.Success? ==> r.0.value.None?)
    ensures call.marshal.Some? ==> (r.0.Success? <==> call.marshal.value(body).None?)
    ensures call.marshal.Some? && r.0.Failure? ==> r.0.error == call.marshal.value(body).value
    ensures call.marshal.None? ==> r.1.None? && r.0 == EnvelopeResult(body, call.fits)
  {
    match call.marshal
    case Some(callback) =>
      var err := callback(body);
      (if err.Some? then Failure(err.value) else Success(None), Some(body))
    case None => (EnvelopeResult(body, call.fits), None)
  }

  /** `doRequest[T](..., isRetry)` against a server `serve`. */
  function DoSpec(call: Call, s: Session, serve: Request -> Response, isRetry: bool): (o: Outcome)
    ensures o.result.Success? && call.marshal.None? ==> o.result.value.Some?
    ensures o.handed.Some? ==> call.marshal.Some? && (o.result.Success? <==> call.marshal.value(o.handed.value).None?)
    ensures o.handed.Some? && o.result.Failure? ==> o.result.error == call.marshal.value(o.handed.value).value
    ensures o.result.Success? && call.marshal.Some? ==> o.handed.Some?
    // `isRefreshing` is set only around a refresh's `Login` and always cleared
    // afterwards; the platform token and the refresh setting are never touched.
    ensures o.session.isRefreshing == s.isRefreshing && o.session.betconstructToken == s.betconstructToken
    ensures o.session.refreshOnExpiry == s.refreshOnExpiry
    ensures |o.sent| >= 1 && o.sent[0] == Outbound(call, s)
    decreases DoRank(s.isRefreshing, isRetry)
  {
    var req := Outbound(call, s);
    match serve(req)
    case Failed(reason) => Outcome(Failure(Transport(reason)), s, [req], None)
    case Reply(status, body) =>
      if !IsSuccess(status) then
        if ShouldRefresh(status, isRetry, s) then
          var login := LoginSpec(s.(isRefreshing := true), serve);
          var s1 := login.session.(isRefreshing := false);
          if login.err.Some? then Outcome(Failure(Unauthorized), s1, [req] + login.sent, None)
          else
            var retry := DoSpec(RetryCall(call), s1, serve, true);
            retry.(sent := [req] + login.sent + retry.sent)
        else Outcome(Failure(Classify(status)), s, [req], None)
      else
        var (r, handed) := Complete2xx(call, body);
        Outcome(r, s, [req], handed)
  }

  /** `(*client).Login`: log in with the platform token and install the returned bearer token. */
  function LoginSpec(s: Session, serve: Request -> Response): (o: LoginOutcome)
    ensures o.session.isRefreshing == s.isRefreshing && o.session.betconstructToken == s.betconstructToken
    ensures o.session.refreshOnExpiry == s.refreshOnExpiry
    ensures |o.sent| >= 1 && o.sent[0] == Outbound(LoginCall(s), s)
    ensures o.err.None? <==> DoSpec(LoginCall(s), s, serve, false).result.Success?
    decreases LoginRank(s.isRefreshing)
  {
    var call := DoSpec(LoginCall(s), s, serve, false);
    if call.result.Failure? then LoginOutcome(Some(call.result.error), call.session, call.sent)
    else
      var data := call.result.value.value;
      // A `null` Data leaves the Go string empty.
      var token := if data.JString? then data.s else "";
      LoginOutcome(None, call.session.(authToken := TrimBearer(token)), call.sent)
  }

  /**
    A call made while a refresh is running, or a retry, never refreshes: it
    sends exactly one request, the one built from the session it was given,
    and leaves the session as it was.
   */
  lemma NoRefreshSingleSend(call: Call, s: Session, serve: Request -> Response, isRetry: bool)
    requires isRetry || s.isRefreshing
    ensures var o := DoSpec(call, s, serve, isRetry);
      o.sent == [Outbound(call, s)] && o.session == s
  {
  }

  /** A refresh's `Login` sends exactly the login request, with the current (expired) bearer token. */
  lemma RefreshLoginSingleSend(s: Session, serve: Request -> Response)
    requires s.isRefreshing
    ensures LoginSpec(s, serve).sent == [Outbound(LoginCall(s), s)]
  {
    NoRefreshSingleSend(LoginCall(s), s, serve, false);
  }

  /** The first reply to a call, when there is one. */
  function FirstStatus(call: Call, s: Session, serve: Request -> Response): Option<int> {
    var resp := serve(Outbound(call, s));
    if resp.Reply? then Some(resp.status) else None
  }

  /**
    A refresh happens exactly when the first reply is 401, the call is not a
    retry, the client refreshes on expiry and no refresh is running. Then the
    requests sent are the call, the login with the old bearer token, and (when
    the login succeeded) the call again with the new one: at most two sends of
    the call itself. A failed login gives `ErrUnauthorized`.
   */
  lemma RefreshPath(call: Call, s: Session, serve: Request -> Response, isRetry: bool)
    ensures var o := DoSpec(call, s, serve, isRetry);
      var st := FirstStatus(call, s, serve);
      (|o.sent| > 1 <==> st.Some? && ShouldRefresh(st.value, isRetry, s))
    ensures var o := DoSpec(call, s, serve, isRetry);
      var st := FirstStatus(call, s, serve);
      st.Some? && ShouldRefresh(st.value, isRetry, s) ==>
        var s0 := s.(isRefreshing := true);
        var login := LoginSpec(s0, serve);
        var s1 := login.session.(isRefreshing := false);
        && o.sent[0] == Outbound(call, s)
        && o.sent[1] == Outbound(LoginCall(s0), s0)
        && (login.err.Some? ==> o.sent == [Outbound(call, s), Outbound(LoginCall(s0), s0)] && o.result == Failure(Unauthorized))
        && (login.err.None? ==> o.sent == [Outbound(call, s), Outbound(LoginCall(s0), s0), Outbound(RetryCall(call), s1)])
        && (login.err.None? ==> o.session == s1 && o.sent[2].authentication == Some(BearerPrefix + s1.authToken))
  {
    var o := DoSpec(call, s, serve, isRetry);
    var st := FirstStatus(call, s, serve);
    if st.Some? && ShouldRefresh(st.value, isRetry, s) {
      var s0 := s.(isRefreshing := true);
      RefreshLoginSingleSend(s0, serve);
      var login := LoginSpec(s0, serve);
      if login.err.None? {
        NoRefreshSingleSend(RetryCall(call), login.session.(isRefreshing := false), serve, true);
      }
    }
  }

  /** A 401 on the retried call is `ErrUnauthorized`, without another refresh. */
  lemma SecondUnauthorized(call: Call, s: Session, serve: Request -> Response)
    requires FirstStatus(call, s, serve) == Some(401) && ShouldRefresh(401, false, s)
    requires var s0 := s.(isRefreshing := true);
      var login := LoginSpec(s0, serve);
      login.err.None? && FirstStatus(RetryCall(call), login.session.(isRefreshing := false), serve) == Some(401)
    ensures DoSpec(call, s, serve, false).result == Failure(Unauthorized)
    ensures |DoSpec(call, s, serve, false).sent| == 3
  {
    RefreshPath(call, s, serve, false);
  }

  /**
    Without a refresh the status table is the backoffice one: every non-2xx
    reply fails with `Classify(status)`.
   */
  lemma StatusTable(call: Call, s: Session, serve: Request -> Response, isRetry: bool)
    requires FirstStatus(call, s, serve).Some? && !IsSuccess(FirstStatus(call, s, serve).value)
    requires !ShouldRefresh(FirstStatus(call, s, serve).value, isRetry, s)
    ensures DoSpec(call, s, serve, isRetry).result == Failure(Classify(FirstStatus(call, s, serve).value))
  {
  }

  /**
    On a 2xx reply a callback takes the body and its error, or nil, is the
    result, with no data; without one `HasError` yields the alert message and
    otherwise `Data` is returned.
   */
  lemma SuccessTail(call: Call, s: Session, serve: Request -> Response, isRetry: bool)
    requires FirstStatus(call, s, serve).Some? && IsSuccess(FirstStatus(call, s, serve).value)
    ensures var o := DoSpec(call, s, serve, isRetry);
      var body := serve(Outbound(call, s)).body;
      && o.session == s && o.sent == [Outbound(call, s)]
      && (call.marshal.Some? ==>
            o.handed == Some(body) &&
            o.result == (var e := call.marshal.value(body); if e.Some? then Failure(e.value) else Success(None)))
      && (call.marshal.None? ==> o.handed.None? && o.result == EnvelopeResult(body, call.fits))
  {
  }

  /**
    `Login` on success installs the returned token with one `"Bearer "`
    removed; on failure it returns the request's error. When it runs as a
    refresh (or the client does not refresh), a failure leaves the token
    as it was.
   */
  lemma LoginResult(s: Session, serve: Request -> Response)
    ensures var o := LoginSpec(s, serve);
      var call := DoSpec(LoginCall(s), s, serve, false);
      && (o.err.None? <==> call.result.Success?)
      && (o.err.Some? ==> o.err.value == call.result.error && o.session == call.session)
      && (o.err.None? && call.result.value.value.JString? ==>
            o.session.authToken == TrimBearer(call.result.value.value.s))
    ensures (s.isRefreshing || !s.refreshOnExpiry) && LoginSpec(s, serve).err.Some? ==>
      LoginSpec(s, serve).session == s
  {
    var call := DoSpec(LoginCall(s), s, serve, false);
    if s.isRefreshing || !s.refreshOnExpiry {
      if serve(Outbound(LoginCall(s), s)).Reply? {
        assert !ShouldRefresh(serve(Outbound(LoginCall(s), s)).status, false, s);
      }
    }
  }

  /** A login whose reply carries `"Bearer " + t` stores `t`. */
  lemma LoginStoresBareToken(s: Session, serve: Request -> Response, t: string)
    requires DoSpec(LoginCall(s), s, serve, false).result == Success(Some(JString(BearerPrefix + t)))
    ensures LoginSpec(s, serve).err.None? && LoginSpec(s, serve).session.authToken == t
  {
    TrimBearerAdded(t);
  }

  /** The options of `New`. */
  datatype ClientOption =
    | WithAuthToken(authToken: string)
    | WithBetconstructToken(betconstructToken: string)
    | WithRefreshOnExpiry

  /** What one option does: it sets exactly one field. */
  function ApplyOption(s: Session, opt: ClientOption): (r: Session)
    ensures opt.WithAuthToken? ==> r == s.(authToken := opt.authToken)
    ensures opt.WithBetconstructToken? ==> r == s.(betconstructToken := opt.betconstructToken)
    ensures opt.WithRefreshOnExpiry? ==> r == s.(refreshOnExpiry := true)
  {
    match opt
    case WithAuthToken(t) => s.(authToken := t)
    case WithBetconstructToken(t) => s.(betconstructToken := t)
    case WithRefreshOnExpiry => s.(refreshOnExpiry := true)
  }

  /** The options applied in order. */
  function ApplyAll(s: Session, opts: seq<ClientOption>): (r: Session)
    ensures r.isRefreshing == s.isRefreshing
    ensures (forall i :: 0 <= i < |opts| ==> !opts[i].WithAuthToken?) ==> r.authToken == s.authToken
    ensures (forall i :: 0 <= i < |opts| ==> !opts[i].WithBetconstructToken?) ==> r.betconstructToken == s.betconstructToken
    ensures r.refreshOnExpiry <==> s.refreshOnExpiry || exists i :: 0 <= i < |opts| && opts[i].WithRefreshOnExpiry?
    decreases |opts|
  {
    if opts == [] then s else ApplyOption(ApplyAll(s, opts[..|opts| - 1]), opts[|opts| - 1])
  }

  /**
    The last option for a field wins: the access token is that of the last
    `WithAuthToken`, or the initial one when there is none; likewise the
    platform token; and refreshing is on iff it was or some option turns it on.
   */
  lemma {:induction false} LastOptionWins(s: Session, opts: seq<ClientOption>)
    ensures var r := ApplyAll(s, opts);
      && (forall i :: 0 <= i < |opts| && opts[i].WithAuthToken? && (forall j :: i < j < |opts| ==> !opts[j].WithAuthToken?) ==>
            r.authToken == opts[i].authToken)
      && ((forall i :: 0 <= i < |opts| ==> !opts[i].WithAuthToken?) ==> r.authToken == s.authToken)
      && (forall i :: 0 <= i < |opts| && opts[i].WithBetconstructToken? && (forall j :: i < j < |opts| ==> !opts[j].WithBetconstructToken?) ==>
            r.betconstructToken == opts[i].betconstructToken)
      && ((forall i :: 0 <= i < |opts| ==> !opts[i].WithBetconstructToken?) ==> r.betconstructToken == s.betconstructToken)
      && (r.refreshOnExpiry <==> s.refreshOnExpiry || exists i :: 0 <= i < |opts| && opts[i].WithRefreshOnExpiry?)
    decreases |opts|
  {
    if opts != [] {
      var init := opts[..|opts| - 1];
      LastOptionWins(s, init);
      assert forall i :: 0 <= i < |init| ==> init[i] == opts[i];
    }
  }

  /** A fresh client: both tokens empty, no refreshing. */
  function Defaults(isRefreshing: bool): Session {
    Session("", "", false, isRefreshing)
  }

  /**
    `New(ctx, opts...)`: the options applied to a zero client, then a login
    exactly when a platform token is set, failing exactly when that login
    does. The shared `isRefreshing` flag is left as it was found.
   */
  function NewSpec(isRefreshing: bool, opts: seq<ClientOption>, serve: Request -> Response): (r: LoginOutcome)
    ensures var s := ApplyAll(Defaults(isRefreshing), opts);
      && (r.sent != [] <==> s.betconstructToken != "")
      && (s.betconstructToken == "" ==> r == LoginOutcome(None, s, []))
      && (s.betconstructToken != "" ==> r.sent[0] == Outbound(LoginCall(s), s) && r.err == LoginSpec(s, serve).err)
      && r.session.betconstructToken == s.betconstructToken && r.session.refreshOnExpiry == s.refreshOnExpiry
      && (s.betconstructToken != "" ==> r == LoginSpec(s, serve))
    ensures r.session.isRefreshing == isRefreshing
  {
    var s := ApplyAll(Defaults(isRefreshing), opts);
    if s.betconstructToken == "" then LoginOutcome(None, s, []) else LoginSpec(s, serve)
  }

  /** The package-wide `isRefreshing` flag, shared by every client. */
  class RefreshFlag {
    var isRefreshing: bool

    constructor ()
      ensures !isRefreshing
    {
      isRefreshing := false;
    }
  }

  /** The crm `client`. */
  class Client {
    const httpClient: HttpClient
    const flag: RefreshFlag
    var authToken: string
    var betconstructToken: string
    var refreshOnExpiry: bool

    /** The zero-valued client `New` starts from. */
    constructor (httpClient: HttpClient, flag: RefreshFlag)
      ensures this.httpClient == httpClient && this.flag == flag
      ensures authToken == "" && betconstructToken == "" && !refreshOnExpiry
    {
      this.httpClient := httpClient;
      this.flag := flag;
      authToken := "";
      betconstructToken := "";
      refreshOnExpiry := false;
    }

    function State(): Session
      reads this, flag
    {
      Session(authToken, betconstructToken, refreshOnExpiry, flag.isRefreshing)
    }

    /** An option applied to this client. */
    method Apply(opt: ClientOption)
      modifies this
      ensures State() == ApplyOption(old(State()), opt)
    {
      match opt
      case WithAuthToken(t) => authToken := t;
      case WithBetconstructToken(t) => betconstructToken := t;
      case WithRefreshOnExpiry => refreshOnExpiry := true;
    }

    /** `doRequest[T]`. */
    method DoRequest(call: Call, isRetry: bool) returns (r: Result<Option<Json>, Error>, handed: Option<Body>)
      modifies this, flag, httpClient
      ensures var o := DoSpec(call, old(State()), httpClient.serve, isRetry);
        r == o.result && handed == o.handed && State() == o.session && httpClient.sent == old(httpClient.sent) + o.sent
      decreases DoRank(flag.isRefreshing, isRetry)
    {
      var req := Outbound(call, State());
      var resp := httpClient.Do(req);
      match resp
      case Failed(reason) =>
        return Failure(Transport(reason)), None;
      case Reply(status, body) =>
        if !IsSuccess(status) {
          if status == StatusUnauthorized && !isRetry && refreshOnExpiry && !flag.isRefreshing {
            flag.isRefreshing := true;
            var err := Login();
            flag.isRefreshing := false;
            if err.Some? {
              return Failure(Unauthorized), None;
            }
            r, handed := DoRequest(RetryCall(call), true);
            return;
          }
          return Failure(Classify(status)), None;
        }
        var (result, callbackBody) := Complete2xx(call, body);
        r, handed := result, callbackBody;
    }

    /** `makeRequest[T]`: a call that is not a retry. */
    method MakeRequest(call: Call) returns (r: Result<Option<Json>, Error>, handed: Option<Body>)
      modifies this, flag, httpClient
      ensures var o := DoSpec(call, old(State()), httpClient.serve, false);
        r == o.result && handed == o.handed && State() == o.session && httpClient.sent == old(httpClient.sent) + o.sent
    {
      r, handed := DoRequest(call, false);
    }

    /** `Login`. */
    method Login() returns (err: Option<Error>)
      modifies this, flag, httpClient
      ensures var o := LoginSpec(old(State()), httpClient.serve);
        err == o.err && State() == o.session && httpClient.sent == old(httpClient.sent) + o.sent
      decreases LoginRank(flag.isRefreshing)
    {
      var r, _ := DoRequest(LoginCall(State()), false);
      if r.Failure? {
        return Some(r.error);
      }
      var data := r.value.value;
      var token := if data.JString? then data.s else "";
      authToken := TrimBearer(token);
      return None;
    }
  }

  /** `New(ctx, opts...)`. */
  method New(httpClient: HttpClient, flag: RefreshFlag, opts: seq<ClientOption>) returns (r: Result<Client, Error>)
    modifies flag, httpClient
    ensures var o := NewSpec(old(flag.isRefreshing), opts, httpClient.serve);
      && (r.Success? <==> o.err.None?)
      && (r.Failure? ==> r.error == o.err.value)
      && (r.Success? ==> fresh(r.value) && r.value.httpClient == httpClient && r.value.flag == flag && r.value.State() == o.session)
      && httpClient.sent == old(httpClient.sent) + o.sent
    ensures flag.isRefreshing == old(flag.isRefreshing)
  {
    var c := new Client(httpClient, flag);
    var i := 0;
    while i < |opts|
      invariant 0 <= i <= |opts|
      invariant c.State() == ApplyAll(Defaults(old(flag.isRefreshing)), opts[..i])
      invariant flag.isRefreshing == old(flag.isRefreshing) && httpClient.sent == old(httpClient.sent)
    {
      c.Apply(opts[i]);
      assert opts[..i + 1][..i] == opts[..i];
      i := i + 1;
    }
    assert opts[..|opts|] == opts;
    if c.betconstructToken != "" {
      var err := c.Login();
      if err.Some? {
        return Failure(err.value);
      }
    }
    return Success(c);
  }
}
