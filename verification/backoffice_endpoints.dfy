/**
  The backoffice endpoints with logic of their own: the payment-method API
  requests, the payment-document request, and the withdrawal listing.
  The payment-method and player endpoints reach the server through a
  dispatcher signature other than the one declared in this package, so the
  reply they get is a parameter here (`respond`); `ListWithdrawals` goes
  through the backoffice dispatcher.
 */
module BackofficeEndpoints {
  import opened Wrappers
  import opened Errors
  import opened Json
  import opened Http
  import Backoffice

  /** The method, path and body of a request, before any credential is attached. */
  datatype Endpoint = Endpoint(verb: string, path: string, payload: Payload)

  const PaymentAPIPath: string := "/Reference/PaymentAPI"

  // ---------------------------------------------------------------- payment methods

  type ListPaymentMethodsStatus = string

  const ListPaymentMethodsStatusActive: ListPaymentMethodsStatus := "active"
  const ListPaymentMethodsStatusInactive: ListPaymentMethodsStatus := "inactive"

  /** `ListPaymentMethodsStatus.MarshalJSON`: active is 1; inactive, and any other value, 0. */
  function MarshalListStatus(s: ListPaymentMethodsStatus): (j: Json)
    ensures j == JInt(1) || j == JInt(0)
    ensures j == JInt(1) <==> s == ListPaymentMethodsStatusActive
  {
    if s == ListPaymentMethodsStatusActive then JInt(1)
    else if s == ListPaymentMethodsStatusInactive then JInt(0)
    else JInt(0)
  }

  /** The `PaymentRequestType` each payment-method operation sends. */
  const ListRequestType: int := 1
  const UpdateRequestType: int := 6

  /** `listPaymentMethodsRequest`: the status is omitted when it is empty. */
  function ListPaymentMethodsBody(status: ListPaymentMethodsStatus): (j: Json)
    ensures j.JObject? && "PaymentRequestType" in j.fields && j.fields["PaymentRequestType"] == JInt(ListRequestType)
    ensures "status" in j.fields <==> status != ""
    ensures status != "" ==> j.fields["status"] == MarshalListStatus(status)
    ensures j.fields.Keys <= {"PaymentRequestType", "status"}
  {
    var base := map["PaymentRequestType" := JInt(ListRequestType)];
    JObject(if status != "" then base["status" := MarshalListStatus(status)] else base)
  }

  /**
    `ListPaymentMethods`: a POST to the payment API carrying request type 1,
    with `status` present exactly when the filter is non-empty.
   */
  function ListPaymentMethodsEndpoint(status: ListPaymentMethodsStatus): (e: Endpoint)
    ensures e.verb == "POST" && e.path == PaymentAPIPath
    ensures e.payload.Document? && e.payload.doc.JObject?
    ensures "PaymentRequestType" in e.payload.doc.fields && e.payload.doc.fields["PaymentRequestType"] == JInt(1)
    ensures "status" in e.payload.doc.fields <==> status != ""
    ensures status != "" ==> e.payload.doc.fields["status"] == MarshalListStatus(status)
  {
    Endpoint("POST", PaymentAPIPath, Document(ListPaymentMethodsBody(status)))
  }

  /** `findPaymentMethodByNameRequest`. */
  function FindPaymentMethodBody(name: string): (j: Json)
    ensures j.JObject? && j.fields.Keys == {"PaymentRequestType", "system_name"}
    ensures j.fields["PaymentRequestType"] == JInt(ListRequestType) && j.fields["system_name"] == JString(name)
  {
    JObject(map["PaymentRequestType" := JInt(ListRequestType), "system_name" := JString(name)])
  }

  /**
    `updatePaymentMethodRequest`: the method's own members (`paymentMethod`, its
    encoding) flattened next to the request type.
   */
  function UpdatePaymentMethodBody(paymentMethod: map<string, Json>): (j: Json)
    requires "PaymentRequestType" !in paymentMethod
    ensures j.JObject? && j.fields.Keys == paymentMethod.Keys + {"PaymentRequestType"}
    ensures j.fields["PaymentRequestType"] == JInt(UpdateRequestType)
    ensures forall k :: k in paymentMethod ==> j.fields[k] == paymentMethod[k]
  {
    JObject(paymentMethod["PaymentRequestType" := JInt(UpdateRequestType)])
  }

  /** The elements of a decoded slice: `null` is a nil slice. */
  function Items(data: Json): (items: seq<Json>)
    ensures data.JArray? ==> items == data.items
    ensures !data.JArray? ==> items == []
  {
    if data.JArray? then data.items else []
  }

  /**
    `FindPaymentMethodByName`: the request sent and the result; an empty list
    is `ErrPaymentMethodNotFound`, otherwise the first method.
   */
  function FindPaymentMethodByName(name: string, respond: Endpoint -> Result<Json, Error>): (r: (Endpoint, Result<Json, Error>))
    ensures r.0 == Endpoint("POST", PaymentAPIPath, Document(FindPaymentMethodBody(name)))
    ensures respond(r.0).Failure? ==> r.1 == Failure(respond(r.0).error)
    ensures respond(r.0).Success? ==>
      r.1 == if Items(respond(r.0).value) == [] then Failure(PaymentMethodNotFound) else Success(Items(respond(r.0).value)[0])
  {
    var e := Endpoint("POST", PaymentAPIPath, Document(FindPaymentMethodBody(name)));
    match respond(e)
    case Failure(err) => (e, Failure(err))
    case Success(data) =>
      var methods := Items(data);
      if |methods| == 0 then (e, Failure(PaymentMethodNotFound)) else (e, Success(methods[0]))
  }

  /**
    Listing and finding ask for request type 1 and updating for 6; the list
    request carries a status exactly when one is given.
   */
  lemma PaymentRequestTypes(status: ListPaymentMethodsStatus, name: string, paymentMethod: map<string, Json>)
    requires "PaymentRequestType" !in paymentMethod
    ensures ListPaymentMethodsBody(status).fields["PaymentRequestType"] == JInt(1)
    ensures FindPaymentMethodBody(name).fields["PaymentRequestType"] == JInt(1)
    ensures UpdatePaymentMethodBody(paymentMethod).fields["PaymentRequestType"] == JInt(6)
    ensures ListPaymentMethodsBody("") == JObject(map["PaymentRequestType" := JInt(1)])
  {
  }

  /** A found method is always one the server listed: the first; only an empty list is "not found". */
  lemma FindReturnsFirst(name: string, respond: Endpoint -> Result<Json, Error>)
    ensures var (e, r) := FindPaymentMethodByName(name, respond);
      && (r.Success? ==> respond(e).Success? && |Items(respond(e).value)| > 0 && r.value == Items(respond(e).value)[0])
      && (r == Failure(PaymentMethodNotFound) <==>
            (respond(e).Success? && Items(respond(e).value) == []) || respond(e) == Failure(PaymentMethodNotFound))
  {
  }

  /** `ListPartnerDomains`: a GET without body; the partner id is not sent. */
  function ListPartnerDomainsEndpoint(partnerID: int): (e: Endpoint)
    ensures e == Endpoint("GET", "/Reference/GetPartnerDomains", NoBody)
  {
    Endpoint("GET", "/Reference/GetPartnerDomains", NoBody)
  }

  /** Every partner id yields the same request. */
  lemma PartnerIDIgnored(p1: int, p2: int)
    ensures ListPartnerDomainsEndpoint(p1) == ListPartnerDomainsEndpoint(p2)
  {
  }

  /** `SetActiveDomain`: the domain id under `Id`. */
  function SetActiveDomainEndpoint(domainID: int): (e: Endpoint)
    ensures e.verb == "POST" && e.path == "/Reference/SetActiveDomain"
    ensures e.payload == Document(JObject(map["Id" := JInt(domainID)]))
  {
    Endpoint("POST", "/Reference/SetActiveDomain", Document(JObject(map["Id" := JInt(domainID)])))
  }

  // ---------------------------------------------------------------- player payments

  type AddPaymentToPlayerRequestType = string

  const AddPaymentToPlayerRequestTypeCorrectionUp: AddPaymentToPlayerRequestType := "correctionUp"

  /** `AddPaymentToPlayerRequestType.MarshalJSON`: only a correction up has a code, 3. */
  function MarshalPaymentType(t: AddPaymentToPlayerRequestType): (r: Result<Json, Error>)
    ensures r.Success? <==> t == AddPaymentToPlayerRequestTypeCorrectionUp
    ensures r.Success? ==> r.value == JInt(3)
    ensures r.Failure? ==> r.error == UnknownPaymentType(t)
  {
    if t == AddPaymentToPlayerRequestTypeCorrectionUp then Success(JInt(3)) else Failure(UnknownPaymentType(t))
  }

  /** `AddPaymentToPlayerRequest`; the amount is kept as the text its encoder writes. */
  datatype AddPaymentToPlayerRequest = AddPaymentToPlayerRequest(playerID: int, amountText: string, note: string, paymentType: AddPaymentToPlayerRequestType)

  /** `json.Marshal(req)`: fails exactly when the type has no code. */
  function AddPaymentBody(req: AddPaymentToPlayerRequest): (r: Result<Json, Error>)
    ensures r.Success? <==> MarshalPaymentType(req.paymentType).Success?
    ensures r.Failure? ==> r.error == MarshalPaymentType(req.paymentType).error
    ensures r.Success? ==> r.value == JObject(map[
      "ClientId" := JInt(req.playerID), "Amount" := JString(req.amountText),
      "Info" := JString(req.note), "DocTypeInt" := JInt(3)])
  {
    match MarshalPaymentType(req.paymentType)
    case Failure(e) => Failure(e)
    case Success(docType) =>
      Success(JObject(map[
        "ClientId" := JInt(req.playerID), "Amount" := JString(req.amountText),
        "Info" := JString(req.note), "DocTypeInt" := docType]))
  }

  /** `AddPaymentToPlayer`: the request sent, if any, and the error returned. */
  function AddPaymentToPlayer(req: AddPaymentToPlayerRequest, respond: Endpoint -> Result<Json, Error>): (r: (Option<Endpoint>, Option<Error>))
    ensures AddPaymentBody(req).Failure? ==> r == (None, Some(AddPaymentBody(req).error))
    ensures AddPaymentBody(req).Success? ==>
      r.0 == Some(Endpoint("POST", "/Client/CreateClientPaymentDocument", Document(AddPaymentBody(req).value)))
  {
    match AddPaymentBody(req)
    case Failure(e) => (None, Some(e))
    case Success(body) =>
      var e := Endpoint("POST", "/Client/CreateClientPaymentDocument", Document(body));
      (Some(e), if respond(e).Failure? then Some(respond(e).error) else None)
  }

  /**
    An unknown payment type is reported before anything is sent; otherwise
    exactly one request is sent and the call succeeds exactly when it does.
   */
  lemma AddPaymentErrorBeforeRequest(req: AddPaymentToPlayerRequest, respond: Endpoint -> Result<Json, Error>)
    ensures var (sent, err) := AddPaymentToPlayer(req, respond);
      && (req.paymentType != AddPaymentToPlayerRequestTypeCorrectionUp ==>
            sent.None? && err == Some(UnknownPaymentType(req.paymentType)))
      && (req.paymentType == AddPaymentToPlayerRequestTypeCorrectionUp ==>
            sent.Some? && (err.None? <==> respond(sent.value).Success?))
  {
  }

  // ---------------------------------------------------------------- withdrawals

  /**
    `ListWithdrawalsRequest`; a time is the instant in nanoseconds after Go's
    zero time, so the zero time is 0.
   */
  datatype ListWithdrawalsRequest = ListWithdrawalsRequest(fromDate: int, toDate: int, id: int)

  /** A zero value is sent as `null`. */
  function NullIfZeroTime(t: int): (j: Json)
    ensures j.JNull? <==> t == 0
    ensures t != 0 ==> j == JTime(t)
  {
    if t == 0 then JNull else JTime(t)
  }

  function NullIfZeroInt(i: int): (j: Json)
    ensures j.JNull? <==> i == 0
    ensures i != 0 ==> j == JInt(i)
  {
    if i == 0 then JNull else JInt(i)
  }

  /** `(*ListWithdrawalsRequest).MarshalJSON`: the three keys are always there; zero values are `null`. */
  function MarshalListWithdrawals(r: ListWithdrawalsRequest): (j: Json)
    ensures j.JObject? && j.fields.Keys == {"FromDateLocal", "ToDateLocal", "Id"}
    ensures j.fields["FromDateLocal"] == NullIfZeroTime(r.fromDate)
    ensures j.fields["ToDateLocal"] == NullIfZeroTime(r.toDate)
    ensures j.fields["Id"] == NullIfZeroInt(r.id)
  {
    JObject(map[
      "FromDateLocal" := NullIfZeroTime(r.fromDate),
      "ToDateLocal" := NullIfZeroTime(r.toDate),
      "Id" := NullIfZeroInt(r.id)])
  }

  /** The reading the server gives the document: `null` is the zero value. */
  function UnmarshalListWithdrawals(j: Json): (r: Option<ListWithdrawalsRequest>)
  {
    if !j.JObject? then None
    else
      var from := Member(j.fields, "FromDateLocal");
      var to := Member(j.fields, "ToDateLocal");
      var id := Member(j.fields, "Id");
      if (from.JNull? || from.JTime?) && (to.JNull? || to.JTime?) && (id.JNull? || id.JInt?) then
        Some(ListWithdrawalsRequest(
          if from.JTime? then from.instant else 0,
          if to.JTime? then to.instant else 0,
          if id.JInt? then id.i else 0))
      else None
  }

  /** Null-if-zero loses nothing: decoding the encoding gives the request back. */
  lemma ListWithdrawalsRoundTrip(r: ListWithdrawalsRequest)
    ensures UnmarshalListWithdrawals(MarshalListWithdrawals(r)) == Some(r)
  {
  }

  /** The call `ListWithdrawals` makes through the dispatcher; `Data` must be an object. */
  function ListWithdrawalsCall(r: ListWithdrawalsRequest): (call: Backoffice.Call)
    ensures call.verb == "POST" && call.path == "/Client/GetClientWithdrawalRequestsWithTotals"
    ensures call.payload == Document(MarshalListWithdrawals(r))
  {
    Backoffice.Call("POST", "/Client/GetClientWithdrawalRequestsWithTotals", Document(MarshalListWithdrawals(r)),
      (j: Json) => j.JObject? && (Member(j.fields, "ClientRequests").JNull? || Member(j.fields, "ClientRequests").JArray?))
  }

  /** The `ClientRequests` list of a decoded `listWithdrawalsResponse`. */
  function ClientRequests(data: Json): (items: seq<Json>)
    ensures data.JObject? && Member(data.fields, "ClientRequests").JArray? ==> items == Member(data.fields, "ClientRequests").items
    ensures !(data.JObject? && Member(data.fields, "ClientRequests").JArray?) ==> items == []
  {
    if data.JObject? then Items(Member(data.fields, "ClientRequests")) else []
  }

  /** `ListWithdrawals` on the dispatcher's outcome: the error, or exactly the `ClientRequests` list. */
  function ListWithdrawalsResult(o: Backoffice.Outcome): (r: Result<seq<Json>, Error>)
    ensures r.Success? <==> o.result.Success?
    ensures r.Failure? ==> r.error == o.result.error
    ensures r.Success? ==> r.value == ClientRequests(o.result.value)
  {
    if o.result.Failure? then Failure(o.result.error) else Success(ClientRequests(o.result.value))
  }

  /** `(*client).ListWithdrawals`. */
  method ListWithdrawals(c: Backoffice.Client, req: ListWithdrawalsRequest, now: int) returns (r: Result<seq<Json>, Error>)
    requires c.Valid()
    modifies c.httpClient, c.PoolObjects()
    ensures c.Valid()
    ensures var o := Backoffice.Dispatch(ListWithdrawalsCall(req), c.authToken, old(c.View()), c.httpClient.serve, now);
      r == ListWithdrawalsResult(o) && c.View() == o.pool && c.httpClient.sent == old(c.httpClient.sent) + o.sent
  {
    var data := c.MakeRequest(ListWithdrawalsCall(req), now);
    if data.Failure? {
      return Failure(data.error);
    }
    return Success(ClientRequests(data.value));
  }
}
