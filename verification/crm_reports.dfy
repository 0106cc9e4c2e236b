/**
  `DownloadReportAsExcel`: a fixed request for a report result's Excel file,
  and the rule that a body which parses as the JSON envelope means the file is
  not ready yet.
 */
module CrmReports {
  import opened Wrappers
  import opened Errors
  import opened Json
  import opened Http
  import opened Crm

  newtype int32 = x: int | -0x8000_0000 <= x < 0x8000_0000

  const ExcelPath: string := "/AdHocReportResult/GetExcel"

  /** The request body: the result id and the fixed export settings. */
  function ExcelRequest(reportResultID: int32): (j: Json)
    ensures j.JObject? && j.fields.Keys == {"ReportResultId", "CurrencyCode", "DocumentType", "ReportType", "UserTimeZone", "fileName"}
    ensures j.fields["ReportResultId"] == JInt(reportResultID as int)
    ensures j.fields["CurrencyCode"] == JString("TRY") && j.fields["DocumentType"] == JString("xlsx")
    ensures j.fields["ReportType"] == JString("0") && j.fields["UserTimeZone"] == JInt(3)
    ensures j.fields["fileName"] == JString("report")
  {
    JObject(map[
      "ReportResultId" := JInt(reportResultID as int),
      "CurrencyCode" := JString("TRY"),
      "DocumentType" := JString("xlsx"),
      "ReportType" := JString("0"),
      "UserTimeZone" := JInt(3),
      "fileName" := JString("report")])
  }

  /** Whether a body decodes into `response[any]`: any `Data` will do. */
  predicate IsEnvelope(body: Body) {
    body.Complete? && body.parsed.Some? && AsEnvelope(body.parsed.value, (_: Json) => true).Some?
  }

  /** The callback: a read error is returned; an envelope means not ready; raw bytes are accepted. */
  function ExcelCallback(body: Body): (r: Option<Error>)
    ensures body.Interrupted? ==> r == Some(ReadFailed(body.reason))
    ensures body.Complete? ==> (r.Some? <==> IsEnvelope(body))
    ensures r.Some? && body.Complete? ==> r.value == ReportResultNotReady
  {
    match body
    case Interrupted(reason) => Some(ReadFailed(reason))
    case Complete(_, _) => if IsEnvelope(body) then Some(ReportResultNotReady) else None
  }

  /** The call `DownloadReportAsExcel` makes. */
  function ExcelCall(reportResultID: int32): (call: Call)
    ensures call.verb == "POST" && call.path == ExcelPath && call.payload == Document(ExcelRequest(reportResultID))
    ensures call.seekable && call.marshal == Some(ExcelCallback)
  {
    Call("POST", ExcelPath, Document(ExcelRequest(reportResultID)), true, (_: Json) => true, Some(ExcelCallback))
  }

  /**
    `DownloadReportAsExcel` against a server `serve`: the bytes or the error,
    and the dispatcher's outcome. Bytes come back exactly when the dispatcher
    succeeded, and they are then the raw body, which was read in full and
    does not parse as an envelope; a body that parses as one gives
    `ErrReportResultNotReady`; a read error is returned as is; and every
    dispatcher error is returned with no bytes.
   */
  function Download(s: Session, serve: Request -> Response, reportResultID: int32): (r: (Result<seq<bv8>, Error>, Outcome))
    ensures r.1 == DoSpec(ExcelCall(reportResultID), s, serve, false)
    ensures r.0.Success? <==> r.1.result.Success?
    ensures r.0.Success? ==>
      r.1.handed.Some? && r.1.handed.value.Complete? && !IsEnvelope(r.1.handed.value) && r.0.value == r.1.handed.value.raw
    ensures r.1.handed.Some? && IsEnvelope(r.1.handed.value) ==> r.0 == Failure(ReportResultNotReady)
    ensures r.1.handed.Some? && r.1.handed.value.Interrupted? ==> r.0 == Failure(ReadFailed(r.1.handed.value.reason))
    ensures r.1.handed.None? ==> r.0.Failure? && r.0.error == r.1.result.error
  {
    var o := DoSpec(ExcelCall(reportResultID), s, serve, false);
    if o.result.Failure? then (Failure(o.result.error), o)
    else (Success(o.handed.value.raw), o)
  }

  /** `DownloadReportAsExcel` on a crm client. */
  method DownloadReportAsExcel(c: Client, reportResultID: int32) returns (r: Result<seq<bv8>, Error>)
    modifies c, c.flag, c.httpClient
    ensures var (expected, o) := Download(old(c.State()), c.httpClient.serve, reportResultID);
      r == expected && c.State() == o.session && c.httpClient.sent == old(c.httpClient.sent) + o.sent
  {
    var result, handed := c.MakeRequest(ExcelCall(reportResultID));
    if result.Failure? {
      return Failure(result.error);
    }
    var bts := ReadAll(handed.value);
    return Success(bts.value);
  }
}
