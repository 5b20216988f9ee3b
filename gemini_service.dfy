/** The browser-side service: `analyzeFloorPlan` posts the four inputs to the
    backend endpoint and turns its answer into a report or an error;
    `translateReport` is a placeholder. `fetch` is a parameter from the
    request it is given to its outcome. */
module GeminiService {
  import opened Js
  import opened VastuTypes

  const Endpoint := "/api/analyze"
  const DefaultFailure := "Failed to generate Vastu analysis."
  const UnknownFailure := "An unknown error occurred during Vastu analysis."

  datatype PropertyType = Residential | Commercial
  {
    /** The string literal type `'residential' | 'commercial'`. */
    function Name(): (s: string)
      ensures this == Residential ==> s == "residential"
      ensures this == Commercial ==> s == "commercial"
      ensures s == "commercial" <==> this == Commercial
      ensures s != ""
    {
      match this
      case Residential => "residential"
      case Commercial => "commercial"
    }
  }

  /** The only language `translateReport` accepts: `'hi'`. */
  datatype Language = Hindi

  /** A `fetch` call: method, URL, `Content-Type` header and JSON body. */
  datatype FetchRequest = FetchRequest(httpMethod: string, url: string, contentType: string, body: RequestBody)

  /** What `response.json()` produced: it threw, or it gave an object. */
  datatype JsonOutcome = JsonThrew(thrown: Thrown) | Json(data: ReportData)

  /** What `fetch` produced: it threw, or it gave a response with its `ok`
      flag and its body. */
  datatype FetchOutcome = FetchThrew(thrown: Thrown) | Responded(ok: bool, body: JsonOutcome)

  /** The request sent to the backend: a JSON POST to /api/analyze whose body
      holds exactly the four arguments under their own names. */
  function BackendRequest(base64Image: string, mimeType: string, entranceDirection: string,
                          propertyType: PropertyType): (r: FetchRequest)
    ensures r.httpMethod == "POST" && r.url == Endpoint && r.contentType == "application/json"
    ensures r.body.BodyObject?
    ensures r.body.base64Image == Some(base64Image) && r.body.mimeType == Some(mimeType)
    ensures r.body.entranceDirection == Some(entranceDirection)
    ensures r.body.propertyType == Some(propertyType.Name())
  {
    FetchRequest("POST", Endpoint, "application/json",
      BodyObject(Some(base64Image), Some(mimeType), Some(entranceDirection), Some(propertyType.Name())))
  }

  /** The catch block: an `Error` is re-thrown as it is, anything else is
      replaced by an `Error` with a fixed message. */
  function Rethrow(thrown: Thrown): (e: JsError)
    ensures thrown.ThrownError? ==> e == thrown.err
    ensures thrown.ThrownOther? ==> e.message == UnknownFailure
  {
    match thrown
    case ThrownError(err) => err
    case ThrownOther => JsError(UnknownFailure)
  }

  /** The part of `analyzeFloorPlan` after `fetch`: a response that is not ok
      fails with the server's truthy `error` or the default message; an ok one
      yields only `overall_summary` and `doshas`, copied as they are; a
      throwing `fetch` or `response.json()` fails through the catch block. */
  function ReadResponse(outcome: FetchOutcome): (r: Result<VastuReport, JsError>)
    ensures outcome.FetchThrew? ==> r == Failure(Rethrow(outcome.thrown))
    ensures outcome.Responded? && outcome.body.JsonThrew? ==> r == Failure(Rethrow(outcome.body.thrown))
    ensures outcome.Responded? && outcome.body.Json? && !outcome.ok ==>
      r == Failure(JsError(if Truthy(outcome.body.data.error) then outcome.body.data.error.value
                           else DefaultFailure))
    ensures outcome.Responded? && outcome.body.Json? && outcome.ok ==>
      r.Success? &&
      r.value.overallSummary == outcome.body.data.overallSummary &&
      r.value.doshas == outcome.body.data.doshas
  {
    match outcome
    case FetchThrew(thrown) => Failure(Rethrow(thrown))
    case Responded(ok, body) =>
      match body
      case JsonThrew(thrown) => Failure(Rethrow(thrown))
      case Json(data) =>
        if !ok then
          // `throw new Error(...)` inside the try lands in its own catch,
          // which re-throws it because it is an Error.
          Failure(Rethrow(ThrownError(JsError(Or(data.error, DefaultFailure)))))
        else
          Success(VastuReport(data.overallSummary, data.doshas))
  }

  /** `analyzeFloorPlan`: one request to the backend, read as above. It
      succeeds exactly when `fetch` answers with an ok response whose body is
      JSON, and then returns that body's summary and doshas; a JSON answer that
      is not ok fails with the server's truthy `error` or the default; a throwing
      `fetch` or `json()` fails through the catch block. */
  function AnalyzeFloorPlan(base64Image: string, mimeType: string, entranceDirection: string,
                            propertyType: PropertyType, fetch: FetchRequest -> FetchOutcome)
    : (r: Result<VastuReport, JsError>)
    ensures
      var o := fetch(BackendRequest(base64Image, mimeType, entranceDirection, propertyType));
      && (r.Success? <==> o.Responded? && o.ok && o.body.Json?)
      && (r.Success? ==> r.value == VastuReport(o.body.data.overallSummary, o.body.data.doshas))
      && (o.Responded? && o.body.Json? && !o.ok ==>
            r == Failure(JsError(Or(o.body.data.error, DefaultFailure))))
      && (o.FetchThrew? ==> r == Failure(Rethrow(o.thrown)))
      && (o.Responded? && o.body.JsonThrew? ==> r == Failure(Rethrow(o.body.thrown)))
  {
    ReadResponse(fetch(BackendRequest(base64Image, mimeType, entranceDirection, propertyType)))
  }

  /** `translateReport` is a placeholder: it returns the report it is given. */
  function TranslateReport(report: VastuReport, language: Language): (r: VastuReport)
    ensures r == report
  {
    report
  }
}
