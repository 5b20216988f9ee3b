/** The JSON shapes exchanged between the browser client, the serverless
    handler and the generative model. */
module VastuTypes {
  import opened Js

  /** One Vastu defect, as the model reports it. */
  datatype Dosha = Dosha(location: string, problem: string, impact: string, remedy: string)

  /** A JSON object restricted to the keys this code reads or writes.
      An absent key and a key holding null are both None. */
  datatype ReportData = ReportData(
    isFloorPlan: Option<bool>,
    error: Option<string>,
    overallSummary: Option<string>,
    doshas: Option<seq<Dosha>>)

  /** The body `{ error: message }` of every error response. */
  function ErrorBody(message: string): ReportData
  {
    ReportData(None, Some(message), None, None)
  }

  /** The body of a request to the analysis endpoint as the handler reads it:
      `NullBody` stands for both a JSON `null` and an undefined body (one the
      runtime did not parse), on which destructuring throws; otherwise an
      object whose four string fields may each be absent. */
  datatype RequestBody =
    | NullBody
    | BodyObject(
        base64Image: Option<string>,
        mimeType: Option<string>,
        entranceDirection: Option<string>,
        propertyType: Option<string>)

  /** The report the client hands to the user interface. */
  datatype VastuReport = VastuReport(overallSummary: Option<string>, doshas: Option<seq<Dosha>>)
}
