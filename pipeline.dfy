/** The client and the serverless handler composed over HTTP: the
    properties a caller of `analyzeFloorPlan` sees when the backend is the
    handler of /api/analyze. JSON serialisation on either side is taken to
    preserve the string fields; `ok` is a status in 200..299. */
module Pipeline {
  import opened Js
  import opened VastuTypes
  import opened Analyze
  import opened GeminiService

  /** The handler sees the method and the parsed JSON body of the fetch. */
  function ToServer(req: FetchRequest): Request
  {
    Request(req.httpMethod, req.body)
  }

  /** The client sees `ok` for a 2xx status, and the JSON body. */
  function Deliver(resp: Response): FetchOutcome
  {
    Responded(200 <= resp.status < 300, Json(resp.body))
  }

  /** `fetch` against the deployed handler, whose model call ends in `upstream`. */
  function Backend(cfg: ModelConfig, upstream: Upstream): FetchRequest -> FetchOutcome
  {
    req => Deliver(Handler(cfg, ToServer(req), upstream).response)
  }

  /** What `analyzeFloorPlan` returns against the deployed handler. */
  function EndToEnd(cfg: ModelConfig, base64Image: string, mimeType: string, entranceDirection: string,
                    propertyType: PropertyType, upstream: Upstream): Result<VastuReport, JsError>
  {
    AnalyzeFloorPlan(base64Image, mimeType, entranceDirection, propertyType, Backend(cfg, upstream))
  }

  /** The model calls the handler makes while serving that request. */
  function EndToEndCalls(cfg: ModelConfig, base64Image: string, mimeType: string, entranceDirection: string,
                         propertyType: PropertyType, upstream: Upstream): seq<ModelCall>
  {
    Handler(cfg, ToServer(BackendRequest(base64Image, mimeType, entranceDirection, propertyType)), upstream).calls
  }

  /** A non-2xx response whose body is `{ error: m }` with a truthy `m`
      reaches the caller as a failure with message `m`. */
  lemma ServerErrorReachesCaller(resp: Response, m: string)
    requires !(200 <= resp.status < 300) && resp.body.error == Some(m) && m != ""
    ensures ReadResponse(Deliver(resp)) == Failure(JsError(m))
  {
  }

  /** Whatever the handler answers, the client reproduces it: every error
      response's message becomes the failure message, and a 200 becomes the
      model's summary and doshas, in order. */
  lemma HandlerAnswerReachesCaller(cfg: ModelConfig, req: Request, upstream: Upstream)
    ensures
      var resp := Handler(cfg, req, upstream).response;
      && (resp.status != 200 ==>
            resp.body.error.Some? &&
            ReadResponse(Deliver(resp)) == Failure(JsError(resp.body.error.value)))
      && (resp.status == 200 ==>
            upstream.Parsed? &&
            ReadResponse(Deliver(resp)) ==
              Success(VastuReport(upstream.data.overallSummary, upstream.data.doshas)))
  {
  }

  /** An empty image, media type or entrance direction is refused by the
      server before any model call, and the caller sees its message. */
  lemma MissingArgumentRefused(cfg: ModelConfig, base64Image: string, mimeType: string,
                               entranceDirection: string, propertyType: PropertyType, upstream: Upstream)
    requires base64Image == "" || mimeType == "" || entranceDirection == ""
    ensures EndToEnd(cfg, base64Image, mimeType, entranceDirection, propertyType, upstream)
            == Failure(JsError(MissingFields))
    ensures EndToEndCalls(cfg, base64Image, mimeType, entranceDirection, propertyType, upstream) == []
  {
  }

  /** With all arguments non-empty the server calls the model exactly once,
      with the prompt for the chosen property type and the image as sent, and
      the caller sees the mapped outcome. */
  lemma CompleteRequestAnswered(cfg: ModelConfig, base64Image: string, mimeType: string,
                                entranceDirection: string, propertyType: PropertyType, upstream: Upstream)
    requires base64Image != "" && mimeType != "" && entranceDirection != ""
    ensures EndToEndCalls(cfg, base64Image, mimeType, entranceDirection, propertyType, upstream)
            == [ModelCall(cfg.model, [TextPart(Prompt(propertyType.Name(), entranceDirection)),
                                       InlinePart(ImagePart(base64Image, mimeType))])]
    ensures
      var calls := EndToEndCalls(cfg, base64Image, mimeType, entranceDirection, propertyType, upstream);
      Laid(calls[0].parts[0].text, Template, propertyType.Name(), entranceDirection,
           if propertyType == Commercial then CommercialDetails else ResidentialDetails)
    ensures
      var r := EndToEnd(cfg, base64Image, mimeType, entranceDirection, propertyType, upstream);
      && (!upstream.Parsed? ==> r == Failure(JsError(AnalysisFailed)))
      && (upstream.Parsed? && !TruthyFlag(upstream.data.isFloorPlan) ==>
            r == Failure(JsError(Or(upstream.data.error, NotAFloorPlan(propertyType.Name())))))
      && (upstream.Parsed? && TruthyFlag(upstream.data.isFloorPlan) ==>
            r == Success(VastuReport(upstream.data.overallSummary, upstream.data.doshas)))
  {
    var req := ToServer(BackendRequest(base64Image, mimeType, entranceDirection, propertyType));
    assert Admitted(req);
    HandlerAnswerReachesCaller(cfg, req, upstream);
  }
}
