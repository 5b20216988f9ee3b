/** The serverless endpoint `/api/analyze`: it checks the request, builds the
    Vastu prompt, calls the generative model once and maps the parsed answer
    to an HTTP status and JSON body. The model call and `JSON.parse` are not
    modelled; their combined outcome is an input (`Upstream`), and the handler
    reports the calls it makes so that "no call before validation" can be
    stated. */
module Analyze {
  import opened Js
  import opened VastuTypes

  // ---------------------------------------------------------------------
  // Module initialisation
  // ---------------------------------------------------------------------

  const ApiKeyMissing := "GEMINI_API_KEY environment variable not set"
  const ModelName := "gemini-1.5-flash"

  /** What module initialisation leaves behind: the key and the model used. */
  datatype ModelConfig = ModelConfig(apiKey: string, model: string)

  /** Loading the module reads `GEMINI_API_KEY`; a missing or empty key throws,
      so no handler exists, otherwise the model is fixed to gemini-1.5-flash. */
  function LoadModule(apiKey: Option<string>): (r: Result<ModelConfig, JsError>)
    ensures r.Success? <==> Truthy(apiKey)
    ensures r.Success? ==> r.value.apiKey == apiKey.value && r.value.model == ModelName
    ensures r.Failure? ==> r.error.message == ApiKeyMissing
  {
    if Truthy(apiKey) then Success(ModelConfig(apiKey.value, ModelName))
    else Failure(JsError(ApiKeyMissing))
  }

  // ---------------------------------------------------------------------
  // Requests, responses, model calls
  // ---------------------------------------------------------------------

  datatype Request = Request(httpMethod: string, body: RequestBody)

  datatype Response = Response(status: int, body: ReportData)

  /** `{ inlineData: { data, mimeType } }` */
  datatype ImagePart = ImagePart(data: string, mimeType: string)

  datatype Part = TextPart(text: string) | InlinePart(image: ImagePart)

  /** One invocation of `generateContent` on the configured model. */
  datatype ModelCall = ModelCall(model: string, parts: seq<Part>)

  /** What `generateContent`, `.response.text()` and `JSON.parse` together
      produce: one of them threw (the detail is the exception's text), the text
      parsed to JSON `null`, or it parsed to an object. A parsed number,
      string or array reads like an object without any of the keys. */
  datatype Upstream = Threw(detail: string) | ParsedNull | Parsed(data: ReportData)

  datatype HandlerResult = HandlerResult(response: Response, calls: seq<ModelCall>)

  const MethodNotAllowed := "Method Not Allowed"
  const MissingFields := "Missing required fields in request body."
  const AnalysisFailed := "Failed to generate Vastu analysis."

  /** The fallback message when the model says the image is not a floor plan. */
  function NotAFloorPlan(propertyType: string): (m: string)
    ensures |m| == |NotAFloorPlanHead| + |propertyType| + |NotAFloorPlanTail|
    ensures m[..|NotAFloorPlanHead|] == NotAFloorPlanHead
    ensures m[|NotAFloorPlanHead|..|NotAFloorPlanHead| + |propertyType|] == propertyType
    ensures m[|NotAFloorPlanHead| + |propertyType|..] == NotAFloorPlanTail
  {
    NotAFloorPlanHead + propertyType + NotAFloorPlanTail
  }

  const NotAFloorPlanHead := "The uploaded file does not appear to be a "
  const NotAFloorPlanTail := " floor plan."

  // ---------------------------------------------------------------------
  // Prompt
  // ---------------------------------------------------------------------

  const ResidentialDetails := "- Prioritize critical doshas for a residential space (main entrance, kitchen, master bedroom, toilets, Brahmasthan). Identify at least 5-7 significant Vastu doshas if they exist."
  const CommercialDetails := "- Prioritize critical doshas for a commercial space (main entrance, owner's/MD's cabin, staff work area, reception, pantry, accounts department, Brahmasthan). Identify at least 5-7 significant Vastu doshas if they exist."

  /** The property-specific instructions: the commercial fragment exactly for
      the property type "commercial", the residential one for every other
      string, including "residential", "Commercial" and unknown values. */
  function Details(propertyType: string): (d: string)
    ensures d == CommercialDetails <==> propertyType == "commercial"
    ensures d == ResidentialDetails <==> propertyType != "commercial"
  {
    if propertyType == "commercial" then CommercialDetails else ResidentialDetails
  }

  // The fixed text of the prompt template between its slots.
  const Piece0 := "\n      Task: Analyze the provided image based on Vastu Shastra for a "
  const Piece1 := " property.\n      Language for response: English.\n\n      Step 1: Validate the image.\n      - Is the image a "
  const Piece2 := " floor plan?\n      - If NO: Return a JSON object with \"is_floor_plan\" set to false and an \"error\" message.\n      - If YES: Set \"is_floor_plan\" to true and proceed.\n\n      Step 2: Vastu Analysis.\n      - The main entrance faces: "
  const Piece3 := ".\n      - Analyze the floor plan based on Vastu Shastra principles for a "
  const Piece4 := " property.\n      "
  const Piece5 := "\n      - For each dosha, identify its location, the problem, its impact, and a simple, practical remedy.\n      - Provide an encouraging and constructive overall summary.\n      - Ensure the entire analysis is in English.\n      - Your response MUST be a valid JSON object.\n    "

  /** The prompt template with its six fixed pieces and its slots filled. */
  function Fill(t: seq<string>, pt: string, dir: string, details: string): string
    requires |t| == 6
  {
    t[0] + pt + t[1] + pt + t[2] + dir + t[3] + pt + t[4] + details + t[5]
  }

  const Template := [Piece0, Piece1, Piece2, Piece3, Piece4, Piece5]

  /** The prompt sent to the model: the fixed template text with the property
      type verbatim at its three slots, the entrance direction verbatim at its
      slot and exactly one detail fragment at the details slot (see Laid). */
  function Prompt(propertyType: string, entranceDirection: string): (p: string)
    ensures Laid(p, Template, propertyType, entranceDirection, Details(propertyType))
  {
    FillLayout(Template, propertyType, entranceDirection, Details(propertyType));
    Fill(Template, propertyType, entranceDirection, Details(propertyType))
  }

  /** The image part carries the request's data and media type unchanged. */
  function MakeImagePart(base64Image: string, mimeType: string): (p: ImagePart)
    ensures p.data == base64Image && p.mimeType == mimeType
  {
    ImagePart(base64Image, mimeType)
  }

  // ---------------------------------------------------------------------
  // Handler
  // ---------------------------------------------------------------------

  /** All four fields of the request body are truthy. */
  predicate HasRequiredFields(body: RequestBody)
    ensures HasRequiredFields(body) <==>
      body.BodyObject? && None !in RequiredFields(body) && Some("") !in RequiredFields(body)
  {
    body.BodyObject?
    && Truthy(body.base64Image) && Truthy(body.mimeType)
    && Truthy(body.entranceDirection) && Truthy(body.propertyType)
  }

  /** The four fields the handler destructures from an object body. */
  function RequiredFields(body: RequestBody): seq<Option<string>>
    requires body.BodyObject?
  {
    [body.base64Image, body.mimeType, body.entranceDirection, body.propertyType]
  }

  /** The request reaches the model call: POST with all required fields. */
  predicate Admitted(req: Request)
  {
    req.httpMethod == "POST" && HasRequiredFields(req.body)
  }

  /** Maps the outcome of the model call to the HTTP response:
      any exception, or a parsed `null` (whose field read throws), is a 500
      with a fixed message; a falsy `is_floor_plan` is a 400 with the model's
      own truthy `error` or the per-property-type fallback; otherwise the
      parsed object is returned with 200 as it is. */
  function MapUpstream(upstream: Upstream, propertyType: string): (r: Response)
    ensures !upstream.Parsed? ==> r == Response(500, ErrorBody(AnalysisFailed))
    ensures upstream.Parsed? && !TruthyFlag(upstream.data.isFloorPlan) ==>
      r.status == 400 &&
      r.body == ErrorBody(if Truthy(upstream.data.error) then upstream.data.error.value
                          else NotAFloorPlan(propertyType))
    ensures upstream.Parsed? && TruthyFlag(upstream.data.isFloorPlan) ==>
      r == Response(200, upstream.data)
  {
    match upstream
    case Threw(_) => Response(500, ErrorBody(AnalysisFailed))
    case ParsedNull => Response(500, ErrorBody(AnalysisFailed))
    case Parsed(data) =>
      if !TruthyFlag(data.isFloorPlan) then
        Response(400, ErrorBody(Or(data.error, NotAFloorPlan(propertyType))))
      else
        Response(200, data)
  }

  /** The request handler, its steps in source order: method guard; reading
      the body (destructuring a `null` body throws and is caught as a 500);
      the required-field check; the image part and the prompt; one model
      call; the mapping of its outcome. */
  function Handler(cfg: ModelConfig, req: Request, upstream: Upstream): (r: HandlerResult)
    ensures req.httpMethod != "POST" ==>
      r == HandlerResult(Response(405, ErrorBody(MethodNotAllowed)), [])
    ensures req.httpMethod == "POST" && req.body.NullBody? ==>
      r == HandlerResult(Response(500, ErrorBody(AnalysisFailed)), [])
    ensures req.httpMethod == "POST" && req.body.BodyObject? && !HasRequiredFields(req.body) ==>
      r == HandlerResult(Response(400, ErrorBody(MissingFields)), [])
    ensures Admitted(req) ==>
      var b := req.body;
      && r.calls == [ModelCall(cfg.model,
                       [TextPart(Prompt(b.propertyType.value, b.entranceDirection.value)),
                        InlinePart(ImagePart(b.base64Image.value, b.mimeType.value))])]
      && r.response == MapUpstream(upstream, b.propertyType.value)
    ensures |r.calls| == (if Admitted(req) then 1 else 0)
  {
    if req.httpMethod != "POST" then
      HandlerResult(Response(405, ErrorBody(MethodNotAllowed)), [])
    else
      match req.body
      case NullBody =>
        HandlerResult(Response(500, ErrorBody(AnalysisFailed)), [])
      case BodyObject(base64Image, mimeType, entranceDirection, propertyType) =>
        if !Truthy(base64Image) || !Truthy(mimeType) || !Truthy(entranceDirection) || !Truthy(propertyType) then
          HandlerResult(Response(400, ErrorBody(MissingFields)), [])
        else
          var imagePart := MakeImagePart(base64Image.value, mimeType.value);
          var prompt := Prompt(propertyType.value, entranceDirection.value);
          var call := ModelCall(cfg.model, [TextPart(prompt), InlinePart(imagePart)]);
          HandlerResult(MapUpstream(upstream, propertyType.value), [call])
  }

  // ---------------------------------------------------------------------
  // Properties
  // ---------------------------------------------------------------------

  /** The layout of a filled template `p`: the property type verbatim at its
      three slots, the entrance direction verbatim at its slot and the detail
      fragment at the details slot, with the fixed pieces around them. */
  predicate Laid(p: string, t: seq<string>, pt: string, dir: string, details: string)
    requires |t| == 6
  {
    var s1 := |t[0]|;
    var s2 := s1 + |pt| + |t[1]|;
    var e := s2 + |pt| + |t[2]|;
    var s3 := e + |dir| + |t[3]|;
    var d := s3 + |pt| + |t[4]|;
    && |p| == d + |details| + |t[5]|
    && p[..s1] == t[0]
    && p[s1..s1 + |pt|] == pt
    && p[s1 + |pt|..s2] == t[1]
    && p[s2..s2 + |pt|] == pt
    && p[s2 + |pt|..e] == t[2]
    && p[e..e + |dir|] == dir
    && p[e + |dir|..s3] == t[3]
    && p[s3..s3 + |pt|] == pt
    && p[s3 + |pt|..d] == t[4]
    && p[d..d + |details|] == details
    && p[d + |details|..] == t[5]
  }

  lemma FillLayout(t: seq<string>, pt: string, dir: string, details: string)
    requires |t| == 6
    ensures Laid(Fill(t, pt, dir, details), t, pt, dir, details)
  {
  }

  /** A filled template determines a property type of known length, and
      then, for equal detail fragments, the entrance direction. */
  lemma FillInjective(t: seq<string>, pt1: string, dir1: string, details1: string,
                                         pt2: string, dir2: string, details2: string)
    requires |t| == 6 && |pt1| == |pt2|
    requires Fill(t, pt1, dir1, details1) == Fill(t, pt2, dir2, details2)
    ensures pt1 == pt2
    ensures details1 == details2 ==> dir1 == dir2
  {
    var p := Fill(t, pt1, dir1, details1);
    FillLayout(t, pt1, dir1, details1);
    FillLayout(t, pt2, dir2, details2);
    var s1 := |t[0]|;
    assert pt1 == p[s1..s1 + |pt1|] == pt2;
    if details1 == details2 {
      var e := s1 + |pt1| + |t[1]| + |pt1| + |t[2]|;
      assert |dir1| == |dir2|;
      assert dir1 == p[e..e + |dir1|] == dir2;
    }
  }

  /** Two requests whose property types have equal length get the same prompt
      exactly when they agree on property type and entrance direction; in
      particular, for a fixed property type the prompt determines the
      entrance direction. */
  lemma PromptInjective(pt1: string, dir1: string, pt2: string, dir2: string)
    requires |pt1| == |pt2|
    ensures Prompt(pt1, dir1) == Prompt(pt2, dir2) <==> pt1 == pt2 && dir1 == dir2
  {
    if Prompt(pt1, dir1) == Prompt(pt2, dir2) {
      FillInjective(Template, pt1, dir1, Details(pt1), pt2, dir2, Details(pt2));
    }
  }

  /** The response of the handler always has one of four shapes: 405, 400
      and 500 carry `{ error: m }` with a non-empty `m`; 200 carries the
      parsed model answer unchanged, whose `is_floor_plan` is true, and only
      after exactly one model call. */
  lemma ResponseShape(cfg: ModelConfig, req: Request, upstream: Upstream)
    ensures
      var r := Handler(cfg, req, upstream).response;
      && r.status in {200, 400, 405, 500}
      && (r.status != 200 ==> exists m :: m != "" && r.body == ErrorBody(m))
      && (r.status == 200 <==>
            Admitted(req) && upstream.Parsed? && TruthyFlag(upstream.data.isFloorPlan))
      && (r.status == 200 ==> r.body == upstream.data)
  {
  }

  /** The exception text of a failing model call never reaches the response:
      any two exceptions give the same result. */
  lemma ExceptionDetailHidden(cfg: ModelConfig, req: Request, detail1: string, detail2: string)
    ensures Handler(cfg, req, Threw(detail1)) == Handler(cfg, req, Threw(detail2))
    ensures Admitted(req) ==>
      Handler(cfg, req, Threw(detail1)).response == Response(500, ErrorBody(AnalysisFailed))
  {
  }

  /** A request that is turned away makes no model call and its response does
      not depend on what the model would have answered. */
  lemma RejectedIgnoresUpstream(cfg: ModelConfig, req: Request, u1: Upstream, u2: Upstream)
    requires !Admitted(req)
    ensures Handler(cfg, req, u1) == Handler(cfg, req, u2)
    ensures Handler(cfg, req, u1).calls == []
  {
  }

  /** A commercial plan facing north-east that the model accepts: the
      response is 200 with the model's report unchanged, after one call
      whose prompt carries the commercial fragment. */
  lemma CommercialExample(cfg: ModelConfig)
    ensures
      var report := ReportData(Some(true), None, Some("Good layout overall."),
        Some([Dosha("Kitchen", "SW placement", "Health issues", "Relocate stove to SE corner")]));
      var req := Request("POST", BodyObject(Some("iVBORw0KGgo="), Some("image/png"), Some("North-East"), Some("commercial")));
      var r := Handler(cfg, req, Parsed(report));
      && r.response == Response(200, report)
      && r.calls == [ModelCall(cfg.model, [TextPart(Prompt("commercial", "North-East")),
                                           InlinePart(ImagePart("iVBORw0KGgo=", "image/png"))])]
      && Laid(r.calls[0].parts[0].text, Template, "commercial", "North-East", CommercialDetails)
  {
  }
}
