# Digital Vastu: request handling around the analysis call

A Dafny model of the decision logic of the Digital Vastu web application.
A user uploads a floor-plan image together with the property type
(residential or commercial) and the direction of the main entrance. The
browser service `analyzeFloorPlan` posts these to the serverless endpoint
`/api/analyze`. The endpoint checks the request, builds a Vastu Shastra
prompt, calls the Gemini model once with the prompt and the image, and
relays the model's JSON report or an error. The client turns the HTTP answer
into a `VastuReport` (summary plus an ordered list of doshas, the Vastu
defects) or an `Error`.

Everything here is pure: functions over datatypes, and lemmas about them.

- `js.dfy` (module `Js`): `Option`, `Result`, JavaScript truthiness of
  optional strings (absent and `""` are falsy) and booleans, `a || b`, and
  thrown values (`Error` objects and anything else).
- `types.dfy` (module `VastuTypes`): the JSON shapes involved: the request
  body, the report object the model returns, the error body `{ error }`,
  doshas and the client's `VastuReport`.
- `analyze.dfy` (module `Analyze`): the endpoint. `LoadModule` is the API-key
  check at module load. `Handler` runs the steps in source order: method
  guard, reading the body, required-field check, image part and prompt, one
  model call, then `MapUpstream` for the outcome. The model call, `.text()`
  and `JSON.parse` are not modelled. Their combined outcome is an input,
  `Upstream` (threw / parsed `null` / parsed object). The handler returns the
  list of model calls it made, which is how "no model call before
  validation" is stated. The prompt is a six-piece template filled by
  `Fill`; `Laid` describes where each input lands in it.
- `gemini_service.dfy` (module `GeminiService`): the client.
  `BackendRequest` is the POST it sends. `ReadResponse` maps the response or
  the thrown value to a result. `AnalyzeFloorPlan` composes the two around a
  `fetch` that is passed in as a function. `TranslateReport` is the
  placeholder that returns its input.
- `pipeline.dfy` (module `Pipeline`): the client with the handler plugged in
  as its backend, and what a caller of `analyzeFloorPlan` can rely on.

The code has no data-URI decoding, no language field and no room-location
request variant, and its prompt always asks for English. A 405 is its own
status. `translateReport` does not translate.

`src/types.ts` is not part of this model. The four dosha fields (location,
problem, impact, remedy) are an assumption; no decision of the code reads
them.

## Model

| member | source | states |
|---|---|---|
| Analyze.LoadModule | api/analyze.ts:8-20 | loading succeeds exactly when `GEMINI_API_KEY` is truthy; the key is kept and the model is `gemini-1.5-flash`; otherwise the error is "GEMINI_API_KEY environment variable not set" |
| Analyze.Handler | api/analyze.ts:24-79 | non-POST gives 405 `{error: 'Method Not Allowed'}` with no model call; a `null` body gives 500 with the generic message; any falsy field gives 400 "Missing required fields in request body." with no call; an admitted request makes exactly one call `[prompt, imagePart]` on the configured model and answers with `MapUpstream`; calls made is 1 iff admitted, else 0 |
| Analyze.MapUpstream | api/analyze.ts:65-78 | any exception, or a parsed `null`, gives 500 "Failed to generate Vastu analysis."; a falsy `is_floor_plan` gives 400 with the model's truthy `error` or the fallback naming the property type; otherwise 200 with the parsed object unchanged |
| Analyze.NotAFloorPlan | api/analyze.ts:70 | the fallback message is the fixed sentence with the property type inserted verbatim at its slot |
| Analyze.Details | api/analyze.ts:43-58 | the commercial fragment is chosen iff the property type is exactly "commercial"; every other string, including "residential", gets the residential fragment |
| Analyze.HasRequiredFields | api/analyze.ts:30-32 | the body passes the field check iff it is an object and none of its four fields is absent or the empty string |
| Js.Or | api/analyze.ts:70 | JavaScript's logical or of an optional string and a fallback yields the string when it is non-empty, the fallback when it is absent or empty (the same operator is used at src/services/geminiService.ts:25) |
| Analyze.MakeImagePart | api/analyze.ts:36-41 | the image part carries `base64Image` and `mimeType` unchanged |
| Analyze.FillLayout | api/analyze.ts:46-63 | in any filled template, each fixed piece, the three property-type slots, the entrance slot and the details slot hold exactly their values, back to back |
| Analyze.Prompt | api/analyze.ts:46-63 | the prompt is laid out as the fixed template text with the property type verbatim at its three slots, the entrance direction at its slot and exactly one detail fragment, the one `Details` chooses |
| Analyze.FillInjective | api/analyze.ts:46-63 | a filled template determines a property type of known length, and with equal details the entrance direction |
| Analyze.PromptInjective | api/analyze.ts:46-63 | for property types of equal length, two prompts are equal iff property type and entrance direction are equal |
| Analyze.ResponseShape | api/analyze.ts:24-79 | the status is one of 200, 400, 405, 500; every non-200 body is `{error: m}` with a non-empty `m`; 200 happens iff the request was admitted and the model said it is a floor plan, and then the body is the model's object |
| Analyze.ExceptionDetailHidden | api/analyze.ts:65-78 | the exception's text never influences the result; an admitted request whose model call throws yields 500 with the fixed message |
| Analyze.RejectedIgnoresUpstream | api/analyze.ts:25-34 | a request refused by the method guard or field check makes no call, and its answer does not depend on the model |
| Analyze.CommercialExample | api/analyze.ts:24-79 | a commercial, north-east request the model accepts gets 200 with the model's report verbatim, after exactly one call carrying `Prompt("commercial", "North-East")` and the image as sent; that prompt is the template laid out with the commercial fragment |
| GeminiService.PropertyType.Name | src/services/geminiService.ts:6 | `Residential` is sent as "residential" and `Commercial` as "commercial"; the name is "commercial" iff the type is `Commercial` |
| GeminiService.BackendRequest | src/services/geminiService.ts:8-19 | a JSON POST to `/api/analyze` whose body holds exactly the four arguments under their own names |
| GeminiService.Rethrow | src/services/geminiService.ts:33-39 | an `Error` is re-thrown unchanged; any other thrown value becomes "An unknown error occurred during Vastu analysis." |
| GeminiService.ReadResponse | src/services/geminiService.ts:21-39 | a not-ok response fails with the server's truthy `error` or "Failed to generate Vastu analysis."; an ok one yields only `overall_summary` and `doshas`, copied as they are; a throwing `fetch` or `json()` fails through the catch policy |
| GeminiService.AnalyzeFloorPlan | src/services/geminiService.ts:6-40 | succeeds iff the one `fetch` of the backend request answers ok with a JSON body, and then returns exactly its summary and doshas; a not-ok JSON answer fails with the server's truthy `error` or the default; a throw fails through the catch policy |
| GeminiService.TranslateReport | src/services/geminiService.ts:45-51 | returns the report unchanged for every input |
| Pipeline.ServerErrorReachesCaller | src/services/geminiService.ts:23-26 | a non-2xx response with body `{error: m}`, `m` truthy, reaches the caller as failure `m` |
| Pipeline.HandlerAnswerReachesCaller | src/services/geminiService.ts:21-31 | every error response of the handler reaches the caller with its own message; a 200 reaches it as the model's summary and doshas, in order |
| Pipeline.MissingArgumentRefused | api/analyze.ts:30-34 | an empty image, media type or entrance direction sent by the client fails with "Missing required fields in request body." and no model call |
| Pipeline.CompleteRequestAnswered | src/services/geminiService.ts:8-31 | with all arguments non-empty the server makes exactly one call with the prompt for the chosen type and the image as sent; that prompt is laid out with the commercial fragment iff the type is `Commercial`; the caller sees 500's generic message, the not-a-floor-plan message, or the model's summary and doshas |

## Left out

- Analyze.LoadModule: the model assumes that `new GoogleGenAI(API_KEY)` and `getGenerativeModel({ model: "gemini-1.5-flash" })` (api/analyze.ts:17-20) succeed whenever the key is truthy. Both are library calls outside this model. The constructor receives the key as a bare string, although the comment above it speaks of passing it within an object. Whether that matters depends on the library, which is not part of this model.
- The per-request calls `generateContent` and `.response.text()`, and `JSON.parse` (api/analyze.ts:65-67): external library calls. Their combined outcome is the input `Upstream`.
- `fetch`, `response.json()`, `res.status().json()` and `console.error`: I/O; responses are returned values, logging is dropped; `fetch` is a function parameter.
- Asynchrony: every `await` is read as the value it yields.
- JSON values that are not strings: request fields, `error` and `is_floor_plan` are strings or booleans in the model. A number, object or the string "true" in those places is not modelled.
- A JSON `null` and a missing key are the same (`None`).
- Keys of the model's report other than `is_floor_plan`, `error`, `overall_summary` and `doshas`: the model's report object has only these four keys. "Unchanged" on a 200 is stated for them.
- How the hosting runtime turns the raw body into `req.body` (JSON, a plain string, or a parse failure) is not modelled. Once the body is a string, destructuring it yields four undefined fields, which the model covers as `BodyObject(None, None, None, None)`: a 400 with the missing-fields message. A `null` body (destructuring throws, so 500) is modelled as `NullBody`.
- A JSON `null` body reaching the client: not modelled, since the handler always answers with an object.
- JSON serialisation between client and server is taken to preserve string fields exactly.
- Analyze.PromptInjective: stated only for property types of equal length. For unequal lengths, telling two prompts apart needs reasoning about overlaps of the template text with arbitrary strings.
- The shape of the passed-through report: summaries are strings and doshas records of four strings. No decision of the handler or the client reads them, so any other payload shape would behave the same.
- src/components/AnalysisResult.tsx (React UI, PDF export through jsPDF and html2canvas, floating-point page layout) and vite.config.ts (build configuration): no request-handling logic.
