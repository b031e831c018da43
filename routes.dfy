/**
 * What the three POST routes share: reading the JSON body, the trace of what a
 * route did (read the body? which upstream call?), the prompt rule and the
 * mapping of an upstream failure to a JSON error.
 */
module Routes {
  import opened Common
  import opened Text
  import opened JsonValues
  import opened Upstream
  import Http

  /** `req.json()`: the parsed body, or a parse failure. */
  datatype BodyRead = Parsed(value: Json) | InvalidJson

  const InvalidBodyMessage := "Invalid JSON body."

  /** `readJson(req)`: the body, or the ready-made 400 response. */
  function ReadJson(body: BodyRead): (r: Result<Json, Http.Response>)
    ensures body.Parsed? ==> r == Ok(body.value)
    ensures body.InvalidJson? ==> r == Err(Http.JsonError(400, InvalidBodyMessage))
  {
    match body
    case Parsed(v) => Ok(v)
    case InvalidJson => Err(Http.JsonError(400, InvalidBodyMessage))
  }

  /** `payloadResult.data ?? {}` followed by destructuring: the property `key`, or undefined. */
  function BodyField(data: Json, key: string): (r: Option<Json>)
    ensures r.Some? <==> data.JObject? && key in data.fields
    ensures r.Some? ==> r.value == data.fields[key]
  {
    if data.JNull? then None else Field(data, key)
  }

  /** The upstream request a route issued. */
  datatype UpstreamCall =
    | ChatCompletionCall(model: string, messages: seq<Json>)
    | ResponsesStreamCall(model: string, input: string)
    | StructuredCall(prompt: string, model: string, mode: ApiMode)

  /** What one POST did: whether it read the body, the upstream call it made, and its response. */
  datatype RouteTrace = RouteTrace(bodyRead: bool, call: Option<UpstreamCall>, response: Http.Response)

  /** The headers of a streamed text response. */
  const StreamHeaders: map<string, string> := map[
    "Cache-Control" := "no-cache, no-store, must-revalidate",
    "Content-Type" := "text/plain; charset=utf-8"]

  /** `new Response(readableStream, { headers })`: status 200 with the two stream headers. */
  const StreamResponse := Http.Response(200, StreamHeaders, Http.TextStreamBody)

  const PromptMissingMessage := "Provide a prompt string."

  /** `typeof prompt === "string" ? prompt.trim() : ""` */
  function PromptText(prompt: Option<Json>): (text: string)
    ensures text != [] ==> exists s :: prompt == Some(JString(s)) && text == Trim(s) && !IsBlank(s)
    ensures text == [] <==> match prompt case Some(JString(s)) => IsBlank(s) case _ => true
  {
    match prompt
    case Some(JString(s)) => Trim(s)
    case _ => ""
  }

  /** The JSON error answering an upstream failure: its status (else 500), its message (else `fallback`). */
  function FailureResponse(e: Thrown, fallback: string): (r: Http.Response)
    requires fallback != ""
    ensures r.status == ErrorStatus(e)
    ensures r == Http.JsonError(ErrorStatus(e), ErrorText(e, fallback))
  {
    Http.JsonError(ErrorStatus(e), ErrorText(e, fallback))
  }
}
