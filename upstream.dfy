/**
 * What the hosted inference provider's SDK can hand back: a payload, or a thrown
 * value. The SDK itself is not modelled; its results are inputs.
 */
module Upstream {
  import opened Common
  import opened JsonValues

  /** The two API surfaces of the provider (`"chat"` and `"responses"`). */
  datatype ApiMode = Chat | Responses

  /**
   * A thrown value:
   * - ApiError: an `APIError` with its optional numeric `status`, the optional
   *   nested `error.message` and its own `message`;
   * - ErrorValue: any other `Error` instance, with its `message`;
   * - NonError: a thrown value that is not an `Error`.
   */
  datatype Thrown =
    | ApiError(status: Option<int>, detail: Option<string>, message: string)
    | ErrorValue(message: string)
    | NonError

  /** The result of one upstream call: the payload it returned, or what it threw. */
  datatype CallOutcome = Returned(payload: Json) | Threw(error: Thrown)

  /** `error.error?.message || error.message` for an `APIError`. */
  function ApiErrorText(e: Thrown): (r: string)
    requires e.ApiError?
    ensures e.detail.Some? && e.detail.value != "" ==> r == e.detail.value
    ensures (e.detail.None? || e.detail.value == "") ==> r == e.message
  {
    match e.detail
    case Some(d) => if d != "" then d else e.message
    case None => e.message
  }

  /** The HTTP status a route answers an upstream failure with. */
  function ErrorStatus(e: Thrown): (status: int)
    ensures e.ApiError? && e.status.Some? ==> status == e.status.value
    ensures !(e.ApiError? && e.status.Some?) ==> status == 500
  {
    match e
    case ApiError(Some(s), _, _) => s
    case _ => 500
  }

  /**
   * The error text a route answers an upstream failure with; an empty text is
   * replaced by the route's own `fallback`.
   */
  function ErrorText(e: Thrown, fallback: string): (message: string)
    requires fallback != ""
    ensures message != ""
    ensures e.NonError? ==> message == "Unknown error."
    ensures e.ErrorValue? ==> message == (if e.message != "" then e.message else fallback)
    ensures e.ApiError? ==> message == (if ApiErrorText(e) != "" then ApiErrorText(e) else fallback)
  {
    var text := match e
      case ApiError(_, _, _) => ApiErrorText(e)
      case ErrorValue(m) => m
      case NonError => "Unknown error.";
    if text != "" then text else fallback
  }

  /** An error's message is kept exactly when it is not empty. */
  lemma ErrorTextKeepsMessage(e: Thrown, fallback: string)
    requires fallback != ""
    requires e.ErrorValue?
    ensures ErrorText(e, fallback) == e.message <==> e.message != ""
  {
  }
}

/** The provider client adapter: credential check and model override resolution. */
module OpenAi {
  import opened Common
  import opened Text
  import opened JsonValues
  import Http

  /**
   * Process configuration, read once: the `HF_TOKEN` variable (None when unset)
   * and the build-time default model name `MODEL_NAME`.
   */
  datatype Config = Config(hfToken: Option<string>, defaultModel: string)

  const MissingTokenMessage := "Missing HF_TOKEN environment variable."

  /** `getHfClient()`: a client bound to the token, or the ready-made 500 response. */
  datatype ClientResult = ClientReady(apiKey: string) | ClientMissing(response: Http.Response)

  function GetHfClient(config: Config): (r: ClientResult)
    ensures r.ClientMissing? <==> config.hfToken.None? || config.hfToken.value == ""
    ensures r.ClientMissing? ==> r.response == Http.JsonError(500, MissingTokenMessage)
    ensures r.ClientMissing? ==> r.response.status == 500
    ensures r.ClientReady? ==> Some(r.apiKey) == config.hfToken && r.apiKey != ""
  {
    match config.hfToken
    case Some(token) =>
      if token != "" then ClientReady(token) else ClientMissing(Http.JsonError(500, MissingTokenMessage))
    case None => ClientMissing(Http.JsonError(500, MissingTokenMessage))
  }

  /** `resolveModel(override)`: a non-blank string override, trimmed, else the default. */
  function ResolveModel(override: Option<Json>, config: Config): (model: string)
    ensures match override
      case Some(JString(s)) => model == (if !IsBlank(s) then Trim(s) else config.defaultModel)
      case _ => model == config.defaultModel
  {
    match override
    case Some(JString(s)) => if !IsBlank(s) then Trim(s) else config.defaultModel
    case _ => config.defaultModel
  }

  /**
   * A model taken from the override is never blank and carries no leading or
   * trailing white space; resolving it again gives it back.
   */
  lemma OverrideIsClean(s: string, config: Config)
    requires !IsBlank(s)
    ensures var m := ResolveModel(Some(JString(s)), config);
      && m == Trim(s) && !IsBlank(m)
      && !IsSpace(m[0]) && !IsSpace(m[|m| - 1])
      && ResolveModel(Some(JString(m)), config) == m
  {
    var m := Trim(s);
    TrimIdempotent(s);
  }
}
