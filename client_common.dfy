/**
 * What the two client hooks share: the body checks they run before sending a
 * request, and the reason they show for a reply that is not OK.
 */
module ClientRequests {
  import opened Common
  import opened Text
  import opened JsonValues
  import opened Upstream
  import Http
  import Routes
  import ChatRoute

  /**
   * The hooks' prompt check: a body object with a `prompt` key passes only when
   * the prompt is a non-blank string; any other body passes.
   */
  predicate PromptPresent(body: Json)
  {
    body.JObject? && "prompt" in body.fields ==>
      body.fields["prompt"].JString? && !IsBlank(body.fields["prompt"].s)
  }

  /**
   * The streaming hook's messages check: a body object with a `messages` key
   * passes only when it is a non-empty array; any other body passes.
   */
  predicate MessagesPresent(body: Json)
  {
    body.JObject? && "messages" in body.fields ==>
      body.fields["messages"].JArray? && body.fields["messages"].items != []
  }

  /**
   * The client's prompt check agrees with the routes' prompt check whenever
   * the body carries a `prompt`; a body without one passes on the client and
   * is refused by the routes.
   */
  lemma PromptCheckAgreesWithRoutes(body: Json)
    ensures body.JObject? && "prompt" in body.fields ==>
      (PromptPresent(body) <==> Routes.PromptText(Routes.BodyField(body, "prompt")) != "")
    ensures body.JObject? && "prompt" !in body.fields ==>
      PromptPresent(body) && Routes.PromptText(Routes.BodyField(body, "prompt")) == ""
  {
    if body.JObject? && "prompt" in body.fields {
      match body.fields["prompt"]
      case JString(s) =>
        if !IsBlank(s) {
          var t := Trim(s);
          assert !IsSpace(t[0]) by { TrimIdempotent(s); }
        }
      case _ =>
    }
  }

  /** The same for `messages` and the chat route. */
  lemma MessagesCheckAgreesWithChatRoute(body: Json)
    ensures body.JObject? && "messages" in body.fields ==>
      (MessagesPresent(body) <==> ChatRoute.Messages(Routes.BodyField(body, "messages")).Some?)
    ensures body.JObject? && "messages" !in body.fields ==>
      MessagesPresent(body) && ChatRoute.Messages(Routes.BodyField(body, "messages")).None?
  {
  }

  const StatusPrefix := "Request failed with status "

  /**
   * The reason shown for a reply that is not OK: `parse` stands for
   * `JSON.parse` (None where it throws). A parsed `error` string wins; an
   * unparseable, non-empty payload is shown as is; otherwise the status.
   */
  function FailureReason(status: nat, payload: string, parse: string -> Option<Json>): (reason: string)
    ensures parse(payload).Some? && StringOf(Field(parse(payload).value, "error")).Some? ==>
      reason == StringOf(Field(parse(payload).value, "error")).value
    ensures parse(payload).None? && payload != "" ==> reason == payload
    ensures (parse(payload).Some? && StringOf(Field(parse(payload).value, "error")).None?) ||
            (parse(payload).None? && payload == "") ==>
      reason == StatusPrefix + NatToString(status)
  {
    var fallback := StatusPrefix + NatToString(status);
    match parse(payload)
    case Some(parsed) =>
      (match StringOf(Field(parsed, "error"))
       case Some(e) => e
       case None => fallback)
    case None => if payload != "" then payload else fallback
  }

  /**
   * An error response of the routes reads back as its own message, as long as
   * its serialised body parses to what it was.
   */
  lemma ServerErrorReadsBack(status: nat, error: string, payload: string, parse: string -> Option<Json>)
    requires parse(payload) == Some(Http.JsonError(status, error).body.value)
    ensures FailureReason(status, payload, parse) == error
  {
  }

  /** When the status is the reason, it is written in decimal after the fixed prefix. */
  lemma StatusReasonNamesStatus(status: nat, payload: string, parse: string -> Option<Json>)
    requires parse(payload).None? && payload == ""
    ensures var reason := FailureReason(status, payload, parse);
      && reason[..|StatusPrefix|] == StatusPrefix
      && DecimalValue(reason[|StatusPrefix|..]) == status
  {
    var reason := FailureReason(status, payload, parse);
    assert reason[|StatusPrefix|..] == NatToString(status);
    NatToStringRoundTrip(status);
  }
}
