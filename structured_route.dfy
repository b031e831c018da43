/**
 * `POST /api/structured`: validate the prompt, resolve model and mode, run the
 * negotiation and answer with its result or the mapped error.
 */
module StructuredRoute {
  import opened Common
  import opened Text
  import opened JsonValues
  import opened Upstream
  import Http
  import OpenAi
  import Routes
  import Structured

  const FailureFallback := "Structured request failed."

  /**
   * `POST`: credential, then body, then prompt; `first`, `second` and `parse`
   * are the provider's answers and `JSON.parse`, as in `Structured.Negotiate`.
   */
  function Post(config: OpenAi.Config, body: Routes.BodyRead, first: CallOutcome, second: CallOutcome,
                parse: string -> Option<Json>): (t: Routes.RouteTrace)
    ensures OpenAi.GetHfClient(config).ClientMissing? ==>
      t == Routes.RouteTrace(false, None, OpenAi.GetHfClient(config).response)
    ensures OpenAi.GetHfClient(config).ClientReady? ==> t.bodyRead
    ensures OpenAi.GetHfClient(config).ClientReady? && body.InvalidJson? ==>
      t.response == Http.JsonError(400, Routes.InvalidBodyMessage)
    ensures t.call.Some? <==>
      && OpenAi.GetHfClient(config).ClientReady? && body.Parsed?
      && Routes.PromptText(Routes.BodyField(body.value, "prompt")) != ""
    ensures OpenAi.GetHfClient(config).ClientReady? && body.Parsed? && t.call.None? ==>
      t.response == Http.JsonError(400, Routes.PromptMissingMessage)
    ensures t.call.Some? ==> t.call.value == Routes.StructuredCall(
      Routes.PromptText(Routes.BodyField(body.value, "prompt")),
      OpenAi.ResolveModel(Routes.BodyField(body.value, "model"), config),
      Structured.ResolveStructuredMode(Routes.BodyField(body.value, "mode")))
    ensures t.call.Some? ==>
      var c := t.call.value;
      var n := Structured.Negotiate(c.prompt, c.model, c.mode, first, second, parse);
      match n.result
      case Ok(r) => t.response == Http.JsonResponse(Structured.ToJson(r), Http.ResponseInit(Some(200), []))
      case Err(e) => t.response == Routes.FailureResponse(e, FailureFallback)
  {
    match OpenAi.GetHfClient(config)
    case ClientMissing(response) => Routes.RouteTrace(false, None, response)
    case ClientReady(_) =>
      match Routes.ReadJson(body)
      case Err(response) => Routes.RouteTrace(true, None, response)
      case Ok(data) =>
        var promptText := Routes.PromptText(Routes.BodyField(data, "prompt"));
        if promptText == "" then Routes.RouteTrace(true, None, Http.JsonError(400, Routes.PromptMissingMessage))
        else
          var chosenModel := OpenAi.ResolveModel(Routes.BodyField(data, "model"), config);
          var apiMode := Structured.ResolveStructuredMode(Routes.BodyField(data, "mode"));
          var call := Routes.StructuredCall(promptText, chosenModel, apiMode);
          match Structured.Negotiate(promptText, chosenModel, apiMode, first, second, parse).result
          case Ok(structured) =>
            Routes.RouteTrace(true, Some(call), Http.JsonResponse(Structured.ToJson(structured), Http.ResponseInit(Some(200), [])))
          case Err(e) => Routes.RouteTrace(true, Some(call), Routes.FailureResponse(e, FailureFallback))
  }

  /**
   * A successful negotiation is answered with status 200, the JSON content
   * type only, and the result as the body, unchanged.
   */
  lemma SuccessIsUnchanged(config: OpenAi.Config, body: Routes.BodyRead, first: CallOutcome, second: CallOutcome,
                           parse: string -> Option<Json>)
    requires Post(config, body, first, second, parse).call.Some?
    ensures var t := Post(config, body, first, second, parse);
      var c := t.call.value;
      var n := Structured.Negotiate(c.prompt, c.model, c.mode, first, second, parse);
      && (n.result.Ok? ==>
            && t.response.status == 200
            && t.response.headers == map[Http.ContentType := Http.JsonContentType]
            && t.response.body == Http.JsonBody(Structured.ToJson(n.result.value)))
      && (n.result.Err? ==> t.response.status == ErrorStatus(n.result.error))
  {
    var t := Post(config, body, first, second, parse);
    var c := t.call.value;
    var n := Structured.Negotiate(c.prompt, c.model, c.mode, first, second, parse);
    if n.result.Ok? {
      Http.DefaultHeadersOnly([]);
    }
  }

  /**
   * A valid prompt in chat mode, answered with text that parses: status 200,
   * the parsed value as `data`, the schema used and the ready message.
   */
  lemma {:induction false} SchemaHonouredInChat(config: OpenAi.Config, data: Json, payload: Json, text: string, value: Json,
                             second: CallOutcome, parse: string -> Option<Json>)
    requires config.hfToken.Some? && config.hfToken.value != ""
    requires Routes.PromptText(Routes.BodyField(data, "prompt")) != ""
    requires Structured.ResolveStructuredMode(Routes.BodyField(data, "mode")) == Chat
    requires Structured.OutputText(payload) == Some(text) && parse(text) == Some(value)
    ensures var t := Post(config, Routes.Parsed(data), Returned(payload), second, parse);
      && t.response.status == 200
      && t.response.body == Http.JsonBody(Structured.ToJson(Structured.StructuredResponse(value, None,
           Structured.Meta(OpenAi.ResolveModel(Routes.BodyField(data, "model"), config), true, None, Chat,
             Structured.ReadyMessage))))
  {
    var prompt := Routes.PromptText(Routes.BodyField(data, "prompt"));
    var model := OpenAi.ResolveModel(Routes.BodyField(data, "model"), config);
    Structured.SchemaHonoured(prompt, model, payload, text, value, second, parse);
  }

  /** The same for a body holding only the prompt "Summarize X": the configured model is used. */
  lemma {:induction false} SchemaHonouredExample(config: OpenAi.Config, payload: Json, text: string, value: Json,
                              second: CallOutcome, parse: string -> Option<Json>)
    requires config.hfToken.Some? && config.hfToken.value != ""
    requires Structured.OutputText(payload) == Some(text) && parse(text) == Some(value)
    ensures var body := Routes.Parsed(JObject(map["prompt" := JString("Summarize X")]));
      var t := Post(config, body, Returned(payload), second, parse);
      && t.response.status == 200
      && t.response.body == Http.JsonBody(Structured.ToJson(Structured.StructuredResponse(
           value, None, Structured.Meta(config.defaultModel, true, None, Chat, Structured.ReadyMessage))))
  {
    var data := JObject(map["prompt" := JString("Summarize X")]);
    SummarizeFields(data, config);
    SchemaHonouredInChat(config, data, payload, text, value, second, parse);
  }

  /** The body `{prompt: "Summarize X"}` carries a usable prompt, no mode and no model. */
  lemma {:induction false} SummarizeFields(data: Json, config: OpenAi.Config)
    requires data == JObject(map["prompt" := JString("Summarize X")])
    ensures Routes.PromptText(Routes.BodyField(data, "prompt")) != ""
    ensures Structured.ResolveStructuredMode(Routes.BodyField(data, "mode")) == Chat
    ensures OpenAi.ResolveModel(Routes.BodyField(data, "model"), config) == config.defaultModel
  {
    var prompt := "Summarize X";
    assert Routes.BodyField(data, "prompt") == Some(JString(prompt));
    assert Routes.BodyField(data, "model") == None && Routes.BodyField(data, "mode") == None;
    assert !IsBlank(prompt) by {
      assert prompt[0] == 'S' && !IsSpace(prompt[0]);
      BlankIffAllSpace(prompt);
    }
  }
}
