/**
 * Structured output: finding the text or the parsed value in a provider
 * payload, the one retry without a schema, and the classification of the
 * outcome into `data`, `raw` and `meta`.
 */
module Structured {
  import opened Common
  import opened Text
  import opened JsonValues
  import opened Upstream

  // ---------------------------------------------------------------------------
  // First-match search

  /** The first `f(x)` that is Some, scanning `xs` from the front. */
  function FirstSome<A, B(==)>(xs: seq<A>, f: A -> Option<B>): (r: Option<B>)
    ensures r.None? <==> forall i :: 0 <= i < |xs| ==> f(xs[i]).None?
    ensures r.Some? ==> exists i :: 0 <= i < |xs| && f(xs[i]) == r && forall j :: 0 <= j < i ==> f(xs[j]).None?
    decreases |xs|
  {
    if xs == [] then None
    else if f(xs[0]).Some? then f(xs[0])
    else
      var r := FirstSome(xs[1..], f);
      assert forall i :: 0 <= i < |xs| - 1 ==> xs[1..][i] == xs[i + 1];
      if r.Some? then
        var i :| 0 <= i < |xs[1..]| && f(xs[1..][i]) == r && forall j :: 0 <= j < i ==> f(xs[1..][j]).None?;
        assert f(xs[i + 1]) == r;
        r
      else r
  }

  /** Searching a concatenation: the first half wins when it has a match. */
  lemma {:induction false} FirstSomeAppend<A, B>(a: seq<A>, b: seq<A>, f: A -> Option<B>)
    ensures FirstSome(a + b, f) == if FirstSome(a, f).Some? then FirstSome(a, f) else FirstSome(b, f)
    decreases |a|
  {
    if a != [] {
      assert (a + b)[0] == a[0];
      assert (a + b)[1..] == a[1..] + b;
      FirstSomeAppend(a[1..], b, f);
    } else {
      assert a + b == b;
    }
  }

  // ---------------------------------------------------------------------------
  // Payload shape

  /** `payload.output` when it is an array, else no items. */
  function OutputItems(payload: Json): seq<Json>
  {
    match Field(payload, "output")
    case Some(JArray(items)) => items
    case _ => []
  }

  /** `payload.choices` when it is an array, else no choices. */
  function Choices(payload: Json): seq<Json>
  {
    match Field(payload, "choices")
    case Some(JArray(choices)) => choices
    case _ => []
  }

  /** The content parts of an item whose `type` is "message" and whose `content` is an array. */
  function MessageParts(item: Json): seq<Json>
  {
    if Field(item, "type") == Some(JString("message")) then
      match Field(item, "content")
      case Some(JArray(parts)) => parts
      case _ => []
    else []
  }

  /** Every content part of every message item, in document order. */
  function AllMessageParts(items: seq<Json>): seq<Json>
  {
    if items == [] then [] else MessageParts(items[0]) + AllMessageParts(items[1..])
  }

  /** A string value with something other than white space in it. */
  function NonBlank(v: Option<Json>): (r: Option<string>)
    ensures r.Some? <==> v.Some? && v.value.JString? && !IsBlank(v.value.s)
    ensures r.Some? ==> v == Some(JString(r.value))
  {
    match v
    case Some(JString(s)) => if !IsBlank(s) then Some(s) else None
    case _ => None
  }

  /** A value that is neither undefined nor null. */
  function Present(v: Option<Json>): (r: Option<Json>)
    ensures r.Some? <==> v.Some? && !v.value.JNull?
    ensures r.Some? ==> v == r
  {
    match v
    case Some(JNull) => None
    case _ => v
  }

  predicate IsOutputTextPart(part: Json) {
    Field(part, "type") == Some(JString("output_text"))
  }

  /** The text of an `output_text` part when it is a non-blank string. */
  function PartText(part: Json): Option<string>
  {
    if IsOutputTextPart(part) then NonBlank(Field(part, "text")) else None
  }

  /** The `parsed` value of an `output_text` part when it is neither undefined nor null. */
  function PartParsed(part: Json): Option<Json>
  {
    if IsOutputTextPart(part) then Present(Field(part, "parsed")) else None
  }

  /** The inner loop over one item's parts, for text. */
  function ItemText(item: Json): Option<string>
  {
    FirstSome(MessageParts(item), PartText)
  }

  /** The inner loop over one item's parts, for parsed values. */
  function ItemParsed(item: Json): Option<Json>
  {
    FirstSome(MessageParts(item), PartParsed)
  }

  /** `choice.message.content` when it is a non-blank string. */
  function ChoiceText(choice: Json): Option<string>
  {
    NonBlank(Lookup(Field(choice, "message"), "content"))
  }

  /**
   * The nested search over items and their parts finds what a flat search over
   * all message parts finds.
   */
  lemma {:induction false} NestedSearchIsFlat<B>(items: seq<Json>, f: Json -> Option<B>, g: Json -> Option<B>)
    requires forall item :: g(item) == FirstSome(MessageParts(item), f)
    ensures FirstSome(items, g) == FirstSome(AllMessageParts(items), f)
    decreases |items|
  {
    if items != [] {
      NestedSearchIsFlat(items[1..], f, g);
      FirstSomeAppend(MessageParts(items[0]), AllMessageParts(items[1..]), f);
    }
  }

  // ---------------------------------------------------------------------------
  // The two coalescers

  /**
   * `coalesceOutputText`: the first non-blank text, taking the top-level
   * `output_text`, then the `output_text` parts of message items, then the
   * choices' message contents; None for a payload that is not an object.
   */
  function OutputText(payload: Json): (r: Option<string>)
    ensures r.Some? ==> !IsBlank(r.value)
    ensures !IsObject(payload) ==> r.None?
  {
    if !IsObject(payload) then None
    else
      var top := NonBlank(Field(payload, "output_text"));
      if top.Some? then top
      else
        var fromItems := FirstSome(OutputItems(payload), ItemText);
        if fromItems.Some? then fromItems
        else FirstSome(Choices(payload), ChoiceText)
  }

  /**
   * The priority of the text sources, against a flat search over all message
   * parts: top-level text first, then the first non-blank `output_text` part
   * in document order, then the first non-blank choice content.
   */
  lemma OutputTextPriority(payload: Json)
    requires IsObject(payload)
    ensures var top := NonBlank(Field(payload, "output_text"));
      var part := FirstSome(AllMessageParts(OutputItems(payload)), PartText);
      var choice := FirstSome(Choices(payload), ChoiceText);
      OutputText(payload) ==
        if top.Some? then top else if part.Some? then part else choice
  {
    NestedSearchIsFlat(OutputItems(payload), PartText, ItemText);
  }

  /**
   * `coalesceParsedOutput`: a present `output_parsed`, else the first present
   * `parsed` of an `output_text` part of a message item; never null.
   */
  function ParsedOutput(payload: Json): (r: Option<Json>)
    ensures r.Some? ==> !r.value.JNull?
    ensures !IsObject(payload) ==> r.None?
  {
    if !IsObject(payload) then None
    else
      var top := Present(Field(payload, "output_parsed"));
      if top.Some? then top
      else
        var fromItems := FirstSome(OutputItems(payload), ItemParsed);
        fromItems
  }

  /** The priority of the parsed sources, against a flat search over all message parts. */
  lemma ParsedOutputPriority(payload: Json)
    requires IsObject(payload)
    ensures var top := Present(Field(payload, "output_parsed"));
      ParsedOutput(payload) ==
        if top.Some? then top else FirstSome(AllMessageParts(OutputItems(payload)), PartParsed)
  {
    NestedSearchIsFlat(OutputItems(payload), PartParsed, ItemParsed);
  }

  // ---------------------------------------------------------------------------
  // Negotiation

  const SystemFallback :=
    "You are a helpful assistant that returns compact JSON matching this schema: { headline: string, audience: string, takeaways: string[] }. If you cannot comply, explain why."
  const ChatSystemPrompt :=
    "You are a helpful assistant that returns concise JSON meeting the provided schema. Do not include markdown."

  const ReadyMessage := "Structured output ready."
  const WithoutSchemaMessage := "Model returned valid JSON without enforcing the schema."
  const NoJsonMessage := "Model could not return JSON for the schema. Try a model with structured output support."
  const EmptyResponseMessage := "The model returned an empty response."
  const InvalidJsonMessage := "The model response was not valid JSON."

  /**
   * One request to the provider: the API surface, the model, the prompt, the
   * system instructions sent with it and whether it asked for the JSON schema.
   */
  datatype Attempt = Attempt(mode: ApiMode, model: string, prompt: string, instructions: Option<string>, withSchema: bool)

  /** The first request: with the schema (and, in chat mode, the chat system prompt). */
  function SchemaAttempt(mode: ApiMode, model: string, prompt: string): Attempt
  {
    Attempt(mode, model, prompt, if mode == Chat then Some(ChatSystemPrompt) else None, true)
  }

  /** The retry: no schema, the fallback instructions instead. */
  function PlainAttempt(mode: ApiMode, model: string, prompt: string): Attempt
  {
    Attempt(mode, model, prompt, Some(SystemFallback), false)
  }

  datatype Meta = Meta(model: string, usedSchema: bool, schemaError: Option<string>, mode: ApiMode, message: string)

  /** The negotiated result; `raw` is None where the code leaves it undefined. */
  datatype StructuredResponse = StructuredResponse(data: Json, raw: Option<string>, meta: Meta)

  /** What `runStructuredRequest` did: the requests it sent and what it returned or threw. */
  datatype Negotiation = Negotiation(attempts: seq<Attempt>, result: Result<StructuredResponse, Thrown>)

  /** Whether a thrown value makes the code retry without the schema. */
  predicate IsSchemaRejection(e: Thrown) {
    e.ApiError? && e.status == Some(400)
  }

  /**
   * The classification of a completion payload: `parse` stands for `JSON.parse`
   * (None where it throws).
   *
   * It fails with the empty-response error exactly when no text and no parsed
   * candidate is found, and with the invalid-JSON error exactly when, with the
   * schema in use, the text is the only source and does not parse. A parsed
   * candidate (responses mode only) is used as is; otherwise the data is the
   * parse of the text. The status message is the ready one iff the output
   * parsed with the schema, the without-schema one iff it parsed without it,
   * and the third one iff `raw` is set, which happens only without the schema.
   */
  function Classify(completion: Json, model: string, mode: ApiMode, usedSchema: bool,
                    schemaError: Option<string>, parse: string -> Option<Json>): (r: Result<StructuredResponse, Thrown>)
    ensures var candidate := if mode == Responses then ParsedOutput(completion) else None;
      && (r == Err(ErrorValue(EmptyResponseMessage)) <==> OutputText(completion).None? && candidate.None?)
      && (r == Err(ErrorValue(InvalidJsonMessage)) <==>
            && usedSchema && candidate.None? && OutputText(completion).Some?
            && parse(OutputText(completion).value).None?)
      && (r.Err? ==> r == Err(ErrorValue(EmptyResponseMessage)) || r == Err(ErrorValue(InvalidJsonMessage)))
      && (candidate.Some? ==> r.Ok? && r.value.data == candidate.value && r.value.raw.None?)
      && (r.Ok? && candidate.None? && r.value.raw.None? ==> parse(OutputText(completion).value) == Some(r.value.data))
    ensures r.Ok? ==>
      var m := r.value.meta;
      && m == Meta(model, usedSchema, schemaError, mode, m.message)
      && (m.message == ReadyMessage <==> r.value.raw.None? && usedSchema)
      && (m.message == WithoutSchemaMessage <==> r.value.raw.None? && !usedSchema)
      && (m.message == NoJsonMessage <==> r.value.raw.Some?)
      && (r.value.raw.Some? ==>
            && !usedSchema && r.value.data == JNull && r.value.raw == OutputText(completion)
            && !IsBlank(r.value.raw.value))
  {
    var content := OutputText(completion);
    var candidate := if mode == Responses then ParsedOutput(completion) else None;
    if content.None? && candidate.None? then Err(ErrorValue(EmptyResponseMessage))
    else if candidate.Some? then
      Ok(StructuredResponse(candidate.value, None, Meta(model, usedSchema, schemaError, mode,
        if usedSchema then ReadyMessage else WithoutSchemaMessage)))
    else
      match parse(content.value)
      case Some(v) =>
        Ok(StructuredResponse(v, None, Meta(model, usedSchema, schemaError, mode,
          if usedSchema then ReadyMessage else WithoutSchemaMessage)))
      case None =>
        if usedSchema then Err(ErrorValue(InvalidJsonMessage))
        else Ok(StructuredResponse(JNull, content, Meta(model, usedSchema, schemaError, mode, NoJsonMessage)))
  }

  /**
   * `runStructuredRequest` as a value: `first` and `second` are the outcomes
   * of the request with the schema and of the retry without it.
   */
  function Negotiate(prompt: string, model: string, mode: ApiMode, first: CallOutcome, second: CallOutcome,
                     parse: string -> Option<Json>): (n: Negotiation)
    // the retry: exactly after an API error with status 400, without the schema, with the fallback instructions
    ensures 1 <= |n.attempts| <= 2 && n.attempts[0] == SchemaAttempt(mode, model, prompt)
    ensures |n.attempts| == 2 <==> first.Threw? && IsSchemaRejection(first.error)
    ensures |n.attempts| == 2 ==> n.attempts[1] == PlainAttempt(mode, model, prompt)
    // every other error is rethrown unchanged, and so is an error of the retry
    ensures first.Threw? && !IsSchemaRejection(first.error) ==> n.result == Err(first.error)
    ensures first.Threw? && IsSchemaRejection(first.error) && second.Threw? ==> n.result == Err(second.error)
    // the schema was used exactly when the first request succeeded; otherwise the rejection's message is kept
    ensures n.result.Ok? ==>
      var m := n.result.value.meta;
      && (m.usedSchema <==> first.Returned?)
      && (m.usedSchema <==> m.schemaError.None?)
      && (first.Threw? ==> m.schemaError == Some(ApiErrorText(first.error)))
      && (n.result.value.raw.Some? ==> !m.usedSchema)
      && (m.message == ReadyMessage <==> n.result.value.raw.None? && m.usedSchema)
      && (m.message == WithoutSchemaMessage <==> n.result.value.raw.None? && !m.usedSchema)
      && (m.message == NoJsonMessage <==> n.result.value.raw.Some?)
  {
    var schemaCall := SchemaAttempt(mode, model, prompt);
    match first
    case Returned(payload) => Negotiation([schemaCall], Classify(payload, model, mode, true, None, parse))
    case Threw(e) =>
      if !IsSchemaRejection(e) then Negotiation([schemaCall], Err(e))
      else
        var attempts := [schemaCall, PlainAttempt(mode, model, prompt)];
        match second
        case Threw(e2) => Negotiation(attempts, Err(e2))
        case Returned(payload) => Negotiation(attempts, Classify(payload, model, mode, false, Some(ApiErrorText(e)), parse))
  }

  /** `runStructuredRequest`, with its locals updated step by step. */
  method RunStructuredRequest(prompt: string, model: string, mode: ApiMode, first: CallOutcome, second: CallOutcome,
                              parse: string -> Option<Json>) returns (attempts: seq<Attempt>, result: Result<StructuredResponse, Thrown>)
    ensures Negotiation(attempts, result) == Negotiate(prompt, model, mode, first, second, parse)
  {
    var usedSchema := true;
    var schemaErrorMessage: Option<string> := None;
    var completion: Json;
    attempts := [SchemaAttempt(mode, model, prompt)];
    match first {
      case Returned(payload) =>
        completion := payload;
      case Threw(e) =>
        if IsSchemaRejection(e) {
          usedSchema := false;
          schemaErrorMessage := Some(ApiErrorText(e));
          attempts := attempts + [PlainAttempt(mode, model, prompt)];
          match second {
            case Returned(payload) =>
              completion := payload;
            case Threw(e2) =>
              return attempts, Err(e2);
          }
        } else {
          return attempts, Err(e);
        }
    }

    var resolvedContent := OutputText(completion);
    var parsedCandidate := if mode == Responses then ParsedOutput(completion) else None;
    if resolvedContent.None? && parsedCandidate.None? {
      return attempts, Err(ErrorValue(EmptyResponseMessage));
    }

    var parsed := parsedCandidate;
    var parsedSuccessfully := parsedCandidate.Some?;
    if !parsedSuccessfully && resolvedContent.Some? {
      var attempt := parse(resolvedContent.value);
      if attempt.Some? {
        parsed := attempt;
        parsedSuccessfully := true;
      } else if usedSchema {
        return attempts, Err(ErrorValue(InvalidJsonMessage));
      }
    }

    var message := if parsedSuccessfully then (if usedSchema then ReadyMessage else WithoutSchemaMessage) else NoJsonMessage;
    result := Ok(StructuredResponse(
      if parsedSuccessfully then parsed.value else JNull,
      if parsedSuccessfully then None else resolvedContent,
      Meta(model, usedSchema, schemaErrorMessage, mode, message)));
  }

  /** In chat mode the parsed sources are never consulted: only the text decides. */
  lemma ChatIgnoresParsed(a: Json, b: Json, model: string, usedSchema: bool,
                          schemaError: Option<string>, parse: string -> Option<Json>)
    requires OutputText(a) == OutputText(b)
    ensures Classify(a, model, Chat, usedSchema, schemaError, parse) ==
            Classify(b, model, Chat, usedSchema, schemaError, parse)
  {
  }

  /**
   * In chat mode, a first request that succeeds with text parsing to `value`
   * gives `value` as the data, the schema used and the ready message.
   */
  lemma SchemaHonoured(prompt: string, model: string, payload: Json, text: string, value: Json,
                       second: CallOutcome, parse: string -> Option<Json>)
    requires OutputText(payload) == Some(text) && parse(text) == Some(value)
    ensures Negotiate(prompt, model, Chat, Returned(payload), second, parse) ==
      Negotiation([SchemaAttempt(Chat, model, prompt)],
        Ok(StructuredResponse(value, None, Meta(model, true, None, Chat, ReadyMessage))))
  {
  }

  /** `resolveStructuredMode(value)`: responses only for the exact string "responses". */
  function ResolveStructuredMode(value: Option<Json>): (mode: ApiMode)
    ensures mode == Responses <==> value == Some(JString("responses"))
  {
    if value == Some(JString("responses")) then Responses else Chat
  }

  /** `JSON.stringify(result)` as a value: undefined fields are omitted. */
  function MetaToJson(m: Meta): Json
  {
    var base := map[
      "model" := JString(m.model),
      "usedSchema" := JBool(m.usedSchema),
      "mode" := JString(if m.mode == Responses then "responses" else "chat"),
      "message" := JString(m.message)];
    JObject(match m.schemaError case Some(e) => base["schemaError" := JString(e)] case None => base)
  }

  function ToJson(r: StructuredResponse): (j: Json)
    ensures Field(j, "data") == Some(r.data)
    ensures Field(j, "raw") == (match r.raw case Some(t) => Some(JString(t)) case None => None)
    ensures Lookup(Field(j, "meta"), "message") == Some(JString(r.meta.message))
    ensures Lookup(Field(j, "meta"), "schemaError") ==
      (match r.meta.schemaError case Some(e) => Some(JString(e)) case None => None)
  {
    var base := map["data" := r.data, "meta" := MetaToJson(r.meta)];
    JObject(match r.raw case Some(t) => base["raw" := JString(t)] case None => base)
  }
}
