/**
 * The client side of the structured demo: a request state `{result, raw,
 * status, message, schemaHint}` replaced at each transition.
 */
module StructuredHook {
  import opened Common
  import opened Text
  import opened JsonValues
  import opened Upstream
  import ClientRequests
  import Structured

  datatype LoadStatus = Idle | Loading | Failed

  datatype StructuredState = StructuredState(
    result: Option<Json>, raw: Option<string>, status: LoadStatus, message: Option<string>, schemaHint: Option<string>)

  const Initial := StructuredState(None, None, Idle, None, None)
  const Started := StructuredState(None, None, Loading, None, None)

  const DefaultMessage := "Structured output ready."
  const GenericFailureMessage := "Something went wrong."

  /** A string value that is not empty (a truthy string). */
  function NonEmptyString(v: Option<Json>): (r: Option<string>)
    ensures r.Some? <==> v.Some? && v.value.JString? && v.value.s != ""
    ensures r.Some? ==> v == Some(JString(r.value))
  {
    match v
    case Some(JString(s)) => if s != "" then Some(s) else None
    case _ => None
  }

  /**
   * The state after an OK reply whose body parsed to `json`: `result` only for
   * an object `data`, `raw` only for a non-empty string, the meta message or
   * the default one, the meta schema error or nothing.
   */
  function SuccessState(json: Json): (r: StructuredState)
    ensures r.status == Idle && r.message.Some? && r.message.value != ""
    ensures r.result.Some? <==> Field(json, "data").Some? && IsObject(Field(json, "data").value)
    ensures r.result.Some? ==> Field(json, "data") == r.result
    ensures r.raw == NonEmptyString(Field(json, "raw"))
    ensures r.message == Some(NonEmptyString(Lookup(Field(json, "meta"), "message")).GetOr(DefaultMessage))
    ensures r.schemaHint == NonEmptyString(Lookup(Field(json, "meta"), "schemaError"))
  {
    var data := if IsObject(json) then Field(json, "data") else None;
    var rawText := if IsObject(json) then Field(json, "raw") else None;
    var metaMessage := Lookup(Field(json, "meta"), "message");
    var metaSchemaError := Lookup(Field(json, "meta"), "schemaError");
    StructuredState(
      if data.Some? && IsObject(data.value) then data else None,
      NonEmptyString(rawText),
      Idle,
      Some(match NonEmptyString(metaMessage) case Some(m) => m case None => DefaultMessage),
      NonEmptyString(metaSchemaError))
  }

  /** The catch block: everything cleared, the error's message or the generic one. */
  function ErrorState(e: Thrown): (r: StructuredState)
    ensures r.result.None? && r.raw.None? && r.schemaHint.None? && r.status == Failed
    ensures r.message == Some(if e.NonError? then GenericFailureMessage else e.message)
  {
    StructuredState(None, None, Failed, Some(if e.NonError? then GenericFailureMessage else e.message), None)
  }

  /** What `fetch` and `res.json()` gave back. */
  datatype Reply = NotOk(status: nat, payload: string) | Fetched(json: Json) | FetchFailed(error: Thrown)

  /** `submit` as a value: the state once the request has settled. */
  function AfterSubmit(s: StructuredState, body: Json, reply: Reply, parse: string -> Option<Json>): (r: StructuredState)
    ensures r.status == Loading ==> r == s
    ensures r != s ==> r.message.Some?
  {
    if s.status == Loading || !ClientRequests.PromptPresent(body) then s
    else match reply
      case NotOk(status, payload) => ErrorState(ErrorValue(ClientRequests.FailureReason(status, payload, parse)))
      case Fetched(json) => SuccessState(json)
      case FetchFailed(e) => ErrorState(e)
  }

  /**
   * A submit while loading, or with a body whose prompt would be refused,
   * changes nothing; any other submit settles (never loading) with a message,
   * and a failure clears the result, the raw text and the hint.
   */
  lemma SubmitOutcome(s: StructuredState, body: Json, reply: Reply, parse: string -> Option<Json>)
    ensures var r := AfterSubmit(s, body, reply, parse);
      && (s.status == Loading || !ClientRequests.PromptPresent(body) ==> r == s)
      && (s.status != Loading && ClientRequests.PromptPresent(body) ==>
            && r.status != Loading && r.message.Some?
            && (r.status == Failed <==> !reply.Fetched?)
            && (r.status == Failed ==> r.result.None? && r.raw.None? && r.schemaHint.None?))
  {
  }

  /**
   * What the page shows for a negotiated result, when the JSON it receives is
   * the one the route serialised: the data when it is an object, the raw
   * text, the negotiation's own status message (never replaced by the
   * default), and the schema error when there was a non-empty one.
   */
  lemma ShowsNegotiatedResult(prompt: string, model: string, mode: ApiMode, first: CallOutcome,
                              second: CallOutcome, parse: string -> Option<Json>)
    requires Structured.Negotiate(prompt, model, mode, first, second, parse).result.Ok?
    ensures var r := Structured.Negotiate(prompt, model, mode, first, second, parse).result.value;
      var st := SuccessState(Structured.ToJson(r));
      && st.result == (if IsObject(r.data) then Some(r.data) else None)
      && st.raw == r.raw
      && st.message == Some(r.meta.message)
      && (st.message == Some(Structured.ReadyMessage) <==> r.raw.None? && r.meta.usedSchema)
      && st.schemaHint == (match r.meta.schemaError case Some(e) => if e != "" then Some(e) else None case None => None)
  {
    var r := Structured.Negotiate(prompt, model, mode, first, second, parse).result.value;
    if r.raw.Some? {
      assert !IsBlank(r.raw.value);
    }
  }

  /** The request object: the hook's state, replaced at each transition. */
  class StructuredRequest {
    var result: Option<Json>
    var raw: Option<string>
    var status: LoadStatus
    var message: Option<string>
    var schemaHint: Option<string>

    function State(): StructuredState
      reads this
    {
      StructuredState(result, raw, status, message, schemaHint)
    }

    constructor ()
      ensures State() == Initial
    {
      result, raw, status, message, schemaHint := None, None, Idle, None, None;
    }

    /** `reset()` */
    method Reset()
      modifies this
      ensures State() == Initial
    {
      result, raw, status, message, schemaHint := None, None, Idle, None, None;
    }

    /** The start of `submit`: the guards, then every field cleared and loading. */
    method Begin(body: Json) returns (started: bool)
      modifies this
      ensures started <==> old(status) != Loading && ClientRequests.PromptPresent(body)
      ensures started ==> State() == Started
      ensures !started ==> State() == old(State())
    {
      if status == Loading {
        return false;
      }
      if !ClientRequests.PromptPresent(body) {
        return false;
      }
      result, raw, status, message, schemaHint := None, None, Loading, None, None;
      started := true;
    }

    /** An OK reply whose body parsed to `json`. */
    method Succeed(json: Json)
      modifies this
      ensures State() == SuccessState(json)
    {
      var data := if IsObject(json) then Field(json, "data") else None;
      var rawText := if IsObject(json) then Field(json, "raw") else None;
      var metaMessage := StringOf(Lookup(Field(json, "meta"), "message"));
      var metaSchemaError := StringOf(Lookup(Field(json, "meta"), "schemaError"));
      result := if data.Some? && IsObject(data.value) then data else None;
      raw := if rawText.Some? && rawText.value.JString? && rawText.value.s != "" then Some(rawText.value.s) else None;
      status := Idle;
      message := if metaMessage.Some? && metaMessage.value != "" then metaMessage else Some(DefaultMessage);
      schemaHint := if metaSchemaError.Some? && metaSchemaError.value != "" then metaSchemaError else None;
    }

    /** The catch block. */
    method Fail(e: Thrown)
      modifies this
      ensures State() == ErrorState(e)
    {
      var text := if e.NonError? then GenericFailureMessage else e.message;
      result, raw, status, message, schemaHint := None, None, Failed, Some(text), None;
    }

    /** `submit(...)`, run until the request settles without interleaved calls. */
    method Submit(body: Json, reply: Reply, parse: string -> Option<Json>)
      modifies this
      ensures State() == AfterSubmit(old(State()), body, reply, parse)
    {
      var started := Begin(body);
      if !started {
        return;
      }
      match reply {
        case NotOk(code, payload) =>
          Fail(ErrorValue(ClientRequests.FailureReason(code, payload, parse)));
        case Fetched(json) =>
          Succeed(json);
        case FetchFailed(e) =>
          Fail(e);
      }
    }
  }
}
