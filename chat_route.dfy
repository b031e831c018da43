/**
 * `POST /api/chat`: validate the conversation, open a streamed chat
 * completion, and relay the first choice's content deltas as text.
 */
module ChatRoute {
  import opened Common
  import opened Text
  import opened JsonValues
  import opened Upstream
  import Http
  import OpenAi
  import Routes
  import Streaming

  /** The part of a streamed chat-completion chunk the route reads. */
  datatype ChatDelta = ChatDelta(content: Option<string>)
  datatype ChatChoice = ChatChoice(delta: Option<ChatDelta>)
  datatype ChatChunk = ChatChunk(choices: seq<ChatChoice>)

  const MessagesMissingMessage := "The request body must include messages."

  /** `chunk.choices[0]?.delta?.content`, with a missing value read as the empty text. */
  function FirstContent(chunk: ChatChunk): (text: string)
    ensures text != "" <==>
      && chunk.choices != [] && chunk.choices[0].delta.Some?
      && chunk.choices[0].delta.value.content.Some? && chunk.choices[0].delta.value.content.value != ""
    ensures text != "" ==> text == chunk.choices[0].delta.value.content.value
  {
    if chunk.choices == [] then ""
    else match chunk.choices[0].delta
      case Some(ChatDelta(Some(content))) => content
      case _ => ""
  }

  /** `onChunk` of the route: enqueue the first choice's content when it is non-empty; no state. */
  function OnChunk(u: (), chunk: ChatChunk): (r: Streaming.Reaction<()>)
    ensures r.thrown.None? && |r.enqueued| <= 1
    ensures r.enqueued == [] <==> FirstContent(chunk) == ""
    ensures r.enqueued != [] ==> r.enqueued[0] == chunk.choices[0].delta.value.content.value
  {
    var content := FirstContent(chunk);
    if content != "" then Streaming.Reaction((), [content], None) else Streaming.Reaction((), [], None)
  }

  /** The handler over a sequence of chunks. */
  function Run(chunks: seq<ChatChunk>): Streaming.Progress<()>
  {
    Streaming.Feed((), chunks, OnChunk)
  }

  /** The first-choice contents of the chunks, in arrival order, empty ones dropped. */
  function Contents(chunks: seq<ChatChunk>): seq<string>
  {
    Streaming.NonEmpty(seq(|chunks|, i requires 0 <= i < |chunks| => FirstContent(chunks[i])))
  }

  /**
   * The handler enqueues exactly the non-empty first-choice contents, in order,
   * and never throws.
   */
  lemma {:induction false} RunIsContents(chunks: seq<ChatChunk>)
    ensures Run(chunks).enqueued == Contents(chunks)
    ensures Run(chunks).thrown.None?
  {
    var texts := seq(|chunks|, i requires 0 <= i < |chunks| => FirstContent(chunks[i]));
    if chunks != [] {
      var n := |chunks| - 1;
      RunIsContents(chunks[..n]);
      assert chunks == chunks[..n] + [chunks[n]];
      Streaming.FeedSnoc((), chunks[..n], chunks[n], OnChunk);
      var front := seq(n, i requires 0 <= i < n => FirstContent(chunks[..n][i]));
      assert texts == front + [texts[n]];
      Streaming.NonEmptyAppend(front, [texts[n]]);
      assert Streaming.NonEmpty([texts[n]]) == OnChunk((), chunks[n]).enqueued by {
        assert [texts[n]][..0] == [];
      }
    }
  }

  /** The stream the route returns (no completion hook, no custom error message). */
  function StreamOutput(chunks: seq<ChatChunk>, failure: Option<Thrown>): seq<string>
  {
    Streaming.Relay((), chunks, failure, OnChunk, None, None).output
  }

  /**
   * End to end: a clean stream carries the contents exactly, with no empty
   * chunk; a failed one carries them followed by one error marker.
   */
  lemma StreamCarriesContents(chunks: seq<ChatChunk>, failure: Option<Thrown>)
    ensures var out := StreamOutput(chunks, failure);
      && (forall i :: 0 <= i < |out| ==> out[i] != "")
      && (failure.None? ==> Concat(out) == Concat(Contents(chunks)))
      && (failure.Some? ==>
            && out != []
            && out[|out| - 1] == Streaming.ErrorMarker(Streaming.StreamErrorMessage(failure.value, None))
            && Concat(out[..|out| - 1]) == Concat(Contents(chunks)))
  {
    RunIsContents(chunks);
    Streaming.RelayNoEmptyChunk((), chunks, failure, OnChunk, None, None);
    Streaming.RelayOrder((), chunks, failure, OnChunk, None, None);
    assert Run(chunks).enqueued + [] == Contents(chunks);
  }

  /** `Array.isArray(messages) && messages.length > 0`: the messages, or None. */
  function Messages(value: Option<Json>): (r: Option<seq<Json>>)
    ensures r.Some? <==> value.Some? && value.value.JArray? && value.value.items != []
    ensures r.Some? ==> r.value == value.value.items
  {
    match value
    case Some(JArray(items)) => if items != [] then Some(items) else None
    case _ => None
  }

  /**
   * `POST`: credential, then body, then messages; on success the stream
   * response, on an upstream failure its status (else 500) and message (else
   * "Streaming request failed."). `opening` is what opening the stream threw, if anything.
   */
  function Post(config: OpenAi.Config, body: Routes.BodyRead, opening: Option<Thrown>): (t: Routes.RouteTrace)
    ensures OpenAi.GetHfClient(config).ClientMissing? ==>
      t == Routes.RouteTrace(false, None, OpenAi.GetHfClient(config).response)
    ensures OpenAi.GetHfClient(config).ClientReady? ==> t.bodyRead
    ensures t.call.Some? <==>
      && OpenAi.GetHfClient(config).ClientReady? && body.Parsed?
      && Messages(Routes.BodyField(body.value, "messages")).Some?
    ensures t.call.Some? ==> t.call.value == Routes.ChatCompletionCall(
      OpenAi.ResolveModel(Routes.BodyField(body.value, "model"), config),
      Routes.BodyField(body.value, "messages").value.items)
    ensures OpenAi.GetHfClient(config).ClientReady? && body.InvalidJson? ==>
      t.response == Http.JsonError(400, Routes.InvalidBodyMessage)
    ensures OpenAi.GetHfClient(config).ClientReady? && body.Parsed? && t.call.None? ==>
      t.response == Http.JsonError(400, MessagesMissingMessage)
    ensures t.call.Some? && opening.None? ==> t.response == Routes.StreamResponse
    ensures t.call.Some? && opening.Some? ==>
      t.response == Routes.FailureResponse(opening.value, "Streaming request failed.")
  {
    match OpenAi.GetHfClient(config)
    case ClientMissing(response) => Routes.RouteTrace(false, None, response)
    case ClientReady(_) =>
      match Routes.ReadJson(body)
      case Err(response) => Routes.RouteTrace(true, None, response)
      case Ok(data) =>
        match Messages(Routes.BodyField(data, "messages"))
        case None => Routes.RouteTrace(true, None, Http.JsonError(400, MessagesMissingMessage))
        case Some(messages) =>
          var call := Routes.ChatCompletionCall(OpenAi.ResolveModel(Routes.BodyField(data, "model"), config), messages);
          match opening
          case None => Routes.RouteTrace(true, Some(call), Routes.StreamResponse)
          case Some(e) => Routes.RouteTrace(true, Some(call), Routes.FailureResponse(e, "Streaming request failed."))
  }

  /** An empty `messages` array is refused with 400 and no upstream call; a missing credential with 500 first. */
  lemma EmptyMessagesExample(config: OpenAi.Config, opening: Option<Thrown>)
    ensures var t := Post(config, Routes.Parsed(JObject(map["messages" := JArray([])])), opening);
      && t.call.None?
      && (config.hfToken.Some? && config.hfToken.value != "" ==>
            t.response == Http.JsonError(400, "The request body must include messages."))
      && (config.hfToken.None? ==>
            t.response == Http.JsonError(500, "Missing HF_TOKEN environment variable.") && !t.bodyRead)
  {
  }
}
