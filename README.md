# Inference providers starter app — the core, in Dafny

This project models the server and client logic of a small Next.js app. The app relays text from a hosted inference provider and negotiates structured JSON output with it. The model covers these parts:

- **`streamText`, the stream relay.** A fold over a finite list of upstream events with an optional failure point (`Streaming.Feed`, `Streaming.Relay`). The class `Streaming.TextStream` runs the same loop step by step and is proved equal to the fold. It drops empty chunks, keeps the order, runs the completion hook only on a clean end and turns any exception into one trailing `"\n[Stream error] …"` marker.
- **The responses route's delta/snapshot coalescer.** `ResponsesRoute.OnEvent` is the route's `onChunk`, written as a pure state step over `latestSnapshot` and `emittedAny`. The class `ResponsesRoute.ResponsesRelay` holds those two variables and the chunks emitted so far. The main result is `RunTracksSnapshot`: when every event agrees with the snapshot tracked before it, the concatenated chunks equal `latestSnapshot`.
- **Structured-output negotiation** (`Structured`).
  - Two first-match searches over an abstract JSON value.
  - The one retry without the schema after an API error with status 400.
  - The final classification into `data`, `raw` and `meta`.
  - `Structured.RunStructuredRequest` updates its locals step by step and is proved equal to `Structured.Negotiate`.
- **The three routes.** Each runs its checks in a fixed order: credential, then body, then field. Each maps an upstream error to a status and a message (`ChatRoute.Post`, `ResponsesRoute.Post`, `StructuredRoute.Post`).
- **Small helpers:**
  - `getHfClient` and `resolveModel` (`OpenAi`);
  - the header loop of `json` and the `jsonError` body (`Http`);
  - `escapeBackticks` and `buildSnippets` (`Snippets`).
- **The two client hooks.** Each is a class that holds the hook's state, with guarded transition methods:
  - `StreamingHook.StreamingRequest`;
  - `StructuredHook.StructuredRequest`.

  Each `Submit` method is proved equal to a function, `AfterSubmit`, that gives the settled state.

The model treats foreign calls as inputs:

- **Provider calls.** A call either returns a payload or throws (`Upstream.CallOutcome`, `Upstream.Thrown`).
- **`JSON.parse`.** A partial function `string -> Option<Json>`, where None means the call throws.
- **The responses stream's final response.** A `ResponsesRoute.FinalResponse` value.
- **`fetch` replies.** The `Reply` datatypes of the hooks.
- **Environment values.** `process.env.HF_TOKEN` and `MODEL_NAME` make up `OpenAi.Config`.

JSON values are the datatype `JsonValues.Json`. Property access is `JsonValues.Field`, where None stands for `undefined`.

The downstream stream is not always closed exactly once. On the abort path the code closes it in `abortStream` and again in `finally` (`src/server/streaming.ts:30` and `:51`). `Streaming.TextStream` counts `close` calls, so the model shows the second close instead of assuming a single one.

## Model

| member | source | states |
|---|---|---|
| Text.Trim | src/server/openai.ts:23-24 | JavaScript `trim`: the result is no longer than the input and neither starts nor ends with white space; `TrimRemovesOnlySpace` states that it is the input with only white space cut off either end |
| Text.BlankIffAllSpace | src/server/openai.ts:23 | `s.trim().length > 0` fails exactly when every character of `s` is white space |
| Text.TrimIdempotent | src/server/openai.ts:23-24 | trimming a trimmed string changes nothing |
| Text.TrimRemovesOnlySpace | src/server/openai.ts:23-24 | `trim` removes white space and nothing else: the result is a prefix of what follows the leading white space, and every character outside it is white space |
| Text.NatToStringRoundTrip | src/hooks/useStreamingRequest.ts:85 | the decimal text of a status reads back as that status |
| Text.ConcatAppend | src/hooks/useStreamingRequest.ts:112-118 | the text of two chunk lists one after the other is the text of their concatenation |
| Upstream.ApiErrorText | src/app/api/chat/route.ts:58-59 | an API error's text is its nested message when non-empty, else its own message |
| Upstream.ErrorStatus | src/app/api/chat/route.ts:56 | the status is the API error's numeric status when there is one, else 500 |
| Upstream.ErrorText | src/app/api/chat/route.ts:57-63 | the message is never empty: the API error's text, the Error's message, or "Unknown error." for a non-Error, with an empty one replaced by the route's fallback |
| Upstream.ErrorTextKeepsMessage | src/app/api/chat/route.ts:60-63 | an Error's message reaches the client unchanged exactly when it is non-empty |
| OpenAi.GetHfClient | src/server/openai.ts:7-20 | the client is missing exactly when the token is absent or empty, and then the result carries 500 "Missing HF_TOKEN environment variable."; otherwise the token is the API key |
| OpenAi.ResolveModel | src/server/openai.ts:22-28 | a string override with non-blank trim gives its trim; every other value gives the configured default |
| OpenAi.OverrideIsClean | src/server/openai.ts:23-24 | a model taken from the override is non-blank, has no white space at either end, and resolves to itself again |
| Http.LastDefined | src/server/http.ts:12-18 | a key has a header value exactly when some entry for it has a defined value |
| Http.MergedHeaders | src/server/http.ts:8-18 | the header keys are Content-Type plus the keys of defined entries; Content-Type stays `application/json` unless an entry defines it; every defined entry's key is present |
| Http.Json | src/server/http.ts:7-24 | the loop gives the status from `init` (200 when absent); the keys are Content-Type plus the keys of defined entries; each value is the last defined entry for its key, else `application/json` |
| Http.JsonError | src/server/http.ts:26-28 | `jsonError(s, e)` is `json({error: e}, {status: s})`: status `s`, only the JSON content type, body `{error: e}` |
| Http.DefinedKeysExtend | src/server/http.ts:13-16 | one more entry adds its key exactly when its value is defined |
| Http.MergedHeadersExtend | src/server/http.ts:12-18 | one more defined entry overwrites its key; an undefined one changes nothing |
| Http.DefaultHeadersOnly | src/server/http.ts:8-10 | with no defined entries the headers are exactly `{"Content-Type": "application/json"}` |
| Http.ContentTypeOverride | src/server/http.ts:12-18 | a defined Content-Type entry replaces the default |
| Http.UndefinedEntrySkipped | src/server/http.ts:13-16 | an undefined entry changes nothing, so an earlier defined value for its key survives |
| Routes.ReadJson | src/server/request.ts:4-11 | a parsed body is passed on; an unparseable one gives 400 "Invalid JSON body." |
| Routes.BodyField | src/app/api/responses/route.ts:21 | destructuring `data ?? {}` gives a property exactly when the body is an object that has the key, and then its value |
| Routes.PromptText | src/app/api/responses/route.ts:23-27 | the prompt text is empty exactly when the prompt is not a string or is blank; otherwise it is the trim of that string |
| Routes.FailureResponse | src/app/api/structured/route.ts:46-56 | an upstream failure is answered with `jsonError(ErrorStatus(e), ErrorText(e, fallback))` |
| Streaming.ErrorMarker | src/server/streaming.ts:42-48 | the marker is `"\n[Stream error] "` followed by the message |
| Streaming.StreamErrorMessage | src/server/streaming.ts:43-47 | the marker's message is the `onErrorMessage` callback's result when one is given; otherwise an `Error`'s message, and "Unexpected streaming error." for a thrown non-Error |
| Streaming.NonEmpty | src/server/streaming.ts:17-22 | the filtered chunks are no more than the input and none is empty |
| Streaming.NonEmptyAppend | src/server/streaming.ts:17-22 | filtering two runs of chunks one after the other is filtering each |
| Streaming.NonEmptyConcat | src/server/streaming.ts:17-22 | dropping empty chunks does not change the text |
| Streaming.Feed | src/server/streaming.ts:35-38 | no events leave the handler state untouched and enqueue nothing; `FeedStopsAtThrow` and `TextStream.Pump` state the rest of the loop |
| Streaming.Finish | src/server/streaming.ts:39-48 | the completion step only appends; after a handler throw nothing changes; after an iterator failure the hook does not run and that failure is what was thrown |
| Streaming.Marker | src/server/streaming.ts:42-48 | one chunk exactly when something threw: the marker prefix followed by the stream's error message |
| Streaming.Relay | src/server/streaming.ts:16-53 | an error always ends the output with a marker; an error after a clean end can only come from the completion hook |
| Streaming.FeedSnocTracks | src/server/streaming.ts:36-38 | a property "state view = base + text enqueued so far" that one handler step preserves holds after one more event |
| Streaming.FeedStopsAtThrow | src/server/streaming.ts:35-38 | once a handler throws, later events change nothing |
| Streaming.RelayNoEmptyChunk | src/server/streaming.ts:17-22 | no empty chunk reaches the stream |
| Streaming.RelayOrder | src/server/streaming.ts:35-48 | the stream's text is, in event order, what the handler enqueued and then what the completion hook enqueued; after a throw, exactly one marker comes last |
| Streaming.RelayCompletesOnlyOnCleanEnd | src/server/streaming.ts:39-41 | the completion hook runs exactly when neither the iterator nor a handler threw; there is no marker exactly when the hook also did not throw |
| Streaming.TextStream.constructor | src/server/streaming.ts:12-16 | a new stream has no chunks, no close, no listener and no cancel |
| Streaming.TextStream.Enqueue | src/server/streaming.ts:17-22 | `enqueue` appends a non-empty text and ignores an empty one |
| Streaming.TextStream.EnqueueAll | src/server/streaming.ts:17-22 | enqueueing a list appends its non-empty texts in order |
| Streaming.TextStream.Pump | src/server/streaming.ts:36-38 | the loop's result is `Feed` of the events, and the stream grows by its filtered chunks |
| Streaming.TextStream.Conclude | src/server/streaming.ts:39-41 | the completion step is `Finish`: it keeps what the loop enqueued and adds the hook's chunks |
| Streaming.TextStream.EnqueueMarker | src/server/streaming.ts:42-48 | the catch block appends the one marker when something threw, and nothing otherwise |
| Streaming.TextStream.Start | src/server/streaming.ts:16-53 | `start` appends exactly `Relay`'s output, removes the listener, and closes once on its own exit |
| Streaming.TextStream.Abort | src/server/streaming.ts:24-31 | an abort, possible only while the listener is registered, runs the cancel hook and closes, whatever the hook throws, and changes no chunk |
| Streaming.TextStream.Cancel | src/server/streaming.ts:54-60 | stream cancellation runs the hook, swallows its exception, and changes nothing else |
| ResponsesRoute.Slice | src/app/api/responses/route.ts:54 | JavaScript `slice(n)`: the suffix from `n`, empty past the end |
| ResponsesRoute.DeltaEvent | src/app/api/responses/route.ts:44-66 | the chunk is a non-empty delta, else the snapshot past the tracked length. The snapshot is adopted when present, else the delta is appended. An empty chunk is not enqueued. `emittedAny` turns true exactly when a chunk is enqueued |
| ResponsesRoute.OnEvent | src/app/api/responses/route.ts:43-81 | the handler never throws and enqueues at most one chunk; error and other events keep the closure state; for text events `emittedAny` becomes true exactly when it was already or a chunk is enqueued |
| ResponsesRoute.DoneEvent | src/app/api/responses/route.ts:67-76 | a done event emits the missing suffix and adopts its snapshot only when that snapshot is strictly longer; otherwise nothing happens |
| ResponsesRoute.ErrorAndOtherEvents | src/app/api/responses/route.ts:77-80 | an error event enqueues `"\n[Stream error] " + (message ?? "Streaming error.")` and keeps the state; any other event does nothing |
| ResponsesRoute.OnEventChunksNonEmpty | src/app/api/responses/route.ts:43-81 | every event enqueues at most one non-empty chunk, never throws, and never resets `emittedAny` |
| ResponsesRoute.ConsistentStep | src/app/api/responses/route.ts:52-76 | for an event that agrees with the tracked snapshot, the new snapshot is the old one followed by the chunk enqueued |
| ResponsesRoute.ConsistentDelta | src/app/api/responses/route.ts:44-66 | for a delta event that agrees with the tracked snapshot, the new snapshot is the old one followed by the chunk enqueued |
| ResponsesRoute.ConsistentDone | src/app/api/responses/route.ts:67-76 | the same for a done event |
| ResponsesRoute.RunNeverThrows | src/app/api/responses/route.ts:43-81 | the handler never throws over any list of events |
| ResponsesRoute.RunTracksSnapshot | src/app/api/responses/route.ts:52-76 | when every event agrees with the snapshot before it, the concatenated chunks equal `latestSnapshot` |
| ResponsesRoute.RunEmittedAny | src/app/api/responses/route.ts:63-76 | without error events, `emittedAny` holds exactly when some chunk was enqueued |
| ResponsesRoute.SilentDeltas | src/app/api/responses/route.ts:44-66 | deltas with neither text nor snapshot leave the state and the stream untouched |
| ResponsesRoute.DoneRecoversWholeText | src/app/api/responses/route.ts:67-76 | after silent deltas, a done event with the full text emits exactly that text |
| ResponsesRoute.DeltasThenDoneExample | src/app/api/responses/route.ts:43-76 | deltas "Hel" and "lo" then done "Hello!" emit "Hel", "lo", "!", and the text is "Hello!" |
| ResponsesRoute.FallbackGate | src/app/api/responses/route.ts:82-97 | the final response is consulted only when nothing was emitted; it adds at most one non-blank `output_text`, never throws, and keeps the state |
| ResponsesRoute.Fallback | src/app/api/responses/route.ts:82-97 | the completion hook keeps the state, never throws and adds at most one chunk; none once something was emitted or when `finalResponse` failed; a chunk it adds is never blank |
| ResponsesRoute.StreamCarriesSnapshot | src/app/api/responses/route.ts:37-98 | a consistent stream that emitted something and ended cleanly delivers exactly the final snapshot |
| ResponsesRoute.ResponsesRelay.constructor | src/app/api/responses/route.ts:34-35 | the closure starts with an empty snapshot, nothing emitted, and the invariant holds |
| ResponsesRoute.ResponsesRelay.OnChunk | src/app/api/responses/route.ts:43-81 | the fields move as `OnEvent` says; the emitted list grows by its chunks; the invariant "emitted text = snapshot" is kept while events stay consistent |
| ResponsesRoute.ResponsesRelay.OnDelta | src/app/api/responses/route.ts:44-66 | the delta branch updates the closure variables and the emitted chunks as `OnEvent` says |
| ResponsesRoute.ResponsesRelay.OnDone | src/app/api/responses/route.ts:67-76 | the done branch updates them as `OnEvent` says |
| ResponsesRoute.ResponsesRelay.OnError | src/app/api/responses/route.ts:77-80 | the error branch emits the marker and leaves both closure variables alone |
| ResponsesRoute.ResponsesRelay.OnComplete | src/app/api/responses/route.ts:82-97 | the completion hook keeps both variables and appends the fallback text, if any |
| ResponsesRoute.Post | src/app/api/responses/route.ts:10-116 | credential before body; then 400 "Invalid JSON body." or 400 "Provide a prompt string." with no upstream call; otherwise one stream call with the trimmed prompt and the resolved model; the stream response, or the mapped error with fallback "Streaming request failed." |
| ChatRoute.FirstContent | src/app/api/chat/route.ts:42 | the text is non-empty exactly when `choices[0].delta.content` is a non-empty string, and is then that string |
| ChatRoute.OnChunk | src/app/api/chat/route.ts:41-46 | the handler never throws and enqueues at most one chunk, which is `choices[0].delta.content`; it enqueues nothing exactly when that content is missing or empty |
| ChatRoute.RunIsContents | src/app/api/chat/route.ts:41-46 | the handler enqueues exactly the non-empty first-choice contents, in order, and never throws |
| ChatRoute.StreamCarriesContents | src/app/api/chat/route.ts:35-47 | the stream has no empty chunk; its text is the contents, followed by one marker when the upstream failed |
| ChatRoute.Messages | src/app/api/chat/route.ts:24 | messages are accepted exactly when they are a non-empty array |
| ChatRoute.Post | src/app/api/chat/route.ts:11-65 | credential before body before messages; 400 "The request body must include messages." with no call; the call carries the resolved model and the messages as given; the two fixed stream headers, or the mapped error |
| ChatRoute.EmptyMessagesExample | src/app/api/chat/route.ts:12-26 | an empty `messages` array gives 400 with no upstream call, or 500 without reading the body when the token is missing |
| Structured.FirstSome | src/server/structured.ts:59-68 | the search finds nothing exactly when nothing matches, and otherwise returns the match at the first matching index |
| Structured.FirstSomeAppend | src/server/structured.ts:37-68 | searching two lists in turn finds the first list's match when it has one |
| Structured.NestedSearchIsFlat | src/server/structured.ts:38-56 | the loop over items and then their parts finds what one search over all message parts finds |
| Structured.NonBlank | src/server/structured.ts:33 | a text source counts exactly when it is a string with non-blank trim |
| Structured.Present | src/server/structured.ts:79 | a parsed source counts exactly when it is neither undefined nor null |
| Structured.OutputText | src/server/structured.ts:27-71 | `coalesceOutputText` never returns a blank text and returns null for a payload that is not an object |
| Structured.OutputTextPriority | src/server/structured.ts:27-71 | the top-level `output_text` wins; then the first non-blank `output_text` part of a message item; then the first non-blank choice content |
| Structured.ParsedOutput | src/server/structured.ts:73-106 | `coalesceParsedOutput` never returns null and returns null for a payload that is not an object |
| Structured.ParsedOutputPriority | src/server/structured.ts:73-106 | a present `output_parsed` wins; then the first present `parsed` of an `output_text` part of a message item |
| Structured.Classify | src/server/structured.ts:207-242 | "The model returned an empty response." exactly when there is no text and no candidate. "The model response was not valid JSON." exactly when, with the schema, only text is found and it does not parse. The message is the ready one, the without-schema one or the no-JSON one as the source says. `raw` is set only without the schema and then holds the non-blank text with `data` null |
| Structured.Negotiate | src/server/structured.ts:129-243 | the retry happens exactly after an API error with status 400, without the schema and with the fallback instructions. Every other error, and any error of the retry, is rethrown unchanged. `usedSchema` holds exactly when the first call succeeded, and exactly when there is no `schemaError` |
| Structured.RunStructuredRequest | src/server/structured.ts:129-243 | the step-by-step request sends the same attempts and returns or throws the same as `Negotiate` |
| Structured.ChatIgnoresParsed | src/server/structured.ts:208 | in chat mode, two payloads with the same text classify alike, whatever their parsed fields |
| Structured.SchemaHonoured | src/server/structured.ts:163-241 | a chat request whose first call returns text that parses gives that value as data, the schema used and "Structured output ready." |
| Structured.ResolveStructuredMode | src/server/structured.ts:245-247 | the mode is responses exactly for the string "responses", else chat |
| Structured.ToJson | src/app/api/structured/route.ts:45 | the serialised result carries `data`, `raw` only when set, `meta.message`, and `meta.schemaError` only when set |
| StructuredRoute.Post | src/app/api/structured/route.ts:16-57 | credential before body before prompt; 400 "Provide a prompt string." with no call; the negotiation gets the trimmed prompt, the resolved model and the resolved mode; 200 with its result, or the mapped error with fallback "Structured request failed." |
| StructuredRoute.SuccessIsUnchanged | src/app/api/structured/route.ts:45 | a successful negotiation is answered with status 200, only the JSON content type, and the result unchanged |
| StructuredRoute.SchemaHonouredInChat | src/app/api/structured/route.ts:27-45 | a valid prompt in chat mode whose first call returns text that parses gives 200 with that data, the resolved model, `usedSchema` true and "Structured output ready." |
| StructuredRoute.SchemaHonouredExample | src/app/api/structured/route.ts:27-45 | a prompt with no model or mode, answered with JSON text, gives 200 with that data, `usedSchema` true and "Structured output ready." |
| Snippets.EscapeBackticks | src/config/snippets.ts:92-94 | every backtick of the output has a backslash before it; the first character is escaped or kept |
| Snippets.EscapeMultiset | src/config/snippets.ts:92-94 | the output holds the input's characters plus one backslash per backtick |
| Snippets.EscapeLength | src/config/snippets.ts:92-94 | the output is longer by the number of backticks; a string without backticks is returned unchanged |
| Snippets.NoBacktickUnchanged | src/config/snippets.ts:92-94 | a string without backticks is its own escape |
| Snippets.UnescapeEscape | src/config/snippets.ts:92-94 | removing the backslash inserted before each backtick gives the input back |
| Snippets.Template.Fill | src/config/snippets.ts:13 | a filled template is its head, then the model slot, then its tail |
| Snippets.ModelSlot | src/config/snippets.ts:97-101 | a blank model is used unescaped; any other model is escaped but not trimmed |
| Snippets.SlotIsEscaped | src/config/snippets.ts:97-101 | the slot is always the escaped model and always unescapes to the model |
| Snippets.BuildSnippets | src/config/snippets.ts:96-103 | the mode selects the templates, and both snippets are filled with the same slot |
| Snippets.ModelReadBack | src/config/snippets.ts:96-103 | the text between either template's head and tail is the same in both snippets and unescapes to the model |
| ClientRequests.PromptCheckAgreesWithRoutes | src/hooks/useStreamingRequest.ts:55-57 | for a body with a `prompt`, the client's check passes exactly when the routes accept the prompt; a body without one passes on the client and is refused by the routes |
| ClientRequests.PromptPresent | src/hooks/useStreamingRequest.ts:55-57 | the client's prompt check; `PromptCheckAgreesWithRoutes` relates it to the routes' check |
| ClientRequests.MessagesPresent | src/hooks/useStreamingRequest.ts:59-61 | the client's messages check; `MessagesCheckAgreesWithChatRoute` relates it to the chat route's check |
| ClientRequests.MessagesCheckAgreesWithChatRoute | src/hooks/useStreamingRequest.ts:59-61 | the same for `messages` and the chat route |
| ClientRequests.FailureReason | src/hooks/useStreamingRequest.ts:83-97 | a parsed string `error` wins, even when empty; an unparseable non-empty payload is used as is; otherwise "Request failed with status N" |
| ClientRequests.ServerErrorReadsBack | src/hooks/useStreamingRequest.ts:83-97 | the body of a route's `jsonError` reads back as its own message |
| ClientRequests.StatusReasonNamesStatus | src/hooks/useStreamingRequest.ts:85 | when the status is the reason, it is the fixed prefix followed by the status in decimal |
| StreamingHook.Failure | src/hooks/useStreamingRequest.ts:122-129 | an aborted request becomes idle with "Stream cancelled."; otherwise the error's message, or "Something went wrong." for a non-Error, with status error; the response is kept |
| StreamingHook.SubmitOutcome | src/hooks/useStreamingRequest.ts:49-135 | a submit while streaming, or with a refused body, changes nothing. Any other submit settles, not streaming, with a message and with `response` equal to the text received in order. It ends idle exactly when aborted or on a clean end, which carries the completion message |
| StreamingHook.BodyReady | src/hooks/useStreamingRequest.ts:55-65 | both client checks; `SubmitOutcome` and `StreamingRequest.Submit` state that a body failing them changes nothing |
| StreamingHook.AfterSubmit | src/hooks/useStreamingRequest.ts:49-135 | the settled state is never streaming unless the submit was ignored, and any change brings a message; `SubmitOutcome` states the full outcome |
| StreamingHook.StreamingRequest.constructor | src/hooks/useStreamingRequest.ts:20-24 | the hook starts `{"", idle, null}` with no controller |
| StreamingHook.StreamingRequest.Cancel | src/hooks/useStreamingRequest.ts:37-42 | only while streaming: abort, then idle with "Stream cancelled.", with the response kept; otherwise nothing changes |
| StreamingHook.StreamingRequest.Reset | src/hooks/useStreamingRequest.ts:44-47 | aborts any controller and restores `{"", idle, null}` |
| StreamingHook.StreamingRequest.Begin | src/hooks/useStreamingRequest.ts:51-71 | starts exactly when not streaming and the body checks pass; it then aborts the old controller and sets `{"", streaming, null}` |
| StreamingHook.StreamingRequest.Receive | src/hooks/useStreamingRequest.ts:106-119 | the read loop appends the chunks' text to `response` in order |
| StreamingHook.StreamingRequest.Complete | src/hooks/useStreamingRequest.ts:121-132 | completion sets idle and the completion message, keeps `response`, and drops the controller |
| StreamingHook.StreamingRequest.Fail | src/hooks/useStreamingRequest.ts:122-132 | the catch block sets the state `Failure` gives and drops the controller |
| StreamingHook.StreamingRequest.Submit | src/hooks/useStreamingRequest.ts:49-135 | `submit` settles in the state `AfterSubmit` gives |
| StructuredHook.NonEmptyString | src/hooks/useStructuredRequest.ts:81-84 | a field counts exactly when it is a non-empty string |
| StructuredHook.SuccessState | src/hooks/useStructuredRequest.ts:73-85 | `result` is `data` only when it is an object, and `raw` only when it is a non-empty string. `message` is `meta.message` or "Structured output ready.", and `schemaHint` is `meta.schemaError` or null. The status is idle |
| StructuredHook.ErrorState | src/hooks/useStructuredRequest.ts:86-92 | on error everything is cleared, status error, with the error's message or "Something went wrong." |
| StructuredHook.SubmitOutcome | src/hooks/useStructuredRequest.ts:33-93 | a submit while loading, or with a refused prompt, changes nothing. Any other submit settles with a message. It fails exactly when the reply was not a fetched body, and a failure clears result, raw and hint |
| StructuredHook.AfterSubmit | src/hooks/useStructuredRequest.ts:33-93 | the settled state is never loading unless the submit was ignored, and any change brings a message; `SubmitOutcome` states the full outcome |
| StructuredHook.ShowsNegotiatedResult | src/hooks/useStructuredRequest.ts:73-85 | a negotiated result, serialised by the route, is shown with its object data, its raw text and its own message, and with the ready message exactly when the schema held |
| StructuredHook.StructuredRequest.constructor | src/hooks/useStructuredRequest.ts:21-27 | the hook starts all null and idle |
| StructuredHook.StructuredRequest.Reset | src/hooks/useStructuredRequest.ts:29-31 | `reset` restores the all-null idle state |
| StructuredHook.StructuredRequest.Begin | src/hooks/useStructuredRequest.ts:33-46 | starts exactly when not loading and the prompt check passes; it then clears every field and sets loading |
| StructuredHook.StructuredRequest.Succeed | src/hooks/useStructuredRequest.ts:73-85 | the success branch sets the state `SuccessState` gives |
| StructuredHook.StructuredRequest.Fail | src/hooks/useStructuredRequest.ts:86-92 | the catch block sets the state `ErrorState` gives |
| StructuredHook.StructuredRequest.Submit | src/hooks/useStructuredRequest.ts:33-93 | `submit` settles in the state `AfterSubmit` gives |

## Left out

- Provider SDK calls. `chat.completions.create`, `responses.create`, `responses.stream`, `finalResponse` and `stream.controller.abort` are inputs: a payload or a thrown value, and the final response. The `cancel` hook is not modelled beyond being called: whatever it throws is swallowed, so the stream's state does not depend on it.
- `JSON.parse` is a partial function given as a parameter. `JSON.stringify` is `Structured.ToJson` and `Http.ErrorBody` as JSON values, not text. `StructuredHook.ShowsNegotiatedResult` and `ClientRequests.ServerErrorReadsBack` therefore assume that parsing the serialised text gives the value back.
- ResponsesRoute.OnEvent: string lengths and slice offsets count code points, while the source counts UTF-16 code units (`snapshot.slice(latestSnapshot.length)` and `snapshot.length > latestSnapshot.length`, `src/app/api/responses/route.ts:54` and `:71`). The two agree whenever the snapshot extends the tracked text. `Consistent`, the condition of `RunTracksSnapshot`, also compares lengths in code points. For a snapshot that does not extend the tracked text and holds characters outside the Basic Multilingual Plane, the source can cut at a different place, even inside a surrogate pair. Such a pair half is not a Dafny `char`, so modelling it would need strings of code units.
- DeltaEvent: the snapshot-suffix chunk is stated in code points, for the reason given for `ResponsesRoute.OnEvent`.
- DoneEvent: the length comparison and the suffix are stated in code points, for the reason given for `ResponsesRoute.OnEvent`.
- `TextEncoder` and `TextDecoder`: chunks are strings, not bytes, so multi-byte characters split across chunks are not modelled.
- Timing of aborts. An abort of the request or of `fetch` is a separate call (`Streaming.TextStream.Abort`, `StreamingHook.StreamingRequest.Cancel`) or the `aborted` input of `Submit`. Interleavings of cancel with a running submit or a running relay are not modelled. Nothing claims the stream closes exactly once: the abort path and `finally` both close it.
- React itself: `useState`, `useCallback`, `useEffect` cleanup, the components and the pages. A state update is modelled as a field assignment that takes effect at once.
- `Http.Json`: `HeadersInit` is taken in its record form only, with keys compared as given. `Headers` objects, arrays of pairs and case-insensitive header names are not modelled.
- `StructuredHook.SuccessState`: a `meta.message` or `meta.schemaError` that is truthy but not a string is treated as absent. The source would store it as is.
- `Structured.ToJson`: a `data` of `undefined` cannot occur, because the model's data is always a JSON value.
- `temperature: 0.2` is a floating-point constant with no logic, and the JSON schema constant is not modelled. The code never checks parsed output against the schema, so no conformance is claimed.
- `process.env.HF_TOKEN` and `MODEL_NAME` are the fields of `OpenAi.Config`. The value of `MODEL_NAME` is not part of this model.
- `src/server/request.ts` is reduced to its outcome: a parsed body or 400 "Invalid JSON body." (`Routes.ReadJson`).
- Mode selection and model trimming on the page duplicate `buildSnippets`. The chat demo component duplicates the streaming hook. Neither is modelled separately.
