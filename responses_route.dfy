/**
 * `POST /api/responses`: validate the prompt, open a responses-API stream, and
 * coalesce its delta/snapshot events into text chunks that never repeat what
 * was already sent.
 */
module ResponsesRoute {
  import opened Common
  import opened Text
  import opened JsonValues
  import opened Upstream
  import Http
  import OpenAi
  import Routes
  import Streaming

  /**
   * The events of a responses stream the route tells apart. A field that is not
   * a string (or is missing) is None.
   */
  datatype ResponseEvent =
    | OutputTextDelta(delta: Option<string>, snapshot: Option<string>)
    | OutputTextDone(snapshot: Option<string>)
    | ResponseError(message: Option<string>)
    | OtherEvent(kind: string)

  /** The two closure variables of the handler. */
  datatype RelayState = RelayState(latestSnapshot: string, emittedAny: bool)

  const Start := RelayState("", false)
  const DefaultErrorMessage := "Streaming error."

  /** `s.slice(n)` for n >= 0 */
  function Slice(s: string, n: nat): (r: string)
    ensures n <= |s| ==> r == s[n..]
    ensures n > |s| ==> r == ""
  {
    if n <= |s| then s[n..] else ""
  }

  /** The chunk of a delta event: the delta when it is non-empty, else what the snapshot adds. */
  function DeltaChunk(latest: string, delta: Option<string>, snapshot: Option<string>): string
  {
    var chunk := delta.GetOr("");
    if chunk == "" && snapshot.Some? then Slice(snapshot.value, |latest|) else chunk
  }

  /** The tracked snapshot after a delta event. */
  function DeltaSnapshot(latest: string, delta: Option<string>, snapshot: Option<string>): string
  {
    match snapshot
    case Some(s) => s
    case None => if delta.Some? && delta.value != "" then latest + delta.value else latest
  }

  /** `onChunk` of the route: one event, the chunks it enqueues, the new closure state. */
  function OnEvent(s: RelayState, e: ResponseEvent): (r: Streaming.Reaction<RelayState>)
    ensures r.thrown.None? && |r.enqueued| <= 1
    ensures e.ResponseError? || e.OtherEvent? ==> r.state == s
    ensures !e.ResponseError? ==> (r.state.emittedAny <==> s.emittedAny || r.enqueued != [])
  {
    match e
    case OutputTextDelta(delta, snapshot) =>
      var chunk := DeltaChunk(s.latestSnapshot, delta, snapshot);
      var latest := DeltaSnapshot(s.latestSnapshot, delta, snapshot);
      if chunk != "" then Streaming.Reaction(RelayState(latest, true), [chunk], None)
      else Streaming.Reaction(RelayState(latest, s.emittedAny), [], None)
    case OutputTextDone(snapshot) =>
      if snapshot.Some? && |snapshot.value| > |s.latestSnapshot| then
        Streaming.Reaction(RelayState(snapshot.value, true), [snapshot.value[|s.latestSnapshot|..]], None)
      else Streaming.Reaction(s, [], None)
    case ResponseError(message) =>
      Streaming.Reaction(s, [Streaming.ErrorMarker(message.GetOr(DefaultErrorMessage))], None)
    case OtherEvent(_) =>
      Streaming.Reaction(s, [], None)
  }

  /**
   * A delta event's chunk is its delta when that is a non-empty string, else
   * the part of its snapshot beyond the tracked length; the tracked snapshot
   * becomes the event's snapshot, else grows by the delta; an empty chunk is not
   * enqueued, and `emittedAny` turns true exactly when a chunk is.
   */
  lemma DeltaEvent(s: RelayState, delta: Option<string>, snapshot: Option<string>)
    ensures var r := OnEvent(s, OutputTextDelta(delta, snapshot));
      && (delta.Some? && delta.value != "" ==> r.enqueued == [delta.value])
      && ((delta.None? || delta.value == "") && snapshot.Some? && |s.latestSnapshot| < |snapshot.value| ==>
            r.enqueued == [snapshot.value[|s.latestSnapshot|..]])
      && ((delta.None? || delta.value == "") && (snapshot.None? || |snapshot.value| <= |s.latestSnapshot|) ==>
            r.enqueued == [])
      && (snapshot.Some? ==> r.state.latestSnapshot == snapshot.value)
      && (snapshot.None? && delta.Some? ==> r.state.latestSnapshot == s.latestSnapshot + delta.value)
      && (snapshot.None? && delta.None? ==> r.state.latestSnapshot == s.latestSnapshot)
      && (r.state.emittedAny <==> s.emittedAny || r.enqueued != [])
      && r.thrown.None?
  {
  }

  /**
   * A done event emits the missing suffix only when its snapshot is strictly
   * longer than the tracked one, and then adopts it; otherwise nothing happens.
   */
  lemma DoneEvent(s: RelayState, snapshot: Option<string>)
    ensures var r := OnEvent(s, OutputTextDone(snapshot));
      if snapshot.Some? && |snapshot.value| > |s.latestSnapshot| then
        && r.enqueued == [snapshot.value[|s.latestSnapshot|..]]
        && r.state == RelayState(snapshot.value, true)
        && r.enqueued[0] != ""
      else r.enqueued == [] && r.state == s
  {
  }

  /** An error event enqueues the in-band marker and leaves the state alone; other events do nothing. */
  lemma ErrorAndOtherEvents(s: RelayState, message: Option<string>, kind: string)
    ensures OnEvent(s, ResponseError(message)) ==
      Streaming.Reaction(s, ["\n[Stream error] " + message.GetOr("Streaming error.")], None)
    ensures OnEvent(s, OtherEvent(kind)) == Streaming.Reaction(s, [], None)
  {
  }

  /** No event makes the handler enqueue an empty chunk or throw. */
  lemma OnEventChunksNonEmpty(s: RelayState, e: ResponseEvent)
    ensures var r := OnEvent(s, e);
      && (forall i :: 0 <= i < |r.enqueued| ==> r.enqueued[i] != "")
      && |r.enqueued| <= 1
      && r.thrown.None?
      && (s.emittedAny ==> r.state.emittedAny)
  {
  }

  /**
   * An event agrees with the snapshot tracked before it: its snapshot extends
   * the tracked text (by exactly its delta, when the delta is non-empty). Error
   * events are not text and never agree.
   */
  predicate Consistent(latest: string, e: ResponseEvent)
  {
    match e
    case OutputTextDelta(delta, snapshot) =>
      snapshot.Some? ==>
        && latest <= snapshot.value
        && (delta.Some? && delta.value != "" ==> snapshot.value == latest + delta.value)
    case OutputTextDone(snapshot) =>
      snapshot.Some? && |snapshot.value| > |latest| ==> latest <= snapshot.value
    case ResponseError(_) => false
    case OtherEvent(_) => true
  }

  /** A consistent delta event: the tracked snapshot grows by exactly its chunk. */
  lemma ConsistentDelta(s: RelayState, delta: Option<string>, snapshot: Option<string>)
    requires Consistent(s.latestSnapshot, OutputTextDelta(delta, snapshot))
    ensures var r := OnEvent(s, OutputTextDelta(delta, snapshot));
      r.state.latestSnapshot == s.latestSnapshot + Concat(r.enqueued)
  {
    var latest := s.latestSnapshot;
    var chunk := DeltaChunk(latest, delta, snapshot);
    if snapshot.Some? {
      assert snapshot.value == latest + snapshot.value[|latest|..];
    }
    if chunk != "" {
      ConcatSingle(chunk);
    }
  }

  /** A consistent done event: the tracked snapshot grows by exactly its chunk. */
  lemma ConsistentDone(s: RelayState, snapshot: Option<string>)
    requires Consistent(s.latestSnapshot, OutputTextDone(snapshot))
    ensures var r := OnEvent(s, OutputTextDone(snapshot));
      r.state.latestSnapshot == s.latestSnapshot + Concat(r.enqueued)
  {
    if snapshot.Some? && |snapshot.value| > |s.latestSnapshot| {
      var chunk := snapshot.value[|s.latestSnapshot|..];
      assert snapshot.value == s.latestSnapshot + chunk;
      ConcatSingle(chunk);
    }
  }

  /** One consistent event: the tracked snapshot grows by exactly what was enqueued. */
  lemma ConsistentStep(s: RelayState, e: ResponseEvent)
    requires Consistent(s.latestSnapshot, e)
    ensures var r := OnEvent(s, e);
      r.state.latestSnapshot == s.latestSnapshot + Concat(r.enqueued)
  {
    match e
    case OutputTextDelta(delta, snapshot) => ConsistentDelta(s, delta, snapshot);
    case OutputTextDone(snapshot) => ConsistentDone(s, snapshot);
    case OtherEvent(_) =>
  }

  /** The handler over a sequence of events (it never throws). */
  function Run(s: RelayState, events: seq<ResponseEvent>): Streaming.Progress<RelayState>
  {
    Streaming.Feed(s, events, OnEvent)
  }

  lemma {:induction false} RunNeverThrows(s: RelayState, events: seq<ResponseEvent>)
    ensures Run(s, events).thrown.None?
  {
    if events != [] {
      RunNeverThrows(s, events[..|events| - 1]);
      OnEventChunksNonEmpty(Run(s, events[..|events| - 1]).state, events[|events| - 1]);
    }
  }

  /** Every event agreed with the snapshot tracked just before it. */
  predicate ConsistentRun(s: RelayState, events: seq<ResponseEvent>)
  {
    forall i :: 0 <= i < |events| ==> Consistent(Run(s, events[..i]).state.latestSnapshot, events[i])
  }

  /**
   * The main invariant: over consistent events, the chunks enqueued so far
   * concatenate to exactly the growth of the tracked snapshot, so no text is
   * ever sent twice and none is skipped. From the start state, the stream
   * carries exactly `latestSnapshot`.
   */
  lemma ConsistentRunPrefix(s: RelayState, events: seq<ResponseEvent>, n: nat)
    requires ConsistentRun(s, events)
    requires n <= |events|
    ensures ConsistentRun(s, events[..n])
  {
    var prefix := events[..n];
    forall i | 0 <= i < |prefix|
      ensures Consistent(Run(s, prefix[..i]).state.latestSnapshot, prefix[i])
    {
      assert prefix[..i] == events[..i];
    }
  }

  /** One more consistent event keeps the tracked snapshot equal to what was enqueued. */
  lemma TrackStep(s: RelayState, prefix: seq<ResponseEvent>, e: ResponseEvent)
    requires Run(s, prefix).thrown.None?
    requires Run(s, prefix).state.latestSnapshot == s.latestSnapshot + Concat(Run(s, prefix).enqueued)
    requires Consistent(Run(s, prefix).state.latestSnapshot, e)
    ensures Run(s, prefix + [e]).state.latestSnapshot == s.latestSnapshot + Concat(Run(s, prefix + [e]).enqueued)
  {
    ConsistentStep(Run(s, prefix).state, e);
    Streaming.FeedSnocTracks(s, prefix, e, OnEvent, (st: RelayState) => st.latestSnapshot, s.latestSnapshot);
  }

  lemma {:induction false} RunTracksSnapshot(s: RelayState, events: seq<ResponseEvent>)
    requires ConsistentRun(s, events)
    ensures Run(s, events).state.latestSnapshot == s.latestSnapshot + Concat(Run(s, events).enqueued)
  {
    if events != [] {
      var n := |events| - 1;
      var prefix, e := events[..n], events[n];
      ConsistentRunPrefix(s, events, n);
      RunTracksSnapshot(s, prefix);
      RunNeverThrows(s, prefix);
      assert Consistent(Run(s, prefix).state.latestSnapshot, e);
      TrackStep(s, prefix, e);
      assert events == prefix + [e];
    }
  }

  /** `emittedAny` is set exactly when a text chunk has been enqueued (error markers aside). */
  lemma {:induction false} RunEmittedAny(events: seq<ResponseEvent>)
    requires forall i :: 0 <= i < |events| ==> !events[i].ResponseError?
    ensures Run(Start, events).state.emittedAny <==> Run(Start, events).enqueued != []
  {
    if events != [] {
      var n := |events| - 1;
      var prefix := events[..n];
      assert forall i :: 0 <= i < |prefix| ==> !prefix[i].ResponseError? by {
        forall i | 0 <= i < |prefix| ensures !prefix[i].ResponseError? {
          assert prefix[i] == events[i];
        }
      }
      RunEmittedAny(prefix);
      RunNeverThrows(Start, prefix);
      assert events == prefix + [events[n]];
      Streaming.FeedSnoc(Start, prefix, events[n], OnEvent);
    }
  }

  /** Deltas that carry no text leave the start state untouched. */
  lemma {:induction false} SilentDeltas(events: seq<ResponseEvent>)
    requires forall i :: 0 <= i < |events| ==>
      events[i].OutputTextDelta? && events[i].snapshot.None? &&
      (events[i].delta.None? || events[i].delta.value == "")
    ensures Run(Start, events) == Streaming.Progress(Start, [], None)
  {
    if events != [] {
      var n := |events| - 1;
      SilentDeltas(events[..n]);
      assert events == events[..n] + [events[n]];
      Streaming.FeedSnoc(Start, events[..n], events[n], OnEvent);
    }
  }

  /**
   * A provider that streams only empty deltas and then a done event with the
   * full text: the relay emits that full text exactly once.
   */
  lemma DoneRecoversWholeText(events: seq<ResponseEvent>, full: string)
    requires forall i :: 0 <= i < |events| ==>
      events[i].OutputTextDelta? && events[i].snapshot.None? &&
      (events[i].delta.None? || events[i].delta.value == "")
    requires full != ""
    ensures Run(Start, events + [OutputTextDone(Some(full))]).enqueued == [full]
  {
    SilentDeltas(events);
    Streaming.FeedSnoc(Start, events, OutputTextDone(Some(full)), OnEvent);
  }

  /** Deltas "Hel" and "lo", then a done event with "Hello!": the stream carries "Hel", "lo", "!". */
  lemma DeltasThenDoneExample()
    ensures Run(Start, [OutputTextDelta(Some("Hel"), None), OutputTextDelta(Some("lo"), None),
                        OutputTextDone(Some("Hello!"))]).enqueued == ["Hel", "lo", "!"]
  {
    var e1, e2, e3 := OutputTextDelta(Some("Hel"), None), OutputTextDelta(Some("lo"), None), OutputTextDone(Some("Hello!"));
    assert [] + [e1] == [e1];
    Streaming.FeedSnoc(Start, [], e1, OnEvent);
    assert Run(Start, []) == Streaming.Progress(Start, [], None);
    assert DeltaChunk("", Some("Hel"), None) == "Hel";
    assert DeltaSnapshot("", Some("Hel"), None) == "Hel";
    assert OnEvent(Start, e1) == Streaming.Reaction(RelayState("Hel", true), ["Hel"], None);
    assert Run(Start, [e1]) == Streaming.Progress(RelayState("Hel", true), ["Hel"], None);
    assert [e1] + [e2] == [e1, e2];
    Streaming.FeedSnoc(Start, [e1], e2, OnEvent);
    assert "Hel" + "lo" == "Hello";
    assert DeltaChunk("Hel", Some("lo"), None) == "lo";
    assert DeltaSnapshot("Hel", Some("lo"), None) == "Hello";
    assert OnEvent(RelayState("Hel", true), e2) == Streaming.Reaction(RelayState("Hello", true), ["lo"], None);
    assert Run(Start, [e1, e2]) == Streaming.Progress(RelayState("Hello", true), ["Hel", "lo"], None);
    assert [e1, e2] + [e3] == [e1, e2, e3];
    Streaming.FeedSnoc(Start, [e1, e2], e3, OnEvent);
    assert "Hello!"[5..] == "!";
  }

  /** What `stream.finalResponse()` gave `onComplete`: a value, or a rejection. */
  datatype FinalResponse = FinalValue(value: Json) | FinalFailed(error: Thrown)

  /**
   * `onComplete`: only when nothing was emitted, the final response's
   * `output_text`, when it is a non-blank string; failures are swallowed.
   */
  function Fallback(s: RelayState, final: FinalResponse): (r: Streaming.Reaction<RelayState>)
    ensures r.state == s && r.thrown.None? && |r.enqueued| <= 1
    ensures s.emittedAny || final.FinalFailed? ==> r.enqueued == []
    ensures r.enqueued != [] ==> !IsBlank(r.enqueued[0])
  {
    if s.emittedAny then Streaming.Reaction(s, [], None)
    else match final
      case FinalFailed(_) => Streaming.Reaction(s, [], None)
      case FinalValue(v) =>
        match StringOf(Field(v, "output_text"))
        case Some(text) =>
          if !IsBlank(text) then Streaming.Reaction(s, [text], None) else Streaming.Reaction(s, [], None)
        case None => Streaming.Reaction(s, [], None)
  }

  /**
   * The final response is consulted only when nothing was emitted; what it
   * contributes is one non-blank `output_text`; it never throws or changes the state.
   */
  lemma FallbackGate(s: RelayState, final: FinalResponse, other: FinalResponse)
    ensures s.emittedAny ==> Fallback(s, final) == Fallback(s, other) == Streaming.Reaction(s, [], None)
    ensures var r := Fallback(s, final);
      && r.state == s && r.thrown.None? && |r.enqueued| <= 1
      && (r.enqueued != [] ==>
            !IsBlank(r.enqueued[0]) && final.FinalValue? &&
            Field(final.value, "output_text") == Some(JString(r.enqueued[0])))
      && ((!s.emittedAny && final.FinalValue? && StringOf(Field(final.value, "output_text")).Some? &&
            !IsBlank(StringOf(Field(final.value, "output_text")).value)) ==> r.enqueued != [])
  {
  }

  /** The stream the route returns: the relay with this handler and fallback, and no custom error message. */
  function StreamOutput(events: seq<ResponseEvent>, failure: Option<Thrown>, final: FinalResponse): seq<string>
  {
    Streaming.Relay(Start, events, failure, OnEvent, Some((s: RelayState) => Fallback(s, final)), None).output
  }

  /**
   * End to end: when the provider's events are consistent and the stream ends
   * cleanly after emitting something, the client receives exactly the final
   * snapshot, with no chunk repeated.
   */
  lemma StreamCarriesSnapshot(events: seq<ResponseEvent>, final: FinalResponse)
    requires ConsistentRun(Start, events)
    requires Run(Start, events).state.emittedAny
    ensures Concat(StreamOutput(events, None, final)) == Run(Start, events).state.latestSnapshot
  {
    RunTracksSnapshot(Start, events);
    RunNeverThrows(Start, events);
    Streaming.RelayOrder(Start, events, None, OnEvent, Some((s: RelayState) => Fallback(s, final)), None);
    var p := Run(Start, events);
    assert Fallback(p.state, final).enqueued == [] && Fallback(p.state, final).thrown.None?;
    assert p.enqueued + [] == p.enqueued;
  }

  /**
   * The handler as the route's closure: the two variables it updates and the
   * chunks it has passed to `enqueue`. The ghost flag records whether every
   * event so far was consistent with the snapshot tracked before it.
   */
  class ResponsesRelay {
    var latestSnapshot: string
    var emittedAny: bool
    var emitted: seq<string>
    ghost var consistent: bool

    ghost predicate Valid()
      reads this
    {
      && (forall i :: 0 <= i < |emitted| ==> emitted[i] != "")
      && (emittedAny ==> emitted != [])
      && (consistent ==> Concat(emitted) == latestSnapshot && (emittedAny <==> emitted != []))
    }

    function State(): RelayState
      reads this
    {
      RelayState(latestSnapshot, emittedAny)
    }

    constructor ()
      ensures Valid() && consistent
      ensures latestSnapshot == "" && !emittedAny && emitted == []
    {
      latestSnapshot := "";
      emittedAny := false;
      emitted := [];
      consistent := true;
    }

    /** `onChunk(event, enqueue)` */
    method OnChunk(e: ResponseEvent)
      requires Valid()
      modifies this
      ensures Valid()
      ensures State() == OnEvent(old(State()), e).state
      ensures emitted == old(emitted) + OnEvent(old(State()), e).enqueued
      ensures consistent == (old(consistent) && Consistent(old(latestSnapshot), e))
    {
      ghost var before := State();
      OnEventChunksNonEmpty(before, e);
      if consistent && Consistent(latestSnapshot, e) {
        ConsistentStep(before, e);
        ConcatAppend(emitted, OnEvent(before, e).enqueued);
      }
      match e {
        case OutputTextDelta(delta, snapshot) => OnDelta(delta, snapshot);
        case OutputTextDone(snapshot) => OnDone(snapshot);
        case ResponseError(message) => OnError(message);
        case OtherEvent(_) =>
      }
      consistent := consistent && Consistent(before.latestSnapshot, e);
    }

    /** The `response.output_text.delta` branch. */
    method OnDelta(delta: Option<string>, snapshot: Option<string>)
      modifies this`latestSnapshot, this`emittedAny, this`emitted
      ensures State() == OnEvent(old(State()), OutputTextDelta(delta, snapshot)).state
      ensures emitted == old(emitted) + OnEvent(old(State()), OutputTextDelta(delta, snapshot)).enqueued
    {
      var chunk := delta.GetOr("");
      if chunk == "" && snapshot.Some? {
        chunk := Slice(snapshot.value, |latestSnapshot|);
      }
      if snapshot.Some? {
        latestSnapshot := snapshot.value;
      } else if delta.Some? && delta.value != "" {
        latestSnapshot := latestSnapshot + delta.value;
      }
      if chunk != "" {
        emitted := emitted + [chunk];
        emittedAny := true;
      }
    }

    /** The `response.output_text.done` branch. */
    method OnDone(snapshot: Option<string>)
      modifies this`latestSnapshot, this`emittedAny, this`emitted
      ensures State() == OnEvent(old(State()), OutputTextDone(snapshot)).state
      ensures emitted == old(emitted) + OnEvent(old(State()), OutputTextDone(snapshot)).enqueued
    {
      if snapshot.Some? && |snapshot.value| > |latestSnapshot| {
        var chunk := snapshot.value[|latestSnapshot|..];
        emitted := emitted + [chunk];
        latestSnapshot := snapshot.value;
        emittedAny := true;
      }
    }

    /** The `response.error` branch. */
    method OnError(message: Option<string>)
      modifies this`emitted
      ensures State() == old(State())
      ensures emitted == old(emitted) + OnEvent(old(State()), ResponseError(message)).enqueued
    {
      var text := match message case Some(m) => m case None => DefaultErrorMessage;
      emitted := emitted + [Streaming.ErrorMarker(text)];
    }

    /** `onComplete(enqueue)` with the outcome of `stream.finalResponse()`. */
    method OnComplete(final: FinalResponse)
      requires Valid()
      modifies this
      ensures Valid()
      ensures latestSnapshot == old(latestSnapshot) && emittedAny == old(emittedAny)
      ensures emitted == old(emitted) + Fallback(old(State()), final).enqueued
      ensures consistent == (old(consistent) && Fallback(old(State()), final).enqueued == [])
    {
      if emittedAny {
        return;
      }
      match final {
        case FinalValue(v) =>
          var fallbackText := StringOf(Field(v, "output_text"));
          if fallbackText.Some? && !IsBlank(fallbackText.value) {
            assert fallbackText.value != "";
            consistent := false;
            emitted := emitted + [fallbackText.value];
          }
        case FinalFailed(_) =>
      }
    }
  }

  /**
   * `POST`: credential, then body, then prompt; on success the stream response,
   * on an upstream failure its status (else 500) and message (else
   * "Streaming request failed."). `opening` is what opening the stream threw, if anything.
   */
  function Post(config: OpenAi.Config, body: Routes.BodyRead, opening: Option<Thrown>): (t: Routes.RouteTrace)
    ensures OpenAi.GetHfClient(config).ClientMissing? ==>
      t == Routes.RouteTrace(false, None, OpenAi.GetHfClient(config).response)
    ensures OpenAi.GetHfClient(config).ClientReady? ==> t.bodyRead
    ensures t.call.Some? <==>
      && OpenAi.GetHfClient(config).ClientReady? && body.Parsed?
      && Routes.PromptText(Routes.BodyField(body.value, "prompt")) != ""
    ensures t.call.Some? ==> t.call.value == Routes.ResponsesStreamCall(
      OpenAi.ResolveModel(Routes.BodyField(body.value, "model"), config),
      Routes.PromptText(Routes.BodyField(body.value, "prompt")))
    ensures OpenAi.GetHfClient(config).ClientReady? && body.InvalidJson? ==>
      t.response == Http.JsonError(400, Routes.InvalidBodyMessage)
    ensures OpenAi.GetHfClient(config).ClientReady? && body.Parsed? && t.call.None? ==>
      t.response == Http.JsonError(400, Routes.PromptMissingMessage)
    ensures t.call.Some? && opening.None? ==> t.response == Routes.StreamResponse
    ensures t.call.Some? && opening.Some? ==>
      t.response == Routes.FailureResponse(opening.value, "Streaming request failed.")
  {
    match OpenAi.GetHfClient(config)
    case ClientMissing(response) => Routes.RouteTrace(false, None, response)
    case ClientReady(_) =>
      match Routes.ReadJson(body)
      case Err(response) => Routes.RouteTrace(true, None, response)
      case Ok(data) =>
        var promptText := Routes.PromptText(Routes.BodyField(data, "prompt"));
        if promptText == "" then Routes.RouteTrace(true, None, Http.JsonError(400, Routes.PromptMissingMessage))
        else
          var call := Routes.ResponsesStreamCall(OpenAi.ResolveModel(Routes.BodyField(data, "model"), config), promptText);
          match opening
          case None => Routes.RouteTrace(true, Some(call), Routes.StreamResponse)
          case Some(e) => Routes.RouteTrace(true, Some(call), Routes.FailureResponse(e, "Streaming request failed."))
  }
}
