/**
 * The client side of the streaming demos: a request state `{response, status,
 * message}` with guarded transitions, and the read loop that appends the
 * decoded chunks to `response`.
 */
module StreamingHook {
  import opened Common
  import opened Text
  import opened JsonValues
  import opened Upstream
  import ClientRequests

  datatype StreamStatus = Idle | Streaming | Failed

  datatype StreamingState = StreamingState(response: string, status: StreamStatus, message: Option<string>)

  const Initial := StreamingState("", Idle, None)
  const Started := StreamingState("", Streaming, None)

  const CancelledMessage := "Stream cancelled."
  const NoStreamMessage := "Streaming isn't supported in this environment."
  const GenericFailureMessage := "Something went wrong."

  /**
   * What `fetch` gave back: a reply that is not OK, an OK reply without a body,
   * a body read as these decoded chunks (then possibly a read failure), or a
   * failure of `fetch` itself.
   */
  datatype Reply =
    | NotOk(status: nat, payload: string)
    | NoBody
    | Streamed(chunks: seq<string>, failure: Option<Thrown>)
    | FetchFailed(error: Thrown)

  /** The catch block: cancelled when the request was aborted, else the error's message. */
  function Failure(s: StreamingState, e: Thrown, aborted: bool): (r: StreamingState)
    ensures r.response == s.response && r.message.Some?
    ensures aborted <==> r.status == Idle
    ensures aborted ==> r.message == Some(CancelledMessage)
    ensures !aborted && !e.NonError? ==> r == StreamingState(s.response, Failed, Some(e.message))
    ensures !aborted && e.NonError? ==> r == StreamingState(s.response, Failed, Some(GenericFailureMessage))
  {
    if aborted then StreamingState(s.response, Idle, Some(CancelledMessage))
    else match e
      case NonError => StreamingState(s.response, Failed, Some(GenericFailureMessage))
      case _ => StreamingState(s.response, Failed, Some(e.message))
  }

  /** The body checks `submit` runs before it starts. */
  predicate BodyReady(body: Json)
  {
    ClientRequests.PromptPresent(body) && ClientRequests.MessagesPresent(body)
  }

  /**
   * `submit` as a value: the state once the request has settled. `parse`
   * stands for `JSON.parse` and `aborted` for `controller.signal.aborted` when
   * the catch block runs.
   */
  function AfterSubmit(s: StreamingState, body: Json, reply: Reply, completionMessage: string,
                       parse: string -> Option<Json>, aborted: bool): (r: StreamingState)
    ensures r.status == Streaming ==> r == s
    ensures r != s ==> r.message.Some?
  {
    if s.status == Streaming || !BodyReady(body) then s
    else match reply
      case NotOk(status, payload) =>
        Failure(Started, ErrorValue(ClientRequests.FailureReason(status, payload, parse)), aborted)
      case NoBody => Failure(Started, ErrorValue(NoStreamMessage), aborted)
      case FetchFailed(e) => Failure(Started, e, aborted)
      case Streamed(chunks, None) => StreamingState(Concat(chunks), Idle, Some(completionMessage))
      case Streamed(chunks, Some(e)) => Failure(StreamingState(Concat(chunks), Streaming, None), e, aborted)
  }

  /**
   * A submit while streaming, or with a body whose prompt or messages would be
   * refused, changes nothing; any other submit leaves the state settled (never
   * streaming), with a message, and with `response` holding exactly the text
   * received, in order.
   */
  lemma SubmitOutcome(s: StreamingState, body: Json, reply: Reply, completionMessage: string,
                      parse: string -> Option<Json>, aborted: bool)
    ensures var r := AfterSubmit(s, body, reply, completionMessage, parse, aborted);
      && (s.status == Streaming || !BodyReady(body) ==> r == s)
      && (s.status != Streaming && BodyReady(body) ==>
            && r.status != Streaming
            && r.message.Some?
            && r.response == (if reply.Streamed? then Concat(reply.chunks) else "")
            && (r.status == Idle <==> aborted || (reply.Streamed? && reply.failure.None?))
            && (reply.Streamed? && reply.failure.None? ==> r.message == Some(completionMessage))
            && (reply.NotOk? && !aborted ==>
                  r.message == Some(ClientRequests.FailureReason(reply.status, reply.payload, parse))))
  {
  }

  /** The request object: the hook's state, the live controller and how often one was aborted. */
  class StreamingRequest {
    var response: string
    var status: StreamStatus
    var message: Option<string>
    var hasController: bool
    var aborts: nat

    /** Streaming always has a controller to abort. */
    ghost predicate Valid()
      reads this
    {
      status == Streaming ==> hasController
    }

    function State(): StreamingState
      reads this
    {
      StreamingState(response, status, message)
    }

    constructor ()
      ensures Valid() && State() == Initial && !hasController && aborts == 0
    {
      response := "";
      status := Idle;
      message := None;
      hasController := false;
      aborts := 0;
    }

    /** `cancel()`: only while streaming with a live controller. */
    method Cancel()
      requires Valid()
      modifies this
      ensures Valid()
      ensures old(status) == Streaming ==>
        State() == StreamingState(old(response), Idle, Some(CancelledMessage)) && aborts == old(aborts) + 1
      ensures old(status) != Streaming ==> State() == old(State()) && aborts == old(aborts)
      ensures hasController == old(hasController)
    {
      if status == Streaming && hasController {
        aborts := aborts + 1;
        status := Idle;
        message := Some(CancelledMessage);
      }
    }

    /** `reset()`: abort any controller and return to the initial state. */
    method Reset()
      modifies this
      ensures Valid() && State() == Initial
      ensures aborts == old(aborts) + (if old(hasController) then 1 else 0)
      ensures hasController == old(hasController)
    {
      if hasController {
        aborts := aborts + 1;
      }
      response, status, message := "", Idle, None;
    }

    /** The start of `submit`: the guards, then a fresh controller and the streaming state. */
    method Begin(body: Json) returns (started: bool)
      requires Valid()
      modifies this
      ensures Valid()
      ensures started <==> old(status) != Streaming && BodyReady(body)
      ensures started ==>
        State() == Started && hasController && aborts == old(aborts) + (if old(hasController) then 1 else 0)
      ensures !started ==> State() == old(State()) && hasController == old(hasController) && aborts == old(aborts)
    {
      if status == Streaming {
        return false;
      }
      if !ClientRequests.PromptPresent(body) || !ClientRequests.MessagesPresent(body) {
        return false;
      }
      if hasController {
        aborts := aborts + 1;
      }
      hasController := true;
      response, status, message := "", Streaming, None;
      started := true;
    }

    /** The read loop: every non-empty decoded chunk is appended to `response`. */
    method Receive(chunks: seq<string>)
      modifies this`response
      ensures response == old(response) + Concat(chunks)
    {
      var i := 0;
      while i < |chunks|
        invariant 0 <= i <= |chunks|
        invariant response == old(response) + Concat(chunks[..i])
      {
        var chunk := chunks[i];
        assert chunks[..i + 1][..i] == chunks[..i];
        if chunk != "" {
          response := response + chunk;
        }
        i := i + 1;
      }
      assert chunks[..i] == chunks;
    }

    /** The end of the loop, then the `finally` that drops the controller. */
    method Complete(completionMessage: string)
      modifies this
      ensures Valid()
      ensures State() == StreamingState(old(response), Idle, Some(completionMessage))
      ensures !hasController && aborts == old(aborts)
    {
      status := Idle;
      message := Some(completionMessage);
      hasController := false;
    }

    /** The catch block, then the `finally` that drops the controller. */
    method Fail(e: Thrown, aborted: bool)
      modifies this
      ensures Valid()
      ensures State() == Failure(old(State()), e, aborted)
      ensures !hasController && aborts == old(aborts)
    {
      if aborted {
        status, message := Idle, Some(CancelledMessage);
      } else if e.NonError? {
        status, message := Failed, Some(GenericFailureMessage);
      } else {
        status, message := Failed, Some(e.message);
      }
      hasController := false;
    }

    /** `submit(...)`, run until the request settles without interleaved calls. */
    method Submit(body: Json, reply: Reply, completionMessage: string, parse: string -> Option<Json>, aborted: bool)
      requires Valid()
      modifies this
      ensures Valid()
      ensures State() == AfterSubmit(old(State()), body, reply, completionMessage, parse, aborted)
    {
      var started := Begin(body);
      if !started {
        return;
      }
      match reply {
        case NotOk(code, payload) =>
          var reason := ClientRequests.FailureReason(code, payload, parse);
          Fail(ErrorValue(reason), aborted);
        case NoBody =>
          Fail(ErrorValue(NoStreamMessage), aborted);
        case FetchFailed(e) =>
          Fail(e, aborted);
        case Streamed(chunks, failure) =>
          Receive(chunks);
          if failure.Some? {
            Fail(failure.value, aborted);
          } else {
            Complete(completionMessage);
          }
      }
    }
  }
}
