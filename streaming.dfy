/**
 * `streamText`: relays an upstream event sequence into a text stream. Each
 * event goes to `onChunk`, which may enqueue text; after a clean end of the
 * sequence `onComplete` may enqueue more; anything thrown on the way becomes
 * one in-band error marker. `enqueue` drops empty strings.
 */
module Streaming {
  import opened Common
  import opened Text
  import opened Upstream

  const ErrorMarkerPrefix := "\n[Stream error] "

  /** The in-band marker `"\n[Stream error] " + message`. */
  function ErrorMarker(message: string): (r: string)
    ensures |r| > |ErrorMarkerPrefix| - 1 > 0
    ensures r[..|ErrorMarkerPrefix|] == ErrorMarkerPrefix && r[|ErrorMarkerPrefix|..] == message
  {
    ErrorMarkerPrefix + message
  }

  /** The message for a thrown value: `onErrorMessage(e)`, else an `Error`'s message, else a fixed text. */
  function StreamErrorMessage(e: Thrown, onErrorMessage: Option<Thrown -> string>): (message: string)
    ensures onErrorMessage.Some? ==> message == onErrorMessage.value(e)
    ensures onErrorMessage.None? && !e.NonError? ==> message == e.message
    ensures onErrorMessage.None? && e.NonError? ==> message == "Unexpected streaming error."
  {
    match onErrorMessage
    case Some(f) => f(e)
    case None =>
      match e
      case NonError => "Unexpected streaming error."
      case _ => e.message
  }

  /** One callback run: the callback's state afterwards, the texts it enqueued in order, what it threw. */
  datatype Reaction<S> = Reaction(state: S, enqueued: seq<string>, thrown: Option<Thrown>)

  /** The texts `enqueue` lets through: the non-empty ones, in order. */
  function NonEmpty(texts: seq<string>): (r: seq<string>)
    ensures |r| <= |texts|
    ensures forall i :: 0 <= i < |r| ==> r[i] != ""
  {
    if texts == [] then []
    else
      var init := NonEmpty(texts[..|texts| - 1]);
      var last := texts[|texts| - 1];
      if last == "" then init else init + [last]
  }

  lemma {:induction false} NonEmptyAppend(a: seq<string>, b: seq<string>)
    ensures NonEmpty(a + b) == NonEmpty(a) + NonEmpty(b)
    decreases |b|
  {
    if b == [] {
      assert a + b == a;
    } else {
      assert (a + b)[..|a + b| - 1] == a + b[..|b| - 1];
      NonEmptyAppend(a, b[..|b| - 1]);
    }
  }

  lemma {:induction false} NonEmptyPrefix(c: seq<string>, a: seq<string>, b: seq<string>)
    requires |a| <= |b| && b[..|a|] == a
    ensures c + NonEmpty(a) + NonEmpty(b[|a|..]) == c + NonEmpty(b)
  {
    assert a + b[|a|..] == b;
    NonEmptyAppend(a, b[|a|..]);
    assert NonEmpty(b) == NonEmpty(a) + NonEmpty(b[|a|..]);
  }

  lemma {:induction false} NonEmptyExtend(c: seq<string>, a: seq<string>, b: seq<string>)
    ensures c + NonEmpty(a) + NonEmpty(b) == c + NonEmpty(a + b)
  {
    NonEmptyAppend(a, b);
  }

  /** Dropping the empty strings does not change what the reader receives. */
  lemma {:induction false} NonEmptyConcat(texts: seq<string>)
    ensures Concat(NonEmpty(texts)) == Concat(texts)
  {
    if texts != [] {
      var init := texts[..|texts| - 1];
      var last := texts[|texts| - 1];
      NonEmptyConcat(init);
      if last != "" {
        ConcatAppend(NonEmpty(init), [last]);
        ConcatSingle(last);
      }
    }
  }

  /** Where `onChunk` has got to after some events: its state, everything enqueued, the first throw. */
  datatype Progress<S> = Progress(state: S, enqueued: seq<string>, thrown: Option<Thrown>)

  /** `onChunk` over the events in order, stopping at the first throw. */
  function Feed<S, T>(init: S, events: seq<T>, onChunk: (S, T) -> Reaction<S>): (p: Progress<S>)
    ensures events == [] ==> p == Progress(init, [], None)
  {
    if events == [] then Progress(init, [], None)
    else
      var p := Feed(init, events[..|events| - 1], onChunk);
      if p.thrown.Some? then p
      else
        var r := onChunk(p.state, events[|events| - 1]);
        Progress(r.state, p.enqueued + r.enqueued, r.thrown)
  }

  /** One more event: `onChunk` sees it only if nothing has thrown yet. */
  lemma {:induction false} FeedSnoc<S, T>(init: S, events: seq<T>, e: T, onChunk: (S, T) -> Reaction<S>)
    ensures var p := Feed(init, events, onChunk);
      Feed(init, events + [e], onChunk) ==
        if p.thrown.Some? then p
        else var r := onChunk(p.state, e); Progress(r.state, p.enqueued + r.enqueued, r.thrown)
  {
    assert (events + [e])[..|events|] == events;
  }

  /** The loop's step: the event at `i`, reached with nothing thrown, goes to `onChunk`. */
  lemma {:induction false} FeedStep<S, T>(init: S, events: seq<T>, i: nat, onChunk: (S, T) -> Reaction<S>)
    requires i < |events| && Feed(init, events[..i], onChunk).thrown.None?
    ensures var p := Feed(init, events[..i], onChunk); var r := onChunk(p.state, events[i]);
      Feed(init, events[..i + 1], onChunk) == Progress(r.state, p.enqueued + r.enqueued, r.thrown)
  {
    assert events[..i + 1] == events[..i] + [events[i]];
    FeedSnoc(init, events[..i], events[i], onChunk);
  }

  /**
   * A view of the handler state that grows by exactly what each step enqueues
   * keeps matching the enqueued text after one more event.
   */
  lemma {:induction false} FeedSnocTracks<S, T>(init: S, events: seq<T>, e: T, onChunk: (S, T) -> Reaction<S>,
                             view: S -> string, base: string)
    requires Feed(init, events, onChunk).thrown.None?
    requires view(Feed(init, events, onChunk).state) == base + Concat(Feed(init, events, onChunk).enqueued)
    requires var st := Feed(init, events, onChunk).state;
      view(onChunk(st, e).state) == view(st) + Concat(onChunk(st, e).enqueued)
    ensures view(Feed(init, events + [e], onChunk).state) == base + Concat(Feed(init, events + [e], onChunk).enqueued)
  {
    var p := Feed(init, events, onChunk);
    var r := onChunk(p.state, e);
    FeedSnoc(init, events, e, onChunk);
    ConcatAppend(p.enqueued, r.enqueued);
  }

  /** Once `onChunk` has thrown, later events are never seen. */
  lemma {:induction false} FeedStopsAtThrow<S, T>(init: S, events: seq<T>, n: nat, onChunk: (S, T) -> Reaction<S>)
    requires n <= |events|
    requires Feed(init, events[..n], onChunk).thrown.Some?
    ensures Feed(init, events, onChunk) == Feed(init, events[..n], onChunk)
    decreases |events| - n
  {
    if n < |events| {
      assert events[..n + 1][..n] == events[..n];
      FeedStopsAtThrow(init, events, n + 1, onChunk);
    } else {
      assert events[..n] == events;
    }
  }

  /** The whole run of `start`: what reached the stream, and whether `onComplete` ran. */
  datatype Outcome<S> = Outcome(output: seq<string>, completed: bool, error: Option<Thrown>, final: S)

  /**
   * After the events: the iterator's own failure if it threw, else `onComplete`
   * (when given) on the state the events left.
   */
  function Finish<S>(p: Progress<S>, failure: Option<Thrown>, onComplete: Option<S -> Reaction<S>>): (q: Progress<S>)
    ensures |p.enqueued| <= |q.enqueued| && q.enqueued[..|p.enqueued|] == p.enqueued
    ensures p.thrown.Some? ==> q == p
    ensures p.thrown.None? && failure.Some? ==> q.thrown == failure && q.enqueued == p.enqueued && q.state == p.state
    ensures p.thrown.None? && failure.None? && onComplete.None? ==> q == p
  {
    if p.thrown.Some? then p
    else if failure.Some? then Progress(p.state, p.enqueued, failure)
    else match onComplete
      case None => p
      case Some(f) =>
        var r := f(p.state);
        Progress(r.state, p.enqueued + r.enqueued, r.thrown)
  }

  /** The error marker enqueued in the `catch` block, when something threw. */
  function Marker(thrown: Option<Thrown>, onErrorMessage: Option<Thrown -> string>): (r: seq<string>)
    ensures thrown.None? <==> r == []
    ensures thrown.Some? ==> |r| == 1 && ErrorMarkerPrefix <= r[0]
    ensures thrown.Some? ==> |r| == 1 && r[0][|ErrorMarkerPrefix|..] == StreamErrorMessage(thrown.value, onErrorMessage)
  {
    match thrown
    case Some(e) => [ErrorMarker(StreamErrorMessage(e, onErrorMessage))]
    case None => []
  }

  /**
   * `events` is what the iterator yields; `failure` is Some(e) when the
   * iterator throws e after the last of them instead of ending.
   */
  function Relay<S, T>(
    init: S, events: seq<T>, failure: Option<Thrown>,
    onChunk: (S, T) -> Reaction<S>, onComplete: Option<S -> Reaction<S>>,
    onErrorMessage: Option<Thrown -> string>): (o: Outcome<S>)
    ensures o.error.Some? ==> o.output != [] && ErrorMarkerPrefix <= o.output[|o.output| - 1]
    ensures o.completed && o.error.Some? ==> onComplete.Some?
  {
    var p := Feed(init, events, onChunk);
    var q := Finish(p, failure, onComplete);
    Outcome(NonEmpty(q.enqueued) + Marker(q.thrown, onErrorMessage), p.thrown.None? && failure.None?, q.thrown, q.state)
  }

  lemma {:induction false} RelayUnfold<S, T>(
    init: S, events: seq<T>, failure: Option<Thrown>,
    onChunk: (S, T) -> Reaction<S>, onComplete: Option<S -> Reaction<S>>,
    onErrorMessage: Option<Thrown -> string>, p: Progress<S>, q: Progress<S>)
    requires p == Feed(init, events, onChunk) && q == Finish(p, failure, onComplete)
    ensures Relay(init, events, failure, onChunk, onComplete, onErrorMessage).output == NonEmpty(q.enqueued) + Marker(q.thrown, onErrorMessage)
    ensures Relay(init, events, failure, onChunk, onComplete, onErrorMessage).final == q.state
  {
  }

  /** The pieces `start` enqueues, one step after the other, make up `Relay`'s output. */
  lemma {:induction false} RelayPieces<S, T>(
    c0: seq<string>, init: S, events: seq<T>, failure: Option<Thrown>,
    onChunk: (S, T) -> Reaction<S>, onComplete: Option<S -> Reaction<S>>,
    onErrorMessage: Option<Thrown -> string>, p: Progress<S>, q: Progress<S>)
    requires p == Feed(init, events, onChunk) && q == Finish(p, failure, onComplete)
    ensures |p.enqueued| <= |q.enqueued|
    ensures c0 + NonEmpty(p.enqueued) + NonEmpty(q.enqueued[|p.enqueued|..]) + Marker(q.thrown, onErrorMessage) ==
      c0 + Relay(init, events, failure, onChunk, onComplete, onErrorMessage).output
    ensures q.state == Relay(init, events, failure, onChunk, onComplete, onErrorMessage).final
  {
    RelayUnfold(init, events, failure, onChunk, onComplete, onErrorMessage, p, q);
    NonEmptyPrefix(c0, p.enqueued, q.enqueued);
  }

  /** No empty chunk ever reaches the stream. */
  lemma RelayNoEmptyChunk<S, T>(
    init: S, events: seq<T>, failure: Option<Thrown>,
    onChunk: (S, T) -> Reaction<S>, onComplete: Option<S -> Reaction<S>>,
    onErrorMessage: Option<Thrown -> string>)
    ensures var o := Relay(init, events, failure, onChunk, onComplete, onErrorMessage);
      forall i :: 0 <= i < |o.output| ==> o.output[i] != ""
  {
  }

  /**
   * The stream carries, in event order, the concatenation of what `onChunk`
   * enqueued (and `onComplete` after it), then exactly one error marker when
   * something threw, and nothing after that marker.
   */
  lemma {:induction false} RelayOrder<S, T>(
    init: S, events: seq<T>, failure: Option<Thrown>,
    onChunk: (S, T) -> Reaction<S>, onComplete: Option<S -> Reaction<S>>,
    onErrorMessage: Option<Thrown -> string>)
    ensures var o := Relay(init, events, failure, onChunk, onComplete, onErrorMessage);
      var p := Feed(init, events, onChunk);
      var tail := if o.completed && onComplete.Some? then onComplete.value(p.state).enqueued else [];
      && (o.error.None? ==> Concat(o.output) == Concat(p.enqueued + tail))
      && (o.error.Some? ==>
            && o.output != []
            && o.output[|o.output| - 1] == ErrorMarker(StreamErrorMessage(o.error.value, onErrorMessage))
            && Concat(o.output[..|o.output| - 1]) == Concat(p.enqueued + tail))
  {
    var p := Feed(init, events, onChunk);
    var q := Finish(p, failure, onComplete);
    var tail := if p.thrown.None? && failure.None? && onComplete.Some? then onComplete.value(p.state).enqueued else [];
    assert q.enqueued == p.enqueued + tail;
    NonEmptyConcat(p.enqueued + tail);
    var o := Relay(init, events, failure, onChunk, onComplete, onErrorMessage);
    if q.thrown.None? {
      assert o.output == NonEmpty(q.enqueued);
    } else {
      assert o.output[..|o.output| - 1] == NonEmpty(q.enqueued);
    }
  }

  /**
   * `onComplete` runs exactly when the iterator ended without throwing and no
   * `onChunk` threw; it then runs after every event has been handled.
   */
  lemma RelayCompletesOnlyOnCleanEnd<S, T>(
    init: S, events: seq<T>, failure: Option<Thrown>,
    onChunk: (S, T) -> Reaction<S>, onComplete: Option<S -> Reaction<S>>,
    onErrorMessage: Option<Thrown -> string>)
    ensures var o := Relay(init, events, failure, onChunk, onComplete, onErrorMessage);
      o.completed <==> Feed(init, events, onChunk).thrown.None? && failure.None?
    ensures var o := Relay(init, events, failure, onChunk, onComplete, onErrorMessage);
      o.error.None? <==> o.completed && (onComplete.None? || onComplete.value(Feed(init, events, onChunk).state).thrown.None?)
  {
  }

  /**
   * The downstream side of the relay: what has been passed to the stream
   * controller, how often it was closed, whether the abort listener is
   * registered and how often the upstream `cancel` hook ran.
   */
  class TextStream {
    var chunks: seq<string>
    var closeCalls: nat
    var listening: bool
    var cancelCalls: nat

    constructor ()
      ensures chunks == [] && closeCalls == 0 && !listening && cancelCalls == 0
    {
      chunks := [];
      closeCalls := 0;
      listening := false;
      cancelCalls := 0;
    }

    /** `enqueue(text)`: the controller only ever receives non-empty text. */
    method Enqueue(text: string)
      modifies this`chunks
      ensures chunks == old(chunks) + NonEmpty([text])
    {
      assert [text][..0] == [];
      if text != "" {
        chunks := chunks + [text];
      }
    }

    /** A callback's enqueue calls, one after the other. */
    method EnqueueAll(texts: seq<string>)
      modifies this`chunks
      ensures chunks == old(chunks) + NonEmpty(texts)
    {
      for i := 0 to |texts|
        invariant chunks == old(chunks) + NonEmpty(texts[..i])
      {
        assert texts[..i + 1] == texts[..i] + [texts[i]];
        NonEmptyAppend(texts[..i], [texts[i]]);
        Enqueue(texts[i]);
      }
      assert texts[..|texts|] == texts;
    }

    /** The `for await` loop: every event into `onChunk`, until one throws. */
    method Pump<S, T>(init: S, events: seq<T>, onChunk: (S, T) -> Reaction<S>)
      returns (p: Progress<S>)
      modifies this`chunks
      ensures p == Feed(init, events, onChunk)
      ensures chunks == old(chunks) + NonEmpty(p.enqueued)
    {
      p := Progress(init, [], None);
      var i := 0;
      while i < |events| && p.thrown.None?
        invariant 0 <= i <= |events|
        invariant Feed(init, events[..i], onChunk) == p
        invariant chunks == old(chunks) + NonEmpty(p.enqueued)
      {
        var r := onChunk(p.state, events[i]);
        FeedStep(init, events, i, onChunk);
        EnqueueAll(r.enqueued);
        NonEmptyExtend(old(chunks), p.enqueued, r.enqueued);
        p := Progress(r.state, p.enqueued + r.enqueued, r.thrown);
        i := i + 1;
      }
      if i < |events| {
        FeedStopsAtThrow(init, events, i, onChunk);
      } else {
        assert events[..i] == events;
      }
    }

    /** After the loop: the iterator's failure, or `onComplete` after a clean end. */
    method Conclude<S>(p: Progress<S>, failure: Option<Thrown>, onComplete: Option<S -> Reaction<S>>)
      returns (q: Progress<S>)
      modifies this`chunks
      ensures q == Finish(p, failure, onComplete)
      ensures |p.enqueued| <= |q.enqueued| && q.enqueued[..|p.enqueued|] == p.enqueued
      ensures chunks == old(chunks) + NonEmpty(q.enqueued[|p.enqueued|..])
    {
      q := p;
      if p.thrown.None? && failure.Some? {
        q := Progress(p.state, p.enqueued, failure);
      } else if p.thrown.None? && onComplete.Some? {
        var r := onComplete.value(p.state);
        EnqueueAll(r.enqueued);
        q := Progress(r.state, p.enqueued + r.enqueued, r.thrown);
        assert q.enqueued[|p.enqueued|..] == r.enqueued;
      }
      if q == p {
        assert q.enqueued[|p.enqueued|..] == [];
      }
    }

    /** The `catch` block: one error marker when something threw. */
    method EnqueueMarker(thrown: Option<Thrown>, onErrorMessage: Option<Thrown -> string>)
      modifies this`chunks
      ensures chunks == old(chunks) + Marker(thrown, onErrorMessage)
    {
      if thrown.Some? {
        Enqueue(ErrorMarker(StreamErrorMessage(thrown.value, onErrorMessage)));
      }
    }

    /**
     * `start(controller)`: register the abort listener, pull every event into
     * `onChunk`, run `onComplete` after a clean end, turn a throw into the error
     * marker, then remove the listener and close the controller.
     */
    method Start<S, T>(
      init: S, events: seq<T>, failure: Option<Thrown>,
      onChunk: (S, T) -> Reaction<S>, onComplete: Option<S -> Reaction<S>>,
      onErrorMessage: Option<Thrown -> string>)
      returns (final: S)
      modifies this
      ensures chunks == old(chunks) + Relay(init, events, failure, onChunk, onComplete, onErrorMessage).output
      ensures final == Relay(init, events, failure, onChunk, onComplete, onErrorMessage).final
      ensures !listening && closeCalls == old(closeCalls) + 1 && cancelCalls == old(cancelCalls)
    {
      listening := true;
      ghost var c0 := chunks;
      var p := Pump(init, events, onChunk);
      var q := Conclude(p, failure, onComplete);
      EnqueueMarker(q.thrown, onErrorMessage);
      RelayPieces(c0, init, events, failure, onChunk, onComplete, onErrorMessage, p, q);
      listening := false;
      closeCalls := closeCalls + 1;
      final := q.state;
    }

    /**
     * The abort listener, registered only while `start` runs: run the `cancel`
     * hook (a throw from it is swallowed) and close the controller.
     */
    method Abort()
      requires listening
      modifies this
      ensures cancelCalls == old(cancelCalls) + 1 && closeCalls == old(closeCalls) + 1
      ensures chunks == old(chunks) && listening == old(listening)
    {
      cancelCalls := cancelCalls + 1;
      closeCalls := closeCalls + 1;
    }

    /** The stream's own `cancel()`: run the `cancel` hook, swallowing a throw. */
    method Cancel()
      modifies this
      ensures cancelCalls == old(cancelCalls) + 1
      ensures chunks == old(chunks) && closeCalls == old(closeCalls) && listening == old(listening)
    {
      cancelCalls := cancelCalls + 1;
    }
  }
}
