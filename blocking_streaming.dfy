/**
 * The blocking-streaming adapter: the user handler writes response messages through a
 * payload writer; if it throws, the failure status goes into the trailers; in every case
 * the adapter then closes the writer. The writer records every call it receives, so the
 * order of writes, the trailer status and the close are all visible.
 */
module BlockingStreaming {
  import opened Wrappers
  import opened Adapters

  /** What a handler can do with the payload writer it is given. */
  datatype WriterCall<T> = Write(message: T) | Flush | Close

  /** What the payload writer receives, from the handler or from the adapter. */
  datatype WriterEvent<T> = Wrote(message: T) | Flushed | TrailerStatusSet(cause: Cause) | Closed

  /** How a blocking handler leaves: it returns, or it throws. */
  datatype Exit = Returned | Threw(cause: Cause)

  /**
   * One run of a blocking-streaming handler: the writer calls it makes, in order, and how it
   * leaves. The handler's own computation is not modelled, only what it does to the writer.
   */
  datatype HandlerRun<T> = HandlerRun(calls: seq<WriterCall<T>>, exit: Exit)

  /** The response payload writer handed to a blocking-streaming handler. */
  class PayloadWriter<T> {
    /** Every call the writer has received, oldest first. */
    var events: seq<WriterEvent<T>>

    constructor ()
      ensures events == []
    {
      events := [];
    }

    /** Emits one response message. */
    method Write(message: T)
      modifies this
      ensures events == old(events) + [Wrote(message)]
    {
      events := events + [Wrote(message)];
    }

    /** Forces buffered messages out. */
    method Flush()
      modifies this
      ensures events == old(events) + [Flushed]
    {
      events := events + [Flushed];
    }

    /** Puts the status derived from `cause` into the response trailers. */
    method SetTrailerStatus(cause: Cause)
      modifies this
      ensures events == old(events) + [TrailerStatusSet(cause)]
    {
      events := events + [TrailerStatusSet(cause)];
    }

    /** Finishes the response stream. */
    method Close()
      modifies this
      ensures events == old(events) + [Closed]
    {
      events := events + [Closed];
    }
  }

  /** The event the writer records for a handler call. */
  function EventOf<T>(call: WriterCall<T>): WriterEvent<T> {
    match call
    case Write(m) => Wrote(m)
    case Flush => Flushed
    case Close => Closed
  }

  /** The events a sequence of handler calls leaves on the writer. */
  function Events<T>(calls: seq<WriterCall<T>>): (es: seq<WriterEvent<T>>)
    ensures |es| == |calls|
  {
    seq(|calls|, i requires 0 <= i < |calls| => EventOf(calls[i]))
  }

  /** The messages written, in order. */
  function Messages<T>(events: seq<WriterEvent<T>>): seq<T> {
    if events == [] then []
    else (if events[0].Wrote? then [events[0].message] else []) + Messages(events[1..])
  }

  /** How many times the writer was closed. */
  function CloseCount<T>(events: seq<WriterEvent<T>>): nat {
    if events == [] then 0
    else (if events[0].Closed? then 1 else 0) + CloseCount(events[1..])
  }

  /** The status explicitly put into the trailers: the one set last, or `None` when none was set. */
  function TrailerStatus<T>(events: seq<WriterEvent<T>>): Option<Status>
    decreases |events|
  {
    if events == [] then None
    else if events[|events| - 1].TrailerStatusSet? then Some(StatusFailed(events[|events| - 1].cause))
    else TrailerStatus(events[..|events| - 1])
  }

  /**
   * What the writer was asked to send: every message written, in order, and the status set in
   * the trailers, `None` when nothing set one. Calls after a close are counted like any other;
   * what the underlying HTTP writer does with them is not part of this model.
   */
  datatype WrittenResponse<T> = WrittenResponse(messages: seq<T>, trailerStatus: Option<Status>)

  /** What the writer was asked to send, once it has been used as `events` records. */
  function ResponseOf<T>(events: seq<WriterEvent<T>>): WrittenResponse<T> {
    WrittenResponse(Messages(events), TrailerStatus(events))
  }

  /**
   * The events the blocking-streaming adapter leaves on the writer for one handler run: the
   * handler's own calls, then the failure status if it threw, then exactly one close.
   */
  function AdapterEvents<T>(run: HandlerRun<T>): (events: seq<WriterEvent<T>>)
    ensures |events| == |run.calls| + (if run.exit.Threw? then 2 else 1)
    ensures events[..|run.calls|] == Events(run.calls)
    ensures run.exit.Threw? ==> events[|run.calls|] == TrailerStatusSet(run.exit.cause)
    ensures events[|events| - 1] == Closed
  {
    Events(run.calls)
    + (if run.exit.Threw? then [TrailerStatusSet(run.exit.cause)] else [])
    + [Closed]
  }

  /** The user handler: it makes its writer calls in order, then returns or throws. */
  method InvokeHandler<T>(run: HandlerRun<T>, writer: PayloadWriter<T>) returns (exit: Exit)
    modifies writer
    ensures writer.events == old(writer.events) + Events(run.calls)
    ensures exit == run.exit
  {
    for i := 0 to |run.calls|
      invariant writer.events == old(writer.events) + Events(run.calls[..i])
    {
      assert Events(run.calls[..i + 1]) == Events(run.calls[..i]) + [EventOf(run.calls[i])];
      match run.calls[i]
      case Write(m) => writer.Write(m);
      case Flush => writer.Flush();
      case Close => writer.Close();
    }
    assert run.calls[..|run.calls|] == run.calls;
    exit := run.exit;
  }

  /**
   * The adapter body: call the handler; if it throws, set the failure status on the trailers;
   * finally close the writer.
   */
  method ServeBlockingStreaming<T>(run: HandlerRun<T>, writer: PayloadWriter<T>)
    modifies writer
    ensures writer.events == old(writer.events) + AdapterEvents(run)
  {
    var exit := InvokeHandler(run, writer);
    if exit.Threw? {
      writer.SetTrailerStatus(exit.cause);
    }
    writer.Close();
  }

  lemma {:induction false} MessagesAppend<T>(a: seq<WriterEvent<T>>, b: seq<WriterEvent<T>>)
    ensures Messages(a + b) == Messages(a) + Messages(b)
  {
    if a != [] {
      assert (a + b)[1..] == a[1..] + b;
      MessagesAppend(a[1..], b);
    } else {
      assert a + b == b;
    }
  }

  lemma {:induction false} CloseCountAppend<T>(a: seq<WriterEvent<T>>, b: seq<WriterEvent<T>>)
    ensures CloseCount(a + b) == CloseCount(a) + CloseCount(b)
  {
    if a != [] {
      assert (a + b)[1..] == a[1..] + b;
      CloseCountAppend(a[1..], b);
    } else {
      assert a + b == b;
    }
  }

  /** A handler has no access to the trailers: its calls alone set no status. */
  lemma {:induction false} HandlerCallsSetNoStatus<T>(calls: seq<WriterCall<T>>)
    ensures TrailerStatus(Events(calls)) == None
    decreases |calls|
  {
    if calls != [] {
      var front := calls[..|calls| - 1];
      assert Events(calls)[..|calls| - 1] == Events(front);
      HandlerCallsSetNoStatus(front);
    }
  }

  /**
   * Whatever the handler does, the adapter adds exactly one close and it comes last; if the
   * handler threw, the failure status is set on the trailers immediately before that close;
   * the messages the handler wrote stay written; the trailers carry the failure status when
   * the handler threw, and the adapter sets no status at all when it returned.
   */
  lemma BlockingStreamingAdapterProtocol<T>(run: HandlerRun<T>)
    ensures var events := AdapterEvents(run);
      && CloseCount(events) == CloseCount(Events(run.calls)) + 1
      && events[|events| - 1] == Closed
      && (run.exit.Threw? ==> events[|events| - 2] == TrailerStatusSet(run.exit.cause))
      && ResponseOf(events) == WrittenResponse(
           Messages(Events(run.calls)),
           if run.exit.Threw? then Some(StatusFailed(run.exit.cause)) else None)
  {
    var handlerEvents := Events(run.calls);
    var status: seq<WriterEvent<T>> := if run.exit.Threw? then [TrailerStatusSet(run.exit.cause)] else [];
    var events := AdapterEvents(run);
    assert events == handlerEvents + (status + [Closed]);
    var tail := status + [Closed];
    assert CloseCount(tail) == 1 && Messages(tail) == [] by {
      var closed: seq<WriterEvent<T>> := [Closed];
      assert closed[1..] == [];
      assert CloseCount(closed) == 1 && Messages(closed) == [];
      if run.exit.Threw? {
        assert tail[1..] == closed;
      } else {
        assert tail == closed;
      }
    }
    CloseCountAppend(handlerEvents, tail);
    MessagesAppend(handlerEvents, tail);
    assert Messages(events) == Messages(handlerEvents);
    assert events[..|events| - 1] == handlerEvents + status;
    assert TrailerStatus(events) == TrailerStatus(handlerEvents + status);
    HandlerCallsSetNoStatus(run.calls);
    if run.exit.Threw? {
      assert (handlerEvents + status)[..|handlerEvents + status| - 1] == handlerEvents;
    } else {
      assert handlerEvents + status == handlerEvents;
    }
  }

  /**
   * The handler a blocking request-streaming registration builds: call the user handler on
   * the request stream and write the one response it returns.
   */
  function BlockingRequestStreamingRun<T>(call: Outcome<T>): (run: HandlerRun<T>)
    ensures call.Ok? <==> run.exit == Returned
    ensures call.Ok? ==> run.calls == [Write(call.value)]
    ensures call.Throw? ==> run.calls == [] && run.exit == Threw(call.cause)
  {
    match call
    case Ok(v) => HandlerRun([Write(v)], Returned)
    case Throw(cause) => HandlerRun([], Threw(cause))
  }

  /**
   * A blocking request-streaming registration, served by the blocking-streaming adapter,
   * writes what the blocking single-value adapter answers: the same messages (the one value on
   * success, none on failure) and the same failure status; where that adapter answers OK, the
   * blocking-streaming adapter sets no trailer status.
   */
  lemma BlockingRequestStreamingTransparent<T>(call: Outcome<T>)
    ensures var written := ResponseOf(AdapterEvents(BlockingRequestStreamingRun(call)));
      && written.messages == BlockingResponse(call).messages
      && (written.trailerStatus == None <==> BlockingResponse(call).status == StatusOk)
      && (written.trailerStatus.Some? ==> written.trailerStatus.value == BlockingResponse(call).status)
  {
    BlockingStreamingAdapterProtocol(BlockingRequestStreamingRun(call));
    match call
    case Ok(v) =>
      assert Events([Write(v)]) == [Wrote(v)];
      assert Messages([Wrote(v)]) == [v] by {
        assert [Wrote(v)][1..] == [];
      }
    case Throw(cause) =>
      assert Events<T>([]) == [];
  }

  /**
   * The handler a blocking response-streaming registration builds: take the first request
   * from the request iterator and pass it, with the writer, to the user handler. When the
   * request stream ends before its first element the iterator throws: the stream's failure,
   * or the missing-element failure when it completed empty.
   */
  function BlockingResponseStreamingRun<R, T>(requests: Stream<R>, handle: R -> HandlerRun<T>): (run: HandlerRun<T>)
    ensures requests.items != [] ==> run == handle(requests.items[0])
    ensures requests.items == [] ==> run == HandlerRun([], Threw(NoFirstCause(requests)))
  {
    match FirstOrError(requests)
    case Throw(cause) => HandlerRun([], Threw(cause))
    case Ok(first) => handle(first)
  }

  /**
   * A blocking response-streaming registration runs its handler on the first request alone;
   * when the request stream ends before its first element the client gets no message and the
   * stream's own failure status, or the missing-element failure status when it completed empty.
   */
  lemma BlockingResponseStreamingUsesFirstRequest<R, T>(requests: Stream<R>, handle: R -> HandlerRun<T>)
    ensures requests.items != [] ==> BlockingResponseStreamingRun(requests, handle) == handle(requests.items[0])
    ensures requests.items == [] && requests.error.Some? ==>
      ResponseOf(AdapterEvents(BlockingResponseStreamingRun(requests, handle))) == WrittenResponse([], Some(StatusFailed(requests.error.value)))
    ensures requests.items == [] && requests.error.None? ==>
      ResponseOf(AdapterEvents(BlockingResponseStreamingRun(requests, handle))) == WrittenResponse([], Some(StatusFailed(NoSuchElement)))
  {
    if requests.items == [] {
      BlockingStreamingAdapterProtocol(BlockingResponseStreamingRun(requests, handle));
      assert Events<T>([]) == [];
    }
  }
}
