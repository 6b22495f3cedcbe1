/**
 * The paradigm adapters that turn a user handler into the router's one canonical
 * streaming service, for the three shapes that are pure value transformations:
 * async single-value, blocking single-value and async streaming, plus the
 * request- and response-streaming shapes that are registered through the streaming
 * adapter. Each adapter is stated on the handler's outcome; a failure becomes an
 * error response and never escapes.
 */
module Adapters {
  import opened Wrappers

  /** The status a gRPC response ends with. */
  datatype Status = StatusOk | StatusFailed(cause: Cause)

  /** What the client sees of one call: the response messages in order, then the final status. */
  datatype GrpcResponse<T> = GrpcResponse(messages: seq<T>, status: Status)

  /** The error response built from a failure: no message and a failed status carrying the cause. */
  function ErrorResponse<T>(cause: Cause): GrpcResponse<T> {
    GrpcResponse([], StatusFailed(cause))
  }

  /** A response stream as a publisher emits it: its items, then completion or an error. */
  datatype Stream<T> = Stream(items: seq<T>, error: Option<Cause>)

  /**
   * The async single-value adapter. `call` is how the synchronous part ends (building the
   * deserializer, calling the handler) and, when that returns, how the handler's deferred
   * single value ends. The response succeeds exactly when both succeed and then carries
   * exactly that value; otherwise it is the error response for the first failure.
   */
  function RouteResponse<T>(call: Outcome<Outcome<T>>): (r: GrpcResponse<T>)
    ensures r.status == StatusOk <==> call.Ok? && call.value.Ok?
    ensures r.status == StatusOk ==> r.messages == [call.value.value]
    ensures call.Throw? ==> r == ErrorResponse(call.cause)
    ensures call.Ok? && call.value.Throw? ==> r == ErrorResponse(call.value.cause)
  {
    match call
    case Throw(t) => ErrorResponse(t)
    case Ok(single) =>
      match single
      case Ok(v) => GrpcResponse([v], StatusOk)
      case Throw(cause) => ErrorResponse(cause)
  }

  /**
   * The blocking single-value adapter: a returned value becomes a one-message success, a
   * thrown failure the error response for it.
   */
  function BlockingResponse<T>(call: Outcome<T>): (r: GrpcResponse<T>)
    ensures r.status == StatusOk <==> call.Ok?
    ensures call.Ok? ==> r.messages == [call.value]
    ensures call.Throw? ==> r == ErrorResponse(call.cause)
  {
    match call
    case Ok(v) => GrpcResponse([v], StatusOk)
    case Throw(t) => ErrorResponse(t)
  }

  /**
   * The async streaming adapter: a synchronous failure becomes the error response; otherwise
   * the handler's stream is passed through, its items as the messages and its termination as
   * the status.
   */
  function StreamingResponse<T>(call: Outcome<Stream<T>>): (r: GrpcResponse<T>)
    ensures call.Throw? ==> r == ErrorResponse(call.cause)
    ensures call.Ok? ==> r.messages == call.value.items
    ensures call.Ok? ==> (r.status == StatusOk <==> call.value.error.None?)
    ensures call.Ok? && call.value.error.Some? ==> r.status == StatusFailed(call.value.error.value)
  {
    match call
    case Throw(t) => ErrorResponse(t)
    case Ok(s) =>
      GrpcResponse(s.items, if s.error.None? then StatusOk else StatusFailed(s.error.value))
  }

  /** A deferred single value seen as a stream: one item and completion, or just the error. */
  function ToPublisher<T>(single: Outcome<T>): Stream<T> {
    match single
    case Ok(v) => Stream([v], None)
    case Throw(cause) => Stream([], Some(cause))
  }

  /**
   * The streaming handler a request-streaming registration builds: call the user handler,
   * then turn its single value into a stream.
   */
  function RequestStreamingAsStreaming<T>(call: Outcome<Outcome<T>>): (r: Outcome<Stream<T>>)
    ensures r.Throw? <==> call.Throw?
    ensures call.Throw? ==> r.cause == call.cause
    ensures call.Ok? && call.value.Ok? ==> r.value == Stream([call.value.value], None)
    ensures call.Ok? && call.value.Throw? ==> r.value == Stream([], Some(call.value.cause))
  {
    match call
    case Throw(t) => Throw(t)
    case Ok(single) => Ok(ToPublisher(single))
  }

  /**
   * Registering a request-streaming handler through the streaming adapter answers every call
   * exactly as the async single-value adapter would.
   */
  lemma RequestStreamingTransparent<T>(call: Outcome<Outcome<T>>)
    ensures StreamingResponse(RequestStreamingAsStreaming(call)) == RouteResponse(call)
  {
  }

  /**
   * Why a request stream that emits no element has no first element: it failed, with its own
   * cause, or it completed empty, which is a missing-element failure.
   */
  function NoFirstCause<R>(requests: Stream<R>): (c: Cause)
    ensures requests.error.Some? ==> c == requests.error.value
    ensures requests.error.None? ==> c == NoSuchElement
  {
    match requests.error
    case Some(e) => e
    case None => NoSuchElement
  }

  /**
   * The only element of a request stream that a response-streaming handler reads: the first.
   * A stream that ends before emitting one gives its failure, or the missing-element failure
   * when it completed empty.
   */
  function FirstOrError<R>(requests: Stream<R>): (r: Outcome<R>)
    ensures r.Ok? <==> requests.items != []
    ensures r.Ok? ==> r.value == requests.items[0]
    ensures requests.items == [] && requests.error.Some? ==> r == Throw(requests.error.value)
    ensures requests.items == [] && requests.error.None? ==> r == Throw(NoSuchElement)
  {
    if requests.items == [] then Throw(NoFirstCause(requests)) else Ok(requests.items[0])
  }

  /**
   * The streaming handler a response-streaming registration builds: take the first request,
   * then hand it to the user handler. Every failure, including a synchronous one of the user
   * handler, ends the stream with an error.
   */
  function ResponseStreamingAsStreaming<R, T>(requests: Stream<R>, handle: R -> Outcome<Stream<T>>): (r: Outcome<Stream<T>>)
    ensures r.Ok?
    ensures requests.items == [] ==> r.value == Stream([], Some(NoFirstCause(requests)))
    ensures requests.items != [] && handle(requests.items[0]).Throw? ==>
      r.value == Stream([], Some(handle(requests.items[0]).cause))
    ensures requests.items != [] && handle(requests.items[0]).Ok? ==> r.value == handle(requests.items[0]).value
  {
    match FirstOrError(requests)
    case Throw(cause) => Ok(Stream([], Some(cause)))
    case Ok(first) =>
      match handle(first)
      case Throw(cause) => Ok(Stream([], Some(cause)))
      case Ok(s) => Ok(s)
  }

  /**
   * A response-streaming registration answers as its handler does on the first request
   * alone; the requests after the first are never looked at, and a request stream that ends
   * before its first element gets the error response for its failure (for a stream that
   * completed empty, the missing element).
   * gets the error response for the missing element.
   */
  lemma ResponseStreamingUsesFirstRequest<R, T>(requests: Stream<R>, handle: R -> Outcome<Stream<T>>)
    ensures requests.items != [] ==>
      StreamingResponse(ResponseStreamingAsStreaming(requests, handle)) == StreamingResponse(handle(requests.items[0]))
    ensures requests.items == [] && requests.error.Some? ==>
      StreamingResponse(ResponseStreamingAsStreaming(requests, handle)) == ErrorResponse(requests.error.value)
    ensures requests.items == [] && requests.error.None? ==>
      StreamingResponse(ResponseStreamingAsStreaming(requests, handle)) == ErrorResponse(NoSuchElement)
  {
  }
}
