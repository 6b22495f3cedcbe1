# gRPC router model

A Dafny model of ServiceTalk's `GrpcRouter`: the component that lets a gRPC service author
register one handler per call path in any of the supported programming models, turns the
registrations into one dispatch table at bind time, and routes each inbound HTTP request to the
service bound at its path.

What is modelled:

- **Registration** (`Router.Builder`). The builder keeps four mutable path-to-route maps:
  routes, streaming routes, blocking routes and blocking-streaming routes. Each `add*Route`
  method is one `put` into one of them. The request- and response-streaming registrations
  delegate to the streaming registration with a wrapped handler. The blocking request- and
  response-streaming registrations delegate to the blocking-streaming registration in the same
  way. The value-level meaning of a registration is `RouteModel.Register`.
- **Drain and merge.** `DrainRoutes` flattens the four maps in the order routes, streaming,
  blocking, blocking-streaming, so a later bucket overwrites an earlier one at the same path. It
  then clears them and wraps the table in a `RouteProviders`, which appends every route to one
  composite closeable. `Merge` builds a new builder whose buckets are the left-to-right `putAll`
  of the inputs' buckets.
- **Bind and dispatch** (`Router.GrpcRouter`). The router holds the builder's own four maps, not
  copies of them. `Bind` populates one table from them in flattening order, offloading each route
  with its execution strategy. A request is served by the matched service when it is a POST to a
  bound path. Every other request gets the fixed not-found response.
- **Execution strategy** (`RouteModel.InvocationStrategy`). A per-route strategy wins.
  Otherwise a streaming route runs with no offloads. Any other route runs with the strategy the
  HTTP service conversion proposes; those proposals are parameters of the model.
- **Adapters** (`Adapters`, `BlockingStreaming`). These state, per handler shape, what the
  client sees for a handler outcome.
  - The async single-value and blocking single-value adapters turn a failure into the error
    response.
  - The async streaming adapter turns a synchronous failure of the handler into the error
    response. A stream that fails after emitting items keeps those items, and the response
    ends with the stream's failure status.
  - The blocking-streaming adapter runs the handler against a payload writer that records every
    call. If the handler throws, the adapter sets the failure status on the trailers; if it
    returns, the adapter sets no trailer status. It then always closes the writer, exactly once.

Handler outcomes are values: `Outcome.Ok(v)` or `Outcome.Throw(cause)`. A handler run of the
blocking-streaming shape is the sequence of writer calls it makes, plus how it exits.

Three details of the code that the model keeps as written:

- `GrpcRouter.Builder.addBlockingStreamingRoute` puts into `blockingRoutes` (GrpcRouter.java
  line 331). No `add*Route` method puts into the field `blockingStreamingRoutes`, so that
  bucket stays empty under every sequence of registrations; `RouteModel.RegisterAllKeepsBlockingStreaming` proves
  this.
- The constant `STATUS_UNIMPLEMENTED` is built from the value of `GrpcStatusCode.OK` (line 82),
  so `Router.StatusUnimplemented` carries `OkCode`.
- A route without its own strategy falls back to `noOffloadsStrategy()` when it is a streaming
  route (line 240). Every other shape falls back to the strategy the conversion proposes
  (lines 206, 309 and 348).

## Model

| member | source | states |
|---|---|---|
| RouteModel.InvocationStrategy | servicetalk-grpc-api/src/main/java/io/servicetalk/grpc/api/GrpcRouter.java:238-241 | An explicit per-route strategy is always the one used. Without one, a streaming route uses no offloads. An async, blocking or blocking-streaming route uses the conversion's proposal for its adapter (the same rule is written at lines 206, 309 and 348). |
| RouteModel.BucketOf | servicetalk-grpc-api/src/main/java/io/servicetalk/grpc/api/GrpcRouter.java:327-331 | No handler shape is registered into the blocking-streaming bucket. Async routes go to `routes`, streaming ones to `streamingRoutes`, and both blocking shapes to `blockingRoutes`. Each direction is stated as an iff. |
| RouteModel.Register | servicetalk-grpc-api/src/main/java/io/servicetalk/grpc/api/GrpcRouter.java:186 | A registration is a put into its handler's bucket that overwrites that path. Every other bucket is unchanged. |
| RouteModel.RegisterAllKeepsBlockingStreaming | servicetalk-grpc-api/src/main/java/io/servicetalk/grpc/api/GrpcRouter.java:327-352 | Any sequence of registrations leaves the blocking-streaming bucket exactly as it was, so it is empty for a new builder. |
| RouteModel.RegisterPaths | servicetalk-grpc-api/src/main/java/io/servicetalk/grpc/api/GrpcRouter.java:186 | After one registration, a path is registered exactly when it was registered before or is the registered path. |
| RouteModel.RegisterAllPaths | servicetalk-grpc-api/src/main/java/io/servicetalk/grpc/api/GrpcRouter.java:182-210 | After a sequence of registrations, a path is registered exactly when it was registered before or some registration names it. |
| RouteModel.Flatten | servicetalk-grpc-api/src/main/java/io/servicetalk/grpc/api/GrpcRouter.java:156-160 | The flattened table's paths are exactly the union of the four buckets' paths. At each path it holds the entry of the last bucket, in the order routes, streaming, blocking, blocking-streaming, that has the path. |
| RouteModel.FlattenLatestBucketWins | servicetalk-grpc-api/src/main/java/io/servicetalk/grpc/api/GrpcRouter.java:156-160 | Stated per bucket kind: if no later bucket has the path, the flattened table at that path is this bucket's entry. |
| RouteModel.OverrideEntry | servicetalk-grpc-api/src/main/java/io/servicetalk/grpc/api/GrpcRouter.java:174-177 | Stated per bucket and per path for `Override`, which is one `putAll` per bucket. The merged bucket holds exactly the paths of both inputs. At a path of the later builder it holds the later builder's entry. At any other path it holds the earlier builder's entry. |
| RouteModel.MergeAllPaths | servicetalk-grpc-api/src/main/java/io/servicetalk/grpc/api/GrpcRouter.java:168-180 | A path is in a merged bucket exactly when some input builder has it in that bucket. |
| RouteModel.MergeAllLastWins | servicetalk-grpc-api/src/main/java/io/servicetalk/grpc/api/GrpcRouter.java:173-178 | When several builders register the same path in the same bucket, the merged bucket holds the entry of the last of them. |
| RouteModel.MergeAllPair | servicetalk-grpc-api/src/main/java/io/servicetalk/grpc/api/GrpcRouter.java:168-180 | Merging two builders is one override of the first by the second. |
| RouteModel.MergeDisjointSize | servicetalk-grpc-api/src/main/java/io/servicetalk/grpc/api/GrpcRouter.java:168-180 | For any number of builders whose buckets of one kind pairwise share no path, the merged bucket has as many entries as all of theirs together: nothing is lost. |
| RouteModel.MergedFrontDisjointFromLast | servicetalk-grpc-api/src/main/java/io/servicetalk/grpc/api/GrpcRouter.java:173-178 | When the builders' buckets pairwise share no path, the merge of all builders but the last shares no path with the last one. |
| Router.Builder.constructor | servicetalk-grpc-api/src/main/java/io/servicetalk/grpc/api/GrpcRouter.java:138-143 | A new builder has four new, distinct and empty maps. |
| Router.Builder.FromMaps | servicetalk-grpc-api/src/main/java/io/servicetalk/grpc/api/GrpcRouter.java:145-153 | The builder uses the given maps themselves, not copies. |
| Router.Builder.AddRoute | servicetalk-grpc-api/src/main/java/io/servicetalk/grpc/api/GrpcRouter.java:182-210 | Changes only the routes map. The new buckets are the old ones with the async provider registered at the path. |
| Router.Builder.AddStreamingRoute | servicetalk-grpc-api/src/main/java/io/servicetalk/grpc/api/GrpcRouter.java:212-246 | Changes only the streaming map. The new buckets are the old ones with the streaming provider registered at the path. |
| Router.Builder.AddRequestStreamingRoute | servicetalk-grpc-api/src/main/java/io/servicetalk/grpc/api/GrpcRouter.java:248-255 | Delegates to the streaming registration: the streaming map gets the wrapped request-streaming handler at the path. |
| Router.Builder.AddResponseStreamingRoute | servicetalk-grpc-api/src/main/java/io/servicetalk/grpc/api/GrpcRouter.java:269-276 | Delegates to the streaming registration: the streaming map gets the wrapped response-streaming handler at the path. |
| Router.Builder.AddBlockingRoute | servicetalk-grpc-api/src/main/java/io/servicetalk/grpc/api/GrpcRouter.java:290-313 | Changes only the blocking map. The new buckets are the old ones with the blocking provider registered at the path. |
| Router.Builder.AddBlockingStreamingRoute | servicetalk-grpc-api/src/main/java/io/servicetalk/grpc/api/GrpcRouter.java:327-352 | Changes only the blocking map, as `GrpcRouter.Builder.addBlockingStreamingRoute` does. The blocking-streaming map is left unchanged. |
| Router.Builder.AddBlockingRequestStreamingRoute | servicetalk-grpc-api/src/main/java/io/servicetalk/grpc/api/GrpcRouter.java:366-376 | Delegates to the blocking-streaming registration with the wrapped handler, and so lands in the blocking map. |
| Router.Builder.AddBlockingResponseStreamingRoute | servicetalk-grpc-api/src/main/java/io/servicetalk/grpc/api/GrpcRouter.java:390-397 | Delegates to the blocking-streaming registration with the wrapped handler, and so lands in the blocking map. |
| Router.Builder.DrainRoutes | servicetalk-grpc-api/src/main/java/io/servicetalk/grpc/api/GrpcRouter.java:155-166 | The drained table is the flattening of the buckets as they were. All four buckets are empty afterwards. The table's closeable holds one entry per route. |
| Router.Builder.Merge | servicetalk-grpc-api/src/main/java/io/servicetalk/grpc/api/GrpcRouter.java:168-180 | Returns a builder over new maps whose buckets are the left-to-right merge of the input builders' buckets. |
| Router.Builder.Build | servicetalk-grpc-api/src/main/java/io/servicetalk/grpc/api/GrpcRouter.java:404-406 | The router reads the builder's own four maps, so later registrations are visible to it. |
| Router.RouteProviders.constructor | servicetalk-grpc-api/src/main/java/io/servicetalk/grpc/api/GrpcRouter.java:441-447 | The composite closeable gets exactly one entry per route of the table, each the route's provider, in some iteration order without repetition. |
| Router.RouteProviders.ProviderFor | servicetalk-grpc-api/src/main/java/io/servicetalk/grpc/api/GrpcRouter.java:449-455 | Succeeds exactly for a registered path and then returns its provider. For any other path it throws IllegalArgumentException with the message "No routes registered for path: " followed by the path. |
| Router.RouteProviders.CloseCalls | servicetalk-grpc-api/src/main/java/io/servicetalk/grpc/api/GrpcRouter.java:457-465 | Closing, immediately or gracefully, sends one close in that mode to every route of the table, one per route. |
| Router.Offload | servicetalk-grpc-api/src/main/java/io/servicetalk/grpc/api/GrpcRouter.java:122-124 | The offloaded service keeps the route's provider and runs on the context's executor. An explicit per-route strategy is the one used. A streaming route without one runs with no offloads. |
| Router.OffloadAll | servicetalk-grpc-api/src/main/java/io/servicetalk/grpc/api/GrpcRouter.java:121-125 | Offloading a table keeps exactly its paths. |
| Router.GrpcRouter.constructor | servicetalk-grpc-api/src/main/java/io/servicetalk/grpc/api/GrpcRouter.java:90-98 | The router holds the four given maps themselves. |
| Router.GrpcRouter.PopulateRoutes | servicetalk-grpc-api/src/main/java/io/servicetalk/grpc/api/GrpcRouter.java:118-126 | The table afterwards is the old table overwritten by every route of the map, each offloaded with its own strategy. |
| Router.OffloadFlatten | servicetalk-grpc-api/src/main/java/io/servicetalk/grpc/api/GrpcRouter.java:101-105 | Offloading the four buckets one after another, in flattening order, gives the offloaded flattened table. |
| Router.GrpcRouter.Bind | servicetalk-grpc-api/src/main/java/io/servicetalk/grpc/api/GrpcRouter.java:100-105 | The bound table is exactly the flattened registration table with every route offloaded. |
| Router.NotFoundResponse | servicetalk-grpc-api/src/main/java/io/servicetalk/grpc/api/GrpcRouter.java:82-88 | HTTP 200 in the request's protocol version with no body. The gRPC status it carries has the code of OK. |
| Router.Select | servicetalk-grpc-api/src/main/java/io/servicetalk/grpc/api/GrpcRouter.java:108-115 | A request goes to the not-found service exactly when its method is not POST or its path is not bound. Otherwise it goes to the service bound at its path. |
| Router.Respond | servicetalk-grpc-api/src/main/java/io/servicetalk/grpc/api/GrpcRouter.java:108-115 | A non-POST request, or one to an unbound path, gets the not-found response. A POST to a bound path gets that service's response unchanged. |
| Router.BoundDispatch | servicetalk-grpc-api/src/main/java/io/servicetalk/grpc/api/GrpcRouter.java:100-115 | After binding, a POST to a path is served by the offloaded provider of the latest bucket that registers the path. Any other method gets the not-found response. |
| Router.UnregisteredPathNotFound | servicetalk-grpc-api/src/main/java/io/servicetalk/grpc/api/GrpcRouter.java:108-111 | A path that no bucket registers gets the not-found response, whatever the method. |
| Adapters.RouteResponse | servicetalk-grpc-api/src/main/java/io/servicetalk/grpc/api/GrpcRouter.java:186-206 | The response is OK exactly when the synchronous part and the deferred value both succeed, and then carries that value as its one message. Otherwise it is the error response for the failure. |
| Adapters.StreamingResponse | servicetalk-grpc-api/src/main/java/io/servicetalk/grpc/api/GrpcRouter.java:216-231 | A synchronous failure gives the error response. Otherwise the messages are the stream's items, and the status is OK exactly when the stream completes, or the stream's error otherwise. |
| Adapters.RequestStreamingAsStreaming | servicetalk-grpc-api/src/main/java/io/servicetalk/grpc/api/GrpcRouter.java:252-254 | The wrapped request-streaming handler throws exactly when the user handler throws, with the same cause. Otherwise its stream is the single value and completion, or, when the deferred value fails, no item and that failure. |
| Adapters.RequestStreamingTransparent | servicetalk-grpc-api/src/main/java/io/servicetalk/grpc/api/GrpcRouter.java:248-255 | A request-streaming route registered through the streaming adapter answers every call exactly as the async single-value adapter would. |
| Adapters.NoFirstCause | servicetalk-grpc-api/src/main/java/io/servicetalk/grpc/api/GrpcRouter.java:273 | A request stream that ends before its first element fails with its own failure. If it completed empty, it fails with the missing-element error. |
| Adapters.FirstOrError | servicetalk-grpc-api/src/main/java/io/servicetalk/grpc/api/GrpcRouter.java:273 | Succeeds exactly when the request stream emits an element, and then gives the first one. A stream that ends before its first element gives its own failure. If it completed empty, the result is the missing-element failure. |
| Adapters.ResponseStreamingAsStreaming | servicetalk-grpc-api/src/main/java/io/servicetalk/grpc/api/GrpcRouter.java:273-275 | The wrapped response-streaming handler never throws synchronously. A request stream that ends before its first element gives a response stream failing with that stream's failure, or with the missing-element error if it completed empty. A synchronous throw of the user handler on the first request becomes a stream failing with that cause (`flatMapPublisher`). Otherwise the result is the user handler's stream. |
| Adapters.ResponseStreamingUsesFirstRequest | servicetalk-grpc-api/src/main/java/io/servicetalk/grpc/api/GrpcRouter.java:269-276 | A response-streaming route answers as its handler does on the first request alone. A request stream that fails before its first element gets the error response for that failure. An empty completed one gets the missing-element error response. |
| Adapters.BlockingResponse | servicetalk-grpc-api/src/main/java/io/servicetalk/grpc/api/GrpcRouter.java:294-308 | The response is OK exactly when the handler returns, and then carries the returned value as its one message. A thrown failure gives the error response. |
| BlockingStreaming.PayloadWriter.Write | servicetalk-grpc-api/src/main/java/io/servicetalk/grpc/api/GrpcRouter.java:416-419 | The writer records one written message. |
| BlockingStreaming.PayloadWriter.Close | servicetalk-grpc-api/src/main/java/io/servicetalk/grpc/api/GrpcRouter.java:421-424 | The writer records one close. |
| BlockingStreaming.PayloadWriter.Flush | servicetalk-grpc-api/src/main/java/io/servicetalk/grpc/api/GrpcRouter.java:426-429 | The writer records one flush. |
| BlockingStreaming.PayloadWriter.SetTrailerStatus | servicetalk-grpc-api/src/main/java/io/servicetalk/grpc/api/GrpcRouter.java:343-344 | The writer records the failure status being set on the trailers. |
| BlockingStreaming.InvokeHandler | servicetalk-grpc-api/src/main/java/io/servicetalk/grpc/api/GrpcRouter.java:341 | The writer has received exactly the handler's calls, in order. The handler's exit is returned. |
| BlockingStreaming.AdapterEvents | servicetalk-grpc-api/src/main/java/io/servicetalk/grpc/api/GrpcRouter.java:340-347 | The adapter's events are the handler's calls, then the trailer status when the handler threw, then one close as the last event. |
| BlockingStreaming.ServeBlockingStreaming | servicetalk-grpc-api/src/main/java/io/servicetalk/grpc/api/GrpcRouter.java:340-347 | The writer receives the handler's calls. If the handler threw, it then receives the failure status. It then always receives one close. |
| BlockingStreaming.HandlerCallsSetNoStatus | servicetalk-grpc-api/src/main/java/io/servicetalk/grpc/api/GrpcRouter.java:409-434 | The writer handed to a handler has no way to set the trailer status, so the handler's calls alone set none. |
| BlockingStreaming.BlockingStreamingAdapterProtocol | servicetalk-grpc-api/src/main/java/io/servicetalk/grpc/api/GrpcRouter.java:340-347 | Whatever the handler does, the adapter adds exactly one close and it is the last event. If the handler threw, the failure status is set immediately before that close. Every message the handler wrote stays written. The trailers carry the failure status if the handler threw. If the handler returned, the adapter sets no trailer status at all. |
| BlockingStreaming.BlockingRequestStreamingRun | servicetalk-grpc-api/src/main/java/io/servicetalk/grpc/api/GrpcRouter.java:371-374 | The handler a blocking request-streaming registration builds writes exactly the one response the user handler returns, then returns. If the user handler throws, it writes nothing and throws the same failure. |
| BlockingStreaming.BlockingRequestStreamingTransparent | servicetalk-grpc-api/src/main/java/io/servicetalk/grpc/api/GrpcRouter.java:366-376 | A blocking request-streaming route writes the same messages as the blocking single-value adapter's answer, and the same failure status. Where that adapter answers OK, no trailer status is set. |
| BlockingStreaming.BlockingResponseStreamingRun | servicetalk-grpc-api/src/main/java/io/servicetalk/grpc/api/GrpcRouter.java:394-395 | The handler a blocking response-streaming registration builds is the user handler's run on the first request. If the request stream ends before its first element, the handler writes nothing. It then throws the stream's failure, or the missing-element failure if the stream completed empty. |
| BlockingStreaming.BlockingResponseStreamingUsesFirstRequest | servicetalk-grpc-api/src/main/java/io/servicetalk/grpc/api/GrpcRouter.java:390-397 | A blocking response-streaming route runs its handler on the first request alone. A request stream that fails before its first element gives no message and that failure's status. An empty completed one gives no message and the missing-element failure status. |

## Left out

- Asynchronous execution is not modelled. Deferred values and streams are their final outcomes; subscription, cancellation and back-pressure are not modelled.
- Offloading and threading are not modelled. A bound service records the provider, the selected strategy and the executor; what the strategy does with threads is not modelled.
- The strategies the HTTP service conversion proposes (`toStreamingHttpService`) come from code that is not part of this model. They are a parameter, `ConversionDefaults`.
- Serialization is not modelled: deserializer and serializer lookup, message encoding, buffer allocation and unchecked casts. A failure to build a deserializer inside an adapter's `try` block is one of the causes a handler outcome can carry.
- In the blocking-streaming adapter, the deserializer, serializer and `sendMetaData` calls happen before the `try` block. Their failures are not modelled.
- Status construction is not modelled: `newResponse`, `newErrorResponse`, `setStatus` and the mapping from a failure to a status code and message. A failed status carries the failure itself.
- The lazy route converters of `RouteProvider` (`asStreamingRoute`, `asRequestStreamingRoute`, `asResponseStreamingRoute`, `asRoute`) are not modelled. They are type casts of collaborator code.
- Closing a single route, and the completion and failure aggregation of the composite closeable, are not modelled. `Router.RouteProviders.CloseCalls` states only which close requests are sent.
- Binding the server is I/O delegated to the server binder, so it is not modelled. `Router.GrpcRouter.Bind` returns the dispatch table that the bound service consults.
- HashMap iteration order is not modelled. The order in which routes are appended to the closeable, or populated into the table, is a nondeterministic choice, and nothing proved depends on it.
- BlockingStreamingAdapterProtocol: when the handler returns, the adapter writes no trailer status. The model records that no status was set; the status the HTTP layer then sends is not modelled.
- BlockingRequestStreamingTransparent: equal to the blocking single-value answer only up to that unset status. Where the single-value adapter writes OK through `newResponse`, the blocking-streaming adapter sets none, and the status the HTTP layer then sends is not modelled.
- `Adapters.FirstOrError`: `firstOrError` and the blocking request iterator belong to collaborator code. The model assumes three things: they yield the first element; they pass on the failure of a stream that fails before its first element; and they give a missing-element failure for a stream that completed empty. It does not model `firstOrError` failing on a stream with more than one element.
- `requireNonNull` on the first blocking request is not modelled, because model values are never null.
- What happens when a handler keeps writing after closing the writer itself is not modelled. The writer records every call, and the closing behaviour of the underlying HTTP payload writer is not part of this model.
- `BaseSingleAddressHttpClientBuilder` is client-side configuration. It takes no part in routing, so it is not modelled.
