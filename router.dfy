/**
 * The gRPC router itself: the builder with its four mutable registration buckets, the
 * drained route table with its composite closeable, and the router built from the
 * builder, which flattens the buckets into a dispatch table at bind time and routes each
 * request by method and path.
 */
module Router {
  import opened Wrappers
  import opened RouteModel

  /** A mutable `path -> RouteProvider` hash map, shared by reference like a Java map. */
  class ProviderMap {
    var entries: map<Path, RouteProvider>

    constructor ()
      ensures entries == map[]
    {
      entries := map[];
    }

    /** A new map holding a copy of `entries`. */
    constructor Of(entries: map<Path, RouteProvider>)
      ensures this.entries == entries
    {
      this.entries := entries;
    }

    /** `put`: the path now maps to the provider, overwriting any earlier entry. */
    method Put(path: Path, provider: RouteProvider)
      modifies this
      ensures entries == old(entries)[path := provider]
    {
      entries := entries[path := provider];
    }

    /** `clear`. */
    method Clear()
      modifies this
      ensures entries == map[]
    {
      entries := map[];
    }
  }

  /** The contents of four maps, taken as the four buckets in flattening order. */
  function BucketsOf(routes: ProviderMap, streamingRoutes: ProviderMap,
                     blockingRoutes: ProviderMap, blockingStreamingRoutes: ProviderMap): Buckets
    reads routes, streamingRoutes, blockingRoutes, blockingStreamingRoutes
  {
    Buckets(routes.entries, streamingRoutes.entries, blockingRoutes.entries, blockingStreamingRoutes.entries)
  }

  /** The builder: four registration buckets, filled by the `add*Route` methods. */
  class Builder {
    const routes: ProviderMap
    const streamingRoutes: ProviderMap
    const blockingRoutes: ProviderMap
    const blockingStreamingRoutes: ProviderMap

    /** The four buckets are four different maps. */
    ghost predicate Valid() {
      && routes != streamingRoutes && routes != blockingRoutes && routes != blockingStreamingRoutes
      && streamingRoutes != blockingRoutes && streamingRoutes != blockingStreamingRoutes
      && blockingRoutes != blockingStreamingRoutes
    }

    /** The objects whose state is this builder's state. */
    function Repr(): set<object> {
      {routes, streamingRoutes, blockingRoutes, blockingStreamingRoutes}
    }

    /** The contents of the four buckets. */
    function Snapshot(): Buckets
      reads Repr()
    {
      BucketsOf(routes, streamingRoutes, blockingRoutes, blockingStreamingRoutes)
    }

    /** A builder with four new, empty buckets. */
    constructor ()
      ensures Valid() && fresh(Repr())
      ensures Snapshot() == EmptyBuckets
    {
      routes := new ProviderMap();
      streamingRoutes := new ProviderMap();
      blockingRoutes := new ProviderMap();
      blockingStreamingRoutes := new ProviderMap();
    }

    /** A builder over the given maps, which it uses (and later changes) in place. */
    constructor FromMaps(routes: ProviderMap, streamingRoutes: ProviderMap,
                         blockingRoutes: ProviderMap, blockingStreamingRoutes: ProviderMap)
      ensures this.routes == routes && this.streamingRoutes == streamingRoutes
      ensures this.blockingRoutes == blockingRoutes && this.blockingStreamingRoutes == blockingStreamingRoutes
    {
      this.routes := routes;
      this.streamingRoutes := streamingRoutes;
      this.blockingRoutes := blockingRoutes;
      this.blockingStreamingRoutes := blockingStreamingRoutes;
    }

    /** Registers an async single-value route: one put into `routes`, nothing else changes. */
    method AddRoute(path: Path, executionStrategy: Option<Strategy>, route: nat)
      requires Valid()
      modifies routes
      ensures Snapshot() == Register(old(Snapshot()), path, RouteProvider(AsyncRoute(route), executionStrategy))
    {
      routes.Put(path, RouteProvider(AsyncRoute(route), executionStrategy));
    }

    /** Registers an async streaming route: one put into `streamingRoutes`, nothing else changes. */
    method AddStreamingRoute(path: Path, executionStrategy: Option<Strategy>, route: StreamingHandler)
      requires Valid()
      modifies streamingRoutes
      ensures Snapshot() == Register(old(Snapshot()), path, RouteProvider(Streaming(route), executionStrategy))
    {
      streamingRoutes.Put(path, RouteProvider(Streaming(route), executionStrategy));
    }

    /** Registers a request-streaming route as the streaming route that wraps it. */
    method AddRequestStreamingRoute(path: Path, executionStrategy: Option<Strategy>, route: nat)
      requires Valid()
      modifies streamingRoutes
      ensures Snapshot() == Register(old(Snapshot()), path, RouteProvider(Streaming(RequestStreamingRoute(route)), executionStrategy))
    {
      AddStreamingRoute(path, executionStrategy, RequestStreamingRoute(route));
    }

    /** Registers a response-streaming route as the streaming route that wraps it. */
    method AddResponseStreamingRoute(path: Path, executionStrategy: Option<Strategy>, route: nat)
      requires Valid()
      modifies streamingRoutes
      ensures Snapshot() == Register(old(Snapshot()), path, RouteProvider(Streaming(ResponseStreamingRoute(route)), executionStrategy))
    {
      AddStreamingRoute(path, executionStrategy, ResponseStreamingRoute(route));
    }

    /** Registers a blocking single-value route: one put into `blockingRoutes`, nothing else changes. */
    method AddBlockingRoute(path: Path, executionStrategy: Option<Strategy>, route: nat)
      requires Valid()
      modifies blockingRoutes
      ensures Snapshot() == Register(old(Snapshot()), path, RouteProvider(BlockingRoute(route), executionStrategy))
    {
      blockingRoutes.Put(path, RouteProvider(BlockingRoute(route), executionStrategy));
    }

    /**
     * Registers a blocking-streaming route. The put goes into `blockingRoutes`, as
     * `GrpcRouter.Builder.addBlockingStreamingRoute` does; `blockingStreamingRoutes` is left
     * unchanged.
     */
    method AddBlockingStreamingRoute(path: Path, executionStrategy: Option<Strategy>, route: BlockingStreamingHandler)
      requires Valid()
      modifies blockingRoutes
      ensures Snapshot() == Register(old(Snapshot()), path, RouteProvider(BlockingStreaming(route), executionStrategy))
    {
      blockingRoutes.Put(path, RouteProvider(BlockingStreaming(route), executionStrategy));
    }

    /** Registers a blocking request-streaming route as the blocking-streaming route that wraps it. */
    method AddBlockingRequestStreamingRoute(path: Path, executionStrategy: Option<Strategy>, route: nat)
      requires Valid()
      modifies blockingRoutes
      ensures Snapshot() == Register(old(Snapshot()), path, RouteProvider(BlockingStreaming(BlockingRequestStreamingRoute(route)), executionStrategy))
    {
      AddBlockingStreamingRoute(path, executionStrategy, BlockingRequestStreamingRoute(route));
    }

    /** Registers a blocking response-streaming route as the blocking-streaming route that wraps it. */
    method AddBlockingResponseStreamingRoute(path: Path, executionStrategy: Option<Strategy>, route: nat)
      requires Valid()
      modifies blockingRoutes
      ensures Snapshot() == Register(old(Snapshot()), path, RouteProvider(BlockingStreaming(BlockingResponseStreamingRoute(route)), executionStrategy))
    {
      AddBlockingStreamingRoute(path, executionStrategy, BlockingResponseStreamingRoute(route));
    }

    /**
     * Moves every registration into a new route table: the four buckets flattened in order,
     * then cleared, so that draining again yields an empty table.
     */
    method DrainRoutes() returns (providers: RouteProviders)
      requires Valid()
      modifies Repr()
      ensures fresh(providers) && providers.Valid()
      ensures providers.routes == Flatten(old(Snapshot()))
      ensures Snapshot() == EmptyBuckets
    {
      var allRoutes := routes.entries + streamingRoutes.entries + blockingRoutes.entries + blockingStreamingRoutes.entries;
      assert allRoutes == Flatten(Snapshot());
      routes.Clear();
      streamingRoutes.Clear();
      blockingRoutes.Clear();
      blockingStreamingRoutes.Clear();
      assert Snapshot() == EmptyBuckets;
      providers := new RouteProviders(allRoutes);
    }

    /**
     * A new builder whose every bucket is the left-to-right `putAll` of that bucket over the
     * given builders, which are not changed.
     */
    static method Merge(builders: seq<Builder>) returns (merged: Builder)
      ensures merged.Valid() && fresh(merged.Repr())
      ensures merged.Snapshot() == MergeAll(old(Snapshots(builders)))
    {
      ghost var snapshots := Snapshots(builders);
      var routes: map<Path, RouteProvider> := map[];
      var streamingRoutes: map<Path, RouteProvider> := map[];
      var blockingRoutes: map<Path, RouteProvider> := map[];
      var blockingStreamingRoutes: map<Path, RouteProvider> := map[];
      for i := 0 to |builders|
        invariant Buckets(routes, streamingRoutes, blockingRoutes, blockingStreamingRoutes) == MergeAll(snapshots[..i])
      {
        var builder := builders[i];
        routes := routes + builder.routes.entries;
        streamingRoutes := streamingRoutes + builder.streamingRoutes.entries;
        blockingRoutes := blockingRoutes + builder.blockingRoutes.entries;
        blockingStreamingRoutes := blockingStreamingRoutes + builder.blockingStreamingRoutes.entries;
        MergeAllPrefix(snapshots, i);
      }
      assert snapshots[..|builders|] == snapshots;
      var routesMap := new ProviderMap.Of(routes);
      var streamingRoutesMap := new ProviderMap.Of(streamingRoutes);
      var blockingRoutesMap := new ProviderMap.Of(blockingRoutes);
      var blockingStreamingRoutesMap := new ProviderMap.Of(blockingStreamingRoutes);
      merged := new Builder.FromMaps(routesMap, streamingRoutesMap, blockingRoutesMap, blockingStreamingRoutesMap);
    }

    /** The router over this builder's own four maps (not copies of them). */
    method Build() returns (router: GrpcRouter)
      ensures fresh(router)
      ensures router.routes == routes && router.streamingRoutes == streamingRoutes
      ensures router.blockingRoutes == blockingRoutes && router.blockingStreamingRoutes == blockingStreamingRoutes
    {
      router := new GrpcRouter(routes, streamingRoutes, blockingRoutes, blockingStreamingRoutes);
    }
  }

  /** The bucket contents of each builder, in order. */
  ghost function Snapshots(builders: seq<Builder>): (s: seq<Buckets>)
    reads set b, o | b in builders && o in b.Repr() :: o
    ensures |s| == |builders|
    ensures forall i :: 0 <= i < |builders| ==> s[i] == builders[i].Snapshot()
    decreases |builders|
  {
    if builders == [] then []
    else Snapshots(builders[..|builders| - 1]) + [builders[|builders| - 1].Snapshot()]
  }

  /** An aggregate of closeables, closed together. */
  class CompositeCloseable {
    var members: seq<RouteProvider>

    constructor ()
      ensures members == []
    {
      members := [];
    }

    method Append(provider: RouteProvider)
      modifies this
      ensures members == old(members) + [provider]
    {
      members := members + [provider];
    }
  }

  /** How a route table is closed: at once, or after in-flight work has finished. */
  datatype CloseMode = Immediate | Graceful

  /** One close request sent to a route. */
  datatype CloseCall = CloseCall(provider: RouteProvider, mode: CloseMode)

  /** The drained, read-only route table and the closeable that owns every route in it. */
  class RouteProviders {
    const routes: map<Path, RouteProvider>
    const closeable: CompositeCloseable
    /** The order in which the routes were appended to the closeable. */
    ghost const order: seq<Path>

    /** The closeable holds exactly one entry per path of the table. */
    ghost predicate Valid()
      reads closeable
    {
      && |order| == |closeable.members|
      && (forall p :: p in routes <==> p in order)
      && (forall i, j :: 0 <= i < j < |order| ==> order[i] != order[j])
      && (forall i :: 0 <= i < |order| ==> order[i] in routes && closeable.members[i] == routes[order[i]])
    }

    constructor (routes: map<Path, RouteProvider>)
      ensures this.routes == routes
      ensures Valid() && fresh(closeable)
      ensures |closeable.members| == |routes|
    {
      var composite := new CompositeCloseable();
      var remaining := routes.Keys;
      ghost var appended: seq<Path> := [];
      while remaining != {}
        invariant remaining <= routes.Keys
        invariant |appended| == |composite.members|
        invariant |appended| + |remaining| == |routes.Keys|
        invariant forall p :: p in routes <==> p in appended || p in remaining
        invariant forall p :: p in appended ==> p !in remaining
        invariant forall i, j :: 0 <= i < j < |appended| ==> appended[i] != appended[j]
        invariant forall i :: 0 <= i < |appended| ==> appended[i] in routes && composite.members[i] == routes[appended[i]]
        decreases |remaining|
      {
        var path :| path in remaining;
        composite.Append(routes[path]);
        appended := appended + [path];
        remaining := remaining - {path};
      }
      this.routes := routes;
      closeable := composite;
      order := appended;
    }

    /** The provider registered at `path`; an unknown path is a caller error. */
    function ProviderFor(path: Path): (r: Outcome<RouteProvider>)
      ensures path in routes <==> r.Ok?
      ensures r.Ok? ==> r.value == routes[path]
      ensures r.Throw? ==> r.cause == IllegalArgument("No routes registered for path: " + path)
    {
      if path in routes then Ok(routes[path])
      else Throw(IllegalArgument("No routes registered for path: " + path))
    }

    /** Closing the table closes every route it holds, each exactly once, in the same mode. */
    function CloseCalls(mode: CloseMode): (calls: seq<CloseCall>)
      requires Valid()
      reads closeable
      ensures |calls| == |order| == |routes|
      ensures forall i :: 0 <= i < |calls| ==> calls[i] == CloseCall(routes[order[i]], mode)
    {
      RouteCountIsOrderLength();
      seq(|closeable.members|, i requires 0 <= i < |closeable.members| reads closeable => CloseCall(closeable.members[i], mode))
    }

    lemma RouteCountIsOrderLength()
      requires Valid()
      ensures |routes| == |order|
    {
      DistinctLength(order, routes.Keys);
    }
  }

  /** A sequence without repetitions whose elements are exactly a set is as long as the set. */
  lemma {:induction false} DistinctLength(s: seq<Path>, keys: set<Path>)
    requires forall i, j :: 0 <= i < j < |s| ==> s[i] != s[j]
    requires forall p :: p in keys <==> p in s
    ensures |keys| == |s|
    decreases |s|
  {
    if s != [] {
      var last := s[|s| - 1];
      var front := s[..|s| - 1];
      assert forall p :: p in keys - {last} <==> p in front by {
        forall p
          ensures p in keys - {last} <==> p in front
        {
          if p in front {
            var k :| 0 <= k < |front| && front[k] == p;
            assert s[k] == p;
          }
          if p in s && p != last {
            var k :| 0 <= k < |s| && s[k] == p;
            assert k < |s| - 1;
            assert front[k] == p;
          }
        }
      }
      DistinctLength(front, keys - {last});
    }
  }

  /** Identifies the executor of an execution context. */
  datatype ExecutionContext = ExecutionContext(executor: nat)

  /** A route's canonical service after offloading: its provider and the strategy and executor it runs with. */
  datatype Service = OffloadedService(provider: RouteProvider, strategy: Strategy, executor: nat)

  /** Building a provider's adapter for one context and offloading it by the selected strategy. */
  function Offload(ctx: ExecutionContext, defaults: ConversionDefaults, p: RouteProvider): (s: Service)
    ensures s.provider == p && s.executor == ctx.executor
    ensures p.strategy.Some? ==> s.strategy == p.strategy.value
    ensures p.strategy.None? && p.handler.Streaming? ==> s.strategy == NoOffloads
  {
    OffloadedService(p, InvocationStrategy(p, defaults), ctx.executor)
  }

  /** Every route of a table, offloaded. */
  function OffloadAll(ctx: ExecutionContext, defaults: ConversionDefaults, m: map<Path, RouteProvider>): (t: map<Path, Service>)
    ensures t.Keys == m.Keys
  {
    map p | p in m :: Offload(ctx, defaults, m[p])
  }

  /** The router: read-only views of the builder's four maps. */
  class GrpcRouter {
    const routes: ProviderMap
    const streamingRoutes: ProviderMap
    const blockingRoutes: ProviderMap
    const blockingStreamingRoutes: ProviderMap

    constructor (routes: ProviderMap, streamingRoutes: ProviderMap,
                 blockingRoutes: ProviderMap, blockingStreamingRoutes: ProviderMap)
      ensures this.routes == routes && this.streamingRoutes == streamingRoutes
      ensures this.blockingRoutes == blockingRoutes && this.blockingStreamingRoutes == blockingStreamingRoutes
    {
      this.routes := routes;
      this.streamingRoutes := streamingRoutes;
      this.blockingRoutes := blockingRoutes;
      this.blockingStreamingRoutes := blockingStreamingRoutes;
    }

    /** The contents of the four maps the router reads. */
    function Snapshot(): Buckets
      reads routes, streamingRoutes, blockingRoutes, blockingStreamingRoutes
    {
      BucketsOf(routes, streamingRoutes, blockingRoutes, blockingStreamingRoutes)
    }

    /**
     * Puts every route of `routes`, offloaded, into the table being built, overwriting
     * entries already there at the same path.
     */
    static method PopulateRoutes(ctx: ExecutionContext, defaults: ConversionDefaults,
                                 allRoutes: map<Path, Service>, routes: map<Path, RouteProvider>)
      returns (filled: map<Path, Service>)
      ensures filled == allRoutes + OffloadAll(ctx, defaults, routes)
    {
      filled := allRoutes;
      var remaining := routes.Keys;
      assert routes - remaining == map[];
      while remaining != {}
        invariant remaining <= routes.Keys
        invariant filled == allRoutes + OffloadAll(ctx, defaults, routes - remaining)
        decreases remaining
      {
        var path :| path in remaining;
        OffloadAllStep(ctx, defaults, routes, remaining, path);
        filled := filled[path := Offload(ctx, defaults, routes[path])];
        remaining := remaining - {path};
      }
      assert routes - remaining == routes;
    }

    /**
     * The dispatch table built at bind time: the four maps populated in order routes,
     * streaming, blocking, blocking-streaming, so that it is the flattened registration
     * table with every route offloaded.
     */
    method Bind(ctx: ExecutionContext, defaults: ConversionDefaults) returns (table: map<Path, Service>)
      ensures table == OffloadAll(ctx, defaults, Flatten(Snapshot()))
    {
      var allRoutes: map<Path, Service> := map[];
      allRoutes := PopulateRoutes(ctx, defaults, allRoutes, routes.entries);
      allRoutes := PopulateRoutes(ctx, defaults, allRoutes, streamingRoutes.entries);
      allRoutes := PopulateRoutes(ctx, defaults, allRoutes, blockingRoutes.entries);
      allRoutes := PopulateRoutes(ctx, defaults, allRoutes, blockingStreamingRoutes.entries);
      table := allRoutes;
      OffloadFlatten(ctx, defaults, Snapshot());
    }
  }

  /** Offloading one more route extends the offloaded table by that route. */
  lemma OffloadAllStep(ctx: ExecutionContext, defaults: ConversionDefaults, routes: map<Path, RouteProvider>,
                       remaining: set<Path>, path: Path)
    requires path in remaining && remaining <= routes.Keys
    ensures OffloadAll(ctx, defaults, routes - (remaining - {path}))
         == OffloadAll(ctx, defaults, routes - remaining)[path := Offload(ctx, defaults, routes[path])]
  {
    assert routes - (remaining - {path}) == (routes - remaining)[path := routes[path]];
  }

  /** Offloading distributes over the overriding union of two tables. */
  lemma OffloadAllUnion(ctx: ExecutionContext, defaults: ConversionDefaults, m1: map<Path, RouteProvider>, m2: map<Path, RouteProvider>)
    ensures OffloadAll(ctx, defaults, m1) + OffloadAll(ctx, defaults, m2) == OffloadAll(ctx, defaults, m1 + m2)
  {
  }

  /** Offloading bucket by bucket, in flattening order, offloads the flattened table. */
  lemma OffloadFlatten(ctx: ExecutionContext, defaults: ConversionDefaults, b: Buckets)
    ensures map[] + OffloadAll(ctx, defaults, b.routes) + OffloadAll(ctx, defaults, b.streamingRoutes)
          + OffloadAll(ctx, defaults, b.blockingRoutes) + OffloadAll(ctx, defaults, b.blockingStreamingRoutes)
         == OffloadAll(ctx, defaults, Flatten(b))
  {
    assert map[] + OffloadAll(ctx, defaults, b.routes) == OffloadAll(ctx, defaults, b.routes);
    OffloadAllUnion(ctx, defaults, b.routes, b.streamingRoutes);
    OffloadAllUnion(ctx, defaults, b.routes + b.streamingRoutes, b.blockingRoutes);
    OffloadAllUnion(ctx, defaults, b.routes + b.streamingRoutes + b.blockingRoutes, b.blockingStreamingRoutes);
  }

  /** HTTP request methods. */
  datatype HttpMethod = GET | HEAD | POST | PUT | DELETE | CONNECT | OPTIONS | TRACE | PATCH

  datatype HttpVersion = HttpVersion(major: nat, minor: nat)

  /** The parts of an inbound request that routing looks at. */
  datatype Request = Request(httpMethod: HttpMethod, path: Path, version: HttpVersion)

  /** A gRPC status as carried in the response trailers. */
  datatype GrpcStatus = GrpcStatus(code: nat)

  /** The numeric value of gRPC status code OK. */
  const OkCode: nat := 0

  /**
   * The status the not-found service answers with. Despite its name it is built from the
   * value of status code OK.
   */
  const StatusUnimplemented := GrpcStatus(OkCode)

  /** An HTTP response: status code, protocol version, gRPC status trailer and body bytes. */
  datatype HttpResponse = HttpResponse(statusCode: nat, version: HttpVersion, grpcStatus: Option<GrpcStatus>, body: seq<bv8>)

  /**
   * The fixed not-found service: HTTP 200 in the request's version, no body, and the
   * not-found gRPC status (whose code is OK) in the trailers.
   */
  function NotFoundResponse(request: Request): (r: HttpResponse)
    ensures r.statusCode == 200 && r.version == request.version && r.body == []
    ensures r.grpcStatus == Some(StatusUnimplemented) && r.grpcStatus.value.code == OkCode
  {
    HttpResponse(200, request.version, Some(StatusUnimplemented), [])
  }

  /** Which service handles a request. */
  datatype Target = NotFound | Matched(service: Service)

  /**
   * The dispatch decision: a request goes to the not-found service exactly when its method
   * is not POST or no route is bound at its path; otherwise to the service bound there.
   */
  function Select(table: map<Path, Service>, request: Request): (t: Target)
    ensures t == NotFound <==> request.httpMethod != POST || request.path !in table
    ensures t.Matched? ==> request.path in table && t.service == table[request.path]
  {
    if request.httpMethod != POST || request.path !in table then NotFound else Matched(table[request.path])
  }

  /**
   * The bound service's request handler: the not-found response, or the matched service's
   * response returned unchanged. `serve` stands for invoking a route's service.
   */
  function Respond(table: map<Path, Service>, request: Request, serve: (Service, Request) -> HttpResponse): (r: HttpResponse)
    ensures request.httpMethod != POST || request.path !in table ==> r == NotFoundResponse(request)
    ensures request.httpMethod == POST && request.path in table ==> r == serve(table[request.path], request)
  {
    match Select(table, request)
    case NotFound => NotFoundResponse(request)
    case Matched(service) => serve(service, request)
  }

  /**
   * End to end, registration to dispatch: after the buckets are bound, a POST to a path is
   * served by the provider of the latest bucket that registers it, offloaded; every other
   * request gets the not-found response.
   */
  lemma BoundDispatch(b: Buckets, ctx: ExecutionContext, defaults: ConversionDefaults, request: Request,
                      serve: (Service, Request) -> HttpResponse, kind: BucketKind)
    requires request.path in b.Get(kind)
    requires forall later: BucketKind :: Rank(later) > Rank(kind) ==> request.path !in b.Get(later)
    ensures var table := OffloadAll(ctx, defaults, Flatten(b));
      Respond(table, request, serve) ==
        if request.httpMethod == POST then serve(Offload(ctx, defaults, b.Get(kind)[request.path]), request)
        else NotFoundResponse(request)
  {
    FlattenLatestBucketWins(b, request.path, kind);
  }

  /** A path that no bucket registers is not found, whatever the method. */
  lemma UnregisteredPathNotFound(b: Buckets, ctx: ExecutionContext, defaults: ConversionDefaults, request: Request,
                                 serve: (Service, Request) -> HttpResponse)
    requires request.path !in b.AllPaths()
    ensures Respond(OffloadAll(ctx, defaults, Flatten(b)), request, serve) == NotFoundResponse(request)
  {
  }
}
