/**
 * Value-level model of route registration: what a registered route is, the four
 * per-shape buckets a router builder keeps, how buckets are flattened into one
 * table and how several builders are merged, and which execution strategy a
 * route is invoked with.
 */
module RouteModel {
  import opened Wrappers

  /** A gRPC call path such as "/package.Service/Method". */
  type Path = string

  /** An execution strategy: keep the call on the calling thread, or offload it as the strategy says. */
  datatype Strategy = NoOffloads | Offloading(id: nat)

  /**
   * The handler a streaming registration stores: a user streaming route, or one of the
   * wrappers the derived registrations build around a request- or response-streaming route.
   */
  datatype StreamingHandler =
    | StreamingRoute(id: nat)
    | RequestStreamingRoute(id: nat)
    | ResponseStreamingRoute(id: nat)

  /**
   * The handler a blocking-streaming registration stores: a user blocking-streaming route,
   * or the wrapper around a blocking request- or response-streaming route.
   */
  datatype BlockingStreamingHandler =
    | BlockingStreamingRoute(id: nat)
    | BlockingRequestStreamingRoute(id: nat)
    | BlockingResponseStreamingRoute(id: nat)

  /** The user handler behind a route, tagged with the adapter that serves it. */
  datatype Handler =
    | AsyncRoute(id: nat)
    | Streaming(streaming: StreamingHandler)
    | BlockingRoute(id: nat)
    | BlockingStreaming(blockingStreaming: BlockingStreamingHandler)

  /**
   * One registered route: the handler with its adapter, and the per-route execution strategy
   * (`None` where the caller passed null). It is immutable once created; closing it closes
   * the handler.
   */
  datatype RouteProvider = RouteProvider(handler: Handler, strategy: Option<Strategy>)

  /**
   * The strategies the HTTP service conversion proposes for the three adapters that go
   * through it; a route without its own strategy is invoked with the proposed one.
   */
  datatype ConversionDefaults = ConversionDefaults(async: Strategy, blocking: Strategy, blockingStreaming: Strategy)

  /**
   * Execution-strategy selection when the route's adapter is built: an explicit per-route
   * strategy always wins; otherwise a streaming route runs with no offloads and every other
   * route with what the conversion proposes for its adapter.
   */
  function InvocationStrategy(p: RouteProvider, defaults: ConversionDefaults): (s: Strategy)
    ensures p.strategy.Some? ==> s == p.strategy.value
    ensures p.strategy.None? && p.handler.Streaming? ==> s == NoOffloads
    ensures p.strategy.None? && p.handler.AsyncRoute? ==> s == defaults.async
    ensures p.strategy.None? && p.handler.BlockingRoute? ==> s == defaults.blocking
    ensures p.strategy.None? && p.handler.BlockingStreaming? ==> s == defaults.blockingStreaming
  {
    match p.handler
    case AsyncRoute(_) => p.strategy.GetOr(defaults.async)
    case Streaming(_) => p.strategy.GetOr(NoOffloads)
    case BlockingRoute(_) => p.strategy.GetOr(defaults.blocking)
    case BlockingStreaming(_) => p.strategy.GetOr(defaults.blockingStreaming)
  }

  /** The four buckets of a builder, in the order in which they are flattened. */
  datatype BucketKind = RoutesBucket | StreamingBucket | BlockingBucket | BlockingStreamingBucket

  /** The contents of the four buckets at one moment. */
  datatype Buckets = Buckets(
    routes: map<Path, RouteProvider>,
    streamingRoutes: map<Path, RouteProvider>,
    blockingRoutes: map<Path, RouteProvider>,
    blockingStreamingRoutes: map<Path, RouteProvider>)
  {
    /** The contents of one bucket. */
    function Get(kind: BucketKind): map<Path, RouteProvider> {
      match kind
      case RoutesBucket => routes
      case StreamingBucket => streamingRoutes
      case BlockingBucket => blockingRoutes
      case BlockingStreamingBucket => blockingStreamingRoutes
    }

    /** Every path registered in some bucket. */
    function AllPaths(): set<Path> {
      routes.Keys + streamingRoutes.Keys + blockingRoutes.Keys + blockingStreamingRoutes.Keys
    }
  }

  const EmptyBuckets := Buckets(map[], map[], map[], map[])

  /** Position of a bucket in the flattening order. */
  function Rank(kind: BucketKind): nat {
    match kind
    case RoutesBucket => 0
    case StreamingBucket => 1
    case BlockingBucket => 2
    case BlockingStreamingBucket => 3
  }

  /**
   * The four buckets put into one table in the order routes, streaming, blocking,
   * blocking-streaming, each later put overwriting an earlier one at the same path.
   */
  function Flatten(b: Buckets): (all: map<Path, RouteProvider>)
    ensures all.Keys == b.AllPaths()
    ensures forall p :: p in b.blockingStreamingRoutes ==> all[p] == b.blockingStreamingRoutes[p]
    ensures forall p :: p in b.blockingRoutes && p !in b.blockingStreamingRoutes ==> all[p] == b.blockingRoutes[p]
    ensures forall p :: p in b.streamingRoutes && p !in b.blockingRoutes && p !in b.blockingStreamingRoutes ==>
      all[p] == b.streamingRoutes[p]
    ensures forall p :: p in b.routes && p !in b.streamingRoutes && p !in b.blockingRoutes && p !in b.blockingStreamingRoutes ==>
      all[p] == b.routes[p]
  {
    b.routes + b.streamingRoutes + b.blockingRoutes + b.blockingStreamingRoutes
  }

  /**
   * The flattened table at a path holds the entry of the latest bucket, in flattening
   * order, that registers the path.
   */
  lemma FlattenLatestBucketWins(b: Buckets, p: Path, kind: BucketKind)
    requires p in b.Get(kind)
    requires forall later: BucketKind :: Rank(later) > Rank(kind) ==> p !in b.Get(later)
    ensures p in Flatten(b) && Flatten(b)[p] == b.Get(kind)[p]
  {
    match kind
    case RoutesBucket =>
      assert p !in b.Get(StreamingBucket) && p !in b.Get(BlockingBucket) && p !in b.Get(BlockingStreamingBucket);
    case StreamingBucket =>
      assert p !in b.Get(BlockingBucket) && p !in b.Get(BlockingStreamingBucket);
    case BlockingBucket =>
      assert p !in b.Get(BlockingStreamingBucket);
    case BlockingStreamingBucket =>
  }

  /**
   * The bucket a registration of a handler goes into. A blocking-streaming handler goes into
   * the blocking bucket, like a blocking single-value one; nothing is ever registered into the
   * blocking-streaming bucket.
   */
  function BucketOf(h: Handler): (kind: BucketKind)
    ensures kind != BlockingStreamingBucket
    ensures h.AsyncRoute? <==> kind == RoutesBucket
    ensures h.Streaming? <==> kind == StreamingBucket
    ensures h.BlockingRoute? || h.BlockingStreaming? <==> kind == BlockingBucket
  {
    match h
    case AsyncRoute(_) => RoutesBucket
    case Streaming(_) => StreamingBucket
    case BlockingRoute(_) => BlockingBucket
    case BlockingStreaming(_) => BlockingBucket
  }

  /** One registration: a `put` of `provider` at `path` into the bucket of its handler. */
  function Register(b: Buckets, path: Path, provider: RouteProvider): (r: Buckets)
    ensures r.Get(BucketOf(provider.handler)) == b.Get(BucketOf(provider.handler))[path := provider]
    ensures forall k: BucketKind :: k != BucketOf(provider.handler) ==> r.Get(k) == b.Get(k)
  {
    match BucketOf(provider.handler)
    case RoutesBucket => b.(routes := b.routes[path := provider])
    case StreamingBucket => b.(streamingRoutes := b.streamingRoutes[path := provider])
    case BlockingBucket => b.(blockingRoutes := b.blockingRoutes[path := provider])
    case BlockingStreamingBucket => b.(blockingStreamingRoutes := b.blockingStreamingRoutes[path := provider])
  }

  /** A registration as a value: the path and the provider put there. */
  datatype Registration = Registration(path: Path, provider: RouteProvider)

  /** A sequence of registrations applied in order. */
  function RegisterAll(b: Buckets, regs: seq<Registration>): Buckets
    decreases |regs|
  {
    if regs == [] then b else RegisterAll(Register(b, regs[0].path, regs[0].provider), regs[1..])
  }

  /** No sequence of registrations changes the blocking-streaming bucket. */
  lemma {:induction false} RegisterAllKeepsBlockingStreaming(b: Buckets, regs: seq<Registration>)
    ensures RegisterAll(b, regs).blockingStreamingRoutes == b.blockingStreamingRoutes
    decreases |regs|
  {
    if regs != [] {
      var next := Register(b, regs[0].path, regs[0].provider);
      assert next.Get(BlockingStreamingBucket) == b.Get(BlockingStreamingBucket);
      RegisterAllKeepsBlockingStreaming(next, regs[1..]);
    }
  }

  /**
   * After a sequence of registrations a path is registered somewhere exactly when it was
   * registered before or some registration names it.
   */
  lemma {:induction false} RegisterAllPaths(b: Buckets, regs: seq<Registration>, p: Path)
    ensures p in RegisterAll(b, regs).AllPaths() <==> p in b.AllPaths() || exists i :: 0 <= i < |regs| && regs[i].path == p
    decreases |regs|
  {
    if regs != [] {
      var next := Register(b, regs[0].path, regs[0].provider);
      RegisterPaths(b, regs[0].path, regs[0].provider, p);
      RegisterAllPaths(next, regs[1..], p);
      if exists i :: 0 <= i < |regs[1..]| && regs[1..][i].path == p {
        var i :| 0 <= i < |regs[1..]| && regs[1..][i].path == p;
        assert regs[i + 1].path == p;
      }
      if exists i :: 0 <= i < |regs| && regs[i].path == p {
        var i :| 0 <= i < |regs| && regs[i].path == p;
        if i > 0 {
          assert regs[1..][i - 1].path == p;
        }
      }
    }
  }

  /** One registration adds its path to the registered paths and removes none. */
  lemma RegisterPaths(b: Buckets, path: Path, provider: RouteProvider, p: Path)
    ensures p in Register(b, path, provider).AllPaths() <==> p in b.AllPaths() || p == path
  {
    match BucketOf(provider.handler)
    case RoutesBucket =>
      assert Register(b, path, provider) == b.(routes := b.routes[path := provider]);
    case StreamingBucket =>
      assert Register(b, path, provider) == b.(streamingRoutes := b.streamingRoutes[path := provider]);
    case BlockingBucket =>
      assert Register(b, path, provider) == b.(blockingRoutes := b.blockingRoutes[path := provider]);
  }

  /** One `putAll` per bucket: `later`'s entries overwrite `earlier`'s, bucket by bucket. */
  function Override(earlier: Buckets, later: Buckets): Buckets {
    Buckets(
      earlier.routes + later.routes,
      earlier.streamingRoutes + later.streamingRoutes,
      earlier.blockingRoutes + later.blockingRoutes,
      earlier.blockingStreamingRoutes + later.blockingStreamingRoutes)
  }

  lemma OverrideGet(earlier: Buckets, later: Buckets, kind: BucketKind)
    ensures Override(earlier, later).Get(kind) == earlier.Get(kind) + later.Get(kind)
  {
  }

  /**
   * A bucket after an override holds the paths of both inputs; at a path of `later` it holds
   * `later`'s entry, at any other path `earlier`'s.
   */
  lemma OverrideEntry(earlier: Buckets, later: Buckets, kind: BucketKind, p: Path)
    ensures p in Override(earlier, later).Get(kind) <==> p in earlier.Get(kind) || p in later.Get(kind)
    ensures p in later.Get(kind) ==> Override(earlier, later).Get(kind)[p] == later.Get(kind)[p]
    ensures p in earlier.Get(kind) && p !in later.Get(kind) ==> Override(earlier, later).Get(kind)[p] == earlier.Get(kind)[p]
  {
    OverrideGet(earlier, later, kind);
  }

  /** The buckets of several builders merged left to right, starting from empty buckets. */
  function MergeAll(bs: seq<Buckets>): Buckets
    decreases |bs|
  {
    if bs == [] then EmptyBuckets else Override(MergeAll(bs[..|bs| - 1]), bs[|bs| - 1])
  }

  /** Merging one more builder is one more override. */
  lemma MergeAllPrefix(bs: seq<Buckets>, i: nat)
    requires i < |bs|
    ensures MergeAll(bs[..i + 1]) == Override(MergeAll(bs[..i]), bs[i])
  {
    assert bs[..i + 1][..i] == bs[..i];
  }

  /** A path is in a merged bucket exactly when some input builder has it in that bucket. */
  lemma {:induction false} MergeAllPaths(bs: seq<Buckets>, kind: BucketKind, p: Path)
    ensures p in MergeAll(bs).Get(kind) <==> exists i :: 0 <= i < |bs| && p in bs[i].Get(kind)
    decreases |bs|
  {
    if bs != [] {
      var front := bs[..|bs| - 1];
      MergeAllPaths(front, kind, p);
      OverrideGet(MergeAll(front), bs[|bs| - 1], kind);
      if p in MergeAll(bs).Get(kind) && p !in bs[|bs| - 1].Get(kind) {
        var i :| 0 <= i < |front| && p in front[i].Get(kind);
        assert bs[i] == front[i];
      }
      if exists i :: 0 <= i < |bs| && p in bs[i].Get(kind) {
        var i :| 0 <= i < |bs| && p in bs[i].Get(kind);
        if i < |bs| - 1 {
          assert front[i] == bs[i];
        }
      }
    }
  }

  /**
   * On a collision the builder merged last wins: the merged bucket maps a path to the entry
   * of the last input builder that has the path in that bucket.
   */
  lemma {:induction false} MergeAllLastWins(bs: seq<Buckets>, kind: BucketKind, p: Path, i: nat)
    requires i < |bs| && p in bs[i].Get(kind)
    requires forall j :: i < j < |bs| ==> p !in bs[j].Get(kind)
    ensures p in MergeAll(bs).Get(kind) && MergeAll(bs).Get(kind)[p] == bs[i].Get(kind)[p]
    decreases |bs|
  {
    OverrideGet(MergeAll(bs[..|bs| - 1]), bs[|bs| - 1], kind);
    if i < |bs| - 1 {
      var front := bs[..|bs| - 1];
      assert front[i] == bs[i];
      MergeAllLastWins(front, kind, p, i);
    }
  }

  /** The total number of entries the builders hold in one bucket. */
  function BucketSizeSum(bs: seq<Buckets>, kind: BucketKind): nat
    decreases |bs|
  {
    if bs == [] then 0 else BucketSizeSum(bs[..|bs| - 1], kind) + |bs[|bs| - 1].Get(kind)|
  }

  /**
   * Merging builders whose buckets of one kind pairwise share no path gives a bucket holding
   * every entry of every builder: nothing is lost.
   */
  lemma {:induction false} MergeDisjointSize(bs: seq<Buckets>, kind: BucketKind)
    requires forall i, j :: 0 <= i < j < |bs| ==> bs[i].Get(kind).Keys !! bs[j].Get(kind).Keys
    ensures |MergeAll(bs).Get(kind)| == BucketSizeSum(bs, kind)
    decreases |bs|
  {
    if bs != [] {
      var front := bs[..|bs| - 1];
      var last := bs[|bs| - 1];
      assert forall i, j :: 0 <= i < j < |front| ==> front[i].Get(kind).Keys !! front[j].Get(kind).Keys by {
        forall i, j | 0 <= i < j < |front|
          ensures front[i].Get(kind).Keys !! front[j].Get(kind).Keys
        {
          assert front[i] == bs[i] && front[j] == bs[j];
        }
      }
      MergeDisjointSize(front, kind);
      MergedFrontDisjointFromLast(bs, kind);
      var merged := MergeAll(front).Get(kind);
      OverrideGet(MergeAll(front), last, kind);
      DisjointUnionSize(merged, last.Get(kind));
    }
  }

  /** With pairwise-disjoint buckets, the merge of all but the last builder shares no path with the last. */
  lemma MergedFrontDisjointFromLast(bs: seq<Buckets>, kind: BucketKind)
    requires bs != []
    requires forall i, j :: 0 <= i < j < |bs| ==> bs[i].Get(kind).Keys !! bs[j].Get(kind).Keys
    ensures MergeAll(bs[..|bs| - 1]).Get(kind).Keys !! bs[|bs| - 1].Get(kind).Keys
  {
    var front := bs[..|bs| - 1];
    forall p | p in MergeAll(front).Get(kind)
      ensures p !in bs[|bs| - 1].Get(kind)
    {
      MergeAllPaths(front, kind, p);
      var i :| 0 <= i < |front| && p in front[i].Get(kind);
      assert bs[i] == front[i];
    }
  }

  lemma MergeAllPair(a: Buckets, b: Buckets)
    ensures MergeAll([a, b]) == Override(a, b)
  {
    assert MergeAll([a]) == a by {
      assert [a][..0] == [];
    }
    assert [a, b][..1] == [a];
  }

  lemma DisjointUnionSize(m1: map<Path, RouteProvider>, m2: map<Path, RouteProvider>)
    requires m1.Keys !! m2.Keys
    ensures |m1 + m2| == |m1| + |m2|
  {
    assert (m1 + m2).Keys == m1.Keys + m2.Keys;
    assert |m1.Keys + m2.Keys| == |m1.Keys| + |m2.Keys|;
  }
}
