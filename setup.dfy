/**
 * `SetupSingular`: configures a cluster client to send its requests through the Singular API
 * gateway according to a `SingularClientSettings`.
 */
module Setup {
  import opened Wrappers
  import opened ClientTypes
  import SingularConstants
  import opened NonIdempotency
  import opened Settings

  /** The cluster provider installed in a configuration. */
  datatype ClusterProvider =
    | ClusterConfigTopology(client: IClusterConfigClient, path: Option<ClusterConfigPath>)  // SetupClusterConfigTopology
    | Alternative(provider: IClusterProvider)                                               // user-supplied

  /** `TuningPolicies` of the adaptive health modifier. */
  datatype TuningPolicy = ByResponseVerdict

  /** The replica ordering installed in a configuration. */
  datatype ReplicaOrdering =
    | WeighedWithAdaptiveHealthLinearDecay(policy: TuningPolicy, decayMinutes: int)  // SetupWeighedReplicaOrdering
    | OtherOrdering

  /** An entry of `RequestTransforms`. */
  datatype RequestTransform =
    | SingularHeaders(settings: SingularClientSettings)  // the ad hoc transform added by the setup
    | OtherTransform(impl: IRequestTransform)

  /**
   * The ad hoc transform added by the setup, applied to `request`: it sets the environment header to
   * the settings' `TargetEnvironment`, read when the request is transformed, and the service header to
   * `TargetService`; it leaves everything else of the request as it was.
   */
  function ApplySingularHeaders(settings: SingularClientSettings, forcedEnvironment: Option<string>,
                                clusterConfigZone: Option<string>, request: Request): (r: Request)
    ensures r.httpMethod == request.httpMethod && r.url == request.url && r.content == request.content
    ensures EnvironmentHeader in r.headers && r.headers[EnvironmentHeader] == settings.TargetEnvironment(forcedEnvironment, clusterConfigZone)
    ensures ServiceHeader in r.headers && r.headers[ServiceHeader] == settings.TargetService
    ensures r.headers.Keys == request.headers.Keys + {EnvironmentHeader, ServiceHeader}
    ensures forall h :: h in request.headers && h != EnvironmentHeader && h != ServiceHeader ==> r.headers[h] == request.headers[h]
  {
    request
      .WithHeader(EnvironmentHeader, settings.TargetEnvironment(forcedEnvironment, clusterConfigZone))
      .WithHeader(ServiceHeader, settings.TargetService)
  }

  /** The default request strategy that the setup builds when the settings supply none. */
  function DefaultIdempotencyStrategy(clusterConfigClient: IClusterConfigClient, targetService: string): RequestStrategy
  {
    var sequential1Strategy := Sequential1;
    var forkingStrategy := Forking(
      EqualDelaysProvider(SingularConstants.ForkingStrategyParallelismLevel),
      SingularConstants.ForkingStrategyParallelismLevel);
    var idempotencyIdentifiersCache := IdempotencyIdentifiersCache(clusterConfigClient, targetService);
    var idempotencyIdentifier := IdempotencyIdentifier(idempotencyIdentifiersCache);
    IdempotencySingBased(NewIdempotencySingBasedRequestStrategy(Some(idempotencyIdentifier), Some(sequential1Strategy), Some(forkingStrategy)))
  }

  /**
   * The default strategy never meets a null slot: every call is handed on unchanged, to the forking
   * strategy with the configured parallelism exactly when the identifier over the given ClusterConfig
   * client and target service reports the request idempotent, and to `Sequential1` otherwise.
   */
  lemma DefaultIdempotencyStrategyRoutes(clusterConfigClient: IClusterConfigClient, targetService: string,
                                         isIdempotent: IdempotencyOracle, call: SendCall)
    ensures var s := DefaultIdempotencyStrategy(clusterConfigClient, targetService);
      var identifier := IdempotencyIdentifier(IdempotencyIdentifiersCache(clusterConfigClient, targetService));
      var idempotent := isIdempotent(identifier, call.request.httpMethod, call.request.url.absolutePath);
      var forking := Forking(EqualDelaysProvider(SingularConstants.ForkingStrategyParallelismLevel),
                             SingularConstants.ForkingStrategyParallelismLevel);
      && s.IdempotencySingBased?
      && var r := s.strategy.SendAsync(isIdempotent, call);
      && r.Success?
      && r.value.call == call
      && (r.value.delegate == forking <==> idempotent)
      && (r.value.delegate == Sequential1 <==> !idempotent)
  {
  }

  /**
   * The Singular header transform leaves the method and the path alone, so it never changes which
   * delegate the idempotency-based strategy picks for a request.
   */
  lemma SingularHeadersKeepSelection(settings: SingularClientSettings, forcedEnvironment: Option<string>,
                                     clusterConfigZone: Option<string>, s: IdempotencySingBasedRequestStrategy,
                                     isIdempotent: IdempotencyOracle, call: SendCall)
    ensures var transformed := call.(request := ApplySingularHeaders(settings, forcedEnvironment, clusterConfigZone, call.request));
      var r, rt := s.SendAsync(isIdempotent, call), s.SendAsync(isIdempotent, transformed);
      && (r.Success? <==> rt.Success?)
      && (r.Success? ==> rt.value.delegate == r.value.delegate && rt.value.call == transformed)
  {
  }

  /** The part of `IClusterClientConfiguration` that the setup reads or writes. */
  class ClusterClientConfiguration {
    var ClusterProvider: Option<ClusterProvider>
    var ReplicaOrdering: Option<ReplicaOrdering>
    var RequestTransforms: seq<RequestTransform>
    var DefaultRequestStrategy: Option<RequestStrategy>
    var MaxReplicasUsedPerRequest: int
    var TargetServiceName: Option<string>

    constructor (
      clusterProvider: Option<ClusterProvider>, replicaOrdering: Option<ReplicaOrdering>,
      requestTransforms: seq<RequestTransform>, defaultRequestStrategy: Option<RequestStrategy>,
      maxReplicasUsedPerRequest: int, targetServiceName: Option<string>)
      ensures ClusterProvider == clusterProvider && ReplicaOrdering == replicaOrdering
      ensures RequestTransforms == requestTransforms && DefaultRequestStrategy == defaultRequestStrategy
      ensures MaxReplicasUsedPerRequest == maxReplicasUsedPerRequest && TargetServiceName == targetServiceName
    {
      ClusterProvider, ReplicaOrdering := clusterProvider, replicaOrdering;
      RequestTransforms, DefaultRequestStrategy := requestTransforms, defaultRequestStrategy;
      MaxReplicasUsedPerRequest, TargetServiceName := maxReplicasUsedPerRequest, targetServiceName;
    }
  }

  /**
   * `self.SetupSingular(settings)`. `ClusterConfigClient.Default`, a process-wide object, is the
   * parameter `defaultClusterConfigClient`. Throws for a null configuration first, then for null
   * settings, in both cases before anything is changed. Otherwise: the alternative cluster provider
   * or the ClusterConfig topology, the Singular header transform appended after the existing ones,
   * weighed replica ordering with adaptive health, the alternative default strategy or the
   * idempotency-based one, at most 3 replicas per request, and the Singular gateway as target service.
   */
  method SetupSingular(self: ClusterClientConfiguration?, settings: SingularClientSettings?,
                       defaultClusterConfigClient: IClusterConfigClient)
    returns (r: Outcome<Exception>)
    modifies self
    ensures self == null ==> r == Fail(ArgumentNull("self"))
    ensures self != null && settings == null ==> r == Fail(ArgumentNull("settings")) && unchanged(self)
    ensures self != null && settings != null ==>
      var clusterConfigClient := settings.ClusterConfigClient.GetOr(defaultClusterConfigClient);
      && r == Pass
      && self.ClusterProvider == Some(
           match settings.AlternativeClusterProvider
           case Some(provider) => Alternative(provider)
           case None => ClusterConfigTopology(clusterConfigClient, settings.ClusterConfigTopologyPath))
      && self.RequestTransforms == old(self.RequestTransforms) + [SingularHeaders(settings)]
      && self.ReplicaOrdering == Some(WeighedWithAdaptiveHealthLinearDecay(ByResponseVerdict, 5))
      && self.DefaultRequestStrategy == Some(
           match settings.AlternativeDefaultRequestStrategy
           case Some(strategy) => strategy
           case None => DefaultIdempotencyStrategy(clusterConfigClient, settings.TargetService))
      && self.MaxReplicasUsedPerRequest == 3
      && self.TargetServiceName == Some(SingularConstants.SingularServiceName)
  {
    if self == null {
      return Fail(ArgumentNull("self"));
    }
    if settings == null {
      return Fail(ArgumentNull("settings"));
    }

    var clusterConfigClient := settings.ClusterConfigClient.GetOr(defaultClusterConfigClient);

    if settings.AlternativeClusterProvider.Some? {
      self.ClusterProvider := Some(Alternative(settings.AlternativeClusterProvider.value));
    } else {
      self.ClusterProvider := Some(ClusterConfigTopology(clusterConfigClient, settings.ClusterConfigTopologyPath));
    }

    self.RequestTransforms := self.RequestTransforms + [SingularHeaders(settings)];

    self.ReplicaOrdering := Some(WeighedWithAdaptiveHealthLinearDecay(ByResponseVerdict, 5));

    if settings.AlternativeDefaultRequestStrategy.Some? {
      self.DefaultRequestStrategy := settings.AlternativeDefaultRequestStrategy;
    } else {
      self.DefaultRequestStrategy := Some(DefaultIdempotencyStrategy(clusterConfigClient, settings.TargetService));
    }

    self.MaxReplicasUsedPerRequest := 3;

    self.TargetServiceName := Some(SingularConstants.SingularServiceName);
    r := Pass;
  }
}
