/**
 * `SingularClientSettings`: the target service and environment of a Singular client, plus the
 * optional overrides that the setup reads.
 */
module Settings {
  import opened Wrappers
  import opened ClientTypes
  import SingularConstants
  import NonIdempotency

  /**
   * A chain of `??` operators: the first candidate that is not null, or `fallback` when all are.
   */
  function Coalesce(candidates: seq<Option<string>>, fallback: string): (r: string)
    ensures r == fallback || Some(r) in candidates
    ensures (forall i :: 0 <= i < |candidates| ==> candidates[i].None?) ==> r == fallback
    ensures forall i :: 0 <= i < |candidates| && candidates[i].Some? ==>
      (forall j :: 0 <= j < i ==> candidates[j].None?) ==> r == candidates[i].value
  {
    if candidates == [] then fallback
    else if candidates[0].Some? then candidates[0].value
    else Coalesce(candidates[1..], fallback)
  }

  class SingularClientSettings {
    /** The environment given to the two-argument constructor; no member writes it afterwards. */
    const explicitTargetEnvironment: Option<string>

    /**
     * The service to send requests to, exactly as it registers in service discovery; the property
     * has no setter.
     */
    const TargetService: string

    /** A user-supplied cluster provider that replaces the Singular topology in ClusterConfig. */
    var AlternativeClusterProvider: Option<IClusterProvider>

    /** Where the client reports metrics. */
    var MetricContext: Option<IMetricContext>

    /** The ClusterConfig client to use; the shared default client when null. */
    var ClusterConfigClient: Option<IClusterConfigClient>

    /** Where the Singular topology is kept in ClusterConfig. */
    var ClusterConfigTopologyPath: Option<ClusterConfigPath>

    /** A user-supplied default request strategy that replaces the idempotency-based one. */
    var AlternativeDefaultRequestStrategy: Option<NonIdempotency.RequestStrategy>

    /** What both public constructors do once their arguments passed the null checks. */
    constructor (explicitTargetEnvironment: Option<string>, targetService: string)
      ensures this.explicitTargetEnvironment == explicitTargetEnvironment
      ensures TargetService == targetService
      ensures AlternativeClusterProvider == None && MetricContext == None
      ensures ClusterConfigClient == None && ClusterConfigTopologyPath == None
      ensures AlternativeDefaultRequestStrategy == None
    {
      this.explicitTargetEnvironment := explicitTargetEnvironment;
      TargetService := targetService;
      AlternativeClusterProvider, MetricContext := None, None;
      ClusterConfigClient, ClusterConfigTopologyPath := None, None;
      AlternativeDefaultRequestStrategy := None;
    }

    /**
     * `new SingularClientSettings(environmentName, serviceName)`: throws for a null environment
     * name first, then for a null service name.
     */
    static method Create(environmentName: Option<string>, serviceName: Option<string>)
      returns (r: Result<SingularClientSettings, Exception>)
      ensures environmentName.None? ==> r == Failure(ArgumentNull("environmentName"))
      ensures environmentName.Some? && serviceName.None? ==> r == Failure(ArgumentNull("serviceName"))
      ensures environmentName.Some? && serviceName.Some? ==>
        && r.Success? && fresh(r.value)
        && r.value.explicitTargetEnvironment == environmentName
        && r.value.TargetService == serviceName.value
        && r.value.AlternativeClusterProvider == None && r.value.MetricContext == None
        && r.value.ClusterConfigClient == None && r.value.ClusterConfigTopologyPath == None
        && r.value.AlternativeDefaultRequestStrategy == None
    {
      if environmentName.None? {
        return Failure(ArgumentNull("environmentName"));
      }
      if serviceName.None? {
        return Failure(ArgumentNull("serviceName"));
      }
      var settings := new SingularClientSettings(environmentName, serviceName.value);
      r := Success(settings);
    }

    /**
     * `new SingularClientSettings(serviceName)`: throws for a null service name and otherwise
     * leaves the explicit target environment unset.
     */
    static method CreateForService(serviceName: Option<string>)
      returns (r: Result<SingularClientSettings, Exception>)
      ensures serviceName.None? ==> r == Failure(ArgumentNull("serviceName"))
      ensures serviceName.Some? ==>
        && r.Success? && fresh(r.value)
        && r.value.explicitTargetEnvironment == None
        && r.value.TargetService == serviceName.value
        && r.value.AlternativeClusterProvider == None && r.value.MetricContext == None
        && r.value.ClusterConfigClient == None && r.value.ClusterConfigTopologyPath == None
        && r.value.AlternativeDefaultRequestStrategy == None
    {
      if serviceName.None? {
        return Failure(ArgumentNull("serviceName"));
      }
      var settings := new SingularClientSettings(None, serviceName.value);
      r := Success(settings);
    }

    /**
     * `TargetEnvironment`, computed anew on every read: the `forced.sd.environment` property of the
     * flowing context, else the explicit environment, else the zone of the default ClusterConfig
     * client, else the default zone. The flowing-context property and the zone are global lookups,
     * passed here as arguments.
     */
    function TargetEnvironment(forcedEnvironment: Option<string>, clusterConfigZone: Option<string>): (r: string)
      ensures r == Coalesce([forcedEnvironment, explicitTargetEnvironment, clusterConfigZone], SingularConstants.DefaultZone)
      ensures forcedEnvironment.Some? ==> r == forcedEnvironment.value
    {
      var candidates := [forcedEnvironment, explicitTargetEnvironment, clusterConfigZone];
      assert candidates[0] == forcedEnvironment && candidates[1] == explicitTargetEnvironment;
      assert candidates[2] == clusterConfigZone;
      forcedEnvironment.GetOr(explicitTargetEnvironment.GetOr(clusterConfigZone.GetOr(SingularConstants.DefaultZone)))
    }
  }

  /**
   * The explicit environment decides only when the flowing context forces none; the zone only when
   * neither the context nor the settings name an environment; the default zone only when nothing does.
   */
  lemma TargetEnvironmentFallbacks(settings: SingularClientSettings, forcedEnvironment: Option<string>, clusterConfigZone: Option<string>)
    ensures var env := settings.TargetEnvironment(forcedEnvironment, clusterConfigZone);
      && (forcedEnvironment.None? && settings.explicitTargetEnvironment.Some? ==> env == settings.explicitTargetEnvironment.value)
      && (forcedEnvironment.None? && settings.explicitTargetEnvironment.None? && clusterConfigZone.Some? ==> env == clusterConfigZone.value)
      && (forcedEnvironment.None? && settings.explicitTargetEnvironment.None? && clusterConfigZone.None? ==> env == SingularConstants.DefaultZone)
  {
  }
}
