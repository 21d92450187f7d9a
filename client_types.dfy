/**
 * Types of the cluster client framework and of the service-discovery libraries that the
 * Singular client only passes around. Their behaviour lives outside this model: each is
 * an opaque type, so the model can forward them and compare them but never look inside.
 */
module ClientTypes {

  /** `RequestParameters` of a request: forwarded to the delivery strategy untouched. */
  type RequestParameters
  /** `IRequestSender`: the component a delivery strategy uses to reach one replica. */
  type IRequestSender
  /** `IRequestTimeBudget`: the remaining time of a request. */
  type IRequestTimeBudget
  /** `CancellationToken` of an asynchronous call. */
  type CancellationToken
  /** One replica address (`Uri`) handed to a delivery strategy. */
  type ReplicaUri
  /** Everything of a request `Uri` besides its absolute path. */
  type UrlRest
  /** The body of a request. */
  type RequestContent
  /** `IClusterProvider` supplied by the user instead of the ClusterConfig topology. */
  type IClusterProvider
  /** `IClusterConfigClient`: a client of the ClusterConfig configuration store. */
  type IClusterConfigClient
  /** `ClusterConfigPath` naming where the Singular topology is kept in ClusterConfig. */
  type ClusterConfigPath
  /** `IMetricContext` used to report metrics. */
  type IMetricContext
  /** A request transform (`IRequestTransform`) that is not the one added by the Singular setup. */
  type IRequestTransform
  /** A delivery strategy (`IRequestStrategy`) written outside this repository. */
  type CustomRequestStrategy

  /** The exceptions the modelled code can throw. */
  datatype Exception =
    | ArgumentNull(paramName: string)  // ArgumentNullException(nameof(paramName))
    | NullReference                    // a member call on a null reference

  /**
   * Header names. The two Singular headers are the constants `SingularConstants.EnvironmentHeader`
   * and `SingularConstants.ServiceHeader`, taken to be two different names; every other header
   * is `OtherHeader`.
   */
  datatype HeaderName = EnvironmentHeader | ServiceHeader | OtherHeader(name: string)

  /** A request `Uri`: only its `AbsolutePath` is read by the modelled code. */
  datatype Url = Url(absolutePath: string, rest: UrlRest)

  /** A cluster client `Request`: HTTP method name (such as "GET"), URL, headers and body. */
  datatype Request = Request(httpMethod: string, url: Url, headers: map<HeaderName, string>, content: RequestContent) {

    /** `request.WithHeader(name, value)`: a copy of the request with that header set to `value`. */
    function WithHeader(name: HeaderName, value: string): (r: Request)
      ensures r.httpMethod == httpMethod && r.url == url && r.content == content
      ensures name in r.headers && r.headers[name] == value
      ensures r.headers.Keys == headers.Keys + {name}
      ensures forall h :: h in headers && h != name ==> r.headers[h] == headers[h]
    {
      Request(httpMethod, url, headers[name := value], content)
    }
  }
}

/**
 * `SingularConstants` of the Singular core library. Their values are not part of this model, so
 * each is a constant of unknown value and no proof relies on what it is.
 */
module SingularConstants {
  /** Zone used when neither the flowing context, the settings nor ClusterConfig name one. */
  const DefaultZone: string
  /** Name of the Singular API gateway in service discovery. */
  const SingularServiceName: string
  /** How many replicas the forking strategy may use in parallel. */
  const ForkingStrategyParallelismLevel: int
}
