/**
 * The idempotency-based delivery strategy: for each request it asks an idempotency identifier
 * whether the request's method and absolute path are idempotent, and hands the whole call,
 * unchanged, to the forking strategy if so and to the sequential single-attempt strategy if not.
 */
module NonIdempotency {
  import opened Wrappers
  import opened ClientTypes

  /** `IdempotencyIdentifiersCache`, built over a ClusterConfig client for one target service. */
  datatype IdempotencyIdentifiersCache = IdempotencyIdentifiersCache(clusterConfigClient: IClusterConfigClient, serviceName: string)

  /** `IdempotencyIdentifier`, reading its rules from a cache. */
  datatype IdempotencyIdentifier = IdempotencyIdentifier(cache: IdempotencyIdentifiersCache)

  /**
   * The answer of `IIdempotencyIdentifier.IsIdempotent(method, path)`. How an identifier decides is
   * not part of this model, so the answer is a parameter: any function of the identifier, the
   * method and the path.
   */
  type IdempotencyOracle = (IdempotencyIdentifier, string, string) -> bool

  /** `EqualDelaysProvider(divisionFactor)` of the forking strategy. */
  datatype DelaysProvider = EqualDelaysProvider(divisionFactor: int)

  /** The delivery strategies (`IRequestStrategy`) the modelled code builds or passes on. */
  datatype RequestStrategy =
    | Sequential1                                                        // Strategy.Sequential1
    | Forking(delaysProvider: DelaysProvider, maximumParallelism: int)   // ForkingRequestStrategy
    | IdempotencySingBased(strategy: IdempotencySingBasedRequestStrategy)
    | Custom(impl: CustomRequestStrategy)

  /** The arguments of one `IRequestStrategy.SendAsync` call. */
  datatype SendCall = SendCall(
    request: Request,
    parameters: RequestParameters,
    sender: IRequestSender,
    budget: IRequestTimeBudget,
    replicas: seq<ReplicaUri>,
    replicasCount: int,
    cancellationToken: CancellationToken)

  /**
   * The task a strategy returns when it hands a call over: the task of `delegate.SendAsync(call)`.
   * What that delegate does with the call is outside this model.
   */
  datatype Delegation = Delegation(delegate: RequestStrategy, call: SendCall)

  /** Hands `call` to the strategy in `slot`; calling a member of a null reference throws. */
  function Forward(slot: Option<RequestStrategy>, call: SendCall): Result<Delegation, Exception>
  {
    match slot
    case None => Failure(NullReference)
    case Some(s) => Success(Delegation(s, call))
  }

  /**
   * The strategy object. The constructor stores its three arguments as given, with no null checks,
   * which is why each slot is an `Option`; the delegate slots are readonly, so a value of this
   * datatype is the whole state the strategy ever has.
   */
  datatype IdempotencySingBasedRequestStrategy = IdempotencySingBasedRequestStrategy(
    idempotencyIdentifier: Option<IdempotencyIdentifier>,
    sequential1Strategy: Option<RequestStrategy>,
    forkingStrategy: Option<RequestStrategy>)
  {
    /** What the identifier answers for `request`; `None` when the identifier is null. */
    function Consult(isIdempotent: IdempotencyOracle, request: Request): Option<bool>
    {
      match idempotencyIdentifier
      case None => None
      case Some(identifier) => Some(isIdempotent(identifier, request.httpMethod, request.url.absolutePath))
    }

    /**
     * `SendAsync`: the identifier's answer for the request's method and absolute path selects the
     * forking strategy (idempotent) or the sequential one (not idempotent), and the call goes to
     * the selected strategy with every argument unchanged; its task is returned as it is.
     */
    function SendAsync(isIdempotent: IdempotencyOracle, call: SendCall): (r: Result<Delegation, Exception>)
      ensures idempotencyIdentifier.None? ==> r == Failure(NullReference)
      ensures Consult(isIdempotent, call.request) == Some(true) ==> r == Forward(forkingStrategy, call)
      ensures Consult(isIdempotent, call.request) == Some(false) ==> r == Forward(sequential1Strategy, call)
      ensures r.Success? ==> r.value.call == call
      ensures r.Failure? ==> r.error == NullReference
    {
      match idempotencyIdentifier
      case None => Failure(NullReference)
      case Some(identifier) =>
        var selectedStrategy :=
          if isIdempotent(identifier, call.request.httpMethod, call.request.url.absolutePath)
          then forkingStrategy
          else sequential1Strategy;
        Forward(selectedStrategy, call)
    }
  }

  /** The constructor: the three arguments are stored in their own slots, none is checked. */
  function NewIdempotencySingBasedRequestStrategy(
    idempotencyIdentifier: Option<IdempotencyIdentifier>,
    sequential1Strategy: Option<RequestStrategy>,
    forkingStrategy: Option<RequestStrategy>): (s: IdempotencySingBasedRequestStrategy)
    ensures s.idempotencyIdentifier == idempotencyIdentifier
    ensures s.sequential1Strategy == sequential1Strategy
    ensures s.forkingStrategy == forkingStrategy
  {
    IdempotencySingBasedRequestStrategy(idempotencyIdentifier, sequential1Strategy, forkingStrategy)
  }

  /**
   * With a non-null identifier and two non-null, different delegates, every call succeeds and goes
   * to exactly one delegate: the forking one if and only if the identifier reports the request
   * idempotent, the sequential one if and only if it does not.
   */
  lemma ExactlyOneDelegateInvoked(s: IdempotencySingBasedRequestStrategy, isIdempotent: IdempotencyOracle, call: SendCall)
    requires s.idempotencyIdentifier.Some? && s.sequential1Strategy.Some? && s.forkingStrategy.Some?
    requires s.sequential1Strategy != s.forkingStrategy
    ensures var r := s.SendAsync(isIdempotent, call);
      var idempotent := isIdempotent(s.idempotencyIdentifier.value, call.request.httpMethod, call.request.url.absolutePath);
      && r.Success?
      && r.value.call == call
      && (r.value.delegate == s.forkingStrategy.value <==> idempotent)
      && (r.value.delegate == s.sequential1Strategy.value <==> !idempotent)
  {
  }

  /**
   * A null delegate is noticed only when it is selected: the other branch still forwards the call.
   */
  lemma NullDelegateFailsOnlyWhenSelected(s: IdempotencySingBasedRequestStrategy, isIdempotent: IdempotencyOracle, call: SendCall)
    requires s.idempotencyIdentifier.Some?
    ensures var r := s.SendAsync(isIdempotent, call);
      var idempotent := isIdempotent(s.idempotencyIdentifier.value, call.request.httpMethod, call.request.url.absolutePath);
      r.Failure? <==> (if idempotent then s.forkingStrategy.None? else s.sequential1Strategy.None?)
  {
  }

  /**
   * The identifier is asked about the method and the absolute path and nothing else: two calls
   * that agree on those two go to the same delegate, whatever their other arguments.
   */
  lemma SelectionDependsOnlyOnMethodAndPath(
    s: IdempotencySingBasedRequestStrategy, isIdempotent: IdempotencyOracle, c1: SendCall, c2: SendCall)
    requires c1.request.httpMethod == c2.request.httpMethod
    requires c1.request.url.absolutePath == c2.request.url.absolutePath
    ensures var r1, r2 := s.SendAsync(isIdempotent, c1), s.SendAsync(isIdempotent, c2);
      && (r1.Success? <==> r2.Success?)
      && (r1.Success? ==> r1.value.delegate == r2.value.delegate && r2.value.call == c2)
  {
  }
}
