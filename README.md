# Singular cluster client: idempotency-based routing, settings and setup

This project models the core of the Singular extension of the Vostok cluster client.

- **`IdempotencySingBasedRequestStrategy`** is the default delivery strategy. For every request it
  asks an idempotency identifier whether the request's HTTP method and absolute path are idempotent.
  If they are, it hands the whole `SendAsync` call, unchanged, to a forking strategy that may use
  several replicas in parallel. If not, it hands the call to the sequential single-attempt strategy
  (`Strategy.Sequential1`).
- **`SingularClientSettings`** holds the target service and the explicit target environment. Its
  `TargetEnvironment` is a `??` chain read afresh each time: the `forced.sd.environment` property of
  the flowing context, then the explicit environment, then the zone of the default ClusterConfig
  client, then the default zone.
- **`SetupSingular`** writes a client configuration. It checks its arguments, installs either the
  alternative cluster provider or the ClusterConfig topology, and appends a transform that sets the
  Singular environment and service headers. It installs weighed replica ordering and either the
  alternative default strategy or the idempotency-based one. It sets 3 replicas per request and the
  Singular gateway as the target service.

Files and modules:

- `wrappers.dfy` (`Wrappers`): `Option` for nullable references, `Result`/`Outcome` for exceptions.
- `client_types.dfy` (`ClientTypes`, `SingularConstants`): the framework's types, as opaque types
  or small datatypes, and the Singular constants. Their values are unknown to the model.
- `idempotency_strategy.dfy` (`NonIdempotency`): the strategy, its `SendAsync` and its routing lemmas.
- `settings.dfy` (`Settings`): `SingularClientSettings` as a class.
- `setup.dfy` (`Setup`): the configuration class, `SetupSingular`, the header transform and the
  default strategy.

How the model represents the source:

- A C# `null` is `None` of an `Option`. A thrown exception is a `Failure`/`Fail` value.
- Whatever the identifier answers is a function parameter, `isIdempotent`. It receives the identifier,
  the method and the absolute path, and nothing else.
- "Sending" returns a `Delegation`: the delegate that was chosen and the exact arguments passed to it.
  This stands for the task that the delegate's `SendAsync` returns.
- `SingularClientSettings` is a class. `TargetService` and the explicit environment are `const`,
  because nothing writes them after construction. The settable properties are `var`s.
- `SetupSingular` is a method over a `ClusterClientConfiguration` object, and its contract states
  the object's whole new state.

The strategy holds no per-call state: it is an immutable value, and `SelectionDependsOnlyOnMethodAndPath`
shows that any two calls on the same strategy value with the same method and path, under the same
identifier answer, go to the same delegate.

The strategy's constructor performs no null checks, although a design in which missing dependencies
fail at construction would be safer. The model follows the code. Its slots are `Option`s, and a null
identifier or a null selected delegate throws a `NullReference` only when a call reaches it
(`NullDelegateFailsOnlyWhenSelected`).

## Model

| member | source | states |
|---|---|---|
| `NonIdempotency.IdempotencySingBasedRequestStrategy.SendAsync` | Vostok.ClusterClient.Singular/NonIdempotency/IdempotencySingBasedRequestStrategy.cs:25-37 | A null identifier throws. If the identifier reports the request's method and absolute path idempotent, the call goes to the forking slot, otherwise to the sequential slot. The call's arguments are forwarded unchanged. The only failure the model has is a null reference. |
| `NonIdempotency.NewIdempotencySingBasedRequestStrategy` | Vostok.ClusterClient.Singular/NonIdempotency/IdempotencySingBasedRequestStrategy.cs:18-23 | The constructor stores the identifier, the sequential strategy and the forking strategy, each in its own slot, without checking or reordering them. |
| `NonIdempotency.ExactlyOneDelegateInvoked` | Vostok.ClusterClient.Singular/NonIdempotency/IdempotencySingBasedRequestStrategy.cs:34-36 | When the slots are non-null and the delegates differ, every call reaches exactly one delegate. It reaches the forking one if and only if the request is idempotent, and the sequential one if and only if it is not. |
| `NonIdempotency.NullDelegateFailsOnlyWhenSelected` | Vostok.ClusterClient.Singular/NonIdempotency/IdempotencySingBasedRequestStrategy.cs:18-36 | When the identifier is non-null, a call fails if and only if the delegate selected for it is null. |
| `NonIdempotency.SelectionDependsOnlyOnMethodAndPath` | Vostok.ClusterClient.Singular/NonIdempotency/IdempotencySingBasedRequestStrategy.cs:34 | Two calls whose requests agree on the method and the absolute path go to the same delegate, whatever their other arguments. |
| `ClientTypes.Request.WithHeader` | Vostok.ClusterClient.Singular/IClusterClientConfigurationExtensions.cs:43-44 | Setting a header gives it the new value. The other headers, the method, the URL and the body are unchanged. |
| `Settings.Coalesce` | Vostok.ClusterClient.Singular/SingularClientSettings.cs:41-44 | A `??` chain returns one of its candidates or the fallback. It returns the first non-null candidate, or the fallback when every candidate is null. |
| `Settings.SingularClientSettings.TargetEnvironment` | Vostok.ClusterClient.Singular/SingularClientSettings.cs:41-44 | The result is the first non-null of the forced environment, the explicit environment and the ClusterConfig zone, else the default zone. A forced environment always wins. |
| `Settings.TargetEnvironmentFallbacks` | Vostok.ClusterClient.Singular/SingularClientSettings.cs:41-44 | Each later source decides only when every earlier one is null: first the explicit environment, then the zone, then the default zone. |
| `Settings.SingularClientSettings.constructor` | Vostok.ClusterClient.Singular/SingularClientSettings.cs:16-30 | After the null checks, the explicit environment and `TargetService` are stored as given. Every settable property starts out null. |
| `Settings.SingularClientSettings.Create` | Vostok.ClusterClient.Singular/SingularClientSettings.cs:20-24 | A null environment name throws `ArgumentNullException("environmentName")`, and this check comes first. A null service name then throws `ArgumentNullException("serviceName")`. Otherwise the new settings hold both names exactly. |
| `Settings.SingularClientSettings.CreateForService` | Vostok.ClusterClient.Singular/SingularClientSettings.cs:27-30 | A null service name throws `ArgumentNullException("serviceName")`. Otherwise `TargetService` is the given name and the explicit environment is unset. |
| `Setup.ApplySingularHeaders` | Vostok.ClusterClient.Singular/IClusterClientConfigurationExtensions.cs:40-44 | The appended transform sets the environment header to `TargetEnvironment`, read when the request is transformed, and the service header to `TargetService`. Every other header and the rest of the request are kept. |
| `Setup.SingularHeadersKeepSelection` | Vostok.ClusterClient.Singular/IClusterClientConfigurationExtensions.cs:40-44 | The header transform never changes which delegate the idempotency-based strategy picks for a request. |
| `Setup.DefaultIdempotencyStrategyRoutes` | Vostok.ClusterClient.Singular/IClusterClientConfigurationExtensions.cs:56-63 | About `DefaultIdempotencyStrategy`, the value built at lines 58-62. The default strategy never hits a null slot. Each call goes unchanged to the forking strategy with the configured parallelism exactly when the identifier says it is idempotent, and to `Sequential1` otherwise. That identifier is built over the chosen ClusterConfig client and the target service. |
| `Setup.SetupSingular` | Vostok.ClusterClient.Singular/IClusterClientConfigurationExtensions.cs:21-68 | A null configuration throws first, then null settings, and neither case changes anything. Otherwise, see the full list of effects below this table. |

On success, `Setup.SetupSingular` has these effects:

- The cluster provider is the alternative one if given. Otherwise it is the ClusterConfig topology on
  the settings' ClusterConfig client, or the default client, and the topology path.
- Exactly one transform is appended, after the existing ones.
- Weighed ordering with adaptive health is installed: by response verdict, 5-minute linear decay.
- The default strategy is the alternative one if given, else the idempotency-based one.
- `MaxReplicasUsedPerRequest` is 3 and `TargetServiceName` is the Singular service name.

## Left out

- The idempotency identifier and its cache are not part of this model. `IdempotencyIdentifier` and
  `IdempotencyIdentifiersCache` appear only as the values the setup builds, and their answer is an
  arbitrary function. No default-by-method table or override rules are assumed.
- Tasks, asynchrony and cancellation are not modelled. The task, `CancellationToken`,
  `IRequestTimeBudget`, `IRequestSender`, `RequestParameters` and the replicas are opaque values
  passed through. What the chosen delegate does with a call is not modelled.
- The delivery strategies are not modelled. `ForkingRequestStrategy`, `EqualDelaysProvider` and
  `Strategy.Sequential1` are library code, represented only by the values the setup constructs.
- `SetupClusterConfigTopology` is recorded only as the provider it installs. Any other effects it has
  on the configuration are not modelled.
- `SetupWeighedReplicaOrdering` and the adaptive health modifier are recorded only as the ordering
  they install.
- The inside of `WithHeader` is modelled as setting a map entry. The string values of the two header
  names are not modelled.
- `FlowingContext.Properties` and `ClusterConfigClient.Default` (with its `Zone`) are process-wide
  lookups. They are explicit parameters here.
- The values of `SingularConstants` (default zone, Singular service name, forking parallelism) live in
  the Singular core library. They are constants of unknown value here.
- `MetricContext` is a plain settable property with no behaviour.
- `ClusterConfigClient`, `ClusterConfigTopologyPath` and `AlternativeDefaultRequestStrategy` are read
  by `SetupSingular` but not declared in the settings class shown. They are modelled as settable
  optional properties that start out null.
- `System.Uri` is not modelled. Only `AbsolutePath` is read, and the model treats it as always
  available. In the source, a relative request URL makes `AbsolutePath`, and so `SendAsync`, throw
  `InvalidOperationException`; the model leaves that failure out.
- The identifier's answer is one fixed function for every call the model considers. In the source
  the identifier reads a refreshable cache, so its answer for the same method and path can change
  between calls; the routing lemmas compare calls under one answer only.
- `OtherHeader` names are assumed to differ from the two Singular header names. In the source,
  `WithHeader` replaces an existing header with the same name, whichever transform added it.
- A null request or URL is not modelled, and neither is the exception that dereferencing one would
  throw.
