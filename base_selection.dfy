/** How getOkHttpClient chooses the OkHttpClient.Builder it starts from:
    findOkHttpClientBuilderMethod looks for the interface's own static builder
    method; only when there is none is the connection pool looked up by name. */
module BaseSelection {
  import opened Types
  import Validation

  /** The condition findOkHttpClientBuilderMethod tests on each method. */
  predicate IsBuilderMethod(m: MethodInfo) {
    m.isStatic && m.hasBuilderAnnotation && m.returnType == OkHttpClientBuilderType
  }

  /** findOkHttpClientBuilderMethod over methods[from..]: the index of the
      first qualifying method, or `None` (the source's null). */
  function FindOkHttpClientBuilderMethod(methods: seq<MethodInfo>, from: nat): (r: Option<nat>)
    requires from <= |methods|
    decreases |methods| - from
    ensures r.None? <==> forall j :: from <= j < |methods| ==> !IsBuilderMethod(methods[j])
    ensures r.Some? ==> from <= r.value < |methods| && IsBuilderMethod(methods[r.value])
                        && forall j :: from <= j < r.value ==> !IsBuilderMethod(methods[j])
  {
    if from == |methods| then None
    else if IsBuilderMethod(methods[from]) then Some(from)
    else FindOkHttpClientBuilderMethod(methods, from + 1)
  }

  /** getConnectionPool: fails when the registry is absent or does not hold
      the name; otherwise yields exactly the registered pool. */
  function GetConnectionPool(poolRegistry: Option<map<string, ConnectionPool>>, poolName: string): (r: Result<ConnectionPool, Error>)
    ensures poolRegistry.None? ==> r == Err(PoolRegistryMissing)
    ensures poolRegistry.Some? && poolName !in poolRegistry.value ==> r == Err(PoolNotFound(poolName))
    ensures r.Ok? <==> poolRegistry.Some? && poolName in poolRegistry.value
    ensures r.Ok? ==> r.value == poolRegistry.value[poolName]
  {
    match poolRegistry
    case None => Err(PoolRegistryMissing)
    case Some(registry) =>
      if poolName in registry then Ok(registry[poolName]) else Err(PoolNotFound(poolName))
  }

  /** The descriptor's timeouts and flags, copied onto a new builder. */
  function SettingsOf(c: RetrofitClient): ClientSettings {
    ClientSettings(c.connectTimeoutMs, c.readTimeoutMs, c.writeTimeoutMs, c.callTimeoutMs,
                   c.retryOnConnectionFailure, c.followRedirects, c.followSslRedirects, c.pingIntervalMs)
  }

  /** The first half of getOkHttpClient: the custom builder if one is found
      (invoking it may throw), otherwise a new builder on the named pool. A
      custom base always names a qualifying method of the interface. */
  function SelectBase(iface: ServiceInterface, poolRegistry: Option<map<string, ConnectionPool>>): (r: Result<ClientBase, Error>)
    ensures r.Ok? && r.value.CustomBuilder? ==> r.value.methodIndex < |iface.methods|
                                                && IsBuilderMethod(iface.methods[r.value.methodIndex])
  {
    match FindOkHttpClientBuilderMethod(iface.methods, 0)
    case Some(i) => if iface.methods[i].invocation.Throws? then Err(BuilderMethodThrew(i)) else Ok(CustomBuilder(i))
    case None =>
      match GetConnectionPool(poolRegistry, iface.client.poolName)
      case Err(e) => Err(e)
      case Ok(pool) => Ok(Pooled(pool, SettingsOf(iface.client)))
  }

  /** When a builder method exists the pool registry is never consulted: the
      base is the first such method, whatever the registry holds, unless
      invoking that method throws. */
  lemma BuilderMethodBypassesPool(iface: ServiceInterface, registry1: Option<map<string, ConnectionPool>>,
                                  registry2: Option<map<string, ConnectionPool>>)
    requires exists j :: 0 <= j < |iface.methods| && IsBuilderMethod(iface.methods[j])
    ensures SelectBase(iface, registry1) == SelectBase(iface, registry2)
    ensures FindOkHttpClientBuilderMethod(iface.methods, 0).Some?
    ensures var i := FindOkHttpClientBuilderMethod(iface.methods, 0).value;
            SelectBase(iface, registry1)
            == if iface.methods[i].invocation.Throws? then Err(BuilderMethodThrew(i)) else Ok(CustomBuilder(i))
  {
    var r := FindOkHttpClientBuilderMethod(iface.methods, 0);
    assert r.Some?;
  }

  /** Without a builder method the base is the named pool with the
      descriptor's settings, and a missing registry or name fails the build. */
  lemma NoBuilderMethodUsesPool(iface: ServiceInterface, poolRegistry: Option<map<string, ConnectionPool>>)
    requires forall j :: 0 <= j < |iface.methods| ==> !IsBuilderMethod(iface.methods[j])
    ensures poolRegistry.None? ==> SelectBase(iface, poolRegistry) == Err(PoolRegistryMissing)
    ensures poolRegistry.Some? && iface.client.poolName !in poolRegistry.value
            ==> SelectBase(iface, poolRegistry) == Err(PoolNotFound(iface.client.poolName))
    ensures poolRegistry.Some? && iface.client.poolName in poolRegistry.value
            ==> SelectBase(iface, poolRegistry)
                == Ok(Pooled(poolRegistry.value[iface.client.poolName], SettingsOf(iface.client)))
  {
    assert FindOkHttpClientBuilderMethod(iface.methods, 0).None?;
  }

  /** Once validation has passed, every builder-annotated method has the
      right shape, so the finder picks the first annotated method. */
  lemma ValidatedFinderPicksFirstAnnotated(iface: ServiceInterface, disableVoidReturnType: bool)
    requires Validation.CheckRetrofitInterface(iface, disableVoidReturnType).None?
    ensures var r := FindOkHttpClientBuilderMethod(iface.methods, 0);
            (r.None? <==> forall j :: 0 <= j < |iface.methods| ==> !iface.methods[j].hasBuilderAnnotation)
            && (r.Some? ==> iface.methods[r.value].hasBuilderAnnotation
                            && forall j :: 0 <= j < r.value ==> !iface.methods[j].hasBuilderAnnotation)
  {
    Validation.ValidationPassesIff(iface, disableVoidReturnType);
    assert forall j :: 0 <= j < |iface.methods| ==>
      (IsBuilderMethod(iface.methods[j]) <==> iface.methods[j].hasBuilderAnnotation) by {
      forall j | 0 <= j < |iface.methods|
        ensures IsBuilderMethod(iface.methods[j]) <==> iface.methods[j].hasBuilderAnnotation
      {
        assert Validation.MethodAllowed(iface.methods[j], disableVoidReturnType);
      }
    }
  }
}
