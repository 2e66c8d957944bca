/** getOkHttpClient: choose the builder's base, then add the application-level
    interceptors (markers, globals, formatter, retry) and the network-level
    interceptors (logging, registered network interceptors) in a fixed order. */
module ClientChain {
  import opened Types
  import opened BaseSelection
  import opened MarkerResolution

  /** OkHttpClient.Builder, as far as the factory uses it: a base and the two
      interceptor lists that addInterceptor and addNetworkInterceptor append to. */
  class OkHttpClientBuilder {
    var base: ClientBase
    var interceptors: seq<Interceptor>
    var networkInterceptors: seq<Interceptor>

    constructor (base: ClientBase)
      ensures this.base == base && interceptors == [] && networkInterceptors == []
    {
      this.base := base;
      interceptors := [];
      networkInterceptors := [];
    }

    method AddInterceptor(x: Interceptor)
      modifies this
      ensures interceptors == old(interceptors) + [x]
      ensures base == old(base) && networkInterceptors == old(networkInterceptors)
    {
      interceptors := interceptors + [x];
    }

    method AddNetworkInterceptor(x: Interceptor)
      modifies this
      ensures networkInterceptors == old(networkInterceptors) + [x]
      ensures base == old(base) && interceptors == old(interceptors)
    {
      networkInterceptors := networkInterceptors + [x];
    }

    function Build(): OkHttpClient
      reads this
    {
      OkHttpClient(base, interceptors, networkInterceptors)
    }
  }

  /** The application-level chain: the marker interceptors first, then the
      global ones, then the formatter when there is one, and the retry
      interceptor always, last. */
  function ApplicationChain(markers: seq<Interceptor>, globals: seq<Interceptor>,
                            formatter: Option<Interceptor>, retry: Interceptor): (r: seq<Interceptor>)
    ensures |r| == |markers| + |globals| + (if formatter.Some? then 1 else 0) + 1
    ensures r[..|markers|] == markers
    ensures r[|markers|..|markers| + |globals|] == globals
    ensures formatter.Some? ==> r[|markers| + |globals|] == formatter.value
    ensures r[|r| - 1] == retry
  {
    markers + globals + (if formatter.Some? then [formatter.value] else []) + [retry]
  }

  predicate LoggingEnabled(properties: RetrofitProperties, client: RetrofitClient) {
    properties.enableLog && client.enableLog
  }

  function LoggingInterceptorOf(properties: RetrofitProperties, client: RetrofitClient): Interceptor {
    Logging(properties.loggingInterceptor.className, client.logLevel, client.logStrategy)
  }

  /** The network-level chain: the logging interceptor when there is one,
      then the registered network interceptors in order. */
  function NetworkChain(logging: Option<Interceptor>, network: seq<Interceptor>): (r: seq<Interceptor>)
    ensures |r| == (if logging.Some? then 1 else 0) + |network|
    ensures logging.Some? ==> r[0] == logging.value && r[1..] == network
    ensures logging.None? ==> r == network
  {
    (if logging.Some? then [logging.value] else []) + network
  }

  /** The second half of getOkHttpClient, as a value: the chains added to a
      builder on `base`; only the logging interceptor's construction can fail. */
  function ChainsSpec(base: ClientBase, markers: seq<Interceptor>, config: RetrofitConfigBean,
                      client: RetrofitClient): Result<OkHttpClient, Error> {
    var props := config.properties;
    if LoggingEnabled(props, client) && !props.loggingInterceptor.constructible(client.logLevel, client.logStrategy) then
      Err(LoggingInstantiation(props.loggingInterceptor.className))
    else
      var logging := if LoggingEnabled(props, client) then Some(LoggingInterceptorOf(props, client)) else None;
      Ok(OkHttpClient(base,
                      ApplicationChain(markers, config.globalInterceptors, config.exceptionMessageFormatter, config.retryInterceptor),
                      NetworkChain(logging, config.networkInterceptors)))
  }

  /** getOkHttpClient, as a value: the base, then the marker interceptors,
      then the chains, each of which may fail. A builder method that returned
      null fails at the first use of the builder, after the markers. */
  function OkHttpClientSpec(iface: ServiceInterface, config: RetrofitConfigBean,
                            env: Environment, container: Container): Result<OkHttpClient, Error> {
    match SelectBase(iface, config.poolRegistry)
    case Err(e) => Err(e)
    case Ok(base) =>
      match MarkerInterceptors(iface.annotations, env, container)
      case Err(e) => Err(e)
      case Ok(markers) =>
        if base.CustomBuilder? && iface.methods[base.methodIndex].invocation.ReturnsNull? then
          Err(NullBuilder(base.methodIndex))
        else
          ChainsSpec(base, markers, config, iface.client)
  }

  /** interceptors.forEach(okHttpClientBuilder::addInterceptor) */
  method AddInterceptors(builder: OkHttpClientBuilder, xs: seq<Interceptor>)
    modifies builder
    ensures builder.interceptors == old(builder.interceptors) + xs
    ensures builder.base == old(builder.base) && builder.networkInterceptors == old(builder.networkInterceptors)
  {
    var i := 0;
    while i < |xs|
      invariant 0 <= i <= |xs|
      invariant builder.base == old(builder.base) && builder.networkInterceptors == old(builder.networkInterceptors)
      invariant builder.interceptors == old(builder.interceptors) + xs[..i]
    {
      builder.AddInterceptor(xs[i]);
      i := i + 1;
    }
    assert xs[..i] == xs;
  }

  /** The loop calling addNetworkInterceptor for each registered network interceptor. */
  method AddNetworkInterceptors(builder: OkHttpClientBuilder, xs: seq<Interceptor>)
    modifies builder
    ensures builder.networkInterceptors == old(builder.networkInterceptors) + xs
    ensures builder.base == old(builder.base) && builder.interceptors == old(builder.interceptors)
  {
    var i := 0;
    while i < |xs|
      invariant 0 <= i <= |xs|
      invariant builder.base == old(builder.base) && builder.interceptors == old(builder.interceptors)
      invariant builder.networkInterceptors == old(builder.networkInterceptors) + xs[..i]
    {
      builder.AddNetworkInterceptor(xs[i]);
      i := i + 1;
    }
    assert xs[..i] == xs;
  }

  /** The rest of getOkHttpClient: add the application-level then the
      network-level interceptors to a fresh builder, one call at a time. */
  method AddChains(builder: OkHttpClientBuilder, markers: seq<Interceptor>, config: RetrofitConfigBean,
                   client: RetrofitClient) returns (r: Result<OkHttpClient, Error>)
    requires builder.interceptors == [] && builder.networkInterceptors == []
    modifies builder
    ensures r == ChainsSpec(old(builder.base), markers, config, client)
  {
    var interceptors := markers;
    if |config.globalInterceptors| != 0 {
      interceptors := interceptors + config.globalInterceptors;
    }
    AddInterceptors(builder, interceptors);
    if config.exceptionMessageFormatter.Some? {
      builder.AddInterceptor(config.exceptionMessageFormatter.value);
    }
    builder.AddInterceptor(config.retryInterceptor);
    assert builder.interceptors
        == ApplicationChain(markers, config.globalInterceptors, config.exceptionMessageFormatter, config.retryInterceptor);

    var props := config.properties;
    if props.enableLog && client.enableLog {
      if !props.loggingInterceptor.constructible(client.logLevel, client.logStrategy) {
        return Err(LoggingInstantiation(props.loggingInterceptor.className));
      }
      builder.AddNetworkInterceptor(Logging(props.loggingInterceptor.className, client.logLevel, client.logStrategy));
    }
    ghost var logging := if LoggingEnabled(props, client) then Some(LoggingInterceptorOf(props, client)) else None;
    assert builder.networkInterceptors == NetworkChain(logging, []);
    AddNetworkInterceptors(builder, config.networkInterceptors);
    assert builder.networkInterceptors == NetworkChain(logging, config.networkInterceptors);
    r := Ok(builder.Build());
  }

  /** getOkHttpClient: make the builder by invoking the custom method or on
      the pool, resolve the marker interceptors, then add the chains. */
  method GetOkHttpClient(iface: ServiceInterface, config: RetrofitConfigBean, env: Environment, container: Container)
    returns (r: Result<OkHttpClient, Error>)
    ensures r == OkHttpClientSpec(iface, config, env, container)
  {
    var builderMethod := FindOkHttpClientBuilderMethod(iface.methods, 0);
    var builder: OkHttpClientBuilder?;
    var base: ClientBase;
    if builderMethod.Some? {
      var i := builderMethod.value;
      base := CustomBuilder(i);
      match iface.methods[i].invocation
      case Throws =>
        return Err(BuilderMethodThrew(i));
      case ReturnsNull =>
        builder := null;
      case ReturnsBuilder =>
        builder := new OkHttpClientBuilder(base);
    } else {
      var connectionPool := GetConnectionPool(config.poolRegistry, iface.client.poolName);
      if connectionPool.Err? {
        return Err(connectionPool.error);
      }
      base := Pooled(connectionPool.value, SettingsOf(iface.client));
      builder := new OkHttpClientBuilder(base);
    }
    assert SelectBase(iface, config.poolRegistry) == Ok(base);

    var markers := FindInterceptorByAnnotation(iface.annotations, env, container);
    if markers.Err? {
      return Err(markers.error);
    }
    if builder == null {
      return Err(NullBuilder(builderMethod.value));
    }
    r := AddChains(builder, markers.value, config, iface.client);
  }

  /** The application chain of a built client, in full: markers, globals,
      formatter if configured, retry last. */
  lemma ApplicationOrder(iface: ServiceInterface, config: RetrofitConfigBean, env: Environment, container: Container)
    requires OkHttpClientSpec(iface, config, env, container).Ok?
    ensures MarkerInterceptors(iface.annotations, env, container).Ok?
    ensures var c := OkHttpClientSpec(iface, config, env, container).value;
            var markers := MarkerInterceptors(iface.annotations, env, container).value;
            var f := config.exceptionMessageFormatter;
            && c.interceptors == markers + config.globalInterceptors
                                 + (if f.Some? then [f.value] else []) + [config.retryInterceptor]
            && |c.interceptors| == |markers| + |config.globalInterceptors| + (if f.Some? then 1 else 0) + 1
            && c.interceptors[|c.interceptors| - 1] == config.retryInterceptor
  {
  }

  /** The network chain of a built client: the logging interceptor exactly
      when logging is on both globally and for this interface, then the
      registered network interceptors. */
  lemma NetworkOrder(iface: ServiceInterface, config: RetrofitConfigBean, env: Environment, container: Container)
    requires OkHttpClientSpec(iface, config, env, container).Ok?
    ensures var c := OkHttpClientSpec(iface, config, env, container).value;
            var on := LoggingEnabled(config.properties, iface.client);
            && c.networkInterceptors
               == (if on then [LoggingInterceptorOf(config.properties, iface.client)] else []) + config.networkInterceptors
            && |c.networkInterceptors| == (if on then 1 else 0) + |config.networkInterceptors|
  {
  }

  /** The base of a built client is the custom builder when the interface has
      one, and the pool registry then plays no part in the outcome. */
  lemma CustomBuilderSkipsPoolLookup(iface: ServiceInterface, config: RetrofitConfigBean, env: Environment,
                                     container: Container, otherRegistry: Option<map<string, ConnectionPool>>)
    requires exists j :: 0 <= j < |iface.methods| && IsBuilderMethod(iface.methods[j])
    ensures OkHttpClientSpec(iface, config.(poolRegistry := otherRegistry), env, container)
            == OkHttpClientSpec(iface, config, env, container)
    ensures OkHttpClientSpec(iface, config, env, container).Ok?
            ==> OkHttpClientSpec(iface, config, env, container).value.base.CustomBuilder?
  {
    BuilderMethodBypassesPool(iface, config.poolRegistry, otherRegistry);
  }

  /** A builder method that throws fails the build before the pool or any
      interceptor is looked at; one that returns null fails it as soon as the
      marker interceptors are resolved, and before the logging interceptor is
      made. */
  lemma BuilderMethodFailures(iface: ServiceInterface, config: RetrofitConfigBean, env: Environment, container: Container)
    requires exists j :: 0 <= j < |iface.methods| && IsBuilderMethod(iface.methods[j])
    ensures FindOkHttpClientBuilderMethod(iface.methods, 0).Some?
    ensures var i := FindOkHttpClientBuilderMethod(iface.methods, 0).value;
            var markers := MarkerInterceptors(iface.annotations, env, container);
            && (iface.methods[i].invocation.Throws?
                ==> OkHttpClientSpec(iface, config, env, container) == Err(BuilderMethodThrew(i)))
            && (iface.methods[i].invocation.ReturnsNull?
                ==> OkHttpClientSpec(iface, config, env, container)
                    == if markers.Err? then Err(markers.error) else Err(NullBuilder(i)))
  {
    BuilderMethodBypassesPool(iface, config.poolRegistry, config.poolRegistry);
  }

  /** Without a builder method, a missing registry or pool name fails the
      build before any interceptor is resolved. */
  lemma MissingPoolFails(iface: ServiceInterface, config: RetrofitConfigBean, env: Environment, container: Container)
    requires forall j :: 0 <= j < |iface.methods| ==> !IsBuilderMethod(iface.methods[j])
    requires config.poolRegistry.None? || iface.client.poolName !in config.poolRegistry.value
    ensures OkHttpClientSpec(iface, config, env, container)
            == Err(if config.poolRegistry.None? then PoolRegistryMissing else PoolNotFound(iface.client.poolName))
  {
    NoBuilderMethodUsesPool(iface, config.poolRegistry);
  }

  /** The example chain: markers A and B, a global G, formatter F, retry R,
      logging L and a network interceptor N give [A, B, G, F, R] and [L, N]. */
  lemma ExampleChain(iface: ServiceInterface, config: RetrofitConfigBean, env: Environment, container: Container,
                     base: ClientBase, a: Interceptor, b: Interceptor, g: Interceptor, f: Interceptor, n: Interceptor)
    requires SelectBase(iface, config.poolRegistry) == Ok(base)
    requires base.CustomBuilder? ==> iface.methods[base.methodIndex].invocation.ReturnsBuilder?
    requires MarkerInterceptors(iface.annotations, env, container) == Ok([a, b])
    requires config.globalInterceptors == [g] && config.exceptionMessageFormatter == Some(f)
    requires config.networkInterceptors == [n]
    requires LoggingEnabled(config.properties, iface.client)
    requires config.properties.loggingInterceptor.constructible(iface.client.logLevel, iface.client.logStrategy)
    ensures OkHttpClientSpec(iface, config, env, container).Ok?
    ensures var c := OkHttpClientSpec(iface, config, env, container).value;
            && c.base == base
            && c.interceptors == [a, b, g, f, config.retryInterceptor]
            && c.networkInterceptors == [LoggingInterceptorOf(config.properties, iface.client), n]
  {
  }
}
