/** getRetrofit and getObject: resolve the base URL, build the OkHttpClient,
    attach the registered call-adapter and converter factories, and bind the
    result to the interface, after the interface has passed validation. */
module RetrofitFactory {
  import opened Types
  import Validation
  import opened BaseSelection
  import opened ClientChain

  /** Retrofit.Builder, as far as the factory uses it. */
  class RetrofitBuilder {
    var baseUrl: string
    var validateEagerly: bool
    var client: OkHttpClient
    var callAdapterFactories: seq<Factory>
    var converterFactories: seq<Factory>

    /** new Retrofit.Builder().baseUrl(..).validateEagerly(..).client(..) */
    constructor (baseUrl: string, validateEagerly: bool, client: OkHttpClient)
      ensures this.baseUrl == baseUrl && this.validateEagerly == validateEagerly && this.client == client
      ensures callAdapterFactories == [] && converterFactories == []
    {
      this.baseUrl := baseUrl;
      this.validateEagerly := validateEagerly;
      this.client := client;
      callAdapterFactories := [];
      converterFactories := [];
    }

    method AddCallAdapterFactory(f: Factory)
      modifies this
      ensures callAdapterFactories == old(callAdapterFactories) + [f]
      ensures converterFactories == old(converterFactories)
      ensures baseUrl == old(baseUrl) && validateEagerly == old(validateEagerly) && client == old(client)
    {
      callAdapterFactories := callAdapterFactories + [f];
    }

    method AddConverterFactory(f: Factory)
      modifies this
      ensures converterFactories == old(converterFactories) + [f]
      ensures callAdapterFactories == old(callAdapterFactories)
      ensures baseUrl == old(baseUrl) && validateEagerly == old(validateEagerly) && client == old(client)
    {
      converterFactories := converterFactories + [f];
    }

    function Build(): Retrofit
      reads this
    {
      Retrofit(baseUrl, validateEagerly, client, callAdapterFactories, converterFactories)
    }
  }

  /** getRetrofit, as a value: the base URL is resolved first, and its failure
      aborts before the client is built; once the client is built,
      Retrofit.Builder.baseUrl may still reject the resolved URL.
      `acceptsBaseUrl` is that library check (the string parses as an http or
      https URL whose path ends in "/"), left abstract. */
  function RetrofitSpec(iface: ServiceInterface, config: RetrofitConfigBean, env: Environment,
                        container: Container, acceptsBaseUrl: string -> bool): Result<Retrofit, Error> {
    match env.resolveRequiredPlaceholders(iface.client.baseUrl)
    case None => Err(UnresolvedPlaceholder(iface.client.baseUrl))
    case Some(baseUrl) =>
      match OkHttpClientSpec(iface, config, env, container)
      case Err(e) => Err(e)
      case Ok(client) =>
        if !acceptsBaseUrl(baseUrl) then Err(InvalidBaseUrl(baseUrl))
        else
          Ok(Retrofit(baseUrl, iface.client.validateEagerly, client,
                      config.callAdapterFactories, config.converterFactories))
  }

  /** getObject, as a value: validation, then getRetrofit, then the proxy. */
  function ObjectSpec(iface: ServiceInterface, config: RetrofitConfigBean, env: Environment,
                      container: Container, acceptsBaseUrl: string -> bool): Result<ServiceProxy, Error> {
    match Validation.CheckRetrofitInterface(iface, config.properties.disableVoidReturnType)
    case Some(e) => Err(e)
    case None =>
      match RetrofitSpec(iface, config, env, container, acceptsBaseUrl)
      case Err(e) => Err(e)
      case Ok(retrofit) => Ok(ServiceProxy(iface.name, retrofit))
  }

  /** getRetrofit: resolve the base URL, build the client, then add the
      call-adapter factories and after them the converter factories, each in
      registration order. */
  method GetRetrofit(iface: ServiceInterface, config: RetrofitConfigBean, env: Environment, container: Container,
                     acceptsBaseUrl: string -> bool)
    returns (r: Result<Retrofit, Error>)
    ensures r == RetrofitSpec(iface, config, env, container, acceptsBaseUrl)
  {
    var baseUrl := env.resolveRequiredPlaceholders(iface.client.baseUrl);
    if baseUrl.None? {
      return Err(UnresolvedPlaceholder(iface.client.baseUrl));
    }
    var client := GetOkHttpClient(iface, config, env, container);
    if client.Err? {
      return Err(client.error);
    }
    if !acceptsBaseUrl(baseUrl.value) {
      return Err(InvalidBaseUrl(baseUrl.value));
    }
    var builder := new RetrofitBuilder(baseUrl.value, iface.client.validateEagerly, client.value);

    var callAdapterFactories := config.callAdapterFactories;
    var i := 0;
    while i < |callAdapterFactories|
      invariant 0 <= i <= |callAdapterFactories|
      invariant builder.baseUrl == baseUrl.value && builder.validateEagerly == iface.client.validateEagerly
      invariant builder.client == client.value && builder.converterFactories == []
      invariant builder.callAdapterFactories == callAdapterFactories[..i]
    {
      builder.AddCallAdapterFactory(callAdapterFactories[i]);
      i := i + 1;
    }
    assert callAdapterFactories[..i] == callAdapterFactories;

    var converterFactories := config.converterFactories;
    var j := 0;
    while j < |converterFactories|
      invariant 0 <= j <= |converterFactories|
      invariant builder.baseUrl == baseUrl.value && builder.validateEagerly == iface.client.validateEagerly
      invariant builder.client == client.value && builder.callAdapterFactories == callAdapterFactories
      invariant builder.converterFactories == converterFactories[..j]
    {
      builder.AddConverterFactory(converterFactories[j]);
      j := j + 1;
    }
    assert converterFactories[..j] == converterFactories;
    r := Ok(builder.Build());
  }

  /** getObject: validate, then build; retrofit.create is the binding of the
      built Retrofit to the interface. */
  method GetObject(iface: ServiceInterface, config: RetrofitConfigBean, env: Environment, container: Container,
                   acceptsBaseUrl: string -> bool)
    returns (r: Result<ServiceProxy, Error>)
    ensures r == ObjectSpec(iface, config, env, container, acceptsBaseUrl)
  {
    var check := Validation.CheckRetrofitInterface(iface, config.properties.disableVoidReturnType);
    if check.Some? {
      return Err(check.value);
    }
    var retrofit := GetRetrofit(iface, config, env, container, acceptsBaseUrl);
    if retrofit.Err? {
      return Err(retrofit.error);
    }
    r := Ok(ServiceProxy(iface.name, retrofit.value));
  }

  /** A built Retrofit carries the resolved, accepted base URL, the
      descriptor's eager-validation flag, and exactly the registered factories
      in registration order; an unresolvable base URL aborts the build before
      the client, a rejected one after it. */
  lemma RetrofitAssembly(iface: ServiceInterface, config: RetrofitConfigBean, env: Environment, container: Container,
                         acceptsBaseUrl: string -> bool)
    ensures env.resolveRequiredPlaceholders(iface.client.baseUrl).None?
            ==> RetrofitSpec(iface, config, env, container, acceptsBaseUrl) == Err(UnresolvedPlaceholder(iface.client.baseUrl))
    ensures var u := env.resolveRequiredPlaceholders(iface.client.baseUrl);
            u.Some? && OkHttpClientSpec(iface, config, env, container).Err?
            ==> RetrofitSpec(iface, config, env, container, acceptsBaseUrl)
                == Err(OkHttpClientSpec(iface, config, env, container).error)
    ensures var u := env.resolveRequiredPlaceholders(iface.client.baseUrl);
            u.Some? && OkHttpClientSpec(iface, config, env, container).Ok? && !acceptsBaseUrl(u.value)
            ==> RetrofitSpec(iface, config, env, container, acceptsBaseUrl) == Err(InvalidBaseUrl(u.value))
    ensures RetrofitSpec(iface, config, env, container, acceptsBaseUrl).Ok? ==>
            var rf := RetrofitSpec(iface, config, env, container, acceptsBaseUrl).value;
            && env.resolveRequiredPlaceholders(iface.client.baseUrl) == Some(rf.baseUrl)
            && acceptsBaseUrl(rf.baseUrl)
            && rf.validateEagerly == iface.client.validateEagerly
            && OkHttpClientSpec(iface, config, env, container) == Ok(rf.client)
            && rf.callAdapterFactories == config.callAdapterFactories
            && rf.converterFactories == config.converterFactories
  {
  }

  /** getObject succeeds exactly when the interface is valid, its base URL
      resolves to a URL Retrofit accepts and its client can be built;
      validation errors come first. */
  lemma ObjectOutcome(iface: ServiceInterface, config: RetrofitConfigBean, env: Environment, container: Container,
                      acceptsBaseUrl: string -> bool)
    ensures var d := config.properties.disableVoidReturnType;
            var u := env.resolveRequiredPlaceholders(iface.client.baseUrl);
            && (Validation.CheckRetrofitInterface(iface, d).Some?
                ==> ObjectSpec(iface, config, env, container, acceptsBaseUrl)
                    == Err(Validation.CheckRetrofitInterface(iface, d).value))
            && (ObjectSpec(iface, config, env, container, acceptsBaseUrl).Ok?
                <==> Validation.InterfaceAllowed(iface, d)
                     && u.Some? && acceptsBaseUrl(u.value)
                     && OkHttpClientSpec(iface, config, env, container).Ok?)
  {
    Validation.ValidationPassesIff(iface, config.properties.disableVoidReturnType);
  }

  /** For an interface with a method annotated @OkHttpClientBuilder, the
      outcome of getObject does not depend on the pool registry at all, and a
      built proxy's client is based on the custom builder. */
  lemma AnnotatedBuilderMakesPoolIrrelevant(iface: ServiceInterface, config: RetrofitConfigBean, env: Environment,
                                            container: Container, acceptsBaseUrl: string -> bool,
                                            otherRegistry: Option<map<string, ConnectionPool>>, j: nat)
    requires j < |iface.methods| && iface.methods[j].hasBuilderAnnotation
    ensures ObjectSpec(iface, config.(poolRegistry := otherRegistry), env, container, acceptsBaseUrl)
            == ObjectSpec(iface, config, env, container, acceptsBaseUrl)
    ensures ObjectSpec(iface, config, env, container, acceptsBaseUrl).Ok?
            ==> ObjectSpec(iface, config, env, container, acceptsBaseUrl).value.retrofit.client.base.CustomBuilder?
  {
    var d := config.properties.disableVoidReturnType;
    if Validation.CheckRetrofitInterface(iface, d).None? {
      Validation.ValidationPassesIff(iface, d);
      assert Validation.MethodAllowed(iface.methods[j], d);
      assert IsBuilderMethod(iface.methods[j]);
      CustomBuilderSkipsPoolLookup(iface, config, env, container, otherRegistry);
    }
  }

  /** A built proxy's client has the retry interceptor last in its
      application chain, and its network chain starts with logging exactly
      when logging is on both globally and for this interface. */
  lemma BuiltChainsShape(iface: ServiceInterface, config: RetrofitConfigBean, env: Environment, container: Container,
                         acceptsBaseUrl: string -> bool)
    requires ObjectSpec(iface, config, env, container, acceptsBaseUrl).Ok?
    ensures var c := ObjectSpec(iface, config, env, container, acceptsBaseUrl).value.retrofit.client;
            && |c.interceptors| >= 1
            && c.interceptors[|c.interceptors| - 1] == config.retryInterceptor
            && c.networkInterceptors
               == (if LoggingEnabled(config.properties, iface.client)
                   then [LoggingInterceptorOf(config.properties, iface.client)] else [])
                  + config.networkInterceptors
  {
    ApplicationOrder(iface, config, env, container);
    NetworkOrder(iface, config, env, container);
  }
}
