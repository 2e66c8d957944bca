/** The entities RetrofitFactoryBean works on, as plain values: the annotated
    service interface (its methods and class annotations), the @RetrofitClient
    descriptor, the configuration bean, the interceptors and factories it wires,
    the client it builds, and the errors that abort a build. */
module Types {

  datatype Option<+T> = None | Some(value: T)

  datatype Result<+T, +E> = Ok(value: T) | Err(error: E)

  /** The failures of a build. Each is fatal: nothing is returned. */
  datatype Error =
    | NotAnInterface
      // a method annotated with @OkHttpClientBuilder does not return OkHttpClient.Builder
    | BuilderWrongReturnType(methodIndex: nat)
      // a method annotated with @OkHttpClientBuilder is not static
    | BuilderNotStatic(methodIndex: nat)
      // a non-builder method returns primitive void
    | VoidReturnType(methodIndex: nat)
      // a non-builder method returns java.lang.Void while disableVoidReturnType is set
    | VoidReturnTypeDisabled(methodIndex: nat)
    | PoolRegistryMissing
    | PoolNotFound(poolName: string)
      // a marker annotation lacks one of handler, include, exclude
    | MissingMarkerAttribute(annotationType: string, attribute: string)
      // neither the container nor the no-argument constructor yields a handler
    | HandlerInstantiation(annotationType: string)
      // the resolved attributes cannot be set on the handler instance
    | AttributePopulation(annotationType: string)
      // the configured logging interceptor class has no usable (Level, LogStrategy) constructor
    | LoggingInstantiation(loggingClass: string)
      // a required placeholder of the base URL has no binding
    | UnresolvedPlaceholder(template: string)
      // invoking the interface's static builder method threw
    | BuilderMethodThrew(builderMethod: nat)
      // the interface's static builder method returned null, and the first
      // use of the builder dereferenced it
    | NullBuilder(builderMethod: nat)
      // Retrofit.Builder.baseUrl rejected the resolved base URL
    | InvalidBaseUrl(url: string)
  {
    /** The errors that point at one interface method. */
    predicate NamesMethod() {
      BuilderWrongReturnType? || BuilderNotStatic? || VoidReturnType? || VoidReturnTypeDisabled?
    }
  }

  /** The return type of an interface method, as far as validation distinguishes it. */
  datatype ReturnType = PrimitiveVoid | BoxedVoid | OkHttpClientBuilderType | OtherType

  /** What invoking a method as a static, no-argument method does: the
      factory invokes only the builder method it selects, so for every other
      method this is never consulted. */
  datatype Invocation = ReturnsBuilder | ReturnsNull | Throws

  datatype MethodInfo = MethodInfo(
    name: string,
    returnType: ReturnType,
    isStatic: bool,
    hasBuilderAnnotation: bool,
    invocation: Invocation)

  /** An annotation attribute value. Only `Str` is a java.lang.String; an array
      of strings (include, exclude) and a class reference (handler) are not. */
  datatype AttrValue =
    | Str(s: string)
    | StrArray(items: seq<string>)
    | TypeRef(className: string)
    | Num(n: int)
    | Flag(b: bool)

  /** A class annotation: its type, whether that type carries @InterceptMark,
      and its attribute map. */
  datatype Annotation = Annotation(
    annotationType: string,
    interceptMarked: bool,
    attributes: map<string, AttrValue>)

  /** org.slf4j.event.Level */
  datatype LogLevel = ERROR | WARN | INFO | DEBUG | TRACE

  /** BaseLoggingInterceptor.LogStrategy */
  datatype LogStrategy = NONE | BASIC | HEADERS | BODY

  /** The @RetrofitClient annotation on the interface. Integers are Java ints
      (milliseconds); they are copied, never computed with. */
  datatype RetrofitClient = RetrofitClient(
    baseUrl: string,
    poolName: string,
    connectTimeoutMs: int,
    readTimeoutMs: int,
    writeTimeoutMs: int,
    callTimeoutMs: int,
    retryOnConnectionFailure: bool,
    followRedirects: bool,
    followSslRedirects: bool,
    pingIntervalMs: int,
    enableLog: bool,
    logLevel: LogLevel,
    logStrategy: LogStrategy,
    validateEagerly: bool)

  /** The service interface: what reflection would report about it. */
  datatype ServiceInterface = ServiceInterface(
    name: string,
    isInterface: bool,
    methods: seq<MethodInfo>,
    annotations: seq<Annotation>,
    client: RetrofitClient)

  datatype ConnectionPool = ConnectionPool(id: string)

  /** An interceptor the factory places in a chain. `PathMatch` is a handler
      resolved from a marker annotation together with the attributes set on it;
      `Registered` is an instance supplied by the configuration bean (global,
      formatter, retry or network interceptor); `Logging` is built from the
      configured logging class and the descriptor's level and strategy. */
  datatype Interceptor =
    | PathMatch(handler: AttrValue, attributes: map<string, AttrValue>)
    | Registered(id: string)
    | Logging(loggingClass: string, level: LogLevel, strategy: LogStrategy)

  /** The configured logging interceptor class; `constructible(level, strategy)`
      says whether its (Level, LogStrategy) constructor exists and, invoked
      with these arguments, returns normally. */
  datatype LoggingClass = LoggingClass(className: string, constructible: (LogLevel, LogStrategy) -> bool)

  /** RetrofitProperties: the process-wide settings the factory reads. */
  datatype RetrofitProperties = RetrofitProperties(
    disableVoidReturnType: bool,
    enableLog: bool,
    loggingInterceptor: LoggingClass)

  datatype Factory = Factory(id: string)

  /** RetrofitConfigBean. A null collection is modelled as the empty sequence,
      which the factory treats the same way; a null registry is `None`. */
  datatype RetrofitConfigBean = RetrofitConfigBean(
    poolRegistry: Option<map<string, ConnectionPool>>,
    globalInterceptors: seq<Interceptor>,
    exceptionMessageFormatter: Option<Interceptor>,
    retryInterceptor: Interceptor,
    networkInterceptors: seq<Interceptor>,
    callAdapterFactories: seq<Factory>,
    converterFactories: seq<Factory>,
    properties: RetrofitProperties)

  /** The Spring Environment's two placeholder resolvers. The first is total
      (unresolvable tokens stay as they are); the second fails on a required
      token without a binding. */
  datatype Environment = Environment(
    resolvePlaceholders: string -> string,
    resolveRequiredPlaceholders: string -> Option<string>)

  /** The container-first, constructor-fallback instance provider, and the
      dynamic property setter, as the two questions the factory's outcome
      depends on: can an instance of this handler be obtained, and can these
      attributes be set on it. */
  datatype Container = Container(
    obtainable: AttrValue -> bool,
    populatable: (AttrValue, map<string, AttrValue>) -> bool)

  /** The settings copied from the descriptor onto a freshly made builder. */
  datatype ClientSettings = ClientSettings(
    connectTimeoutMs: int,
    readTimeoutMs: int,
    writeTimeoutMs: int,
    callTimeoutMs: int,
    retryOnConnectionFailure: bool,
    followRedirects: bool,
    followSslRedirects: bool,
    pingIntervalMs: int)

  /** Where the OkHttpClient.Builder comes from: the interface's own static
      builder method (by its index), or a new builder on a registered pool. */
  datatype ClientBase =
    | CustomBuilder(methodIndex: nat)
    | Pooled(pool: ConnectionPool, settings: ClientSettings)

  /** The OkHttpClient that build() yields: its base and its two chains. */
  datatype OkHttpClient = OkHttpClient(
    base: ClientBase,
    interceptors: seq<Interceptor>,
    networkInterceptors: seq<Interceptor>)

  datatype Retrofit = Retrofit(
    baseUrl: string,
    validateEagerly: bool,
    client: OkHttpClient,
    callAdapterFactories: seq<Factory>,
    converterFactories: seq<Factory>)

  /** What getObject returns: the proxy that retrofit.create binds to the interface. */
  datatype ServiceProxy = ServiceProxy(interfaceName: string, retrofit: Retrofit)
}
