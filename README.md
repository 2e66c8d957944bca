# RetrofitFactoryBean, modelled in Dafny

This project models the client-construction core of retrofit-spring-boot-starter,
the class `RetrofitFactoryBean`. Given an interface annotated with `@RetrofitClient`,
the class builds an HTTP client for it. Its `getObject` does four things in order:

1. It validates the interface's shape. This is `checkRetrofitInterface`.
2. It resolves the base URL through the Spring `Environment`.
3. It builds one `OkHttpClient`. The builder comes either from a static
   `@OkHttpClientBuilder` method on the interface or from a named connection pool.
   The builder then gets an application-level chain of interceptors and a
   network-level chain. The application chain is: marker interceptors, global
   interceptors, the exception-message formatter, and the retry interceptor.
   The network chain is: the logging interceptor, then the registered network
   interceptors.
4. It attaches the registered call-adapter factories and then the converter
   factories to a `Retrofit.Builder`, and binds the result to the interface.

Reflection, Spring and the OkHttp/Retrofit libraries are replaced by plain values:

- An interface description has an interface flag, a method list and an annotation list.
- Each annotation has an attribute map.
- The configuration bean and the properties are records.
- Two environment functions stand for the placeholder resolvers.
  `resolvePlaceholders` is modelled as total. `resolveRequiredPlaceholders` may fail.
- Invoking the static builder method has three outcomes: it returns a builder,
  returns null, or throws.
- A predicate `acceptsBaseUrl` stands for the check that `Retrofit.Builder.baseUrl`
  makes on the resolved URL.
- A container record answers two questions: can the handler instance be
  obtained, and can the attributes be set on it.

Modules, leaves first:

- `Types` (types.dfy): the data model and the `Error` datatype. Every `Assert`
  in the source becomes an `Error` constructor.
- `Validation` (validation.dfy): `checkRetrofitInterface`.
- `BaseSelection` (base_selection.dfy): `findOkHttpClientBuilderMethod`,
  `getConnectionPool`, and the choice between the custom builder and the pool.
- `MarkerResolution` (marker_resolution.dfy): `findInterceptorByAnnotation`,
  including the placeholder resolution of attribute maps.
- `ClientChain` (client_chain.dfy): `getOkHttpClient`, with a builder class
  whose methods append to its interceptor lists.
- `RetrofitFactory` (retrofit_factory.dfy): `getRetrofit` and `getObject`.

Style of the model:

- Code that only checks or searches is written as functions. This covers the
  validator, the finder and the pool lookup.
- Code that fills lists and maps in loops is written as methods with loops. This
  covers `getOkHttpClient`, `findInterceptorByAnnotation`, the attribute `forEach`
  and `getRetrofit`.
- Each such method is proved equal to a specification function
  (`OkHttpClientSpec`, `MarkerInterceptors`, `ResolvedAttributes`, `RetrofitSpec`,
  `ObjectSpec`). `OkHttpClientSpec` is built from `SelectBase` (the choice of
  builder) and `MarkerInterceptors` is built from `ResolveMarkers` (the second
  loop). The lemmas state the source's promises about those functions.

Two points about the code:

- The class has no build-once cache of its own. Single construction per interface
  comes from `isSingleton()` returning true and from Spring's caching, so nothing
  is memoized here.
- A marker's attributes are placeholder-resolved only when they are a
  `java.lang.String`. `include` and `exclude` are `String[]`, so they pass
  through unresolved.

## Model

| member | source | states |
|---|---|---|
| Validation.MethodViolation | src/main/java/com/github/lianjiatech/retrofit/spring/boot/core/RetrofitFactoryBean.java:73-85 | A method raises no error exactly when it meets the declarative rule `MethodAllowed`. A raised error names that method. Each failing assertion has its own error. A builder-annotated method with the wrong return type fails on the return type, checked first. A builder-annotated method that is not static fails with `BuilderNotStatic`. A non-builder method returning `void` fails with `VoidReturnType`. A non-builder method returning `Void` while the flag is set fails with `VoidReturnTypeDisabled`. |
| Validation.CheckMethods | src/main/java/com/github/lianjiatech/retrofit/spring/boot/core/RetrofitFactoryBean.java:70-86 | The loop over methods passes exactly when every method is allowed. Otherwise its error is the violation of some method, and every earlier method is allowed. |
| Validation.CheckRetrofitInterface | src/main/java/com/github/lianjiatech/retrofit/spring/boot/core/RetrofitFactoryBean.java:67-69 | A type that is not an interface fails with `NotAnInterface`, before any method is looked at. |
| Validation.ValidationPassesIff | src/main/java/com/github/lianjiatech/retrofit/spring/boot/core/RetrofitFactoryBean.java:67-86 | Validation passes if and only if the type is an interface and no method breaks a rule. |
| Validation.ValidationFailsAtFirstViolation | src/main/java/com/github/lianjiatech/retrofit/spring/boot/core/RetrofitFactoryBean.java:71-86 | On an interface, a failure names the first method that breaks a rule. |
| Validation.PrimitiveVoidRejected | src/main/java/com/github/lianjiatech/retrofit/spring/boot/core/RetrofitFactoryBean.java:80-81 | A non-builder method returning primitive `void` makes validation fail, whatever the flag says. |
| Validation.BuilderMethodRules | src/main/java/com/github/lianjiatech/retrofit/spring/boot/core/RetrofitFactoryBean.java:74-78 | A builder-annotated method is allowed if and only if it is static and returns `OkHttpClient.Builder`, so it is exempt from the void rules. A wrongly shaped one fails validation. |
| Validation.DisablingVoid | src/main/java/com/github/lianjiatech/retrofit/spring/boot/core/RetrofitFactoryBean.java:82-85 | Take an interface that passes with `disableVoidReturnType` unset. Setting the flag makes it fail exactly when some non-builder method returns `Void`. |
| Validation.DisablingVoidOnlyRestricts | src/main/java/com/github/lianjiatech/retrofit/spring/boot/core/RetrofitFactoryBean.java:82-85 | Passing with the flag set implies passing with it unset. |
| BaseSelection.FindOkHttpClientBuilderMethod | src/main/java/com/github/lianjiatech/retrofit/spring/boot/core/RetrofitFactoryBean.java:182-192 | First-match search: a returned index is static, annotated and returns the builder type, and no earlier method qualifies. Null is returned if and only if no method qualifies. |
| BaseSelection.GetConnectionPool | src/main/java/com/github/lianjiatech/retrofit/spring/boot/core/RetrofitFactoryBean.java:108-116 | Fails with `PoolRegistryMissing` when the registry is null. Fails with `PoolNotFound(name)` when the name is not a key. Succeeds if and only if the name is a key, and then yields exactly `registry[name]`. |
| BaseSelection.SelectBase | src/main/java/com/github/lianjiatech/retrofit/spring/boot/core/RetrofitFactoryBean.java:126-144 | The custom base chosen by the first half of `getOkHttpClient` always names a method of the interface that passes the finder's test (static, annotated, returning the builder type). |
| BaseSelection.BuilderMethodBypassesPool | src/main/java/com/github/lianjiatech/retrofit/spring/boot/core/RetrofitFactoryBean.java:127-131 | When a qualifying builder method exists, any two registries give the same outcome, because the registry is never looked up. The outcome is the first qualifying method as the custom builder, or `BuilderMethodThrew` for that method when invoking it throws. |
| BaseSelection.NoBuilderMethodUsesPool | src/main/java/com/github/lianjiatech/retrofit/spring/boot/core/RetrofitFactoryBean.java:131-143 | Without a builder method, a missing registry or name fails. Otherwise the base is the registered pool with the descriptor's timeouts and flags. |
| BaseSelection.ValidatedFinderPicksFirstAnnotated | src/main/java/com/github/lianjiatech/retrofit/spring/boot/core/RetrofitFactoryBean.java:182-192 | After validation passes, the finder returns the first `@OkHttpClientBuilder`-annotated method. It returns null if and only if no method is annotated. |
| MarkerResolution.ResolvedAttributes | src/main/java/com/github/lianjiatech/retrofit/spring/boot/core/RetrofitFactoryBean.java:222-231 | The resolved map has the same key set as the original. String values become `resolvePlaceholders(value)`. Every other value is unchanged. |
| MarkerResolution.ResolveAttributes | src/main/java/com/github/lianjiatech/retrofit/spring/boot/core/RetrofitFactoryBean.java:224-231 | The `forEach` that fills a new map entry by entry produces exactly `ResolvedAttributes`, whatever order the keys are visited in. |
| MarkerResolution.InterceptMarked | src/main/java/com/github/lianjiatech/retrofit/spring/boot/core/RetrofitFactoryBean.java:206-212 | The filter keeps only annotations whose type carries `@InterceptMark`, and it is no longer than its input. |
| MarkerResolution.InterceptMarkedCorrespondence | src/main/java/com/github/lianjiatech/retrofit/spring/boot/core/RetrofitFactoryBean.java:206-212 | The filter's k-th element is the annotation at the k-th marked position. Positions strictly increase. A position is listed if and only if its annotation is a marker. |
| MarkerResolution.InterceptMarkedAppend | src/main/java/com/github/lianjiatech/retrofit/spring/boot/core/RetrofitFactoryBean.java:207-212 | The filter distributes over concatenation, so declared order is preserved. |
| MarkerResolution.ResolveMarker | src/main/java/com/github/lianjiatech/retrofit/spring/boot/core/RetrofitFactoryBean.java:215-234 | Missing `handler`, `include` or `exclude` fails with that attribute's name, checked in that order. Success occurs if and only if all three are present, the handler instance can be obtained, and the resolved attributes can be set on it. The result is the handler with the resolved map. |
| MarkerResolution.ResolveMarkersOk | src/main/java/com/github/lianjiatech/retrofit/spring/boot/core/RetrofitFactoryBean.java:213-236 | The second loop succeeds if and only if every marker resolves. It then yields one interceptor per marker, in marker order. |
| MarkerResolution.ResolveMarkersFirstError | src/main/java/com/github/lianjiatech/retrofit/spring/boot/core/RetrofitFactoryBean.java:213-236 | A failing loop reports the error of the first marker that fails. All markers before it resolve. |
| MarkerResolution.ResolveMarkersStopsAt | src/main/java/com/github/lianjiatech/retrofit/spring/boot/core/RetrofitFactoryBean.java:216-219 | If every marker before position j resolves and marker j fails, the whole resolution fails with marker j's error. |
| MarkerResolution.MarkerInterceptorsCorrespondence | src/main/java/com/github/lianjiatech/retrofit/spring/boot/core/RetrofitFactoryBean.java:203-236 | The resolved interceptors match the `@InterceptMark` annotations one to one, in declared order. Each carries its marker's handler and its placeholder-resolved attributes. |
| MarkerResolution.MissingAttributeAborts | src/main/java/com/github/lianjiatech/retrofit/spring/boot/core/RetrofitFactoryBean.java:216-219 | A marker missing `handler`, `include` or `exclude` aborts resolution. |
| MarkerResolution.UnmarkedIgnored | src/main/java/com/github/lianjiatech/retrofit/spring/boot/core/RetrofitFactoryBean.java:207-212 | Inserting an annotation whose type is not a marker anywhere in the list leaves the outcome unchanged. |
| MarkerResolution.FindInterceptorByAnnotation | src/main/java/com/github/lianjiatech/retrofit/spring/boot/core/RetrofitFactoryBean.java:202-237 | The two imperative loops, with an early return on the first failed check, compute exactly `MarkerInterceptors`. |
| ClientChain.OkHttpClientBuilder.constructor | src/main/java/com/github/lianjiatech/retrofit/spring/boot/core/RetrofitFactoryBean.java:128-144 | A new builder holds the chosen base and two empty interceptor lists. |
| ClientChain.OkHttpClientBuilder.AddInterceptor | src/main/java/com/github/lianjiatech/retrofit/spring/boot/core/RetrofitFactoryBean.java:157 | `addInterceptor` appends to the application list and changes nothing else. |
| ClientChain.OkHttpClientBuilder.AddNetworkInterceptor | src/main/java/com/github/lianjiatech/retrofit/spring/boot/core/RetrofitFactoryBean.java:169 | `addNetworkInterceptor` appends to the network list and changes nothing else. |
| ClientChain.AddInterceptors | src/main/java/com/github/lianjiatech/retrofit/spring/boot/core/RetrofitFactoryBean.java:152 | The `forEach(addInterceptor)` appends the whole sequence in order. |
| ClientChain.AddNetworkInterceptors | src/main/java/com/github/lianjiatech/retrofit/spring/boot/core/RetrofitFactoryBean.java:172-177 | The loop over the registered network interceptors appends them all in order. |
| ClientChain.AddChains | src/main/java/com/github/lianjiatech/retrofit/spring/boot/core/RetrofitFactoryBean.java:145-179 | Adding the application-level and then the network-level interceptors to a fresh builder yields exactly `ChainsSpec`. The only failure is logging switched on while the logging class cannot be constructed with the descriptor's level and strategy. |
| ClientChain.ApplicationChain | src/main/java/com/github/lianjiatech/retrofit/spring/boot/core/RetrofitFactoryBean.java:145-162 | Positions in the chain: the markers occupy the prefix, the globals follow, then the formatter if configured. The retry interceptor is last. The length is the sum of these parts. |
| ClientChain.NetworkChain | src/main/java/com/github/lianjiatech/retrofit/spring/boot/core/RetrofitFactoryBean.java:164-177 | The length is `(logging ? 1 : 0) + |network|`. Logging, when present, is first and the rest is the network list. Without logging, the chain is the network list. |
| ClientChain.GetOkHttpClient | src/main/java/com/github/lianjiatech/retrofit/spring/boot/core/RetrofitFactoryBean.java:125-180 | The step-by-step builder calls compute exactly `OkHttpClientSpec`. The order of failures is: a throwing builder method or a pool error, then a marker error, then a null builder, then a logging-construction error. On success both chains are in order. |
| ClientChain.ApplicationOrder | src/main/java/com/github/lianjiatech/retrofit/spring/boot/core/RetrofitFactoryBean.java:145-162 | A built client's application chain is exactly markers + globals + [formatter if non-null] + [retry], so retry is always present and last. |
| ClientChain.NetworkOrder | src/main/java/com/github/lianjiatech/retrofit/spring/boot/core/RetrofitFactoryBean.java:164-177 | A built client's network chain starts with the logging interceptor if and only if both `enableLog` flags are true. The registered network interceptors follow. The length is stated. |
| ClientChain.CustomBuilderSkipsPoolLookup | src/main/java/com/github/lianjiatech/retrofit/spring/boot/core/RetrofitFactoryBean.java:127-132 | With a qualifying builder method, replacing the pool registry does not change the outcome of `getOkHttpClient`, and a built client's base is the custom builder. |
| ClientChain.BuilderMethodFailures | src/main/java/com/github/lianjiatech/retrofit/spring/boot/core/RetrofitFactoryBean.java:128-152 | A builder method that throws fails `getOkHttpClient` with `BuilderMethodThrew`, before the pool or any marker is looked at. One that returns null fails with `NullBuilder` at the first use of the builder: after the markers are resolved, so a marker error comes first, and before logging is set up. |
| ClientChain.MissingPoolFails | src/main/java/com/github/lianjiatech/retrofit/spring/boot/core/RetrofitFactoryBean.java:108-116 | Without a builder method, a null registry or an unknown pool name fails the client build with that error, before markers are resolved. |
| ClientChain.ExampleChain | src/main/java/com/github/lianjiatech/retrofit/spring/boot/core/RetrofitFactoryBean.java:145-177 | Take a usable base, markers A and B, global G, formatter F, retry R, enabled and constructible logging L and network interceptor N. Then the client has that base and the chains are [A, B, G, F, R] and [L, N]. |
| RetrofitFactory.RetrofitBuilder.constructor | src/main/java/com/github/lianjiatech/retrofit/spring/boot/core/RetrofitFactoryBean.java:268-271 | The new Retrofit builder holds the base URL, the eager-validation flag and the client, with no factories yet. |
| RetrofitFactory.RetrofitBuilder.AddCallAdapterFactory | src/main/java/com/github/lianjiatech/retrofit/spring/boot/core/RetrofitFactoryBean.java:275 | Appends one call-adapter factory and changes nothing else. |
| RetrofitFactory.RetrofitBuilder.AddConverterFactory | src/main/java/com/github/lianjiatech/retrofit/spring/boot/core/RetrofitFactoryBean.java:280 | Appends one converter factory and changes nothing else. |
| RetrofitFactory.GetRetrofit | src/main/java/com/github/lianjiatech/retrofit/spring/boot/core/RetrofitFactoryBean.java:262-283 | The method computes exactly `RetrofitSpec`. The base URL is resolved before the client is built, and `baseUrl` may reject it after the client is built. Call-adapter factories are added in registration order, then converter factories in registration order. |
| RetrofitFactory.GetObject | src/main/java/com/github/lianjiatech/retrofit/spring/boot/core/RetrofitFactoryBean.java:56-60 | The method computes exactly `ObjectSpec`: validation, then the build, then the binding to the interface. |
| RetrofitFactory.RetrofitAssembly | src/main/java/com/github/lianjiatech/retrofit/spring/boot/core/RetrofitFactoryBean.java:264-282 | An unresolvable base URL aborts with `UnresolvedPlaceholder`. Otherwise a client error is passed on, and then a rejected URL fails with `InvalidBaseUrl`. A built Retrofit carries the resolved and accepted URL, the eager-validation flag, the built client and exactly the registered factory lists in order. |
| RetrofitFactory.ObjectOutcome | src/main/java/com/github/lianjiatech/retrofit/spring/boot/core/RetrofitFactoryBean.java:56-60 | A validation error is returned as is. `getObject` succeeds if and only if the interface is valid, its base URL resolves to a URL Retrofit accepts, and its client builds. |
| RetrofitFactory.AnnotatedBuilderMakesPoolIrrelevant | src/main/java/com/github/lianjiatech/retrofit/spring/boot/core/RetrofitFactoryBean.java:125-132 | For an interface with an `@OkHttpClientBuilder`-annotated method, the outcome of `getObject` does not depend on the pool registry. Every proxy it returns has a client based on the custom builder. |
| RetrofitFactory.BuiltChainsShape | src/main/java/com/github/lianjiatech/retrofit/spring/boot/core/RetrofitFactoryBean.java:145-177 | In every proxy `getObject` returns, the retry interceptor is last in the application chain, and the network chain is the logging interceptor (if both flags are on) followed by the registered network interceptors. |

## Left out

- Spring wiring is left out. This covers the constructor, `getObjectType`,
  `isSingleton`, `setEnvironment` and `setApplicationContext` (lines 50-52, 90-99,
  286-296). The fields those setters fill become parameters of the modelled operations.
- `getInterceptorInstance` (lines 245-253), container lookup with constructor
  fallback, is a foreign call. It is reduced to the predicate `Container.obtainable`.
- `BeanExtendUtils.populate` (dynamic property setting) is a foreign call. It is
  reduced to the predicate `Container.populatable`.
- The builder returned by `method.invoke(null)` is user code. The model records
  which method supplied it (`CustomBuilder(index)`), whether the call returned a
  builder, returned null or threw, and only the interceptors the factory appends. Interceptors already on that builder are not modelled; in the
  real client they come before the appended ones.
- The timeouts and flags of a pool-based builder are copied into `ClientSettings`.
  The builder's own checks on them are OkHttp internals and are not modelled
  (OkHttp rejects negative durations).
- `build()` and `retrofit.create` are library behaviour, and so is the dynamic
  proxy. `ServiceProxy` stands for the binding of the built `Retrofit` to the
  interface.
- RetrofitFactory.RetrofitAssembly: states the factory lists as the factory
  registers them, not as a built `Retrofit` reports them. `Retrofit.build()`
  appends its default call-adapter factories. It puts its built-in converter
  factory before the registered converter factories and the platform's default
  converters after them, so a registered converter cannot override the built-in
  one. None of these defaults is modelled.
- Eager validation is only copied as a flag. Checking the endpoints is Retrofit's work.
- `resolvePlaceholders` and `resolveRequiredPlaceholders` are abstract functions.
  No `${...}` syntax is modelled.
- `acceptsBaseUrl` is abstract. Retrofit's URL parsing and its trailing-`/` rule
  are library code.
- The logging interceptor's constructor is user code. The model records only
  whether it exists and returns normally for the given level and strategy
  (`LoggingClass.constructible`).
- MarkerResolution.MarkerInterceptorsCorrespondence: treats every obtained
  handler as a fresh instance. A handler that the container supplies is
  usually a shared singleton, and `populate` sets its attributes in place. So
  two markers, or two interfaces, that name the same handler class share one
  object, and the last `populate` decides its attributes. The model gives each
  marker its own `PathMatch` value with that marker's attributes.
- RetrofitFactory.ObjectOutcome: treats `resolvePlaceholders` as total. Spring's
  resolver throws on a circular placeholder reference, so a marker attribute
  with one would abort the build. In the model it resolves to some string.
  `resolveRequiredPlaceholders` may fail, and a circular base URL is one of
  those failures.
- The `synchronized` modifiers (lines 108, 125, 262) are a concurrency concern and
  are not modelled. The once-per-interface guarantee comes from Spring's singleton
  caching, not from this class, so it is not modelled either.
- Error messages are not modelled. Each failing `Assert` and each reflective
  exception is one `Error` constructor.
- Java inputs that cannot arise in this model are not modelled:
  - an interface without `@RetrofitClient` (a null pointer in the source);
  - a registry entry whose value is null (it would fail like a missing name);
  - a null retry interceptor (OkHttp rejects it).
- Java `null` collections are represented as empty sequences, which the source
  treats the same way (`CollectionUtils.isEmpty`).
- `getMethods()` returns methods in no order that Java specifies. The model takes
  the method list in whatever order it is given.
