# HK2VerticleLoader, modelled in Dafny

`HK2VerticleLoader` is a Vert.x verticle that stands in for a "real" verticle.
On `start` it resolves the real verticle's class. A name ending in `.java` is
compiled first, and any other name is loaded directly. It reads the binder
names configured under `hk2_binder` (absent, one name, or an array of names)
and loads each name from the class loader. A name whose class is missing or
is not a `Binder` is logged and skipped. The framework binder `HK2VertxBinder`
is put first. All binders go into a freshly created, uncached HK2 service
locator, and the locator creates the real verticle with its dependencies
injected. The loader then calls `init` on the real verticle and forwards
`start` with the same future. On `stop` it drops the class loader, destroys
and drops the locator, and forwards `stop` to the real verticle if one exists.

The project has four modules:

- `Common` (common.dfy): `Option`, `Result`, the exceptions that can occur
  (`Error`) and how a void call ends (`Outcome`).
- `Binders` (binders.dfy):
  - the configuration constants and the JSON configuration value;
  - normalisation of the binder names;
  - the outcome of one loop entry (`LoadEntry`);
  - the loop itself, as a method (`LoadBinders`) proved against a function
    (`LoadAll`);
  - lemmas relating `LoadAll` to independent reference definitions
    (`DeclaredBinders`, `DeclaredDiagnostics`).
- `Collaborators` (collaborators.dfy): recorders for the things the loader
  calls but does not implement. A Vert.x `Future` records `complete`/`fail`
  calls. A `RealVerticle` records its lifecycle calls and reacts to them as
  its `Behaviour` says. It also keeps the locator whose container created it.
  Each stop call records whether that locator had already been destroyed when
  the call arrived. A `Locator` records the binders bound into it and
  whether it was destroyed.
- `Loader` (loader.dfy):
  - main-class resolution (`ResolveMainClass`);
  - the pure specification of a composition (`Assemble`, `Compose`) and its
    lemmas;
  - the class `HK2VerticleLoader`, with the same fields as the Java class
    (`verticleName`, `classLoader`, `realVerticle`, `locator`) plus the
    configuration its context supplies and the log it writes.

Foreign steps are parameters of the model:

- The class loader is a value `ClassLoader(classes, sources)`. `classes` maps
  each loadable name to what `newInstance` and `instanceof Binder` would
  give. `sources` maps each compilable source file to the main class its
  compilation yields.
- HK2's `bind` and `createAndInitialize` are an `Injector` function. It takes
  the bound binder list and the main class. It returns the real verticle's
  behaviour or the exception the container throws, such as a
  `MultiException`.
- `vertx`, `context` and the logger's formatting are not modelled. The
  configuration the context would return is a constructor argument. Log lines
  accumulate in the `log` field.

Three facts about the code that the model keeps as they are:

- A missing binder class is logged at error level (line 154). The test file
  expects warn level.
- When composition fails after the locator was created (line 161), `start`
  does not destroy that locator. It only fails the future (lines 76-78).
- Every composition that gets past the binder loop creates a new locator
  (line 161) and overwrites the `locator` field. One that fails earlier leaves
  the field as it was.

## Model

| member | source | states |
|---|---|---|
| Binders.NormalisedBinderNames | ext-hk2/src/main/java/com/englishtown/vertx/hk2/HK2VerticleLoader.java:130-139 | The configured value is normalised into the names list. A missing key or null becomes `[BootstrapBinderName]`. An array is used as given. Any other value becomes a one-element list of itself. |
| Binders.BinderConstants | ext-hk2/src/main/java/com/englishtown/vertx/hk2/HK2VerticleLoader.java:54-55 | The configuration key is `hk2_binder`. The default binder is `com.englishtown.vertx.hk2.BootstrapBinder`. |
| Binders.FieldOf | ext-hk2/src/main/java/com/englishtown/vertx/hk2/HK2VerticleLoader.java:131 | The configured value reads as null if and only if the key is missing or holds null. Otherwise it is the stored value. |
| Binders.BinderNames | ext-hk2/src/main/java/com/englishtown/vertx/hk2/HK2VerticleLoader.java:135-139 | An array is used as given. Any other value gives exactly one name: the default binder name for null, the value itself otherwise. |
| Binders.LoadEntry | ext-hk2/src/main/java/com/englishtown/vertx/hk2/HK2VerticleLoader.java:142-156 | An entry is bound if and only if it is a string naming a loadable `Binder` class, and the binder is that class. It is skipped, with an error-level line, if and only if it is a string whose class is missing or not a `Binder`. It throws if and only if it is not a string or its class cannot be instantiated. The exception is then a null reference for JSON null, `InstantiationFailed(name)` for the class, and a failed cast otherwise. |
| Binders.SkippedEntryMessage | ext-hk2/src/main/java/com/englishtown/vertx/hk2/HK2VerticleLoader.java:147-156 | A skipped entry's line is `"Class " + name + " does not implement Binder."` when the class exists, and the "was not found" message otherwise. |
| Binders.LoadAll | ext-hk2/src/main/java/com/englishtown/vertx/hk2/HK2VerticleLoader.java:141-157 | The loop never produces more binders plus diagnostics than there are entries. |
| Binders.FatalPrefixSticks | ext-hk2/src/main/java/com/englishtown/vertx/hk2/HK2VerticleLoader.java:141-157 | Once an entry has thrown, the entries after it change nothing. |
| Binders.LoadAllThrowsIffSomeEntry | ext-hk2/src/main/java/com/englishtown/vertx/hk2/HK2VerticleLoader.java:141-157 | The loop throws if and only if some entry throws. |
| Binders.LoadAllAppend | ext-hk2/src/main/java/com/englishtown/vertx/hk2/HK2VerticleLoader.java:141-157 | Looping over `a + b` is the loop over `a` followed by the loop over `b`. A later entry never changes what an earlier one produced, and nothing after an exception runs. |
| Binders.LoadAllMatchesDeclared | ext-hk2/src/main/java/com/englishtown/vertx/hk2/HK2VerticleLoader.java:141-157 | If no entry throws, the loaded binders are exactly the declared names whose class exists and implements `Binder`, in declared order. The diagnostics are one per skipped entry, in order. Binders plus diagnostics number exactly the declared entries. |
| Binders.DeclaredBindersMembers | ext-hk2/src/main/java/com/englishtown/vertx/hk2/HK2VerticleLoader.java:144-148 | `UserBinder(n)` is loaded if and only if `n` is declared and its class implements `Binder`. The framework binder never comes from configuration. |
| Binders.LoadAllStopsAtFirstFatal | ext-hk2/src/main/java/com/englishtown/vertx/hk2/HK2VerticleLoader.java:141-157 | The loop throws if and only if some entry throws. It throws the first such entry's exception. It keeps exactly the binders and diagnostics of the entries before that one. |
| Binders.SkippedEntryKeepsOrder | ext-hk2/src/main/java/com/englishtown/vertx/hk2/HK2VerticleLoader.java:141-157 | Inserting a skipped entry anywhere in the list leaves the loaded binders, their order and the loop's exception unchanged. |
| Binders.NotABinderDiagnosed | ext-hk2/src/main/java/com/englishtown/vertx/hk2/HK2VerticleLoader.java:147-151 | A name whose class is not a `Binder` gives exactly one error-level line, `"Class " + name + " does not implement Binder."`, and no binder. |
| Binders.NotFoundDiagnosed | ext-hk2/src/main/java/com/englishtown/vertx/hk2/HK2VerticleLoader.java:153-156 | A name whose class is not found gives exactly one error-level line, `"HK2 bootstrap binder class " + name + " was not found.  Are you missing injection bindings?"`, and no binder. The loop goes on. |
| Binders.LoadBinders | ext-hk2/src/main/java/com/englishtown/vertx/hk2/HK2VerticleLoader.java:141-157 | The indexed loop produces exactly the binders, log lines and exception of the specification `LoadAll`. |
| Loader.ResolveMainClass | ext-hk2/src/main/java/com/englishtown/vertx/hk2/HK2VerticleLoader.java:113-123 | A `.java` name resolves to its compiled main class, or fails to compile. Any other name resolves to itself if it is loadable, otherwise it is not found. A direct name with a null class loader gives a null reference, and a `.java` name then fails to compile. No class resolves without a class loader. |
| Loader.DirectNamesSkipCompiler | ext-hk2/src/main/java/com/englishtown/vertx/hk2/HK2VerticleLoader.java:121-123 | Resolving a name that does not end in `.java` never depends on what the compiler can compile. |
| Loader.SourceNamesCompiled | ext-hk2/src/main/java/com/englishtown/vertx/hk2/HK2VerticleLoader.java:117-120 | Resolving a `.java` name depends only on the compilation, not on which classes are already loadable. |
| Loader.Assemble | ext-hk2/src/main/java/com/englishtown/vertx/hk2/HK2VerticleLoader.java:128-167 | A locator is bound if and only if the binder loop did not throw. It starts with the framework binder. Otherwise creation fails with the loop's exception. A real verticle exists only if a locator was bound. |
| Loader.Compose | ext-hk2/src/main/java/com/englishtown/vertx/hk2/HK2VerticleLoader.java:113-126 | A real verticle exists only if the main class resolved and a locator was bound. A resolution failure logs nothing and binds nothing. Any bound list starts with the framework binder. |
| Loader.ComposeInstantiatesResolvedClass | ext-hk2/src/main/java/com/englishtown/vertx/hk2/HK2VerticleLoader.java:113-166 | Once the main class resolves, the binders come from the loader's own classes. A locator is bound if and only if no entry throws, with `[FrameworkBinder] + DeclaredBinders`. The container is asked for the resolved class: the compiled main class of a `.java` name, the name itself otherwise. Whatever it yields or throws, such as a `MultiException`, is the creation result. |
| Loader.AssembleFailsAtFirstFatal | ext-hk2/src/main/java/com/englishtown/vertx/hk2/HK2VerticleLoader.java:141-166 | If an entry throws, no locator is created and creation fails with the first such entry's exception. The log holds exactly the diagnostics of the entries before it. |
| Loader.AssembleBindsFrameworkFirst | ext-hk2/src/main/java/com/englishtown/vertx/hk2/HK2VerticleLoader.java:159-166 | A locator is created if and only if no binder entry throws. It is bound with the framework binder first, then the declared binders in order, with no second framework binder. Its length is one more than the number of valid binders, however many entries were skipped. The creation result is exactly what the container yields or throws for that list and the main class. |
| Loader.ComposeNeedsMainClass | ext-hk2/src/main/java/com/englishtown/vertx/hk2/HK2VerticleLoader.java:113-126 | If the main class cannot be resolved, nothing is logged, no locator is created and creation fails with the resolution error. Any bound list starts with the framework binder. |
| Loader.DefaultBinderScenario | ext-hk2/src/main/java/com/englishtown/vertx/hk2/HK2VerticleLoader.java:135-164 | With no binder configured and the default bootstrap binder present, nothing is logged. The locator gets `[HK2VertxBinder, BootstrapBinder]`. |
| Loader.NotABinderScenario | ext-hk2/src/main/java/com/englishtown/vertx/hk2/HK2VerticleLoader.java:147-164 | A configured non-`Binder` class gives exactly one error line naming it. The locator gets only the framework binder. |
| Loader.MissingBinderScenario | ext-hk2/src/main/java/com/englishtown/vertx/hk2/HK2VerticleLoader.java:153-164 | A configured unknown binder gives exactly one line naming it. The locator gets only the framework binder. |
| Loader.HK2VerticleLoader.constructor | ext-hk2/src/main/java/com/englishtown/vertx/hk2/HK2VerticleLoader.java:57-60 | The loader holds the name and the class loader. It has no real verticle and no locator yet. |
| Loader.HK2VerticleLoader.Start | ext-hk2/src/main/java/com/englishtown/vertx/hk2/HK2VerticleLoader.java:70-85 | If creation fails, the future gets exactly one `fail(e)` with the creation error, no real verticle is touched and start returns normally. Otherwise the fresh real verticle, created from the new locator, gets `init` and then `start` with the identical future. The future's only signals are its own, so the loader never calls `complete`. Start ends as the real start does. |
| Loader.HK2VerticleLoader.Stop | ext-hk2/src/main/java/com/englishtown/vertx/hk2/HK2VerticleLoader.java:93-107 | Afterwards `classLoader` and `locator` are null and any old locator has been destroyed, with or without a real verticle. The destruction comes first: a verticle created from the locator being destroyed records a stop that found its services already destroyed. Stop is forwarded with the same future only to an existing real verticle. That verticle is cleared unless its stop threw, and then the exception propagates. |
| Loader.HK2VerticleLoader.CreateRealVerticle | ext-hk2/src/main/java/com/englishtown/vertx/hk2/HK2VerticleLoader.java:113-126 | The result, log, locator and new real verticle are those of `Compose` for the loader's name, class loader and configuration. |
| Loader.HK2VerticleLoader.CreateFromClass | ext-hk2/src/main/java/com/englishtown/vertx/hk2/HK2VerticleLoader.java:128-167 | Logs the loop's diagnostics. It creates a fresh locator if and only if no entry threw, and binds `[FrameworkBinder] + binders` into it. It returns a fresh real verticle exactly when the container produced one. |
| Loader.StopAfterStart | ext-hk2/src/main/java/com/englishtown/vertx/hk2/HK2VerticleLoader.java:93-107 | A verticle that was started and then stopped has received exactly `init`, `start` and `stop`, in that order. When its stop arrived, the locator that created it had already been destroyed. |
| Loader.SeparateLocators | ext-hk2/src/main/java/com/englishtown/vertx/hk2/HK2VerticleLoader.java:159-161 | Two loaders of the same main class, both started, hold two distinct locators. |

## Left out

- `getVerticleName` (HK2VerticleLoader.java:109-111) is a plain accessor; the model exposes `verticleName` as a constant field.
- HK2 internals: how `ServiceLocatorFactory.create`, `ServiceLocatorUtilities.bind` and `createAndInitialize` work. They are a `Locator` recorder plus an opaque `Injector` that may throw, for instance a `MultiException`. `ServiceLocatorFactory.destroy(null)` is taken to do nothing.
- Compilation and reflection: `CompilingClassLoader`, `loadClass` and `newInstance` become the `ClassLoader` value. A null class loader fails both resolution paths: the direct path with a null reference, the source path as a compile failure, since nothing can be compiled from a null parent.
- Loader.HK2VerticleLoader.CreateFromClass: requires a non-null class loader. Its only caller reaches it only after resolution succeeded, and that implies one.
- A JSON null inside the binder array is treated as a null-reference failure of `loadClass`, and any other non-string entry as the `ClassCastException` of `getString`. Both propagate, like any exception other than `ClassNotFoundException`.
- Logging: only the level and message of each line are kept, not the logger's formatting.
- Vert.x: the `vertx` and `context` handles passed to `init` are not recorded. Exceptions from the real verticle's `init` are not modelled. A future is only the sequence of `complete`/`fail` calls made on it.
- A real verticle's start or stop that signals later (`Pending`) is not followed after the call returns.
- Only Java `Exception`s are modelled. A Java `Error` raised while the real verticle is created is not modelled: for example `NoClassDefFoundError` from `loadClass` (lines 122, 144), `ExceptionInInitializerError` from a binder's `newInstance` (line 145), or an `Error` out of `createAndInitialize` (line 166). `start` catches only `Exception` (line 76), so such an `Error` propagates out of `start` and the future is not failed. The model reports every creation failure on the future.
- Threading, timeouts and the host's lifecycle ordering belong to Vert.x and are not modelled.
