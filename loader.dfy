/**
 * HK2VerticleLoader: lazily creates the real verticle through a fresh HK2
 * service locator, binds the framework binder and the configured binders
 * into it, and forwards the start and stop lifecycle to the real verticle.
 */
module Loader {
  import opened Common
  import opened Binders
  import opened Collaborators

  /** Main names with this suffix are source files, compiled before loading. */
  const SourceSuffix: string := ".java"

  /**
   * The class loader as the loader uses it: the classes it can load, and for
   * each source file it can compile, the main class name the compilation yields.
   */
  datatype ClassLoader = ClassLoader(classes: map<string, ClassKind>, sources: map<string, string>)

  predicate EndsWith(s: string, suffix: string) {
    |suffix| <= |s| && s[|s| - |suffix|..] == suffix
  }

  /**
   * The class createRealVerticle() hands on: a source name is compiled and its
   * main class loaded; any other name is loaded as it stands.
   */
  function ResolveMainClass(name: string, cl: Option<ClassLoader>): (r: Result<string>)
    ensures r.Ok? ==> cl.Some?
    ensures EndsWith(name, SourceSuffix) ==>
      (r.Ok? <==> cl.Some? && name in cl.value.sources) &&
      (r.Ok? ==> r.value == cl.value.sources[name]) &&
      (r.Err? ==> r.error == CompileFailed(name))
    ensures !EndsWith(name, SourceSuffix) ==>
      (r.Ok? <==> cl.Some? && name in cl.value.classes) &&
      (r.Ok? ==> r.value == name) &&
      (r.Err? ==> r.error == (if cl.None? then NullReference else ClassNotFound(name)))
  {
    if EndsWith(name, SourceSuffix) then
      if cl.Some? && name in cl.value.sources then Ok(cl.value.sources[name]) else Err(CompileFailed(name))
    else if cl.None? then Err(NullReference)
    else if name in cl.value.classes then Ok(name)
    else Err(ClassNotFound(name))
  }

  /** A name that is not a source file never goes through the compiler: what can be compiled is irrelevant. */
  lemma DirectNamesSkipCompiler(name: string, classes: map<string, ClassKind>, s1: map<string, string>, s2: map<string, string>)
    requires !EndsWith(name, SourceSuffix)
    ensures ResolveMainClass(name, Some(ClassLoader(classes, s1))) == ResolveMainClass(name, Some(ClassLoader(classes, s2)))
  {
  }

  /** A source name is resolved by compiling it only: which classes are already loadable is irrelevant. */
  lemma SourceNamesCompiled(name: string, c1: map<string, ClassKind>, c2: map<string, ClassKind>, sources: map<string, string>)
    requires EndsWith(name, SourceSuffix)
    ensures ResolveMainClass(name, Some(ClassLoader(c1, sources))) == ResolveMainClass(name, Some(ClassLoader(c2, sources)))
  {
  }

  /**
   * The container's work, which the model does not look into: given the
   * binders bound into a fresh locator and the main class, createAndInitialize
   * yields the real verticle or throws (a MultiException, a failed cast, ...).
   */
  type Injector = (seq<Binder>, string) -> Result<Behaviour>

  /**
   * What a composition did: the lines it logged, the binders bound into the
   * new locator if one was created, and the real verticle it produced.
   */
  datatype Composition = Composition(diagnostics: seq<Diagnostic>, bound: Option<seq<Binder>>, created: Result<Behaviour>)

  /** createRealVerticle(Class): load the binders, create a locator, bind, and instantiate. */
  function Assemble(clazz: string, classes: map<string, ClassKind>, config: map<string, Json>, inject: Injector): (c: Composition)
    ensures c.bound.Some? ==> |c.bound.value| >= 1 && c.bound.value[0] == FrameworkBinder
    ensures c.bound.Some? <==> LoadAll(BinderNames(FieldOf(config)), classes).fatal.None?
    ensures c.bound.None? ==> c.created == Err(LoadAll(BinderNames(FieldOf(config)), classes).fatal.value)
    ensures c.created.Ok? ==> c.bound.Some?
  {
    var loaded := LoadAll(BinderNames(FieldOf(config)), classes);
    if loaded.fatal.Some? then Composition(loaded.diagnostics, None, Err(loaded.fatal.value))
    else
      var bound := [FrameworkBinder] + loaded.binders;
      Composition(loaded.diagnostics, Some(bound), inject(bound, clazz))
  }

  /** createRealVerticle(): resolve the main class, then assemble. */
  function Compose(name: string, cl: Option<ClassLoader>, config: map<string, Json>, inject: Injector): (c: Composition)
    ensures c.created.Ok? ==> ResolveMainClass(name, cl).Ok? && c.bound.Some?
    ensures ResolveMainClass(name, cl).Err? ==> c.diagnostics == [] && c.bound.None?
    ensures c.bound.Some? ==> |c.bound.value| >= 1 && c.bound.value[0] == FrameworkBinder
  {
    match ResolveMainClass(name, cl)
    case Err(e) => Composition([], None, Err(e))
    case Ok(clazz) => Assemble(clazz, cl.value.classes, config, inject)
  }

  /**
   * A locator is created exactly when no binder entry threw; what is bound
   * into it is the framework binder first, then the declared binders in
   * declared order, so its length is one more than the number of valid
   * binders however many entries were skipped; a real verticle exists only
   * when the container made it from that list.
   */
  lemma AssembleBindsFrameworkFirst(clazz: string, classes: map<string, ClassKind>, config: map<string, Json>, inject: Injector)
    ensures var c := Assemble(clazz, classes, config, inject);
      var names := BinderNames(FieldOf(config));
      && (c.bound.Some? <==> forall k :: 0 <= k < |names| ==> !LoadEntry(names[k], classes).Fatal?)
      && (c.bound.Some? ==>
            && c.bound.value == [FrameworkBinder] + DeclaredBinders(names, classes)
            && c.bound.value[0] == FrameworkBinder
            && FrameworkBinder !in c.bound.value[1..]
            && c.diagnostics == DeclaredDiagnostics(names, classes)
            && |c.bound.value| + |c.diagnostics| == 1 + |names|)
      && (c.bound.Some? ==> c.created == inject(c.bound.value, clazz))
      && (c.created.Ok? ==> c.bound.Some? && inject(c.bound.value, clazz) == c.created)
  {
    var names := BinderNames(FieldOf(config));
    LoadAllStopsAtFirstFatal(names, classes);
    if LoadAll(names, classes).fatal.None? {
      LoadAllMatchesDeclared(names, classes);
      var c := Assemble(clazz, classes, config, inject);
      assert c.bound.value[1..] == DeclaredBinders(names, classes);
      DeclaredBindersMembers(names, classes, "");
    }
  }

  /**
   * When a binder entry throws (an instantiation failure, a JSON null or a
   * non-string entry), no locator is created, creation fails with the first
   * such entry's exception, and the log holds exactly the diagnostics of the
   * entries before it.
   */
  lemma AssembleFailsAtFirstFatal(clazz: string, classes: map<string, ClassKind>, config: map<string, Json>, inject: Injector, k: int)
    requires FirstFatalAt(BinderNames(FieldOf(config)), classes, k)
    ensures var c := Assemble(clazz, classes, config, inject);
      var names := BinderNames(FieldOf(config));
      && c.bound.None?
      && c.created == Err(LoadEntry(names[k], classes).error)
      && c.diagnostics == DeclaredDiagnostics(names[..k], classes)
  {
    var names := BinderNames(FieldOf(config));
    LoadAllStopsAtFirstFatal(names, classes);
    LoadAllStopsAtFirstFatal(names[..k], classes);
    assert forall j :: 0 <= j < k ==> names[..k][j] == names[j];
    LoadAllMatchesDeclared(names[..k], classes);
  }

  /**
   * Once the main class resolves, the binders come from the loader's own
   * classes, and the container is asked to instantiate the resolved class:
   * the compiled main class of a source name, the name itself otherwise.
   * Whatever the container yields or throws is the creation result.
   */
  lemma ComposeInstantiatesResolvedClass(name: string, cl: Option<ClassLoader>, config: map<string, Json>, inject: Injector)
    requires ResolveMainClass(name, cl).Ok?
    ensures var c := Compose(name, cl, config, inject);
      var names := BinderNames(FieldOf(config));
      && (c.bound.Some? <==> forall k :: 0 <= k < |names| ==> !LoadEntry(names[k], cl.value.classes).Fatal?)
      && (c.bound.Some? ==>
            && c.bound.value == [FrameworkBinder] + DeclaredBinders(names, cl.value.classes)
            && c.created == inject(c.bound.value, ResolveMainClass(name, cl).value))
  {
    AssembleBindsFrameworkFirst(ResolveMainClass(name, cl).value, cl.value.classes, config, inject);
  }

  /** Nothing is bound and nothing is logged when the main class cannot be resolved. */
  lemma ComposeNeedsMainClass(name: string, cl: Option<ClassLoader>, config: map<string, Json>, inject: Injector)
    ensures var c := Compose(name, cl, config, inject);
      && (ResolveMainClass(name, cl).Err? ==> c == Composition([], None, Err(ResolveMainClass(name, cl).error)))
      && (c.bound.Some? ==> cl.Some? && c.bound.value[0] == FrameworkBinder)
  {
    match ResolveMainClass(name, cl)
    case Err(_) =>
    case Ok(clazz) => AssembleBindsFrameworkFirst(clazz, cl.value.classes, config, inject);
  }

  /** No configured binder and the default bootstrap binder present: nothing is logged, and both binders are bound, framework first. */
  lemma DefaultBinderScenario(name: string, cl: Option<ClassLoader>, config: map<string, Json>, inject: Injector)
    requires ResolveMainClass(name, cl).Ok?
    requires ConfigBootstrapBinderName !in config
    requires BootstrapBinderName in cl.value.classes && cl.value.classes[BootstrapBinderName] == BinderClass
    ensures Compose(name, cl, config, inject).diagnostics == []
    ensures Compose(name, cl, config, inject).bound == Some([FrameworkBinder, UserBinder(BootstrapBinderName)])
  {
    assert BinderNames(FieldOf(config)) == [JString(BootstrapBinderName)];
    LoadSingle(JString(BootstrapBinderName), cl.value.classes);
    assert LoadAll([JString(BootstrapBinderName)], cl.value.classes) == Loaded([UserBinder(BootstrapBinderName)], [], None);
    assert Compose(name, cl, config, inject) == Assemble(ResolveMainClass(name, cl).value, cl.value.classes, config, inject);
    assert [FrameworkBinder] + [UserBinder(BootstrapBinderName)] == [FrameworkBinder, UserBinder(BootstrapBinderName)];
  }

  /** A configured binder that is not a Binder: one error line naming it, and only the framework binder is bound. */
  lemma NotABinderScenario(name: string, cl: Option<ClassLoader>, config: map<string, Json>, inject: Injector, binder: string)
    requires ResolveMainClass(name, cl).Ok?
    requires ConfigBootstrapBinderName in config && config[ConfigBootstrapBinderName] == JString(binder)
    requires binder in cl.value.classes && cl.value.classes[binder] == OtherClass
    ensures Compose(name, cl, config, inject).diagnostics == [Diagnostic(ErrorLevel, "Class " + binder + " does not implement Binder.")]
    ensures Compose(name, cl, config, inject).bound == Some([FrameworkBinder])
  {
    assert BinderNames(FieldOf(config)) == [JString(binder)];
    NotABinderDiagnosed(binder, cl.value.classes);
    assert [FrameworkBinder] + [] == [FrameworkBinder];
  }

  /** A configured binder that cannot be found: one line naming it, and only the framework binder is bound. */
  lemma MissingBinderScenario(name: string, cl: Option<ClassLoader>, config: map<string, Json>, inject: Injector, binder: string)
    requires ResolveMainClass(name, cl).Ok?
    requires ConfigBootstrapBinderName in config && config[ConfigBootstrapBinderName] == JString(binder)
    requires binder !in cl.value.classes
    ensures Compose(name, cl, config, inject).diagnostics ==
      [Diagnostic(ErrorLevel, "HK2 bootstrap binder class " + binder + " was not found.  Are you missing injection bindings?")]
    ensures Compose(name, cl, config, inject).bound == Some([FrameworkBinder])
  {
    assert BinderNames(FieldOf(config)) == [JString(binder)];
    NotFoundDiagnosed(binder, cl.value.classes);
    assert [FrameworkBinder] + [] == [FrameworkBinder];
  }

  /** The verticle that lazily loads the real verticle with dependency injection. */
  class HK2VerticleLoader {
    const verticleName: string
    /** context.config() of the context the host passes to init. */
    const config: map<string, Json>
    var classLoader: Option<ClassLoader>
    var realVerticle: RealVerticle?
    var locator: Locator?
    /** Everything written to the logger, in order. */
    var log: seq<Diagnostic>

    constructor (verticleName: string, classLoader: Option<ClassLoader>, config: map<string, Json>)
      ensures this.verticleName == verticleName && this.classLoader == classLoader && this.config == config
      ensures realVerticle == null && locator == null && log == []
    {
      this.verticleName := verticleName;
      this.classLoader := classLoader;
      this.config := config;
      realVerticle := null;
      locator := null;
      log := [];
    }

    /**
     * Starts the real verticle. A failure to create it is reported on the
     * future, which is failed once, and start returns; otherwise the new real
     * verticle is initialised and then started with the same future, and how
     * its start ends is how this start ends. The loader never signals the
     * future itself on that path.
     */
    method Start(startedResult: Future, inject: Injector) returns (o: Outcome)
      modifies this, startedResult
      ensures classLoader == old(classLoader)
      ensures old(realVerticle) != null ==> old(realVerticle).calls == old(realVerticle.calls)
      ensures var c := Compose(verticleName, old(classLoader), config, inject);
        && log == old(log) + c.diagnostics
        && (c.bound.None? ==> locator == old(locator))
        && (c.bound.Some? ==> locator != null && fresh(locator) && locator.bound == c.bound.value && !locator.destroyed)
        && (c.created.Err? ==>
              && o == Normal
              && realVerticle == old(realVerticle)
              && startedResult.signals == old(startedResult.signals) + [Failed(c.created.error)])
        && (c.created.Ok? ==>
              && realVerticle != null && fresh(realVerticle)
              && realVerticle.behaviour == c.created.value
              && realVerticle.locator == locator
              && realVerticle.calls == [InitCalled, StartCalled(startedResult)]
              && startedResult.signals == old(startedResult.signals) + Signals(c.created.value.onStart)
              && o == Ends(c.created.value.onStart))
    {
      var created := CreateRealVerticle(inject);
      if created.Err? {
        startedResult.Fail(created.error);
        return Normal;
      }
      realVerticle := created.value;
      realVerticle.Init();
      o := realVerticle.Start(startedResult);
    }

    /**
     * Stops the loader: the class loader is dropped, the locator destroyed and
     * dropped whether or not a real verticle exists, and only then is stop
     * forwarded with the same future to an existing real verticle, which is
     * then dropped unless its stop threw. A verticle made from the locator
     * being destroyed therefore sees its services already destroyed.
     */
    method Stop(stopFuture: Future) returns (o: Outcome)
      modifies this, stopFuture, locator, realVerticle
      ensures classLoader == None && locator == null && log == old(log)
      ensures old(locator) != null ==> old(locator).destroyed && old(locator).bound == old(locator.bound)
      ensures old(realVerticle) == null ==>
        o == Normal && realVerticle == null && stopFuture.signals == old(stopFuture.signals)
      ensures old(realVerticle) != null ==>
        && old(realVerticle).calls == old(realVerticle.calls) +
             [StopCalled(stopFuture, old(realVerticle).locator == old(locator) || old(realVerticle.locator.destroyed))]
        && stopFuture.signals == old(stopFuture.signals) + Signals(old(realVerticle).behaviour.onStop)
        && o == Ends(old(realVerticle).behaviour.onStop)
        && realVerticle == (if o.Threw? then old(realVerticle) else null)
    {
      classLoader := None;
      if locator != null {
        locator.Destroy();
      }
      locator := null;
      o := Normal;
      if realVerticle != null {
        o := realVerticle.Stop(stopFuture);
        if o.Threw? {
          return;
        }
        realVerticle := null;
      }
    }

    /** createRealVerticle(): picks the compile-then-load path for a source name, the direct load otherwise. */
    method CreateRealVerticle(inject: Injector) returns (r: Result<RealVerticle>)
      modifies this`locator, this`log
      ensures var c := Compose(verticleName, classLoader, config, inject);
        && log == old(log) + c.diagnostics
        && (c.bound.None? ==> locator == old(locator))
        && (c.bound.Some? ==> locator != null && fresh(locator) && locator.bound == c.bound.value && !locator.destroyed)
        && (r.Ok? <==> c.created.Ok?)
        && (r.Ok? ==> fresh(r.value) && r.value.behaviour == c.created.value && r.value.locator == locator && r.value.calls == [])
        && (r.Err? ==> c.created == Err(r.error))
    {
      var className := verticleName;
      var clazz: string;
      if EndsWith(className, SourceSuffix) {
        // new CompilingClassLoader(classLoader, className), then resolveMainClassName and loadClass
        if classLoader.None? || className !in classLoader.value.sources {
          return Err(CompileFailed(className));
        }
        className := classLoader.value.sources[className];
        clazz := className;
      } else {
        if classLoader.None? {
          return Err(NullReference);
        }
        if className !in classLoader.value.classes {
          return Err(ClassNotFound(className));
        }
        clazz := className;
      }
      r := CreateFromClass(clazz, inject);
    }

    /** createRealVerticle(Class): load the binders, create and bind a fresh locator, and let it instantiate the class. */
    method CreateFromClass(clazz: string, inject: Injector) returns (r: Result<RealVerticle>)
      requires classLoader.Some?
      modifies this`locator, this`log
      ensures var c := Assemble(clazz, classLoader.value.classes, config, inject);
        && log == old(log) + c.diagnostics
        && (c.bound.None? ==> locator == old(locator))
        && (c.bound.Some? ==> locator != null && fresh(locator) && locator.bound == c.bound.value && !locator.destroyed)
        && (r.Ok? <==> c.created.Ok?)
        && (r.Ok? ==> fresh(r.value) && r.value.behaviour == c.created.value && r.value.locator == locator && r.value.calls == [])
        && (r.Err? ==> c.created == Err(r.error))
    {
      var field := FieldOf(config);
      var bootstrapNames := BinderNames(field);
      var bootstraps, logged, thrown := LoadBinders(bootstrapNames, classLoader.value.classes);
      log := log + logged;
      if thrown.Some? {
        return Err(thrown.value);
      }
      // Each verticle gets its own locator; a null name keeps it out of the factory's cache.
      var created := new Locator();
      locator := created;
      bootstraps := [FrameworkBinder] + bootstraps;
      created.Bind(bootstraps);
      match inject(bootstraps, clazz) {
        case Ok(behaviour) =>
          var verticle := new RealVerticle(behaviour, created);
          r := Ok(verticle);
        case Err(e) =>
          r := Err(e);
      }
    }
  }

  /** Two loaders of the same main class, both started, each hold a locator of their own. */
  method SeparateLocators(name: string, cl: ClassLoader, config: map<string, Json>, inject: Injector)
    returns (first: HK2VerticleLoader, second: HK2VerticleLoader)
    requires Compose(name, Some(cl), config, inject).bound.Some?
    ensures first != second && first.verticleName == second.verticleName
    ensures first.locator != null && second.locator != null && first.locator != second.locator
  {
    first := new HK2VerticleLoader(name, Some(cl), config);
    second := new HK2VerticleLoader(name, Some(cl), config);
    var firstResult := new Future();
    var secondResult := new Future();
    var _ := first.Start(firstResult, inject);
    var _ := second.Start(secondResult, inject);
  }

  /** A verticle that started is stopped only after the locator that injected it was destroyed. */
  method StopAfterStart(name: string, cl: ClassLoader, config: map<string, Json>, inject: Injector)
    returns (verticle: RealVerticle, startedResult: Future, stopFuture: Future)
    requires Compose(name, Some(cl), config, inject).created.Ok?
    ensures verticle.locator.destroyed
    ensures verticle.calls == [InitCalled, StartCalled(startedResult), StopCalled(stopFuture, true)]
  {
    var loader := new HK2VerticleLoader(name, Some(cl), config);
    startedResult := new Future();
    var _ := loader.Start(startedResult, inject);
    verticle := loader.realVerticle;
    stopFuture := new Future();
    var _ := loader.Stop(stopFuture);
  }
}
