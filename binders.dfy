/**
 * How the loader turns the `hk2_binder` configuration value into the list of
 * binders it will bind: the value is normalised into a list of names, and
 * each name is resolved against the class loader, in declared order.
 */
module Binders {
  import opened Common

  /** The configuration key that declares the bootstrap binders. */
  const ConfigBootstrapBinderName: string := "hk2_binder"

  /** The binder used when the configuration declares none. */
  const BootstrapBinderName: string := "com.englishtown.vertx.hk2.BootstrapBinder"

  /** A JSON value, as held by the verticle's configuration object. */
  datatype Json =
    | JNull
    | JBool(b: bool)
    | JNumber(n: int)
    | JString(s: string)
    | JArray(items: seq<Json>)
    | JObject(fields: seq<(string, Json)>)

  /** What the class loader knows about a class name it can find. */
  datatype ClassKind =
    | BinderClass          // instantiable, and the instance implements Binder
    | OtherClass           // instantiable, but the instance is not a Binder
    | FailsToInstantiate   // newInstance throws (no public default constructor, ...)

  /** A binder instance; its identity is its class. */
  datatype Binder = FrameworkBinder | UserBinder(className: string)

  /**
   * The logger levels a diagnostic can carry. The loader writes every line at
   * error level; WarnLevel is the level other versions of the loader use for
   * a missing binder class, and is never produced here.
   */
  datatype Level = WarnLevel | ErrorLevel

  /** One line written to the loader's logger. */
  datatype Diagnostic = Diagnostic(level: Level, message: string)

  function NotABinderMessage(name: string): (m: string) {
    "Class " + name + " does not implement Binder."
  }

  function NotFoundMessage(name: string): (m: string) {
    "HK2 bootstrap binder class " + name + " was not found.  Are you missing injection bindings?"
  }

  /** The values of the two configuration constants. */
  lemma BinderConstants()
    ensures ConfigBootstrapBinderName == "hk2_binder"
    ensures BootstrapBinderName == "com.englishtown.vertx.hk2.BootstrapBinder"
  {
  }

  /** config.getValue(key): a missing key and an explicit null both read as null. */
  function FieldOf(config: map<string, Json>): (field: Json)
    ensures field.JNull? <==> ConfigBootstrapBinderName !in config || config[ConfigBootstrapBinderName].JNull?
    ensures !field.JNull? ==> field == config[ConfigBootstrapBinderName]
  {
    if ConfigBootstrapBinderName in config then config[ConfigBootstrapBinderName] else JNull
  }

  /**
   * The declared binder names: an array is used as given, null becomes the
   * default binder name, any other value becomes a one-element array of itself.
   */
  function BinderNames(field: Json): (names: seq<Json>)
    ensures field.JArray? ==> names == field.items
    ensures !field.JArray? ==> |names| == 1
    ensures field.JNull? ==> names[0] == JString(BootstrapBinderName)
    ensures !field.JArray? && !field.JNull? ==> names[0] == field
  {
    match field
    case JArray(items) => items
    case JNull => [JString(BootstrapBinderName)]
    case _ => [field]
  }

  lemma NormalisedBinderNames(config: map<string, Json>)
    ensures ConfigBootstrapBinderName !in config ==> BinderNames(FieldOf(config)) == [JString(BootstrapBinderName)]
    ensures ConfigBootstrapBinderName in config ==>
      var field := config[ConfigBootstrapBinderName];
      && (field.JArray? ==> BinderNames(FieldOf(config)) == field.items)
      && (field.JNull? ==> BinderNames(FieldOf(config)) == [JString(BootstrapBinderName)])
      && (!field.JArray? && !field.JNull? ==> BinderNames(FieldOf(config)) == [field])
  {
  }

  /** What happens to one declared entry. */
  datatype EntryOutcome =
    | Bound(binder: Binder)            // added to the bootstrap list
    | Skipped(diagnostic: Diagnostic)  // logged, and the loop continues
    | Fatal(error: Error)              // thrown out of the loop

  /**
   * One iteration of the loop: getString(i), loadClass, newInstance and the
   * instanceof test. Only ClassNotFoundException is caught.
   */
  function LoadEntry(entry: Json, classes: map<string, ClassKind>): (r: EntryOutcome)
    ensures r.Bound? <==> entry.JString? && entry.s in classes && classes[entry.s] == BinderClass
    ensures r.Bound? ==> r.binder == UserBinder(entry.s)
    ensures r.Skipped? <==> entry.JString? && (entry.s !in classes || classes[entry.s] == OtherClass)
    ensures r.Fatal? <==> !entry.JString? || (entry.s in classes && classes[entry.s] == FailsToInstantiate)
    ensures r.Fatal? ==> (r.error ==
      if entry.JNull? then NullReference else if entry.JString? then InstantiationFailed(entry.s) else NotAString)
  {
    match entry
    case JString(name) =>
      if name !in classes then Skipped(Diagnostic(ErrorLevel, NotFoundMessage(name)))
      else (
        match classes[name]
        case BinderClass => Bound(UserBinder(name))
        case OtherClass => Skipped(Diagnostic(ErrorLevel, NotABinderMessage(name)))
        case FailsToInstantiate => Fatal(InstantiationFailed(name))
      )
    case JNull => Fatal(NullReference)
    case _ => Fatal(NotAString)
  }

  /** A skipped entry is logged with one of the loader's two messages, naming the entry. */
  lemma SkippedEntryMessage(entry: Json, classes: map<string, ClassKind>)
    requires LoadEntry(entry, classes).Skipped?
    ensures LoadEntry(entry, classes).diagnostic ==
      Diagnostic(ErrorLevel, if entry.s in classes then NotABinderMessage(entry.s) else NotFoundMessage(entry.s))
  {
  }

  /** The state of the loop: binders collected, lines logged, and the exception that ended it, if any. */
  datatype Loaded = Loaded(binders: seq<Binder>, diagnostics: seq<Diagnostic>, fatal: Option<Error>)

  /** Adds the outcome of one more entry to a loop that has not thrown. */
  function Step(acc: Loaded, outcome: EntryOutcome): (r: Loaded) {
    match outcome
    case Bound(b) => acc.(binders := acc.binders + [b])
    case Skipped(d) => acc.(diagnostics := acc.diagnostics + [d])
    case Fatal(e) => acc.(fatal := Some(e))
  }

  /** The loop over the declared names, one entry at a time from the first. */
  function LoadAll(names: seq<Json>, classes: map<string, ClassKind>): (r: Loaded)
    ensures |r.binders| + |r.diagnostics| <= |names|
    decreases |names|
  {
    if names == [] then Loaded([], [], None)
    else
      var prev := LoadAll(names[..|names| - 1], classes);
      if prev.fatal.Some? then prev else Step(prev, LoadEntry(names[|names| - 1], classes))
  }

  /** One more entry at the end of the list is one more step of the loop. */
  lemma LoadAllSnoc(p: seq<Json>, x: Json, classes: map<string, ClassKind>)
    ensures LoadAll(p + [x], classes) ==
      if LoadAll(p, classes).fatal.Some? then LoadAll(p, classes) else Step(LoadAll(p, classes), LoadEntry(x, classes))
  {
    assert (p + [x])[..|p + [x]| - 1] == p;
  }

  /** Running the loop on a list and then on the next one, stopping at an exception. */
  function Then(first: Loaded, rest: Loaded): (r: Loaded) {
    if first.fatal.Some? then first
    else Loaded(first.binders + rest.binders, first.diagnostics + rest.diagnostics, rest.fatal)
  }

  /** Entries are processed independently: the loop over a + b is the loop over a followed by the loop over b. */
  lemma {:induction false} LoadAllAppend(a: seq<Json>, b: seq<Json>, classes: map<string, ClassKind>)
    ensures LoadAll(a + b, classes) == Then(LoadAll(a, classes), LoadAll(b, classes))
    decreases |b|
  {
    if b == [] {
      assert a + b == a;
    } else {
      var b', y := b[..|b| - 1], b[|b| - 1];
      var ab := a + b;
      assert ab[..|ab| - 1] == a + b' && ab[|ab| - 1] == y;
      LoadAllAppend(a, b', classes);
      var first, rest := LoadAll(a, classes), LoadAll(b', classes);
      assert LoadAll(ab, classes) == if Then(first, rest).fatal.Some? then Then(first, rest)
        else Step(Then(first, rest), LoadEntry(y, classes));
      assert LoadAll(b, classes) == if rest.fatal.Some? then rest else Step(rest, LoadEntry(y, classes));
      if first.fatal.None? && rest.fatal.None? {
        ThenStep(first, rest, LoadEntry(y, classes));
      }
    }
  }

  lemma ThenStep(first: Loaded, rest: Loaded, outcome: EntryOutcome)
    requires first.fatal.None? && rest.fatal.None?
    ensures Then(first, Step(rest, outcome)) == Step(Then(first, rest), outcome)
  {
    match outcome
    case Bound(b) => assert first.binders + (rest.binders + [b]) == (first.binders + rest.binders) + [b];
    case Skipped(d) => assert first.diagnostics + (rest.diagnostics + [d]) == (first.diagnostics + rest.diagnostics) + [d];
    case Fatal(_) =>
  }

  /** Once the loop has thrown, later entries are never looked at. */
  lemma FatalPrefixSticks(p: seq<Json>, rest: seq<Json>, classes: map<string, ClassKind>)
    requires LoadAll(p, classes).fatal.Some?
    ensures LoadAll(p + rest, classes) == LoadAll(p, classes)
  {
    LoadAllAppend(p, rest, classes);
  }

  /** The loop over a single entry. */
  lemma LoadSingle(x: Json, classes: map<string, ClassKind>)
    ensures LoadAll([x], classes) == Step(Loaded([], [], None), LoadEntry(x, classes))
  {
    assert [x][..0] == [];
  }

  /** Reference definition: the binders the declared list names, in declared order. */
  function DeclaredBinders(names: seq<Json>, classes: map<string, ClassKind>): (bs: seq<Binder>) {
    if names == [] then []
    else
      (match LoadEntry(names[0], classes) case Bound(b) => [b] case _ => [])
      + DeclaredBinders(names[1..], classes)
  }

  /** Reference definition: one diagnostic per entry that is skipped, in declared order. */
  function DeclaredDiagnostics(names: seq<Json>, classes: map<string, ClassKind>): (ds: seq<Diagnostic>) {
    if names == [] then []
    else
      (match LoadEntry(names[0], classes) case Skipped(d) => [d] case _ => [])
      + DeclaredDiagnostics(names[1..], classes)
  }

  /**
   * When no entry throws, the loaded binders are exactly the declared names
   * whose class exists and implements Binder, in declared order, and every
   * other entry contributes exactly one diagnostic.
   */
  lemma {:induction false} LoadAllMatchesDeclared(names: seq<Json>, classes: map<string, ClassKind>)
    requires LoadAll(names, classes).fatal.None?
    ensures LoadAll(names, classes).binders == DeclaredBinders(names, classes)
    ensures LoadAll(names, classes).diagnostics == DeclaredDiagnostics(names, classes)
    ensures |LoadAll(names, classes).binders| + |LoadAll(names, classes).diagnostics| == |names|
    decreases |names|
  {
    if names != [] {
      var head, rest := LoadAll([names[0]], classes), LoadAll(names[1..], classes);
      assert names == [names[0]] + names[1..];
      LoadAllAppend([names[0]], names[1..], classes);
      LoadSingle(names[0], classes);
      assert head.fatal.None? && rest.fatal.None?;
      LoadAllMatchesDeclared(names[1..], classes);
      assert head.binders == (match LoadEntry(names[0], classes) case Bound(b) => [b] case _ => []);
      assert head.diagnostics == (match LoadEntry(names[0], classes) case Skipped(d) => [d] case _ => []);
      assert |head.binders| + |head.diagnostics| == 1;
    }
  }

  /** A binder is loaded exactly when some declared entry names a Binder class. */
  lemma {:induction false} DeclaredBindersMembers(names: seq<Json>, classes: map<string, ClassKind>, name: string)
    ensures UserBinder(name) in DeclaredBinders(names, classes) <==>
      (JString(name) in names && name in classes && classes[name] == BinderClass)
    ensures FrameworkBinder !in DeclaredBinders(names, classes)
    decreases |names|
  {
    if names != [] {
      DeclaredBindersMembers(names[1..], classes, name);
      assert names == [names[0]] + names[1..];
    }
  }

  /** True of the first entry of the list that throws. */
  ghost predicate FirstFatalAt(names: seq<Json>, classes: map<string, ClassKind>, k: int) {
    && 0 <= k < |names|
    && LoadEntry(names[k], classes).Fatal?
    && forall j :: 0 <= j < k ==> !LoadEntry(names[j], classes).Fatal?
  }

  /**
   * The loop throws exactly when some entry throws; it then throws that first
   * entry's exception, and what was logged and collected is what the entries
   * before it produced.
   */
  lemma {:induction false} LoadAllStopsAtFirstFatal(names: seq<Json>, classes: map<string, ClassKind>)
    ensures LoadAll(names, classes).fatal.None? <==>
      forall k :: 0 <= k < |names| ==> !LoadEntry(names[k], classes).Fatal?
    ensures forall k :: FirstFatalAt(names, classes, k) ==>
      LoadAll(names, classes) == LoadAll(names[..k], classes).(fatal := Some(LoadEntry(names[k], classes).error))
  {
    LoadAllThrowsIffSomeEntry(names, classes);
    forall k | FirstFatalAt(names, classes, k)
      ensures LoadAll(names, classes) == LoadAll(names[..k], classes).(fatal := Some(LoadEntry(names[k], classes).error))
    {
      var p, x := names[..k], names[k];
      assert forall j :: 0 <= j < k ==> p[j] == names[j];
      LoadAllThrowsIffSomeEntry(p, classes);
      LoadAllSnoc(p, x, classes);
      assert names == (p + [x]) + names[k + 1..];
      FatalPrefixSticks(p + [x], names[k + 1..], classes);
    }
  }

  /** The loop throws exactly when some entry throws. */
  lemma {:induction false} LoadAllThrowsIffSomeEntry(names: seq<Json>, classes: map<string, ClassKind>)
    ensures LoadAll(names, classes).fatal.None? <==>
      forall k :: 0 <= k < |names| ==> !LoadEntry(names[k], classes).Fatal?
    decreases |names|
  {
    if names != [] {
      var n := |names|;
      var p, x := names[..n - 1], names[n - 1];
      LoadAllThrowsIffSomeEntry(p, classes);
      assert names == p + [x];
      LoadAllSnoc(p, x, classes);
      assert forall j :: 0 <= j < n - 1 ==> p[j] == names[j];
    }
  }

  /** A skipped entry leaves the binders and the outcome of the rest of the loop as they were. */
  lemma SkippedEntryKeepsOrder(a: seq<Json>, x: Json, b: seq<Json>, classes: map<string, ClassKind>)
    requires LoadEntry(x, classes).Skipped?
    ensures LoadAll(a + [x] + b, classes).binders == LoadAll(a + b, classes).binders
    ensures LoadAll(a + [x] + b, classes).fatal == LoadAll(a + b, classes).fatal
  {
    LoadAllAppend(a, [x], classes);
    LoadAllAppend(a + [x], b, classes);
    LoadAllAppend(a, b, classes);
    LoadSingle(x, classes);
  }

  /** An entry naming a class that is not a Binder is logged once, with the class name, and not bound. */
  lemma NotABinderDiagnosed(name: string, classes: map<string, ClassKind>)
    requires name in classes && classes[name] == OtherClass
    ensures LoadAll([JString(name)], classes) ==
      Loaded([], [Diagnostic(ErrorLevel, "Class " + name + " does not implement Binder.")], None)
  {
    LoadSingle(JString(name), classes);
  }

  /** An entry naming an unknown class is logged once, with the name and the hint, and not bound. */
  lemma NotFoundDiagnosed(name: string, classes: map<string, ClassKind>)
    requires name !in classes
    ensures LoadAll([JString(name)], classes) ==
      Loaded([], [Diagnostic(ErrorLevel, "HK2 bootstrap binder class " + name + " was not found.  Are you missing injection bindings?")], None)
  {
    LoadSingle(JString(name), classes);
  }

  /**
   * The loop of createRealVerticle(Class): for each declared entry, load the
   * class, instantiate it and keep it when it is a Binder; a missing or
   * non-Binder class is logged and skipped, anything else is thrown.
   */
  method LoadBinders(names: seq<Json>, classes: map<string, ClassKind>)
    returns (bootstraps: seq<Binder>, logged: seq<Diagnostic>, thrown: Option<Error>)
    ensures Loaded(bootstraps, logged, thrown) == LoadAll(names, classes)
  {
    bootstraps, logged, thrown := [], [], None;
    for i := 0 to |names|
      invariant thrown == None
      invariant LoadAll(names[..i], classes) == Loaded(bootstraps, logged, thrown)
    {
      ghost var before := Loaded(bootstraps, logged, thrown);
      ghost var outcome := LoadEntry(names[i], classes);
      assert names[..i + 1] == names[..i] + [names[i]];
      LoadAllSnoc(names[..i], names[i], classes);
      match names[i] {
      case JString(bootstrapName) =>
        if bootstrapName !in classes {
          logged := logged + [Diagnostic(ErrorLevel, NotFoundMessage(bootstrapName))];
          assert outcome == Skipped(Diagnostic(ErrorLevel, NotFoundMessage(bootstrapName)));
        } else if classes[bootstrapName] == FailsToInstantiate {
          thrown := Some(InstantiationFailed(bootstrapName));
          assert outcome == Fatal(InstantiationFailed(bootstrapName));
        } else if classes[bootstrapName] == BinderClass {
          bootstraps := bootstraps + [UserBinder(bootstrapName)];
          assert outcome == Bound(UserBinder(bootstrapName));
        } else {
          logged := logged + [Diagnostic(ErrorLevel, NotABinderMessage(bootstrapName))];
          assert outcome == Skipped(Diagnostic(ErrorLevel, NotABinderMessage(bootstrapName)));
        }
      case JNull =>
        thrown := Some(NullReference);
      case _ =>
        thrown := Some(NotAString);
      }
      assert LoadAll(names[..i + 1], classes) == Loaded(bootstraps, logged, thrown);
      if thrown.Some? {
        FatalPrefixSticks(names[..i + 1], names[i + 1..], classes);
        assert names[..i + 1] + names[i + 1..] == names;
        return;
      }
    }
    assert names[..|names|] == names;
  }
}
