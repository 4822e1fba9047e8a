/** What the two KSP processors see of a compilation and the logic they
    share: class names, the annotated declarations, the well-known Helm types
    loaded from the classpath, the lookup of a `HelmInject` argument by name,
    the component naming rule, and the `forEach` over annotated symbols that
    a thrown exception ends.

    KSP's type checks are given as booleans on a declaration, and KotlinPoet
    output is kept as records describing the generated declarations rather
    than as Kotlin text. */
module Codegen {
  import opened Wrappers
  import opened Exceptions

  // ---------------------------------------------------------------------
  // Names
  // ---------------------------------------------------------------------

  /** KotlinPoet's `ClassName`: a package and the simple names from the
      outermost class inwards. */
  datatype ClassName = ClassName(packageName: string, simpleNames: seq<string>)

  /** `ClassName.nestedClass(name)`. */
  function NestedClass(c: ClassName, name: string): ClassName
  {
    ClassName(c.packageName, c.simpleNames + [name])
  }

  const HelmPackage := "com.ryanharter.helm"

  /** The runtime types the generated code refers to. */
  const ScreenType := ClassName(HelmPackage, ["Screen"])
  const NavigatorType := ClassName(HelmPackage, ["Navigator"])
  const PresenterType := ClassName(HelmPackage, ["Presenter"])
  const UiType := ClassName(HelmPackage, ["Ui"])
  const PresenterFactoryType := ClassName(HelmPackage, ["Presenter", "Factory"])
  const UiFactoryType := ClassName(HelmPackage, ["Ui", "Factory"])
  const HelmInjectType := ClassName(HelmPackage + ".annotations", ["HelmInject"])

  const ComponentSuffix := "_HelmComponent"

  predicate EndsWith(s: string, suffix: string) {
    |suffix| <= |s| && s[|s| - |suffix|..] == suffix
  }

  /** Lower-casing of one character, on ASCII letters only. */
  function LowercaseAscii(c: char): (r: char)
    ensures 'A' <= c <= 'Z' ==> 'a' <= r <= 'z' && r as int == c as int + 32
    ensures !('A' <= c <= 'Z') ==> r == c
  {
    if 'A' <= c <= 'Z' then (c as int - 'A' as int + 'a' as int) as char else c
  }

  /** `replaceFirstChar { it.lowercase(Locale.ROOT) }`: the first character
      lower-cased, the rest kept; the empty string stays empty. */
  function LowercaseFirstChar(s: string): (r: string)
    ensures |r| == |s|
    ensures |s| > 0 ==> r[0] == LowercaseAscii(s[0]) && r[1..] == s[1..]
  {
    if |s| == 0 then s else [LowercaseAscii(s[0])] + s[1..]
  }

  /** Lower-casing the first character twice is lower-casing it once, and
      a name that already starts in lower case is left alone. */
  lemma LowercaseFirstCharIdempotent(s: string)
    ensures LowercaseFirstChar(LowercaseFirstChar(s)) == LowercaseFirstChar(s)
    ensures |s| > 0 && !('A' <= s[0] <= 'Z') ==> LowercaseFirstChar(s) == s
  {
  }

  // ---------------------------------------------------------------------
  // Input
  // ---------------------------------------------------------------------

  /** One argument of the `HelmInject` annotation: its name (KSP may not
      know it) and the class it names. */
  datatype AnnotationArgument = AnnotationArgument(name: Option<string>, value: ClassName)

  /** A symbol carrying `HelmInject`. `isPresenter` and `isUi` are the
      answers of `Presenter<*, *>.isAssignableFrom` and
      `Ui<*, *>.isAssignableFrom` on its type. */
  datatype Declaration = Declaration(
    isClass: bool,
    packageName: string,
    simpleName: string,
    isPresenter: bool,
    isUi: bool,
    helmInjectArguments: seq<AnnotationArgument>,
    containingFile: Option<string>)

  /** `element.toClassName()` of a top-level class. */
  function ElementClassName(d: Declaration): ClassName
  {
    ClassName(d.packageName, [d.simpleName])
  }

  /** The resolver: the qualified names of the classes on the classpath and
      the symbols `getSymbolsWithAnnotation` returns, in its order. */
  datatype Resolver = Resolver(classpath: set<string>, annotatedSymbols: seq<Declaration>)

  // ---------------------------------------------------------------------
  // Errors
  // ---------------------------------------------------------------------

  const NoMatchingElementMessage := "Collection contains no element matching the predicate."

  function LoadFailureMessage(qualifiedName: string): string
  {
    "Failed to load " + qualifiedName + " from classpath."
  }

  // ---------------------------------------------------------------------
  // Well-known types
  // ---------------------------------------------------------------------

  /** The types both processors load before looking at any symbol. */
  datatype HelmSymbols = HelmSymbols(
    helmInject: ClassName,
    presenterFactory: ClassName,
    uiFactory: ClassName,
    screen: ClassName,
    navigator: ClassName,
    presenter: ClassName,
    ui: ClassName)

  /** The qualified names loaded, in the order the fields of `HelmSymbols`
      are initialised, each with the class it denotes. */
  const WellKnownTypes: seq<(string, ClassName)> := [
    (HelmPackage + ".annotations.HelmInject", HelmInjectType),
    (HelmPackage + ".Presenter.Factory", PresenterFactoryType),
    (HelmPackage + ".Ui.Factory", UiFactoryType),
    (HelmPackage + ".Screen", ScreenType),
    (HelmPackage + ".Navigator", NavigatorType),
    (HelmPackage + ".Presenter", PresenterType),
    (HelmPackage + ".Ui", UiType)
  ]

  /** `loadKSType` over a list of names: each must be on the classpath; the
      first that is not ends the loading with an `IllegalState`. */
  function LoadInOrder(classpath: set<string>, types: seq<(string, ClassName)>): (r: Result<seq<ClassName>, KotlinException>)
    ensures r.Success? <==> forall i :: 0 <= i < |types| ==> types[i].0 in classpath
    ensures r.Success? ==> |r.value| == |types| && forall i :: 0 <= i < |types| ==> r.value[i] == types[i].1
    ensures r.Failure? ==> exists i ::
      && 0 <= i < |types|
      && types[i].0 !in classpath
      && (forall k :: 0 <= k < i ==> types[k].0 in classpath)
      && r.error == IllegalState(LoadFailureMessage(types[i].0))
    decreases |types|
  {
    if |types| == 0 then Success([])
    else if types[0].0 !in classpath then Failure(IllegalState(LoadFailureMessage(types[0].0)))
    else
      var rest := LoadInOrder(classpath, types[1..]);
      assert forall i :: 0 < i < |types| ==> types[i] == types[1..][i - 1];
      if rest.Failure? then rest else Success([types[0].1] + rest.value)
  }

  /** `HelmSymbols(resolver)`: all seven types or the failure on the first
      one missing from the classpath. */
  function LoadSymbols(resolver: Resolver): (r: Result<HelmSymbols, KotlinException>)
    ensures r.Success? <==> forall i :: 0 <= i < |WellKnownTypes| ==> WellKnownTypes[i].0 in resolver.classpath
    ensures r.Success? ==> r.value == HelmSymbols(HelmInjectType, PresenterFactoryType, UiFactoryType,
                                                  ScreenType, NavigatorType, PresenterType, UiType)
    ensures r.Failure? ==> exists i ::
      && 0 <= i < |WellKnownTypes|
      && WellKnownTypes[i].0 !in resolver.classpath
      && (forall k :: 0 <= k < i ==> WellKnownTypes[k].0 in resolver.classpath)
      && r.error == IllegalState(LoadFailureMessage(WellKnownTypes[i].0))
  {
    var loaded :- LoadInOrder(resolver.classpath, WellKnownTypes);
    Success(HelmSymbols(loaded[0], loaded[1], loaded[2], loaded[3], loaded[4], loaded[5], loaded[6]))
  }

  // ---------------------------------------------------------------------
  // Shared steps of generation
  // ---------------------------------------------------------------------

  /** The roles an annotated class can play. */
  datatype Role = PresenterRole | UiRole

  /** `require(isPresenter xor isUi)`: the role, or `IllegalArgument` with
      the processor's message for a class implementing both or neither. */
  function CheckRole(d: Declaration, message: string): (r: Result<Role, KotlinException>)
    ensures r.Success? <==> d.isPresenter != d.isUi
    ensures r.Success? ==> (r.value == PresenterRole <==> d.isPresenter)
    ensures r.Failure? ==> r.error == IllegalArgument(message)
  {
    if d.isPresenter != d.isUi then Success(if d.isPresenter then PresenterRole else UiRole)
    else Failure(IllegalArgument(message))
  }

  predicate HasArgument(args: seq<AnnotationArgument>, name: string) {
    exists i :: 0 <= i < |args| && args[i].name == Some(name)
  }

  /** `annotation.arguments.first { it.name?.asString() == name }.value`:
      the value of the first argument with that name, wherever it stands. */
  function ArgumentNamed(args: seq<AnnotationArgument>, name: string): (r: Result<ClassName, KotlinException>)
    ensures r.Success? <==> HasArgument(args, name)
    ensures r.Success? ==> exists i ::
      && 0 <= i < |args|
      && args[i] == AnnotationArgument(Some(name), r.value)
      && forall k :: 0 <= k < i ==> args[k].name != Some(name)
    ensures r.Failure? ==> r.error == NoSuchElement(NoMatchingElementMessage)
    decreases |args|
  {
    if |args| == 0 then Failure(NoSuchElement(NoMatchingElementMessage))
    else if args[0].name == Some(name) then Success(args[0].value)
    else
      var rest := ArgumentNamed(args[1..], name);
      assert forall i :: 0 < i < |args| ==> args[i] == args[1..][i - 1];
      rest
  }

  /** The argument is found by name wherever it stands among arguments
      with other names: the order of the arguments does not matter. */
  lemma ArgumentPositionIrrelevant(before: seq<AnnotationArgument>, after: seq<AnnotationArgument>, arg: AnnotationArgument, name: string)
    requires arg.name == Some(name)
    requires !HasArgument(before, name) && !HasArgument(after, name)
    ensures ArgumentNamed(before + [arg] + after, name) == Success(arg.value)
  {
    var xs := before + [arg] + after;
    assert xs[|before|] == arg;
    assert forall k :: 0 <= k < |xs| && k != |before| ==> xs[k].name != Some(name) by {
      forall k | 0 <= k < |xs| && k != |before| ensures xs[k].name != Some(name) {
        if k < |before| { assert xs[k] == before[k]; } else { assert xs[k] == after[k - |before| - 1]; }
      }
    }
  }

  /** `<SimpleName>_HelmComponent` in the element's package. */
  function ComponentClassName(d: Declaration): (c: ClassName)
    ensures c.packageName == d.packageName
    ensures |c.simpleNames| == 1 && EndsWith(c.simpleNames[0], ComponentSuffix)
  {
    ClassName(d.packageName, [d.simpleName + ComponentSuffix])
  }

  /** Two declarations get the same component name only if they have the
      same package and simple name: the suffix cannot make names collide. */
  lemma ComponentClassNameInjective(d1: Declaration, d2: Declaration)
    requires ComponentClassName(d1) == ComponentClassName(d2)
    ensures d1.packageName == d2.packageName && d1.simpleName == d2.simpleName
  {
  }

  // ---------------------------------------------------------------------
  // Output and the processing loop
  // ---------------------------------------------------------------------

  /** A parameter of a generated function or constructor. */
  datatype Parameter = Parameter(name: string, typeName: ClassName)

  /** The names of a parameter list, in order. */
  function ParameterNames(ps: seq<Parameter>): (names: seq<string>)
    ensures |names| == |ps|
    ensures forall i :: 0 <= i < |ps| ==> names[i] == ps[i].name
  {
    seq(|ps|, i requires 0 <= i < |ps| => ps[i].name)
  }

  /** A `FileSpec` written by `writeTo(aggregating = false)`: package, file
      name (without ".kt"), the originating source file and its one type. */
  datatype FileSpec<T> = FileSpec(packageName: string, name: string, originatingFile: Option<string>, content: T)

  /** The name of the file KSP writes for a `FileSpec`. */
  function FileName<T>(f: FileSpec<T>): (n: string)
    ensures EndsWith(n, ".kt")
    ensures |n| == |f.name| + 3 && n[..|f.name|] == f.name
  {
    f.name + ".kt"
  }

  /** What one `process` call leaves behind: the files written, in order,
      and the exception that ended the call, if any. */
  datatype ProcessOutcome<F> = ProcessOutcome(written: seq<F>, thrown: Option<KotlinException>)

  /** `forEach` over the annotated symbols with a body that may throw: each
      symbol's file is written before the next symbol is looked at, and the
      first exception leaves the loop, so later symbols produce nothing. */
  function ForEachUntilThrow<D, F>(symbols: seq<D>, generate: D -> Result<F, KotlinException>): (o: ProcessOutcome<F>)
    ensures |o.written| <= |symbols|
    ensures forall i :: 0 <= i < |o.written| ==> generate(symbols[i]) == Success(o.written[i])
    ensures o.thrown.None? <==> |o.written| == |symbols|
    ensures o.thrown.Some? ==> generate(symbols[|o.written|]) == Failure(o.thrown.value)
    decreases |symbols|
  {
    if |symbols| == 0 then ProcessOutcome([], None)
    else match generate(symbols[0])
      case Failure(e) => ProcessOutcome([], Some(e))
      case Success(f) =>
        var rest := ForEachUntilThrow(symbols[1..], generate);
        assert forall i :: 0 < i < |symbols| ==> symbols[i] == symbols[1..][i - 1];
        ProcessOutcome([f] + rest.written, rest.thrown)
  }

  /** The symbol that throws is the first one whose generation fails; every
      symbol before it succeeded. */
  lemma ForEachStopsAtFirstFailure<D, F>(symbols: seq<D>, generate: D -> Result<F, KotlinException>, k: nat)
    requires k < |symbols| && generate(symbols[k]).Failure?
    requires forall i :: 0 <= i < k ==> generate(symbols[i]).Success?
    ensures |ForEachUntilThrow(symbols, generate).written| == k
    ensures ForEachUntilThrow(symbols, generate).thrown == Some(generate(symbols[k]).error)
  {
  }

  // ---------------------------------------------------------------------
  // Runtime
  // ---------------------------------------------------------------------

  /** A screen at runtime: the class it is an instance of, every class and
      interface that class extends or implements, and its data. */
  datatype Screen = Screen(screenClass: ClassName, supertypes: set<ClassName>, data: string)

  /** Kotlin's `screen is t`: `t` is the screen's own class or one of its
      supertypes. */
  predicate IsInstance(screen: Screen, t: ClassName) {
    t == screen.screenClass || t in screen.supertypes
  }

  /** An element built by a generated subcomponent: its class, and the
      screen and navigator that subcomponent makes available to it. */
  datatype Element<N> = Element(elementClass: ClassName, screen: Screen, navigator: Option<N>)
}
