/** The kotlin-inject processor (`HelmKotlinInjectSymbolProcessor`). For each
    annotated class it writes one file holding the interface
    `<SimpleName>_HelmComponent`, which nests an abstract `@Component` class
    `Subcomponent` and declares one `@Provides @IntoSet` function returning a
    `Presenter.Factory` or a `Ui.Factory`. */
module KotlinInjectCodegen {
  import opened Wrappers
  import opened Codegen
  import opened Exceptions
  import Router

  const NotAClassMessage := "Can only generate code for classes."
  const RoleMessage := "HelmInject annotated classes must implement Presenter<*, *> or Ui<*, *>"

  /** The kotlin-inject annotation on a subcomponent property. */
  datatype PropertyAnnotation = ComponentAnnotation | ProvidesOnGetter

  /** A `public val` of the subcomponent initialised from the constructor
      parameter named `initializer`. */
  datatype Property = Property(name: string, typeName: ClassName, annotation: PropertyAnnotation, initializer: string)

  /** `@Component public abstract class Subcomponent(<parameters>)` with its
      properties and `public abstract fun element(): <elementType>`. */
  datatype Subcomponent = Subcomponent(
    className: ClassName,
    constructorParameters: seq<Parameter>,
    properties: seq<Property>,
    elementType: ClassName)

  /** `@Provides @IntoSet public fun <name>(): <returnType>`, returning an
      object whose `create` builds the subcomponent's element when the
      screen is a `<screenType>` and returns null otherwise. */
  datatype ProviderFunction = ProviderFunction(name: string, role: Role, returnType: ClassName, screenType: ClassName)

  /** The generated `interface <SimpleName>_HelmComponent`. */
  datatype HelmComponent = HelmComponent(className: ClassName, subcomponent: Subcomponent, provider: ProviderFunction)

  /** Every property is backed by the constructor parameter of the same
      name and type. */
  predicate PropertiesMirrorParameters(s: Subcomponent) {
    && |s.properties| == |s.constructorParameters|
    && forall i :: 0 <= i < |s.properties| ==>
         && s.properties[i].name == s.constructorParameters[i].name
         && s.properties[i].typeName == s.constructorParameters[i].typeName
         && s.properties[i].initializer == s.constructorParameters[i].name
  }

  /** Whether the subcomponent provides a navigator binding to its element. */
  predicate ProvidesNavigator(s: Subcomponent) {
    exists i :: 0 <= i < |s.properties| && s.properties[i].name == "navigator" && s.properties[i].annotation == ProvidesOnGetter
  }

  /** `generateSubcomponent`: the parent component (annotated `@Component`)
      and the screen are always bound; the navigator only when asked for. */
  function GenerateSubcomponent(
    className: ClassName, component: ClassName, element: ClassName, screen: ClassName,
    hasNavigator: bool, symbols: HelmSymbols): (s: Subcomponent)
    ensures s.className == className && s.elementType == element
    ensures PropertiesMirrorParameters(s)
    ensures ParameterNames(s.constructorParameters) == ["parent", "screen"] + (if hasNavigator then ["navigator"] else [])
    ensures s.constructorParameters[0].typeName == component && s.constructorParameters[1].typeName == screen
    ensures hasNavigator ==> s.constructorParameters[2].typeName == symbols.navigator
    ensures s.properties[0].annotation == ComponentAnnotation
    ensures forall i :: 1 <= i < |s.properties| ==> s.properties[i].annotation == ProvidesOnGetter
    ensures ProvidesNavigator(s) <==> hasNavigator
  {
    var params := [Parameter("parent", component), Parameter("screen", screen)]
      + (if hasNavigator then [Parameter("navigator", symbols.navigator)] else []);
    var props := [Property("parent", component, ComponentAnnotation, "parent"),
                  Property("screen", screen, ProvidesOnGetter, "screen")]
      + (if hasNavigator then [Property("navigator", symbols.navigator, ProvidesOnGetter, "navigator")] else []);
    var s := Subcomponent(className, params, props, element);
    assert ParameterNames(params) == ["parent", "screen"] + (if hasNavigator then ["navigator"] else []);
    assert hasNavigator ==> props[2].name == "navigator";
    s
  }

  /** `generateProvidesPresenterFactory`. */
  function GenerateProvidesPresenterFactory(element: ClassName, screen: ClassName, symbols: HelmSymbols): (p: ProviderFunction)
    requires |element.simpleNames| > 0
    ensures p.role == PresenterRole && p.returnType == symbols.presenterFactory && p.screenType == screen
    ensures EndsWith(p.name, "_presenterFactory")
  {
    ProviderFunction(LowercaseFirstChar(element.simpleNames[|element.simpleNames| - 1]) + "_presenterFactory",
                     PresenterRole, symbols.presenterFactory, screen)
  }

  /** `generateProvidesUiFactory`. */
  function GenerateProvidesUiFactory(element: ClassName, screen: ClassName, symbols: HelmSymbols): (p: ProviderFunction)
    requires |element.simpleNames| > 0
    ensures p.role == UiRole && p.returnType == symbols.uiFactory && p.screenType == screen
    ensures EndsWith(p.name, "_uiFactory")
  {
    ProviderFunction(LowercaseFirstChar(element.simpleNames[|element.simpleNames| - 1]) + "_uiFactory",
                     UiRole, symbols.uiFactory, screen)
  }

  /** `generateHelmSubcomponent`: the checks in the order the processor
      makes them, then the component's one file. */
  function GenerateHelmSubcomponent(d: Declaration, symbols: HelmSymbols): (r: Result<FileSpec<HelmComponent>, KotlinException>)
    ensures !d.isClass ==> r == Failure(IllegalState(NotAClassMessage))
    ensures d.isClass && d.isPresenter == d.isUi ==> r == Failure(IllegalArgument(RoleMessage))
    ensures d.isClass && d.isPresenter != d.isUi && !HasArgument(d.helmInjectArguments, "screen") ==>
      r == Failure(NoSuchElement(NoMatchingElementMessage))
    ensures r.Success? <==> d.isClass && d.isPresenter != d.isUi && HasArgument(d.helmInjectArguments, "screen")
    ensures r.Success? ==>
      && r.value.packageName == d.packageName
      && r.value.name == d.simpleName + ComponentSuffix
      && r.value.originatingFile == d.containingFile
      && r.value.content.className == ClassName(d.packageName, [r.value.name])
      && r.value.content.subcomponent.className == ClassName(d.packageName, [r.value.name, "Subcomponent"])
      && r.value.content.subcomponent.elementType == ElementClassName(d)
      && r.value.content.provider.screenType == ArgumentNamed(d.helmInjectArguments, "screen").value
  {
    if !d.isClass then Failure(IllegalState(NotAClassMessage))
    else
      var role :- CheckRole(d, RoleMessage);
      var screen :- ArgumentNamed(d.helmInjectArguments, "screen");
      var component := ComponentClassName(d);
      var subcomponentName := NestedClass(component, "Subcomponent");
      var element := ElementClassName(d);
      var isPresenter := role == PresenterRole;
      var subcomponent := GenerateSubcomponent(subcomponentName, component, element, screen, isPresenter, symbols);
      var provider :=
        if isPresenter then GenerateProvidesPresenterFactory(element, screen, symbols)
        else GenerateProvidesUiFactory(element, screen, symbols);
      Success(FileSpec(d.packageName, component.simpleNames[0], d.containingFile,
                       HelmComponent(component, subcomponent, provider)))
  }

  /** The role-dependent parts of a generated component: a presenter gets
      `[parent, screen, navigator]` and `<name>_presenterFactory`, a UI gets
      `[parent, screen]` and `<name>_uiFactory`, where `<name>` is the simple
      name with its first character lower-cased. */
  lemma GeneratedShapeByRole(d: Declaration, symbols: HelmSymbols)
    requires GenerateHelmSubcomponent(d, symbols).Success?
    ensures var c := GenerateHelmSubcomponent(d, symbols).value.content;
      && (d.isPresenter ==>
            && ParameterNames(c.subcomponent.constructorParameters) == ["parent", "screen", "navigator"]
            && c.provider.role == PresenterRole
            && c.provider.returnType == symbols.presenterFactory
            && c.provider.name == LowercaseFirstChar(d.simpleName) + "_presenterFactory")
      && (d.isUi ==>
            && ParameterNames(c.subcomponent.constructorParameters) == ["parent", "screen"]
            && c.provider.role == UiRole
            && c.provider.returnType == symbols.uiFactory
            && c.provider.name == LowercaseFirstChar(d.simpleName) + "_uiFactory")
  {
  }

  // ---------------------------------------------------------------------
  // The generated factories at runtime
  // ---------------------------------------------------------------------

  /** `create(screen, navigator)` of the object a presenter provider returns:
      `Subcomponent::class.create(this, screen, navigator).element()` when
      `screen is <screenType>`, null otherwise. */
  function InvokePresenterFactory<N>(c: HelmComponent, screen: Screen, navigator: N): (e: Option<Element<N>>)
    requires c.provider.role == PresenterRole
    ensures e.Some? <==> IsInstance(screen, c.provider.screenType)
    ensures e.Some? ==> e.value.elementClass == c.subcomponent.elementType && e.value.screen == screen
    ensures e.Some? ==> e.value.navigator == (if ProvidesNavigator(c.subcomponent) then Some(navigator) else None)
  {
    if IsInstance(screen, c.provider.screenType) then
      Some(Element(c.subcomponent.elementType, screen, if ProvidesNavigator(c.subcomponent) then Some(navigator) else None))
    else None
  }

  /** `create(screen)` of the object a UI provider returns. */
  function InvokeUiFactory<N>(c: HelmComponent, screen: Screen): (e: Option<Element<N>>)
    requires c.provider.role == UiRole
    ensures e.Some? <==> IsInstance(screen, c.provider.screenType)
    ensures e.Some? ==> e.value.elementClass == c.subcomponent.elementType && e.value.screen == screen
    ensures e.Some? ==> e.value.navigator.None?
  {
    if IsInstance(screen, c.provider.screenType) then
      Some(Element(c.subcomponent.elementType, screen, None))
    else None
  }

  /** The generated factory answers exactly the screens that are instances
      of the annotated screen class (subclasses included), with an element of
      the annotated class bound to that screen; a presenter also gets the
      navigator it was handed, a UI never gets one. */
  lemma GeneratedFactoryMatchesScreenClass<N>(d: Declaration, symbols: HelmSymbols, screen: Screen, navigator: N)
    requires GenerateHelmSubcomponent(d, symbols).Success?
    ensures var c := GenerateHelmSubcomponent(d, symbols).value.content;
      var screenClass := ArgumentNamed(d.helmInjectArguments, "screen").value;
      && (d.isPresenter ==>
            InvokePresenterFactory(c, screen, navigator) ==
              if IsInstance(screen, screenClass) then Some(Element(ElementClassName(d), screen, Some(navigator))) else None)
      && (d.isUi ==>
            InvokeUiFactory<N>(c, screen) ==
              if IsInstance(screen, screenClass) then Some(Element(ElementClassName(d), screen, None)) else None)
  {
  }

  // ---------------------------------------------------------------------
  // process
  // ---------------------------------------------------------------------

  /** `process`: load the well-known types (a missing one throws before any
      symbol is looked at), then generate symbol by symbol until one throws. */
  function Process(resolver: Resolver): (o: ProcessOutcome<FileSpec<HelmComponent>>)
    ensures LoadSymbols(resolver).Failure? ==> o == ProcessOutcome([], Some(LoadSymbols(resolver).error))
    ensures LoadSymbols(resolver).Success? ==>
      var symbols := LoadSymbols(resolver).value;
      var ds := resolver.annotatedSymbols;
      && |o.written| <= |ds|
      && (forall i :: 0 <= i < |o.written| ==> GenerateHelmSubcomponent(ds[i], symbols) == Success(o.written[i]))
      && (o.thrown.None? <==> |o.written| == |ds|)
      && (o.thrown.Some? ==> GenerateHelmSubcomponent(ds[|o.written|], symbols) == Failure(o.thrown.value))
  {
    match LoadSymbols(resolver)
    case Failure(e) => ProcessOutcome([], Some(e))
    case Success(symbols) =>
      ForEachUntilThrow(resolver.annotatedSymbols, (d: Declaration) => GenerateHelmSubcomponent(d, symbols))
  }

  /** A well-formed symbol followed by one that is not a class: the first
      file is written, the `IllegalState` ends the pass, and whatever comes
      after is never generated. */
  lemma BadSymbolEndsPass(resolver: Resolver, good: Declaration, bad: Declaration, rest: seq<Declaration>)
    requires LoadSymbols(resolver).Success?
    requires GenerateHelmSubcomponent(good, LoadSymbols(resolver).value).Success?
    requires !bad.isClass
    requires resolver.annotatedSymbols == [good, bad] + rest
    ensures |Process(resolver).written| == 1
    ensures Process(resolver).thrown == Some(IllegalState(NotAClassMessage))
  {
    var symbols := LoadSymbols(resolver).value;
    ForEachStopsAtFirstFailure(resolver.annotatedSymbols, (d: Declaration) => GenerateHelmSubcomponent(d, symbols), 1);
  }

  /** Files generated for two different classes differ in package or in
      name, so no file a pass writes overwrites another. */
  lemma GeneratedFilesDistinct(d1: Declaration, d2: Declaration, symbols: HelmSymbols)
    requires GenerateHelmSubcomponent(d1, symbols).Success?
    requires GenerateHelmSubcomponent(d2, symbols).Success?
    requires ElementClassName(d1) != ElementClassName(d2)
    ensures var f1 := GenerateHelmSubcomponent(d1, symbols).value;
      var f2 := GenerateHelmSubcomponent(d2, symbols).value;
      f1.packageName != f2.packageName || f1.name != f2.name
  {
  }

  // ---------------------------------------------------------------------
  // Routing through the generated factories
  // ---------------------------------------------------------------------

  /** The `Presenter.Factory` a presenter component contributes to the
      `@IntoSet` multibinding: it answers the screens that are instances of
      the component's screen type, with an element of its element type. */
  function PresenterFactoryOf<N(!new)>(c: HelmComponent): (f: (Screen, N) -> Option<Element<N>>)
    requires c.provider.role == PresenterRole
    ensures forall s, n :: f(s, n).Some? <==> IsInstance(s, c.provider.screenType)
    ensures forall s, n :: f(s, n).Some? ==> f(s, n).value.elementClass == c.subcomponent.elementType
  {
    (s: Screen, n: N) => InvokePresenterFactory(c, s, n)
  }

  /** The set of presenter factories contributed by a list of presenter
      components, one per component and in the same order. */
  function PresenterFactories<N(!new)>(cs: seq<HelmComponent>): (fs: seq<(Screen, N) -> Option<Element<N>>>)
    requires forall i :: 0 <= i < |cs| ==> cs[i].provider.role == PresenterRole
    ensures |fs| == |cs|
    ensures forall i, s, n :: 0 <= i < |cs| ==> (fs[i](s, n).Some? <==> IsInstance(s, cs[i].provider.screenType))
    ensures forall i, s, n :: 0 <= i < |cs| && fs[i](s, n).Some? ==> fs[i](s, n).value.elementClass == cs[i].subcomponent.elementType
  {
    seq(|cs|, i requires 0 <= i < |cs| => PresenterFactoryOf(cs[i]))
  }

  /** A router over generated presenter factories creates the element of
      the first component whose annotated screen type the screen is an
      instance of, and fails exactly when there is no such component. */
  lemma RouterUsesFirstMatchingComponent<N(!new), U>(cs: seq<HelmComponent>, views: seq<Screen -> Option<U>>, screen: Screen, navigator: N)
    requires forall i :: 0 <= i < |cs| ==> cs[i].provider.role == PresenterRole
    ensures var r := Router.CreatePresenter(Router.Router(PresenterFactories<N>(cs), views), screen, navigator);
      && (r.Failure? <==> forall i :: 0 <= i < |cs| ==> !IsInstance(screen, cs[i].provider.screenType))
      && (r.Success? ==> exists i ::
            && 0 <= i < |cs|
            && IsInstance(screen, cs[i].provider.screenType)
            && r.value.elementClass == cs[i].subcomponent.elementType
            && (forall k :: 0 <= k < i ==> !IsInstance(screen, cs[k].provider.screenType)))
  {
    var fs := PresenterFactories<N>(cs);
    assert forall i :: 0 <= i < |cs| ==> (fs[i](screen, navigator).None? <==> !IsInstance(screen, cs[i].provider.screenType));
  }

  // ---------------------------------------------------------------------
  // The processor test
  // ---------------------------------------------------------------------

  /** The symbol of the presenter test: `MyPresenter`, annotated with
      `HelmInject(MyScreen::class, AppComponent::class)`. */
  function TestPackage(): string { "com.ryanharter.helm.codegen.test" }

  function TestDeclaration(simpleName: string, isPresenter: bool): Declaration
  {
    Declaration(true, TestPackage(), simpleName, isPresenter, !isPresenter,
      [AnnotationArgument(Some("screen"), ClassName(TestPackage(), ["MyScreen"])),
       AnnotationArgument(Some("scope"), ClassName(TestPackage(), ["AppComponent"]))],
      Some(simpleName + ".kt"))
  }

  /** Compiling `MyPresenter` (or `MyUi`) with the Helm runtime on the
      classpath writes exactly one file, whose name ends in
      `MyPresenter_HelmComponent.kt` (or `MyUi_HelmComponent.kt`). */
  lemma TestSingleFile(classpath: set<string>, isPresenter: bool)
    requires forall i :: 0 <= i < |WellKnownTypes| ==> WellKnownTypes[i].0 in classpath
    ensures var name := if isPresenter then "MyPresenter" else "MyUi";
      var o := Process(Resolver(classpath, [TestDeclaration(name, isPresenter)]));
      && o.thrown.None?
      && |o.written| == 1
      && FileName(o.written[0]) == name + "_HelmComponent.kt"
  {
  }
}
