/** The Dagger/Hilt processor (`HelmSymbolProcessor`). For each annotated
    class it writes one file holding the `@Subcomponent` interface
    `<SimpleName>_HelmComponent` with `element()`, a nested
    `@Subcomponent.Factory` interface `Factory`, and a nested `@Module` class
    `ParentModule` installed in the annotation's scope, which provides one
    `Presenter.Factory` or `Ui.Factory` into a set. */
module DaggerCodegen {
  import opened Wrappers
  import opened Codegen
  import opened Exceptions

  const NotAClassMessage := "Can only generate code for classes and functions."
  const RoleMessage := "HiltInject annotated classed must implement Presenter<*, *> or Ui<*, *>"

  /** `@Subcomponent.Factory interface Factory { fun create(<params>): <returnType> }`,
      every parameter of `create` annotated `@BindsInstance`. */
  datatype SubcomponentFactory = SubcomponentFactory(className: ClassName, createParameters: seq<Parameter>, returnType: ClassName)

  /** `@Provides @IntoSet fun <name>(componentFactory: <componentFactory>): <returnType>`,
      returning an object whose `create` answers screens of `screenType`. */
  datatype ProviderFunction = ProviderFunction(
    name: string, role: Role, componentFactory: ClassName, returnType: ClassName, screenType: ClassName)

  /** `@Module(subcomponents = [...]) @InstallIn(<installIn>) class ParentModule`
      with its one provider. */
  datatype ParentModule = ParentModule(className: ClassName, subcomponents: seq<ClassName>, installIn: ClassName, provider: ProviderFunction)

  /** The generated `@Subcomponent interface <SimpleName>_HelmComponent`. */
  datatype HelmComponent = HelmComponent(className: ClassName, elementType: ClassName, factory: SubcomponentFactory, parentModule: ParentModule)

  /** Whether `create` takes a navigator. */
  predicate BindsNavigator(f: SubcomponentFactory) {
    exists i :: 0 <= i < |f.createParameters| && f.createParameters[i].name == "navigator"
  }

  /** `generateSubcomponentFactory`: `create` binds the screen, and the
      navigator too when asked for, and returns the component. */
  function GenerateSubcomponentFactory(className: ClassName, subcomponent: ClassName, screen: ClassName,
                                       hasNavigator: bool, symbols: HelmSymbols): (f: SubcomponentFactory)
    ensures f.className == className && f.returnType == subcomponent
    ensures ParameterNames(f.createParameters) == ["screen"] + (if hasNavigator then ["navigator"] else [])
    ensures f.createParameters[0].typeName == screen
    ensures hasNavigator ==> f.createParameters[1].typeName == symbols.navigator
    ensures BindsNavigator(f) <==> hasNavigator
  {
    var params := [Parameter("screen", screen)]
      + (if hasNavigator then [Parameter("navigator", symbols.navigator)] else []);
    assert ParameterNames(params) == ["screen"] + (if hasNavigator then ["navigator"] else []);
    assert hasNavigator ==> params[1].name == "navigator";
    SubcomponentFactory(className, params, subcomponent)
  }

  /** `generateParentModule`: the component is its only subcomponent, it is
      installed in the scope, and it holds the one provider it is given. */
  function GenerateParentModule(className: ClassName, component: ClassName, scope: ClassName, provider: ProviderFunction): (m: ParentModule)
    ensures m.subcomponents == [component] && m.installIn == scope && m.provider == provider
    ensures m.className == className
  {
    ParentModule(className, [component], scope, provider)
  }

  /** `generateProvidesPresenterFactory`: named `presenterFactory`, whatever the class. */
  function GenerateProvidesPresenterFactory(factory: ClassName, screen: ClassName, symbols: HelmSymbols): (p: ProviderFunction)
    ensures p.name == "presenterFactory" && p.role == PresenterRole
    ensures p.componentFactory == factory && p.returnType == symbols.presenterFactory && p.screenType == screen
  {
    ProviderFunction("presenterFactory", PresenterRole, factory, symbols.presenterFactory, screen)
  }

  /** `generateProvidesUiFactory`: named `uiFactory`, whatever the class. */
  function GenerateProvidesUiFactory(factory: ClassName, screen: ClassName, symbols: HelmSymbols): (p: ProviderFunction)
    ensures p.name == "uiFactory" && p.role == UiRole
    ensures p.componentFactory == factory && p.returnType == symbols.uiFactory && p.screenType == screen
  {
    ProviderFunction("uiFactory", UiRole, factory, symbols.uiFactory, screen)
  }

  /** `generatePresenterSubcomponent`: the checks in the order the processor
      makes them (`screen` is read before `scope`), then the one file. */
  function GeneratePresenterSubcomponent(d: Declaration, symbols: HelmSymbols): (r: Result<FileSpec<HelmComponent>, KotlinException>)
    ensures !d.isClass ==> r == Failure(IllegalState(NotAClassMessage))
    ensures d.isClass && d.isPresenter == d.isUi ==> r == Failure(IllegalArgument(RoleMessage))
    ensures d.isClass && d.isPresenter != d.isUi
            && !(HasArgument(d.helmInjectArguments, "screen") && HasArgument(d.helmInjectArguments, "scope")) ==>
      r == Failure(NoSuchElement(NoMatchingElementMessage))
    ensures r.Success? <==>
      && d.isClass && d.isPresenter != d.isUi
      && HasArgument(d.helmInjectArguments, "screen") && HasArgument(d.helmInjectArguments, "scope")
    ensures r.Success? ==>
      var c := r.value.content;
      && r.value.packageName == d.packageName
      && r.value.name == d.simpleName + ComponentSuffix
      && r.value.originatingFile == d.containingFile
      && c.className == ClassName(d.packageName, [r.value.name])
      && c.elementType == ElementClassName(d)
      && c.factory.className == ClassName(d.packageName, [r.value.name, "Factory"])
      && c.factory.returnType == c.className
      && c.parentModule.className == ClassName(d.packageName, [r.value.name, "ParentModule"])
      && c.parentModule.subcomponents == [c.className]
      && c.parentModule.installIn == ArgumentNamed(d.helmInjectArguments, "scope").value
      && c.parentModule.provider.componentFactory == c.factory.className
      && c.parentModule.provider.screenType == ArgumentNamed(d.helmInjectArguments, "screen").value
  {
    if !d.isClass then Failure(IllegalState(NotAClassMessage))
    else
      var role :- CheckRole(d, RoleMessage);
      var screen :- ArgumentNamed(d.helmInjectArguments, "screen");
      var scope :- ArgumentNamed(d.helmInjectArguments, "scope");
      var component := ComponentClassName(d);
      var factoryName := NestedClass(component, "Factory");
      var moduleName := NestedClass(component, "ParentModule");
      var isPresenter := role == PresenterRole;
      var factory := GenerateSubcomponentFactory(factoryName, component, screen, isPresenter, symbols);
      var provider :=
        if isPresenter then GenerateProvidesPresenterFactory(factoryName, screen, symbols)
        else GenerateProvidesUiFactory(factoryName, screen, symbols);
      var parentModule := GenerateParentModule(moduleName, component, scope, provider);
      Success(FileSpec(d.packageName, component.simpleNames[0], d.containingFile,
                       HelmComponent(component, ElementClassName(d), factory, parentModule)))
  }

  /** The role-dependent parts: a presenter's `create` takes
      `[screen, navigator]` and its provider is `presenterFactory`; a UI's
      takes `[screen]` and its provider is `uiFactory`. */
  lemma GeneratedShapeByRole(d: Declaration, symbols: HelmSymbols)
    requires GeneratePresenterSubcomponent(d, symbols).Success?
    ensures var c := GeneratePresenterSubcomponent(d, symbols).value.content;
      && (d.isPresenter ==>
            && ParameterNames(c.factory.createParameters) == ["screen", "navigator"]
            && c.parentModule.provider.name == "presenterFactory"
            && c.parentModule.provider.returnType == symbols.presenterFactory)
      && (d.isUi ==>
            && ParameterNames(c.factory.createParameters) == ["screen"]
            && c.parentModule.provider.name == "uiFactory"
            && c.parentModule.provider.returnType == symbols.uiFactory)
  {
  }

  /** The functions-are-rejected case: the annotation may target a function,
      but a function symbol fails with a message that names functions. */
  lemma FunctionSymbolRejected(d: Declaration, symbols: HelmSymbols)
    requires !d.isClass
    ensures GeneratePresenterSubcomponent(d, symbols) == Failure(IllegalState("Can only generate code for classes and functions."))
  {
  }

  // ---------------------------------------------------------------------
  // The generated factories at runtime
  // ---------------------------------------------------------------------

  /** `create(screen, navigator)` of the object `presenterFactory` returns:
      `componentFactory.create(screen, navigator).element()` when `screen is
      <screenType>`, null otherwise. */
  function InvokePresenterFactory<N>(c: HelmComponent, screen: Screen, navigator: N): (e: Option<Element<N>>)
    requires c.parentModule.provider.role == PresenterRole
    ensures e.Some? <==> IsInstance(screen, c.parentModule.provider.screenType)
    ensures e.Some? ==> e.value.elementClass == c.elementType && e.value.screen == screen
    ensures e.Some? ==> e.value.navigator == (if BindsNavigator(c.factory) then Some(navigator) else None)
  {
    if IsInstance(screen, c.parentModule.provider.screenType) then
      Some(Element(c.elementType, screen, if BindsNavigator(c.factory) then Some(navigator) else None))
    else None
  }

  /** `create(screen)` of the object `uiFactory` returns:
      `componentFactory.create(screen).element()` or null. */
  function InvokeUiFactory<N>(c: HelmComponent, screen: Screen): (e: Option<Element<N>>)
    requires c.parentModule.provider.role == UiRole
    ensures e.Some? <==> IsInstance(screen, c.parentModule.provider.screenType)
    ensures e.Some? ==> e.value.elementClass == c.elementType && e.value.screen == screen
    ensures e.Some? ==> e.value.navigator.None?
  {
    if IsInstance(screen, c.parentModule.provider.screenType) then Some(Element(c.elementType, screen, None))
    else None
  }

  /** The generated factory answers exactly the screens that are instances
      of the annotated screen class (subclasses included), with an element of the annotated class bound to that
      screen and, for a presenter, to the navigator it was handed. */
  lemma GeneratedFactoryMatchesScreenClass<N>(d: Declaration, symbols: HelmSymbols, screen: Screen, navigator: N)
    requires GeneratePresenterSubcomponent(d, symbols).Success?
    ensures var c := GeneratePresenterSubcomponent(d, symbols).value.content;
      var screenClass := ArgumentNamed(d.helmInjectArguments, "screen").value;
      && (d.isPresenter ==>
            InvokePresenterFactory(c, screen, navigator) ==
              if IsInstance(screen, screenClass) then Some(Element(ElementClassName(d), screen, Some(navigator))) else None)
      && (d.isUi ==>
            InvokeUiFactory<N>(c, screen) ==
              if IsInstance(screen, screenClass) then Some(Element(ElementClassName(d), screen, None)) else None)
  {
  }

  // ---------------------------------------------------------------------
  // process
  // ---------------------------------------------------------------------

  /** `process`: load the well-known types, then generate symbol by symbol
      until one throws. */
  function Process(resolver: Resolver): (o: ProcessOutcome<FileSpec<HelmComponent>>)
    ensures LoadSymbols(resolver).Failure? ==> o == ProcessOutcome([], Some(LoadSymbols(resolver).error))
    ensures LoadSymbols(resolver).Success? ==>
      var symbols := LoadSymbols(resolver).value;
      var ds := resolver.annotatedSymbols;
      && |o.written| <= |ds|
      && (forall i :: 0 <= i < |o.written| ==> GeneratePresenterSubcomponent(ds[i], symbols) == Success(o.written[i]))
      && (o.thrown.None? <==> |o.written| == |ds|)
      && (o.thrown.Some? ==> GeneratePresenterSubcomponent(ds[|o.written|], symbols) == Failure(o.thrown.value))
  {
    match LoadSymbols(resolver)
    case Failure(e) => ProcessOutcome([], Some(e))
    case Success(symbols) =>
      ForEachUntilThrow(resolver.annotatedSymbols, (d: Declaration) => GeneratePresenterSubcomponent(d, symbols))
  }

  /** A symbol implementing both roles (or neither) after a good one: the
      good one's file stays, the `IllegalArgument` ends the pass and later
      symbols are never generated. */
  lemma RoleViolationEndsPass(resolver: Resolver, good: Declaration, bad: Declaration, rest: seq<Declaration>)
    requires LoadSymbols(resolver).Success?
    requires GeneratePresenterSubcomponent(good, LoadSymbols(resolver).value).Success?
    requires bad.isClass && bad.isPresenter == bad.isUi
    requires resolver.annotatedSymbols == [good, bad] + rest
    ensures |Process(resolver).written| == 1
    ensures Process(resolver).thrown == Some(IllegalArgument(RoleMessage))
  {
    var symbols := LoadSymbols(resolver).value;
    ForEachStopsAtFirstFailure(resolver.annotatedSymbols, (d: Declaration) => GeneratePresenterSubcomponent(d, symbols), 1);
  }

  /** The processor test: `MyPresenter` (or `MyUi`) annotated
      `HelmInject(MyScreen::class, SingletonComponent::class)` writes
      exactly one file, `MyPresenter_HelmComponent.kt` (or
      `MyUi_HelmComponent.kt`), whose module is installed in
      `SingletonComponent`. */
  lemma TestSingleFile(classpath: set<string>, isPresenter: bool)
    requires forall i :: 0 <= i < |WellKnownTypes| ==> WellKnownTypes[i].0 in classpath
    ensures var name := if isPresenter then "MyPresenter" else "MyUi";
      var pkg := "com.ryanharter.helm.codegen.test";
      var scope := ClassName("dagger.hilt.components", ["SingletonComponent"]);
      var d := Declaration(true, pkg, name, isPresenter, !isPresenter,
        [AnnotationArgument(Some("screen"), ClassName(pkg, ["MyScreen"])), AnnotationArgument(Some("scope"), scope)],
        Some(name + ".kt"));
      var o := Process(Resolver(classpath, [d]));
      && o.thrown.None?
      && |o.written| == 1
      && FileName(o.written[0]) == name + "_HelmComponent.kt"
      && o.written[0].content.parentModule.installIn == scope
  {
  }
}
