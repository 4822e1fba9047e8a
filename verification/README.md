# Helm navigation and code generation, modelled in Dafny

Helm is a small navigation and dependency-injection layer for Compose. This
project models its sequential core:

- **Navigator** (`navigator.dfy`, module `Navigator`): the back stack of the
  common `ComposeNavigator`, which starts as `[initialScreen]` and changes
  through `goTo`, `popBackStack` and `popWhile`. It also covers the two rules
  the `Navigator` composable derives from the stack. The back handler is
  enabled when the stack has more than one entry. The transition direction is
  the size difference clamped to -1..1.
- **Android navigator** (`navigator_android.dfy`, module `AndroidNavigator`):
  the older Android copy of the same operations, plus `saveState` and
  `restoreState`. The `Bundle` is reduced to the one screen array the
  navigator stores in it.
- **Router** (`router.dfy`, module `Router`): `createPresenter` and `createUi`
  return the first non-null answer of the registered factories, in order.
  If no factory answers, they throw `NoSuchElementException`.
- **Code generators** (`codegen.dfy`, `codegen_kotlin_inject.dfy`,
  `codegen_dagger.dfy`): the two KSP processors. Each takes a `HelmInject`
  annotated declaration to either the description of the one file it writes
  or the exception it throws. The model includes the runtime behaviour of the
  generated factory and the `process` loop that the first exception ends.

Screens and navigators are type parameters in the navigator and router. For
the generated factories, a screen at runtime is its class together with the
set of its supertypes, so that Kotlin's `screen is T` can be modelled. The
generators see a declaration as a record:

- whether it is a class;
- its package and simple name;
- the two `isAssignableFrom` answers;
- the `HelmInject` arguments;
- its containing file.

A Kotlin exception is a `KotlinException` (module `Exceptions`):

- `IllegalState` stands for `error(...)`;
- `IllegalArgument` stands for a failed `require`;
- `NoSuchElement` stands for `first { }` or `firstNotNullOf` finding nothing.

The model follows the code as written, including three behaviours a reader
may not expect:

- `popWhile` with a predicate that holds on every entry never returns. It
  does not stop at one entry (see Findings).
- One failing symbol ends the `process` pass: files already written stay,
  and later symbols are not processed.
- The Android `restoreState` can leave an empty stack. The composable then
  renders nothing.

## Model

| member | source | states |
|---|---|---|
| Navigator.Initial | helm/src/commonMain/kotlin/com/ryanharter/helm/Navigator.kt:36 | A new navigator's stack is non-empty, has the initial screen on top and has its back handler disabled |
| Navigator.LastOrNull | helm/src/commonMain/kotlin/com/ryanharter/helm/Navigator.kt:98 | No screen exactly when the stack is empty; otherwise the last entry |
| Navigator.GoTo | helm/src/commonMain/kotlin/com/ryanharter/helm/Navigator.kt:54-56 | `goTo` grows the stack by one, keeps every earlier entry and puts the screen on top |
| Navigator.PopBackStack | helm/src/commonMain/kotlin/com/ryanharter/helm/Navigator.kt:58-60 | With more than one entry `popBackStack` drops exactly the top and keeps the prefix; otherwise it changes nothing |
| Navigator.PopUndoesGoTo | helm/src/commonMain/kotlin/com/ryanharter/helm/Navigator.kt:54-60 | `popBackStack` after `goTo` gives back any non-empty stack |
| Navigator.BackHandlerEnabled | helm/src/commonMain/kotlin/com/ryanharter/helm/Navigator.kt:96 | The back handler is enabled exactly when `popBackStack` would change the stack, and then the popped stack is still non-empty |
| Navigator.CoerceIn | helm/src/commonMain/kotlin/com/ryanharter/helm/Navigator.kt:101 | `coerceIn` returns a value inside the range: the input itself when it is inside, otherwise the nearer bound |
| Navigator.Direction | helm/src/commonMain/kotlin/com/ryanharter/helm/Navigator.kt:100-101 | The direction is in {-1, 0, 1}, has the sign of the size change, and is 0 exactly when the sizes are equal |
| Navigator.DirectionsAsWritten | helm/src/commonMain/kotlin/com/ryanharter/helm/Navigator.kt:100-101 | Over successive compositions, each direction is measured against the size seen at the first composition |
| Navigator.DirectionsIntended | helm/src/commonMain/kotlin/com/ryanharter/helm/Navigator.kt:100-101 | Corrected rule: each direction follows the change since the composition just before it |
| Navigator.StaleDirectionOnBackStep | helm/src/commonMain/kotlin/com/ryanharter/helm/Navigator.kt:100-101 | Sizes 1, 2, 3, 2 make the back step slide forward (+1); the corrected rule gives -1 |
| Navigator.PopKeepsFailingEntry | helm/src/commonMain/kotlin/com/ryanharter/helm/Navigator.kt:58-64 | While `popWhile` keeps looping on a stack that has an entry failing the predicate, the stack has at least two entries and the pop keeps that failing entry |
| Navigator.KeepsPopping | helm/src/commonMain/kotlin/com/ryanharter/helm/Navigator.kt:63 | The loop test holds exactly when `lastOrNull()` is a screen and the predicate holds on it |
| Navigator.Iterate | helm/src/commonMain/kotlin/com/ryanharter/helm/Navigator.kt:62-64 | After `n` turns the loop leaves a prefix of the stack with at most `n` entries removed, each of which satisfied the predicate; a non-empty stack stays non-empty |
| Navigator.PopWhile | helm/src/commonMain/kotlin/com/ryanharter/helm/Navigator.kt:62-64 | When it returns, `popWhile` leaves a prefix of the stack whose top fails the predicate. Every removed entry satisfied it, and a non-empty stack stays non-empty |
| Navigator.IterateReachesPopWhile | helm/src/commonMain/kotlin/com/ryanharter/helm/Navigator.kt:62-64 | The loop, run turn by turn, reaches `PopWhile`'s result within `size` turns and stays there |
| Navigator.PopWhileSpins | helm/src/commonMain/kotlin/com/ryanharter/helm/Navigator.kt:58-64 | If every entry satisfies the predicate, the loop test stays true after any number of turns, and the loop sticks on the bottom entry |
| Navigator.PopWhileTerminatesIff | helm/src/commonMain/kotlin/com/ryanharter/helm/Navigator.kt:62-64 | The loop exits after some number of turns if and only if the stack is empty or some entry fails the predicate |
| Navigator.PopWhileHangsOnAlwaysTrue | helm/src/commonMain/kotlin/com/ryanharter/helm/Navigator.kt:62-64 | On a one-screen stack with an always-true predicate, the loop never exits |
| Navigator.PopWhileBounded | helm/src/commonMain/kotlin/com/ryanharter/helm/Navigator.kt:26-27 | Corrected `popWhile`: always returns a non-empty prefix of a non-empty stack. Every removed entry satisfied the predicate, and the top fails it unless only one entry is left |
| Navigator.PopWhileBoundedAgrees | helm/src/commonMain/kotlin/com/ryanharter/helm/Navigator.kt:58-64 | The corrected loop equals `popWhile` wherever `popWhile` returns on a non-empty stack; where it would hang, it returns the bottom entry |
| Navigator.RunKeepsNonEmpty | helm/src/commonMain/kotlin/com/ryanharter/helm/Navigator.kt:36-64 | No sequence of `goTo`, `popBackStack` and returning `popWhile` calls can empty a non-empty stack |
| Navigator.PushTwicePopTwice | helm/src/commonMain/kotlin/com/ryanharter/helm/Navigator.kt:54-60 | From `[A]`, `goTo(B)`, `goTo(C)` and two `popBackStack` calls give `[A]` |
| AndroidNavigator.Create | helm/src/androidMain/kotlin/com/ryanharter/helm/Navigator.android.kt:33 | The Android navigator starts non-empty, with the initial screen on top and the back handler disabled |
| AndroidNavigator.GoTo | helm/src/androidMain/kotlin/com/ryanharter/helm/Navigator.android.kt:51-53 | `goTo` appends the screen at the end and leaves the prefix unchanged |
| AndroidNavigator.PopBackStack | helm/src/androidMain/kotlin/com/ryanharter/helm/Navigator.android.kt:55-57 | `popBackStack` removes the last entry only when there are more than one |
| AndroidNavigator.PopWhile | helm/src/androidMain/kotlin/com/ryanharter/helm/Navigator.android.kt:59-61 | Same truncation as the common `popWhile`. It also returns on an empty stack, which only a restore can produce |
| AndroidNavigator.SaveState | helm/src/androidMain/kotlin/com/ryanharter/helm/Navigator.android.kt:63-65 | The saved array holds the back stack entry for entry, in order |
| AndroidNavigator.RestoreState | helm/src/androidMain/kotlin/com/ryanharter/helm/Navigator.android.kt:67-78 | After a restore the stack is the saved array, entry for entry; the old stack is gone |
| AndroidNavigator.SaverRestore | helm/src/androidMain/kotlin/com/ryanharter/helm/Navigator.android.kt:84-87 | The saver's `restore` yields exactly the saved stack; the initial screen it starts from is replaced |
| AndroidNavigator.SaveRestoreRoundTrip | helm/src/androidMain/kotlin/com/ryanharter/helm/Navigator.android.kt:63-87 | Restoring another navigator's saved state, directly or through the saver, reproduces that navigator exactly |
| AndroidNavigator.RestoreEmptyBundle | helm/src/androidMain/kotlin/com/ryanharter/helm/Navigator.android.kt:67-78 | Restoring an empty array breaks the never-empty invariant. Nothing is rendered, the back handler is off, `popWhile` returns at once and `goTo` gives a one-screen stack |
| AndroidNavigator.RestoreNonEmptyBundle | helm/src/androidMain/kotlin/com/ryanharter/helm/Navigator.android.kt:67-78 | Restoring a non-empty array gives a non-empty stack |
| AndroidNavigator.BackHandlerEnabled | helm/src/androidMain/kotlin/com/ryanharter/helm/Navigator.android.kt:104 | The back handler is enabled exactly when a back press changes the navigator |
| AndroidNavigator.Render | helm/src/androidMain/kotlin/com/ryanharter/helm/Navigator.android.kt:106-109 | Nothing is rendered exactly when the stack is empty. Otherwise the top screen is shown, with a direction in {-1, 0, 1} that has the sign of the size change |
| Router.FirstNotNullOf | helm/src/commonMain/kotlin/com/ryanharter/helm/Router.kt:8 | Fails with the no-such-element message exactly when every element maps to none. Otherwise it returns the value at the first index that maps to some value |
| Router.DecliningPrefixIrrelevant | helm/src/commonMain/kotlin/com/ryanharter/helm/Router.kt:8 | Elements that all map to none, put in front, do not change the result |
| Router.SuffixAfterAcceptIrrelevant | helm/src/commonMain/kotlin/com/ryanharter/helm/Router.kt:8 | Once an element is accepted, anything appended after the list is never consulted and does not change the result |
| Router.CreatePresenter | helm/src/commonMain/kotlin/com/ryanharter/helm/Router.kt:7-9 | The presenter of the first presenter factory, in list order, that accepts `(screen, navigator)`. Every earlier factory declined with that same navigator. It fails, also on an empty list, exactly when all decline |
| Router.CreateUi | helm/src/commonMain/kotlin/com/ryanharter/helm/Router.kt:11-13 | The same first-match search over the UI factories only, each called with the screen |
| Router.PrependDecliningPresenterFactory | helm/src/commonMain/kotlin/com/ryanharter/helm/Router.kt:7-9 | Registering, in front, a presenter factory that declines the screen does not change the created presenter |
| Router.AppendAfterAcceptingPresenterFactory | helm/src/commonMain/kotlin/com/ryanharter/helm/Router.kt:7-9 | Registering more presenter factories after an accepting one does not change the created presenter |
| Router.UiFactoryOrderFacts | helm/src/commonMain/kotlin/com/ryanharter/helm/Router.kt:11-13 | The same two facts for UI factories |
| Codegen.LoadInOrder | helm-codegen-kotlin-inject/src/main/kotlin/com/ryanharter/helm/codegen/HelmKotlinInjectSymbolProcessor.kt:300-311 | Loading succeeds exactly when every name is on the classpath, and then yields their classes in order. Otherwise it throws `IllegalState` "Failed to load <name> from classpath." for the first missing name |
| Codegen.LoadSymbols | helm-codegen-kotlin-inject/src/main/kotlin/com/ryanharter/helm/codegen/HelmKotlinInjectSymbolProcessor.kt:300-308 | The seven Helm types load exactly when all are on the classpath. Otherwise the `IllegalState` names the first type missing, in the order the fields of `HelmSymbols` are initialised |
| Codegen.CheckRole | helm-codegen-kotlin-inject/src/main/kotlin/com/ryanharter/helm/codegen/HelmKotlinInjectSymbolProcessor.kt:61-64 | Generation may go on exactly when `isPresenter xor isUi`, and the role is Presenter exactly when `isPresenter`. Otherwise it throws `IllegalArgument` with the processor's message |
| Codegen.ArgumentNamed | helm-codegen-kotlin-inject/src/main/kotlin/com/ryanharter/helm/codegen/HelmKotlinInjectSymbolProcessor.kt:66-67 | Returns the value of the first argument with the name, at whatever position it stands. If no argument has the name, it throws `NoSuchElement` |
| Codegen.ArgumentPositionIrrelevant | helm-codegen-kotlin-inject/src/main/kotlin/com/ryanharter/helm/codegen/HelmKotlinInjectSymbolProcessor.kt:66-67 | An argument is read by its name wherever it stands among arguments with other names, so the argument order in the annotation does not matter |
| Codegen.ComponentClassName | helm-codegen-kotlin-inject/src/main/kotlin/com/ryanharter/helm/codegen/HelmKotlinInjectSymbolProcessor.kt:69-70 | The component lives in the element's package and has one simple name ending in `_HelmComponent` |
| Codegen.ComponentClassNameInjective | helm-codegen-kotlin-inject/src/main/kotlin/com/ryanharter/helm/codegen/HelmKotlinInjectSymbolProcessor.kt:69-70 | Different (package, simple name) pairs never get the same component name |
| Codegen.LowercaseAscii | helm-codegen-kotlin-inject/src/main/kotlin/com/ryanharter/helm/codegen/HelmKotlinInjectSymbolProcessor.kt:236 | An upper-case ASCII letter becomes its own lower-case letter (code point + 32); every other character is unchanged |
| Codegen.LowercaseFirstChar | helm-codegen-kotlin-inject/src/main/kotlin/com/ryanharter/helm/codegen/HelmKotlinInjectSymbolProcessor.kt:236 | `replaceFirstChar` keeps the length, lower-cases only the first character and keeps the rest |
| Codegen.LowercaseFirstCharIdempotent | helm-codegen-kotlin-inject/src/main/kotlin/com/ryanharter/helm/codegen/HelmKotlinInjectSymbolProcessor.kt:236 | Applying it twice is applying it once, and a name already starting in lower case is unchanged |
| Codegen.FileName | helm-codegen-kotlin-inject/src/main/kotlin/com/ryanharter/helm/codegen/HelmKotlinInjectSymbolProcessor.kt:110-113 | The written file name is the `FileSpec` name followed by `.kt` |
| Codegen.ForEachUntilThrow | helm-codegen-kotlin-inject/src/main/kotlin/com/ryanharter/helm/codegen/HelmKotlinInjectSymbolProcessor.kt:47-53 | The files written are those of a prefix of the symbols, in order. The loop ends normally exactly when every symbol succeeded. Otherwise the exception is that of the first symbol not written |
| Codegen.ForEachStopsAtFirstFailure | helm-codegen-kotlin-inject/src/main/kotlin/com/ryanharter/helm/codegen/HelmKotlinInjectSymbolProcessor.kt:47-53 | If symbol k is the first to fail, exactly k files are written and symbol k's exception ends the pass |
| KotlinInjectCodegen.GenerateSubcomponent | helm-codegen-kotlin-inject/src/main/kotlin/com/ryanharter/helm/codegen/HelmKotlinInjectSymbolProcessor.kt:125-184 | Constructor parameters are `[parent, screen]` plus `navigator` only when asked for. Each property mirrors its parameter. `parent` is `@Component`, the rest are provided, and a navigator is provided exactly when asked for |
| KotlinInjectCodegen.GenerateProvidesPresenterFactory | helm-codegen-kotlin-inject/src/main/kotlin/com/ryanharter/helm/codegen/HelmKotlinInjectSymbolProcessor.kt:203-243 | The presenter provider returns a `Presenter.Factory`, is keyed on the screen class and is named `..._presenterFactory` |
| KotlinInjectCodegen.GenerateProvidesUiFactory | helm-codegen-kotlin-inject/src/main/kotlin/com/ryanharter/helm/codegen/HelmKotlinInjectSymbolProcessor.kt:258-297 | The UI provider returns a `Ui.Factory`, is keyed on the screen class and is named `..._uiFactory` |
| KotlinInjectCodegen.GenerateHelmSubcomponent | helm-codegen-kotlin-inject/src/main/kotlin/com/ryanharter/helm/codegen/HelmKotlinInjectSymbolProcessor.kt:57-114 | Checks in order: not a class gives "Can only generate code for classes.", a failed xor gives `IllegalArgument`, a missing `screen` gives `NoSuchElement`. Otherwise one file `<SimpleName>_HelmComponent` in the element's package, with a nested `Subcomponent` whose element is the class and a provider keyed on the `screen` argument; `scope` is never read |
| KotlinInjectCodegen.GeneratedShapeByRole | helm-codegen-kotlin-inject/src/main/kotlin/com/ryanharter/helm/codegen/HelmKotlinInjectSymbolProcessor.kt:85-103 | A presenter gets `[parent, screen, navigator]` and `lowerFirst(name)_presenterFactory`; a UI gets `[parent, screen]` and `lowerFirst(name)_uiFactory` |
| KotlinInjectCodegen.GeneratedFactoryMatchesScreenClass | helm-codegen-kotlin-inject/src/main/kotlin/com/ryanharter/helm/codegen/HelmKotlinInjectSymbolProcessor.kt:218-283 | The generated factory returns an element of the annotated class, bound to the screen, exactly for screens that are instances (`is`) of the annotated screen class, subclasses included, and none otherwise. A presenter also gets the navigator it was handed; a UI never gets one |
| KotlinInjectCodegen.InvokePresenterFactory | helm-codegen-kotlin-inject/src/main/kotlin/com/ryanharter/helm/codegen/HelmKotlinInjectSymbolProcessor.kt:213-228 | The generated presenter `create` answers exactly the screens that are instances of the screen type, with the subcomponent's element bound to that screen, and to the navigator exactly when the subcomponent provides one |
| KotlinInjectCodegen.InvokeUiFactory | helm-codegen-kotlin-inject/src/main/kotlin/com/ryanharter/helm/codegen/HelmKotlinInjectSymbolProcessor.kt:268-282 | The generated UI `create` answers exactly the screens that are instances of the screen type, with the element bound to that screen and no navigator |
| KotlinInjectCodegen.PresenterFactoryOf | helm-codegen-kotlin-inject/src/main/kotlin/com/ryanharter/helm/codegen/HelmKotlinInjectSymbolProcessor.kt:235-242 | The factory a presenter component contributes through `@IntoSet` answers exactly the instances of its screen type, with an element of its element type |
| KotlinInjectCodegen.PresenterFactories | helm-codegen-kotlin-inject/src/main/kotlin/com/ryanharter/helm/codegen/HelmKotlinInjectSymbolProcessor.kt:235-242 | The contributed factories correspond one to one, in order, with the presenter components, each answering the instances of its component's screen type with that component's element type |
| KotlinInjectCodegen.Process | helm-codegen-kotlin-inject/src/main/kotlin/com/ryanharter/helm/codegen/HelmKotlinInjectSymbolProcessor.kt:45-55 | A missing Helm type fails the call before any symbol and writes nothing. Otherwise the written files are those of the leading symbols that generate, and the first failure ends the pass |
| KotlinInjectCodegen.BadSymbolEndsPass | helm-codegen-kotlin-inject/src/main/kotlin/com/ryanharter/helm/codegen/HelmKotlinInjectSymbolProcessor.kt:47-53 | A good symbol followed by a non-class one: one file stays written, the `IllegalState` ends the pass, and later symbols are not processed |
| KotlinInjectCodegen.GeneratedFilesDistinct | helm-codegen-kotlin-inject/src/main/kotlin/com/ryanharter/helm/codegen/HelmKotlinInjectSymbolProcessor.kt:69-113 | For two top-level classes, the generated files differ in package or in name, so neither overwrites the other |
| KotlinInjectCodegen.RouterUsesFirstMatchingComponent | helm/src/commonMain/kotlin/com/ryanharter/helm/Router.kt:7-9 | A router over generated presenter factories builds the element of the first component whose screen type the screen is an instance of (`is`), and fails exactly when there is no such component |
| KotlinInjectCodegen.TestSingleFile | helm-codegen-kotlin-inject/src/test/kotlin/com/ryanharter/helm/codegen/HelmKotlinInjectSymbolProcessorTest.kt:50-51 | The test's `MyPresenter` (or `MyUi`) gives exactly one file, named `MyPresenter_HelmComponent.kt` (or `MyUi_HelmComponent.kt`) |
| DaggerCodegen.GenerateSubcomponentFactory | helm-codegen/src/main/kotlin/com/ryanharter/helm/codegen/HelmSymbolProcessorProvider.kt:133-162 | `create` binds `[screen]`, or `[screen, navigator]` when asked for, as instances of the screen and navigator types, and returns the component |
| DaggerCodegen.GenerateParentModule | helm-codegen/src/main/kotlin/com/ryanharter/helm/codegen/HelmSymbolProcessorProvider.kt:164-181 | The module declares the component as its only subcomponent, is installed in the scope and holds the one provider given |
| DaggerCodegen.GenerateProvidesPresenterFactory | helm-codegen/src/main/kotlin/com/ryanharter/helm/codegen/HelmSymbolProcessorProvider.kt:183-209 | Named `presenterFactory` with no prefix. It takes the component factory, returns a `Presenter.Factory` and is keyed on the screen class |
| DaggerCodegen.GenerateProvidesUiFactory | helm-codegen/src/main/kotlin/com/ryanharter/helm/codegen/HelmSymbolProcessorProvider.kt:211-237 | Named `uiFactory` with no prefix. It takes the component factory, returns a `Ui.Factory` and is keyed on the screen class |
| DaggerCodegen.GeneratePresenterSubcomponent | helm-codegen/src/main/kotlin/com/ryanharter/helm/codegen/HelmSymbolProcessorProvider.kt:63-131 | Checks in order: class, xor, then `screen` and `scope` by name. Otherwise one file `<SimpleName>_HelmComponent` with nested `Factory` returning the component and `ParentModule` installed in `scope` listing the component, whose provider uses that `Factory` and the `screen` class |
| DaggerCodegen.GeneratedShapeByRole | helm-codegen/src/main/kotlin/com/ryanharter/helm/codegen/HelmSymbolProcessorProvider.kt:100-161 | A presenter's `create` takes `[screen, navigator]` and its provider is `presenterFactory`; a UI's takes `[screen]` and its provider is `uiFactory` |
| DaggerCodegen.FunctionSymbolRejected | helm-codegen/src/main/kotlin/com/ryanharter/helm/codegen/HelmSymbolProcessorProvider.kt:55-57 | A non-class symbol, such as the functions the annotation admits, throws `IllegalState` with the message that mentions functions |
| DaggerCodegen.GeneratedFactoryMatchesScreenClass | helm-codegen/src/main/kotlin/com/ryanharter/helm/codegen/HelmSymbolProcessorProvider.kt:200-232 | `componentFactory.create(...).element()` comes back, as an element of the annotated class, exactly for screens that are instances (`is`) of the annotated screen class. A presenter's element also gets the navigator; otherwise the result is none |
| DaggerCodegen.InvokePresenterFactory | helm-codegen/src/main/kotlin/com/ryanharter/helm/codegen/HelmSymbolProcessorProvider.kt:194-206 | The generated presenter `create` answers exactly the screens that are instances of the screen type, with the component's element bound to that screen, and to the navigator exactly when `create` binds one |
| DaggerCodegen.InvokeUiFactory | helm-codegen/src/main/kotlin/com/ryanharter/helm/codegen/HelmSymbolProcessorProvider.kt:222-234 | The generated UI `create` answers exactly the screens that are instances of the screen type, with the element bound to that screen and no navigator |
| DaggerCodegen.Process | helm-codegen/src/main/kotlin/com/ryanharter/helm/codegen/HelmSymbolProcessorProvider.kt:51-61 | A missing Helm type fails the call before any symbol. Otherwise leading successful symbols are written and the first failure ends the pass |
| DaggerCodegen.RoleViolationEndsPass | helm-codegen/src/main/kotlin/com/ryanharter/helm/codegen/HelmSymbolProcessorProvider.kt:53-59 | A good symbol followed by one with both roles or neither: one file stays, the `IllegalArgument` ends the pass, and later symbols are not processed |
| DaggerCodegen.TestSingleFile | helm-codegen/src/test/kotlin/com/ryanharter/helm/codegen/HelmSymbolProcessorTest.kt:49-50 | The test's `MyPresenter` (or `MyUi`) gives exactly one file, `..._HelmComponent.kt`, whose module is installed in `SingletonComponent` |

## Findings

| source | as written | input that shows it | evidently intended | confidence | as-written member | corrected member |
|---|---|---|---|---|---|---|
| helm/src/commonMain/kotlin/com/ryanharter/helm/Navigator.kt:62-64 | `popWhile` loops while the top satisfies the predicate. `popBackStack` will not remove the last entry, so if every entry satisfies the predicate, the loop never exits. The Android copy at Navigator.android.kt:59-61 does the same | stack `[A]` and the predicate `{ true }` | stop popping at one entry, as the doc comment "continues popping while the predicate is true" and the never-empty stack suggest | not executed; high | Navigator.PopWhileHangsOnAlwaysTrue | Navigator.PopWhileBounded |
| helm/src/commonMain/kotlin/com/ryanharter/helm/Navigator.kt:100-101 | `previousBackStackSize` is a `rememberSaveable` with no keys. It keeps the size of the first composition, so each direction is measured from that size and not from the previous one. The Android copy at Navigator.android.kt:108-109 does the same | sizes 1, 2, 3, 2 at four compositions: the last, a back step, gets direction +1 | compare with the size at the previous composition, giving -1 for a back step | not executed; medium (rests on `rememberSaveable` keeping its first value across recompositions) | Navigator.StaleDirectionOnBackStep | Navigator.DirectionsIntended |

The navigator model keeps `popWhile` as written. `Navigator.PopWhile` and
`AndroidNavigator.PopWhile` require that the call returns, which
`Navigator.PopWhileTerminatesIff` characterises. `Navigator.PopWhileBoundedAgrees`
shows that the corrected loop changes nothing on the inputs where `popWhile`
returns.

## Left out

- Compose rendering is not modelled: `Content`, `AnimatedContent`, the slide and fade specs and their float offsets, and the `Channel`/`Flow` event plumbing. Only the top-screen choice, the back-handler flag and the direction are kept.
- The back stack is snapshot state (`mutableStateListOf`). The model assumes a single writer.
- KSP and KotlinPoet are not modelled. `isAssignableFrom` becomes the declaration's two booleans, and the resolver becomes a set of qualified names plus the annotated symbols in order. Generated files are records, not Kotlin text. Annotations on generated declarations are kept only where they carry meaning: `@Component` or provided on subcomponent properties, and the module's `subcomponents` and `InstallIn`. The `@BindsInstance` that the Dagger generator puts on every `create` parameter is not recorded: a `create` parameter in the model always stands for a bound instance.
- Looking up the `HelmInject` annotation on a symbol is not modelled: `getSymbolsWithAnnotation` only returns annotated symbols, so the declaration carries its arguments directly. The `as KSType` cast is not modelled either, because argument values are class names.
- Annotated nested classes are not modelled: the element's class name is taken to be top-level.
- Codegen.ArgumentNamed: argument values are always class names, so the `ClassCastException` a non-type value would raise is not modelled.
- KotlinInjectCodegen.GeneratedFilesDistinct: holds for top-level classes only. Both generators name the component from the package and the innermost simple name, so two annotated nested classes such as `p.A.MyPresenter` and `p.B.MyPresenter` would both produce `p/MyPresenter_HelmComponent.kt`. Nested annotated classes are not modelled, so this collision is not shown in Dafny.
- Codegen.LowercaseFirstChar: lower-cases ASCII letters only, where `lowercase(Locale.ROOT)` also maps other Unicode letters (some to several characters).
- KSP rounds are not modelled: `process` always returns an empty list of deferred symbols, so one call is modelled. Originating-file tracking is kept only as a field.
- Android `Bundle` and `Parcelable` are not modelled. The SDK-version branch of `restoreState`, the class loader and a missing "backstack" key are platform plumbing; the bundle is the screen array.
- The desktop and darwin savers (identity functions) and their empty `BackHandler` stubs are not modelled.
- `rememberNavigator` and the `router` field of `ComposeNavigator` are not modelled: they only feed rendering.
- `Presenter.kt`, `Ui.kt` and `HelmInject.kt` are used as shapes only: factories as functions returning an option, and annotation arguments as named class values.
- The Gradle build scripts and `TestUtils.kt` hold no logic and are not modelled.
