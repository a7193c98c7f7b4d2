# CircuitKotlinInject code generation, modelled in Dafny

CircuitKotlinInject is a Kotlin Symbol Processing (KSP) plugin. It reads the
`@CircuitInject` annotation on Circuit UI and presenter declarations. For each
one it generates a factory class (a `Ui.Factory` or a `Presenter.Factory` that
answers only for its screen). It then writes one `CircuitComponent` that binds
every factory into the sets kotlin-inject uses to build a `Circuit`.

This project models the three processors of the plugin as pure functions over
an abstract view of the compiler's symbols:

* `CircuitProcessor` is the main processor (`CircuitSymbolProcessor`). It checks
  the processor options and picks a code-generation mode. For each annotated
  symbol it computes the factory data, emits the factory and, in Hilt mode, a
  Hilt module. It then assembles the component from the binding records of this
  pass and earlier passes. Supporting modules:
  * `CodegenModes`: the Anvil, Hilt and kotlin-inject modes;
  * `FactoryData`: what a function or a class contributes;
  * `Assisted`: assisted-injection parameters and their error reports;
  * `Declarations`: visibility and the top-level declaration.
* `UiInjector` is the older processor (`UiInjectorProcessor`), driven by the
  plugin's own `com.joshafeinberg.circuitkotlininject.annotations.CircuitInject`
  annotation (the main processor reads Circuit's
  `com.slack.circuit.codegen.annotations.CircuitInject`). It writes one
  factories file and one component.
* `KotlinInjectComponent` is the processor that only writes a component. It
  collects the classes that implement `Ui.Factory` or `Presenter.Factory`.
* `Components` is the component description the processors share. `Text`, `Seqs`,
  `Options` and `Diagnostics` are the Kotlin string, collection, nullable and
  logger behaviour the processors rely on.

A generated Kotlin file is modelled by the data that decides its content: names,
packages, constructor parameters, the screen test, the body of `create`, the
annotations, and the bindings. The exact text KotlinPoet prints is not modelled.
A Kotlin exception that ends the processor's run is an explicit outcome
(`Crash`, `Thrown`, `Crashed`). Logged errors are `Diagnostic` values.

Behaviour of the source that may be surprising, which the model follows:

* Ambiguous supertypes. A class whose supertypes include both a recognised UI
  type and a recognised presenter type is not rejected. The first recognised
  supertype decides the kind (`FactoryData.SupertypeKind`).
* Assisted-parameter errors. A screen mismatch, a navigator where none is
  allowed, or a duplicated parameter is logged, but the factory is still
  generated (`FactoryData.ForFunction`, `FactoryData.ForClass`).
* Duplicates. Two parameters count as a duplicate only when their role, type and
  name all coincide, because they are collected in a set. Two navigator
  parameters with different names are both passed on.
* No primary constructor. A class created by a plain constructor call but
  without a primary constructor gets no assisted argument list, and the
  template renders that absent list as `null`: the generated code calls
  `Target(null)` (`FactoryData.ForClass`).
* Missing package. A missing `circuit.codegen.package` option is logged as an
  error and the run carries on with the empty package. This holds in all three
  processors.
* Empty pass. The main processor writes a component even when a pass finds no
  annotated symbol (`CircuitProcessor.EmptyPassStillWritesComponent`). The two
  other processors write nothing in that case.
* Mode matching. The main processor matches the mode option ignoring case. The
  component-only processor requires exactly `kotlin_inject`
  (`KotlinInjectComponent.UppercaseModeSkipsComponent`).
* Earlier passes. The main processor keeps its binding records across
  processing rounds, in a processor field. They are not reset per pass, so the
  model takes them as the `previous` argument.

## Model

| member | source | states |
|---|---|---|
| CodegenModes.Find | ui-injector-processor/src/main/kotlin/com/joshafeinberg/circuitkotlininject/processor/CircuitSymbolProcessorProvider.kt:116-120 | Finding a mode returns a candidate whose name equals the option ignoring case. None means that no candidate matches. |
| CodegenModes.ParseModeMatchesName | ui-injector-processor/src/main/kotlin/com/joshafeinberg/circuitkotlininject/processor/CircuitSymbolProcessorProvider.kt:113-124 | With no option the mode is Anvil. Otherwise mode m is chosen iff its name equals the option ignoring case. The option is unrecognised iff no mode name matches it. |
| CodegenModes.LowercaseNameSelectsMode | ui-injector-processor/src/main/kotlin/com/joshafeinberg/circuitkotlininject/processor/CircuitSymbolProcessorProvider.kt:113-124 | Every mode can be selected by its lower-case name, e.g. `kotlin_inject` selects KotlinInject. |
| CodegenModes.AdditionalType | ui-injector-processor/src/main/kotlin/com/joshafeinberg/circuitkotlininject/processor/CircuitSymbolProcessorProvider.kt:762-814 | Only Hilt adds a second type, a module. The module is named after the factory plus `Module` and sits in the factory's package. Its bind method is `bind` plus the factory name and takes the factory under the factory name with a lower-case first letter. It binds that factory under its kind in the given scope, and its originating element is the top-level class. |
| Declarations.TopLevelDeclaration | ui-injector-processor/src/main/kotlin/com/joshafeinberg/circuitkotlininject/processor/CircuitSymbolProcessorProvider.kt:846-848 | The top-level declaration is the outermost parent, or the declaration itself when it has no parent. |
| FactoryData.FunctionKind | ui-injector-processor/src/main/kotlin/com/joshafeinberg/circuitkotlininject/processor/CircuitSymbolProcessorProvider.kt:301-306 | An annotated function is a presenter iff its name ends with `Presenter`. Otherwise it is a UI. |
| FactoryData.SupertypeKind | ui-injector-processor/src/main/kotlin/com/joshafeinberg/circuitkotlininject/processor/CircuitSymbolProcessorProvider.kt:411-430 | There is no kind iff no supertype is a recognised UI or presenter type. Otherwise the kind is that of the first recognised supertype. |
| FactoryData.ForFunction | ui-injector-processor/src/main/kotlin/com/joshafeinberg/circuitkotlininject/processor/CircuitSymbolProcessorProvider.kt:293-387 | An invisible function is skipped with a visibility error. A presenter function always yields factory data that calls it with its assisted arguments. A UI function yields data iff it has exactly one Modifier parameter, and otherwise adds the modifier error. A UI body passes the assisted arguments resolved without navigators, and takes its state type and argument from the single state parameter if there is one. Assisted errors are carried along and never lose the factory. |
| FactoryData.ForClass | ui-injector-processor/src/main/kotlin/com/joshafeinberg/circuitkotlininject/processor/CircuitSymbolProcessorProvider.kt:388-473 | An invisible class or assisted target is skipped. An assisted factory without exactly one abstract function throws. A class with no recognised supertype is skipped with the not-UI-or-presenter error. There are three construction strategies. An assisted factory is injected and its creator called. A class whose constructor carries the mode's inject annotation is obtained from a Provider. Otherwise the constructor is called directly, through the class's package-relative name (enclosing classes kept, as `toClassName()` does), with the assisted arguments of its parameters, and their errors are reported. Kotlin-inject mode also forwards the constructor's parameters. A class without a primary constructor has no assisted argument list (`None`), which KotlinPoet renders as the literal argument `null`, so the generated call is `Target(null)`; it reports nothing. |
| FactoryData.NestedName | ui-injector-processor/src/main/kotlin/com/joshafeinberg/circuitkotlininject/processor/CircuitSymbolProcessorProvider.kt:471 | The name a plain constructor call uses, as `toClassName()` builds it: the qualified name with the `package.` prefix removed, so enclosing classes are kept; the qualified name itself when it does not start with the package. |
| FactoryData.NestedNameKeepsEnclosing | ui-injector-processor/src/main/kotlin/com/joshafeinberg/circuitkotlininject/processor/CircuitSymbolProcessorProvider.kt:471 | A class nested in `Outer` in package `p` is called as `Outer.Name`, not by its simple name. |
| FactoryData.Forwarded | ui-injector-processor/src/main/kotlin/com/joshafeinberg/circuitkotlininject/processor/CircuitSymbolProcessorProvider.kt:444-472 | The forwarded constructor parameters are the target constructor's parameters, one for one, in order, with the same names and types. |
| Assisted.Classify | ui-injector-processor/src/main/kotlin/com/joshafeinberg/circuitkotlininject/processor/CircuitSymbolProcessorProvider.kt:606-630 | A screen parameter is included as `screen` iff it is the annotated screen, and otherwise rejected with the mismatch error. A navigator is included as `navigator` iff navigators are allowed, and otherwise rejected with the not-injectable error. UI state and Modifier parameters are ignored. Any other parameter is included under its own name iff the mode is kotlin-inject. An included entry keeps the parameter's name and type. |
| Assisted.Resolve | ui-injector-processor/src/main/kotlin/com/joshafeinberg/circuitkotlininject/processor/CircuitSymbolProcessorProvider.kt:597-633 | The resolved assisted entries never repeat, because they are collected as a set. |
| Assisted.ResolveOrder | ui-injector-processor/src/main/kotlin/com/joshafeinberg/circuitkotlininject/processor/CircuitSymbolProcessorProvider.kt:597-633 | The resolved entries are the included entries with later repeats dropped, in parameter order, as a Kotlin `LinkedHashSet` iterates. |
| Assisted.ResolveMembers | ui-injector-processor/src/main/kotlin/com/joshafeinberg/circuitkotlininject/processor/CircuitSymbolProcessorProvider.kt:597-633 | An entry is resolved iff some parameter's classification includes it. |
| Assisted.ResolveErrors | ui-injector-processor/src/main/kotlin/com/joshafeinberg/circuitkotlininject/processor/CircuitSymbolProcessorProvider.kt:597-633 | Resolution logs one error per rejected parameter (its mismatch or navigator error) and one duplicate error per entry an earlier parameter already asked for, in parameter order, and nothing else. |
| Assisted.ResolveErrorFree | ui-injector-processor/src/main/kotlin/com/joshafeinberg/circuitkotlininject/processor/CircuitSymbolProcessorProvider.kt:597-633 | Resolution logs no error iff no parameter is rejected and no included entry occurs twice. |
| Assisted.RenderEmpty | ui-injector-processor/src/main/kotlin/com/joshafeinberg/circuitkotlininject/processor/CircuitSymbolProcessorProvider.kt:631-634 | The argument list is empty iff there are no assisted entries. |
| Assisted.RenderSplits | ui-injector-processor/src/main/kotlin/com/joshafeinberg/circuitkotlininject/processor/CircuitSymbolProcessorProvider.kt:631-634 | When no argument contains a comma, splitting the rendered list at commas gives back each entry's `name = factoryName` argument, in order. Every argument after the first carries the space of the `, ` separator in front of it. |
| CircuitProcessor.FactoryName | ui-injector-processor/src/main/kotlin/com/joshafeinberg/circuitkotlininject/processor/CircuitSymbolProcessorProvider.kt:186-190 | The factory name is the class name with its first letter upper-cased and `Factory` appended. A name that already starts with a capital is kept unchanged. |
| CircuitProcessor.PrivateProperties | ui-injector-processor/src/main/kotlin/com/joshafeinberg/circuitkotlininject/processor/CircuitSymbolProcessorProvider.kt:201-209 | Every constructor parameter becomes a property of the same name and type, initialised from that parameter. |
| CircuitProcessor.ScreenBranchOf | ui-injector-processor/src/main/kotlin/com/joshafeinberg/circuitkotlininject/processor/CircuitSymbolProcessorProvider.kt:213-218 | The factory tests its screen by equality iff the screen is an object, and by type otherwise. |
| CircuitProcessor.TopLevelClass | ui-injector-processor/src/main/kotlin/com/joshafeinberg/circuitkotlininject/processor/CircuitSymbolProcessorProvider.kt:229-230 | The originating class is present iff the top-level declaration is a class. It is then that declaration's qualified name: the outermost parent's, or the annotated class's own when it has no parent. |
| CircuitProcessor.EmitFactory | ui-injector-processor/src/main/kotlin/com/joshafeinberg/circuitkotlininject/processor/CircuitSymbolProcessorProvider.kt:165-264 | Emission crashes iff the computation threw, or it produced data for a symbol without a containing file. Errors are passed on unchanged. A skipped symbol emits no file. A produced one emits one factory file (two in Hilt). The factory file describes exactly the binding record and is named with `FactoryName`, in the data's package and of its kind. It carries the mode's inject annotation, the data's constructor parameters as private properties, the body and the screen branch. Its annotations are the mode's, which is the scoped multibinding only for Anvil. In Hilt the second file is the mode's module for the same factory, kind, scope and top-level class. Both files originate from the symbol's file. |
| CircuitProcessor.GeneratedFacts | ui-injector-processor/src/main/kotlin/com/joshafeinberg/circuitkotlininject/processor/CircuitSymbolProcessorProvider.kt:234-256 | The factory files of one symbol yield exactly its binding record. A Hilt module is emitted exactly when Hilt produced a record. |
| CircuitProcessor.Outcomes | ui-injector-processor/src/main/kotlin/com/joshafeinberg/circuitkotlininject/processor/CircuitSymbolProcessorProvider.kt:140-152 | Every annotated symbol is handled, in order, by the per-symbol generation. |
| CircuitProcessor.Fold | ui-injector-processor/src/main/kotlin/com/joshafeinberg/circuitkotlininject/processor/CircuitSymbolProcessorProvider.kt:140-152 | Folding the outcomes keeps running iff none crashed. The records gathered are the earlier records followed by those of the outcomes, the factory files describe exactly the outcomes' records, and Hilt adds one module per record. Earlier diagnostics stay a prefix, and no later one is the missing-package error. |
| CircuitProcessor.FoldTrace | ui-injector-processor/src/main/kotlin/com/joshafeinberg/circuitkotlininject/processor/CircuitSymbolProcessorProvider.kt:140-152 | Folding keeps the earlier diagnostics and appends every outcome's errors in order; its files are every generated outcome's files in order. On a crash, the diagnostics stop after the first crashing outcome's errors and the pass ends with that outcome's reason. |
| CircuitProcessor.Run | ui-injector-processor/src/main/kotlin/com/joshafeinberg/circuitkotlininject/processor/CircuitSymbolProcessorProvider.kt:140-152 | The symbol loop completes iff no symbol crashes. The records grow by exactly the produced records, and the factory files describe exactly those records. In Hilt there is one module per record, otherwise none. Earlier diagnostics are kept as a prefix, and the loop never reports a missing package. |
| CircuitProcessor.RunTrace | ui-injector-processor/src/main/kotlin/com/joshafeinberg/circuitkotlininject/processor/CircuitSymbolProcessorProvider.kt:140-152 | The symbol loop reports the earlier diagnostics, then each symbol's errors in discovery order, and writes each generated symbol's files in order. On a crash it reports the errors up to and including the first crashing symbol's and stops with that symbol's reason. |
| CircuitProcessor.Gates | ui-injector-processor/src/main/kotlin/com/joshafeinberg/circuitkotlininject/processor/CircuitSymbolProcessorProvider.kt:111-129 | Without a mode option the run proceeds in Anvil iff the platforms allow it. Otherwise it proceeds in mode m iff m's name equals the option ignoring case and m supports the platforms. An unknown mode stops with the unrecognised-mode error, and an unsupported mode with the platform error. |
| CircuitProcessor.Generate | ui-injector-processor/src/main/kotlin/com/joshafeinberg/circuitkotlininject/processor/CircuitSymbolProcessorProvider.kt:131-158 | A pass completes iff no symbol crashes. The component then binds the earlier records followed by this pass's produced records, in order, and sits in the package option's package or the empty one. The missing-package error comes first iff the option is absent. The parent option yields a single trimmed parent constructor parameter. The component is the one built from all accumulated records, so it also depends on their originating files. |
| CircuitProcessor.GenerateTrace | ui-injector-processor/src/main/kotlin/com/joshafeinberg/circuitkotlininject/processor/CircuitSymbolProcessorProvider.kt:131-158 | After the gates, a pass reports the missing-package error when the option is absent, then every symbol's errors in discovery order, and writes every generated symbol's files. A crash keeps the errors up to and including the first crashing symbol's, with its reason. |
| CircuitProcessor.Process | ui-injector-processor/src/main/kotlin/com/joshafeinberg/circuitkotlininject/processor/CircuitSymbolProcessorProvider.kt:111-163 | A rejected mode or platform stops the pass with exactly that error. Otherwise the pass generates in the chosen mode. |
| CircuitProcessor.FactoryFilesRecorded | ui-injector-processor/src/main/kotlin/com/joshafeinberg/circuitkotlininject/processor/CircuitSymbolProcessorProvider.kt:234-241 | Every factory file contributes its record, and every record comes from some factory file. |
| CircuitProcessor.EveryFactoryIsBound | ui-injector-processor/src/main/kotlin/com/joshafeinberg/circuitkotlininject/processor/CircuitSymbolProcessorProvider.kt:140-158 | After a completed pass, every generated factory is bound in the component under its own class and kind. Every binding of the component is a generated factory or a record from an earlier pass. |
| CircuitProcessor.EmptyPassStillWritesComponent | ui-injector-processor/src/main/kotlin/com/joshafeinberg/circuitkotlininject/processor/CircuitSymbolProcessorProvider.kt:140-158 | A pass with no annotated symbol generates no factory but still writes a component binding exactly the earlier records. |
| CircuitProcessor.DispatchNeverReportsPackage | ui-injector-processor/src/main/kotlin/com/joshafeinberg/circuitkotlininject/processor/CircuitSymbolProcessorProvider.kt:278-476 | Computing factory data never reports a missing package. That error comes only from the option check. |
| Components.Assemble | ui-injector-processor/src/main/kotlin/com/joshafeinberg/circuitkotlininject/processor/CircuitSymbolProcessorProvider.kt:522-557 | The component sits in the given package or the empty one. Parent component i becomes constructor parameter i, typed by the parent and named by its lower-cased simple name, which contains no dot. A property of the same name and type is initialised from that parameter. There are no parent members without the option. Bindings and dependencies are passed through. |
| Components.Bindings | ui-injector-processor/src/main/kotlin/com/joshafeinberg/circuitkotlininject/processor/CircuitSymbolProcessorProvider.kt:483-509 | There is one binding per record, in order. Its receiver is the record's factory class, and it is bound as a presenter factory iff the record is a presenter. |
| Components.FromRecords | ui-injector-processor/src/main/kotlin/com/joshafeinberg/circuitkotlininject/processor/CircuitSymbolProcessorProvider.kt:478-567 | A component built from records binds exactly those records. It depends on their originating files and has no parent members without a parent. |
| Components.BindingsAreImageOfRecords | ui-injector-processor/src/main/kotlin/com/joshafeinberg/circuitkotlininject/processor/CircuitSymbolProcessorProvider.kt:483-509 | A binding is in the component iff it is the binding of some record. |
| Components.DependenciesCoverRecords | ui-injector-processor/src/main/kotlin/com/joshafeinberg/circuitkotlininject/processor/CircuitSymbolProcessorProvider.kt:557-564 | The component depends on every originating file of every record, and on nothing else. |
| Text.Lowercase | ui-injector-processor/src/main/kotlin/com/joshafeinberg/circuitkotlininject/processor/CircuitSymbolProcessorProvider.kt:522-533 | Lower-casing keeps the length and lower-cases each character. |
| Text.DecapitalizeFirst | ui-injector-processor/src/main/kotlin/com/joshafeinberg/circuitkotlininject/processor/CircuitSymbolProcessorProvider.kt:804 | Only the first character is lower-cased, and the rest is unchanged. |
| Text.Trim | ui-injector-processor/src/main/kotlin/com/joshafeinberg/circuitkotlininject/processor/CircuitSymbolProcessorProvider.kt:137 | The trimmed text is no longer than the input and neither starts nor ends with whitespace. It keeps every non-whitespace character of the input. |
| Text.TrimIsSlice | ui-injector-processor/src/main/kotlin/com/joshafeinberg/circuitkotlininject/processor/CircuitSymbolProcessorProvider.kt:137 | Trimming drops exactly the leading and trailing whitespace: the result is a contiguous slice of the input, with only whitespace before and after it. |
| Text.TrimIdempotent | ui-injector-processor/src/main/kotlin/com/joshafeinberg/circuitkotlininject/processor/CircuitSymbolProcessorProvider.kt:137 | Trimming twice is trimming once. |
| Text.Split | ui-injector-processor/src/main/kotlin/com/joshafeinberg/circuitkotlininject/processor/UiInjectorProcessor.kt:68-70 | Splitting yields at least one piece. No piece holds the separator, and joining the pieces with the separator gives back the input. |
| Text.SplitJoin | ui-injector-processor/src/main/kotlin/com/joshafeinberg/circuitkotlininject/processor/UiInjectorProcessor.kt:68-70 | Splitting a join of separator-free pieces gives back exactly those pieces. |
| Text.SimpleName | ui-injector-processor/src/main/kotlin/com/joshafeinberg/circuitkotlininject/processor/CircuitSymbolProcessorProvider.kt:522-533 | The simple name of a qualified name is the dot-free text after its last dot: a suffix preceded by a dot, or the whole name. |
| UiInjector.Needed | ui-injector-processor/src/main/kotlin/com/joshafeinberg/circuitkotlininject/processor/UiInjectorProcessor.kt:72-108 | Every annotated symbol becomes one needed injector, in order, built from its annotation. |
| UiInjector.KindOf | ui-injector-processor/src/main/kotlin/com/joshafeinberg/circuitkotlininject/processor/UiInjectorProcessor.kt:336 | An injector is bound as a presenter iff its name ends with `Presenter`. |
| UiInjector.UiFactoryOf | ui-injector-processor/src/main/kotlin/com/joshafeinberg/circuitkotlininject/processor/UiInjectorProcessor.kt:152-183 | A UI factory exists iff both the screen and the state are given. It is named after the injector plus `Factory` and wraps the injector's class. |
| UiInjector.PresenterFactoryOf | ui-injector-processor/src/main/kotlin/com/joshafeinberg/circuitkotlininject/processor/UiInjectorProcessor.kt:185-239 | The presenter factory is named after the injector plus `Factory`. Its constructor injects exactly the parameters that are neither a navigator nor a screen, in order, each kept as a property. It passes every parameter name on, comma-separated, and tests the given screen or `null`. |
| UiInjector.InjectedParameters | ui-injector-processor/src/main/kotlin/com/joshafeinberg/circuitkotlininject/processor/UiInjectorProcessor.kt:185-209 | A parameter spec is injected into the presenter factory iff some constructor parameter with that name and type is neither a navigator nor a screen. |
| UiInjector.ArgumentsListEveryParameter | ui-injector-processor/src/main/kotlin/com/joshafeinberg/circuitkotlininject/processor/UiInjectorProcessor.kt:211-213 | When no parameter name contains a comma, the argument list splits back into exactly the parameter names. |
| UiInjector.Factories | ui-injector-processor/src/main/kotlin/com/joshafeinberg/circuitkotlininject/processor/UiInjectorProcessor.kt:137-150 | The factories can all be built iff every injector is a presenter or has both screen and state. There is then one factory per injector, in order. A presenter gets its `PresenterFactoryOf` factory and any other injector gets its `UiFactoryOf` factory, each named after the injector plus `Factory`. |
| UiInjector.AffectedFiles | ui-injector-processor/src/main/kotlin/com/joshafeinberg/circuitkotlininject/processor/UiInjectorProcessor.kt:324-326 | The dependencies are exactly the known containing files of the injectors, with at most one entry per injector. |
| UiInjector.AffectedFilesAppend | ui-injector-processor/src/main/kotlin/com/joshafeinberg/circuitkotlininject/processor/UiInjectorProcessor.kt:324-326 | Collecting files keeps order and repeats: the files of two consecutive groups of injectors are each group's files, one after the other. A single injector contributes its own file if it has one, and nothing otherwise. |
| UiInjector.ParentClasses | ui-injector-processor/src/main/kotlin/com/joshafeinberg/circuitkotlininject/processor/UiInjectorProcessor.kt:68-70 | There are parent classes iff the option is given. They are then the comma-separated pieces of the option, each trimmed. |
| UiInjector.Process | ui-injector-processor/src/main/kotlin/com/joshafeinberg/circuitkotlininject/processor/UiInjectorProcessor.kt:62-116 | The missing-package error is logged iff the option is absent. Nothing is written iff there is no symbol. The run crashes iff some symbol lacks its annotation or some UI lacks a screen or state. Otherwise both files share the package. The factories file holds exactly the factories built for the symbols, in order. There is one binding per symbol, naming that symbol's factory with its kind. Both files depend on the affected files. Each comma-separated parent, trimmed, becomes a constructor parameter named by its lower-cased simple name. |
| UiInjector.BindingsNameGeneratedFactories | ui-injector-processor/src/main/kotlin/com/joshafeinberg/circuitkotlininject/processor/UiInjectorProcessor.kt:241-270 | Each binding of the component names the factory generated at the same position in the factories file, with the matching kind. |
| KotlinInjectComponent.RecordOf | ui-injector-processor/src/main/kotlin/com/joshafeinberg/circuitkotlininject/processor/KotlinInjectComponentProcessorProvider.kt:83-90 | A found factory class is recorded under its own name and package. It is a presenter iff it implements `Presenter.Factory`, and its only originating file is the file it was found in. |
| KotlinInjectComponent.CollectMembers | ui-injector-processor/src/main/kotlin/com/joshafeinberg/circuitkotlininject/processor/KotlinInjectComponentProcessorProvider.kt:75-94 | A record is collected iff some declaration of some new file has a closest class that implements a Circuit factory interface, and the record is that class's record. |
| KotlinInjectComponent.CollectAppend | ui-injector-processor/src/main/kotlin/com/joshafeinberg/circuitkotlininject/processor/KotlinInjectComponentProcessorProvider.kt:75-94 | Collection preserves file order: collecting two groups of files is collecting each and concatenating. |
| KotlinInjectComponent.DependenciesFollowRecords | ui-injector-processor/src/main/kotlin/com/joshafeinberg/circuitkotlininject/processor/KotlinInjectComponentProcessorProvider.kt:194-200 | For collected records, the component has one dependency per binding: that binding's source file. |
| KotlinInjectComponent.Process | ui-injector-processor/src/main/kotlin/com/joshafeinberg/circuitkotlininject/processor/KotlinInjectComponentProcessorProvider.kt:59-112 | The processor is active iff the mode option is exactly `kotlin_inject`. The missing-package error is logged iff the option is absent. A component is written iff some factory class was collected. It binds exactly the collected classes, depends on their files and sits in the package option's package. The parent option yields a single trimmed parent. |
| KotlinInjectComponent.LowercaseModeActivatesBoth | ui-injector-processor/src/main/kotlin/com/joshafeinberg/circuitkotlininject/processor/KotlinInjectComponentProcessorProvider.kt:60-62 | With the mode option `kotlin_inject`, the main processor proceeds in kotlin-inject mode and the component-only processor is active. |
| KotlinInjectComponent.UppercaseModeSkipsComponent | ui-injector-processor/src/main/kotlin/com/joshafeinberg/circuitkotlininject/processor/KotlinInjectComponentProcessorProvider.kt:60-62 | With the mode option `KOTLIN_INJECT`, the main processor still proceeds in kotlin-inject mode, but the component-only processor stays inactive. |

## Left out

- Symbol resolution: the lookup of Circuit's types, the search for annotated symbols, symbol validation and the list of new files. These are compiler services, so they become inputs. When Circuit's types cannot be found, the main processor returns at once; the model assumes they are found. The model takes each symbol with its resolved flags (screen, navigator, UI state, Modifier, visibility, supertypes).
- Source text: KotlinPoet's rendering of the files. The model stops at the data that decides the content.
- File writing: the code generator, the `Dependencies` object, and the try/catch around writing the component, which only logs a warning. These are I/O. A second write of `CircuitComponent` (by a later round, or by the main and component-only processors in the same build) fails at that I/O level and is not modelled.
- Logger: its severity levels and the symbol attached to each message. Only the error itself is kept, as a `Diagnostic`.
- Text.Lowercase: works on ASCII letters only, so it covers Kotlin's locale-dependent `lowercase` only for ASCII class names.
- Text.Trim: treats only ASCII whitespace as whitespace, so Unicode spaces around an option value are not trimmed.
- CodegenModes.Find: compares the mode option ignoring case on ASCII letters only. Kotlin's `equals(ignoreCase = true)` folds Unicode case too. For example, `kotlın_ınject` written with a dotless ı selects kotlin-inject in the source, but the model reports an unrecognised mode.
- CircuitProcessor.FactoryName: upper-cases the first letter on ASCII only. The source tests `isLowerCase()` with Unicode rules and applies `uppercase(Locale.getDefault())`, so `élanPresenter` gives `ÉlanPresenterFactory` there but `élanPresenterFactory` here, and under a Turkish default locale `iconUi` gives `İconUiFactory` there but `IconUiFactory` here.
- Text.DecapitalizeFirst: lower-cases the first letter on ASCII only, whereas Kotlin's `Char.lowercase()` maps any Unicode upper-case letter, so a factory name starting with `É` keeps its capital in the model's bind parameter name.
- Text.SimpleName: takes the part after the last dot. `ClassName.bestGuess` also validates the name and throws on malformed input; that is not modelled.
- Null assertions: the crashes of `name!!` and `qualifiedName!!` on declarations are not modelled, because KSP always supplies these names for the declarations involved. `containingFile!!`, `state!!`, `screen!!` and `single()` are modelled.
- Creator return type: the unchecked cast of an assisted factory creator's return type to a class declaration is not modelled. The target class is an input.
- Processor providers: `UiInjectorProcessorProvider.kt` and the provider classes only construct the processors.
- Annotations, sample app and build files: the annotation declarations, the sample application and the Gradle build contribute no behaviour to the processors.
