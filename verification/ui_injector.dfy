/** `UiInjectorProcessor`, the older path: every `@CircuitInject` symbol
    becomes a UI or presenter factory in one `CircuitFactories` file, and all
    of them are bound in one `CircuitComponent`, both in the component package. */
module UiInjector {
  import opened Options
  import opened Seqs
  import opened Text
  import opened Diagnostics
  import opened Components

  const PackageOption: string := "circuit.codegen.package"
  const ParentOption: string := "circuit.codegen.parent.component"
  const NavigatorType: string := "com.slack.circuit.runtime.Navigator"
  const FactorySuffix: string := "Factory"

  /** A primary-constructor parameter: its name, the qualified name of its
      type's declaration and its rendered type name. */
  datatype CtorParameter = CtorParameter(name: string, typeDecl: string, typeName: string)

  datatype Target =
    | FunctionTarget(name: string, pkg: string)
    | ClassTarget(name: string, pkg: string, primaryConstructor: Option<seq<CtorParameter>>)
    | OtherTarget(description: string)

  /** The `screen` and `state` arguments of a `@CircuitInject` annotation;
      either is absent when not given or not a type. */
  datatype InjectArgs = InjectArgs(screen: Option<string>, state: Option<string>)

  /** One validated annotated symbol; `annotation` is its first annotation whose
      short name is `CircuitInject`, if any. */
  datatype Symbol = Symbol(target: Target, file: Option<string>, annotation: Option<InjectArgs>)

  datatype NeededInjector = NeededInjector(
    file: Option<string>,
    name: string,
    pkg: string,
    screen: Option<string>,
    state: Option<string>,
    parameters: Option<seq<CtorParameter>>)

  /** The `map` from an annotated symbol to what its factory needs. */
  function ToNeeded(s: Symbol, args: InjectArgs): NeededInjector {
    match s.target
    case FunctionTarget(name, pkg) => NeededInjector(s.file, name, pkg, args.screen, args.state, None)
    case ClassTarget(name, pkg, ctor) => NeededInjector(s.file, name, pkg, args.screen, args.state, ctor)
    case OtherTarget(d) => NeededInjector(s.file, "Unknown type: " + d, "", None, None, None)
  }

  /** Reading the annotation arguments throws when a symbol has no
      `CircuitInject` annotation among its annotations. */
  predicate Annotated(symbols: seq<Symbol>) {
    forall i :: 0 <= i < |symbols| ==> symbols[i].annotation.Some?
  }

  function Needed(symbols: seq<Symbol>): (r: seq<NeededInjector>)
    requires Annotated(symbols)
    ensures |r| == |symbols|
    ensures forall i :: 0 <= i < |symbols| ==> r[i] == ToNeeded(symbols[i], symbols[i].annotation.value)
  {
    seq(|symbols|, i requires 0 <= i < |symbols| && Annotated(symbols) => ToNeeded(symbols[i], symbols[i].annotation.value))
  }

  /** `NeededInjector.isPresenter`. */
  predicate IsPresenter(n: NeededInjector) {
    EndsWith(n.name, "Presenter")
  }

  function KindOf(n: NeededInjector): (k: FactoryKind)
    ensures k == Presenter <==> IsPresenter(n)
  {
    if IsPresenter(n) then Presenter else Ui
  }

  /** `isNotAssistedType`: parameters the presenter's `create` supplies itself
      (the navigator and anything whose type name ends with "Screen"), which
      therefore are not injected into the factory. */
  predicate IsNotAssistedType(p: CtorParameter) {
    p.typeDecl == NavigatorType || EndsWith(p.typeDecl, "Screen")
  }

  function IsInjected(p: CtorParameter): bool { !IsNotAssistedType(p) }

  /** `@Inject class <Name>Factory : Ui.Factory` whose `create` returns, when
      `screen is <screenType>`, an anonymous `Ui<stateType>` rendering
      `target(state, modifier)`. The screen is kept as one rendered string,
      shared with `PresenterFactory.screenText`: the generator renders it as a
      type name here and interpolates the annotation's type there, and the
      model does not tell those two renderings apart. */
  datatype UiFactory = UiFactory(name: string, screenType: string, stateType: string, target: ClassRef)

  /** `@Inject class <Name>Factory(params) : Presenter.Factory` with one private
      property per parameter, whose `create` returns `target(arguments)` when
      `screen is <screenText>`, the same rendered screen string a
      `UiFactory` carries (or `null` when the annotation names no screen). */
  datatype PresenterFactory = PresenterFactory(
    name: string,
    constructorParams: seq<ParamSpec>,
    properties: seq<PropertySpec>,
    screenText: string,
    target: ClassRef,
    arguments: string)

  datatype FactoryDecl = UiFactoryDecl(ui: UiFactory) | PresenterFactoryDecl(presenter: PresenterFactory) {
    function Name(): string {
      match this
      case UiFactoryDecl(u) => u.name
      case PresenterFactoryDecl(p) => p.name
    }
  }

  /** `generateUiFactory`; `state!!` and `screen!!` throw when an argument is missing. */
  function UiFactoryOf(n: NeededInjector): (r: Option<UiFactory>)
    ensures r.Some? <==> n.state.Some? && n.screen.Some?
    ensures r.Some? ==> r.value == UiFactory(n.name + FactorySuffix, n.screen.value, n.state.value, ClassRef(n.pkg, n.name))
  {
    if n.state.None? || n.screen.None? then None
    else Some(UiFactory(n.name + FactorySuffix, n.screen.value, n.state.value, ClassRef(n.pkg, n.name)))
  }

  function Names(params: seq<CtorParameter>): (r: seq<string>)
    ensures |r| == |params| && forall i :: 0 <= i < |params| ==> r[i] == params[i].name
  {
    seq(|params|, i requires 0 <= i < |params| => params[i].name)
  }

  /** `generatePresenterFactory`. The injected parameters are the constructor's
      parameters other than the navigator and screens, in order, and each is
      also stored in a private property of the same name; the constructor call
      passes every parameter name, the filtered ones included. */
  function PresenterFactoryOf(n: NeededInjector): (f: PresenterFactory)
    ensures f.name == n.name + FactorySuffix
    ensures f.target == ClassRef(n.pkg, n.name)
    ensures f.screenText == (if n.screen.Some? then n.screen.value else "null")
    ensures var ps := n.parameters.GetOr([]);
            var injected := Filter(ps, IsInjected);
            && |f.constructorParams| == |injected|
            && (forall i :: 0 <= i < |injected| ==>
                  f.constructorParams[i] == ParamSpec(injected[i].name, injected[i].typeName))
            && f.arguments == Join(Names(ps), ",")
    ensures |f.properties| == |f.constructorParams|
    ensures forall i :: 0 <= i < |f.properties| ==>
              && f.properties[i].name == f.constructorParams[i].name
              && f.properties[i].typeName == f.constructorParams[i].typeName
              && f.properties[i].initializer == f.constructorParams[i].name
  {
    var ps := n.parameters.GetOr([]);
    var injected := Filter(ps, IsInjected);
    var specs := seq(|injected|, i requires 0 <= i < |injected| => ParamSpec(injected[i].name, injected[i].typeName));
    var props := seq(|injected|, i requires 0 <= i < |injected| =>
                       PropertySpec(injected[i].name, injected[i].typeName, injected[i].name));
    var screenText := if n.screen.Some? then n.screen.value else "null";
    PresenterFactory(n.name + FactorySuffix, specs, props, screenText, ClassRef(n.pkg, n.name), Join(Names(ps), ","))
  }

  /** A constructor parameter of the factory is exactly one of the presenter's
      own parameters that is neither the navigator nor a screen. */
  lemma {:induction false} InjectedParameters(n: NeededInjector, spec: ParamSpec)
    requires n.parameters.Some?
    ensures var ps := n.parameters.value;
            spec in PresenterFactoryOf(n).constructorParams <==>
              exists i :: 0 <= i < |ps| && !IsNotAssistedType(ps[i]) && spec == ParamSpec(ps[i].name, ps[i].typeName)
  {
    var ps := n.parameters.value;
    var injected := Filter(ps, IsInjected);
    var specs := PresenterFactoryOf(n).constructorParams;
    if spec in specs {
      var j :| 0 <= j < |specs| && specs[j] == spec;
      var q := injected[j];
      assert q in ps && IsInjected(q);
      var i :| 0 <= i < |ps| && ps[i] == q;
      assert !IsNotAssistedType(ps[i]) && spec == ParamSpec(ps[i].name, ps[i].typeName);
    }
    if exists i :: 0 <= i < |ps| && !IsNotAssistedType(ps[i]) && spec == ParamSpec(ps[i].name, ps[i].typeName) {
      var i :| 0 <= i < |ps| && !IsNotAssistedType(ps[i]) && spec == ParamSpec(ps[i].name, ps[i].typeName);
      assert IsInjected(ps[i]);
      assert ps[i] in injected;
      var j :| 0 <= j < |injected| && injected[j] == ps[i];
      assert specs[j] == spec;
    }
  }

  /** The constructor call's argument list loses nothing: splitting it at ','
      gives back every parameter name in order. */
  lemma ArgumentsListEveryParameter(n: NeededInjector)
    requires n.parameters.Some? && |n.parameters.value| > 0
    requires forall i :: 0 <= i < |n.parameters.value| ==> ',' !in n.parameters.value[i].name
    ensures Split(PresenterFactoryOf(n).arguments, ',') == Names(n.parameters.value)
  {
    var names := Names(n.parameters.value);
    assert forall s :: s in names ==> ',' !in s;
    SplitJoin(names, ',');
  }

  /** `createFactoriesFile`'s factories, in symbol order: a presenter factory
      for presenters, a UI factory otherwise; none when a UI factory throws. */
  function Factories(needed: seq<NeededInjector>): (r: Option<seq<FactoryDecl>>)
    ensures r.Some? <==> forall i :: 0 <= i < |needed| ==> IsPresenter(needed[i]) || UiFactoryOf(needed[i]).Some?
    ensures r.Some? ==> |r.value| == |needed|
    ensures r.Some? ==> forall i :: 0 <= i < |needed| ==>
              && (r.value[i].PresenterFactoryDecl? <==> IsPresenter(needed[i]))
              && r.value[i].Name() == needed[i].name + FactorySuffix
              && r.value[i] == (if IsPresenter(needed[i]) then PresenterFactoryDecl(PresenterFactoryOf(needed[i]))
                                else UiFactoryDecl(UiFactoryOf(needed[i]).value))
  {
    if |needed| == 0 then Some([])
    else
      var n := needed[0];
      var rest := Factories(needed[1..]);
      var head := if IsPresenter(n) then Some(PresenterFactoryDecl(PresenterFactoryOf(n)))
                  else if UiFactoryOf(n).Some? then Some(UiFactoryDecl(UiFactoryOf(n).value))
                  else None;
      assert forall i :: 1 <= i < |needed| ==> needed[i] == needed[1..][i - 1];
      if head.Some? && rest.Some? then Some([head.value] + rest.value) else None
  }

  /** `getAffectedFilesFromSymbols`: the non-null files, in order. */
  function AffectedFiles(needed: seq<NeededInjector>): (r: seq<string>)
    ensures |r| <= |needed|
    ensures forall f :: f in r <==> exists i :: 0 <= i < |needed| && needed[i].file == Some(f)
  {
    if |needed| == 0 then []
    else
      var rest := AffectedFiles(needed[1..]);
      assert forall i :: 1 <= i < |needed| ==> needed[i] == needed[1..][i - 1];
      (if needed[0].file.Some? then [needed[0].file.value] else []) + rest
  }

  /** `mapNotNull` keeps order and repetitions: the files of consecutive
      groups of injectors are those groups' files, one after the other, and a
      single injector contributes its own file, if any. */
  lemma {:induction false} AffectedFilesAppend(a: seq<NeededInjector>, b: seq<NeededInjector>)
    ensures AffectedFiles(a + b) == AffectedFiles(a) + AffectedFiles(b)
    ensures |a| == 1 ==> AffectedFiles(a) == (if a[0].file.Some? then [a[0].file.value] else [])
  {
    if |a| > 0 {
      assert (a + b)[1..] == a[1..] + b;
      AffectedFilesAppend(a[1..], b);
    } else {
      assert a + b == b;
    }
    if |a| == 1 {
      assert AffectedFiles(a[1..]) == [];
    }
  }

  /** The `bind` property of one symbol's factory: receiver in the component
      package, typed by `isPresenter`. */
  function BindingFor(n: NeededInjector, componentPackage: Option<string>): Binding {
    Binding(ClassRef(componentPackage.GetOr(""), n.name + FactorySuffix), KindOf(n))
  }

  function BindingsFor(needed: seq<NeededInjector>, componentPackage: Option<string>): (r: seq<Binding>)
    ensures |r| == |needed|
    ensures forall i :: 0 <= i < |needed| ==> r[i] == BindingFor(needed[i], componentPackage)
  {
    seq(|needed|, i requires 0 <= i < |needed| => BindingFor(needed[i], componentPackage))
  }

  /** The parent components: the option split at ',' and each piece trimmed. */
  function ParentClasses(options: map<string, string>): (r: Option<seq<string>>)
    ensures r.None? <==> ParentOption !in options
    ensures r.Some? ==>
              var pieces := Split(options[ParentOption], ',');
              |r.value| == |pieces| && forall i :: 0 <= i < |pieces| ==> r.value[i] == Trim(pieces[i])
  {
    if ParentOption !in options then None
    else
      var pieces := Split(options[ParentOption], ',');
      Some(seq(|pieces|, i requires 0 <= i < |pieces| => Trim(pieces[i])))
  }

  datatype FactoriesFile = FactoriesFile(pkg: string, factories: seq<FactoryDecl>, dependencies: seq<string>)

  datatype Output =
    | NoOutput(diagnostics: seq<Diagnostic>)
    | Written(diagnostics: seq<Diagnostic>, factoriesFile: FactoriesFile, component: ComponentSpec)
    | Crashed(diagnostics: seq<Diagnostic>, reason: string)

  /** `process`: the package diagnostic is logged first in every case; no
      symbol means no file; otherwise the factories file and the component
      are written together, or not at all when building a factory throws. */
  function Process(options: map<string, string>, symbols: seq<Symbol>): (r: Output)
    ensures r.diagnostics == (if PackageOption in options then [] else [MissingComponentPackage])
    ensures r.NoOutput? <==> symbols == []
    ensures r.Crashed? <==> symbols != [] && (!Annotated(symbols) || Factories(Needed(symbols)).None?)
    ensures r.Written? ==>
              && r.factoriesFile.pkg == r.component.pkg
                 == (if PackageOption in options then options[PackageOption] else "")
              && |r.factoriesFile.factories| == |r.component.bindings| == |symbols|
              && (forall i :: 0 <= i < |symbols| ==>
                    r.component.bindings[i] ==
                      Binding(ClassRef(r.component.pkg, Needed(symbols)[i].name + FactorySuffix), KindOf(Needed(symbols)[i])))
              && r.factoriesFile.dependencies == r.component.dependencies == AffectedFiles(Needed(symbols))
              && (ParentOption !in options ==> r.component.constructorParams == [] && r.component.parentProperties == [])
              && (ParentOption in options ==> |r.component.constructorParams| == |Split(options[ParentOption], ',')|)
              && (ParentOption in options ==>
                    var pieces := Split(options[ParentOption], ',');
                    forall i :: 0 <= i < |pieces| ==>
                      r.component.constructorParams[i] == ParamSpec(ParentSlotName(Trim(pieces[i])), Trim(pieces[i])))
    // the written factories are exactly those built for the symbols, in order
    ensures r.Written? ==> r.factoriesFile.factories == Factories(Needed(symbols)).value
  {
    var pkg := if PackageOption in options then Some(options[PackageOption]) else None;
    var diags := if pkg.None? then [MissingComponentPackage] else [];
    if |symbols| == 0 then NoOutput(diags)
    else if !Annotated(symbols) then Crashed(diags, "Screen is not provided")
    else
      var needed := Needed(symbols);
      match Factories(needed)
      case None => Crashed(diags, "a UI factory is missing its screen or state")
      case Some(factories) =>
        var deps := AffectedFiles(needed);
        Written(diags, FactoriesFile(pkg.GetOr(""), factories, deps),
                Assemble(pkg, ParentClasses(options), BindingsFor(needed, pkg), deps))
  }

  /** Every binding of the component names the factory generated for the same
      symbol, in the factories file's package, with the matching factory type. */
  lemma BindingsNameGeneratedFactories(options: map<string, string>, symbols: seq<Symbol>)
    requires Process(options, symbols).Written?
    ensures var r := Process(options, symbols);
            forall i :: 0 <= i < |r.component.bindings| ==>
              && r.component.bindings[i].receiver == ClassRef(r.factoriesFile.pkg, r.factoriesFile.factories[i].Name())
              && (r.component.bindings[i].kind == Presenter <==> r.factoriesFile.factories[i].PresenterFactoryDecl?)
  {
  }
}
