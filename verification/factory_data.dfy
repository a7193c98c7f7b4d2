/** `computeFactoryData`: for one annotated function or class, the factory's
    name, package, kind, injected constructor parameters and the expression
    its `create` returns for a matching screen. */
module FactoryData {
  import opened Options
  import opened Seqs
  import opened Text
  import opened Diagnostics
  import opened Components
  import opened CodegenModes
  import opened Declarations
  import opened Assisted

  const CircuitUiStateType: string := "com.slack.circuit.runtime.CircuitUiState"
  const UiType: string := "com.slack.circuit.runtime.ui.Ui"
  const PresenterType: string := "com.slack.circuit.runtime.presenter.Presenter"
  const ProviderType: string := "javax.inject.Provider"

  /** A constructor parameter of the generated factory. */
  datatype CtorParam = CtorParam(name: string, typeName: string)

  /** The instantiation expression of a factory:
      - `presenterOf { pkg.fn(args) }`
      - `ui<StateType> { stateArg, modifier -> pkg.fn([state =·state, ]modifier = modifier[, args]) }`
      - `provider.get()`
      - `factory.creator(args)`
      - `Target(args)`, where an absent argument list renders as `null`. */
  datatype Invocation =
    | PresenterOf(target: ClassRef, args: string)
    | UiOf(stateType: string, stateArg: string, target: ClassRef, stateParam: Option<string>, modifierParam: string, args: string)
    | ProviderGet
    | FactoryCreate(creator: string, args: string)
    | ConstructorCall(target: ClassRef, arguments: Option<string>)

  datatype FactoryData = FactoryData(
    className: string,
    packageName: string,
    kind: FactoryKind,
    constructorParams: seq<CtorParam>,
    body: Invocation)

  /** A factory, no factory (the reason is among the errors), or an exception
      that escapes the processor. */
  datatype Computed =
    | Produced(data: FactoryData, errors: seq<Diagnostic>)
    | Skipped(errors: seq<Diagnostic>)
    | Thrown(errors: seq<Diagnostic>, reason: string)

  /** A function factory is a presenter exactly when its name says so. */
  function FunctionKind(name: string): (k: FactoryKind)
    ensures k == Presenter <==> EndsWith(name, "Presenter")
  {
    if EndsWith(name, "Presenter") then Presenter else Ui
  }

  predicate Recognised(supertype: string) {
    supertype == UiType || supertype == PresenterType
  }

  function KindOf(supertype: string): FactoryKind {
    if supertype == UiType then Ui else Presenter
  }

  /** The kind named by the first supertype that is Circuit's `Ui` or `Presenter`. */
  function SupertypeKind(supertypes: seq<string>): (r: Option<FactoryKind>)
    ensures r.None? <==> forall i :: 0 <= i < |supertypes| ==> !Recognised(supertypes[i])
    ensures r.Some? ==>
              exists i :: (0 <= i < |supertypes| && Recognised(supertypes[i]) && KindOf(supertypes[i]) == r.value
                           && forall j :: 0 <= j < i ==> !Recognised(supertypes[j]))
  {
    if |supertypes| == 0 then None
    else if Recognised(supertypes[0]) then Some(KindOf(supertypes[0]))
    else
      var r := SupertypeKind(supertypes[1..]);
      if r.Some? then
        var i :| 0 <= i < |supertypes| - 1 && Recognised(supertypes[1..][i])
              && KindOf(supertypes[1..][i]) == r.value
              && forall j :: 0 <= j < i ==> !Recognised(supertypes[1..][j]);
        assert forall j :: 0 <= j < i + 1 ==> !Recognised(supertypes[j]) by {
          forall j | 0 <= j < i + 1
            ensures !Recognised(supertypes[j])
          {
            if j > 0 {
              assert supertypes[j] == supertypes[1..][j - 1];
            }
          }
        }
        assert supertypes[i + 1] == supertypes[1..][i];
        r
      else
        assert forall i :: 1 <= i < |supertypes| ==> supertypes[i] == supertypes[1..][i - 1];
        r
  }

  function IsStateParam(p: Param): bool { p.ty.isUiState }

  function IsModifierParam(p: Param): bool { p.ty.isModifier }

  /** The factory data of an annotated function. */
  function ForFunction(fd: FunctionDecl, screen: ScreenRef, mode: CodegenMode): (r: Computed)
    ensures !r.Thrown?
    ensures !IsVisible(fd.visibility) ==> r == Skipped([NotVisible(fd.name)])
    ensures r.Produced? ==>
              && r.data.className == fd.name
              && r.data.packageName == fd.pkg
              && r.data.constructorParams == []
              && (r.data.kind == Presenter <==> EndsWith(fd.name, "Presenter"))
    // errors about assisted parameters are logged but never cost the factory
    ensures IsVisible(fd.visibility) && EndsWith(fd.name, "Presenter") ==>
              && r.Produced?
              && r.errors == Resolve(fd.params, screen, mode, true).errors
              && r.data.body == PresenterOf(ClassRef(fd.pkg, fd.name), Render(Resolve(fd.params, screen, mode, true).entries))
    // a UI function needs exactly one Modifier parameter
    ensures IsVisible(fd.visibility) && !EndsWith(fd.name, "Presenter") ==>
              && (r.Produced? <==> |Filter(fd.params, IsModifierParam)| == 1)
              && (r.Skipped? ==> r.errors == Resolve(fd.params, screen, mode, false).errors + [ModifierRequired(fd.name)])
              && (r.Produced? ==> r.errors == Resolve(fd.params, screen, mode, false).errors)
    ensures r.Produced? && r.data.kind == Ui ==>
              && r.data.body.UiOf?
              && r.data.body.target == ClassRef(fd.pkg, fd.name)
              && (exists p :: p in fd.params && p.ty.isModifier && r.data.body.modifierParam == p.name)
              && r.data.body.args == Render(Resolve(fd.params, screen, mode, false).entries)
              && (SingleOrNone(fd.params, IsStateParam).None? ==>
                    r.data.body.stateType == CircuitUiStateType && r.data.body.stateArg == "_" && r.data.body.stateParam == None)
              && (SingleOrNone(fd.params, IsStateParam).Some? ==>
                    var p := SingleOrNone(fd.params, IsStateParam).value;
                    r.data.body.stateType == p.ty.rendered && r.data.body.stateArg == "state" && r.data.body.stateParam == Some(p.name))
  {
    if !IsVisible(fd.visibility) then Skipped([NotVisible(fd.name)])
    else
      var kind := FunctionKind(fd.name);
      var assisted := Resolve(fd.params, screen, mode, kind == Presenter);
      var args := Render(assisted.entries);
      var target := ClassRef(fd.pkg, fd.name);
      match kind
      case Presenter =>
        Produced(FactoryData(fd.name, fd.pkg, kind, [], PresenterOf(target, args)), assisted.errors)
      case Ui =>
        var stateParam := SingleOrNone(fd.params, IsStateParam);
        var modifierParam := SingleOrNone(fd.params, IsModifierParam);
        if modifierParam.None? then Skipped(assisted.errors + [ModifierRequired(fd.name)])
        else
          var stateType := if stateParam.None? then CircuitUiStateType else stateParam.value.ty.rendered;
          var stateArg := if stateParam.None? then "_" else "state";
          var stateName := if stateParam.None? then None else Some(stateParam.value.name);
          Produced(FactoryData(fd.name, fd.pkg, kind, [],
                               UiOf(stateType, stateArg, target, stateName, modifierParam.value.name, args)),
                   assisted.errors)
  }

  /** The class whose instances the factory creates: the return class of the
      single abstract creator for an assisted factory, the class itself otherwise. */
  function TargetClass(cd: ClassDecl): ClassDecl {
    if cd.isAssistedFactory && |cd.abstractFunctions| == 1 then cd.abstractFunctions[0].returnClass else cd
  }

  /** The constructor carries the mode's inject annotation (and the class is
      not an assisted factory), so a `Provider` is injected instead. */
  predicate UsesProvider(cd: ClassDecl, mode: CodegenMode) {
    !cd.isAssistedFactory && cd.primaryConstructor.Some?
    && InjectAnnotation(mode) in cd.primaryConstructor.value.annotations
  }

  /** Every parameter forwarded as a factory constructor parameter. */
  function Forwarded(params: seq<Param>): (r: seq<CtorParam>)
    ensures |r| == |params|
    ensures forall i :: 0 <= i < |params| ==> r[i] == CtorParam(params[i].name, params[i].ty.rendered)
  {
    seq(|params|, i requires 0 <= i < |params| => CtorParam(params[i].name, params[i].ty.rendered))
  }

  /** The class name KotlinPoet's `toClassName()` refers to a class by,
      relative to its package: the qualified name with the package prefix
      removed, so a nested class keeps its enclosing classes (`Outer.Inner`). */
  function NestedName(cd: ClassDecl): (r: string)
    ensures cd.pkg + "." <= cd.qualifiedName ==> cd.pkg + "." + r == cd.qualifiedName
    ensures !(cd.pkg + "." <= cd.qualifiedName) ==> r == cd.qualifiedName
  {
    RemovePrefix(cd.qualifiedName, cd.pkg + ".")
  }

  /** A class nested in `outer` is called through `outer`, not by its simple name alone. */
  lemma NestedNameKeepsEnclosing(cd: ClassDecl, outer: string)
    requires cd.qualifiedName == cd.pkg + "." + outer + "." + cd.name
    ensures NestedName(cd) == outer + "." + cd.name
  {
    assert cd.qualifiedName == (cd.pkg + ".") + (outer + "." + cd.name);
  }

  /** The factory data of an annotated class, choosing among the three
      instantiation strategies: assisted factory first, then provider, then
      a plain constructor call. */
  function ForClass(cd: ClassDecl, screen: ScreenRef, mode: CodegenMode): (r: Computed)
    ensures !IsVisible(cd.visibility) ==> r == Skipped([NotVisible(cd.name)])
    ensures r.Thrown? <==> IsVisible(cd.visibility) && cd.isAssistedFactory && |cd.abstractFunctions| != 1
    ensures (IsVisible(cd.visibility) && cd.isAssistedFactory && |cd.abstractFunctions| == 1
             && !IsVisible(TargetClass(cd).visibility)) ==>
              r == Skipped([NotVisible(TargetClass(cd).name)])
    // the kind comes from the first recognised supertype; none is an error
    ensures IsVisible(cd.visibility) && !r.Thrown? && IsVisible(TargetClass(cd).visibility) ==>
              (r.Produced? <==> SupertypeKind(TargetClass(cd).allSupertypes).Some?)
              && (r.Skipped? ==> r.errors == [NotUiOrPresenter(TargetClass(cd).qualifiedName)])
    ensures r.Produced? ==>
              && r.data.className == TargetClass(cd).name
              && r.data.packageName == TargetClass(cd).pkg
              && Some(r.data.kind) == SupertypeKind(TargetClass(cd).allSupertypes)
    ensures r.Produced? && cd.isAssistedFactory ==>
              && r.data.constructorParams == [CtorParam("factory", cd.qualifiedName)]
              && var creator := cd.abstractFunctions[0];
                 var a := Resolve(creator.params, screen, mode, r.data.kind == Presenter);
                 r.data.body == FactoryCreate(creator.name, Render(a.entries)) && r.errors == a.errors
    ensures r.Produced? && UsesProvider(cd, mode) ==>
              && r.data.constructorParams == [CtorParam("provider", ProviderType + "<" + cd.qualifiedName + ">")]
              && r.data.body == ProviderGet
              && r.errors == []
    ensures r.Produced? && !cd.isAssistedFactory && !UsesProvider(cd, mode) ==>
              && r.data.body.ConstructorCall?
              && r.data.body.target == ClassRef(cd.pkg, NestedName(cd))
              && (r.data.body.arguments.None? <==> cd.primaryConstructor.None?)
              && r.data.constructorParams ==
                   (if mode == KotlinInject && cd.primaryConstructor.Some?
                    then Forwarded(cd.primaryConstructor.value.params) else [])
    // a plain constructor call passes the assisted arguments and reports their errors
    ensures r.Produced? && !cd.isAssistedFactory && !UsesProvider(cd, mode) && cd.primaryConstructor.Some? ==>
              var a := Resolve(cd.primaryConstructor.value.params, screen, mode, r.data.kind == Presenter);
              r.data.body.arguments == Some(Render(a.entries)) && r.errors == a.errors
    ensures r.Produced? && !cd.isAssistedFactory && !UsesProvider(cd, mode) && cd.primaryConstructor.None? ==>
              r.errors == []
  {
    if !IsVisible(cd.visibility) then Skipped([NotVisible(cd.name)])
    else if cd.isAssistedFactory && |cd.abstractFunctions| != 1 then
      Thrown([], "an assisted factory must declare exactly one abstract function")
    else
      var target := TargetClass(cd);
      if cd.isAssistedFactory && !IsVisible(target.visibility) then Skipped([NotVisible(target.name)])
      else
        var useProvider := UsesProvider(cd, mode);
        match SupertypeKind(target.allSupertypes)
        case None => Skipped([NotUiOrPresenter(target.qualifiedName)])
        case Some(kind) =>
          var allowNavigator := kind == Presenter;
          if useProvider then
            Produced(FactoryData(target.name, target.pkg, kind,
                                 [CtorParam("provider", ProviderType + "<" + target.qualifiedName + ">")], ProviderGet), [])
          else if cd.isAssistedFactory then
            var creator := cd.abstractFunctions[0];
            var a := Resolve(creator.params, screen, mode, allowNavigator);
            Produced(FactoryData(target.name, target.pkg, kind, [CtorParam("factory", cd.qualifiedName)],
                                 FactoryCreate(creator.name, Render(a.entries))), a.errors)
          else
            match cd.primaryConstructor
            case None =>
              Produced(FactoryData(target.name, target.pkg, kind, [], ConstructorCall(ClassRef(target.pkg, NestedName(target)), None)), [])
            case Some(ctor) =>
              var a := Resolve(ctor.params, screen, mode, allowNavigator);
              var forwarded := if mode == KotlinInject then Forwarded(ctor.params) else [];
              Produced(FactoryData(target.name, target.pkg, kind, forwarded,
                                   ConstructorCall(ClassRef(target.pkg, NestedName(target)), Some(Render(a.entries)))), a.errors)
  }
}
