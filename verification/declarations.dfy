/** The host-compiler metadata the main processor reads, as plain records.
    Assignability checks and supertype walks of the resolver become fields. */
module Declarations {
  import opened Options

  /** KSP's `Visibility`. */
  datatype Visibility = Public | Private | Protected | Internal | Local | JavaPackage

  /** `isVisible`: anything but private and local. */
  predicate IsVisible(v: Visibility) {
    v != Private && v != Local
  }

  /** A resolved parameter type: the qualified name of its declaration, its
      rendered type name (with arguments and nullability), and whether it is
      assignable to Circuit's `Screen`, `Navigator`, `CircuitUiState` and
      Compose's `Modifier`. */
  datatype TypeRef = TypeRef(
    decl: string,
    rendered: string,
    isScreen: bool,
    isNavigator: bool,
    isUiState: bool,
    isModifier: bool)

  datatype Param = Param(name: string, ty: TypeRef)

  datatype FunctionDecl = FunctionDecl(name: string, pkg: string, visibility: Visibility, params: seq<Param>)

  /** A primary constructor: its parameters and the qualified names of its annotations. */
  datatype Constructor = Constructor(params: seq<Param>, annotations: seq<string>)

  /** An abstract function of an assisted factory and the class it returns. */
  datatype Creator = Creator(name: string, params: seq<Param>, returnClass: ClassDecl)

  /** A class: `allSupertypes` is the order `getAllSuperTypes()` walks them in,
      `abstractFunctions` are the abstract members of `getAllFunctions()`. */
  datatype ClassDecl = ClassDecl(
    name: string,
    pkg: string,
    qualifiedName: string,
    visibility: Visibility,
    allSupertypes: seq<string>,
    isAssistedFactory: bool,
    abstractFunctions: seq<Creator>,
    primaryConstructor: Option<Constructor>)

  /** The `screen` argument of `@CircuitInject`: its declaration, its rendered
      type name and whether it is an `object`. */
  datatype ScreenRef = ScreenRef(decl: string, rendered: string, isObject: bool)

  datatype Element =
    | ClassElement(cls: ClassDecl)
    | FunctionElement(fn: FunctionDecl)
    | OtherElement(description: string)

  /** A declaration as a node of the parent chain. */
  datatype DeclRef = DeclRef(qualifiedName: string, isClass: bool)

  /** One symbol annotated with `@CircuitInject(screen, scope)`; `parents` is
      its `parentDeclaration` chain, innermost first. */
  datatype Annotated = Annotated(
    element: Element,
    screen: ScreenRef,
    scope: string,
    file: Option<string>,
    parents: seq<DeclRef>)

  /** `topLevelDeclaration()`: follows `parentDeclaration` to the outermost
      declaration, which is the declaration itself when it has no parent. */
  function TopLevelDeclaration(self: DeclRef, parents: seq<DeclRef>): (r: DeclRef)
    ensures parents == [] ==> r == self
    ensures parents != [] ==> r == parents[|parents| - 1]
    decreases |parents|
  {
    if parents == [] then self else TopLevelDeclaration(parents[0], parents[1..])
  }
}
