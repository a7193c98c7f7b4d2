/** The aggregate kotlin-inject `CircuitComponent` that all three processors
    emit, and the binding records it is built from. Its fixed members (the
    abstract `circuit` property and the `providesCircuit` provider that builds
    a `Circuit` from the two multibound factory sets) are the same in every
    output and are not represented. */
module Components {
  import opened Options
  import opened Seqs
  import opened Text

  /** `FactoryType`: which Circuit factory interface a generated factory implements. */
  datatype FactoryKind = Ui | Presenter

  /** A KotlinPoet `ClassName(package, simpleNames)`: `name` holds the simple
      names joined by '.', a single one for a top-level class. */
  datatype ClassRef = ClassRef(pkg: string, name: string)

  const UiFactoryType: string := "com.slack.circuit.runtime.ui.Ui.Factory"
  const PresenterFactoryType: string := "com.slack.circuit.runtime.presenter.Presenter.Factory"
  const ComponentName: string := "CircuitComponent"

  /** The interface a factory of the given kind implements. */
  function FactoryInterface(kind: FactoryKind): string {
    match kind
    case Ui => UiFactoryType
    case Presenter => PresenterFactoryType
  }

  /** `KotlinInjectBindingResult`: one generated factory waiting to be bound. */
  datatype BindingRecord = BindingRecord(
    factoryName: string,
    factoryPackage: string,
    kind: FactoryKind,
    originatingFiles: seq<string>)

  /** `@Provides @IntoSet protected val Receiver.bind: <kind>.Factory get() = this`. */
  datatype Binding = Binding(receiver: ClassRef, kind: FactoryKind) {
    function BoundType(): string { FactoryInterface(kind) }
  }

  datatype ParamSpec = ParamSpec(name: string, typeName: string)

  /** A property with an initializer naming a constructor parameter. */
  datatype PropertySpec = PropertySpec(name: string, typeName: string, initializer: string)

  datatype ComponentSpec = ComponentSpec(
    pkg: string,
    constructorParams: seq<ParamSpec>,
    parentProperties: seq<PropertySpec>,
    bindings: seq<Binding>,
    dependencies: seq<string>)

  /** The name a parent component is stored under: its simple name, lower-cased. */
  function ParentSlotName(parent: string): string {
    Lowercase(SimpleName(parent))
  }

  function ParentParams(parents: seq<string>): seq<ParamSpec> {
    seq(|parents|, i requires 0 <= i < |parents| => ParamSpec(ParentSlotName(parents[i]), parents[i]))
  }

  /** `@Component val name: Parent = name` for each parent. */
  function ParentProperties(parents: seq<string>): seq<PropertySpec> {
    seq(|parents|, i requires 0 <= i < |parents| =>
      PropertySpec(ParentSlotName(parents[i]), parents[i], ParentSlotName(parents[i])))
  }

  /** Builds `CircuitComponent`: the component package (or "" when absent),
      one constructor parameter and one stored property per parent component,
      the given bindings and the originating files it depends on. */
  function Assemble(pkg: Option<string>, parents: Option<seq<string>>, bindings: seq<Binding>, deps: seq<string>)
    : (c: ComponentSpec)
    ensures c.pkg == (if pkg.Some? then pkg.value else "")
    ensures parents.None? ==> c.constructorParams == [] && c.parentProperties == []
    ensures parents.Some? ==> |c.constructorParams| == |c.parentProperties| == |parents.value|
    ensures forall i :: 0 <= i < |c.constructorParams| ==>
              && c.constructorParams[i].typeName == c.parentProperties[i].typeName
              && c.constructorParams[i].name == c.parentProperties[i].name
              && c.parentProperties[i].initializer == c.constructorParams[i].name
              && '.' !in c.constructorParams[i].name
    ensures parents.Some? ==> forall i :: 0 <= i < |parents.value| ==>
              c.constructorParams[i] == ParamSpec(ParentSlotName(parents.value[i]), parents.value[i])
    ensures c.bindings == bindings && c.dependencies == deps
  {
    var ps := if parents.Some? then parents.value else [];
    assert forall i :: 0 <= i < |ps| ==> '.' !in ParentSlotName(ps[i]) by {
      forall i | 0 <= i < |ps|
        ensures '.' !in ParentSlotName(ps[i])
      {
        var n := SimpleName(ps[i]);
        assert forall k :: 0 <= k < |n| ==> Lowercase(n)[k] != '.';
      }
    }
    ComponentSpec(pkg.GetOr(""), ParentParams(ps), ParentProperties(ps), bindings, deps)
  }

  function BindingOf(r: BindingRecord): Binding {
    Binding(ClassRef(r.factoryPackage, r.factoryName), r.kind)
  }

  function Bindings(records: seq<BindingRecord>): (bs: seq<Binding>)
    ensures |bs| == |records|
    ensures forall i :: 0 <= i < |records| ==>
              bs[i].receiver == ClassRef(records[i].factoryPackage, records[i].factoryName)
              && (bs[i].BoundType() == PresenterFactoryType <==> records[i].kind == Presenter)
  {
    seq(|records|, i requires 0 <= i < |records| => BindingOf(records[i]))
  }

  function OriginatingFiles(records: seq<BindingRecord>): seq<string> {
    if |records| == 0 then [] else records[0].originatingFiles + OriginatingFiles(records[1..])
  }

  /** The component built from binding records (`createComponentFile` of the
      two kotlin-inject paths): one binding per record, the dependencies being
      all records' originating files in order. */
  function FromRecords(records: seq<BindingRecord>, pkg: Option<string>, parents: Option<seq<string>>)
    : (c: ComponentSpec)
    ensures c.bindings == Bindings(records)
    ensures c.dependencies == OriginatingFiles(records)
    ensures c.pkg == pkg.GetOr("")
    ensures parents.None? ==> c.constructorParams == []
    ensures parents.Some? && |parents.value| == 1 ==>
              c.constructorParams == [ParamSpec(ParentSlotName(parents.value[0]), parents.value[0])]
  {
    Assemble(pkg, parents, Bindings(records), OriginatingFiles(records))
  }

  /** The bindings do not depend on the records' order: a binding is present
      exactly when some record produces it. */
  lemma BindingsAreImageOfRecords(records: seq<BindingRecord>, pkg: Option<string>, parents: Option<seq<string>>)
    ensures forall b :: b in FromRecords(records, pkg, parents).bindings <==>
              exists r :: r in records && BindingOf(r) == b
  {
    var bs := FromRecords(records, pkg, parents).bindings;
    forall b | b in bs
      ensures exists r :: r in records && BindingOf(r) == b
    {
      var i :| 0 <= i < |bs| && bs[i] == b;
      assert BindingOf(records[i]) == b;
    }
    forall r | r in records
      ensures BindingOf(r) in bs
    {
      var i :| 0 <= i < |records| && records[i] == r;
      assert bs[i] == BindingOf(r);
    }
  }

  /** Each record's originating files are among the component's dependencies. */
  lemma {:induction false} DependenciesCoverRecords(records: seq<BindingRecord>)
    ensures forall r, f :: r in records && f in r.originatingFiles ==> f in OriginatingFiles(records)
    ensures forall f :: f in OriginatingFiles(records) ==>
              exists r :: r in records && f in r.originatingFiles
  {
    if |records| > 0 {
      DependenciesCoverRecords(records[1..]);
      assert records == [records[0]] + records[1..];
    }
  }

  lemma {:induction false} OriginatingFilesAppend(a: seq<BindingRecord>, b: seq<BindingRecord>)
    ensures OriginatingFiles(a + b) == OriginatingFiles(a) + OriginatingFiles(b)
  {
    if |a| == 0 {
      assert a + b == b;
    } else {
      assert (a + b)[1..] == a[1..] + b;
      OriginatingFilesAppend(a[1..], b);
    }
  }
}
