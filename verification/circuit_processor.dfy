/** `CircuitSymbolProcessor`: one pass over the `@CircuitInject` symbols,
    generating a factory (and, in Hilt mode, a companion module) per symbol,
    accumulating a binding record per factory, and ending with the aggregate
    `CircuitComponent`. */
module CircuitProcessor {
  import opened Options
  import opened Seqs
  import opened Text
  import opened Diagnostics
  import opened Components
  import opened CodegenModes
  import opened Declarations
  import opened Assisted
  import opened FactoryData

  const ModeOption: string := "circuit.codegen.mode"
  const PackageOption: string := "circuit.codegen.package"
  const ParentOption: string := "circuit.codegen.parent.component"
  const FactorySuffix: string := "Factory"

  /** The `when (screen)` branch: `S ->` for an object screen, `is S ->` otherwise. */
  datatype ScreenBranch = ScreenEquals(screenType: string) | ScreenIs(screenType: string)

  /** A generated factory class `Name @Inject constructor(params) : <kind>.Factory`
      whose `create` returns `body` on `branch` and null otherwise. */
  datatype FactorySpec = FactorySpec(
    name: string,
    pkg: string,
    kind: FactoryKind,
    constructorAnnotation: string,
    constructorParams: seq<CtorParam>,
    properties: seq<PropertySpec>,
    annotations: seq<FactoryAnnotation>,
    branch: ScreenBranch,
    body: Invocation,
    originatingFiles: seq<string>)

  datatype GeneratedFile =
    | FactoryFile(factory: FactorySpec)
    | ModuleFile(hiltModule: HiltModule, originatingFiles: seq<string>)

  /** The factory's name: the class name with a lower-case first letter
      upper-cased, followed by "Factory". */
  function FactoryName(className: string): (r: string)
    ensures |r| == |className| + |FactorySuffix| && EndsWith(r, FactorySuffix)
    ensures |className| > 0 ==> r[0] == UpperChar(className[0]) && r[1..|className|] == className[1..]
    ensures |className| > 0 && !IsAsciiLower(className[0]) ==> r == className + FactorySuffix
  {
    var c := CapitalizeFirst(className);
    assert (c + FactorySuffix)[..|c|] == c;
    c + FactorySuffix
  }

  /** Each constructor parameter becomes `private val name: Type = name`. */
  function PrivateProperties(params: seq<CtorParam>): (r: seq<PropertySpec>)
    ensures |r| == |params|
    ensures forall i :: 0 <= i < |params| ==>
              r[i].name == params[i].name && r[i].typeName == params[i].typeName && r[i].initializer == params[i].name
  {
    seq(|params|, i requires 0 <= i < |params| => PropertySpec(params[i].name, params[i].typeName, params[i].name))
  }

  function ScreenBranchOf(screen: ScreenRef): (b: ScreenBranch)
    ensures b.screenType == screen.rendered
    ensures b.ScreenEquals? <==> screen.isObject
  {
    if screen.isObject then ScreenEquals(screen.rendered) else ScreenIs(screen.rendered)
  }

  /** The annotated element itself as a node of its parent chain. */
  function SelfRef(e: Element): DeclRef {
    match e
    case ClassElement(c) => DeclRef(c.qualifiedName, true)
    case FunctionElement(f) => DeclRef(f.pkg + "." + f.name, false)
    case OtherElement(d) => DeclRef(d, false)
  }

  /** The outermost enclosing class, or none when the outermost declaration is
      a top-level function. */
  function TopLevelClass(sym: Annotated): (r: Option<string>)
    ensures sym.parents != [] ==>
              (r.Some? <==> sym.parents[|sym.parents| - 1].isClass)
    ensures sym.parents == [] ==> (r.Some? <==> sym.element.ClassElement?)
    ensures sym.parents != [] && r.Some? ==> r.value == sym.parents[|sym.parents| - 1].qualifiedName
    ensures sym.parents == [] && sym.element.ClassElement? ==> r == Some(sym.element.cls.qualifiedName)
  {
    var top := TopLevelDeclaration(SelfRef(sym.element), sym.parents);
    if top.isClass then Some(top.qualifiedName) else None
  }

  /** The `when (annotatedElement)` of `process`: classes and functions go to
      `computeFactoryData`, anything else is an error. */
  function Dispatch(sym: Annotated, mode: CodegenMode): Computed {
    match sym.element
    case ClassElement(c) => ForClass(c, sym.screen, mode)
    case FunctionElement(f) => ForFunction(f, sym.screen, mode)
    case OtherElement(d) => Skipped([NotClassOrFunction(d)])
  }

  /** `listOfNotNull(containingFile)`. */
  function OriginatingFile(sym: Annotated): seq<string> {
    if sym.file.Some? then [sym.file.value] else []
  }

  /** Reference definition of the record a symbol contributes: one for each
      symbol `computeFactoryData` produced a factory for. */
  function RecordOfComputed(sym: Annotated, computed: Computed): Option<BindingRecord> {
    match computed
    case Produced(d, _) => Some(BindingRecord(FactoryName(d.className), d.packageName, d.kind, OriginatingFile(sym)))
    case _ => None
  }

  function RecordFor(sym: Annotated, mode: CodegenMode): Option<BindingRecord> {
    RecordOfComputed(sym, Dispatch(sym, mode))
  }

  /** What generating one symbol's factory yields. */
  datatype SymbolOutcome =
    | Generated(errors: seq<Diagnostic>, files: seq<GeneratedFile>, record: Option<BindingRecord>)
    | Crash(errors: seq<Diagnostic>, reason: string)

  /** The record a generated factory leaves for the component. */
  function Describe(f: FactorySpec): BindingRecord {
    BindingRecord(f.name, f.pkg, f.kind, f.originatingFiles)
  }

  /** `generateFactory` after `computeFactoryData` returned `computed`: an
      exception escapes, nothing is generated, or the factory file (and in
      Hilt mode its module) is written and its record kept for the component. */
  function EmitFactory(sym: Annotated, computed: Computed, mode: CodegenMode): (r: SymbolOutcome)
    ensures r.Generated? ==> r.record == RecordOfComputed(sym, computed)
    ensures r.Crash? <==> computed.Thrown? || (computed.Produced? && sym.file.None?)
    ensures r.errors == computed.errors
    ensures r.Generated? && r.record.None? ==> r.files == []
    ensures r.Generated? && r.record.Some? ==>
              && |r.files| == (if mode == Hilt then 2 else 1)
              && r.files[0].FactoryFile?
              && Describe(r.files[0].factory) == r.record.value
              && (mode == Hilt ==>
                    && r.files[1].ModuleFile?
                    && r.files[1].hiltModule.factory == ClassRef(r.record.value.factoryPackage, r.record.value.factoryName)
                    && r.files[1].hiltModule.returnKind == r.record.value.kind)
    ensures r.Generated? && r.record.Some? ==>
              var f := r.files[0].factory;
              && f.constructorAnnotation == InjectAnnotation(mode)
              && f.constructorParams == computed.data.constructorParams
              && f.body == computed.data.body
              && f.branch == ScreenBranchOf(sym.screen)
              && (f.annotations != [] <==> mode == Anvil)
    // the factory's identity, its private properties, its Anvil scope and its Hilt module
    ensures r.Generated? && r.record.Some? ==>
              var f := r.files[0].factory;
              && f.name == FactoryName(computed.data.className)
              && f.pkg == computed.data.packageName
              && f.kind == computed.data.kind
              && f.properties == PrivateProperties(computed.data.constructorParams)
              && f.annotations == FactoryAnnotations(mode, sym.scope)
              && f.originatingFiles == [sym.file.value]
    ensures r.Generated? && r.record.Some? && mode == Hilt ==>
              var factory := ClassRef(computed.data.packageName, FactoryName(computed.data.className));
              r.files[1] == ModuleFile(AdditionalType(mode, factory, computed.data.kind, sym.scope, TopLevelClass(sym)).value,
                                       [sym.file.value])
  {
    match computed
    case Thrown(errs, reason) => Crash(errs, reason)
    case Skipped(errs) => Generated(errs, [], None)
    case Produced(d, errs) =>
      if sym.file.None? then Crash(errs, "originating symbol has no containing file")
      else
        var name := FactoryName(d.className);
        var files := OriginatingFile(sym);
        var spec := FactorySpec(name, d.packageName, d.kind, InjectAnnotation(mode), d.constructorParams,
                                PrivateProperties(d.constructorParams), FactoryAnnotations(mode, sym.scope),
                                ScreenBranchOf(sym.screen), d.body, files);
        var extra := AdditionalType(mode, ClassRef(d.packageName, name), d.kind, sym.scope, TopLevelClass(sym));
        var moduleFiles := if extra.Some? then [ModuleFile(extra.value, files)] else [];
        Generated(errs, [FactoryFile(spec)] + moduleFiles, Some(Describe(spec)))
  }

  /** `generateFactory`. */
  function GenerateFactory(sym: Annotated, mode: CodegenMode): SymbolOutcome {
    EmitFactory(sym, Dispatch(sym, mode), mode)
  }

  /** The files generated for one symbol hold its record as their only factory,
      and one module in Hilt mode. */
  lemma GeneratedFacts(sym: Annotated, computed: Computed, mode: CodegenMode)
    ensures var o := EmitFactory(sym, computed, mode);
            o.Generated? ==>
              && FactoryRecords(o.files) == (if o.record.Some? then [o.record.value] else [])
              && ModuleCount(o.files) == (if mode == Hilt && o.record.Some? then 1 else 0)
  {
    var o := EmitFactory(sym, computed, mode);
    if o.Generated? && o.record.Some? {
      GeneratedFilesAppend([o.files[0]], o.files[1..]);
      assert [o.files[0]] + o.files[1..] == o.files;
      assert FactoryRecords([o.files[0]]) == FactoryRecords([]) + [o.record.value];
      if mode == Hilt {
        assert o.files[1..] == [o.files[1]];
        assert FactoryRecords([o.files[1]]) == FactoryRecords([]) + [];
      } else {
        assert o.files[1..] == [];
      }
    }
  }

  /** The records of the factory files among `files`, in order. */
  function FactoryRecords(files: seq<GeneratedFile>): seq<BindingRecord> {
    if |files| == 0 then []
    else
      var last := files[|files| - 1];
      FactoryRecords(files[..|files| - 1]) + (if last.FactoryFile? then [Describe(last.factory)] else [])
  }

  function ModuleCount(files: seq<GeneratedFile>): nat {
    if |files| == 0 then 0
    else ModuleCount(files[..|files| - 1]) + (if files[|files| - 1].ModuleFile? then 1 else 0)
  }

  lemma {:induction false} GeneratedFilesAppend(a: seq<GeneratedFile>, b: seq<GeneratedFile>)
    ensures FactoryRecords(a + b) == FactoryRecords(a) + FactoryRecords(b)
    ensures ModuleCount(a + b) == ModuleCount(a) + ModuleCount(b)
    decreases |b|
  {
    if |b| == 0 {
      assert a + b == a;
    } else {
      var b' := b[..|b| - 1];
      assert (a + b)[..|a + b| - 1] == a + b';
      GeneratedFilesAppend(a, b');
    }
  }

  /** Reference definition: the records of every symbol computeFactoryData
      produced a factory for, in discovery order. */
  function ProducedRecords(symbols: seq<Annotated>, mode: CodegenMode): seq<BindingRecord> {
    if |symbols| == 0 then []
    else
      var r := RecordFor(symbols[|symbols| - 1], mode);
      ProducedRecords(symbols[..|symbols| - 1], mode) + (if r.Some? then [r.value] else [])
  }

  /** The outcome of every symbol, in discovery order. */
  function Outcomes(symbols: seq<Annotated>, mode: CodegenMode): (os: seq<SymbolOutcome>)
    ensures |os| == |symbols|
    ensures forall i :: 0 <= i < |symbols| ==> os[i] == GenerateFactory(symbols[i], mode)
  {
    seq(|symbols|, i requires 0 <= i < |symbols| => GenerateFactory(symbols[i], mode))
  }

  /** What the fold relies on about one outcome: its files hold exactly its
      record (plus a module in Hilt mode), and it never reports the missing package. */
  predicate WellFormedOutcome(o: SymbolOutcome, mode: CodegenMode) {
    && MissingComponentPackage !in o.errors
    && (o.Generated? ==>
          && FactoryRecords(o.files) == (if o.record.Some? then [o.record.value] else [])
          && ModuleCount(o.files) == (if mode == Hilt && o.record.Some? then 1 else 0))
  }

  function RecordOf(o: SymbolOutcome): seq<BindingRecord> {
    if o.Generated? && o.record.Some? then [o.record.value] else []
  }

  /** The records carried by a sequence of outcomes, in order. */
  function OutcomeRecords(os: seq<SymbolOutcome>): seq<BindingRecord> {
    if |os| == 0 then [] else OutcomeRecords(os[..|os| - 1]) + RecordOf(os[|os| - 1])
  }

  /** Reference definition: the errors of a sequence of outcomes, in order. */
  function OutcomeErrors(os: seq<SymbolOutcome>): seq<Diagnostic> {
    if |os| == 0 then [] else OutcomeErrors(os[..|os| - 1]) + os[|os| - 1].errors
  }

  /** Reference definition: the files of the outcomes that generated, in order. */
  function OutcomeFiles(os: seq<SymbolOutcome>): seq<GeneratedFile> {
    if |os| == 0 then []
    else OutcomeFiles(os[..|os| - 1]) + (if os[|os| - 1].Generated? then os[|os| - 1].files else [])
  }

  /** The index of the first crashing outcome, or `|os|` when none crashes. */
  function FirstCrash(os: seq<SymbolOutcome>): (k: nat)
    ensures k <= |os|
    ensures forall j :: 0 <= j < k ==> !os[j].Crash?
    ensures k < |os| ==> os[k].Crash?
  {
    FirstCrashFrom(os, 0)
  }

  /** The index of the first crashing outcome at or after `i`. */
  function FirstCrashFrom(os: seq<SymbolOutcome>, i: nat): (k: nat)
    requires i <= |os|
    ensures i <= k <= |os|
    ensures forall j :: i <= j < k ==> !os[j].Crash?
    ensures k < |os| ==> os[k].Crash?
    decreases |os| - i
  {
    if i == |os| || os[i].Crash? then i else FirstCrashFrom(os, i + 1)
  }

  /** The pass between the gates and the component: diagnostics so far,
      files written so far, the binding accumulator. */
  datatype RunState =
    | Running(diagnostics: seq<Diagnostic>, files: seq<GeneratedFile>, records: seq<BindingRecord>)
    | Failed(diagnostics: seq<Diagnostic>, reason: string)

  function Absorb(st: RunState, o: SymbolOutcome): RunState {
    match st
    case Failed(_, _) => st
    case Running(diags, files, records) =>
      match o
      case Crash(errs, reason) => Failed(diags + errs, reason)
      case Generated(errs, fs, rec) =>
        Running(diags + errs, files + fs, records + (if rec.Some? then [rec.value] else []))
  }

  /** The facts the fold keeps after absorbing outcomes that carried `produced`. */
  predicate Accumulated(st: RunState, mode: CodegenMode, diags0: seq<Diagnostic>,
                        previous: seq<BindingRecord>, produced: seq<BindingRecord>)
  {
    st.Running? ==>
      && st.records == previous + produced
      && FactoryRecords(st.files) == produced
      && ModuleCount(st.files) == (if mode == Hilt then |produced| else 0)
      && |diags0| <= |st.diagnostics| && st.diagnostics[..|diags0|] == diags0
      && (forall k :: |diags0| <= k < |st.diagnostics| ==> st.diagnostics[k] != MissingComponentPackage)
  }

  /** One step of the fold: absorbing a well-formed outcome extends every
      accumulated fact by that outcome's record. */
  lemma AbsorbStep(prev: RunState, o: SymbolOutcome, mode: CodegenMode, diags0: seq<Diagnostic>,
                   previous: seq<BindingRecord>, produced: seq<BindingRecord>)
    requires Accumulated(prev, mode, diags0, previous, produced)
    requires WellFormedOutcome(o, mode)
    ensures Absorb(prev, o).Running? <==> prev.Running? && !o.Crash?
    ensures Accumulated(Absorb(prev, o), mode, diags0, previous, produced + RecordOf(o))
  {
    if prev.Running? && o.Generated? {
      GeneratedFilesAppend(prev.files, o.files);
      var d := prev.diagnostics + o.errors;
      assert d[..|diags0|] == prev.diagnostics[..|diags0|];
      forall k | |diags0| <= k < |d|
        ensures d[k] != MissingComponentPackage
      {
        if k >= |prev.diagnostics| {
          assert d[k] == o.errors[k - |prev.diagnostics|];
        }
      }
    }
  }

  /** The `forEach` over well-formed outcomes, starting from the diagnostics
      already reported and the records accumulated by earlier passes. */
  function Fold(os: seq<SymbolOutcome>, mode: CodegenMode, diags0: seq<Diagnostic>, previous: seq<BindingRecord>)
    : (st: RunState)
    requires forall i :: 0 <= i < |os| ==> WellFormedOutcome(os[i], mode)
    ensures st.Running? <==> forall i :: 0 <= i < |os| ==> !os[i].Crash?
    ensures Accumulated(st, mode, diags0, previous, OutcomeRecords(os))
  {
    if |os| == 0 then Running(diags0, [], previous)
    else
      var init := os[..|os| - 1];
      assert forall i :: 0 <= i < |init| ==> init[i] == os[i];
      var prev := Fold(init, mode, diags0, previous);
      AbsorbStep(prev, os[|os| - 1], mode, diags0, previous, OutcomeRecords(init));
      assert OutcomeRecords(os) == OutcomeRecords(init) + RecordOf(os[|os| - 1]);
      assert (forall i :: 0 <= i < |os| ==> !os[i].Crash?) <==>
             (forall i :: 0 <= i < |init| ==> !init[i].Crash?) && !os[|os| - 1].Crash?;
      Absorb(prev, os[|os| - 1])
  }

  /** What a pass state reports and writes after absorbing `os`: every
      outcome's errors after the earlier diagnostics and every generated
      outcome's files, in order; a crash keeps the errors up to and including
      the crashing symbol's and ends the pass with its reason. */
  predicate Traced(st: RunState, os: seq<SymbolOutcome>, diags0: seq<Diagnostic>) {
    && (st.Running? ==> st.diagnostics == diags0 + OutcomeErrors(os) && st.files == OutcomeFiles(os))
    && (st.Failed? ==>
          && FirstCrash(os) < |os|
          && st.diagnostics == diags0 + OutcomeErrors(os[..FirstCrash(os) + 1])
          && st.reason == os[FirstCrash(os)].reason)
  }

  /** A trace of a running state: every outcome's errors and files. */
  lemma TracedRunning(st: RunState, os: seq<SymbolOutcome>, diags0: seq<Diagnostic>)
    requires Traced(st, os, diags0) && st.Running?
    ensures st.diagnostics == diags0 + OutcomeErrors(os) && st.files == OutcomeFiles(os)
  {
  }

  /** A trace of a failed state: the errors up to the first crash, and its reason. */
  lemma TracedFailed(st: RunState, os: seq<SymbolOutcome>, diags0: seq<Diagnostic>)
    requires Traced(st, os, diags0) && st.Failed?
    ensures FirstCrash(os) < |os|
    ensures st.diagnostics == diags0 + OutcomeErrors(os[..FirstCrash(os) + 1])
    ensures st.reason == os[FirstCrash(os)].reason
  {
  }

  /** Absorbing one more outcome keeps the trace. */
  lemma TraceStep(prev: RunState, os: seq<SymbolOutcome>, diags0: seq<Diagnostic>)
    requires |os| > 0
    requires Traced(prev, os[..|os| - 1], diags0)
    requires prev.Running? <==> forall i :: 0 <= i < |os| - 1 ==> !os[i].Crash?
    ensures Traced(Absorb(prev, os[|os| - 1]), os, diags0)
  {
    var init := os[..|os| - 1];
    if prev.Failed? {
      var k := FirstCrash(init);
      assert os[k] == init[k];
      assert forall j :: 0 <= j < k ==> os[j] == init[j];
      assert FirstCrash(os) == k;
      assert os[..k + 1] == init[..k + 1];
    } else if os[|os| - 1].Crash? {
      assert FirstCrash(os) == |os| - 1;
      assert os[..|os|] == os;
    }
  }

  /** The fold's diagnostics and files are those of its outcomes, up to the
      first crash. */
  lemma {:induction false} FoldTrace(os: seq<SymbolOutcome>, mode: CodegenMode, diags0: seq<Diagnostic>,
                                     previous: seq<BindingRecord>)
    requires forall i :: 0 <= i < |os| ==> WellFormedOutcome(os[i], mode)
    ensures Traced(Fold(os, mode, diags0, previous), os, diags0)
  {
    if |os| > 0 {
      var init := os[..|os| - 1];
      assert forall i :: 0 <= i < |init| ==> init[i] == os[i];
      FoldTrace(init, mode, diags0, previous);
      TraceStep(Fold(init, mode, diags0, previous), os, diags0);
    }
  }

  /** Every symbol's outcome is well formed. */
  lemma OutcomeWellFormed(sym: Annotated, mode: CodegenMode)
    ensures WellFormedOutcome(GenerateFactory(sym, mode), mode)
  {
    GeneratedFacts(sym, Dispatch(sym, mode), mode);
    DispatchNeverReportsPackage(sym, mode);
  }

  lemma OutcomesWellFormed(symbols: seq<Annotated>, mode: CodegenMode)
    ensures forall i :: 0 <= i < |symbols| ==> WellFormedOutcome(Outcomes(symbols, mode)[i], mode)
  {
    forall i | 0 <= i < |symbols|
      ensures WellFormedOutcome(Outcomes(symbols, mode)[i], mode)
    {
      OutcomeWellFormed(symbols[i], mode);
    }
  }

  /** Without a crash, the outcomes carry exactly the reference records. */
  lemma {:induction false} OutcomeRecordsProduced(symbols: seq<Annotated>, mode: CodegenMode)
    ensures (forall i :: 0 <= i < |symbols| ==> !GenerateFactory(symbols[i], mode).Crash?) ==>
              OutcomeRecords(Outcomes(symbols, mode)) == ProducedRecords(symbols, mode)
  {
    if |symbols| > 0 && forall i :: 0 <= i < |symbols| ==> !GenerateFactory(symbols[i], mode).Crash? {
      var init := symbols[..|symbols| - 1];
      var os := Outcomes(symbols, mode);
      assert os[..|os| - 1] == Outcomes(init, mode);
      OutcomeRecordsProduced(init, mode);
    }
  }

  /** The pass over the annotated symbols. The accumulator only grows: it gains
      exactly the records of the symbols that produced a factory, in discovery
      order, one per generated factory file, and no symbol reports the missing
      package. */
  function Run(symbols: seq<Annotated>, mode: CodegenMode, diags0: seq<Diagnostic>, previous: seq<BindingRecord>)
    : (st: RunState)
    ensures st.Running? ==> st.records == previous + ProducedRecords(symbols, mode)
    ensures st.Running? ==> FactoryRecords(st.files) == ProducedRecords(symbols, mode)
    ensures st.Running? ==> ModuleCount(st.files) == (if mode == Hilt then |ProducedRecords(symbols, mode)| else 0)
    ensures st.Running? ==> |diags0| <= |st.diagnostics| && st.diagnostics[..|diags0|] == diags0
    ensures st.Running? ==> forall k :: |diags0| <= k < |st.diagnostics| ==> st.diagnostics[k] != MissingComponentPackage
    ensures st.Running? <==> forall i :: 0 <= i < |symbols| ==> !GenerateFactory(symbols[i], mode).Crash?
  {
    OutcomesWellFormed(symbols, mode);
    OutcomeRecordsProduced(symbols, mode);
    Fold(Outcomes(symbols, mode), mode, diags0, previous)
  }

  /** The pass is traced by its outcomes. */
  lemma RunTraced(symbols: seq<Annotated>, mode: CodegenMode, diags0: seq<Diagnostic>, previous: seq<BindingRecord>)
    ensures Traced(Run(symbols, mode, diags0, previous), Outcomes(symbols, mode), diags0)
  {
    OutcomesWellFormed(symbols, mode);
    FoldTrace(Outcomes(symbols, mode), mode, diags0, previous);
  }

  /** What the pass reports and writes: the earlier diagnostics, then every
      symbol's errors and every generated symbol's files, in discovery order;
      a crash keeps the errors up to and including the first crashing
      symbol's and ends the pass with its reason. */
  lemma RunTrace(symbols: seq<Annotated>, mode: CodegenMode, diags0: seq<Diagnostic>, previous: seq<BindingRecord>)
    ensures Run(symbols, mode, diags0, previous).Running? ==>
              && Run(symbols, mode, diags0, previous).diagnostics == diags0 + OutcomeErrors(Outcomes(symbols, mode))
              && Run(symbols, mode, diags0, previous).files == OutcomeFiles(Outcomes(symbols, mode))
    ensures Run(symbols, mode, diags0, previous).Failed? ==>
              var k := FirstCrash(Outcomes(symbols, mode));
              && k < |symbols|
              && GenerateFactory(symbols[k], mode).Crash?
              && Run(symbols, mode, diags0, previous).diagnostics == diags0 + OutcomeErrors(Outcomes(symbols, mode)[..k + 1])
              && Run(symbols, mode, diags0, previous).reason == GenerateFactory(symbols[k], mode).reason
  {
    var os := Outcomes(symbols, mode);
    var st := Run(symbols, mode, diags0, previous);
    RunTraced(symbols, mode, diags0, previous);
    if st.Running? {
      TracedRunning(st, os, diags0);
    } else {
      TracedFailed(st, os, diags0);
      assert os[FirstCrash(os)] == GenerateFactory(symbols[FirstCrash(os)], mode);
    }
  }

  /** The outcome of `process`. */
  datatype PassResult =
    | Stopped(diagnostics: seq<Diagnostic>)
    | Completed(diagnostics: seq<Diagnostic>, files: seq<GeneratedFile>, records: seq<BindingRecord>,
                component: ComponentSpec)
    | Crashed(diagnostics: seq<Diagnostic>, reason: string)

  function OptionValue(options: map<string, string>, key: string): Option<string> {
    if key in options then Some(options[key]) else None
  }

  /** The single parent component of this processor: the option, trimmed, not split. */
  function ParentComponents(options: map<string, string>): Option<seq<string>> {
    if ParentOption in options then Some([Trim(options[ParentOption])]) else None
  }

  /** The two gates that end a pass before any symbol is looked at. */
  datatype Gate = Proceed(mode: CodegenMode) | Stop(error: Diagnostic)

  /** The mode gate (absent option: ANVIL; otherwise a case-insensitive match
      of a mode name) followed by the platform gate of the chosen mode. */
  function Gates(options: map<string, string>, platforms: seq<Platform>): (g: Gate)
    ensures ModeOption !in options ==>
              (g.Proceed? <==> SupportsPlatforms(Anvil, platforms)) && (g.Proceed? ==> g.mode == Anvil)
    ensures ModeOption in options ==>
              forall m :: g == Proceed(m) <==>
                EqualsIgnoreCase(Name(m), options[ModeOption]) && SupportsPlatforms(m, platforms)
    ensures ParseMode(OptionValue(options, ModeOption)).Unrecognised? ==>
              g == Stop(UnrecognisedMode(options[ModeOption]))
    ensures ParseMode(OptionValue(options, ModeOption)).Chosen? ==>
              var m := ParseMode(OptionValue(options, ModeOption)).mode;
              g == (if SupportsPlatforms(m, platforms) then Proceed(m) else Stop(UnsupportedPlatforms(Name(m))))
  {
    var opt := OptionValue(options, ModeOption);
    forall m | true
      ensures opt.Some? ==> (ParseMode(opt) == Chosen(m) <==> EqualsIgnoreCase(Name(m), opt.value))
    {
      ParseModeMatchesName(opt, m);
    }
    match ParseMode(opt)
    case Unrecognised(s) => Stop(UnrecognisedMode(s))
    case Chosen(mode) =>
      if SupportsPlatforms(mode, platforms) then Proceed(mode) else Stop(UnsupportedPlatforms(Name(mode)))
  }

  /** The error logged before any symbol is looked at: the missing component package. */
  function PackageDiagnostics(options: map<string, string>): seq<Diagnostic> {
    if PackageOption in options then [] else [MissingComponentPackage]
  }

  /** Everything after the gates: the package check, every symbol, and the
      component built from all records accumulated so far (even when there
      are none). */
  function Generate(options: map<string, string>, mode: CodegenMode, symbols: seq<Annotated>,
                    previous: seq<BindingRecord>)
    : (r: PassResult)
    ensures !r.Stopped?
    ensures r.Completed? ==>
              && r.records == previous + ProducedRecords(symbols, mode)
              && FactoryRecords(r.files) == ProducedRecords(symbols, mode)
              && ModuleCount(r.files) == (if mode == Hilt then |ProducedRecords(symbols, mode)| else 0)
              && r.component.bindings == Bindings(r.records)
              && r.component.pkg == OptionValue(options, PackageOption).GetOr("")
              && (PackageOption !in options <==> |r.diagnostics| > 0 && r.diagnostics[0] == MissingComponentPackage)
              && (ParentOption in options ==>
                    r.component.constructorParams == [ParamSpec(ParentSlotName(Trim(options[ParentOption])),
                                                                Trim(options[ParentOption]))])
              && (ParentOption !in options ==> r.component.constructorParams == [])
    // the component binds and depends on every accumulated record
    ensures r.Completed? ==> r.component == FromRecords(r.records, OptionValue(options, PackageOption), ParentComponents(options))
    ensures r.Completed? <==> forall i :: 0 <= i < |symbols| ==> !GenerateFactory(symbols[i], mode).Crash?
  {
    var pkg := OptionValue(options, PackageOption);
    var diags0 := PackageDiagnostics(options);
    var st := Run(symbols, mode, diags0, previous);
    match st
    case Failed(diags, reason) => Crashed(diags, reason)
    case Running(diags, files, records) =>
      assert |diags0| > 0 ==> diags[0] == diags[..|diags0|][0] == MissingComponentPackage;
      assert |diags0| == 0 && |diags| > 0 ==> diags[0] != MissingComponentPackage;
      Completed(diags, files, records, FromRecords(records, pkg, ParentComponents(options)))
  }

  /** What a pass after the gates reports and writes: the package error if
      any, then every symbol's errors and every generated symbol's files, in
      discovery order; a crash keeps the errors up to and including the
      first crashing symbol's and ends the pass with its reason. */
  lemma GenerateTrace(options: map<string, string>, mode: CodegenMode, symbols: seq<Annotated>,
                      previous: seq<BindingRecord>)
    ensures Generate(options, mode, symbols, previous).Completed? ==>
              && Generate(options, mode, symbols, previous).diagnostics ==
                   PackageDiagnostics(options) + OutcomeErrors(Outcomes(symbols, mode))
              && Generate(options, mode, symbols, previous).files == OutcomeFiles(Outcomes(symbols, mode))
    ensures Generate(options, mode, symbols, previous).Crashed? ==>
              var k := FirstCrash(Outcomes(symbols, mode));
              && k < |symbols|
              && GenerateFactory(symbols[k], mode).Crash?
              && Generate(options, mode, symbols, previous).diagnostics ==
                   PackageDiagnostics(options) + OutcomeErrors(Outcomes(symbols, mode)[..k + 1])
              && Generate(options, mode, symbols, previous).reason == GenerateFactory(symbols[k], mode).reason
  {
    RunTrace(symbols, mode, PackageDiagnostics(options), previous);
  }

  /** `process`. A failing gate reports one error and ends the pass with
      nothing generated and the accumulator untouched. */
  function Process(options: map<string, string>, platforms: seq<Platform>, symbols: seq<Annotated>,
                   previous: seq<BindingRecord>)
    : (r: PassResult)
    ensures Gates(options, platforms).Stop? ==> r == Stopped([Gates(options, platforms).error])
    ensures Gates(options, platforms).Proceed? ==> r == Generate(options, Gates(options, platforms).mode, symbols, previous)
  {
    match Gates(options, platforms)
    case Stop(e) => Stopped([e])
    case Proceed(mode) => Generate(options, mode, symbols, previous)
  }

  /** The factory records of a file list are exactly the records of its factory files. */
  lemma {:induction false} FactoryFilesRecorded(files: seq<GeneratedFile>)
    ensures forall k :: 0 <= k < |files| && files[k].FactoryFile? ==> Describe(files[k].factory) in FactoryRecords(files)
    ensures forall r :: r in FactoryRecords(files) ==>
              exists k :: 0 <= k < |files| && files[k].FactoryFile? && r == Describe(files[k].factory)
  {
    if |files| > 0 {
      var init := files[..|files| - 1];
      FactoryFilesRecorded(init);
      assert forall k :: 0 <= k < |init| ==> init[k] == files[k];
    }
  }

  /** The binding of a factory file's class. */
  function FileBinding(f: FactorySpec): Binding {
    Binding(ClassRef(f.pkg, f.name), f.kind)
  }

  /** Binding the accumulated records binds every factory file and nothing
      but those and the earlier records. */
  lemma BindingsOfAccumulated(previous: seq<BindingRecord>, files: seq<GeneratedFile>)
    ensures var bs := Bindings(previous + FactoryRecords(files));
            forall k :: 0 <= k < |files| && files[k].FactoryFile? ==> FileBinding(files[k].factory) in bs
    ensures var bs := Bindings(previous + FactoryRecords(files));
            forall b :: b in bs ==>
              || (exists p :: p in previous && b == BindingOf(p))
              || (exists k :: 0 <= k < |files| && files[k].FactoryFile? && b == FileBinding(files[k].factory))
  {
    FactoryFilesRecorded(files);
    var recs := previous + FactoryRecords(files);
    var bs := Bindings(recs);
    forall k | 0 <= k < |files| && files[k].FactoryFile?
      ensures FileBinding(files[k].factory) in bs
    {
      var d := Describe(files[k].factory);
      var j :| 0 <= j < |FactoryRecords(files)| && FactoryRecords(files)[j] == d;
      assert recs[|previous| + j] == d;
      assert bs[|previous| + j] == BindingOf(d);
    }
    forall b | b in bs
      ensures || (exists p :: p in previous && b == BindingOf(p))
              || (exists k :: 0 <= k < |files| && files[k].FactoryFile? && b == FileBinding(files[k].factory))
    {
      var i :| 0 <= i < |bs| && bs[i] == b;
      assert b == BindingOf(recs[i]);
      if i >= |previous| {
        assert recs[i] in FactoryRecords(files);
      } else {
        assert recs[i] in previous;
      }
    }
  }

  /** The component of a completed pass binds every factory written in the
      pass, and binds nothing but those and the factories of earlier passes. */
  lemma EveryFactoryIsBound(options: map<string, string>, platforms: seq<Platform>, symbols: seq<Annotated>,
                            previous: seq<BindingRecord>)
    requires Process(options, platforms, symbols, previous).Completed?
    ensures var r := Process(options, platforms, symbols, previous);
            forall k :: 0 <= k < |r.files| && r.files[k].FactoryFile? ==>
              FileBinding(r.files[k].factory) in r.component.bindings
    ensures var r := Process(options, platforms, symbols, previous);
            forall b :: b in r.component.bindings ==>
              || (exists p :: p in previous && b == BindingOf(p))
              || (exists k :: 0 <= k < |r.files| && r.files[k].FactoryFile? && b == FileBinding(r.files[k].factory))
  {
    var r := Process(options, platforms, symbols, previous);
    BindingsOfAccumulated(previous, r.files);
  }

  /** A pass with no annotated symbol still writes a component: it generates
      no file of its own and binds exactly the records of earlier passes. */
  lemma EmptyPassStillWritesComponent(options: map<string, string>, platforms: seq<Platform>,
                                      previous: seq<BindingRecord>)
    requires Gates(options, platforms).Proceed?
    ensures var r := Process(options, platforms, [], previous);
            r.Completed? && r.files == [] && r.records == previous && r.component.bindings == Bindings(previous)
  {
  }

  /** Only the package check reports a missing package: neither
      computeFactoryData nor the dispatch ever does. */
  lemma DispatchNeverReportsPackage(sym: Annotated, mode: CodegenMode)
    ensures MissingComponentPackage !in Dispatch(sym, mode).errors
  {
    match sym.element
    case ClassElement(c) => ForClassNeverReportsPackage(c, sym.screen, mode);
    case FunctionElement(f) => ForFunctionNeverReportsPackage(f, sym.screen, mode);
    case OtherElement(d) =>
  }

  lemma ForClassNeverReportsPackage(c: ClassDecl, screen: ScreenRef, mode: CodegenMode)
    ensures MissingComponentPackage !in ForClass(c, screen, mode).errors
  {
    if c.primaryConstructor.Some? {
      ResolveNeverReportsPackage(c.primaryConstructor.value.params, screen, mode, true);
      ResolveNeverReportsPackage(c.primaryConstructor.value.params, screen, mode, false);
    }
    if |c.abstractFunctions| == 1 {
      ResolveNeverReportsPackage(c.abstractFunctions[0].params, screen, mode, true);
      ResolveNeverReportsPackage(c.abstractFunctions[0].params, screen, mode, false);
    }
  }

  lemma ForFunctionNeverReportsPackage(f: FunctionDecl, screen: ScreenRef, mode: CodegenMode)
    ensures MissingComponentPackage !in ForFunction(f, screen, mode).errors
  {
    ResolveNeverReportsPackage(f.params, screen, mode, FunctionKind(f.name) == Presenter);
  }

  lemma {:induction false} ResolveNeverReportsPackage(params: seq<Param>, screen: ScreenRef, mode: CodegenMode, allowNavigator: bool)
    ensures MissingComponentPackage !in Resolve(params, screen, mode, allowNavigator).errors
  {
    if |params| > 0 {
      ResolveNeverReportsPackage(params[..|params| - 1], screen, mode, allowNavigator);
    }
  }
}
