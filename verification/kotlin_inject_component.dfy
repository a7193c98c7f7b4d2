/** `KotlinInjectComponentProcessor`: in kotlin-inject mode, a second pass
    over the files generated in the round that binds every class directly
    implementing `Ui.Factory` or `Presenter.Factory` into one `CircuitComponent`. */
module KotlinInjectComponent {
  import opened Options
  import opened Seqs
  import opened Text
  import opened Diagnostics
  import opened Components
  import opened CodegenModes
  import CircuitProcessor

  const ModeOption: string := "circuit.codegen.mode"
  const PackageOption: string := "circuit.codegen.package"
  const ParentOption: string := "circuit.codegen.parent.component"
  /** The only spelling of the mode option this processor accepts. */
  const KotlinInjectMode: string := "kotlin_inject"

  /** A class with the type names of the supertypes it declares directly. */
  datatype ClassInfo = ClassInfo(name: string, pkg: string, superTypes: seq<string>)

  /** A top-level declaration of a file, reduced to its closest class declaration. */
  datatype Declaration = Declaration(closestClass: Option<ClassInfo>)

  datatype SourceFile = SourceFile(path: string, declarations: seq<Declaration>)

  /** `isCircuitFactory`: some declared supertype is exactly `Ui.Factory` or `Presenter.Factory`. */
  predicate IsCircuitFactory(c: ClassInfo) {
    UiFactoryType in c.superTypes || PresenterFactoryType in c.superTypes
  }

  /** The binding result of a factory class found in `file`. */
  function RecordOf(c: ClassInfo, file: SourceFile): (r: BindingRecord)
    ensures r.factoryName == c.name && r.factoryPackage == c.pkg
    ensures r.kind == Presenter <==> PresenterFactoryType in c.superTypes
    ensures r.originatingFiles == [file.path]
  {
    BindingRecord(c.name, c.pkg, if PresenterFactoryType in c.superTypes then Presenter else Ui, [file.path])
  }

  /** A declaration whose closest class is a circuit factory contributes a record. */
  predicate Contributes(d: Declaration) {
    d.closestClass.Some? && IsCircuitFactory(d.closestClass.value)
  }

  /** The records of one file's declarations, in declaration order. */
  function DeclarationRecords(file: SourceFile, decls: seq<Declaration>): seq<BindingRecord> {
    if |decls| == 0 then []
    else
      (if Contributes(decls[0]) then [RecordOf(decls[0].closestClass.value, file)] else [])
      + DeclarationRecords(file, decls[1..])
  }

  /** `bindingResults`: the records of every new file, file by file. */
  function Collect(files: seq<SourceFile>): seq<BindingRecord> {
    if |files| == 0 then [] else DeclarationRecords(files[0], files[0].declarations) + Collect(files[1..])
  }

  /** A record comes from exactly one contributing declaration of one file. */
  lemma {:induction false} DeclarationRecordsMembers(file: SourceFile, decls: seq<Declaration>, r: BindingRecord)
    ensures r in DeclarationRecords(file, decls) <==>
              exists j :: 0 <= j < |decls| && Contributes(decls[j]) && r == RecordOf(decls[j].closestClass.value, file)
  {
    if |decls| > 0 {
      DeclarationRecordsMembers(file, decls[1..], r);
      assert forall j :: 1 <= j < |decls| ==> decls[j] == decls[1..][j - 1];
      if r in DeclarationRecords(file, decls[1..]) {
        var j :| 0 <= j < |decls[1..]| && Contributes(decls[1..][j]) && r == RecordOf(decls[1..][j].closestClass.value, file);
        assert Contributes(decls[j + 1]) && r == RecordOf(decls[j + 1].closestClass.value, file);
      }
    }
  }

  /** Every circuit factory class declared in a new file is recorded, and nothing else is. */
  lemma {:induction false} CollectMembers(files: seq<SourceFile>, r: BindingRecord)
    ensures r in Collect(files) <==>
              exists i, j :: 0 <= i < |files| && 0 <= j < |files[i].declarations|
                && Contributes(files[i].declarations[j])
                && r == RecordOf(files[i].declarations[j].closestClass.value, files[i])
  {
    if |files| > 0 {
      DeclarationRecordsMembers(files[0], files[0].declarations, r);
      CollectMembers(files[1..], r);
      assert forall i :: 1 <= i < |files| ==> files[i] == files[1..][i - 1];
      if r in Collect(files[1..]) {
        var i, j :| 0 <= i < |files[1..]| && 0 <= j < |files[1..][i].declarations|
                   && Contributes(files[1..][i].declarations[j])
                   && r == RecordOf(files[1..][i].declarations[j].closestClass.value, files[1..][i]);
        assert files[i + 1] == files[1..][i];
      }
      if exists i, j :: 0 <= i < |files| && 0 <= j < |files[i].declarations|
                && Contributes(files[i].declarations[j])
                && r == RecordOf(files[i].declarations[j].closestClass.value, files[i]) {
        var i, j :| 0 <= i < |files| && 0 <= j < |files[i].declarations|
                   && Contributes(files[i].declarations[j])
                   && r == RecordOf(files[i].declarations[j].closestClass.value, files[i]);
        if i > 0 {
          assert files[1..][i - 1] == files[i];
        }
      }
    }
  }

  /** Collecting over more files appends their records. */
  lemma {:induction false} CollectAppend(a: seq<SourceFile>, b: seq<SourceFile>)
    ensures Collect(a + b) == Collect(a) + Collect(b)
  {
    if |a| > 0 {
      assert (a + b)[1..] == a[1..] + b;
      CollectAppend(a[1..], b);
    } else {
      assert a + b == b;
    }
  }

  /** Every record names the one file it was found in. */
  predicate SingleFileRecords(records: seq<BindingRecord>) {
    forall k :: 0 <= k < |records| ==> |records[k].originatingFiles| == 1
  }

  lemma {:induction false} DeclarationRecordsSingleFile(file: SourceFile, decls: seq<Declaration>)
    ensures SingleFileRecords(DeclarationRecords(file, decls))
  {
    if |decls| > 0 {
      DeclarationRecordsSingleFile(file, decls[1..]);
    }
  }

  lemma {:induction false} CollectSingleFile(files: seq<SourceFile>)
    ensures SingleFileRecords(Collect(files))
  {
    if |files| > 0 {
      DeclarationRecordsSingleFile(files[0], files[0].declarations);
      CollectSingleFile(files[1..]);
    }
  }

  /** With one file per record, the component's dependencies list each
      record's file, in record order. */
  lemma {:induction false} DependenciesFollowRecords(records: seq<BindingRecord>)
    requires SingleFileRecords(records)
    ensures |OriginatingFiles(records)| == |records|
    ensures forall k :: 0 <= k < |records| ==> OriginatingFiles(records)[k] == records[k].originatingFiles[0]
  {
    if |records| > 0 {
      DependenciesFollowRecords(records[1..]);
      assert forall k :: 1 <= k < |records| ==> records[k] == records[1..][k - 1];
    }
  }

  datatype Output =
    | Inactive
    | Active(diagnostics: seq<Diagnostic>, component: Option<ComponentSpec>)

  /** `process`: nothing unless the mode option is exactly "kotlin_inject";
      then the package diagnostic, and a component only when some factory
      was found. */
  function Process(options: map<string, string>, newFiles: seq<SourceFile>): (r: Output)
    ensures r.Active? <==> ModeOption in options && options[ModeOption] == KotlinInjectMode
    ensures r.Active? ==> r.diagnostics == (if PackageOption in options then [] else [MissingComponentPackage])
    ensures r.Active? ==> (r.component.Some? <==> Collect(newFiles) != [])
    ensures r.Active? && r.component.Some? ==>
              var c := r.component.value;
              && c.bindings == Bindings(Collect(newFiles))
              && c.dependencies == OriginatingFiles(Collect(newFiles))
              && c.pkg == (if PackageOption in options then options[PackageOption] else "")
              && (ParentOption !in options ==> c.constructorParams == [])
              && (ParentOption in options ==>
                    c.constructorParams == [ParamSpec(ParentSlotName(Trim(options[ParentOption])), Trim(options[ParentOption]))])
  {
    if ModeOption !in options || options[ModeOption] != KotlinInjectMode then Inactive
    else
      var pkg := if PackageOption in options then Some(options[PackageOption]) else None;
      var diags := if pkg.None? then [MissingComponentPackage] else [];
      var parents := if ParentOption in options then Some([Trim(options[ParentOption])]) else None;
      var records := Collect(newFiles);
      Active(diags, if |records| == 0 then None else Some(FromRecords(records, pkg, parents)))
  }

  /** Both component paths agree on the lower-case mode spelling: the main
      processor then runs in KOTLIN_INJECT mode on every platform, and this
      processor is active. */
  lemma LowercaseModeActivatesBoth(options: map<string, string>, platforms: seq<Platform>)
    requires ModeOption in options && options[ModeOption] == KotlinInjectMode
    ensures CircuitProcessor.Gates(options, platforms) == CircuitProcessor.Proceed(KotlinInject)
    ensures Process(options, []).Active?
  {
    assert Lowercase(Name(KotlinInject)) == KotlinInjectMode;
    LowercaseNameSelectsMode(KotlinInject);
  }

  /** The main processor matches the mode ignoring case, this one does not:
      with the enum's own upper-case spelling the main processor runs in
      KOTLIN_INJECT mode while this processor stays inactive. */
  lemma UppercaseModeSkipsComponent(options: map<string, string>, platforms: seq<Platform>, files: seq<SourceFile>)
    requires ModeOption in options && options[ModeOption] == Name(KotlinInject)
    ensures CircuitProcessor.Gates(options, platforms) == CircuitProcessor.Proceed(KotlinInject)
    ensures Process(options, files) == Inactive
  {
    ParseModeMatchesName(Some(Name(KotlinInject)), KotlinInject);
    assert EqualsIgnoreCase(Name(KotlinInject), Name(KotlinInject)) by {
      assert forall i :: 0 <= i < |Name(KotlinInject)| ==> CharEqualsIgnoreCase(Name(KotlinInject)[i], Name(KotlinInject)[i]);
    }
  }
}
