/** `CodegenMode`: the dependency-injection dialect the generated factories
    target, chosen once per compilation by the `circuit.codegen.mode` option. */
module CodegenModes {
  import opened Options
  import opened Text
  import opened Components

  datatype CodegenMode = Anvil | Hilt | KotlinInject

  /** `CodegenMode.entries`, in declaration order. */
  const Entries: seq<CodegenMode> := [Anvil, Hilt, KotlinInject]

  /** The enum constant's `name`. */
  function Name(m: CodegenMode): string {
    match m
    case Anvil => "ANVIL"
    case Hilt => "HILT"
    case KotlinInject => "KOTLIN_INJECT"
  }

  /** `entries.find { it.name.equals(option, ignoreCase = true) }`. */
  function Find(candidates: seq<CodegenMode>, option: string): (r: Option<CodegenMode>)
    ensures r.Some? ==> r.value in candidates && EqualsIgnoreCase(Name(r.value), option)
    ensures r.None? ==> forall m :: m in candidates ==> !EqualsIgnoreCase(Name(m), option)
  {
    if |candidates| == 0 then None
    else if EqualsIgnoreCase(Name(candidates[0]), option) then Some(candidates[0])
    else Find(candidates[1..], option)
  }

  datatype ModeChoice = Chosen(mode: CodegenMode) | Unrecognised(option: string)

  /** The codegen mode an option value selects: ANVIL when the option is absent,
      otherwise the mode whose name matches ignoring case. */
  function ParseMode(option: Option<string>): ModeChoice {
    match option
    case None => Chosen(Anvil)
    case Some(s) =>
      match Find(Entries, s)
      case Some(m) => Chosen(m)
      case None => Unrecognised(s)
  }

  /** An absent option means ANVIL; a present one selects exactly the mode
      whose name it equals ignoring case, and is unrecognised when no name
      matches. */
  lemma ParseModeMatchesName(option: Option<string>, m: CodegenMode)
    ensures option.None? ==> ParseMode(option) == Chosen(Anvil)
    ensures option.Some? ==> (ParseMode(option) == Chosen(m) <==> EqualsIgnoreCase(Name(m), option.value))
    ensures option.Some? ==>
              (ParseMode(option).Unrecognised? <==> forall m' :: !EqualsIgnoreCase(Name(m'), option.value))
  {
    if option.Some? {
      var s := option.value;
      var found := Find(Entries, s);
      if found.Some? && EqualsIgnoreCase(Name(m), s) {
        // Names of distinct modes have distinct lengths, so only one can match.
        assert |Name(found.value)| == |s| == |Name(m)|;
      }
      if found.None? {
        forall m' | true
          ensures !EqualsIgnoreCase(Name(m'), s)
        {
          assert m' == Entries[0] || m' == Entries[1] || m' == Entries[2];
        }
      }
    }
  }

  /** The option is matched ignoring case: the lower-case name selects the mode too. */
  lemma LowercaseNameSelectsMode(m: CodegenMode)
    ensures ParseMode(Some(Lowercase(Name(m)))) == Chosen(m)
  {
    LowercaseEqualsIgnoreCase(Name(m));
    var s := Lowercase(Name(m));
    assert EqualsIgnoreCase(Name(m), s) by {
      forall i | 0 <= i < |s|
        ensures CharEqualsIgnoreCase(Name(m)[i], s[i])
      {
        assert CharEqualsIgnoreCase(s[i], Name(m)[i]);
      }
    }
    ParseModeMatchesName(Some(s), m);
  }

  /** KSP's `PlatformInfo` kinds. */
  datatype Platform = Jvm | Js | Native | UnknownNative

  /** `supportsPlatforms`: Anvil and Hilt run only when every target is a JVM
      target; kotlin-inject runs everywhere. */
  predicate SupportsPlatforms(m: CodegenMode, platforms: seq<Platform>) {
    match m
    case Anvil => forall p :: p in platforms ==> p == Jvm
    case Hilt => forall p :: p in platforms ==> p == Jvm
    case KotlinInject => true
  }

  const JavaxInject: string := "javax.inject.Inject"
  const KotlinInjectInject: string := "me.tatarka.inject.annotations.Inject"

  /** `injectAnnotation()`: the annotation put on every factory constructor and
      looked for on a class's constructor. */
  function InjectAnnotation(m: CodegenMode): string {
    match m
    case KotlinInject => KotlinInjectInject
    case _ => JavaxInject
  }

  /** An annotation `annotateFactory` adds to a generated factory class. */
  datatype FactoryAnnotation = ContributesMultibinding(scope: string)

  /** `annotateFactory`: only Anvil decorates the factory, with
      `@ContributesMultibinding(scope::class)`. */
  function FactoryAnnotations(m: CodegenMode, scope: string): seq<FactoryAnnotation> {
    if m == Anvil then [ContributesMultibinding(scope)] else []
  }

  /** The Hilt module `produceAdditionalTypeSpec` returns:
      `@Module @InstallIn(scope::class) [@OriginatingElement(topLevelClass = T::class)]
       abstract class <Factory>Module { @Binds @IntoSet abstract fun bind<Factory>(<factory>: <Factory>): <kind>.Factory }`. */
  datatype HiltModule = HiltModule(
    name: string,
    pkg: string,
    installIn: string,
    originatingElement: Option<string>,
    bindMethod: string,
    bindParam: string,
    factory: ClassRef,
    returnKind: FactoryKind)

  /** `produceAdditionalTypeSpec`: a companion module exists only in Hilt mode. */
  function AdditionalType(m: CodegenMode, factory: ClassRef, kind: FactoryKind, scope: string, topLevelClass: Option<string>)
    : (r: Option<HiltModule>)
    ensures r.Some? <==> m == Hilt
    ensures r.Some? ==>
              && r.value.name == factory.name + "Module"
              && r.value.pkg == factory.pkg
              && r.value.bindMethod == "bind" + factory.name
              && r.value.factory == factory
              && r.value.returnKind == kind
              && r.value.installIn == scope
              && r.value.originatingElement == topLevelClass
              && r.value.bindParam == DecapitalizeFirst(factory.name)
  {
    if m == Hilt then
      Some(HiltModule(factory.name + "Module", factory.pkg, scope, topLevelClass,
                      "bind" + factory.name, DecapitalizeFirst(factory.name), factory, kind))
    else None
  }
}
