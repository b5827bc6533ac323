/**
 * The target configurators of the multiplatform project wizard: which target
 * configurators may be selected together for one module, the metadata each
 * exposes, and the build-system IR each emits for a module.
 *
 * Kotlin's capability interfaces (`TargetConfigurator`,
 * `SingleCoexistenceTargetConfigurator`, `SimpleTargetConfigurator`) become
 * functions holding their default bodies; the five singleton objects become
 * the constructors of `Configurator`, whose member functions dispatch to the
 * override each object inherits. Datatype equality on `Configurator` is
 * Kotlin's identity equality on those objects.
 */
module TargetConfigurators {
  import opened Wrappers
  import opened ProjectWizard
  import opened BuildSystemIr

  // ---------------------------------------------------------------------------
  // TargetConfigurator: the defaults of the base capability
  // ---------------------------------------------------------------------------

  /** `TargetConfigurator.canCoexistsWith`: the base capability places no restriction. */
  function DefaultCanCoexistsWith(other: seq<Configurator>): bool {
    true
  }

  /** `TargetConfigurator.createInnerTargetIrs`: by default a configurator nests nothing. */
  function DefaultCreateInnerTargetIrs(m: Module): seq<BuildSystemIR> {
    []
  }

  // ---------------------------------------------------------------------------
  // SingleCoexistenceTargetConfigurator
  // ---------------------------------------------------------------------------

  /**
   * `other.none { it == self }`: no element of `other` is `self`.
   * Walks the list front to back as Kotlin's `none` does.
   */
  function NoneEqual(other: seq<Configurator>, self: Configurator): (r: bool)
    ensures r <==> forall i :: 0 <= i < |other| ==> other[i] != self
  {
    if other == [] then true
    else other[0] != self && NoneEqual(other[1..], self)
  }

  /** `SingleCoexistenceTargetConfigurator.canCoexistsWith`. */
  function SingleCoexistenceCanCoexistsWith(self: Configurator, other: seq<Configurator>): bool {
    NoneEqual(other, self)
  }

  // ---------------------------------------------------------------------------
  // SimpleTargetConfigurator: metadata derived from the sub-type
  // ---------------------------------------------------------------------------

  function UpperAscii(ch: char): char {
    if 'a' <= ch <= 'z' then (ch as int - 32) as char else ch
  }

  /**
   * Kotlin's `String.capitalize()`, for ASCII: the first character is
   * upper-cased when it is a lower-case letter, everything else is kept.
   */
  function Capitalize(s: string): (r: string)
    ensures |r| == |s|
    ensures |s| > 0 ==> r[1..] == s[1..]
    ensures |s| > 0 ==> r[0] == UpperAscii(s[0])
    ensures |s| > 0 && 'a' <= s[0] <= 'z' ==> 'A' <= r[0] <= 'Z' && r[0] as int == s[0] as int - 32
    ensures (|s| == 0 || !('a' <= s[0] <= 'z')) ==> r == s
  {
    if |s| > 0 && 'a' <= s[0] <= 'z' then [UpperAscii(s[0])] + s[1..] else s
  }

  function SimpleModuleType(subType: ModuleSubType): ModuleType {
    subType.ModuleTypeOf()
  }

  function SimpleId(subType: ModuleSubType): string {
    subType.Name() + "Target"
  }

  function SimpleText(subType: ModuleSubType): string {
    Capitalize(subType.Name())
  }

  function SimpleSuggestedModuleName(subType: ModuleSubType): string {
    subType.Name()
  }

  /**
   * `Module.createTargetAccessIr(moduleSubType)`: the access node names the
   * module explicitly only when its name differs from the sub-type's name.
   */
  function CreateTargetAccessIr(m: Module, subType: ModuleSubType): (r: TargetAccessIR)
    ensures r.subType == subType
    ensures r.nonDefaultName.None? <==> m.name == subType.Name()
    ensures r.nonDefaultName.Some? ==> r.nonDefaultName.value == m.name
  {
    TargetAccessIR(subType, if m.name != subType.Name() then Some(m.name) else None)
  }

  // ---------------------------------------------------------------------------
  // The singleton configurators
  // ---------------------------------------------------------------------------

  datatype Configurator =
    | JsBrowserTargetConfigurator
    | JsNodeTargetConfigurator
    | CommonTargetConfigurator
    | JvmTargetConfigurator
    | AndroidTargetConfigurator
  {
    /** The two `JsTargetConfigurator` subclasses. */
    predicate IsJs() {
      JsBrowserTargetConfigurator? || JsNodeTargetConfigurator?
    }

    /** The objects that implement `SimpleTargetConfigurator`. */
    predicate IsSimple() {
      CommonTargetConfigurator? || JvmTargetConfigurator? || AndroidTargetConfigurator?
    }

    /** Configurators that are `ModuleConfiguratorWithTests` here and so have `defaultTestFramework`. */
    predicate WithTests() {
      !AndroidTargetConfigurator?
    }

    /** `SimpleTargetConfigurator.moduleSubType`. */
    function SubType(): ModuleSubType
      requires IsSimple()
    {
      match this
      case CommonTargetConfigurator => ModuleSubType.common
      case JvmTargetConfigurator => ModuleSubType.jvm
      case AndroidTargetConfigurator => ModuleSubType.android
    }

    /** `TargetConfigurator.moduleKind`, which no configurator overrides. */
    function Kind(): ModuleKind {
      ModuleKind.target
    }

    function Type(): ModuleType {
      if IsJs() then ModuleType.js else SimpleModuleType(SubType())
    }

    function Id(): string {
      match this
      case JsBrowserTargetConfigurator => "jsBrowser"
      case JsNodeTargetConfigurator => "jsNode"
      case _ => SimpleId(SubType())
    }

    function Text(): string {
      match this
      case JsBrowserTargetConfigurator => "Browser"
      case JsNodeTargetConfigurator => "Node.js"
      case _ => SimpleText(SubType())
    }

    function SuggestedModuleName(): string {
      match this
      case JsBrowserTargetConfigurator => "browser"
      case JsNodeTargetConfigurator => "nodeJs"
      case _ => SimpleSuggestedModuleName(SubType())
    }

    function DefaultTestFramework(): KotlinTestFramework
      requires WithTests()
    {
      match this
      case JsBrowserTargetConfigurator => KotlinTestFramework.JS
      case JsNodeTargetConfigurator => KotlinTestFramework.JS
      case CommonTargetConfigurator => KotlinTestFramework.COMMON
      case JvmTargetConfigurator => KotlinTestFramework.JUNIT4
    }

    /**
     * `canCoexistsWith`: every one of the five objects is a
     * `SingleCoexistenceTargetConfigurator`, whose override replaces the base
     * default, so a configurator refuses exactly the lists that hold itself.
     */
    function CanCoexistsWith(other: seq<Configurator>): (r: bool)
      ensures r <==> this !in other
    {
      SingleCoexistenceCanCoexistsWith(this, other)
    }

    /** `createInnerTargetIrs`: none of the five objects overrides the default. */
    function CreateInnerTargetIrs(m: Module): seq<BuildSystemIR> {
      DefaultCreateInnerTargetIrs(m)
    }

    /** The section the JS configurators nest inside their target block. */
    function JsSectionName(): string
      requires IsJs()
    {
      if JsBrowserTargetConfigurator? then "browser" else "nodejs"
    }

    /**
     * `createTargetIrs`: one target block. The simple configurators use the
     * `SimpleTargetConfigurator` default over their own sub-type and their
     * inner IRs; the JS ones address the generic `js` sub-type and nest one
     * raw section call.
     */
    function CreateTargetIrs(m: Module): (r: seq<BuildSystemIR>)
      ensures |r| == 1 && r[0].DefaultTargetConfigurationIR?
      ensures IsSimple() ==> r[0].targetAccess == CreateTargetAccessIr(m, SubType())
      ensures IsSimple() ==> r[0].irs == CreateInnerTargetIrs(m) == []
      ensures IsJs() ==> r[0].targetAccess == CreateTargetAccessIr(m, ModuleSubType.js)
      ensures IsJs() ==> r[0].irs == [RawGradleSectionCall(JsSectionName())]
    {
      if IsJs() then
        [DefaultTargetConfigurationIR(
           CreateTargetAccessIr(m, ModuleSubType.js),
           [RawGradleSectionCall(JsSectionName())])]
      else
        [DefaultTargetConfigurationIR(
           CreateTargetAccessIr(m, SubType()),
           CreateInnerTargetIrs(m))]
    }
  }

  /** The two capability families partition the five objects. */
  lemma JsOrSimple(c: Configurator)
    ensures c.IsJs() != c.IsSimple()
  {
  }

  // ---------------------------------------------------------------------------
  // Properties
  // ---------------------------------------------------------------------------

  /** The base default accepts every list, and every configurator is of kind `target`. */
  lemma DefaultsOfTargetConfigurator(other: seq<Configurator>, m: Module, c: Configurator)
    ensures DefaultCanCoexistsWith(other)
    ensures DefaultCreateInnerTargetIrs(m) == []
    ensures c.CreateInnerTargetIrs(m) == []
    ensures c.Kind() == ModuleKind.target
  {
  }

  /** `none` over a concatenation is `none` over both halves. */
  lemma {:induction false} NoneEqualAppend(a: seq<Configurator>, b: seq<Configurator>, self: Configurator)
    ensures NoneEqual(a + b, self) == (NoneEqual(a, self) && NoneEqual(b, self))
  {
    if a == [] {
      assert a + b == b;
    } else {
      assert (a + b)[1..] == a[1..] + b;
      NoneEqualAppend(a[1..], b, self);
    }
  }

  /** Coexistence with a growing selection: adding one configurator adds one check. */
  lemma CanCoexistsWithAppend(c: Configurator, selected: seq<Configurator>, added: Configurator)
    ensures c.CanCoexistsWith(selected + [added]) == (c.CanCoexistsWith(selected) && c != added)
  {
    NoneEqualAppend(selected, [added], c);
  }

  /** Empty list accepted, own singleton refused, a distinct singleton accepted. */
  lemma SingleCoexistenceCases(c: Configurator, d: Configurator, other: seq<Configurator>)
    ensures c.CanCoexistsWith([])
    ensures c in other ==> !c.CanCoexistsWith(other)
    ensures !c.CanCoexistsWith([c])
    ensures c != d ==> c.CanCoexistsWith([d])
  {
  }

  /** Jvm and Common may both be selected; Jvm cannot be selected twice. */
  lemma JvmWithCommon()
    ensures JvmTargetConfigurator.CanCoexistsWith([CommonTargetConfigurator])
    ensures CommonTargetConfigurator.CanCoexistsWith([JvmTargetConfigurator])
    ensures !JvmTargetConfigurator.CanCoexistsWith([JvmTargetConfigurator])
  {
  }

  /**
   * A selection order in which every configurator was admitted against the
   * ones selected before it.
   */
  predicate AdmittedInOrder(selected: seq<Configurator>) {
    forall k :: 0 <= k < |selected| ==> selected[k].CanCoexistsWith(selected[..k])
  }

  predicate NoDuplicates(selected: seq<Configurator>) {
    forall i, j :: 0 <= i < j < |selected| ==> selected[i] != selected[j]
  }

  /**
   * The guarantee of single coexistence: checking each insertion against the
   * configurators already present admits exactly the selections in which no
   * singleton appears twice.
   */
  lemma AdmittedIffNoDuplicates(selected: seq<Configurator>)
    ensures AdmittedInOrder(selected) <==> NoDuplicates(selected)
  {
    if AdmittedInOrder(selected) {
      forall i, j | 0 <= i < j < |selected| ensures selected[i] != selected[j] {
        assert selected[..j][i] == selected[i];
      }
    }
    if NoDuplicates(selected) {
      forall k | 0 <= k < |selected| ensures selected[k].CanCoexistsWith(selected[..k]) {
        forall i | 0 <= i < k ensures selected[..k][i] != selected[k] {
          assert selected[..k][i] == selected[i];
        }
      }
    }
  }

  /** `SimpleTargetConfigurator` metadata in terms of the sub-type. */
  lemma SimpleMetadata(c: Configurator)
    requires c.IsSimple()
    ensures c.Id() == c.SubType().Name() + "Target"
    ensures c.SuggestedModuleName() == c.SubType().Name()
    ensures c.Type() == c.SubType().ModuleTypeOf()
    ensures |c.Text()| == |c.SubType().Name()|
    ensures c.Text()[1..] == c.SubType().Name()[1..]
  {
  }

  /** The metadata of the three simple objects, evaluated. */
  lemma SimpleMetadataValues()
    ensures CommonTargetConfigurator.Id() == "commonTarget"
    ensures JvmTargetConfigurator.Id() == "jvmTarget"
    ensures AndroidTargetConfigurator.Id() == "androidTarget"
    ensures CommonTargetConfigurator.Text() == "Common"
    ensures JvmTargetConfigurator.Text() == "Jvm"
    ensures AndroidTargetConfigurator.Text() == "Android"
    ensures CommonTargetConfigurator.SuggestedModuleName() == "common"
    ensures JvmTargetConfigurator.SuggestedModuleName() == "jvm"
    ensures AndroidTargetConfigurator.SuggestedModuleName() == "android"
    ensures CommonTargetConfigurator.Type() == ModuleType.common
    ensures JvmTargetConfigurator.Type() == ModuleType.jvm
    ensures AndroidTargetConfigurator.Type() == ModuleType.android
  {
  }

  /** The constants of the JS configurators and the test-framework defaults. */
  lemma JsAndTestFrameworkConstants()
    ensures JsBrowserTargetConfigurator.Id() == "jsBrowser"
    ensures JsBrowserTargetConfigurator.Text() == "Browser"
    ensures JsBrowserTargetConfigurator.SuggestedModuleName() == "browser"
    ensures JsNodeTargetConfigurator.Id() == "jsNode"
    ensures JsNodeTargetConfigurator.Text() == "Node.js"
    ensures JsNodeTargetConfigurator.SuggestedModuleName() == "nodeJs"
    ensures JsBrowserTargetConfigurator.Type() == ModuleType.js
    ensures JsNodeTargetConfigurator.Type() == ModuleType.js
    ensures JsBrowserTargetConfigurator.DefaultTestFramework() == KotlinTestFramework.JS
    ensures JsNodeTargetConfigurator.DefaultTestFramework() == KotlinTestFramework.JS
    ensures CommonTargetConfigurator.DefaultTestFramework() == KotlinTestFramework.COMMON
    ensures JvmTargetConfigurator.DefaultTestFramework() == KotlinTestFramework.JUNIT4
  {
  }

  /** Every configurator has its own id, so ids identify the singletons. */
  lemma IdsAreUnique(c: Configurator, d: Configurator)
    ensures c.Id() == d.Id() ==> c == d
  {
    if c != d {
      assert c.Id()[0] != d.Id()[0] || c.Id()[2] != d.Id()[2];
    }
  }

  /** Name-collision elision at the `jvm` sub-type, for a kept and a changed name. */
  lemma ElisionExamples()
    ensures JvmTargetConfigurator.CreateTargetIrs(Module("jvm"))[0].targetAccess
            == TargetAccessIR(ModuleSubType.jvm, None)
    ensures JvmTargetConfigurator.CreateTargetIrs(Module("myJvm"))[0].targetAccess
            == TargetAccessIR(ModuleSubType.jvm, Some("myJvm"))
  {
  }

  /**
   * The browser and Node.js configurators emit the same target block over
   * the generic `js` sub-type and differ only in the nested section's name.
   */
  lemma JsOutputsDifferOnlyInSection(m: Module)
    ensures JsBrowserTargetConfigurator.CreateTargetIrs(m)
            == [DefaultTargetConfigurationIR(CreateTargetAccessIr(m, ModuleSubType.js),
                                             [RawGradleSectionCall("browser")])]
    ensures JsNodeTargetConfigurator.CreateTargetIrs(m)
            == [DefaultTargetConfigurationIR(CreateTargetAccessIr(m, ModuleSubType.js),
                                             [RawGradleSectionCall("nodejs")])]
    ensures JsBrowserTargetConfigurator.CreateTargetIrs(m)[0].targetAccess
            == JsNodeTargetConfigurator.CreateTargetIrs(m)[0].targetAccess
  {
  }
}
