/** The standard optional value, standing in for Kotlin's nullable types. */
module Wrappers {
  datatype Option<+T> = None | Some(value: T)
}

/**
 * The reference data the target configurators read: the module types, the
 * module sub-types with the enum name Kotlin gives each constant, the module
 * kinds, the test frameworks and the module being configured. Only the
 * constants the configurators mention are modelled, plus one placeholder
 * for the module kinds other than `target`.
 */
module ProjectWizard {

  /** Classification of a module's platform (`ModuleType`). */
  datatype ModuleType = jvm | js | android | common

  /** Compilation sub-types (`ModuleSubType`), each bound to its module type. */
  datatype ModuleSubType = jvm | js | android | common
  {
    /** Kotlin's `Enum.name` of the constant: its identifier as written. */
    function Name(): string {
      match this
      case jvm => "jvm"
      case js => "js"
      case android => "android"
      case common => "common"
    }

    /** The `moduleType` constructor argument of the constant. */
    function ModuleTypeOf(): ModuleType {
      match this
      case jvm => ModuleType.jvm
      case js => ModuleType.js
      case android => ModuleType.android
      case common => ModuleType.common
    }
  }

  /**
   * What a module configurator configures (`ModuleKind`). Only `target` is
   * named by the target configurators; `otherKind` stands for every other
   * kind of the wizard's enum, so that "the kind is `target`" rules something out.
   */
  datatype ModuleKind = target | otherKind

  /** The test frameworks a configurator with tests may default to. */
  datatype KotlinTestFramework = JUNIT4 | JS | COMMON

  /** A build module under configuration; only its user-assigned name is read. */
  datatype Module = Module(name: string)
}

/**
 * The build-system intermediate representation that the configurators emit.
 * The nodes are opaque constructors: how they render to Gradle text is not
 * part of this model.
 */
module BuildSystemIr {
  import opened Wrappers
  import opened ProjectWizard

  /**
   * `TargetAccessIR`: addresses a target by sub-type, with the name under
   * which the target is declared when it is not the sub-type's own name.
   */
  datatype TargetAccessIR = TargetAccessIR(subType: ModuleSubType, nonDefaultName: Option<string>)

  datatype BuildSystemIR =
    /** `DefaultTargetConfigurationIR(targetAccess, irs)`: one target block with nested IRs. */
    | DefaultTargetConfigurationIR(targetAccess: TargetAccessIR, irs: seq<BuildSystemIR>)
    /** `RawGradleIR { sectionCall(sectionName) {} }`: a named section call with an empty body. */
    | RawGradleSectionCall(sectionName: string)
}
