# Target configurators of the Kotlin multiplatform project wizard

This project models the target-configurator layer of the Kotlin new-project
wizard. A target configurator is a singleton object for one compilation target
of a multiplatform module: JS for the browser, JS for Node.js, common, JVM or
Android. The layer answers three questions:

- may a configurator be selected next to the ones already chosen
  (`canCoexistsWith`);
- what metadata it shows: `id`, `text`, `suggestedModuleName`, `moduleType`,
  `moduleKind` and the default test framework;
- which build-system IR it emits for a module (`createTargetIrs`,
  `createInnerTargetIrs`).

Everything in the layer is a total, pure function, so the model is made of
datatypes, functions and lemmas:

- `wizard_types.dfy` holds the reference data the layer reads (`ModuleType`,
  `ModuleSubType` with its enum name, `ModuleKind`, `KotlinTestFramework` and
  `Module`) and the IR nodes (`TargetAccessIR`, `DefaultTargetConfigurationIR`,
  and a raw Gradle section call).
- `target_configurator.dfy` holds the interface defaults as functions
  (`DefaultCanCoexistsWith`, `NoneEqual`, `SimpleId`, …). It also holds the
  five objects as the constructors of `Configurator`. Each object's member
  function dispatches to the override that object inherits. Datatype equality
  on `Configurator` is Kotlin's identity equality on the objects.

The single-coexistence rule follows the code: `other.none { it == this }` is
false whenever the list holds the receiver itself. The common target's default
test framework is `COMMON`, as the code says.

## Model

| member | source | states |
|---|---|---|
| `TargetConfigurators.DefaultsOfTargetConfigurator` | libraries/tools/new-project-wizard/src/org/jetbrains/kotlin/tools/projectWizard/moduleConfigurators/TargetConfigurator.kt:14-21 | The base `canCoexistsWith` accepts every list. The default `createInnerTargetIrs` is empty for every module, and so is each of the five configurators' `createInnerTargetIrs`. Every configurator's `moduleKind` is `target`. |
| `TargetConfigurators.NoneEqual` | libraries/tools/new-project-wizard/src/org/jetbrains/kotlin/tools/projectWizard/moduleConfigurators/TargetConfigurator.kt:26-27 | `none { it == this }` holds iff no index of the list holds the receiver. |
| `TargetConfigurators.Configurator.CanCoexistsWith` | libraries/tools/new-project-wizard/src/org/jetbrains/kotlin/tools/projectWizard/moduleConfigurators/TargetConfigurator.kt:25-27 | All five objects use the single-coexistence override. For each of them the result is true iff the receiver is not in the list. |
| `TargetConfigurators.NoneEqualAppend` | libraries/tools/new-project-wizard/src/org/jetbrains/kotlin/tools/projectWizard/moduleConfigurators/TargetConfigurator.kt:26-27 | `none` over a concatenation equals `none` over each part. |
| `TargetConfigurators.CanCoexistsWithAppend` | libraries/tools/new-project-wizard/src/org/jetbrains/kotlin/tools/projectWizard/moduleConfigurators/TargetConfigurator.kt:26-27 | Appending one configurator to the list adds exactly one check: that the appended one is not the receiver. |
| `TargetConfigurators.SingleCoexistenceCases` | libraries/tools/new-project-wizard/src/org/jetbrains/kotlin/tools/projectWizard/moduleConfigurators/TargetConfigurator.kt:25-27 | True on the empty list. False on any list holding the receiver, and on `[c]` itself. True on `[d]` for any other singleton `d`. |
| `TargetConfigurators.JvmWithCommon` | libraries/tools/new-project-wizard/src/org/jetbrains/kotlin/tools/projectWizard/moduleConfigurators/TargetConfigurator.kt:95-116 | Jvm accepts `[Common]` and Common accepts `[Jvm]`. Jvm refuses `[Jvm]`. |
| `TargetConfigurators.AdmittedIffNoDuplicates` | libraries/tools/new-project-wizard/src/org/jetbrains/kotlin/tools/projectWizard/moduleConfigurators/TargetConfigurator.kt:25-27 | Check each selected configurator against those selected before it. Every check passes iff no singleton appears twice in the selection. |
| `TargetConfigurators.Capitalize` | libraries/tools/new-project-wizard/src/org/jetbrains/kotlin/tools/projectWizard/moduleConfigurators/TargetConfigurator.kt:34 | The result has the input's length and the same characters from index 1 on. A lower-case ASCII first letter becomes its upper-case letter. Any other input is returned unchanged. |
| `TargetConfigurators.SimpleMetadata` | libraries/tools/new-project-wizard/src/org/jetbrains/kotlin/tools/projectWizard/moduleConfigurators/TargetConfigurator.kt:30-36 | For a simple configurator, `id` is the sub-type name followed by `"Target"`. Its suggested module name is the sub-type name. Its `moduleType` is the sub-type's module type. Its `text` has the name's length and the name's tail. |
| `TargetConfigurators.SimpleMetadataValues` | libraries/tools/new-project-wizard/src/org/jetbrains/kotlin/tools/projectWizard/moduleConfigurators/TargetConfigurator.kt:95-116 | Common, Jvm and Android have ids `"commonTarget"`, `"jvmTarget"` and `"androidTarget"`. Their texts are `"Common"`, `"Jvm"` and `"Android"`. Their suggested names are the sub-type names. Their module types are those of their sub-types. |
| `TargetConfigurators.JsAndTestFrameworkConstants` | libraries/tools/new-project-wizard/src/org/jetbrains/kotlin/tools/projectWizard/moduleConfigurators/TargetConfigurator.kt:54-108 | Browser is `"jsBrowser"`/`"Browser"`/`"browser"`. Node.js is `"jsNode"`/`"Node.js"`/`"nodeJs"`. Both have module type `js` and test framework `JS`. Common's test framework is `COMMON` and Jvm's is `JUNIT4`. |
| `TargetConfigurators.IdsAreUnique` | libraries/tools/new-project-wizard/src/org/jetbrains/kotlin/tools/projectWizard/moduleConfigurators/TargetConfigurator.kt:33-80 | No two of the five configurators share an `id`. |
| `TargetConfigurators.JsOrSimple` | libraries/tools/new-project-wizard/src/org/jetbrains/kotlin/tools/projectWizard/moduleConfigurators/TargetConfigurator.kt:54-116 | Each object is either a JS configurator or a simple configurator, never both. |
| `TargetConfigurators.CreateTargetAccessIr` | libraries/tools/new-project-wizard/src/org/jetbrains/kotlin/tools/projectWizard/moduleConfigurators/TargetConfigurator.kt:47-51 | The access node carries the given sub-type. Its override name is absent iff the module's name equals the sub-type's name. Otherwise the override name is the module's name. |
| `TargetConfigurators.ElisionExamples` | libraries/tools/new-project-wizard/src/org/jetbrains/kotlin/tools/projectWizard/moduleConfigurators/TargetConfigurator.kt:47-51 | For Jvm, a module named `"jvm"` gets no override name. A module named `"myJvm"` gets the override name `"myJvm"`. |
| `TargetConfigurators.Configurator.CreateTargetIrs` | libraries/tools/new-project-wizard/src/org/jetbrains/kotlin/tools/projectWizard/moduleConfigurators/TargetConfigurator.kt:39-92 | The result is exactly one target block. A simple configurator's block accesses its own sub-type and nests the default inner IRs, which are empty. A JS configurator's block accesses the generic `js` sub-type and nests one raw section call: `"browser"` or `"nodejs"`. |
| `TargetConfigurators.JsOutputsDifferOnlyInSection` | libraries/tools/new-project-wizard/src/org/jetbrains/kotlin/tools/projectWizard/moduleConfigurators/TargetConfigurator.kt:65-92 | Both JS outputs are fully determined. They share the same access node over `js` and differ only in the section name. |

## Left out

- How the IR renders to Gradle text is not modelled. The `sectionCall` DSL inside `RawGradleIR`, and what the target-access and target-configuration nodes print, are external classes. The nodes are opaque constructors here.
- Members inherited from `ModuleConfigurator`, `ModuleConfiguratorWithTests`, `JvmModuleConfigurator` and `AndroidModuleConfigurator` are not modelled. Their code is not part of this model. This includes Android's test framework: `DefaultTestFramework` requires a configurator that is a `ModuleConfiguratorWithTests` in this file.
- The registry's other sub-types and test frameworks are not modelled. Only the constants these configurators name appear. `ModuleKind` has `target` and one placeholder, `otherKind`, that stands for all the enum's other kinds. The module type bound to each of the four sub-types is taken to be the type of the same name.
- `Module` is modelled by its name only, because no other field is read here.
- Capitalize: uppercases ASCII letters only. Kotlin's `capitalize` is Unicode- and locale-aware, and those rules are not modelled.
- The wizard's selection loop, and the order in which it checks coexistence, are not modelled; that code is not part of this model. `AdmittedIffNoDuplicates` states only what the predicate guarantees for any insertion order.
- `CanCoexistsWith` takes a list of the five modelled configurators only. Kotlin's parameter is `List<TargetConfigurator>`, which also admits target configurators defined elsewhere in the wizard. Such an element never equals the receiver, so it could not change the result.
