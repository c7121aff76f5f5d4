# Folder configuration models

A Dafny model of the per-folder configuration layer of the VS Code workbench
(`src/vs/workbench/services/configuration/common/configurationModels.ts`).
The file has three classes, and each one is modelled as a Dafny class whose
methods update its fields in place:

- `ScopedConfigurationModel` is a standalone configuration file such as
  `tasks` or `launch`. Its parsed contents are wrapped under one top-level key,
  its scope tag.
- `FolderSettingsModel` is a folder's settings file, passed through an
  admission filter:
  - A key whose registered schema is marked executable is rejected and listed
    among the unsupported keys.
  - Every other key, including a key nobody registered, is admitted.
  - The unfiltered snapshot is kept, so the settings can be filtered again
    when the registry changes.
  - The snapshot can be projected onto the keys of the `WORKSPACE` scope or of
    the `FOLDER` scope.
- `FolderConfigurationModel` is the consolidated model. It first resets its
  contents and overrides. It then merges a base layer: the settings model
  itself in a workspace folder, or its folder-scoped projection otherwise.
  After that it merges every scoped model, in order. Its keys are the settings
  keys, followed by `<tag>.<key>` for each key of every scoped model whose tag
  is a standalone configuration name.

Files:

- `Values.dfy`: JSON values, parsed settings objects (their top-level
  properties in iteration order), the value tree and the deep merge.
- `Schema.dfy`: the part of the configuration registry the models read.
- `BaseModel.dfy`: the configuration model value the classes build on.
- `ConfigurationModels.dfy`: the three classes, the specification functions
  they are proved against, and the lemmas about those functions.
- `Scenarios.dfy`: worked examples of the folder models on small inputs, each with its exact outcome.

Each method's `ensures` ties the fields it writes to a specification function
of its inputs:

- `Admitted` and `Unsupported` for the filter.
- `ScopedProjection` for the projections.
- `MergedContents` and `MergedOverrides` for consolidation.
- `StandaloneKeys` for the keys.

The lemmas then prove what those functions promise: partition, order, exact
membership, disjointness and merge precedence.

The registry is not a singleton here. It is a parameter `props` of every
operation that consults it.

Behaviours of the code a reader may not expect:

- The scope projections read the unfiltered snapshot `_raw`, not the admitted
  settings, so a rejected executable key of the projected scope still appears
  in the projection. `ProjectionIgnoresAdmission` states this.
- A key whose scope is neither `WORKSPACE` nor `FOLDER` (for example
  `APPLICATION` or `WINDOW`) appears in neither projection.
- Outside a workspace folder the base layer is that projection, so a
  folder-scoped executable key the filter rejects still reaches the
  consolidated model. `FolderBaseLayerKeepsRejected` states this.
- Outside a workspace folder `keys` still lists every admitted settings key,
  while the base layer holds only the folder-scoped ones: an unregistered or
  workspace-scoped setting is listed but not merged.
  `FolderKeysBeyondBaseLayer` states this.

## Model

| member | source | states |
|---|---|---|
| `Values.PropertyKeysMembership` | src/vs/workbench/services/configuration/common/configurationModels.ts:83 | `Object.keys` of a parsed object lists a key exactly when some property carries it |
| `Values.FieldsKeys` | src/vs/workbench/services/configuration/common/configurationModels.ts:82-83 | the value tree of a parsed object has exactly the keys `Object.keys` lists |
| `Values.FieldsValue` | src/vs/workbench/services/configuration/common/configurationModels.ts:79-82 | a property copied into the tree keeps its value unless a later property repeats its key |
| `Values.MergeJson` | src/vs/workbench/services/configuration/common/configurationModels.ts:104-106 | merging two objects yields an object with the union of their keys; any non-object source replaces the target |
| `Values.MergeIntoEmpty` | src/vs/workbench/services/configuration/common/configurationModels.ts:101-104 | merging the first layer into the reset `{}` gives that layer's contents back |
| `Values.MergeJsonOneSide` | src/vs/workbench/services/configuration/common/configurationModels.ts:104-106 | a key only one side of a merge holds keeps that side's value |
| `BaseModel.ProcessRawKeys` | src/vs/workbench/services/configuration/common/configurationModels.ts:47 | the model built from the admitted object has a top-level key exactly for each of its keys |
| `BaseModel.OverridesOfSections` | src/vs/workbench/services/configuration/common/configurationModels.ts:47 | the base model's override sections are exactly the sections of the `[selector]` keys of the admitted object |
| `ConfigurationModels.IsNotExecutable` | src/vs/workbench/services/configuration/common/configurationModels.ts:58-64 | a key without a schema is admitted; a key with one is admitted exactly when it is not executable |
| `ConfigurationModels.GetScope` | src/vs/workbench/services/configuration/common/configurationModels.ts:87-90 | a key without a schema has the `WORKSPACE` scope; otherwise its schema's scope |
| `ConfigurationModels.SelectSound` | src/vs/workbench/services/configuration/common/configurationModels.ts:40-46 | the filtering loop keeps only properties of the input, unchanged, that meet its test |
| `ConfigurationModels.SelectComplete` | src/vs/workbench/services/configuration/common/configurationModels.ts:77-81 | the filtering loop misses no property that meets its test |
| `ConfigurationModels.SelectAppend` | src/vs/workbench/services/configuration/common/configurationModels.ts:40-46 | filtering keeps iteration order: filtering a concatenation is concatenating the filtered parts |
| `ConfigurationModels.SelectKeys` | src/vs/workbench/services/configuration/common/configurationModels.ts:77-83 | a key is in the filtered key list exactly when it is an input key that meets the test |
| `ConfigurationModels.AdmissionPartition` | src/vs/workbench/services/configuration/common/configurationModels.ts:40-46 | every property goes to exactly one side: admitted and rejected form a multiset partition of the input |
| `ConfigurationModels.UnsupportedExactlyExecutable` | src/vs/workbench/services/configuration/common/configurationModels.ts:58-64 | a key is unsupported exactly when its schema is executable, admitted exactly otherwise, and an unregistered key is always admitted |
| `ConfigurationModels.AdmittedDisjointFromUnsupported` | src/vs/workbench/services/configuration/common/configurationModels.ts:35-48 | no key is both among the filtered model's keys and among the unsupported keys |
| `ConfigurationModels.AdmittedKeepsValuesAndOrder` | src/vs/workbench/services/configuration/common/configurationModels.ts:40-46 | admitted properties keep their values, and both admitted and unsupported lists follow the input order at every split point |
| `ConfigurationModels.ProjectionMembership` | src/vs/workbench/services/configuration/common/configurationModels.ts:74-90 | a projection's keys are exactly the snapshot keys of the requested scope, a missing schema counting as `WORKSPACE`; the overrides pass through |
| `ConfigurationModels.ProjectionsDisjoint` | src/vs/workbench/services/configuration/common/configurationModels.ts:66-72 | the workspace and folder projections share no key; an unregistered key is only in the workspace projection |
| `ConfigurationModels.ProjectionIgnoresAdmission` | src/vs/workbench/services/configuration/common/configurationModels.ts:77-79 | a rejected executable key still appears in the projection of its own scope |
| `ConfigurationModels.MergedOverridesBlocks` | src/vs/workbench/services/configuration/common/configurationModels.ts:100-108 | consolidation accumulates overrides: the earlier layers' sections come first, none dropped |
| `ConfigurationModels.MergedContentsKeys` | src/vs/workbench/services/configuration/common/configurationModels.ts:104-107 | the consolidated contents hold exactly the top-level keys of the merged layers |
| `ConfigurationModels.MergedContentsOwned` | src/vs/workbench/services/configuration/common/configurationModels.ts:104-107 | a top-level key only one layer holds keeps that layer's value; so a scoped file's tag keeps its contents when no other layer holds that tag |
| `ConfigurationModels.MergedContentsLastWins` | src/vs/workbench/services/configuration/common/configurationModels.ts:104-107 | on a collision the last layer's non-object value wins |
| `ConfigurationModels.AllowListedKeysOnce` | src/vs/workbench/services/configuration/common/configurationModels.ts:113-117 | against a list of distinct names, a scoped model contributes its prefixed keys once if its tag is listed, nothing otherwise |
| `ConfigurationModels.StandaloneKeysOnce` | src/vs/workbench/services/configuration/common/configurationModels.ts:113-117 | the inner loop over `tasks` and `launch` adds a model's prefixed keys exactly when its tag is one of them |
| `ConfigurationModels.OwnKeysMembership` | src/vs/workbench/services/configuration/common/configurationModels.ts:114-115 | a scoped model contributes `k` exactly when its tag is a standalone name and `k` is `<tag>.<key>` for one of its keys |
| `ConfigurationModels.StandaloneKeysMembership` | src/vs/workbench/services/configuration/common/configurationModels.ts:112-118 | a key follows the settings keys exactly when some scoped model contributes it |
| `ConfigurationModels.ScopedConfigurationModel.constructor` | src/vs/workbench/services/configuration/common/configurationModels.ts:16-19 | a new scoped model holds its parsed contents under its tag alone, with the parsed keys and overrides |
| `ConfigurationModels.ScopedConfigurationModel.Update` | src/vs/workbench/services/configuration/common/configurationModels.ts:21-26 | the contents have exactly one top-level key, the tag, whose value is the base model's tree; the keys stay unqualified |
| `ConfigurationModels.FolderSettingsModel.constructor` | src/vs/workbench/services/configuration/common/configurationModels.ts:32-38 | without content nothing is processed and the unsupported keys stay unset; with content the snapshot is filtered |
| `ConfigurationModels.FolderSettingsModel.ProcessRaw` | src/vs/workbench/services/configuration/common/configurationModels.ts:35-48 | the snapshot is kept, the unsupported keys are rebuilt as the rejected keys in order, and the model is built from the admitted properties |
| `ConfigurationModels.FolderSettingsModel.Reprocess` | src/vs/workbench/services/configuration/common/configurationModels.ts:50-52 | the stored snapshot is filtered again against the given registry and is itself unchanged |
| `ConfigurationModels.FolderSettingsModel.UnsupportedKeys` | src/vs/workbench/services/configuration/common/configurationModels.ts:54-56 | the getter lists the rejected keys of the snapshot, exactly those whose schema is executable (none before processing) |
| `ConfigurationModels.FolderSettingsModel.CreateWorkspaceConfigurationModel` | src/vs/workbench/services/configuration/common/configurationModels.ts:66-68 | the workspace projection keeps exactly the snapshot keys whose scope is `WORKSPACE` or that have no schema |
| `ConfigurationModels.FolderSettingsModel.CreateFolderScopedConfigurationModel` | src/vs/workbench/services/configuration/common/configurationModels.ts:70-72 | the folder projection keeps exactly the snapshot keys registered with scope `FOLDER` |
| `ConfigurationModels.FolderSettingsModel.CreateScopedConfigurationModel` | src/vs/workbench/services/configuration/common/configurationModels.ts:74-85 | the loop builds the projection of the unfiltered snapshot onto one scope, keys in iteration order, overrides carried along |
| `ConfigurationModels.FolderConfigurationModel.FolderBaseLayerKeepsRejected` | src/vs/workbench/services/configuration/common/configurationModels.ts:104 | outside a workspace folder, a folder-scoped key rejected as executable is still a key of the base layer consolidation merges |
| `ConfigurationModels.FolderConfigurationModel.FolderKeysBeyondBaseLayer` | src/vs/workbench/services/configuration/common/configurationModels.ts:104-111 | outside a workspace folder, an admitted settings key that is not folder-scoped is among the keys `keys` starts from but not among the base layer's keys |
| `ConfigurationModels.FolderConfigurationModel.constructor` | src/vs/workbench/services/configuration/common/configurationModels.ts:95-98 | a new folder model is consolidated from its layers |
| `ConfigurationModels.FolderConfigurationModel.DoMerge` | src/vs/workbench/services/configuration/common/configurationModels.ts:104-106 | one merge deep-merges the source contents into the target and appends the source overrides |
| `ConfigurationModels.FolderConfigurationModel.Consolidate` | src/vs/workbench/services/configuration/common/configurationModels.ts:100-108 | after the reset, the contents and overrides are those of merging the base layer and then each scoped model, in order; nothing earlier survives |
| `ConfigurationModels.FolderConfigurationModel.Keys` | src/vs/workbench/services/configuration/common/configurationModels.ts:110-120 | the settings keys, then each allow-listed scoped model's keys prefixed with its tag, model by model |
| `ConfigurationModels.FolderConfigurationModel.Update` | src/vs/workbench/services/configuration/common/configurationModels.ts:122-125 | the settings are filtered again against the current registry, and the consolidated model is rebuilt from the refiltered settings |
| `Scenarios.Namespacing` | src/vs/workbench/services/configuration/common/configurationModels.ts:21-26 | a tasks file `{"a": 1}` becomes `{"tasks": {"a": 1}}` with the keys `["a"]` |
| `Scenarios.ReactiveAdmission` | src/vs/workbench/services/configuration/common/configurationModels.ts:50-56 | an unregistered key is admitted; once the registry marks it executable, reprocessing rejects it and drops it from the model's keys |
| `Scenarios.ReprocessIsIdempotent` | src/vs/workbench/services/configuration/common/configurationModels.ts:50-52 | reprocessing twice against the same registry gives the same model and unsupported keys as reprocessing once |
| `Scenarios.ConsolidatedContents` | src/vs/workbench/services/configuration/common/configurationModels.ts:100-108 | settings `{"x": 1, "y": 1}` and a tasks file `{"z": 2}` consolidate to `{"x": 1, "y": 1, "tasks": {"z": 2}}` |
| `Scenarios.ConsolidatedKeys` | src/vs/workbench/services/configuration/common/configurationModels.ts:110-120 | the same folder lists the keys `["x", "y", "tasks.z"]` |

## Left out

- JSON parsing of the settings text and of the standalone files is not modelled. Its parse errors are not modelled either. A parsed object is given as its top-level properties in iteration order, and empty content is `None`.
- The value tree is not built the way `toValuesTree` builds it. Dotted keys such as `"a.b"` are not split into nested objects, and the `console.error` report of conflicts is left out. The tree is the flat object of the top-level properties, where the last duplicate wins.
- The base-class `CustomConfigurationModel` is not part of this model. Its `update`, `processRaw` and `doMerge` are modelled as follows:
  - The contents are the value tree.
  - The keys are the property keys.
  - The overrides are the bracketed `[selector]` keys (`OverridesOf`).
  - Merging is deep and appends the overrides.
- The process-wide registry lookup `Registry.as(...)` is replaced by the `props` parameter. A ghost field records which registry the last filtering used.
- The `clone` of the overrides in a projection is not modelled. The overrides are passed by value, and values cannot alias.
- JavaScript's object key order is not modelled: integer-like keys come first in enumeration, and insertion order is assumed instead.
- Floating-point numbers are left out; numbers are integers.
- The `name` of a scoped model is only used in messages and is kept as an unused field.
- The allow-list `WORKSPACE_STANDALONE_CONFIGURATIONS` is not part of this model. Its key names are fixed to `["tasks", "launch"]`.
- TypeScript generics are dropped.
- Parsed settings may repeat a key, which a JavaScript object cannot. The admission lemmas hold either way, and `FieldsValue` says which value survives.
- FieldsKeys: the tree has exactly the `Object.keys` keys only because dotted keys are not split here; `toValuesTree` puts `"editor.fontSize"` under `editor`, so the program's top-level tree keys differ.
- ProcessRawKeys: holds for the flat tree only, for the same reason as `FieldsKeys`.
