# Operator manager model

A Dafny model of the operator manager of the assisted installer service
(`internal/operators`). The manager keeps a fixed catalog of known operators
(`cvo`, `console`, the local-storage operator LSO and the storage operator OCS,
in that order). It answers lookups over that catalog. It decides from a
cluster's list of monitored operators which add-on operators are enabled; OCS
being listed implies LSO. It also merges the manifests the LSO and OCS
backends render into one file-name-to-content map.

Files:

- `wrappers.dfy` (`Wrappers`): `Option` for nil pointers and `Result` for Go's
  `(value, error)` pairs. `Failure(msg)` is a nil value with an error.
  `Success(m)` is a non-nil value with no error. So a `Success` map is never nil,
  even when it is empty.
- `models.dfy` (`Models`): the records the manager reads. These are
  `MonitoredOperator`, `Cluster`, and the legacy `Operator` with optional name
  and type. `StringValue` reads a nil string as `""`, as `swag.StringValue` does.
- `manager.dfy` (`Operators`): `manager.go`.
- `operator_manager.dfy` (`LegacyOperators`): `operator_manager.go`, the older
  catalog over optional-string fields.

Modelling choices:

- `Manager` and `operatorManager` are Go structs that only their constructors
  write. They are modelled as datatypes. Their loops (`findOperator`, the
  lookups, the filter, and the two copy loops of `GenerateManifests`) are
  methods with loops proved against a specification. The operations that call
  those loops (`IsEnabled`, `AnyOperatorEnabled`, `ValidateOCSRequirements`,
  `GetOperatorStatusInfo`) are methods as well.
- The packages `lso` and `ocs` are not part of this model. Their exported
  descriptors `lso.Operator` and `ocs.Operator`, and their renderers
  `lso.Manifests` and `ocs.Manifests`, are fields of a `Backends` value. The
  renderers are uninterpreted `Result<map<string,string>>` functions.
  `ocs.NewOCSValidator` is a parameter of `NewManagerWithConfig`, and the
  validator it builds is an uninterpreted `Cluster -> string` function. Exactly
  as in the code, the enablement checks compare against the backends' descriptor
  names, not against literals.
- `ocs.Config` is reduced to the two fields the manager passes on:
  `OCSMinimalDeployment` and `OCSDisksAvailable`.
- `GenerateManifests` returns a ghost trace of the render calls it makes. The
  reference functions `Renders` and `MergedManifests` specify the trace and the
  result. `MergedManifests` uses Dafny's right-biased map union, and the
  lemmas beside it state what it means.
- Go's map iteration order is modelled by picking each key with `:|`. The copy
  loop is proved correct for every order.

Behaviour of the code worth knowing, all of it kept by the model:

- A render error is returned unchanged, without naming the operator that failed
  (internal/operators/manager.go:98, 109).
- `AnyOperatorEnabled` looks only for the LSO and OCS names
  (internal/operators/manager.go:120). A list holding only builtin entries
  such as `cvo` reports false.
- `GetOperatorStatusInfo` returns the sentinel `"OCS is disabled"` for every
  absent name, whichever operator was asked for (internal/operators/manager.go:137).
- `ValidateOCSRequirements` returns a plain string and has no error result
  (internal/operators/manager.go:124-129).
- `manager.go` and `operator_manager.go` both declare `OperatorCVO`,
  `OperatorConsole` and `monitoredOperators` in one Go package
  (internal/operators/manager.go:14-31, internal/operators/operator_manager.go:12-29),
  so the two files cannot build together. The legacy file also no longer matches
  the current `lso` and `ocs` packages: it puts `&lso.Operator` and `&ocs.Operator`
  into a `[...]*models.Operator` (internal/operators/operator_manager.go:24-29) where
  `manager.go` puts the same globals into a `[...]*models.MonitoredOperator`
  (internal/operators/manager.go:26-31), and its `GetMonitoredOperatorsList` returns
  `[]*models.Operator` (internal/operators/operator_manager.go:48) while
  `OperatorManagerAPI` declares `[]models.Operator` (line 32). Here they are two
  separate modules, and the legacy one takes its descriptors as `Operator`
  parameters.

## Model

| member | source | states |
|---|---|---|
| `Operators.NewManagerWithConfig` | internal/operators/manager.go:72-80 | the manager keeps the given configuration and the validator built from it, and its catalog's names are `cvo`, `console`, the LSO name, the OCS name, in that order |
| `Operators.MonitoredOperators` | internal/operators/manager.go:14-31 | the catalog's names are `cvo`, `console`, LSO's, OCS's; the two builtins have the builtin type and a one-hour timeout; the last two entries are the backends' own descriptors |
| `Operators.GetMonitoredOperatorsList` | internal/operators/manager.go:171-173 | returns the stored catalog, whole and in order; it has no error case |
| `Operators.MonitoredOperatorsListOrder` | internal/operators/manager.go:171-173 | the list a constructed manager returns is the whole catalog CVO, Console, LSO, OCS, in declaration order |
| `Operators.FindOperator` | internal/operators/manager.go:158-165 | returns nothing iff no entry of the cluster's list has the name; otherwise returns the first entry with that name |
| `Operators.IsEnabled` | internal/operators/manager.go:167-169 | true iff some entry of the cluster's list has exactly that name |
| `Operators.CheckLSOEnabled` | internal/operators/manager.go:150-152 | true iff the cluster lists the LSO backend's operator name |
| `Operators.CheckOCSEnabled` | internal/operators/manager.go:154-156 | true iff the cluster lists the OCS backend's operator name |
| `Operators.GenerateLSOManifests` | internal/operators/manager.go:140-143 | the LSO renderer is called with the cluster's OpenShift version, and its result is passed on unchanged |
| `Operators.GenerateOCSManifests` | internal/operators/manager.go:145-148 | the OCS renderer is called with the minimal-deployment flag, the OpenShift version, the available disk count and the host count, in that order, and its result is passed on unchanged |
| `Operators.RenderInputs` | internal/operators/manager.go:140-148 | two clusters with the same version (and, for OCS, the same host count) get the same render output; the operator list does not reach the backends |
| `Operators.CopyManifests` | internal/operators/manager.go:100-102 | the result's keys are the union of both maps' keys; a copied key takes the source map's value and every other key keeps its old value |
| `Operators.GenerateManifests` | internal/operators/manager.go:84-116 | the result equals the reference merge `MergedManifests`, and the render calls made are exactly `Renders` |
| `Operators.LsoRenderedIff` | internal/operators/manager.go:85-95 | LSO is rendered iff LSO or OCS is listed, and when anything is rendered LSO is rendered first |
| `Operators.OcsRenderedIff` | internal/operators/manager.go:94-106 | OCS is rendered iff OCS is listed and the LSO render succeeded |
| `Operators.NoOperatorNoManifests` | internal/operators/manager.go:92-115 | with neither LSO nor OCS listed, no backend is called and the result is an empty map with no error |
| `Operators.MergedKeysAndValues` | internal/operators/manager.go:100-113 | on success the key set is the union of the rendered backends' key sets; every OCS key has the OCS value, and every other key has the LSO value |
| `Operators.FailureIsLastRender` | internal/operators/manager.go:94-110 | the call fails iff some render it made failed; the failing render is the last call made, and its error is returned unchanged with no map |
| `Operators.LsoFailureAborts` | internal/operators/manager.go:95-99 | when LSO is wanted and fails, OCS is never rendered and the LSO error is returned |
| `Operators.OcsFailureAborts` | internal/operators/manager.go:106-110 | when OCS is listed, LSO succeeds and OCS fails, both are rendered and the OCS error is returned without a partial map |
| `Operators.OcsAloneYieldsBoth` | internal/operators/manager.go:86-88 | when both renders succeed, a list holding only the OCS operator renders LSO and then OCS, and the result is the union of both outputs (when LSO fails, `LsoFailureAborts` applies and OCS is never rendered) |
| `Operators.LsoAloneYieldsLso` | internal/operators/manager.go:89-103 | when the two backend names differ, a list holding only the LSO operator renders LSO alone, and the result is exactly LSO's output, success or error (with equal names, listing LSO also lists OCS and both are rendered) |
| `Operators.AnyOperatorEnabled` | internal/operators/manager.go:119-121 | true iff the LSO or the OCS operator name is listed |
| `Operators.RendersIffAnyEnabled` | internal/operators/manager.go:118-121 | `GenerateManifests` calls some backend iff `AnyOperatorEnabled` holds |
| `Operators.OtherEntriesEnableNothing` | internal/operators/manager.go:119-121 | entries named neither LSO nor OCS, such as builtins, enable nothing and lead to an empty manifest map |
| `Operators.ValidateOCSRequirements` | internal/operators/manager.go:124-129 | returns the validator's result unchanged when OCS is listed, and `"success"` otherwise |
| `Operators.GetOperatorStatusInfo` | internal/operators/manager.go:132-138 | returns the status of the first listed entry with the name, and `"OCS is disabled"` when no entry has it |
| `Operators.GetOperatorByName` | internal/operators/manager.go:175-183 | succeeds iff the name is in the catalog, then with the first catalog entry of that name; otherwise fails with "Operator <name> isn't supported" |
| `Operators.GetOperatorsByType` | internal/operators/manager.go:185-195 | returns the order-preserving filter `OfType` of the catalog by type, which is an empty sequence when nothing matches |
| `Operators.OfTypeAppend` | internal/operators/manager.go:188-192 | filtering by type distributes over concatenation, so catalog order is kept |
| `Operators.OfTypeMembers` | internal/operators/manager.go:189-191 | an entry is in the filtered list iff it is in the catalog and has the type |
| `Operators.OfTypeLength` | internal/operators/manager.go:185-195 | the filter never grows the list, and keeps its length iff every entry has the type |
| `Operators.BuiltinOperatorsOfCatalog` | internal/operators/manager.go:14-31 | with non-builtin backends, the builtin operators of the catalog are exactly CVO then Console |
| `Operators.CatalogNamesUnique` | internal/operators/manager.go:26-31 | the catalog's names are unique when the backend names differ from each other and from `cvo` and `console` |
| `Operators.LookupFindsEntry` | internal/operators/manager.go:176-180 | with unique names, looking up any entry's name finds that entry |
| `Operators.FirstMatchUnique` | internal/operators/manager.go:159-163 | the first entry with a given name is unique, so lookups are deterministic |
| `Operators.ConstructedCatalogLookup` | internal/operators/manager.go:175-180 | in a constructed manager whose backend names are distinct from each other and from `cvo` and `console`, the only first match for each catalog entry's name is that entry, so `GetOperatorByName` returns it |
| `LegacyOperators.MonitoredOperators` | internal/operators/operator_manager.go:12-29 | the catalog's names read as `cvo`, `console`, LSO's, OCS's; the two builtins have the builtin type and a one-hour timeout; the last two entries are the backends' own descriptors |
| `LegacyOperators.GetMonitoredOperatorsList` | internal/operators/operator_manager.go:48-50 | returns the stored catalog, whole and in order; it has no error case |
| `LegacyOperators.MonitoredOperatorsListOrder` | internal/operators/operator_manager.go:42-50 | a constructed manager lists exactly CVO, Console, LSO, OCS, with their types and timeouts |
| `LegacyOperators.NewOperatorManager` | internal/operators/operator_manager.go:42-46 | the catalog's names, as `StringValue` reads them, are `cvo`, `console`, LSO's, OCS's, in that order |
| `LegacyOperators.GetOperatorByName` | internal/operators/operator_manager.go:52-60 | succeeds iff some catalog entry's `StringValue(Name)` equals the query, then with the first one; otherwise fails with "Operator <name> isn't supported" |
| `LegacyOperators.GetOperatorsByType` | internal/operators/operator_manager.go:62-72 | returns the order-preserving filter of the catalog by `StringValue(OperatorType)`, which is empty when nothing matches |
| `LegacyOperators.OfTypeAppend` | internal/operators/operator_manager.go:65-69 | the legacy filter distributes over concatenation, so order is kept |
| `LegacyOperators.OfTypeMembers` | internal/operators/operator_manager.go:66-68 | an entry survives iff it is in the catalog and its type reads as the query; an entry with no type matches exactly `""` |
| `LegacyOperators.NamelessEntryReadsAsEmpty` | internal/operators/operator_manager.go:53-56 | an entry with a nil name is the first match for the query `""` when every earlier entry has a non-empty name |
| `LegacyOperators.CatalogLookup` | internal/operators/operator_manager.go:24-29 | with backend names distinct from each other and from `cvo` and `console`, `cvo`, `console`, LSO's name and OCS's name are first found at positions 0, 1, 2 and 3 |
| `LegacyOperators.CatalogListedIff` | internal/operators/operator_manager.go:52-60 | a lookup finds an entry iff the name is one of the four names the catalog reads as |

## Left out

- `NewManager`'s environment loading through `envconfig.Process` and its `log.Fatal` are not modelled; they are configuration I/O. The OCS configuration is a parameter of `NewManagerWithConfig`.
- All logging calls are not modelled; they are output only.
- The bodies of `lso.Manifests`, `ocs.Manifests`, `ocs.NewOCSValidator` and the validator's `ValidateOCSRequirements` are not modelled. Their packages are not part of this model, so they are uninterpreted functions. The manifest counts 10 and 5 and the `"failure"` verdict that the tests expect depend on them.
- The descriptor values `lso.Operator` and `ocs.Operator` (names, types, timeouts) come from those packages too. They are parameters. The operations assume nothing about them; only the lemmas `LsoAloneYieldsLso`, `CatalogNamesUnique`, `ConstructedCatalogLookup`, `BuiltinOperatorsOfCatalog` and `LegacyOperators.CatalogLookup` state their hypotheses about the names or types in their own `requires`.
- Only the `MonitoredOperator` fields the manager reads are modelled: name, type, timeout and status info. Pointer identity is not modelled. The model returns entries as values, so it does not capture that `GetMonitoredOperatorsList` and the lookups hand out pointers into the shared package-level array, through which a caller could change the catalog.
- Nil pointers the manager dereferences are not modelled; Go would panic on each. These are nil entries in a cluster's operator list, a nil `cluster` pointer (every method reads through it), and a nil `*ocs.Config` (internal/operators/manager.go:147 reads through it). The model's `Cluster` and `OcsConfig` values are always present.
- A Go backend that returns a non-nil map together with an error is not modelled separately; `Result` collapses that case to a failure, which is how the manager treats it.
- The constants `models.OperatorTypeBuiltin` and `models.OperatorOperatorTypeBuiltin` come from the `models` package, which is not part of this model. Their value `"builtin"` is assumed; no proved property depends on the literal.
- The `API` and `OperatorManagerAPI` interfaces, their embedding in the structs, and the generated mock `mock_operators_api.go` are not modelled; they carry no logic.
- The OCS validator is modelled as a function of only the modelled `Cluster` fields (OpenShift version, host count, operator list), built from only the two modelled `ocs.Config` fields. In the source it receives the whole `models.Cluster` (internal/operators/manager.go:126) and the whole configuration (internal/operators/manager.go:73). So the model does not capture a verdict that depends on host inventory or on other configuration fields. No proved property relies on this narrowing.
- The Python tools `tools/handle_ocp_versions.py` and `tools/deploy_postgres.py` are not modelled; they are process, network and file I/O outside the manager.
