/** The operator manager of internal/operators/manager.go: a fixed catalog of
    known operators, lookups over it, enablement tests against a cluster's
    list of monitored operators, and the aggregation of the manifests that the
    local-storage (LSO) and storage (OCS) backends render.

    The backends live in packages that are not part of this model; they enter
    as the `Backends` value (their exported descriptors and their render
    functions) and as the OCS validator, all uninterpreted. */
module Operators {
  import opened Wrappers
  import opened Models

  /** Manifest file name to manifest content. */
  type Manifests = map<string, string>

  /** What the `lso` and `ocs` packages export to the manager:
      `lso.Operator`, `ocs.Operator`, `lso.Manifests(openshiftVersion)` and
      `ocs.Manifests(minimalDeployment, openshiftVersion, disksAvailable, hostCount)`. */
  datatype Backends = Backends(
    lsoOperator: MonitoredOperator,
    ocsOperator: MonitoredOperator,
    lsoManifests: string -> Result<Manifests>,
    ocsManifests: (bool, string, int, nat) -> Result<Manifests>)

  /** The two fields of `ocs.Config` that the manager passes on to the OCS
      renderer. The source hands the whole configuration to
      `ocs.NewOCSValidator`; here the validator is built from these two only. */
  datatype OcsConfig = OcsConfig(ocsMinimalDeployment: bool, ocsDisksAvailable: int)

  const OperatorCVO: MonitoredOperator := MonitoredOperator("cvo", OperatorTypeBuiltin, 60 * 60, "")

  const OperatorConsole: MonitoredOperator := MonitoredOperator("console", OperatorTypeBuiltin, 60 * 60, "")

  /** The status `GetOperatorStatusInfo` reports for an operator the cluster does not list. */
  const DisabledStatusInfo: string := "OCS is disabled"

  /** The result `ValidateOCSRequirements` reports when OCS is not enabled. */
  const ValidationSuccess: string := "success"

  /** The package-level `monitoredOperators` array, in declaration order:
      the two builtin operators, each with a one-hour timeout, then the
      descriptors the LSO and OCS packages export. */
  function MonitoredOperators(b: Backends): (r: seq<MonitoredOperator>)
    ensures Names(r) == ["cvo", "console", b.lsoOperator.name, b.ocsOperator.name]
    ensures forall i :: 0 <= i < 2 ==> r[i].operatorType == OperatorTypeBuiltin && r[i].timeoutSeconds == 3600
    ensures r[2] == b.lsoOperator && r[3] == b.ocsOperator
  {
    [OperatorCVO, OperatorConsole, b.lsoOperator, b.ocsOperator]
  }

  /** The `Manager` struct. Its fields are set once by the constructor and
      never updated, so it is a value. */
  datatype Manager = Manager(
    backends: Backends,
    ocsValidatorConfig: OcsConfig,
    ocsValidator: Cluster -> string,
    monitoredOperators: seq<MonitoredOperator>)

  /** The names of a list of operators, position by position. */
  function Names(ops: seq<MonitoredOperator>): (r: seq<string>)
    ensures |r| == |ops|
    ensures forall i :: 0 <= i < |ops| ==> r[i] == ops[i].name
  {
    if ops == [] then [] else [ops[0].name] + Names(ops[1..])
  }

  /** `NewManagerWithConfig`: the validator is built from the configuration
      (`ocs.NewOCSValidator`, passed in as `newOcsValidator`) and the catalog is
      the fixed `monitoredOperators` array. */
  function NewManagerWithConfig(b: Backends, cfg: OcsConfig, newOcsValidator: OcsConfig -> (Cluster -> string)): (mgr: Manager)
    ensures mgr.ocsValidatorConfig == cfg
    ensures mgr.ocsValidator == newOcsValidator(cfg)
    ensures mgr.backends == b
    ensures Names(mgr.monitoredOperators) == ["cvo", "console", b.lsoOperator.name, b.ocsOperator.name]
  {
    Manager(b, cfg, newOcsValidator(cfg), MonitoredOperators(b))
  }

  // ---------------------------------------------------------------------
  // Lookups by name

  /** Some entry of `ops` is called `name`. */
  ghost predicate Listed(ops: seq<MonitoredOperator>, name: string)
  {
    exists i :: 0 <= i < |ops| && ops[i].name == name
  }

  /** `ops[i]` is the first entry of `ops` called `name`. */
  ghost predicate FirstMatch(ops: seq<MonitoredOperator>, name: string, i: int)
  {
    0 <= i < |ops| && ops[i].name == name && forall j :: 0 <= j < i ==> ops[j].name != name
  }

  /** `findOperator`: the first entry of the cluster's list with the given
      name, or nil. */
  method FindOperator(cluster: Cluster, operatorName: string) returns (r: Option<MonitoredOperator>)
    ensures r.None? <==> !Listed(cluster.monitoredOperators, operatorName)
    ensures r.Some? ==> exists i :: FirstMatch(cluster.monitoredOperators, operatorName, i) && r.value == cluster.monitoredOperators[i]
  {
    var ops := cluster.monitoredOperators;
    for i := 0 to |ops|
      invariant forall j :: 0 <= j < i ==> ops[j].name != operatorName
    {
      if ops[i].name == operatorName {
        assert FirstMatch(ops, operatorName, i);
        return Some(ops[i]);
      }
    }
    return None;
  }

  /** `IsEnabled`: exact-name membership in the cluster's list. */
  method IsEnabled(cluster: Cluster, operatorName: string) returns (enabled: bool)
    ensures enabled <==> Listed(cluster.monitoredOperators, operatorName)
  {
    var operator := FindOperator(cluster, operatorName);
    enabled := operator.Some?;
  }

  /** The cluster lists the LSO backend's operator. */
  ghost predicate LsoListed(mgr: Manager, cluster: Cluster)
  {
    Listed(cluster.monitoredOperators, mgr.backends.lsoOperator.name)
  }

  /** The cluster lists the OCS backend's operator. */
  ghost predicate OcsListed(mgr: Manager, cluster: Cluster)
  {
    Listed(cluster.monitoredOperators, mgr.backends.ocsOperator.name)
  }

  /** `checkLSOEnabled`. */
  method CheckLSOEnabled(mgr: Manager, cluster: Cluster) returns (enabled: bool)
    ensures enabled <==> LsoListed(mgr, cluster)
  {
    enabled := IsEnabled(cluster, mgr.backends.lsoOperator.name);
  }

  /** `checkOCSEnabled`. */
  method CheckOCSEnabled(mgr: Manager, cluster: Cluster) returns (enabled: bool)
    ensures enabled <==> OcsListed(mgr, cluster)
  {
    enabled := IsEnabled(cluster, mgr.backends.ocsOperator.name);
  }

  // ---------------------------------------------------------------------
  // Manifest aggregation

  /** `generateLSOManifests`: the LSO renderer applied to the cluster's version. */
  function GenerateLSOManifests(mgr: Manager, cluster: Cluster): (r: Result<Manifests>)
    ensures r == mgr.backends.lsoManifests(cluster.openshiftVersion)
  {
    mgr.backends.lsoManifests(cluster.openshiftVersion)
  }

  /** `generateOCSManifests`: the OCS renderer applied to the configuration,
      the cluster's version and its number of hosts. */
  function GenerateOCSManifests(mgr: Manager, cluster: Cluster): (r: Result<Manifests>)
    ensures r == mgr.backends.ocsManifests(
      mgr.ocsValidatorConfig.ocsMinimalDeployment, cluster.openshiftVersion,
      mgr.ocsValidatorConfig.ocsDisksAvailable, cluster.hostCount)
  {
    mgr.backends.ocsManifests(
      mgr.ocsValidatorConfig.ocsMinimalDeployment, cluster.openshiftVersion,
      mgr.ocsValidatorConfig.ocsDisksAvailable, cluster.hostCount)
  }

  /** A backend render call made by `GenerateManifests`. */
  datatype Render = RenderLSO | RenderOCS

  /** What a render call returns. */
  function Output(mgr: Manager, cluster: Cluster, r: Render): Result<Manifests>
  {
    match r
    case RenderLSO => GenerateLSOManifests(mgr, cluster)
    case RenderOCS => GenerateOCSManifests(mgr, cluster)
  }

  /** LSO is rendered when either operator is listed: OCS implies LSO. */
  ghost predicate LsoWanted(mgr: Manager, cluster: Cluster)
  {
    OcsListed(mgr, cluster) || LsoListed(mgr, cluster)
  }

  /** The render calls, in order, that a correct aggregation makes: LSO first
      when wanted, then OCS when listed, stopping at the first failure. */
  ghost function Renders(mgr: Manager, cluster: Cluster): seq<Render>
  {
    if !LsoWanted(mgr, cluster) then []
    else if GenerateLSOManifests(mgr, cluster).Failure? || !OcsListed(mgr, cluster) then [RenderLSO]
    else [RenderLSO, RenderOCS]
  }

  /** The manifests of one backend, or none when it is not rendered. */
  ghost function Contribution(wanted: bool, out: Result<Manifests>): Manifests
  {
    if wanted && out.Success? then out.value else map[]
  }

  /** Reference definition of the aggregation: the first failing render's
      error, else the right-biased union (`+`) of the rendered maps, OCS last. */
  ghost function MergedManifests(mgr: Manager, cluster: Cluster): Result<Manifests>
  {
    var lso := GenerateLSOManifests(mgr, cluster);
    var ocs := GenerateOCSManifests(mgr, cluster);
    if LsoWanted(mgr, cluster) && lso.Failure? then Failure(lso.error)
    else if OcsListed(mgr, cluster) && ocs.Failure? then Failure(ocs.error)
    else Success(Contribution(LsoWanted(mgr, cluster), lso) + Contribution(OcsListed(mgr, cluster), ocs))
  }

  /** A `for k, v := range from { into[k] = v }` loop. */
  method CopyManifests(into: Manifests, from: Manifests) returns (r: Manifests)
    ensures r.Keys == into.Keys + from.Keys
    ensures forall k :: k in r ==> r[k] == if k in from then from[k] else into[k]
    ensures r == into + from
  {
    r := into;
    var pending := from.Keys;
    while pending != {}
      invariant pending <= from.Keys
      invariant r == into + (map k | k in from.Keys - pending :: from[k])
      decreases |pending|
    {
      var k :| k in pending;
      r := r[k := from[k]];
      pending := pending - {k};
    }
    assert (map k | k in from.Keys - pending :: from[k]) == from;
  }

  /** `GenerateManifests`; `renders` records the backend calls it makes. */
  method GenerateManifests(mgr: Manager, cluster: Cluster) returns (r: Result<Manifests>, ghost renders: seq<Render>)
    ensures r == MergedManifests(mgr, cluster)
    ensures renders == Renders(mgr, cluster)
  {
    renders := [];
    var lsoEnabled := false;
    var ocsEnabled := CheckOCSEnabled(mgr, cluster);
    if ocsEnabled {
      lsoEnabled := true;
    } else {
      lsoEnabled := CheckLSOEnabled(mgr, cluster);
    }
    var operatorManifests: Manifests := map[];

    if lsoEnabled {
      var manifests := GenerateLSOManifests(mgr, cluster);
      renders := renders + [RenderLSO];
      if manifests.Failure? {
        return Failure(manifests.error), renders;
      }
      operatorManifests := CopyManifests(operatorManifests, manifests.value);
    }
    assert operatorManifests == Contribution(lsoEnabled, GenerateLSOManifests(mgr, cluster));

    if ocsEnabled {
      var manifests := GenerateOCSManifests(mgr, cluster);
      renders := renders + [RenderOCS];
      if manifests.Failure? {
        return Failure(manifests.error), renders;
      }
      operatorManifests := CopyManifests(operatorManifests, manifests.value);
    }
    assert !ocsEnabled ==> operatorManifests == operatorManifests + map[];
    return Success(operatorManifests), renders;
  }

  // ---------------------------------------------------------------------
  // Queries

  /** `AnyOperatorEnabled`: LSO or OCS is listed. */
  method AnyOperatorEnabled(mgr: Manager, cluster: Cluster) returns (any: bool)
    ensures any <==> LsoListed(mgr, cluster) || OcsListed(mgr, cluster)
  {
    any := CheckLSOEnabled(mgr, cluster);
    if !any {
      any := CheckOCSEnabled(mgr, cluster);
    }
  }

  /** `ValidateOCSRequirements`: the validator's verdict when OCS is listed,
      "success" otherwise. */
  method ValidateOCSRequirements(mgr: Manager, cluster: Cluster) returns (result: string)
    ensures OcsListed(mgr, cluster) ==> result == mgr.ocsValidator(cluster)
    ensures !OcsListed(mgr, cluster) ==> result == ValidationSuccess
  {
    var enabled := IsEnabled(cluster, mgr.backends.ocsOperator.name);
    if enabled {
      return mgr.ocsValidator(cluster);
    }
    return ValidationSuccess;
  }

  /** `GetOperatorStatusInfo`: the status of the first listed entry with that
      name, or the disabled sentinel. */
  method GetOperatorStatusInfo(mgr: Manager, cluster: Cluster, operatorName: string) returns (status: string)
    ensures Listed(cluster.monitoredOperators, operatorName) ==>
      exists i :: FirstMatch(cluster.monitoredOperators, operatorName, i) && status == cluster.monitoredOperators[i].statusInfo
    ensures !Listed(cluster.monitoredOperators, operatorName) ==> status == DisabledStatusInfo
  {
    var operator := FindOperator(cluster, operatorName);
    if operator.Some? {
      return operator.value.statusInfo;
    }
    return DisabledStatusInfo;
  }

  /** `GetMonitoredOperatorsList`: the stored catalog, whole and in order. */
  function GetMonitoredOperatorsList(mgr: Manager): (r: seq<MonitoredOperator>)
    ensures r == mgr.monitoredOperators
  {
    mgr.monitoredOperators
  }

  /** The error `GetOperatorByName` returns for an unknown name. */
  function NotSupportedError(operatorName: string): string
  {
    "Operator " + operatorName + " isn't supported"
  }

  /** `GetOperatorByName`: the first catalog entry with that name, or an error. */
  method GetOperatorByName(mgr: Manager, operatorName: string) returns (r: Result<MonitoredOperator>)
    ensures r.Success? <==> Listed(mgr.monitoredOperators, operatorName)
    ensures r.Success? ==> exists i :: FirstMatch(mgr.monitoredOperators, operatorName, i) && r.value == mgr.monitoredOperators[i]
    ensures r.Failure? ==> r.error == NotSupportedError(operatorName)
  {
    var ops := mgr.monitoredOperators;
    for i := 0 to |ops|
      invariant forall j :: 0 <= j < i ==> ops[j].name != operatorName
    {
      if ops[i].name == operatorName {
        assert FirstMatch(ops, operatorName, i);
        return Success(ops[i]);
      }
    }
    return Failure(NotSupportedError(operatorName));
  }

  /** The entries of `ops` whose type is `t`, in their order in `ops`. */
  function OfType(ops: seq<MonitoredOperator>, t: OperatorType): seq<MonitoredOperator>
  {
    if ops == [] then []
    else (if ops[0].operatorType == t then [ops[0]] else []) + OfType(ops[1..], t)
  }

  /** `GetOperatorsByType`: appends each catalog entry of the given type. */
  method GetOperatorsByType(mgr: Manager, operatorType: OperatorType) returns (operators: seq<MonitoredOperator>)
    ensures operators == OfType(mgr.monitoredOperators, operatorType)
  {
    var ops := mgr.monitoredOperators;
    operators := [];
    for i := 0 to |ops|
      invariant operators == OfType(ops[..i], operatorType)
    {
      assert ops[..i + 1] == ops[..i] + [ops[i]];
      OfTypeAppend(ops[..i], [ops[i]], operatorType);
      if ops[i].operatorType == operatorType {
        operators := operators + [ops[i]];
      }
    }
    assert ops[..|ops|] == ops;
  }

  // ---------------------------------------------------------------------
  // Properties of the lookups

  /** Filtering distributes over concatenation: the order of the catalog is kept. */
  lemma {:induction false} OfTypeAppend(a: seq<MonitoredOperator>, b: seq<MonitoredOperator>, t: OperatorType)
    ensures OfType(a + b, t) == OfType(a, t) + OfType(b, t)
  {
    if a == [] {
      assert a + b == b;
    } else {
      assert (a + b)[1..] == a[1..] + b;
      OfTypeAppend(a[1..], b, t);
    }
  }

  /** Exactly the entries of type `t` survive the filter. */
  lemma {:induction false} OfTypeMembers(ops: seq<MonitoredOperator>, t: OperatorType, o: MonitoredOperator)
    ensures o in OfType(ops, t) <==> o in ops && o.operatorType == t
  {
    if ops != [] {
      OfTypeMembers(ops[1..], t, o);
      assert ops == [ops[0]] + ops[1..];
    }
  }

  /** The filter never grows the list, and keeps it whole exactly when every
      entry has the type. */
  lemma {:induction false} OfTypeLength(ops: seq<MonitoredOperator>, t: OperatorType)
    ensures |OfType(ops, t)| <= |ops|
    ensures |OfType(ops, t)| == |ops| <==> forall i :: 0 <= i < |ops| ==> ops[i].operatorType == t
  {
    if ops != [] {
      OfTypeLength(ops[1..], t);
      assert forall i :: 1 <= i < |ops| ==> ops[i] == ops[1..][i - 1];
    }
  }

  /** With non-builtin backends, the builtin operators of the catalog are CVO then Console. */
  lemma BuiltinOperatorsOfCatalog(b: Backends)
    requires b.lsoOperator.operatorType != OperatorTypeBuiltin
    requires b.ocsOperator.operatorType != OperatorTypeBuiltin
    ensures OfType(MonitoredOperators(b), OperatorTypeBuiltin) == [OperatorCVO, OperatorConsole]
  {
    var cat := MonitoredOperators(b);
    assert cat == [OperatorCVO, OperatorConsole] + [b.lsoOperator, b.ocsOperator];
    OfTypeAppend([OperatorCVO, OperatorConsole], [b.lsoOperator, b.ocsOperator], OperatorTypeBuiltin);
    assert [b.lsoOperator, b.ocsOperator] == [b.lsoOperator] + [b.ocsOperator];
    OfTypeAppend([b.lsoOperator], [b.ocsOperator], OperatorTypeBuiltin);
    assert [OperatorCVO, OperatorConsole] == [OperatorCVO] + [OperatorConsole];
    OfTypeAppend([OperatorCVO], [OperatorConsole], OperatorTypeBuiltin);
  }

  /** A manager from the constructor lists the whole catalog, CVO, Console, LSO, OCS. */
  lemma MonitoredOperatorsListOrder(b: Backends, cfg: OcsConfig, newOcsValidator: OcsConfig -> (Cluster -> string))
    ensures GetMonitoredOperatorsList(NewManagerWithConfig(b, cfg, newOcsValidator)) ==
      [OperatorCVO, OperatorConsole, b.lsoOperator, b.ocsOperator]
  {
  }

  /** No two entries share a name. */
  ghost predicate UniqueNames(ops: seq<MonitoredOperator>)
  {
    forall i, j :: 0 <= i < j < |ops| ==> ops[i].name != ops[j].name
  }

  /** The catalog's names are unique when the backends' names are distinct
      from each other and from the builtin names. */
  lemma CatalogNamesUnique(b: Backends)
    requires b.lsoOperator.name != b.ocsOperator.name
    requires b.lsoOperator.name !in {"cvo", "console"} && b.ocsOperator.name !in {"cvo", "console"}
    ensures UniqueNames(MonitoredOperators(b))
  {
  }

  /** With unique names, looking up an entry's name finds that entry. */
  lemma LookupFindsEntry(ops: seq<MonitoredOperator>, i: int)
    requires UniqueNames(ops) && 0 <= i < |ops|
    ensures FirstMatch(ops, ops[i].name, i)
  {
  }

  /** The first match is unique, so lookups are deterministic. */
  lemma FirstMatchUnique(ops: seq<MonitoredOperator>, name: string, i: int, j: int)
    requires FirstMatch(ops, name, i) && FirstMatch(ops, name, j)
    ensures i == j
  {
  }

  /** In a constructed manager whose backend names are distinct from each
      other and from the builtin names, the first (and only) match for each
      catalog entry's name is that entry, so `GetOperatorByName` returns it. */
  lemma ConstructedCatalogLookup(b: Backends, cfg: OcsConfig, newOcsValidator: OcsConfig -> (Cluster -> string), i: int, j: int)
    requires b.lsoOperator.name != b.ocsOperator.name
    requires b.lsoOperator.name !in {"cvo", "console"} && b.ocsOperator.name !in {"cvo", "console"}
    requires 0 <= i < 4
    requires FirstMatch(GetMonitoredOperatorsList(NewManagerWithConfig(b, cfg, newOcsValidator)), MonitoredOperators(b)[i].name, j)
    ensures j == i
  {
    var cat := GetMonitoredOperatorsList(NewManagerWithConfig(b, cfg, newOcsValidator));
    CatalogNamesUnique(b);
    LookupFindsEntry(cat, i);
    FirstMatchUnique(cat, cat[i].name, i, j);
  }

  /** The backends see only the cluster's version and host count (and the
      manager's configuration); the operator list never reaches them. */
  lemma RenderInputs(mgr: Manager, c1: Cluster, c2: Cluster, r: Render)
    requires c1.openshiftVersion == c2.openshiftVersion
    requires r == RenderOCS ==> c1.hostCount == c2.hostCount
    ensures Output(mgr, c1, r) == Output(mgr, c2, r)
  {
  }

  // ---------------------------------------------------------------------
  // Properties of the aggregation

  /** LSO is rendered iff LSO or OCS is listed, and it is always rendered first. */
  lemma LsoRenderedIff(mgr: Manager, cluster: Cluster)
    ensures RenderLSO in Renders(mgr, cluster) <==> LsoListed(mgr, cluster) || OcsListed(mgr, cluster)
    ensures Renders(mgr, cluster) != [] ==> Renders(mgr, cluster)[0] == RenderLSO
  {
  }

  /** OCS is rendered iff OCS is listed and the LSO render did not fail. */
  lemma OcsRenderedIff(mgr: Manager, cluster: Cluster)
    ensures RenderOCS in Renders(mgr, cluster) <==> OcsListed(mgr, cluster) && GenerateLSOManifests(mgr, cluster).Success?
  {
  }

  /** A backend is rendered iff `AnyOperatorEnabled` would report true. */
  lemma RendersIffAnyEnabled(mgr: Manager, cluster: Cluster)
    ensures Renders(mgr, cluster) != [] <==> LsoListed(mgr, cluster) || OcsListed(mgr, cluster)
  {
  }

  /** With neither LSO nor OCS listed, nothing is rendered and the result is an empty map. */
  lemma NoOperatorNoManifests(mgr: Manager, cluster: Cluster)
    requires !LsoListed(mgr, cluster) && !OcsListed(mgr, cluster)
    ensures Renders(mgr, cluster) == []
    ensures MergedManifests(mgr, cluster) == Success(map[])
  {
  }

  /** Entries that are neither backend's operator (such as builtins) enable nothing. */
  lemma OtherEntriesEnableNothing(mgr: Manager, cluster: Cluster)
    requires forall i :: 0 <= i < |cluster.monitoredOperators| ==>
      cluster.monitoredOperators[i].name != mgr.backends.lsoOperator.name &&
      cluster.monitoredOperators[i].name != mgr.backends.ocsOperator.name
    ensures !LsoListed(mgr, cluster) && !OcsListed(mgr, cluster)
    ensures MergedManifests(mgr, cluster) == Success(map[])
  {
  }

  /** On success the key set is the union of the rendered backends' key sets,
      and a key both render takes OCS's value. */
  lemma MergedKeysAndValues(mgr: Manager, cluster: Cluster)
    requires MergedManifests(mgr, cluster).Success?
    ensures var m := MergedManifests(mgr, cluster).value;
      var lso := Contribution(LsoWanted(mgr, cluster), GenerateLSOManifests(mgr, cluster));
      var ocs := Contribution(OcsListed(mgr, cluster), GenerateOCSManifests(mgr, cluster));
      && m.Keys == lso.Keys + ocs.Keys
      && (forall k :: k in ocs ==> m[k] == ocs[k])
      && (forall k :: k in lso && k !in ocs ==> m[k] == lso[k])
  {
  }

  /** The result fails iff a render call it made failed; the failing call is
      the last one made, and its error is returned unchanged. */
  lemma FailureIsLastRender(mgr: Manager, cluster: Cluster)
    ensures MergedManifests(mgr, cluster).Failure? <==>
      exists r :: r in Renders(mgr, cluster) && Output(mgr, cluster, r).Failure?
    ensures MergedManifests(mgr, cluster).Failure? ==>
      var rs := Renders(mgr, cluster);
      rs != [] && Output(mgr, cluster, rs[|rs| - 1]) == MergedManifests(mgr, cluster)
  {
    var rs := Renders(mgr, cluster);
    if MergedManifests(mgr, cluster).Failure? {
      if LsoWanted(mgr, cluster) && GenerateLSOManifests(mgr, cluster).Failure? {
        assert rs == [RenderLSO] && Output(mgr, cluster, rs[0]).Failure?;
      } else {
        assert rs == [RenderLSO, RenderOCS] && Output(mgr, cluster, rs[1]).Failure?;
      }
    }
  }

  /** A failed LSO render aborts: OCS is not rendered and the LSO error is returned. */
  lemma LsoFailureAborts(mgr: Manager, cluster: Cluster)
    requires LsoListed(mgr, cluster) || OcsListed(mgr, cluster)
    requires GenerateLSOManifests(mgr, cluster).Failure?
    ensures Renders(mgr, cluster) == [RenderLSO]
    ensures MergedManifests(mgr, cluster) == Failure(GenerateLSOManifests(mgr, cluster).error)
  {
  }

  /** A failed OCS render returns the OCS error and no partial map. */
  lemma OcsFailureAborts(mgr: Manager, cluster: Cluster)
    requires OcsListed(mgr, cluster)
    requires GenerateLSOManifests(mgr, cluster).Success? && GenerateOCSManifests(mgr, cluster).Failure?
    ensures Renders(mgr, cluster) == [RenderLSO, RenderOCS]
    ensures MergedManifests(mgr, cluster) == Failure(GenerateOCSManifests(mgr, cluster).error)
  {
  }

  /** A cluster listing only OCS gets both backends' manifests. */
  lemma OcsAloneYieldsBoth(mgr: Manager, cluster: Cluster)
    requires cluster.monitoredOperators == [mgr.backends.ocsOperator]
    requires GenerateLSOManifests(mgr, cluster).Success? && GenerateOCSManifests(mgr, cluster).Success?
    ensures Renders(mgr, cluster) == [RenderLSO, RenderOCS]
    ensures MergedManifests(mgr, cluster) ==
      Success(GenerateLSOManifests(mgr, cluster).value + GenerateOCSManifests(mgr, cluster).value)
  {
    assert OcsListed(mgr, cluster) by {
      assert cluster.monitoredOperators[0].name == mgr.backends.ocsOperator.name;
    }
  }

  /** A cluster listing only LSO gets exactly LSO's output, success or failure. */
  lemma LsoAloneYieldsLso(mgr: Manager, cluster: Cluster)
    requires cluster.monitoredOperators == [mgr.backends.lsoOperator]
    requires mgr.backends.lsoOperator.name != mgr.backends.ocsOperator.name
    ensures Renders(mgr, cluster) == [RenderLSO]
    ensures MergedManifests(mgr, cluster) == GenerateLSOManifests(mgr, cluster)
  {
    assert LsoListed(mgr, cluster) by {
      assert cluster.monitoredOperators[0].name == mgr.backends.lsoOperator.name;
    }
    var lso := GenerateLSOManifests(mgr, cluster);
    if lso.Success? {
      assert Contribution(true, lso) + Contribution(false, GenerateOCSManifests(mgr, cluster)) == lso.value;
    }
  }
}
