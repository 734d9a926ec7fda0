/** The older operator catalog of internal/operators/operator_manager.go. Its
    descriptors are `models.Operator` values whose name and type are optional
    strings, read through `swag.StringValue`, so a missing name reads as "". */
module LegacyOperators {
  import opened Wrappers
  import opened Models

  const OperatorCVO: Operator := Operator(Some("cvo"), Some(OperatorOperatorTypeBuiltin), 60 * 60)

  const OperatorConsole: Operator := Operator(Some("console"), Some(OperatorOperatorTypeBuiltin), 60 * 60)

  /** The package-level `monitoredOperators` array; `lso` and `ocs` stand for
      `lso.Operator` and `ocs.Operator`, which come from packages outside this model. */
  function MonitoredOperators(lso: Operator, ocs: Operator): (r: seq<Operator>)
    ensures Names(r) == ["cvo", "console", StringValue(lso.name), StringValue(ocs.name)]
    ensures forall i :: 0 <= i < 2 ==>
      StringValue(r[i].operatorType) == OperatorOperatorTypeBuiltin && r[i].timeoutSeconds == 3600
    ensures r[2] == lso && r[3] == ocs
  {
    [OperatorCVO, OperatorConsole, lso, ocs]
  }

  /** The `operatorManager` struct, fixed once built. */
  datatype OperatorManager = OperatorManager(monitoredOperators: seq<Operator>)

  /** The names of a list of operators as `swag.StringValue` reads them. */
  function Names(ops: seq<Operator>): (r: seq<string>)
    ensures |r| == |ops|
    ensures forall i :: 0 <= i < |ops| ==> r[i] == StringValue(ops[i].name)
  {
    if ops == [] then [] else [StringValue(ops[0].name)] + Names(ops[1..])
  }

  /** `NewOperatorManager`. */
  function NewOperatorManager(lso: Operator, ocs: Operator): (manager: OperatorManager)
    ensures Names(manager.monitoredOperators) == ["cvo", "console", StringValue(lso.name), StringValue(ocs.name)]
  {
    OperatorManager(MonitoredOperators(lso, ocs))
  }

  /** `GetMonitoredOperatorsList`: the stored catalog, whole and in order. */
  function GetMonitoredOperatorsList(manager: OperatorManager): (r: seq<Operator>)
    ensures r == manager.monitoredOperators
  {
    manager.monitoredOperators
  }

  /** A manager from the constructor lists the whole catalog, CVO, Console,
      LSO, OCS, with their types and timeouts. */
  lemma MonitoredOperatorsListOrder(lso: Operator, ocs: Operator)
    ensures GetMonitoredOperatorsList(NewOperatorManager(lso, ocs)) == [OperatorCVO, OperatorConsole, lso, ocs]
  {
  }

  /** Some entry of `ops` reads as `name`. */
  ghost predicate Listed(ops: seq<Operator>, name: string)
  {
    exists i :: 0 <= i < |ops| && StringValue(ops[i].name) == name
  }

  /** `ops[i]` is the first entry of `ops` that reads as `name`. */
  ghost predicate FirstMatch(ops: seq<Operator>, name: string, i: int)
  {
    && 0 <= i < |ops|
    && StringValue(ops[i].name) == name
    && forall j :: 0 <= j < i ==> StringValue(ops[j].name) != name
  }

  /** The error `GetOperatorByName` returns for an unknown name. */
  function NotSupportedError(operatorName: string): string
  {
    "Operator " + operatorName + " isn't supported"
  }

  /** `GetOperatorByName`: the first catalog entry whose name reads as the
      query, or an error. */
  method GetOperatorByName(manager: OperatorManager, operatorName: string) returns (r: Result<Operator>)
    ensures r.Success? <==> Listed(manager.monitoredOperators, operatorName)
    ensures r.Success? ==> exists i :: FirstMatch(manager.monitoredOperators, operatorName, i) && r.value == manager.monitoredOperators[i]
    ensures r.Failure? ==> r.error == NotSupportedError(operatorName)
  {
    var ops := manager.monitoredOperators;
    for i := 0 to |ops|
      invariant forall j :: 0 <= j < i ==> StringValue(ops[j].name) != operatorName
    {
      if StringValue(ops[i].name) == operatorName {
        assert FirstMatch(ops, operatorName, i);
        return Success(ops[i]);
      }
    }
    return Failure(NotSupportedError(operatorName));
  }

  /** The entries of `ops` whose type reads as `t`, in their order in `ops`. */
  function OfType(ops: seq<Operator>, t: string): seq<Operator>
  {
    if ops == [] then []
    else (if StringValue(ops[0].operatorType) == t then [ops[0]] else []) + OfType(ops[1..], t)
  }

  /** `GetOperatorsByType`: appends each catalog entry whose type reads as the query. */
  method GetOperatorsByType(manager: OperatorManager, operatorType: string) returns (operators: seq<Operator>)
    ensures operators == OfType(manager.monitoredOperators, operatorType)
  {
    var ops := manager.monitoredOperators;
    operators := [];
    for i := 0 to |ops|
      invariant operators == OfType(ops[..i], operatorType)
    {
      assert ops[..i + 1] == ops[..i] + [ops[i]];
      OfTypeAppend(ops[..i], [ops[i]], operatorType);
      if StringValue(ops[i].operatorType) == operatorType {
        operators := operators + [ops[i]];
      }
    }
    assert ops[..|ops|] == ops;
  }

  /** Filtering distributes over concatenation: the order of the catalog is kept. */
  lemma {:induction false} OfTypeAppend(a: seq<Operator>, b: seq<Operator>, t: string)
    ensures OfType(a + b, t) == OfType(a, t) + OfType(b, t)
  {
    if a == [] {
      assert a + b == b;
    } else {
      var head := if StringValue(a[0].operatorType) == t then [a[0]] else [];
      assert (a + b)[0] == a[0];
      assert (a + b)[1..] == a[1..] + b;
      assert OfType(a + b, t) == head + OfType(a[1..] + b, t);
      OfTypeAppend(a[1..], b, t);
      assert OfType(a, t) == head + OfType(a[1..], t);
    }
  }

  /** Exactly the entries whose type reads as `t` survive the filter; an entry
      with no type survives exactly the query "". */
  lemma {:induction false} OfTypeMembers(ops: seq<Operator>, t: string, o: Operator)
    ensures o in OfType(ops, t) <==> o in ops && StringValue(o.operatorType) == t
  {
    if ops != [] {
      OfTypeMembers(ops[1..], t, o);
      assert ops == [ops[0]] + ops[1..];
    }
  }

  /** A nameless entry is found by the query "" unless an earlier entry also reads as "". */
  lemma NamelessEntryReadsAsEmpty(ops: seq<Operator>, i: int)
    requires 0 <= i < |ops| && ops[i].name.None?
    requires forall j :: 0 <= j < i ==> ops[j].name != Some("") && ops[j].name.Some?
    ensures FirstMatch(ops, "", i)
  {
  }

  /** Each name stored in the catalog is found, and it is the first entry with that name
      when the backends' names differ from the builtin ones. */
  lemma CatalogLookup(lso: Operator, ocs: Operator)
    requires StringValue(lso.name) !in {"cvo", "console"}
    requires StringValue(ocs.name) !in {"cvo", "console", StringValue(lso.name)}
    ensures FirstMatch(MonitoredOperators(lso, ocs), "cvo", 0)
    ensures FirstMatch(MonitoredOperators(lso, ocs), "console", 1)
    ensures FirstMatch(MonitoredOperators(lso, ocs), StringValue(lso.name), 2)
    ensures FirstMatch(MonitoredOperators(lso, ocs), StringValue(ocs.name), 3)
  {
  }

  /** A name is found in the catalog iff it is one of the four names the catalog reads as. */
  lemma CatalogListedIff(lso: Operator, ocs: Operator, name: string)
    ensures Listed(MonitoredOperators(lso, ocs), name) <==>
      name in ["cvo", "console", StringValue(lso.name), StringValue(ocs.name)]
  {
    var cat := MonitoredOperators(lso, ocs);
    assert StringValue(cat[0].name) == "cvo" && StringValue(cat[1].name) == "console";
    if name == StringValue(lso.name) {
      assert StringValue(cat[2].name) == name;
    }
    if name == StringValue(ocs.name) {
      assert StringValue(cat[3].name) == name;
    }
    if Listed(cat, name) {
      var i :| 0 <= i < |cat| && StringValue(cat[i].name) == name;
      assert i == 0 || i == 1 || i == 2 || i == 3;
    }
  }
}
