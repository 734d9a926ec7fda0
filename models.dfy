/** The records of the `models` and `common` packages that the operator
    manager reads. Only the fields the manager touches are kept. */
module Models {
  import opened Wrappers

  /** `models.OperatorType` is a named Go string type; any string is a value. */
  type OperatorType = string

  /** `models.OperatorTypeBuiltin`. The `models` package is not part of this
      model, so the value "builtin" is assumed; no proof depends on the literal. */
  const OperatorTypeBuiltin: OperatorType := "builtin"

  /** `models.MonitoredOperator`: one operator's identity and metadata, as it
      appears both in the manager's catalog and in a cluster's list. */
  datatype MonitoredOperator = MonitoredOperator(
    name: string,
    operatorType: OperatorType,
    timeoutSeconds: int,
    statusInfo: string)

  /** The parts of `common.Cluster` that the manager reads or passes to the
      renderers: the OpenShift version, the number of hosts
      (`len(cluster.Cluster.Hosts)`) and the ordered list of monitored
      operators. The OCS validator receives the whole cluster in the source;
      here it sees only these fields. */
  datatype Cluster = Cluster(
    openshiftVersion: string,
    hostCount: nat,
    monitoredOperators: seq<MonitoredOperator>)

  /** `models.OperatorOperatorTypeBuiltin`, the legacy spelling of the builtin
      type. Its value "builtin" is assumed, as for `OperatorTypeBuiltin`. */
  const OperatorOperatorTypeBuiltin: string := "builtin"

  /** `models.Operator`, the legacy descriptor whose name and type are Go
      `*string` fields: `None` is a nil pointer. */
  datatype Operator = Operator(
    name: Option<string>,
    operatorType: Option<string>,
    timeoutSeconds: int)

  /** `swag.StringValue`: the pointed-to string, or "" for a nil pointer. */
  function StringValue(s: Option<string>): string
  {
    match s
    case Some(v) => v
    case None => ""
  }
}
