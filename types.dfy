/** The records the drift scanner works on: one finding (`ScanResult`), one
    entry of the plan's resource changes, and the plan actions by their
    string values. */
module DriftTypes {

  datatype Option<+T> = None | Some(value: T)

  /** One detected drift finding; all five fields are plain strings, exactly
      as in the scanner's result struct. */
  datatype ScanResult = ScanResult(
    source: string,
    resource: string,
    changeType: string,
    severity: string,
    message: string)

  /** A plan action is a string value of the plan's JSON schema. */
  type Action = string

  const ActionCreate: Action := "create"
  const ActionUpdate: Action := "update"
  const ActionDelete: Action := "delete"

  /** One entry of the plan's resource changes: the resource type, its name
      and the actions the plan proposes for it (in the plan's order, possibly
      repeated, possibly outside the known set). The schema's other values,
      "no-op" and "read", are never looked for and so produce no finding. */
  datatype ResourceChange = ResourceChange(kind: string, name: string, actions: seq<Action>)

  /** The identifier the scanner reports: type, a dot, then name. */
  function ResourceId(rc: ResourceChange): (id: string)
    ensures |id| == |rc.kind| + 1 + |rc.name|
    ensures id[..|rc.kind|] == rc.kind && id[|rc.kind|] == '.' && id[|rc.kind| + 1..] == rc.name
  {
    rc.kind + "." + rc.name
  }

  /** The severity strings the scanner itself writes. */
  const Info := "info"
  const Warning := "warning"
  const Critical := "critical"
}
