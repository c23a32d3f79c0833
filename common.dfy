/** Values shared by the front end and its consumers: the optional wrapper that stands
    for a nullable reference, NetworkTables table handles and the opaque values the
    library delivers. */
module Common {

  /** A reference that may be null. */
  datatype Option<+T> = None | Some(value: T)

  /** A handle to a NetworkTables table, identified by its full path
      ("SmartDashboard", "SmartDashboard/autonomous"). Two handles are the same table
      exactly when their paths are equal. */
  datatype Table = Table(path: string)

  /** The handle `NetworkTable.GetTable(name)` gives for a top-level table. */
  function GetTable(name: string): Table
  {
    Table(name)
  }

  /** The handle `table.GetSubTable(name)` gives: the child path under `table`. */
  function GetSubTable(table: Table, name: string): (t: Table)
    ensures t.path == table.path + "/" + name
    ensures |t.path| > |table.path|
  {
    Table(table.path + "/" + name)
  }

  /** Whether a handler ran to its end or an exception left it. */
  datatype Outcome = Completed | Threw

  /** A NetworkTables value as delivered to listeners. Its contents are never inspected
      by the modelled code, so it is an opaque token. */
  datatype Value = Value(token: nat)
}
