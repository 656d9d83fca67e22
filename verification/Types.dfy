/** Values shared by the server's workstation table and the worker's runtimes. */
module Types {

  datatype Option<+T> = None | Some(value: T)

  type WorkerId = string
  type WorkstationId = string
  type MemberId = string
  type VMName = string

  /** The power states of the wire protocol (workstation_power_state, VMState). */
  datatype Power = Starting | Running | Stopping | Stopped | Deleting | Deleted | Error

  /** The desired power states. `Unknown` is any other text: both sides have a branch for it. */
  datatype Desired = Running | Stopped | Deleted | Unknown(text: string)

  /** A row of the workstations table, keyed elsewhere by its id. */
  datatype Row = Row(
    member: MemberId,
    worker: WorkerId,
    slot: int,
    vmName: VMName,
    power: Power,
    desired: Desired
  )

  /** One entry of the desired list in a heartbeat response, keyed elsewhere by its id. */
  datatype Item = Item(vmName: VMName, slot: int, desired: Desired)

  /** A status report a worker sends about one workstation. */
  datatype Report = Report(id: WorkstationId, power: Power)

  /** The last element, such as the state a run ends in. */
  function Final<T>(s: seq<T>): T
    requires s != []
  {
    s[|s| - 1]
  }
}
