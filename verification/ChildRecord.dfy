/**
  The fields of the backend that `mu` protects, and the critical sections that touch them.

  Every section is short and never blocks, so the interleaving model in `ChildLifecycle`
  runs each of them as one step. The functions on `Record` are what one section does; the class
  in `ChildBackend` has the sections as the source writes them, on mutable fields.
*/
module ChildRecord {
  import opened Wrappers

  /** A spawned llama-server process, and the `done` channel made for it: numbered in spawn order. */
  type ChildId = nat

  datatype ChildState = ChildRunning | ChildSuspended | ChildFailed

  datatype Record = Record(cmd: Option<ChildId>, port: nat, cmdDone: Option<ChildId>, stopping: bool, state: ChildState)

  const INITIAL_RECORD := Record(None, 0, None, false, ChildRunning)

  function Published(r: Record, c: ChildId): Record {
    r.(cmd := Some(c), port := 0, cmdDone := Some(c), state := ChildRunning)
  }

  function Reaped(r: Record, c: ChildId): Record {
    if r.cmd == Some(c) then r.(cmd := None, port := 0, state := ChildFailed) else r
  }

  function StopMarked(r: Record): Record {
    if r.cmd == None then r else r.(stopping := true)
  }
}
