/** Process identities as the native shim records them, and the optional value
    type the rest of the model shares. */
module Process {

  datatype Option<+T> = None | Some(value: T)

  /** The largest process id that fits the signed argument of kill(2). */
  const MAX_PID := 0x7FFF_FFFF

  /** A process is named by its pid and its start time. The process group it
      was last seen in is recorded beside them, and may change. Start times are
      only ever compared for equality, so a number stands for each of them. */
  datatype Identity = Identity(pid: nat, pgid: nat, start: nat)
  {
    predicate SameProcess(other: Identity) {
      pid == other.pid && start == other.start
    }

    predicate Leads() {
      pid == pgid
    }
  }

  datatype Record = Record(identity: Identity, ppid: nat, exited: bool)

  /** Errors are told apart only as far as the shim does: invalid data or an
      unsupported call, a vanished process, a denied permission, anything else. */
  datatype Fault = Invalid | Vanished | Denied | Transient

  datatype Answer<+T> = Ok(value: T) | Err(fault: Fault)

  datatype Stat = Stat(pgid: nat, start: nat, ppid: nat, exited: bool)

  const SIGINT: nat := 2
  const SIGKILL: nat := 9
  const SIGTERM: nat := 15

  /** `q` runs through `s`, every element once. */
  ghost predicate Listing<T(!new)>(q: seq<T>, s: set<T>) {
    && (forall x :: x in q <==> x in s)
    && (forall i, j :: 0 <= i < j < |q| ==> q[i] != q[j])
  }
}
