/** The tasks the backend admits. */
module Tasks {
  import opened Common

  /** A gate of a circuit program. */
  datatype Gate = Gate(symbol: string, targetQubits: seq<int>, controlQubits: seq<int>, params: seq<real>)

  /**
   * What a task asks for, by type. `Unsupported` stands for an object whose
   * `type` is none of the three task types (the executor must reject it).
   */
  datatype TaskKind =
    | Circuit(gates: seq<Gate>, shots: int)
    | Test(symbol: string, params: seq<int>, shots: int)
    | Control(command: string, commandParams: Option<seq<int>>)
    | Unsupported(typeName: string)

  /** The fields every task shares, and its kind-specific payload. */
  datatype Task = Task(
    taskId: string,
    user: string,
    programId: Option<int>,
    timestamp: string,
    tags: map<string, string>,
    kind: TaskKind)

  /** Tasks that occupy the QPU: circuits and tests (they pass through BUSY). */
  predicate IsWorkload(t: Task)
  {
    t.kind.Circuit? || t.kind.Test?
  }
}
