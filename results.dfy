/** What a dispatched task returns to its caller. */
module Results {
  import opened Common

  /** The status of a control acknowledgement. */
  datatype AckStatus = Ok | Warning | Error

  /**
   * The human-readable message of an acknowledgement. Fixed texts are kept
   * verbatim; messages that format a fidelity keep the numbers instead of
   * their decimal rendering.
   */
  datatype AckMessage =
    | Text(text: string)
    | HardwareMessage(message: Option<string>)
    | FidelityMeetsTolerance(fidelity: real, tolerance: real)
    | FidelityMetAfterRetries(fidelity: real)
    | FidelityBelowTolerance(fidelity: real, tolerance: real)
    | UnknownControl(command: string)

  datatype TaskResult =
    | CircuitResult(taskId: string, distribution: map<string, int>)
    | TestResult(taskId: string, parameters: map<string, real>)
    | ControlAck(taskId: string, status: AckStatus, message: AckMessage)
}
