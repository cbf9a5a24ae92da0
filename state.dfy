/** The operating states of the QPU. */
module State {

  /**
   * The eight mutually exclusive states, from "no connection" to "running a task".
   * Exactly one is current at any time.
   */
  datatype QPUState =
    | Accessible
    | Responsive
    | Tuned
    | Idle
    | Busy
    | Mistuned
    | Unresponsive
    | Inaccessible

}
