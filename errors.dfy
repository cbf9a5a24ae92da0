/**
 * The exceptions the scheduling core raises, and the shape of a call that
 * either returns a value or raises one of them.
 */
module Errors {
  import opened Common

  datatype Failure =
    /** error.py: an event with no entry in the transition table; carries the event's value */
    | UnknownQPUState(detail: string)
    /** a task whose type is not circuit, test or control */
    | UnknownQPUTaskType(typeName: string)
    /** `_execute_next` on an empty queue */
    | QPUQueueEmpty
    /** Python `AttributeError`: `owner` has no member `name` */
    | MissingAttribute(owner: string, name: string)
    /** Python `IndexError` (indexing an empty list) */
    | IndexError
    /** Python `TypeError` (`len(None)`) */
    | TypeError

  /** The result of a call that may raise: Python's normal return or exception. */
  datatype Outcome<+T> = Returned(value: T) | Raised(failure: Failure)

  /** The message text `UnknownQPUState` carries: the offending value is quoted in it. */
  function UnknownQPUStateMessage(detail: string): (m: string)
    ensures |m| == |detail| + 49
    ensures m[20..20 + |detail|] == detail
    ensures Contains(m, detail)
  {
    "QPU state unknown - " + detail + ". Critical failure. Aborting."
  }
}
