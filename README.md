# lccfq-backend scheduling core in Dafny

This project models how the lccfq-backend decides what runs on the QPU and when.

**The QPU state machine.** `QPUAbstraction` walks from INACCESSIBLE through ACCESSIBLE, RESPONSIVE and TUNED to IDLE. It then alternates between IDLE and BUSY while tasks run. Any event the transition table does not list raises `UnknownQPUState`.

**The task queue.** `QPUTaskQueue` is a plain FIFO of queue entries. The priority and context recorded on an entry do not affect the order.

**The executor.** `QPUExecutor` does the following:
- It admits a task into the queue and defers the task while the QPU is not IDLE.
- Otherwise it dispatches the task, which runs a circuit, a test or a control command.
- After each dispatch it drains the deferred tasks for as long as the QPU stays IDLE.
- It runs a batch of tasks that share a context.
- It interprets the control commands: `reset`, `retune`, `resetall` and the fidelity-tolerance loop `qtol`.

**The exporter.** `export_observables` turns a snapshot of qubit observables into SLURM `KEY=VALUE` lines.
- Qubits are visited in ascending index order and the loop stops at the first index not below `max_qubits`.
- Each qubit gives either all twelve fields or a six-key summary.
- The `QPU_LAST_UPDATED` line always comes last.
- The text is the lines joined by newlines, plus a final newline.

The model keeps each line as a key and a value (`EnvLine`) until the file text is built. `LineText` renders a line as `Q<index>_<NAME>=<value>` or `QPU_LAST_UPDATED=<value>`.

## How the source is represented

**Exceptions.** A Python exception is a value: `Outcome<T>` is either `Returned(value)` or `Raised(failure)`. An attribute lookup that fails at run time becomes `MissingAttribute(owner, name)`.

**State.** The state machine, the queue and the executor are classes whose fields the methods update, as in the source. The pure parts are datatypes, functions and lemmas about them. This includes the transition table, the `qtol` policy and the export layout.

**The hardware client.** It is modelled as a class whose answers come from oracle functions given to its constructor. It records every program it runs in `runs` and counts its retunes, reset-alls and fidelity readings. A contract can therefore say exactly which programs a scheduling step ran and what the hardware was asked.

**Queue entry ids.** The queue's uuid and clock are replaced by a counter, `issued`. It supplies both the entry id and the logical timestamp, so ids are distinct and increasing.

**The drain loop.** Started from IDLE, the drain never leaves IDLE, because no task that returns from IDLE changes the state:
- Circuits, tests and control tasks with an unknown command complete and leave the QPU IDLE.
- A known control command raises from IDLE (`ControlFromIdle`). The drain stops there and the call raises. The entry that raised has already been dequeued and is lost. The entries behind it stay queued. `Drained` states this for any queue.

**Code versus prose.** Where the repository's prose and its code disagree, the model follows the code:
- the state machine has ten events and eleven listed pairs, with no RETUNE event;
- the queue is a FIFO without priorities, locks or `dequeue_all_for_context`;
- no known control command can succeed through `execute`. `execute` dispatches only from IDLE, and from IDLE:
  - `reset`, `resetall` and `qtol` issue RESET, TUNE_SUCCESS or TUNE_FAIL, and the table lists none of them for IDLE;
  - `retune` issues TUNE_FAIL on failure, and on success it reaches the missing `update_observables`.

  `ControlFromIdle` proves this: on the submission path, every known control command issues an event the state machine rejects. The model keeps the table of `backend/fsm.py` as written, and the two cases differ:
  - For `reset`, and for `resetall` when the device reports OK, the intent is evident: a listed pair (IDLE, RESET) → IDLE. `src/tests/backend/executor_test.py:57-66` expects an `ok` acknowledgement for `reset` submitted in IDLE. No test rejects the pair: `src/tests/model/state_machine_test.py:39-50` does not list it.
  - For `qtol` and `retune` the intent is not evident. `src/tests/model/state_machine_test.py:47` asserts that (IDLE, TUNE_SUCCESS) is invalid.

## Model

| member | source | states |
|---|---|---|
| Errors.UnknownQPUStateMessage | src/lccfq_backend/backend/error.py:13-22 | the message of `UnknownQPUState` embeds the offending detail verbatim at a fixed position |
| Fsm.InvalidTransition | src/lccfq_backend/backend/fsm.py:118-124 | an invalid transition raises `UnknownQPUState` carrying the event's value, and its message names that event |
| Fsm.NextState | src/lccfq_backend/backend/fsm.py:64-116 | no listed transition leads back to its own state: the table has no self-loop. That it defines exactly the eleven triples is `NextStateMatchesTable` |
| Fsm.NextStateMatchesTable | src/lccfq_backend/backend/fsm.py:71-116 | the successor function defines a successor for exactly the eleven listed (state, event) pairs, no pair is listed twice, and every unlisted pair has no successor |
| Fsm.BusyOnlyAroundTask | src/lccfq_backend/backend/fsm.py:104-110 | BUSY is entered only from IDLE on TASK_STARTED, and its only exit is TASK_FINISHED, which leads back to IDLE |
| Fsm.IdleEntries | src/lccfq_backend/backend/fsm.py:100-110 | IDLE is reached exactly from TUNED on RESET or from BUSY on TASK_FINISHED |
| Fsm.WorkingStatesClosed | src/lccfq_backend/backend/fsm.py:100-116 | from IDLE or BUSY, every accepted event leads to IDLE or BUSY |
| Fsm.ControlEventsRejectedWhenIdle | src/lccfq_backend/backend/fsm.py:71-116 | RESET, TUNE_SUCCESS and TUNE_FAIL are all rejected in IDLE |
| Fsm.NoDeadEnd | src/lccfq_backend/backend/fsm.py:71-116 | every state accepts at least one event |
| Fsm.StartupSequence | src/lccfq_backend/backend/fsm.py:72-110 | the evidence chain CONNECT, DEVICE_OK, TUNE_SUCCESS, RESET, TASK_STARTED, TASK_FINISHED takes INACCESSIBLE through ACCESSIBLE, RESPONSIVE, TUNED and IDLE to BUSY and back to IDLE |
| Fsm.QPUAbstraction.constructor | src/lccfq_backend/backend/fsm.py:39-45 | a new machine starts INACCESSIBLE with no transition recorded |
| Fsm.QPUAbstraction.Transition | src/lccfq_backend/backend/fsm.py:47-62 | a listed event moves to the table's successor and records (previous, event, next); an unlisted event raises `UnknownQPUState` for that event and changes neither the state nor the record |
| TaskQueue.FirstIndexOf | src/lccfq_backend/backend/queue.py:57-62 | the scan stops at the first entry with the id, every earlier entry has another id, and it reaches the end exactly when no entry has the id |
| TaskQueue.Select | src/lccfq_backend/backend/executor.py:76 | the entries of a context (or of every other context) form a sub-list of the queue |
| TaskQueue.SelectAppend | src/lccfq_backend/backend/executor.py:76 | selecting from a concatenation is the concatenation of the selections |
| TaskQueue.SelectPartitions | src/lccfq_backend/backend/executor.py:76 | the entries of a context and all the other entries together are exactly the queue's entries, as a multiset |
| TaskQueue.SelectKeepsOrder | src/lccfq_backend/backend/executor.py:76 | a selection keeps the submission order of the entries |
| TaskQueue.QPUTaskQueue.constructor | src/lccfq_backend/backend/queue.py:29-30 | a new queue is empty |
| TaskQueue.QPUTaskQueue.Enqueue | src/lccfq_backend/backend/queue.py:32-44 | the new entry carries the task, user, context and priority under a fresh id, and is appended at the back |
| TaskQueue.QPUTaskQueue.Dequeue | src/lccfq_backend/backend/queue.py:46-50 | an empty queue yields nothing and stays empty; otherwise the front entry is removed and returned |
| TaskQueue.QPUTaskQueue.Peek | src/lccfq_backend/backend/queue.py:52-55 | returns the front entry without removing it, or nothing when the queue is empty |
| TaskQueue.QPUTaskQueue.Remove | src/lccfq_backend/backend/queue.py:57-62 | reports true exactly when some entry has the id, removes only the first such entry, and otherwise leaves the queue as it was |
| TaskQueue.QPUTaskQueue.ListPending | src/lccfq_backend/backend/queue.py:64-65 | returns the pending entries in queue order |
| TaskQueue.QPUTaskQueue.Clear | src/lccfq_backend/backend/queue.py:67-68 | empties the queue |
| TaskQueue.QPUTaskQueue.DequeueAllForContext | src/lccfq_backend/backend/executor.py:76 | removes and returns, in order, the entries of the given context, leaving the others in order |
| TaskQueue.Partition | src/lccfq_backend/backend/executor.py:76 | one pass over the entries splits them into those of the context and the rest, each in queue order |
| TaskQueue.EnqueueAll | src/lccfq_backend/backend/queue.py:32-44 | enqueueing tasks one after another into an empty queue leaves them queued in submission order, whatever their priorities |
| TaskQueue.DequeueAll | src/lccfq_backend/backend/queue.py:46-50 | dequeueing until the queue is empty yields the queued tasks front to back |
| TaskQueue.DequeueOrder | src/lccfq_backend/backend/queue.py:32-50 | tasks enqueued with any priorities come back out in submission order |
| Qtol.QtolSettingsAsWritten | src/lccfq_backend/backend/executor.py:160-161 | a missing parameter list raises `TypeError`; a present list gives the settings below |
| Qtol.QtolSettings | src/lccfq_backend/backend/executor.py:160-161 | reference definition, used by `RunQtol`: tolerance is `params[0]` or 0.98, and the retry count is `params[1]` or 3 |
| Qtol.RetryBudget | src/lccfq_backend/backend/executor.py:163 | reference definition of `range(max_retries)`, used by `RunQtol`: a negative retry count runs no retry iteration |
| Qtol.Qtol | src/lccfq_backend/backend/executor.py:163-176 | reference definition of the loop, against which `RunQtol` is proved: a run from attempt k takes more than k and at most retries+1 readings, and reports the reading that decided it |
| Qtol.QtolMessage | src/lccfq_backend/backend/executor.py:167-176 | the acknowledgement's message reports the deciding reading; it names the tolerance unless the status is warning, and only a warning says the tolerance was met after retries |
| Qtol.QtolShape | src/lccfq_backend/backend/executor.py:163-176 | a run takes between one and retries+1 readings; every reading before the deciding one misses the tolerance; the status is ok, warning or error according to where it stopped and whether the last reading met the tolerance |
| Qtol.QtolClassification | src/lccfq_backend/backend/executor.py:163-176 | ok exactly when one of the first `retries` readings meets the tolerance; warning exactly when only the final reading does; error exactly when none does |
| Qtol.QtolPassesFirstCheck | src/lccfq_backend/backend/hwman_client.py:83-86 | with the stub's constant reading of 0.981 and default settings, `qtol` succeeds on the first reading |
| Qtol.QtolExhaustsRetries | src/lccfq_backend/backend/executor.py:163-176 | below a tolerance of 0.999 with two retries, the run fails after three readings |
| Hardware.HWManClient.constructor | src/lccfq_backend/backend/hwman_client.py:32-33 | a new client has run nothing and counted nothing |
| Hardware.HWManClient.RunCircuit | src/lccfq_backend/backend/hwman_client.py:35-43 | returns the device's distribution and records exactly one circuit run |
| Hardware.HWManClient.RunTest | src/lccfq_backend/backend/hwman_client.py:45-57 | returns the device's metrics and records exactly one test run |
| Hardware.HWManClient.Retune | src/lccfq_backend/backend/hwman_client.py:59-77 | returns the device's status and message and counts one retune; it runs no program |
| Hardware.HWManClient.RunResetAll | src/lccfq_backend/backend/hwman_client.py:79-81 | returns the device's status and message and counts one reset |
| Hardware.HWManClient.EvaluateFidelity | src/lccfq_backend/backend/hwman_client.py:83-86 | returns the next fidelity reading and counts it |
| Executor.HasContext | src/lccfq_backend/backend/executor.py:75 | `if context_id:` holds exactly when the context is neither None nor the empty string |
| Executor.ControlOutcome | src/lccfq_backend/backend/executor.py:132-180 | reference definition of `_execute_control`, against which `ExecuteControl` is proved: a returned result is a control acknowledgement under the task id; a raise leaves the state; the state moves only along a RESET, TUNE_SUCCESS or TUNE_FAIL transition; an unknown command gets an error acknowledgement and changes nothing |
| Executor.QPUExecutor.constructor | src/lccfq_backend/backend/executor.py:27-31 | a new executor has an INACCESSIBLE QPU and an empty queue |
| Executor.QPUExecutor.Acknowledge | src/lccfq_backend/backend/executor.py:136-138 | the acknowledgement is returned only when the state machine accepts the event; otherwise the call raises and the state stays |
| Executor.QPUExecutor.ExecuteCircuit | src/lccfq_backend/backend/executor.py:118-123 | from IDLE: runs the circuit once, returns its distribution under the task id and ends in IDLE after BUSY. From any other state: raises before touching the hardware |
| Executor.QPUExecutor.ExecuteTest | src/lccfq_backend/backend/executor.py:125-130 | the same as for circuits, for a named test and its parameters |
| Executor.QPUExecutor.ExecuteControl | src/lccfq_backend/backend/executor.py:132-180 | outcome and new state as `ControlOutcome` gives them from the old state and the hardware's answers. Per command: `reset` issues RESET; `retune` raises on OK (missing `update_observables`) and otherwise issues TUNE_FAIL with the device's message; `resetall` issues RESET or TUNE_FAIL; `qtol` takes as many readings as the policy says with one retune after each miss and issues TUNE_SUCCESS or TUNE_FAIL; unknown commands get an error acknowledgement and change nothing. No command runs a program |
| Executor.ControlFromIdle | src/lccfq_backend/backend/executor.py:132-180 | from IDLE, whatever the hardware answers, a control command returns exactly when it is unknown, and then with an error acknowledgement; the QPU stays IDLE |
| Executor.QPUExecutor.RunQtol | src/lccfq_backend/backend/executor.py:159-176 | the `qtol` branch: it takes the readings the policy prescribes, retunes after each miss, runs no program and resets nothing, and ends as the resulting TUNE_SUCCESS or TUNE_FAIL event leaves the state machine |
| Executor.QPUExecutor.RetryUntilTolerance | src/lccfq_backend/backend/executor.py:163-168 | the retry loop of `qtol`: it passes exactly when the policy's verdict is ok, and then reports the deciding reading. Otherwise every retry reading missed: the verdict is the one the final check alone decides, and that check's reading is still to be taken. Each missed reading is followed by one retune; no program runs and nothing is reset |
| Executor.QPUExecutor.QtolLastCheck | src/lccfq_backend/backend/executor.py:170-176 | the final check after the retries: it takes one reading and issues TUNE_SUCCESS with a warning when the reading meets the tolerance, and TUNE_FAIL with an error otherwise; it does not retune |
| Executor.QPUExecutor.RunTask | src/lccfq_backend/backend/executor.py:54-63 | routes by task kind: an unknown kind raises `UnknownQPUTaskType` and changes nothing. A workload outside IDLE raises before touching the hardware. From IDLE a workload runs exactly its own program and returns the device's distribution or metrics under the task id. A control task ends as `ControlOutcome` says. From IDLE the call returns exactly when the task completes from IDLE, and the QPU stays IDLE |
| Executor.QPUExecutor.Dispatch | src/lccfq_backend/backend/executor.py:53-66 | from IDLE, for any queue: a task that does not complete from IDLE raises with the queue untouched. Otherwise the task runs and answers as it does from IDLE (a circuit's distribution, a test's metrics, an unknown command's error acknowledgement), and the queue drains in FIFO order. Every entry's program runs up to the first entry that does not complete, which raises and is lost; the entries behind it stay queued, and the QPU stays IDLE. Outside IDLE: a workload or unknown kind raises and changes nothing. A control task ends as its command gives, and when that brings the QPU to IDLE the queue drains from there. It only ever removes entries from the queue's front |
| Executor.QPUExecutor.HandleDeferred | src/lccfq_backend/backend/executor.py:108-116 | does nothing unless IDLE. From IDLE, for any queue, it stays IDLE and drains in FIFO order up to the first entry that does not complete (as for `Dispatch`). A queue of circuits, tests and unknown commands is drained completely. On return the queue is empty or the QPU is not IDLE. Each round dequeues before it dispatches, so queue length bounds the rounds |
| Executor.QPUExecutor.DrainOne | src/lccfq_backend/backend/executor.py:109-115 | one iteration of the drain loop: stops on an empty queue, otherwise dispatches the front entry's task |
| Executor.QPUExecutor.RunBatch | src/lccfq_backend/backend/executor.py:87-102 | the loop over a batch: one result per entry, under that entry's task id and in batch order. From IDLE the QPU stays IDLE, and each result is what its task answers from IDLE. The batch runs exactly the programs of its entries up to the first entry that does not complete, which raises |
| Executor.QPUExecutor.ExecuteBatchedContext | src/lccfq_backend/backend/executor.py:83-106 | an empty batch raises `IndexError`; otherwise one result per entry in batch order, then the queue is drained. From IDLE, for any batch and queue: each result is what its task answers from IDLE. The batch raises at its first entry that does not complete, with the queue untouched; a batch that completes is followed by the drain of the queue |
| Executor.QPUExecutor.RunEntry | src/lccfq_backend/backend/executor.py:88-102 | one round of the batch loop: a returned result carries the entry's task id. From IDLE, an entry that completes answers as its task does and extends the batch by its program; one that does not is where the batch stops |
| Executor.QPUExecutor.ExecuteNext | src/lccfq_backend/backend/executor.py:68-81 | an empty queue raises `QPUQueueEmpty`. A head without a context (None or the empty string) is dispatched as by `Dispatch` with the rest of the queue behind it. From IDLE the head answers as its task does and the whole queue drains; outside IDLE a workload head raises and is lost with the rest still queued, and a control head ends as its command gives, draining the rest if it reaches IDLE. A head with a context runs together with every queued entry of that context, in queue order, with one result per batch entry; from IDLE each result is its task's answer and the other entries then drain in order. This holds for any queue |
| Executor.QPUExecutor.ExecuteNextAsWritten | src/lccfq_backend/backend/executor.py:68-81 | as written, a head with a context is dropped and the call raises on the missing `dequeue_all_for_context`; any other head is dispatched as `ExecuteNext` does |
| Executor.QPUExecutor.Execute | src/lccfq_backend/backend/executor.py:33-51 | an unknown kind raises and changes nothing; a task submitted while not IDLE is queued and `None` is returned. A task submitted in IDLE runs once and answers as it does from IDLE (a circuit's distribution, a test's metrics); then the queue drains as for `Dispatch` and the QPU stays IDLE. A known control command never yields a result; an unknown one yields an error acknowledgement |
| Executor.QPUExecutor.Unqueue | src/lccfq_backend/backend/executor.py:38-51 | part of the corrected `execute`: removing the entry just enqueued by its fresh id restores the queue to what it held before |
| Executor.QPUExecutor.ExecuteAsWritten | src/lccfq_backend/backend/executor.py:33-51 | as written, every admitted task is queued, and a submission in IDLE raises because the queue entry has no `type` |
| Observables.FieldNames | src/lccfq_backend/model/observables.py:17-32 | a qubit has twelve observables |
| Exporter.Upper | src/lccfq_backend/slurm/exporter.py:46 | reference definition of `str.upper` on ASCII: it keeps the length and maps each character |
| Exporter.AllFieldLines | src/lccfq_backend/slurm/exporter.py:44-47 | reference definition of the include-all block, used by `AppendQubitLines`: one line per field in declaration order, keyed by the qubit and the upper-cased field name, with that field's value |
| Exporter.SubsetLines | src/lccfq_backend/slurm/exporter.py:48-54 | the summary block has six lines keyed FREQ, T1, T2, F1Q, F2Q, DEPTH in that order |
| Exporter.KeyText | src/lccfq_backend/slurm/exporter.py:46-56 | a qubit key starts with `Q` and ends with the field name; no key text holds `=` unless its field name does |
| Exporter.LineTextSplits | src/lccfq_backend/slurm/exporter.py:46-56 | splitting a `KEY=VALUE` line at its first `=` gives back the key's text and the value, whatever the value holds |
| Exporter.QubitLinesSplittable | src/lccfq_backend/slurm/exporter.py:44-54 | no key a qubit's block uses holds `=` |
| Exporter.ExportedLinesSplit | src/lccfq_backend/slurm/exporter.py:40-56 | every exported line splits at its first `=` into its key and its value |
| Exporter.QubitLines | src/lccfq_backend/slurm/exporter.py:44-54 | a qubit gives twelve lines with every field, or six without |
| Exporter.QubitLinesKeyed | src/lccfq_backend/slurm/exporter.py:44-54 | every line of a qubit's block is keyed by that qubit |
| Exporter.SubsetIsProjection | src/lccfq_backend/slurm/exporter.py:48-54 | each summary line reports under its key the value of the field that key names (frequency, T1, T2, 1q and 2q fidelity, depth) |
| Exporter.SortedKeysMembers | src/lccfq_backend/slurm/exporter.py:40 | sorting lists each qubit index exactly once |
| Exporter.SortedKeysIncreasing | src/lccfq_backend/slurm/exporter.py:40 | sorted indices are strictly increasing |
| Exporter.Sorted | src/lccfq_backend/slurm/exporter.py:40 | computes the ascending order of the qubit indices |
| Exporter.TakeBelow | src/lccfq_backend/slurm/exporter.py:41-42 | the qubits kept are a prefix of the sorted ones, all below the cutoff |
| Exporter.TakeBelowStops | src/lccfq_backend/slurm/exporter.py:41-42 | the loop stops at the first index not below the cutoff |
| Exporter.TakeBelowFilters | src/lccfq_backend/slurm/exporter.py:41-42 | over increasing indices, stopping at the cutoff keeps exactly the indices below it |
| Exporter.EmittedQubits | src/lccfq_backend/slurm/exporter.py:40-42 | the emitted qubits are exactly the snapshot's qubits below `max_qubits`, in strictly increasing order |
| Exporter.ExportLines | src/lccfq_backend/slurm/exporter.py:37-56 | the lines built are those of the emitted qubits in order, then the timestamp line |
| Exporter.EmitQubits | src/lccfq_backend/slurm/exporter.py:40-54 | the loop emits the blocks of a prefix of the sorted indices, all below the cutoff, and stops only at the end or at the first index that is not |
| Exporter.ExportedIsFlatten | src/lccfq_backend/slurm/exporter.py:37-56 | the exported lines are the emitted qubits' blocks one after another, then the timestamp line |
| Exporter.AppendQubitLines | src/lccfq_backend/slurm/exporter.py:44-54 | appends exactly one qubit's lines |
| Exporter.TimestampLine | src/lccfq_backend/slurm/exporter.py:56 | the timestamp line reads `QPU_LAST_UPDATED=` followed by the snapshot's time |
| Exporter.ExportLayout | src/lccfq_backend/slurm/exporter.py:37-56 | the output has 6k+1 lines (12k+1 with every field) for k emitted qubits; the j-th block holds the j-th emitted qubit's lines; the timestamp line is last, even with no qubit |
| Exporter.EnvText | src/lccfq_backend/slurm/exporter.py:60 | the written text is never empty and ends with a newline |
| Exporter.EnvTextTerminatesLines | src/lccfq_backend/slurm/exporter.py:60 | joining with newlines and adding one terminates every line, the last one included |
| Exporter.EnvTextEndsWithLastLine | src/lccfq_backend/slurm/exporter.py:60 | the written text ends with the last line and a newline |
| Exporter.EnvTextEndsWithTimestamp | src/lccfq_backend/slurm/exporter.py:56-60 | the written text always ends with the timestamp line and its newline |

## Left out

- Writing the file, logging, and the logged write failure (`slurm/exporter.py:58-63`) are I/O. The model stops at the text to be written.
- Logging and the `print` in the state machine's `_log` are left out. They change no state the model tracks.
- `last_transition` is kept as a structured (previous, event, next) record rather than a formatted string. The f-string rendering of a `str` enum differs between Python versions.
- `uuid.uuid4()` and `datetime.now()` in `enqueue` are replaced by a counter. That keeps ids distinct but does not model their text.
- Observable values and distributions are opaque. Observable values are kept as the text they render to, with no float formatting. Circuit distributions and test metrics come from the hardware oracle. The fidelity formatting `:.3f` in `qtol` messages is not rendered.
- `Exporter.Upper` upper-cases ASCII letters only. The field names it is applied to are ASCII.
- Lines are built as key-value records and rendered to text only for the file. `Exporter.LineText` renders an index with `IntToString`, which writes what Python's `str` writes for an `int`.
- The hardware manager's internals (`backend/hwman.py`, the gRPC client and `run_qtol`) are not part of this model. The client's answers are oracle inputs.
- `backend/hwman.py`, `main.py`, `daemon/watchdog.py`, concurrency and daemons are not part of this model.
- The summaries and dictionary views of `model/observables.py` are not part of this model.
- `QPUExecutionContext` (`model/context.py`) is declared as a datatype. The executor never uses it, so no operation is modelled over it.
- `model/qpu_state`, imported at `backend/fsm.py:14`, is not modelled. The states are taken from `model/state.py`, which the tests import.
- `model/results.py`, imported at `backend/executor.py:15`, is not modelled. The result shapes are taken from their uses in `backend/executor.py:123-180`.
- `UnknownQPUTaskType` and `QPUQueueEmpty`, imported at `backend/executor.py:18`, are not defined in `backend/error.py`. They are modelled as distinct failures.
- Executor.QPUExecutor.ExecuteControl reads the client's replies as `(status, message)` tuples and calls `run_reset_all`.
  - As written, `result.status` on a tuple and `hwman.reset_all` would raise `AttributeError`.
  - The model takes the evidently intended reading, and does not model the raise.
- Executor.QPUExecutor.ExecuteControl: the retune inside the `qtol` loop ignores the client's reply, as the source does.
- Executor.QPUExecutor.ExecuteControl: for `qtol` it reads the parameters with `QtolSettings`, which treats a missing list like an empty one. As written, `len(None)` raises `TypeError` at `backend/executor.py:161`; `QtolSettingsAsWritten` models that raise.
- Executor.QPUExecutor.RunQtol: reads its settings with `QtolSettings` as well, for the same reason.
- Executor.QPUExecutor.ExecuteBatchedContext: for a batch started outside IDLE, the results are stated only by task id and count, and the runs and the drain are not stated. A control entry may bring the QPU to IDLE partway through such a batch. From IDLE, every result is stated by value.
- Executor.QPUExecutor.RunBatch: the same as for `ExecuteBatchedContext`, for a batch started outside IDLE.
- Executor.QPUExecutor.ExecuteNext: for a head with a context outside IDLE, only the results' task ids and count are stated, for the reason given for `ExecuteBatchedContext`.
- Executor.QPUExecutor.RunTask: a task whose `type` is not a `TaskType` member is represented by an `Unsupported` kind carrying the type name. Python's duck typing of arbitrary objects is not modelled.

## Findings

| source | as written | input that shows it | evidently intended | confidence | as-written member | corrected member |
|---|---|---|---|---|---|---|
| src/lccfq_backend/backend/executor.py:51 | `execute` passes the queue entry to `_dispatch`, which reads `entry.type`; a queue entry has no `type` field, so the call raises `AttributeError` and the entry stays queued | any circuit task submitted while the QPU is IDLE | take the entry back off the queue and dispatch its task | high (not executed) | Executor.QPUExecutor.ExecuteAsWritten | Executor.QPUExecutor.Execute |
| src/lccfq_backend/backend/executor.py:69-81 | `_execute_next` dequeues the head, then calls `dequeue_all_for_context`, which `QPUTaskQueue` does not define; the head is lost and never run | a queue whose front entry has context id "c" | run the head together with every queued entry of its context, in order | high (not executed) | Executor.QPUExecutor.ExecuteNextAsWritten | Executor.QPUExecutor.ExecuteNext |
| src/lccfq_backend/backend/executor.py:160-161 | with `params` None, the first line falls back to 0.98, but `len(task.params)` raises `TypeError` | a `qtol` control task whose `params` is None | treat a missing list like an empty one: tolerance 0.98, three retries | medium (not executed) | Qtol.QtolSettingsAsWritten | Qtol.QtolSettings |
