/**
 * The executor: admits tasks into the queue, dispatches them onto the QPU
 * only when it is IDLE, drains deferred work after each dispatch, runs
 * context batches, and interprets control commands. The QPU state machine
 * and the queue are its state; the hardware client answers its calls.
 */
module Executor {
  import opened Common
  import opened Errors
  import opened State
  import opened Fsm
  import opened Tasks
  import opened Results
  import opened TaskQueue
  import opened Qtol
  import HW = Hardware

  /** What `_execute_next` returns: one result, or one result per entry of a context batch. */
  datatype NextOutcome = Single(result: TaskResult) | Batch(results: seq<TaskResult>)

  /** The program a task runs on the QPU: one for a circuit or a test, none otherwise. */
  function ProgramOf(t: Task): seq<HW.HwRun>
  {
    match t.kind
    case Circuit(gates, shots) => [HW.CircuitRun(gates, shots)]
    case Test(symbol, params, shots) => [HW.TestRun(symbol, params, shots)]
    case Control(_, _) => []
    case Unsupported(_) => []
  }

  /** The programs of a list of entries, in list order. */
  function RunsOf(s: seq<QueueEntry>): seq<HW.HwRun>
  {
    if s == [] then [] else ProgramOf(s[0].task) + RunsOf(s[1..])
  }

  /** Every entry holds a circuit or a test. */
  ghost predicate AllWorkload(s: seq<QueueEntry>)
  {
    forall e :: e in s ==> IsWorkload(e.task)
  }

  /** `a` is what is left of `b` after removing entries from its front. */
  ghost predicate IsSuffix(a: seq<QueueEntry>, b: seq<QueueEntry>)
  {
    |a| <= |b| && a == b[|b| - |a|..]
  }

  /** `if context_id:` — a context is present when it is a non-empty string. */
  predicate HasContext(e: QueueEntry): (b: bool)
    ensures b <==> e.contextId != None && e.contextId != Some("")
  {
    e.contextId.Some? && e.contextId.value != ""
  }

  /**
   * Issue `e` from `prev`, then return `ack`: the call's outcome and the state
   * afterwards. An unlisted event raises and leaves the state as it was.
   */
  function AfterEvent(prev: QPUState, e: QPUEvent, ack: TaskResult): (Outcome<TaskResult>, QPUState)
  {
    if NextState(prev, e).Some? then (Returned(ack), NextState(prev, e).value)
    else (Raised(InvalidTransition(e)), prev)
  }

  lemma {:induction false} RunsOfAppend(a: seq<QueueEntry>, b: seq<QueueEntry>)
    ensures RunsOf(a + b) == RunsOf(a) + RunsOf(b)
  {
    if a == [] {
      assert a + b == b;
    } else {
      assert (a + b)[1..] == a[1..] + b;
      RunsOfAppend(a[1..], b);
    }
  }

  /** The programs of one more entry of a list. */
  lemma RunsOfPrefix(s: seq<QueueEntry>, i: nat)
    requires i < |s|
    ensures RunsOf(s[..i + 1]) == RunsOf(s[..i]) + ProgramOf(s[i].task)
  {
    assert s[..i + 1] == s[..i] + [s[i]];
    RunsOfAppend(s[..i], [s[i]]);
    assert [s[i]][1..] == [];
  }

  /** The first entry with the id of the last entry is that last entry, when no other entry has its id. */
  lemma LastIsFirstMatch(pending: seq<QueueEntry>, entry: QueueEntry)
    requires forall e :: e in pending ==> e.entryId != entry.entryId
    ensures var s := pending + [entry]; var k := FirstIndexOf(s, entry.entryId);
      k == |pending| && s[..k] + s[k + 1..] == pending
  {
    var s := pending + [entry];
    assert s[|pending|] == entry;
    assert forall j :: 0 <= j < |pending| ==> s[j] == pending[j] && pending[j] in pending;
    assert s[..|pending|] == pending && s[|pending| + 1..] == [];
  }

  /** A suffix of a suffix is a suffix. */
  lemma SuffixOfSuffix(a: seq<QueueEntry>, b: seq<QueueEntry>, c: seq<QueueEntry>)
    requires IsSuffix(a, b) && IsSuffix(b, c)
    ensures IsSuffix(a, c)
  {
  }

  /** The commands `_execute_control` knows; any other is acknowledged with an error. */
  const ControlCommands: set<string> := {"reset", "retune", "resetall", "qtol"}

  /**
   * What `_execute_control` does from state `prev`, given the hardware's next
   * retune reply, its next reset-all reply and its fidelity readings from
   * `evaluations` on: the call's outcome and the state afterwards.
   */
  function ControlOutcome(taskId: string, command: string, params: Option<seq<int>>, prev: QPUState,
                          retune: HW.HwReply, resetAll: HW.HwReply, readings: nat -> real, evaluations: nat)
    : (r: (Outcome<TaskResult>, QPUState))
    ensures r.0.Returned? ==> r.0.value.ControlAck? && r.0.value.taskId == taskId
    ensures r.0.Raised? ==> r.1 == prev
    ensures r.1 == prev || Some(r.1) == NextState(prev, Reset) || Some(r.1) == NextState(prev, TuneSuccess) ||
            Some(r.1) == NextState(prev, TuneFail)
    ensures command !in ControlCommands ==> r == (Returned(ControlAck(taskId, Error, UnknownControl(command))), prev)
  {
    if command == "reset" then
      AfterEvent(prev, Reset, ControlAck(taskId, Ok, Text("QPU reset")))
    else if command == "retune" then
      if retune.status == HW.Ok then (Raised(MissingAttribute("QPUAbstraction", "update_observables")), prev)
      else AfterEvent(prev, TuneFail, ControlAck(taskId, Error, HardwareMessage(retune.message)))
    else if command == "resetall" then
      if resetAll.status == HW.Ok then AfterEvent(prev, Reset, ControlAck(taskId, Ok, Text("Full QPU reset complete")))
      else AfterEvent(prev, TuneFail, ControlAck(taskId, Error, HardwareMessage(resetAll.message)))
    else if command == "qtol" then
      var settings := QtolSettings(params);
      var v := Qtol.Qtol(readings, evaluations, settings.0, RetryBudget(settings.1), 0);
      AfterEvent(prev, if v.status == Error then TuneFail else TuneSuccess, ControlAck(taskId, v.status, QtolMessage(v, settings.0)))
    else
      (Returned(ControlAck(taskId, Error, UnknownControl(command))), prev)
  }

  /** A `qtol` run decided by `v` issues TUNE_SUCCESS, or TUNE_FAIL on an error, and acknowledges with `v`'s status. */
  ghost predicate QtolAnswered(taskId: string, tolerance: real, v: QtolVerdict, prev: QPUState,
                               r: Outcome<TaskResult>, next: QPUState)
  {
    (r, next) == AfterEvent(prev, if v.status == Error then TuneFail else TuneSuccess,
                            ControlAck(taskId, v.status, QtolMessage(v, tolerance)))
  }

  /** A control task ends with the outcome and the state its command gives. */
  ghost predicate ControlEnds(task: Task, r: Outcome<TaskResult>, prev: QPUState, next: QPUState,
                              retune: HW.HwReply, resetAll: HW.HwReply, readings: nat -> real, evaluations: nat)
  {
    task.kind.Control? ==>
      (r, next) == ControlOutcome(task.taskId, task.kind.command, task.kind.commandParams, prev, retune, resetAll, readings, evaluations)
  }

  /**
   * A dispatched control task answers with what its command gives: the
   * command's failure when it raises, its acknowledgement when the call
   * returns.
   */
  ghost predicate ControlAnswered(task: Task, r: Outcome<TaskResult>, prev: QPUState,
                                  retune: HW.HwReply, resetAll: HW.HwReply, readings: nat -> real, evaluations: nat)
  {
    task.kind.Control? ==>
      var c := ControlOutcome(task.taskId, task.kind.command, task.kind.commandParams, prev, retune, resetAll, readings, evaluations).0;
      (c.Raised? ==> r == c) && (r.Returned? ==> r == c)
  }

  /**
   * From IDLE no known control command can succeed, whatever the hardware
   * answers: each issues RESET, TUNE_FAIL or TUNE_SUCCESS, none of which IDLE
   * accepts, or reaches the missing `update_observables`. An unknown command
   * is acknowledged with an error. Either way the QPU stays IDLE.
   */
  lemma ControlFromIdle(taskId: string, command: string, params: Option<seq<int>>,
                        retune: HW.HwReply, resetAll: HW.HwReply, readings: nat -> real, evaluations: nat)
    ensures var (r, next) := ControlOutcome(taskId, command, params, Idle, retune, resetAll, readings, evaluations);
      next == Idle && (r.Returned? <==> command !in ControlCommands) &&
      (r.Returned? ==> r.value == ControlAck(taskId, Error, UnknownControl(command)))
  {
    ControlEventsRejectedWhenIdle();
  }

  /**
   * Tasks that complete from IDLE, leaving it IDLE: circuits, tests, and
   * control tasks with an unknown command. A known command issues RESET,
   * TUNE_SUCCESS or TUNE_FAIL (or hits the missing `update_observables`),
   * none of which IDLE accepts; a task of no known type is rejected.
   */
  predicate CompletesFromIdle(t: Task)
  {
    IsWorkload(t) || (t.kind.Control? && t.kind.command !in ControlCommands)
  }

  /** How many entries at the front of `s` complete from IDLE: the first that does not is where a drain raises. */
  function CompletingPrefix(s: seq<QueueEntry>): (m: nat)
    ensures m <= |s|
    ensures forall j :: 0 <= j < m ==> CompletesFromIdle(s[j].task)
    ensures m < |s| ==> !CompletesFromIdle(s[m].task)
  {
    if s == [] || !CompletesFromIdle(s[0].task) then 0 else 1 + CompletingPrefix(s[1..])
  }

  /**
   * What draining the queue `s` from IDLE does, the QPU staying IDLE: when
   * every entry completes, nothing is raised, the queue ends empty and the
   * entries' programs run in order; otherwise the entry that does not
   * complete raises, the entries behind it stay queued, and only the
   * programs of the entries before it have run.
   */
  ghost predicate Drained(s: seq<QueueEntry>, raised: bool, rest: seq<QueueEntry>, before: seq<HW.HwRun>, after: seq<HW.HwRun>)
  {
    var m := CompletingPrefix(s);
    if m == |s| then !raised && rest == [] && after == before + RunsOf(s)
    else raised && rest == s[m + 1..] && after == before + RunsOf(s[..m])
  }

  /** Where a drain from IDLE stands between rounds: nothing done yet, or everything drained. */
  ghost predicate DrainProgress(s: seq<QueueEntry>, before: seq<HW.HwRun>, rest: seq<QueueEntry>, after: seq<HW.HwRun>)
  {
    (rest == s && after == before) || (rest == [] && Drained(s, false, [], before, after))
  }

  /**
   * Running `batch` from IDLE and then draining the queue `s`: the batch
   * raises at its first entry that does not complete, the queue untouched;
   * a batch that completes is followed by the drain of `s`.
   */
  ghost predicate BatchThenDrain(batch: seq<QueueEntry>, s: seq<QueueEntry>, raised: bool, rest: seq<QueueEntry>,
                                 before: seq<HW.HwRun>, after: seq<HW.HwRun>)
  {
    var k := CompletingPrefix(batch);
    if k < |batch| then raised && rest == s && after == before + RunsOf(batch[..k])
    else Drained(s, raised, rest, before + RunsOf(batch), after)
  }

  /** A front entry that completes, then the drain of the rest, is the drain of the whole queue. */
  lemma DrainedStep(s: seq<QueueEntry>, raised: bool, rest: seq<QueueEntry>, before: seq<HW.HwRun>, after: seq<HW.HwRun>)
    requires s != [] && CompletesFromIdle(s[0].task)
    requires Drained(s[1..], raised, rest, before + ProgramOf(s[0].task), after)
    ensures Drained(s, raised, rest, before, after)
  {
    var m := CompletingPrefix(s);
    assert m == 1 + CompletingPrefix(s[1..]);
    if m < |s| {
      assert s[1..][m - 1 + 1..] == s[m + 1..];
      assert s[..m][0] == s[0] && s[..m][1..] == s[1..][..m - 1];
    }
  }

  /** A front entry that does not complete raises at once, leaving the rest queued and nothing run. */
  lemma DrainedStop(s: seq<QueueEntry>, before: seq<HW.HwRun>)
    requires s != [] && !CompletesFromIdle(s[0].task)
    ensures Drained(s, true, s[1..], before, before)
  {
    assert s[..0] == [] && before + [] == before;
  }

  /** Dispatching the front entry's task, drain included, is the drain of the whole queue. */
  lemma DrainFromHead(s: seq<QueueEntry>, raised: bool, rest: seq<QueueEntry>, before: seq<HW.HwRun>, after: seq<HW.HwRun>)
    requires s != []
    requires CompletesFromIdle(s[0].task) ==> Drained(s[1..], raised, rest, before + ProgramOf(s[0].task), after)
    requires !CompletesFromIdle(s[0].task) ==> raised && rest == s[1..] && after == before
    ensures Drained(s, raised, rest, before, after)
  {
    if CompletesFromIdle(s[0].task) {
      DrainedStep(s, raised, rest, before, after);
    } else {
      DrainedStop(s, before);
    }
  }

  /** A queue of circuits and tests alone is drained completely: nothing raises, it ends empty, all its programs run. */
  lemma {:induction false} WorkloadDrains(s: seq<QueueEntry>, raised: bool, rest: seq<QueueEntry>, before: seq<HW.HwRun>, after: seq<HW.HwRun>)
    requires AllWorkload(s)
    ensures CompletingPrefix(s) == |s|
    ensures Drained(s, raised, rest, before, after) <==> !raised && rest == [] && after == before + RunsOf(s)
  {
    if s != [] {
      assert s[0] in s;
      assert forall e :: e in s[1..] ==> e in s;
      WorkloadDrains(s[1..], raised, rest, before, after);
    }
  }

  /**
   * What a task that completes from IDLE answers: a circuit the device's
   * distribution, a test the device's metrics, an unknown control command an
   * error acknowledgement; each under the task's id.
   */
  ghost predicate IdleAnswer(task: Task, hw: HW.HWManClient, res: TaskResult)
  {
    match task.kind
    case Circuit(gates, shots) => res == CircuitResult(task.taskId, hw.circuitOracle(gates, shots))
    case Test(symbol, params, shots) => res == TestResult(task.taskId, hw.testOracle(symbol, params, shots))
    case Control(command, _) => res == ControlAck(task.taskId, Error, UnknownControl(command))
    case Unsupported(_) => false
  }

  /** One answer per entry of a batch run from IDLE, each what its task answers. */
  ghost predicate BatchAnswered(entries: seq<QueueEntry>, hw: HW.HWManClient, results: seq<TaskResult>)
  {
    |results| == |entries| && forall i :: 0 <= i < |entries| ==> IdleAnswer(entries[i].task, hw, results[i])
  }

  /** A batch run from IDLE after `i` entries: each completed, answered as its task does, and ran its program. */
  ghost predicate BatchProgress(entries: seq<QueueEntry>, i: nat, hw: HW.HWManClient, results: seq<TaskResult>,
                                before: seq<HW.HwRun>, after: seq<HW.HwRun>)
  {
    i <= |entries| && (forall j :: 0 <= j < i ==> CompletesFromIdle(entries[j].task)) &&
    BatchAnswered(entries[..i], hw, results) && after == before + RunsOf(entries[..i])
  }

  /** One more entry that completes, answers `res` and runs its program. */
  lemma BatchProgressStep(entries: seq<QueueEntry>, i: nat, hw: HW.HWManClient, results: seq<TaskResult>,
                          before: seq<HW.HwRun>, after: seq<HW.HwRun>, res: TaskResult)
    requires i < |entries| && BatchProgress(entries, i, hw, results, before, after)
    requires CompletesFromIdle(entries[i].task) && IdleAnswer(entries[i].task, hw, res)
    ensures BatchProgress(entries, i + 1, hw, results + [res], before, after + ProgramOf(entries[i].task))
  {
    RunsOfPrefix(entries, i);
    var next := results + [res];
    forall j | 0 <= j < i + 1
      ensures IdleAnswer(entries[..i + 1][j].task, hw, next[j])
    {
      if j < i {
        assert entries[..i + 1][j] == entries[..i][j];
      }
    }
  }

  /** A batch whose `i`-th entry does not complete stops there. */
  lemma BatchStopsAt(entries: seq<QueueEntry>, i: nat, hw: HW.HWManClient, results: seq<TaskResult>,
                     before: seq<HW.HwRun>, after: seq<HW.HwRun>)
    requires i < |entries| && BatchProgress(entries, i, hw, results, before, after)
    requires !CompletesFromIdle(entries[i].task)
    ensures CompletingPrefix(entries) == i && after == before + RunsOf(entries[..i])
  {
  }

  /** A batch run to its end completed every entry. */
  lemma BatchDone(entries: seq<QueueEntry>, hw: HW.HWManClient, results: seq<TaskResult>,
                  before: seq<HW.HwRun>, after: seq<HW.HwRun>)
    requires BatchProgress(entries, |entries|, hw, results, before, after)
    ensures CompletingPrefix(entries) == |entries| && BatchAnswered(entries, hw, results)
    ensures after == before + RunsOf(entries)
  {
    assert entries[..|entries|] == entries;
  }

  /**
   * `_dispatch` outside IDLE: a circuit or test raises on TASK_STARTED and a
   * task of no known type raises, each leaving the state, the queue `s` and
   * the programs run as they were. A control task ends as its command gives;
   * when that brings the QPU to IDLE, the queue is drained from there.
   */
  ghost predicate DispatchedOutsideIdle(task: Task, prev: QPUState, r: Outcome<TaskResult>, next: QPUState,
                                        s: seq<QueueEntry>, rest: seq<QueueEntry>, before: seq<HW.HwRun>, after: seq<HW.HwRun>,
                                        retune: HW.HwReply, resetAll: HW.HwReply, readings: nat -> real, evaluations: nat)
  {
    prev != Idle ==>
      if task.kind.Control? then
        var c := ControlOutcome(task.taskId, task.kind.command, task.kind.commandParams, prev, retune, resetAll, readings, evaluations);
        if c.0.Returned? && c.1 == Idle then
          next == Idle && (r.Returned? ==> r == c.0) && Drained(s, r.Raised?, rest, before, after)
        else
          r == c.0 && next == c.1 && rest == s && after == before
      else
        r == Raised(if task.kind.Unsupported? then UnknownQPUTaskType(task.kind.typeName) else InvalidTransition(TaskStarted)) &&
        next == prev && rest == s && after == before
  }

  /** The outcome of the one dispatch behind a single result of `_execute_next`. */
  function SingleOutcome(r: Outcome<NextOutcome>): (o: Outcome<TaskResult>)
    requires r.Returned? ==> r.value.Single?
    ensures o.Raised? <==> r.Raised?
  {
    if r.Raised? then Raised(r.failure) else Returned(r.value.result)
  }

  class QPUExecutor {
    const qpu: QPUAbstraction
    const queue: QPUTaskQueue
    const hwman: HW.HWManClient

    ghost predicate Valid()
      reads this, queue
    {
      queue.Valid()
    }

    /** A fresh executor: an INACCESSIBLE QPU, an empty queue, and the given hardware client. */
    constructor (hwman: HW.HWManClient)
      ensures Valid() && fresh(qpu) && fresh(queue) && this.hwman == hwman
      ensures qpu.state == Inaccessible && qpu.lastTransition == None && queue.entries == []
    {
      qpu := new QPUAbstraction();
      queue := new QPUTaskQueue();
      this.hwman := hwman;
    }

    /** Issue `event`, then acknowledge with `ack` unless the event raised. */
    method Acknowledge(event: QPUEvent, ack: TaskResult) returns (r: Outcome<TaskResult>)
      modifies qpu
      ensures (r, qpu.state) == AfterEvent(old(qpu.state), event, ack)
      ensures r.Raised? ==> qpu.lastTransition == old(qpu.lastTransition)
    {
      var t := qpu.Transition(event);
      r := if t.Raised? then Raised(t.failure) else Returned(ack);
    }

    /**
     * TASK_STARTED, one circuit run, TASK_FINISHED. From IDLE it ends in IDLE
     * with the hardware's distribution under the task's id; from any other
     * state it raises before the hardware is called.
     */
    method ExecuteCircuit(taskId: string, gates: seq<Gate>, shots: int) returns (r: Outcome<TaskResult>)
      modifies qpu, hwman
      ensures old(qpu.state) == Idle ==>
        r == Returned(CircuitResult(taskId, hwman.circuitOracle(gates, shots))) &&
        qpu.state == Idle && qpu.lastTransition == Some(TransitionRecord(Busy, TaskFinished, Idle)) &&
        hwman.runs == old(hwman.runs) + [HW.CircuitRun(gates, shots)]
      ensures old(qpu.state) != Idle ==>
        r == Raised(InvalidTransition(TaskStarted)) && qpu.state == old(qpu.state) &&
        qpu.lastTransition == old(qpu.lastTransition) && hwman.runs == old(hwman.runs)
      ensures hwman.retunes == old(hwman.retunes) && hwman.resets == old(hwman.resets)
      ensures hwman.evaluations == old(hwman.evaluations)
    {
      var started := qpu.Transition(TaskStarted);
      if started.Raised? {
        return Raised(started.failure);
      }
      var distribution := hwman.RunCircuit(gates, shots);
      var finished := qpu.Transition(TaskFinished);
      if finished.Raised? {
        assert false;
      }
      return Returned(CircuitResult(taskId, distribution));
    }

    /** As `ExecuteCircuit`, for a named test with its integer parameters. */
    method ExecuteTest(taskId: string, symbol: string, params: seq<int>, shots: int) returns (r: Outcome<TaskResult>)
      modifies qpu, hwman
      ensures old(qpu.state) == Idle ==>
        r == Returned(TestResult(taskId, hwman.testOracle(symbol, params, shots))) &&
        qpu.state == Idle && qpu.lastTransition == Some(TransitionRecord(Busy, TaskFinished, Idle)) &&
        hwman.runs == old(hwman.runs) + [HW.TestRun(symbol, params, shots)]
      ensures old(qpu.state) != Idle ==>
        r == Raised(InvalidTransition(TaskStarted)) && qpu.state == old(qpu.state) &&
        qpu.lastTransition == old(qpu.lastTransition) && hwman.runs == old(hwman.runs)
      ensures hwman.retunes == old(hwman.retunes) && hwman.resets == old(hwman.resets)
      ensures hwman.evaluations == old(hwman.evaluations)
    {
      var started := qpu.Transition(TaskStarted);
      if started.Raised? {
        return Raised(started.failure);
      }
      var metrics := hwman.RunTest(symbol, params, shots);
      var finished := qpu.Transition(TaskFinished);
      if finished.Raised? {
        assert false;
      }
      return Returned(TestResult(taskId, metrics));
    }

    /**
     * Interpret a control command. `reset` issues RESET; `retune` and
     * `resetall` ask the hardware and issue TUNE_FAIL with the hardware's
     * message when it does not report OK; `qtol` runs the tolerance policy and
     * issues TUNE_SUCCESS or TUNE_FAIL; any other command is acknowledged with
     * an error and touches nothing. No control command runs a program.
     */
    method ExecuteControl(taskId: string, command: string, params: Option<seq<int>>) returns (r: Outcome<TaskResult>)
      modifies qpu, hwman
      ensures hwman.runs == old(hwman.runs)
      ensures (r, qpu.state) == ControlOutcome(taskId, command, params, old(qpu.state), hwman.retuneOracle(old(hwman.retunes)),
                                               hwman.resetAllOracle(old(hwman.resets)), hwman.fidelityOracle, old(hwman.evaluations))
      ensures r.Returned? ==> r.value.ControlAck? && r.value.taskId == taskId
      ensures r.Raised? ==> qpu.state == old(qpu.state) && qpu.lastTransition == old(qpu.lastTransition)
      ensures command == "reset" ==>
        (r, qpu.state) == AfterEvent(old(qpu.state), Reset, ControlAck(taskId, Ok, Text("QPU reset"))) &&
        hwman.retunes == old(hwman.retunes) && hwman.resets == old(hwman.resets) &&
        hwman.evaluations == old(hwman.evaluations)
      ensures command == "retune" ==>
        var reply := hwman.retuneOracle(old(hwman.retunes));
        hwman.retunes == old(hwman.retunes) + 1 && hwman.resets == old(hwman.resets) &&
        hwman.evaluations == old(hwman.evaluations) &&
        if reply.status == HW.Ok then
          r == Raised(MissingAttribute("QPUAbstraction", "update_observables"))
        else
          (r, qpu.state) == AfterEvent(old(qpu.state), TuneFail, ControlAck(taskId, Error, HardwareMessage(reply.message)))
      ensures command == "resetall" ==>
        var reply := hwman.resetAllOracle(old(hwman.resets));
        hwman.resets == old(hwman.resets) + 1 && hwman.retunes == old(hwman.retunes) &&
        hwman.evaluations == old(hwman.evaluations) &&
        if reply.status == HW.Ok then
          (r, qpu.state) == AfterEvent(old(qpu.state), Reset, ControlAck(taskId, Ok, Text("Full QPU reset complete")))
        else
          (r, qpu.state) == AfterEvent(old(qpu.state), TuneFail, ControlAck(taskId, Error, HardwareMessage(reply.message)))
      ensures command == "qtol" ==>
        var settings := QtolSettings(params);
        var v := Qtol.Qtol(hwman.fidelityOracle, old(hwman.evaluations), settings.0, RetryBudget(settings.1), 0);
        hwman.evaluations == old(hwman.evaluations) + v.evaluations &&
        hwman.retunes + 1 == old(hwman.retunes) + v.evaluations && hwman.resets == old(hwman.resets) &&
        (r, qpu.state) == AfterEvent(old(qpu.state), if v.status == Error then TuneFail else TuneSuccess,
                                     ControlAck(taskId, v.status, QtolMessage(v, settings.0)))
      ensures command != "reset" && command != "retune" && command != "resetall" && command != "qtol" ==>
        r == Returned(ControlAck(taskId, Error, UnknownControl(command))) &&
        qpu.state == old(qpu.state) && qpu.lastTransition == old(qpu.lastTransition) &&
        hwman.retunes == old(hwman.retunes) && hwman.resets == old(hwman.resets) &&
        hwman.evaluations == old(hwman.evaluations)
    {
      if command == "reset" {
        r := Acknowledge(Reset, ControlAck(taskId, Ok, Text("QPU reset")));
      } else if command == "retune" {
        var reply := hwman.Retune();
        if reply.status == HW.Ok {
          // the QPU abstraction has no `update_observables` (nor a RETUNE event)
          r := Raised(MissingAttribute("QPUAbstraction", "update_observables"));
        } else {
          r := Acknowledge(TuneFail, ControlAck(taskId, Error, HardwareMessage(reply.message)));
        }
      } else if command == "resetall" {
        var reply := hwman.RunResetAll();
        if reply.status == HW.Ok {
          r := Acknowledge(Reset, ControlAck(taskId, Ok, Text("Full QPU reset complete")));
        } else {
          r := Acknowledge(TuneFail, ControlAck(taskId, Error, HardwareMessage(reply.message)));
        }
      } else if command == "qtol" {
        r := RunQtol(taskId, params);
      } else {
        r := Returned(ControlAck(taskId, Error, UnknownControl(command)));
      }
    }

    /**
     * The `qtol` command: check the fidelity up to the retry budget, retuning
     * after each miss, check once more, and issue TUNE_SUCCESS or TUNE_FAIL
     * as `Qtol.Qtol` decides.
     */
    method RunQtol(taskId: string, params: Option<seq<int>>) returns (r: Outcome<TaskResult>)
      modifies qpu, hwman
      ensures hwman.runs == old(hwman.runs) && hwman.resets == old(hwman.resets)
      ensures r.Raised? ==> qpu.lastTransition == old(qpu.lastTransition)
      ensures var settings := QtolSettings(params);
        var v := Qtol.Qtol(hwman.fidelityOracle, old(hwman.evaluations), settings.0, RetryBudget(settings.1), 0);
        hwman.evaluations == old(hwman.evaluations) + v.evaluations &&
        hwman.retunes + 1 == old(hwman.retunes) + v.evaluations &&
        QtolAnswered(taskId, settings.0, v, old(qpu.state), r, qpu.state)
    {
      var settings := QtolSettings(params);
      var tolerance, maxRetries := settings.0, settings.1;
      ghost var v := Qtol.Qtol(hwman.fidelityOracle, hwman.evaluations, tolerance, RetryBudget(maxRetries), 0);
      var passed, fidelity := RetryUntilTolerance(tolerance, maxRetries);
      if passed {
        r := Acknowledge(TuneSuccess, ControlAck(taskId, Ok, FidelityMeetsTolerance(fidelity, tolerance)));
      } else {
        r := QtolLastCheck(taskId, tolerance);
      }
    }

    /**
     * The retry loop of `qtol`: up to `maxRetries` times, read the fidelity
     * and stop if it meets the tolerance, otherwise retune. `passed` says
     * whether a reading met it, in which case `fidelity` is that reading.
     */
    method RetryUntilTolerance(tolerance: real, maxRetries: int) returns (passed: bool, fidelity: real)
      modifies hwman
      ensures hwman.runs == old(hwman.runs) && hwman.resets == old(hwman.resets)
      ensures var v := Qtol.Qtol(hwman.fidelityOracle, old(hwman.evaluations), tolerance, RetryBudget(maxRetries), 0);
        (passed <==> v.status == Ok) &&
        (passed ==> v.fidelity == fidelity && hwman.evaluations == old(hwman.evaluations) + v.evaluations) &&
        (!passed ==> hwman.evaluations + 1 == old(hwman.evaluations) + v.evaluations &&
                     v == Qtol.Qtol(hwman.fidelityOracle, old(hwman.evaluations), tolerance, RetryBudget(maxRetries), RetryBudget(maxRetries))) &&
        hwman.retunes + 1 == old(hwman.retunes) + v.evaluations
    {
      ghost var retries := RetryBudget(maxRetries);
      ghost var start := hwman.evaluations;
      ghost var v := Qtol.Qtol(hwman.fidelityOracle, start, tolerance, retries, 0);
      var attempt := 0;
      while attempt < maxRetries
        invariant 0 <= attempt <= retries
        invariant hwman.evaluations == start + attempt && hwman.retunes == old(hwman.retunes) + attempt
        invariant hwman.resets == old(hwman.resets) && hwman.runs == old(hwman.runs)
        invariant Qtol.Qtol(hwman.fidelityOracle, start, tolerance, retries, attempt) == v
      {
        fidelity := hwman.EvaluateFidelity();
        if fidelity >= tolerance {
          assert v == QtolVerdict(Ok, fidelity, attempt + 1);
          return true, fidelity;
        }
        var _ := hwman.Retune();
        attempt := attempt + 1;
      }
      assert attempt == retries;
      return false, 0.0;
    }

    /**
     * The check after the retries are used up: a reading that meets the
     * tolerance issues TUNE_SUCCESS with a warning, one that misses it
     * TUNE_FAIL with an error.
     */
    method QtolLastCheck(taskId: string, tolerance: real) returns (r: Outcome<TaskResult>)
      modifies qpu, hwman
      ensures hwman.evaluations == old(hwman.evaluations) + 1 && hwman.retunes == old(hwman.retunes)
      ensures hwman.runs == old(hwman.runs) && hwman.resets == old(hwman.resets)
      ensures r.Raised? ==> qpu.lastTransition == old(qpu.lastTransition)
      ensures var fidelity := hwman.fidelityOracle(old(hwman.evaluations));
        QtolAnswered(taskId, tolerance, QtolVerdict(if fidelity >= tolerance then Warning else Error, fidelity, 0),
                     old(qpu.state), r, qpu.state)
    {
      var fidelity := hwman.EvaluateFidelity();
      if fidelity >= tolerance {
        r := Acknowledge(TuneSuccess, ControlAck(taskId, Warning, FidelityMetAfterRetries(fidelity)));
      } else {
        r := Acknowledge(TuneFail, ControlAck(taskId, Error, FidelityBelowTolerance(fidelity, tolerance)));
      }
    }

    /** Run one task by its type; a task of no known type raises `UnknownQPUTaskType`. */
    method RunTask(task: Task) returns (r: Outcome<TaskResult>)
      modifies qpu, hwman
      ensures task.kind.Unsupported? ==>
        r == Raised(UnknownQPUTaskType(task.kind.typeName)) && unchanged(qpu) && unchanged(hwman)
      ensures r.Returned? ==> r.value.taskId == task.taskId
      ensures old(qpu.state) == Idle ==>
        (r.Returned? <==> CompletesFromIdle(task)) && qpu.state == Idle && hwman.runs == old(hwman.runs) + ProgramOf(task)
      ensures IsWorkload(task) && old(qpu.state) != Idle ==>
        r == Raised(InvalidTransition(TaskStarted)) && qpu.state == old(qpu.state) && hwman.runs == old(hwman.runs)
      ensures !IsWorkload(task) ==> hwman.runs == old(hwman.runs)
      ensures old(qpu.state) == Idle && r.Returned? ==> IdleAnswer(task, hwman, r.value)
      ensures ControlEnds(task, r, old(qpu.state), qpu.state, hwman.retuneOracle(old(hwman.retunes)),
                          hwman.resetAllOracle(old(hwman.resets)), hwman.fidelityOracle, old(hwman.evaluations))
      ensures task.kind.Control? && task.kind.command !in ControlCommands ==>
        r == Returned(ControlAck(task.taskId, Error, UnknownControl(task.kind.command))) &&
        qpu.state == old(qpu.state) && qpu.lastTransition == old(qpu.lastTransition)
    {
      match task.kind
      case Circuit(gates, shots) =>
        r := ExecuteCircuit(task.taskId, gates, shots);
      case Test(symbol, params, shots) =>
        r := ExecuteTest(task.taskId, symbol, params, shots);
      case Control(command, params) =>
        r := ExecuteControl(task.taskId, command, params);
      case Unsupported(name) =>
        r := Raised(UnknownQPUTaskType(name));
    }

    /**
     * `_dispatch`: run the task, then drain deferred work. A result carries
     * the task's id and is returned only once the drain has stopped.
     */
    method Dispatch(task: Task) returns (r: Outcome<TaskResult>)
      requires Valid()
      modifies qpu, queue, hwman
      ensures Valid() && queue.issued == old(queue.issued)
      ensures IsSuffix(queue.entries, old(queue.entries))
      ensures task.kind.Unsupported? ==>
        r == Raised(UnknownQPUTaskType(task.kind.typeName)) && unchanged(qpu, queue, hwman)
      ensures r.Returned? ==> r.value.taskId == task.taskId && (queue.entries == [] || qpu.state != Idle)
      ensures old(qpu.state) == Idle ==>
        qpu.state == Idle &&
        if CompletesFromIdle(task) then
          Drained(old(queue.entries), r.Raised?, queue.entries, old(hwman.runs) + ProgramOf(task), hwman.runs)
        else
          r.Raised? && queue.entries == old(queue.entries) && hwman.runs == old(hwman.runs)
      ensures old(qpu.state) == Idle && r.Returned? ==> IdleAnswer(task, hwman, r.value)
      ensures ControlAnswered(task, r, old(qpu.state), hwman.retuneOracle(old(hwman.retunes)),
                              hwman.resetAllOracle(old(hwman.resets)), hwman.fidelityOracle, old(hwman.evaluations))
      ensures DispatchedOutsideIdle(task, old(qpu.state), r, qpu.state, old(queue.entries), queue.entries,
                                    old(hwman.runs), hwman.runs, hwman.retuneOracle(old(hwman.retunes)),
                                    hwman.resetAllOracle(old(hwman.resets)), hwman.fidelityOracle, old(hwman.evaluations))
      decreases |queue.entries|, 2
    {
      var result := RunTask(task);
      if result.Raised? {
        return result;
      }
      var drained := HandleDeferred();
      if drained.Raised? {
        return Raised(drained.failure);
      }
      return result;
    }

    /**
     * `_handle_deferred_tasks`: while the QPU is IDLE, dequeue the front entry
     * and dispatch its task. Each round dequeues before it dispatches, so the
     * queue shrinks and the drain ends: with the queue empty or the QPU out of
     * IDLE. From IDLE over circuits and tests only, the first dispatch already
     * drains everything behind it, in queue order.
     */
    method HandleDeferred() returns (r: Outcome<()>)
      requires Valid()
      modifies qpu, queue, hwman
      ensures Valid() && queue.issued == old(queue.issued)
      ensures IsSuffix(queue.entries, old(queue.entries))
      ensures r.Returned? ==> queue.entries == [] || qpu.state != Idle
      ensures old(qpu.state) != Idle ==>
        r == Returned(()) && qpu.state == old(qpu.state) && queue.entries == old(queue.entries) &&
        hwman.runs == old(hwman.runs)
      ensures old(qpu.state) == Idle ==>
        qpu.state == Idle && Drained(old(queue.entries), r.Raised?, queue.entries, old(hwman.runs), hwman.runs)
      decreases |queue.entries|, 1
    {
      while qpu.state == Idle
        invariant Valid() && queue.issued == old(queue.issued)
        invariant IsSuffix(queue.entries, old(queue.entries))
        invariant old(qpu.state) != Idle ==>
          qpu.state == old(qpu.state) && queue.entries == old(queue.entries) && hwman.runs == old(hwman.runs)
        invariant old(qpu.state) == Idle ==>
          qpu.state == Idle && DrainProgress(old(queue.entries), old(hwman.runs), queue.entries, hwman.runs)
        decreases |queue.entries|
      {
        ghost var before := queue.entries;
        var more := DrainOne();
        SuffixOfSuffix(queue.entries, before, old(queue.entries));
        if more.Raised? {
          return Raised(more.failure);
        }
        if !more.value {
          break;
        }
      }
      return Returned(());
    }

    /**
     * One round of the drain: dequeue the front entry and dispatch its task.
     * `Returned(false)` when the queue was empty, as the drain then stops.
     */
    method DrainOne() returns (r: Outcome<bool>)
      requires Valid()
      modifies qpu, queue, hwman
      ensures Valid() && queue.issued == old(queue.issued)
      ensures IsSuffix(queue.entries, old(queue.entries))
      ensures old(queue.entries) == [] ==>
        r == Returned(false) && queue.entries == [] && qpu.state == old(qpu.state) && hwman.runs == old(hwman.runs)
      ensures old(queue.entries) != [] ==>
        |queue.entries| < |old(queue.entries)| && (r.Returned? ==> r.value && (queue.entries == [] || qpu.state != Idle))
      ensures old(queue.entries) != [] && old(qpu.state) == Idle ==>
        qpu.state == Idle && Drained(old(queue.entries), r.Raised?, queue.entries, old(hwman.runs), hwman.runs)
      decreases |queue.entries|, 0
    {
      ghost var pending := queue.entries;
      ghost var idle := qpu.state == Idle;
      ghost var runs0 := hwman.runs;
      var entry := queue.Dequeue();
      if entry.None? {
        return Returned(false);
      }
      ghost var rest := pending[1..];
      assert entry.value == pending[0] && queue.entries == rest;
      var result := Dispatch(entry.value.task);
      SuffixOfSuffix(queue.entries, rest, pending);
      if idle {
        DrainFromHead(pending, result.Raised?, queue.entries, runs0, hwman.runs);
      }
      if result.Raised? {
        return Raised(result.failure);
      }
      return Returned(true);
    }

    /**
     * `_execute_batched_context`: run every entry's task in list order,
     * collecting one result per entry, then drain. An empty list raises at
     * its first line, which reads the first entry.
     */
    method ExecuteBatchedContext(entries: seq<QueueEntry>) returns (r: Outcome<seq<TaskResult>>)
      requires Valid()
      modifies qpu, queue, hwman
      ensures Valid() && queue.issued == old(queue.issued)
      ensures IsSuffix(queue.entries, old(queue.entries))
      ensures entries == [] ==> r == Raised(IndexError) && unchanged(qpu, queue, hwman)
      ensures r.Returned? ==>
        |r.value| == |entries| && (forall i :: 0 <= i < |entries| ==> r.value[i].taskId == entries[i].task.taskId) &&
        (queue.entries == [] || qpu.state != Idle)
      ensures old(qpu.state) == Idle && r.Returned? ==> BatchAnswered(entries, hwman, r.value)
      ensures entries != [] && old(qpu.state) == Idle ==>
        qpu.state == Idle && BatchThenDrain(entries, old(queue.entries), r.Raised?, queue.entries, old(hwman.runs), hwman.runs)
    {
      if entries == [] {
        return Raised(IndexError);
      }
      var results := RunBatch(entries);
      if results.Raised? {
        return Raised(results.failure);
      }
      var drained := HandleDeferred();
      if drained.Raised? {
        return Raised(drained.failure);
      }
      return results;
    }

    /**
     * The loop of `_execute_batched_context`: run each entry's task in list
     * order and collect its result; the first task that raises ends the batch.
     */
    method RunBatch(entries: seq<QueueEntry>) returns (r: Outcome<seq<TaskResult>>)
      modifies qpu, hwman
      ensures r.Returned? ==>
        |r.value| == |entries| && forall i :: 0 <= i < |entries| ==> r.value[i].taskId == entries[i].task.taskId
      ensures old(qpu.state) == Idle && r.Returned? ==> BatchAnswered(entries, hwman, r.value)
      ensures old(qpu.state) == Idle ==>
        qpu.state == Idle &&
        var k := CompletingPrefix(entries);
        if k < |entries| then r.Raised? && hwman.runs == old(hwman.runs) + RunsOf(entries[..k])
        else r.Returned? && hwman.runs == old(hwman.runs) + RunsOf(entries)
    {
      var results: seq<TaskResult> := [];
      var i := 0;
      while i < |entries|
        invariant 0 <= i <= |entries|
        invariant |results| == i
        invariant forall j :: 0 <= j < i ==> results[j].taskId == entries[j].task.taskId
        invariant old(qpu.state) == Idle ==>
          qpu.state == Idle && BatchProgress(entries, i, hwman, results, old(hwman.runs), hwman.runs)
      {
        var result := RunEntry(entries, i, results, old(hwman.runs));
        if result.Raised? {
          return Raised(result.failure);
        }
        results := results + [result.value];
        i := i + 1;
      }
      if old(qpu.state) == Idle {
        BatchDone(entries, hwman, results, old(hwman.runs), hwman.runs);
      }
      return Returned(results);
    }

    /**
     * One round of the batch loop: run the `i`-th entry's task. From IDLE, an
     * entry that completes extends the batch's progress; one that does not is
     * where the batch stops.
     */
    method RunEntry(entries: seq<QueueEntry>, i: nat, ghost results: seq<TaskResult>, ghost before: seq<HW.HwRun>)
      returns (r: Outcome<TaskResult>)
      requires i < |entries|
      modifies qpu, hwman
      ensures r.Returned? ==> r.value.taskId == entries[i].task.taskId
      ensures old(qpu.state) == Idle && BatchProgress(entries, i, hwman, results, before, old(hwman.runs)) ==>
        qpu.state == Idle &&
        if r.Returned? then BatchProgress(entries, i + 1, hwman, results + [r.value], before, hwman.runs)
        else CompletingPrefix(entries) == i && hwman.runs == before + RunsOf(entries[..i])
    {
      ghost var runs := hwman.runs;
      ghost var progress := qpu.state == Idle && BatchProgress(entries, i, hwman, results, before, runs);
      r := RunTask(entries[i].task);
      if progress {
        if r.Raised? {
          BatchStopsAt(entries, i, hwman, results, before, runs);
        } else {
          BatchProgressStep(entries, i, hwman, results, before, runs, r.value);
        }
      }
    }

    /**
     * `_execute_next`, corrected: take the front entry; if it carries a
     * context, run it together with every later entry of that context, in
     * queue order, as one batch; otherwise dispatch its task.
     */
    method ExecuteNext() returns (r: Outcome<NextOutcome>)
      requires Valid()
      modifies qpu, queue, hwman
      ensures Valid()
      ensures old(queue.entries) == [] ==> r == Raised(QPUQueueEmpty) && unchanged(qpu, hwman) && queue.entries == []
      ensures old(queue.entries) != [] && !HasContext(old(queue.entries)[0]) ==>
        var head := old(queue.entries)[0];
        (r.Returned? ==> r.value.Single? && r.value.result.taskId == head.task.taskId) &&
        (old(qpu.state) == Idle ==>
          qpu.state == Idle && Drained(old(queue.entries), r.Raised?, queue.entries, old(hwman.runs), hwman.runs) &&
          (r.Returned? ==> IdleAnswer(head.task, hwman, r.value.result))) &&
        DispatchedOutsideIdle(head.task, old(qpu.state), SingleOutcome(r), qpu.state, old(queue.entries)[1..], queue.entries,
                              old(hwman.runs), hwman.runs, hwman.retuneOracle(old(hwman.retunes)),
                              hwman.resetAllOracle(old(hwman.resets)), hwman.fidelityOracle, old(hwman.evaluations))
      ensures old(queue.entries) != [] && HasContext(old(queue.entries)[0]) ==>
        var head := old(queue.entries)[0];
        var batch := [head] + Select(old(queue.entries)[1..], head.contextId.value, true);
        var others := Select(old(queue.entries)[1..], head.contextId.value, false);
        (r.Returned? ==>
          r.value.Batch? && |r.value.results| == |batch| &&
          (forall i :: 0 <= i < |batch| ==> r.value.results[i].taskId == batch[i].task.taskId)) &&
        (old(qpu.state) == Idle ==>
          qpu.state == Idle && BatchThenDrain(batch, others, r.Raised?, queue.entries, old(hwman.runs), hwman.runs) &&
          (r.Returned? ==> BatchAnswered(batch, hwman, r.value.results)))
    {
      ghost var pending := queue.entries;
      ghost var runs0 := hwman.runs;
      ghost var idle := qpu.state == Idle;
      var entry := queue.Dequeue();
      if entry.None? {
        return Raised(QPUQueueEmpty);
      }
      var head := entry.value;
      assert head == pending[0] && queue.entries == pending[1..];
      if HasContext(head) {
        var rest := queue.DequeueAllForContext(head.contextId.value);
        var results := ExecuteBatchedContext([head] + rest);
        if results.Raised? {
          return Raised(results.failure);
        }
        return Returned(Batch(results.value));
      } else {
        var result := Dispatch(head.task);
        if idle {
          DrainFromHead(pending, result.Raised?, queue.entries, runs0, hwman.runs);
        }
        if result.Raised? {
          return Raised(result.failure);
        }
        return Returned(Single(result.value));
      }
    }

    /**
     * `_execute_next` as written: a front entry with a context is dequeued,
     * then the call fails because the queue has no `dequeue_all_for_context`;
     * that entry is gone and was never run.
     */
    method ExecuteNextAsWritten() returns (r: Outcome<NextOutcome>)
      requires Valid()
      modifies qpu, queue, hwman
      ensures Valid()
      ensures old(queue.entries) == [] ==> r == Raised(QPUQueueEmpty) && unchanged(qpu, hwman) && queue.entries == []
      ensures old(queue.entries) != [] && HasContext(old(queue.entries)[0]) ==>
        r == Raised(MissingAttribute("QPUTaskQueue", "dequeue_all_for_context")) &&
        queue.entries == old(queue.entries)[1..] && unchanged(qpu, hwman)
      ensures old(queue.entries) != [] && !HasContext(old(queue.entries)[0]) ==>
        var head := old(queue.entries)[0];
        (r.Returned? ==> r.value.Single? && r.value.result.taskId == head.task.taskId) &&
        (old(qpu.state) == Idle ==>
          qpu.state == Idle && Drained(old(queue.entries), r.Raised?, queue.entries, old(hwman.runs), hwman.runs) &&
          (r.Returned? ==> IdleAnswer(head.task, hwman, r.value.result))) &&
        DispatchedOutsideIdle(head.task, old(qpu.state), SingleOutcome(r), qpu.state, old(queue.entries)[1..], queue.entries,
                              old(hwman.runs), hwman.runs, hwman.retuneOracle(old(hwman.retunes)),
                              hwman.resetAllOracle(old(hwman.resets)), hwman.fidelityOracle, old(hwman.evaluations))
    {
      ghost var pending := queue.entries;
      ghost var runs0 := hwman.runs;
      ghost var idle := qpu.state == Idle;
      var entry := queue.Dequeue();
      if entry.None? {
        return Raised(QPUQueueEmpty);
      }
      var head := entry.value;
      assert head == pending[0] && queue.entries == pending[1..];
      if HasContext(head) {
        return Raised(MissingAttribute("QPUTaskQueue", "dequeue_all_for_context"));
      }
      var result := Dispatch(head.task);
      if idle {
        DrainFromHead(pending, result.Raised?, queue.entries, runs0, hwman.runs);
      }
      if result.Raised? {
        return Raised(result.failure);
      }
      return Returned(Single(result.value));
    }

    /**
     * `execute`, corrected: reject a task of no known type before enqueueing;
     * enqueue it; when the QPU is not IDLE, defer it (no result). When IDLE,
     * take its entry back out and dispatch the task itself, so it runs once,
     * ahead of the deferred entries the drain then runs.
     */
    method Execute(task: Task, user: string, contextId: Option<string> := None, priority: int := 0)
      returns (r: Outcome<Option<TaskResult>>)
      requires Valid()
      modifies qpu, queue, hwman
      ensures Valid()
      ensures task.kind.Unsupported? ==>
        r == Raised(UnknownQPUTaskType(task.kind.typeName)) && unchanged(qpu, queue, hwman)
      ensures !task.kind.Unsupported? && old(qpu.state) != Idle ==>
        r == Returned(None) &&
        queue.entries == old(queue.entries) + [QueueEntry(old(queue.issued), task, old(queue.issued), user, contextId, priority)] &&
        unchanged(qpu, hwman)
      ensures r.Returned? && r.value.Some? ==> r.value.value.taskId == task.taskId
      ensures old(qpu.state) == Idle && r.Returned? && r.value.Some? ==> IdleAnswer(task, hwman, r.value.value)
      ensures !task.kind.Unsupported? && old(qpu.state) == Idle ==>
        qpu.state == Idle &&
        if CompletesFromIdle(task) then
          (r.Returned? ==> r.value.Some?) &&
          Drained(old(queue.entries), r.Raised?, queue.entries, old(hwman.runs) + ProgramOf(task), hwman.runs)
        else
          r.Raised? && queue.entries == old(queue.entries) && hwman.runs == old(hwman.runs)
      ensures task.kind.Control? && task.kind.command !in ControlCommands && r.Returned? && r.value.Some? ==>
        r.value.value == ControlAck(task.taskId, Error, UnknownControl(task.kind.command))
      ensures task.kind.Control? && task.kind.command in ControlCommands ==> !(r.Returned? && r.value.Some?)
    {
      if task.kind.Unsupported? {
        return Raised(UnknownQPUTaskType(task.kind.typeName));
      }
      ghost var pending := queue.entries;
      var entry := queue.Enqueue(task, user, contextId, priority);
      if qpu.state != Idle {
        return Returned(None);
      }
      Unqueue(pending, entry);
      var result := Dispatch(task);
      if result.Raised? {
        return Raised(result.failure);
      }
      return Returned(Some(result.value));
    }

    /**
     * Take the entry just enqueued back off the queue: being the newest, it is
     * the last one, so the queue returns to what it held before.
     */
    method Unqueue(ghost pending: seq<QueueEntry>, entry: QueueEntry)
      requires Valid() && queue.entries == pending + [entry]
      requires forall e :: e in pending ==> e.entryId != entry.entryId
      modifies queue
      ensures Valid() && queue.entries == pending && queue.issued == old(queue.issued)
    {
      LastIsFirstMatch(pending, entry);
      var found := queue.Remove(entry.entryId);
    }

    /**
     * `execute` as written: it hands the queue entry, not its task, to
     * `_dispatch`, which reads the entry's `type`; a queue entry has none, so
     * every submission made while IDLE raises, leaving its entry queued.
     */
    method ExecuteAsWritten(task: Task, user: string, contextId: Option<string> := None, priority: int := 0)
      returns (r: Outcome<Option<TaskResult>>)
      requires Valid()
      modifies qpu, queue, hwman
      ensures Valid()
      ensures task.kind.Unsupported? ==>
        r == Raised(UnknownQPUTaskType(task.kind.typeName)) && unchanged(qpu, queue, hwman)
      ensures !task.kind.Unsupported? ==>
        queue.entries == old(queue.entries) + [QueueEntry(old(queue.issued), task, old(queue.issued), user, contextId, priority)] &&
        unchanged(qpu, hwman)
      ensures !task.kind.Unsupported? && old(qpu.state) != Idle ==> r == Returned(None)
      ensures !task.kind.Unsupported? && old(qpu.state) == Idle ==> r == Raised(MissingAttribute("QueueEntry", "type"))
    {
      if task.kind.Unsupported? {
        return Raised(UnknownQPUTaskType(task.kind.typeName));
      }
      var entry := queue.Enqueue(task, user, contextId, priority);
      if qpu.state != Idle {
        return Returned(None);
      }
      return Raised(MissingAttribute("QueueEntry", "type"));
    }
  }
}
